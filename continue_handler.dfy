/**
 * The handler of "sigue" (ContinueIntent and AMAZON.ResumeIntent): resume
 * the stored game and call the next batch of up to 40 balls in one response.
 */
module ContinueHandler {
  import opened Optional
  import opened GameLogic
  import opened Speech
  import opened Pacing
  import opened Batching
  import StartGameHandler

  /** The progress marker of this handler says "Van N bolas". */
  const PROGRESS_LEAD := "Van"

  const REPROMPT_NO_GAME := "Di \"nueva partida\" para comenzar a jugar."
  const REPROMPT_GAME_OVER := "Di \"nueva partida\" para jugar otra vez."
  const REPROMPT_CONTINUE := "Di \"sigue\" para continuar cantando números."

  /** How many of the 90 balls the closing prompt says are left. */
  function NumbersLeft(called: seq<int>): int
  {
    MAX_BALL - |called|
  }

  /**
   * The handler, with the stored game as `g` (`null` when nothing is stored)
   * and the random choices of iteration `k` as `rolls(k)`.
   *
   * Without an active game nothing changes. Otherwise the game is resumed and
   * the batch runs on it: the called list becomes the batch's list, the speech
   * is the batch's announcements between the emotion tags, and the game ends
   * exactly when a draw finds the drum empty, in which case the completion
   * text replaces the "quedan" prompt.
   */
  method Handle(g: GameState?, rolls: nat -> Roll) returns (response: Response)
    modifies g
    ensures g == null || !old(g.active) ==> response == Response([NoActiveGame], REPROMPT_NO_GAME)
    ensures g != null && !old(g.active) ==> unchanged(g)
    ensures g != null && old(g.active) ==>
      var start := old(g.calledNumbers);
      var o := Batch(rolls, PauseTime(old(g.speed)), PROGRESS_LEAD, start, [OpenCalls]);
      && start <= o.called
      && g.calledNumbers == o.called
      && g.active == !o.exhausted
      && !g.paused
      && g.speed == old(g.speed)
      && (o.called == start ==> g.lastNumber == old(g.lastNumber))
      && (o.called != start ==> g.lastNumber == Some(Last(o.called)))
      && response == if o.exhausted then Response(o.said + [AllCalled], REPROMPT_GAME_OVER)
                     else Response(o.said + [CloseCalls] + [BallsLeft(NumbersLeft(o.called))], REPROMPT_CONTINUE)
    ensures g != null && old(g.Valid()) ==> g.Valid()
  {
    if g == null || !g.active {
      return Response([NoActiveGame], REPROMPT_NO_GAME);
    }
    ghost var wasValid := g.Valid();
    ghost var start := g.calledNumbers;
    g.paused := false;
    var pauseTime := PauseTime(g.speed);

    var speakOutput := [OpenCalls];
    var exhausted;
    speakOutput, exhausted := RunBatch(g, speakOutput, pauseTime, PROGRESS_LEAD, rolls);
    if wasValid {
      BatchFromValidState(rolls, pauseTime, PROGRESS_LEAD, start, [OpenCalls]);
    }
    if exhausted {
      speakOutput := speakOutput + [AllCalled];
      g.active := false;
      return Response(speakOutput, REPROMPT_GAME_OVER);
    }

    speakOutput := speakOutput + [CloseCalls];
    var numbersLeft := NumbersLeft(g.calledNumbers);
    speakOutput := speakOutput + [BallsLeft(numbersLeft)];
    response := Response(speakOutput, REPROMPT_CONTINUE);
  }

  /**
   * Resuming a valid game with 85 balls called draws the last 5, announces
   * them after whatever speech came before (the handler's is `[OpenCalls]`),
   * and ends the game.
   */
  lemma ResumeAt85EndsGame(pause: string, rolls: nat -> Roll, called: seq<int>, said: seq<Segment>)
    requires ValidCalled(called) && |called| == 85
    ensures var o := Batch(rolls, pause, PROGRESS_LEAD, called, said);
      && o.exhausted
      && |o.called| == MAX_BALL
      && |Calls(o.said)| == |Calls(said)| + 5
      && forall x :: InRange(x) ==> x in o.called
  {
    BatchFromValidState(rolls, pause, PROGRESS_LEAD, called, said);
    BatchOnlyAppends(rolls, pause, PROGRESS_LEAD, called, said);
    BatchSpeech(rolls, pause, PROGRESS_LEAD, called, said);
  }

  /**
   * Resuming a valid game with 50 balls called draws exactly the last 40
   * without running out, so the game stays active and the prompt says that
   * 0 balls are left; the prior speech (the handler's is `[OpenCalls]`) plays
   * no part.
   */
  lemma ResumeAt50LeavesNone(pause: string, rolls: nat -> Roll, called: seq<int>, said: seq<Segment>)
    requires ValidCalled(called) && |called| == 50
    ensures var o := Batch(rolls, pause, PROGRESS_LEAD, called, said);
      && !o.exhausted
      && |o.called| == MAX_BALL
      && NumbersLeft(o.called) == 0
  {
    BatchFromValidState(rolls, pause, PROGRESS_LEAD, called, said);
  }

  /**
   * A game resumed from a valid state ends in this batch exactly when more
   * than 50 balls were called before it; otherwise it calls all 40 and states
   * how many of the 90 are left. The prior speech (the handler's is
   * `[OpenCalls]`) plays no part.
   */
  lemma ResumeEndsIffAbove50(pause: string, rolls: nat -> Roll, called: seq<int>, said: seq<Segment>)
    requires ValidCalled(called)
    ensures var o := Batch(rolls, pause, PROGRESS_LEAD, called, said);
      && (o.exhausted <==> |called| > 50)
      && (!o.exhausted ==> |o.called| == |called| + 40 && NumbersLeft(o.called) == MAX_BALL - BATCH_SIZE - |called|)
      && (o.exhausted ==> |o.called| == MAX_BALL && |o.called| - |called| < 40)
  {
    BatchFromValidState(rolls, pause, PROGRESS_LEAD, called, said);
  }

  /**
   * A new game followed by one "sigue": the new-game batch ("Llevamos", after
   * the welcome) and then the continue batch ("Van", on the list it left)
   * call 80 distinct balls between them and announce the markers 10 to 80,
   * each exactly once and in order, across the two responses.
   */
  lemma NewGameThenContinue(message: string, pause1: string, rolls1: nat -> Roll,
                            pause2: string, rolls2: nat -> Roll)
    ensures var o1 := Batch(rolls1, pause1, StartGameHandler.PROGRESS_LEAD, [], [Welcome(message), OpenCalls]);
      var o2 := Batch(rolls2, pause2, PROGRESS_LEAD, o1.called, [OpenCalls]);
      && !o2.exhausted
      && |o2.called| == 2 * BATCH_SIZE
      && ValidCalled(o2.called)
      && ProgressCounts(o1.said + o2.said) == Multiples(0, 2 * BATCH_SIZE)
  {
    var first := [Welcome(message), OpenCalls];
    var o1 := Batch(rolls1, pause1, StartGameHandler.PROGRESS_LEAD, [], first);
    StartGameHandler.FirstBatchIsFull(pause1, rolls1, first);
    BatchFromValidState(rolls2, pause2, PROGRESS_LEAD, o1.called, [OpenCalls]);
    assert ProgressCounts(first) == [] by {
      assert first[1..] == [OpenCalls];
      assert [OpenCalls][1..] == [];
    }
    assert ProgressCounts([OpenCalls]) == [] by {
      assert [OpenCalls][1..] == [];
    }
    CheckpointsAcrossBatches(pause1, StartGameHandler.PROGRESS_LEAD, first, rolls1,
                             pause2, PROGRESS_LEAD, [OpenCalls], rolls2, []);
  }
}
