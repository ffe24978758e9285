/**
 * The handler of "nueva partida" (StartGameIntent): create a game at the
 * requested speed, welcome the players and call the first batch of balls.
 */
module StartGameHandler {
  import opened Optional
  import opened GameLogic
  import opened Speech
  import opened Pacing
  import opened Batching

  /** The progress marker of this handler says "Llevamos N bolas". */
  const PROGRESS_LEAD := "Llevamos"

  const REPROMPT := "Di \"sigue\" para continuar cantando números, o \"pausa\" para detener."

  /**
   * The handler, with the `speed` slot as `slot`, the clock reading as
   * `startTime` and the random choices of iteration `k` as `rolls(k)`.
   *
   * The new game is at the slot's speed ("normal" when the slot is missing or
   * empty); its called list is the first batch drawn from an empty list. The
   * speech is the welcome with the speed's message, the batch's announcements
   * between the emotion tags, and the closing prompt when the game is active
   * and fewer than 90 balls have been called.
   */
  method Handle(slot: Option<string>, startTime: string, rolls: nat -> Roll) returns (g: GameState, response: Response)
    ensures fresh(g)
    ensures g.Valid()
    ensures var speed := SpeedFromSlot(slot);
      var o := Batch(rolls, PauseTime(speed), PROGRESS_LEAD, [], [Welcome(SpeedMessage(speed)), OpenCalls]);
      && g.speed == speed && g.startTime == startTime
      && g.active && !g.paused
      && g.calledNumbers == o.called
      && g.lastNumber == (if o.called == [] then None else Some(Last(o.called)))
      && response.speech
         == o.said + [CloseCalls] + (if g.active && |g.calledNumbers| < MAX_BALL then [FirstBallsCalled] else [])
      && response.reprompt == REPROMPT
    // The first batch always calls 40 balls, so the closing prompt is always spoken.
    ensures |g.calledNumbers| == BATCH_SIZE
    ensures var speed := SpeedFromSlot(slot);
      var o := Batch(rolls, PauseTime(speed), PROGRESS_LEAD, [], [Welcome(SpeedMessage(speed)), OpenCalls]);
      response.speech == o.said + [CloseCalls, FirstBallsCalled]
  {
    var speed := SpeedFromSlot(slot);
    g := new GameState.CreateNewGame(speed, startTime);
    var speakOutput := [Welcome(SpeedMessage(speed))];
    var pauseTime := PauseTime(speed);

    speakOutput := speakOutput + [OpenCalls];
    assert speakOutput == [Welcome(SpeedMessage(speed)), OpenCalls];
    var exhausted;
    speakOutput, exhausted := RunBatch(g, speakOutput, pauseTime, PROGRESS_LEAD, rolls);
    BatchFromValidState(rolls, pauseTime, PROGRESS_LEAD, [], [Welcome(SpeedMessage(speed)), OpenCalls]);

    speakOutput := speakOutput + [CloseCalls];
    if g.active && |g.calledNumbers| < MAX_BALL {
      speakOutput := speakOutput + [FirstBallsCalled];
    }
    response := Response(speakOutput, REPROMPT);
  }

  /** The markers a batch passing from 0 to 40 balls speaks. */
  lemma MarkersUpTo40()
    ensures Multiples(0, BATCH_SIZE) == [10, 20, 30, 40]
  {
    assert Multiples(40, 40) == [];
    assert Multiples(30, 40) == [40];
    assert Multiples(20, 40) == [30, 40];
    assert Multiples(10, 40) == [20, 30, 40];
  }

  /**
   * The first batch of a new game never runs out, whatever was said before
   * it: it calls exactly 40 distinct balls, announces each, and speaks the
   * markers for 10, 20, 30 and 40; so the break on an empty drum is never
   * taken and the closing prompt is always spoken.
   */
  lemma FirstBatchIsFull(pause: string, rolls: nat -> Roll, said: seq<Segment>)
    ensures var o := Batch(rolls, pause, PROGRESS_LEAD, [], said);
      && !o.exhausted
      && |o.called| == BATCH_SIZE < MAX_BALL
      && ValidCalled(o.called)
      && |Calls(o.said)| == |Calls(said)| + BATCH_SIZE
      && ProgressCounts(o.said) == ProgressCounts(said) + [10, 20, 30, 40]
  {
    ghost var none: seq<int> := [];
    assert ValidCalled(none);
    BatchFromValidState(rolls, pause, PROGRESS_LEAD, none, said);
    BatchSpeech(rolls, pause, PROGRESS_LEAD, none, said);
    MarkersUpTo40();
  }
}
