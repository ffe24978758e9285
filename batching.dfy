/**
 * The batch loop both handlers run: up to 40 draws per invocation, each
 * appended to the called list and announced, with a progress marker whenever
 * the cumulative number of called balls is a multiple of ten. `Steps` gives
 * what the loop does to the called list and to the speech; `RunBatch`, the
 * `while` loop itself, is proved to compute it, and the lemmas here state
 * what it means: only appends, fresh balls, when it runs out, which markers.
 */
module Batching {
  import opened Optional
  import opened GameLogic
  import opened Speech

  /** Draws per invocation, chosen to fit the voice platform's response time. */
  const BATCH_SIZE: nat := 40

  /** A progress marker is spoken every this many balls. */
  const CHECKPOINT: int := 10

  /** The random choices one iteration consumes: the draw, the 30% coin, the ambient phrase. */
  datatype Roll = Roll(pick: nat, coin: bool, ambientPick: nat)

  /** The called list and the speech after the loop, and whether a draw found no ball left. */
  datatype Outcome = Outcome(called: seq<int>, said: seq<Segment>, exhausted: bool)

  /**
   * The speech `said` after one more iteration: the ball's announcement with
   * the pause after it, then, when the called list has reached a multiple of
   * ten balls, the marker stating that count.
   */
  function SayBall(said: seq<Segment>, pause: string, lead: string, roll: Roll, x: int, count: nat): seq<Segment>
  {
    var s := said + [Call(x, roll.coin, roll.ambientPick, pause)];
    if count % CHECKPOINT == 0 then s + [Progress(lead, count)] else s
  }

  /**
   * The loop from iteration `done` on, with `called` the list so far and
   * `said` the speech so far; `pause` is the pause after each ball and `lead`
   * the word the markers start with.
   */
  function Steps(rolls: nat -> Roll, pause: string, lead: string, called: seq<int>, said: seq<Segment>, done: nat): Outcome
    requires done <= BATCH_SIZE
    // `pause` only rides along in the measure: with the count alone, a literal
    // `done` would let the verifier unfold all forty iterations at once.
    decreases BATCH_SIZE - done, pause
  {
    if done == BATCH_SIZE then Outcome(called, said, false)
    else
      match Draw(called, rolls(done).pick)
      case None => Outcome(called, said, true)
      case Some(x) =>
        Steps(rolls, pause, lead, called + [x], SayBall(said, pause, lead, rolls(done), x, |called + [x]|), done + 1)
  }

  /** One whole batch: the loop from its first iteration. */
  function Batch(rolls: nat -> Roll, pause: string, lead: string, called: seq<int>, said: seq<Segment>): Outcome
  {
    Steps(rolls, pause, lead, called, said, 0)
  }

  // ------------------------------------------------ what the speech holds

  /** The counts the progress markers state, in order. */
  function ProgressCounts(speech: seq<Segment>): seq<int>
  {
    if speech == [] then []
    else (if speech[0].Progress? then [speech[0].count] else []) + ProgressCounts(speech[1..])
  }

  /** The ball announcements, in order. */
  function Calls(speech: seq<Segment>): seq<Segment>
  {
    if speech == [] then []
    else (if speech[0].Call? then [speech[0]] else []) + Calls(speech[1..])
  }

  /** Markers and announcements of a concatenation are those of its parts, in order. */
  lemma {:induction false} SpeechConcat(a: seq<Segment>, b: seq<Segment>)
    ensures ProgressCounts(a + b) == ProgressCounts(a) + ProgressCounts(b)
    ensures Calls(a + b) == Calls(a) + Calls(b)
  {
    if a == [] {
      assert a + b == b;
    } else {
      assert (a + b)[0] == a[0];
      assert (a + b)[1..] == a[1..] + b;
      SpeechConcat(a[1..], b);
    }
  }

  /** The first multiple of ten above `n`. */
  function NextMultiple(n: int): int
  {
    n - n % CHECKPOINT + CHECKPOINT
  }

  /** The multiples of ten in `lo + 1 .. hi`, ascending: where the markers belong. */
  function Multiples(lo: int, hi: int): seq<int>
    decreases hi - lo
  {
    var m := NextMultiple(lo);
    if m > hi then [] else [m] + Multiples(m, hi)
  }

  /** `Multiples(lo, hi)` lists exactly the multiples of ten above `lo` up to `hi`, ascending. */
  lemma {:induction false} MultiplesMeaning(lo: int, hi: int)
    ensures forall k :: k in Multiples(lo, hi) <==> lo < k <= hi && k % CHECKPOINT == 0
    ensures forall i, j :: 0 <= i < j < |Multiples(lo, hi)| ==> Multiples(lo, hi)[i] < Multiples(lo, hi)[j]
    decreases hi - lo
  {
    var m := NextMultiple(lo);
    assert lo < m <= lo + CHECKPOINT && m % CHECKPOINT == 0;
    assert forall k :: lo < k < m ==> k % CHECKPOINT != 0;
    if m <= hi {
      MultiplesMeaning(m, hi);
      var r := Multiples(lo, hi);
      assert r == [m] + Multiples(m, hi);
      forall i, j | 0 <= i < j < |r| ensures r[i] < r[j] {
        assert r[j] in Multiples(m, hi);
      }
    }
  }

  /** The markers above `lo` are the one for `next == lo + 1`, if any, then those above `next`. */
  lemma MultiplesStep(lo: int, next: int, hi: int)
    requires next == lo + 1 && lo < hi
    ensures Multiples(lo, hi) == (if next % CHECKPOINT == 0 then [next] else []) + Multiples(next, hi)
  {
    if next % CHECKPOINT != 0 {
      assert NextMultiple(lo) == NextMultiple(next);
    }
  }

  /** Markers for consecutive stretches of balls add up: each multiple once. */
  lemma {:induction false} MultiplesConcat(a: int, b: int, c: int)
    requires a <= b <= c
    ensures Multiples(a, b) + Multiples(b, c) == Multiples(a, c)
    decreases b - a
  {
    if a == b {
      assert Multiples(a, a) == [];
    } else {
      MultiplesStep(a, a + 1, b);
      MultiplesStep(a, a + 1, c);
      MultiplesConcat(a + 1, b, c);
    }
  }

  // ------------------------------------------------------------ the loop

  /** One iteration only appends: one ball to the list, its speech to the speech. */
  lemma SayBallExtends(said: seq<Segment>, pause: string, lead: string, roll: Roll, x: int, count: nat)
    ensures said <= SayBall(said, pause, lead, roll, x, count)
  {
  }

  /**
   * The loop only appends, to the list at most one ball per remaining
   * iteration and to the speech; it stops early only when every ball has been
   * called, and otherwise runs to the end.
   */
  lemma {:induction false} StepsPrefix(rolls: nat -> Roll, pause: string, lead: string,
                                       called: seq<int>, said: seq<Segment>, done: nat)
    requires done <= BATCH_SIZE
    ensures var o := Steps(rolls, pause, lead, called, said, done);
      && called <= o.called
      && said <= o.said
      && |o.called| <= |called| + (BATCH_SIZE - done)
      && (o.exhausted ==> forall x :: InRange(x) ==> x in o.called)
      && (!o.exhausted ==> |o.called| == |called| + (BATCH_SIZE - done))
    decreases BATCH_SIZE - done
  {
    if done < BATCH_SIZE {
      var draw := Draw(called, rolls(done).pick);
      DrawMeaning(called, rolls(done).pick);
      if draw.Some? {
        var next := called + [draw.value];
        var spoken := SayBall(said, pause, lead, rolls(done), draw.value, |next|);
        StepsPrefix(rolls, pause, lead, next, spoken, done + 1);
        SayBallExtends(said, pause, lead, rolls(done), draw.value, |next|);
      }
    }
  }

  /** The balls of `after` from position `from` on are in range and differ from every ball before them. */
  predicate FreshFrom(after: seq<int>, from: nat)
  {
    && (forall i :: from <= i < |after| ==> InRange(after[i]))
    && (forall i, j :: from <= i < |after| && 0 <= j < i ==> after[j] != after[i])
  }

  /** A fresh ball in range, appended before fresh balls, makes them fresh from its own position. */
  lemma FreshStep(called: seq<int>, x: int, after: seq<int>)
    requires called + [x] <= after
    requires InRange(x) && x !in called
    requires FreshFrom(after, |called + [x]|)
    ensures FreshFrom(after, |called|)
  {
    assert after[..|called + [x]|] == called + [x];
    assert after[|called|] == x by {
      assert after[|called|] == after[..|called + [x]|][|called|];
    }
    forall i, j | |called| <= i < |after| && 0 <= j < i
      ensures after[j] != after[i]
    {
      if i == |called| {
        assert after[j] == after[..|called + [x]|][j];
        assert called[j] in called;
      }
    }
  }

  /** Every ball the loop appends is in range and differs from every ball before it. */
  lemma {:induction false} StepsFresh(rolls: nat -> Roll, pause: string, lead: string,
                                      called: seq<int>, said: seq<Segment>, done: nat)
    requires done <= BATCH_SIZE
    ensures FreshFrom(Steps(rolls, pause, lead, called, said, done).called, |called|)
    decreases BATCH_SIZE - done
  {
    if done < BATCH_SIZE && Draw(called, rolls(done).pick).Some? {
      var x := Draw(called, rolls(done).pick).value;
      var next := called + [x];
      var spoken := SayBall(said, pause, lead, rolls(done), x, |next|);
      StepsFresh(rolls, pause, lead, next, spoken, done + 1);
      StepsPrefix(rolls, pause, lead, next, spoken, done + 1);
      DrawMeaning(called, rolls(done).pick);
      FreshStep(called, x, Steps(rolls, pause, lead, next, spoken, done + 1).called);
    }
  }

  /**
   * From a valid called list the loop keeps the list valid, appends as many
   * balls as it has iterations left or as are left in the drum, whichever is
   * fewer, and runs out exactly when the drum has fewer balls than iterations.
   */
  lemma {:induction false} StepsFromValid(rolls: nat -> Roll, pause: string, lead: string,
                                          called: seq<int>, said: seq<Segment>, done: nat)
    requires done <= BATCH_SIZE
    requires ValidCalled(called)
    ensures var o := Steps(rolls, pause, lead, called, said, done);
      var wanted := |called| + (BATCH_SIZE - done);
      && ValidCalled(o.called)
      && |o.called| == (if wanted <= MAX_BALL then wanted else MAX_BALL)
      && (o.exhausted <==> wanted > MAX_BALL)
    decreases BATCH_SIZE - done
  {
    CalledNumbersBounded(called);
    AvailableCount(called);
    if done < BATCH_SIZE {
      var draw := Draw(called, rolls(done).pick);
      DrawMeaning(called, rolls(done).pick);
      if draw.Some? {
        var next := called + [draw.value];
        AppendDrawn(called, draw.value);
        StepsFromValid(rolls, pause, lead, next, SayBall(said, pause, lead, rolls(done), draw.value, |next|), done + 1);
      }
    }
  }

  /** What one iteration adds to the markers and to the announcements. */
  lemma SayBallFilters(said: seq<Segment>, pause: string, lead: string, roll: Roll, x: int, count: nat)
    ensures var r := SayBall(said, pause, lead, roll, x, count);
      && ProgressCounts(r) == ProgressCounts(said) + (if count % CHECKPOINT == 0 then [count] else [])
      && Calls(r) == Calls(said) + [Call(x, roll.coin, roll.ambientPick, pause)]
  {
    var s := said + [Call(x, roll.coin, roll.ambientPick, pause)];
    SpeechConcat(said, [Call(x, roll.coin, roll.ambientPick, pause)]);
    SpeechConcat(s, [Progress(lead, count)]);
    assert ProgressCounts([Call(x, roll.coin, roll.ambientPick, pause)]) == [];
    assert Calls([Progress(lead, count)]) == [];
  }

  /**
   * The markers of one iteration followed by those of the rest of the loop
   * are the markers from the list's length before the iteration on.
   */
  lemma ProgressStep(said: seq<Segment>, spoken: seq<Segment>, final: seq<Segment>,
                     count: nat, next: nat, reached: nat)
    requires next == count + 1 <= reached
    requires ProgressCounts(spoken) == ProgressCounts(said) + (if next % CHECKPOINT == 0 then [next] else [])
    requires ProgressCounts(final) == ProgressCounts(spoken) + Multiples(next, reached)
    ensures ProgressCounts(final) == ProgressCounts(said) + Multiples(count, reached)
  {
    MultiplesStep(count, next, reached);
    Regroup(ProgressCounts(said), if next % CHECKPOINT == 0 then [next] else [], Multiples(next, reached));
  }

  /**
   * The loop adds a progress marker exactly at each multiple of ten the count
   * of called balls passes, each once, ascending.
   */
  lemma {:induction false} StepsProgress(rolls: nat -> Roll, pause: string, lead: string,
                                         called: seq<int>, said: seq<Segment>, done: nat)
    requires done <= BATCH_SIZE
    ensures var o := Steps(rolls, pause, lead, called, said, done);
      ProgressCounts(o.said) == ProgressCounts(said) + Multiples(|called|, |o.called|)
    decreases BATCH_SIZE - done
  {
    if done < BATCH_SIZE && Draw(called, rolls(done).pick).Some? {
      var x := Draw(called, rolls(done).pick).value;
      var next := called + [x];
      var spoken := SayBall(said, pause, lead, rolls(done), x, |next|);
      var o := Steps(rolls, pause, lead, next, spoken, done + 1);
      StepsProgress(rolls, pause, lead, next, spoken, done + 1);
      StepsPrefix(rolls, pause, lead, next, spoken, done + 1);
      SayBallFilters(said, pause, lead, rolls(done), x, |next|);
      ProgressStep(said, spoken, o.said, |called|, |next|, |o.called|);
    } else {
      assert Multiples(|called|, |called|) == [];
      assert ProgressCounts(said) + [] == ProgressCounts(said);
    }
  }

  /** The announcements of `balls`, the `k`-th drawn in iteration `done + k`, each with the pause. */
  function Announced(pause: string, rolls: nat -> Roll, done: nat, balls: seq<int>): seq<Segment>
    decreases |balls|
  {
    if balls == [] then []
    else [Call(balls[0], rolls(done).coin, rolls(done).ambientPick, pause)] + Announced(pause, rolls, done + 1, balls[1..])
  }

  /** One announcement per ball, in order, the `k`-th made from ball `k` and the roll of iteration `done + k`. */
  lemma {:induction false} AnnouncedMeaning(pause: string, rolls: nat -> Roll, done: nat, balls: seq<int>)
    ensures |Announced(pause, rolls, done, balls)| == |balls|
    ensures forall k :: 0 <= k < |balls| ==>
      Announced(pause, rolls, done, balls)[k]
      == Call(balls[k], rolls(done + k).coin, rolls(done + k).ambientPick, pause)
    decreases |balls|
  {
    if balls != [] {
      AnnouncedMeaning(pause, rolls, done + 1, balls[1..]);
      forall k | 1 <= k < |balls|
        ensures Announced(pause, rolls, done, balls)[k]
                == Call(balls[k], rolls(done + k).coin, rolls(done + k).ambientPick, pause)
      {
        assert balls[1..][k - 1] == balls[k];
        assert done + 1 + (k - 1) == done + k;
      }
    }
  }

  /** The announcements of the balls after `called` in `after` start with that of the ball `x` after it. */
  lemma AnnouncedStep(pause: string, rolls: nat -> Roll, done: nat, called: seq<int>, x: int, after: seq<int>)
    requires called + [x] <= after
    ensures Announced(pause, rolls, done, after[|called|..])
            == [Call(x, rolls(done).coin, rolls(done).ambientPick, pause)]
               + Announced(pause, rolls, done + 1, after[|called + [x]|..])
  {
    var rest := after[|called|..];
    assert rest[0] == x by {
      assert after[..|called + [x]|] == called + [x];
      assert rest[0] == after[..|called + [x]|][|called|];
    }
    assert rest[1..] == after[|called + [x]|..];
  }

  /** The announcements of one iteration followed by those of the rest of the loop. */
  lemma CallsStep(said: seq<Segment>, spoken: seq<Segment>, final: seq<Segment>,
                  call: Segment, rest: seq<Segment>, all: seq<Segment>)
    requires Calls(spoken) == Calls(said) + [call]
    requires Calls(final) == Calls(spoken) + rest
    requires all == [call] + rest
    ensures Calls(final) == Calls(said) + all
  {
    Regroup(Calls(said), [call], rest);
  }

  /** The loop adds exactly the announcements of the balls it draws, in order, and no other. */
  lemma {:induction false} StepsCalls(rolls: nat -> Roll, pause: string, lead: string,
                                      called: seq<int>, said: seq<Segment>, done: nat)
    requires done <= BATCH_SIZE
    ensures var o := Steps(rolls, pause, lead, called, said, done);
      && called <= o.called
      && Calls(o.said) == Calls(said) + Announced(pause, rolls, done, o.called[|called|..])
    decreases BATCH_SIZE - done
  {
    StepsPrefix(rolls, pause, lead, called, said, done);
    if done < BATCH_SIZE && Draw(called, rolls(done).pick).Some? {
      var x := Draw(called, rolls(done).pick).value;
      var next := called + [x];
      var spoken := SayBall(said, pause, lead, rolls(done), x, |next|);
      var o := Steps(rolls, pause, lead, next, spoken, done + 1);
      StepsCalls(rolls, pause, lead, next, spoken, done + 1);
      SayBallFilters(said, pause, lead, rolls(done), x, |next|);
      AnnouncedStep(pause, rolls, done, called, x, o.called);
      CallsStep(said, spoken, o.said, Call(x, rolls(done).coin, rolls(done).ambientPick, pause),
                Announced(pause, rolls, done + 1, o.called[|next|..]),
                Announced(pause, rolls, done, o.called[|called|..]));
    } else {
      var o := Steps(rolls, pause, lead, called, said, done);
      assert o.called[|called|..] == [];
      assert Calls(said) + [] == Calls(said);
    }
  }

  /**
   * The speech a batch adds for `balls`, the `k`-th of them drawn in
   * iteration `done + k` and bringing the count of called balls to
   * `from + k + 1`: its announcement with the pause, then, when that count is
   * a multiple of ten, the marker with the word `lead` stating it. Nothing
   * else is said.
   */
  function Expected(pause: string, lead: string, rolls: nat -> Roll, done: nat, from: nat, balls: seq<int>): seq<Segment>
    decreases |balls|
  {
    if balls == [] then []
    else
      [Call(balls[0], rolls(done).coin, rolls(done).ambientPick, pause)]
      + (if (from + 1) % CHECKPOINT == 0 then [Progress(lead, from + 1)] else [])
      + Expected(pause, lead, rolls, done + 1, from + 1, balls[1..])
  }

  /** What one iteration says is its own piece appended to the speech so far. */
  lemma SayBallPiece(said: seq<Segment>, pause: string, lead: string, roll: Roll, x: int, count: nat)
    ensures SayBall(said, pause, lead, roll, x, count) == said + SayBall([], pause, lead, roll, x, count)
  {
    var call := [Call(x, roll.coin, roll.ambientPick, pause)];
    assert [] + call == call;
    if count % CHECKPOINT == 0 {
      assert (said + call) + [Progress(lead, count)] == said + (call + [Progress(lead, count)]);
    }
  }

  /** The expected speech of the balls after `called` starts with the piece of the ball `x` after it. */
  lemma ExpectedStep(pause: string, lead: string, rolls: nat -> Roll, done: nat, called: seq<int>, x: int, after: seq<int>)
    requires called + [x] <= after
    ensures Expected(pause, lead, rolls, done, |called|, after[|called|..])
            == SayBall([], pause, lead, rolls(done), x, |called + [x]|)
               + Expected(pause, lead, rolls, done + 1, |called + [x]|, after[|called + [x]|..])
  {
    var rest := after[|called|..];
    assert rest[0] == x by {
      assert after[..|called + [x]|] == called + [x];
      assert rest[0] == after[..|called + [x]|][|called|];
    }
    assert rest[1..] == after[|called + [x]|..];
    assert |called + [x]| == |called| + 1;
    assert [] + [Call(x, rolls(done).coin, rolls(done).ambientPick, pause)]
        == [Call(x, rolls(done).coin, rolls(done).ambientPick, pause)];
  }

  /**
   * The loop's speech is the speech before it followed by exactly the
   * expected piece of each ball it draws, in draw order.
   */
  lemma {:induction false} StepsSpeech(rolls: nat -> Roll, pause: string, lead: string,
                                       called: seq<int>, said: seq<Segment>, done: nat)
    requires done <= BATCH_SIZE
    ensures var o := Steps(rolls, pause, lead, called, said, done);
      && called <= o.called
      && o.said == said + Expected(pause, lead, rolls, done, |called|, o.called[|called|..])
    decreases BATCH_SIZE - done
  {
    StepsPrefix(rolls, pause, lead, called, said, done);
    if done < BATCH_SIZE && Draw(called, rolls(done).pick).Some? {
      var x := Draw(called, rolls(done).pick).value;
      var next := called + [x];
      var piece := SayBall([], pause, lead, rolls(done), x, |next|);
      var spoken := SayBall(said, pause, lead, rolls(done), x, |next|);
      var o := Steps(rolls, pause, lead, next, spoken, done + 1);
      StepsSpeech(rolls, pause, lead, next, spoken, done + 1);
      var rest := Expected(pause, lead, rolls, done + 1, |next|, o.called[|next|..]);
      SayBallPiece(said, pause, lead, rolls(done), x, |next|);
      ExpectedStep(pause, lead, rolls, done, called, x, o.called);
      Regroup(said, piece, rest);
    } else {
      var o := Steps(rolls, pause, lead, called, said, done);
      assert o.called[|called|..] == [];
      assert said + [] == said;
    }
  }

  // ---------------------------------------------------------- one batch

  /**
   * A batch only appends: to the called list at most 40 balls, each in range
   * and not called before, and to the speech; it stops early only when every
   * ball has been called.
   */
  lemma BatchOnlyAppends(rolls: nat -> Roll, pause: string, lead: string, called: seq<int>, said: seq<Segment>)
    ensures var o := Batch(rolls, pause, lead, called, said);
      && called <= o.called
      && said <= o.said
      && |o.called| <= |called| + BATCH_SIZE
      && FreshFrom(o.called, |called|)
      && (o.exhausted ==> forall x :: InRange(x) ==> x in o.called)
      && (!o.exhausted ==> |o.called| == |called| + BATCH_SIZE)
  {
    StepsPrefix(rolls, pause, lead, called, said, 0);
    StepsFresh(rolls, pause, lead, called, said, 0);
  }

  /**
   * From a valid called list a batch keeps the list valid, calls
   * `min(40, 90 - n)` balls, and runs out exactly when it starts above 50.
   */
  lemma BatchFromValidState(rolls: nat -> Roll, pause: string, lead: string, called: seq<int>, said: seq<Segment>)
    requires ValidCalled(called)
    ensures var o := Batch(rolls, pause, lead, called, said);
      && ValidCalled(o.called)
      && |o.called| == (if |called| + BATCH_SIZE <= MAX_BALL then |called| + BATCH_SIZE else MAX_BALL)
      && (o.exhausted <==> |called| > MAX_BALL - BATCH_SIZE)
  {
    StepsFromValid(rolls, pause, lead, called, said, 0);
  }

  /**
   * A batch appends to the speech exactly the expected piece of each appended
   * ball, in draw order: its announcement, made from the roll of iteration `k`
   * and followed by the pause, then the marker with the handler's word when
   * the cumulative count reaches a multiple of ten. So it announces one ball
   * per appended ball and speaks a marker at each multiple of ten passed.
   */
  lemma BatchSpeech(rolls: nat -> Roll, pause: string, lead: string, called: seq<int>, said: seq<Segment>)
    ensures var o := Batch(rolls, pause, lead, called, said);
      && called <= o.called
      && o.said == said + Expected(pause, lead, rolls, 0, |called|, o.called[|called|..])
      && ProgressCounts(o.said) == ProgressCounts(said) + Multiples(|called|, |o.called|)
      && |Calls(o.said)| == |Calls(said)| + (|o.called| - |called|)
      && forall k :: 0 <= k < |o.called| - |called| ==>
           Calls(o.said)[|Calls(said)| + k]
           == Call(o.called[|called| + k], rolls(k).coin, rolls(k).ambientPick, pause)
  {
    var o := Batch(rolls, pause, lead, called, said);
    StepsPrefix(rolls, pause, lead, called, said, 0);
    StepsProgress(rolls, pause, lead, called, said, 0);
    StepsCalls(rolls, pause, lead, called, said, 0);
    StepsSpeech(rolls, pause, lead, called, said, 0);
    AnnouncedMeaning(pause, rolls, 0, o.called[|called|..]);
  }

  /**
   * Markers count cumulatively: over two consecutive batches, each spoken in
   * its own response with its own pause and marker word and after its own
   * opening speech (which holds no marker), every multiple of ten between the
   * start and the end is announced exactly once.
   */
  lemma CheckpointsAcrossBatches(pause1: string, lead1: string, said1: seq<Segment>, rolls1: nat -> Roll,
                                 pause2: string, lead2: string, said2: seq<Segment>, rolls2: nat -> Roll,
                                 called: seq<int>)
    requires ProgressCounts(said1) == [] && ProgressCounts(said2) == []
    ensures var o1 := Batch(rolls1, pause1, lead1, called, said1);
      var o2 := Batch(rolls2, pause2, lead2, o1.called, said2);
      && called <= o1.called <= o2.called
      && ProgressCounts(o1.said + o2.said) == Multiples(|called|, |o2.called|)
  {
    var o1 := Batch(rolls1, pause1, lead1, called, said1);
    var o2 := Batch(rolls2, pause2, lead2, o1.called, said2);
    BatchSpeech(rolls1, pause1, lead1, called, said1);
    BatchSpeech(rolls2, pause2, lead2, o1.called, said2);
    assert ProgressCounts(o1.said) == Multiples(|called|, |o1.called|);
    assert ProgressCounts(o2.said) == Multiples(|o1.called|, |o2.called|);
    SpeechConcat(o1.said, o2.said);
    MultiplesConcat(|called|, |o1.called|, |o2.called|);
  }

  // ------------------------------------------------------ the loop itself

  /**
   * One iteration after a ball `x` is drawn: push it onto the called list,
   * make it the last ball, announce it with the pause and, when the list's
   * length is a multiple of ten, say how many balls have been called.
   */
  method CallBall(g: GameState, said: seq<Segment>, pause: string, lead: string, roll: Roll, x: int)
    returns (r: seq<Segment>)
    modifies g`calledNumbers, g`lastNumber
    ensures g.calledNumbers == old(g.calledNumbers) + [x]
    ensures g.lastNumber == Some(Last(g.calledNumbers))
    ensures r == SayBall(said, pause, lead, roll, x, |g.calledNumbers|)
  {
    g.calledNumbers := g.calledNumbers + [x];
    g.lastNumber := Some(x);
    r := said + [Call(x, roll.coin, roll.ambientPick, pause)];
    if |g.calledNumbers| % CHECKPOINT == 0 {
      r := r + [Progress(lead, |g.calledNumbers|)];
    }
  }

  /**
   * One iteration of the loop up to the test of the drawn ball: draw with the
   * iteration's pick; when a ball comes out, call it as above; when none
   * does, leave the game and the speech as they were.
   */
  method NextBall(g: GameState, said: seq<Segment>, pause: string, lead: string, roll: Roll)
    returns (r: seq<Segment>, newNumber: Option<int>)
    modifies g`calledNumbers, g`lastNumber
    ensures newNumber == Draw(old(g.calledNumbers), roll.pick)
    ensures newNumber.None? ==> g.calledNumbers == old(g.calledNumbers) && g.lastNumber == old(g.lastNumber) && r == said
    ensures newNumber.Some? ==> g.calledNumbers == old(g.calledNumbers) + [newNumber.value]
    ensures newNumber.Some? ==> g.lastNumber == Some(Last(g.calledNumbers))
    ensures newNumber.Some? ==> r == SayBall(said, pause, lead, roll, newNumber.value, |g.calledNumbers|)
  {
    newNumber := DrawNumber(g.calledNumbers, roll.pick);
    r := said;
    if newNumber.Some? {
      r := CallBall(g, said, pause, lead, roll, newNumber.value);
    }
  }

  /**
   * The `while` loop both handlers run on the game `g`, appending to the
   * speech `speakOutput` with the pause of the game's speed and the word the
   * handler's markers start with. Up to 40 times: draw a ball; when there is
   * none, stop and report the drum empty; otherwise call it. The last ball
   * is the last one called, or unchanged when none was.
   */
  method RunBatch(g: GameState, speakOutput: seq<Segment>, pauseTime: string, lead: string, rolls: nat -> Roll)
    returns (said: seq<Segment>, exhausted: bool)
    modifies g`calledNumbers, g`lastNumber
    ensures var o := Batch(rolls, pauseTime, lead, old(g.calledNumbers), speakOutput);
      && old(g.calledNumbers) <= o.called
      && g.calledNumbers == o.called
      && said == o.said
      && exhausted == o.exhausted
      && (o.called == old(g.calledNumbers) ==> g.lastNumber == old(g.lastNumber))
      && (o.called != old(g.calledNumbers) ==> g.lastNumber == Some(Last(o.called)))
  {
    ghost var start := g.calledNumbers;
    ghost var whole := Batch(rolls, pauseTime, lead, start, speakOutput);
    said := speakOutput;
    exhausted := false;
    var numbersInBatch: nat := 0;
    while numbersInBatch < BATCH_SIZE
      invariant numbersInBatch <= BATCH_SIZE
      invariant |g.calledNumbers| == |start| + numbersInBatch
      invariant Steps(rolls, pauseTime, lead, g.calledNumbers, said, numbersInBatch) == whole
      invariant !exhausted
      invariant g.calledNumbers == start ==> g.lastNumber == old(g.lastNumber)
      invariant g.calledNumbers != start ==> g.lastNumber == Some(Last(g.calledNumbers))
    {
      var newNumber;
      said, newNumber := NextBall(g, said, pauseTime, lead, rolls(numbersInBatch));
      if newNumber.None? {
        exhausted := true;
        break;
      }
      numbersInBatch := numbersInBatch + 1;
    }
    assert whole == Outcome(g.calledNumbers, said, exhausted);
    StepsPrefix(rolls, pauseTime, lead, start, speakOutput, 0);
  }
}
