/**
 * What the handlers say. The handlers build one SSML string with `+=`; here
 * that string is the list of the pieces appended to it, in order, and
 * `Render` gives the text of each piece.
 */
module Speech {
  import Numerals
  import GameLogic

  datatype Segment =
    | Welcome(speedMessage: string)     // the opening of a new game
    | OpenCalls                         // `<amazon:emotion name="excited" intensity="medium">`
    | Call(ball: int, coin: bool, ambientPick: nat, pause: string)  // one ball, then a pause
    | Progress(lead: string, count: nat)
    | CloseCalls                        // `</amazon:emotion>`
    | AllCalled                         // the completion text, closing the emotion tag
    | BallsLeft(left: int)              // the closing prompt of a full continue batch
    | FirstBallsCalled                  // the closing prompt of a new game
    | NoActiveGame

  /** The speech and the reprompt a handler hands to the response builder. */
  datatype Response = Response(speech: seq<Segment>, reprompt: string)

  /** What follows every announcement: a full stop and the pause of the game's speed. */
  function PauseAfter(pause: string): string
  {
    ". <break time=\"" + pause + "\"/> "
  }

  const MARKER_TAIL := " bolas. <break time=\"1s\"/> "
  const LEFT_HEAD := " He cantado una ronda larga. Quedan "
  const LEFT_TAIL := " números. Di \"sigue\" para continuar."

  /**
   * The text of one piece. A ball's announcement is composed by
   * `createNumberAnnouncement` with ambient phrases allowed, from the coin and
   * the pick that iteration drew, and is followed by the pause.
   */
  function RenderSegment(bank: GameLogic.PhraseBank, s: Segment): string
  {
    match s
    case Welcome(message) =>
      "<amazon:emotion name=\"excited\" intensity=\"high\">"
      + "¡Bienvenidos al Virtual Bingo Show! <break time=\"500ms\"/> "
      + "Iniciando partida en " + message + " <break time=\"700ms\"/> "
      + "¡Preparen sus cartones! El juego comienza en 3... 2... 1... <break time=\"800ms\"/>"
      + "</amazon:emotion>"
    case OpenCalls => "<amazon:emotion name=\"excited\" intensity=\"medium\">"
    case Call(ball, coin, ambientPick, pause) =>
      GameLogic.Announcement(bank, ball, true, coin, ambientPick) + PauseAfter(pause)
    case Progress(lead, count) => lead + " " + Numerals.IntToString(count) + MARKER_TAIL
    case CloseCalls => "</amazon:emotion>"
    case AllCalled =>
      "¡Y eso es todo! Se han cantado todos los números. La partida ha terminado.</amazon:emotion>"
    case BallsLeft(left) => LEFT_HEAD + Numerals.IntToString(left) + LEFT_TAIL
    case FirstBallsCalled => " He cantado los primeros números. Di \"sigue\" para continuar."
    case NoActiveGame => "No hay ninguna partida activa. Di \"nueva partida\" para comenzar."
  }

  /** A ball's text is its announcement followed by the pause of the game's speed. */
  lemma CallText(bank: GameLogic.PhraseBank, ball: int, coin: bool, ambientPick: nat, pause: string)
    ensures var r := RenderSegment(bank, Call(ball, coin, ambientPick, pause));
      var a := GameLogic.Announcement(bank, ball, true, coin, ambientPick);
      |a| <= |r| && r[..|a|] == a && r[|a|..] == PauseAfter(pause)
  {
    var a := GameLogic.Announcement(bank, ball, true, coin, ambientPick);
    assert (a + PauseAfter(pause))[..|a|] == a;
    assert (a + PauseAfter(pause))[|a|..] == PauseAfter(pause);
  }

  /** A marker's text is the word, a space, the count in digits that read back as it, and "bolas". */
  lemma MarkerText(bank: GameLogic.PhraseBank, lead: string, count: nat)
    ensures var r := RenderSegment(bank, Progress(lead, count));
      var head := lead + " ";
      |head| + |MARKER_TAIL| <= |r| && r[..|head|] == head && r[|r| - |MARKER_TAIL|..] == MARKER_TAIL
      && Numerals.Canonical(r[|head|..|r| - |MARKER_TAIL|])
      && Numerals.ParseInt(r[|head|..|r| - |MARKER_TAIL|]) == count
  {
    var head := lead + " ";
    var digits := Numerals.IntToString(count);
    var r := head + digits + MARKER_TAIL;
    Numerals.ParseIntRoundTrip(count);
    assert r[..|head|] == head;
    assert r[|r| - |MARKER_TAIL|..] == MARKER_TAIL;
    assert r[|head|..|r| - |MARKER_TAIL|] == digits;
  }

  /** The "quedan" prompt states the number of balls left in digits that read back as it. */
  lemma BallsLeftText(bank: GameLogic.PhraseBank, left: int)
    ensures var r := RenderSegment(bank, BallsLeft(left));
      |LEFT_HEAD| + |LEFT_TAIL| <= |r| && r[..|LEFT_HEAD|] == LEFT_HEAD && r[|r| - |LEFT_TAIL|..] == LEFT_TAIL
      && Numerals.Canonical(r[|LEFT_HEAD|..|r| - |LEFT_TAIL|])
      && Numerals.ParseInt(r[|LEFT_HEAD|..|r| - |LEFT_TAIL|]) == left
  {
    var digits := Numerals.IntToString(left);
    var r := LEFT_HEAD + digits + LEFT_TAIL;
    Numerals.ParseIntRoundTrip(left);
    assert r[..|LEFT_HEAD|] == LEFT_HEAD;
    assert r[|r| - |LEFT_TAIL|..] == LEFT_TAIL;
    assert r[|LEFT_HEAD|..|r| - |LEFT_TAIL|] == digits;
  }

  function Render(bank: GameLogic.PhraseBank, speech: seq<Segment>): string
  {
    if speech == [] then "" else RenderSegment(bank, speech[0]) + Render(bank, speech[1..])
  }

  /**
   * The text of a speech is the texts of its pieces in order: appending a
   * piece to the list is appending its text to the string, as `+=` does.
   */
  lemma {:induction false} RenderConcat(bank: GameLogic.PhraseBank, a: seq<Segment>, b: seq<Segment>)
    ensures Render(bank, a + b) == Render(bank, a) + Render(bank, b)
  {
    if a == [] {
      assert a + b == b;
    } else {
      assert (a + b)[0] == a[0];
      assert (a + b)[1..] == a[1..] + b;
      RenderConcat(bank, a[1..], b);
      Regroup(RenderSegment(bank, a[0]), Render(bank, a[1..]), Render(bank, b));
    }
  }

  /** Concatenation regrouped, as a fact step lemmas cite without unfolding anything else. */
  lemma Regroup<T>(x: seq<T>, y: seq<T>, z: seq<T>)
    ensures (x + y) + z == x + (y + z)
  {
  }
}
