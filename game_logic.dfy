/**
 * The game utilities of lambda/utils/gameLogic.js: drawing an unused ball,
 * composing the spoken announcement of a ball, the small queries over the
 * list of called balls, and the game record itself.
 *
 * Randomness is injected: every call of `Math.random()` becomes a parameter.
 */
module GameLogic {
  import opened Optional
  import Numerals

  /** Traditional Spanish bingo uses the balls 1 to 90. */
  const MAX_BALL: int := 90

  predicate InRange(x: int) { 1 <= x <= MAX_BALL }

  /** The invariant of a `calledNumbers` list: every ball in range, no ball twice. */
  predicate ValidCalled(s: seq<int>)
  {
    && (forall i :: 0 <= i < |s| ==> InRange(s[i]))
    && (forall i, j :: 0 <= i < j < |s| ==> s[i] != s[j])
  }

  function Last(s: seq<int>): int
    requires s != []
  {
    s[|s| - 1]
  }

  /** `Math.floor(Math.random() * n)` as position `pick % n`: in range, and `pick` itself below `n`. */
  lemma PickIndex(pick: nat, n: nat)
    requires n > 0
    ensures pick % n < n
    ensures pick < n ==> pick % n == pick
  {
  }

  // ---------------------------------------------------------------- drawing

  /** The balls below `n` that do not occur in `used`, in increasing order. */
  function AvailableBelow(used: seq<int>, n: int): seq<int>
    requires 1 <= n <= MAX_BALL + 1
  {
    if n == 1 then []
    else AvailableBelow(used, n - 1) + (if n - 1 in used then [] else [n - 1])
  }

  /** The list below `n` holds every unused ball below `n`, and nothing else, ascending. */
  lemma {:induction false} AvailableBelowMeaning(used: seq<int>, n: int)
    requires 1 <= n <= MAX_BALL + 1
    ensures var r := AvailableBelow(used, n);
      && (forall k :: 0 <= k < |r| ==> 1 <= r[k] < n && r[k] !in used)
      && (forall x :: 1 <= x < n && x !in used ==> x in r)
      && (forall j, k :: 0 <= j < k < |r| ==> r[j] < r[k])
  {
    if n > 1 {
      AvailableBelowMeaning(used, n - 1);
    }
  }

  /** The list `drawNumber` builds before choosing: every unused ball, once each. */
  function Available(used: seq<int>): seq<int>
  {
    AvailableBelow(used, MAX_BALL + 1)
  }

  /** The list holds every unused ball, once, ascending, and nothing else. */
  lemma AvailableMeaning(used: seq<int>)
    ensures var r := Available(used);
      && (forall k :: 0 <= k < |r| ==> InRange(r[k]) && r[k] !in used)
      && (forall x :: InRange(x) && x !in used ==> x in r)
      && (forall j, k :: 0 <= j < k < |r| ==> r[j] < r[k])
  {
    AvailableBelowMeaning(used, MAX_BALL + 1);
  }

  /**
   * What `drawNumber` returns when `Math.random()` selects position
   * `pick % |available|` of the list of unused balls.
   */
  function Draw(used: seq<int>, pick: nat): Option<int>
  {
    var available := Available(used);
    if |available| == 0 then None
    else
      PickIndex(pick, |available|);
      Some(available[pick % |available|])
  }

  /**
   * `drawNumber` returns `null` exactly when every ball from 1 to 90 has been
   * called, and otherwise a ball in range that has not been called.
   */
  lemma DrawMeaning(used: seq<int>, pick: nat)
    ensures var r := Draw(used, pick);
      && (r.None? <==> forall x :: InRange(x) ==> x in used)
      && (r.Some? ==> InRange(r.value) && r.value !in used)
  {
    AvailableMeaning(used);
  }

  /** Every unused ball is drawn by some pick: no ball is out of reach. */
  lemma DrawReachesEveryBall(used: seq<int>, x: int)
    requires InRange(x) && x !in used
    ensures exists pick :: 0 <= pick < |Available(used)| && Draw(used, pick) == Some(x)
  {
    var available := Available(used);
    AvailableMeaning(used);
    assert x in available;
    var k :| 0 <= k < |available| && available[k] == x;
    PickIndex(k, |available|);
    assert Draw(used, k) == Some(x);
  }

  /**
   * Different picks below the number of unused balls draw different balls;
   * with the lemma above, every unused ball is drawn by exactly one of them.
   */
  lemma DrawPicksDiffer(used: seq<int>, p: nat, q: nat)
    requires p < q < |Available(used)|
    ensures Draw(used, p) != Draw(used, q)
  {
    var available := Available(used);
    AvailableMeaning(used);
    PickIndex(p, |available|);
    PickIndex(q, |available|);
    assert available[p] < available[q];
  }

  /** `drawNumber`: collect the unused balls with a loop, then pick one of them. */
  method DrawNumber(usedNumbers: seq<int>, pick: nat) returns (r: Option<int>)
    ensures r == Draw(usedNumbers, pick)
  {
    var availableNumbers: seq<int> := [];
    for i := 1 to MAX_BALL + 1
      invariant availableNumbers == AvailableBelow(usedNumbers, i)
    {
      if i !in usedNumbers {
        availableNumbers := availableNumbers + [i];
      }
    }
    if |availableNumbers| == 0 {
      return None;
    }
    r := Some(availableNumbers[pick % |availableNumbers|]);
  }

  lemma {:induction false} AvailableBelowNothingUsed(n: int)
    requires 1 <= n <= MAX_BALL + 1
    ensures |AvailableBelow([], n)| == n - 1
  {
    if n > 1 {
      AvailableBelowNothingUsed(n - 1);
    }
  }

  lemma {:induction false} AvailableBelowOneMore(used: seq<int>, y: int, n: int)
    requires 1 <= n <= MAX_BALL + 1
    ensures |AvailableBelow(used + [y], n)|
         == |AvailableBelow(used, n)| - (if 1 <= y < n && y !in used then 1 else 0)
  {
    if n > 1 {
      var m := n - 1;
      assert (m in used + [y]) <==> (m in used || m == y);
      AvailableBelowOneMore(used, y, m);
      assert |AvailableBelow(used + [y], n)|
          == |AvailableBelow(used + [y], m)| + (if m in used + [y] then 0 else 1);
      assert |AvailableBelow(used, n)| == |AvailableBelow(used, m)| + (if m in used then 0 else 1);
    }
  }

  /** A valid list of `n` called balls leaves exactly `90 - n` balls to draw. */
  lemma {:induction false} AvailableCount(s: seq<int>)
    requires ValidCalled(s)
    ensures |Available(s)| == MAX_BALL - |s|
  {
    if s == [] {
      AvailableBelowNothingUsed(MAX_BALL + 1);
    } else {
      var init := s[..|s| - 1];
      assert s == init + [Last(s)];
      assert ValidCalled(init);
      assert Last(s) !in init;
      AvailableCount(init);
      AvailableBelowOneMore(init, Last(s), MAX_BALL + 1);
    }
  }

  /** The length bound of the game record follows from "distinct and in range". */
  lemma CalledNumbersBounded(s: seq<int>)
    requires ValidCalled(s)
    ensures |s| <= MAX_BALL
  {
    AvailableCount(s);
  }

  /** Appending a freshly drawn ball keeps the list valid. */
  lemma AppendDrawn(s: seq<int>, x: int)
    requires ValidCalled(s) && InRange(x) && x !in s
    ensures ValidCalled(s + [x])
  {
  }

  // ----------------------------------------------------------- announcing

  /** The canned ambient phrases; the skill's table is not empty. */
  type AmbientPool = s: seq<string> | |s| > 0 witness [""]

  /**
   * The phrase tables of lambda/data/bingoData (`BINGO_PHRASES`,
   * `AMBIENT_PHRASES`), whose contents are not part of this model.
   */
  datatype PhraseBank = PhraseBank(numbers: map<int, string>, ambient: AmbientPool)

  /** `BINGO_PHRASES[n]` is truthy: present and not the empty string. */
  predicate HasPhrase(bank: PhraseBank, n: int)
  {
    n in bank.numbers && bank.numbers[n] != ""
  }

  const FALLBACK_LEAD := "El "

  /** `getNumberPhrase`: the traditional phrase, or "El <n>" when there is none. */
  function NumberPhrase(bank: PhraseBank, n: int): string
  {
    if HasPhrase(bank, n) then bank.numbers[n] else FALLBACK_LEAD + Numerals.IntToString(n)
  }

  /**
   * The phrase of a ball is never empty: it is the table's phrase when the
   * table has one, and otherwise "El " followed by the ball's number in digits.
   */
  lemma NumberPhraseMeaning(bank: PhraseBank, n: int)
    ensures var r := NumberPhrase(bank, n);
      && |r| > 0
      && (HasPhrase(bank, n) ==> r == bank.numbers[n])
      && (!HasPhrase(bank, n) ==>
            |r| > |FALLBACK_LEAD| && r[..|FALLBACK_LEAD|] == FALLBACK_LEAD
            && Numerals.Canonical(r[|FALLBACK_LEAD|..])
            && Numerals.ParseInt(r[|FALLBACK_LEAD|..]) == n)
  {
    if !HasPhrase(bank, n) {
      var digits := Numerals.IntToString(n);
      Numerals.ParseIntRoundTrip(n);
      assert (FALLBACK_LEAD + digits)[|FALLBACK_LEAD|..] == digits;
    }
  }

  /** `getAmbientPhrase` with `Math.random()` selecting position `pick % |pool|`. */
  function AmbientPhrase(bank: PhraseBank, pick: nat): (r: string)
    ensures r in bank.ambient
    ensures pick < |bank.ambient| ==> r == bank.ambient[pick]
  {
    PickIndex(pick, |bank.ambient|);
    bank.ambient[pick % |bank.ambient|]
  }

  /**
   * The announcement `createNumberAnnouncement` composes; `coin` stands for
   * the test `Math.random() < 0.3` and `ambientPick` for the ambient choice.
   */
  function Announcement(bank: PhraseBank, n: int, includeAmbient: bool, coin: bool, ambientPick: nat): string
  {
    if includeAmbient && coin then AmbientPhrase(bank, ambientPick) + " " + NumberPhrase(bank, n)
    else NumberPhrase(bank, n)
  }

  /**
   * An announcement always ends with the ball's phrase; what comes before it
   * is nothing, or one ambient phrase of the pool followed by one space.
   * Without ambient phrases it is exactly the ball's phrase, whatever the coin.
   */
  lemma AnnouncementShape(bank: PhraseBank, n: int, includeAmbient: bool, coin: bool, ambientPick: nat)
    ensures var r := Announcement(bank, n, includeAmbient, coin, ambientPick);
      var phrase := NumberPhrase(bank, n);
      && |phrase| <= |r|
      && r[|r| - |phrase|..] == phrase
      && var prefix := r[..|r| - |phrase|];
         prefix == [] || (prefix[|prefix| - 1] == ' ' && prefix[..|prefix| - 1] in bank.ambient)
    ensures !includeAmbient ==> Announcement(bank, n, includeAmbient, coin, ambientPick) == NumberPhrase(bank, n)
  {
    var phrase := NumberPhrase(bank, n);
    if includeAmbient && coin {
      var prefix := AmbientPhrase(bank, ambientPick) + " ";
      assert prefix + phrase == AmbientPhrase(bank, ambientPick) + " " + phrase;
      assert (prefix + phrase)[..|prefix|] == prefix;
      assert prefix[..|prefix| - 1] == AmbientPhrase(bank, ambientPick);
    }
  }

  /** `createNumberAnnouncement`, building the text with `+=` as the source does. */
  method CreateNumberAnnouncement(bank: PhraseBank, n: int, includeAmbient: bool, coin: bool, ambientPick: nat)
    returns (announcement: string)
    ensures announcement == Announcement(bank, n, includeAmbient, coin, ambientPick)
  {
    announcement := "";
    if includeAmbient && coin {
      announcement := announcement + AmbientPhrase(bank, ambientPick) + " ";
    }
    announcement := announcement + NumberPhrase(bank, n);
  }

  // ---------------------------------------------------- queries on the list

  /** `verifyWinningCard`: `playerNumbers.every(num => calledNumbers.includes(num))`. */
  function VerifyWinningCard(calledNumbers: seq<int>, playerNumbers: seq<int>): (r: bool)
    ensures r <==> forall i :: 0 <= i < |playerNumbers| ==> playerNumbers[i] in calledNumbers
  {
    if playerNumbers == [] then true
    else playerNumbers[0] in calledNumbers && VerifyWinningCard(calledNumbers, playerNumbers[1..])
  }

  datatype Stats = Stats(called: int, remaining: int, progress: int)

  const TOTAL_NUMBERS: int := 90

  /**
   * `getGameStats`: `progress` is `Math.round(called / total * 100)`, that is
   * the integer nearest to `100 * called / total`, halves rounded up.
   */
  function GetGameStats(usedNumbers: seq<int>, totalNumbers: int): (s: Stats)
    requires totalNumbers > 0
    ensures s.called == |usedNumbers|
    ensures s.called + s.remaining == totalNumbers
    ensures totalNumbers * (2 * s.progress - 1) <= 200 * s.called < totalNumbers * (2 * s.progress + 1)
  {
    var called := |usedNumbers|;
    Stats(called, totalNumbers - called, (200 * called + totalNumbers) / (2 * totalNumbers))
  }

  /** Half of the 90 balls called is 50 percent progress. */
  lemma HalfwayStats(usedNumbers: seq<int>)
    requires |usedNumbers| == 45
    ensures GetGameStats(usedNumbers, TOTAL_NUMBERS) == Stats(45, 45, 50)
  {
  }

  const NONE_CALLED := "No se han cantado números aún."
  const RECENT_LEAD := "Los últimos números son: "

  /** `numbers.slice(-10)`: the last ten, or all of them when there are fewer. */
  function Recent(numbers: seq<int>): (r: seq<int>)
    ensures |r| == if |numbers| < 10 then |numbers| else 10
    ensures numbers == numbers[..|numbers| - |r|] + r
  {
    if |numbers| <= 10 then numbers else numbers[|numbers| - 10..]
  }

  /** `formatCalledNumbers`: the whole list when short, otherwise the last ten. */
  function FormatCalledNumbers(numbers: seq<int>): (r: string)
    ensures numbers == [] ==> r == NONE_CALLED
    ensures 0 < |numbers| <= 5 ==> Numerals.Split(r) == Some(numbers)
    ensures |numbers| > 5 ==>
      |RECENT_LEAD| <= |r| && r[..|RECENT_LEAD|] == RECENT_LEAD
      && Numerals.Split(r[|RECENT_LEAD|..]) == Some(Recent(numbers))
  {
    if |numbers| == 0 then NONE_CALLED
    else if |numbers| <= 5 then
      Numerals.SplitJoin(numbers);
      Numerals.Join(numbers)
    else
      var recent := Recent(numbers);
      Numerals.SplitJoin(recent);
      assert (RECENT_LEAD + Numerals.Join(recent))[|RECENT_LEAD|..] == Numerals.Join(recent);
      RECENT_LEAD + Numerals.Join(recent)
  }

  // ------------------------------------------------------------ the record

  /** The game record the handlers load, update in place and save. */
  class GameState {
    var active: bool
    var paused: bool
    /** Stored as given, even when no pacing table knows it. */
    var speed: string
    /** In draw order. */
    var calledNumbers: seq<int>
    var lastNumber: Option<int>
    /** Set once at creation (`new Date().toISOString()`), never changed. */
    const startTime: string

    /** Balls distinct and in range; `lastNumber` is the last ball, `null` before any. */
    ghost predicate Valid()
      reads this`calledNumbers, this`lastNumber
    {
      && ValidCalled(calledNumbers)
      && lastNumber == (if calledNumbers == [] then None else Some(Last(calledNumbers)))
    }

    /** `createNewGame(speed)`, with the clock reading passed in. */
    constructor CreateNewGame(speed: string, startTime: string)
      ensures Valid()
      ensures active && !paused
      ensures this.speed == speed && this.startTime == startTime
      ensures calledNumbers == [] && lastNumber == None
    {
      active := true;
      paused := false;
      this.speed := speed;
      calledNumbers := [];
      lastNumber := None;
      this.startTime := startTime;
    }
  }
}
