/**
 * Decimal text of integers, as JavaScript's template literals (`${n}`) and
 * `Array.prototype.join(', ')` produce it, together with the parsers that
 * invert them. The parsers exist only to state what the rendered text means.
 */
module Numerals {
  import opened Optional

  predicate IsDigit(c: char) { '0' <= c <= '9' }

  predicate AllDigits(s: string) { forall i :: 0 <= i < |s| ==> IsDigit(s[i]) }

  function DigitChar(d: nat): (c: char)
    requires d < 10
    ensures IsDigit(c)
  {
    (48 + d) as char
  }

  function DigitValue(c: char): (d: nat)
    requires IsDigit(c)
    ensures d < 10
  {
    c as int - 48
  }

  /** Decimal digits of `n`, most significant first, without leading zeros. */
  function NatToString(n: nat): (s: string)
    ensures |s| > 0 && AllDigits(s)
  {
    if n < 10 then [DigitChar(n)] else NatToString(n / 10) + [DigitChar(n % 10)]
  }

  function ParseNat(s: string): nat
    requires AllDigits(s)
  {
    if s == [] then 0 else 10 * ParseNat(s[..|s| - 1]) + DigitValue(s[|s| - 1])
  }

  lemma {:induction false} ParseNatRoundTrip(n: nat)
    ensures ParseNat(NatToString(n)) == n
  {
    if n >= 10 {
      var s := NatToString(n);
      assert s[..|s| - 1] == NatToString(n / 10);
      ParseNatRoundTrip(n / 10);
    }
  }

  /** The text JavaScript gives an integer: an optional minus sign, then digits. */
  function IntToString(i: int): (s: string)
    ensures |s| > 0
    ensures forall k :: 0 <= k < |s| ==> IsDigit(s[k]) || (k == 0 && s[k] == '-')
  {
    if i < 0 then "-" + NatToString(-i) else NatToString(i)
  }

  function ParseInt(s: string): int
  {
    if |s| > 0 && s[0] == '-' && AllDigits(s[1..]) then -(ParseNat(s[1..]) as int)
    else if AllDigits(s) then ParseNat(s)
    else 0
  }

  lemma ParseIntRoundTrip(i: int)
    ensures ParseInt(IntToString(i)) == i
  {
    if i < 0 {
      ParseNatRoundTrip(-i);
      assert IntToString(i)[1..] == NatToString(-i);
    } else {
      ParseNatRoundTrip(i);
    }
  }

  const SEPARATOR := ", "

  /** `xs.join(', ')` for a list of integers. */
  function Join(xs: seq<int>): string
  {
    if |xs| == 0 then ""
    else if |xs| == 1 then IntToString(xs[0])
    else IntToString(xs[0]) + SEPARATOR + Join(xs[1..])
  }

  /** Index of the first comma of `s`, or `|s|` when there is none. */
  function CommaAt(s: string): (k: nat)
    ensures k <= |s|
    ensures k < |s| ==> s[k] == ','
    ensures forall i :: 0 <= i < k ==> s[i] != ','
  {
    if s == [] || s[0] == ',' then 0 else 1 + CommaAt(s[1..])
  }

  /** Whether `f` is exactly the text JavaScript gives some integer. */
  predicate Canonical(f: string)
  {
    IntToString(ParseInt(f)) == f
  }

  /**
   * Reads back a list written by `Join`: canonical integer fields separated
   * by exactly ", ". Any other text is `None`.
   */
  function Split(s: string): Option<seq<int>>
    decreases |s|
  {
    var k := CommaAt(s);
    if !Canonical(s[..k]) then None
    else if k == |s| then Some([ParseInt(s)])
    else if k + 1 < |s| && s[k + 1] == ' ' && Split(s[k + 2..]).Some? then
      Some([ParseInt(s[..k])] + Split(s[k + 2..]).value)
    else None
  }

  lemma {:induction false} CommaAtAfterField(a: string, b: string)
    requires forall i :: 0 <= i < |a| ==> a[i] != ','
    requires |b| > 0 && b[0] == ','
    ensures CommaAt(a + b) == |a|
  {
    if a != [] {
      assert (a + b)[1..] == a[1..] + b;
      CommaAtAfterField(a[1..], b);
    }
  }

  /** A last field splits into itself. */
  lemma SplitLast(a: string)
    requires Canonical(a) && forall i :: 0 <= i < |a| ==> a[i] != ','
    ensures Split(a) == Some([ParseInt(a)])
  {
    assert CommaAt(a) == |a|;
    assert a[..|a|] == a;
  }

  /** A field followed by ", " splits into itself and the split of the rest. */
  lemma SplitField(a: string, rest: string, xs: seq<int>)
    requires Canonical(a) && forall i :: 0 <= i < |a| ==> a[i] != ','
    requires Split(rest) == Some(xs)
    ensures Split(a + SEPARATOR + rest) == Some([ParseInt(a)] + xs)
  {
    var s := a + SEPARATOR + rest;
    assert s == a + (SEPARATOR + rest);
    CommaAtAfterField(a, SEPARATOR + rest);
    assert s[..|a|] == a;
    assert s[|a|] == ',' && s[|a| + 1] == ' ';
    assert s[|a| + 2..] == rest;
  }

  /** Joining a non-empty list and splitting the text gives the list back. */
  lemma {:induction false} SplitJoin(xs: seq<int>)
    requires |xs| > 0
    ensures Split(Join(xs)) == Some(xs)
  {
    var a := IntToString(xs[0]);
    ParseIntRoundTrip(xs[0]);
    if |xs| == 1 {
      SplitLast(a);
      assert xs == [ParseInt(a)];
    } else {
      SplitJoin(xs[1..]);
      SplitField(a, Join(xs[1..]), xs[1..]);
      assert xs == [ParseInt(a)] + xs[1..];
    }
  }

  /** A successful split of a text without a comma reads one canonical field. */
  lemma SplitShapeLast(s: string)
    requires Split(s).Some? && CommaAt(s) == |s|
    ensures Canonical(s) && Split(s).value == [ParseInt(s)]
  {
    assert s[..|s|] == s;
  }

  /**
   * A successful split of a text with a comma reads a canonical field, then
   * ", ", then a text that splits successfully too.
   */
  lemma SplitShapeField(s: string)
    requires Split(s).Some? && CommaAt(s) < |s|
    ensures var k := CommaAt(s);
      && Canonical(s[..k])
      && k + 1 < |s| && s[k] == ',' && s[k + 1] == ' '
      && Split(s[k + 2..]).Some?
      && Split(s).value == [ParseInt(s[..k])] + Split(s[k + 2..]).value
  {
  }

  /** A text with ", " at `k` is its part before, the separator, and its part after. */
  lemma Rejoin(s: string, k: nat)
    requires k + 1 < |s| && s[k] == ',' && s[k + 1] == ' '
    ensures s == s[..k] + SEPARATOR + s[k + 2..]
  {
    assert s[k..k + 2] == SEPARATOR;
    assert s == s[..k] + s[k..k + 2] + s[k + 2..];
  }

  /**
   * Conversely, a text that splits into a list is exactly the join of that
   * list: the split accepts no other spelling of the same numbers.
   */
  lemma {:induction false} JoinSplit(s: string, xs: seq<int>)
    requires Split(s) == Some(xs)
    ensures |xs| > 0 && Join(xs) == s
    decreases |s|
  {
    var k := CommaAt(s);
    if k == |s| {
      SplitShapeLast(s);
      assert xs == [ParseInt(s)];
      assert Join(xs) == IntToString(ParseInt(s));
    } else {
      SplitShapeField(s);
      var field := s[..k];
      var tail := s[k + 2..];
      var rest := Split(tail).value;
      JoinSplit(tail, rest);
      assert xs == [ParseInt(field)] + rest;
      assert xs[0] == ParseInt(field) && xs[1..] == rest;
      assert |xs| > 1;
      assert IntToString(xs[0]) == field;
      assert Join(xs) == field + SEPARATOR + Join(rest);
      Rejoin(s, k);
    }
  }
}
