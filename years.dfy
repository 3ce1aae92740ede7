/** The four-digit years 1900-2099 that stand as whole words (the pattern
    `\b((?:19|20)\d{2})\b`, which both the experience and the education
    checker search), and `sorted(set(...))` of them. */
module Years {
  import opened Text

  predicate IsDigit(c: char) {
    '0' <= c <= '9'
  }

  function DigitValue(c: char): (v: nat)
    requires IsDigit(c)
    ensures v <= 9
  {
    (c as int) - ('0' as int)
  }

  /** Four characters spelling a year from 1900 to 2099. */
  predicate IsYear(d: string) {
    |d| == 4 && ((d[0] == '1' && d[1] == '9') || (d[0] == '2' && d[1] == '0'))
    && IsDigit(d[2]) && IsDigit(d[3])
  }

  /** The number a year spells. */
  function YearValue(d: string): (y: int)
    requires IsYear(d)
    ensures 1900 <= y <= 2099
  {
    (if d[0] == '1' then 1900 else 2000) + 10 * DigitValue(d[2]) + DigitValue(d[3])
  }

  /** `re.findall` of the year pattern over `s`, where `prevWord` tells
      whether the character before `s` is a word character.  A match needs
      no word character just before and just after its four digits; after a
      match the scan resumes behind it. */
  function YearsFrom(s: string, prevWord: bool): (r: seq<int>)
    ensures forall i :: 0 <= i < |r| ==> 1900 <= r[i] <= 2099
    decreases |s|
  {
    if |s| < 4 then []
    else if !prevWord && IsYear(s[..4]) && (|s| == 4 || !IsWordChar(s[4])) then
      [YearValue(s[..4])] + YearsFrom(s[4..], true)
    else YearsFrom(s[1..], IsWordChar(s[0]))
  }

  /** The years mentioned in `s`, in order of appearance, repeats included. */
  function YearsIn(s: string): seq<int> {
    YearsFrom(s, false)
  }

  /** A year standing alone is the one mention. */
  lemma YearAlone(d: string)
    requires IsYear(d)
    ensures YearsIn(d) == [YearValue(d)]
  {
    assert d[..4] == d;
    assert YearsFrom(d[4..], true) == [];
  }

  predicate Increasing(s: seq<int>) {
    forall i, j :: 0 <= i < j < |s| ==> s[i] < s[j]
  }

  /** Puts `x` into its place in an increasing sequence, unless it is there. */
  function Insert(x: int, s: seq<int>): (r: seq<int>)
    requires Increasing(s)
    ensures Increasing(r)
    ensures forall y :: y in r <==> y == x || y in s
  {
    if s == [] then [x]
    else if x < s[0] then [x] + s
    else if x == s[0] then s
    else
      var t := Insert(x, s[1..]);
      assert forall y :: y in s[1..] ==> s[0] < y;
      assert forall j :: 0 <= j < |t| ==> t[j] in t && s[0] < t[j];
      [s[0]] + t
  }

  /** `sorted(set(s))`: the distinct values of `s` in increasing order.
      (Four-digit years sort the same as text and as numbers.) */
  function SortedSet(s: seq<int>): (r: seq<int>)
    ensures Increasing(r)
    ensures forall y :: y in r <==> y in s
  {
    if s == [] then [] else Insert(s[|s| - 1], SortedSet(s[..|s| - 1]))
  }

  /** The sorted distinct values are empty exactly when `s` is. */
  lemma SortedSetEmpty(s: seq<int>)
    ensures SortedSet(s) == [] <==> s == []
  {
    if s != [] { assert s[0] in SortedSet(s); }
  }

  /** An increasing sequence is its own sorted set. */
  lemma {:induction false} SortedSetOfIncreasing(s: seq<int>)
    requires Increasing(s)
    ensures SortedSet(s) == s
  {
    if s != [] {
      var n := |s| - 1;
      SortedSetOfIncreasing(s[..n]);
      InsertLast(s[..n], s[n]);
      assert s[..n] + [s[n]] == s;
    }
  }

  lemma {:induction false} InsertLast(s: seq<int>, x: int)
    requires Increasing(s)
    requires forall i :: 0 <= i < |s| ==> s[i] < x
    ensures Insert(x, s) == s + [x]
  {
    if s != [] {
      InsertLast(s[1..], x);
      assert [s[0]] + (s[1..] + [x]) == s + [x];
    }
  }
}
