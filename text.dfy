/** Plain string logic used by the checkers: Python's whitespace, strip,
    split, lower-casing (ASCII), substring and prefix tests, and
    word-boundary search.  Strings are sequences of Unicode scalar values,
    so `|s|` is Python's `len(s)`. */
module Text {

  /** Python's `str.isspace()` for one character: the characters that
      `str.split()`, `str.strip()` and the regex class `\s` treat as whitespace. */
  predicate IsSpace(c: char) {
    c == ' ' || c == '\t' || c == '\n' || c == '\r' || c == '\U{0B}' || c == '\U{0C}'
    || ('\U{1C}' <= c <= '\U{1F}') || c == '\U{85}' || c == '\U{A0}' || c == '\U{1680}'
    || ('\U{2000}' <= c <= '\U{200A}') || c == '\U{2028}' || c == '\U{2029}'
    || c == '\U{202F}' || c == '\U{205F}' || c == '\U{3000}'
  }

  predicate AllSpace(s: string) {
    forall i :: 0 <= i < |s| ==> IsSpace(s[i])
  }

  /** `s.lstrip()` */
  function TrimStart(s: string): (r: string)
    ensures |r| <= |s| && r == s[|s| - |r|..]
    ensures r == [] || !IsSpace(r[0])
    ensures AllSpace(s[..|s| - |r|])
  {
    if s != [] && IsSpace(s[0]) then TrimStart(s[1..]) else s
  }

  /** `s.rstrip()` */
  function TrimEnd(s: string): (r: string)
    ensures |r| <= |s| && r == s[..|r|]
    ensures r == [] || !IsSpace(r[|r| - 1])
    ensures AllSpace(s[|r|..])
  {
    if s != [] && IsSpace(s[|s| - 1]) then TrimEnd(s[..|s| - 1]) else s
  }

  /** `s.strip()`: the result is a slice of `s` that neither starts nor ends
      with whitespace, and it is empty exactly when `s` is all whitespace. */
  function Strip(s: string): (r: string)
    ensures |r| <= |s|
    ensures r == [] || (!IsSpace(r[0]) && !IsSpace(r[|r| - 1]))
    ensures r == [] <==> AllSpace(s)
  {
    var t := TrimStart(s);
    var r := TrimEnd(t);
    AllSpaceSplit(s, |s| - |t|);
    AllSpaceSplit(t, |r|);
    r
  }

  /** A string is all whitespace exactly when both halves of a split are. */
  lemma AllSpaceSplit(s: string, k: nat)
    requires k <= |s|
    ensures AllSpace(s) <==> AllSpace(s[..k]) && AllSpace(s[k..])
  {
    if AllSpace(s[..k]) && AllSpace(s[k..]) {
      forall i | 0 <= i < |s| ensures IsSpace(s[i]) {
        if i < k { assert s[i] == s[..k][i]; } else { assert s[i] == s[k..][i - k]; }
      }
    }
    if AllSpace(s) {
      forall i | 0 <= i < k ensures IsSpace(s[..k][i]) { assert s[..k][i] == s[i]; }
      forall i | 0 <= i < |s| - k ensures IsSpace(s[k..][i]) { assert s[k..][i] == s[i + k]; }
    }
  }

  /** `s.rstrip(c)` for a single character `c`. */
  function RStripChar(s: string, c: char): (r: string)
    ensures |r| <= |s| && r == s[..|r|]
    ensures r == [] || r[|r| - 1] != c
    ensures forall i :: |r| <= i < |s| ==> s[i] == c
  {
    if s != [] && s[|s| - 1] == c then RStripChar(s[..|s| - 1], c) else s
  }

  /** The text of a line as both the heading rules see it:
      `line.strip().rstrip(":").strip()`. */
  function HeadingText(line: string): string {
    Strip(RStripChar(Strip(line), ':'))
  }

  function IndexOf(s: string, c: char): (i: nat)
    requires c in s
    ensures i < |s| && s[i] == c && c !in s[..i]
  {
    if s[0] == c then 0 else IndexOf(s[1..], c) + 1
  }

  /** `s.split(sep)` for a one-character separator: the maximal pieces between
      separators, always at least one. */
  function SplitChar(s: string, sep: char): (r: seq<string>)
    ensures |r| >= 1
    ensures sep in s ==> |r| >= 2
    ensures sep !in s ==> r == [s]
    ensures forall k :: 0 <= k < |r| ==> sep !in r[k]
    decreases |s|
  {
    if sep !in s then [s]
    else
      var i := IndexOf(s, sep);
      [s[..i]] + SplitChar(s[i + 1..], sep)
  }

  /** `sep.join(parts)` for a separator string. */
  function JoinOn(parts: seq<string>, sep: string): string
    requires |parts| >= 1
  {
    if |parts| == 1 then parts[0] else parts[0] + sep + JoinOn(parts[1..], sep)
  }

  /** Joining a piece in front of other pieces puts the separator between. */
  lemma JoinOnCons(p: string, parts: seq<string>, sep: string)
    requires |parts| >= 1
    ensures JoinOn([p] + parts, sep) == p + sep + JoinOn(parts, sep)
  {
    assert ([p] + parts)[1..] == parts;
  }

  /** Splitting on a character and joining back with it gives the text back. */
  lemma {:induction false} SplitJoinChar(s: string, sep: char)
    ensures JoinOn(SplitChar(s, sep), [sep]) == s
    decreases |s|
  {
    if sep in s {
      var i := IndexOf(s, sep);
      var rest := s[i + 1..];
      SplitCharUnfold(s, sep);
      SplitJoinChar(rest, sep);
      JoinOnCons(s[..i], SplitChar(rest, sep), [sep]);
      assert s == s[..i] + [sep] + rest;
    } else {
      assert SplitChar(s, sep) == [s];
    }
  }

  /** A text holding the separator splits at its first occurrence. */
  lemma SplitCharUnfold(s: string, sep: char)
    requires sep in s
    ensures SplitChar(s, sep) == [s[..IndexOf(s, sep)]] + SplitChar(s[IndexOf(s, sep) + 1..], sep)
  {
  }

  /** `p` is a prefix of `s` (`s.startswith(p)`). */
  predicate StartsWith(s: string, p: string) {
    |p| <= |s| && s[..|p|] == p
  }

  /** `sub in s` */
  predicate Contains(s: string, sub: string)
    decreases |s|
  {
    StartsWith(s, sub) || (s != [] && Contains(s[1..], sub))
  }

  /** `sub` occurs in `s` starting at index `i`. */
  predicate OccursAt(s: string, sub: string, i: int) {
    0 <= i <= |s| - |sub| && s[i..i + |sub|] == sub
  }

  /** `sub in s` holds exactly when `sub` occurs at some position of `s`. */
  lemma {:induction false} ContainsAt(s: string, sub: string)
    ensures Contains(s, sub) <==> exists i :: OccursAt(s, sub, i)
    decreases |s|
  {
    if StartsWith(s, sub) {
      assert OccursAt(s, sub, 0);
    } else if s != [] {
      ContainsAt(s[1..], sub);
      if Contains(s[1..], sub) {
        var i :| OccursAt(s[1..], sub, i);
        assert s[1..][i..i + |sub|] == s[i + 1..i + 1 + |sub|];
        assert OccursAt(s, sub, i + 1);
      }
      if exists i :: OccursAt(s, sub, i) {
        var i :| OccursAt(s, sub, i);
        assert i != 0;
        assert s[1..][i - 1..i - 1 + |sub|] == s[i..i + |sub|];
        assert OccursAt(s[1..], sub, i - 1);
      }
    }
  }

  /** Whatever contains a word contains every prefix of it. */
  lemma ContainsPrefixOf(s: string, w: string, p: string)
    requires Contains(s, w) && StartsWith(w, p)
    ensures Contains(s, p)
  {
    ContainsAt(s, w);
    var i :| OccursAt(s, w, i);
    assert s[i..i + |p|] == w[..|p|];
    assert OccursAt(s, p, i);
    ContainsAt(s, p);
  }

  /** `[k for k in subs if k in s]`: the phrases of `subs` that occur in `s`, in order. */
  function Found(s: string, subs: seq<string>): (r: seq<string>)
    ensures |r| <= |subs|
    ensures forall i :: 0 <= i < |r| ==> Contains(s, r[i]) && r[i] in subs
    decreases |subs|
  {
    if subs == [] then []
    else (if Contains(s, subs[0]) then [subs[0]] else []) + Found(s, subs[1..])
  }

  /** `any(k in s for k in subs)` */
  predicate ContainsAny(s: string, subs: seq<string>)
    decreases |subs|
  {
    subs != [] && (Contains(s, subs[0]) || ContainsAny(s, subs[1..]))
  }

  /** Some phrase occurs exactly when the list of found phrases is non-empty,
      and exactly when some phrase of the list occurs. */
  lemma {:induction false} ContainsAnyFound(s: string, subs: seq<string>)
    ensures ContainsAny(s, subs) <==> Found(s, subs) != []
    ensures ContainsAny(s, subs) <==> exists k :: 0 <= k < |subs| && Contains(s, subs[k])
    decreases |subs|
  {
    if subs != [] {
      ContainsAnyFound(s, subs[1..]);
      if ContainsAny(s, subs[1..]) {
        var k :| 0 <= k < |subs[1..]| && Contains(s, subs[1..][k]);
        assert Contains(s, subs[k + 1]);
      }
      if exists k :: 0 <= k < |subs| && Contains(s, subs[k]) {
        var k :| 0 <= k < |subs| && Contains(s, subs[k]);
        if k > 0 { assert subs[1..][k - 1] == subs[k]; }
      }
    }
  }

  /** `\w` for one character, restricted to ASCII letters, digits and '_'. */
  predicate IsWordChar(c: char) {
    ('a' <= c <= 'z') || ('A' <= c <= 'Z') || ('0' <= c <= '9') || c == '_'
  }

  /** Search for `w` at a word start, scanning `s` where `prevWord` tells
      whether the character before `s` is a word character. */
  predicate OccursAtWordStartFrom(s: string, w: string, prevWord: bool)
    decreases |s|
  {
    (!prevWord && StartsWith(s, w)) || (s != [] && OccursAtWordStartFrom(s[1..], w, IsWordChar(s[0])))
  }

  /** `re.search(r"\b" + w + r"\w*\b", s)` for a `w` that starts and ends
      with a word character: `w` occurs at a position that is not preceded
      by a word character (the greedy `\w*` always reaches a boundary). */
  predicate OccursAtWordStart(s: string, w: string) {
    OccursAtWordStartFrom(s, w, false)
  }

  /** `w` occurs at index `i` of `s` and the character before it (the one
      before `s` when `i == 0`, described by `prevWord`) is not a word character. */
  predicate WordStartAt(s: string, w: string, prevWord: bool, i: int) {
    OccursAt(s, w, i) && (if i == 0 then !prevWord else !IsWordChar(s[i - 1]))
  }

  lemma {:induction false} OccursAtWordStartFromAt(s: string, w: string, prevWord: bool)
    ensures OccursAtWordStartFrom(s, w, prevWord) <==> exists i :: WordStartAt(s, w, prevWord, i)
    decreases |s|
  {
    if !prevWord && StartsWith(s, w) {
      assert WordStartAt(s, w, prevWord, 0);
    } else if s != [] {
      OccursAtWordStartFromAt(s[1..], w, IsWordChar(s[0]));
      if OccursAtWordStartFrom(s[1..], w, IsWordChar(s[0])) {
        var i :| WordStartAt(s[1..], w, IsWordChar(s[0]), i);
        assert s[1..][i..i + |w|] == s[i + 1..i + 1 + |w|];
        assert i > 0 ==> s[1..][i - 1] == s[i];
        assert WordStartAt(s, w, prevWord, i + 1);
      }
      if exists i :: WordStartAt(s, w, prevWord, i) {
        var i :| WordStartAt(s, w, prevWord, i);
        assert i != 0;
        assert s[1..][i - 1..i - 1 + |w|] == s[i..i + |w|];
        assert i - 1 > 0 ==> s[1..][i - 2] == s[i - 1];
        assert WordStartAt(s[1..], w, IsWordChar(s[0]), i - 1);
      }
    }
  }

  /** An occurrence at a word start is in particular an occurrence. */
  lemma OccursAtWordStartContains(s: string, w: string)
    requires OccursAtWordStart(s, w)
    ensures Contains(s, w)
  {
    OccursAtWordStartFromAt(s, w, false);
    var i :| WordStartAt(s, w, false, i);
    ContainsAt(s, w);
  }

  /** Number of leading non-whitespace characters. */
  function WordLength(s: string): (n: nat)
    ensures n <= |s|
    ensures forall i :: 0 <= i < n ==> !IsSpace(s[i])
    ensures n < |s| ==> IsSpace(s[n])
  {
    if s == [] || IsSpace(s[0]) then 0 else WordLength(s[1..]) + 1
  }

  /** `s.split()`: the maximal runs of non-whitespace characters. */
  function Words(s: string): (r: seq<string>)
    ensures forall k :: 0 <= k < |r| ==> IsWord(r[k])
    decreases |s|
  {
    var t := TrimStart(s);
    if t == [] then []
    else
      var n := WordLength(t);
      assert n > 0 && IsWord(t[..n]);
      var rest := Words(t[n..]);
      ConsWord(t[..n], rest);
      [t[..n]] + rest
  }

  /** A word in front of a list of words gives a list of words. */
  lemma ConsWord(w: string, rest: seq<string>)
    requires IsWord(w) && forall k :: 0 <= k < |rest| ==> IsWord(rest[k])
    ensures forall k :: 0 <= k < |[w] + rest| ==> IsWord(([w] + rest)[k])
  {
  }

  /** A non-empty run of non-whitespace characters. */
  predicate IsWord(w: string) {
    w != [] && forall i :: 0 <= i < |w| ==> !IsSpace(w[i])
  }

  /** A text has no words exactly when it is all whitespace. */
  lemma WordsEmpty(s: string)
    ensures Words(s) == [] <==> AllSpace(s)
  {
    var t := TrimStart(s);
    AllSpaceSplit(s, |s| - |t|);
    if t != [] { assert !IsSpace(t[0]); }
  }

  /** Leading whitespace is what `lstrip` drops. */
  lemma {:induction false} TrimStartAfterSpace(sp: string, s: string)
    requires AllSpace(sp)
    ensures TrimStart(sp + s) == TrimStart(s)
    decreases |sp|
  {
    if sp == [] {
      assert sp + s == s;
    } else {
      assert (sp + s)[1..] == sp[1..] + s;
      TrimStartAfterSpace(sp[1..], s);
    }
  }

  /** Leading whitespace does not change the words. */
  lemma WordsAfterSpace(sp: string, s: string)
    requires AllSpace(sp)
    ensures Words(sp + s) == Words(s)
  {
    TrimStartAfterSpace(sp, s);
  }

  /** A single word is its own split. */
  lemma WordsOfWord(w: string)
    requires IsWord(w)
    ensures Words(w) == [w]
  {
    assert TrimStart(w) == w;
    var n := WordLength(w);
    assert w[..n] == w && w[n..] == [];
    assert TrimStart([]) == [];
  }

  /** The leading word of `t` is not lengthened by what follows a space. */
  lemma {:induction false} WordLengthAppend(t: string, x: string)
    requires WordLength(t) < |t| || (x != [] && IsSpace(x[0]))
    ensures WordLength(t + x) == WordLength(t)
    decreases |t|
  {
    if t == [] {
      assert t + x == x;
    } else {
      assert (t + x)[0] == t[0];
      if !IsSpace(t[0]) {
        assert (t + x)[1..] == t[1..] + x;
        WordLengthAppend(t[1..], x);
      }
    }
  }

  /** A text starting with a non-space starts with its leading word. */
  lemma WordsUnfold(u: string)
    requires u != [] && !IsSpace(u[0])
    ensures Words(u) == [u[..WordLength(u)]] + Words(u[WordLength(u)..])
  {
    assert TrimStart(u) == u;
  }

  /** A whitespace character splits the words of a text in two: with
      `WordsOfWord` and `WordsEmpty` this determines `Words`. */
  lemma WordsSplit(a: string, c: char, b: string)
    requires IsSpace(c)
    ensures Words(a + [c] + b) == Words(a) + Words(b)
  {
    var x := [c] + b;
    assert a + [c] + b == a + x;
    assert x[1..] == b;
    WordsSplitAt(a, x);
  }

  /** `WordsSplit` with the space and what follows as one text `x`. */
  lemma {:induction false} WordsSplitAt(a: string, x: string)
    requires x != [] && IsSpace(x[0])
    ensures Words(a + x) == Words(a) + Words(x[1..])
    decreases |a|, 1
  {
    if a == [] {
      assert a + x == [x[0]] + x[1..];
      WordsAfterSpace([x[0]], x[1..]);
      assert Words(a) == [] by { assert TrimStart(a) == []; }
      assert Words(a + x) == Words(a) + Words(x[1..]);
    } else if IsSpace(a[0]) {
      var y := a[1..] + x;
      assert a + x == [a[0]] + y;
      assert a == [a[0]] + a[1..];
      WordsAfterSpace([a[0]], y);
      WordsAfterSpace([a[0]], a[1..]);
      WordsSplitAt(a[1..], x);
    } else {
      WordsSplitWord(a, x);
    }
  }

  /** `WordsSplitAt` for a text starting with a word: the word is the first
      of both sides. */
  lemma {:induction false} WordsSplitWord(a: string, x: string)
    requires x != [] && IsSpace(x[0])
    requires a != [] && !IsSpace(a[0])
    ensures Words(a + x) == Words(a) + Words(x[1..])
    decreases |a|, 0
  {
    var n := WordLength(a);
    var w, rest := a[..n], a[n..];
    assert IsWord(w);
    assert a == w + rest && a + x == w + (rest + x);
    assert rest + x != [] && IsSpace((rest + x)[0]) by {
      if rest == [] { assert rest + x == x; } else { assert (rest + x)[0] == rest[0]; }
    }
    WordsCons(w, rest);
    WordsCons(w, rest + x);
    WordsSplitAt(rest, x);
    AppendAssoc([w], Words(rest), Words(x[1..]));
  }

  /** A word followed by nothing or by whitespace is the first of the words. */
  lemma WordsCons(w: string, y: string)
    requires IsWord(w) && (y == [] || IsSpace(y[0]))
    ensures Words(w + y) == [w] + Words(y)
  {
    if y == [] {
      assert w + y == w;
      WordsOfWord(w);
      assert Words(y) == [] by { assert TrimStart(y) == []; }
    } else {
      var t := w + y;
      assert WordLength(w) == |w|;
      WordLengthAppend(w, y);
      assert t[0] == w[0];
      WordsUnfold(t);
      assert t[..|w|] == w && t[|w|..] == y;
    }
  }

  /** Concatenation is associative; stated apart so that proofs about lists
      of words need not unfold it element by element. */
  lemma AppendAssoc<T>(p: seq<T>, q: seq<T>, r: seq<T>)
    ensures p + (q + r) == (p + q) + r
  {
  }

  /** Python `s.split(sep)` for a separator string: pieces between the
      leftmost non-overlapping occurrences of `sep`. */
  function SplitOn(s: string, sep: string): (r: seq<string>)
    requires |sep| > 0
    ensures |r| >= 1
    decreases |s|
  {
    if !Contains(s, sep) then [s]
    else
      var i := FirstIndex(s, sep);
      [s[..i]] + SplitOn(s[i + |sep|..], sep)
  }

  /** Position of the leftmost occurrence of `sub` in `s`. */
  function FirstIndex(s: string, sub: string): (i: nat)
    requires Contains(s, sub)
    ensures OccursAt(s, sub, i)
    ensures forall j :: 0 <= j < i ==> !OccursAt(s, sub, j)
    decreases |s|
  {
    if StartsWith(s, sub) then 0
    else
      var j := FirstIndex(s[1..], sub);
      assert s[1..][j..j + |sub|] == s[j + 1..j + 1 + |sub|];
      assert forall k :: 0 < k < j + 1 ==> !OccursAt(s, sub, k) by {
        forall k | 0 < k < j + 1 ensures !OccursAt(s, sub, k) {
          if OccursAt(s, sub, k) {
            assert s[1..][k - 1..k - 1 + |sub|] == s[k..k + |sub|];
            assert OccursAt(s[1..], sub, k - 1);
          }
        }
      }
      j + 1
  }

  /** Splitting on a separator and joining back with it gives the text back. */
  lemma {:induction false} SplitJoinOn(s: string, sep: string)
    requires |sep| > 0
    ensures JoinOn(SplitOn(s, sep), sep) == s
    decreases |s|
  {
    if Contains(s, sep) {
      var i := FirstIndex(s, sep);
      var rest := s[i + |sep|..];
      var parts := SplitOn(rest, sep);
      SplitOnUnfold(s, sep);
      SplitJoinOn(rest, sep);
      JoinOnCons(s[..i], parts, sep);
      assert s == s[..i] + sep + rest;
    }
  }

  /** A text holding the separator splits at its first occurrence. */
  lemma SplitOnUnfold(s: string, sep: string)
    requires |sep| > 0 && Contains(s, sep)
    ensures SplitOn(s, sep) == [s[..FirstIndex(s, sep)]] + SplitOn(s[FirstIndex(s, sep) + |sep|..], sep)
  {
  }

  /** The first piece ends at the leftmost occurrence of the separator: when
      `sep` does not occur in `p + sep` before position `|p|`, splitting
      `p + sep + t` gives `p` and then the pieces of `t`. */
  lemma SplitOnStep(p: string, sep: string, t: string)
    requires |sep| > 0
    requires forall j :: 0 <= j < |p| ==> !OccursAt(p + sep, sep, j)
    ensures SplitOn(p + sep + t, sep) == [p] + SplitOn(t, sep)
  {
    var s := p + sep + t;
    assert s[|p|..|p| + |sep|] == sep;
    assert OccursAt(s, sep, |p|);
    ContainsAt(s, sep);
    var i := FirstIndex(s, sep);
    if i < |p| {
      assert s[i..i + |sep|] == (p + sep)[i..i + |sep|];
      assert OccursAt(p + sep, sep, i);
    }
    assert i == |p|;
    assert s[..i] == p && s[i + |sep|..] == t;
  }

  /** A sentence separator of `re.split(r'[.!?]+', s)`. */
  predicate IsSentenceEnd(c: char) {
    c == '.' || c == '!' || c == '?'
  }

  /** Length of the leading run of sentence separators. */
  function SeparatorRun(s: string): (n: nat)
    ensures n <= |s|
    ensures forall i :: 0 <= i < n ==> IsSentenceEnd(s[i])
    ensures n < |s| ==> !IsSentenceEnd(s[n])
  {
    if s == [] || !IsSentenceEnd(s[0]) then 0 else SeparatorRun(s[1..]) + 1
  }

  /** Index of the first sentence separator, `|s|` when there is none. */
  function FirstSentenceEnd(s: string): (i: nat)
    ensures i <= |s|
    ensures forall k :: 0 <= k < i ==> !IsSentenceEnd(s[k])
    ensures i < |s| ==> IsSentenceEnd(s[i])
  {
    if s == [] || IsSentenceEnd(s[0]) then 0 else FirstSentenceEnd(s[1..]) + 1
  }

  /** `re.split(r'[.!?]+', s)`: the pieces between maximal runs of
      sentence separators; no piece holds a separator. */
  function SplitSentences(s: string): (r: seq<string>)
    ensures |r| >= 1
    ensures forall k, i :: 0 <= k < |r| && 0 <= i < |r[k]| ==> !IsSentenceEnd(r[k][i])
    decreases |s|
  {
    var i := FirstSentenceEnd(s);
    if i == |s| then [s]
    else
      var n := SeparatorRun(s[i..]);
      [s[..i]] + SplitSentences(s[i + n..])
  }

  /** A text without separators is a single sentence. */
  lemma SplitSentencesNone(p: string)
    requires forall i :: 0 <= i < |p| ==> !IsSentenceEnd(p[i])
    ensures SplitSentences(p) == [p]
  {
  }

  /** The first separator of `p + x` is the first of `x` when `p` has none. */
  lemma {:induction false} FirstSentenceEndAppend(p: string, x: string)
    requires forall i :: 0 <= i < |p| ==> !IsSentenceEnd(p[i])
    requires x != [] && IsSentenceEnd(x[0])
    ensures FirstSentenceEnd(p + x) == |p|
    decreases |p|
  {
    if p == [] {
      assert p + x == x;
    } else {
      assert (p + x)[0] == p[0];
      assert (p + x)[1..] == p[1..] + x;
      FirstSentenceEndAppend(p[1..], x);
    }
  }

  /** A run of separators ends where a non-separator starts. */
  lemma {:induction false} SeparatorRunAppend(run: string, t: string)
    requires forall i :: 0 <= i < |run| ==> IsSentenceEnd(run[i])
    requires t == [] || !IsSentenceEnd(t[0])
    ensures SeparatorRun(run + t) == |run|
    decreases |run|
  {
    if run == [] {
      assert run + t == t;
    } else {
      assert (run + t)[0] == run[0];
      assert (run + t)[1..] == run[1..] + t;
      SeparatorRunAppend(run[1..], t);
    }
  }

  /** A maximal run of separators after a separator-free piece ends that
      piece: with `SplitSentencesNone` this determines `SplitSentences`. */
  lemma SplitSentencesStep(p: string, run: string, t: string)
    requires forall i :: 0 <= i < |p| ==> !IsSentenceEnd(p[i])
    requires run != [] && forall i :: 0 <= i < |run| ==> IsSentenceEnd(run[i])
    requires t == [] || !IsSentenceEnd(t[0])
    ensures SplitSentences(p + run + t) == [p] + SplitSentences(t)
  {
    var s := p + (run + t);
    assert p + run + t == s;
    FirstSentenceEndAppend(p, run + t);
    SeparatorRunAppend(run, t);
    assert s[|p|..] == run + t;
    assert s[..|p|] == p;
    assert s[|p| + |run|..] == t;
  }

  /** ASCII part of `str.lower()`. */
  function LowerChar(c: char): char {
    if 'A' <= c <= 'Z' then (c as int + 32) as char else c
  }

  /** `s.lower()`, mapping ASCII capitals only; it keeps the length and
      every position. */
  function Lower(s: string): (r: string)
    ensures |r| == |s|
    ensures forall i :: 0 <= i < |s| ==> r[i] == LowerChar(s[i])
  {
    seq(|s|, i requires 0 <= i < |s| => LowerChar(s[i]))
  }

  /** Lower-casing works position by position, so it commutes with
      concatenation. */
  lemma LowerAppend(x: string, y: string)
    ensures Lower(x + y) == Lower(x) + Lower(y)
  {
  }

  /** Lower-casing twice is lower-casing once. */
  lemma LowerIdempotent(s: string)
    ensures Lower(Lower(s)) == Lower(s)
  {
  }

  /** `s.isupper()` on ASCII: some upper-case letter and no lower-case one. */
  predicate IsUpperText(s: string) {
    (exists i :: 0 <= i < |s| && 'A' <= s[i] <= 'Z') && (forall i :: 0 <= i < |s| ==> !('a' <= s[i] <= 'z'))
  }

  /** `re.sub(r"\s+", "", s)`: every whitespace character removed. */
  function RemoveSpaces(s: string): (r: string)
    ensures |r| <= |s|
    ensures forall i :: 0 <= i < |r| ==> !IsSpace(r[i])
  {
    if s == [] then []
    else if IsSpace(s[0]) then RemoveSpaces(s[1..])
    else [s[0]] + RemoveSpaces(s[1..])
  }

  /** A text without whitespace is its own `re.sub(r"\s+", "", s)`. */
  lemma {:induction false} RemoveSpacesNoSpace(s: string)
    requires forall i :: 0 <= i < |s| ==> !IsSpace(s[i])
    ensures RemoveSpaces(s) == s
  {
    if s != [] {
      assert forall i :: 0 <= i < |s[1..]| ==> s[1..][i] == s[i + 1];
      RemoveSpacesNoSpace(s[1..]);
      assert s == [s[0]] + s[1..];
    }
  }

  /** Removing whitespace commutes with concatenation. */
  lemma {:induction false} RemoveSpacesAppend(a: string, b: string)
    ensures RemoveSpaces(a + b) == RemoveSpaces(a) + RemoveSpaces(b)
    decreases |a|
  {
    if a == [] {
      assert a + b == b;
    } else {
      assert (a + b)[1..] == a[1..] + b;
      RemoveSpacesAppend(a[1..], b);
    }
  }

  /** One character is dropped when it is whitespace and kept otherwise:
      with `RemoveSpacesAppend` this determines `RemoveSpaces`. */
  lemma RemoveSpacesChar(c: char)
    ensures RemoveSpaces([c]) == if IsSpace(c) then [] else [c]
  {
  }

  /** Exactly the whitespace characters go. */
  lemma {:induction false} RemoveSpacesLength(s: string)
    ensures |RemoveSpaces(s)| == |s| - Count(s, IsSpace)
    decreases |s|
  {
    if s != [] {
      var n := |s| - 1;
      assert s == s[..n] + [s[n]];
      RemoveSpacesAppend(s[..n], [s[n]]);
      RemoveSpacesLength(s[..n]);
    }
  }

  /** Python slicing `s[a:b]` for 0 <= a <= b, clamped to the string. */
  function Slice<T>(s: seq<T>, a: nat, b: nat): (r: seq<T>)
    requires a <= b
    ensures |r| <= b - a
    ensures a <= |s| ==> r == s[a..if b <= |s| then b else |s|]
    ensures a >= |s| ==> r == []
  {
    if a >= |s| then [] else s[a..if b <= |s| then b else |s|]
  }

  /** Python `s[:n]` */
  function Prefix<T>(s: seq<T>, n: nat): (r: seq<T>)
    ensures |r| == if n <= |s| then n else |s|
    ensures r == s[..|r|]
  {
    if n <= |s| then s[..n] else s
  }

  /** Python `s[-n:]` for n > 0: the last `n` elements, or all of them. */
  function Suffix<T>(s: seq<T>, n: nat): (r: seq<T>)
    requires n > 0
    ensures |r| == if n <= |s| then n else |s|
    ensures r == s[|s| - |r|..]
  {
    if n <= |s| then s[|s| - n..] else s
  }

  /** Number of elements of `s` that satisfy `p` (a generator `sum(1 for ...)`). */
  function Count<T>(s: seq<T>, p: T -> bool): (n: nat)
    ensures n <= |s|
  {
    if s == [] then 0 else Count(s[..|s| - 1], p) + (if p(s[|s| - 1]) then 1 else 0)
  }

  /** `[x for x in s if p(x)]` */
  function Filter<T>(s: seq<T>, p: T -> bool): (r: seq<T>)
    ensures |r| == Count(s, p)
    ensures forall i :: 0 <= i < |r| ==> r[i] in s && p(r[i])
    ensures forall i :: 0 <= i < |s| && p(s[i]) ==> s[i] in r
  {
    if s == [] then []
    else Filter(s[..|s| - 1], p) + (if p(s[|s| - 1]) then [s[|s| - 1]] else [])
  }

  /** `s` has no element twice. */
  predicate Distinct<T(==)>(s: seq<T>) {
    forall i, j :: 0 <= i < j < |s| ==> s[i] != s[j]
  }

  /** Order-preserving removal of repeats: first occurrences in order, the
      key order of a Python dict literal with repeated keys. */
  function Dedup<T(==)>(s: seq<T>): (r: seq<T>)
    ensures Distinct(r)
    ensures forall i :: 0 <= i < |s| ==> s[i] in r
    ensures forall i :: 0 <= i < |r| ==> r[i] in s
    ensures |r| <= |s|
  {
    if s == [] then []
    else
      var d := Dedup(s[..|s| - 1]);
      if s[|s| - 1] in d then d else d + [s[|s| - 1]]
  }

  /** The elements whose flag is set, in order. */
  function Select<T>(s: seq<T>, keep: seq<bool>): (r: seq<T>)
    requires |keep| == |s|
    ensures |r| <= |s|
  {
    if s == [] then []
    else
      var n := |s| - 1;
      Select(s[..n], keep[..n]) + (if keep[n] then [s[n]] else [])
  }

  /** Every flagged element is selected. */
  lemma {:induction false} SelectComplete<T>(s: seq<T>, keep: seq<bool>, k: nat)
    requires |keep| == |s| && k < |s| && keep[k]
    ensures s[k] in Select(s, keep)
  {
    var n := |s| - 1;
    var tail := if keep[n] then [s[n]] else [];
    assert Select(s, keep) == Select(s[..n], keep[..n]) + tail;
    if k < n {
      assert s[..n][k] == s[k] && keep[..n][k] == keep[k];
      SelectComplete(s[..n], keep[..n], k);
    } else {
      assert tail == [s[k]];
    }
  }

  /** Every selected element is a flagged one. */
  lemma {:induction false} SelectSound<T>(s: seq<T>, keep: seq<bool>, x: T)
    requires |keep| == |s| && x in Select(s, keep)
    ensures exists j :: 0 <= j < |s| && s[j] == x && keep[j]
  {
    var n := |s| - 1;
    var tail := if keep[n] then [s[n]] else [];
    assert Select(s, keep) == Select(s[..n], keep[..n]) + tail;
    if x in Select(s[..n], keep[..n]) {
      SelectSound(s[..n], keep[..n], x);
      var j :| 0 <= j < n && s[..n][j] == x && keep[..n][j];
      assert s[j] == x && keep[j];
    } else {
      assert x in tail;
      assert s[n] == x && keep[n];
    }
  }

  /** A list without repeats keeps all of its elements, in place. */
  lemma {:induction false} DedupDistinct<T>(s: seq<T>)
    requires Distinct(s)
    ensures Dedup(s) == s
  {
    if s != [] {
      var n := |s| - 1;
      assert Distinct(s[..n]);
      DedupDistinct(s[..n]);
      assert s[n] !in s[..n];
      assert s == s[..n] + [s[n]];
    }
  }

  /** A repeat of an element already listed changes nothing. */
  lemma DedupRepeat<T>(s: seq<T>, x: T)
    requires x in s
    ensures Dedup(s + [x]) == Dedup(s)
  {
    assert (s + [x])[..|s|] == s;
  }
}
