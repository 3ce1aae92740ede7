/** `check_consistency`: verb tense, first-person pronouns and mixed
    abbreviations, 7 points in all (70 tenths). */
module Consistency {
  import opened Text
  import opened Scoring

  // ---------------------------------------------------------------------
  // Word runs and the three regex counts

  /** Length of the leading run of word characters. */
  function RunLength(s: string): (n: nat)
    ensures n <= |s|
    ensures forall i :: 0 <= i < n ==> IsWordChar(s[i])
    ensures n < |s| ==> !IsWordChar(s[n])
  {
    if s == [] || !IsWordChar(s[0]) then 0 else RunLength(s[1..]) + 1
  }

  /** `s` holds no word character. */
  predicate NoWordChar(s: string) {
    forall i :: 0 <= i < |s| ==> !IsWordChar(s[i])
  }

  /** `s` without its leading non-word characters. */
  function SkipNonWord(s: string): (r: string)
    ensures |r| <= |s|
    ensures r == [] || IsWordChar(r[0])
  {
    if s != [] && !IsWordChar(s[0]) then SkipNonWord(s[1..]) else s
  }

  /** A non-empty run of word characters. */
  predicate IsWordRun(w: string) {
    w != [] && forall i :: 0 <= i < |w| ==> IsWordChar(w[i])
  }

  /** The maximal runs of word characters, in order: what a pattern
      `\b...\b` built of word characters can match as a whole. */
  function WordRuns(s: string): (r: seq<string>)
    ensures forall k :: 0 <= k < |r| ==> IsWordRun(r[k])
    decreases |s|
  {
    var t := SkipNonWord(s);
    if t == [] then []
    else
      var n := RunLength(t);
      assert IsWordRun(t[..n]);
      var rest := WordRuns(t[n..]);
      ConsRun(t[..n], rest);
      [t[..n]] + rest
  }

  /** A run in front of a list of runs gives a list of runs. */
  lemma ConsRun(w: string, rest: seq<string>)
    requires IsWordRun(w) && forall k :: 0 <= k < |rest| ==> IsWordRun(rest[k])
    ensures forall k :: 0 <= k < |[w] + rest| ==> IsWordRun(([w] + rest)[k])
  {
  }

  /** Leading non-word characters do not change the runs. */
  lemma {:induction false} WordRunsAfterNonWord(sp: string, s: string)
    requires NoWordChar(sp)
    ensures WordRuns(sp + s) == WordRuns(s)
    decreases |sp|
  {
    if sp == [] {
      assert sp + s == s;
    } else {
      assert (sp + s)[1..] == sp[1..] + s;
      assert SkipNonWord(sp + s) == SkipNonWord(sp[1..] + s);
      WordRunsAfterNonWord(sp[1..], s);
    }
  }

  /** A text starting with a word character starts with its leading run. */
  lemma WordRunsUnfold(u: string)
    requires u != [] && IsWordChar(u[0])
    ensures WordRuns(u) == [u[..RunLength(u)]] + WordRuns(u[RunLength(u)..])
  {
    assert SkipNonWord(u) == u;
  }

  /** A single run is its own split. */
  lemma WordRunsOfRun(w: string)
    requires IsWordRun(w)
    ensures WordRuns(w) == [w]
  {
    WordRunsUnfold(w);
    var n := RunLength(w);
    assert w[..n] == w && w[n..] == [];
    assert SkipNonWord([]) == [];
  }

  /** The leading run of `t` is not lengthened by what follows a non-word
      character. */
  lemma {:induction false} RunLengthAppend(t: string, x: string)
    requires RunLength(t) < |t| || (x != [] && !IsWordChar(x[0]))
    ensures RunLength(t + x) == RunLength(t)
    decreases |t|
  {
    if t == [] {
      assert t + x == x;
    } else {
      assert (t + x)[0] == t[0];
      if IsWordChar(t[0]) {
        assert (t + x)[1..] == t[1..] + x;
        RunLengthAppend(t[1..], x);
      }
    }
  }

  /** A non-word character splits the runs of a text in two: with
      `WordRunsOfRun` this determines `WordRuns`. */
  lemma {:induction false} WordRunsSplitAt(a: string, x: string)
    requires x != [] && !IsWordChar(x[0])
    ensures WordRuns(a + x) == WordRuns(a) + WordRuns(x[1..])
    decreases |a|, 1
  {
    if a == [] {
      assert a + x == [x[0]] + x[1..];
      WordRunsAfterNonWord([x[0]], x[1..]);
      assert WordRuns(a) == [] by { assert SkipNonWord(a) == []; }
      assert WordRuns(a + x) == WordRuns(a) + WordRuns(x[1..]);
    } else if !IsWordChar(a[0]) {
      var y := a[1..] + x;
      assert a + x == [a[0]] + y;
      assert a == [a[0]] + a[1..];
      WordRunsAfterNonWord([a[0]], y);
      WordRunsAfterNonWord([a[0]], a[1..]);
      WordRunsSplitAt(a[1..], x);
    } else {
      WordRunsSplitRun(a, x);
    }
  }

  /** `WordRunsSplitAt` for a text starting with a run. */
  lemma {:induction false} WordRunsSplitRun(a: string, x: string)
    requires x != [] && !IsWordChar(x[0])
    requires a != [] && IsWordChar(a[0])
    ensures WordRuns(a + x) == WordRuns(a) + WordRuns(x[1..])
    decreases |a|, 0
  {
    var u := a + x;
    var n := RunLength(a);
    RunLengthAppend(a, x);
    WordRunsUnfold(a);
    WordRunsUnfold(u);
    var w, rest := a[..n], a[n..];
    assert u[..n] == w;
    assert u[n..] == rest + x;
    WordRunsSplitAt(rest, x);
    AppendAssoc([w], WordRuns(rest), WordRuns(x[1..]));
  }

  /** `\b\w+ed\b`: a run of at least three word characters ending in "ed". */
  predicate IsPastForm(w: string) {
    |w| >= 3 && w[|w| - 2..] == "ed"
  }

  /** The present-tense verbs, matched whole and ignoring case. */
  const PresentVerbs: seq<string> := ["manage", "develop", "lead", "create", "design", "implement", "build",
    "maintain", "coordinate", "optimize", "analyze", "deliver", "support", "organize"]

  /** The first-person pronouns, matched whole and with case. */
  const FirstPersonWords: seq<string> := ["I", "my", "me", "myself"]

  /** `len(re.findall(r"\b\w+ed\b", text))` */
  function PastTenseCount(text: string): nat {
    Count(WordRuns(text), IsPastForm)
  }

  /** `len(re.findall(<present verbs>, text, re.IGNORECASE))` */
  function PresentTenseCount(text: string, verbs: seq<string>): nat {
    Count(WordRuns(text), (w: string) => Lower(w) in verbs)
  }

  /** `len(re.findall(<first-person pronouns>, text))` */
  function FirstPersonCount(text: string, pronouns: seq<string>): nat {
    Count(WordRuns(text), (w: string) => w in pronouns)
  }

  // ---------------------------------------------------------------------
  // Abbreviation pairs

  /** A full term and its abbreviation. */
  datatype Pair = Pair(full: string, short: string)

  const AbbreviationPairs: seq<Pair> := [Pair("JavaScript", "JS"), Pair("TypeScript", "TS"),
    Pair("Structured Query Language", "SQL"), Pair("Application", "App"), Pair("Development", "Dev"),
    Pair("Management", "Mgmt")]

  /** Both lower-cased forms occur in the lower-cased text. */
  predicate IsMixed(p: Pair, textLower: string) {
    Contains(textLower, Lower(p.full)) && Contains(textLower, Lower(p.short))
  }

  /** "full/short" */
  function Label(p: Pair): string {
    p.full + "/" + p.short
  }

  /** The labels of the mixed pairs, in table order. */
  function MixedPairs(pairs: seq<Pair>, textLower: string): (r: seq<string>)
    ensures |r| <= |pairs|
  {
    if pairs == [] then []
    else
      var p := pairs[|pairs| - 1];
      MixedPairs(pairs[..|pairs| - 1], textLower) + (if IsMixed(p, textLower) then [Label(p)] else [])
  }

  /** Every mixed pair is reported. */
  lemma {:induction false} MixedPairsComplete(pairs: seq<Pair>, textLower: string, k: nat)
    requires k < |pairs| && IsMixed(pairs[k], textLower)
    ensures Label(pairs[k]) in MixedPairs(pairs, textLower)
  {
    var n := |pairs| - 1;
    var tail := if IsMixed(pairs[n], textLower) then [Label(pairs[n])] else [];
    assert MixedPairs(pairs, textLower) == MixedPairs(pairs[..n], textLower) + tail;
    if k < n {
      assert pairs[..n][k] == pairs[k];
      MixedPairsComplete(pairs[..n], textLower, k);
    } else {
      assert tail == [Label(pairs[k])];
    }
  }

  /** Every reported label is that of a mixed pair. */
  lemma {:induction false} MixedPairsSound(pairs: seq<Pair>, textLower: string, x: string)
    requires x in MixedPairs(pairs, textLower)
    ensures exists k :: 0 <= k < |pairs| && x == Label(pairs[k]) && IsMixed(pairs[k], textLower)
  {
    var n := |pairs| - 1;
    var tail := if IsMixed(pairs[n], textLower) then [Label(pairs[n])] else [];
    assert MixedPairs(pairs, textLower) == MixedPairs(pairs[..n], textLower) + tail;
    if x in MixedPairs(pairs[..n], textLower) {
      MixedPairsSound(pairs[..n], textLower, x);
      var k :| 0 <= k < n && x == Label(pairs[..n][k]) && IsMixed(pairs[..n][k], textLower);
      assert pairs[..n][k] == pairs[k];
    } else {
      assert x in tail;
    }
  }

  /** Nothing is reported exactly when no pair is mixed. */
  lemma NoMixedPairs(pairs: seq<Pair>, textLower: string)
    ensures MixedPairs(pairs, textLower) == [] <==> forall k :: 0 <= k < |pairs| ==> !IsMixed(pairs[k], textLower)
  {
    var r := MixedPairs(pairs, textLower);
    if r != [] {
      assert r[0] in r;
      MixedPairsSound(pairs, textLower, r[0]);
    }
    if exists k :: 0 <= k < |pairs| && IsMixed(pairs[k], textLower) {
      var k :| 0 <= k < |pairs| && IsMixed(pairs[k], textLower);
      MixedPairsComplete(pairs, textLower, k);
    }
  }

  /** When the abbreviation is a prefix of the full term, any text with the
      full term counts as mixing both forms. */
  lemma PrefixPairAlwaysMixed(p: Pair, textLower: string)
    requires StartsWith(Lower(p.full), Lower(p.short))
    requires Contains(textLower, Lower(p.full))
    ensures IsMixed(p, textLower)
  {
    ContainsPrefixOf(textLower, Lower(p.full), Lower(p.short));
  }

  /** "App" and "Dev" are prefixes of "Application" and "Development", so
      those two pairs are flagged whenever the full word occurs. */
  lemma ApplicationAndDevelopmentAlwaysMixed(pairs: seq<Pair>, textLower: string)
    requires pairs == AbbreviationPairs
    ensures Contains(textLower, "application") ==> IsMixed(pairs[3], textLower)
    ensures Contains(textLower, "development") ==> IsMixed(pairs[4], textLower)
  {
    assert Lower("Application") == "application" && Lower("App") == "app";
    assert Lower("Development") == "development" && Lower("Dev") == "dev";
    if Contains(textLower, "application") {
      PrefixPairAlwaysMixed(pairs[3], textLower);
    }
    if Contains(textLower, "development") {
      PrefixPairAlwaysMixed(pairs[4], textLower);
    }
  }

  /** The loop over the pairs, appending the label of every mixed pair. */
  method MixedAbbreviations(pairs: seq<Pair>, textLower: string) returns (mixed: seq<string>)
    ensures mixed == MixedPairs(pairs, textLower)
  {
    mixed := [];
    var i := 0;
    while i < |pairs|
      invariant 0 <= i <= |pairs|
      invariant mixed == MixedPairs(pairs[..i], textLower)
    {
      assert pairs[..i + 1][..i] == pairs[..i];
      var p := pairs[i];
      if Contains(textLower, Lower(p.full)) && Contains(textLower, Lower(p.short)) {
        mixed := mixed + [p.full + "/" + p.short];
      }
      i := i + 1;
    }
    assert pairs[..i] == pairs;
  }

  // ---------------------------------------------------------------------
  // The three awards

  /** Both tenses with a min/max ratio above 0.6 earn 1 point with a
      warning, a clear majority 2.5; past tense alone 2.5, present alone 2,
      neither 1 with an information finding. */
  function TenseGrade(past: nat, present: nat): Grade {
    if past > 0 && present > 0 then
      (if 5 * Min(past, present) > 3 * Max(past, present) then Grade(10, Warning) else Grade(25, Pass))
    else if past > 0 then Grade(25, Pass)
    else if present > 0 then Grade(20, Pass)
    else Grade(10, Info)
  }

  function Min(a: nat, b: nat): nat {
    if a <= b then a else b
  }

  function Max(a: nat, b: nat): nat {
    if a <= b then b else a
  }

  /** The integer comparison is the source's `min / max > 0.6`. */
  lemma TenseRatioThreshold(past: nat, present: nat)
    requires past > 0 && present > 0
    ensures Min(past, present) as real / Max(past, present) as real > 0.6
      <==> 5 * Min(past, present) > 3 * Max(past, present)
  {
    QuotientAbove(Min(past, present) as real, Max(past, present) as real, 0.6);
  }

  /** With both tenses present the award does not depend on which is the
      majority, and equal counts are always mixed. */
  lemma TenseGradeSymmetric(a: nat, b: nat)
    requires a > 0 && b > 0
    ensures TenseGrade(a, b) == TenseGrade(b, a)
    ensures a == b ==> TenseGrade(a, b) == Grade(10, Warning)
  {
  }

  /** The majority tense named by the consistent-tense finding. */
  function Dominant(past: nat, present: nat): string {
    if past > present then "past" else "present"
  }

  /** No pronoun earns 2.5 points, one to three 1.5 with a warning, more fail. */
  function FirstPersonGrade(n: nat): Grade {
    if n == 0 then Grade(25, Pass)
    else if n <= 3 then Grade(15, Warning)
    else Grade(0, Fail)
  }

  /** More pronouns never raise the award. */
  lemma FirstPersonGradeAntitone(m: nat, n: nat)
    requires m <= n
    ensures FirstPersonGrade(n).points <= FirstPersonGrade(m).points
  {
  }

  /** No mixed pair earns 2 points, any 1 with a warning. */
  function AbbreviationGrade(mixed: bool): Grade {
    if mixed then Grade(10, Warning) else Grade(20, Pass)
  }

  /** The sum of the three awards. */
  function ConsistencyPoints(past: nat, present: nat, firstPerson: nat, mixed: bool): int {
    TenseGrade(past, present).points + FirstPersonGrade(firstPerson).points + AbbreviationGrade(mixed).points
  }

  /** The awards add up to between 2 and 7 points, and reach 7 exactly for
      a consistent tense with some past verbs, no pronoun and no mixed pair. */
  lemma ConsistencyPointsBounds(past: nat, present: nat, firstPerson: nat, mixed: bool)
    ensures 20 <= ConsistencyPoints(past, present, firstPerson, mixed) <= 70
    ensures ConsistencyPoints(past, present, firstPerson, mixed) == 70
      <==> TenseGrade(past, present).points == 25 && firstPerson == 0 && !mixed
    ensures TenseGrade(past, present).points == 25 <==> past > 0 && (present == 0 || 5 * Min(past, present) <= 3 * Max(past, present))
  {
  }

  // ---------------------------------------------------------------------
  // The sub-checks

  /** The tense sub-check; the mixed warning reports both counts and the
      consistent pass names the majority tense. */
  method CheckTense(past: nat, present: nat) returns (f: Finding, points: int)
    ensures points == TenseGrade(past, present).points
    ensures f.kind == TenseGrade(past, present).kind
    ensures TenseGrade(past, present) == Grade(10, Warning) ==> f.counts == [past, present]
    ensures past > 0 && present > 0 && f.kind == Pass ==> f.items == [Dominant(past, present)]
  {
    if past > 0 && present > 0 {
      var lo := if past <= present then past else present;
      var hi := if past <= present then present else past;
      if 5 * lo > 3 * hi {
        points := 10;
        f := Finding(Warning, "tense-mixed", [past, present], []);
      } else {
        points := 25;
        var dominant := if past > present then "past" else "present";
        f := Finding(Pass, "tense-consistent", [], [dominant]);
      }
    } else if past > 0 {
      points := 25;
      f := Note(Pass, "tense-past");
    } else if present > 0 {
      points := 20;
      f := Note(Pass, "tense-present");
    } else {
      points := 10;
      f := Note(Info, "tense-unknown");
    }
  }

  /** The pronoun sub-check; the warning and the failure report the count. */
  method CheckFirstPerson(n: nat) returns (f: Finding, points: int)
    ensures points == FirstPersonGrade(n).points
    ensures f.kind == FirstPersonGrade(n).kind
    ensures n > 0 ==> f.counts == [n]
  {
    if n == 0 {
      points := 25;
      f := Note(Pass, "first-person-none");
    } else if n <= 3 {
      points := 15;
      f := Finding(Warning, "first-person-some", [n], []);
    } else {
      points := 0;
      f := Finding(Fail, "first-person-many", [n], []);
    }
  }

  /** The abbreviation sub-check; the warning lists the mixed pairs. */
  method CheckAbbreviations(mixed: seq<string>) returns (f: Finding, points: int)
    ensures points == AbbreviationGrade(mixed != []).points
    ensures f.kind == AbbreviationGrade(mixed != []).kind
    ensures mixed != [] ==> f.items == mixed
  {
    if mixed == [] {
      points := 20;
      f := Note(Pass, "terminology-consistent");
    } else {
      points := 10;
      f := Finding(Warning, "abbreviations-mixed", [], mixed);
    }
  }

  // ---------------------------------------------------------------------
  // The checker

  /** The scoring once the counts and the mixed pairs are known.  There
      are always three findings, one per sub-check. */
  method ScoreConsistency(past: nat, present: nat, firstPerson: nat, mixed: seq<string>) returns (r: CheckResult)
    ensures r.maxScore == 70
    ensures r.score == ConsistencyPoints(past, present, firstPerson, mixed != [])
    ensures 20 <= r.score <= 70
    ensures |r.findings| == 3
    ensures r.findings[0].kind == TenseGrade(past, present).kind
    ensures r.findings[1].kind == FirstPersonGrade(firstPerson).kind
    ensures r.findings[2].kind == AbbreviationGrade(mixed != []).kind
    ensures mixed != [] ==> r.findings[2].items == mixed
  {
    var maxScore := 70;
    var tenseFinding, tensePoints := CheckTense(past, present);
    var personFinding, personPoints := CheckFirstPerson(firstPerson);
    var abbreviationFinding, abbreviationPoints := CheckAbbreviations(mixed);

    var score := tensePoints + personPoints + abbreviationPoints;
    var findings := [tenseFinding, personFinding, abbreviationFinding];
    ConsistencyPointsBounds(past, present, firstPerson, mixed != []);

    r := CheckResult(Clamp(score, maxScore), maxScore, findings);
  }

  /** `check_consistency`: the three counts over the word runs of the text,
      the pair loop over the lower-cased text, then the scoring. */
  method CheckConsistency(text: string) returns (r: CheckResult)
    ensures r.maxScore == 70
    ensures r.score == ConsistencyPoints(PastTenseCount(text), PresentTenseCount(text, PresentVerbs),
      FirstPersonCount(text, FirstPersonWords), MixedPairs(AbbreviationPairs, Lower(text)) != [])
    ensures 20 <= r.score <= 70
    ensures |r.findings| == 3
    ensures r.findings[0].kind == TenseGrade(PastTenseCount(text), PresentTenseCount(text, PresentVerbs)).kind
    ensures r.findings[1].kind == FirstPersonGrade(FirstPersonCount(text, FirstPersonWords)).kind
    ensures r.findings[2].kind == AbbreviationGrade(MixedPairs(AbbreviationPairs, Lower(text)) != []).kind
    ensures MixedPairs(AbbreviationPairs, Lower(text)) != [] ==>
      r.findings[2].items == MixedPairs(AbbreviationPairs, Lower(text))
  {
    var past := PastTenseCount(text);
    var present := PresentTenseCount(text, PresentVerbs);
    var firstPerson := FirstPersonCount(text, FirstPersonWords);
    var mixed := MixedAbbreviations(AbbreviationPairs, Lower(text));
    r := ScoreConsistency(past, present, firstPerson, mixed);
  }
}
