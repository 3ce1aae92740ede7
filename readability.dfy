/** `check_readability`: sentence length, long sentences, complex words
    and dense paragraphs, 8 points in all (80 tenths). */
module Readability {
  import opened Text
  import opened Scoring

  // ---------------------------------------------------------------------
  // Sentences, words and paragraphs

  /** `len(s.split())` */
  function WordCount(s: string): nat {
    |Words(s)|
  }

  /** `[s.strip() for s in pieces if len(s.strip().split()) > 2]`: the
      stripped pieces of more than two words, in order. */
  function Sentences(pieces: seq<string>): (r: seq<string>)
    ensures |r| <= |pieces|
    ensures forall i :: 0 <= i < |r| ==> WordCount(r[i]) > 2
  {
    var ss := StripAll(pieces);
    LongOnesLong(ss);
    Select(ss, LongMask(ss))
  }

  /** Every piece stripped, in place. */
  function StripAll(pieces: seq<string>): (r: seq<string>)
    ensures |r| == |pieces|
  {
    seq(|pieces|, i requires 0 <= i < |pieces| => Strip(pieces[i]))
  }

  /** Which strings have more than two words. */
  function LongMask(ss: seq<string>): (r: seq<bool>)
    ensures |r| == |ss|
  {
    seq(|ss|, i requires 0 <= i < |ss| => WordCount(ss[i]) > 2)
  }

  lemma LongOnesLong(ss: seq<string>)
    ensures forall i :: 0 <= i < |Select(ss, LongMask(ss))| ==> WordCount(Select(ss, LongMask(ss))[i]) > 2
  {
    var r := Select(ss, LongMask(ss));
    forall i | 0 <= i < |r| ensures WordCount(r[i]) > 2 {
      SelectSound(ss, LongMask(ss), r[i]);
    }
  }

  /** Every piece of more than two words is kept, stripped. */
  lemma SentencesComplete(pieces: seq<string>, k: nat)
    requires k < |pieces| && WordCount(Strip(pieces[k])) > 2
    ensures Strip(pieces[k]) in Sentences(pieces)
  {
    var ss := StripAll(pieces);
    assert ss[k] == Strip(pieces[k]);
    assert LongMask(ss)[k];
    SelectComplete(ss, LongMask(ss), k);
  }

  /** Every sentence is a stripped piece. */
  lemma SentencesSound(pieces: seq<string>, s: string)
    requires s in Sentences(pieces)
    ensures exists k :: 0 <= k < |pieces| && s == Strip(pieces[k])
  {
    var ss := StripAll(pieces);
    SelectSound(ss, LongMask(ss), s);
    var k :| 0 <= k < |ss| && ss[k] == s && LongMask(ss)[k];
    assert s == Strip(pieces[k]);
  }

  /** The sentences of a text: the pieces between runs of `.`, `!` and `?`
      that have more than two words, stripped. */
  function TextSentences(text: string): seq<string> {
    Sentences(SplitSentences(text))
  }

  /** `[len(s.split()) for s in sentences]` */
  function WordCounts(sentences: seq<string>): (r: seq<nat>)
    ensures |r| == |sentences|
    ensures forall i :: 0 <= i < |r| ==> r[i] == WordCount(sentences[i])
  {
    if sentences == [] then []
    else WordCounts(sentences[..|sentences| - 1]) + [WordCount(sentences[|sentences| - 1])]
  }

  /** `sum(values)` */
  function Sum(values: seq<nat>): nat {
    if values == [] then 0 else Sum(values[..|values| - 1]) + values[|values| - 1]
  }

  /** Every value is at least `lo`, so the sum is at least `lo` times the count. */
  lemma {:induction false} SumAtLeast(values: seq<nat>, lo: nat)
    requires forall i :: 0 <= i < |values| ==> values[i] >= lo
    ensures Sum(values) >= lo * |values|
  {
    if values != [] {
      var n := |values| - 1;
      assert forall i :: 0 <= i < n ==> values[..n][i] == values[i];
      SumAtLeast(values[..n], lo);
    }
  }

  /** Every sentence has at least three words, so the average sentence
      length is at least 3. */
  lemma AverageAtLeastThree(sentences: seq<string>)
    requires forall i :: 0 <= i < |sentences| ==> WordCount(sentences[i]) > 2
    ensures Sum(WordCounts(sentences)) >= 3 * |sentences|
  {
    var counts := WordCounts(sentences);
    assert forall i :: 0 <= i < |counts| ==> counts[i] >= 3;
    SumAtLeast(counts, 3);
  }

  predicate IsLongSentence(words: nat) {
    words > 25
  }

  predicate IsComplexWord(w: string) {
    |w| > 12
  }

  predicate IsDenseParagraph(p: string) {
    |Words(p)| > 60
  }

  /** `text.split("\n\n")` */
  function Paragraphs(text: string): (r: seq<string>)
    ensures |r| >= 1
  {
    SplitOn(text, "\n\n")
  }

  /** Joining the paragraphs with blank lines gives the text back. */
  lemma ParagraphsJoin(text: string)
    ensures JoinOn(Paragraphs(text), "\n\n") == text
  {
    SplitJoinOn(text, "\n\n");
  }

  /** The first paragraph ends at the leftmost blank line. */
  lemma ParagraphsStep(p: string, t: string)
    requires forall j :: 0 <= j < |p| ==> !OccursAt(p + "\n\n", "\n\n", j)
    ensures Paragraphs(p + "\n\n" + t) == [p] + Paragraphs(t)
  {
    SplitOnStep(p, "\n\n", t);
  }

  // ---------------------------------------------------------------------
  // The four awards

  /** The average `sum / n` of `n` sentences: 10 to 20 words earns 3
      points, shorter 2, longer 1 with a warning. */
  function AverageGrade(sum: nat, n: nat): Grade
    requires n >= 1
  {
    if 10 * n <= sum <= 20 * n then Grade(30, Pass)
    else if sum < 10 * n then Grade(20, Pass)
    else Grade(10, Warning)
  }

  /** A quotient falls below `c` exactly when the dividend falls below `c`
      times the (positive) divisor. */
  lemma QuotientBelow(x: real, d: real, c: real)
    requires d > 0.0
    ensures x / d < c <==> x < c * d
  {
    var q := x / d;
    assert q * d == x;
    if q < c {
      assert (c - q) * d > 0.0;
    } else {
      assert (q - c) * d >= 0.0;
    }
  }

  /** The integer comparisons are the source's tests on the average. */
  lemma AverageThresholds(sum: nat, n: nat)
    requires n >= 1
    ensures var avg := sum as real / n as real;
      (10.0 <= avg <= 20.0 <==> 10 * n <= sum <= 20 * n) && (avg < 10.0 <==> sum < 10 * n)
  {
    QuotientBelow(sum as real, n as real, 10.0);
    QuotientAbove(sum as real, n as real, 20.0);
  }

  /** The average award is highest exactly in the 10-20 band, and longer
      sentences than that earn least. */
  lemma AverageGradeBands(sum: nat, n: nat)
    requires n >= 1
    ensures AverageGrade(sum, n).points == 30 <==> 10 * n <= sum <= 20 * n
    ensures AverageGrade(sum, n).kind == Warning <==> sum > 20 * n
    ensures 10 <= AverageGrade(sum, n).points <= 30
  {
  }

  /** No long sentence earns 2 points, one to three earn 1 with a warning,
      more fail. */
  function LongSentenceGrade(long: nat): Grade {
    if long == 0 then Grade(20, Pass)
    else if long <= 3 then Grade(10, Warning)
    else Grade(0, Fail)
  }

  /** The complex-word ratio `c / max(w, 1)`: below 0.05 earns 1.5 points,
      below 0.1 earns 1, otherwise 0.5 with a warning. */
  function VocabularyGrade(complex: nat, words: nat): Grade {
    var d := AtLeastOne(words);
    if 20 * complex < d then Grade(15, Pass)
    else if 10 * complex < d then Grade(10, Pass)
    else Grade(5, Warning)
  }

  /** The integer comparisons are the source's ratio tests. */
  lemma VocabularyRatioThresholds(complex: nat, words: nat)
    ensures var d := AtLeastOne(words); var ratio := complex as real / d as real;
      (ratio < 0.05 <==> 20 * complex < d) && (ratio < 0.1 <==> 10 * complex < d)
  {
    var d := AtLeastOne(words);
    QuotientBelow(complex as real, d as real, 0.05);
    QuotientBelow(complex as real, d as real, 0.1);
  }

  /** More complex words among the same words never raise the award. */
  lemma VocabularyGradeAntitone(c1: nat, c2: nat, words: nat)
    requires c1 <= c2
    ensures VocabularyGrade(c2, words).points <= VocabularyGrade(c1, words).points
  {
  }

  /** No dense paragraph earns 1.5 points, any 0.5 with a warning. */
  function ParagraphGrade(dense: nat): Grade {
    if dense == 0 then Grade(15, Pass) else Grade(5, Warning)
  }

  /** The sum of the four awards. */
  function ReadabilityPoints(sum: nat, n: nat, long: nat, complex: nat, words: nat, dense: nat): int
    requires n >= 1
  {
    AverageGrade(sum, n).points + LongSentenceGrade(long).points + VocabularyGrade(complex, words).points
    + ParagraphGrade(dense).points
  }

  /** The awards add up to between 2 and 8 points, so the clamp never
      binds, and reach 8 exactly when all four sub-checks pass at their best. */
  lemma ReadabilityPointsBounds(sum: nat, n: nat, long: nat, complex: nat, words: nat, dense: nat)
    requires n >= 1
    ensures 20 <= ReadabilityPoints(sum, n, long, complex, words, dense) <= 80
    ensures ReadabilityPoints(sum, n, long, complex, words, dense) == 80
      <==> 10 * n <= sum <= 20 * n && long == 0 && 20 * complex < AtLeastOne(words) && dense == 0
  {
  }

  // ---------------------------------------------------------------------
  // The sub-checks

  /** The average sub-check; every finding reports the average rounded to
      one decimal, in tenths of a word. */
  method CheckAverage(sum: nat, n: nat) returns (f: Finding, points: int)
    requires n >= 1
    ensures points == AverageGrade(sum, n).points
    ensures f.kind == AverageGrade(sum, n).kind
    ensures f.counts == [RoundHalfEven(10 * sum, n)]
  {
    var avg := RoundHalfEven(10 * sum, n);
    if 10 * n <= sum <= 20 * n {
      points := 30;
      f := Finding(Pass, "sentence-length-good", [avg], []);
    } else if sum < 10 * n {
      points := 20;
      f := Finding(Pass, "sentence-length-concise", [avg], []);
    } else {
      points := 10;
      f := Finding(Warning, "sentence-length-long", [avg], []);
    }
  }

  /** The long-sentence sub-check; the warning and the failure report the count. */
  method CheckLongSentences(long: nat) returns (f: Finding, points: int)
    ensures points == LongSentenceGrade(long).points
    ensures f.kind == LongSentenceGrade(long).kind
    ensures long > 0 ==> f.counts == [long]
  {
    if long == 0 {
      points := 20;
      f := Note(Pass, "long-sentences-none");
    } else if long <= 3 {
      points := 10;
      f := Finding(Warning, "long-sentences-some", [long], []);
    } else {
      points := 0;
      f := Finding(Fail, "long-sentences-many", [long], []);
    }
  }

  /** The vocabulary sub-check. */
  method CheckVocabulary(complex: nat, words: nat) returns (f: Finding, points: int)
    ensures points == VocabularyGrade(complex, words).points
    ensures f.kind == VocabularyGrade(complex, words).kind
  {
    var d := AtLeastOne(words);
    if 20 * complex < d {
      points := 15;
      f := Note(Pass, "vocabulary-clear");
    } else if 10 * complex < d {
      points := 10;
      f := Note(Pass, "vocabulary-mostly-clear");
    } else {
      points := 5;
      f := Note(Warning, "vocabulary-complex");
    }
  }

  /** The paragraph sub-check; the warning reports the count. */
  method CheckParagraphs(dense: nat) returns (f: Finding, points: int)
    ensures points == ParagraphGrade(dense).points
    ensures f.kind == ParagraphGrade(dense).kind
    ensures dense > 0 ==> f.counts == [dense]
  {
    if dense == 0 {
      points := 15;
      f := Note(Pass, "paragraphs-good");
    } else {
      points := 5;
      f := Finding(Warning, "paragraphs-dense", [dense], []);
    }
  }

  // ---------------------------------------------------------------------
  // The checker

  /** The fixed result when no sentence can be analysed: 4 points and a
      single warning. */
  const Unanalysable: CheckResult := CheckResult(40, 80, [Note(Warning, "sentences-unanalysable")])

  /** The scoring once the counts are known: `n` sentences of `sum` words
      in all, `long` of them over 25 words, `complex` long words among
      `words` words, and `dense` dense paragraphs. */
  method ScoreReadability(n: nat, sum: nat, long: nat, complex: nat, words: nat, dense: nat) returns (r: CheckResult)
    ensures r.maxScore == 80
    ensures n == 0 ==> r == Unanalysable
    ensures n >= 1 ==> r.score == ReadabilityPoints(sum, n, long, complex, words, dense)
    ensures 20 <= r.score <= 80
    ensures |r.findings| == (if n == 0 then 1 else 4)
    ensures n >= 1 ==> r.findings[0].kind == AverageGrade(sum, n).kind
    ensures n >= 1 ==> r.findings[1].kind == LongSentenceGrade(long).kind
    ensures n >= 1 ==> r.findings[2].kind == VocabularyGrade(complex, words).kind
    ensures n >= 1 ==> r.findings[3].kind == ParagraphGrade(dense).kind
  {
    var maxScore := 80;
    if n == 0 {
      return Unanalysable;
    }
    var averageFinding, averagePoints := CheckAverage(sum, n);
    var longFinding, longPoints := CheckLongSentences(long);
    var vocabularyFinding, vocabularyPoints := CheckVocabulary(complex, words);
    var paragraphFinding, paragraphPoints := CheckParagraphs(dense);

    var score := averagePoints + longPoints + vocabularyPoints + paragraphPoints;
    var findings := [averageFinding, longFinding, vocabularyFinding, paragraphFinding];
    ReadabilityPointsBounds(sum, n, long, complex, words, dense);

    r := CheckResult(Clamp(score, maxScore), maxScore, findings);
  }

  /** `check_readability`: the sentences and their word counts, the words
      of the lower-cased text and the paragraphs, then the scoring. */
  method CheckReadability(text: string) returns (r: CheckResult)
    ensures r.maxScore == 80
    ensures TextSentences(text) == [] ==> r == Unanalysable
    ensures var sentences := TextSentences(text); var counts := WordCounts(sentences);
      sentences != [] ==> r.score == ReadabilityPoints(Sum(counts), |sentences|, Count(counts, IsLongSentence),
        Count(Words(Lower(text)), IsComplexWord), |Words(Lower(text))|, Count(Paragraphs(text), IsDenseParagraph))
    ensures 20 <= r.score <= 80
    ensures |r.findings| == (if TextSentences(text) == [] then 1 else 4)
    ensures var sentences := TextSentences(text); var counts := WordCounts(sentences);
      sentences != [] ==>
        r.findings[0].kind == AverageGrade(Sum(counts), |sentences|).kind &&
        r.findings[1].kind == LongSentenceGrade(Count(counts, IsLongSentence)).kind
    ensures TextSentences(text) != [] ==>
      r.findings[2].kind == VocabularyGrade(Count(Words(Lower(text)), IsComplexWord), |Words(Lower(text))|).kind &&
      r.findings[3].kind == ParagraphGrade(Count(Paragraphs(text), IsDenseParagraph)).kind
  {
    var sentences := TextSentences(text);
    var counts := WordCounts(sentences);
    var long := Count(counts, IsLongSentence);
    var words := Words(Lower(text));
    var complex := Count(words, IsComplexWord);
    var dense := Count(Paragraphs(text), IsDenseParagraph);
    r := ScoreReadability(|sentences|, Sum(counts), long, complex, |words|, dense);
  }
}
