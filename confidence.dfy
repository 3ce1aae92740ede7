/** How resume-like a text is (`_resume_confidence`).  Signals are counted
    in HALF points: the source's +1.5, +3, +2 and +1 are 3, 6, 4 and 2 here,
    at most 20 in all, and the confidence is `halves / 20`. */
module Confidence {
  import opened Text
  import opened Scoring

  /** What the two regex searches and the two `findall`s report: an email,
      a phone number, and the numbers of month-year and year-year ranges. */
  datatype ConfidenceSignals = ConfidenceSignals(hasEmail: bool, hasPhone: bool, monthRanges: nat, yearRanges: nat)

  const ResumeHeadings: seq<string> := ["work experience", "professional experience", "education",
    "skills", "technical skills", "summary", "objective", "certifications", "projects"]

  /** The glyphs a bullet line may start with. */
  const BulletGlyphs: seq<char> := ['\U{2022}', '\U{25CF}', '\U{25AA}', '\U{25A0}', '\U{2013}',
    '\U{2192}', '\U{25E6}', '\U{2023}', '\U{25BA}']

  /** Half-point awards for heading lines, date ranges and bullet lines. */
  const HeadingSteps: seq<Step<int>> := [Step(3, 6), Step(2, 4), Step(1, 2)]
  const DateSteps: seq<Step<int>> := [Step(2, 4), Step(1, 2)]
  const BulletSteps: seq<Step<int>> := [Step(5, 4), Step(2, 2)]

  /** A line counts toward the heading signal when its heading text is
      non-empty, shorter than 50 characters, and contains some heading. */
  predicate IsHeadingLine(line: string, headings: seq<string>) {
    var s := HeadingText(line);
    s != [] && |s| < 50 && ContainsAny(s, headings)
  }

  /** Number of heading lines (the count the loop builds). */
  function HeadingLines(lines: seq<string>, headings: seq<string>): (n: nat)
    ensures n <= |lines|
  {
    if lines == [] then 0
    else HeadingLines(lines[..|lines| - 1], headings) + (if IsHeadingLine(lines[|lines| - 1], headings) then 1 else 0)
  }

  /** The stripped line starts with a bullet glyph. */
  predicate IsBulletLine(line: string) {
    var s := Strip(line);
    s != [] && s[0] in BulletGlyphs
  }

  /** The signal total, in halves, for the regex signals and the numbers
      of heading lines and bullet lines. */
  function SignalHalves(sig: ConfidenceSignals, headingLines: nat, bulletLines: nat): int {
    (if sig.hasEmail then 3 else 0) + (if sig.hasPhone then 3 else 0)
    + Tier(headingLines, HeadingSteps, 0)
    + Tier(sig.monthRanges + sig.yearRanges, DateSteps, 0)
    + Tier(bulletLines, BulletSteps, 0)
  }

  /** `min(signals / 10, 1.0)` for a signal total of `halves / 2`. */
  function Confidence(halves: nat): (c: real)
    ensures 0.0 <= c <= 1.0
    ensures halves <= 20 ==> c == halves as real / 20.0
  {
    if halves as real / 20.0 < 1.0 then halves as real / 20.0 else 1.0
  }

  /** The signals never exceed their maximum of 10 points, so the `min`
      never binds. */
  lemma SignalHalvesBounds(sig: ConfidenceSignals, headingLines: nat, bulletLines: nat)
    ensures 0 <= SignalHalves(sig, headingLines, bulletLines) <= 20
  {
    Unroll(headingLines, HeadingSteps, 0);
    Unroll(sig.monthRanges + sig.yearRanges, DateSteps, 0);
    Unroll(bulletLines, BulletSteps, 0);
  }

  /** The three thresholds the analysis compares against, in halves. */
  lemma ConfidenceThresholds(halves: nat)
    requires halves <= 20
    ensures Confidence(halves) < 0.3 <==> halves < 6
    ensures Confidence(halves) < 0.5 <==> halves < 10
    ensures Confidence(halves) < 0.7 <==> halves < 14
  {
  }

  /** More heading lines, date ranges or bullet lines never lower the signal. */
  lemma SignalHalvesMonotone(sig: ConfidenceSignals, more: ConfidenceSignals, h1: nat, h2: nat, b1: nat, b2: nat)
    requires sig.hasEmail ==> more.hasEmail
    requires sig.hasPhone ==> more.hasPhone
    requires sig.monthRanges + sig.yearRanges <= more.monthRanges + more.yearRanges
    requires h1 <= h2 && b1 <= b2
    ensures SignalHalves(sig, h1, b1) <= SignalHalves(more, h2, b2)
  {
    Unroll(h1, HeadingSteps, 0);
    Unroll(h2, HeadingSteps, 0);
    Unroll(sig.monthRanges + sig.yearRanges, DateSteps, 0);
    Unroll(more.monthRanges + more.yearRanges, DateSteps, 0);
    Unroll(b1, BulletSteps, 0);
    Unroll(b2, BulletSteps, 0);
  }

  /** The inner loop over the headings: it stops at the first heading the
      line contains.  (The list is a parameter so that the verifier does not
      unfold the constant while reasoning about the loop.) */
  method LineHasHeading(stripped: string, headings: seq<string>) returns (found: bool)
    ensures found <==> ContainsAny(stripped, headings)
  {
    ContainsAnyFound(stripped, headings);
    found := false;
    var j := 0;
    while j < |headings|
      invariant 0 <= j <= |headings|
      invariant forall k :: 0 <= k < j ==> !Contains(stripped, headings[k])
    {
      if Contains(stripped, headings[j]) {
        found := true;
        break;
      }
      j := j + 1;
    }
  }

  /** One pass of the outer loop's body: whether the line adds to the count. */
  method HeadingLine(line: string, headings: seq<string>) returns (counts: bool)
    ensures counts == IsHeadingLine(line, headings)
  {
    var stripped := HeadingText(line);
    counts := false;
    if stripped != [] && |stripped| < 50 {
      counts := LineHasHeading(stripped, headings);
    }
  }

  /** The outer loop: each line adds at most one to the heading count,
      whatever number of headings it holds. */
  method CountHeadingLines(lines: seq<string>, headings: seq<string>) returns (headingCount: nat)
    ensures headingCount == HeadingLines(lines, headings)
  {
    headingCount := 0;
    var i := 0;
    while i < |lines|
      invariant 0 <= i <= |lines|
      invariant headingCount == HeadingLines(lines[..i], headings)
    {
      assert lines[..i + 1][..i] == lines[..i];
      assert HeadingLines(lines[..i + 1], headings) == HeadingLines(lines[..i], headings) + (if IsHeadingLine(lines[i], headings) then 1 else 0);
      var counts := HeadingLine(lines[i], headings);
      if counts {
        headingCount := headingCount + 1;
      }
      i := i + 1;
    }
    assert lines[..i] == lines;
  }

  /** The signal additions, given the two line counts. */
  method AddSignals(sig: ConfidenceSignals, headingCount: nat, bulletLines: nat) returns (signals: nat)
    ensures signals == SignalHalves(sig, headingCount, bulletLines)
    ensures signals <= 20
  {
    signals := 0;
    if sig.hasEmail { signals := signals + 3; }
    if sig.hasPhone { signals := signals + 3; }

    ghost var before := signals;
    if headingCount >= 3 {
      signals := signals + 6;
    } else if headingCount >= 2 {
      signals := signals + 4;
    } else if headingCount >= 1 {
      signals := signals + 2;
    }
    Unroll(headingCount, HeadingSteps, 0);
    assert signals == before + Tier(headingCount, HeadingSteps, 0);

    var ranges := sig.monthRanges + sig.yearRanges;
    before := signals;
    if ranges >= 2 {
      signals := signals + 4;
    } else if ranges >= 1 {
      signals := signals + 2;
    }
    Unroll(ranges, DateSteps, 0);
    assert signals == before + Tier(ranges, DateSteps, 0);

    before := signals;
    if bulletLines >= 5 {
      signals := signals + 4;
    } else if bulletLines >= 2 {
      signals := signals + 2;
    }
    Unroll(bulletLines, BulletSteps, 0);
    SignalHalvesBounds(sig, headingCount, bulletLines);
  }

  /** `_resume_confidence`, in halves. */
  method ResumeConfidence(sig: ConfidenceSignals, textLower: string) returns (halves: nat)
    ensures var lines := SplitChar(textLower, '\n');
      halves == SignalHalves(sig, HeadingLines(lines, ResumeHeadings), Count(lines, IsBulletLine))
    ensures halves <= 20
  {
    var lines := SplitChar(textLower, '\n');
    var headingCount := CountHeadingLines(lines, ResumeHeadings);
    var bulletLines := Count(lines, IsBulletLine);
    halves := AddSignals(sig, headingCount, bulletLines);
  }
}
