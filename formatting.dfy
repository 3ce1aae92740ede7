/** `check_formatting`: page count, word count, bullet use, date format,
    line length and capitalisation, 13 points in all (130 tenths). */
module Formatting {
  import opened Text
  import opened Scoring
  import opened Years

  /** What the two case-insensitive regex searches report: the number of
      month-name matches and of present/current/ongoing matches.  The year
      mentions are found in the text itself. */
  datatype FormattingSignals = FormattingSignals(monthNames: nat, presentWords: nat)

  /** The glyphs a bullet line may start with, hyphen and asterisk included. */
  const BulletGlyphs: seq<char> := ['\U{2022}', '\U{25CF}', '\U{25AA}', '\U{25A0}', '-', '\U{2013}',
    '\U{2192}', '*', '\U{25E6}', '\U{2023}', '\U{25BA}']

  // ---------------------------------------------------------------------
  // Lines

  /** A line with something besides whitespace. */
  predicate NonBlank(line: string) {
    Strip(line) != []
  }

  /** The lines of the stripped text, blank lines dropped. */
  function ContentLines(text: string): (r: seq<string>)
    ensures forall i :: 0 <= i < |r| ==> NonBlank(r[i])
  {
    Filter(SplitChar(Strip(text), '\n'), NonBlank)
  }

  /** The stripped line starts with one of `glyphs`. */
  predicate StartsWithGlyph(line: string, glyphs: seq<char>) {
    var s := Strip(line);
    s != [] && s[0] in glyphs
  }

  predicate IsBulletLine(line: string) {
    StartsWithGlyph(line, BulletGlyphs)
  }

  /** More than 120 characters once stripped. */
  predicate IsLongLine(line: string) {
    |Strip(line)| > 120
  }

  /** All capitals (`isupper`) and longer than 3 characters once stripped. */
  predicate IsCapsLine(line: string) {
    var s := Strip(line);
    IsUpperText(s) && |s| > 3
  }

  // ---------------------------------------------------------------------
  // The six awards

  /** One or two pages earn 2 points, three or more 0.5 with a warning, and
      any other count (none) earns nothing and gives no finding. */
  function PageGrade(pages: int): (g: Option<Grade>)
    ensures g.Some? <==> pages >= 1
    ensures g.Some? ==> (g.value.kind == Pass <==> pages <= 2)
  {
    if pages == 1 || pages == 2 then Some(Grade(20, Pass))
    else if pages >= 3 then Some(Grade(5, Warning))
    else None
  }

  /** The word-count bands: 400-800 earns 2 points, 300-399 and 801-1100
      earn 1.5 with a warning, anything shorter or longer 0.5 with a failure. */
  function WordGrade(n: nat): Grade {
    if 400 <= n <= 800 then Grade(20, Pass)
    else if 300 <= n < 400 then Grade(15, Warning)
    else if 800 < n <= 1100 then Grade(15, Warning)
    else if n < 300 then Grade(5, Fail)
    else Grade(5, Fail)
  }

  /** The top award is exactly the ideal range; the failure is exactly
      outside 300-1100; every count earns at least 0.5. */
  lemma WordGradeBands(n: nat)
    ensures WordGrade(n).points == 20 <==> 400 <= n <= 800
    ensures WordGrade(n).kind == Pass <==> 400 <= n <= 800
    ensures WordGrade(n).kind == Fail <==> n < 300 || n > 1100
    ensures 5 <= WordGrade(n).points <= 20
  {
  }

  /** Moving toward the ideal range never lowers the word-count award. */
  lemma WordGradeTowardIdeal(m: nat, n: nat)
    requires m <= n
    ensures n <= 400 ==> WordGrade(m).points <= WordGrade(n).points
    ensures m >= 800 ==> WordGrade(m).points >= WordGrade(n).points
  {
  }

  /** The bullet-ratio tiers, `b / max(m, 1)` above 0.2, above 0.1 and
      above 0.03, compared exactly as integers. */
  function BulletGrade(b: nat, m: nat): Grade {
    var d := AtLeastOne(m);
    if 5 * b > d then Grade(30, Pass)
    else if 10 * b > d then Grade(20, Pass)
    else if 100 * b > 3 * d then Grade(10, Warning)
    else Grade(0, Fail)
  }

  /** The integer comparisons are the ratio comparisons of the source. */
  lemma BulletRatioThresholds(b: nat, m: nat)
    ensures var d := AtLeastOne(m); var ratio := b as real / d as real;
      (ratio > 0.2 <==> 5 * b > d) && (ratio > 0.1 <==> 10 * b > d) && (ratio > 0.03 <==> 100 * b > 3 * d)
  {
    var d := AtLeastOne(m);
    QuotientAbove(b as real, d as real, 0.2);
    QuotientAbove(b as real, d as real, 0.1);
    QuotientAbove(b as real, d as real, 0.03);
  }

  /** More bullet lines among the same lines never lower the award, and
      more lines with the same bullets never raise it. */
  lemma BulletGradeMonotone(b1: nat, b2: nat, m1: nat, m2: nat)
    requires b1 <= b2 && m2 <= m1
    ensures BulletGrade(b1, m1).points <= BulletGrade(b2, m2).points
  {
  }

  /** A text whose every content line is a bullet earns the top award, and
      one without bullets fails. */
  lemma BulletGradeExtremes(m: nat)
    ensures m >= 1 ==> BulletGrade(m, m) == Grade(30, Pass)
    ensures BulletGrade(0, m) == Grade(0, Fail)
  {
  }

  /** Years and month names earn 3 points; years alone 2 with a warning;
      no year fails whatever month names there are. */
  function DateGrade(years: bool, months: bool): Grade {
    if years && months then Grade(30, Pass)
    else if years then Grade(20, Warning)
    else Grade(0, Fail)
  }

  /** Long lines above 30% of the content lines earn 0.5 with a warning,
      otherwise 1.5. */
  function LineGrade(long: nat, m: nat): Grade {
    if 10 * long > 3 * m then Grade(5, Warning) else Grade(15, Pass)
  }

  /** The integer comparison is the source's `long > m * 0.3`. */
  lemma LineRatioThreshold(long: nat, m: nat)
    ensures long as real > m as real * 0.3 <==> 10 * long > 3 * m
  {
  }

  /** More than 6 capitalised lines give a warning and nothing, 1 to 6 earn
      0.5, none gives no finding. */
  function CapsGrade(caps: nat): (g: Option<Grade>)
    ensures g.Some? <==> caps > 0
  {
    if caps > 6 then Some(Grade(0, Warning))
    else if caps > 0 then Some(Grade(5, Pass))
    else None
  }

  /** The capitalisation award is not monotone: a seventh capitalised line
      takes the half point away. */
  lemma CapsNotMonotone()
    ensures CapsGrade(6).value.points > CapsGrade(7).value.points
  {
  }

  function PointsOf(g: Option<Grade>): int {
    if g.Some? then g.value.points else 0
  }

  /** The sum of the six awards. */
  function FormattingPoints(pages: int, words: nat, bullets: nat, lines: nat, years: bool, months: bool, long: nat, caps: nat): int {
    PointsOf(PageGrade(pages)) + WordGrade(words).points + BulletGrade(bullets, lines).points
    + DateGrade(years, months).points + LineGrade(long, lines).points + PointsOf(CapsGrade(caps))
  }

  /** The awards add up to at most 12 points, below the maximum of 13, so
      the clamp never binds; every text earns at least 1. */
  lemma FormattingPointsBounds(pages: int, words: nat, bullets: nat, lines: nat, years: bool, months: bool, long: nat, caps: nat)
    ensures 10 <= FormattingPoints(pages, words, bullets, lines, years, months, long, caps) <= 120
  {
  }

  // ---------------------------------------------------------------------
  // The sub-checks

  /** The page sub-check: a finding only for a positive page count. */
  method CheckPages(pages: int) returns (fs: seq<Finding>, points: int)
    ensures points == PointsOf(PageGrade(pages))
    ensures |fs| == (if pages >= 1 then 1 else 0)
    ensures pages >= 1 ==> fs[0].kind == PageGrade(pages).value.kind
    ensures pages >= 3 ==> fs[0].counts == [pages]
  {
    if pages == 1 {
      points := 20;
      fs := [Note(Pass, "single-page")];
    } else if pages == 2 {
      points := 20;
      fs := [Note(Pass, "two-pages")];
    } else if pages >= 3 {
      points := 5;
      fs := [Finding(Warning, "too-many-pages", [pages], [])];
    } else {
      points := 0;
      fs := [];
    }
  }

  /** The word-count sub-check; every finding reports the count. */
  method CheckWordCount(n: nat) returns (f: Finding, points: int)
    ensures points == WordGrade(n).points
    ensures f.kind == WordGrade(n).kind
    ensures f.counts == [n]
  {
    if 400 <= n <= 800 {
      points := 20;
      f := Finding(Pass, "word-count-optimal", [n], []);
    } else if 300 <= n < 400 {
      points := 15;
      f := Finding(Warning, "word-count-short", [n], []);
    } else if 800 < n <= 1100 {
      points := 15;
      f := Finding(Warning, "word-count-long", [n], []);
    } else if n < 300 {
      points := 5;
      f := Finding(Fail, "word-count-too-short", [n], []);
    } else {
      points := 5;
      f := Finding(Fail, "word-count-too-long", [n], []);
    }
  }

  /** The bullet sub-check on `b` bullet lines among `m` content lines; the
      top finding also reports the rounded percentage. */
  method CheckBullets(b: nat, m: nat) returns (f: Finding, points: int)
    ensures points == BulletGrade(b, m).points
    ensures f.kind == BulletGrade(b, m).kind
    ensures BulletGrade(b, m).points == 30 ==> f.counts == [b, RoundHalfEven(100 * b, AtLeastOne(m))]
    ensures 0 < BulletGrade(b, m).points < 30 ==> f.counts == [b]
  {
    var d := AtLeastOne(m);
    if 5 * b > d {
      points := 30;
      f := Finding(Pass, "bullets-excellent", [b, RoundHalfEven(100 * b, d)], []);
    } else if 10 * b > d {
      points := 20;
      f := Finding(Pass, "bullets-good", [b], []);
    } else if 100 * b > 3 * d {
      points := 10;
      f := Finding(Warning, "bullets-limited", [b], []);
    } else {
      points := 0;
      f := Note(Fail, "bullets-missing");
    }
  }

  /** The date sub-check on the numbers of year and month-name mentions;
      a second finding marks a current position, only beside the pass. */
  method CheckDateFormat(years: nat, months: nat, present: nat) returns (fs: seq<Finding>, points: int)
    ensures points == DateGrade(years > 0, months > 0).points
    ensures |fs| == (if years > 0 && months > 0 && present > 0 then 2 else 1)
    ensures fs[0].kind == DateGrade(years > 0, months > 0).kind
    ensures years > 0 && months > 0 ==> fs[0].counts == [years, months]
    ensures years > 0 && months == 0 ==> fs[0].counts == [years]
    ensures |fs| == 2 ==> fs[1].kind == Pass
  {
    if years > 0 && months > 0 {
      points := 30;
      fs := [Finding(Pass, "date-format", [years, months], [])];
      if present > 0 {
        fs := fs + [Note(Pass, "date-present")];
      }
    } else if years > 0 {
      points := 20;
      fs := [Finding(Warning, "date-years-only", [years], [])];
    } else {
      points := 0;
      fs := [Note(Fail, "dates-missing")];
    }
  }

  /** The line-length sub-check. */
  method CheckLineLength(long: nat, m: nat) returns (f: Finding, points: int)
    ensures points == LineGrade(long, m).points
    ensures f.kind == LineGrade(long, m).kind
    ensures f.kind == Warning ==> f.counts == [long]
  {
    if 10 * long > 3 * m {
      points := 5;
      f := Finding(Warning, "long-lines", [long], []);
    } else {
      points := 15;
      f := Note(Pass, "line-length");
    }
  }

  /** The capitalisation sub-check: a finding only when some line is in
      capitals. */
  method CheckCaps(caps: nat) returns (fs: seq<Finding>, points: int)
    ensures points == PointsOf(CapsGrade(caps))
    ensures |fs| == (if caps > 0 then 1 else 0)
    ensures caps > 0 ==> fs[0].kind == CapsGrade(caps).value.kind
    ensures caps > 6 ==> fs[0].counts == [caps]
  {
    if caps > 6 {
      points := 0;
      fs := [Finding(Warning, "caps-excessive", [caps], [])];
    } else if caps > 0 {
      points := 5;
      fs := [Note(Pass, "caps-headings")];
    } else {
      points := 0;
      fs := [];
    }
  }

  // ---------------------------------------------------------------------
  // The checker

  /** The scoring once the counts are known: pages, words, bullet lines and
      content lines, year, month and present mentions, long lines and
      capitalised lines.  `p` is 1 when there is a page finding and `d` is
      2 when the date sub-check adds its second finding. */
  method ScoreFormatting(pages: int, words: nat, bullets: nat, lines: nat, years: nat, months: nat, present: nat,
                         long: nat, caps: nat)
    returns (r: CheckResult)
    ensures r.maxScore == 130
    ensures r.score == FormattingPoints(pages, words, bullets, lines, years > 0, months > 0, long, caps)
    ensures 10 <= r.score <= 120
    ensures var p := if pages >= 1 then 1 else 0;
      var d := if years > 0 && months > 0 && present > 0 then 2 else 1;
      |r.findings| == p + 2 + d + 1 + (if caps > 0 then 1 else 0)
    ensures pages >= 1 ==> r.findings[0].kind == PageGrade(pages).value.kind
    ensures var p := if pages >= 1 then 1 else 0;
      r.findings[p].kind == WordGrade(words).kind && r.findings[p].counts == [words]
    ensures var p := if pages >= 1 then 1 else 0;
      r.findings[p + 1].kind == BulletGrade(bullets, lines).kind
    ensures var p := if pages >= 1 then 1 else 0;
      r.findings[p + 2].kind == DateGrade(years > 0, months > 0).kind
    ensures var p := if pages >= 1 then 1 else 0;
      var d := if years > 0 && months > 0 && present > 0 then 2 else 1;
      r.findings[p + 2 + d].kind == LineGrade(long, lines).kind
    ensures var p := if pages >= 1 then 1 else 0;
      var d := if years > 0 && months > 0 && present > 0 then 2 else 1;
      caps > 0 ==> r.findings[p + 3 + d].kind == CapsGrade(caps).value.kind
  {
    var maxScore := 130;
    var pageFindings, pagePoints := CheckPages(pages);
    var wordFinding, wordPoints := CheckWordCount(words);
    var bulletFinding, bulletPoints := CheckBullets(bullets, lines);
    var dateFindings, datePoints := CheckDateFormat(years, months, present);
    var lineFinding, linePoints := CheckLineLength(long, lines);
    var capsFindings, capsPoints := CheckCaps(caps);

    var score := pagePoints + wordPoints + bulletPoints + datePoints + linePoints + capsPoints;
    var findings := pageFindings + [wordFinding, bulletFinding] + dateFindings + [lineFinding] + capsFindings;
    ghost var p := |pageFindings|;
    ghost var d := |dateFindings|;
    assert findings[p] == wordFinding && findings[p + 1] == bulletFinding;
    assert findings[p + 2] == dateFindings[0];
    assert findings[p + 2 + d] == lineFinding;
    assert caps > 0 ==> findings[p + 3 + d] == capsFindings[0];
    FormattingPointsBounds(pages, words, bullets, lines, years > 0, months > 0, long, caps);

    r := CheckResult(Clamp(score, maxScore), maxScore, findings);
  }

  /** `check_formatting`: the counts over the whitespace-separated words,
      the content lines and the year mentions, then the scoring. */
  method CheckFormatting(text: string, numPages: int, sig: FormattingSignals) returns (r: CheckResult)
    ensures r.maxScore == 130
    ensures var lines := ContentLines(text);
      r.score == FormattingPoints(numPages, |Words(text)|, Count(lines, IsBulletLine), |lines|,
        YearsIn(text) != [], sig.monthNames > 0, Count(lines, IsLongLine), Count(lines, IsCapsLine))
    ensures 10 <= r.score <= 120
    ensures var p := if numPages >= 1 then 1 else 0;
      var d := if YearsIn(text) != [] && sig.monthNames > 0 && sig.presentWords > 0 then 2 else 1;
      |r.findings| == p + 3 + d + (if Count(ContentLines(text), IsCapsLine) > 0 then 1 else 0)
    ensures var p := if numPages >= 1 then 1 else 0;
      r.findings[p].counts == [|Words(text)|]
    ensures var p := if numPages >= 1 then 1 else 0;
      r.findings[p + 1].kind == BulletGrade(Count(ContentLines(text), IsBulletLine), |ContentLines(text)|).kind
    ensures var p := if numPages >= 1 then 1 else 0;
      r.findings[p + 2].kind == DateGrade(YearsIn(text) != [], sig.monthNames > 0).kind
    ensures var p := if numPages >= 1 then 1 else 0;
      var d := if YearsIn(text) != [] && sig.monthNames > 0 && sig.presentWords > 0 then 2 else 1;
      r.findings[p + 2 + d].kind == LineGrade(Count(ContentLines(text), IsLongLine), |ContentLines(text)|).kind
    ensures var p := if numPages >= 1 then 1 else 0;
      var d := if YearsIn(text) != [] && sig.monthNames > 0 && sig.presentWords > 0 then 2 else 1;
      Count(ContentLines(text), IsCapsLine) > 0 ==>
        r.findings[p + 3 + d].kind == CapsGrade(Count(ContentLines(text), IsCapsLine)).value.kind
  {
    var wordCount := |Words(text)|;
    var lines := ContentLines(text);
    var bullets := Count(lines, IsBulletLine);
    var years := |YearsIn(text)|;
    var long := Count(lines, IsLongLine);
    var caps := Count(lines, IsCapsLine);
    r := ScoreFormatting(numPages, wordCount, bullets, |lines|, years, sig.monthNames, sig.presentWords, long, caps);
  }
}
