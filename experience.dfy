/** `check_work_experience`: date ranges, the year span, job titles,
    companies, a current position and a work location, 12 points in all
    (120 tenths). */
module Experience {
  import opened Text
  import opened Scoring
  import opened Years

  /** What the regex searches report: the numbers of full (month and year)
      and year-only date ranges, the raw title and company matches, whether
      present/current/ongoing appears, and the number of location matches.
      The year mentions are found in the text itself. */
  datatype ExperienceSignals = ExperienceSignals(
    fullRanges: nat,
    yearOnlyRanges: nat,
    titles: seq<string>,
    companies: seq<string>,
    hasCurrent: bool,
    locations: nat)

  // ---------------------------------------------------------------------
  // Date ranges

  /** The year-only tiers, applied to all ranges when fewer than two full
      ranges were found. */
  const RangeSteps: seq<Step<Grade>> := [Step(2, Grade(20, Warning)), Step(1, Grade(10, Warning))]
  const NoRanges: Grade := Grade(0, Fail)

  /** Two full month-year ranges earn 3 points; otherwise the count of all
      ranges is tiered. */
  function DateGrade(full: nat, all: nat): Grade {
    if full >= 2 then Grade(30, Pass) else Tier(all, RangeSteps, NoRanges)
  }

  /** More ranges of either sort never lower the award. */
  lemma DateGradeMonotone(full1: nat, yo1: nat, full2: nat, yo2: nat)
    requires full1 <= full2 && yo1 <= yo2
    ensures DateGrade(full1, full1 + yo1).points <= DateGrade(full2, full2 + yo2).points
  {
    Unroll(full1 + yo1, RangeSteps, NoRanges);
    Unroll(full2 + yo2, RangeSteps, NoRanges);
  }

  /** The date finding fails exactly when no range at all was found, and
      passes exactly when two full ranges were. */
  lemma DateGradeKinds(full: nat, yo: nat)
    ensures DateGrade(full, full + yo).kind == Fail <==> full + yo == 0
    ensures DateGrade(full, full + yo).kind == Pass <==> full >= 2
  {
    Unroll(full + yo, RangeSteps, NoRanges);
  }

  /** The date-range sub-check. */
  method CheckDates(full: nat, yearOnly: nat) returns (f: Finding, points: int)
    ensures points == DateGrade(full, full + yearOnly).points
    ensures f.kind == DateGrade(full, full + yearOnly).kind
    ensures full >= 2 ==> f.counts == [full]
    ensures full < 2 && full + yearOnly >= 2 ==> f.counts == [full + yearOnly]
  {
    var all := full + yearOnly;
    Unroll(all, RangeSteps, NoRanges);
    if full >= 2 {
      points := 30;
      f := Finding(Pass, "date-ranges-full", [full], []);
    } else if all >= 2 {
      points := 20;
      f := Finding(Warning, "date-ranges-no-month", [all], []);
    } else if all == 1 {
      points := 10;
      f := Note(Warning, "date-range-single");
    } else {
      points := 0;
      f := Note(Fail, "date-ranges-missing");
    }
  }

  // ---------------------------------------------------------------------
  // Years: `sorted(set(year_mentions))` of the years the text mentions

  /** The year finding for one or more sorted distinct years: with three or
      more, the career span from the first to the last with both years; with
      fewer, the years themselves. */
  function YearFinding(years: seq<int>): (f: Finding)
    requires |years| >= 1
    ensures |years| >= 3 <==> f.kind == Pass
    ensures |years| >= 3 ==> f.counts == [years[|years| - 1] - years[0], years[0], years[|years| - 1]]
    ensures |years| < 3 ==> f.kind == Info && f.counts == years
  {
    if |years| >= 3 then Finding(Pass, "career-span", [years[|years| - 1] - years[0], years[0], years[|years| - 1]], [])
    else Finding(Info, "years-found", years, [])
  }

  /** With three or more distinct years the reported span is the greatest
      year mentioned minus the least. */
  lemma CareerSpan(text: string)
    requires |SortedSet(YearsIn(text))| >= 3
    ensures var f := YearFinding(SortedSet(YearsIn(text)));
      f.counts[1] in YearsIn(text) && f.counts[2] in YearsIn(text)
      && f.counts[0] == f.counts[2] - f.counts[1]
      && forall y :: y in YearsIn(text) ==> f.counts[1] <= y <= f.counts[2]
  {
    var r := SortedSet(YearsIn(text));
    var f := YearFinding(r);
    assert f.counts[1] == r[0] && f.counts[2] == r[|r| - 1];
    assert r[0] in r && r[|r| - 1] in r;
    forall y | y in YearsIn(text) ensures r[0] <= y <= r[|r| - 1] {
      assert y in r;
      var i :| 0 <= i < |r| && r[i] == y;
      if i > 0 { assert r[0] < r[i]; }
      if i < |r| - 1 { assert r[i] < r[|r| - 1]; }
    }
  }

  /** The year findings, on the sorted distinct years: a career span with
      three or more, the years themselves with one or two, nothing with none. */
  method CheckYears(years: seq<int>) returns (fs: seq<Finding>, points: int)
    ensures points == (if |years| >= 3 then 15 else 0)
    ensures |fs| == (if |years| >= 1 then 1 else 0)
    ensures |years| >= 1 ==> fs[0] == YearFinding(years)
  {
    if |years| >= 3 {
      var span := years[|years| - 1] - years[0];
      points := 15;
      fs := [Finding(Pass, "career-span", [span, years[0], years[|years| - 1]], [])];
    } else if |years| >= 1 {
      points := 0;
      fs := [Finding(Info, "years-found", years, [])];
    } else {
      points := 0;
      fs := [];
    }
  }

  // ---------------------------------------------------------------------
  // Titles and companies

  /** Each title lower-cased and stripped. */
  function Normalized(titles: seq<string>): (r: seq<string>)
    ensures |r| == |titles|
  {
    if titles == [] then [] else Normalized(titles[..|titles| - 1]) + [Strip(Lower(titles[|titles| - 1]))]
  }

  /** Each company stripped. */
  function Stripped(companies: seq<string>): (r: seq<string>)
    ensures |r| == |companies|
  {
    if companies == [] then [] else Stripped(companies[..|companies| - 1]) + [Strip(companies[|companies| - 1])]
  }

  /** The number of distinct values: each value counts where it first occurs. */
  function DistinctCount(s: seq<string>): (n: nat)
    ensures n <= |s|
    ensures n == 0 <==> s == []
  {
    if s == [] then 0
    else
      var k := |s| - 1;
      var m := DistinctCount(s[..k]);
      if s[k] in s[..k] then m else m + 1
  }

  /** It is the size of the set of the values. */
  lemma {:induction false} DistinctCountIsSetSize(s: seq<string>)
    ensures DistinctCount(s) == |set x | x in s|
  {
    if s != [] {
      var k := |s| - 1;
      DistinctCountIsSetSize(s[..k]);
      var before := set x | x in s[..k];
      assert (set x | x in s) == before + {s[k]} by {
        assert s == s[..k] + [s[k]];
      }
    }
  }

  /** The distinct titles. */
  function UniqueTitles(titles: seq<string>): nat {
    DistinctCount(Normalized(titles))
  }

  /** The distinct companies. */
  function UniqueCompanies(companies: seq<string>): nat {
    DistinctCount(Stripped(companies))
  }

  const TitleSteps: seq<Step<Grade>> := [Step(3, Grade(30, Pass)), Step(1, Grade(15, Warning))]
  const NoTitles: Grade := Grade(0, Fail)
  const CompanySteps: seq<Step<Grade>> := [Step(2, Grade(25, Pass)), Step(1, Grade(15, Warning))]
  const NoCompanies: Grade := Grade(0, Fail)

  /** The job-title award for a number of distinct titles. */
  function TitleGrade(n: nat): Grade {
    Tier(n, TitleSteps, NoTitles)
  }

  /** The company award for a number of distinct companies. */
  function CompanyGrade(n: nat): Grade {
    Tier(n, CompanySteps, NoCompanies)
  }

  /** More distinct titles or companies never lower their award, which
      stays between 0 and the top tier's. */
  lemma GradesMonotone(m: nat, n: nat)
    requires m <= n
    ensures 0 <= TitleGrade(m).points <= TitleGrade(n).points <= 30
    ensures 0 <= CompanyGrade(m).points <= CompanyGrade(n).points <= 25
  {
    assert Descending(TitleSteps, NoTitles);
    assert Descending(CompanySteps, NoCompanies);
    TierMonotone(m, n, TitleSteps, NoTitles);
    TierMonotone(m, n, CompanySteps, NoCompanies);
    TierBounds(m, TitleSteps, NoTitles);
    TierBounds(n, TitleSteps, NoTitles);
    TierBounds(m, CompanySteps, NoCompanies);
    TierBounds(n, CompanySteps, NoCompanies);
  }

  /** The job-title sub-check, on the number of distinct titles. */
  method CheckTitles(n: nat) returns (f: Finding, points: int)
    ensures points == TitleGrade(n).points
    ensures f.kind == TitleGrade(n).kind
    ensures f.counts == (if n >= 1 then [n] else [])
  {
    Unroll(n, TitleSteps, NoTitles);
    if n >= 3 {
      points := 30;
      f := Finding(Pass, "titles-clear", [n], []);
    } else if n >= 1 {
      points := 15;
      f := Finding(Warning, "titles-some", [n], []);
    } else {
      points := 0;
      f := Note(Fail, "titles-missing");
    }
  }

  /** The company sub-check, on the number of distinct companies. */
  method CheckCompanies(n: nat) returns (f: Finding, points: int)
    ensures points == CompanyGrade(n).points
    ensures f.kind == CompanyGrade(n).kind
    ensures f.counts == (if n >= 2 then [n] else [])
  {
    Unroll(n, CompanySteps, NoCompanies);
    if n >= 2 {
      points := 25;
      f := Finding(Pass, "companies", [n], []);
    } else if n == 1 {
      points := 15;
      f := Note(Warning, "company-single");
    } else {
      points := 0;
      f := Note(Fail, "companies-missing");
    }
  }

  // ---------------------------------------------------------------------
  // The checker

  /** The sum of the six sub-check awards, given the two range counts,
      the numbers of distinct years, titles and companies, whether a
      current position is marked and whether a location was found. */
  function ExperiencePoints(full: nat, yearOnly: nat, years: nat, titles: nat, companies: nat, current: bool, location: bool): int {
    DateGrade(full, full + yearOnly).points
    + (if years >= 3 then 15 else 0)
    + TitleGrade(titles).points
    + CompanyGrade(companies).points
    + (if current then 10 else 0)
    + (if location then 5 else 0)
  }

  /** The six awards add up to at most 11.5 points, below the maximum of 12. */
  lemma ExperiencePointsBounds(full: nat, yearOnly: nat, years: nat, titles: nat, companies: nat, current: bool, location: bool)
    ensures 0 <= ExperiencePoints(full, yearOnly, years, titles, companies, current, location) <= 115
  {
    Unroll(full + yearOnly, RangeSteps, NoRanges);
    GradesMonotone(titles, titles);
  }

  /** The current-position sub-check. */
  method CheckCurrent(hasCurrent: bool) returns (f: Finding, points: int)
    ensures points == (if hasCurrent then 10 else 0)
    ensures f.kind == (if hasCurrent then Pass else Info)
  {
    if hasCurrent {
      points := 10;
      f := Note(Pass, "current-position");
    } else {
      points := 0;
      f := Note(Info, "current-position-missing");
    }
  }

  /** The work-location sub-check: a finding only when there is a match. */
  method CheckLocation(locations: nat) returns (fs: seq<Finding>, points: int)
    ensures points == (if locations > 0 then 5 else 0)
    ensures |fs| == (if locations > 0 then 1 else 0)
    ensures locations > 0 ==> fs[0].kind == Pass
  {
    if locations > 0 {
      points := 5;
      fs := [Note(Pass, "work-location")];
    } else {
      points := 0;
      fs := [];
    }
  }

  /** The scoring once the matches are counted: the two range counts, the
      sorted distinct years, the numbers of distinct titles and companies,
      the current-position flag and the number of location matches.  `y` is
      1 when a year finding is present. */
  method ScoreExperience(full: nat, yearOnly: nat, years: seq<int>, titles: nat, companies: nat, hasCurrent: bool, locations: nat)
    returns (r: CheckResult)
    ensures r.maxScore == 120
    ensures r.score == ExperiencePoints(full, yearOnly, |years|, titles, companies, hasCurrent, locations > 0)
    ensures 0 <= r.score <= 115
    ensures var y := if |years| >= 1 then 1 else 0;
      |r.findings| == 4 + y + (if locations > 0 then 1 else 0)
    ensures r.findings[0].kind == DateGrade(full, full + yearOnly).kind
    ensures var y := if |years| >= 1 then 1 else 0;
      r.findings[1 + y].kind == TitleGrade(titles).kind
    ensures var y := if |years| >= 1 then 1 else 0;
      r.findings[2 + y].kind == CompanyGrade(companies).kind
    ensures var y := if |years| >= 1 then 1 else 0;
      r.findings[3 + y].kind == (if hasCurrent then Pass else Info)
    ensures var y := if |years| >= 1 then 1 else 0;
      locations > 0 ==> r.findings[4 + y].kind == Pass
    ensures |years| >= 1 ==> r.findings[1] == YearFinding(years)
  {
    var score := 0;
    var maxScore := 120;

    var dateFinding, datePoints := CheckDates(full, yearOnly);
    score := score + datePoints;

    var yearFindings, yearPoints := CheckYears(years);
    score := score + yearPoints;

    var titleFinding, titlePoints := CheckTitles(titles);
    score := score + titlePoints;

    var companyFinding, companyPoints := CheckCompanies(companies);
    score := score + companyPoints;

    var currentFinding, currentPoints := CheckCurrent(hasCurrent);
    score := score + currentPoints;

    var locationFindings, locationPoints := CheckLocation(locations);
    score := score + locationPoints;

    var findings := [dateFinding] + yearFindings + [titleFinding, companyFinding, currentFinding] + locationFindings;
    ghost var y := |yearFindings|;
    assert findings[0] == dateFinding;
    assert y == 1 ==> findings[1] == yearFindings[0];
    assert findings[1 + y] == titleFinding && findings[2 + y] == companyFinding && findings[3 + y] == currentFinding;
    assert |locationFindings| == 1 ==> findings[4 + y] == locationFindings[0];

    ExperiencePointsBounds(full, yearOnly, |years|, titles, companies, hasCurrent, locations > 0);
    r := CheckResult(Clamp(score, maxScore), maxScore, findings);
  }

  /** `check_work_experience`: the years are sorted and made distinct, the
      titles lower-cased, stripped and made distinct, the companies stripped
      and made distinct, and the counts scored. */
  method CheckWorkExperience(sig: ExperienceSignals, text: string) returns (r: CheckResult)
    ensures r.maxScore == 120
    ensures r.score == ExperiencePoints(sig.fullRanges, sig.yearOnlyRanges, |SortedSet(YearsIn(text))|,
      UniqueTitles(sig.titles), UniqueCompanies(sig.companies), sig.hasCurrent, sig.locations > 0)
    ensures 0 <= r.score <= 115
    ensures var y := if |SortedSet(YearsIn(text))| >= 1 then 1 else 0;
      |r.findings| == 4 + y + (if sig.locations > 0 then 1 else 0)
    ensures r.findings[0].kind == DateGrade(sig.fullRanges, sig.fullRanges + sig.yearOnlyRanges).kind
    ensures var y := if |SortedSet(YearsIn(text))| >= 1 then 1 else 0;
      r.findings[1 + y].kind == TitleGrade(UniqueTitles(sig.titles)).kind
    ensures var y := if |SortedSet(YearsIn(text))| >= 1 then 1 else 0;
      r.findings[2 + y].kind == CompanyGrade(UniqueCompanies(sig.companies)).kind
    ensures var y := if |SortedSet(YearsIn(text))| >= 1 then 1 else 0;
      r.findings[3 + y].kind == (if sig.hasCurrent then Pass else Info)
    ensures var y := if |SortedSet(YearsIn(text))| >= 1 then 1 else 0;
      sig.locations > 0 ==> r.findings[4 + y].kind == Pass
    ensures |SortedSet(YearsIn(text))| >= 1 ==> r.findings[1] == YearFinding(SortedSet(YearsIn(text)))
  {
    var years := SortedSet(YearsIn(text));
    var titles := UniqueTitles(sig.titles);
    var companies := UniqueCompanies(sig.companies);
    r := ScoreExperience(sig.fullRanges, sig.yearOnlyRanges, years, titles, companies, sig.hasCurrent, sig.locations);
  }
}
