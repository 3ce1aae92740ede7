/** `analyze_resume`: the twelve checks, the category list with its
    percentages, the overall score and the percentages dampened by the
    resume confidence, the verdict, the tips and the summary counts. */
module Analysis {
  import opened Text
  import opened Scoring
  import opened Confidence
  import opened Tips
  import Catalog
  import Years
  import Matching
  import Contact
  import Sections
  import Experience
  import Education
  import Formatting
  import Compatibility
  import Verbs
  import Results
  import Skills
  import Readability
  import Consistency
  import Keywords

  // ---------------------------------------------------------------------
  // The checks

  /** The category names, in the order the checks run. */
  const CheckNames: seq<string> := ["Contact Information", "Resume Sections", "Work Experience", "Education",
    "Formatting & Structure", "ATS Compatibility", "Action Verbs", "Measurable Results", "Hard Skills",
    "Readability", "Writing Consistency", "Keyword Optimization"]

  /** What the parser and the regex searches supply: the text, the page
      count and file extension, and each checker's search results. */
  datatype Inputs = Inputs(
    text: string,
    numPages: int,
    fileExt: string,
    confidence: ConfidenceSignals,
    contact: Contact.ContactSignals,
    experience: Experience.ExperienceSignals,
    education: Education.EducationSignals,
    formatting: Formatting.FormattingSignals,
    compatibility: Compatibility.CompatibilitySignals,
    results: Results.ResultsSignals)

  /** Every score lies between 0 and its maximum. */
  predicate InRange(results: seq<CheckResult>) {
    forall i :: 0 <= i < |results| ==> 0 <= results[i].score <= results[i].maxScore
  }

  /** A check result with the given maximum and a score within it. */
  predicate Fits(r: CheckResult, maxScore: int) {
    r.maxScore == maxScore && 0 <= r.score <= maxScore
  }

  /** The maximum of each check, in the order of `CheckNames`. */
  predicate CheckMaxima(results: seq<CheckResult>)
    requires |results| == 12
  {
    && results[0].maxScore == 120 && results[1].maxScore == 150 && results[2].maxScore == 120
    && results[3].maxScore == 100 && results[4].maxScore == 130 && results[5].maxScore == 80
    && results[6].maxScore == 100 && results[7].maxScore == 100 && results[8].maxScore == 120
    && results[9].maxScore == 80 && results[10].maxScore == 70 && results[11].maxScore == 100
  }

  /** The scores the contact, sections, work experience and education
      checkers give for these inputs. */
  predicate FirstScores(input: Inputs, contact: int, sections: int, experience: int, education: int) {
    var c := input.contact;
    var e := input.experience;
    var d := input.education;
    var f := Sections.Detect(Lower(input.text), Sections.Critical, Sections.Important, Sections.Bonus);
    && contact == (if c.email.Some? then 30 else 0) + (if c.phone then 30 else 0)
      + (if Contact.Matched(c.linkedin) then 20 else 0)
      + (if Contact.Matched(c.github) || c.website then 20 else 0)
      + (if c.location then 20 else 0)
    && sections == Clamp(Sections.Unclamped(f, Sections.Critical, Sections.Important, Sections.Bonus), 150)
    && experience == Experience.ExperiencePoints(e.fullRanges, e.yearOnlyRanges,
      |Years.SortedSet(Years.YearsIn(input.text))|, Experience.UniqueTitles(e.titles),
      Experience.UniqueCompanies(e.companies), e.hasCurrent, e.locations > 0)
    && education == Education.EducationPoints(Education.KeepMatched(Education.DegreeNames, d.degreeMatches) != [],
      d.fields > 0, d.institutionKeywords + d.namedInstitutions > 0,
      Years.YearsIn(Education.GradWindow(input.text, d.educationStart)) != [], d.gpa || d.honors > 0)
  }

  /** The score the formatting checker gives for these inputs. */
  predicate FormattingScore(input: Inputs, formatting: int) {
    var lines := Formatting.ContentLines(input.text);
    formatting == Formatting.FormattingPoints(input.numPages, |Words(input.text)|, Count(lines, Formatting.IsBulletLine),
      |lines|, Years.YearsIn(input.text) != [], input.formatting.monthNames > 0,
      Count(lines, Formatting.IsLongLine), Count(lines, Formatting.IsCapsLine))
  }

  /** The score the action verb checker gives for this text. */
  predicate VerbsScore(text: string, verbs: int) {
    var found := Matching.FoundGroups(Catalog.ActionVerbs, Lower(text), Matching.WordStart);
    verbs == Verbs.VerbPoints(|Catalog.Flatten(found)|, Found(Lower(text), Catalog.WeakVerbs) != [])
  }

  /** The scores the formatting, ATS compatibility, action verb and
      measurable result checkers give for these inputs. */
  predicate SecondScores(input: Inputs, formatting: int, compatibility: int, verbs: int, measurable: int) {
    var text := input.text;
    && FormattingScore(input, formatting)
    && compatibility == Compatibility.CompatibilityPoints(input.fileExt,
      |Compatibility.PresentChars(Catalog.AtsUnfriendlyChars, text)|,
      Found(Lower(text), Compatibility.HeaderFooterWords) != [],
      input.compatibility.tableIndicators, input.compatibility.imageIndicators)
    && VerbsScore(text, verbs)
    && measurable == Results.ResultGrade(Results.MatchTotal(Results.MetricClasses(input.results))).points
  }

  /** The score the hard skill checker gives for this text. */
  predicate SkillsScore(text: string, skills: int) {
    skills == Skills.SkillGrade(|Catalog.Flatten(Matching.FoundGroups(Catalog.HardSkills, Lower(text),
      Matching.Substring))|).points
  }

  /** The score the readability checker gives for this text: 40 when there
      is no sentence to analyse. */
  predicate ReadabilityScore(text: string, readability: int) {
    var sentences := Readability.TextSentences(text);
    var counts := Readability.WordCounts(sentences);
    readability == (if sentences == [] then 40
      else Readability.ReadabilityPoints(Readability.Sum(counts), |sentences|, Count(counts, Readability.IsLongSentence),
        Count(Words(Lower(text)), Readability.IsComplexWord), |Words(Lower(text))|,
        Count(Readability.Paragraphs(text), Readability.IsDenseParagraph)))
  }

  /** The score the consistency checker gives for this text. */
  predicate ConsistencyScore(text: string, consistency: int) {
    consistency == Consistency.ConsistencyPoints(Consistency.PastTenseCount(text),
      Consistency.PresentTenseCount(text, Consistency.PresentVerbs),
      Consistency.FirstPersonCount(text, Consistency.FirstPersonWords),
      Consistency.MixedPairs(Consistency.AbbreviationPairs, Lower(text)) != [])
  }

  /** The score the keyword checker gives for this text. */
  predicate KeywordsScore(text: string, keywords: int) {
    keywords == Keywords.KeywordGrade(|Keywords.FoundKeywords(Catalog.Flatten(Catalog.HardSkills)
      + Catalog.Flatten(Catalog.SoftSkills), Lower(text))|).points
  }

  /** The scores the hard skill, readability, consistency and keyword
      checkers give for these inputs. */
  predicate ThirdScores(input: Inputs, skills: int, readability: int, consistency: int, keywords: int) {
    && SkillsScore(input.text, skills) && ReadabilityScore(input.text, readability)
    && ConsistencyScore(input.text, consistency) && KeywordsScore(input.text, keywords)
  }

  /** `s, m, findings = fn()` for the twelve entries of `checks`, in order
      (run in three groups of four to keep each proof small). */
  method RunChecks(input: Inputs) returns (results: seq<CheckResult>)
    ensures |results| == 12
    ensures CheckMaxima(results)
    ensures InRange(results)
    ensures TotalMax(results) == 1270
  {
    var contact, sections, experience, education := RunFirstChecks(input);
    var formatting, compatibility, verbs, measurable := RunSecondChecks(input);
    var skills, readability, consistency, keywords := RunThirdChecks(input);
    results := Assemble(contact, sections, experience, education, formatting, compatibility,
      verbs, measurable, skills, readability, consistency, keywords);
  }

  /** The list of the twelve results: each in range of its own maximum,
      the maxima adding up to 127 points. */
  function Assemble(c0: CheckResult, c1: CheckResult, c2: CheckResult, c3: CheckResult, c4: CheckResult,
    c5: CheckResult, c6: CheckResult, c7: CheckResult, c8: CheckResult, c9: CheckResult,
    c10: CheckResult, c11: CheckResult): (results: seq<CheckResult>)
    requires Fits(c0, 120) && Fits(c1, 150) && Fits(c2, 120) && Fits(c3, 100)
    requires Fits(c4, 130) && Fits(c5, 80) && Fits(c6, 100) && Fits(c7, 100)
    requires Fits(c8, 120) && Fits(c9, 80) && Fits(c10, 70) && Fits(c11, 100)
    ensures results == [c0, c1, c2, c3, c4, c5, c6, c7, c8, c9, c10, c11]
    ensures CheckMaxima(results) && InRange(results) && TotalMax(results) == 1270
  {
    var results := [c0, c1, c2, c3, c4, c5, c6, c7, c8, c9, c10, c11];
    MaxTotal(results);
    results
  }

  /** Contact information, sections, work experience and education. */
  method RunFirstChecks(input: Inputs) returns (contact: CheckResult, sections: CheckResult,
    experience: CheckResult, education: CheckResult)
    ensures Fits(contact, 120) && Fits(sections, 150) && Fits(experience, 120) && Fits(education, 100)
    ensures FirstScores(input, contact.score, sections.score, experience.score, education.score)
  {
    contact := Contact.CheckContactInfo(input.contact);
    sections := Sections.CheckSections(Lower(input.text));
    experience := Experience.CheckWorkExperience(input.experience, input.text);
    education := Education.CheckEducation(input.education, input.text);
  }

  /** Formatting, ATS compatibility, action verbs and measurable results. */
  method RunSecondChecks(input: Inputs) returns (formatting: CheckResult, compatibility: CheckResult,
    verbs: CheckResult, measurable: CheckResult)
    ensures Fits(formatting, 130) && Fits(compatibility, 80) && Fits(verbs, 100) && Fits(measurable, 100)
    ensures SecondScores(input, formatting.score, compatibility.score, verbs.score, measurable.score)
  {
    formatting := RunFormattingCheck(input);
    compatibility := Compatibility.CheckAtsCompatibility(input.text, input.fileExt, input.compatibility);
    verbs := RunVerbCheck(input.text);
    measurable := Results.CheckMeasurableResults(input.results, Lower(input.text));
  }

  /** `check_formatting(text, num_pages)`. */
  method RunFormattingCheck(input: Inputs) returns (formatting: CheckResult)
    ensures Fits(formatting, 130) && FormattingScore(input, formatting.score)
  {
    formatting := Formatting.CheckFormatting(input.text, input.numPages, input.formatting);
  }

  /** `check_action_verbs(text_lower)`. */
  method RunVerbCheck(text: string) returns (verbs: CheckResult)
    ensures Fits(verbs, 100) && VerbsScore(text, verbs.score)
  {
    verbs := Verbs.CheckActionVerbs(Lower(text));
  }

  /** Hard skills, readability, writing consistency and keywords. */
  method RunThirdChecks(input: Inputs) returns (skills: CheckResult, readability: CheckResult,
    consistency: CheckResult, keywords: CheckResult)
    ensures Fits(skills, 120) && Fits(readability, 80) && Fits(consistency, 70) && Fits(keywords, 100)
    ensures ThirdScores(input, skills.score, readability.score, consistency.score, keywords.score)
  {
    skills := RunSkillsCheck(input.text);
    readability := RunReadabilityCheck(input.text);
    consistency := RunConsistencyCheck(input.text);
    keywords := RunKeywordCheck(input.text);
  }

  /** `check_hard_skills(text_lower)`. */
  method RunSkillsCheck(text: string) returns (skills: CheckResult)
    ensures Fits(skills, 120) && SkillsScore(text, skills.score)
  {
    skills := Skills.CheckHardSkills(Lower(text));
  }

  /** `check_readability(text)`. */
  method RunReadabilityCheck(text: string) returns (readability: CheckResult)
    ensures Fits(readability, 80) && ReadabilityScore(text, readability.score)
  {
    readability := Readability.CheckReadability(text);
  }

  /** `check_consistency(text)`. */
  method RunConsistencyCheck(text: string) returns (consistency: CheckResult)
    ensures Fits(consistency, 70) && ConsistencyScore(text, consistency.score)
  {
    consistency := Consistency.CheckConsistency(text);
  }

  /** `check_keyword_optimization(text_lower)`, the found-keyword set
      iterated in the order the keywords are first listed. */
  method RunKeywordCheck(text: string) returns (keywords: CheckResult)
    ensures Fits(keywords, 100) && KeywordsScore(text, keywords.score)
  {
    var textLower := Lower(text);
    var order := Keywords.FoundKeywords(Catalog.Flatten(Catalog.HardSkills) + Catalog.Flatten(Catalog.SoftSkills), textLower);
    keywords := Keywords.CheckKeywordOptimization(textLower, order);
    Keywords.KeywordGradeMonotone(|order|, |order|);
  }

  // ---------------------------------------------------------------------
  // The category list

  /** `sum(s)` over the checks. */
  function TotalScore(results: seq<CheckResult>): int {
    if results == [] then 0 else TotalScore(results[..|results| - 1]) + results[|results| - 1].score
  }

  /** `sum(m)` over the checks. */
  function TotalMax(results: seq<CheckResult>): int {
    if results == [] then 0 else TotalMax(results[..|results| - 1]) + results[|results| - 1].maxScore
  }

  /** With every score in range, so is the total. */
  lemma {:induction false} TotalsInRange(results: seq<CheckResult>)
    requires InRange(results)
    ensures 0 <= TotalScore(results) <= TotalMax(results)
  {
    if results != [] {
      var n := |results| - 1;
      assert forall i :: 0 <= i < n ==> results[..n][i] == results[i];
      TotalsInRange(results[..n]);
    }
  }

  /** The twelve maxima add up to 127 points. */
  lemma MaxTotal(results: seq<CheckResult>)
    requires |results| == 12 && CheckMaxima(results)
    ensures TotalMax(results) == 1270
  {
    assert TotalMax(results) == TotalMax(results[..11]) + 100;
    assert TotalMax(results[..11]) == TotalMax(results[..10]) + 70 by { assert results[..11][..10] == results[..10]; }
    assert TotalMax(results[..10]) == TotalMax(results[..9]) + 80 by { assert results[..10][..9] == results[..9]; }
    assert TotalMax(results[..9]) == TotalMax(results[..8]) + 120 by { assert results[..9][..8] == results[..8]; }
    assert TotalMax(results[..8]) == TotalMax(results[..7]) + 100 by { assert results[..8][..7] == results[..7]; }
    assert TotalMax(results[..7]) == TotalMax(results[..6]) + 100 by { assert results[..7][..6] == results[..6]; }
    assert TotalMax(results[..6]) == TotalMax(results[..5]) + 80 by { assert results[..6][..5] == results[..5]; }
    assert TotalMax(results[..5]) == TotalMax(results[..4]) + 130 by { assert results[..5][..4] == results[..4]; }
    assert TotalMax(results[..4]) == TotalMax(results[..3]) + 100 by { assert results[..4][..3] == results[..3]; }
    assert TotalMax(results[..3]) == TotalMax(results[..2]) + 120 by { assert results[..3][..2] == results[..2]; }
    assert TotalMax(results[..2]) == TotalMax(results[..1]) + 150 by { assert results[..2][..1] == results[..1]; }
    assert TotalMax(results[..1]) == 120 by { assert results[..1][..0] == []; }
  }

  /** One category entry: the check's name, score, maximum, percentage
      and findings. */
  function CategoryOf(name: string, r: CheckResult): (c: Category)
    ensures 0 <= r.score <= r.maxScore ==> 0 <= c.percentage <= 100
  {
    assert 0 <= r.score <= r.maxScore ==> 0 <= Percent(r.score, r.maxScore) <= 100 by {
      if 0 <= r.score <= r.maxScore {
        PercentInRange(r.score, r.maxScore);
      }
    }
    Category(name, r.score, r.maxScore, Percent(r.score, r.maxScore), r.findings)
  }

  /** The entries for the checks, in their order. */
  function Categories(names: seq<string>, results: seq<CheckResult>): (cs: seq<Category>)
    requires |names| == |results|
    ensures |cs| == |results|
  {
    if results == [] then []
    else
      var n := |results| - 1;
      Categories(names[..n], results[..n]) + [CategoryOf(names[n], results[n])]
  }

  /** Entry `i` is the category of check `i`. */
  lemma {:induction false} CategoriesAt(names: seq<string>, results: seq<CheckResult>, i: nat)
    requires |names| == |results| && i < |results|
    ensures Categories(names, results)[i] == CategoryOf(names[i], results[i])
    decreases |results|
  {
    var n := |results| - 1;
    if i < n {
      CategoriesAt(names[..n], results[..n], i);
    }
  }

  /** The loop over `checks`: the totals and the category list. */
  method Tally(names: seq<string>, results: seq<CheckResult>)
    returns (totalScore: int, totalMax: int, categories: seq<Category>)
    requires |names| == |results|
    ensures totalScore == TotalScore(results) && totalMax == TotalMax(results)
    ensures categories == Categories(names, results)
  {
    totalScore, totalMax, categories := 0, 0, [];
    var i := 0;
    while i < |results|
      invariant 0 <= i <= |results|
      invariant totalScore == TotalScore(results[..i]) && totalMax == TotalMax(results[..i])
      invariant categories == Categories(names[..i], results[..i])
    {
      assert results[..i + 1][..i] == results[..i];
      assert names[..i + 1][..i] == names[..i];
      var r := results[i];
      totalScore := totalScore + r.score;
      totalMax := totalMax + r.maxScore;
      categories := categories + [CategoryOf(names[i], r)];
      i := i + 1;
    }
    assert results[..i] == results && names[..i] == names;
  }

  // ---------------------------------------------------------------------
  // Dampening by confidence

  /** The three confidence thresholds, for any signal total. */
  lemma ConfidenceBands(halves: nat)
    ensures Confidence.Confidence(halves) < 0.3 <==> halves < 6
    ensures Confidence.Confidence(halves) < 0.5 <==> halves < 10
    ensures Confidence.Confidence(halves) < 0.7 <==> halves < 14
  {
    if halves <= 20 {
      ConfidenceThresholds(halves);
    }
  }

  /** The factor for a confidence: 0.4 below 0.3, 0.65 below 0.5, 0.85
      below 0.7, else 1. */
  function Factor(c: real): real {
    if c < 0.3 then 0.4 else if c < 0.5 then 0.65 else if c < 0.7 then 0.85 else 1.0
  }

  /** `round(p * factor)` for the confidence of a signal total given in
      halves: the whole number nearest to the scaled value, never above a
      non-negative `p` and never below 0. */
  function Dampen(p: int, halves: nat): (r: int)
    ensures 2.0 * (p as real * Factor(Confidence.Confidence(halves)) - r as real) <= 1.0
    ensures 2.0 * (r as real - p as real * Factor(Confidence.Confidence(halves))) <= 1.0
    ensures 0 <= p ==> 0 <= r <= p
  {
    ConfidenceBands(halves);
    if halves < 6 then RoundHalfEven(4 * p, 10)
    else if halves < 10 then RoundHalfEven(65 * p, 100)
    else if halves < 14 then RoundHalfEven(85 * p, 100)
    else p
  }

  lemma RoundTenths(p: int)
    ensures RoundHalfEven(40 * p, 100) == RoundHalfEven(4 * p, 10)
  {
    var r := RoundHalfEven(4 * p, 10);
    RoundHalfEvenUnique(40 * p, 100, r);
  }

  /** More confidence never dampens more. */
  lemma DampenMonotone(p: int, h1: nat, h2: nat)
    requires 0 <= p && h1 <= h2
    ensures Dampen(p, h1) <= Dampen(p, h2)
  {
    RoundTenths(p);
    RoundHalfEvenMonotone(40 * p, 65 * p, 100);
    RoundHalfEvenMonotone(65 * p, 85 * p, 100);
    RoundHalfEvenMonotone(40 * p, 85 * p, 100);
  }

  /** With a confidence of 0.7 or more nothing is dampened. */
  lemma DampenConfident(p: int, halves: nat)
    requires halves >= 14
    ensures Dampen(p, halves) == p
  {
  }

  /** The loop that rewrites each category's percentage (it runs only when
      the confidence is below 0.7).  Nothing but the percentage changes. */
  method DampenCategories(categories: seq<Category>, halves: nat) returns (r: seq<Category>)
    ensures |r| == |categories|
    ensures forall i :: 0 <= i < |r| ==> r[i] == categories[i].(percentage := Dampen(categories[i].percentage, halves))
  {
    r := categories;
    if halves < 14 {
      var i := 0;
      while i < |r|
        invariant 0 <= i <= |r| == |categories|
        invariant forall j :: 0 <= j < i ==> r[j] == categories[j].(percentage := Dampen(categories[j].percentage, halves))
        invariant forall j :: i <= j < |r| ==> r[j] == categories[j]
      {
        r := r[i := r[i].(percentage := Dampen(r[i].percentage, halves))];
        i := i + 1;
      }
    }
  }

  // ---------------------------------------------------------------------
  // Verdict

  datatype Verdict = NotAResume | FewSignals | Excellent | Good | Decent | BelowAverage | NeedsWork

  /** The verdict for a confidence given in halves and the overall score:
      the two low-confidence messages whatever the score, then the score
      bands at 85, 70, 55 and 40. */
  function VerdictOf(halves: nat, overall: int): (v: Verdict)
    ensures Confidence.Confidence(halves) < 0.3 ==> v == NotAResume
    ensures 0.3 <= Confidence.Confidence(halves) < 0.5 ==> v == FewSignals
    ensures 0.5 <= Confidence.Confidence(halves) ==> (v == Excellent <==> overall >= 85)
    ensures 0.5 <= Confidence.Confidence(halves) ==> (v == Good <==> 70 <= overall < 85)
    ensures 0.5 <= Confidence.Confidence(halves) ==> (v == Decent <==> 55 <= overall < 70)
    ensures 0.5 <= Confidence.Confidence(halves) ==> (v == BelowAverage <==> 40 <= overall < 55)
    ensures 0.5 <= Confidence.Confidence(halves) ==> (v == NeedsWork <==> overall < 40)
  {
    ConfidenceBands(halves);
    if halves < 6 then NotAResume
    else if halves < 10 then FewSignals
    else if overall >= 85 then Excellent
    else if overall >= 70 then Good
    else if overall >= 55 then Decent
    else if overall >= 40 then BelowAverage
    else NeedsWork
  }

  /** How good a score verdict is. */
  function Standing(v: Verdict): nat {
    match v
    case Excellent => 4
    case Good => 3
    case Decent => 2
    case BelowAverage => 1
    case _ => 0
  }

  /** With enough confidence a higher overall score never gets a worse
      verdict. */
  lemma VerdictMonotone(halves: nat, o1: int, o2: int)
    requires halves >= 10 && o1 <= o2
    ensures Standing(VerdictOf(halves, o1)) <= Standing(VerdictOf(halves, o2))
  {
  }

  // ---------------------------------------------------------------------
  // Summary counts

  datatype Stats = Stats(totalChecks: nat, passed: nat, warnings: nat, failed: nat)

  /** `sum(len(c["findings"]) for c in categories)` */
  function TotalFindings(cs: seq<Category>): nat {
    if cs == [] then 0 else TotalFindings(cs[..|cs| - 1]) + |cs[|cs| - 1].findings|
  }

  /** The number of findings of one type over all categories. */
  function KindTotal(cs: seq<Category>, k: Kind): nat {
    if cs == [] then 0 else KindTotal(cs[..|cs| - 1], k) + CountKind(cs[|cs| - 1].findings, k)
  }

  /** Every finding has one of the four types. */
  lemma {:induction false} KindTotalsSum(cs: seq<Category>)
    ensures KindTotal(cs, Pass) + KindTotal(cs, Warning) + KindTotal(cs, Fail) + KindTotal(cs, Info) == TotalFindings(cs)
  {
    if cs != [] {
      KindTotalsSum(cs[..|cs| - 1]);
      CountKindsSum(cs[|cs| - 1].findings);
    }
  }

  /** `summary_stats`: the passes, warnings and failures are all the
      findings except the information ones. */
  function SummaryStats(cs: seq<Category>): (s: Stats)
    ensures s.passed + s.warnings + s.failed + KindTotal(cs, Info) == s.totalChecks
  {
    KindTotalsSum(cs);
    Stats(TotalFindings(cs), KindTotal(cs, Pass), KindTotal(cs, Warning), KindTotal(cs, Fail))
  }

  /** The counts read only the findings. */
  lemma {:induction false} StatsOfFindings(a: seq<Category>, b: seq<Category>)
    requires |a| == |b|
    requires forall i :: 0 <= i < |a| ==> a[i].findings == b[i].findings
    ensures SummaryStats(a) == SummaryStats(b)
  {
    if a != [] {
      var n := |a| - 1;
      assert forall i :: 0 <= i < n ==> a[..n][i] == a[i] && b[..n][i] == b[i];
      StatsOfFindings(a[..n], b[..n]);
    }
  }

  // ---------------------------------------------------------------------
  // analyze_resume

  /** The returned report: overall score, verdict, categories, tips,
      counts, and the earned and possible totals (tenths). */
  datatype Report = Report(overall: int, verdict: Verdict, categories: seq<Category>, tips: seq<Tip>,
    stats: Stats, totalEarned: int, totalPossible: int)

  /** Everything after the checks have run, for checks with the given
      names and results and a confidence of `halves / 20`. */
  method Summarize(names: seq<string>, results: seq<CheckResult>, halves: nat) returns (rep: Report)
    requires |names| == |results|
    ensures rep.totalEarned == TotalScore(results) && rep.totalPossible == TotalMax(results)
    ensures rep.overall == Dampen(Percent(TotalScore(results), TotalMax(results)), halves)
    ensures InRange(results) ==> 0 <= rep.overall <= Percent(TotalScore(results), TotalMax(results)) <= 100
    ensures |rep.categories| == |results|
    ensures forall i :: 0 <= i < |results| ==> rep.categories[i].name == names[i]
    ensures forall i :: 0 <= i < |results| ==> rep.categories[i].score == results[i].score
    ensures forall i :: 0 <= i < |results| ==> rep.categories[i].maxScore == results[i].maxScore
    ensures forall i :: 0 <= i < |results| ==> rep.categories[i].findings == results[i].findings
    ensures forall i :: 0 <= i < |results| ==>
      rep.categories[i].percentage == Dampen(Percent(results[i].score, results[i].maxScore), halves)
    ensures rep.verdict == VerdictOf(halves, rep.overall)
    ensures rep.tips == FirstEight(PrioritySort(Generated(rep.categories, rep.overall)))
    ensures |rep.tips| <= 8 && Ranked(rep.tips)
    ensures rep.stats == SummaryStats(rep.categories)
  {
    var totalScore, totalMax, categories := Tally(names, results);
    var rawOverall := Percent(totalScore, totalMax);
    var overall := Dampen(rawOverall, halves);
    if InRange(results) {
      TotalsInRange(results);
      PercentInRange(totalScore, totalMax);
    }

    categories := DampenCategories(categories, halves);
    forall i | 0 <= i < |results|
      ensures categories[i].name == names[i] && categories[i].score == results[i].score
      ensures categories[i].maxScore == results[i].maxScore && categories[i].findings == results[i].findings
      ensures categories[i].percentage == Dampen(Percent(results[i].score, results[i].maxScore), halves)
    {
      CategoriesAt(names, results, i);
    }

    var verdict := VerdictOf(halves, overall);
    var tips := GenerateTips(categories, overall);
    var stats := SummaryStats(categories);
    rep := Report(overall, verdict, categories, tips, stats, totalScore, totalMax);
  }

  /** The signal total the confidence scan finds, in halves. */
  function ResumeHalves(input: Inputs): (halves: nat)
    ensures halves <= 20
  {
    var lines := SplitChar(Lower(input.text), '\n');
    SignalHalvesBounds(input.confidence, HeadingLines(lines, ResumeHeadings), Count(lines, IsBulletLine));
    SignalHalves(input.confidence, HeadingLines(lines, ResumeHeadings), Count(lines, IsBulletLine))
  }

  /** `analyze_resume(text, num_pages, file_ext)`: the overall score is the
      earned share of the 127 points, dampened by the resume confidence,
      and every category percentage is dampened the same way. */
  method AnalyzeResume(input: Inputs) returns (rep: Report)
    ensures 0 <= rep.totalEarned <= rep.totalPossible == 1270
    ensures rep.overall == Dampen(Percent(rep.totalEarned, 1270), ResumeHalves(input))
    ensures 0 <= rep.overall <= Percent(rep.totalEarned, 1270) <= 100
    ensures |rep.categories| == 12
    ensures forall i :: 0 <= i < 12 ==> rep.categories[i].name == CheckNames[i]
    ensures forall i :: 0 <= i < 12 ==> 0 <= rep.categories[i].score <= rep.categories[i].maxScore
    ensures forall i :: 0 <= i < 12 ==>
      rep.categories[i].percentage == Dampen(Percent(rep.categories[i].score, rep.categories[i].maxScore), ResumeHalves(input))
    ensures rep.verdict == VerdictOf(ResumeHalves(input), rep.overall)
    ensures rep.tips == FirstEight(PrioritySort(Generated(rep.categories, rep.overall)))
    ensures |rep.tips| <= 8 && Ranked(rep.tips)
    ensures rep.stats == SummaryStats(rep.categories)
    ensures rep.stats.passed + rep.stats.warnings + rep.stats.failed <= rep.stats.totalChecks
  {
    var halves := ResumeConfidence(input.confidence, Lower(input.text));
    var results := RunChecks(input);
    TotalsInRange(results);
    rep := Summarize(CheckNames, results, halves);
  }
}
