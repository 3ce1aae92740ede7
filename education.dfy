/** `check_education`: degree, field of study, institution, graduation year
    and GPA or honors, 10 points in all (100 tenths). */
module Education {
  import opened Text
  import opened Scoring
  import opened Years

  /** The keys of the degree-pattern dictionary as the literal writes them:
      "MBA" three times, with the same pattern each time. */
  const DegreeEntries: seq<string> := ["Doctorate/PhD", "Master's", "Bachelor's", "Associate's", "Diploma",
    "MS", "MBA", "MEng", "MTECH", "MBA", "MBA"]

  /** The dictionary's keys in iteration order: a repeated key keeps the
      place of its first occurrence. */
  const DegreeNames: seq<string> := Dedup(DegreeEntries)

  /** What the regex searches report: the degree names whose pattern
      matches, the numbers of field-of-study matches, of institution-keyword
      matches and of named institutions, the start of the first
      education/academic/qualification word in the lower-cased text, a GPA
      match, and the number of honors matches. */
  datatype EducationSignals = EducationSignals(
    degreeMatches: set<string>,
    fields: nat,
    institutionKeywords: nat,
    namedInstitutions: nat,
    educationStart: Option<nat>,
    gpa: bool,
    honors: nat)

  /** The nine degree names, each once, in the order the literal first
      writes them. */
  lemma DegreeNamesOrder()
    ensures DegreeNames == ["Doctorate/PhD", "Master's", "Bachelor's", "Associate's", "Diploma", "MS", "MBA", "MEng", "MTECH"]
    ensures Distinct(DegreeNames)
  {
    var nine := ["Doctorate/PhD", "Master's", "Bachelor's", "Associate's", "Diploma", "MS", "MBA", "MEng", "MTECH"];
    NamesOfDistinctLengths(nine);
    DedupDistinct(nine);
    assert nine[6] == "MBA";
    DedupRepeat(nine, "MBA");
    DedupRepeat(nine + ["MBA"], "MBA");
    assert DegreeEntries == nine + ["MBA"] + ["MBA"];
  }

  /** Nine names of nine different lengths are nine different names. */
  lemma NamesOfDistinctLengths(nine: seq<string>)
    requires nine == ["Doctorate/PhD", "Master's", "Bachelor's", "Associate's", "Diploma", "MS", "MBA", "MEng", "MTECH"]
    ensures Distinct(nine)
  {
    assert forall i, j :: 0 <= i < j < |nine| ==> |nine[i]| != |nine[j]|;
  }

  /** `[name for name in names if name matched]`, in table order. */
  function KeepMatched(names: seq<string>, matched: set<string>): (r: seq<string>)
    ensures |r| <= |names|
    ensures forall i :: 0 <= i < |r| ==> r[i] in matched && r[i] in names
    ensures forall i :: 0 <= i < |names| && names[i] in matched ==> names[i] in r
  {
    if names == [] then []
    else
      var n := |names| - 1;
      KeepMatched(names[..n], matched) + (if names[n] in matched then [names[n]] else [])
  }

  /** Keeping some of a list without repeats leaves no repeats. */
  lemma {:induction false} KeepMatchedDistinct(names: seq<string>, matched: set<string>)
    requires Distinct(names)
    ensures Distinct(KeepMatched(names, matched))
  {
    if names != [] {
      var n := |names| - 1;
      assert Distinct(names[..n]);
      KeepMatchedDistinct(names[..n], matched);
      var before := KeepMatched(names[..n], matched);
      if names[n] in matched {
        assert names[n] !in before;
        assert KeepMatched(names, matched) == before + [names[n]];
      }
    }
  }

  /** The degree loop: each degree whose pattern matched, in table order. */
  method FindDegrees(names: seq<string>, matched: set<string>) returns (found: seq<string>)
    ensures found == KeepMatched(names, matched)
  {
    found := [];
    var i := 0;
    while i < |names|
      invariant 0 <= i <= |names|
      invariant found == KeepMatched(names[..i], matched)
    {
      assert names[..i + 1][..i] == names[..i];
      if names[i] in matched {
        found := found + [names[i]];
      }
      i := i + 1;
    }
    assert names[..i] == names;
  }

  /** Each degree is listed at most once, "MBA" included. */
  lemma DegreesOnce(matched: set<string>)
    ensures Distinct(KeepMatched(DegreeNames, matched))
    ensures "MBA" in matched <==> "MBA" in KeepMatched(DegreeNames, matched)
  {
    DegreeNamesOrder();
    KeepMatchedDistinct(DegreeNames, matched);
    assert DegreeNames[6] == "MBA";
  }

  /** The text the graduation years are searched in: the 800 characters
      from the start of the first education word, or, when there is none
      (or that slice is empty), the last 600 characters. */
  function GradWindow(text: string, start: Option<nat>): (w: string)
    ensures |w| <= 800
    ensures start.Some? && start.value < |text| ==>
      w == text[start.value..if start.value + 800 <= |text| then start.value + 800 else |text|]
    ensures start.None? || start.value >= |text| ==> w == Suffix(text, 600)
  {
    var section := if start.Some? then Slice(text, start.value, start.value + 800) else [];
    if section != [] then section else Suffix(text, 600)
  }

  /** The degree finding: the degrees found, or a failure. */
  function DegreeFinding(found: seq<string>): (f: Finding)
    ensures f.kind == (if found != [] then Pass else Fail)
    ensures found != [] ==> f.items == found
  {
    if found != [] then Finding(Pass, "degrees", [], found) else Note(Fail, "degrees-missing")
  }

  /** The graduation-year finding: the sorted distinct years, or a warning. */
  function GradYearFinding(years: seq<int>): (f: Finding)
    ensures f.kind == (if years != [] then Pass else Warning)
    ensures years != [] ==> f.counts == SortedSet(years) && SortedSet(years) != []
  {
    SortedSetEmpty(years);
    if years != [] then Finding(Pass, "education-years", SortedSet(years), []) else Note(Warning, "education-years-missing")
  }

  /** The awards: 3 for a degree, 2 for a field, 2 for an institution, 1.5
      for a graduation year and 1 for a GPA or honors. */
  function EducationPoints(degrees: bool, field: bool, institution: bool, year: bool, gpaOrHonors: bool): int {
    (if degrees then 30 else 0) + (if field then 20 else 0) + (if institution then 20 else 0)
    + (if year then 15 else 0) + (if gpaOrHonors then 10 else 0)
  }

  /** The awards add up to at most 9.5 points, below the maximum of 10. */
  lemma EducationPointsBounds(degrees: bool, field: bool, institution: bool, year: bool, gpaOrHonors: bool)
    ensures 0 <= EducationPoints(degrees, field, institution, year, gpaOrHonors) <= 95
  {
  }

  /** The GPA-or-honors sub-check: a GPA is reported in preference to honors. */
  method CheckGpa(gpa: bool, honors: nat) returns (f: Finding, points: int)
    ensures points == (if gpa || honors > 0 then 10 else 0)
    ensures f.kind == (if gpa || honors > 0 then Pass else Info)
    ensures gpa ==> f.tag == "gpa"
    ensures !gpa && honors > 0 ==> f.tag == "honors"
  {
    if gpa {
      points := 10;
      f := Note(Pass, "gpa");
    } else if honors > 0 {
      points := 10;
      f := Note(Pass, "honors");
    } else {
      points := 0;
      f := Note(Info, "gpa-missing");
    }
  }

  /** The scoring once the matches are known: the degrees found, the
      numbers of field and institution matches, the graduation years in the
      window, and the GPA and honors matches. */
  method ScoreEducation(found: seq<string>, fields: nat, institutions: nat, years: seq<int>, gpa: bool, honors: nat)
    returns (r: CheckResult)
    ensures r.maxScore == 100 && |r.findings| == 5
    ensures r.score == EducationPoints(found != [], fields > 0, institutions > 0, years != [], gpa || honors > 0)
    ensures 0 <= r.score <= 95
    ensures r.findings[0] == DegreeFinding(found)
    ensures r.findings[1].kind == (if fields > 0 then Pass else Warning)
    ensures r.findings[2].kind == (if institutions > 0 then Pass else Warning)
    ensures r.findings[3] == GradYearFinding(years)
    ensures r.findings[4].kind == (if gpa || honors > 0 then Pass else Info)
    ensures gpa ==> r.findings[4].tag == "gpa"
  {
    var findings: seq<Finding> := [];
    var score := 0;
    var maxScore := 100;

    if found != [] {
      score := score + 30;
      findings := findings + [Finding(Pass, "degrees", [], found)];
    } else {
      findings := findings + [Note(Fail, "degrees-missing")];
    }

    if fields > 0 {
      score := score + 20;
      findings := findings + [Note(Pass, "field-of-study")];
    } else {
      findings := findings + [Note(Warning, "field-of-study-missing")];
    }

    if institutions > 0 {
      score := score + 20;
      findings := findings + [Note(Pass, "institutions")];
    } else {
      findings := findings + [Note(Warning, "institutions-missing")];
    }
    assert |findings| == 3 && findings[0] == DegreeFinding(found);

    if years != [] {
      score := score + 15;
      findings := findings + [Finding(Pass, "education-years", SortedSet(years), [])];
    } else {
      findings := findings + [Note(Warning, "education-years-missing")];
    }
    assert findings[3] == GradYearFinding(years);

    var gpaFinding, gpaPoints := CheckGpa(gpa, honors);
    score := score + gpaPoints;
    findings := findings + [gpaFinding];

    r := CheckResult(Clamp(score, maxScore), maxScore, findings);
  }

  /** `check_education`: the degree loop, then the scoring, with the
      graduation years taken from the window. */
  method CheckEducation(sig: EducationSignals, text: string) returns (r: CheckResult)
    ensures r.maxScore == 100 && |r.findings| == 5
    ensures r.score == EducationPoints(KeepMatched(DegreeNames, sig.degreeMatches) != [], sig.fields > 0,
      sig.institutionKeywords + sig.namedInstitutions > 0, YearsIn(GradWindow(text, sig.educationStart)) != [],
      sig.gpa || sig.honors > 0)
    ensures 0 <= r.score <= 95
    ensures r.findings[0] == DegreeFinding(KeepMatched(DegreeNames, sig.degreeMatches))
    ensures r.findings[1].kind == (if sig.fields > 0 then Pass else Warning)
    ensures r.findings[2].kind == (if sig.institutionKeywords + sig.namedInstitutions > 0 then Pass else Warning)
    ensures r.findings[3] == GradYearFinding(YearsIn(GradWindow(text, sig.educationStart)))
    ensures r.findings[4].kind == (if sig.gpa || sig.honors > 0 then Pass else Info)
    ensures sig.gpa ==> r.findings[4].tag == "gpa"
  {
    var found := FindDegrees(DegreeNames, sig.degreeMatches);
    var window := GradWindow(text, sig.educationStart);
    var years := YearsIn(window);
    r := ScoreEducation(found, sig.fields, sig.institutionKeywords + sig.namedInstitutions, years, sig.gpa, sig.honors);
  }
}
