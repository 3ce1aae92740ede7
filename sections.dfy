/** `check_sections`: which standard sections the resume has, found by
    their headings, 15 points in all (150 tenths). */
module Sections {
  import opened Text
  import opened Scoring
  import Catalog

  /** One entry of a weight table: the section's title, its award in
      tenths, and the heading keywords that announce it. */
  datatype Section = Section(name: string, points: int, keywords: seq<string>)

  const Critical: seq<Section> := [
    Section("Experience", 40, Catalog.ExperienceHeadings),
    Section("Education", 40, Catalog.EducationHeadings),
    Section("Skills", 40, Catalog.SkillsHeadings)]
  const Important: seq<Section> := [Section("Summary", 15, Catalog.SummaryHeadings)]
  const Bonus: seq<Section> := [
    Section("Certifications", 5, Catalog.CertificationsHeadings),
    Section("Projects", 5, Catalog.ProjectsHeadings),
    Section("Awards", 3, Catalog.AwardsHeadings),
    Section("Languages", 3, Catalog.LanguagesHeadings),
    Section("Volunteer", 2, Catalog.VolunteerHeadings)]

  /** The rule for one keyword and a stripped line: equal to it, or starting
      with it and under 15 characters longer, or containing it and under 50
      characters long. */
  predicate KeywordMatches(stripped: string, kw: string) {
    stripped == kw
    || (StartsWith(stripped, kw) && |stripped| < |kw| + 15)
    || (Contains(stripped, kw) && |stripped| < 50)
  }

  /** Some keyword of the list matches the stripped line. */
  predicate MatchesAnyKeyword(stripped: string, keywords: seq<string>)
    decreases |keywords|
  {
    keywords != [] && (KeywordMatches(stripped, keywords[0]) || MatchesAnyKeyword(stripped, keywords[1..]))
  }

  /** A line that announces the section: non-empty once stripped, and
      matched by one of the keywords. */
  predicate IsSectionLine(line: string, keywords: seq<string>) {
    var s := HeadingText(line);
    s != [] && MatchesAnyKeyword(s, keywords)
  }

  /** Some line of the list announces the section. */
  predicate AnySectionLine(lines: seq<string>, keywords: seq<string>)
    decreases |lines|
  {
    lines != [] && (IsSectionLine(lines[0], keywords) || AnySectionLine(lines[1..], keywords))
  }

  /** `_find_section_heading`: some line of the text announces the section. */
  predicate HasSection(textLower: string, keywords: seq<string>) {
    AnySectionLine(SplitChar(textLower, '\n'), keywords)
  }

  lemma {:induction false} AnySectionLineExists(lines: seq<string>, keywords: seq<string>)
    ensures AnySectionLine(lines, keywords) <==> exists i :: 0 <= i < |lines| && IsSectionLine(lines[i], keywords)
    decreases |lines|
  {
    if lines != [] {
      var rest := lines[1..];
      AnySectionLineExists(rest, keywords);
      assert forall i :: 0 <= i < |rest| ==> rest[i] == lines[i + 1];
      if !IsSectionLine(lines[0], keywords) && exists i :: 0 <= i < |lines| && IsSectionLine(lines[i], keywords) {
        var i :| 0 <= i < |lines| && IsSectionLine(lines[i], keywords);
        assert i > 0 && IsSectionLine(rest[i - 1], keywords);
      }
    }
  }

  /** The equality test is subsumed by the prefix test. */
  lemma KeywordMatchesSimplified(stripped: string, kw: string)
    ensures KeywordMatches(stripped, kw) <==>
      (StartsWith(stripped, kw) && |stripped| < |kw| + 15) || (Contains(stripped, kw) && |stripped| < 50)
  {
    if stripped == kw {
      assert stripped[..|kw|] == kw;
    }
  }

  lemma {:induction false} MatchesAnyKeywordExists(stripped: string, keywords: seq<string>)
    ensures MatchesAnyKeyword(stripped, keywords) <==> exists k :: 0 <= k < |keywords| && KeywordMatches(stripped, keywords[k])
    decreases |keywords|
  {
    if keywords != [] {
      var rest := keywords[1..];
      MatchesAnyKeywordExists(stripped, rest);
      assert forall k :: 0 <= k < |rest| ==> rest[k] == keywords[k + 1];
      if KeywordMatches(stripped, keywords[0]) {
        assert 0 < |keywords|;
      } else if exists k :: 0 <= k < |keywords| && KeywordMatches(stripped, keywords[k]) {
        var k :| 0 <= k < |keywords| && KeywordMatches(stripped, keywords[k]);
        assert k > 0 && KeywordMatches(stripped, rest[k - 1]);
      }
    }
  }

  /** A line whose heading text is exactly a keyword announces the section,
      with or without a trailing colon and surrounding blanks. */
  lemma KeywordLineFound(line: string, keywords: seq<string>, k: nat)
    requires k < |keywords| && keywords[k] != [] && HeadingText(line) == keywords[k]
    ensures IsSectionLine(line, keywords)
  {
    MatchesAnyKeywordExists(HeadingText(line), keywords);
  }

  /** The inner loop: the first keyword that matches ends the search. */
  method LineMatches(stripped: string, keywords: seq<string>) returns (found: bool)
    ensures found <==> MatchesAnyKeyword(stripped, keywords)
  {
    MatchesAnyKeywordExists(stripped, keywords);
    var j := 0;
    while j < |keywords|
      invariant 0 <= j <= |keywords|
      invariant forall k :: 0 <= k < j ==> !KeywordMatches(stripped, keywords[k])
    {
      var kw := keywords[j];
      if stripped == kw {
        return true;
      }
      if StartsWith(stripped, kw) && |stripped| < |kw| + 15 {
        return true;
      }
      if Contains(stripped, kw) && |stripped| < 50 {
        return true;
      }
      j := j + 1;
    }
    return false;
  }

  /** `_find_section_heading`: the outer loop over the lines, skipping the
      empty ones and returning at the first line that matches. */
  method FindSectionHeading(textLower: string, keywords: seq<string>) returns (found: bool)
    ensures found <==> HasSection(textLower, keywords)
  {
    var lines := SplitChar(textLower, '\n');
    var i := 0;
    while i < |lines|
      invariant 0 <= i <= |lines|
      invariant HasSection(textLower, keywords) == AnySectionLine(lines[i..], keywords)
    {
      assert lines[i..][1..] == lines[i + 1..];
      var stripped := HeadingText(lines[i]);
      if stripped != [] {
        var m := LineMatches(stripped, keywords);
        if m {
          return true;
        }
      }
      i := i + 1;
    }
    return false;
  }

  /** For each section of a table, whether the text has it. */
  function Presence(textLower: string, table: seq<Section>): (p: seq<bool>)
    ensures |p| == |table|
  {
    if table == [] then []
    else Presence(textLower, table[..|table| - 1]) + [HasSection(textLower, table[|table| - 1].keywords)]
  }

  lemma {:induction false} PresenceAt(textLower: string, table: seq<Section>, i: nat)
    requires i < |table|
    ensures Presence(textLower, table)[i] == HasSection(textLower, table[i].keywords)
  {
    var n := |table| - 1;
    var init := table[..n];
    assert Presence(textLower, table) == Presence(textLower, init) + [HasSection(textLower, table[n].keywords)];
    if i < n {
      PresenceAt(textLower, init, i);
      assert init[i] == table[i];
    }
  }

  /** The sections of a table marked present, in table order. */
  function FoundSections(table: seq<Section>, present: seq<bool>): (r: seq<Section>)
    requires |present| == |table|
    ensures |r| <= |table|
  {
    if table == [] then []
    else
      var n := |table| - 1;
      FoundSections(table[..n], present[..n]) + (if present[n] then [table[n]] else [])
  }

  /** Total award of a list of sections. */
  function Points(table: seq<Section>): int {
    if table == [] then 0 else Points(table[..|table| - 1]) + table[|table| - 1].points
  }

  /** Titles of a list of sections, in order. */
  function Names(table: seq<Section>): (r: seq<string>)
    ensures |r| == |table|
    ensures forall i :: 0 <= i < |table| ==> r[i] == table[i].name
  {
    if table == [] then [] else Names(table[..|table| - 1]) + [table[|table| - 1].name]
  }

  /** `[s for s in names if s in found]` */
  function KeepFound(names: seq<string>, found: seq<string>): (r: seq<string>)
    ensures |r| <= |names|
    ensures forall i :: 0 <= i < |r| ==> r[i] in names && r[i] in found
    ensures forall i :: 0 <= i < |names| && names[i] in found ==> names[i] in r
  {
    if names == [] then []
    else KeepFound(names[..|names| - 1], found) + (if names[|names| - 1] in found then [names[|names| - 1]] else [])
  }

  predicate NonNegative(table: seq<Section>) {
    forall i :: 0 <= i < |table| ==> table[i].points >= 0
  }

  lemma PointsAppend(a: seq<Section>, s: Section)
    ensures Points(a + [s]) == Points(a) + s.points
  {
    assert (a + [s])[..|a|] == a;
  }

  /** Finding more sections never lowers the award. */
  lemma {:induction false} FoundPointsMonotone(table: seq<Section>, p: seq<bool>, q: seq<bool>)
    requires |p| == |table| && |q| == |table| && NonNegative(table)
    requires forall i :: 0 <= i < |table| && p[i] ==> q[i]
    ensures Points(FoundSections(table, p)) <= Points(FoundSections(table, q))
  {
    if table != [] {
      var n := |table| - 1;
      assert NonNegative(table[..n]) by {
        assert forall i :: 0 <= i < n ==> table[..n][i] == table[i];
      }
      FoundPointsMonotone(table[..n], p[..n], q[..n]);
      var fp, fq := FoundSections(table[..n], p[..n]), FoundSections(table[..n], q[..n]);
      if p[n] {
        assert FoundSections(table, p) == fp + [table[n]];
        PointsAppend(fp, table[n]);
      } else {
        assert FoundSections(table, p) == fp;
      }
      if q[n] {
        assert FoundSections(table, q) == fq + [table[n]];
        PointsAppend(fq, table[n]);
      } else {
        assert FoundSections(table, q) == fq;
      }
    }
  }

  /** The award of the sections found lies between nothing and the whole table. */
  lemma {:induction false} FoundPointsBounds(table: seq<Section>, present: seq<bool>)
    requires |present| == |table| && NonNegative(table)
    ensures 0 <= Points(FoundSections(table, present)) <= Points(table)
  {
    if table != [] {
      var n := |table| - 1;
      assert NonNegative(table[..n]) by {
        assert forall i :: 0 <= i < n ==> table[..n][i] == table[i];
      }
      FoundPointsBounds(table[..n], present[..n]);
      var f := FoundSections(table[..n], present[..n]);
      if present[n] {
        assert FoundSections(table, present) == f + [table[n]];
        PointsAppend(f, table[n]);
      } else {
        assert FoundSections(table, present) == f;
      }
      assert table[..n] + [table[n]] == table;
      PointsAppend(table[..n], table[n]);
    }
  }

  /** When every section is present, all of them are found. */
  lemma {:induction false} AllFound(table: seq<Section>, present: seq<bool>)
    requires |present| == |table|
    requires forall i :: 0 <= i < |table| ==> present[i]
    ensures FoundSections(table, present) == table
  {
    if table != [] {
      var n := |table| - 1;
      AllFound(table[..n], present[..n]);
      assert FoundSections(table, present) == table[..n] + [table[n]];
      assert table == table[..n] + [table[n]];
    }
  }

  /** The finding of a critical section (`important` false) or of an
      important one. */
  function SectionFinding(s: Section, found: bool, important: bool): Finding {
    if important then
      if found then Finding(Pass, "summary-found", [], [s.name]) else Finding(Warning, "summary-missing", [], [s.name])
    else
      if found then Finding(Pass, "section-found", [], [s.name]) else Finding(Fail, "section-missing", [], [s.name])
  }

  /** One more section of the table: the award, the count and the titles
      grow by that section exactly when it is present. */
  lemma FoundStep(table: seq<Section>, present: seq<bool>, i: nat)
    requires i < |table| && |present| == |table|
    ensures var before, after := FoundSections(table[..i], present[..i]), FoundSections(table[..i + 1], present[..i + 1]);
      Points(after) == Points(before) + (if present[i] then table[i].points else 0)
      && |after| == |before| + (if present[i] then 1 else 0)
      && Names(after) == Names(before) + (if present[i] then [table[i].name] else [])
  {
    assert table[..i + 1][..i] == table[..i] && present[..i + 1][..i] == present[..i];
    var before := FoundSections(table[..i], present[..i]);
    if present[i] {
      assert FoundSections(table[..i + 1], present[..i + 1]) == before + [table[i]];
      PointsAppend(before, table[i]);
    } else {
      assert FoundSections(table[..i + 1], present[..i + 1]) == before;
    }
  }

  /** The findings of a critical or important loop, one per section. */
  function SectionFindings(table: seq<Section>, present: seq<bool>, important: bool): (r: seq<Finding>)
    requires |present| == |table|
    ensures |r| == |table|
  {
    if table == [] then []
    else
      var n := |table| - 1;
      SectionFindings(table[..n], present[..n], important) + [SectionFinding(table[n], present[n], important)]
  }

  lemma {:induction false} SectionFindingsAt(table: seq<Section>, present: seq<bool>, important: bool, i: nat)
    requires |present| == |table| && i < |table|
    ensures SectionFindings(table, present, important)[i] == SectionFinding(table[i], present[i], important)
  {
    var n := |table| - 1;
    if i < n {
      SectionFindingsAt(table[..n], present[..n], important, i);
    }
  }

  lemma SectionFindingsStep(table: seq<Section>, present: seq<bool>, important: bool, i: nat)
    requires i < |table| && |present| == |table|
    ensures SectionFindings(table[..i + 1], present[..i + 1], important)
      == SectionFindings(table[..i], present[..i], important) + [SectionFinding(table[i], present[i], important)]
  {
    assert table[..i + 1][..i] == table[..i] && present[..i + 1][..i] == present[..i];
  }

  /** `_find_section_heading` for the `i`-th section of a table. */
  method Detected(textLower: string, table: seq<Section>, i: nat) returns (found: bool)
    requires i < |table|
    ensures found == Presence(textLower, table)[i]
  {
    PresenceAt(textLower, table, i);
    found := FindSectionHeading(textLower, table[i].keywords);
  }

  /** The loop over the critical sections: a pass or a fail finding each. */
  method CheckCritical(textLower: string, table: seq<Section>)
    returns (points: int, names: seq<string>, findings: seq<Finding>)
    ensures var present := Presence(textLower, table);
      points == Points(FoundSections(table, present))
      && names == Names(FoundSections(table, present))
      && findings == SectionFindings(table, present, false)
  {
    ghost var present := Presence(textLower, table);
    points, names, findings := 0, [], [];
    var i := 0;
    while i < |table|
      invariant 0 <= i <= |table|
      invariant points == Points(FoundSections(table[..i], present[..i]))
      invariant names == Names(FoundSections(table[..i], present[..i]))
      invariant findings == SectionFindings(table[..i], present[..i], false)
    {
      var s := table[i];
      FoundStep(table, present, i);
      SectionFindingsStep(table, present, false, i);
      var found := Detected(textLower, table, i);
      if found {
        points := points + s.points;
        names := names + [s.name];
        findings := findings + [Finding(Pass, "section-found", [], [s.name])];
      } else {
        findings := findings + [Finding(Fail, "section-missing", [], [s.name])];
      }
      i := i + 1;
    }
    assert table[..i] == table && present[..i] == present;
  }

  /** The loop over the important sections: a pass or a warning each. */
  method CheckImportant(textLower: string, table: seq<Section>)
    returns (points: int, names: seq<string>, findings: seq<Finding>)
    ensures var present := Presence(textLower, table);
      points == Points(FoundSections(table, present))
      && names == Names(FoundSections(table, present))
      && findings == SectionFindings(table, present, true)
  {
    ghost var present := Presence(textLower, table);
    points, names, findings := 0, [], [];
    var i := 0;
    while i < |table|
      invariant 0 <= i <= |table|
      invariant points == Points(FoundSections(table[..i], present[..i]))
      invariant names == Names(FoundSections(table[..i], present[..i]))
      invariant findings == SectionFindings(table[..i], present[..i], true)
    {
      var s := table[i];
      FoundStep(table, present, i);
      SectionFindingsStep(table, present, true, i);
      var found := Detected(textLower, table, i);
      if found {
        points := points + s.points;
        names := names + [s.name];
        findings := findings + [Finding(Pass, "summary-found", [], [s.name])];
      } else {
        findings := findings + [Finding(Warning, "summary-missing", [], [s.name])];
      }
      i := i + 1;
    }
    assert table[..i] == table && present[..i] == present;
  }

  /** The bonus loop: awards and a count, no finding per section. */
  method CheckBonus(textLower: string, table: seq<Section>) returns (points: int, count: nat, names: seq<string>)
    ensures var present := Presence(textLower, table);
      points == Points(FoundSections(table, present))
      && names == Names(FoundSections(table, present))
      && count == |names|
  {
    ghost var present := Presence(textLower, table);
    points, count, names := 0, 0, [];
    var i := 0;
    while i < |table|
      invariant 0 <= i <= |table|
      invariant points == Points(FoundSections(table[..i], present[..i]))
      invariant names == Names(FoundSections(table[..i], present[..i]))
      invariant count == |names|
    {
      var s := table[i];
      ghost var after := FoundSections(table[..i + 1], present[..i + 1]);
      FoundStep(table, present, i);
      var found := Detected(textLower, table, i);
      if found {
        points := points + s.points;
        count := count + 1;
        names := names + [s.name];
      }
      assert points == Points(after) && names == Names(after);
      i := i + 1;
    }
    assert table[..i] == table && present[..i] == present;
  }

  /** What the three tables found, as presence flags per table. */
  datatype Found = Found(critical: seq<bool>, important: seq<bool>, bonus: seq<bool>)

  predicate Fits(f: Found, critical: seq<Section>, important: seq<Section>, bonus: seq<Section>) {
    |f.critical| == |critical| && |f.important| == |important| && |f.bonus| == |bonus|
  }

  /** The award before the clamp. */
  function Unclamped(f: Found, critical: seq<Section>, important: seq<Section>, bonus: seq<Section>): int
    requires Fits(f, critical, important, bonus)
  {
    Points(FoundSections(critical, f.critical)) + Points(FoundSections(important, f.important))
    + Points(FoundSections(bonus, f.bonus))
  }

  /** The list of all titles found: critical, then important, then bonus. */
  function FoundNames(f: Found, critical: seq<Section>, important: seq<Section>, bonus: seq<Section>): seq<string>
    requires Fits(f, critical, important, bonus)
  {
    Names(FoundSections(critical, f.critical)) + Names(FoundSections(important, f.important))
    + Names(FoundSections(bonus, f.bonus))
  }

  /** The finding that lists the bonus sections found, or suggests some. */
  function BonusFinding(f: Found, critical: seq<Section>, important: seq<Section>, bonus: seq<Section>): Finding
    requires Fits(f, critical, important, bonus)
  {
    if FoundSections(bonus, f.bonus) != [] then
      Finding(Pass, "bonus-sections", [], KeepFound(Names(bonus), FoundNames(f, critical, important, bonus)))
    else Note(Info, "bonus-none")
  }

  /** The closing finding: how many sections were found, and which. */
  function TotalFinding(f: Found, critical: seq<Section>, important: seq<Section>, bonus: seq<Section>): Finding
    requires Fits(f, critical, important, bonus)
  {
    var names := FoundNames(f, critical, important, bonus);
    Finding(Info, "sections-total", [|names|], names)
  }

  /** What the text has, for the three tables. */
  function Detect(textLower: string, critical: seq<Section>, important: seq<Section>, bonus: seq<Section>): (f: Found)
    ensures Fits(f, critical, important, bonus)
  {
    Found(Presence(textLower, critical), Presence(textLower, important), Presence(textLower, bonus))
  }

  lemma NamesAppend(a: seq<Section>, s: Section)
    ensures Names(a + [s]) == Names(a) + [s.name]
  {
    assert (a + [s])[..|a|] == a;
  }

  lemma KeepFoundAppend(names: seq<string>, n: string, found: seq<string>)
    ensures KeepFound(names + [n], found) == KeepFound(names, found) + (if n in found then [n] else [])
  {
    assert (names + [n])[..|names|] == names;
  }

  /** A title is among those found exactly when some present section has it. */
  lemma {:induction false} FoundNamesMembers(table: seq<Section>, present: seq<bool>, x: string)
    requires |present| == |table|
    ensures x in Names(FoundSections(table, present)) <==> exists k :: 0 <= k < |table| && present[k] && table[k].name == x
  {
    if table != [] {
      var n := |table| - 1;
      FoundNamesMembers(table[..n], present[..n], x);
      var before := FoundSections(table[..n], present[..n]);
      if present[n] {
        assert FoundSections(table, present) == before + [table[n]];
        NamesAppend(before, table[n]);
      } else {
        assert FoundSections(table, present) == before;
      }
      if exists k :: 0 <= k < |table| && present[k] && table[k].name == x {
        var k :| 0 <= k < |table| && present[k] && table[k].name == x;
        if k < n { assert table[..n][k] == table[k] && present[..n][k] == present[k]; }
      }
    }
  }

  /** Filtering the bonus titles by a list that holds exactly the present
      ones gives the titles of the bonus sections found. */
  lemma {:induction false} KeepFoundNames(bonus: seq<Section>, present: seq<bool>, found: seq<string>)
    requires |present| == |bonus|
    requires forall k :: 0 <= k < |bonus| ==> (bonus[k].name in found <==> present[k])
    ensures KeepFound(Names(bonus), found) == Names(FoundSections(bonus, present))
  {
    if bonus != [] {
      var n := |bonus| - 1;
      var b, p := bonus[..n], present[..n];
      assert forall k :: 0 <= k < n ==> b[k] == bonus[k] && p[k] == present[k];
      KeepFoundNames(b, p, found);
      assert Names(bonus)[..n] == Names(b);
      var before := FoundSections(b, p);
      if present[n] {
        assert FoundSections(bonus, present) == before + [bonus[n]];
        NamesAppend(before, bonus[n]);
      } else {
        assert FoundSections(bonus, present) == before;
      }
    }
  }

  /** All titles of the three tables differ. */
  predicate DistinctTitles(critical: seq<Section>, important: seq<Section>, bonus: seq<Section>) {
    Distinct(Names(critical) + Names(important) + Names(bonus))
  }

  /** With distinct titles, a bonus title is among the titles found exactly
      when that bonus section is present. */
  lemma BonusTitleFound(f: Found, critical: seq<Section>, important: seq<Section>, bonus: seq<Section>, k: nat)
    requires Fits(f, critical, important, bonus) && DistinctTitles(critical, important, bonus)
    requires k < |bonus|
    ensures bonus[k].name in FoundNames(f, critical, important, bonus) <==> f.bonus[k]
  {
    var x := bonus[k].name;
    DistinctInThird(Names(critical), Names(important), Names(bonus), k);
    assert forall i :: 0 <= i < |critical| ==> Names(critical)[i] == critical[i].name;
    assert forall i :: 0 <= i < |important| ==> Names(important)[i] == important[i].name;
    assert forall i :: 0 <= i < |bonus| ==> Names(bonus)[i] == bonus[i].name;
    FoundNamesMembers(critical, f.critical, x);
    FoundNamesMembers(important, f.important, x);
    FoundNamesMembers(bonus, f.bonus, x);
  }

  /** In a list without repeats made of three parts, an element of the third
      part occurs nowhere else. */
  lemma DistinctInThird(a: seq<string>, b: seq<string>, c: seq<string>, k: nat)
    requires Distinct(a + b + c) && k < |c|
    ensures c[k] !in a && c[k] !in b
    ensures forall i :: 0 <= i < |c| && i != k ==> c[i] != c[k]
  {
    var all := a + b + c;
    assert all[|a| + |b| + k] == c[k];
    forall i | 0 <= i < |a| ensures a[i] != c[k] {
      assert all[i] == a[i];
    }
    forall i | 0 <= i < |b| ensures b[i] != c[k] {
      assert all[|a| + i] == b[i];
    }
    forall i | 0 <= i < |c| && i != k ensures c[i] != c[k] {
      assert all[|a| + |b| + i] == c[i];
    }
  }

  /** With distinct titles, the bonus finding lists exactly the bonus
      sections found, in table order. */
  lemma BonusFindingNames(f: Found, critical: seq<Section>, important: seq<Section>, bonus: seq<Section>)
    requires Fits(f, critical, important, bonus) && DistinctTitles(critical, important, bonus)
    ensures FoundSections(bonus, f.bonus) != [] ==>
      BonusFinding(f, critical, important, bonus) == Finding(Pass, "bonus-sections", [], Names(FoundSections(bonus, f.bonus)))
    ensures FoundSections(bonus, f.bonus) == [] ==> BonusFinding(f, critical, important, bonus).kind == Info
  {
    var found := FoundNames(f, critical, important, bonus);
    forall k | 0 <= k < |bonus| ensures bonus[k].name in found <==> f.bonus[k] {
      BonusTitleFound(f, critical, important, bonus, k);
    }
    KeepFoundNames(bonus, f.bonus, found);
  }

  /** The nine section titles differ. */
  lemma TablesDistinct()
    ensures DistinctTitles(Critical, Important, Bonus)
  {
    assert Names(Critical) + Names(Important) + Names(Bonus) == ["Experience", "Education", "Skills", "Summary",
      "Certifications", "Projects", "Awards", "Languages", "Volunteer"];
  }

  /** `check_sections` over given weight tables and a maximum in tenths. */
  method CheckSectionsWith(textLower: string, critical: seq<Section>, important: seq<Section>, bonus: seq<Section>, maxScore: int)
    returns (r: CheckResult)
    ensures r.maxScore == maxScore
    ensures r.score == Clamp(Unclamped(Detect(textLower, critical, important, bonus), critical, important, bonus), maxScore)
    ensures var f := Detect(textLower, critical, important, bonus);
      r.findings == SectionFindings(critical, f.critical, false) + SectionFindings(important, f.important, true)
        + [BonusFinding(f, critical, important, bonus), TotalFinding(f, critical, important, bonus)]
  {
    ghost var f := Detect(textLower, critical, important, bonus);
    var criticalPoints, criticalNames, criticalFindings := CheckCritical(textLower, critical);
    var importantPoints, importantNames, importantFindings := CheckImportant(textLower, important);
    var bonusPoints, bonusCount, bonusNames := CheckBonus(textLower, bonus);
    var score := criticalPoints + importantPoints + bonusPoints;
    assert score == Unclamped(f, critical, important, bonus);
    var foundSections := criticalNames + importantNames + bonusNames;
    assert foundSections == FoundNames(f, critical, important, bonus);
    var findings := criticalFindings + importantFindings;
    if bonusCount > 0 {
      var names := KeepFound(Names(bonus), foundSections);
      findings := findings + [Finding(Pass, "bonus-sections", [], names)];
    } else {
      findings := findings + [Note(Info, "bonus-none")];
    }
    assert findings == criticalFindings + importantFindings + [BonusFinding(f, critical, important, bonus)];
    findings := findings + [Finding(Info, "sections-total", [|foundSections|], foundSections)];
    r := CheckResult(Clamp(score, maxScore), maxScore, findings);
  }

  /** `check_sections` */
  method CheckSections(textLower: string) returns (r: CheckResult)
    ensures var f := Detect(textLower, Critical, Important, Bonus);
      r.maxScore == 150 && |r.findings| == 6
      && r.score == Clamp(Unclamped(f, Critical, Important, Bonus), 150)
      && 0 <= r.score <= 150
      && (forall i :: 0 <= i < 3 ==> r.findings[i] == SectionFinding(Critical[i], f.critical[i], false))
      && r.findings[3] == SectionFinding(Important[0], f.important[0], true)
      && r.findings[4] == BonusFinding(f, Critical, Important, Bonus)
      && (FoundSections(Bonus, f.bonus) != [] ==>
            r.findings[4] == Finding(Pass, "bonus-sections", [], Names(FoundSections(Bonus, f.bonus))))
      && (FoundSections(Bonus, f.bonus) == [] ==> r.findings[4] == Note(Info, "bonus-none"))
      && r.findings[5].kind == Info && r.findings[5].items == FoundNames(f, Critical, Important, Bonus)
  {
    r := CheckSectionsWith(textLower, Critical, Important, Bonus, 150);
    var f := Detect(textLower, Critical, Important, Bonus);
    ScoreBounds(f);
    forall i | 0 <= i < 3 ensures r.findings[i] == SectionFinding(Critical[i], f.critical[i], false) {
      SectionFindingsAt(Critical, f.critical, false, i);
    }
    SectionFindingsAt(Important, f.important, true, 0);
    TablesDistinct();
    BonusFindingNames(f, Critical, Important, Bonus);
  }

  /** The awards add up to 15.3 points, above the maximum of 15. */
  lemma TablesTotal()
    ensures Points(Critical) == 120 && Points(Important) == 15 && Points(Bonus) == 18
    ensures Points(Critical) + Points(Important) + Points(Bonus) == 153
    ensures NonNegative(Critical) && NonNegative(Important) && NonNegative(Bonus)
  {
    assert Points(Critical[..1]) == 40;
    assert Critical[..2][..1] == Critical[..1];
    assert Points(Critical[..2]) == 80;
    assert Critical[..3][..2] == Critical[..2];
    assert Points(Important[..0]) == 0;
    assert Points(Bonus[..1]) == 5;
    assert Bonus[..2][..1] == Bonus[..1];
    assert Points(Bonus[..2]) == 10;
    assert Bonus[..3][..2] == Bonus[..2];
    assert Points(Bonus[..3]) == 13;
    assert Bonus[..4][..3] == Bonus[..3];
    assert Points(Bonus[..4]) == 16;
    assert Bonus[..5][..4] == Bonus[..4];
  }

  /** The unclamped award lies between 0 and 15.3 points. */
  lemma ScoreBounds(f: Found)
    requires Fits(f, Critical, Important, Bonus)
    ensures 0 <= Unclamped(f, Critical, Important, Bonus) <= 153
  {
    TablesTotal();
    FoundPointsBounds(Critical, f.critical);
    FoundPointsBounds(Important, f.important);
    FoundPointsBounds(Bonus, f.bonus);
  }

  /** A resume with every section scores the full 15 points: the clamp binds. */
  lemma ClampBinds(f: Found)
    requires Fits(f, Critical, Important, Bonus)
    requires forall i :: 0 <= i < |f.critical| ==> f.critical[i]
    requires forall i :: 0 <= i < |f.important| ==> f.important[i]
    requires forall i :: 0 <= i < |f.bonus| ==> f.bonus[i]
    ensures Unclamped(f, Critical, Important, Bonus) == 153
    ensures Clamp(Unclamped(f, Critical, Important, Bonus), 150) == 150
  {
    AllFound(Critical, f.critical);
    AllFound(Important, f.important);
    AllFound(Bonus, f.bonus);
    TablesTotal();
  }

  /** Finding more sections never lowers the score, for any tables of
      non-negative awards (the source's tables are, by `TablesTotal`). */
  lemma ScoreMonotone(f: Found, g: Found, critical: seq<Section>, important: seq<Section>, bonus: seq<Section>)
    requires NonNegative(critical) && NonNegative(important) && NonNegative(bonus)
    requires Fits(f, critical, important, bonus) && Fits(g, critical, important, bonus)
    requires forall i :: 0 <= i < |f.critical| && f.critical[i] ==> g.critical[i]
    requires forall i :: 0 <= i < |f.important| && f.important[i] ==> g.important[i]
    requires forall i :: 0 <= i < |f.bonus| && f.bonus[i] ==> g.bonus[i]
    ensures Unclamped(f, critical, important, bonus) <= Unclamped(g, critical, important, bonus)
  {
    FoundPointsMonotone(critical, f.critical, g.critical);
    FoundPointsMonotone(important, f.important, g.important);
    FoundPointsMonotone(bonus, f.bonus, g.bonus);
  }
}
