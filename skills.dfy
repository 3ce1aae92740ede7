/** `check_hard_skills`: technical skills by category, 12 points in all
    (120 tenths). */
module Skills {
  import opened Text
  import opened Scoring
  import opened Catalog
  import opened Matching

  const SkillSteps: seq<Step<Grade>> := [Step(12, Grade(120, Pass)), Step(8, Grade(100, Pass)),
    Step(5, Grade(70, Warning)), Step(2, Grade(40, Warning))]
  const NoSkills: Grade := Grade(0, Fail)

  /** The award for a number of skill matches. */
  function SkillGrade(n: nat): Grade {
    Tier(n, SkillSteps, NoSkills)
  }

  /** More matches never lower the award, which lies between 0 and 12 points. */
  lemma SkillGradeMonotone(m: nat, n: nat)
    requires m <= n
    ensures 0 <= SkillGrade(m).points <= SkillGrade(n).points <= 120
  {
    assert Descending(SkillSteps, NoSkills);
    TierMonotone(m, n, SkillSteps, NoSkills);
    TierBounds(m, SkillSteps, NoSkills);
    TierBounds(n, SkillSteps, NoSkills);
  }

  /** The count is taken with multiplicity: a skill listed under two
      categories (as "swift" and "kotlin" are) counts once per category. */
  lemma SkillCountWithRepeats(groups: seq<Group>, textLower: string)
    ensures |Flatten(FoundGroups(groups, textLower, Substring))| == MatchCount(groups, textLower, Substring)
  {
    TotalIsMatchCount(groups, textLower, Substring);
  }

  /** The closing information finding: up to four unmatched categories,
      only when some category is unmatched. */
  function MissingFindings(groups: seq<Group>, foundNames: seq<string>): (fs: seq<Finding>)
    ensures |fs| == (if MissingNames(groups, foundNames) != [] then 1 else 0)
    ensures |fs| == 1 ==> fs[0].kind == Info && fs[0].items == Prefix(MissingNames(groups, foundNames), 4)
  {
    var missing := MissingNames(groups, foundNames);
    if missing != [] then [Finding(Info, "categories-missing", [], Prefix(missing, 4))] else []
  }

  /** With distinct category names the closing finding appears exactly when
      some category matched nothing. */
  lemma MissingFindingWhen(groups: seq<Group>, textLower: string)
    requires Distinct(GroupNames(groups))
    ensures MissingFindings(groups, GroupNames(FoundGroups(groups, textLower, Substring))) != []
      <==> exists k :: 0 <= k < |groups| && !HasMatch(groups[k], textLower, Substring)
  {
    NoneMissing(groups, textLower, Substring);
  }

  /** The skill categories have distinct names, so the closing finding of
      `check_hard_skills` appears exactly when some category matched nothing. */
  lemma HardSkillNamesDistinct()
    ensures Distinct(GroupNames(HardSkills))
  {
    assert GroupNames(HardSkills) == ["Programming Languages", "Web Technologies", "Databases", "Cloud & DevOps",
      "Data & AI", "Tools & Software", "Security", "Mobile"];
  }

  /** The skill-count sub-check; the two passing tiers also report the
      number of categories. */
  method CheckSkillCount(n: nat, categories: nat) returns (f: Finding, points: int)
    ensures points == SkillGrade(n).points
    ensures f.kind == SkillGrade(n).kind
    ensures n >= 8 ==> f.counts == [n, categories]
    ensures 2 <= n < 8 ==> f.counts == [n]
  {
    Unroll(n, SkillSteps, NoSkills);
    if n >= 12 {
      points := 120;
      f := Finding(Pass, "skills-excellent", [n, categories], []);
    } else if n >= 8 {
      points := 100;
      f := Finding(Pass, "skills-strong", [n, categories], []);
    } else if n >= 5 {
      points := 70;
      f := Finding(Warning, "skills-decent", [n], []);
    } else if n >= 2 {
      points := 40;
      f := Finding(Warning, "skills-limited", [n], []);
    } else {
      points := 0;
      f := Note(Fail, "skills-missing");
    }
  }

  /** The scoring once the matching is done.  Findings: the tier, one per
      matched category, then the unmatched categories (if any). */
  method ScoreSkills(groups: seq<Group>, found: seq<Group>) returns (r: CheckResult)
    ensures r.maxScore == 120
    ensures r.score == SkillGrade(|Flatten(found)|).points
    ensures 0 <= r.score <= 120
    ensures |r.findings| == 1 + |found| + |MissingFindings(groups, GroupNames(found))|
    ensures r.findings[0].kind == SkillGrade(|Flatten(found)|).kind
    ensures r.findings[1..1 + |found|] == CategoryInfos(found)
    ensures r.findings[1 + |found|..] == MissingFindings(groups, GroupNames(found))
  {
    var maxScore := 120;
    var total := Flatten(found);
    var tierFinding, score := CheckSkillCount(|total|, |found|);
    var findings := [tierFinding];
    findings := AppendCategoryInfos(findings, found);
    var missing := MissingFindings(groups, GroupNames(found));
    findings := findings + missing;
    assert findings == [tierFinding] + CategoryInfos(found) + missing;
    SkillGradeMonotone(|total|, |total|);

    r := CheckResult(Clamp(score, maxScore), maxScore, findings);
  }

  /** `check_hard_skills` on the lower-cased text: the matching loop over
      the skill table, then the scoring. */
  method CheckHardSkills(textLower: string) returns (r: CheckResult)
    ensures r.maxScore == 120
    ensures var found := FoundGroups(HardSkills, textLower, Substring);
      r.score == SkillGrade(|Flatten(found)|).points
      && |r.findings| >= 1 + |found| && r.findings[1..1 + |found|] == CategoryInfos(found)
    ensures var found := FoundGroups(HardSkills, textLower, Substring);
      r.findings[0].kind == SkillGrade(|Flatten(found)|).kind
      && r.findings[1 + |found|..] == MissingFindings(HardSkills, GroupNames(found))
    ensures 0 <= r.score <= 120
  {
    var found, total := MatchGroups(HardSkills, textLower, Substring);
    r := ScoreSkills(HardSkills, found);
  }
}
