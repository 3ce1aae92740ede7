/** `check_action_verbs`: strong verbs by category, the categories still
    missing, and weak phrases, 10 points in all (100 tenths). */
module Verbs {
  import opened Text
  import opened Scoring
  import opened Catalog
  import opened Matching

  const VerbSteps: seq<Step<Grade>> := [Step(12, Grade(100, Pass)), Step(8, Grade(80, Pass)),
    Step(5, Grade(60, Warning)), Step(2, Grade(30, Warning))]
  const NoVerbs: Grade := Grade(0, Fail)

  /** The award for a number of verb matches, before the weak-phrase penalty. */
  function VerbGrade(n: nat): Grade {
    Tier(n, VerbSteps, NoVerbs)
  }

  /** More verbs never lower the award, which lies between 0 and 10 points. */
  lemma VerbGradeMonotone(m: nat, n: nat)
    requires m <= n
    ensures 0 <= VerbGrade(m).points <= VerbGrade(n).points <= 100
  {
    assert Descending(VerbSteps, NoVerbs);
    TierMonotone(m, n, VerbSteps, NoVerbs);
    TierBounds(m, VerbSteps, NoVerbs);
    TierBounds(n, VerbSteps, NoVerbs);
  }

  /** The final score: the tier award, less one point (never below 0) when
      a weak phrase occurs. */
  function VerbPoints(n: nat, weak: bool): int {
    var p := VerbGrade(n).points;
    if weak then (if p - 10 > 0 then p - 10 else 0) else p
  }

  /** A weak phrase costs at most one point and never more than the award;
      the score stays between 0 and 10. */
  lemma WeakPenalty(n: nat)
    ensures 0 <= VerbPoints(n, true) <= VerbPoints(n, false) <= 100
    ensures VerbPoints(n, false) - VerbPoints(n, true) <= 10
    ensures VerbPoints(n, true) == 0 <==> n < 2
    ensures n >= 2 ==> VerbPoints(n, true) == VerbPoints(n, false) - 10
  {
    Unroll(n, VerbSteps, NoVerbs);
  }

  /** `table[name]`: the phrases of the first category of that name, or
      none. */
  function Lookup(groups: seq<Group>, name: string): seq<string>
    decreases |groups|
  {
    if groups == [] then [] else if groups[0].name == name then groups[0].members else Lookup(groups[1..], name)
  }

  /** With distinct names, looking a category up by its name gives its phrases. */
  lemma {:induction false} LookupDistinct(groups: seq<Group>, k: nat)
    requires k < |groups| && Distinct(GroupNames(groups))
    ensures Lookup(groups, groups[k].name) == groups[k].members
    decreases |groups|
  {
    if k > 0 {
      assert GroupNames(groups)[0] != GroupNames(groups)[k];
      assert Distinct(GroupNames(groups[1..])) by {
        assert forall i :: 0 <= i < |groups[1..]| ==> GroupNames(groups[1..])[i] == GroupNames(groups)[i + 1];
      }
      assert groups[1..][k - 1] == groups[k];
      LookupDistinct(groups[1..], k - 1);
    }
  }

  /** `{cat: table[cat][:3] for cat in cats}`: each category named with its
      first three phrases. */
  function SuggestionsFor(groups: seq<Group>, cats: seq<string>): (r: seq<Group>)
    ensures |r| == |cats|
    ensures forall i :: 0 <= i < |r| ==>
      r[i].name == cats[i] && |r[i].members| <= 3 && r[i].members == Prefix(Lookup(groups, cats[i]), 3)
    decreases |cats|
  {
    if cats == [] then []
    else [Group(cats[0], Prefix(Lookup(groups, cats[0]), 3))] + SuggestionsFor(groups, cats[1..])
  }

  /** Each suggested category comes with the first three verbs of that
      category, provided category names are distinct. */
  lemma SuggestedVerbs(groups: seq<Group>, cats: seq<string>, i: nat, k: nat)
    requires Distinct(GroupNames(groups))
    requires i < |cats| && k < |groups| && cats[i] == groups[k].name
    ensures SuggestionsFor(groups, cats)[i] == Group(groups[k].name, Prefix(groups[k].members, 3))
  {
    LookupDistinct(groups, k);
  }

  /** The verb categories have distinct names. */
  lemma VerbCategoryNamesDistinct()
    ensures Distinct(GroupNames(ActionVerbs))
  {
    assert GroupNames(ActionVerbs) == ["Leadership", "Achievement", "Technical", "Communication",
      "Improvement", "Analysis", "Creation", "Operations"];
  }

  /** "name (verb, verb, verb); ...": each category's name, then its verbs. */
  function Listing(groups: seq<Group>): seq<string>
    decreases |groups|
  {
    if groups == [] then [] else [groups[0].name] + groups[0].members + Listing(groups[1..])
  }

  /** The missing-category warning: only when one to five categories are
      missing, suggesting at most three of them. */
  function SuggestionFindings(groups: seq<Group>, foundNames: seq<string>): (fs: seq<Finding>)
    ensures var missing := MissingNames(groups, foundNames);
      |fs| == (if 1 <= |missing| <= 5 then 1 else 0)
    ensures |fs| == 1 ==> (fs[0].kind == Warning
      && fs[0].items == Listing(SuggestionsFor(groups, Prefix(MissingNames(groups, foundNames), 3))))
  {
    var missing := MissingNames(groups, foundNames);
    if missing != [] && |missing| <= 5 then
      [Finding(Warning, "missing-categories", [], Listing(SuggestionsFor(groups, Prefix(missing, 3))))]
    else []
  }

  /** The verb-count sub-check; the two passing tiers also report the
      number of categories. */
  method CheckVerbCount(n: nat, categories: nat) returns (f: Finding, points: int)
    ensures points == VerbGrade(n).points
    ensures f.kind == VerbGrade(n).kind
    ensures n >= 8 ==> f.counts == [n, categories]
    ensures 2 <= n < 8 ==> f.counts == [n]
  {
    Unroll(n, VerbSteps, NoVerbs);
    if n >= 12 {
      points := 100;
      f := Finding(Pass, "verbs-outstanding", [n, categories], []);
    } else if n >= 8 {
      points := 80;
      f := Finding(Pass, "verbs-excellent", [n, categories], []);
    } else if n >= 5 {
      points := 60;
      f := Finding(Warning, "verbs-good", [n], []);
    } else if n >= 2 {
      points := 30;
      f := Finding(Warning, "verbs-few", [n], []);
    } else {
      points := 0;
      f := Note(Fail, "verbs-missing");
    }
  }

  /** The scoring once the matching is done: the categories with their
      matches and the weak phrases found.  Findings: the tier, one per
      matched category, the suggestion (if any), and last the weak-phrase
      finding. */
  method ScoreVerbs(groups: seq<Group>, found: seq<Group>, weak: seq<string>) returns (r: CheckResult)
    ensures r.maxScore == 100
    ensures r.score == VerbPoints(|Flatten(found)|, weak != [])
    ensures 0 <= r.score <= 100
    ensures |r.findings| == 2 + |found| + |SuggestionFindings(groups, GroupNames(found))|
    ensures r.findings[0].kind == VerbGrade(|Flatten(found)|).kind
    ensures r.findings[1..1 + |found|] == CategoryInfos(found)
    ensures r.findings[1 + |found|..|r.findings| - 1] == SuggestionFindings(groups, GroupNames(found))
    ensures var last := r.findings[|r.findings| - 1];
      (last.kind == Fail <==> weak != []) && (last.kind == Fail || last.kind == Pass)
    ensures weak != [] ==> r.findings[|r.findings| - 1].items == weak
  {
    var maxScore := 100;
    var total := Flatten(found);
    var tierFinding, score := CheckVerbCount(|total|, |found|);
    var findings := [tierFinding];
    findings := AppendCategoryInfos(findings, found);
    var suggestion := SuggestionFindings(groups, GroupNames(found));
    findings := findings + suggestion;

    var weakFinding;
    if weak != [] {
      score := if score - 10 > 0 then score - 10 else 0;
      weakFinding := Finding(Fail, "weak-phrases", [], weak);
    } else {
      weakFinding := Note(Pass, "weak-none");
    }
    findings := findings + [weakFinding];
    assert findings == [tierFinding] + CategoryInfos(found) + suggestion + [weakFinding];
    WeakPenalty(|total|);

    r := CheckResult(Clamp(score, maxScore), maxScore, findings);
  }

  /** `check_action_verbs` on the lower-cased text: the matching loop over
      the verb table, the weak phrases, then the scoring. */
  method CheckActionVerbs(textLower: string) returns (r: CheckResult)
    ensures r.maxScore == 100
    ensures var found := FoundGroups(ActionVerbs, textLower, WordStart);
      r.score == VerbPoints(|Flatten(found)|, Found(textLower, WeakVerbs) != [])
      && |r.findings| >= 2 + |found| && r.findings[1..1 + |found|] == CategoryInfos(found)
    ensures 0 <= r.score <= 100
    ensures |r.findings| >= 2 && r.findings[|r.findings| - 1].kind == (if Found(textLower, WeakVerbs) != [] then Fail else Pass)
    ensures var found := FoundGroups(ActionVerbs, textLower, WordStart);
      r.findings[0].kind == VerbGrade(|Flatten(found)|).kind
      && r.findings[1 + |found|..|r.findings| - 1] == SuggestionFindings(ActionVerbs, GroupNames(found))
    ensures Found(textLower, WeakVerbs) != [] ==> r.findings[|r.findings| - 1].items == Found(textLower, WeakVerbs)
  {
    var found, total := MatchGroups(ActionVerbs, textLower, WordStart);
    var weak := Found(textLower, WeakVerbs);
    r := ScoreVerbs(ActionVerbs, found, weak);
  }
}
