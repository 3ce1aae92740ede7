/** `generate_tips`: advice chosen from the category percentages and the
    overall score, ordered by priority and cut to eight. */
module Tips {
  import opened Scoring

  datatype Priority = High | Medium | Low

  /** A tip, identified by its title (each title has one fixed description
      and impact line). */
  datatype Tip = Tip(priority: Priority, title: string)

  /** The sort key: high 0, medium 1, low 2. */
  function Rank(p: Priority): (k: nat)
    ensures k <= 2
  {
    match p
    case High => 0
    case Medium => 1
    case Low => 2
  }

  // ---------------------------------------------------------------------
  // Category percentages

  /** `{c["name"]: c["percentage"] for c in categories}.get(name, 100)`:
      the percentage of the last category with that name, 100 when there
      is none. */
  function ScoreOf(categories: seq<Category>, name: string): (p: int)
    ensures (forall i :: 0 <= i < |categories| ==> categories[i].name != name) ==> p == 100
  {
    if categories == [] then 100
    else
      var last := categories[|categories| - 1];
      if last.name == name then last.percentage else ScoreOf(categories[..|categories| - 1], name)
  }

  /** The entry read is the last one with the name. */
  lemma {:induction false} ScoreOfLast(categories: seq<Category>, name: string, i: nat)
    requires i < |categories| && categories[i].name == name
    requires forall j :: i < j < |categories| ==> categories[j].name != name
    ensures ScoreOf(categories, name) == categories[i].percentage
    decreases |categories|
  {
    var n := |categories| - 1;
    if i < n {
      var init := categories[..n];
      assert init[i] == categories[i];
      assert forall j :: i < j < |init| ==> init[j] == categories[j];
      ScoreOfLast(init, name, i);
    }
  }

  // ---------------------------------------------------------------------
  // The ten category rules

  /** A category rule: its tip is given when the category's percentage is
      below the threshold. */
  datatype Rule = Rule(category: string, below: int, tip: Tip)

  const ContactTip := Tip(High, "Complete Your Contact Information")
  const SkillsTip := Tip(High, "Add More Technical Skills")
  const ResultsTip := Tip(High, "Quantify Your Achievements")
  const VerbsTip := Tip(Medium, "Strengthen Your Language")
  const SectionsTip := Tip(Medium, "Add Missing Sections")
  const ReadabilityTip := Tip(Medium, "Improve Readability")
  const FormattingTip := Tip(Medium, "Optimize Your Formatting")
  const ExperienceTip := Tip(High, "Strengthen Your Work Experience Section")
  const EducationTip := Tip(Medium, "Complete Your Education Details")
  const CompatibilityTip := Tip(Medium, "Improve ATS Compatibility")
  const TailorTip := Tip(Low, "Tailor for Each Application")
  const UpdatedTip := Tip(Low, "Keep Your Resume Updated")

  /** The rules in the order they are tried. */
  const Rules: seq<Rule> := [
    Rule("Contact Information", 80, ContactTip),
    Rule("Hard Skills", 60, SkillsTip),
    Rule("Measurable Results", 60, ResultsTip),
    Rule("Action Verbs", 70, VerbsTip),
    Rule("Resume Sections", 80, SectionsTip),
    Rule("Readability", 70, ReadabilityTip),
    Rule("Formatting & Structure", 70, FormattingTip),
    Rule("Work Experience", 70, ExperienceTip),
    Rule("Education", 60, EducationTip),
    Rule("ATS Compatibility", 80, CompatibilityTip)]

  /** The rule's category scores below its threshold. */
  predicate Fires(r: Rule, categories: seq<Category>) {
    ScoreOf(categories, r.category) < r.below
  }

  /** The tips of the rules that fire, in rule order. */
  function Fired(rules: seq<Rule>, categories: seq<Category>): (tips: seq<Tip>)
    ensures |tips| <= |rules|
  {
    if rules == [] then []
    else
      var r := rules[|rules| - 1];
      Fired(rules[..|rules| - 1], categories) + (if Fires(r, categories) then [r.tip] else [])
  }

  /** One more rule tried. */
  lemma FiredStep(rules: seq<Rule>, categories: seq<Category>, k: nat)
    requires k < |rules|
    ensures Fired(rules[..k + 1], categories)
      == Fired(rules[..k], categories) + (if Fires(rules[k], categories) then [rules[k].tip] else [])
  {
    assert rules[..k + 1][..k] == rules[..k];
  }

  /** A rule that fires contributes its tip. */
  lemma {:induction false} FiredComplete(rules: seq<Rule>, categories: seq<Category>, k: nat)
    requires k < |rules| && Fires(rules[k], categories)
    ensures rules[k].tip in Fired(rules, categories)
    decreases |rules|
  {
    var n := |rules| - 1;
    var tail := if Fires(rules[n], categories) then [rules[n].tip] else [];
    assert Fired(rules, categories) == Fired(rules[..n], categories) + tail;
    if k < n {
      assert rules[..n][k] == rules[k];
      FiredComplete(rules[..n], categories, k);
    } else {
      assert tail == [rules[k].tip];
    }
  }

  /** Every tip given comes from a rule that fires. */
  lemma {:induction false} FiredSound(rules: seq<Rule>, categories: seq<Category>, t: Tip)
    requires t in Fired(rules, categories)
    ensures exists k :: 0 <= k < |rules| && rules[k].tip == t && Fires(rules[k], categories)
    decreases |rules|
  {
    var n := |rules| - 1;
    var tail := if Fires(rules[n], categories) then [rules[n].tip] else [];
    assert Fired(rules, categories) == Fired(rules[..n], categories) + tail;
    if t in Fired(rules[..n], categories) {
      FiredSound(rules[..n], categories, t);
      var k :| 0 <= k < n && rules[..n][k].tip == t && Fires(rules[..n][k], categories);
      assert rules[k] == rules[..n][k];
    } else {
      assert t in tail;
      assert rules[n].tip == t && Fires(rules[n], categories);
    }
  }

  /** No two rules share a tip. */
  predicate DistinctTips(rules: seq<Rule>) {
    forall i, j :: 0 <= i < j < |rules| ==> rules[i].tip.title != rules[j].tip.title
  }

  lemma RulesFacts()
    ensures |Rules| == 10
    ensures DistinctTips(Rules)
    ensures forall k :: 0 <= k < |Rules| ==> Rules[k].below <= 100
    ensures forall k :: 0 <= k < |Rules| ==> Rules[k].tip.title != TailorTip.title && Rules[k].tip.title != UpdatedTip.title
  {
  }

  /** A rule's tip is given exactly when its category scores below the
      threshold. */
  lemma RuleFires(categories: seq<Category>, k: nat)
    requires k < |Rules|
    ensures Rules[k].tip in Fired(Rules, categories) <==> ScoreOf(categories, Rules[k].category) < Rules[k].below
  {
    RulesFacts();
    if Rules[k].tip in Fired(Rules, categories) {
      FiredSound(Rules, categories, Rules[k].tip);
      var j :| 0 <= j < |Rules| && Rules[j].tip == Rules[k].tip && Fires(Rules[j], categories);
      assert j == k;
    } else if Fires(Rules[k], categories) {
      FiredComplete(Rules, categories, k);
    }
  }

  /** A category missing from the report counts as 100%, so its rule never
      fires. */
  lemma AbsentNeverFires(categories: seq<Category>, k: nat)
    requires k < |Rules|
    requires forall i :: 0 <= i < |categories| ==> categories[i].name != Rules[k].category
    ensures Rules[k].tip !in Fired(Rules, categories)
  {
    RulesFacts();
    RuleFires(categories, k);
  }

  // ---------------------------------------------------------------------
  // The tips before sorting

  /** The two bonus tips for a strong overall score: tailoring only when
      fewer than two tips were given, keeping the resume updated always. */
  function Bonus(given: nat, overall: int): (tips: seq<Tip>)
  {
    (if overall >= 80 && given < 2 then [TailorTip] else [])
    + (if overall >= 80 then [UpdatedTip] else [])
  }

  /** The tips in the order they are generated. */
  function Generated(categories: seq<Category>, overall: int): (tips: seq<Tip>)
    ensures |tips| <= 12
  {
    var fired := Fired(Rules, categories);
    RulesFacts();
    fired + Bonus(|fired|, overall)
  }

  /** Which bonus tips are generated. */
  lemma BonusTips(categories: seq<Category>, overall: int)
    ensures TailorTip in Generated(categories, overall) <==> overall >= 80 && |Fired(Rules, categories)| < 2
    ensures UpdatedTip in Generated(categories, overall) <==> overall >= 80
  {
    RulesFacts();
    var fired := Fired(Rules, categories);
    if TailorTip in fired {
      FiredSound(Rules, categories, TailorTip);
    }
    if UpdatedTip in fired {
      FiredSound(Rules, categories, UpdatedTip);
    }
  }

  // ---------------------------------------------------------------------
  // Stable sort by priority

  /** The tips of one priority, in their order. */
  function OfPriority(tips: seq<Tip>, p: Priority): (r: seq<Tip>)
    ensures |r| <= |tips|
    ensures forall i :: 0 <= i < |r| ==> r[i].priority == p
  {
    if tips == [] then []
    else
      var t := tips[|tips| - 1];
      OfPriority(tips[..|tips| - 1], p) + (if t.priority == p then [t] else [])
  }

  /** `tips.sort(key=rank)`: Python's sort is stable, so the result is the
      high tips, then the medium ones, then the low ones, each group in
      generation order. */
  function PrioritySort(tips: seq<Tip>): (r: seq<Tip>)
  {
    OfPriority(tips, High) + OfPriority(tips, Medium) + OfPriority(tips, Low)
  }

  /** No tip is ranked after a later one. */
  predicate Ranked(tips: seq<Tip>) {
    forall i, j :: 0 <= i < j < |tips| ==> Rank(tips[i].priority) <= Rank(tips[j].priority)
  }

  lemma {:induction false} OfPriorityAppend(a: seq<Tip>, b: seq<Tip>, p: Priority)
    ensures OfPriority(a + b, p) == OfPriority(a, p) + OfPriority(b, p)
    decreases |b|
  {
    if b == [] {
      assert a + b == a;
    } else {
      var n := |b| - 1;
      assert (a + b)[..|a + b| - 1] == a + b[..n];
      assert (a + b)[|a + b| - 1] == b[n];
      OfPriorityAppend(a, b[..n], p);
    }
  }

  /** Selecting a priority from tips all of one priority keeps all or none. */
  lemma {:induction false} OfPriorityUniform(tips: seq<Tip>, q: Priority, p: Priority)
    requires forall i :: 0 <= i < |tips| ==> tips[i].priority == q
    ensures OfPriority(tips, p) == if p == q then tips else []
  {
    if tips != [] {
      var n := |tips| - 1;
      OfPriorityUniform(tips[..n], q, p);
      assert tips == tips[..n] + [tips[n]];
    }
  }

  lemma {:induction false} OfPriorityMultiset(tips: seq<Tip>)
    ensures multiset(tips)
      == multiset(OfPriority(tips, High)) + multiset(OfPriority(tips, Medium)) + multiset(OfPriority(tips, Low))
  {
    if tips != [] {
      var n := |tips| - 1;
      var init, t := tips[..n], tips[n];
      assert tips == init + [t];
      assert multiset(tips) == multiset(init) + multiset{t};
      OfPriorityMultiset(init);
      var h, m, l := OfPriority(init, High), OfPriority(init, Medium), OfPriority(init, Low);
      match t.priority
      case High =>
        assert OfPriority(tips, High) == h + [t];
        assert OfPriority(tips, Medium) == m && OfPriority(tips, Low) == l;
      case Medium =>
        assert OfPriority(tips, Medium) == m + [t];
        assert OfPriority(tips, High) == h && OfPriority(tips, Low) == l;
      case Low =>
        assert OfPriority(tips, Low) == l + [t];
        assert OfPriority(tips, High) == h && OfPriority(tips, Medium) == m;
    }
  }

  /** Three groups of ascending rank in a row are ranked. */
  lemma RankedGroups(a: seq<Tip>, b: seq<Tip>, c: seq<Tip>)
    requires forall i :: 0 <= i < |a| ==> a[i].priority == High
    requires forall i :: 0 <= i < |b| ==> b[i].priority == Medium
    requires forall i :: 0 <= i < |c| ==> c[i].priority == Low
    ensures Ranked(a + b + c)
  {
    var s := a + b + c;
    forall i, j | 0 <= i < j < |s| ensures Rank(s[i].priority) <= Rank(s[j].priority) {
      if j < |a| {
        assert s[i] == a[i] && s[j] == a[j];
      } else if j < |a| + |b| {
        assert s[j] == b[j - |a|];
        if i >= |a| { assert s[i] == b[i - |a|]; } else { assert s[i] == a[i]; }
      } else {
        assert s[j] == c[j - |a| - |b|];
      }
    }
  }

  /** The sorted tips are ordered by priority, are the generated ones
      rearranged, and keep the generation order within each priority. */
  lemma PrioritySortSpec(tips: seq<Tip>)
    ensures Ranked(PrioritySort(tips))
    ensures multiset(PrioritySort(tips)) == multiset(tips)
    ensures forall p :: OfPriority(PrioritySort(tips), p) == OfPriority(tips, p)
  {
    var h, m, l := OfPriority(tips, High), OfPriority(tips, Medium), OfPriority(tips, Low);
    RankedGroups(h, m, l);
    OfPriorityMultiset(tips);
    forall p ensures OfPriority(PrioritySort(tips), p) == OfPriority(tips, p) {
      OfPriorityAppend(h + m, l, p);
      OfPriorityAppend(h, m, p);
      OfPriorityUniform(h, High, p);
      OfPriorityUniform(m, Medium, p);
      OfPriorityUniform(l, Low, p);
      match p
      case High => assert OfPriority(PrioritySort(tips), p) == h + [] + [];
      case Medium => assert OfPriority(PrioritySort(tips), p) == [] + m + [];
      case Low => assert OfPriority(PrioritySort(tips), p) == [] + [] + l;
    }
  }

  lemma RankedPrefix(s: seq<Tip>, n: nat)
    requires Ranked(s) && n <= |s|
    ensures Ranked(s[..n])
  {
    assert forall i :: 0 <= i < n ==> s[..n][i] == s[i];
  }

  /** Splitting a ranked list by priority and putting it back together
      gives the list itself. */
  lemma {:induction false} RankedSplit(s: seq<Tip>)
    requires Ranked(s)
    ensures s == PrioritySort(s)
  {
    if s != [] {
      var n := |s| - 1;
      RankedPrefix(s, n);
      RankedSplit(s[..n]);
      assert s == s[..n] + [s[n]];
      assert forall i :: 0 <= i < n ==> s[..n][i] == s[i];
      RankedSplitStep(s[..n], s[n]);
    }
  }

  lemma OfPriorityLast(init: seq<Tip>, t: Tip, p: Priority)
    ensures OfPriority(init + [t], p) == OfPriority(init, p) + (if t.priority == p then [t] else [])
  {
    assert (init + [t])[..|init|] == init;
  }

  /** A tip of the highest rank so far, added at the end, stays there. */
  lemma RankedSplitStep(init: seq<Tip>, t: Tip)
    requires init == PrioritySort(init)
    requires forall i :: 0 <= i < |init| ==> Rank(init[i].priority) <= Rank(t.priority)
    ensures init + [t] == PrioritySort(init + [t])
  {
    match t.priority
    case Low => AppendLow(init, t);
    case Medium => AppendMedium(init, t);
    case High => AppendHigh(init, t);
  }

  lemma AppendLow(init: seq<Tip>, t: Tip)
    requires init == PrioritySort(init) && t.priority == Low
    ensures init + [t] == PrioritySort(init + [t])
  {
    var h, m, l := OfPriority(init, High), OfPriority(init, Medium), OfPriority(init, Low);
    OfPriorityLast(init, t, High);
    OfPriorityLast(init, t, Medium);
    OfPriorityLast(init, t, Low);
    assert init + [t] == h + m + (l + [t]);
  }

  lemma AppendMedium(init: seq<Tip>, t: Tip)
    requires init == PrioritySort(init) && t.priority == Medium
    requires forall i :: 0 <= i < |init| ==> init[i].priority != Low
    ensures init + [t] == PrioritySort(init + [t])
  {
    var h, m := OfPriority(init, High), OfPriority(init, Medium);
    NoneOfPriority(init, Low);
    OfPriorityLast(init, t, High);
    OfPriorityLast(init, t, Medium);
    OfPriorityLast(init, t, Low);
    assert init + [t] == h + (m + [t]) + [];
  }

  lemma AppendHigh(init: seq<Tip>, t: Tip)
    requires t.priority == High
    requires forall i :: 0 <= i < |init| ==> init[i].priority == High
    ensures init + [t] == PrioritySort(init + [t])
  {
    OfPriorityUniform(init, High, High);
    OfPriorityUniform(init, High, Medium);
    OfPriorityUniform(init, High, Low);
    OfPriorityLast(init, t, High);
    OfPriorityLast(init, t, Medium);
    OfPriorityLast(init, t, Low);
    assert init + [t] == (init + [t]) + [] + [];
  }

  lemma {:induction false} NoneOfPriority(tips: seq<Tip>, p: Priority)
    requires forall i :: 0 <= i < |tips| ==> tips[i].priority != p
    ensures OfPriority(tips, p) == []
  {
    if tips != [] {
      NoneOfPriority(tips[..|tips| - 1], p);
    }
  }

  /** The stable priority sort is the only arrangement that is ranked and
      keeps each priority's tips in their order. */
  lemma PrioritySortUnique(tips: seq<Tip>, r: seq<Tip>)
    requires Ranked(r)
    requires forall p :: OfPriority(r, p) == OfPriority(tips, p)
    ensures r == PrioritySort(tips)
  {
    RankedSplit(r);
  }

  /** `tips[:8]` */
  function FirstEight(tips: seq<Tip>): (r: seq<Tip>)
    ensures |r| <= 8
    ensures |tips| <= 8 ==> r == tips
    ensures r == tips[..|r|]
  {
    if |tips| <= 8 then tips else tips[..8]
  }

  /** A high tip of a later rule is listed before a medium tip of an
      earlier one: with experience and verbs both weak, the experience tip
      comes first although its rule is tried later. */
  lemma HighBeforeMedium(tips: seq<Tip>, i: nat, j: nat)
    requires i < j < |PrioritySort(tips)|
    ensures PrioritySort(tips)[j].priority == High ==> PrioritySort(tips)[i].priority == High
    ensures PrioritySort(tips)[i].priority == Low ==> PrioritySort(tips)[j].priority == Low
  {
    PrioritySortSpec(tips);
  }

  // ---------------------------------------------------------------------
  // generate_tips

  /** The ten `if` statements, one per rule and in rule order, each adding
      the rule's tip when its category scores below the threshold.  (The
      table is a parameter so that the verifier does not unfold the
      constant while following the steps.) */
  method ApplyRules(rules: seq<Rule>, categories: seq<Category>) returns (tips: seq<Tip>)
    requires |rules| == 10
    ensures tips == Fired(rules, categories)
  {
    tips := [];
    tips := ApplyRule(rules, categories, 0, tips);
    tips := ApplyRule(rules, categories, 1, tips);
    tips := ApplyRule(rules, categories, 2, tips);
    tips := ApplyRule(rules, categories, 3, tips);
    tips := ApplyRule(rules, categories, 4, tips);
    tips := ApplyRule(rules, categories, 5, tips);
    tips := ApplyRule(rules, categories, 6, tips);
    tips := ApplyRule(rules, categories, 7, tips);
    tips := ApplyRule(rules, categories, 8, tips);
    tips := ApplyRule(rules, categories, 9, tips);
    assert rules[..10] == rules;
  }

  /** One `if`: the tip of rule `k` is appended when the rule fires. */
  method ApplyRule(rules: seq<Rule>, categories: seq<Category>, k: nat, given: seq<Tip>) returns (tips: seq<Tip>)
    requires k < |rules| && given == Fired(rules[..k], categories)
    ensures tips == Fired(rules[..k + 1], categories)
  {
    FiredStep(rules, categories, k);
    tips := given;
    if Fires(rules[k], categories) {
      tips := tips + [rules[k].tip];
    }
  }

  /** `generate_tips(categories, overall_score, text_lower)`; the text is
      not consulted. */
  method GenerateTips(categories: seq<Category>, overall: int) returns (tips: seq<Tip>)
    ensures tips == FirstEight(PrioritySort(Generated(categories, overall)))
    ensures |tips| <= 8 && Ranked(tips)
  {
    RulesFacts();
    tips := ApplyRules(Rules, categories);
    ghost var fired := tips;

    if overall >= 80 && |tips| < 2 {
      tips := tips + [TailorTip];
    }
    if overall >= 80 {
      tips := tips + [UpdatedTip];
    }
    assert tips == fired + Bonus(|fired|, overall);

    tips := PrioritySort(tips);
    PrioritySortSpec(Generated(categories, overall));
    if |tips| > 8 {
      RankedPrefix(tips, 8);
      tips := tips[..8];
    }
  }
}
