/** `check_measurable_results`: quantified achievements in six classes,
    10 points in all (100 tenths). */
module Results {
  import opened Text
  import opened Scoring
  import opened Catalog

  /** What the six `findall` searches return, in the order of the metric
      dictionary: percentages, money amounts, people counts, durations,
      volumes and impact statements. */
  datatype ResultsSignals = ResultsSignals(
    percentages: seq<string>,
    dollars: seq<string>,
    people: seq<string>,
    time: seq<string>,
    volume: seq<string>,
    impact: seq<string>)

  /** The metric dictionary, one named class per search. */
  function MetricClasses(sig: ResultsSignals): (classes: seq<Group>)
    ensures |classes| == 6
  {
    [Group("Percentages", sig.percentages), Group("Financial", sig.dollars), Group("People/Scale", sig.people),
     Group("Time", sig.time), Group("Volume", sig.volume), Group("Impact Statements", sig.impact)]
  }

  /** `sum(len(v) for v in all_metrics.values())` */
  function MatchTotal(classes: seq<Group>): (n: nat)
  {
    if classes == [] then 0 else MatchTotal(classes[..|classes| - 1]) + |classes[|classes| - 1].members|
  }

  /** The total is the six counts added up. */
  lemma MatchTotalOfSignals(sig: ResultsSignals)
    ensures MatchTotal(MetricClasses(sig)) == |sig.percentages| + |sig.dollars| + |sig.people|
      + |sig.time| + |sig.volume| + |sig.impact|
  {
    var c := MetricClasses(sig);
    assert MatchTotal(c) == MatchTotal(c[..5]) + |sig.impact|;
    assert MatchTotal(c[..5]) == MatchTotal(c[..4]) + |sig.volume| by { assert c[..5][..4] == c[..4]; }
    assert MatchTotal(c[..4]) == MatchTotal(c[..3]) + |sig.time| by { assert c[..4][..3] == c[..3]; }
    assert MatchTotal(c[..3]) == MatchTotal(c[..2]) + |sig.people| by { assert c[..3][..2] == c[..2]; }
    assert MatchTotal(c[..2]) == MatchTotal(c[..1]) + |sig.dollars| by { assert c[..2][..1] == c[..1]; }
    assert MatchTotal(c[..1]) == |sig.percentages| by { assert c[..1][..0] == []; }
  }

  const ResultSteps: seq<Step<Grade>> := [Step(8, Grade(100, Pass)), Step(5, Grade(80, Pass)),
    Step(3, Grade(50, Warning)), Step(1, Grade(20, Warning))]
  const NoResults: Grade := Grade(0, Fail)

  /** The award for a total number of metrics. */
  function ResultGrade(n: nat): Grade {
    Tier(n, ResultSteps, NoResults)
  }

  /** The award is one of 0, 2, 5, 8 and 10 points, and more metrics never
      lower it. */
  lemma ResultGradeValues(m: nat, n: nat)
    requires m <= n
    ensures ResultGrade(n).points in {0, 20, 50, 80, 100}
    ensures ResultGrade(m).points <= ResultGrade(n).points
    ensures ResultGrade(n).points == 0 <==> n == 0
  {
    Unroll(n, ResultSteps, NoResults);
    Unroll(m, ResultSteps, NoResults);
  }

  /** `v.strip()[:60]`: the start of the stripped value, at most 60 characters. */
  function Snippet(v: string): (r: string)
    ensures |r| <= 60 && |r| <= |Strip(v)|
    ensures r == Strip(v)[..|r|]
    ensures |Strip(v)| <= 60 ==> r == Strip(v)
  {
    Prefix(Strip(v), 60)
  }

  /** Each value stripped and cut to 60 characters. */
  function Shortened(values: seq<string>): (r: seq<string>)
    ensures |r| == |values|
  {
    seq(|values|, i requires 0 <= i < |values| => Snippet(values[i]))
  }

  /** `[v.strip()[:60] for v in values[:3]]` */
  function Display(values: seq<string>): (r: seq<string>)
    ensures |r| == if |values| <= 3 then |values| else 3
  {
    Shortened(Prefix(values, 3))
  }

  /** One information finding per class with matches, in dictionary order:
      the class name, then at most three shortened matches. */
  function MetricInfos(classes: seq<Group>): (r: seq<Finding>)
    ensures |r| <= |classes|
    ensures forall i :: 0 <= i < |r| ==> r[i].kind == Info && 2 <= |r[i].items| <= 4
  {
    if classes == [] then []
    else
      var g := classes[|classes| - 1];
      MetricInfos(classes[..|classes| - 1])
      + (if g.members != [] then [Finding(Info, "metric-class", [], [g.name] + Display(g.members))] else [])
  }

  function Flag(b: bool): nat {
    if b then 1 else 0
  }

  /** One information finding for each of the six classes that matched. */
  lemma MetricInfosOfSignals(sig: ResultsSignals)
    ensures |MetricInfos(MetricClasses(sig))| == Flag(sig.percentages != []) + Flag(sig.dollars != [])
      + Flag(sig.people != []) + Flag(sig.time != []) + Flag(sig.volume != []) + Flag(sig.impact != [])
  {
    var c := MetricClasses(sig);
    assert |MetricInfos(c)| == |MetricInfos(c[..5])| + Flag(sig.impact != []);
    assert |MetricInfos(c[..5])| == |MetricInfos(c[..4])| + Flag(sig.volume != []) by { assert c[..5][..4] == c[..4]; }
    assert |MetricInfos(c[..4])| == |MetricInfos(c[..3])| + Flag(sig.time != []) by { assert c[..4][..3] == c[..3]; }
    assert |MetricInfos(c[..3])| == |MetricInfos(c[..2])| + Flag(sig.people != []) by { assert c[..3][..2] == c[..2]; }
    assert |MetricInfos(c[..2])| == |MetricInfos(c[..1])| + Flag(sig.dollars != []) by { assert c[..2][..1] == c[..1]; }
    assert |MetricInfos(c[..1])| == Flag(sig.percentages != []) by { assert c[..1][..0] == []; }
  }

  /** The loop appending one finding per class with matches. */
  method AppendMetricInfos(findings: seq<Finding>, classes: seq<Group>) returns (r: seq<Finding>)
    ensures r == findings + MetricInfos(classes)
  {
    r := findings;
    var i := 0;
    while i < |classes|
      invariant 0 <= i <= |classes|
      invariant r == findings + MetricInfos(classes[..i])
    {
      assert classes[..i + 1][..i] == classes[..i];
      var g := classes[i];
      if g.members != [] {
        r := r + [Finding(Info, "metric-class", [], [g.name] + Display(g.members))];
      }
      i := i + 1;
    }
    assert classes[..i] == classes;
  }

  const FinanceWords: seq<string> := ["revenue", "budget", "cost", "savings"]

  /** The two closing tips: percentages when there are none, financial
      impact when there is no money amount and no finance word. */
  function TipFindings(noPercentages: bool, noFinance: bool): (fs: seq<Finding>)
    ensures |fs| == (if noPercentages then 1 else 0) + (if noFinance then 1 else 0)
    ensures forall i :: 0 <= i < |fs| ==> fs[i].kind == Warning
    ensures noPercentages ==> fs[0].tag == "tip-percentages"
    ensures noFinance ==> fs[|fs| - 1].tag == "tip-financial"
  {
    (if noPercentages then [Note(Warning, "tip-percentages")] else [])
    + (if noFinance then [Note(Warning, "tip-financial")] else [])
  }

  /** The tier sub-check; every finding but the failure reports the total. */
  method CheckTotal(n: nat) returns (f: Finding, points: int)
    ensures points == ResultGrade(n).points
    ensures f.kind == ResultGrade(n).kind
    ensures n >= 1 ==> f.counts == [n]
  {
    Unroll(n, ResultSteps, NoResults);
    if n >= 8 {
      points := 100;
      f := Finding(Pass, "results-exceptional", [n], []);
    } else if n >= 5 {
      points := 80;
      f := Finding(Pass, "results-strong", [n], []);
    } else if n >= 3 {
      points := 50;
      f := Finding(Warning, "results-moderate", [n], []);
    } else if n >= 1 {
      points := 20;
      f := Finding(Warning, "results-few", [n], []);
    } else {
      points := 0;
      f := Note(Fail, "results-missing");
    }
  }

  /** `check_measurable_results`.  Findings: the tier first, one per class
      with matches, then the tips. */
  method CheckMeasurableResults(sig: ResultsSignals, textLower: string) returns (r: CheckResult)
    ensures r.maxScore == 100
    ensures r.score == ResultGrade(MatchTotal(MetricClasses(sig))).points
    ensures r.score in {0, 20, 50, 80, 100}
    ensures |r.findings| >= 1
    ensures var noFinance := sig.dollars == [] && !ContainsAny(textLower, FinanceWords);
      r.findings == [r.findings[0]] + MetricInfos(MetricClasses(sig)) + TipFindings(sig.percentages == [], noFinance)
    ensures r.findings[0].kind == ResultGrade(MatchTotal(MetricClasses(sig))).kind
  {
    var maxScore := 100;
    var classes := MetricClasses(sig);
    var total := MatchTotal(classes);
    var tierFinding, score := CheckTotal(total);
    var findings := [tierFinding];
    findings := AppendMetricInfos(findings, classes);
    var noFinance := sig.dollars == [] && !ContainsAny(textLower, FinanceWords);
    findings := findings + TipFindings(sig.percentages == [], noFinance);
    ResultGradeValues(total, total);

    r := CheckResult(Clamp(score, maxScore), maxScore, findings);
  }
}
