/** `check_keyword_optimization`: the distinct hard and soft keywords in
    the text, the most repeated ones and the sorted listing, 10 points in
    all (100 tenths). */
module Keywords {
  import opened Text
  import opened Scoring
  import opened Catalog
  import opened Matching
  import opened Ordering

  // ---------------------------------------------------------------------
  // The keywords found

  /** The loop `for skills in table.values(): all_keywords.extend(skills)`. */
  method ExtendAll(acc: seq<string>, groups: seq<Group>) returns (r: seq<string>)
    ensures r == acc + Flatten(groups)
  {
    r := acc;
    var i := 0;
    while i < |groups|
      invariant 0 <= i <= |groups|
      invariant r == acc + Flatten(groups[..i])
    {
      assert groups[..i + 1] == groups[..i] + [groups[i]];
      FlattenAppend(groups[..i], groups[i]);
      r := r + groups[i].members;
      i := i + 1;
    }
    assert groups[..i] == groups;
  }

  /** `all_keywords`: the phrases of the hard-skill table, then those of
      the soft-skill table. */
  method CollectKeywords(hard: seq<Group>, soft: seq<Group>) returns (all: seq<string>)
    ensures all == Flatten(hard) + Flatten(soft)
  {
    all := ExtendAll([], hard);
    assert all == Flatten(hard);
    all := ExtendAll(all, soft);
  }

  /** `set(kw for kw in all_keywords if kw.lower() in text_lower)`, as a
      list without repeats in first-occurrence order. */
  function FoundKeywords(all: seq<string>, textLower: string): (r: seq<string>)
    ensures Distinct(r)
    ensures forall i :: 0 <= i < |r| ==> r[i] in all && Contains(textLower, Lower(r[i]))
    ensures forall i :: 0 <= i < |all| && Contains(textLower, Lower(all[i])) ==> all[i] in r
  {
    var m := Matched(all, textLower, Substring);
    var r := Dedup(m);
    assert forall i :: 0 <= i < |r| ==> r[i] in m;
    r
  }

  const KeywordSteps: seq<Step<Grade>> := [Step(20, Grade(100, Pass)), Step(14, Grade(80, Pass)),
    Step(8, Grade(50, Warning)), Step(4, Grade(30, Warning))]
  const NoKeywords: Grade := Grade(0, Fail)

  /** The award for a number of distinct keywords. */
  function KeywordGrade(n: nat): Grade {
    Tier(n, KeywordSteps, NoKeywords)
  }

  /** More distinct keywords never lower the award, which lies between 0
      and 10 points. */
  lemma KeywordGradeMonotone(m: nat, n: nat)
    requires m <= n
    ensures 0 <= KeywordGrade(m).points <= KeywordGrade(n).points <= 100
  {
    assert Descending(KeywordSteps, NoKeywords);
    TierMonotone(m, n, KeywordSteps, NoKeywords);
    TierBounds(m, KeywordSteps, NoKeywords);
    TierBounds(n, KeywordSteps, NoKeywords);
  }

  /** A keyword repeated under several categories counts once. */
  lemma RepeatsCountOnce(all: seq<string>, textLower: string)
    ensures |FoundKeywords(all, textLower)| <= |all|
    ensures |FoundKeywords(all, textLower)| <= |Matched(all, textLower, Substring)|
  {
  }

  // ---------------------------------------------------------------------
  // Repeated keywords

  /** `Counter(tokens).get(w, 0)` */
  function Frequency(tokens: seq<string>, w: string): nat {
    Count(tokens, (t: string) => t == w)
  }

  /** No token equals `w`, so its frequency is 0. */
  lemma {:induction false} FrequencyAbsent(tokens: seq<string>, w: string)
    requires forall i :: 0 <= i < |tokens| ==> tokens[i] != w
    ensures Frequency(tokens, w) == 0
  {
    if tokens != [] {
      var n := |tokens| - 1;
      assert forall i :: 0 <= i < n ==> tokens[..n][i] == tokens[i];
      FrequencyAbsent(tokens[..n], w);
    }
  }

  /** The frequency is taken over whitespace-separated tokens, so a keyword
      containing whitespace ("machine learning", "team lead") is never
      counted as repeated. */
  lemma SpacedKeywordNeverRepeated(textLower: string, kw: string, j: nat)
    requires j < |kw| && IsSpace(kw[j])
    ensures Frequency(Words(textLower), kw) == 0
  {
    var tokens := Words(textLower);
    forall i | 0 <= i < |tokens| ensures tokens[i] != kw {
      assert IsWord(tokens[i]);
    }
    FrequencyAbsent(tokens, kw);
  }

  /** A keyword with its frequency. */
  datatype Emphasis = Emphasis(keyword: string, count: nat)

  /** `[(kw, freq(kw)) for kw in keywords if freq(kw) >= 3]` */
  function Repeated(keywords: seq<string>, tokens: seq<string>): (r: seq<Emphasis>)
    ensures |r| <= |keywords|
    ensures forall i :: 0 <= i < |r| ==>
      r[i].keyword in keywords && r[i].count == Frequency(tokens, r[i].keyword) && r[i].count >= 3
  {
    if keywords == [] then []
    else
      var n := |keywords| - 1;
      var kw := keywords[n];
      var f := Frequency(tokens, kw);
      Repeated(keywords[..n], tokens) + (if f >= 3 then [Emphasis(kw, f)] else [])
  }

  /** Every keyword of frequency at least 3 is among the repeated ones. */
  lemma {:induction false} RepeatedComplete(keywords: seq<string>, tokens: seq<string>, k: nat)
    requires k < |keywords| && Frequency(tokens, keywords[k]) >= 3
    ensures Emphasis(keywords[k], Frequency(tokens, keywords[k])) in Repeated(keywords, tokens)
  {
    var n := |keywords| - 1;
    var f := Frequency(tokens, keywords[n]);
    var tail := if f >= 3 then [Emphasis(keywords[n], f)] else [];
    assert Repeated(keywords, tokens) == Repeated(keywords[..n], tokens) + tail;
    if k < n {
      assert keywords[..n][k] == keywords[k];
      RepeatedComplete(keywords[..n], tokens, k);
    } else {
      assert tail == [Emphasis(keywords[k], f)];
    }
  }

  /** Counts never rise along the list. */
  predicate CountsDescending(s: seq<Emphasis>) {
    forall i, j :: 0 <= i < j < |s| ==> s[i].count >= s[j].count
  }

  /** `e` placed after the last element whose count is at least its own,
      which keeps elements of equal count in arrival order. */
  function InsertByCount(s: seq<Emphasis>, e: Emphasis): (r: seq<Emphasis>)
    requires CountsDescending(s)
    ensures multiset(r) == multiset(s) + multiset{e}
    ensures |r| == |s| + 1
    ensures CountsDescending(r)
  {
    if s == [] || s[|s| - 1].count >= e.count then s + [e]
    else
      var n := |s| - 1;
      var front := InsertByCount(s[..n], e);
      assert s == s[..n] + [s[n]];
      InsertByCountStep(s, e, front);
      front + [s[n]]
  }

  /** The last element, whose count is below that of `e`, stays last. */
  lemma InsertByCountStep(s: seq<Emphasis>, e: Emphasis, front: seq<Emphasis>)
    requires s != [] && CountsDescending(s) && s[|s| - 1].count < e.count
    requires CountsDescending(front) && multiset(front) == multiset(s[..|s| - 1]) + multiset{e}
    ensures CountsDescending(front + [s[|s| - 1]])
  {
    var n := |s| - 1;
    forall i | 0 <= i < |front| ensures front[i].count >= s[n].count {
      assert front[i] in multiset(front);
      if front[i] != e {
        assert front[i] in multiset(s[..n]);
        var k :| 0 <= k < n && s[..n][k] == front[i];
        assert s[k] == front[i];
      }
    }
  }

  /** `s.sort(key=count, reverse=True)`, the stable sort by descending count. */
  function SortByCount(s: seq<Emphasis>): (r: seq<Emphasis>)
    ensures multiset(r) == multiset(s)
    ensures |r| == |s|
    ensures CountsDescending(r)
  {
    if s == [] then []
    else
      var n := |s| - 1;
      assert s == s[..n] + [s[n]];
      InsertByCount(SortByCount(s[..n]), s[n])
  }

  function Keywords(es: seq<Emphasis>): (r: seq<string>)
    ensures |r| == |es|
    ensures forall i :: 0 <= i < |es| ==> r[i] == es[i].keyword
  {
    if es == [] then [] else Keywords(es[..|es| - 1]) + [es[|es| - 1].keyword]
  }

  function Counts(es: seq<Emphasis>): (r: seq<int>)
    ensures |r| == |es|
    ensures forall i :: 0 <= i < |es| ==> r[i] == es[i].count
  {
    if es == [] then [] else Counts(es[..|es| - 1]) + [es[|es| - 1].count]
  }

  /** The emphasis finding, only when some keyword is repeated: the first
      five by descending count, with their counts. */
  function EmphasisFindings(sorted: seq<Emphasis>): (fs: seq<Finding>)
    ensures |fs| == (if sorted == [] then 0 else 1)
    ensures |fs| == 1 ==> (fs[0].kind == Info && |fs[0].items| <= 5
      && fs[0].items == Keywords(Prefix(sorted, 5)) && fs[0].counts == Counts(Prefix(sorted, 5)))
  {
    if sorted == [] then []
    else
      var top := Prefix(sorted, 5);
      [Finding(Info, "keywords-emphasized", Counts(top), Keywords(top))]
  }

  // ---------------------------------------------------------------------
  // The sorted listing

  /** The number of chunks of 12 among the first 24 keywords. */
  function ChunkCount(n: nat): (k: nat)
    ensures k <= 2
    ensures k == 0 <==> n == 0
    ensures k == 1 <==> 1 <= n <= 12
  {
    if n == 0 then 0 else if n <= 12 then 1 else 2
  }

  /** The first `k` listing findings, chunk `c` holding `sorted[12c:12c+12]`. */
  function ListingFindings(sorted: seq<string>, k: nat): (fs: seq<Finding>)
    ensures |fs| == k
    ensures forall c :: 0 <= c < k ==> fs[c].kind == Info && fs[c].items == Slice(sorted, 12 * c, 12 * c + 12)
  {
    if k == 0 then []
    else ListingFindings(sorted, k - 1) + [Finding(Info, "keywords-detected", [], Slice(sorted, 12 * (k - 1), 12 * k))]
  }

  /** The listing shows exactly the first 24 sorted keywords, in order. */
  lemma ListingCoversPrefix(sorted: seq<string>)
    ensures var fs := ListingFindings(sorted, ChunkCount(|sorted|));
      (|fs| == 1 ==> fs[0].items == sorted) && (|fs| == 2 ==> fs[0].items + fs[1].items == Prefix(sorted, 24))
  {
    if |sorted| > 12 {
      var fs := ListingFindings(sorted, 2);
      assert fs[0].items == sorted[..12];
      assert fs[0].items + fs[1].items == Prefix(sorted, 24);
    }
  }

  /** The chunking loop over the sorted keywords. */
  method AppendListing(findings: seq<Finding>, sorted: seq<string>) returns (r: seq<Finding>)
    ensures r == findings + ListingFindings(sorted, ChunkCount(|sorted|))
  {
    var limit := if |sorted| <= 24 then |sorted| else 24;
    var chunkSize := 12;
    r := findings;
    var i := 0;
    ghost var k := 0;
    while i < limit
      invariant i == 12 * k && 0 <= k <= ChunkCount(|sorted|)
      invariant k < ChunkCount(|sorted|) <==> i < limit
      invariant r == findings + ListingFindings(sorted, k)
    {
      var chunk := Slice(sorted, i, i + chunkSize);
      r := r + [Finding(Info, "keywords-detected", [], chunk)];
      i := i + chunkSize;
      k := k + 1;
    }
  }

  // ---------------------------------------------------------------------
  // The checker

  /** The tier sub-check; every finding but the failure reports the count. */
  method CheckKeywordCount(n: nat) returns (f: Finding, points: int)
    ensures points == KeywordGrade(n).points
    ensures f.kind == KeywordGrade(n).kind
    ensures n >= 4 ==> f.counts == [n]
  {
    Unroll(n, KeywordSteps, NoKeywords);
    if n >= 20 {
      points := 100;
      f := Finding(Pass, "keywords-outstanding", [n], []);
    } else if n >= 14 {
      points := 80;
      f := Finding(Pass, "keywords-strong", [n], []);
    } else if n >= 8 {
      points := 50;
      f := Finding(Warning, "keywords-moderate", [n], []);
    } else if n >= 4 {
      points := 30;
      f := Finding(Warning, "keywords-low", [n], []);
    } else {
      points := 0;
      f := Note(Fail, "keywords-few");
    }
  }

  /** The parts of `[first] + middle + rest + [last]`. */
  lemma ConcatParts(first: Finding, middle: seq<Finding>, rest: seq<Finding>, last: Finding)
    ensures var fs := [first] + middle + rest + [last];
      fs[0] == first && fs[1..1 + |middle|] == middle && fs[|fs| - 1 - |rest|..|fs| - 1] == rest && fs[|fs| - 1] == last
  {
  }

  const ProTip: Finding := Note(Info, "keywords-pro-tip")

  /** The scoring of the found keywords, `order` being the order the set
      of found keywords is iterated in, and `tokens` the whitespace-separated
      tokens of the text.  Findings: the tier, the emphasis (if any), the
      listing chunks, and last the pro tip. */
  method ScoreKeywords(order: seq<string>, tokens: seq<string>) returns (r: CheckResult)
    ensures r.maxScore == 100
    ensures r.score == KeywordGrade(|order|).points
    ensures 0 <= r.score <= 100
    ensures 2 <= |r.findings| <= 5
    ensures |r.findings| == 2 + |EmphasisFindings(SortByCount(Repeated(order, tokens)))| + ChunkCount(|order|)
    ensures r.findings[0].kind == KeywordGrade(|order|).kind
    ensures var emphasis := EmphasisFindings(SortByCount(Repeated(order, tokens)));
      r.findings[1..1 + |emphasis|] == emphasis
    ensures r.findings[|r.findings| - 1 - ChunkCount(|order|)..|r.findings| - 1]
      == ListingFindings(Sort(order), ChunkCount(|order|))
    ensures r.findings[|r.findings| - 1] == ProTip
  {
    var maxScore := 100;
    var tierFinding, score := CheckKeywordCount(|order|);
    var repeated := Repeated(order, tokens);
    var ranked := SortByCount(repeated);
    var emphasis := EmphasisFindings(ranked);
    var findings := [tierFinding] + emphasis;
    var sorted := Sort(order);
    findings := AppendListing(findings, sorted);
    findings := findings + [ProTip];
    assert findings == [tierFinding] + emphasis + ListingFindings(sorted, ChunkCount(|order|)) + [ProTip];
    ConcatParts(tierFinding, emphasis, ListingFindings(sorted, ChunkCount(|order|)), ProTip);
    KeywordGradeMonotone(|order|, |order|);

    r := CheckResult(Clamp(score, maxScore), maxScore, findings);
  }

  /** Two arrangements of the same keywords have the same number of them
      and the same sorted listing. */
  lemma SameElements(order: seq<string>, found: seq<string>)
    requires multiset(order) == multiset(found)
    ensures |order| == |found| && Sort(order) == Sort(found)
  {
    assert |multiset(order)| == |multiset(found)|;
    SortPermutation(order, found);
  }

  /** The keyword collection over two tables, then the scoring.  `order`
      is the iteration order of the set of found keywords, which Python
      leaves unspecified: any arrangement of the found keywords.  The score
      and the listing do not depend on it. */
  method CheckKeywordsIn(hard: seq<Group>, soft: seq<Group>, textLower: string, order: seq<string>)
    returns (r: CheckResult)
    requires multiset(order) == multiset(FoundKeywords(Flatten(hard) + Flatten(soft), textLower))
    ensures r.maxScore == 100
    ensures var found := FoundKeywords(Flatten(hard) + Flatten(soft), textLower);
      r.score == KeywordGrade(|found|).points
    ensures 2 <= |r.findings| <= 5
    ensures var found := FoundKeywords(Flatten(hard) + Flatten(soft), textLower);
      |r.findings| >= 2 + ChunkCount(|found|)
    ensures var found := FoundKeywords(Flatten(hard) + Flatten(soft), textLower);
      r.findings[|r.findings| - 1 - ChunkCount(|found|)..|r.findings| - 1] == ListingFindings(Sort(found), ChunkCount(|found|))
    ensures r.findings[|r.findings| - 1] == ProTip
    ensures var found := FoundKeywords(Flatten(hard) + Flatten(soft), textLower);
      r.findings[0].kind == KeywordGrade(|found|).kind
  {
    var all := CollectKeywords(hard, soft);
    ghost var found := FoundKeywords(all, textLower);
    SameElements(order, found);
    r := ScoreKeywords(order, Words(textLower));
  }

  /** `check_keyword_optimization` on the lower-cased text, over the hard
      and soft skill tables. */
  method CheckKeywordOptimization(textLower: string, order: seq<string>) returns (r: CheckResult)
    requires multiset(order) == multiset(FoundKeywords(Flatten(HardSkills) + Flatten(SoftSkills), textLower))
    ensures r.maxScore == 100
    ensures r.score == KeywordGrade(|FoundKeywords(Flatten(HardSkills) + Flatten(SoftSkills), textLower)|).points
    ensures 2 <= |r.findings| <= 5
    ensures r.findings[|r.findings| - 1] == ProTip
    ensures var found := FoundKeywords(Flatten(HardSkills) + Flatten(SoftSkills), textLower);
      r.findings[0].kind == KeywordGrade(|found|).kind
      && |r.findings| >= 2 + ChunkCount(|found|)
      && r.findings[|r.findings| - 1 - ChunkCount(|found|)..|r.findings| - 1] == ListingFindings(Sort(found), ChunkCount(|found|))
  {
    r := CheckKeywordsIn(HardSkills, SoftSkills, textLower, order);
  }
}
