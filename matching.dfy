/** Matching a `{category: [phrases]}` table against a text, as the verb
    and hard-skill checkers do: the loop that keeps, per category, the
    phrases that match and collects them all, the information finding per
    matched category, and the categories left unmatched. */
module Matching {
  import opened Text
  import opened Scoring
  import opened Catalog

  /** How a phrase is looked for: at a word start (the verb pattern
      `\b<verb>\w*\b`) or as a substring of its lower-cased form. */
  datatype Rule = WordStart | Substring

  predicate Matches(rule: Rule, text: string, phrase: string) {
    match rule
    case WordStart => OccursAtWordStart(text, phrase)
    case Substring => Contains(text, Lower(phrase))
  }

  /** `[p for p in phrases if <p matches>]`, in table order. */
  function Matched(phrases: seq<string>, text: string, rule: Rule): (r: seq<string>)
    ensures |r| <= |phrases|
    ensures forall i :: 0 <= i < |r| ==> r[i] in phrases && Matches(rule, text, r[i])
    ensures forall i :: 0 <= i < |phrases| && Matches(rule, text, phrases[i]) ==> phrases[i] in r
  {
    if phrases == [] then []
    else
      var n := |phrases| - 1;
      Matched(phrases[..n], text, rule) + (if Matches(rule, text, phrases[n]) then [phrases[n]] else [])
  }

  /** The categories with at least one match, each with its matches, in
      table order (the dictionary the loop fills). */
  function FoundGroups(groups: seq<Group>, text: string, rule: Rule): (r: seq<Group>)
    ensures |r| <= |groups|
    ensures forall i :: 0 <= i < |r| ==> r[i].members != []
  {
    if groups == [] then []
    else
      var n := |groups| - 1;
      var m := Matched(groups[n].members, text, rule);
      FoundGroups(groups[..n], text, rule) + (if m != [] then [Group(groups[n].name, m)] else [])
  }

  function GroupNames(groups: seq<Group>): (r: seq<string>)
    ensures |r| == |groups|
    ensures forall i :: 0 <= i < |groups| ==> r[i] == groups[i].name
  {
    if groups == [] then [] else GroupNames(groups[..|groups| - 1]) + [groups[|groups| - 1].name]
  }

  /** The category has at least one match. */
  predicate HasMatch(g: Group, text: string, rule: Rule) {
    Matched(g.members, text, rule) != []
  }

  lemma GroupNamesAppend(a: seq<Group>, g: Group)
    ensures GroupNames(a + [g]) == GroupNames(a) + [g.name]
  {
    assert (a + [g])[..|a|] == a;
  }

  /** The found categories after one more table entry. */
  lemma FoundGroupsStep(groups: seq<Group>, text: string, rule: Rule)
    requires groups != []
    ensures var n := |groups| - 1;
      GroupNames(FoundGroups(groups, text, rule)) == GroupNames(FoundGroups(groups[..n], text, rule))
        + (if HasMatch(groups[n], text, rule) then [groups[n].name] else [])
  {
    var n := |groups| - 1;
    var before := FoundGroups(groups[..n], text, rule);
    var m := Matched(groups[n].members, text, rule);
    if m != [] {
      assert FoundGroups(groups, text, rule) == before + [Group(groups[n].name, m)];
      GroupNamesAppend(before, Group(groups[n].name, m));
    } else {
      assert FoundGroups(groups, text, rule) == before;
    }
  }

  /** Every category with a match is among the found ones. */
  lemma {:induction false} FoundGroupNamesComplete(groups: seq<Group>, text: string, rule: Rule, k: nat)
    requires k < |groups| && HasMatch(groups[k], text, rule)
    ensures groups[k].name in GroupNames(FoundGroups(groups, text, rule))
  {
    var n := |groups| - 1;
    FoundGroupsStep(groups, text, rule);
    var before := GroupNames(FoundGroups(groups[..n], text, rule));
    var last: seq<string> := if HasMatch(groups[n], text, rule) then [groups[n].name] else [];
    assert GroupNames(FoundGroups(groups, text, rule)) == before + last;
    if k < n {
      assert groups[..n][k] == groups[k];
      FoundGroupNamesComplete(groups[..n], text, rule, k);
      assert groups[k].name in before;
    } else {
      assert last == [groups[k].name];
    }
  }

  /** Every found category is a category with a match. */
  lemma {:induction false} FoundGroupNamesSound(groups: seq<Group>, text: string, rule: Rule, x: string)
    requires x in GroupNames(FoundGroups(groups, text, rule))
    ensures exists k :: 0 <= k < |groups| && groups[k].name == x && HasMatch(groups[k], text, rule)
  {
    var n := |groups| - 1;
    FoundGroupsStep(groups, text, rule);
    if x in GroupNames(FoundGroups(groups[..n], text, rule)) {
      FoundGroupNamesSound(groups[..n], text, rule, x);
      var k :| 0 <= k < n && groups[..n][k].name == x && HasMatch(groups[..n][k], text, rule);
      assert groups[k] == groups[..n][k];
    } else {
      assert groups[n].name == x && HasMatch(groups[n], text, rule);
    }
  }

  /** A category is among the found ones exactly when some category of
      that name has a match. */
  lemma FoundGroupNames(groups: seq<Group>, text: string, rule: Rule, x: string)
    ensures x in GroupNames(FoundGroups(groups, text, rule))
      <==> exists k :: 0 <= k < |groups| && groups[k].name == x && HasMatch(groups[k], text, rule)
  {
    if x in GroupNames(FoundGroups(groups, text, rule)) {
      FoundGroupNamesSound(groups, text, rule, x);
    }
    if exists k :: 0 <= k < |groups| && groups[k].name == x && HasMatch(groups[k], text, rule) {
      var k :| 0 <= k < |groups| && groups[k].name == x && HasMatch(groups[k], text, rule);
      FoundGroupNamesComplete(groups, text, rule, k);
    }
  }

  /** Appending a category appends its phrases. */
  lemma {:induction false} FlattenAppend(a: seq<Group>, g: Group)
    ensures Flatten(a + [g]) == Flatten(a) + g.members
  {
    if a == [] {
      assert [g][1..] == [];
    } else {
      assert (a + [g])[1..] == a[1..] + [g];
      FlattenAppend(a[1..], g);
    }
  }

  /** The number of matches of every category together, repeats across
      categories counted each time. */
  function MatchCount(groups: seq<Group>, text: string, rule: Rule): (n: nat)
  {
    if groups == [] then 0
    else MatchCount(groups[..|groups| - 1], text, rule) + |Matched(groups[|groups| - 1].members, text, rule)|
  }

  /** The collected matches are the matches of every category, with
      multiplicity. */
  lemma {:induction false} TotalIsMatchCount(groups: seq<Group>, text: string, rule: Rule)
    ensures |Flatten(FoundGroups(groups, text, rule))| == MatchCount(groups, text, rule)
  {
    if groups != [] {
      var n := |groups| - 1;
      TotalIsMatchCount(groups[..n], text, rule);
      var m := Matched(groups[n].members, text, rule);
      var before := FoundGroups(groups[..n], text, rule);
      if m != [] {
        assert FoundGroups(groups, text, rule) == before + [Group(groups[n].name, m)];
        FlattenAppend(before, Group(groups[n].name, m));
      } else {
        assert FoundGroups(groups, text, rule) == before;
      }
    }
  }

  /** The matching loop: per category the phrases that match; the
      categories with a match and all matches, in table order. */
  method MatchGroups(groups: seq<Group>, text: string, rule: Rule) returns (found: seq<Group>, total: seq<string>)
    ensures found == FoundGroups(groups, text, rule)
    ensures total == Flatten(found)
  {
    found, total := [], [];
    var i := 0;
    while i < |groups|
      invariant 0 <= i <= |groups|
      invariant found == FoundGroups(groups[..i], text, rule)
      invariant total == Flatten(found)
    {
      assert groups[..i + 1][..i] == groups[..i];
      var g := groups[i];
      var matched := Matched(g.members, text, rule);
      if matched != [] {
        FlattenAppend(found, Group(g.name, matched));
        found := found + [Group(g.name, matched)];
        total := total + matched;
      }
      i := i + 1;
    }
    assert groups[..i] == groups;
  }

  /** One information finding per matched category: its name, then its
      matches. */
  function CategoryInfos(found: seq<Group>): (r: seq<Finding>)
    ensures |r| == |found|
    ensures forall i :: 0 <= i < |r| ==> r[i].kind == Info && r[i].items == [found[i].name] + found[i].members
  {
    if found == [] then []
    else
      var g := found[|found| - 1];
      CategoryInfos(found[..|found| - 1]) + [Finding(Info, "category", [], [g.name] + g.members)]
  }

  /** The loop over the matched categories, appending their findings. */
  method AppendCategoryInfos(findings: seq<Finding>, found: seq<Group>) returns (r: seq<Finding>)
    ensures r == findings + CategoryInfos(found)
  {
    r := findings;
    var i := 0;
    while i < |found|
      invariant 0 <= i <= |found|
      invariant r == findings + CategoryInfos(found[..i])
    {
      assert found[..i + 1][..i] == found[..i];
      var g := found[i];
      r := r + [Finding(Info, "category", [], [g.name] + g.members)];
      i := i + 1;
    }
    assert found[..i] == found;
  }

  /** `[c for c in table if c not in found]`: the names of the categories
      not among the found ones, in table order. */
  function MissingNames(groups: seq<Group>, foundNames: seq<string>): (r: seq<string>)
    ensures |r| <= |groups|
    ensures forall i :: 0 <= i < |r| ==> r[i] !in foundNames && r[i] in GroupNames(groups)
    ensures forall k :: 0 <= k < |groups| && groups[k].name !in foundNames ==> groups[k].name in r
    decreases |groups|
  {
    if groups == [] then []
    else
      var rest := MissingNames(groups[1..], foundNames);
      assert forall k :: 1 <= k < |groups| ==> groups[k] == groups[1..][k - 1];
      assert forall x :: x in GroupNames(groups[1..]) ==> x in GroupNames(groups) by {
        forall x | x in GroupNames(groups[1..]) ensures x in GroupNames(groups) {
          var j :| 0 <= j < |groups[1..]| && GroupNames(groups[1..])[j] == x;
          assert GroupNames(groups)[j + 1] == x;
        }
      }
      assert groups[0].name == GroupNames(groups)[0];
      (if groups[0].name !in foundNames then [groups[0].name] else []) + rest
  }

  /** A missing name is the name of a category without a match. */
  lemma MissingUnmatched(groups: seq<Group>, text: string, rule: Rule, x: string)
    requires x in MissingNames(groups, GroupNames(FoundGroups(groups, text, rule)))
    ensures exists k :: 0 <= k < |groups| && groups[k].name == x && !HasMatch(groups[k], text, rule)
  {
    var k :| 0 <= k < |groups| && GroupNames(groups)[k] == x;
    FoundGroupNames(groups, text, rule, x);
    assert groups[k].name == x && !HasMatch(groups[k], text, rule);
  }

  /** With distinct category names, a category without a match is missing. */
  lemma UnmatchedMissing(groups: seq<Group>, text: string, rule: Rule, k: nat)
    requires Distinct(GroupNames(groups))
    requires k < |groups| && !HasMatch(groups[k], text, rule)
    ensures groups[k].name in MissingNames(groups, GroupNames(FoundGroups(groups, text, rule)))
  {
    var x := groups[k].name;
    forall j | 0 <= j < |groups| && groups[j].name == x
      ensures !HasMatch(groups[j], text, rule)
    {
      assert GroupNames(groups)[j] == GroupNames(groups)[k];
    }
    FoundGroupNames(groups, text, rule, x);
  }

  /** With distinct category names, no category is missing exactly when
      every category has a match. */
  lemma NoneMissing(groups: seq<Group>, text: string, rule: Rule)
    requires Distinct(GroupNames(groups))
    ensures MissingNames(groups, GroupNames(FoundGroups(groups, text, rule))) == []
      <==> forall k :: 0 <= k < |groups| ==> HasMatch(groups[k], text, rule)
  {
    var r := MissingNames(groups, GroupNames(FoundGroups(groups, text, rule)));
    if r != [] {
      MissingUnmatched(groups, text, rule, r[0]);
    }
    if exists k :: 0 <= k < |groups| && !HasMatch(groups[k], text, rule) {
      var k :| 0 <= k < |groups| && !HasMatch(groups[k], text, rule);
      UnmatchedMissing(groups, text, rule, k);
    }
  }
}
