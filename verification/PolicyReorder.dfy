/** When the order in which groups and rules are registered does not matter. */
module PolicyReorder {
  import opened Common
  import opened Policy

  /** One registered rule, with what its group contributes. */
  datatype Item = Item(rule: Rule, name: string, policy: Option<Policy>)

  function RuleItems(g: Group, rules: seq<Rule>): seq<Item> {
    if rules == [] then []
    else RuleItems(g, rules[..|rules| - 1]) + [Item(rules[|rules| - 1], g.name, g.policy)]
  }

  /** Every registered rule, in registration order. */
  function Items(groups: seq<Group>): seq<Item> {
    if groups == [] then []
    else
      var g := groups[|groups| - 1];
      Items(groups[..|groups| - 1]) + RuleItems(g, g.rules)
  }

  /** A group up to the order of its rules. */
  datatype Shape = Shape(name: string, policy: Option<Policy>, rules: multiset<Rule>)

  function ShapeOf(g: Group): Shape {
    Shape(g.name, g.policy, multiset(g.rules))
  }

  function Shapes(groups: seq<Group>): seq<Shape> {
    if groups == [] then [] else Shapes(groups[..|groups| - 1]) + [ShapeOf(groups[|groups| - 1])]
  }

  /** The same groups in any order, each with the same rules in any order. */
  ghost predicate Reordered(a: seq<Group>, b: seq<Group>) {
    multiset(Shapes(a)) == multiset(Shapes(b))
  }

  predicate Registers(shape: Shape, x: Item) {
    x.name == shape.name && x.policy == shape.policy && x.rule in shape.rules
  }

  lemma {:induction false} RuleItemFrom(g: Group, rules: seq<Rule>, x: Item)
    ensures x in RuleItems(g, rules) <==> x.name == g.name && x.policy == g.policy && x.rule in rules
  {
    if rules != [] {
      var n := |rules| - 1;
      RuleItemFrom(g, rules[..n], x);
      assert rules == rules[..n] + [rules[n]];
    }
  }

  lemma GroupRegisters(g: Group, x: Item)
    ensures Registers(ShapeOf(g), x) <==> x in RuleItems(g, g.rules)
  {
    RuleItemFrom(g, g.rules, x);
    assert x.rule in g.rules <==> x.rule in multiset(g.rules);
  }

  ghost predicate Registered(shapes: seq<Shape>, x: Item) {
    exists shape :: shape in shapes && Registers(shape, x)
  }

  lemma RegisteredLast(shapes: seq<Shape>, shape: Shape, x: Item)
    ensures Registered(shapes + [shape], x) <==> Registered(shapes, x) || Registers(shape, x)
  {
    var all := shapes + [shape];
    assert shape in all;
    if Registered(shapes, x) {
      var y :| y in shapes && Registers(y, x);
      assert y in all;
    }
  }

  lemma {:induction false} ItemFrom(groups: seq<Group>, x: Item)
    ensures x in Items(groups) <==> Registered(Shapes(groups), x)
  {
    if groups != [] {
      var n := |groups| - 1;
      ItemFrom(groups[..n], x);
      GroupRegisters(groups[n], x);
      RegisteredLast(Shapes(groups[..n]), ShapeOf(groups[n]), x);
    }
  }

  lemma SameItems(a: seq<Group>, b: seq<Group>, x: Item)
    requires Reordered(a, b)
    ensures x in Items(a) <==> x in Items(b)
  {
    ItemFrom(a, x);
    ItemFrom(b, x);
    forall shape ensures shape in Shapes(a) <==> shape in Shapes(b) {
      assert shape in Shapes(a) <==> shape in multiset(Shapes(a));
      assert shape in Shapes(b) <==> shape in multiset(Shapes(b));
    }
  }

  ghost predicate Yields(re: Engine, m: string, item: Item, c: Candidate) {
    && Match(re, item.rule, m) == Some(c.length)
    && c.kind == item.rule.kind && c.name == item.name && c.policy == item.policy
  }

  lemma {:induction false} RuleCandidateFrom(re: Engine, g: Group, rules: seq<Rule>, m: string, c: Candidate)
    ensures c in RuleCandidates(re, g, rules, m) <==> exists x :: x in RuleItems(g, rules) && Yields(re, m, x, c)
  {
    if rules != [] {
      var n := |rules| - 1;
      RuleCandidateFrom(re, g, rules[..n], m, c);
      var last := Item(rules[n], g.name, g.policy);
      assert RuleItems(g, rules) == RuleItems(g, rules[..n]) + [last];
      if c in RuleCandidates(re, g, rules[..n], m) {
        var x :| x in RuleItems(g, rules[..n]) && Yields(re, m, x, c);
        assert x in RuleItems(g, rules);
      } else if c in RuleCandidates(re, g, rules, m) {
        assert last in RuleItems(g, rules) && Yields(re, m, last, c);
      }
    }
  }

  lemma {:induction false} CandidateFrom(re: Engine, groups: seq<Group>, m: string, c: Candidate)
    ensures c in Candidates(re, groups, m) <==> exists x :: x in Items(groups) && Yields(re, m, x, c)
  {
    if groups != [] {
      var n := |groups| - 1;
      CandidateFrom(re, groups[..n], m, c);
      RuleCandidateFrom(re, groups[n], groups[n].rules, m, c);
    }
  }

  lemma SameCandidates(re: Engine, a: seq<Group>, b: seq<Group>, m: string, c: Candidate)
    requires Reordered(a, b)
    ensures c in Candidates(re, a, m) <==> c in Candidates(re, b, m)
  {
    CandidateFrom(re, a, m, c);
    CandidateFrom(re, b, m, c);
    forall x ensures x in Items(a) <==> x in Items(b) { SameItems(a, b, x); }
  }

  /** A matching rule that no other matching rule beats. */
  ghost predicate IsTop(re: Engine, groups: seq<Group>, m: string, c: Candidate) {
    && c in Candidates(re, groups, m)
    && forall d :: d in Candidates(re, groups, m) ==> !Beats(d, c)
  }

  /** All unbeaten matches come from groups of one name and policy. */
  ghost predicate TopAgree(re: Engine, groups: seq<Group>, m: string) {
    forall c, d :: IsTop(re, groups, m, c) && IsTop(re, groups, m, d) ==> c.name == d.name && c.policy == d.policy
  }

  lemma FirstBestIsUnbeaten(cs: seq<Candidate>, k: nat, c: Candidate)
    requires IsFirstBest(cs, k) && c in cs
    ensures !Beats(c, cs[k])
  {
    var j :| 0 <= j < |cs| && cs[j] == c;
    if j < k { assert Beats(cs[k], cs[j]); }
  }

  lemma AnswerIsTop(re: Engine, groups: seq<Group>, m: string) returns (c: Candidate)
    requires Candidates(re, groups, m) != []
    ensures IsTop(re, groups, m, c) && Answer(re, groups, m) == Resolution(c.name, c.policy, true)
  {
    var cs := Candidates(re, groups, m);
    var i := BestIsFirstBest(cs);
    c := cs[i];
    forall d | d in cs ensures !Beats(d, c) { FirstBestIsUnbeaten(cs, i, d); }
  }

  lemma ReorderKeepsAnswer(re: Engine, a: seq<Group>, b: seq<Group>, m: string)
    requires Reordered(a, b) && TopAgree(re, a, m)
    ensures Answer(re, a, m) == Answer(re, b, m)
  {
    var ca, cb := Candidates(re, a, m), Candidates(re, b, m);
    forall c ensures c in ca <==> c in cb { SameCandidates(re, a, b, m, c); }
    if cb != [] { assert cb[0] in ca; }
    if ca != [] {
      assert ca[0] in cb;
      var c := AnswerIsTop(re, a, m);
      var d := AnswerIsTop(re, b, m);
      assert IsTop(re, a, m, d);
    }
  }

  // ---------------------------------------------------------------- the converse

  lemma ShapesLast(groups: seq<Group>, g: Group)
    ensures Shapes(groups + [g]) == Shapes(groups) + [ShapeOf(g)]
  {
    assert (groups + [g])[..|groups|] == groups;
  }

  lemma {:induction false} ShapesOfAppend(a: seq<Group>, b: seq<Group>)
    ensures Shapes(a + b) == Shapes(a) + Shapes(b)
  {
    if b == [] {
      assert a + b == a;
    } else {
      var n := |b| - 1;
      var init, last := b[..n], b[n];
      assert b == init + [last];
      ConcatAssociative(a, init, [last]);
      ShapesOfAppend(a, init);
      ShapesLast(a + init, last);
      ShapesLast(init, last);
    }
  }

  function ToFront(groups: seq<Group>, i: nat): seq<Group>
    requires i < |groups|
  {
    [groups[i]] + (groups[..i] + groups[i + 1..])
  }

  /** Moving one group to the front is a reordering. */
  lemma ToFrontReorders(groups: seq<Group>, i: nat)
    requires i < |groups|
    ensures Reordered(groups, ToFront(groups, i))
  {
    var before, here, behind := groups[..i], [groups[i]], groups[i + 1..];
    assert groups == (before + here) + behind;
    ShapesOfAppend(before + here, behind);
    ShapesOfAppend(before, here);
    ShapesOfAppend(here, before + behind);
    ShapesOfAppend(before, behind);
  }

  /** Candidates behind one that they do not beat do not change the best. */
  lemma FrontWins(mine: seq<Candidate>, others: seq<Candidate>, c: Candidate)
    requires c in mine && forall d :: d in others ==> !Beats(d, c)
    ensures Best(mine + others) == Best(mine)
  {
    BestOfAppend(mine, others);
    var k := BestIsFirstBest(mine);
    FirstBestIsUnbeaten(mine, k, c);
    if others != [] {
      var l := BestIsFirstBest(others);
      assert !Beats(others[l], c);
    }
  }

  lemma CandidatesToFront(re: Engine, groups: seq<Group>, m: string, i: nat)
    requires i < |groups|
    ensures Candidates(re, ToFront(groups, i), m) ==
      RuleCandidates(re, groups[i], groups[i].rules, m) + Candidates(re, groups[..i] + groups[i + 1..], m)
  {
    var g := groups[i];
    CandidatesOfAppend(re, [g], groups[..i] + groups[i + 1..], m);
    CandidatesLast(re, [], g, m);
    assert [] + [g] == [g];
  }

  /** Register the group of an unbeaten match first, and that group is the answer. */
  lemma FirstTopAnswers(re: Engine, groups: seq<Group>, m: string, c: Candidate) returns (i: nat)
    requires IsTop(re, groups, m, c)
    ensures i < |groups| && Answer(re, ToFront(groups, i), m) == Resolution(c.name, c.policy, true)
  {
    i := CandidateGroup(re, groups, m, c);
    var front, mine := ToFront(groups, i), RuleCandidates(re, groups[i], groups[i].rules, m);
    var others := Candidates(re, groups[..i] + groups[i + 1..], m);
    CandidatesToFront(re, groups, m, i);
    ToFrontReorders(groups, i);
    forall d | d in others ensures !Beats(d, c) {
      assert d in mine + others;
      SameCandidates(re, groups, front, m, d);
    }
    FrontWins(mine, others, c);
    var k := BestIsFirstBest(mine);
    RuleCandidateGroup(re, groups[i], groups[i].rules, m, mine[k]);
  }

  /** The answer stays the same whichever group is moved to the front. */
  ghost predicate AnyGroupFirst(re: Engine, groups: seq<Group>, m: string) {
    forall i: nat :: i < |groups| ==> Answer(re, ToFront(groups, i), m) == Answer(re, groups, m)
  }

  /**
   The answer for a method survives every reordering of the groups, and of the rules within each, exactly when
   all its unbeaten matches agree on name and policy; moving single groups to the front tells.
   */
  lemma ReorderingIsHarmlessIff(re: Engine, groups: seq<Group>, m: string)
    ensures (forall other: seq<Group> :: Reordered(groups, other) ==> Answer(re, other, m) == Answer(re, groups, m))
        <==> TopAgree(re, groups, m)
    ensures AnyGroupFirst(re, groups, m) <==> TopAgree(re, groups, m)
  {
    if TopAgree(re, groups, m) {
      forall other: seq<Group> | Reordered(groups, other) ensures Answer(re, other, m) == Answer(re, groups, m) {
        ReorderKeepsAnswer(re, groups, other, m);
      }
      forall i: nat | i < |groups| ensures Answer(re, ToFront(groups, i), m) == Answer(re, groups, m) {
        ToFrontReorders(groups, i);
      }
    } else {
      var c, d :| IsTop(re, groups, m, c) && IsTop(re, groups, m, d) && !(c.name == d.name && c.policy == d.policy);
      var i := FirstTopAnswers(re, groups, m, c);
      var j := FirstTopAnswers(re, groups, m, d);
      ToFrontReorders(groups, i);
      ToFrontReorders(groups, j);
      assert Answer(re, ToFront(groups, i), m) != Answer(re, ToFront(groups, j), m);
    }
  }

  // ---------------------------------------------------------------- distinct patterns

  /** No exact pattern and no prefix pattern is registered twice. */
  ghost predicate DistinctPatterns(groups: seq<Group>) {
    var items := Items(groups);
    forall i, j :: 0 <= i < j < |items| && items[i].rule.kind == items[j].rule.kind && !items[i].rule.kind.Regex? ==>
      items[i].rule.pattern != items[j].rule.pattern
  }

  /** With distinct patterns, order does not matter for a method that some exact or prefix rule matches. */
  lemma DistinctPatternsAreOrderFree(re: Engine, groups: seq<Group>, other: seq<Group>, m: string, sure: Candidate)
    requires DistinctPatterns(groups) && Reordered(groups, other)
    requires sure in Candidates(re, groups, m) && !sure.kind.Regex?
    ensures Answer(re, groups, m) == Answer(re, other, m)
  {
    forall c, d | IsTop(re, groups, m, c) && IsTop(re, groups, m, d) ensures c == d {
      assert !Beats(sure, c) && !Beats(sure, d) && !Beats(c, d) && !Beats(d, c);
      CandidateFrom(re, groups, m, c);
      CandidateFrom(re, groups, m, d);
      var items := Items(groups);
      var x :| x in items && Yields(re, m, x, c);
      var y :| y in items && Yields(re, m, y, d);
      SamePattern(re, m, x.rule, y.rule);
      var i :| 0 <= i < |items| && items[i] == x;
      var j :| 0 <= j < |items| && items[j] == y;
      assert i == j;
    }
    ReorderKeepsAnswer(re, groups, other, m);
  }

  /** Two exact, or two prefix, matches of one length on one method have the same pattern. */
  lemma SamePattern(re: Engine, m: string, r: Rule, q: Rule)
    requires r.kind == q.kind && !r.kind.Regex?
    requires Match(re, r, m).Some? && Match(re, r, m) == Match(re, q, m)
    ensures r.pattern == q.pattern
  {
    if r.kind.Prefix? {
      assert r.pattern == m[..|r.pattern|] && q.pattern == m[..|q.pattern|];
    }
  }
}
