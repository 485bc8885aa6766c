/** Method groups, rule matching and best-match resolution. */
module Policy {
  import opened Common

  datatype RateLimitRule = RateLimitRule(rate: int, window: int)

  datatype Policy = Policy(rateLimit: Option<RateLimitRule>, timeout: int, authRequired: bool)

  /** A policy that says nothing but a rate limit. */
  function OnlyLimiting(rule: RateLimitRule): Policy {
    Policy(Some(rule), 0, false)
  }

  datatype Kind = Exact | Prefix | Regex

  /** The priority number of a kind: lower wins. */
  function Rank(kind: Kind): nat {
    match kind
    case Exact => 0
    case Prefix => 1
    case Regex => 2
  }

  datatype Rule = Rule(kind: Kind, pattern: string)

  datatype Group = Group(name: string, rules: seq<Rule>, policy: Option<Policy>)

  /** The regular-expression engine: the length of a pattern's leftmost match in a method name, if any. */
  type Engine = (string, string) -> Option<nat>

  function Match(re: Engine, r: Rule, fullMethod: string): Option<nat> {
    match r.kind
    case Exact => if fullMethod == r.pattern then Some(|r.pattern|) else None
    case Prefix => if r.pattern <= fullMethod then Some(|r.pattern|) else None
    case Regex => re(r.pattern, fullMethod)
  }

  /** One rule that matched, with the group it belongs to. */
  datatype Candidate = Candidate(kind: Kind, length: nat, name: string, policy: Option<Policy>)

  /** A lower kind wins, then a longer match. */
  predicate Beats(a: Candidate, b: Candidate) {
    Rank(a.kind) < Rank(b.kind) || (a.kind == b.kind && a.length > b.length)
  }

  function RuleCandidates(re: Engine, g: Group, rules: seq<Rule>, m: string): seq<Candidate> {
    if rules == [] then []
    else
      var rest := RuleCandidates(re, g, rules[..|rules| - 1], m);
      var r := rules[|rules| - 1];
      var len := Match(re, r, m);
      if len.Some? then rest + [Candidate(r.kind, len.value, g.name, g.policy)] else rest
  }

  /** Every matching rule of every group, in registration order. */
  function Candidates(re: Engine, groups: seq<Group>, m: string): seq<Candidate> {
    if groups == [] then []
    else
      var g := groups[|groups| - 1];
      Candidates(re, groups[..|groups| - 1], m) + RuleCandidates(re, g, g.rules, m)
  }

  /** `i` is the first of the best candidates: it beats every earlier one and no later one beats it. */
  ghost predicate IsFirstBest(cs: seq<Candidate>, i: nat) {
    && i < |cs|
    && (forall j :: 0 <= j < i ==> Beats(cs[i], cs[j]))
    && (forall j :: i < j < |cs| ==> !Beats(cs[j], cs[i]))
  }

  /** The better of two results, the earlier one on a tie. */
  function Combine(a: Option<Candidate>, b: Option<Candidate>): Option<Candidate> {
    match (a, b)
    case (None, _) => b
    case (_, None) => a
    case (Some(x), Some(y)) => if Beats(y, x) then b else a
  }

  function Best(cs: seq<Candidate>): Option<Candidate> {
    if cs == [] then None else Combine(Best(cs[..|cs| - 1]), Some(cs[|cs| - 1]))
  }

  datatype Resolution = Resolution(groupName: string, policy: Option<Policy>, ok: bool)

  function AsResolution(c: Option<Candidate>): Resolution {
    match c
    case None => Resolution("", None, false)
    case Some(x) => Resolution(x.name, x.policy, true)
  }

  /** What `Resolve` returns. */
  function Answer(re: Engine, groups: seq<Group>, m: string): Resolution {
    AsResolution(Best(Candidates(re, groups, m)))
  }

  class Resolver {
    const groups: seq<Group>

    constructor (groups: seq<Group>)
      ensures this.groups == groups
    {
      this.groups := groups;
    }

    /** The nested search: `bestKind` is -1 until something matches. */
    method Resolve(re: Engine, fullMethod: string) returns (groupName: string, pol: Option<Policy>, ok: bool)
      ensures Resolution(groupName, pol, ok) == Answer(re, groups, fullMethod)
    {
      var bestKind: int, bestLen: int := -1, -1;
      groupName, pol, ok := "", None, false;
      ghost var cs: seq<Candidate> := [];
      for i := 0 to |groups|
        invariant cs == Candidates(re, groups[..i], fullMethod)
        invariant Tracks(bestKind, bestLen, Best(cs)) && Resolution(groupName, pol, ok) == AsResolution(Best(cs))
      {
        var g := groups[i];
        ghost var before := cs;
        for j := 0 to |g.rules|
          invariant cs == before + RuleCandidates(re, g, g.rules[..j], fullMethod)
          invariant Tracks(bestKind, bestLen, Best(cs)) && Resolution(groupName, pol, ok) == AsResolution(Best(cs))
        {
          var r := g.rules[j];
          var len := Match(re, r, fullMethod);
          RuleCandidatesSnoc(re, g, g.rules, j, fullMethod, before);
          if len.None? {
            continue;
          }
          ghost var c := Candidate(r.kind, len.value, g.name, g.policy);
          BestSnoc(cs, c);
          cs := cs + [c];
          var better := bestKind < 0 || Rank(r.kind) < bestKind || (Rank(r.kind) == bestKind && len.value > bestLen);
          if better {
            bestKind, bestLen := Rank(r.kind), len.value;
            groupName, pol, ok := g.name, g.policy, true;
          }
        }
        CandidatesSnoc(re, groups, i, fullMethod);
        assert g.rules[..|g.rules|] == g.rules;
      }
      assert groups[..|groups|] == groups;
    }
  }

  lemma BestSnoc(cs: seq<Candidate>, c: Candidate)
    ensures Best(cs + [c]) == Combine(Best(cs), Some(c))
  {
    assert (cs + [c])[..|cs|] == cs;
  }

  lemma RuleCandidatesSnoc(re: Engine, g: Group, rules: seq<Rule>, j: nat, m: string, before: seq<Candidate>)
    requires j < |rules|
    ensures var len := Match(re, rules[j], m);
      before + RuleCandidates(re, g, rules[..j + 1], m) ==
        before + RuleCandidates(re, g, rules[..j], m) +
        (if len.Some? then [Candidate(rules[j].kind, len.value, g.name, g.policy)] else [])
  {
    assert rules[..j + 1][..j] == rules[..j];
  }

  lemma CandidatesSnoc(re: Engine, groups: seq<Group>, i: nat, m: string)
    requires i < |groups|
    ensures Candidates(re, groups[..i + 1], m) ==
      Candidates(re, groups[..i], m) + RuleCandidates(re, groups[i], groups[i].rules, m)
  {
    assert groups[..i + 1][..i] == groups[..i];
  }

  predicate Tracks(bestKind: int, bestLen: int, best: Option<Candidate>) {
    match best
    case None => bestKind == -1 && bestLen == -1
    case Some(c) => bestKind == Rank(c.kind) && bestLen == c.length
  }

  lemma {:induction false} BestIsFirstBest(cs: seq<Candidate>) returns (i: nat)
    requires cs != []
    ensures IsFirstBest(cs, i) && Best(cs) == Some(cs[i])
  {
    var n := |cs| - 1;
    i := n;
    if n > 0 {
      var k := BestIsFirstBest(cs[..n]);
      if !Beats(cs[n], cs[k]) {
        i := k;
      } else {
        forall j | 0 <= j < n ensures Beats(cs[n], cs[j]) {
          assert cs[..n][j] == cs[j];
        }
      }
    }
  }

  /** There is at most one first best. */
  lemma FirstBestIsUnique(cs: seq<Candidate>, i: nat, j: nat)
    requires IsFirstBest(cs, i) && IsFirstBest(cs, j)
    ensures i == j
  {
    var x, y := cs[i], cs[j];
    if i != j { assert false; }
  }

  /**
   `Resolve` answers with the first of the best among all matching rules: lower kind, then longer match, then
   earlier registration; with `ok` false exactly when no rule matches.
   */
  lemma ResolveIsFirstBest(re: Engine, groups: seq<Group>, m: string)
    ensures var cs, a := Candidates(re, groups, m), Answer(re, groups, m);
      && (a.ok <==> cs != [])
      && (!a.ok ==> a == Resolution("", None, false))
      && (a.ok <==> exists i: nat :: IsFirstBest(cs, i))
      && (forall i: nat :: IsFirstBest(cs, i) ==> a.groupName == cs[i].name && a.policy == cs[i].policy)
  {
    var cs := Candidates(re, groups, m);
    if cs != [] {
      var i := BestIsFirstBest(cs);
      forall j: nat | IsFirstBest(cs, j) ensures j == i { FirstBestIsUnique(cs, i, j); }
    }
  }

  /** No rule matches exactly when `ok` is false. */
  lemma OkIffSomeRuleMatches(re: Engine, groups: seq<Group>, m: string)
    ensures Answer(re, groups, m).ok <==>
      exists i, j :: 0 <= i < |groups| && 0 <= j < |groups[i].rules| && Match(re, groups[i].rules[j], m).Some?
  {
    ResolveIsFirstBest(re, groups, m);
    SomeCandidate(re, groups, m);
  }

  lemma {:induction false} SomeRuleCandidate(re: Engine, g: Group, rules: seq<Rule>, m: string)
    ensures RuleCandidates(re, g, rules, m) != [] <==> exists j :: 0 <= j < |rules| && Match(re, rules[j], m).Some?
  {
    if rules != [] { SomeRuleCandidate(re, g, rules[..|rules| - 1], m); }
  }

  lemma {:induction false} SomeCandidate(re: Engine, groups: seq<Group>, m: string)
    ensures Candidates(re, groups, m) != [] <==>
      exists i, j :: 0 <= i < |groups| && 0 <= j < |groups[i].rules| && Match(re, groups[i].rules[j], m).Some?
  {
    if groups != [] {
      var n := |groups| - 1;
      SomeCandidate(re, groups[..n], m);
      SomeRuleCandidate(re, groups[n], groups[n].rules, m);
      if RuleCandidates(re, groups[n], groups[n].rules, m) != [] {
        var j :| 0 <= j < |groups[n].rules| && Match(re, groups[n].rules[j], m).Some?;
        assert Match(re, groups[n].rules[j], m).Some?;
      } else if Candidates(re, groups[..n], m) != [] {
        var i, j :| 0 <= i < n && 0 <= j < |groups[..n][i].rules| && Match(re, groups[..n][i].rules[j], m).Some?;
        assert Match(re, groups[i].rules[j], m).Some?;
      } else {
        forall i, j | 0 <= i <= n && 0 <= j < |groups[i].rules| ensures Match(re, groups[i].rules[j], m).None? {
          if i < n { assert groups[..n][i] == groups[i]; }
        }
      }
    }
  }

  // ---------------------------------------------------------------- splitting the configuration

  lemma CombineAssociative(a: Option<Candidate>, b: Option<Candidate>, c: Option<Candidate>)
    ensures Combine(Combine(a, b), c) == Combine(a, Combine(b, c))
    ensures Combine(None, a) == a == Combine(a, None)
  {
  }

  lemma {:induction false} BestOfAppend(a: seq<Candidate>, b: seq<Candidate>)
    ensures Best(a + b) == Combine(Best(a), Best(b))
  {
    if b == [] {
      assert a + b == a;
    } else {
      var n := |b| - 1;
      BestOfAppend(a, b[..n]);
      assert (a + b)[..|a| + n] == a + b[..n];
      CombineAssociative(Best(a), Best(b[..n]), Some(b[n]));
    }
  }

  lemma CandidatesLast(re: Engine, groups: seq<Group>, g: Group, m: string)
    ensures Candidates(re, groups + [g], m) == Candidates(re, groups, m) + RuleCandidates(re, g, g.rules, m)
  {
    assert (groups + [g])[..|groups|] == groups;
  }

  lemma {:induction false} CandidatesOfAppend(re: Engine, a: seq<Group>, b: seq<Group>, m: string)
    ensures Candidates(re, a + b, m) == Candidates(re, a, m) + Candidates(re, b, m)
  {
    if b == [] {
      assert a + b == a;
    } else {
      var n := |b| - 1;
      var init, last := b[..n], b[n];
      assert b == init + [last];
      ConcatAssociative(a, init, [last]);
      CandidatesOfAppend(re, a, init, m);
      CandidatesLast(re, a + init, last, m);
      CandidatesLast(re, init, last, m);
      ConcatAssociative(Candidates(re, a, m), Candidates(re, init, m), RuleCandidates(re, last, last.rules, m));
    }
  }

  /** Resolving against two lists of groups is resolving against each and keeping the better answer. */
  lemma ResolveIsHomomorphic(re: Engine, a: seq<Group>, b: seq<Group>, m: string)
    ensures Answer(re, a + b, m)
         == AsResolution(Combine(Best(Candidates(re, a, m)), Best(Candidates(re, b, m))))
  {
    CandidatesOfAppend(re, a, b, m);
    BestOfAppend(Candidates(re, a, m), Candidates(re, b, m));
  }

  // ---------------------------------------------------------------- which group answers

  lemma {:induction false} RuleCandidateGroup(re: Engine, g: Group, rules: seq<Rule>, m: string, c: Candidate)
    requires c in RuleCandidates(re, g, rules, m)
    ensures c.name == g.name && c.policy == g.policy
  {
    if c in RuleCandidates(re, g, rules[..|rules| - 1], m) {
      RuleCandidateGroup(re, g, rules[..|rules| - 1], m, c);
    }
  }

  /** A candidate comes from one of the groups. */
  lemma {:induction false} CandidateGroup(re: Engine, groups: seq<Group>, m: string, c: Candidate) returns (i: nat)
    requires c in Candidates(re, groups, m)
    ensures i < |groups| && c in RuleCandidates(re, groups[i], groups[i].rules, m)
    ensures groups[i].name == c.name && groups[i].policy == c.policy
  {
    var last := |groups| - 1;
    if c in RuleCandidates(re, groups[last], groups[last].rules, m) {
      i := last;
      RuleCandidateGroup(re, groups[last], groups[last].rules, m, c);
    } else {
      i := CandidateGroup(re, groups[..last], m, c);
    }
  }

  lemma AnswerFromGroup(re: Engine, groups: seq<Group>, m: string) returns (i: nat)
    requires Answer(re, groups, m).ok
    ensures i < |groups| && Answer(re, groups, m) == Resolution(groups[i].name, groups[i].policy, true)
  {
    ResolveIsFirstBest(re, groups, m);
    var cs := Candidates(re, groups, m);
    var k := BestIsFirstBest(cs);
    i := CandidateGroup(re, groups, m, cs[k]);
  }

  /** Group `i` gives the answer for the method: the first of the best candidates is one of its own. */
  ghost predicate AnsweredBy(re: Engine, groups: seq<Group>, m: string, i: nat) {
    && i < |groups|
    && exists k: nat :: IsFirstBest(Candidates(re, groups, m), k) && BelongsTo(re, groups, m, i, k)
  }

  /** Candidate `k` stands among those that group `i` contributes. */
  predicate BelongsTo(re: Engine, groups: seq<Group>, m: string, i: nat, k: nat)
    requires i < |groups|
  {
    |Candidates(re, groups[..i], m)| <= k < |Candidates(re, groups[..i + 1], m)|
  }

  lemma PrefixCandidates(re: Engine, groups: seq<Group>, m: string, i: nat)
    requires i <= |groups|
    ensures Candidates(re, groups[..i], m) <= Candidates(re, groups, m)
  {
    assert groups == groups[..i] + groups[i..];
    CandidatesOfAppend(re, groups[..i], groups[i..], m);
  }

  lemma BelongsToGroup(re: Engine, groups: seq<Group>, m: string, i: nat, k: nat)
    requires i < |groups| && BelongsTo(re, groups, m, i, k)
    ensures var cs := Candidates(re, groups, m);
      k < |cs| && cs[k].name == groups[i].name && cs[k].policy == groups[i].policy
  {
    var g, upTo := groups[i], Candidates(re, groups[..i + 1], m);
    PrefixCandidates(re, groups, m, i + 1);
    CandidatesSnoc(re, groups, i, m);
    assert upTo[k] in RuleCandidates(re, g, g.rules, m);
    RuleCandidateGroup(re, g, g.rules, m, upTo[k]);
  }

  lemma {:induction false} GroupOfCandidate(re: Engine, groups: seq<Group>, m: string, n: nat, k: nat) returns (i: nat)
    requires n <= |groups| && k < |Candidates(re, groups[..n], m)|
    ensures i < n && BelongsTo(re, groups, m, i, k)
  {
    i := n - 1;
    if k < |Candidates(re, groups[..i], m)| { i := GroupOfCandidate(re, groups, m, i, k); }
  }

  /** The answering group is one, it exists exactly if the method resolves, and the answer is its name and policy. */
  lemma AnsweringGroup(re: Engine, groups: seq<Group>, m: string)
    ensures Answer(re, groups, m).ok <==> exists i: nat :: AnsweredBy(re, groups, m, i)
    ensures forall i: nat :: AnsweredBy(re, groups, m, i) ==>
      Answer(re, groups, m) == Resolution(groups[i].name, groups[i].policy, true)
    ensures forall i: nat, j: nat :: AnsweredBy(re, groups, m, i) && AnsweredBy(re, groups, m, j) ==> i == j
  {
    ResolveIsFirstBest(re, groups, m);
    var cs := Candidates(re, groups, m);
    if cs != [] {
      var k := BestIsFirstBest(cs);
      assert groups[..|groups|] == groups;
      var i := GroupOfCandidate(re, groups, m, |groups|, k);
      assert AnsweredBy(re, groups, m, i);
    }
    forall i: nat | AnsweredBy(re, groups, m, i)
      ensures Answer(re, groups, m) == Resolution(groups[i].name, groups[i].policy, true)
    {
      var k: nat :| IsFirstBest(cs, k) && BelongsTo(re, groups, m, i, k);
      BelongsToGroup(re, groups, m, i, k);
    }
    forall i: nat, j: nat | AnsweredBy(re, groups, m, i) && AnsweredBy(re, groups, m, j) ensures i == j {
      if i < j { NotBoth(re, groups, m, i, j); }
      if j < i { NotBoth(re, groups, m, j, i); }
    }
  }

  lemma NotBoth(re: Engine, groups: seq<Group>, m: string, i: nat, j: nat)
    requires i < j && AnsweredBy(re, groups, m, i)
    ensures !AnsweredBy(re, groups, m, j)
  {
    var cs := Candidates(re, groups, m);
    if AnsweredBy(re, groups, m, j) {
      var k: nat :| IsFirstBest(cs, k) && BelongsTo(re, groups, m, i, k);
      var l: nat :| IsFirstBest(cs, l) && BelongsTo(re, groups, m, j, l);
      FirstBestIsUnique(cs, k, l);
      assert groups[..j][..i + 1] == groups[..i + 1];
      PrefixCandidates(re, groups[..j], m, i + 1);
    }
  }
}
