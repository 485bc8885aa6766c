/** The documented priority, spelled out on the patterns themselves. */
module PolicyPriority {
  import opened Common
  import opened Policy

  ghost predicate SomeExact(groups: seq<Group>, m: string) {
    exists i :: 0 <= i < |groups| && Rule(Exact, m) in groups[i].rules
  }

  /** Group `i` is the first with the method itself as an exact rule. */
  ghost predicate FirstExact(groups: seq<Group>, m: string, i: nat) {
    && i < |groups| && Rule(Exact, m) in groups[i].rules
    && forall j :: 0 <= j < i ==> Rule(Exact, m) !in groups[j].rules
  }

  /** Group `g` has a prefix rule for a prefix of `m` of length `n`. */
  predicate HasPrefix(g: Group, m: string, n: nat) {
    n <= |m| && Rule(Prefix, m[..n]) in g.rules
  }

  ghost predicate SomePrefix(groups: seq<Group>, m: string) {
    exists i, n: nat :: 0 <= i < |groups| && HasPrefix(groups[i], m, n)
  }

  /** Group `i` is the first with the longest prefix of the method. */
  ghost predicate LongestPrefix(groups: seq<Group>, m: string, i: nat, n: nat) {
    && i < |groups| && HasPrefix(groups[i], m, n)
    && forall j, l: nat :: 0 <= j < |groups| && HasPrefix(groups[j], m, l) ==> l <= n && (j < i ==> l < n)
  }

  /** Group `g` has a regular expression with a match of length `n` in `m`. */
  ghost predicate HasRegex(re: Engine, g: Group, m: string, n: nat) {
    exists p: string :: Rule(Regex, p) in g.rules && re(p, m) == Some(n)
  }

  ghost predicate SomeRegex(re: Engine, groups: seq<Group>, m: string) {
    exists i, n: nat :: 0 <= i < |groups| && HasRegex(re, groups[i], m, n)
  }

  /** Group `i` is the first with the longest regular-expression match. */
  ghost predicate LongestRegex(re: Engine, groups: seq<Group>, m: string, i: nat, n: nat) {
    && i < |groups| && HasRegex(re, groups[i], m, n)
    && forall j, l: nat :: 0 <= j < |groups| && HasRegex(re, groups[j], m, l) ==> l <= n && (j < i ==> l < n)
  }

  function Names(g: Group): Resolution {
    Resolution(g.name, g.policy, true)
  }

  // ---------------------------------------------------------------- candidates and rules

  lemma {:induction false} CandidateOfRule(re: Engine, g: Group, rules: seq<Rule>, m: string, r: Rule, n: nat)
    requires r in rules && Match(re, r, m) == Some(n)
    ensures Candidate(r.kind, n, g.name, g.policy) in RuleCandidates(re, g, rules, m)
  {
    var last := rules[|rules| - 1];
    if r != last { CandidateOfRule(re, g, rules[..|rules| - 1], m, r, n); }
  }

  lemma {:induction false} RuleOfCandidate(re: Engine, g: Group, rules: seq<Rule>, m: string, c: Candidate) returns (r: Rule)
    requires c in RuleCandidates(re, g, rules, m)
    ensures r in rules && r.kind == c.kind && Match(re, r, m) == Some(c.length)
  {
    var init := rules[..|rules| - 1];
    r := rules[|rules| - 1];
    if c in RuleCandidates(re, g, init, m) { r := RuleOfCandidate(re, g, init, m, c); }
  }

  /** What group `j` can offer does not beat the answer, and what an earlier group offers the answer beats. */
  lemma OfferIsBeaten(re: Engine, groups: seq<Group>, m: string, i: nat, k: nat, j: nat, d: Candidate)
    requires i < |groups| && j < |groups| && BelongsTo(re, groups, m, i, k)
    requires IsFirstBest(Candidates(re, groups, m), k) && d in RuleCandidates(re, groups[j], groups[j].rules, m)
    ensures var c := Candidates(re, groups, m)[k]; !Beats(d, c) && (j < i ==> Beats(c, d))
  {
    var cs, upTo, mine := Candidates(re, groups, m), Candidates(re, groups[..j], m), RuleCandidates(re, groups[j], groups[j].rules, m);
    var x :| 0 <= x < |mine| && mine[x] == d;
    var l := |upTo| + x;
    CandidatesSnoc(re, groups, j, m);
    PrefixCandidates(re, groups, m, j + 1);
    assert cs[l] == d;
    if j < i {
      assert groups[..i][..j + 1] == groups[..j + 1];
      PrefixCandidates(re, groups[..i], m, j + 1);
    }
    if l < k { assert Beats(cs[k], cs[l]); }
  }

  /** A candidate of a group comes from one of the group's rules. */
  lemma CandidateComesFrom(re: Engine, groups: seq<Group>, m: string, i: nat, k: nat) returns (r: Rule)
    requires i < |groups| && k < |Candidates(re, groups, m)| && BelongsTo(re, groups, m, i, k)
    ensures r in groups[i].rules
    ensures Match(re, r, m) == Some(Candidates(re, groups, m)[k].length) && r.kind == Candidates(re, groups, m)[k].kind
  {
    CandidatesSnoc(re, groups, i, m);
    PrefixCandidates(re, groups, m, i + 1);
    var upTo := Candidates(re, groups[..i + 1], m);
    assert upTo[k] == Candidates(re, groups, m)[k];
    r := RuleOfCandidate(re, groups[i], groups[i].rules, m, upTo[k]);
  }

  /** An answering group comes with its rule. */
  lemma AnswerComesFrom(re: Engine, groups: seq<Group>, m: string) returns (i: nat, k: nat, r: Rule)
    requires Answer(re, groups, m).ok
    ensures i < |groups| && Answer(re, groups, m) == Names(groups[i]) && r in groups[i].rules
    ensures IsFirstBest(Candidates(re, groups, m), k) && BelongsTo(re, groups, m, i, k)
    ensures Match(re, r, m) == Some(Candidates(re, groups, m)[k].length) && r.kind == Candidates(re, groups, m)[k].kind
  {
    AnsweringGroup(re, groups, m);
    i :| AnsweredBy(re, groups, m, i);
    k :| IsFirstBest(Candidates(re, groups, m), k) && BelongsTo(re, groups, m, i, k);
    r := CandidateComesFrom(re, groups, m, i, k);
  }

  lemma OfferOfRule(re: Engine, groups: seq<Group>, m: string, i: nat, k: nat, j: nat, r: Rule, n: nat)
    requires i < |groups| && j < |groups| && BelongsTo(re, groups, m, i, k) && IsFirstBest(Candidates(re, groups, m), k)
    requires r in groups[j].rules && Match(re, r, m) == Some(n)
    ensures var c, d := Candidates(re, groups, m)[k], Candidate(r.kind, n, groups[j].name, groups[j].policy);
      !Beats(d, c) && (j < i ==> Beats(c, d))
  {
    CandidateOfRule(re, groups[j], groups[j].rules, m, r, n);
    OfferIsBeaten(re, groups, m, i, k, j, Candidate(r.kind, n, groups[j].name, groups[j].policy));
  }

  // ---------------------------------------------------------------- the three kinds

  lemma ExactMatch(re: Engine, r: Rule, m: string)
    ensures r.kind.Exact? ==> (Match(re, r, m).Some? <==> r == Rule(Exact, m))
    ensures r == Rule(Exact, m) ==> Match(re, r, m) == Some(|m|)
  {
  }

  lemma PrefixMatch(re: Engine, r: Rule, m: string, n: nat)
    requires r.kind.Prefix?
    ensures Match(re, r, m) == Some(n) <==> n <= |m| && r == Rule(Prefix, m[..n])
  {
  }

  lemma SomethingMatches(re: Engine, groups: seq<Group>, m: string, i: nat, r: Rule)
    requires i < |groups| && r in groups[i].rules && Match(re, r, m).Some?
    ensures Answer(re, groups, m).ok
  {
    var j :| 0 <= j < |groups[i].rules| && groups[i].rules[j] == r;
    assert Match(re, groups[i].rules[j], m).Some?;
    OkIffSomeRuleMatches(re, groups, m);
  }

  lemma ExactWins(re: Engine, groups: seq<Group>, m: string) returns (i: nat)
    requires SomeExact(groups, m)
    ensures FirstExact(groups, m, i) && Answer(re, groups, m) == Names(groups[i])
  {
    var x :| 0 <= x < |groups| && Rule(Exact, m) in groups[x].rules;
    ExactMatch(re, Rule(Exact, m), m);
    SomethingMatches(re, groups, m, x, Rule(Exact, m));
    var k, r;
    i, k, r := AnswerComesFrom(re, groups, m);
    OfferOfRule(re, groups, m, i, k, x, Rule(Exact, m), |m|);
    ExactMatch(re, r, m);
    forall j | 0 <= j < i ensures Rule(Exact, m) !in groups[j].rules {
      if Rule(Exact, m) in groups[j].rules { OfferOfRule(re, groups, m, i, k, j, Rule(Exact, m), |m|); }
    }
  }

  lemma PrefixWins(re: Engine, groups: seq<Group>, m: string) returns (i: nat, n: nat)
    requires !SomeExact(groups, m) && SomePrefix(groups, m)
    ensures LongestPrefix(groups, m, i, n) && Answer(re, groups, m) == Names(groups[i])
  {
    var x, l: nat :| 0 <= x < |groups| && HasPrefix(groups[x], m, l);
    PrefixMatch(re, Rule(Prefix, m[..l]), m, l);
    SomethingMatches(re, groups, m, x, Rule(Prefix, m[..l]));
    var k, r;
    i, k, r := AnswerComesFrom(re, groups, m);
    n := Candidates(re, groups, m)[k].length;
    OfferOfRule(re, groups, m, i, k, x, Rule(Prefix, m[..l]), l);
    ExactMatch(re, r, m);
    PrefixMatch(re, Rule(Prefix, r.pattern), m, n);
    forall j, h: nat | 0 <= j < |groups| && HasPrefix(groups[j], m, h) ensures h <= n && (j < i ==> h < n) {
      PrefixMatch(re, Rule(Prefix, m[..h]), m, h);
      OfferOfRule(re, groups, m, i, k, j, Rule(Prefix, m[..h]), h);
    }
  }

  lemma RegexWins(re: Engine, groups: seq<Group>, m: string) returns (i: nat, n: nat)
    requires !SomeExact(groups, m) && !SomePrefix(groups, m) && SomeRegex(re, groups, m)
    ensures LongestRegex(re, groups, m, i, n) && Answer(re, groups, m) == Names(groups[i])
  {
    var x, l: nat :| 0 <= x < |groups| && HasRegex(re, groups[x], m, l);
    var p: string :| Rule(Regex, p) in groups[x].rules && re(p, m) == Some(l);
    SomethingMatches(re, groups, m, x, Rule(Regex, p));
    var k, r;
    i, k, r := AnswerComesFrom(re, groups, m);
    n := Candidates(re, groups, m)[k].length;
    ExactMatch(re, r, m);
    PrefixMatch(re, Rule(Prefix, r.pattern), m, n);
    assert r.kind.Prefix? ==> HasPrefix(groups[i], m, n);
    assert r == Rule(Regex, r.pattern);
    forall j, h: nat | 0 <= j < |groups| && HasRegex(re, groups[j], m, h) ensures h <= n && (j < i ==> h < n) {
      var o: string :| Rule(Regex, o) in groups[j].rules && re(o, m) == Some(h);
      OfferOfRule(re, groups, m, i, k, j, Rule(Regex, o), h);
    }
  }

  lemma NothingMatches(re: Engine, groups: seq<Group>, m: string)
    requires !SomeExact(groups, m) && !SomePrefix(groups, m) && !SomeRegex(re, groups, m)
    ensures Answer(re, groups, m) == Resolution("", None, false)
  {
    ResolveIsFirstBest(re, groups, m);
    if Answer(re, groups, m).ok {
      var i, k, r := AnswerComesFrom(re, groups, m);
      var n := Candidates(re, groups, m)[k].length;
      ExactMatch(re, r, m);
      PrefixMatch(re, Rule(Prefix, r.pattern), m, n);
      assert r.kind.Prefix? ==> HasPrefix(groups[i], m, n);
      assert r.kind.Regex? ==> HasRegex(re, groups[i], m, n) by { if r.kind.Regex? { assert r == Rule(Regex, r.pattern); } }
      assert false;
    }
  }

  /**
   The priority rules: a group with the method itself as an exact rule answers, the first of them; without one, the
   first with the longest prefix of the method; without one, the first with the longest regular-expression match;
   without any, there is no answer.
   */
  lemma ResolveByPriority(re: Engine, groups: seq<Group>, m: string)
    ensures var a := Answer(re, groups, m);
      if SomeExact(groups, m) then
        exists i: nat :: FirstExact(groups, m, i) && a == Resolution(groups[i].name, groups[i].policy, true)
      else if SomePrefix(groups, m) then
        exists i: nat, n: nat :: LongestPrefix(groups, m, i, n) && a == Resolution(groups[i].name, groups[i].policy, true)
      else if SomeRegex(re, groups, m) then
        exists i: nat, n: nat :: LongestRegex(re, groups, m, i, n) && a == Resolution(groups[i].name, groups[i].policy, true)
      else a == Resolution("", None, false)
  {
    if SomeExact(groups, m) {
      var i := ExactWins(re, groups, m);
    } else if SomePrefix(groups, m) {
      var i, n := PrefixWins(re, groups, m);
    } else if SomeRegex(re, groups, m) {
      var i, n := RegexWins(re, groups, m);
    } else {
      NothingMatches(re, groups, m);
    }
  }
}
