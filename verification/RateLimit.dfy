/** The rate limiter of one interceptor: a global bucket, and one bucket for each group, made on first use. */
module RateLimit {
  import opened Common
  import opened Policy

  datatype Rules = Rules(re: Engine, groups: seq<Group>)

  /** What a limiter was made from: a configured rate, or a group's rule (its rate over its window). */
  datatype Spec = PerSecond(rps: real, burst: int) | FromRule(rule: RateLimitRule)

  function Burst(spec: Spec): nat {
    var n := if spec.PerSecond? then spec.burst else spec.rule.rate;
    if n < 0 then 0 else n
  }

  /** The global bucket of an interceptor, or the one it keeps for a group name. */
  datatype Bucket = Global | OfGroup(name: string)

  datatype Slot = Slot(spec: Spec, tokens: nat)

  /** The buckets of one interceptor. */
  datatype Limits = Limits(global: Slot, groups: map<string, Slot>) {
    predicate Has(b: Bucket) {
      b.Global? || b.name in groups
    }

    function At(b: Bucket): Slot
      requires Has(b)
    {
      if b.Global? then global else groups[b.name]
    }

    function Put(b: Bucket, slot: Slot): Limits {
      if b.Global? then this.(global := slot) else this.(groups := groups[b.name := slot])
    }
  }

  function New(spec: Spec): Slot {
    Slot(spec, Burst(spec))
  }

  /** The group that answers for a method, with its rate-limit rule, if it has one. */
  function RuleFor(resolver: Option<Rules>, fullMethod: string): Option<(string, RateLimitRule)> {
    if resolver.None? then None
    else
      var a := Answer(resolver.value.re, resolver.value.groups, fullMethod);
      if a.ok && a.policy.Some? && a.policy.value.rateLimit.Some?
      then Some((a.groupName, a.policy.value.rateLimit.value))
      else None
  }

  /** The bucket a method is charged to. */
  function Charged(resolver: Option<Rules>, fullMethod: string): Bucket {
    match RuleFor(resolver, fullMethod)
    case Some((name, _)) => OfGroup(name)
    case None => Global
  }

  /** The limits once the method's bucket exists: a name that has a bucket keeps it. */
  function Ensured(resolver: Option<Rules>, s: Limits, fullMethod: string): (s': Limits) {
    match RuleFor(resolver, fullMethod)
    case Some((name, rule)) => if name in s.groups then s else s.Put(OfGroup(name), New(FromRule(rule)))
    case None => s
  }

  function Spent(slot: Slot): Slot {
    if slot.tokens > 0 then slot.(tokens := slot.tokens - 1) else slot
  }

  /** One request: find or make its bucket, and take a token if there is one. */
  function Request(resolver: Option<Rules>, s: Limits, fullMethod: string): (Limits, bool) {
    var s1, b := Ensured(resolver, s, fullMethod), Charged(resolver, fullMethod);
    (s1.Put(b, Spent(s1.At(b))), s1.At(b).tokens > 0)
  }

  /** An abstract token bucket: one token for each admitted request. */
  class Limiter {
    const spec: Spec
    var tokens: nat

    constructor (spec: Spec)
      ensures this.spec == spec && tokens == Burst(spec)
    {
      this.spec := spec;
      tokens := Burst(spec);
    }

    method Allow() returns (ok: bool)
      modifies this
      ensures ok <==> old(tokens) > 0
      ensures tokens == if ok then old(tokens) - 1 else old(tokens)
    {
      ok := tokens > 0;
      if ok { tokens := tokens - 1; }
    }
  }

  class RateLimitState {
    const global: Limiter
    const resolver: Option<Rules>
    var groups: map<string, Limiter>

    /** Every name has a limiter of its own. */
    ghost predicate Valid()
      reads this
    {
      && (forall n :: n in groups ==> groups[n] != global)
      && (forall m, n :: m in groups && n in groups && m != n ==> groups[m] != groups[n])
    }

    ghost function View(): Limits
      reads this, global, groups.Values
    {
      Limits(Slot(global.spec, global.tokens), map n | n in groups :: Slot(groups[n].spec, groups[n].tokens))
    }

    constructor (global: Limiter, resolver: Option<Rules>)
      ensures Valid() && this.global == global && this.resolver == resolver && groups == map[]
    {
      this.global, this.resolver, groups := global, resolver, map[];
    }

    /** `l` is the limiter of bucket `b`. */
    ghost predicate Serves(l: Limiter, b: Bucket)
      reads this
    {
      if b.Global? then l == global else b.name in groups && l == groups[b.name]
    }

    /** The locked lookup: a name that has a limiter keeps it, whatever rule it is asked for with. */
    method GroupLimiter(fullMethod: string, rule: RateLimitRule) returns (l: Limiter)
      requires Valid() && resolver.Some?
      modifies this`groups
      ensures Valid() && fresh(groups.Values - old(groups.Values))
      ensures var name := Answer(resolver.value.re, resolver.value.groups, fullMethod).groupName;
        && Serves(l, OfGroup(name))
        && View() == if name in old(groups) then old(View()) else old(View()).Put(OfGroup(name), New(FromRule(rule)))
    {
      var name := Answer(resolver.value.re, resolver.value.groups, fullMethod).groupName;
      if name in groups { return groups[name]; }
      l := new Limiter(FromRule(rule));
      groups := groups[name := l];
    }

    method LimiterFor(fullMethod: string) returns (l: Limiter)
      requires Valid()
      modifies this`groups
      ensures Valid() && fresh(groups.Values - old(groups.Values))
      ensures Serves(l, Charged(resolver, fullMethod))
      ensures View() == Ensured(resolver, old(View()), fullMethod)
    {
      l := global;
      if resolver.Some? {
        var a := Answer(resolver.value.re, resolver.value.groups, fullMethod);
        if a.ok && a.policy.Some? && a.policy.value.rateLimit.Some? {
          l := GroupLimiter(fullMethod, a.policy.value.rateLimit.value);
        }
      }
    }

    /** Ask one limiter; the other buckets keep their tokens. */
    method Spend(l: Limiter, ghost b: Bucket) returns (ok: bool)
      requires Valid() && Serves(l, b)
      modifies l
      ensures Valid() && old(View()).Has(b)
      ensures ok <==> old(View()).At(b).tokens > 0
      ensures View() == old(View()).Put(b, Spent(old(View()).At(b)))
    {
      ok := l.Allow();
    }

    /** The interceptor's decision. */
    method Admit(fullMethod: string) returns (ok: bool)
      requires Valid()
      modifies this, global, groups.Values
      ensures Valid() && fresh(groups.Values - old(groups.Values))
      ensures (View(), ok) == Request(resolver, old(View()), fullMethod)
    {
      var l := LimiterFor(fullMethod);
      assert l == global || l in groups.Values;
      ok := Spend(l, Charged(resolver, fullMethod));
    }
  }

  // ---------------------------------------------------------------- one request

  /** What a bucket holds before a request that may have to make it. */
  function Holding(resolver: Option<Rules>, s: Limits, fullMethod: string): Slot {
    Ensured(resolver, s, fullMethod).At(Charged(resolver, fullMethod))
  }

  /** A request touches exactly one bucket and takes from it exactly the token it is admitted on. */
  lemma DebitsOneBucket(resolver: Option<Rules>, s: Limits, fullMethod: string, other: Bucket)
    ensures var (s', ok) := Request(resolver, s, fullMethod); var b := Charged(resolver, fullMethod);
      && s'.Has(b)
      && (ok <==> Holding(resolver, s, fullMethod).tokens > 0)
      && s'.At(b).tokens + (if ok then 1 else 0) == Holding(resolver, s, fullMethod).tokens
      && (s.Has(b) ==> s'.At(b).spec == s.At(b).spec && Holding(resolver, s, fullMethod) == s.At(b))
      && (!s.Has(b) ==> s'.At(b).spec == FromRule(RuleFor(resolver, fullMethod).value.1)
                        && Holding(resolver, s, fullMethod).tokens == Burst(s'.At(b).spec))
      && (other != b ==> (s'.Has(other) <==> s.Has(other)) && (s.Has(other) ==> s'.At(other) == s.At(other)))
  {
  }

  // ---------------------------------------------------------------- runs

  /** Requests, and refills of existing buckets, which never exceed the burst. */
  datatype Event = Arrive(fullMethod: string) | Refill(b: Bucket, n: nat)

  function Refilled(s: Limits, b: Bucket, n: nat): Limits {
    if s.Has(b) then
      var cap, t := Burst(s.At(b).spec), s.At(b).tokens + n;
      s.Put(b, s.At(b).(tokens := if t <= cap then t else cap))
    else s
  }

  function Next(resolver: Option<Rules>, s: Limits, e: Event): Limits {
    match e
    case Arrive(m) => Request(resolver, s, m).0
    case Refill(b, n) => Refilled(s, b, n)
  }

  function After(resolver: Option<Rules>, s: Limits, es: seq<Event>): Limits
    decreases |es|
  {
    if es == [] then s else After(resolver, Next(resolver, s, es[0]), es[1..])
  }

  /** The rule of the first request of a run that is charged to a group name. */
  function FirstRule(resolver: Option<Rules>, es: seq<Event>, name: string): Option<RateLimitRule> {
    if es == [] then None
    else if es[0].Arrive? && Charged(resolver, es[0].fullMethod) == OfGroup(name)
      then Some(RuleFor(resolver, es[0].fullMethod).value.1)
    else FirstRule(resolver, es[1..], name)
  }

  /** A group's bucket is made once, from the rule of the first request charged to it, and never replaced. */
  lemma {:induction false} BucketMadeOnce(resolver: Option<Rules>, s: Limits, es: seq<Event>, name: string)
    ensures var s', b := After(resolver, s, es), OfGroup(name);
      && (s.Has(b) ==> s'.Has(b) && s'.At(b).spec == s.At(b).spec)
      && (!s.Has(b) ==> (s'.Has(b) <==> FirstRule(resolver, es, name).Some?))
      && (!s.Has(b) && s'.Has(b) ==> s'.At(b).spec == FromRule(FirstRule(resolver, es, name).value))
      && s'.global.spec == s.global.spec
    decreases |es|
  {
    if es != [] {
      if es[0].Arrive? { DebitsOneBucket(resolver, s, es[0].fullMethod, OfGroup(name)); }
      BucketMadeOnce(resolver, Next(resolver, s, es[0]), es[1..], name);
    }
  }

  /** The requests of a run that bucket `b` admits. */
  function Admitted(resolver: Option<Rules>, s: Limits, es: seq<Event>, b: Bucket): nat
    decreases |es|
  {
    if es == [] then 0
    else
      (if es[0].Arrive? && Charged(resolver, es[0].fullMethod) == b && Request(resolver, s, es[0].fullMethod).1 then 1 else 0)
        + Admitted(resolver, Next(resolver, s, es[0]), es[1..], b)
  }

  function RefilledBy(es: seq<Event>, b: Bucket): nat {
    if es == [] then 0
    else (if es[0].Refill? && es[0].b == b then es[0].n else 0) + RefilledBy(es[1..], b)
  }

  /** Conservation: what a bucket admits is covered by what it held and was refilled with; exactly, without refills. */
  lemma {:induction false} TokensConserved(resolver: Option<Rules>, s: Limits, es: seq<Event>, b: Bucket)
    requires s.Has(b)
    ensures var s' := After(resolver, s, es);
      && s'.Has(b)
      && Admitted(resolver, s, es, b) + s'.At(b).tokens <= s.At(b).tokens + RefilledBy(es, b)
      && (RefilledBy(es, b) == 0 && s.At(b).tokens <= Burst(s.At(b).spec) ==>
            Admitted(resolver, s, es, b) + s'.At(b).tokens == s.At(b).tokens)
    decreases |es|
  {
    if es != [] {
      if es[0].Arrive? { DebitsOneBucket(resolver, s, es[0].fullMethod, b); }
      TokensConserved(resolver, Next(resolver, s, es[0]), es[1..], b);
    }
  }

  /** The same for a bucket that the run itself makes: it starts with the burst of the rule it is made from. */
  lemma {:induction false} NewTokensConserved(resolver: Option<Rules>, s: Limits, es: seq<Event>, name: string)
    requires !s.Has(OfGroup(name))
    ensures var s', b := After(resolver, s, es), OfGroup(name);
      if s'.Has(b) then
        && FirstRule(resolver, es, name).Some?
        && Admitted(resolver, s, es, b) + s'.At(b).tokens
             <= Burst(FromRule(FirstRule(resolver, es, name).value)) + RefilledBy(es, b)
        && (RefilledBy(es, b) == 0 ==>
              Admitted(resolver, s, es, b) + s'.At(b).tokens == Burst(FromRule(FirstRule(resolver, es, name).value)))
      else Admitted(resolver, s, es, b) == 0
    decreases |es|
  {
    if es != [] {
      var b, s1 := OfGroup(name), Next(resolver, s, es[0]);
      if es[0].Arrive? { DebitsOneBucket(resolver, s, es[0].fullMethod, b); }
      if s1.Has(b) {
        TokensConserved(resolver, s1, es[1..], b);
      } else {
        NewTokensConserved(resolver, s1, es[1..], name);
      }
    }
  }

  // ---------------------------------------------------------------- how much a new bucket admits

  /** All of the events are requests charged to `b`. */
  predicate OnlyFor(resolver: Option<Rules>, es: seq<Event>, b: Bucket) {
    forall i :: 0 <= i < |es| ==> es[i].Arrive? && Charged(resolver, es[i].fullMethod) == b
  }

  function Min(m: nat, n: int): nat {
    if n < 0 then 0 else if m <= n then m else n
  }

  /** Without refills a bucket admits one request for each token it holds. */
  lemma {:induction false} AdmitsWhatItHolds(resolver: Option<Rules>, s: Limits, es: seq<Event>, b: Bucket)
    requires s.Has(b) && OnlyFor(resolver, es, b)
    ensures Admitted(resolver, s, es, b) == Min(|es|, s.At(b).tokens)
    decreases |es|
  {
    if es != [] {
      assert es[0].Arrive?;
      DebitsOneBucket(resolver, s, es[0].fullMethod, b);
      AdmitsWhatItHolds(resolver, Next(resolver, s, es[0]), es[1..], b);
    }
  }

  /** A new global limiter admits as many requests at once as its configured burst, whatever its rate. */
  lemma NewGlobalAdmitsBurst(resolver: Option<Rules>, rps: real, burst: int, es: seq<Event>)
    requires OnlyFor(resolver, es, Global)
    ensures Admitted(resolver, Limits(New(PerSecond(rps, burst)), map[]), es, Global) == Min(|es|, burst)
  {
    AdmitsWhatItHolds(resolver, Limits(New(PerSecond(rps, burst)), map[]), es, Global);
  }

  /** A group whose bucket is still to be made admits as many at once as its rule's rate. */
  lemma NewGroupAdmitsRate(resolver: Option<Rules>, s: Limits, es: seq<Event>, name: string, rule: RateLimitRule)
    requires es != [] && OnlyFor(resolver, es, OfGroup(name)) && name !in s.groups
    requires RuleFor(resolver, es[0].fullMethod) == Some((name, rule))
    ensures Admitted(resolver, s, es, OfGroup(name)) == Min(|es|, rule.rate)
  {
    var s1 := Next(resolver, s, es[0]);
    DebitsOneBucket(resolver, s, es[0].fullMethod, OfGroup(name));
    AdmitsWhatItHolds(resolver, s1, es[1..], OfGroup(name));
  }

  /** A refill adds its tokens to one bucket, up to its burst: the configured one, or its rule's rate. */
  lemma RefillFills(s: Limits, b: Bucket, n: nat)
    ensures b.Global? && s.global.spec.PerSecond? ==>
      Refilled(s, b, n) == s.(global := s.global.(tokens := Min(s.global.tokens + n, s.global.spec.burst)))
    ensures b.OfGroup? && b.name in s.groups && s.groups[b.name].spec.FromRule? ==>
      var slot := s.groups[b.name];
      Refilled(s, b, n) == s.(groups := s.groups[b.name := Slot(slot.spec, Min(slot.tokens + n, slot.spec.rule.rate))])
    ensures b.OfGroup? && b.name !in s.groups ==> Refilled(s, b, n) == s
  {
  }

  /** Which bucket a method is charged to, in terms of what the resolver answers. */
  lemma ChargedTo(resolver: Option<Rules>, s: Limits, m: string)
    ensures resolver.None? ==> Charged(resolver, m) == Global
    ensures resolver.Some? ==>
      var a := Answer(resolver.value.re, resolver.value.groups, m);
      if a.ok && a.policy.Some? && a.policy.value.rateLimit.Some? then Charged(resolver, m) == OfGroup(a.groupName)
      else Charged(resolver, m) == Global
    ensures Charged(resolver, m) == Global ==> Ensured(resolver, s, m) == s
  {
  }

  // ---------------------------------------------------------------- whose rule a bucket follows

  /** Two methods resolve to limited groups of one name and find different rules. */
  predicate Conflict(resolver: Option<Rules>, m: string, n: string) {
    var x, y := RuleFor(resolver, m), RuleFor(resolver, n);
    x.Some? && y.Some? && x.value.0 == y.value.0 && x.value.1 != y.value.1
  }

  ghost predicate NoNameConflict(resolver: Option<Rules>) {
    forall m, n :: !Conflict(resolver, m, n)
  }

  /** After every run from fresh limits, a limited method is charged to a bucket made from its own group's rule. */
  ghost predicate OwnRules(resolver: Option<Rules>, global: Slot) {
    forall es: seq<Event>, m: string :: RuleFor(resolver, m).Some? ==>
      Holding(resolver, After(resolver, Limits(global, map[]), es), m).spec == FromRule(RuleFor(resolver, m).value.1)
  }

  lemma {:induction false} FirstRuleFrom(resolver: Option<Rules>, es: seq<Event>, name: string) returns (m: string)
    requires FirstRule(resolver, es, name).Some?
    ensures RuleFor(resolver, m) == Some((name, FirstRule(resolver, es, name).value))
  {
    if es[0].Arrive? && Charged(resolver, es[0].fullMethod) == OfGroup(name) {
      m := es[0].fullMethod;
    } else {
      m := FirstRuleFrom(resolver, es[1..], name);
    }
  }

  /** Buckets are keyed by name: each follows its own group's rule exactly when no name carries two rules. */
  lemma OwnRulesIff(resolver: Option<Rules>, global: Slot)
    ensures OwnRules(resolver, global) <==> NoNameConflict(resolver)
  {
    var s0 := Limits(global, map[]);
    if NoNameConflict(resolver) {
      forall es: seq<Event>, m: string | RuleFor(resolver, m).Some?
        ensures Holding(resolver, After(resolver, s0, es), m).spec == FromRule(RuleFor(resolver, m).value.1)
      {
        var name := RuleFor(resolver, m).value.0;
        BucketMadeOnce(resolver, s0, es, name);
        if name in After(resolver, s0, es).groups {
          var n := FirstRuleFrom(resolver, es, name);
          assert !Conflict(resolver, m, n);
        }
      }
    } else {
      var m, n :| Conflict(resolver, m, n);
      var es := [Arrive(m)];
      assert es[1..] == [];
      assert After(resolver, s0, es) == Request(resolver, s0, m).0;
      DebitsOneBucket(resolver, s0, m, Global);
      assert Holding(resolver, After(resolver, s0, es), n).spec == FromRule(RuleFor(resolver, m).value.1);
    }
  }

  /** Group names that are used once cannot conflict. */
  lemma UniqueNamesDoNotConflict(resolver: Option<Rules>)
    requires resolver.Some?
    requires var gs := resolver.value.groups;
      forall i, j :: 0 <= i < j < |gs| ==> gs[i].name != gs[j].name
    ensures NoNameConflict(resolver)
  {
    var r := resolver.value;
    forall m, n ensures !Conflict(resolver, m, n) {
      if RuleFor(resolver, m).Some? && RuleFor(resolver, n).Some? {
        var i := AnswerFromGroup(r.re, r.groups, m);
        var j := AnswerFromGroup(r.re, r.groups, n);
        assert r.groups[i].name == r.groups[j].name ==> i == j;
      }
    }
  }

  /** A group whose name no other group has: over every run, its bucket is made from its own rule. */
  lemma UniqueNameKeepsItsRule(rules: Rules, global: Slot, es: seq<Event>, i: nat)
    requires i < |rules.groups|
    requires forall j :: 0 <= j < |rules.groups| && j != i ==> rules.groups[j].name != rules.groups[i].name
    ensures var g, s := rules.groups[i], After(Some(rules), Limits(global, map[]), es);
      g.name in s.groups ==>
        g.policy.Some? && g.policy.value.rateLimit.Some? && s.groups[g.name].spec == FromRule(g.policy.value.rateLimit.value)
  {
    var name, resolver := rules.groups[i].name, Some(rules);
    BucketMadeOnce(resolver, Limits(global, map[]), es, name);
    if name in After(resolver, Limits(global, map[]), es).groups {
      var m := FirstRuleFrom(resolver, es, name);
      var j := AnswerFromGroup(rules.re, rules.groups, m);
    }
  }

  // ---------------------------------------------------------------- a bucket for each group

  /** Group `i` answers for the method and limits its rate. */
  ghost predicate LimitedBy(rules: Rules, m: string, i: nat) {
    && AnsweredBy(rules.re, rules.groups, m, i)
    && rules.groups[i].policy.Some? && rules.groups[i].policy.value.rateLimit.Some?
  }

  function RuleOf(g: Group): RateLimitRule
    requires g.policy.Some? && g.policy.value.rateLimit.Some?
  {
    g.policy.value.rateLimit.value
  }

  lemma LimitedRule(rules: Rules, m: string, i: nat)
    requires LimitedBy(rules, m, i)
    ensures RuleFor(Some(rules), m) == Some((rules.groups[i].name, RuleOf(rules.groups[i])))
    ensures Charged(Some(rules), m) == OfGroup(rules.groups[i].name)
  {
    AnsweringGroup(rules.re, rules.groups, m);
  }

  /** Two methods limited by different groups. */
  ghost predicate Strangers(rules: Rules, m: string, n: string, i: nat, j: nat) {
    LimitedBy(rules, m, i) && LimitedBy(rules, n, j) && i != j
  }

  /** No two groups that answer limited methods have one name. */
  ghost predicate NoSharedName(rules: Rules) {
    forall m, n, i: nat, j: nat :: Strangers(rules, m, n, i, j) ==> rules.groups[i].name != rules.groups[j].name
  }

  /** "A limiter for each group": methods limited by different groups are charged to different buckets. */
  ghost predicate BucketForEachGroup(rules: Rules) {
    forall m, n, i: nat, j: nat :: Strangers(rules, m, n, i, j) ==> Charged(Some(rules), m) != Charged(Some(rules), n)
  }

  /** Each limited group has a bucket of its own exactly when no two groups that answer limited methods share a name. */
  lemma BucketForEachGroupIff(rules: Rules)
    ensures BucketForEachGroup(rules) <==> NoSharedName(rules)
  {
    forall m, n, i: nat, j: nat | Strangers(rules, m, n, i, j)
      ensures Charged(Some(rules), m) != Charged(Some(rules), n) <==> rules.groups[i].name != rules.groups[j].name
    {
      LimitedRule(rules, m, i);
      LimitedRule(rules, n, j);
    }
  }

  /** Strangers of which one group admits anything at all. */
  ghost predicate Rivals(rules: Rules, m: string, n: string, i: nat, j: nat) {
    && Strangers(rules, m, n, i, j)
    && (Burst(FromRule(RuleOf(rules.groups[i]))) > 0 || Burst(FromRule(RuleOf(rules.groups[j]))) > 0)
  }

  /** After the run, a request for `m` changes nothing for `n`. */
  predicate Undisturbed(rules: Rules, global: Slot, es: seq<Event>, m: string, n: string) {
    var s := After(Some(rules), Limits(global, map[]), es);
    Holding(Some(rules), Request(Some(rules), s, m).0, n) == Holding(Some(rules), s, n)
  }

  ghost predicate Isolated(rules: Rules, global: Slot) {
    forall es: seq<Event>, m, n, i: nat, j: nat :: Rivals(rules, m, n, i, j) ==> Undisturbed(rules, global, es, m, n)
  }

  ghost predicate NoRivalsShareAName(rules: Rules) {
    forall m, n, i: nat, j: nat :: Rivals(rules, m, n, i, j) ==> rules.groups[i].name != rules.groups[j].name
  }

  /**
   What that means for traffic: over every run, requests limited by one group never change what another group's
   methods find in their bucket, exactly when no two such groups, of which one admits anything, share a name.
   */
  lemma IsolatedIff(rules: Rules, global: Slot)
    ensures Isolated(rules, global) <==> NoRivalsShareAName(rules)
  {
    if NoRivalsShareAName(rules) {
      forall es: seq<Event>, m, n, i: nat, j: nat | Rivals(rules, m, n, i, j) ensures Undisturbed(rules, global, es, m, n) {
        LimitedRule(rules, m, i);
        LimitedRule(rules, n, j);
        DebitsOneBucket(Some(rules), After(Some(rules), Limits(global, map[]), es), m, OfGroup(rules.groups[j].name));
      }
    } else {
      var m, n, i: nat, j: nat :| Rivals(rules, m, n, i, j) && rules.groups[i].name == rules.groups[j].name;
      LimitedRule(rules, m, i);
      LimitedRule(rules, n, j);
      DebitsOneBucket(Some(rules), Limits(global, map[]), m, Global);
      assert !Undisturbed(rules, global, [], m, n);
    }
  }

  /**
   Two groups of one name and one rule: every bucket follows its own group's rule, and still an admitted request
   for the one group leaves no token for the other.
   */
  lemma SameRuleStillShares(re: Engine, global: Slot)
    ensures var limit := Some(OnlyLimiting(RateLimitRule(1, 1)));
      var rules := Rules(re, [Group("g", [Rule(Exact, "/x")], limit), Group("g", [Rule(Exact, "/y")], limit)]);
      var (s, admitted) := Request(Some(rules), Limits(global, map[]), "/x");
      OwnRules(Some(rules), global) && admitted && !Request(Some(rules), s, "/y").1
  {
    var limit := Some(OnlyLimiting(RateLimitRule(1, 1)));
    var x, y := Group("g", [Rule(Exact, "/x")], limit), Group("g", [Rule(Exact, "/y")], limit);
    NoConflictAmongEquals(re, x, y);
    OwnRulesIff(Some(Rules(re, [x, y])), global);
    ResolvesTo(re, x, y, "/x", 0);
    ResolvesTo(re, x, y, "/y", 1);
    OneTokenForBoth(Some(Rules(re, [x, y])), Limits(global, map[]), "/x", "/y", "g", RateLimitRule(1, 1));
  }

  lemma NoConflictAmongEquals(re: Engine, x: Group, y: Group)
    requires x.name == y.name && x.policy == y.policy
    ensures NoNameConflict(Some(Rules(re, [x, y])))
  {
    var rules := Some(Rules(re, [x, y]));
    forall m, n ensures !Conflict(rules, m, n) {
      RuleAmongEquals(re, x, y, m);
      RuleAmongEquals(re, x, y, n);
    }
  }

  lemma RuleAmongEquals(re: Engine, x: Group, y: Group, m: string)
    requires x.name == y.name && x.policy == y.policy
    ensures var r := RuleFor(Some(Rules(re, [x, y])), m);
      r.Some? ==> x.policy.Some? && x.policy.value.rateLimit == Some(r.value.1)
  {
    if Answer(re, [x, y], m).ok { var i := AnswerFromGroup(re, [x, y], m); }
  }

  lemma OneTokenForBoth(resolver: Option<Rules>, s: Limits, m: string, n: string, name: string, rule: RateLimitRule)
    requires RuleFor(resolver, m) == RuleFor(resolver, n) == Some((name, rule))
    requires rule.rate == 1 && name !in s.groups
    ensures var (s', admitted) := Request(resolver, s, m); admitted && !Request(resolver, s', n).1
  {
  }

  /** The resolution of a method by two groups of one exact rule each. */
  lemma ResolvesTo(re: Engine, x: Group, y: Group, m: string, i: nat)
    requires i < 2 && |x.rules| == 1 && |y.rules| == 1
    requires [x, y][i].rules[0] == Rule(Exact, m)
    requires x.name == y.name && x.policy == y.policy
    ensures Answer(re, [x, y], m) == Resolution(x.name, x.policy, true)
  {
    assert Match(re, [x, y][i].rules[0], m).Some?;
    OkIffSomeRuleMatches(re, [x, y], m);
    var k := AnswerFromGroup(re, [x, y], m);
  }
}
