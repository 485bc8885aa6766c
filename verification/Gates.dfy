/** What an empty bucket and a refusing authentication keep away from a server, for every list of options. */
module Gates {
  import opened Common
  import opened Middleware
  import opened Pipeline
  import opened Options
  import opened Chain
  import RL = RateLimit

  // ---------------------------------------------------------------- rate limits

  /** The stage that rate-limit option `i` puts on one side; it captures the resolver set so far. */
  function LimitStage(opts: seq<Opt>, i: nat, resolver: Option<RL.Rules>, side: Side): Stage
    requires i < |opts| && opts[i].WithRateLimitGlobal?
  {
    RateLimit(opts[i].limiter, RL.PerSecond(opts[i].rps, opts[i].burst), LastResolver(opts[..i], resolver), side)
  }

  ghost predicate LimitsWith(opts: seq<Opt>, i: nat, resolver: Option<RL.Rules>, side: Side, s: Stage) {
    i < |opts| && opts[i].WithRateLimitGlobal? && s == LimitStage(opts, i, resolver, side)
  }

  lemma LimitsWithTail(opts: seq<Opt>, i: nat, resolver: Option<RL.Rules>, side: Side, s: Stage)
    requires 0 < i < |opts|
    ensures LimitsWith(opts, i, resolver, side, s) <==>
      LimitsWith(opts[1..], i - 1, ResolverAfter(opts[0], resolver), side, s)
  {
    assert opts[..i][0] == opts[0] && opts[..i][1..] == opts[1..][..i - 1];
  }

  ghost predicate Registers(es: seq<Registered>, side: Side, s: Stage) {
    exists e :: e in es && OnSide(side)(e) == Some(s)
  }

  lemma {:induction false} LimitsRegistered(opts: seq<Opt>, resolver: Option<RL.Rules>, side: Side, s: Stage)
    requires s.RateLimit?
    ensures Registers(AllEntries(opts, resolver), side, s) <==> exists i: nat :: LimitsWith(opts, i, resolver, side, s)
  {
    if opts != [] {
      var next := ResolverAfter(opts[0], resolver);
      var here, rest := Entries(opts[0], resolver), AllEntries(opts[1..], next);
      LimitsRegistered(opts[1..], next, side, s);
      assert Registers(here, side, s) <==> LimitsWith(opts, 0, resolver, side, s) by {
        HeadLimit(opts, resolver, side, s);
      }
      RegistersAppend(here, rest, side, s);
      if i: nat :| LimitsWith(opts[1..], i, next, side, s) {
        LimitsWithTail(opts, i + 1, resolver, side, s);
      }
      if i: nat :| LimitsWith(opts, i, resolver, side, s) {
        if i > 0 { LimitsWithTail(opts, i, resolver, side, s); }
      }
    }
  }

  lemma RegistersAppend(a: seq<Registered>, b: seq<Registered>, side: Side, s: Stage)
    ensures Registers(a + b, side, s) <==> Registers(a, side, s) || Registers(b, side, s)
  {
    forall e ensures e in a + b <==> e in a || e in b {}
  }

  lemma HeadLimit(opts: seq<Opt>, resolver: Option<RL.Rules>, side: Side, s: Stage)
    requires opts != [] && s.RateLimit?
    ensures Registers(Entries(opts[0], resolver), side, s) <==> LimitsWith(opts, 0, resolver, side, s)
  {
    assert opts[..0] == [];
    if opts[0].WithRateLimitGlobal? {
      var e := Entries(opts[0], resolver)[0];
      assert e in Entries(opts[0], resolver);
    }
  }

  /** The rate limits of a server are those its options configure, each with the resolver set before it. */
  lemma LimitsAreInstalled(opts: seq<Opt>, side: Side, s: Stage)
    requires s.RateLimit?
    ensures s in ServerStages(opts, side) <==> exists i: nat :: LimitsWith(opts, i, None, side, s)
  {
    var es := AllEntries(opts, None);
    SortedWellPlaced(opts);
    PickedFrom(StableSort(es), OnSide(side), s);
    LimitsRegistered(opts, None, side, s);
  }

  /** Every `WithRateLimitGlobal` makes a limiter of its own. */
  ghost predicate OwnLimiters(opts: seq<Opt>) {
    forall i, j :: 0 <= i < j < |opts| && opts[i].WithRateLimitGlobal? && opts[j].WithRateLimitGlobal? ==>
      opts[i].limiter != opts[j].limiter
  }

  /** A configured rate limit has no token left for the method. */
  ghost predicate Exhausted(opts: seq<Opt>, side: Side, w: World, fullMethod: string) {
    exists i: nat :: i < |opts| && opts[i].WithRateLimitGlobal? && OutOfTokens(LimitStage(opts, i, None, side), w, fullMethod)
  }

  /** The first stage of a chain that uses a limiter. */
  lemma {:induction false} FirstUse(stages: seq<Stage>, limiter: nat, n: nat) returns (k: nat)
    requires n < |stages| && stages[n].RateLimit? && stages[n].limiter == limiter
    ensures k <= n && stages[k].RateLimit? && stages[k].limiter == limiter
    ensures forall i :: 0 <= i < k && stages[i].RateLimit? ==> stages[i].limiter != limiter
  {
    k := n;
    if i: nat :| i < n && stages[i].RateLimit? && stages[i].limiter == limiter {
      k := FirstUse(stages, limiter, i);
    }
  }

  lemma ExhaustedStage(opts: seq<Opt>, side: Side, w: World, fullMethod: string) returns (k: nat)
    requires OwnLimiters(opts) && Exhausted(opts, side, w, fullMethod)
    ensures var stages := ServerStages(opts, side);
      && k < |stages| && OutOfTokens(stages[k], w, fullMethod)
      && forall i :: 0 <= i < k && stages[i].RateLimit? ==> stages[i].limiter != stages[k].limiter
  {
    var stages := ServerStages(opts, side);
    var i: nat :| i < |opts| && opts[i].WithRateLimitGlobal? && OutOfTokens(LimitStage(opts, i, None, side), w, fullMethod);
    var s := LimitStage(opts, i, None, side);
    assert LimitsWith(opts, i, None, side, s);
    LimitsAreInstalled(opts, side, s);
    var n: nat :| n < |stages| && stages[n] == s;
    k := FirstUse(stages, s.limiter, n);
    LimitsAreInstalled(opts, side, stages[k]);
    var j: nat :| LimitsWith(opts, j, None, side, stages[k]);
  }

  /**
   For any options in any order: while a configured rate limit has no token for the method, no request for it
   reaches authentication, user code or the handler, and the users' state stays as it is. The reply is
   ResourceExhausted, unless tracing or an address check stops the request before.
   */
  lemma ServerThrottles(opts: seq<Opt>, side: Side, w: World, q: Request, fullMethod: string,
                        handler: Handler<World, Request, Reply>)
    requires OwnLimiters(opts) && Exhausted(opts, side, w, fullMethod)
    ensures var stages, (m, r) := ServerStages(opts, side), Handle(opts, side, w, q, fullMethod, handler);
      && m.w.app == w.app && Called !in m.marks
      && (forall j: nat :: j < |stages| && OrderOf(stages[j]) > ORDER_RATE_LIMIT ==> Before(j) !in m.marks)
      && (!TracingCrashes(stages, q, fullMethod) && !IPSays(stages, q, Denied) && !IPSays(stages, q, Crashed) ==>
            r == Failed(ResourceExhausted))
  {
    var stages := ServerStages(opts, side);
    ServerChainsInOrder(opts, side);
    var k := ExhaustedStage(opts, side, w, fullMethod);
    EmptyBucketStops(stages, w, q, fullMethod, k);
    NothingBehind(stages, w, q, fullMethod, handler, k);
    StoppedBeforeAuth(stages, w, q, fullMethod, handler);
    ThrottledReply(stages, w, q, fullMethod);
    RunEvaluates(stages, w, q, fullMethod, handler);
  }

  /** A request that gets no further than stage `k` is kept from everything of a higher number. */
  lemma NothingBehind(stages: seq<Stage>, w: World, q: Request, fullMethod: string,
                      handler: Handler<World, Request, Reply>, k: nat)
    requires InOrder(stages) && k < |stages| && Passed(stages, w, q, fullMethod) <= k
    ensures var d, marks := Passed(stages, w, q, fullMethod), Run(stages, w, q, fullMethod, handler).0.marks;
      && OrderOf(stages[d]) <= OrderOf(stages[k]) && Called !in marks
      && forall j: nat :: j < |stages| && OrderOf(stages[j]) > OrderOf(stages[k]) ==> Before(j) !in marks
  {
    var d := Passed(stages, w, q, fullMethod);
    GateLaw(stages, w, q, fullMethod, handler, d, d);
    forall j: nat | j < |stages| && OrderOf(stages[j]) > OrderOf(stages[k])
      ensures Before(j) !in Run(stages, w, q, fullMethod, handler).0.marks
    {
      GateLaw(stages, w, q, fullMethod, handler, d, j);
    }
  }

  /** A request that neither tracing nor an address check stops is stopped by a rate limit, if before authentication. */
  lemma ThrottledReply(stages: seq<Stage>, w: World, q: Request, fullMethod: string)
    requires InOrder(stages)
    requires var d := Passed(stages, w, q, fullMethod); d < |stages| && OrderOf(stages[d]) <= ORDER_RATE_LIMIT
    ensures !TracingCrashes(stages, q, fullMethod) && !IPSays(stages, q, Denied) && !IPSays(stages, q, Crashed) ==>
      stages[Passed(stages, w, q, fullMethod)].RateLimit?
  {
    var d := Passed(stages, w, q, fullMethod);
    EarlyArrival(stages, w, q, fullMethod);
    StoppedEarlyAnswers(stages, w, q, fullMethod, (w, q) => (w, Panicked));
    var (wd, qd) := Arrival(stages, w, q, fullMethod);
    assert BeforeStage(stages[d], wd, qd, fullMethod).Reject?;
    if stages[d].IPBlock? { assert stages[d].verdict(q) == Denied || stages[d].verdict(q) == Crashed; }
  }

  // ---------------------------------------------------------------- authentication

  type AuthFn = (App, Ctx, string) -> Grant

  function AuthOf(s: Stage): Option<AuthFn> {
    if s.Auth? then Some(s.fn) else None
  }

  function AuthSet(o: Opt): Option<AuthFn> {
    if o.WithAuth? then Some(o.fn) else None
  }

  /** The authentication functions of a chain, in order. */
  function AuthsIn(stages: seq<Stage>): seq<AuthFn> {
    Picked(stages, AuthOf)
  }

  /** The configured authentication functions, in the order of their options. */
  function AuthFns(opts: seq<Opt>): seq<AuthFn> {
    Picked(opts, AuthSet)
  }

  lemma {:induction false} AuthsRegistered(opts: seq<Opt>, resolver: Option<RL.Rules>, side: Side)
    ensures Picked(Picked(AllEntries(opts, resolver), OnSide(side)), AuthOf) == AuthFns(opts)
  {
    if opts != [] {
      var rest := AllEntries(opts[1..], ResolverAfter(opts[0], resolver));
      AuthsRegistered(opts[1..], ResolverAfter(opts[0], resolver), side);
      AuthsOfEntries(opts[0], resolver, side, rest);
    }
  }

  lemma AuthsOfEntries(o: Opt, resolver: Option<RL.Rules>, side: Side, rest: seq<Registered>)
    ensures var after := Picked(Picked(rest, OnSide(side)), AuthOf);
      Picked(Picked(Entries(o, resolver) + rest, OnSide(side)), AuthOf) == if o.WithAuth? then [o.fn] + after else after
  {
    var es := Entries(o, resolver);
    if |es| == 2 {
      assert es + rest == [es[0]] + ([es[1]] + rest);
      SeenInEntry(es[0], [es[1]] + rest, side, AuthOf);
      SeenInEntry(es[1], rest, side, AuthOf);
    } else if |es| == 1 {
      assert es + rest == [es[0]] + rest;
      SeenInEntry(es[0], rest, side, AuthOf);
    } else {
      assert es + rest == rest;
    }
  }

  /** A server authenticates with its configured functions, in the order of their options, whatever else there is. */
  lemma AuthsInOrder(opts: seq<Opt>, side: Side)
    ensures AuthsIn(ServerStages(opts, side)) == AuthFns(opts)
  {
    RegistrationOrder(opts, side, AuthOf, ORDER_AUTH);
    AuthsRegistered(opts, None, side);
  }

  /** Where the `n`-th authentication of a chain stands. */
  lemma {:induction false} AuthStage(stages: seq<Stage>, n: nat) returns (k: nat)
    requires n < |AuthsIn(stages)|
    ensures k < |stages| && stages[k].Auth? && stages[k].fn == AuthsIn(stages)[n]
    ensures n == 0 ==> forall i :: 0 <= i < k ==> !stages[i].Auth?
  {
    if stages[0].Auth? && n == 0 {
      k := 0;
    } else {
      var rest := AuthStage(stages[1..], if stages[0].Auth? then n - 1 else n);
      k := rest + 1;
    }
  }

  /** A configured function refuses the method to everybody, or the first one refuses this request. */
  ghost predicate RefusedBy(opts: seq<Opt>, w: World, q: Request, fullMethod: string, n: nat) {
    && n < |AuthFns(opts)|
    && (AlwaysRefuses(AuthFns(opts)[n], fullMethod) ||
        (n == 0 && !AuthFns(opts)[0](w.app, q.ctx, fullMethod).Granted?))
  }

  /**
   For any options in any order: a request that a configured authentication function refuses reaches no user
   interceptor and no handler, and is not answered. If authentication is what stops it, it gets the refusal's own
   status, or Unauthenticated if that has none.
   */
  lemma ServerAuthenticates(opts: seq<Opt>, side: Side, w: World, q: Request, fullMethod: string,
                            handler: Handler<World, Request, Reply>, n: nat)
    requires RefusedBy(opts, w, q, fullMethod, n)
    ensures var stages, (m, r) := ServerStages(opts, side), Handle(opts, side, w, q, fullMethod, handler);
      var (wd, qd) := Arrival(stages, w, q, fullMethod);
      var d := Passed(stages, w, q, fullMethod);
      && Called !in m.marks && !r.Answered?
      && (forall j: nat :: j < |stages| && OrderOf(stages[j]) > ORDER_AUTH ==> Before(j) !in m.marks)
      && d < |stages| && OrderOf(stages[d]) <= ORDER_AUTH
      && (stages[d].Auth? ==>
            match stages[d].fn(wd.app, qd.ctx, fullMethod)
            case Granted(_, _) => false
            case RefusedWithStatus(app, code) => r == Failed(code) && m.w == wd.(app := app)
            case Refused(app) => r == Failed(Unauthenticated) && m.w == wd.(app := app)
            case AuthCrashed(app) => r == Recovered(stages, Panicked) && m.w == wd.(app := app))
  {
    var stages := ServerStages(opts, side);
    ServerChainsInOrder(opts, side);
    AuthsInOrder(opts, side);
    var k := AuthStage(stages, n);
    RefusalStops(stages, w, q, fullMethod, k);
    NothingBehind(stages, w, q, fullMethod, handler, k);
    StoppedEarlyAnswers(stages, w, q, fullMethod, handler);
    RunEvaluates(stages, w, q, fullMethod, handler);
  }
}
