/** The functional options, the server's assembly, and when the order of options matters. */
module Options {
  import opened Common
  import opened Middleware
  import opened Pipeline
  import opened Chain
  import RL = RateLimit

  /** The stages a caller supplies itself. */
  type UserStage = s: Stage | s.User? witness User((a, q, _) => GoOn(a, q), (a, r) => (a, r))

  /**
   The options that touch the middleware, and `Unrelated` for those that do not (caches, the ping service).
   `limiter` names the limiter a `WithRateLimitGlobal` creates, `id` the identifier a recovery would draw.
   */
  datatype Opt =
    | WithUnaryInterceptor(i: Option<UserStage>)
    | WithStreamInterceptor(i: Option<UserStage>)
    | WithRecovery(id: string)
    | WithResolver(r: Option<RL.Rules>)
    | WithIPBlocker(verdict: Request -> Verdict)
    | WithAuth(fn: (App, Ctx, string) -> Grant)
    | WithRateLimitGlobal(limiter: nat, rps: real, burst: int)
    | WithOpenTelemetry(crashes: (Request, string) -> bool)
    | Unrelated

  type Registered = Entry<Stage, Stage>

  function Both(unary: Stage, stream: Stage): Registered {
    Entry(Some(unary), Some(stream), OrderOf(unary))
  }

  /** What an option registers, given the resolver configured so far. */
  function Entries(o: Opt, resolver: Option<RL.Rules>): seq<Registered> {
    match o
    case WithUnaryInterceptor(i) =>
      [Entry(if i.Some? then Some(i.value) else None, None, ORDER_INTERCEPTOR)]
    case WithStreamInterceptor(i) =>
      [Entry(None, if i.Some? then Some(i.value) else None, ORDER_INTERCEPTOR)]
    case WithRecovery(id) => [Both(Recovery, Recovery), Both(RequestID(Some(id)), RequestID(None))]
    case WithIPBlocker(verdict) => [Both(IPBlock(verdict), IPBlock(verdict))]
    case WithAuth(fn) => [Both(Auth(fn, true), Auth(fn, false))]
    case WithRateLimitGlobal(limiter, rps, burst) =>
      var spec := RL.PerSecond(rps, burst);
      [Both(RateLimit(limiter, spec, resolver, Unary), RateLimit(limiter, spec, resolver, Stream))]
    case WithOpenTelemetry(crashes) => [Both(Tracing(crashes), Tracing(crashes))]
    case _ => []
  }

  function ResolverAfter(o: Opt, resolver: Option<RL.Rules>): Option<RL.Rules> {
    if o.WithResolver? then o.r else resolver
  }

  /** What a list of options registers: each rate limit sees the resolver set before it. */
  function AllEntries(opts: seq<Opt>, resolver: Option<RL.Rules>): seq<Registered> {
    if opts == [] then []
    else Entries(opts[0], resolver) + AllEntries(opts[1..], ResolverAfter(opts[0], resolver))
  }

  /** The resolver in force once the options are applied. */
  function LastResolver(opts: seq<Opt>, resolver: Option<RL.Rules>): Option<RL.Rules> {
    if opts == [] then resolver else LastResolver(opts[1..], ResolverAfter(opts[0], resolver))
  }

  /** One side of a registered entry. */
  function OnSide(side: Side): Registered -> Option<Stage> {
    if side.Unary? then UnaryOf else StreamOf
  }

  /** The chain of one side of a server. */
  function ServerStages(opts: seq<Opt>, side: Side): seq<Stage> {
    Picked(StableSort(AllEntries(opts, None)), OnSide(side))
  }

  /** The configuration that the option closures mutate. */
  class Config {
    const middlewares: MiddlewareBuilder<Stage, Stage>
    var resolver: Option<RL.Rules>

    constructor ()
      ensures fresh(middlewares) && middlewares.entries == [] && resolver == None
    {
      middlewares := new MiddlewareBuilder();
      resolver := None;
    }

    method Apply(o: Opt)
      modifies this, middlewares
      ensures middlewares.entries == old(middlewares.entries) + Entries(o, old(resolver))
      ensures resolver == ResolverAfter(o, old(resolver))
    {
      match o {
        case WithUnaryInterceptor(i) =>
          middlewares.Add(ORDER_INTERCEPTOR, if i.Some? then Some(i.value) else None, None);
        case WithStreamInterceptor(i) =>
          middlewares.Add(ORDER_INTERCEPTOR, None, if i.Some? then Some(i.value) else None);
        case WithRecovery(id) =>
          middlewares.Add(ORDER_RECOVERY, Some(Recovery), Some(Recovery));
          middlewares.Add(ORDER_REQUEST_ID, Some(RequestID(Some(id))), Some(RequestID(None)));
        case WithResolver(r) =>
          resolver := r;
        case WithIPBlocker(verdict) =>
          middlewares.Add(ORDER_IP_BLOCK, Some(IPBlock(verdict)), Some(IPBlock(verdict)));
        case WithAuth(fn) =>
          middlewares.Add(ORDER_AUTH, Some(Auth(fn, true)), Some(Auth(fn, false)));
        case WithRateLimitGlobal(limiter, rps, burst) =>
          var spec := RL.PerSecond(rps, burst);
          middlewares.Add(ORDER_RATE_LIMIT, Some(RateLimit(limiter, spec, resolver, Unary)),
                          Some(RateLimit(limiter, spec, resolver, Stream)));
        case WithOpenTelemetry(crashes) =>
          middlewares.Add(ORDER_TRACING, Some(Tracing(crashes)), Some(Tracing(crashes)));
        case Unrelated =>
      }
    }
  }

  lemma AllEntriesStep(done: seq<Registered>, opts: seq<Opt>, i: nat, resolver: Option<RL.Rules>)
    requires i < |opts|
    ensures done + AllEntries(opts[i..], resolver) ==
      (done + Entries(opts[i], resolver)) + AllEntries(opts[i + 1..], ResolverAfter(opts[i], resolver))
  {
    assert opts[i..][0] == opts[i] && opts[i..][1..] == opts[i + 1..];
  }

  /** Apply the options in turn, then build both chains. */
  method NewServer(opts: seq<Opt>) returns (unary: seq<Stage>, stream: seq<Stage>)
    ensures unary == ServerStages(opts, Unary) && stream == ServerStages(opts, Stream)
  {
    var cfg := new Config();
    for i := 0 to |opts|
      invariant fresh(cfg) && fresh(cfg.middlewares)
      invariant cfg.middlewares.entries + AllEntries(opts[i..], cfg.resolver) == AllEntries(opts, None)
    {
      AllEntriesStep(cfg.middlewares.entries, opts, i, cfg.resolver);
      cfg.Apply(opts[i]);
    }
    assert opts[|opts|..] == [];
    assert cfg.middlewares.entries == AllEntries(opts, None);
    unary, stream := cfg.middlewares.Build();
  }

  // ---------------------------------------------------------------- every built chain is in order

  /** A registered stage sits at the priority of its kind. */
  ghost predicate WellPlaced(es: seq<Registered>) {
    forall e, side :: e in es && OnSide(side)(e).Some? ==> OrderOf(OnSide(side)(e).value) == e.order
  }

  lemma {:induction false} AllWellPlaced(opts: seq<Opt>, resolver: Option<RL.Rules>)
    ensures WellPlaced(AllEntries(opts, resolver))
  {
    if opts != [] {
      EntriesWellPlaced(opts[0], resolver);
      AllWellPlaced(opts[1..], ResolverAfter(opts[0], resolver));
    }
  }

  lemma EntriesWellPlaced(o: Opt, resolver: Option<RL.Rules>)
    ensures WellPlaced(Entries(o, resolver))
  {
  }

  lemma {:induction false} SideInOrder(es: seq<Registered>, side: Side)
    requires Sorted(es) && WellPlaced(es)
    ensures InOrder(Picked(es, OnSide(side)))
  {
    if es != [] {
      var e, rest := es[0], es[1..];
      assert es == [e] + rest && e in es;
      SideInOrder(rest, side);
      PickedCons(e, rest, OnSide(side));
      forall s | s in Picked(rest, OnSide(side)) ensures e.order <= OrderOf(s) { PickedFrom(rest, OnSide(side), s); }
    }
  }

  lemma SortedWellPlaced(opts: seq<Opt>)
    ensures Sorted(StableSort(AllEntries(opts, None))) && WellPlaced(StableSort(AllEntries(opts, None)))
    ensures forall e :: e in StableSort(AllEntries(opts, None)) <==> e in AllEntries(opts, None)
  {
    var es := AllEntries(opts, None);
    SortIsStable(es);
    AllWellPlaced(opts, None);
    forall e ensures e in StableSort(es) <==> e in es {
      assert e in StableSort(es) <==> e in multiset(StableSort(es));
      assert e in es <==> e in multiset(es);
    }
  }

  /** The chains of every server are in order of priority, whatever the order of its options. */
  lemma ServerChainsInOrder(opts: seq<Opt>, side: Side)
    ensures InOrder(ServerStages(opts, side))
  {
    SortedWellPlaced(opts);
    SideInOrder(StableSort(AllEntries(opts, None)), side);
  }

  /** `f` looks only at stages of one priority. */
  ghost predicate LooksAt<X>(f: Stage -> Option<X>, order: int) {
    forall s :: f(s).Some? ==> OrderOf(s) == order
  }

  lemma {:induction false} SeenAtPriority<X>(es: seq<Registered>, side: Side, f: Stage -> Option<X>, order: int)
    requires WellPlaced(es) && LooksAt(f, order)
    ensures Picked(Picked(es, OnSide(side)), f) == Picked(Picked(OfOrder(es, order), OnSide(side)), f)
  {
    if es != [] {
      var e, rest := es[0], es[1..];
      assert es == [e] + rest && e in es;
      SeenAtPriority(rest, side, f, order);
      SeenInEntry(e, rest, side, f);
      if e.order == order { SeenInEntry(e, OfOrder(rest, order), side, f); }
    }
  }

  lemma SeenInEntry<X>(e: Registered, rest: seq<Registered>, side: Side, f: Stage -> Option<X>)
    ensures var s := OnSide(side)(e);
      Picked(Picked([e] + rest, OnSide(side)), f) ==
        if s.Some? && f(s.value).Some? then [f(s.value).value] + Picked(Picked(rest, OnSide(side)), f)
        else Picked(Picked(rest, OnSide(side)), f)
  {
    PickedCons(e, rest, OnSide(side));
    if OnSide(side)(e).Some? { PickedCons(OnSide(side)(e).value, Picked(rest, OnSide(side)), f); }
  }

  /** Stages of one priority stand in a server's chain in the order in which the options registered them. */
  lemma RegistrationOrder<X>(opts: seq<Opt>, side: Side, f: Stage -> Option<X>, order: int)
    requires LooksAt(f, order)
    ensures Picked(ServerStages(opts, side), f) == Picked(Picked(AllEntries(opts, None), OnSide(side)), f)
  {
    var es := AllEntries(opts, None);
    SortedWellPlaced(opts);
    AllWellPlaced(opts, None);
    SortIsStable(es);
    SeenAtPriority(es, side, f, order);
    SeenAtPriority(StableSort(es), side, f, order);
    assert OfOrder(StableSort(es), order) == OfOrder(es, order);
  }

  // ---------------------------------------------------------------- the gates, end to end

  function Handle(opts: seq<Opt>, side: Side, w: World, q: Request, fullMethod: string,
                  handler: Handler<World, Request, Reply>): (Marked<World>, Reply) {
    Run(ServerStages(opts, side), w, q, fullMethod, handler)
  }

  /** For any options in any order: a stage is entered only after everything of lower priority number let the request pass. */
  lemma ServerGates(opts: seq<Opt>, side: Side, w: World, q: Request, fullMethod: string,
                    handler: Handler<World, Request, Reply>, i: nat, j: nat)
    requires i < |ServerStages(opts, side)| && j < |ServerStages(opts, side)|
    ensures var stages, marks := ServerStages(opts, side), Handle(opts, side, w, q, fullMethod, handler).0.marks;
      && (stages[i].IPBlock? && (stages[j].RateLimit? || stages[j].Auth? || stages[j].User?) && Before(j) in marks ==> After(i) in marks)
      && (stages[i].RateLimit? && (stages[j].Auth? || stages[j].User?) && Before(j) in marks ==> After(i) in marks)
      && (stages[i].Auth? && stages[j].User? && Before(j) in marks ==> After(i) in marks)
      && (Called in marks ==> After(i) in marks)
  {
    ServerChainsInOrder(opts, side);
    GateLaw(ServerStages(opts, side), w, q, fullMethod, handler, i, j);
  }

  /** For any options in any order, a request from a denied address debits no bucket and changes no state. */
  lemma ServerBlocks(opts: seq<Opt>, side: Side, w: World, q: Request, fullMethod: string,
                     handler: Handler<World, Request, Reply>)
    requires IPSays(ServerStages(opts, side), q, Denied)
    ensures var stages, (m, r) := ServerStages(opts, side), Handle(opts, side, w, q, fullMethod, handler);
      && m.w == w && Called !in m.marks
      && (forall j: nat :: j < |stages| && OrderOf(stages[j]) > ORDER_IP_BLOCK ==> Before(j) !in m.marks)
      && (!TracingCrashes(stages, q, fullMethod) && !IPSays(stages, q, Crashed) ==> r == Failed(PermissionDenied))
  {
    var stages := ServerStages(opts, side);
    ServerChainsInOrder(opts, side);
    BlockedChangesNothing(stages, w, q, fullMethod, handler);
    if !TracingCrashes(stages, q, fullMethod) && !IPSays(stages, q, Crashed) {
      BlockedIsDenied(stages, w, q, fullMethod, handler);
    }
    RunEvaluates(stages, w, q, fullMethod, handler);
    var d := Passed(stages, w, q, fullMethod);
    GateLaw(stages, w, q, fullMethod, handler, d, d);
    forall j: nat | j < |stages| && OrderOf(stages[j]) > ORDER_IP_BLOCK
      ensures Before(j) !in Handle(opts, side, w, q, fullMethod, handler).0.marks
    {
      GateLaw(stages, w, q, fullMethod, handler, d, j);
    }
  }

  // ---------------------------------------------------------------- from options to stages

  /** Option `o` puts stage `s` on one side of the server. */
  ghost predicate Installs(o: Opt, side: Side, s: Stage) {
    exists e :: e in Entries(o, None) && OnSide(side)(e) == Some(s)
  }

  lemma {:induction false} RegisteredByOption(opts: seq<Opt>, resolver: Option<RL.Rules>, side: Side, s: Stage)
    requires !s.RateLimit?
    ensures (exists e :: e in AllEntries(opts, resolver) && OnSide(side)(e) == Some(s))
        <==> exists o :: o in opts && Installs(o, side, s)
  {
    if opts != [] {
      var o, rest := opts[0], opts[1..];
      assert opts == [o] + rest;
      RegisteredByOption(rest, ResolverAfter(o, resolver), side, s);
      assert !o.WithRateLimitGlobal? ==> Entries(o, resolver) == Entries(o, None);
      if Installs(o, side, s) {
        var e :| e in Entries(o, None) && OnSide(side)(e) == Some(s);
        assert e in AllEntries(opts, resolver);
      }
      if exists e :: e in Entries(o, resolver) && OnSide(side)(e) == Some(s) {
        assert Installs(o, side, s);
      }
    }
  }

  /** Apart from rate limits, a server's stages are those its options install, and no others. */
  lemma StagesAreInstalled(opts: seq<Opt>, side: Side, s: Stage)
    requires !s.RateLimit?
    ensures s in ServerStages(opts, side) <==> exists o :: o in opts && Installs(o, side, s)
  {
    var es := AllEntries(opts, None);
    SortedWellPlaced(opts);
    PickedFrom(StableSort(es), OnSide(side), s);
    RegisteredByOption(opts, None, side, s);
  }

  lemma EachIn<T>(s: seq<T>)
    ensures |s| == 1 ==> forall x :: x in s <==> x == s[0]
    ensures |s| == 2 ==> forall x :: x in s <==> x == s[0] || x == s[1]
  {
  }

  lemma InstallsHere(o: Opt, side: Side, s: Stage)
    ensures var es := Entries(o, None);
      && (|es| == 0 ==> !Installs(o, side, s))
      && (|es| == 1 ==> (Installs(o, side, s) <==> OnSide(side)(es[0]) == Some(s)))
      && (|es| == 2 ==> (Installs(o, side, s) <==> OnSide(side)(es[0]) == Some(s) || OnSide(side)(es[1]) == Some(s)))
  {
    EachIn(Entries(o, None));
  }

  /** Which option puts which stage where: a stage of every kind, on either side. */
  lemma InstallsExactly(o: Opt, side: Side, s: Stage)
    ensures s.Recovery? ==> (Installs(o, side, s) <==> o.WithRecovery?)
    ensures s.IPBlock? ==> (Installs(o, side, s) <==> o == WithIPBlocker(s.verdict))
    ensures s.Tracing? ==> (Installs(o, side, s) <==> o == WithOpenTelemetry(s.crashes))
    ensures s.Auth? ==> (Installs(o, side, s) <==> o == WithAuth(s.fn) && s.passesCtx == side.Unary?)
    ensures s.RequestID? ==>
      (Installs(o, side, s) <==> o.WithRecovery? && s.id == if side.Unary? then Some(o.id) else None)
    ensures s.RateLimit? ==>
      (Installs(o, side, s) <==> o.WithRateLimitGlobal? && s == RateLimit(o.limiter, RL.PerSecond(o.rps, o.burst), None, side))
    ensures s.User? ==>
      (Installs(o, side, s) <==> o == if side.Unary? then WithUnaryInterceptor(Some(s)) else WithStreamInterceptor(Some(s)))
  {
    InstallsHere(o, side, s);
  }

  lemma RecoveryInstalledIff(opts: seq<Opt>, side: Side)
    ensures HasRecovery(ServerStages(opts, side)) <==> exists o :: o in opts && o.WithRecovery?
  {
    var stages := ServerStages(opts, side);
    StagesAreInstalled(opts, side, Recovery);
    forall o: Opt ensures Installs(o, side, Recovery) <==> o.WithRecovery? { InstallsExactly(o, side, Recovery); }
    if HasRecovery(stages) {
      var i :| 0 <= i < |stages| && stages[i].Recovery?;
      assert stages[i] in stages;
    }
    if Recovery in stages {
      var i :| 0 <= i < |stages| && stages[i] == Recovery;
    }
  }

  /** Some configured tracing panics on the request. */
  predicate TracingFails(opts: seq<Opt>, q: Request, fullMethod: string) {
    exists i :: 0 <= i < |opts| && opts[i].WithOpenTelemetry? && opts[i].crashes(q, fullMethod)
  }

  lemma TracingCrashesIff(opts: seq<Opt>, side: Side, q: Request, fullMethod: string)
    ensures TracingCrashes(ServerStages(opts, side), q, fullMethod) <==> TracingFails(opts, q, fullMethod)
  {
    var stages := ServerStages(opts, side);
    if TracingCrashes(stages, q, fullMethod) {
      var i :| 0 <= i < |stages| && stages[i].Tracing? && stages[i].crashes(q, fullMethod);
      StagesAreInstalled(opts, side, stages[i]);
      var o :| o in opts && Installs(o, side, stages[i]);
      InstallsExactly(o, side, stages[i]);
      var j :| 0 <= j < |opts| && opts[j] == o;
    }
    if TracingFails(opts, q, fullMethod) {
      var i :| 0 <= i < |opts| && opts[i].WithOpenTelemetry? && opts[i].crashes(q, fullMethod);
      var s := Tracing(opts[i].crashes);
      InstallsExactly(opts[i], side, s);
      StagesAreInstalled(opts, side, s);
      var j :| 0 <= j < |stages| && stages[j] == s;
    }
  }

  /** Some configured IP blocker denies the request. */
  predicate DeniedBy(opts: seq<Opt>, q: Request) {
    exists i :: 0 <= i < |opts| && opts[i].WithIPBlocker? && opts[i].verdict(q) == Denied
  }

  lemma DenialReachesChain(opts: seq<Opt>, side: Side, q: Request)
    requires DeniedBy(opts, q)
    ensures IPSays(ServerStages(opts, side), q, Denied)
  {
    var i :| 0 <= i < |opts| && opts[i].WithIPBlocker? && opts[i].verdict(q) == Denied;
    var s := IPBlock(opts[i].verdict);
    InstallsExactly(opts[i], side, s);
    StagesAreInstalled(opts, side, s);
    var j :| 0 <= j < |ServerStages(opts, side)| && ServerStages(opts, side)[j] == s;
  }

  /** The blocker's promise for every list of options: a denied request debits nothing and reaches no handler. */
  lemma DeniedRequestsAreHarmless(opts: seq<Opt>, side: Side, w: World, q: Request, fullMethod: string,
                                  handler: Handler<World, Request, Reply>)
    requires DeniedBy(opts, q)
    ensures var m := Handle(opts, side, w, q, fullMethod, handler).0; m.w == w && Called !in m.marks
  {
    DenialReachesChain(opts, side, q);
    ServerBlocks(opts, side, w, q, fullMethod, handler);
  }

  /**
   The recovery's promise for every list of options, as the code keeps it: with `WithRecovery` a panic leaves
   the chain exactly when tracing, which is outside recovery, panics.
   */
  lemma ServerPanicsIff(opts: seq<Opt>, side: Side, w: World, q: Request, fullMethod: string,
                        handler: Handler<World, Request, Reply>)
    requires exists o :: o in opts && o.WithRecovery?
    ensures Handle(opts, side, w, q, fullMethod, handler).1.Panicked?
        <==> TracingFails(opts, q, fullMethod)
  {
    TracingCrashesIff(opts, side, q, fullMethod);
    ServerChainsInOrder(opts, side);
    RecoveryInstalledIff(opts, side);
    PanicEscapesIff(ServerStages(opts, side), w, q, fullMethod, handler);
  }
}
