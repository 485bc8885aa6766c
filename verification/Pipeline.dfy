/**
 The interceptors the toolkit installs, as stages of one chain over a shared world, and what a request meets
 on its way through any chain sorted by priority.
 */
module Pipeline {
  import opened Common
  import opened Chain
  import RL = RateLimit

  datatype Code = PermissionDenied | ResourceExhausted | Unauthenticated | Internal | Custom(n: nat)

  /** `Panicked` is a panic on its way up the stack. */
  datatype Reply = Answered(body: string) | Failed(code: Code) | Panicked

  datatype Ctx = Ctx(requestId: string, actor: string)

  datatype Request = Request(ctx: Ctx, body: string)

  /** The state of user code: interceptors, handlers and authentication. */
  type App = map<string, string>

  /** Each rate-limit interceptor keeps its own group buckets; the two sides share the global one. */
  datatype Side = Unary | Stream

  /** `limiter` names a `WithRateLimitGlobal`; what is not in the maps yet is untouched so far. */
  datatype World = World(globals: map<nat, RL.Slot>, groups: map<(nat, Side), map<string, RL.Slot>>, app: App) {
    function LimitsOf(limiter: nat, spec: RL.Spec, side: Side): RL.Limits {
      RL.Limits(if limiter in globals then globals[limiter] else RL.New(spec),
             if (limiter, side) in groups then groups[(limiter, side)] else map[])
    }

    function WithLimits(limiter: nat, side: Side, s: RL.Limits): World {
      this.(globals := globals[limiter := s.global], groups := groups[(limiter, side) := s.groups])
    }
  }

  datatype Verdict = Allowed | Denied | Crashed

  datatype Grant = Granted(app: App, ctx: Ctx) | RefusedWithStatus(app: App, code: Code) | Refused(app: App) | AuthCrashed(app: App)

  datatype UserDecision = GoOn(app: App, q: Request) | Stop(app: App, reply: Reply)

  datatype Stage =
    | Tracing(crashes: (Request, string) -> bool)
    | Recovery
    | IPBlock(verdict: Request -> Verdict)
    | RateLimit(limiter: nat, spec: RL.Spec, resolver: Option<RL.Rules>, side: Side)
    | Auth(fn: (App, Ctx, string) -> Grant, passesCtx: bool)
    | RequestID(id: Option<string>)
    | User(before: (App, Request, string) -> UserDecision, after: (App, Reply) -> (App, Reply))

  /** The fixed priorities. */
  const ORDER_TRACING := 5
  const ORDER_RECOVERY := 10
  const ORDER_IP_BLOCK := 20
  const ORDER_RATE_LIMIT := 25
  const ORDER_AUTH := 28
  const ORDER_REQUEST_ID := 30
  const ORDER_INTERCEPTOR := 100

  function OrderOf(s: Stage): nat {
    match s
    case Tracing(_) => ORDER_TRACING
    case Recovery => ORDER_RECOVERY
    case IPBlock(_) => ORDER_IP_BLOCK
    case RateLimit(_, _, _, _) => ORDER_RATE_LIMIT
    case Auth(_, _) => ORDER_AUTH
    case RequestID(_) => ORDER_REQUEST_ID
    case User(_, _) => ORDER_INTERCEPTOR
  }

  ghost predicate InOrder(stages: seq<Stage>) {
    forall i, j :: 0 <= i < j < |stages| ==> OrderOf(stages[i]) <= OrderOf(stages[j])
  }

  // ---------------------------------------------------------------- one stage

  function BeforeStage(s: Stage, w: World, q: Request, fullMethod: string): Decision<World, Request, Reply> {
    match s
    case Tracing(crashes) =>
      if crashes(q, fullMethod) then Reject(w, Panicked) else Proceed(w, q)
    case Recovery => Proceed(w, q)
    case IPBlock(verdict) =>
      (match verdict(q)
       case Allowed => Proceed(w, q)
       case Denied => Reject(w, Failed(PermissionDenied))
       case Crashed => Reject(w, Panicked))
    case RateLimit(limiter, spec, resolver, side) =>
      var (limits, ok) := RL.Request(resolver, w.LimitsOf(limiter, spec, side), fullMethod);
      var w' := w.WithLimits(limiter, side, limits);
      if ok then Proceed(w', q) else Reject(w', Failed(ResourceExhausted))
    case Auth(fn, passesCtx) =>
      (match fn(w.app, q.ctx, fullMethod)
       case Granted(app, ctx) => Proceed(w.(app := app), if passesCtx then q.(ctx := ctx) else q)
       case RefusedWithStatus(app, code) => Reject(w.(app := app), Failed(code))
       case Refused(app) => Reject(w.(app := app), Failed(Unauthenticated))
       case AuthCrashed(app) => Reject(w.(app := app), Panicked))
    case RequestID(id) =>
      Proceed(w, if id.Some? && q.ctx.requestId == "" then q.(ctx := q.ctx.(requestId := id.value)) else q)
    case User(before, _) =>
      (match before(w.app, q, fullMethod)
       case GoOn(app, q') => Proceed(w.(app := app), q')
       case Stop(app, reply) => Reject(w.(app := app), reply))
  }

  function AfterStage(s: Stage, w: World, r: Reply): (World, Reply) {
    match s
    case Recovery => (w, if r.Panicked? then Failed(Internal) else r)
    case User(_, after) => var (app, r') := after(w.app, r); (w.(app := app), r')
    case _ => (w, r)
  }

  function HookOf(s: Stage): Hook<World, Request, string, Reply> {
    Hook((w: World, q: Request, m: string) => BeforeStage(s, w, q, m), (w: World, r: Reply) => AfterStage(s, w, r))
  }

  function HooksOf(stages: seq<Stage>): seq<Hook<World, Request, string, Reply>> {
    if stages == [] then [] else [HookOf(stages[0])] + HooksOf(stages[1..])
  }

  // ---------------------------------------------------------------- a request through a chain

  /** A request served by the chained interceptors, with the marks of its passage. */
  function Run(stages: seq<Stage>, w: World, q: Request, fullMethod: string, handler: Handler<World, Request, Reply>)
    : (Marked<World>, Reply)
  {
    Serve(ChainOf(Stages(0, HooksOf(stages))), Marked(w, []), q, fullMethod, MarkedHandler(handler))
  }

  /** The number of stages that let the request pass before one stops it. */
  function Passed(stages: seq<Stage>, w: World, q: Request, fullMethod: string): nat {
    Depth(HooksOf(stages), w, q, fullMethod)
  }

  lemma PassedHead(stages: seq<Stage>, w: World, q: Request, fullMethod: string)
    requires stages != []
    ensures Passed(stages, w, q, fullMethod) ==
      match BeforeStage(stages[0], w, q, fullMethod)
      case Reject(_, _) => 0
      case Proceed(w', q') => 1 + Passed(stages[1..], w', q', fullMethod)
  {
    assert HooksOf(stages)[1..] == HooksOf(stages[1..]);
  }

  lemma {:induction false} HooksLength(stages: seq<Stage>)
    ensures |HooksOf(stages)| == |stages|
  {
    if stages != [] { HooksLength(stages[1..]); }
  }

  lemma RunMarks(stages: seq<Stage>, w: World, q: Request, fullMethod: string, handler: Handler<World, Request, Reply>)
    ensures Passed(stages, w, q, fullMethod) <= |stages|
    ensures var d := Passed(stages, w, q, fullMethod);
      Run(stages, w, q, fullMethod, handler).0.marks ==
        Befores(0, d) + (if d < |stages| then [Before(d)] else [Called]) + AftersBackwards(0, d)
  {
    var hooks := HooksOf(stages);
    HooksLength(stages);
    DepthBounded(hooks, w, q, fullMethod);
    ChainIsFold(Stages(0, hooks), Marked(w, []), q, fullMethod, MarkedHandler(handler));
    Onion(0, hooks, Marked(w, []), q, fullMethod, handler);
  }

  /**
   The gate law: in a chain in order of priority, a stage is entered only if every stage of a lower priority
   number let the request pass, and the handler is called only if every stage did.
   */
  lemma GateLaw(stages: seq<Stage>, w: World, q: Request, fullMethod: string, handler: Handler<World, Request, Reply>,
                i: nat, j: nat)
    requires InOrder(stages) && i < |stages| && j < |stages|
    ensures var marks := Run(stages, w, q, fullMethod, handler).0.marks;
      && (OrderOf(stages[i]) < OrderOf(stages[j]) && Before(j) in marks ==> After(i) in marks)
      && (Called in marks ==> After(i) in marks)
      && (After(i) in marks <==> i < Passed(stages, w, q, fullMethod))
      && (Called in marks <==> Passed(stages, w, q, fullMethod) == |stages|)
  {
    RunMarks(stages, w, q, fullMethod, handler);
    var d := Passed(stages, w, q, fullMethod);
    var marks := Run(stages, w, q, fullMethod, handler).0.marks;
    MarksOf(d, |stages|, i);
    MarksOf(d, |stages|, j);
    if OrderOf(stages[i]) < OrderOf(stages[j]) { assert i < j; }
  }

  lemma MarksOf(d: nat, n: nat, k: nat)
    requires d <= n && k < n
    ensures var marks := Befores(0, d) + (if d < n then [Before(d)] else [Called]) + AftersBackwards(0, d);
      && (Before(k) in marks <==> k <= d)
      && (After(k) in marks <==> k < d)
      && (Called in marks <==> d == n)
  {
    var ins, mid, outs := Befores(0, d), if d < n then [Before(d)] else [Called], AftersBackwards(0, d);
    var marks := ins + mid + outs;
    if k < d {
      assert ins[k] == Before(k) && marks[k] == Before(k);
      assert outs[d - 1 - k] == After(k) && marks[d + 1 + (d - 1 - k)] == After(k);
    }
    assert marks[d] == mid[0];
    forall x ensures x in marks <==> x in ins || x in mid || x in outs {}
  }

  // ---------------------------------------------------------------- what comes out

  /** World and reply of a run, without the marks. */
  function Eval(stages: seq<Stage>, w: World, q: Request, fullMethod: string, handler: Handler<World, Request, Reply>)
    : (World, Reply)
  {
    if stages == [] then handler(w, q)
    else match BeforeStage(stages[0], w, q, fullMethod)
         case Reject(w', r) => (w', r)
         case Proceed(w', q') =>
           var (w'', r) := Eval(stages[1..], w', q', fullMethod, handler);
           AfterStage(stages[0], w'', r)
  }

  lemma {:induction false} FoldEvaluates(from: nat, stages: seq<Stage>, m: Marked<World>, q: Request, fullMethod: string,
                                         handler: Handler<World, Request, Reply>)
    ensures var out := Fold(Stages(from, HooksOf(stages)), fullMethod, MarkedHandler(handler))(m, q);
      (out.0.w, out.1) == Eval(stages, m.w, q, fullMethod, handler)
    decreases |stages|
  {
    var hooks := HooksOf(stages);
    if stages == [] {
      assert Stages(from, hooks) == [];
    } else {
      assert hooks[1..] == HooksOf(stages[1..]);
      assert Stages(from, hooks)[1..] == Stages(from + 1, hooks[1..]);
      match BeforeStage(stages[0], m.w, q, fullMethod)
      case Reject(_, _) =>
      case Proceed(w', q') =>
        FoldEvaluates(from + 1, stages[1..], Marked(w', m.marks + [Before(from)]), q', fullMethod, handler);
    }
  }

  lemma RunEvaluates(stages: seq<Stage>, w: World, q: Request, fullMethod: string, handler: Handler<World, Request, Reply>)
    ensures var out := Run(stages, w, q, fullMethod, handler);
      (out.0.w, out.1) == Eval(stages, w, q, fullMethod, handler)
  {
    ChainIsFold(Stages(0, HooksOf(stages)), Marked(w, []), q, fullMethod, MarkedHandler(handler));
    FoldEvaluates(0, stages, Marked(w, []), q, fullMethod, handler);
  }

  // ---------------------------------------------------------------- early rejections

  predicate HasRecovery(stages: seq<Stage>) {
    exists i :: 0 <= i < |stages| && stages[i].Recovery?
  }

  function Recovered(stages: seq<Stage>, r: Reply): Reply {
    if r.Panicked? && HasRecovery(stages) then Failed(Internal) else r
  }

  /** Some tracing stage panics on the request. */
  predicate TracingCrashes(stages: seq<Stage>, q: Request, fullMethod: string) {
    exists i :: 0 <= i < |stages| && stages[i].Tracing? && stages[i].crashes(q, fullMethod)
  }

  predicate IPSays(stages: seq<Stage>, q: Request, v: Verdict) {
    exists i :: 0 <= i < |stages| && stages[i].IPBlock? && stages[i].verdict(q) == v
  }

  lemma TailFacts(stages: seq<Stage>)
    requires stages != [] && InOrder(stages)
    ensures InOrder(stages[1..])
    ensures forall i :: 0 <= i < |stages| ==> OrderOf(stages[0]) <= OrderOf(stages[i])
    ensures HasRecovery(stages) <==> stages[0].Recovery? || HasRecovery(stages[1..])
  {
    if HasRecovery(stages[1..]) {
      var i :| 0 <= i < |stages[1..]| && stages[1..][i].Recovery?;
      assert stages[i + 1] == stages[1..][i];
    }
    if HasRecovery(stages) {
      var i :| 0 <= i < |stages| && stages[i].Recovery?;
      if i > 0 { assert stages[1..][i - 1] == stages[i]; }
    }
  }

  lemma TailTracing(stages: seq<Stage>, q: Request, fullMethod: string)
    requires stages != []
    ensures TracingCrashes(stages, q, fullMethod) <==>
      (stages[0].Tracing? && stages[0].crashes(q, fullMethod)) || TracingCrashes(stages[1..], q, fullMethod)
  {
    if TracingCrashes(stages[1..], q, fullMethod) {
      var i :| 0 <= i < |stages[1..]| && stages[1..][i].Tracing? && stages[1..][i].crashes(q, fullMethod);
      assert stages[i + 1] == stages[1..][i];
    }
    if TracingCrashes(stages, q, fullMethod) {
      var i :| 0 <= i < |stages| && stages[i].Tracing? && stages[i].crashes(q, fullMethod);
      if i > 0 { assert stages[1..][i - 1] == stages[i]; }
    }
  }

  lemma TailIP(stages: seq<Stage>, q: Request, v: Verdict)
    requires stages != []
    ensures IPSays(stages, q, v) <==> (stages[0].IPBlock? && stages[0].verdict(q) == v) || IPSays(stages[1..], q, v)
  {
    if IPSays(stages[1..], q, v) {
      var i :| 0 <= i < |stages[1..]| && stages[1..][i].IPBlock? && stages[1..][i].verdict(q) == v;
      assert stages[i + 1] == stages[1..][i];
    }
    if IPSays(stages, q, v) {
      var i :| 0 <= i < |stages| && stages[i].IPBlock? && stages[i].verdict(q) == v;
      if i > 0 { assert stages[1..][i - 1] == stages[i]; }
    }
  }

  /**
   A request whose address is denied changes nothing - no bucket is debited, no user code runs - and nothing
   behind the address checks is entered.
   */
  lemma {:induction false} BlockedChangesNothing(stages: seq<Stage>, w: World, q: Request, fullMethod: string,
                                                 handler: Handler<World, Request, Reply>)
    requires InOrder(stages) && IPSays(stages, q, Denied)
    ensures Eval(stages, w, q, fullMethod, handler).0 == w
    ensures var d := Passed(stages, w, q, fullMethod); d < |stages| && OrderOf(stages[d]) <= ORDER_IP_BLOCK
    decreases |stages|
  {
    DeniedHead(stages, w, q, fullMethod, handler);
    TailFacts(stages);
    TailIP(stages, q, Denied);
    if BeforeStage(stages[0], w, q, fullMethod).Proceed? {
      BlockedChangesNothing(stages[1..], w, q, fullMethod, handler);
    }
  }

  /** Unless tracing or an address check panics, a denied request gets PermissionDenied. */
  lemma {:induction false} BlockedIsDenied(stages: seq<Stage>, w: World, q: Request, fullMethod: string,
                                           handler: Handler<World, Request, Reply>)
    requires InOrder(stages) && IPSays(stages, q, Denied)
    requires !TracingCrashes(stages, q, fullMethod) && !IPSays(stages, q, Crashed)
    ensures Eval(stages, w, q, fullMethod, handler).1 == Failed(PermissionDenied)
    decreases |stages|
  {
    DeniedHead(stages, w, q, fullMethod, handler);
    TailFacts(stages);
    TailTracing(stages, q, fullMethod);
    TailIP(stages, q, Denied);
    TailIP(stages, q, Crashed);
    if BeforeStage(stages[0], w, q, fullMethod).Proceed? {
      BlockedIsDenied(stages[1..], w, q, fullMethod, handler);
    }
  }

  /** The head of a chain with a denying address check: tracing, recovery or an address check. */
  lemma DeniedHead(stages: seq<Stage>, w: World, q: Request, fullMethod: string, handler: Handler<World, Request, Reply>)
    requires InOrder(stages) && IPSays(stages, q, Denied)
    ensures stages != [] && OrderOf(stages[0]) <= ORDER_IP_BLOCK
    ensures match BeforeStage(stages[0], w, q, fullMethod)
      case Reject(w', r) => w' == w && Passed(stages, w, q, fullMethod) == 0 && Eval(stages, w, q, fullMethod, handler).0 == w
      case Proceed(w', q') =>
        && w' == w && q' == q && Passed(stages, w, q, fullMethod) == 1 + Passed(stages[1..], w, q, fullMethod)
        && Eval(stages, w, q, fullMethod, handler).0 == Eval(stages[1..], w, q, fullMethod, handler).0
  {
    var i :| 0 <= i < |stages| && stages[i].IPBlock? && stages[i].verdict(q) == Denied;
    assert OrderOf(stages[0]) <= OrderOf(stages[i]);
    PassedHead(stages, w, q, fullMethod);
  }

  /** A request stopped at or before the rate limit never reaches authentication, user code or the handler. */
  lemma {:induction false} StoppedBeforeAuth(stages: seq<Stage>, w: World, q: Request, fullMethod: string,
                                             handler: Handler<World, Request, Reply>)
    requires InOrder(stages)
    requires var d := Passed(stages, w, q, fullMethod); d < |stages| && OrderOf(stages[d]) <= ORDER_RATE_LIMIT
    ensures var (w', r) := Eval(stages, w, q, fullMethod, handler);
      var s := stages[Passed(stages, w, q, fullMethod)];
      && w'.app == w.app
      && (s.RateLimit? ==> r == Failed(ResourceExhausted))
      && (s.IPBlock? ==> w' == w && r == (if s.verdict(q) == Denied then Failed(PermissionDenied)
                                         else Recovered(stages, Panicked)))
      && (s.Tracing? ==> w' == w && r == Panicked)
      && !s.Recovery?
    decreases |stages|
  {
    var rest := stages[1..];
    TailFacts(stages);
    PassedHead(stages, w, q, fullMethod);
    match BeforeStage(stages[0], w, q, fullMethod)
    case Reject(_, _) =>
      if HasRecovery(stages) { RecoveryNotBehind(stages); }
    case Proceed(w', q') =>
      assert OrderOf(stages[0]) <= ORDER_RATE_LIMIT;
      StoppedBeforeAuth(rest, w', q', fullMethod, handler);
      if stages[0].Tracing? || stages[0].Recovery? { assert w' == w; }
      if stages[0].RateLimit? { assert OrderOf(rest[Passed(rest, w', q', fullMethod)]) >= ORDER_RATE_LIMIT; }
      if stages[0].Recovery? && rest[Passed(rest, w', q', fullMethod)].Tracing? { assert false; }
  }

  /** World and request with which the stage that stops a request is entered, or the handler if none does. */
  function Arrival(stages: seq<Stage>, w: World, q: Request, fullMethod: string): (World, Request) {
    if stages == [] then (w, q)
    else match BeforeStage(stages[0], w, q, fullMethod)
         case Reject(_, _) => (w, q)
         case Proceed(w', q') => Arrival(stages[1..], w', q', fullMethod)
  }

  /**
   A toolkit stage that stops a request has the last word: what it answers is what the client gets, and what it
   leaves is what is left, except that a panic behind recovery becomes Internal.
   */
  lemma {:induction false} StoppedEarlyAnswers(stages: seq<Stage>, w: World, q: Request, fullMethod: string,
                                               handler: Handler<World, Request, Reply>)
    requires InOrder(stages)
    requires var d := Passed(stages, w, q, fullMethod); d < |stages| && OrderOf(stages[d]) < ORDER_INTERCEPTOR
    ensures var s, (wd, qd) := stages[Passed(stages, w, q, fullMethod)], Arrival(stages, w, q, fullMethod);
      match BeforeStage(s, wd, qd, fullMethod)
      case Reject(w', r) =>
        Eval(stages, w, q, fullMethod, handler) == (w', if s.Tracing? then r else Recovered(stages, r))
      case Proceed(_, _) => false
    decreases |stages|
  {
    var rest := stages[1..];
    TailFacts(stages);
    PassedHead(stages, w, q, fullMethod);
    match BeforeStage(stages[0], w, q, fullMethod)
    case Reject(_, r) =>
      if r.Panicked? && HasRecovery(stages) { RecoveryNotBehind(stages); }
    case Proceed(w', q') =>
      StoppedEarlyAnswers(rest, w', q', fullMethod, handler);
  }

  /** Up to the rate limits, every stage sees the request as it came and the user's state as it was. */
  lemma {:induction false} EarlyArrival(stages: seq<Stage>, w: World, q: Request, fullMethod: string)
    requires InOrder(stages)
    requires var d := Passed(stages, w, q, fullMethod); d < |stages| && OrderOf(stages[d]) <= ORDER_RATE_LIMIT
    ensures var (wd, qd) := Arrival(stages, w, q, fullMethod); qd == q && wd.app == w.app
    decreases |stages|
  {
    TailFacts(stages);
    PassedHead(stages, w, q, fullMethod);
    EarlyStage(stages[0], w, q, fullMethod);
    match BeforeStage(stages[0], w, q, fullMethod)
    case Reject(_, _) =>
    case Proceed(w', q') => EarlyArrival(stages[1..], w', q', fullMethod);
  }

  /** Up to the rate limits, a stage that lets a request pass changes neither it nor the user's state. */
  lemma EarlyStage(s: Stage, w: World, q: Request, fullMethod: string)
    ensures match BeforeStage(s, w, q, fullMethod)
      case Reject(_, _) => true
      case Proceed(w', q') => OrderOf(s) <= ORDER_RATE_LIMIT ==> q' == q && w'.app == w.app
  {
  }

  // ---------------------------------------------------------------- what stops a request

  /** The bucket that the stage charges the method to holds no token. */
  predicate OutOfTokens(s: Stage, w: World, fullMethod: string) {
    s.RateLimit? && RL.Holding(s.resolver, w.LimitsOf(s.limiter, s.spec, s.side), fullMethod).tokens == 0
  }

  /** A request gets no further than a rate limit whose bucket is empty when the request arrives at the server. */
  lemma {:induction false} EmptyBucketStops(stages: seq<Stage>, w: World, q: Request, fullMethod: string, k: nat)
    requires InOrder(stages) && k < |stages| && OutOfTokens(stages[k], w, fullMethod)
    requires forall i :: 0 <= i < k && stages[i].RateLimit? ==> stages[i].limiter != stages[k].limiter
    ensures Passed(stages, w, q, fullMethod) <= k
    decreases |stages|
  {
    var rest := stages[1..];
    TailFacts(stages);
    PassedHead(stages, w, q, fullMethod);
    if k > 0 {
      StaysEmpty(stages[0], stages[k], w, q, fullMethod);
      match BeforeStage(stages[0], w, q, fullMethod)
      case Reject(_, _) =>
      case Proceed(w', q') =>
        assert forall i :: 0 <= i < k ==> rest[i] == stages[i + 1];
        EmptyBucketStops(rest, w', q', fullMethod, k - 1);
    }
  }

  /** No earlier stage refills a bucket of another limiter. */
  lemma StaysEmpty(s: Stage, limit: Stage, w: World, q: Request, fullMethod: string)
    requires OutOfTokens(limit, w, fullMethod) && OrderOf(s) <= ORDER_RATE_LIMIT
    requires s.RateLimit? ==> s.limiter != limit.limiter
    ensures match BeforeStage(s, w, q, fullMethod)
      case Reject(_, _) => true
      case Proceed(w', _) => OutOfTokens(limit, w', fullMethod)
  {
  }

  /** The function grants the method to nobody. */
  ghost predicate AlwaysRefuses(fn: (App, Ctx, string) -> Grant, fullMethod: string) {
    forall app, ctx :: !fn(app, ctx, fullMethod).Granted?
  }

  /** The stage refuses the request: whoever asks, or, if it authenticates first, whoever asks now. */
  ghost predicate WillRefuse(stages: seq<Stage>, k: nat, w: World, q: Request, fullMethod: string)
    requires k < |stages|
  {
    && stages[k].Auth?
    && (AlwaysRefuses(stages[k].fn, fullMethod) ||
        (!stages[k].fn(w.app, q.ctx, fullMethod).Granted? && forall i :: 0 <= i < k ==> !stages[i].Auth?))
  }

  lemma {:induction false} RefusalStops(stages: seq<Stage>, w: World, q: Request, fullMethod: string, k: nat)
    requires InOrder(stages) && k < |stages| && WillRefuse(stages, k, w, q, fullMethod)
    ensures Passed(stages, w, q, fullMethod) <= k
    decreases |stages|
  {
    var rest := stages[1..];
    TailFacts(stages);
    PassedHead(stages, w, q, fullMethod);
    if k > 0 {
      EarlyStage(stages[0], w, q, fullMethod);
      match BeforeStage(stages[0], w, q, fullMethod)
      case Reject(_, _) =>
      case Proceed(w', q') =>
        assert forall i :: 0 <= i < k ==> rest[i] == stages[i + 1];
        RefusalStops(rest, w', q', fullMethod, k - 1);
    }
  }

  /** Recovery comes before every address check: it is not at the head of a chain that an address check heads. */
  lemma RecoveryNotBehind(stages: seq<Stage>)
    requires stages != [] && InOrder(stages) && HasRecovery(stages)
    ensures OrderOf(stages[0]) <= ORDER_RECOVERY
  {
    TailFacts(stages);
    var i :| 0 <= i < |stages| && stages[i].Recovery?;
  }

  // ---------------------------------------------------------------- panics

  /** The stages behind the recovery slot. */
  function Inner(stages: seq<Stage>): seq<Stage> {
    if stages == [] then []
    else (if OrderOf(stages[0]) > ORDER_RECOVERY then [stages[0]] else []) + Inner(stages[1..])
  }

  lemma {:induction false} InnerOfLate(stages: seq<Stage>)
    requires forall i :: 0 <= i < |stages| ==> OrderOf(stages[i]) > ORDER_RECOVERY
    ensures Inner(stages) == stages
  {
    if stages != [] { InnerOfLate(stages[1..]); }
  }

  lemma NoTracingBehind(stages: seq<Stage>, q: Request, fullMethod: string)
    requires stages != [] && InOrder(stages) && stages[0].Recovery?
    ensures !TracingCrashes(stages, q, fullMethod)
  {
    TailFacts(stages);
  }

  /** Up to recovery, the head of a chain passes the request on as it is, or is tracing that panics. */
  lemma OuterHead(stages: seq<Stage>, w: World, q: Request, fullMethod: string, handler: Handler<World, Request, Reply>)
    requires stages != [] && OrderOf(stages[0]) <= ORDER_RECOVERY
    ensures Inner(stages) == Inner(stages[1..])
    ensures var r := Eval(stages[1..], w, q, fullMethod, handler).1;
      Eval(stages, w, q, fullMethod, handler).1 ==
        if stages[0].Tracing? && stages[0].crashes(q, fullMethod) then Panicked
        else if stages[0].Recovery? && r.Panicked? then Failed(Internal)
        else r
  {
  }

  /**
   What a chain answers: a panic in tracing, which sits outside recovery, comes out as a panic; a panic
   anywhere behind comes out as Internal exactly if recovery is installed; everything else as it is.
   */
  lemma {:induction false} PanicLaw(stages: seq<Stage>, w: World, q: Request, fullMethod: string,
                                    handler: Handler<World, Request, Reply>)
    requires InOrder(stages)
    ensures Eval(stages, w, q, fullMethod, handler).1 ==
      if TracingCrashes(stages, q, fullMethod) then Panicked
      else Recovered(stages, Eval(Inner(stages), w, q, fullMethod, handler).1)
    decreases |stages|
  {
    if stages != [] {
      var rest := stages[1..];
      TailFacts(stages);
      TailTracing(stages, q, fullMethod);
      if OrderOf(stages[0]) > ORDER_RECOVERY {
        InnerOfLate(stages);
      } else {
        OuterHead(stages, w, q, fullMethod, handler);
        PanicLaw(rest, w, q, fullMethod, handler);
        if stages[0].Recovery? { NoTracingBehind(stages, q, fullMethod); }
      }
    }
  }

  /** A panic escapes exactly when tracing panics, or something behind does and recovery is not installed. */
  lemma PanicEscapesIff(stages: seq<Stage>, w: World, q: Request, fullMethod: string,
                        handler: Handler<World, Request, Reply>)
    requires InOrder(stages)
    ensures Run(stages, w, q, fullMethod, handler).1.Panicked? <==>
      || TracingCrashes(stages, q, fullMethod)
      || (!HasRecovery(stages) && Eval(Inner(stages), w, q, fullMethod, handler).1.Panicked?)
  {
    PanicLaw(stages, w, q, fullMethod, handler);
    RunEvaluates(stages, w, q, fullMethod, handler);
  }
}
