/** What a server does with a request, told from its options alone, without chain, priorities or stages. */
module ServerMeaning {
  import opened Common
  import opened Chain
  import opened Pipeline
  import opened Options
  import opened ServerChain
  import RL = RateLimit

  /** The verdict of the first address check that does not allow the request. */
  function FirstVerdict(opts: seq<Opt>, q: Request): Verdict {
    if opts == [] then Allowed
    else if opts[0].WithIPBlocker? && opts[0].verdict(q) != Allowed then opts[0].verdict(q)
    else FirstVerdict(opts[1..], q)
  }

  /** Each rate limit in turn takes its token, until one has none; each knows the resolver set before it. */
  function Throttle(opts: seq<Opt>, resolver: Option<RL.Rules>, side: Side, w: World, fullMethod: string): (World, bool)
    decreases |opts|
  {
    if opts == [] then (w, true)
    else match opts[0]
         case WithResolver(r) => Throttle(opts[1..], r, side, w, fullMethod)
         case WithRateLimitGlobal(limiter, rps, burst) =>
           var (limits, ok) := RL.Request(resolver, w.LimitsOf(limiter, RL.PerSecond(rps, burst), side), fullMethod);
           var w' := w.WithLimits(limiter, side, limits);
           if ok then Throttle(opts[1..], resolver, side, w', fullMethod) else (w', false)
         case _ => Throttle(opts[1..], resolver, side, w, fullMethod)
  }

  /** State and context behind authentication, and what the request is refused with, if it is. */
  datatype Admission = Admission(app: App, ctx: Ctx, refusal: Option<Reply>)

  /** Each authentication function in turn, until one refuses; what it grants reaches the next one on unary calls only. */
  function Authenticate(opts: seq<Opt>, side: Side, app: App, ctx: Ctx, fullMethod: string): Admission
    decreases |opts|
  {
    if opts == [] then Admission(app, ctx, None)
    else if opts[0].WithAuth? then
      match opts[0].fn(app, ctx, fullMethod)
      case Granted(app', ctx') => Authenticate(opts[1..], side, app', if side.Unary? then ctx' else ctx, fullMethod)
      case RefusedWithStatus(app', code) => Admission(app', ctx, Some(Failed(code)))
      case Refused(app') => Admission(app', ctx, Some(Failed(Unauthenticated)))
      case AuthCrashed(app') => Admission(app', ctx, Some(Panicked))
    else Authenticate(opts[1..], side, app, ctx, fullMethod)
  }

  /** A unary request without an identifier gets one, if there is a recovery. */
  function Identify(opts: seq<Opt>, ctx: Ctx): Ctx
    decreases |opts|
  {
    if opts == [] || ctx.requestId != "" then ctx
    else Identify(opts[1..], if opts[0].WithRecovery? then Ctx(opts[0].id, ctx.actor) else ctx)
  }

  /** A user interceptor around what it calls on. */
  function Outside(u: UserStage, fullMethod: string, next: Handler<World, Request, Reply>): Handler<World, Request, Reply> {
    (w: World, q: Request) =>
      match u.before(w.app, q, fullMethod)
      case Stop(app, reply) => (w.(app := app), reply)
      case GoOn(app, q') =>
        var (w', r) := next(w.(app := app), q');
        var (app', r') := u.after(w'.app, r);
        (w'.(app := app'), r')
  }

  /** The user interceptors of one side, first option outermost, around the handler. */
  function Users(opts: seq<Opt>, side: Side, fullMethod: string, handler: Handler<World, Request, Reply>)
    : Handler<World, Request, Reply>
  {
    if opts == [] then handler
    else
      var inner := Users(opts[1..], side, fullMethod, handler);
      if side.Unary? && opts[0].WithUnaryInterceptor? && opts[0].i.Some? then Outside(opts[0].i.value, fullMethod, inner)
      else if side.Stream? && opts[0].WithStreamInterceptor? && opts[0].i.Some? then Outside(opts[0].i.value, fullMethod, inner)
      else inner
  }

  predicate Recovers(opts: seq<Opt>) {
    exists i :: 0 <= i < |opts| && opts[i].WithRecovery?
  }

  function Admitted(opts: seq<Opt>, side: Side, w: World, q: Request, fullMethod: string,
                    handler: Handler<World, Request, Reply>): (World, Reply) {
    var a := Authenticate(opts, side, w.app, q.ctx, fullMethod);
    var w' := w.(app := a.app);
    if a.refusal.Some? then (w', a.refusal.value)
    else Users(opts, side, fullMethod, handler)(w', q.(ctx := if side.Unary? then Identify(opts, a.ctx) else q.ctx))
  }

  function Checked(opts: seq<Opt>, side: Side, w: World, q: Request, fullMethod: string,
                   handler: Handler<World, Request, Reply>): (World, Reply) {
    match FirstVerdict(opts, q)
    case Denied => (w, Failed(PermissionDenied))
    case Crashed => (w, Panicked)
    case Allowed =>
      var (w', ok) := Throttle(opts, None, side, w, fullMethod);
      if ok then Admitted(opts, side, w', q, fullMethod, handler) else (w', Failed(ResourceExhausted))
  }

  /** A server's answer to a request, and the world it leaves. */
  function Meaning(opts: seq<Opt>, side: Side, w: World, q: Request, fullMethod: string,
                   handler: Handler<World, Request, Reply>): (World, Reply) {
    if TracingFails(opts, q, fullMethod) then (w, Panicked)
    else
      var (w', r) := Checked(opts, side, w, q, fullMethod, handler);
      (w', if r.Panicked? && Recovers(opts) then Failed(Internal) else r)
  }

  // ---------------------------------------------------------------- one kind of stage at a time

  lemma EvalCons(s: Stage, rest: seq<Stage>, w: World, q: Request, fullMethod: string, handler: Handler<World, Request, Reply>)
    ensures var d := BeforeStage(s, w, q, fullMethod);
      Eval([s] + rest, w, q, fullMethod, handler) ==
        if d.Reject? then (d.w, d.r)
        else var inner := Eval(rest, d.w, d.q, fullMethod, handler); AfterStage(s, inner.0, inner.1)
  {
    assert ([s] + rest)[1..] == rest;
  }

  lemma HeadPicked(opts: seq<Opt>, f: Opt -> Option<Stage>, rest: seq<Stage>)
    requires opts != []
    ensures Picked(opts, f) + rest ==
      if f(opts[0]).Some? then [f(opts[0]).value] + (Picked(opts[1..], f) + rest) else Picked(opts[1..], f) + rest
  {
  }

  lemma {:induction false} ThroughTracing(opts: seq<Opt>, rest: seq<Stage>, w: World, q: Request, fullMethod: string,
                                          handler: Handler<World, Request, Reply>)
    ensures Eval(Picked(opts, TracingOf) + rest, w, q, fullMethod, handler) ==
      if TracingFails(opts, q, fullMethod) then (w, Panicked) else Eval(rest, w, q, fullMethod, handler)
  {
    if opts == [] {
      assert Picked(opts, TracingOf) + rest == rest;
    } else {
      HeadPicked(opts, TracingOf, rest);
      ThroughTracing(opts[1..], rest, w, q, fullMethod, handler);
      if TracingFails(opts[1..], q, fullMethod) {
        var i :| 0 <= i < |opts[1..]| && opts[1..][i].WithOpenTelemetry? && opts[1..][i].crashes(q, fullMethod);
        assert opts[i + 1] == opts[1..][i];
      }
      if opts[0].WithOpenTelemetry? {
        EvalCons(Tracing(opts[0].crashes), Picked(opts[1..], TracingOf) + rest, w, q, fullMethod, handler);
      }
    }
  }

  lemma {:induction false} ThroughRecovery(opts: seq<Opt>, rest: seq<Stage>, w: World, q: Request, fullMethod: string,
                                           handler: Handler<World, Request, Reply>)
    ensures var (w', r) := Eval(rest, w, q, fullMethod, handler);
      Eval(Picked(opts, RecoveryOf) + rest, w, q, fullMethod, handler) ==
        (w', if r.Panicked? && Recovers(opts) then Failed(Internal) else r)
  {
    if opts == [] {
      assert Picked(opts, RecoveryOf) + rest == rest;
    } else {
      HeadPicked(opts, RecoveryOf, rest);
      ThroughRecovery(opts[1..], rest, w, q, fullMethod, handler);
      if Recovers(opts[1..]) {
        var i :| 0 <= i < |opts[1..]| && opts[1..][i].WithRecovery?;
        assert opts[i + 1] == opts[1..][i];
      }
      if opts[0].WithRecovery? {
        EvalCons(Recovery, Picked(opts[1..], RecoveryOf) + rest, w, q, fullMethod, handler);
      }
    }
  }

  lemma {:induction false} ThroughBlockers(opts: seq<Opt>, rest: seq<Stage>, w: World, q: Request, fullMethod: string,
                                           handler: Handler<World, Request, Reply>)
    ensures Eval(Picked(opts, BlockerOf) + rest, w, q, fullMethod, handler) ==
      match FirstVerdict(opts, q)
      case Denied => (w, Failed(PermissionDenied))
      case Crashed => (w, Panicked)
      case Allowed => Eval(rest, w, q, fullMethod, handler)
  {
    if opts == [] {
      assert Picked(opts, BlockerOf) + rest == rest;
    } else {
      HeadPicked(opts, BlockerOf, rest);
      ThroughBlockers(opts[1..], rest, w, q, fullMethod, handler);
      if opts[0].WithIPBlocker? {
        EvalCons(IPBlock(opts[0].verdict), Picked(opts[1..], BlockerOf) + rest, w, q, fullMethod, handler);
      }
    }
  }

  lemma {:induction false} ThroughLimits(opts: seq<Opt>, resolver: Option<RL.Rules>, side: Side, rest: seq<Stage>, w: World,
                                         q: Request, fullMethod: string, handler: Handler<World, Request, Reply>)
    ensures var (w', ok) := Throttle(opts, resolver, side, w, fullMethod);
      && w'.app == w.app
      && Eval(LimitsOf(opts, resolver, side) + rest, w, q, fullMethod, handler) ==
           if ok then Eval(rest, w', q, fullMethod, handler) else (w', Failed(ResourceExhausted))
    decreases |opts|
  {
    if opts == [] {
      assert LimitsOf(opts, resolver, side) + rest == rest;
    } else if opts[0].WithRateLimitGlobal? {
      var s := RateLimit(opts[0].limiter, RL.PerSecond(opts[0].rps, opts[0].burst), resolver, side);
      var behind := LimitsOf(opts[1..], resolver, side);
      assert LimitsOf(opts, resolver, side) + rest == [s] + (behind + rest);
      EvalCons(s, behind + rest, w, q, fullMethod, handler);
      ThroughLimits(opts[1..], resolver, side, rest, BeforeStage(s, w, q, fullMethod).w, q, fullMethod, handler);
    } else {
      ThroughLimits(opts[1..], if opts[0].WithResolver? then opts[0].r else resolver, side, rest, w, q, fullMethod, handler);
    }
  }

  function AuthAt(side: Side): Opt -> Option<Stage> {
    if side.Unary? then UnaryAuth else StreamAuth
  }

  lemma {:induction false} ThroughAuths(opts: seq<Opt>, side: Side, rest: seq<Stage>, w: World, q: Request, fullMethod: string,
                                        handler: Handler<World, Request, Reply>)
    ensures var a := Authenticate(opts, side, w.app, q.ctx, fullMethod);
      && (side.Stream? ==> a.ctx == q.ctx)
      && Eval(Picked(opts, AuthAt(side)) + rest, w, q, fullMethod, handler) ==
           if a.refusal.Some? then (w.(app := a.app), a.refusal.value)
           else Eval(rest, w.(app := a.app), q.(ctx := a.ctx), fullMethod, handler)
    decreases |opts|
  {
    if opts == [] {
      assert Picked(opts, AuthAt(side)) + rest == rest;
    } else {
      HeadPicked(opts, AuthAt(side), rest);
      if opts[0].WithAuth? {
        var s := Auth(opts[0].fn, side.Unary?);
        EvalCons(s, Picked(opts[1..], AuthAt(side)) + rest, w, q, fullMethod, handler);
        match BeforeStage(s, w, q, fullMethod)
        case Reject(_, _) =>
        case Proceed(w', q') => ThroughAuths(opts[1..], side, rest, w', q', fullMethod, handler);
      } else {
        ThroughAuths(opts[1..], side, rest, w, q, fullMethod, handler);
      }
    }
  }

  lemma IdentifiedIsKept(opts: seq<Opt>, ctx: Ctx)
    ensures ctx.requestId != "" ==> Identify(opts, ctx) == ctx
  {
  }

  lemma {:induction false} ThroughUnaryIDs(opts: seq<Opt>, rest: seq<Stage>, w: World, q: Request, fullMethod: string,
                                           handler: Handler<World, Request, Reply>)
    ensures Eval(Picked(opts, UnaryRequestID) + rest, w, q, fullMethod, handler) ==
      Eval(rest, w, q.(ctx := Identify(opts, q.ctx)), fullMethod, handler)
    decreases |opts|
  {
    if opts == [] {
      assert Picked(opts, UnaryRequestID) + rest == rest;
    } else {
      HeadPicked(opts, UnaryRequestID, rest);
      IdentifiedIsKept(opts[1..], q.ctx);
      if opts[0].WithRecovery? {
        var s := RequestID(Some(opts[0].id));
        EvalCons(s, Picked(opts[1..], UnaryRequestID) + rest, w, q, fullMethod, handler);
        ThroughUnaryIDs(opts[1..], rest, w, BeforeStage(s, w, q, fullMethod).q, fullMethod, handler);
      } else {
        ThroughUnaryIDs(opts[1..], rest, w, q, fullMethod, handler);
      }
    }
  }

  lemma {:induction false} ThroughStreamIDs(opts: seq<Opt>, rest: seq<Stage>, w: World, q: Request, fullMethod: string,
                                            handler: Handler<World, Request, Reply>)
    ensures Eval(Picked(opts, StreamRequestID) + rest, w, q, fullMethod, handler) == Eval(rest, w, q, fullMethod, handler)
    decreases |opts|
  {
    if opts == [] {
      assert Picked(opts, StreamRequestID) + rest == rest;
    } else {
      HeadPicked(opts, StreamRequestID, rest);
      ThroughStreamIDs(opts[1..], rest, w, q, fullMethod, handler);
      if opts[0].WithRecovery? {
        EvalCons(RequestID(None), Picked(opts[1..], StreamRequestID) + rest, w, q, fullMethod, handler);
      }
    }
  }

  function UserAt(side: Side): Opt -> Option<Stage> {
    if side.Unary? then UnaryUserStage else StreamUserStage
  }

  lemma {:induction false} ThroughUsers(opts: seq<Opt>, side: Side, w: World, q: Request, fullMethod: string,
                                        handler: Handler<World, Request, Reply>)
    ensures Eval(Picked(opts, UserAt(side)), w, q, fullMethod, handler) == Users(opts, side, fullMethod, handler)(w, q)
    decreases |opts|
  {
    if opts != [] {
      var o, behind := opts[0], Picked(opts[1..], UserAt(side));
      if UserAt(side)(o).Some? {
        var s := UserAt(side)(o).value;
        EvalCons(s, behind, w, q, fullMethod, handler);
        match BeforeStage(s, w, q, fullMethod)
        case Reject(_, _) =>
        case Proceed(w', q') => ThroughUsers(opts[1..], side, w', q', fullMethod, handler);
      } else {
        ThroughUsers(opts[1..], side, w, q, fullMethod, handler);
      }
    }
  }

  // ---------------------------------------------------------------- the whole server

  lemma InsideServes(opts: seq<Opt>, side: Side, w: World, q: Request, fullMethod: string, handler: Handler<World, Request, Reply>)
    ensures Eval(Inside(opts, side), w, q, fullMethod, handler) == Admitted(opts, side, w, q, fullMethod, handler)
  {
    var users := Picked(opts, UserAt(side));
    var a := Authenticate(opts, side, w.app, q.ctx, fullMethod);
    var w' := w.(app := a.app);
    if side.Unary? {
      ThroughAuths(opts, side, Picked(opts, UnaryRequestID) + users, w, q, fullMethod, handler);
      ThroughUnaryIDs(opts, users, w', q.(ctx := a.ctx), fullMethod, handler);
      ThroughUsers(opts, side, w', q.(ctx := Identify(opts, a.ctx)), fullMethod, handler);
    } else {
      ThroughAuths(opts, side, Picked(opts, StreamRequestID) + users, w, q, fullMethod, handler);
      ThroughStreamIDs(opts, users, w', q, fullMethod, handler);
      ThroughUsers(opts, side, w', q, fullMethod, handler);
    }
  }

  /** For every list of options, request and handler, the chain that the server builds does what the options mean. */
  lemma ServerDoesWhatItsOptionsMean(opts: seq<Opt>, side: Side, w: World, q: Request, fullMethod: string,
                                     handler: Handler<World, Request, Reply>)
    ensures var out := Handle(opts, side, w, q, fullMethod, handler);
      (out.0.w, out.1) == Meaning(opts, side, w, q, fullMethod, handler)
  {
    var behindLimits := Inside(opts, side);
    var behindBlockers := LimitsOf(opts, None, side) + behindLimits;
    var behindRecovery := Picked(opts, BlockerOf) + behindBlockers;
    ServerChainIsDocumented(opts, side);
    RunEvaluates(ServerStages(opts, side), w, q, fullMethod, handler);
    ThroughTracing(opts, Picked(opts, RecoveryOf) + behindRecovery, w, q, fullMethod, handler);
    ThroughRecovery(opts, behindRecovery, w, q, fullMethod, handler);
    ThroughBlockers(opts, behindBlockers, w, q, fullMethod, handler);
    ThroughLimits(opts, None, side, behindLimits, w, q, fullMethod, handler);
    InsideServes(opts, side, Throttle(opts, None, side, w, fullMethod).0, q, fullMethod, handler);
  }
}
