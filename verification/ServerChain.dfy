/** The chain of a server, written out: which stages stand in it, in which order, for every list of options. */
module ServerChain {
  import opened Common
  import opened Middleware
  import opened Pipeline
  import opened Options
  import opened OptionOrder
  import RL = RateLimit

  function TracingOf(o: Opt): Option<Stage> {
    if o.WithOpenTelemetry? then Some(Tracing(o.crashes)) else None
  }

  function RecoveryOf(o: Opt): Option<Stage> {
    if o.WithRecovery? then Some(Recovery) else None
  }

  function BlockerOf(o: Opt): Option<Stage> {
    if o.WithIPBlocker? then Some(IPBlock(o.verdict)) else None
  }

  /** The rate limits, each with the resolver set last before it. */
  function LimitsOf(opts: seq<Opt>, resolver: Option<RL.Rules>, side: Side): seq<Stage> {
    if opts == [] then []
    else
      var rest := LimitsOf(opts[1..], if opts[0].WithResolver? then opts[0].r else resolver, side);
      if opts[0].WithRateLimitGlobal?
      then [RateLimit(opts[0].limiter, RL.PerSecond(opts[0].rps, opts[0].burst), resolver, side)] + rest
      else rest
  }

  /** The context that authentication grants goes on to unary calls only. */
  function UnaryAuth(o: Opt): Option<Stage> {
    if o.WithAuth? then Some(Auth(o.fn, true)) else None
  }

  function StreamAuth(o: Opt): Option<Stage> {
    if o.WithAuth? then Some(Auth(o.fn, false)) else None
  }

  /** A recovery brings request identifiers along, which streams only keep a place for. */
  function UnaryRequestID(o: Opt): Option<Stage> {
    if o.WithRecovery? then Some(RequestID(Some(o.id))) else None
  }

  function StreamRequestID(o: Opt): Option<Stage> {
    if o.WithRecovery? then Some(RequestID(None)) else None
  }

  function UnaryUserStage(o: Opt): Option<Stage> {
    if o.WithUnaryInterceptor? && o.i.Some? then Some(o.i.value) else None
  }

  function StreamUserStage(o: Opt): Option<Stage> {
    if o.WithStreamInterceptor? && o.i.Some? then Some(o.i.value) else None
  }

  /** Authentication, request identifiers and user interceptors of one side. */
  function Inside(opts: seq<Opt>, side: Side): seq<Stage> {
    if side.Unary? then Picked(opts, UnaryAuth) + (Picked(opts, UnaryRequestID) + Picked(opts, UnaryUserStage))
    else Picked(opts, StreamAuth) + (Picked(opts, StreamRequestID) + Picked(opts, StreamUserStage))
  }

  /** The documented order: tracing, recovery, address checks, rate limits, authentication, identifiers, users. */
  function Documented(opts: seq<Opt>, side: Side): seq<Stage> {
    Picked(opts, TracingOf) + (Picked(opts, RecoveryOf) + (Picked(opts, BlockerOf) +
      (LimitsOf(opts, None, side) + Inside(opts, side))))
  }

  // ---------------------------------------------------------------- one priority at a time

  /** What is documented for one priority. */
  function Part(opts: seq<Opt>, resolver: Option<RL.Rules>, order: int, side: Side): seq<Stage> {
    if order == ORDER_TRACING then Picked(opts, TracingOf)
    else if order == ORDER_RECOVERY then Picked(opts, RecoveryOf)
    else if order == ORDER_IP_BLOCK then Picked(opts, BlockerOf)
    else if order == ORDER_RATE_LIMIT then LimitsOf(opts, resolver, side)
    else if order == ORDER_AUTH then Picked(opts, if side.Unary? then UnaryAuth else StreamAuth)
    else if order == ORDER_REQUEST_ID then Picked(opts, if side.Unary? then UnaryRequestID else StreamRequestID)
    else if order == ORDER_INTERCEPTOR then Picked(opts, if side.Unary? then UnaryUserStage else StreamUserStage)
    else []
  }

  lemma NothingAt(order: int, side: Side)
    ensures At([], order, side) == []
  {
  }

  /** One option registers what is documented for it. */
  lemma OptionAt(o: Opt, resolver: Option<RL.Rules>, order: int, side: Side)
    ensures At(Entries(o, resolver), order, side) == Part([o], resolver, order, side)
  {
    var es := Entries(o, resolver);
    assert [o][1..] == [];
    if |es| == 2 {
      assert es == [es[0]] + [es[1]];
      AtAppend([es[0]], [es[1]], order, side);
      AtOfOne(es[0], order, side);
      AtOfOne(es[1], order, side);
    } else if |es| == 1 {
      assert es == [es[0]];
      AtOfOne(es[0], order, side);
    } else {
      assert es == [];
    }
    PartOfOne(o, resolver, order, side);
  }

  lemma PickedOne(o: Opt, f: Opt -> Option<Stage>)
    ensures Picked([o], f) == if f(o).Some? then [f(o).value] else []
  {
    PickedCons(o, [], f);
    assert [o] + [] == [o];
  }

  lemma PartOfOne(o: Opt, resolver: Option<RL.Rules>, order: int, side: Side)
    ensures Part([o], resolver, order, side) ==
      if order == ORDER_TRACING && o.WithOpenTelemetry? then [Tracing(o.crashes)]
      else if order == ORDER_RECOVERY && o.WithRecovery? then [Recovery]
      else if order == ORDER_IP_BLOCK && o.WithIPBlocker? then [IPBlock(o.verdict)]
      else if order == ORDER_RATE_LIMIT && o.WithRateLimitGlobal?
        then [RateLimit(o.limiter, RL.PerSecond(o.rps, o.burst), resolver, side)]
      else if order == ORDER_AUTH && o.WithAuth? then [Auth(o.fn, side.Unary?)]
      else if order == ORDER_REQUEST_ID && o.WithRecovery? then [RequestID(if side.Unary? then Some(o.id) else None)]
      else if order == ORDER_INTERCEPTOR && side.Unary? && o.WithUnaryInterceptor? && o.i.Some? then [o.i.value]
      else if order == ORDER_INTERCEPTOR && side.Stream? && o.WithStreamInterceptor? && o.i.Some? then [o.i.value]
      else []
  {
    PickedOne(o, TracingOf);
    PickedOne(o, RecoveryOf);
    PickedOne(o, BlockerOf);
    LimitsOfCons(o, [], resolver, side);
    assert [o] + [] == [o];
    PickedOne(o, if side.Unary? then UnaryAuth else StreamAuth);
    PickedOne(o, if side.Unary? then UnaryRequestID else StreamRequestID);
    PickedOne(o, if side.Unary? then UnaryUserStage else StreamUserStage);
  }

  lemma LimitsOfCons(o: Opt, rest: seq<Opt>, resolver: Option<RL.Rules>, side: Side)
    ensures LimitsOf([o] + rest, resolver, side) ==
      (if o.WithRateLimitGlobal? then [RateLimit(o.limiter, RL.PerSecond(o.rps, o.burst), resolver, side)] else [])
      + LimitsOf(rest, ResolverAfter(o, resolver), side)
  {
    assert ([o] + rest)[1..] == rest;
  }

  lemma PartOfCons(o: Opt, rest: seq<Opt>, resolver: Option<RL.Rules>, order: int, side: Side)
    ensures Part([o] + rest, resolver, order, side) ==
      Part([o], resolver, order, side) + Part(rest, ResolverAfter(o, resolver), order, side)
  {
    var all := [o] + rest;
    assert all[1..] == rest && [o][1..] == [];
    if order == ORDER_TRACING { PickedAppend([o], rest, TracingOf); }
    else if order == ORDER_RECOVERY { PickedAppend([o], rest, RecoveryOf); }
    else if order == ORDER_IP_BLOCK { PickedAppend([o], rest, BlockerOf); }
    else if order == ORDER_RATE_LIMIT {
      LimitsOfCons(o, rest, resolver, side);
      LimitsOfCons(o, [], resolver, side);
      assert [o] + [] == [o];
    }
    else if order == ORDER_AUTH { PickedAppend([o], rest, if side.Unary? then UnaryAuth else StreamAuth); }
    else if order == ORDER_REQUEST_ID { PickedAppend([o], rest, if side.Unary? then UnaryRequestID else StreamRequestID); }
    else if order == ORDER_INTERCEPTOR { PickedAppend([o], rest, if side.Unary? then UnaryUserStage else StreamUserStage); }
  }

  lemma {:induction false} RegisteredAt(opts: seq<Opt>, resolver: Option<RL.Rules>, order: int, side: Side)
    ensures At(AllEntries(opts, resolver), order, side) == Part(opts, resolver, order, side)
  {
    if opts != [] {
      var o, rest := opts[0], opts[1..];
      assert opts == [o] + rest;
      RegisteredAt(rest, ResolverAfter(o, resolver), order, side);
      AtAppend(Entries(o, resolver), AllEntries(rest, ResolverAfter(o, resolver)), order, side);
      OptionAt(o, resolver, order, side);
      PartOfCons(o, rest, resolver, order, side);
    }
  }

  /** All stages of the list stand at one priority. */
  ghost predicate AllAt(stages: seq<Stage>, order: int) {
    forall s :: s in stages ==> OrderOf(s) == order
  }

  lemma {:induction false} LimitsAtTheirs(opts: seq<Opt>, resolver: Option<RL.Rules>, side: Side)
    ensures AllAt(LimitsOf(opts, resolver, side), ORDER_RATE_LIMIT)
  {
    if opts != [] { LimitsAtTheirs(opts[1..], if opts[0].WithResolver? then opts[0].r else resolver, side); }
  }

  lemma PickedAt(opts: seq<Opt>, f: Opt -> Option<Stage>, order: int)
    requires forall o: Opt :: f(o).Some? ==> OrderOf(f(o).value) == order
    ensures AllAt(Picked(opts, f), order)
  {
    forall s | s in Picked(opts, f) ensures OrderOf(s) == order { PickedFrom(opts, f, s); }
  }

  lemma PartAt(opts: seq<Opt>, resolver: Option<RL.Rules>, order: int, side: Side)
    ensures AllAt(Part(opts, resolver, order, side), order)
  {
    if order == ORDER_TRACING { PickedAt(opts, TracingOf, order); }
    else if order == ORDER_RECOVERY { PickedAt(opts, RecoveryOf, order); }
    else if order == ORDER_IP_BLOCK { PickedAt(opts, BlockerOf, order); }
    else if order == ORDER_RATE_LIMIT { LimitsAtTheirs(opts, resolver, side); }
    else if order == ORDER_AUTH { PickedAt(opts, if side.Unary? then UnaryAuth else StreamAuth, order); }
    else if order == ORDER_REQUEST_ID { PickedAt(opts, if side.Unary? then UnaryRequestID else StreamRequestID, order); }
    else if order == ORDER_INTERCEPTOR { PickedAt(opts, if side.Unary? then UnaryUserStage else StreamUserStage, order); }
  }

  // ---------------------------------------------------------------- the whole chain

  /** The priorities, outermost first. */
  const PRIORITIES := [ORDER_TRACING, ORDER_RECOVERY, ORDER_IP_BLOCK, ORDER_RATE_LIMIT, ORDER_AUTH, ORDER_REQUEST_ID, ORDER_INTERCEPTOR]

  /** The parts from priority number `i` on. */
  function Parts(opts: seq<Opt>, side: Side, i: nat): seq<Stage>
    requires i <= |PRIORITIES|
    decreases |PRIORITIES| - i
  {
    if i == |PRIORITIES| then [] else Part(opts, None, PRIORITIES[i], side) + Parts(opts, side, i + 1)
  }

  lemma PartsAreDocumented(opts: seq<Opt>, side: Side)
    ensures Parts(opts, side, 0) == Documented(opts, side)
  {
    assert Parts(opts, side, 7) == [];
    var auths, ids := Part(opts, None, ORDER_AUTH, side), Part(opts, None, ORDER_REQUEST_ID, side);
    var users := Part(opts, None, ORDER_INTERCEPTOR, side);
    assert Parts(opts, side, 6) == users + [] == users;
    assert Parts(opts, side, 5) == ids + users;
    assert Parts(opts, side, 4) == auths + (ids + users) == Inside(opts, side);
    assert Parts(opts, side, 3) == LimitsOf(opts, None, side) + Inside(opts, side);
    assert Parts(opts, side, 2) == Picked(opts, BlockerOf) + Parts(opts, side, 3);
    assert Parts(opts, side, 1) == Picked(opts, RecoveryOf) + Parts(opts, side, 2);
  }

  lemma {:induction false} PartsInOrder(opts: seq<Opt>, side: Side, i: nat)
    requires i <= |PRIORITIES|
    ensures InOrder(Parts(opts, side, i))
    ensures forall s :: s in Parts(opts, side, i) ==> i < |PRIORITIES| && OrderOf(s) >= PRIORITIES[i]
    decreases |PRIORITIES| - i
  {
    if i < |PRIORITIES| {
      PartsInOrder(opts, side, i + 1);
      PartAt(opts, None, PRIORITIES[i], side);
      var here, behind := Part(opts, None, PRIORITIES[i], side), Parts(opts, side, i + 1);
      forall x, y | 0 <= x < y < |here + behind| ensures OrderOf((here + behind)[x]) <= OrderOf((here + behind)[y]) {
        if x < |here| { assert here[x] in here; }
        if y < |here| { assert here[y] in here; } else { assert behind[y - |here|] in behind; }
      }
    }
  }

  lemma {:induction false} NonePicked(stages: seq<Stage>, order: int)
    requires forall s :: s in stages ==> OrderOf(s) != order
    ensures Picked(stages, StageAt(order)) == []
  {
    if stages != [] {
      assert stages[0] in stages;
      NonePicked(stages[1..], order);
    }
  }

  /** At one priority the documented chain has its part, and nothing else. */
  lemma {:induction false} PartsAt(opts: seq<Opt>, side: Side, i: nat, order: int)
    requires i <= |PRIORITIES|
    ensures Picked(Parts(opts, side, i), StageAt(order)) ==
      if order in PRIORITIES[i..] then Part(opts, None, order, side) else []
    decreases |PRIORITIES| - i
  {
    if i < |PRIORITIES| {
      var p := PRIORITIES[i];
      var here, behind := Part(opts, None, p, side), Parts(opts, side, i + 1);
      PartsAt(opts, side, i + 1, order);
      PartAt(opts, None, p, side);
      PickedAppend(here, behind, StageAt(order));
      LaterPriorities(i, order);
      if p == order { AllPicked(here, order); } else { NonePicked(here, order); }
    }
  }

  lemma LaterPriorities(i: nat, order: int)
    requires i < |PRIORITIES|
    ensures order in PRIORITIES[i..] <==> order == PRIORITIES[i] || order in PRIORITIES[i + 1..]
    ensures PRIORITIES[i] !in PRIORITIES[i + 1..]
  {
    assert PRIORITIES[i..] == [PRIORITIES[i]] + PRIORITIES[i + 1..];
  }

  function Tag(stages: seq<Stage>): seq<Registered> {
    if stages == [] then [] else [Entry(Some(stages[0]), None, OrderOf(stages[0]))] + Tag(stages[1..])
  }

  lemma {:induction false} TagAt(stages: seq<Stage>, order: int)
    ensures OfOrder(Tag(stages), order) == Tag(Picked(stages, StageAt(order)))
  {
    if stages != [] {
      var s, rest := stages[0], stages[1..];
      assert stages == [s] + rest;
      TagAt(rest, order);
      PickedCons(s, rest, StageAt(order));
      OfOrderCons(Entry(Some(s), None, OrderOf(s)), Tag(rest), order);
    }
  }

  lemma {:induction false} TagHolds(stages: seq<Stage>)
    ensures Unaries(Tag(stages)) == stages
    ensures |Tag(stages)| == |stages| && forall i :: 0 <= i < |stages| ==> Tag(stages)[i].order == OrderOf(stages[i])
  {
    if stages != [] {
      TagHolds(stages[1..]);
      PickedCons(Entry(Some(stages[0]), None, OrderOf(stages[0])), Tag(stages[1..]), UnaryOf);
    }
  }

  /** A chain in order is determined by what it has at each priority. */
  lemma InOrderDetermined(a: seq<Stage>, b: seq<Stage>)
    requires InOrder(a) && InOrder(b)
    requires forall order: int :: Picked(a, StageAt(order)) == Picked(b, StageAt(order))
    ensures a == b
  {
    TagHolds(a);
    TagHolds(b);
    forall order: int ensures OfOrder(Tag(a), order) == OfOrder(Tag(b), order) {
      TagAt(a, order);
      TagAt(b, order);
    }
    SortedUnique(Tag(a), Tag(b));
  }

  /** For every list of options, the chain of each side is the documented one. */
  lemma ServerChainIsDocumented(opts: seq<Opt>, side: Side)
    ensures ServerStages(opts, side) == Documented(opts, side)
  {
    PartsAreDocumented(opts, side);
    PartsInOrder(opts, side, 0);
    ServerChainsInOrder(opts, side);
    forall order: int ensures Picked(ServerStages(opts, side), StageAt(order)) == Picked(Documented(opts, side), StageAt(order)) {
      ChainAt(opts, order, side);
      RegisteredAt(opts, None, order, side);
      PartsAt(opts, side, 0, order);
    }
    InOrderDetermined(ServerStages(opts, side), Documented(opts, side));
  }

  // ---------------------------------------------------------------- the users' own interceptors

  function UserOf(s: Stage): Option<Stage> {
    if s.User? then Some(s) else None
  }

  lemma {:induction false} UsersStandAtTheirs(stages: seq<Stage>)
    ensures Picked(stages, UserOf) == Picked(stages, StageAt(ORDER_INTERCEPTOR))
  {
    if stages != [] { UsersStandAtTheirs(stages[1..]); }
  }

  /** The user stages of a chain are the interceptors given for its own side, in the order of their options, and no others. */
  lemma UsersInOrder(opts: seq<Opt>, side: Side)
    ensures Picked(ServerStages(opts, side), UserOf) == Picked(opts, if side.Unary? then UnaryUserStage else StreamUserStage)
  {
    UsersStandAtTheirs(ServerStages(opts, side));
    ChainAt(opts, ORDER_INTERCEPTOR, side);
    RegisteredAt(opts, None, ORDER_INTERCEPTOR, side);
  }
}
