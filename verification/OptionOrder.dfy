/** Exactly when two orders of the same options build the same server. */
module OptionOrder {
  import opened Common
  import opened Middleware
  import opened Pipeline
  import opened Options
  import RL = RateLimit

  /** The class of an option; options of one class share a priority, and a side if they have only one. */
  datatype Class = Tracer | Recoverer | Blocker | Limiter | Authenticator | UnaryUser | StreamUser | Setter | Other

  function ClassOf(o: Opt): Class {
    match o
    case WithUnaryInterceptor(_) => UnaryUser
    case WithStreamInterceptor(_) => StreamUser
    case WithRecovery(_) => Recoverer
    case WithResolver(_) => Setter
    case WithIPBlocker(_) => Blocker
    case WithAuth(_) => Authenticator
    case WithRateLimitGlobal(_, _, _) => Limiter
    case WithOpenTelemetry(_) => Tracer
    case Unrelated => Other
  }

  function OfClass(opts: seq<Opt>, c: Class): seq<Opt> {
    if opts == [] then []
    else if ClassOf(opts[0]) == c then [opts[0]] + OfClass(opts[1..], c)
    else OfClass(opts[1..], c)
  }

  /** The class whose options register on a side at a priority. */
  function ClassAt(order: int, side: Side): Class {
    if order == ORDER_TRACING then Tracer
    else if order == ORDER_RECOVERY || order == ORDER_REQUEST_ID then Recoverer
    else if order == ORDER_IP_BLOCK then Blocker
    else if order == ORDER_RATE_LIMIT then Limiter
    else if order == ORDER_AUTH then Authenticator
    else if order == ORDER_INTERCEPTOR then (if side.Unary? then UnaryUser else StreamUser)
    else Other
  }

  /** The resolver each `WithRateLimitGlobal` reads when it is applied. */
  function Captured(opts: seq<Opt>, resolver: Option<RL.Rules>): seq<Option<RL.Rules>> {
    if opts == [] then []
    else
      var rest := Captured(opts[1..], ResolverAfter(opts[0], resolver));
      if opts[0].WithRateLimitGlobal? then [resolver] + rest else rest
  }

  /** What the entries register on a side at a priority. */
  function At(es: seq<Registered>, order: int, side: Side): seq<Stage> {
    Picked(OfOrder(es, order), OnSide(side))
  }

  lemma AtAppend(a: seq<Registered>, b: seq<Registered>, order: int, side: Side)
    ensures At(a + b, order, side) == At(a, order, side) + At(b, order, side)
  {
    OfOrderAppend(a, b, order);
    PickedAppend(OfOrder(a, order), OfOrder(b, order), OnSide(side));
  }

  lemma AtOfOne(e: Registered, order: int, side: Side)
    ensures At([e], order, side) == if e.order == order && OnSide(side)(e).Some? then [OnSide(side)(e).value] else []
  {
    OfOrderCons(e, [], order);
    PickedCons(e, [], OnSide(side));
    assert [e] + [] == [e];
  }

  lemma EntriesOffClass(o: Opt, resolver: Option<RL.Rules>, order: int, side: Side)
    requires ClassOf(o) != ClassAt(order, side)
    ensures At(Entries(o, resolver), order, side) == []
  {
    var es := Entries(o, resolver);
    if |es| == 2 {
      assert es == [es[0]] + [es[1]];
      AtAppend([es[0]], [es[1]], order, side);
      AtOfOne(es[0], order, side);
      AtOfOne(es[1], order, side);
    } else if |es| == 1 {
      assert es == [es[0]];
      AtOfOne(es[0], order, side);
    }
  }

  /** What options of one class register on a side at a priority, if none of them is a rate limit. */
  function Placed(opts: seq<Opt>, order: int, side: Side): seq<Stage> {
    if opts == [] then [] else At(Entries(opts[0], None), order, side) + Placed(opts[1..], order, side)
  }

  /** The rate limits that the options register on a side, each with its own resolver. */
  function PlacedLimits(opts: seq<Opt>, resolvers: seq<Option<RL.Rules>>, side: Side): seq<Stage>
    requires |opts| == |resolvers|
  {
    if opts == [] then []
    else At(Entries(opts[0], resolvers[0]), ORDER_RATE_LIMIT, side) + PlacedLimits(opts[1..], resolvers[1..], side)
  }

  lemma AtHead(opts: seq<Opt>, resolver: Option<RL.Rules>, order: int, side: Side)
    requires opts != []
    ensures var here, behind :=
        At(Entries(opts[0], resolver), order, side), At(AllEntries(opts[1..], ResolverAfter(opts[0], resolver)), order, side);
      At(AllEntries(opts, resolver), order, side) == if ClassOf(opts[0]) == ClassAt(order, side) then here + behind else behind
  {
    AtAppend(Entries(opts[0], resolver), AllEntries(opts[1..], ResolverAfter(opts[0], resolver)), order, side);
    if ClassOf(opts[0]) != ClassAt(order, side) { EntriesOffClass(opts[0], resolver, order, side); }
  }

  lemma {:induction false} EntriesAt(opts: seq<Opt>, resolver: Option<RL.Rules>, order: int, side: Side)
    requires order != ORDER_RATE_LIMIT
    ensures At(AllEntries(opts, resolver), order, side) == Placed(OfClass(opts, ClassAt(order, side)), order, side)
  {
    if opts != [] {
      var o := opts[0];
      EntriesAt(opts[1..], ResolverAfter(o, resolver), order, side);
      AtHead(opts, resolver, order, side);
      if ClassOf(o) == ClassAt(order, side) { assert Entries(o, resolver) == Entries(o, None); }
    }
  }

  /** At a priority that is nobody's, nothing is registered. */
  lemma {:induction false} NothingElsewhere(opts: seq<Opt>, resolver: Option<RL.Rules>, order: int, side: Side)
    requires ClassAt(order, side).Other?
    ensures At(AllEntries(opts, resolver), order, side) == []
  {
    if opts != [] {
      NothingElsewhere(opts[1..], ResolverAfter(opts[0], resolver), order, side);
      AtHead(opts, resolver, order, side);
      if ClassOf(opts[0]).Other? { assert Entries(opts[0], resolver) == []; }
    }
  }

  lemma {:induction false} OneCaptureForEachLimit(opts: seq<Opt>, resolver: Option<RL.Rules>)
    ensures |Captured(opts, resolver)| == |OfClass(opts, Limiter)|
  {
    if opts != [] { OneCaptureForEachLimit(opts[1..], ResolverAfter(opts[0], resolver)); }
  }

  lemma {:induction false} LimitsAt(opts: seq<Opt>, resolver: Option<RL.Rules>, side: Side)
    ensures |Captured(opts, resolver)| == |OfClass(opts, Limiter)|
    ensures At(AllEntries(opts, resolver), ORDER_RATE_LIMIT, side) ==
      PlacedLimits(OfClass(opts, Limiter), Captured(opts, resolver), side)
  {
    OneCaptureForEachLimit(opts, resolver);
    if opts != [] {
      LimitsAt(opts[1..], ResolverAfter(opts[0], resolver), side);
      AtHead(opts, resolver, ORDER_RATE_LIMIT, side);
    }
  }

  /** The same registering options, with the relative order kept inside each class; other options may differ. */
  ghost predicate SameWithinClasses(a: seq<Opt>, b: seq<Opt>) {
    forall c: Class :: !c.Setter? && !c.Other? ==> OfClass(a, c) == OfClass(b, c)
  }

  ghost predicate SameServer(a: seq<Opt>, b: seq<Opt>) {
    forall side: Side :: ServerStages(a, side) == ServerStages(b, side)
  }

  lemma SameCapturesSameServer(a: seq<Opt>, b: seq<Opt>)
    requires SameWithinClasses(a, b) && Captured(a, None) == Captured(b, None)
    ensures SameServer(a, b)
  {
    var ea, eb := AllEntries(a, None), AllEntries(b, None);
    forall side: Side ensures ServerStages(a, side) == ServerStages(b, side) {
      forall order: int ensures Picked(OfOrder(ea, order), OnSide(side)) == Picked(OfOrder(eb, order), OnSide(side)) {
        if ClassAt(order, side).Other? {
          NothingElsewhere(a, None, order, side);
          NothingElsewhere(b, None, order, side);
        } else {
          assert OfClass(a, ClassAt(order, side)) == OfClass(b, ClassAt(order, side));
        }
        if order == ORDER_RATE_LIMIT {
          LimitsAt(a, None, side);
          LimitsAt(b, None, side);
        } else {
          EntriesAt(a, None, order, side);
          EntriesAt(b, None, order, side);
        }
      }
      SameSide(ea, eb, OnSide(side));
    }
  }

  // ---------------------------------------------------------------- the converse

  function ResolverOf(s: Stage): Option<Option<RL.Rules>> {
    if s.RateLimit? then Some(s.resolver) else None
  }

  lemma {:induction false} CapturesRegistered(opts: seq<Opt>, resolver: Option<RL.Rules>, side: Side)
    ensures Picked(Picked(AllEntries(opts, resolver), OnSide(side)), ResolverOf) == Captured(opts, resolver)
  {
    if opts != [] {
      var next := ResolverAfter(opts[0], resolver);
      CapturesRegistered(opts[1..], next, side);
      CapturesOfEntries(opts[0], resolver, side, AllEntries(opts[1..], next));
    }
  }

  lemma CapturesOfEntries(o: Opt, resolver: Option<RL.Rules>, side: Side, rest: seq<Registered>)
    ensures var after := Picked(Picked(rest, OnSide(side)), ResolverOf);
      Picked(Picked(Entries(o, resolver) + rest, OnSide(side)), ResolverOf)
        == if o.WithRateLimitGlobal? then [resolver] + after else after
  {
    var es := Entries(o, resolver);
    if |es| == 2 {
      assert es + rest == [es[0]] + ([es[1]] + rest);
      SeenInEntry(es[0], [es[1]] + rest, side, ResolverOf);
      SeenInEntry(es[1], rest, side, ResolverOf);
    } else if |es| == 1 {
      assert es + rest == [es[0]] + rest;
      SeenInEntry(es[0], rest, side, ResolverOf);
    } else {
      assert es + rest == rest;
    }
  }

  /** The rate limits of a chain show, in order, which resolver each of them captured. */
  lemma ChainShowsCaptures(opts: seq<Opt>, side: Side)
    ensures Picked(ServerStages(opts, side), ResolverOf) == Captured(opts, None)
  {
    RegistrationOrder(opts, side, ResolverOf, ORDER_RATE_LIMIT);
    CapturesRegistered(opts, None, side);
  }

  /** The stages of one priority. */
  function StageAt(order: int): Stage -> Option<Stage> {
    (s: Stage) => if OrderOf(s) == order then Some(s) else None
  }

  lemma {:induction false} AllPicked(stages: seq<Stage>, order: int)
    requires forall s :: s in stages ==> OrderOf(s) == order
    ensures Picked(stages, StageAt(order)) == stages
  {
    if stages != [] {
      assert stages[0] in stages && stages == [stages[0]] + stages[1..];
      AllPicked(stages[1..], order);
    }
  }

  /** What a server's chain holds at a priority is what the options register there. */
  lemma ChainAt(opts: seq<Opt>, order: int, side: Side)
    ensures Picked(ServerStages(opts, side), StageAt(order)) == At(AllEntries(opts, None), order, side)
  {
    var es := AllEntries(opts, None);
    RegistrationOrder(opts, side, StageAt(order), order);
    AllWellPlaced(opts, None);
    SeenAtPriority(es, side, StageAt(order), order);
    forall s | s in At(es, order, side) ensures OrderOf(s) == order {
      PickedFrom(OfOrder(es, order), OnSide(side), s);
      OfOrderHasOrder(es, order);
      var e :| e in OfOrder(es, order) && OnSide(side)(e) == Some(s);
      OfOrderMember(es, e);
    }
    AllPicked(At(es, order, side), order);
  }

  ghost predicate SameRegistrations(a: seq<Opt>, b: seq<Opt>) {
    forall order: int, side: Side :: At(AllEntries(a, None), order, side) == At(AllEntries(b, None), order, side)
  }

  /** Any two lists of options build the same server exactly when they register the same stages, in the same order, at
      each priority on each side. */
  lemma SameServerIff(a: seq<Opt>, b: seq<Opt>)
    ensures SameServer(a, b) <==> SameRegistrations(a, b)
  {
    var ea, eb := AllEntries(a, None), AllEntries(b, None);
    if SameServer(a, b) {
      forall order: int, side: Side ensures At(ea, order, side) == At(eb, order, side) {
        assert ServerStages(a, side) == ServerStages(b, side);
        ChainAt(a, order, side);
        ChainAt(b, order, side);
      }
    }
    if SameRegistrations(a, b) {
      forall side: Side ensures ServerStages(a, side) == ServerStages(b, side) {
        forall order: int ensures Picked(OfOrder(ea, order), OnSide(side)) == Picked(OfOrder(eb, order), OnSide(side)) {
          assert At(ea, order, side) == At(eb, order, side);
        }
        SameSide(ea, eb, OnSide(side));
      }
    }
  }

  /**
   Two orders of the same options build the same server exactly when every rate limit reads the same resolver
   in both: the order is not irrelevant, because the resolver is read when the rate limit is applied.
   */
  lemma OptionOrderIrrelevantIff(a: seq<Opt>, b: seq<Opt>)
    requires SameWithinClasses(a, b)
    ensures SameServer(a, b) <==> Captured(a, None) == Captured(b, None)
  {
    ChainShowsCaptures(a, Unary);
    ChainShowsCaptures(b, Unary);
    if Captured(a, None) == Captured(b, None) { SameCapturesSameServer(a, b); }
  }

  /** All resolvers are set before the first rate limit. */
  predicate ResolversFirst(opts: seq<Opt>) {
    forall i, j :: 0 <= i < j < |opts| && opts[i].WithRateLimitGlobal? ==> !opts[j].WithResolver?
  }

  lemma {:induction false} CapturedWhenFirst(opts: seq<Opt>, resolver: Option<RL.Rules>)
    requires ResolversFirst(opts)
    ensures Captured(opts, resolver) == seq(|OfClass(opts, Limiter)|, _ => LastResolver(opts, resolver))
  {
    if opts != [] {
      CapturedWhenFirst(opts[1..], ResolverAfter(opts[0], resolver));
      if opts[0].WithRateLimitGlobal? { NoneLeft(opts[1..], resolver); }
    }
  }

  lemma {:induction false} NoneLeft(opts: seq<Opt>, resolver: Option<RL.Rules>)
    requires forall i :: 0 <= i < |opts| ==> !opts[i].WithResolver?
    ensures LastResolver(opts, resolver) == resolver
  {
    if opts != [] { NoneLeft(opts[1..], resolver); }
  }

  /** With the resolvers set first, any two orders that keep the order within each class build the same server. */
  lemma OptionOrderIrrelevant(a: seq<Opt>, b: seq<Opt>)
    requires SameWithinClasses(a, b) && ResolversFirst(a) && ResolversFirst(b)
    requires LastResolver(a, None) == LastResolver(b, None)
    ensures SameServer(a, b)
  {
    CapturedWhenFirst(a, None);
    CapturedWhenFirst(b, None);
    assert OfClass(a, Limiter) == OfClass(b, Limiter);
    SameCapturesSameServer(a, b);
  }

  lemma ClassesOfTwo(x: Opt, y: Opt)
    requires ClassOf(x) != ClassOf(y)
    ensures SameWithinClasses([x, y], [y, x])
  {
    forall c: Class ensures OfClass([x, y], c) == OfClass([y, x], c) {
      assert [x, y][1..] == [y] && [y, x][1..] == [x] && [x][1..] == [] && [y][1..] == [];
    }
  }

  lemma CapturedOfTwo(limit: Opt, setter: Opt)
    requires limit.WithRateLimitGlobal? && setter.WithResolver?
    ensures Captured([limit, setter], None) == [None] && Captured([setter, limit], None) == [setter.r]
  {
    assert [limit, setter][1..] == [setter] && [setter, limit][1..] == [limit];
    assert [limit][1..] == [] && [setter][1..] == [];
    assert Captured([setter], None) == [] && Captured([limit], setter.r) == [setter.r] + Captured([], setter.r);
  }

  /** Swapping the resolver and the rate limit builds another server. */
  lemma OrderCanMatter(limiter: nat, rps: real, burst: int, rules: RL.Rules, side: Side)
    ensures var limit, setter := WithRateLimitGlobal(limiter, rps, burst), WithResolver(Some(rules));
      && SameWithinClasses([limit, setter], [setter, limit])
      && ServerStages([limit, setter], side) != ServerStages([setter, limit], side)
  {
    var limit, setter := WithRateLimitGlobal(limiter, rps, burst), WithResolver(Some(rules));
    ClassesOfTwo(limit, setter);
    CapturedOfTwo(limit, setter);
    ChainShowsCaptures([limit, setter], side);
    ChainShowsCaptures([setter, limit], side);
  }
}
