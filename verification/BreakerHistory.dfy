/** What the breaker's state says about the history of calls, for every configuration and every history. */
module BreakerHistory {
  import opened Breaker

  function AtLeastOne(n: int): nat {
    if n < 1 then 1 else n
  }

  /** Failures at the end of `h` with no success between them; polls do not count. */
  function FailureRun(h: seq<Event>): nat {
    if h == [] then 0
    else match h[|h| - 1]
         case Failure(_) => FailureRun(h[..|h| - 1]) + 1
         case Success(_) => 0
         case Poll(_) => FailureRun(h[..|h| - 1])
  }

  function Failures(h: seq<Event>): nat {
    if h == [] then 0 else Failures(h[..|h| - 1]) + (if h[|h| - 1].Failure? then 1 else 0)
  }

  function Successes(h: seq<Event>): nat {
    if h == [] then 0 else Successes(h[..|h| - 1]) + (if h[|h| - 1].Success? then 1 else 0)
  }

  ghost predicate PhaseChangesAt(cfg: Config, h: seq<Event>, i: nat)
    requires i < |h|
  {
    After(cfg, h[..i + 1]).phase != After(cfg, h[..i]).phase
  }

  /** The length of the history at which the current phase was entered. */
  ghost function Entered(cfg: Config, h: seq<Event>): (i: nat)
    ensures i <= |h|
  {
    if h == [] then 0
    else if PhaseChangesAt(cfg, h, |h| - 1) then |h|
    else Entered(cfg, h[..|h| - 1])
  }

  /** The events seen in the current phase. */
  ghost function Segment(cfg: Config, h: seq<Event>): seq<Event> {
    h[Entered(cfg, h)..]
  }

  lemma SegmentSnoc(cfg: Config, h: seq<Event>, e: Event)
    ensures Segment(cfg, h + [e]) ==
      if After(cfg, h + [e]).phase == After(cfg, h).phase then Segment(cfg, h) + [e] else []
    ensures Entered(cfg, h + [e]) ==
      if After(cfg, h + [e]).phase == After(cfg, h).phase then Entered(cfg, h) else |h| + 1
  {
    var h' := h + [e];
    assert h'[..|h|] == h && h'[..|h'|] == h';
  }

  /** The event that entered the current phase. */
  ghost predicate EnteredBy(cfg: Config, h: seq<Event>, e: Event) {
    Entered(cfg, h) > 0 && h[Entered(cfg, h) - 1] == e
  }

  /** What the counters mean in each phase. */
  ghost predicate Describes(cfg: Config, h: seq<Event>, s: State) {
    var seen := Segment(cfg, h);
    match s.phase
    case Closed =>
      && s.failures == FailureRun(seen) < AtLeastOne(cfg.failureThreshold)
      && s.successes == 0
      && (Entered(cfg, h) > 0 ==> h[Entered(cfg, h) - 1].Success?)
    case Open =>
      && s.failures == AtLeastOne(cfg.failureThreshold)
      && s.successes == 0
      && EnteredBy(cfg, h, Failure(s.openedAt))
      && (forall i :: 0 <= i < |seen| && seen[i].Poll? ==> seen[i].now - s.openedAt < cfg.openTimeout)
    case HalfOpen =>
      && s.failures == AtLeastOne(cfg.failureThreshold)
      && s.successes == Successes(seen) < AtLeastOne(cfg.halfOpenMaxSuccess)
      && Failures(seen) == 0
      && Entered(cfg, h) > 0 && h[Entered(cfg, h) - 1].Poll?
      && h[Entered(cfg, h) - 1].now - s.openedAt >= cfg.openTimeout
  }

  lemma {:induction false} CountSnoc(h: seq<Event>, e: Event)
    ensures FailureRun(h + [e]) == if e.Failure? then FailureRun(h) + 1 else if e.Success? then 0 else FailureRun(h)
    ensures Failures(h + [e]) == Failures(h) + (if e.Failure? then 1 else 0)
    ensures Successes(h + [e]) == Successes(h) + (if e.Success? then 1 else 0)
  {
    assert (h + [e])[..|h|] == h;
  }

  lemma DescribesNext(cfg: Config, h: seq<Event>, e: Event)
    requires Describes(cfg, h, After(cfg, h))
    ensures Describes(cfg, h + [e], After(cfg, h + [e]))
  {
    AfterSnoc(cfg, h, e);
    SegmentSnoc(cfg, h, e);
    var h' := h + [e];
    if After(cfg, h').phase == After(cfg, h).phase {
      DescribesLonger(cfg, h, e);
    } else {
      assert Segment(cfg, h') == [] && h'[Entered(cfg, h') - 1] == e;
    }
  }

  lemma DescribesLonger(cfg: Config, h: seq<Event>, e: Event)
    requires Describes(cfg, h, After(cfg, h)) && After(cfg, h + [e]).phase == After(cfg, h).phase
    ensures Describes(cfg, h + [e], After(cfg, h + [e]))
  {
    AfterSnoc(cfg, h, e);
    SegmentSnoc(cfg, h, e);
    CountSnoc(Segment(cfg, h), e);
    assert Entered(cfg, h) > 0 ==> (h + [e])[Entered(cfg, h) - 1] == h[Entered(cfg, h) - 1];
  }

  /** The breaker's fields are these functions of its history, after every history. */
  lemma {:induction false} StateDescribesHistory(cfg: Config, h: seq<Event>)
    ensures Describes(cfg, h, After(cfg, h))
  {
    if h != [] {
      var n := |h| - 1;
      StateDescribesHistory(cfg, h[..n]);
      DescribesNext(cfg, h[..n], h[n]);
      assert h[..n] + [h[n]] == h;
    }
  }

  // ---------------------------------------------------------------- when each transition happens

  /** The exact condition of every change of phase, in terms of the events seen in the current phase. */
  lemma TransitionsExactly(cfg: Config, h: seq<Event>, e: Event)
    ensures var s, s', seen := After(cfg, h), After(cfg, h + [e]), Segment(cfg, h) + [e];
      match s.phase
      case Closed =>
        && !s'.phase.HalfOpen?
        && (s'.phase.Open? <==> e.Failure? && FailureRun(seen) >= AtLeastOne(cfg.failureThreshold))
      case Open =>
        && !s'.phase.Closed?
        && (s'.phase.HalfOpen? <==> e.Poll? && e.now - s.openedAt >= cfg.openTimeout)
      case HalfOpen =>
        && (s'.phase.Open? <==> e.Failure?)
        && (s'.phase.Closed? <==> e.Success? && Successes(seen) >= AtLeastOne(cfg.halfOpenMaxSuccess))
  {
    StateDescribesHistory(cfg, h);
    AfterSnoc(cfg, h, e);
    CountSnoc(Segment(cfg, h), e);
  }

  /** What `Allow` answers: yes in Closed, no in Open, and in HalfOpen as long as successes are still asked for. */
  lemma AllowExactly(cfg: Config, h: seq<Event>)
    ensures match After(cfg, h).phase
      case Closed => Admits(cfg, After(cfg, h))
      case Open => !Admits(cfg, After(cfg, h))
      case HalfOpen => Admits(cfg, After(cfg, h)) <==> Successes(Segment(cfg, h)) < cfg.halfOpenMaxSuccess
  {
    StateDescribesHistory(cfg, h);
  }

  /** `Allow` answers "not Open" exactly when at least one success is asked for in HalfOpen. */
  lemma AllowMeansNotOpenIff(cfg: Config)
    ensures (forall h: seq<Event> :: Admits(cfg, After(cfg, h)) <==> !After(cfg, h).phase.Open?)
        <==> cfg.halfOpenMaxSuccess >= 1
  {
    if cfg.halfOpenMaxSuccess >= 1 {
      forall h: seq<Event> ensures Admits(cfg, After(cfg, h)) <==> !After(cfg, h).phase.Open? {
        StateDescribesHistory(cfg, h);
      }
    } else {
      var fails := Failing(AtLeastOne(cfg.failureThreshold));
      ThresholdTrips(cfg, AtLeastOne(cfg.failureThreshold));
      var h := fails + [Poll(cfg.openTimeout)];
      AfterSnoc(cfg, fails, Poll(cfg.openTimeout));
      assert After(cfg, h).phase.HalfOpen? && !Admits(cfg, After(cfg, h));
    }
  }

  function Failing(n: nat): seq<Event> {
    if n == 0 then [] else Failing(n - 1) + [Failure(0)]
  }

  /** That many failures in a row, and no fewer, open a fresh breaker. */
  lemma {:induction false} ThresholdTrips(cfg: Config, n: nat)
    requires n <= AtLeastOne(cfg.failureThreshold)
    ensures After(cfg, Failing(n)) ==
      if n < AtLeastOne(cfg.failureThreshold) then State(Closed, n, 0, 0) else State(Open, n, 0, 0)
  {
    if n > 0 {
      ThresholdTrips(cfg, n - 1);
      AfterSnoc(cfg, Failing(n - 1), Failure(0));
    }
  }

  // ---------------------------------------------------------------- while Open

  lemma AfterLast(cfg: Config, h: seq<Event>, more: seq<Event>)
    requires more != []
    ensures After(cfg, h + more) == Next(cfg, After(cfg, h + more[..|more| - 1]), more[|more| - 1])
  {
    var n := |more| - 1;
    assert h + more == (h + more[..n]) + [more[n]];
    AfterSnoc(cfg, h + more[..n], more[n]);
  }

  predicate AllBefore(h: seq<Event>, t: Time) {
    forall i :: 0 <= i < |h| ==> h[i].now < t
  }

  /** From a trip at time t on, nothing before t + timeout changes the state, neither polls nor late results. */
  lemma {:induction false} OpenHolds(cfg: Config, h: seq<Event>, more: seq<Event>)
    requires After(cfg, h).phase.Open?
    requires AllBefore(more, After(cfg, h).openedAt + cfg.openTimeout)
    ensures After(cfg, h + more) == After(cfg, h)
  {
    if more == [] {
      assert h + more == h;
    } else {
      var n := |more| - 1;
      OpenHolds(cfg, h, more[..n]);
      AfterLast(cfg, h, more);
    }
  }

  predicate ClockRuns(h: seq<Event>) {
    forall i, j :: 0 <= i < j < |h| ==> h[i].now <= h[j].now
  }

  /** With a clock that does not go back, no poll is admitted between a trip at time t and t + timeout. */
  lemma NoneAdmittedBeforeTimeout(cfg: Config, h: seq<Event>, i: nat, j: nat)
    requires ClockRuns(h) && i < j < |h| && h[j].Poll?
    requires !After(cfg, h[..i]).phase.Open? && After(cfg, h[..i + 1]).phase.Open?
    requires h[j].now < h[i].now + cfg.openTimeout
    ensures After(cfg, h[..i + 1]).openedAt == h[i].now
    ensures After(cfg, h[..j + 1]) == After(cfg, h[..i + 1])
    ensures !Admits(cfg, After(cfg, h[..j + 1]))
  {
    assert h[..i + 1] == h[..i] + [h[i]];
    AfterSnoc(cfg, h[..i], h[i]);
    var more := h[i + 1..j + 1];
    assert h[..j + 1] == h[..i + 1] + more;
    OpenHolds(cfg, h[..i + 1], more);
  }

  /** A result reported while Open changes nothing at all. */
  lemma LateResultsChangeNothing(cfg: Config, h: seq<Event>, e: Event)
    requires After(cfg, h).phase.Open? && !e.Poll?
    ensures After(cfg, h + [e]) == After(cfg, h)
    ensures forall more: seq<Event> :: After(cfg, h + [e] + more) == After(cfg, h + more)
  {
    AfterSnoc(cfg, h, e);
    forall more: seq<Event> ensures After(cfg, h + [e] + more) == After(cfg, h + more) {
      SameStateSameFuture(cfg, h + [e], h, more);
    }
  }

  lemma {:induction false} SameStateSameFuture(cfg: Config, h: seq<Event>, g: seq<Event>, more: seq<Event>)
    requires After(cfg, h) == After(cfg, g)
    ensures After(cfg, h + more) == After(cfg, g + more)
  {
    if more == [] {
      assert h + more == h && g + more == g;
    } else {
      SameStateSameFuture(cfg, h, g, more[..|more| - 1]);
      AfterLast(cfg, h, more);
      AfterLast(cfg, g, more);
    }
  }

  /**
   Closed is reached again only from HalfOpen: on the success that completes the required number, with no
   failure since a poll entered HalfOpen at least the timeout after the last trip.
   */
  lemma ClosedAgainOnlyByProbes(cfg: Config, h: seq<Event>, e: Event)
    requires !After(cfg, h).phase.Closed? && After(cfg, h + [e]).phase.Closed?
    ensures After(cfg, h).phase.HalfOpen? && e.Success?
    ensures Failures(Segment(cfg, h) + [e]) == 0
    ensures Successes(Segment(cfg, h) + [e]) == AtLeastOne(cfg.halfOpenMaxSuccess)
    ensures var i := Entered(cfg, h);
      && i > 0 && h[i - 1].Poll? && After(cfg, h[..i - 1]).phase.Open?
      && h[i - 1].now - After(cfg, h[..i - 1]).openedAt >= cfg.openTimeout
  {
    StateDescribesHistory(cfg, h);
    AfterSnoc(cfg, h, e);
    CountSnoc(Segment(cfg, h), e);
    HalfOpenEntry(cfg, h);
  }

  lemma HalfOpenEntry(cfg: Config, h: seq<Event>)
    requires After(cfg, h).phase.HalfOpen?
    ensures var i := Entered(cfg, h);
      && i > 0 && h[i - 1].Poll? && After(cfg, h[..i - 1]).phase.Open?
      && h[i - 1].now - After(cfg, h[..i - 1]).openedAt >= cfg.openTimeout
  {
    EnteredFromAnotherPhase(cfg, h);
    var i := Entered(cfg, h);
    assert h[..i] == h[..i - 1] + [h[i - 1]];
    AfterSnoc(cfg, h[..i - 1], h[i - 1]);
    EntersHalfOpen(cfg, After(cfg, h[..i - 1]), h[i - 1]);
  }

  lemma EntersHalfOpen(cfg: Config, s: State, e: Event)
    requires Next(cfg, s, e).phase.HalfOpen? && !s.phase.HalfOpen?
    ensures s.phase.Open? && e.Poll? && e.now - s.openedAt >= cfg.openTimeout
  {
  }

  lemma {:induction false} EnteredFromAnotherPhase(cfg: Config, h: seq<Event>)
    ensures Entered(cfg, h) > 0 ==>
      var i := Entered(cfg, h);
      After(cfg, h[..i]).phase == After(cfg, h).phase != After(cfg, h[..i - 1]).phase
    ensures Entered(cfg, h) == 0 ==> After(cfg, h).phase.Closed?
  {
    if h != [] {
      var n := |h| - 1;
      assert h[..n + 1] == h;
      if !PhaseChangesAt(cfg, h, n) {
        EnteredFromAnotherPhase(cfg, h[..n]);
        var i := Entered(cfg, h);
        assert h[..n][..i] == h[..i];
        if i > 0 { assert h[..n][..i - 1] == h[..i - 1]; }
      }
    }
  }

  // ---------------------------------------------------------------- probes

  /** How many polls of `h`, from position `from` on, were admitted. */
  function AdmittedSince(cfg: Config, h: seq<Event>, from: nat): nat {
    if |h| <= from then 0
    else AdmittedSince(cfg, h[..|h| - 1], from) + (if h[|h| - 1].Poll? && Admits(cfg, After(cfg, h)) then 1 else 0)
  }

  /** The polls admitted in the present HalfOpen phase, the one that entered it included. */
  ghost function Probes(cfg: Config, h: seq<Event>): nat {
    if After(cfg, h).phase.HalfOpen? && Entered(cfg, h) > 0 then AdmittedSince(cfg, h, Entered(cfg, h) - 1) else 0
  }

  ghost predicate AtMostProbes(cfg: Config, bound: nat) {
    forall h: seq<Event> :: Probes(cfg, h) <= bound
  }

  lemma {:induction false} NoneAdmittedInHalfOpen(cfg: Config, h: seq<Event>)
    requires cfg.halfOpenMaxSuccess < 1 && After(cfg, h).phase.HalfOpen?
    ensures Entered(cfg, h) > 0 && AdmittedSince(cfg, h, Entered(cfg, h) - 1) == 0
  {
    var n := |h| - 1;
    StateDescribesHistory(cfg, h);
    assert h[..n] + [h[n]] == h && h[..n + 1] == h;
    if !PhaseChangesAt(cfg, h, n) { NoneAdmittedInHalfOpen(cfg, h[..n]); }
  }

  function Polls(n: nat, now: Time): seq<Event> {
    if n == 0 then [] else Polls(n - 1, now) + [Poll(now)]
  }

  /** Trip the breaker, wait, and poll `n` times without reporting a result. */
  function Hammer(cfg: Config, n: nat): seq<Event> {
    Failing(AtLeastOne(cfg.failureThreshold)) + Polls(n, cfg.openTimeout)
  }

  lemma {:induction false} EveryPollIsAdmitted(cfg: Config, n: nat)
    requires cfg.halfOpenMaxSuccess >= 1
    ensures var t, h := AtLeastOne(cfg.failureThreshold), Hammer(cfg, n);
      && |Failing(t)| == t <= |h|
      && After(cfg, h) == State(if n == 0 then Open else HalfOpen, t, 0, 0)
      && (n > 0 ==> Entered(cfg, h) == t + 1)
      && AdmittedSince(cfg, h, t) == n
  {
    var t, h := AtLeastOne(cfg.failureThreshold), Hammer(cfg, n);
    if n == 0 {
      FailingLength(t);
      ThresholdTrips(cfg, t);
      assert h == Failing(t);
    } else {
      var before, e := Hammer(cfg, n - 1), Poll(cfg.openTimeout);
      EveryPollIsAdmitted(cfg, n - 1);
      assert h == before + [e] && h[..|h| - 1] == before;
      AfterSnoc(cfg, before, e);
      SegmentSnoc(cfg, before, e);
      PollsLength(n - 1, cfg.openTimeout);
    }
  }

  lemma {:induction false} FailingLength(n: nat)
    ensures |Failing(n)| == n
  {
    if n > 0 { FailingLength(n - 1); }
  }

  lemma {:induction false} PollsLength(n: nat, now: Time)
    ensures |Polls(n, now)| == n
  {
    if n > 0 { PollsLength(n - 1, now); }
  }

  /**
   `Allow` counts successes and not outstanding probes: the polls admitted in one HalfOpen phase are bounded, over
   all histories, exactly when HalfOpen admits nobody.
   */
  lemma ProbesBoundedIff(cfg: Config)
    ensures (exists bound: nat :: AtMostProbes(cfg, bound)) <==> cfg.halfOpenMaxSuccess < 1
  {
    if cfg.halfOpenMaxSuccess < 1 {
      forall h: seq<Event> ensures Probes(cfg, h) <= 0 {
        if After(cfg, h).phase.HalfOpen? { NoneAdmittedInHalfOpen(cfg, h); }
      }
      assert AtMostProbes(cfg, 0);
    } else {
      forall bound: nat ensures !AtMostProbes(cfg, bound) {
        EveryPollIsAdmitted(cfg, bound + 1);
        assert Probes(cfg, Hammer(cfg, bound + 1)) > bound;
      }
    }
  }

  // ---------------------------------------------------------------- accounting

  /** How often a phase changed from `p` to `q`. */
  ghost function Changes(cfg: Config, h: seq<Event>, p: Phase, q: Phase): nat {
    if h == [] then 0
    else
      var before := h[..|h| - 1];
      Changes(cfg, before, p, q) +
      (if After(cfg, before).phase == p && After(cfg, h).phase == q && p != q then 1 else 0)
  }

  ghost function ClosedTrips(cfg: Config, h: seq<Event>): nat {
    Changes(cfg, h, Closed, Open)
  }

  ghost function HalfOpenTrips(cfg: Config, h: seq<Event>): nat {
    Changes(cfg, h, HalfOpen, Open)
  }

  ghost function Closings(cfg: Config, h: seq<Event>): nat {
    Changes(cfg, h, HalfOpen, Closed)
  }

  /** The sharp form: what the counters hold is paid for on top of all earlier trips and closings. */
  ghost predicate Balanced(cfg: Config, h: seq<Event>) {
    var s := After(cfg, h);
    && ClosedTrips(cfg, h) == Closings(cfg, h) + (if s.phase.Closed? then 0 else 1)
    && Changes(cfg, h, Open, HalfOpen) ==
         HalfOpenTrips(cfg, h) + Closings(cfg, h) + (if s.phase.HalfOpen? then 1 else 0)
    && Paid(cfg, s, ClosedTrips(cfg, h), HalfOpenTrips(cfg, h), Closings(cfg, h), Failures(h), Successes(h))
  }

  lemma ChangesSnoc(cfg: Config, h: seq<Event>, e: Event, p: Phase, q: Phase)
    ensures Changes(cfg, h + [e], p, q) == Changes(cfg, h, p, q) +
      (if After(cfg, h).phase == p && After(cfg, h + [e]).phase == q && p != q then 1 else 0)
  {
    assert (h + [e])[..|h|] == h;
  }

  /** What one event does to state and counts, whichever of the five transitions it makes. */
  lemma BalancedNext(cfg: Config, h: seq<Event>, e: Event)
    requires Balanced(cfg, h)
    ensures Balanced(cfg, h + [e])
  {
    AfterSnoc(cfg, h, e);
    CountSnoc(h, e);
    ChangesSnoc(cfg, h, e, Closed, Open);
    ChangesSnoc(cfg, h, e, HalfOpen, Open);
    ChangesSnoc(cfg, h, e, HalfOpen, Closed);
    ChangesSnoc(cfg, h, e, Open, HalfOpen);
    StateDescribesHistory(cfg, h);
    BalanceOfStep(cfg, After(cfg, h), e, ClosedTrips(cfg, h), HalfOpenTrips(cfg, h), Closings(cfg, h), Failures(h), Successes(h));
  }

  predicate Paid(cfg: Config, s: State, trips: nat, reopens: nat, closings: nat, failures: nat, successes: nat) {
    && failures >= AtLeastOne(cfg.failureThreshold) * trips + reopens + (if s.phase.Closed? then s.failures else 0)
    && successes >= AtLeastOne(cfg.halfOpenMaxSuccess) * closings + s.successes
  }

  lemma BalanceOfStep(cfg: Config, s: State, e: Event, trips: nat, reopens: nat, closings: nat, failures: nat, successes: nat)
    requires Paid(cfg, s, trips, reopens, closings, failures, successes)
    requires s.phase.Closed? ==> 0 <= s.failures < AtLeastOne(cfg.failureThreshold)
    requires 0 <= s.successes < AtLeastOne(cfg.halfOpenMaxSuccess)
    ensures var s' := Next(cfg, s, e);
      Paid(cfg, s',
           trips + (if s.phase.Closed? && s'.phase.Open? then 1 else 0),
           reopens + (if s.phase.HalfOpen? && s'.phase.Open? then 1 else 0),
           closings + (if s.phase.HalfOpen? && s'.phase.Closed? then 1 else 0),
           failures + (if e.Failure? then 1 else 0),
           successes + (if e.Success? then 1 else 0))
  {
    assert AtLeastOne(cfg.failureThreshold) * (trips + 1) ==
      AtLeastOne(cfg.failureThreshold) * trips + AtLeastOne(cfg.failureThreshold);
    assert AtLeastOne(cfg.halfOpenMaxSuccess) * (closings + 1) ==
      AtLeastOne(cfg.halfOpenMaxSuccess) * closings + AtLeastOne(cfg.halfOpenMaxSuccess);
  }

  /** Every trip and every closing was paid for with its own recorded results. */
  lemma {:induction false} TripsAndClosingsArePaidFor(cfg: Config, h: seq<Event>)
    ensures Balanced(cfg, h)
    ensures 0 <= ClosedTrips(cfg, h) - Closings(cfg, h) <= 1
    ensures Failures(h) >= AtLeastOne(cfg.failureThreshold) * ClosedTrips(cfg, h) + HalfOpenTrips(cfg, h)
    ensures Successes(h) >= AtLeastOne(cfg.halfOpenMaxSuccess) * Closings(cfg, h)
  {
    if h != [] {
      var n := |h| - 1;
      TripsAndClosingsArePaidFor(cfg, h[..n]);
      BalancedNext(cfg, h[..n], h[n]);
      assert h[..n] + [h[n]] == h;
    }
    StateDescribesHistory(cfg, h);
  }
}
