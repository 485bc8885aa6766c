/**
 When both tiers hold the value last supplied, with goroutines interleaved: overlapping calls for a key can leave
 different values behind for good; calls that take turns cannot.
 */
module SingleflightCoherence {
  import opened Common
  import opened Singleflight
  import opened SingleflightSafety
  import opened SingleflightLiveness
  import opened SingleflightAccounting

  // ---------------------------------------------------------------- one step

  /** The tier holds a value for `k` that is not the last one supplied. */
  predicate StaleIn(tier: map<Key, Bytes>, k: Key, last: Option<Bytes>) {
    k in tier && last != Some(tier[k])
  }

  /** What a tier holds for `k` is the last value supplied. */
  predicate Agrees(tier: map<Key, Bytes>, k: Key, last: Option<Bytes>) {
    k in tier ==> last == Some(tier[k])
  }

  /** Goroutine `t` writes a value for `k` that was overtaken by another since it was supplied. */
  ghost predicate WritesOvertaken(s: State, t: nat, env: Env, k: Key, last: Option<Bytes>)
    requires t < |s.threads|
  {
    s.threads[t].key == k &&
    ((env.l1Kept && ValueForL1(s, t).Some? && ValueForL1(s, t) != last) ||
     (env.l2Wrote && ValueForL2(s, t).Some? && ValueForL2(s, t) != last))
  }

  /**
   A step makes a tier stale, or leaves it so, exactly when it writes an overtaken value there, or leaves alone
   what was stale before.
   */
  lemma StepStaleIff(tiered: bool, s: State, t: nat, env: Env, k: Key, last: Option<Bytes>)
    requires Inv(s) && Enabled(s, t)
    ensures var s' := Step(tiered, s, t, env); var v1, v2 := ValueForL1(s, t), ValueForL2(s, t);
      && (StaleIn(s'.l1, k, last) <==>
            if s.threads[t].key == k && v1.Some? then env.l1Kept && v1 != last else StaleIn(s.l1, k, last))
      && (StaleIn(s'.l2, k, last) <==>
            if s.threads[t].key == k && v2.Some? && env.l2Wrote then v2 != last else StaleIn(s.l2, k, last))
  {
    StoresChangeOnlyByWriters(tiered, s, t, env);
  }

  /** From tiers that agree with the last value supplied, a step spoils that exactly when its write was overtaken. */
  lemma StepAgreesIff(tiered: bool, s: State, t: nat, env: Env, k: Key, last: Option<Bytes>)
    requires Inv(s) && Enabled(s, t)
    requires Agrees(s.l1, k, last) && Agrees(s.l2, k, last)
    ensures var s' := Step(tiered, s, t, env);
      Agrees(s'.l1, k, last) && Agrees(s'.l2, k, last) <==> !WritesOvertaken(s, t, env, k, last)
  {
    StepStaleIff(tiered, s, t, env, k, last);
  }

  // ---------------------------------------------------------------- over a run

  /** The value last supplied for `k`, by a `Set` that arrived or a loader that returned, after one more event. */
  ghost function Supplied(s: State, e: Event, k: Key, last: Option<Bytes>): Option<Bytes> {
    match e
    case Spawn(j, req) => if j == k && req.SetReq? then Some(req.v) else last
    case Move(t, env) =>
      if t < |s.threads| && s.threads[t].key == k && s.threads[t].pc.Load? && env.loader.Ok? then Some(env.loader.val)
      else last
    case _ => last
  }

  ghost function LastSupplied(tiered: bool, s: State, es: seq<Event>, k: Key, last: Option<Bytes>): Option<Bytes>
    requires Inv(s) && Runs(tiered, s, es)
    decreases |es|
  {
    if es == [] then last
    else LastSupplied(tiered, Next(tiered, s, es[0]), es[1..], k, Supplied(s, es[0], k, last))
  }

  /** An L2 write for `k` is dropped while L2 holds another value. */
  ghost predicate StaleDrop(s: State, e: Event, k: Key) {
    && e.Move? && e.t < |s.threads| && s.threads[e.t].key == k && !e.env.l2Wrote
    && ValueForL2(s, e.t).Some? && StaleIn(s.l2, k, ValueForL2(s, e.t))
  }

  ghost predicate NoStaleDrop(tiered: bool, s: State, es: seq<Event>, k: Key)
    requires Inv(s) && Runs(tiered, s, es)
    decreases |es|
  {
    es != [] ==> !StaleDrop(s, es[0], k) && NoStaleDrop(tiered, Next(tiered, s, es[0]), es[1..], k)
  }

  ghost predicate BothAgree(tiered: bool, s: State, k: Key, last: Option<Bytes>) {
    Agrees(s.l1, k, last) && (tiered ==> Agrees(s.l2, k, last))
  }

  ghost predicate Brought(s: State, c: nat, last: Option<Bytes>) {
    HasValue(s, c) && last == Some(s.calls[c].outcome.value.val)
  }

  /** What the one busy goroutine carries, and what the tiers hold beside it. */
  ghost predicate Carries(tiered: bool, s: State, k: Key, pc: Pc, last: Option<Bytes>) {
    match pc
    case CheckL2 => tiered && BothAgree(tiered, s, k, last)
    case GetL2 => tiered && BothAgree(tiered, s, k, last)
    case Promote(v) => tiered && last == Some(v) && BothAgree(tiered, s, k, last)
    case GetPromote(v) => tiered && last == Some(v) && BothAgree(tiered, s, k, last)
    case StoreL2(c) => tiered && Brought(s, c, last)
    case StoreL1(c) => Brought(s, c, last) && (tiered ==> Agrees(s.l2, k, last))
    case SetL2(v) => tiered && last == Some(v)
    case SetL1(v) => last == Some(v) && (tiered ==> Agrees(s.l2, k, last))
    case Release(c) => BothAgree(tiered, s, k, last) && (HasValue(s, c) ==> Brought(s, c, last))
    case Delete(c) => BothAgree(tiered, s, k, last) && (HasValue(s, c) ==> Brought(s, c, last))
    case Wait(_) => false
    case _ => BothAgree(tiered, s, k, last)
  }

  ghost predicate CarriesIfBusy(tiered: bool, s: State, t: nat, k: Key, last: Option<Bytes>) {
    Busy(s, t, k) ==> Carries(tiered, s, k, s.threads[t].pc, last)
  }

  /** With calls for `k` taking turns: the busy goroutine carries its value, and without one the tiers agree. */
  ghost predicate InTurn(tiered: bool, s: State, k: Key, last: Option<Bytes>) {
    && Lone(s, k)
    && (forall t: nat :: CarriesIfBusy(tiered, s, t, k, last))
    && ((forall t: nat :: !Busy(s, t, k)) ==> BothAgree(tiered, s, k, last))
  }

  // ---------------------------------------------------------------- what a step does to it

  /** A goroutine on another key leaves everything about `k` alone. */
  lemma StrangerKeeps(tiered: bool, s: State, t: nat, env: Env, k: Key, last: Option<Bytes>, u: nat)
    requires Inv(s) && Enabled(s, t) && s.threads[t].key != k && CarriesIfBusy(tiered, s, u, k, last)
    ensures var s' := Step(tiered, s, t, env);
      CarriesIfBusy(tiered, s', u, k, last) && (Busy(s', u, k) <==> Busy(s, u, k))
  {
    StepOnlyTouches(tiered, s, t, env);
    StrangerStores(tiered, s, t, env, k, last);
    assert ThreadOk(s, t);
    if Busy(s, u, k) {
      assert ThreadOk(s, u);
      CarriesFrame(tiered, s, Step(tiered, s, t, env), u, k, last);
    }
  }

  lemma StrangerStores(tiered: bool, s: State, t: nat, env: Env, k: Key, last: Option<Bytes>)
    requires Inv(s) && Enabled(s, t) && s.threads[t].key != k
    ensures var s' := Step(tiered, s, t, env);
      && (Agrees(s'.l1, k, last) <==> Agrees(s.l1, k, last)) && (Agrees(s'.l2, k, last) <==> Agrees(s.l2, k, last))
  {
    StepStaleIff(tiered, s, t, env, k, last);
  }

  lemma CarriesFrame(tiered: bool, s: State, s': State, u: nat, k: Key, last: Option<Bytes>)
    requires u < |s.threads| && ThreadOk(s, u) && s.threads[u].key == k
    requires Carries(tiered, s, k, s.threads[u].pc, last)
    requires Agrees(s.l1, k, last) ==> Agrees(s'.l1, k, last)
    requires Agrees(s.l2, k, last) ==> Agrees(s'.l2, k, last)
    requires |s.calls| <= |s'.calls|
    requires s.threads[u].pc.InFlight() && CallRef(s, k, s.threads[u].pc.c) ==> s'.calls[s.threads[u].pc.c] == s.calls[s.threads[u].pc.c]
    ensures Carries(tiered, s', k, s.threads[u].pc, last)
  {
  }

  /** The busy goroutine's own step, unless it returns. */
  lemma OwnStepCarries(tiered: bool, s: State, t: nat, env: Env, k: Key, last: Option<Bytes>)
    requires Inv(s) && Enabled(s, t) && Busy(s, t, k) && Lone(s, k) && CarriesIfBusy(tiered, s, t, k, last)
    requires !StaleDrop(s, Move(t, env), k)
    ensures var s' := Step(tiered, s, t, env); var last' := Supplied(s, Move(t, env), k, last);
      && t < |s'.threads| && s'.threads[t].key == k
      && Leaves(tiered, s', k, s'.threads[t].pc, last')
  {
    assert ThreadOk(s, t);
    StoresChangeOnlyByWriters(tiered, s, t, env);
    if s.threads[t].pc.InFlight() {
      OwnFlightCarries(tiered, s, t, env, k, last);
    } else if s.threads[t].pc.Stores() {
      OwnWriteCarries(tiered, s, t, env, k, last);
    } else {
      assert Looks(s, t);
      OwnLookCarries(tiered, s, t, env, k, last);
    }
  }

  /** Carries its value on, or has returned the value last supplied to tiers that agree. */
  ghost predicate Leaves(tiered: bool, s: State, k: Key, pc: Pc, last: Option<Bytes>) {
    if pc.Finished() then BothAgree(tiered, s, k, last) && (Returned(pc).Some? ==> Returned(pc) == last)
    else Carries(tiered, s, k, pc, last)
  }

  lemma OwnFlightCarries(tiered: bool, s: State, t: nat, env: Env, k: Key, last: Option<Bytes>)
    requires t < |s.threads| && ThreadOk(s, t) && s.threads[t].pc.InFlight() && s.threads[t].key == k
    requires Carries(tiered, s, k, s.threads[t].pc, last) && !StaleDrop(s, Move(t, env), k)
    requires StoresFollow(s, FlightStep(tiered, s, t, env), t, env)
    ensures var s' := FlightStep(tiered, s, t, env);
      && t < |s'.threads| && s'.threads[t].key == k
      && Leaves(tiered, s', k, s'.threads[t].pc, Supplied(s, Move(t, env), k, last))
  {
    FlightTargets(tiered, s, t, env);
    FlightCalls(tiered, s, t, env);
    if s.threads[t].pc.Load? {
      LoadCarries(tiered, s, t, env, k, last);
    } else {
      OutcomeStays(tiered, s, t, env);
      LaterFlightCarries(tiered, s, FlightStep(tiered, s, t, env), t, env, k, last);
    }
  }

  lemma OutcomeStays(tiered: bool, s: State, t: nat, env: Env)
    requires t < |s.threads| && ThreadOk(s, t) && s.threads[t].pc.InFlight() && !s.threads[t].pc.Load?
    ensures var c, s' := s.threads[t].pc.c, FlightStep(tiered, s, t, env);
      c < |s.calls| == |s'.calls| && s'.calls[c].outcome == s.calls[c].outcome && s.calls[c].outcome.Some?
  {
  }

  lemma LoadCarries(tiered: bool, s: State, t: nat, env: Env, k: Key, last: Option<Bytes>)
    requires t < |s.threads| && ThreadOk(s, t) && s.threads[t].pc.Load? && s.threads[t].key == k
    requires Carries(tiered, s, k, s.threads[t].pc, last)
    requires StoresFollow(s, FlightStep(tiered, s, t, env), t, env)
    ensures var s' := FlightStep(tiered, s, t, env);
      && t < |s'.threads| && s'.threads[t].key == k
      && Leaves(tiered, s', k, s'.threads[t].pc, Supplied(s, Move(t, env), k, last))
  {
  }

  lemma LaterFlightCarries(tiered: bool, s: State, s': State, t: nat, env: Env, k: Key, last: Option<Bytes>)
    requires t < |s.threads| && t < |s'.threads| && s.threads[t].pc.InFlight() && !s.threads[t].pc.Load?
    requires s.threads[t].key == k
    requires Carries(tiered, s, k, s.threads[t].pc, last) && !StaleDrop(s, Move(t, env), k)
    requires StoresFollow(s, s', t, env)
    requires var c := s.threads[t].pc.c;
      && c < |s.calls| == |s'.calls| && s'.calls[c].outcome == s.calls[c].outcome && s.calls[c].outcome.Some?
      && s'.threads[t].pc == AfterFlight(tiered, s.threads[t].pc, s.calls[c].outcome.value)
    ensures Leaves(tiered, s', k, s'.threads[t].pc, last)
  {
  }

  lemma OwnWriteCarries(tiered: bool, s: State, t: nat, env: Env, k: Key, last: Option<Bytes>)
    requires t < |s.threads| && s.threads[t].pc.Stores() && s.threads[t].key == k
    requires Carries(tiered, s, k, s.threads[t].pc, last) && !StaleDrop(s, Move(t, env), k)
    ensures var s' := WriteStep(s, t, env);
      && t < |s'.threads| && s'.threads[t].key == k
      && Leaves(tiered, s', k, s'.threads[t].pc, last)
  {
    if s.threads[t].pc.SetL2? { SetL2Carries(tiered, s, t, env, k, last); }
  }

  lemma SetL2Carries(tiered: bool, s: State, t: nat, env: Env, k: Key, last: Option<Bytes>)
    requires t < |s.threads| && s.threads[t].pc.SetL2? && s.threads[t].key == k
    requires Carries(tiered, s, k, s.threads[t].pc, last) && !StaleDrop(s, Move(t, env), k)
    ensures var s' := WriteStep(s, t, env);
      && t < |s'.threads| && s'.threads[t].key == k
      && Leaves(tiered, s', k, s'.threads[t].pc, last)
  {
    assert ValueForL2(s, t) == last;
  }

  lemma OwnLookCarries(tiered: bool, s: State, t: nat, env: Env, k: Key, last: Option<Bytes>)
    requires Inv(s) && Looks(s, t) && s.threads[t].key == k && Busy(s, t, k) && Lone(s, k)
    requires Carries(tiered, s, k, s.threads[t].pc, last)
    ensures var s' := LookStep(tiered, s, t, env);
      && t < |s'.threads| && s'.threads[t].key == k
      && Leaves(tiered, s', k, s'.threads[t].pc, last)
  {
    if s.threads[t].pc.Join? && k in s.loads {
      assert LoadOk(s, k);
      assert Busy(s, s.calls[s.loads[k]].owner, k);
    } else {
      LookAloneCarries(tiered, s, t, env, k, last);
    }
  }

  lemma LookAloneCarries(tiered: bool, s: State, t: nat, env: Env, k: Key, last: Option<Bytes>)
    requires Looks(s, t) && s.threads[t].key == k && (s.threads[t].pc.Join? ==> k !in s.loads)
    requires Carries(tiered, s, k, s.threads[t].pc, last)
    ensures var s' := LookStep(tiered, s, t, env);
      && t < |s'.threads| && s'.threads[t].key == k
      && Leaves(tiered, s', k, s'.threads[t].pc, last)
  {
    LookTargets(tiered, s, t, env);
    if !s.threads[t].pc.Join? { LookFinds(tiered, s, t, env, k, last); }
  }

  lemma LookFinds(tiered: bool, s: State, t: nat, env: Env, k: Key, last: Option<Bytes>)
    requires Looks(s, t) && s.threads[t].key == k && !s.threads[t].pc.Join?
    requires Carries(tiered, s, k, s.threads[t].pc, last)
    ensures var s' := LookStep(tiered, s, t, env);
      t < |s'.threads| && Leaves(tiered, s', k, s'.threads[t].pc, last)
  {
    OwnMoveOnlyTouches(tiered, s, t, env);
  }

  lemma MoveInTurn(tiered: bool, s: State, t: nat, env: Env, k: Key, last: Option<Bytes>)
    requires Inv(s) && Enabled(s, t) && InTurn(tiered, s, k, last) && !StaleDrop(s, Move(t, env), k)
    ensures InTurn(tiered, Next(tiered, s, Move(t, env)), k, Supplied(s, Move(t, env), k, last))
  {
    var s', last' := Next(tiered, s, Move(t, env)), Supplied(s, Move(t, env), k, last);
    LoneKept(tiered, s, Move(t, env), k);
    StepOnlyTouches(tiered, s, t, env);
    if s.threads[t].key == k {
      assert Busy(s, t, k) && CarriesIfBusy(tiered, s, t, k, last);
      OwnStepCarries(tiered, s, t, env, k, last);
      assert Busy(s', t, k) || s'.threads[t].pc.Finished();
      forall u: nat ensures CarriesIfBusy(tiered, s', u, k, last') {
        if u != t { assert !Busy(s, u, k); }
      }
    } else {
      StrangerStores(tiered, s, t, env, k, last);
      forall u: nat ensures CarriesIfBusy(tiered, s', u, k, last') && (Busy(s', u, k) <==> Busy(s, u, k)) {
        StrangerKeeps(tiered, s, t, env, k, last, u);
      }
    }
  }

  /** A call for `k` arrives when no other is busy. */
  lemma ArrivalInTurn(tiered: bool, s: State, req: Request, k: Key, last: Option<Bytes>)
    requires Inv(s) && InTurn(tiered, s, k, last) && forall t: nat :: !Busy(s, t, k)
    ensures var e := Spawn(k, req); InTurn(tiered, Next(tiered, s, e), k, Supplied(s, e, k, last))
  {
    var s' := Next(tiered, s, Spawn(k, req));
    LoneKept(tiered, s, Spawn(k, req), k);
    forall u: nat | u != |s.threads| ensures !Busy(s', u, k) { assert !Busy(s, u, k); }
    assert Busy(s', |s.threads|, k);
  }

  /** Arrivals on other keys, and losses. */
  lemma BystanderInTurn(tiered: bool, s: State, e: Event, k: Key, last: Option<Bytes>)
    requires Inv(s) && InTurn(tiered, s, k, last) && !e.Move? && (e.Spawn? ==> e.key != k)
    ensures InTurn(tiered, Next(tiered, s, e), k, last)
  {
    var s' := Next(tiered, s, e);
    LoneKept(tiered, s, e, k);
    forall u: nat ensures CarriesIfBusy(tiered, s', u, k, last) && (Busy(s', u, k) <==> Busy(s, u, k)) {
      assert CarriesIfBusy(tiered, s, u, k, last);
      if Busy(s, u, k) {
        assert ThreadOk(s, u);
        CarriesFrame(tiered, s, s', u, k, last);
      }
    }
  }

  lemma EventInTurn(tiered: bool, s: State, e: Event, k: Key, last: Option<Bytes>)
    requires Inv(s) && CanDo(s, e) && InTurn(tiered, s, k, last) && !StaleDrop(s, e, k)
    requires e.Spawn? && e.key == k ==> forall t: nat :: !Busy(s, t, k)
    ensures InTurn(tiered, Next(tiered, s, e), k, Supplied(s, e, k, last))
  {
    if e.Move? {
      MoveInTurn(tiered, s, e.t, e.env, k, last);
    } else if e.Spawn? && e.key == k {
      ArrivalInTurn(tiered, s, e.req, k, last);
    } else {
      BystanderInTurn(tiered, s, e, k, last);
    }
  }

  lemma {:induction false} RunInTurn(tiered: bool, s: State, es: seq<Event>, k: Key, last: Option<Bytes>)
    requires Inv(s) && Runs(tiered, s, es) && InTurn(tiered, s, k, last)
    requires NoOverlap(tiered, s, es, k) && NoStaleDrop(tiered, s, es, k)
    ensures InTurn(tiered, Exec(tiered, s, es), k, LastSupplied(tiered, s, es, k, last))
    decreases |es|
  {
    if es != [] {
      EventInTurn(tiered, s, es[0], k, last);
      RunInTurn(tiered, Next(tiered, s, es[0]), es[1..], k, Supplied(s, es[0], k, last));
    }
  }

  /**
   Over every concurrent run in which the calls for `k` take turns and no L2 write for `k` is dropped over another
   value: whatever a call for `k` returns is the value last supplied for `k`, whatever other keys do, and whatever
   either tier loses.
   */
  lemma AnswersAreLastSupplied(tiered: bool, es: seq<Event>, k: Key, t: nat, env: Env)
    requires IsRun(tiered, es) && NoOverlap(tiered, Init, es, k) && NoStaleDrop(tiered, Init, es, k)
    requires Enabled(After(tiered, es), t) && After(tiered, es).threads[t].key == k
    ensures var s := After(tiered, es); var s' := Step(tiered, s, t, env);
      && t < |s'.threads|
      && (Returned(s'.threads[t].pc).Some? ==> Returned(s'.threads[t].pc) == LastSupplied(tiered, Init, es, k, None))
  {
    var s, last := After(tiered, es), LastSupplied(tiered, Init, es, k, None);
    RunInTurn(tiered, Init, es, k, None);
    assert Busy(s, t, k) && CarriesIfBusy(tiered, s, t, k, last);
    if !StaleDrop(s, Move(t, env), k) {
      OwnStepCarries(tiered, s, t, env, k, last);
      assert s.threads[t].pc.Load? ==> !Step(tiered, s, t, env).threads[t].pc.Finished() by { LoadDoesNotReturn(tiered, s, t, env); }
    } else {
      DropDoesNotReturn(tiered, s, t, env);
    }
  }

  lemma LoadDoesNotReturn(tiered: bool, s: State, t: nat, env: Env)
    requires Inv(s) && Enabled(s, t)
    ensures t < |Step(tiered, s, t, env).threads|
    ensures s.threads[t].pc.Load? ==> !Step(tiered, s, t, env).threads[t].pc.Finished()
  {
    assert ThreadOk(s, t);
    StepOnlyTouches(tiered, s, t, env);
    if s.threads[t].pc.Load? { FlightTargets(tiered, s, t, env); }
  }

  /** A write to L2 is never a goroutine's last step. */
  lemma DropDoesNotReturn(tiered: bool, s: State, t: nat, env: Env)
    requires Inv(s) && Enabled(s, t) && ValueForL2(s, t).Some?
    ensures t < |Step(tiered, s, t, env).threads| && !Step(tiered, s, t, env).threads[t].pc.Finished()
  {
    assert ThreadOk(s, t);
    if s.threads[t].pc.InFlight() { FlightTargets(tiered, s, t, env); }
  }

  /** And when no call for `k` is under way, each tier holds the value last supplied, or nothing. */
  lemma TiersAgreeBetweenTurns(tiered: bool, es: seq<Event>, k: Key)
    requires IsRun(tiered, es) && NoOverlap(tiered, Init, es, k) && NoStaleDrop(tiered, Init, es, k)
    requires forall t: nat :: !Busy(After(tiered, es), t, k)
    ensures BothAgree(tiered, After(tiered, es), k, LastSupplied(tiered, Init, es, k, None))
  {
    RunInTurn(tiered, Init, es, k, None);
  }

  // ---------------------------------------------------------------- overtaken writes

  /** Goroutine `t` carries the value last supplied for `k`, and its write to L1 is still to come. */
  ghost predicate AheadForL1(s: State, t: nat, k: Key, last: Option<Bytes>) {
    && t < |s.threads| && s.threads[t].key == k
    && match s.threads[t].pc
       case SetL2(v) => last == Some(v)
       case SetL1(v) => last == Some(v)
       case StoreL2(c) => Brought(s, c, last)
       case StoreL1(c) => Brought(s, c, last)
       case _ => false
  }

  ghost predicate AheadForL2(s: State, t: nat, k: Key, last: Option<Bytes>) {
    && AheadForL1(s, t, k, last)
    && (s.threads[t].pc.SetL2? || s.threads[t].pc.StoreL2?)
  }

  /** Whatever is stale in a tier is about to be written again with the value last supplied. */
  ghost predicate Mending(tiered: bool, s: State, k: Key, last: Option<Bytes>) {
    && (StaleIn(s.l1, k, last) ==> exists t: nat :: AheadForL1(s, t, k, last))
    && (tiered && StaleIn(s.l2, k, last) ==> exists t: nat :: AheadForL2(s, t, k, last))
  }

  ghost predicate Overtakes(s: State, e: Event, k: Key, last: Option<Bytes>) {
    e.Move? && e.t < |s.threads| && WritesOvertaken(s, e.t, e.env, k, last)
  }

  /** No write for `k` takes effect after its value was overtaken, and none is dropped over another value. */
  ghost predicate NoneOvertaken(tiered: bool, s: State, es: seq<Event>, k: Key, last: Option<Bytes>)
    requires Inv(s) && Runs(tiered, s, es)
    decreases |es|
  {
    es != [] ==>
      && !Overtakes(s, es[0], k, last) && !StaleDrop(s, es[0], k)
      && NoneOvertaken(tiered, Next(tiered, s, es[0]), es[1..], k, Supplied(s, es[0], k, last))
  }

  /** A goroutine that does not move keeps what it carries. */
  lemma AheadKept(tiered: bool, s: State, t: nat, env: Env, k: Key, last: Option<Bytes>, u: nat)
    requires Inv(s) && Enabled(s, t) && u != t && AheadForL1(s, u, k, last)
    ensures AheadForL1(Step(tiered, s, t, env), u, k, last)
    ensures AheadForL2(s, u, k, last) ==> AheadForL2(Step(tiered, s, t, env), u, k, last)
  {
    StepOnlyTouches(tiered, s, t, env);
    if s.threads[u].pc.InFlight() { assert Grows(s.calls[s.threads[u].pc.c], Step(tiered, s, t, env).calls[s.threads[u].pc.c]); }
  }

  /** The goroutine that moves either writes, or brings a new value, or goes on carrying. */
  lemma MoverMends(tiered: bool, s: State, t: nat, env: Env, k: Key, last: Option<Bytes>)
    requires Inv(s) && Enabled(s, t) && s.threads[t].key == k && !StaleDrop(s, Move(t, env), k)
    ensures var s', last' := Step(tiered, s, t, env), Supplied(s, Move(t, env), k, last);
      && (AheadForL1(s, t, k, last) ==> AheadForL1(s', t, k, last') || !StaleIn(s'.l1, k, last'))
      && (AheadForL2(s, t, k, last) ==> !StaleIn(s'.l2, k, last'))
      && (last' != last ==> AheadForL1(s', t, k, last') && (tiered ==> AheadForL2(s', t, k, last')))
  {
    assert ThreadOk(s, t);
    StepStaleIff(tiered, s, t, env, k, last);
    if s.threads[t].pc.InFlight() {
      FlightTargets(tiered, s, t, env);
      FlightMends(tiered, s, t, env, k, last);
    } else if s.threads[t].pc.Stores() {
      WriteMends(s, t, env, k, last);
    }
  }

  lemma FlightMends(tiered: bool, s: State, t: nat, env: Env, k: Key, last: Option<Bytes>)
    requires t < |s.threads| && ThreadOk(s, t) && s.threads[t].pc.InFlight() && s.threads[t].key == k
    ensures var s', last' := FlightStep(tiered, s, t, env), Supplied(s, Move(t, env), k, last);
      && (AheadForL1(s, t, k, last) ==> AheadForL1(s', t, k, last') || s.threads[t].pc.StoreL1?)
      && (last' != last ==> AheadForL1(s', t, k, last') && (tiered ==> AheadForL2(s', t, k, last')))
  {
  }

  lemma WriteMends(s: State, t: nat, env: Env, k: Key, last: Option<Bytes>)
    requires t < |s.threads| && s.threads[t].pc.Stores() && s.threads[t].key == k
    ensures AheadForL1(s, t, k, last) ==> AheadForL1(WriteStep(s, t, env), t, k, last) || s.threads[t].pc.SetL1?
  {
  }

  lemma MoveMends(tiered: bool, s: State, t: nat, env: Env, k: Key, last: Option<Bytes>)
    requires Inv(s) && Enabled(s, t) && Mending(tiered, s, k, last)
    requires !Overtakes(s, Move(t, env), k, last) && !StaleDrop(s, Move(t, env), k)
    ensures Mending(tiered, Step(tiered, s, t, env), k, Supplied(s, Move(t, env), k, last))
  {
    var s', last' := Step(tiered, s, t, env), Supplied(s, Move(t, env), k, last);
    StepStaleIff(tiered, s, t, env, k, last');
    if s.threads[t].key == k { MoverMends(tiered, s, t, env, k, last); }
    if last' == last {
      if StaleIn(s'.l1, k, last) && StaleIn(s.l1, k, last) {
        var u: nat :| AheadForL1(s, u, k, last);
        if u != t { AheadKept(tiered, s, t, env, k, last, u); }
      }
      if tiered && StaleIn(s'.l2, k, last) && StaleIn(s.l2, k, last) {
        var u: nat :| AheadForL2(s, u, k, last);
        if u != t { AheadKept(tiered, s, t, env, k, last, u); }
      }
    }
  }

  lemma EventMends(tiered: bool, s: State, e: Event, k: Key, last: Option<Bytes>)
    requires Inv(s) && CanDo(s, e) && Mending(tiered, s, k, last)
    requires !Overtakes(s, e, k, last) && !StaleDrop(s, e, k)
    ensures Mending(tiered, Next(tiered, s, e), k, Supplied(s, e, k, last))
  {
    if e.Move? {
      MoveMends(tiered, s, e.t, e.env, k, last);
    } else {
      OtherEventMends(tiered, s, e, k, last);
    }
  }

  lemma OtherEventMends(tiered: bool, s: State, e: Event, k: Key, last: Option<Bytes>)
    requires Inv(s) && !e.Move? && Mending(tiered, s, k, last)
    ensures Mending(tiered, Next(tiered, s, e), k, Supplied(s, e, k, last))
  {
    var s', last' := Next(tiered, s, e), Supplied(s, e, k, last);
    if e.Spawn? && e.key == k && e.req.SetReq? {
      assert AheadForL1(s', |s.threads|, k, last') && (tiered ==> AheadForL2(s', |s.threads|, k, last'));
    } else {
      forall u: nat ensures (AheadForL1(s, u, k, last) ==> AheadForL1(s', u, k, last')) && (AheadForL2(s, u, k, last) ==> AheadForL2(s', u, k, last')) {}
    }
  }

  lemma {:induction false} RunMends(tiered: bool, s: State, es: seq<Event>, k: Key, last: Option<Bytes>)
    requires Inv(s) && Runs(tiered, s, es) && Mending(tiered, s, k, last) && NoneOvertaken(tiered, s, es, k, last)
    ensures Mending(tiered, Exec(tiered, s, es), k, LastSupplied(tiered, s, es, k, last))
    decreases |es|
  {
    if es != [] {
      EventMends(tiered, s, es[0], k, last);
      RunMends(tiered, Next(tiered, s, es[0]), es[1..], k, Supplied(s, es[0], k, last));
    }
  }

  /**
   However calls for `k` overlap: if no write for it took effect after its value was overtaken, and none was dropped
   over another value, then once they have all returned each tier holds the value last supplied, or nothing.
   */
  lemma TiersAgreeUnlessOvertaken(tiered: bool, es: seq<Event>, k: Key)
    requires IsRun(tiered, es) && NoneOvertaken(tiered, Init, es, k, None)
    requires forall t: nat :: !Busy(After(tiered, es), t, k)
    ensures BothAgree(tiered, After(tiered, es), k, LastSupplied(tiered, Init, es, k, None))
  {
    var s, last := After(tiered, es), LastSupplied(tiered, Init, es, k, None);
    RunMends(tiered, Init, es, k, None);
    forall t: nat ensures !AheadForL1(s, t, k, last) { assert !Busy(s, t, k); }
  }

  // ---------------------------------------------------------------- calls that overlap

  lemma Prepend(s: State, e: Event, es: seq<Event>, k: Key, last: Option<Bytes>)
    requires Inv(s) && CanDo(s, e) && Runs(true, Next(true, s, e), es)
    ensures Runs(true, s, [e] + es)
    ensures Exec(true, s, [e] + es) == Exec(true, Next(true, s, e), es)
    ensures LastSupplied(true, s, [e] + es, k, last) == LastSupplied(true, Next(true, s, e), es, k, Supplied(s, e, k, last))
  {
    assert ([e] + es)[0] == e && ([e] + es)[1..] == es;
  }

  /** A step of a `Set`, with every access succeeding. */
  lemma SetStep(s: State, t: nat, env: Env)
    requires Inv(s) && t < |s.threads| && (s.threads[t].pc.SetL2? || s.threads[t].pc.SetL1?)
    requires env.l1Kept && env.l2Wrote
    ensures var k, pc := s.threads[t].key, s.threads[t].pc;
      Next(true, s, Move(t, env)) ==
        if pc.SetL2? then GoTo(s.(l2 := s.l2[k := pc.v]), t, SetL1(pc.v)) else GoTo(s.(l1 := s.l1[k := pc.v]), t, DoneSet)
  {
  }

  /** The second `Set` has written L2 and now writes L1; then the first writes L1. */
  lemma LastTwoWrites(s: State, k: Key, v: Bytes, w: Bytes, env: Env) returns (es: seq<Event>)
    requires Inv(s) && s.threads == [Thread(k, SetL1(v)), Thread(k, SetL1(w))] && env.l1Kept && env.l2Wrote
    ensures Runs(true, s, es)
    ensures var s' := Exec(true, s, es);
      && s'.threads == [Thread(k, DoneSet), Thread(k, DoneSet)]
      && s'.l1 == s.l1[k := v] && s'.l2 == s.l2
    ensures LastSupplied(true, s, es, k, Some(w)) == Some(w)
  {
    SetStep(s, 1, env);
    var s1 := Next(true, s, Move(1, env));
    SetStep(s1, 0, env);
    Prepend(s1, Move(0, env), [], k, Some(w));
    es := [Move(0, env)] + [];
    Prepend(s, Move(1, env), es, k, Some(w));
    es := [Move(1, env)] + es;
  }

  /** From two `Set`s that have arrived: the first writes L2, the second writes both tiers, the first writes L1. */
  lemma CrossedSets(s: State, k: Key, v: Bytes, w: Bytes, env: Env) returns (es: seq<Event>)
    requires Inv(s) && s.threads == [Thread(k, SetL2(v)), Thread(k, SetL2(w))] && env.l1Kept && env.l2Wrote
    ensures Runs(true, s, es)
    ensures var s' := Exec(true, s, es);
      && s'.threads == [Thread(k, DoneSet), Thread(k, DoneSet)]
      && s'.l1 == s.l1[k := v] && s'.l2 == s.l2[k := w]
    ensures LastSupplied(true, s, es, k, Some(w)) == Some(w)
  {
    SetStep(s, 0, env);
    var s1 := Next(true, s, Move(0, env));
    SetStep(s1, 1, env);
    es := LastTwoWrites(Next(true, s1, Move(1, env)), k, v, w, env);
    Prepend(s1, Move(1, env), es, k, Some(w));
    es := [Move(1, env)] + es;
    Prepend(s, Move(0, env), es, k, Some(w));
    es := [Move(0, env)] + es;
  }

  /**
   Two overlapping `Set`s, nothing lost and nothing failing: both return, and L1 keeps the first value while L2
   keeps the second, which was supplied last.
   */
  lemma OverlappingSetsDisagree(k: Key, v: Bytes, w: Bytes) returns (es: seq<Event>)
    ensures IsRun(true, es)
    ensures var s := After(true, es);
      AllFinished(s) && k in s.l1 && s.l1[k] == v && k in s.l2 && s.l2[k] == w
    ensures LastSupplied(true, Init, es, k, None) == Some(w)
  {
    var env := Env(Err(""), true, true, true);
    var first, second := Spawn(k, SetReq(v)), Spawn(k, SetReq(w));
    var s1 := Next(true, Init, first);
    var s2 := Next(true, s1, second);
    es := CrossedSets(s2, k, v, w, env);
    Prepend(s1, second, es, k, Some(v));
    Prepend(Init, first, [second] + es, k, None);
    es := [first] + ([second] + es);
  }
}
