/** What every run of the protocol guarantees: one loader in flight per key, shared outcomes, provenance. */
module SingleflightSafety {
  import opened Common
  import opened Singleflight

  /** Goroutine `t` is between inserting a call for `k` into `loads` and deleting it. */
  predicate InFlightOn(s: State, t: nat, k: Key) {
    t < |s.threads| && s.threads[t].key == k && s.threads[t].pc.InFlight()
  }

  /** `loads` holds a call for `k` exactly when one goroutine is in flight on `k`; it owns that call. */
  lemma LoadsExact(tiered: bool, es: seq<Event>, k: Key)
    requires IsRun(tiered, es)
    ensures var s := After(tiered, es);
      && (k in s.loads <==> exists t: nat :: InFlightOn(s, t, k))
      && (k in s.loads ==> s.loads[k] < |s.calls|)
      && (k in s.loads ==> forall t: nat :: InFlightOn(s, t, k) <==> t == s.calls[s.loads[k]].owner)
      && (forall t: nat :: InFlightOn(s, t, k) ==> k in s.loads && s.threads[t].pc.c == s.loads[k])
  {
    var s := After(tiered, es);
    if k in s.loads {
      assert LoadOk(s, k);
      assert InFlightOn(s, s.calls[s.loads[k]].owner, k);
    }
    forall t: nat | InFlightOn(s, t, k) ensures k in s.loads && OwnsCall(s, t, k, s.threads[t].pc.c) {
      assert ThreadOk(s, t);
    }
  }

  lemma AtMostOneLoaderPerKey(tiered: bool, es: seq<Event>, t: nat, u: nat)
    requires IsRun(tiered, es)
    requires var s := After(tiered, es);
      t < |s.threads| && u < |s.threads| && s.threads[t].key == s.threads[u].key &&
      s.threads[t].pc.Load? && s.threads[u].pc.Load?
    ensures t == u
  {
    var s := After(tiered, es);
    var k := s.threads[t].key;
    LoadsExact(tiered, es, k);
    assert InFlightOn(s, t, k) && InFlightOn(s, u, k);
  }

  /** The locked delete removes the deleter's own, released, call and nothing else. */
  lemma DeleteRemovesOwnCall(tiered: bool, es: seq<Event>, t: nat, env: Env)
    requires IsRun(tiered, es)
    requires var s := After(tiered, es); t < |s.threads| && s.threads[t].pc.Delete?
    ensures var s := After(tiered, es); var s' := Step(tiered, s, t, env); var k := s.threads[t].key;
      && k in s.loads && s.loads[k] == s.threads[t].pc.c
      && s.calls[s.loads[k]].owner == t && s.calls[s.loads[k]].released
      && k !in s'.loads
      && (forall j :: j != k ==> (j in s.loads <==> j in s'.loads))
      && (forall j :: j in s'.loads ==> s'.loads[j] == s.loads[j])
  {
    assert ThreadOk(After(tiered, es), t);
  }

  // ---------------------------------------------------------------- outcomes

  lemma NextMonotone(tiered: bool, s: State, e: Event)
    requires Inv(s) && CanDo(s, e)
    ensures var s' := Next(tiered, s, e); Monotone(s, s') && |s.threads| <= |s'.threads|
    ensures forall t: nat :: t < |s.threads| && s.threads[t].pc.Finished() ==>
      Next(tiered, s, e).threads[t] == s.threads[t]
  {
    if e.Move? { StepOnlyTouches(tiered, s, e.t, e.env); }
  }

  /** Over any continuation of a run an outcome, once written, and a result, once returned, never change. */
  lemma {:induction false} OutcomesAreFinal(tiered: bool, s: State, es: seq<Event>)
    requires Inv(s) && Runs(tiered, s, es)
    ensures var s' := Exec(tiered, s, es);
      && Monotone(s, s')
      && |s.threads| <= |s'.threads|
      && (forall t: nat :: t < |s.threads| && s.threads[t].pc.Finished() ==> s'.threads[t] == s.threads[t])
    decreases |es|
  {
    if es != [] {
      NextMonotone(tiered, s, es[0]);
      OutcomesAreFinal(tiered, Next(tiered, s, es[0]), es[1..]);
    }
  }

  /** The call a finished `GetOrSet` led or waited for. */
  predicate InCohort(s: State, t: nat, c: nat) {
    && t < |s.threads| && s.threads[t].pc.Done?
    && (s.threads[t].pc.source == Led(c) || s.threads[t].pc.source == Waited(c))
  }

  /** Leader and waiters of one call return the same value or the same error: the one the loader returned. */
  lemma CohortAgrees(tiered: bool, es: seq<Event>, c: nat, t: nat, u: nat)
    requires IsRun(tiered, es)
    requires InCohort(After(tiered, es), t, c) && InCohort(After(tiered, es), u, c)
    ensures var s := After(tiered, es);
      && s.threads[t].key == s.threads[u].key
      && s.threads[t].pc.result == s.threads[u].pc.result
      && c < |s.calls| && s.calls[c].outcome == Some(s.threads[t].pc.result)
      && (s.threads[t].pc.source.Led? && s.threads[u].pc.source.Led? ==> t == u)
  {
    var s := After(tiered, es);
    assert ThreadOk(s, t) && ThreadOk(s, u);
  }

  /** The value a goroutine is about to write to L1: that of a promotion, of a `Set`, or of its own loader. */
  ghost function ValueForL1(s: State, t: nat): Option<Bytes>
    requires t < |s.threads|
  {
    match s.threads[t].pc
    case Promote(v) => Some(v)
    case GetPromote(v) => Some(v)
    case SetL1(v) => Some(v)
    case StoreL1(c) => if HasValue(s, c) then Some(s.calls[c].outcome.value.val) else None
    case _ => None
  }

  ghost function ValueForL2(s: State, t: nat): Option<Bytes>
    requires t < |s.threads|
  {
    match s.threads[t].pc
    case SetL2(v) => Some(v)
    case StoreL2(c) => if HasValue(s, c) then Some(s.calls[c].outcome.value.val) else None
    case _ => None
  }

  /**
   What a step does to the stores: L1 takes the goroutine's value or loses the key, L2 takes it or keeps what it
   has; a goroutine without a value to write changes neither, and no other key is touched.
   */
  ghost predicate StoresFollow(s: State, s': State, t: nat, env: Env)
    requires t < |s.threads|
  {
    var k, v1, v2 := s.threads[t].key, ValueForL1(s, t), ValueForL2(s, t);
    && s'.l1 == (if v1.None? then s.l1 else if env.l1Kept then s.l1[k := v1.value] else s.l1 - {k})
    && s'.l2 == (if v2.Some? && env.l2Wrote then s.l2[k := v2.value] else s.l2)
  }

  lemma StoresChangeOnlyByWriters(tiered: bool, s: State, t: nat, env: Env)
    requires Inv(s) && Enabled(s, t)
    ensures StoresFollow(s, Step(tiered, s, t, env), t, env)
  {
    assert ThreadOk(s, t);
    if s.threads[t].pc.InFlight() {
      FlightStores(tiered, s, t, env);
    } else if !s.threads[t].pc.Stores() {
      assert Looks(s, t);
      LookTargets(tiered, s, t, env);
    }
  }

  lemma FlightStores(tiered: bool, s: State, t: nat, env: Env)
    requires t < |s.threads| && ThreadOk(s, t) && s.threads[t].pc.InFlight()
    ensures StoresFollow(s, FlightStep(tiered, s, t, env), t, env)
  {
  }

  /** A look into a store that holds the key finds what is there, and nothing where nothing is. */
  lemma LookFindsWhatIsThere(tiered: bool, s: State, t: nat, env: Env)
    requires Inv(s) && Enabled(s, t)
    ensures var s' := Step(tiered, s, t, env); var k, pc := s.threads[t].key, s.threads[t].pc;
      && t < |s'.threads|
      && var pc' := s'.threads[t].pc;
      && ((pc.CheckL1? || pc.GetL1?) && k in s.l1 ==> Returned(pc') == Some(s.l1[k]))
      && (pc.GetL1? && k !in s.l1 ==> if tiered then pc' == GetL2 else pc' == DoneGet(None))
      && (pc.CheckL1? && k !in s.l1 ==> if tiered then pc' == CheckL2 else pc' == Join)
      && (pc.CheckL2? ==> if env.l2Read && k in s.l2 then pc' == Promote(s.l2[k]) else pc' == Join)
      && (pc.GetL2? ==> if env.l2Read && k in s.l2 then pc' == GetPromote(s.l2[k]) else pc' == DoneGet(None))
  {
    assert ThreadOk(s, t);
    if !s.threads[t].pc.InFlight() && !s.threads[t].pc.Stores() { assert Looks(s, t); }
  }

  /** When the loader fails, nothing is stored and the leader goes straight to the release. */
  lemma ErrorsAreNotStored(tiered: bool, s: State, t: nat, env: Env)
    requires Inv(s) && t < |s.threads|
    requires s.threads[t].pc.InFlight()
    requires s.threads[t].pc.Load? ==> env.loader.Err?
    requires var c := s.threads[t].pc.c;
      c < |s.calls| && s.calls[c].outcome.Some? ==> s.calls[c].outcome.value.Err?
    ensures var s' := Step(tiered, s, t, env);
      && s'.l1 == s.l1 && s'.l2 == s.l2 && s'.produced == s.produced
      && (s.threads[t].pc.Load? ==> s'.threads[t].pc == Release(s.threads[t].pc.c))
  {
    assert ThreadOk(s, t);
  }

  // ---------------------------------------------------------------- provenance

  /** Event `e` supplies value `v` for key `k`: a `Set`, or a loader's return on that key. */
  ghost predicate SuppliesNow(s: State, e: Event, k: Key, v: Bytes) {
    match e
    case Spawn(j, req) => j == k && req == SetReq(v)
    case Move(t, env) => t < |s.threads| && s.threads[t].key == k && s.threads[t].pc.Load? && env.loader == Ok(v)
    case _ => false
  }

  /** Event `i` of the run supplied value `v` for key `k`: a `Set`, or a loader's return on that key. */
  ghost predicate Supplies(tiered: bool, s: State, es: seq<Event>, i: nat, k: Key, v: Bytes)
    requires Inv(s) && Runs(tiered, s, es)
    decreases |es|
  {
    && i < |es|
    && if i == 0 then
         SuppliesNow(s, es[0], k, v)
       else
         Supplies(tiered, Next(tiered, s, es[0]), es[1..], i - 1, k, v)
  }

  lemma NewlyProduced(tiered: bool, s: State, e: Event, k: Key, v: Bytes)
    requires Inv(s) && CanDo(s, e)
    requires (k, v) in Next(tiered, s, e).produced && (k, v) !in s.produced
    ensures SuppliesNow(s, e, k, v)
  {
    if e.Move? {
      assert ThreadOk(s, e.t);
      if s.threads[e.t].pc.InFlight() {
        FlightSupplies(tiered, s, e.t, e.env, k, v);
      }
    }
  }

  lemma FlightSupplies(tiered: bool, s: State, t: nat, env: Env, k: Key, v: Bytes)
    requires ThreadOk(s, t) && s.threads[t].pc.InFlight()
    requires (k, v) in FlightStep(tiered, s, t, env).produced && (k, v) !in s.produced
    ensures SuppliesNow(s, Move(t, env), k, v)
  {
  }

  /** The history variable `produced` holds only what some event of the run supplied. */
  lemma {:induction false} ProducedByAnEvent(tiered: bool, s: State, es: seq<Event>, k: Key, v: Bytes)
    returns (i: nat)
    requires Inv(s) && Runs(tiered, s, es)
    requires (k, v) in Exec(tiered, s, es).produced && (k, v) !in s.produced
    ensures Supplies(tiered, s, es, i, k, v)
    decreases |es|
  {
    var s1 := Next(tiered, s, es[0]);
    if (k, v) in s1.produced {
      i := 0;
      NewlyProduced(tiered, s, es[0], k, v);
    } else {
      var j := ProducedByAnEvent(tiered, s1, es[1..], k, v);
      i := j + 1;
    }
  }

  /** The value a finished `GetOrSet` or `Get` hands to its caller. */
  function Returned(pc: Pc): Option<Bytes> {
    match pc
    case Done(r, _) => if r.Ok? then Some(r.val) else None
    case DoneGet(found) => found
    case _ => None
  }

  /** Every value returned for a key was supplied, earlier in the run, by a `Set` or a loader for that key. */
  lemma Provenance(tiered: bool, es: seq<Event>, t: nat) returns (i: nat)
    requires IsRun(tiered, es)
    requires var s := After(tiered, es); t < |s.threads| && Returned(s.threads[t].pc).Some?
    ensures var th := After(tiered, es).threads[t];
      Supplies(tiered, Init, es, i, th.key, Returned(th.pc).value)
  {
    var s := After(tiered, es);
    assert ThreadOk(s, t);
    i := ProducedByAnEvent(tiered, Init, es, s.threads[t].key, Returned(s.threads[t].pc).value);
  }
}
