/** How often loaders run: once for every leader, and when that is once for a key. */
module SingleflightAccounting {
  import opened Common
  import opened Singleflight
  import opened SingleflightLiveness
  import opened SingleflightSafety

  // ---------------------------------------------------------------- counting

  /** The goroutines on key `k` whose program counter satisfies `p`. */
  function Count(threads: seq<Thread>, k: Key, p: Pc -> bool): nat {
    if threads == [] then 0
    else
      var last := threads[|threads| - 1];
      Count(threads[..|threads| - 1], k, p) + (if last.key == k && p(last.pc) then 1 else 0)
  }

  function One(th: Thread, k: Key, p: Pc -> bool): nat {
    if th.key == k && p(th.pc) then 1 else 0
  }

  lemma {:induction false} CountUpdate(threads: seq<Thread>, t: nat, th: Thread, k: Key, p: Pc -> bool)
    requires t < |threads|
    ensures Count(threads[t := th], k, p) == Count(threads, k, p) - One(threads[t], k, p) + One(th, k, p)
  {
    var n := |threads| - 1;
    if t < n {
      CountUpdate(threads[..n], t, th, k, p);
      assert threads[t := th][..n] == threads[..n][t := th];
    } else {
      assert threads[t := th][..n] == threads[..n];
    }
  }

  /** The calls ever registered for key `k`: one for each loader started. */
  function Registered(calls: seq<Call>, k: Key): nat {
    if calls == [] then 0
    else Registered(calls[..|calls| - 1], k) + (if calls[|calls| - 1].key == k then 1 else 0)
  }

  lemma {:induction false} RegisteredUpdate(calls: seq<Call>, c: nat, call: Call, k: Key)
    requires c < |calls| && call.key == calls[c].key
    ensures Registered(calls[c := call], k) == Registered(calls, k)
  {
    var n := |calls| - 1;
    if c < n {
      RegisteredUpdate(calls[..n], c, call, k);
      assert calls[c := call][..n] == calls[..n][c := call];
    } else {
      assert calls[c := call][..n] == calls[..n];
    }
  }

  lemma {:induction false} RegisteredWitness(calls: seq<Call>, k: Key) returns (c: nat)
    requires Registered(calls, k) > 0
    ensures c < |calls| && calls[c].key == k
  {
    c := |calls| - 1;
    if calls[c].key != k { c := RegisteredWitness(calls[..c], k); }
  }

  lemma {:induction false} RegisteredAtLeast(calls: seq<Call>, c: nat)
    requires c < |calls|
    ensures Registered(calls, calls[c].key) > 0
  {
    if c < |calls| - 1 { RegisteredAtLeast(calls[..|calls| - 1], c); }
  }

  /** Runs or ran a loader. */
  predicate Leading(pc: Pc) {
    pc.InFlight() || (pc.Done? && pc.source.Led?)
  }

  /** Ran a loader that has returned. */
  predicate Loaded(pc: Pc) {
    Leading(pc) && !pc.Load?
  }

  /** The event at which a goroutine on `k` inserts a new call and starts the loader. */
  predicate StartsLoad(s: State, e: Event, k: Key) {
    && e.Move? && e.t < |s.threads|
    && s.threads[e.t] == Thread(k, Join)
    && k !in s.loads
  }

  /** The event at which the loader of a goroutine on `k` returns. */
  predicate ReturnsLoad(s: State, e: Event, k: Key) {
    e.Move? && e.t < |s.threads| && s.threads[e.t].key == k && s.threads[e.t].pc.Load?
  }

  ghost function LoadStarts(tiered: bool, s: State, es: seq<Event>, k: Key): nat
    requires Inv(s) && Runs(tiered, s, es)
    decreases |es|
  {
    if es == [] then 0
    else (if StartsLoad(s, es[0], k) then 1 else 0) + LoadStarts(tiered, Next(tiered, s, es[0]), es[1..], k)
  }

  ghost function LoadReturns(tiered: bool, s: State, es: seq<Event>, k: Key): nat
    requires Inv(s) && Runs(tiered, s, es)
    decreases |es|
  {
    if es == [] then 0
    else (if ReturnsLoad(s, es[0], k) then 1 else 0) + LoadReturns(tiered, Next(tiered, s, es[0]), es[1..], k)
  }

  // ---------------------------------------------------------------- one loader run for each leader

  /** A step appends one call for `k` when it starts a loader for `k`; otherwise no call changes its key. */
  lemma StepRegisters(tiered: bool, s: State, t: nat, env: Env, k: Key)
    requires Inv(s) && Enabled(s, t)
    ensures Registered(Next(tiered, s, Move(t, env)).calls, k)
         == Registered(s.calls, k) + (if StartsLoad(s, Move(t, env), k) then 1 else 0)
  {
    assert ThreadOk(s, t);
    var pc := s.threads[t].pc;
    if pc.InFlight() {
      var s' := FlightStep(tiered, s, t, env);
      FlightCalls(tiered, s, t, env);
      RegisteredUpdate(s.calls, pc.c, s'.calls[pc.c], k);
    } else if pc.Stores() {
      WriteCalls(s, t, env);
    } else {
      assert Looks(s, t);
      LookCalls(tiered, s, t, env);
    }
  }

  lemma WriteCalls(s: State, t: nat, env: Env)
    requires t < |s.threads| && s.threads[t].pc.Stores()
    ensures WriteStep(s, t, env).calls == s.calls
  {
  }

  lemma FlightCalls(tiered: bool, s: State, t: nat, env: Env)
    requires ThreadOk(s, t) && s.threads[t].pc.InFlight()
    ensures var s' := FlightStep(tiered, s, t, env); var c := s.threads[t].pc.c;
      c < |s.calls| == |s'.calls| && s'.calls == s.calls[c := s'.calls[c]] && s'.calls[c].key == s.calls[c].key
  {
  }

  lemma LookCalls(tiered: bool, s: State, t: nat, env: Env)
    requires Looks(s, t)
    ensures var s' := LookStep(tiered, s, t, env); var k := s.threads[t].key;
      if StartsLoad(s, Move(t, env), k)
      then |s'.calls| == |s.calls| + 1 && s'.calls[..|s.calls|] == s.calls && s'.calls[|s.calls|].key == k
      else s'.calls == s.calls
  {
  }

  /** A step makes `t` a leader when it registers a call, and a leader with a result when its loader returns. */
  ghost predicate Phases(s: State, s': State, t: nat) {
    && t < |s.threads| && t < |s'.threads| && s'.threads[t].key == s.threads[t].key
    && var k, pc, pc' := s.threads[t].key, s.threads[t].pc, s'.threads[t].pc;
    && (Leading(pc') <==> Leading(pc) || (pc.Join? && k !in s.loads))
    && (Loaded(pc') <==> Loaded(pc) || pc.Load?)
    && (pc.Join? ==> !Leading(pc))
  }

  lemma StepPhases(tiered: bool, s: State, t: nat, env: Env)
    requires Inv(s) && Enabled(s, t)
    ensures Phases(s, Next(tiered, s, Move(t, env)), t)
  {
    assert ThreadOk(s, t);
    if s.threads[t].pc.InFlight() {
      FlightPhases(tiered, s, t, env);
    } else if s.threads[t].pc.Stores() {
      WritePhases(s, t, env);
    } else {
      assert Looks(s, t);
      LookTargets(tiered, s, t, env);
      LookPhases(s, LookStep(tiered, s, t, env), t);
    }
  }

  lemma FlightPhases(tiered: bool, s: State, t: nat, env: Env)
    requires ThreadOk(s, t) && s.threads[t].pc.InFlight()
    ensures Phases(s, FlightStep(tiered, s, t, env), t)
  {
  }

  lemma WritePhases(s: State, t: nat, env: Env)
    requires t < |s.threads| && s.threads[t].pc.Stores()
    ensures Phases(s, WriteStep(s, t, env), t)
  {
  }

  lemma LookPhases(s: State, s': State, t: nat)
    requires t < |s.threads| && t < |s'.threads| && s'.threads[t].key == s.threads[t].key
    requires LooksTo(s, s', s.threads[t].key, s.threads[t].pc, s'.threads[t].pc)
    ensures Phases(s, s', t)
  {
  }

  lemma MoveCounts(tiered: bool, s: State, t: nat, env: Env, k: Key, p: Pc -> bool)
    requires Inv(s) && Enabled(s, t)
    ensures var s' := Next(tiered, s, Move(t, env));
      && t < |s'.threads| && s'.threads[t].key == s.threads[t].key
      && Count(s'.threads, k, p) == Count(s.threads, k, p) - One(s.threads[t], k, p) + One(s'.threads[t], k, p)
  {
    var s' := Next(tiered, s, Move(t, env));
    StepOnlyTouches(tiered, s, t, env);
    assert s'.threads == s.threads[t := s'.threads[t]];
    CountUpdate(s.threads, t, s'.threads[t], k, p);
  }

  lemma MoveLeads(tiered: bool, s: State, t: nat, env: Env, k: Key)
    requires Inv(s) && Enabled(s, t)
    ensures Count(Next(tiered, s, Move(t, env)).threads, k, Leading)
      == Count(s.threads, k, Leading) + (if StartsLoad(s, Move(t, env), k) then 1 else 0)
  {
    StepPhases(tiered, s, t, env);
    MoveCounts(tiered, s, t, env, k, Leading);
  }

  lemma MoveLoads(tiered: bool, s: State, t: nat, env: Env, k: Key)
    requires Inv(s) && Enabled(s, t)
    ensures Count(Next(tiered, s, Move(t, env)).threads, k, Loaded)
      == Count(s.threads, k, Loaded) + (if ReturnsLoad(s, Move(t, env), k) then 1 else 0)
  {
    StepPhases(tiered, s, t, env);
    MoveCounts(tiered, s, t, env, k, Loaded);
  }

  lemma EventAccounts(tiered: bool, s: State, e: Event, k: Key)
    requires Inv(s) && CanDo(s, e)
    ensures var s' := Next(tiered, s, e);
      && Count(s'.threads, k, Leading) == Count(s.threads, k, Leading) + (if StartsLoad(s, e, k) then 1 else 0)
      && Count(s'.threads, k, Loaded) == Count(s.threads, k, Loaded) + (if ReturnsLoad(s, e, k) then 1 else 0)
      && Registered(s'.calls, k) == Registered(s.calls, k) + (if StartsLoad(s, e, k) then 1 else 0)
  {
    var s' := Next(tiered, s, e);
    match e {
      case Spawn(_, _) =>
        assert s'.threads[..|s.threads|] == s.threads;
      case Move(t, env) =>
        MoveLeads(tiered, s, t, env, k);
        MoveLoads(tiered, s, t, env, k);
        StepRegisters(tiered, s, t, env, k);
      case _ =>
    }
  }

  /** Over any continuation, loaders start, run and return one for one with the goroutines that lead. */
  lemma {:induction false} LoadersMatchLeaders(tiered: bool, s: State, es: seq<Event>, k: Key)
    requires Inv(s) && Runs(tiered, s, es)
    ensures var s' := Exec(tiered, s, es);
      && Count(s'.threads, k, Leading) == Count(s.threads, k, Leading) + LoadStarts(tiered, s, es, k)
      && Count(s'.threads, k, Loaded) == Count(s.threads, k, Loaded) + LoadReturns(tiered, s, es, k)
      && Registered(s'.calls, k) == Registered(s.calls, k) + LoadStarts(tiered, s, es, k)
    decreases |es|
  {
    if es != [] {
      EventAccounts(tiered, s, es[0], k);
      LoadersMatchLeaders(tiered, Next(tiered, s, es[0]), es[1..], k);
    }
  }

  lemma {:induction false} LeadingIsLoaded(threads: seq<Thread>, k: Key)
    requires forall t: nat :: t < |threads| ==> threads[t].pc.Finished()
    ensures Count(threads, k, Leading) == Count(threads, k, Loaded)
  {
    if threads != [] { LeadingIsLoaded(threads[..|threads| - 1], k); }
  }

  /** In a run whose goroutines have all finished, the loader ran once for each goroutine that led. */
  lemma LoaderRunsEqualLeaders(tiered: bool, es: seq<Event>, k: Key)
    requires IsRun(tiered, es) && AllFinished(After(tiered, es))
    ensures LoadStarts(tiered, Init, es, k) == LoadReturns(tiered, Init, es, k)
         == Count(After(tiered, es).threads, k, Leading)
         == Registered(After(tiered, es).calls, k)
  {
    LoadersMatchLeaders(tiered, Init, es, k);
    LeadingIsLoaded(After(tiered, es).threads, k);
  }

  // ---------------------------------------------------------------- when the loader runs again

  /** The event takes key `k` from L1, leaves it out, or ends its load with an error. */
  predicate Mishap(s: State, e: Event, k: Key) {
    match e
    case LoseL1(j) => j == k
    case Move(t, env) =>
      t < |s.threads| && s.threads[t].key == k &&
      (match s.threads[t].pc
       case Load(_) => env.loader.Err?
       case StoreL1(_) => !env.l1Kept
       case SetL1(_) => !env.l1Kept
       case Promote(_) => !env.l1Kept
       case GetPromote(_) => !env.l1Kept
       case _ => false)
    case _ => false
  }

  /** A goroutine registers a call for `k`, under the lock, while L1 already holds `k`. */
  predicate StartsWarm(s: State, e: Event, k: Key) {
    StartsLoad(s, e, k) && k in s.l1
  }

  ghost function Mishaps(tiered: bool, s: State, es: seq<Event>, k: Key): nat
    requires Inv(s) && Runs(tiered, s, es)
    decreases |es|
  {
    if es == [] then 0
    else (if Mishap(s, es[0], k) then 1 else 0) + Mishaps(tiered, Next(tiered, s, es[0]), es[1..], k)
  }

  ghost function WarmStarts(tiered: bool, s: State, es: seq<Event>, k: Key): nat
    requires Inv(s) && Runs(tiered, s, es)
    decreases |es|
  {
    if es == [] then 0
    else (if StartsWarm(s, es[0], k) then 1 else 0) + WarmStarts(tiered, Next(tiered, s, es[0]), es[1..], k)
  }

  /** The leader of `k` has its load, and the store in L1, still before it. */
  predicate Pending(s: State, k: Key) {
    && k in s.loads && s.loads[k] < |s.calls| && s.calls[s.loads[k]].owner < |s.threads|
    && var pc := s.threads[s.calls[s.loads[k]].owner].pc; pc.Load? || pc.StoreL2? || pc.StoreL1?
  }

  /** `k` is in L1, or on its way there. */
  predicate Held(s: State, k: Key) {
    k in s.l1 || Pending(s, k)
  }

  /** A key in L1 stays there unless something goes wrong for it. */
  lemma KeptInL1(tiered: bool, s: State, t: nat, env: Env, k: Key)
    requires Inv(s) && Enabled(s, t) && k in s.l1
    ensures Mishap(s, Move(t, env), k) || k in Step(tiered, s, t, env).l1
  {
    StoresChangeOnlyByWriters(tiered, s, t, env);
  }

  /** The leader's own steps bring the key to L1 unless something goes wrong for it. */
  lemma LeaderBringsIt(tiered: bool, s: State, t: nat, env: Env)
    requires t < |s.threads| && ThreadOk(s, t)
    requires s.threads[t].pc.Load? || s.threads[t].pc.StoreL2? || s.threads[t].pc.StoreL1?
    ensures var k := s.threads[t].key; Mishap(s, Move(t, env), k) || Held(FlightStep(tiered, s, t, env), k)
  {
  }

  lemma PendingKept(tiered: bool, s: State, t: nat, env: Env, k: Key)
    requires Inv(s) && Enabled(s, t) && Pending(s, k)
    ensures Mishap(s, Move(t, env), k) || Held(Step(tiered, s, t, env), k)
  {
    var owner := s.calls[s.loads[k]].owner;
    assert LoadOk(s, k) && ThreadOk(s, t) && ThreadOk(s, owner);
    if t == owner {
      LeaderBringsIt(tiered, s, t, env);
    } else {
      StepOnlyTouches(tiered, s, t, env);
      var s' := Step(tiered, s, t, env);
      assert s'.threads[owner] == s.threads[owner];
      assert k in s'.loads && s'.loads[k] == s.loads[k];
      assert Grows(s.calls[s.loads[k]], s'.calls[s.loads[k]]);
    }
  }

  lemma NewCallIsPending(tiered: bool, s: State, t: nat, env: Env)
    requires Looks(s, t) && s.threads[t].pc.Join? && s.threads[t].key !in s.loads
    ensures Pending(LookStep(tiered, s, t, env), s.threads[t].key)
  {
  }

  /** A key that is held stays held unless something goes wrong for it, and a new call makes it held. */
  lemma HeldKept(tiered: bool, s: State, e: Event, k: Key)
    requires Inv(s) && CanDo(s, e)
    ensures Held(s, k) ==> Mishap(s, e, k) || Held(Next(tiered, s, e), k)
    ensures StartsLoad(s, e, k) ==> Held(Next(tiered, s, e), k)
  {
    if e.Move? {
      assert ThreadOk(s, e.t);
      if StartsLoad(s, e, k) {
        assert Looks(s, e.t);
        NewCallIsPending(tiered, s, e.t, e.env);
      } else if k in s.l1 {
        KeptInL1(tiered, s, e.t, e.env, k);
      } else if Pending(s, k) {
        PendingKept(tiered, s, e.t, e.env, k);
      }
    }
  }

  /**
   Over every run, under all losses, failures and `Set`s: a loader for `k` starts at most once, and once more for
   each time that something goes wrong for `k` and for each start that the missing second look would have spared.
   */
  lemma {:induction false} LoadStartsBounded(tiered: bool, s: State, es: seq<Event>, k: Key)
    requires Inv(s) && Runs(tiered, s, es)
    ensures LoadStarts(tiered, s, es, k) + (if Held(s, k) then 1 else 0)
         <= WarmStarts(tiered, s, es, k) + Mishaps(tiered, s, es, k) + (if Held(Exec(tiered, s, es), k) then 1 else 0)
    decreases |es|
  {
    if es != [] {
      HeldKept(tiered, s, es[0], k);
      LoadStartsBounded(tiered, Next(tiered, s, es[0]), es[1..], k);
    }
  }

  /** Nothing goes wrong for `k`, and nobody calls `Set` for it; other keys and L2 may fare as they will. */
  predicate Quiet(s: State, e: Event, k: Key) {
    !Mishap(s, e, k) && !(e.Spawn? && e.key == k && e.req.SetReq?)
  }

  ghost predicate QuietRun(tiered: bool, s: State, es: seq<Event>, k: Key)
    requires Inv(s) && Runs(tiered, s, es)
    decreases |es|
  {
    es != [] ==> Quiet(s, es[0], k) && QuietRun(tiered, Next(tiered, s, es[0]), es[1..], k)
  }

  ghost predicate TracedThread(s: State, t: nat, k: Key) {
    t < |s.threads| && s.threads[t].key == k ==>
      && !s.threads[t].pc.SetL1? && !s.threads[t].pc.SetL2?
      && (s.threads[t].pc.Promote? || s.threads[t].pc.GetPromote? ==> Registered(s.calls, k) > 0)
  }

  /** What the stores hold for `k`, or a promotion carries, a loader brought. */
  ghost predicate Traced(s: State, k: Key) {
    && (k in s.l1 || k in s.l2 ==> Registered(s.calls, k) > 0)
    && forall t: nat :: TracedThread(s, t, k)
  }

  lemma TracedStores(tiered: bool, s: State, t: nat, env: Env, k: Key)
    requires Inv(s) && Enabled(s, t) && Traced(s, k)
    ensures var s' := Step(tiered, s, t, env); k in s'.l1 || k in s'.l2 ==> Registered(s.calls, k) > 0
  {
    assert ThreadOk(s, t) && TracedThread(s, t, k);
    StoresChangeOnlyByWriters(tiered, s, t, env);
    if s.threads[t].key == k && s.threads[t].pc.InFlight() { RegisteredAtLeast(s.calls, s.threads[t].pc.c); }
  }

  /** Where a step leaves its goroutine: no `Set` begins, and a promotion only on an L2 hit. */
  lemma NextPc(tiered: bool, s: State, t: nat, env: Env)
    requires Inv(s) && Enabled(s, t)
    ensures var s' := Step(tiered, s, t, env); var k, pc := s.threads[t].key, s.threads[t].pc;
      && t < |s'.threads| && s'.threads[t].key == k
      && !s'.threads[t].pc.SetL2? && (s'.threads[t].pc.SetL1? ==> pc.SetL2?)
      && (s'.threads[t].pc.Promote? || s'.threads[t].pc.GetPromote? ==> k in s.l2)
  {
    assert ThreadOk(s, t);
    if s.threads[t].pc.InFlight() {
      FlightPhases(tiered, s, t, env);
    } else if s.threads[t].pc.Stores() {
      NextPcOfWrite(s, t, env);
    } else {
      assert Looks(s, t);
      LookTargets(tiered, s, t, env);
    }
  }

  lemma NextPcOfWrite(s: State, t: nat, env: Env)
    requires t < |s.threads| && s.threads[t].pc.Stores()
    ensures var s' := WriteStep(s, t, env); var pc' := s'.threads[t].pc;
      && t < |s'.threads| && s'.threads[t].key == s.threads[t].key
      && !pc'.SetL2? && !pc'.Promote? && !pc'.GetPromote? && (pc'.SetL1? ==> s.threads[t].pc.SetL2?)
  {
  }

  lemma TracedThreads(tiered: bool, s: State, t: nat, env: Env, k: Key, u: nat)
    requires Inv(s) && Enabled(s, t) && Traced(s, k)
    requires Registered(Step(tiered, s, t, env).calls, k) >= Registered(s.calls, k)
    ensures TracedThread(Step(tiered, s, t, env), u, k)
  {
    assert TracedThread(s, u, k);
    if u == t { NextPc(tiered, s, t, env); } else { StepOnlyTouches(tiered, s, t, env); }
  }

  lemma TracedUnmoved(tiered: bool, s: State, e: Event, k: Key)
    requires Inv(s) && CanDo(s, e) && !e.Move? && Quiet(s, e, k) && Traced(s, k)
    ensures Traced(Next(tiered, s, e), k)
  {
    var s' := Next(tiered, s, e);
    forall u: nat ensures TracedThread(s', u, k) { assert TracedThread(s, u, k); }
  }

  lemma TracedKept(tiered: bool, s: State, e: Event, k: Key)
    requires Inv(s) && CanDo(s, e) && Quiet(s, e, k) && Traced(s, k)
    ensures Traced(Next(tiered, s, e), k)
  {
    if e.Move? {
      var s' := Next(tiered, s, e);
      EventAccounts(tiered, s, e, k);
      TracedStores(tiered, s, e.t, e.env, k);
      forall u: nat ensures TracedThread(s', u, k) { TracedThreads(tiered, s, e.t, e.env, k, u); }
    } else {
      TracedUnmoved(tiered, s, e, k);
    }
  }

  /** In a quiet run, with no call in flight, L1 holds `k` exactly when a loader for it was started before. */
  lemma {:induction false} WarmIffLoadedBefore(tiered: bool, s: State, es: seq<Event>, k: Key)
    requires Inv(s) && Runs(tiered, s, es) && QuietRun(tiered, s, es, k)
    requires Traced(s, k) && (Registered(s.calls, k) > 0 ==> Held(s, k))
    ensures var s' := Exec(tiered, s, es);
      && (Registered(s'.calls, k) > 0 <==> Held(s', k) || k in s'.loads)
      && (k !in s'.loads ==> (k in s'.l1 <==> Registered(s'.calls, k) > 0))
    decreases |es|
  {
    if es == [] {
      if k in s.loads {
        assert LoadOk(s, k);
        RegisteredAtLeast(s.calls, s.loads[k]);
      }
    } else {
      HeldKept(tiered, s, es[0], k);
      TracedKept(tiered, s, es[0], k);
      EventAccounts(tiered, s, es[0], k);
      WarmIffLoadedBefore(tiered, Next(tiered, s, es[0]), es[1..], k);
    }
  }

  /** In a quiet run a warm start is never the first. */
  lemma {:induction false} WarmStartIsNotFirst(tiered: bool, s: State, es: seq<Event>, k: Key)
    requires Inv(s) && Runs(tiered, s, es) && QuietRun(tiered, s, es, k) && Traced(s, k)
    ensures Mishaps(tiered, s, es, k) == 0
    ensures WarmStarts(tiered, s, es, k) > 0 ==> Registered(s.calls, k) + LoadStarts(tiered, s, es, k) >= 2
    decreases |es|
  {
    if es != [] {
      EventAccounts(tiered, s, es[0], k);
      TracedKept(tiered, s, es[0], k);
      WarmStartIsNotFirst(tiered, Next(tiered, s, es[0]), es[1..], k);
    }
  }

  /**
   "Calls the loader exactly once": where nothing goes wrong for `k` and nobody sets it, the loader starts at most
   once exactly when no goroutine registers its call while L1 already holds `k`. That is the look the code does not
   take again under the lock.
   */
  lemma LoadedOnceIff(tiered: bool, es: seq<Event>, k: Key)
    requires IsRun(tiered, es) && QuietRun(tiered, Init, es, k)
    ensures LoadStarts(tiered, Init, es, k) <= 1 <==> WarmStarts(tiered, Init, es, k) == 0
  {
    LoadStartsBounded(tiered, Init, es, k);
    WarmStartIsNotFirst(tiered, Init, es, k);
  }

  /** A quiet way to go on in which a loader for `k` starts. */
  ghost predicate LoadsIn(tiered: bool, s: State, es: seq<Event>, k: Key)
    requires Inv(s)
  {
    Runs(tiered, s, es) && QuietRun(tiered, s, es, k) && LoadStarts(tiered, s, es, k) > 0
  }

  /** Goroutine `t` has missed `k` in L1 and has not taken the lock yet. */
  predicate Missed(s: State, t: nat, k: Key) {
    t < |s.threads| && s.threads[t].key == k && (s.threads[t].pc.CheckL2? || s.threads[t].pc.Join?)
  }

  lemma LoadsLater(tiered: bool, s: State, e: Event, es: seq<Event>, k: Key)
    requires Inv(s) && CanDo(s, e) && Quiet(s, e, k) && LoadsIn(tiered, Next(tiered, s, e), es, k)
    ensures LoadsIn(tiered, s, [e] + es, k)
  {
    assert ([e] + es)[0] == e && ([e] + es)[1..] == es;
  }

  lemma LoadsAtOnce(tiered: bool, s: State, t: nat, env: Env, k: Key)
    requires Inv(s) && t < |s.threads| && s.threads[t] == Thread(k, Join) && k !in s.loads
    ensures LoadsIn(tiered, s, [Move(t, env)], k)
  {
    assert [Move(t, env)][1..] == [];
  }

  /** The way on: the leader, if there is one, ends its flight, and the goroutine that missed leads a load. */
  lemma {:induction false} MissedLoads(tiered: bool, s: State, t: nat, k: Key) returns (es: seq<Event>)
    requires Inv(s) && Missed(s, t, k)
    ensures LoadsIn(tiered, s, es, k)
    decreases Measure(s.threads)
  {
    var env := Env(Ok([]), true, true, false);
    if s.threads[t].pc.Join? && k !in s.loads {
      es := [Move(t, env)];
      LoadsAtOnce(tiered, s, t, env, k);
    } else {
      var u := t;
      if k in s.loads {
        assert LoadOk(s, k);
        u := s.calls[s.loads[k]].owner;
      }
      MissedStays(tiered, s, t, u, env, k);
      StepDecreases(tiered, s, u, env);
      es := MissedLoads(tiered, Next(tiered, s, Move(u, env)), t, k);
      LoadsLater(tiered, s, Move(u, env), es, k);
      es := [Move(u, env)] + es;
    }
  }

  lemma MissedStays(tiered: bool, s: State, t: nat, u: nat, env: Env, k: Key)
    requires Inv(s) && Missed(s, t, k) && !env.l2Read
    requires u < |s.threads| && (s.threads[u].pc.InFlight() || (u == t && s.threads[t].pc.CheckL2?))
    ensures Enabled(s, u) && Missed(Step(tiered, s, u, env), t, k)
  {
    StepOnlyTouches(tiered, s, u, env);
    if u == t { assert Looks(s, t); }
  }

  /** With `k` in L1 and nobody having missed it, that stays so. */
  lemma NobodyMisses(tiered: bool, s: State, e: Event, k: Key, t: nat)
    requires Inv(s) && CanDo(s, e) && k in s.l1 && !Missed(s, t, k)
    ensures !Missed(Next(tiered, s, e), t, k)
  {
    if e.Move? {
      StepOnlyTouches(tiered, s, e.t, e.env);
      if t == e.t && s.threads[t].key == k { MoverMissesNot(tiered, s, t, e.env); }
    }
  }

  lemma MoverMissesNot(tiered: bool, s: State, t: nat, env: Env)
    requires Inv(s) && Enabled(s, t) && s.threads[t].key in s.l1 && !Missed(s, t, s.threads[t].key)
    ensures !Missed(Step(tiered, s, t, env), t, s.threads[t].key)
  {
    assert ThreadOk(s, t);
    if s.threads[t].pc.InFlight() {
      FlightTargets(tiered, s, t, env);
    } else if !s.threads[t].pc.Stores() {
      assert Looks(s, t);
      LookTargets(tiered, s, t, env);
    }
  }

  lemma {:induction false} NoLoadAhead(tiered: bool, s: State, es: seq<Event>, k: Key)
    requires Inv(s) && Runs(tiered, s, es) && QuietRun(tiered, s, es, k)
    requires k in s.l1 && forall t: nat :: !Missed(s, t, k)
    ensures LoadStarts(tiered, s, es, k) == 0
    decreases |es|
  {
    if es != [] {
      var e := es[0];
      var s' := Next(tiered, s, e);
      if e.Move? {
        assert !Missed(s, e.t, k);
        KeptInL1(tiered, s, e.t, e.env, k);
      }
      forall t: nat ensures !Missed(s', t, k) { NobodyMisses(tiered, s, e, k, t); }
      NoLoadAhead(tiered, s', es[1..], k);
    }
  }

  /**
   Seen from any state in which L1 holds `k`: however it goes on, quietly for `k`, no loader for it starts again,
   exactly when no goroutine has missed it and is still to take the lock.
   */
  lemma LoadsNoMoreIff(tiered: bool, s: State, k: Key)
    requires Inv(s) && k in s.l1
    ensures (forall es: seq<Event> :: !LoadsIn(tiered, s, es, k)) <==> forall t: nat :: !Missed(s, t, k)
  {
    if t: nat :| Missed(s, t, k) {
      var es := MissedLoads(tiered, s, t, k);
    } else {
      forall es: seq<Event> ensures !LoadsIn(tiered, s, es, k) {
        if Runs(tiered, s, es) && QuietRun(tiered, s, es, k) { NoLoadAhead(tiered, s, es, k); }
      }
    }
  }

  /** Calls for `k` do not overlap: each arrives when all earlier ones have returned. */
  ghost predicate NoOverlap(tiered: bool, s: State, es: seq<Event>, k: Key)
    requires Inv(s) && Runs(tiered, s, es)
    decreases |es|
  {
    es != [] ==>
      && (es[0].Spawn? && es[0].key == k ==> forall t: nat :: !Busy(s, t, k))
      && NoOverlap(tiered, Next(tiered, s, es[0]), es[1..], k)
  }

  predicate Busy(s: State, t: nat, k: Key) {
    t < |s.threads| && s.threads[t].key == k && !s.threads[t].pc.Finished()
  }

  /** Goroutine `t` has missed `k` in L1, and still would. */
  predicate StillMisses(s: State, t: nat, k: Key) {
    t < |s.threads| && s.threads[t].key == k && (s.threads[t].pc.CheckL2? || s.threads[t].pc.Join?) ==> k !in s.l1
  }

  /** At most one goroutine is busy on `k`, and what it missed is still missing. */
  ghost predicate Lone(s: State, k: Key) {
    && (forall t: nat, u: nat :: Busy(s, t, k) && Busy(s, u, k) ==> t == u)
    && (forall t: nat :: StillMisses(s, t, k))
  }

  lemma LoneStep(tiered: bool, s: State, t: nat, env: Env, k: Key, u: nat)
    requires Inv(s) && Enabled(s, t) && Lone(s, k)
    ensures var s' := Step(tiered, s, t, env); StillMisses(s', u, k) && (Busy(s', u, k) ==> Busy(s, u, k))
  {
    StepOnlyTouches(tiered, s, t, env);
    StoresChangeOnlyByWriters(tiered, s, t, env);
    assert StillMisses(s, u, k) && (Busy(s, t, k) && Busy(s, u, k) ==> t == u);
    if u == t && s.threads[t].key == k { MissesNext(tiered, s, t, env); }
  }

  lemma MissesNext(tiered: bool, s: State, t: nat, env: Env)
    requires Inv(s) && Enabled(s, t) && StillMisses(s, t, s.threads[t].key)
    ensures StillMisses(Step(tiered, s, t, env), t, s.threads[t].key)
  {
    assert ThreadOk(s, t);
    if !s.threads[t].pc.InFlight() && !s.threads[t].pc.Stores() {
      assert Looks(s, t);
      LookTargets(tiered, s, t, env);
    }
  }

  lemma LoneKept(tiered: bool, s: State, e: Event, k: Key)
    requires Inv(s) && CanDo(s, e) && Lone(s, k)
    requires e.Spawn? && e.key == k ==> forall t: nat :: !Busy(s, t, k)
    ensures Lone(Next(tiered, s, e), k)
  {
    var s' := Next(tiered, s, e);
    forall u: nat ensures StillMisses(s', u, k) && (u < |s.threads| && Busy(s', u, k) ==> Busy(s, u, k)) {
      assert StillMisses(s, u, k);
      if e.Move? { LoneStep(tiered, s, e.t, e.env, k, u); }
    }
    if e.Move? { StepOnlyTouches(tiered, s, e.t, e.env); }
  }

  /** Without overlap nobody leads while L1 holds the key: a second load takes two calls at a time. */
  lemma {:induction false} NoOverlapNoWarmStart(tiered: bool, s: State, es: seq<Event>, k: Key)
    requires Inv(s) && Runs(tiered, s, es) && NoOverlap(tiered, s, es, k) && Lone(s, k)
    ensures WarmStarts(tiered, s, es, k) == 0
    decreases |es|
  {
    if es != [] {
      if StartsLoad(s, es[0], k) { assert StillMisses(s, es[0].t, k); }
      LoneKept(tiered, s, es[0], k);
      NoOverlapNoWarmStart(tiered, Next(tiered, s, es[0]), es[1..], k);
    }
  }

  /** Callers who take turns on a key get its loader started at most once, and once more for each mishap. */
  lemma TurnsLoadOnce(tiered: bool, es: seq<Event>, k: Key)
    requires IsRun(tiered, es) && NoOverlap(tiered, Init, es, k)
    ensures LoadStarts(tiered, Init, es, k) <= 1 + Mishaps(tiered, Init, es, k)
  {
    NoOverlapNoWarmStart(tiered, Init, es, k);
    LoadStartsBounded(tiered, Init, es, k);
  }

  /** Nothing goes wrong for any key, in either tier, and nobody calls `Set`. */
  predicate Calm(e: Event) {
    match e
    case Spawn(_, req) => !req.SetReq?
    case Move(_, env) => env.loader.Ok? && env.l1Kept && env.l2Wrote && env.l2Read
    case _ => false
  }

  predicate AllCalm(es: seq<Event>) {
    forall i :: 0 <= i < |es| ==> Calm(es[i])
  }

  lemma {:induction false} CalmIsQuiet(tiered: bool, s: State, es: seq<Event>, k: Key)
    requires Inv(s) && Runs(tiered, s, es) && AllCalm(es)
    ensures QuietRun(tiered, s, es, k)
    decreases |es|
  {
    if es != [] {
      assert Calm(es[0]);
      CalmIsQuiet(tiered, Next(tiered, s, es[0]), es[1..], k);
    }
  }

  lemma PrependEvent(tiered: bool, s: State, e: Event, es: seq<Event>, k: Key)
    requires Inv(s) && CanDo(s, e) && Runs(tiered, Next(tiered, s, e), es)
    ensures Runs(tiered, s, [e] + es)
    ensures LoadStarts(tiered, s, [e] + es, k)
         == (if StartsLoad(s, e, k) then 1 else 0) + LoadStarts(tiered, Next(tiered, s, e), es, k)
  {
    assert ([e] + es)[1..] == es;
  }

  /** Two goroutines on the same key: the first in flight, the second about to take the lock. */
  ghost predicate LateJoiner(s: State) {
    && Inv(s) && |s.threads| == 2
    && s.threads[0].key == "k" && s.threads[1] == Thread("k", Join)
  }

  lemma FlightGoesOn(s: State, env: Env)
    requires LateJoiner(s) && s.threads[0].pc.InFlight()
    ensures var s' := Next(false, s, Move(0, env));
      && LateJoiner(s')
      && (if s.threads[0].pc.Delete? then "k" !in s'.loads else s'.threads[0].pc.InFlight())
      && Measure(s'.threads) < Measure(s.threads)
  {
    assert ThreadOk(s, 0);
    StepOnlyTouches(false, s, 0, env);
    StepDecreases(false, s, 0, env);
  }

  lemma LateJoinerLeads(s: State, env: Env)
    requires LateJoiner(s) && "k" !in s.loads
    ensures Runs(false, s, [Move(1, env)]) && LoadStarts(false, s, [Move(1, env)], "k") == 1
  {
    PrependEvent(false, s, Move(1, env), [], "k");
    assert [Move(1, env)] + [] == [Move(1, env)];
  }

  /** A leader that loads, stores, releases and deletes, and a late goroutine that then leads again. */
  lemma {:induction false} LateJoinerLoadsAgain(s: State, env: Env) returns (es: seq<Event>)
    requires LateJoiner(s) && s.threads[0].pc.InFlight() && Calm(Move(0, env))
    ensures Runs(false, s, es) && AllCalm(es) && LoadStarts(false, s, es, "k") == 1
    decreases Measure(s.threads)
  {
    FlightGoesOn(s, env);
    var s' := Next(false, s, Move(0, env));
    if s.threads[0].pc.Delete? {
      LateJoinerLeads(s', env);
      es := [Move(1, env)];
    } else {
      es := LateJoinerLoadsAgain(s', env);
    }
    PrependEvent(false, s, Move(0, env), es, "k");
    es := [Move(0, env)] + es;
  }

  /** Both goroutines have missed; the first one takes the lock. */
  lemma BothMissed(s: State, env: Env) returns (es: seq<Event>)
    requires LateJoiner(s) && s.threads[0].pc == Join && "k" !in s.loads && Calm(Move(0, env))
    ensures Runs(false, s, es) && AllCalm(es) && LoadStarts(false, s, es, "k") == 2
  {
    es := LateJoinerLoadsAgain(Next(false, s, Move(0, env)), env);
    PrependEvent(false, s, Move(0, env), es, "k");
    es := [Move(0, env)] + es;
  }

  /** Both goroutines look into an empty L1. */
  lemma BothMiss(s: State, env: Env) returns (es: seq<Event>)
    requires Inv(s) && s.threads == [Thread("k", CheckL1), Thread("k", CheckL1)]
    requires "k" !in s.l1 && "k" !in s.loads && Calm(Move(0, env))
    ensures Runs(false, s, es) && AllCalm(es) && LoadStarts(false, s, es, "k") == 2
  {
    var s1 := Next(false, s, Move(0, env));
    assert s1.threads == [Thread("k", Join), Thread("k", CheckL1)];
    es := BothMissed(Next(false, s1, Move(1, env)), env);
    PrependEvent(false, s1, Move(1, env), es, "k");
    es := [Move(1, env)] + es;
    PrependEvent(false, s, Move(0, env), es, "k");
    es := [Move(0, env)] + es;
  }

  /**
   A calm run of `L1` in which the loader of one key runs twice: both goroutines miss, the first loads,
   stores and deletes its call, and only then does the second take the lock.
   */
  lemma LoaderCanRunTwice() returns (es: seq<Event>)
    ensures IsRun(false, es) && AllCalm(es) && LoadStarts(false, Init, es, "k") == 2
  {
    var env := Env(Ok([7]), true, true, true);
    var go := Spawn("k", GetOrSetReq);
    var s1 := Next(false, Init, go);
    es := BothMiss(Next(false, s1, go), env);
    PrependEvent(false, s1, go, es, "k");
    es := [go] + es;
    PrependEvent(false, Init, go, es, "k");
    es := [go] + es;
  }
}
