/**
 The concurrent protocol of `L1` and `Tiered`: any number of goroutines run `GetOrSet`, `Get` and
 `Set`, and every atomic region of the code is one step. `tiered` selects which of the two caches is
 meant: `L1` goes from the L1 check straight to the lock and writes no second tier.

 A goroutine is its program counter. A `call` object is an index into `calls`.
 Both stores may lose an entry between any two steps.
 */
module Singleflight {
  import opened Common

  /** Where a finished `GetOrSet` got its result. */
  datatype Source = L1Hit | L2Hit | Led(call: nat) | Waited(call: nat)

  /** The next atomic region of a goroutine. */
  datatype Pc =
    | CheckL1 | CheckL2 | Promote(v: Bytes) | Join
    | Load(c: nat) | StoreL2(c: nat) | StoreL1(c: nat) | Release(c: nat) | Delete(c: nat)
    | Wait(c: nat)
    | Done(result: Outcome, source: Source)
    | GetL1 | GetL2 | GetPromote(v: Bytes) | DoneGet(found: Option<Bytes>)
    | SetL2(v: Bytes) | SetL1(v: Bytes) | DoneSet
  {
    /** Between inserting a call into `loads` and deleting it. */
    predicate InFlight() {
      Load? || StoreL2? || StoreL1? || Release? || Delete?
    }

    /** About to write a store outside a flight. */
    predicate Stores() {
      Promote? || GetPromote? || SetL2? || SetL1?
    }

    predicate Finished() {
      Done? || DoneGet? || DoneSet?
    }

    /** Became the leader of call `k`, whether or not it has returned yet. */
    predicate Leads(k: nat) {
      (InFlight() && c == k) || (Done? && source == Led(k))
    }
  }

  datatype Thread = Thread(key: Key, pc: Pc)

  /** The `call` record; `owner` is history: the goroutine that inserted it. */
  datatype Call = Call(key: Key, owner: nat, outcome: Option<Outcome>, released: bool)

  /** `produced` is history: every key/value pair a `Set` or a loader has supplied so far. */
  datatype State = State(
    threads: seq<Thread>,
    loads: map<Key, nat>,
    calls: seq<Call>,
    l1: map<Key, Bytes>,
    l2: map<Key, Bytes>,
    produced: set<(Key, Bytes)>
  )

  /** What the surroundings decide in one step: the loader's return and which store accesses succeed. */
  datatype Env = Env(loader: Outcome, l1Kept: bool, l2Wrote: bool, l2Read: bool)

  datatype Request = GetOrSetReq | GetReq | SetReq(v: Bytes)

  datatype Event =
    | Spawn(key: Key, req: Request)
    | Move(t: nat, env: Env)
    | LoseL1(key: Key)
    | LoseL2(key: Key)

  const Init := State([], map[], [], map[], map[], {})

  // ---------------------------------------------------------------- the invariant

  ghost predicate CallRef(s: State, k: Key, c: nat) {
    c < |s.calls| && s.calls[c].key == k
  }

  /** Goroutine `t` is in flight with call `c`, and `c` is registered in its name. */
  ghost predicate OwnsCall(s: State, t: nat, k: Key, c: nat) {
    && CallRef(s, k, c)
    && s.calls[c].owner == t
    && k in s.loads
    && s.loads[k] == c
  }

  ghost predicate ThreadOk(s: State, t: nat) {
    && t < |s.threads|
    && PcOk(s, t, s.threads[t].key, s.threads[t].pc)
  }

  ghost predicate PcOk(s: State, t: nat, k: Key, pc: Pc) {
    match pc
    case Load(c) => OwnsCall(s, t, k, c) && s.calls[c].outcome.None? && !s.calls[c].released
    case StoreL2(c) => OwnsCall(s, t, k, c) && HasValue(s, c) && !s.calls[c].released
    case StoreL1(c) => OwnsCall(s, t, k, c) && HasValue(s, c) && !s.calls[c].released
    case Release(c) => OwnsCall(s, t, k, c) && s.calls[c].outcome.Some? && !s.calls[c].released
    case Delete(c) => OwnsCall(s, t, k, c) && s.calls[c].outcome.Some? && s.calls[c].released
    case Wait(c) =>
      CallRef(s, k, c) && (s.calls[c].released || (k in s.loads && s.loads[k] == c))
    case Done(r, src) =>
      && (r.Ok? ==> (k, r.val) in s.produced)
      && (src.Led? ==> CallRef(s, k, src.call) && s.calls[src.call].owner == t &&
                       s.calls[src.call].released && s.calls[src.call].outcome == Some(r))
      && (src.Waited? ==> CallRef(s, k, src.call) && s.calls[src.call].outcome == Some(r))
      && (src.L1Hit? || src.L2Hit? ==> r.Ok?)
    case Promote(v) => (k, v) in s.produced
    case GetPromote(v) => (k, v) in s.produced
    case SetL2(v) => (k, v) in s.produced
    case SetL1(v) => (k, v) in s.produced
    case DoneGet(found) => found.Some? ==> (k, found.value) in s.produced
    case _ => true
  }

  ghost predicate HasValue(s: State, c: nat) {
    c < |s.calls| && s.calls[c].outcome.Some? && s.calls[c].outcome.value.Ok?
  }

  /** A call belongs to exactly one leader, its owner, and is released only with an outcome. */
  ghost predicate CallOk(s: State, c: nat) {
    && c < |s.calls|
    && var call := s.calls[c];
    && call.owner < |s.threads|
    && s.threads[call.owner].key == call.key
    && s.threads[call.owner].pc.Leads(c)
    && (call.released ==> call.outcome.Some?)
    && (call.outcome.Some? && call.outcome.value.Ok? ==> (call.key, call.outcome.value.val) in s.produced)
  }

  ghost predicate LoadOk(s: State, k: Key) {
    && k in s.loads
    && var c := s.loads[k];
    && c < |s.calls|
    && s.calls[c].key == k
    && s.calls[c].owner < |s.threads|
    && s.threads[s.calls[c].owner].key == k
    && s.threads[s.calls[c].owner].pc.InFlight()
  }

  ghost predicate Inv(s: State) {
    && (forall t: nat :: t < |s.threads| ==> ThreadOk(s, t))
    && (forall c: nat :: c < |s.calls| ==> CallOk(s, c))
    && (forall k :: k in s.loads ==> LoadOk(s, k))
    && StoresProduced(s)
  }

  /** What the two stores hold was supplied for the same key. */
  ghost predicate StoresProduced(s: State) {
    && (forall k :: k in s.l1 ==> (k, s.l1[k]) in s.produced)
    && (forall k :: k in s.l2 ==> (k, s.l2[k]) in s.produced)
  }

  // ---------------------------------------------------------------- steps

  /** A write to L1 leaves the new value or nothing. */
  function WriteL1(s: State, k: Key, v: Bytes, kept: bool): State {
    s.(l1 := if kept then s.l1[k := v] else s.l1 - {k})
  }

  /** A write to L2 that fails is dropped in silence. */
  function WriteL2(s: State, k: Key, v: Bytes, wrote: bool): State {
    if wrote then s.(l2 := s.l2[k := v]) else s
  }

  function GoTo(s: State, t: nat, pc: Pc): State
    requires t < |s.threads|
  {
    s.(threads := s.threads[t := s.threads[t].(pc := pc)])
  }

  /** Goroutine `t` is not finished and not blocked on a WaitGroup. */
  predicate Enabled(s: State, t: nat) {
    && t < |s.threads|
    && !s.threads[t].pc.Finished()
    && match s.threads[t].pc
       case Wait(c) => c < |s.calls| && s.calls[c].released
       case _ => true
  }

  ghost predicate Looks(s: State, t: nat) {
    && Enabled(s, t) && ThreadOk(s, t)
    && !s.threads[t].pc.InFlight() && !s.threads[t].pc.Stores()
    && (s.threads[t].pc.Wait? ==> CallOk(s, s.threads[t].pc.c))
    && (s.threads[t].key in s.loads ==> LoadOk(s, s.threads[t].key))
  }

  /** The regions that only look: cache checks, the locked join-or-create, the wake-up of a waiter. */
  function LookStep(tiered: bool, s: State, t: nat, env: Env): State
    requires Looks(s, t)
  {
    var k := s.threads[t].key;
    match s.threads[t].pc
    case CheckL1 =>
      GoTo(s, t, if k in s.l1 then Done(Ok(s.l1[k]), L1Hit) else if tiered then CheckL2 else Join)
    case CheckL2 =>
      GoTo(s, t, if env.l2Read && k in s.l2 then Promote(s.l2[k]) else Join)
    case Join =>
      if k in s.loads then
        GoTo(s, t, Wait(s.loads[k]))
      else
        var c := |s.calls|;
        GoTo(s.(loads := s.loads[k := c], calls := s.calls + [Call(k, t, None, false)]), t, Load(c))
    case Wait(c) =>
      GoTo(s, t, Done(s.calls[c].outcome.value, Waited(c)))
    case GetL1 =>
      GoTo(s, t, if k in s.l1 then DoneGet(Some(s.l1[k])) else if tiered then GetL2 else DoneGet(None))
    case GetL2 =>
      GoTo(s, t, if env.l2Read && k in s.l2 then GetPromote(s.l2[k]) else DoneGet(None))
  }

  /** The writes of promotion and of `Set`. */
  function WriteStep(s: State, t: nat, env: Env): State
    requires t < |s.threads| && s.threads[t].pc.Stores()
  {
    var k := s.threads[t].key;
    match s.threads[t].pc
    case Promote(v) => GoTo(WriteL1(s, k, v, env.l1Kept), t, Done(Ok(v), L2Hit))
    case GetPromote(v) => GoTo(WriteL1(s, k, v, env.l1Kept), t, DoneGet(Some(v)))
    case SetL2(v) => GoTo(WriteL2(s, k, v, env.l2Wrote), t, SetL1(v))
    case SetL1(v) => GoTo(WriteL1(s, k, v, env.l1Kept), t, DoneSet)
  }

  /** The leader, from the return of the loader to the deletion of the call. */
  function FlightStep(tiered: bool, s: State, t: nat, env: Env): State
    requires t < |s.threads| && ThreadOk(s, t) && s.threads[t].pc.InFlight()
  {
    var k := s.threads[t].key;
    match s.threads[t].pc
    case Load(c) =>
      var s1 := s.(calls := s.calls[c := s.calls[c].(outcome := Some(env.loader))]);
      if env.loader.Ok? then
        GoTo(s1.(produced := s.produced + {(k, env.loader.val)}), t, if tiered then StoreL2(c) else StoreL1(c))
      else
        GoTo(s1, t, Release(c))
    case StoreL2(c) =>
      GoTo(WriteL2(s, k, s.calls[c].outcome.value.val, env.l2Wrote), t, StoreL1(c))
    case StoreL1(c) =>
      GoTo(WriteL1(s, k, s.calls[c].outcome.value.val, env.l1Kept), t, Release(c))
    case Release(c) =>
      GoTo(s.(calls := s.calls[c := s.calls[c].(released := true)]), t, Delete(c))
    case Delete(c) =>
      GoTo(s.(loads := s.loads - {k}), t, Done(s.calls[c].outcome.value, Led(c)))
  }

  /** One atomic region of goroutine `t`. */
  function Step(tiered: bool, s: State, t: nat, env: Env): State
    requires Inv(s) && Enabled(s, t)
  {
    var pc := s.threads[t].pc;
    assert ThreadOk(s, t);
    if pc.InFlight() then FlightStep(tiered, s, t, env)
    else if pc.Stores() then WriteStep(s, t, env)
    else LookStep(tiered, s, t, env)
  }

  function Start(tiered: bool, req: Request): Pc {
    match req
    case GetOrSetReq => CheckL1
    case GetReq => GetL1
    case SetReq(v) => if tiered then SetL2(v) else SetL1(v)
  }

  function SpawnThread(tiered: bool, s: State, k: Key, req: Request): State {
    s.(threads := s.threads + [Thread(k, Start(tiered, req))],
       produced := if req.SetReq? then s.produced + {(k, req.v)} else s.produced)
  }

  predicate CanDo(s: State, e: Event) {
    e.Move? ==> Enabled(s, e.t)
  }

  function Next(tiered: bool, s: State, e: Event): (s': State)
    requires Inv(s) && CanDo(s, e)
    ensures Inv(s')
  {
    match e
    case Spawn(k, req) => SpawnKeepsInv(tiered, s, k, req); SpawnThread(tiered, s, k, req)
    case Move(t, env) => StepKeepsInv(tiered, s, t, env); Step(tiered, s, t, env)
    case LoseL1(k) => LossKeepsInv(s, k); s.(l1 := s.l1 - {k})
    case LoseL2(k) => LossKeepsInv(s, k); s.(l2 := s.l2 - {k})
  }

  /** Every event of `es` can happen in turn, starting from `s`. */
  ghost predicate Runs(tiered: bool, s: State, es: seq<Event>)
    requires Inv(s)
    decreases |es|
  {
    es == [] || (CanDo(s, es[0]) && Runs(tiered, Next(tiered, s, es[0]), es[1..]))
  }

  ghost function Exec(tiered: bool, s: State, es: seq<Event>): (s': State)
    requires Inv(s) && Runs(tiered, s, es)
    ensures Inv(s')
    decreases |es|
  {
    if es == [] then s else Exec(tiered, Next(tiered, s, es[0]), es[1..])
  }

  /** A whole run of the cache, from the empty cache with no goroutine. */
  ghost predicate IsRun(tiered: bool, es: seq<Event>) {
    Runs(tiered, Init, es)
  }

  ghost function After(tiered: bool, es: seq<Event>): (s: State)
    requires IsRun(tiered, es)
    ensures Inv(s)
  {
    Exec(tiered, Init, es)
  }

  // ---------------------------------------------------------------- the invariant is kept

  lemma SpawnKeepsInv(tiered: bool, s: State, k: Key, req: Request)
    requires Inv(s)
    ensures Inv(SpawnThread(tiered, s, k, req))
  {
    var s' := SpawnThread(tiered, s, k, req);
    forall t: nat | t < |s'.threads| ensures ThreadOk(s', t) {
      if t < |s.threads| { assert ThreadOk(s, t); }
    }
    forall c: nat | c < |s'.calls| ensures CallOk(s', c) { assert CallOk(s, c); }
    forall k | k in s'.loads ensures LoadOk(s', k) { assert LoadOk(s, k); }
  }

  lemma LossKeepsInv(s: State, k: Key)
    requires Inv(s)
    ensures Inv(s.(l1 := s.l1 - {k})) && Inv(s.(l2 := s.l2 - {k}))
  {
    var s1, s2 := s.(l1 := s.l1 - {k}), s.(l2 := s.l2 - {k});
    forall t: nat | t < |s.threads| ensures ThreadOk(s1, t) && ThreadOk(s2, t) { assert ThreadOk(s, t); }
    forall c: nat | c < |s.calls| ensures CallOk(s1, c) && CallOk(s2, c) { assert CallOk(s, c); }
    forall k | k in s.loads ensures LoadOk(s1, k) && LoadOk(s2, k) { assert LoadOk(s, k); }
  }

  /** A call keeps its key, its owner, an outcome once written, and its release. */
  ghost predicate Grows(before: Call, after: Call) {
    && after.key == before.key && after.owner == before.owner
    && (before.outcome.Some? ==> after.outcome == before.outcome)
    && (before.released ==> after.released)
  }

  ghost predicate Monotone(s: State, s': State) {
    && s.produced <= s'.produced
    && |s.calls| <= |s'.calls|
    && (forall c: nat :: c < |s.calls| ==> Grows(s.calls[c], s'.calls[c]))
  }

  /** What a step may do to a goroutine that does not take it. */
  lemma FrameThread(s: State, s': State, u: nat)
    requires u < |s.threads| && u < |s'.threads| && s'.threads[u] == s.threads[u]
    requires ThreadOk(s, u) && Monotone(s, s')
    requires var k, pc := s.threads[u].key, s.threads[u].pc;
      && (pc.InFlight() && CallRef(s, k, pc.c) ==>
            s'.calls[pc.c] == s.calls[pc.c] && k in s'.loads && s'.loads[k] == pc.c)
      && (pc.Wait? && CallRef(s, k, pc.c) ==>
            s'.calls[pc.c].released || (k in s'.loads && s'.loads[k] == pc.c))
    ensures ThreadOk(s', u)
  {
  }

  /** Everything a step of `t` may change outside its own program counter. */
  ghost predicate OnlyTouches(s: State, s': State, t: nat) {
    && t < |s.threads|
    && var k, pc := s.threads[t].key, s.threads[t].pc;
    && |s'.threads| == |s.threads|
    && s'.threads[t].key == k
    && (forall u: nat :: u < |s.threads| && u != t ==> s'.threads[u] == s.threads[u])
    && Monotone(s, s')
    && (forall c: nat :: c < |s.calls| && !(pc.InFlight() && pc.c == c) ==> s'.calls[c] == s.calls[c])
    && (forall k' :: k' != k ==> (k' in s'.loads <==> k' in s.loads))
    && (forall k' :: k' in s.loads && k' in s'.loads ==> s'.loads[k'] == s.loads[k'])
    && (k in s.loads && k !in s'.loads ==> pc.Delete?)
  }

  lemma StepOnlyTouches(tiered: bool, s: State, t: nat, env: Env)
    requires Inv(s) && Enabled(s, t)
    ensures OnlyTouches(s, Step(tiered, s, t, env), t)
  {
    if s.threads[t].pc.InFlight() {
      FlightOnlyTouches(tiered, s, t, env);
    } else if !s.threads[t].pc.Stores() {
      LookOnlyTouches(tiered, s, t, env);
    }
  }

  lemma FlightOnlyTouches(tiered: bool, s: State, t: nat, env: Env)
    requires t < |s.threads| && ThreadOk(s, t) && s.threads[t].pc.InFlight()
    ensures OnlyTouches(s, FlightStep(tiered, s, t, env), t)
  {
  }

  lemma LookOnlyTouches(tiered: bool, s: State, t: nat, env: Env)
    requires Looks(s, t)
    ensures OnlyTouches(s, LookStep(tiered, s, t, env), t)
  {
    if !s.threads[t].pc.Join? { OwnMoveOnlyTouches(tiered, s, t, env); }
  }

  /** A look outside the lock moves the goroutine and nothing else. */
  lemma OwnMoveOnlyTouches(tiered: bool, s: State, t: nat, env: Env)
    requires Looks(s, t) && !s.threads[t].pc.Join?
    ensures LookStep(tiered, s, t, env) == s.(threads := LookStep(tiered, s, t, env).threads)
    ensures OnlyTouches(s, LookStep(tiered, s, t, env), t)
  {
  }

  lemma OtherThreadKept(s: State, s': State, t: nat, u: nat)
    requires t < |s.threads| && u < |s.threads| && u != t
    requires ThreadOk(s, t) && ThreadOk(s, u) && OnlyTouches(s, s', t)
    ensures ThreadOk(s', u)
  {
    FrameThread(s, s', u);
  }

  /** What a step of `t` owes to the calls and loads it touches itself. */
  ghost predicate PaysItsDues(s: State, s': State, t: nat) {
    && t < |s.threads| == |s'.threads|
    && var k, pc, pc' := s.threads[t].key, s.threads[t].pc, s'.threads[t].pc;
    if pc.InFlight() then
      && |s'.calls| == |s.calls|
      && pc'.Leads(pc.c)
      && CallOk(s', pc.c)
      && (k in s'.loads ==> k in s.loads && pc'.InFlight())
    else
      && (|s'.calls| > |s.calls| ==> |s'.calls| == |s.calls| + 1 && CallOk(s', |s.calls|))
      && (k in s'.loads && k !in s.loads ==> LoadOk(s', k))
  }

  lemma CallsKept(s: State, s': State, t: nat, c: nat)
    requires t < |s.threads| && ThreadOk(s, t) && OnlyTouches(s, s', t) && PaysItsDues(s, s', t)
    requires !s.threads[t].pc.Finished()
    requires c < |s'.calls| && (c < |s.calls| ==> CallOk(s, c))
    ensures CallOk(s', c)
  {
  }

  lemma LoadsKept(s: State, s': State, t: nat, k: Key)
    requires t < |s.threads| && ThreadOk(s, t) && OnlyTouches(s, s', t) && PaysItsDues(s, s', t)
    requires k in s'.loads && (k in s.loads ==> LoadOk(s, k))
    ensures LoadOk(s', k)
  {
  }

  lemma StepKeepsSelf(tiered: bool, s: State, t: nat, env: Env)
    requires Inv(s) && Enabled(s, t)
    ensures ThreadOk(Step(tiered, s, t, env), t)
  {
    assert ThreadOk(s, t);
    if s.threads[t].pc.InFlight() {
      assert CallOk(s, s.threads[t].pc.c);
      FlightKeepsSelf(tiered, s, t, env);
    } else if !s.threads[t].pc.Stores() {
      LookKeepsSelf(tiered, s, t, env);
    }
  }

  lemma FlightKeepsSelf(tiered: bool, s: State, t: nat, env: Env)
    requires t < |s.threads| && ThreadOk(s, t) && s.threads[t].pc.InFlight() && CallOk(s, s.threads[t].pc.c)
    ensures ThreadOk(FlightStep(tiered, s, t, env), t)
  {
  }

  /** The leader's way through its flight. */
  function AfterFlight(tiered: bool, pc: Pc, outcome: Outcome): Pc
    requires pc.InFlight()
  {
    match pc
    case Load(c) => if outcome.Err? then Release(c) else if tiered then StoreL2(c) else StoreL1(c)
    case StoreL2(c) => StoreL1(c)
    case StoreL1(c) => Release(c)
    case Release(c) => Delete(c)
    case Delete(c) => Done(outcome, Led(c))
  }

  lemma FlightTargets(tiered: bool, s: State, t: nat, env: Env)
    requires t < |s.threads| && ThreadOk(s, t) && s.threads[t].pc.InFlight()
    ensures var th, s' := s.threads[t], FlightStep(tiered, s, t, env);
      t < |s'.threads| && s'.threads[t] == th.(pc := AfterFlight(tiered, th.pc,
        if th.pc.Load? || s.calls[th.pc.c].outcome.None? then env.loader else s.calls[th.pc.c].outcome.value))
  {
  }

  /** Where a looking region of a goroutine on key `k` can lead, and that it writes no store. */
  ghost predicate LooksTo(s: State, s': State, k: Key, pc: Pc, pc': Pc) {
    && s'.l1 == s.l1 && s'.l2 == s.l2 && s'.produced == s.produced
    && match pc
       case CheckL1 => (pc'.Done? && pc'.source.L1Hit? && k in s.l1) || ((pc'.CheckL2? || pc'.Join?) && k !in s.l1)
       case CheckL2 => (pc'.Promote? && k in s.l2) || pc'.Join?
       case Join => if k in s.loads then pc'.Wait? else pc'.Load?
       case Wait(_) => pc'.Done? && pc'.source.Waited?
       case GetL1 => pc'.DoneGet? || pc'.GetL2?
       case GetL2 => pc'.DoneGet? || (pc'.GetPromote? && k in s.l2)
       case _ => false
  }

  lemma LookTargets(tiered: bool, s: State, t: nat, env: Env)
    requires Looks(s, t)
    ensures var s' := LookStep(tiered, s, t, env); var th := s.threads[t];
      && t < |s'.threads| && s'.threads[t].key == th.key
      && LooksTo(s, s', th.key, th.pc, s'.threads[t].pc)
  {
    if s.threads[t].pc.Join? { JoinTargets(tiered, s, t, env); }
  }

  lemma JoinTargets(tiered: bool, s: State, t: nat, env: Env)
    requires Looks(s, t) && s.threads[t].pc.Join?
    ensures var s' := LookStep(tiered, s, t, env); var th := s.threads[t];
      && t < |s'.threads| && s'.threads[t].key == th.key
      && LooksTo(s, s', th.key, Join, s'.threads[t].pc)
  {
  }

  lemma LookKeepsSelf(tiered: bool, s: State, t: nat, env: Env)
    requires Looks(s, t)
    requires var k := s.threads[t].key;
      && (k in s.l1 ==> (k, s.l1[k]) in s.produced)
      && (k in s.l2 ==> (k, s.l2[k]) in s.produced)
    ensures ThreadOk(LookStep(tiered, s, t, env), t)
  {
    if s.threads[t].pc.Join? {
      JoinKeepsSelf(tiered, s, t, env);
    } else if s.threads[t].pc.Wait? {
      var c := s.threads[t].pc.c;
      assert LookStep(tiered, s, t, env) == GoTo(s, t, Done(s.calls[c].outcome.value, Waited(c)));
    }
  }

  lemma JoinKeepsSelf(tiered: bool, s: State, t: nat, env: Env)
    requires Looks(s, t) && s.threads[t].pc.Join?
    ensures ThreadOk(LookStep(tiered, s, t, env), t)
  {
  }

  lemma StepPaysItsDues(tiered: bool, s: State, t: nat, env: Env)
    requires Inv(s) && Enabled(s, t)
    ensures PaysItsDues(s, Step(tiered, s, t, env), t)
  {
    assert ThreadOk(s, t);
    if s.threads[t].pc.InFlight() {
      assert CallOk(s, s.threads[t].pc.c);
      FlightPaysItsDues(tiered, s, t, env);
    } else if !s.threads[t].pc.Stores() {
      LookPaysItsDues(tiered, s, t, env);
    }
  }

  lemma FlightPaysItsDues(tiered: bool, s: State, t: nat, env: Env)
    requires ThreadOk(s, t) && s.threads[t].pc.InFlight() && CallOk(s, s.threads[t].pc.c)
    ensures PaysItsDues(s, FlightStep(tiered, s, t, env), t)
  {
  }

  lemma LookPaysItsDues(tiered: bool, s: State, t: nat, env: Env)
    requires Looks(s, t)
    ensures PaysItsDues(s, LookStep(tiered, s, t, env), t)
  {
  }

  lemma StepKeepsStores(tiered: bool, s: State, t: nat, env: Env)
    requires Inv(s) && Enabled(s, t)
    ensures StoresProduced(Step(tiered, s, t, env))
  {
    assert ThreadOk(s, t);
    if s.threads[t].pc.InFlight() {
      assert CallOk(s, s.threads[t].pc.c);
      FlightKeepsStores(tiered, s, t, env);
    } else if s.threads[t].pc.Stores() {
      WriteKeepsStores(s, t, env);
    } else {
      LookTargets(tiered, s, t, env);
    }
  }

  lemma FlightKeepsStores(tiered: bool, s: State, t: nat, env: Env)
    requires t < |s.threads| && ThreadOk(s, t) && s.threads[t].pc.InFlight()
    requires CallOk(s, s.threads[t].pc.c) && StoresProduced(s)
    ensures StoresProduced(FlightStep(tiered, s, t, env))
  {
  }

  lemma WriteKeepsStores(s: State, t: nat, env: Env)
    requires t < |s.threads| && ThreadOk(s, t) && s.threads[t].pc.Stores() && StoresProduced(s)
    ensures StoresProduced(WriteStep(s, t, env))
  {
  }

  lemma StepKeepsInv(tiered: bool, s: State, t: nat, env: Env)
    requires Inv(s) && Enabled(s, t)
    ensures Inv(Step(tiered, s, t, env))
  {
    var s' := Step(tiered, s, t, env);
    assert ThreadOk(s, t);
    StepOnlyTouches(tiered, s, t, env);
    forall u: nat | u < |s'.threads| ensures ThreadOk(s', u) {
      if u == t { StepKeepsSelf(tiered, s, t, env); } else { OtherThreadKept(s, s', t, u); }
    }
    StepPaysItsDues(tiered, s, t, env);
    forall c: nat | c < |s'.calls| ensures CallOk(s', c) {
      if c < |s.calls| { assert CallOk(s, c); }
      CallsKept(s, s', t, c);
    }
    forall k | k in s'.loads ensures LoadOk(s', k) {
      if k in s.loads { assert LoadOk(s, k); }
      LoadsKept(s, s', t, k);
    }
    StepKeepsStores(tiered, s, t, env);
  }
}
