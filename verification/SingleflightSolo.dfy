/**
 The concurrent protocol and the sequential cache agree: a goroutine that is left alone does
 what `Tiered.Do` does in one go, and every sequential run on the clock is a run of the protocol.
 */
module SingleflightSolo {
  import opened Common
  import opened Singleflight
  import opened SingleflightSafety
  import opened SingleflightLiveness
  import T = Tiered

  /** Goroutine `t` runs on, alone, for as long as it can. */
  ghost function Solo(s: State, t: nat, env: Env): (s': State)
    requires Inv(s)
    ensures Inv(s')
    decreases if t < |s.threads| then Rank(s.threads[t].pc) else 0
  {
    if Enabled(s, t) then
      RankDrops(true, s, t, env);
      Solo(Next(true, s, Move(t, env)), t, env)
    else s
  }

  /** From `s` to `s'`, `t` has come to `pc`, and these are the stores and the registrations; nobody else has moved. */
  ghost predicate Ends(s: State, s': State, t: nat, pc: Pc, l1: map<Key, Bytes>, l2: map<Key, Bytes>, loads: map<Key, nat>) {
    && t < |s.threads|
    && s'.threads == s.threads[t := s.threads[t].(pc := pc)]
    && s'.l1 == l1 && s'.l2 == l2 && s'.loads == loads
  }

  function Put(m: map<Key, Bytes>, k: Key, v: Bytes, kept: bool): map<Key, Bytes> {
    if kept then m[k := v] else m - {k}
  }

  // ---------------------------------------------------------------- the leader, backwards from its end

  lemma FromDelete(s: State, t: nat, env: Env)
    requires Inv(s) && t < |s.threads| && s.threads[t].pc.Delete? && ThreadOk(s, t)
    ensures var c, k := s.threads[t].pc.c, s.threads[t].key;
      Ends(s, Solo(s, t, env), t, Done(s.calls[c].outcome.value, Led(c)), s.l1, s.l2, s.loads - {k})
  {
    var s1 := Next(true, s, Move(t, env));
    assert Solo(s1, t, env) == s1;
  }

  lemma FromRelease(s: State, t: nat, env: Env)
    requires Inv(s) && t < |s.threads| && s.threads[t].pc.Release? && ThreadOk(s, t)
    ensures var c, k := s.threads[t].pc.c, s.threads[t].key;
      Ends(s, Solo(s, t, env), t, Done(s.calls[c].outcome.value, Led(c)), s.l1, s.l2, s.loads - {k})
  {
    FromDelete(Next(true, s, Move(t, env)), t, env);
  }

  lemma FromStoreL1(s: State, t: nat, env: Env)
    requires Inv(s) && t < |s.threads| && s.threads[t].pc.StoreL1? && ThreadOk(s, t)
    ensures var c, k := s.threads[t].pc.c, s.threads[t].key; var r := s.calls[c].outcome.value;
      Ends(s, Solo(s, t, env), t, Done(r, Led(c)), Put(s.l1, k, r.val, env.l1Kept), s.l2, s.loads - {k})
  {
    FromRelease(Next(true, s, Move(t, env)), t, env);
  }

  lemma FromStoreL2(s: State, t: nat, env: Env)
    requires Inv(s) && t < |s.threads| && s.threads[t].pc.StoreL2? && ThreadOk(s, t)
    ensures var c, k := s.threads[t].pc.c, s.threads[t].key; var r := s.calls[c].outcome.value;
      Ends(s, Solo(s, t, env), t, Done(r, Led(c)), Put(s.l1, k, r.val, env.l1Kept),
           if env.l2Wrote then s.l2[k := r.val] else s.l2, s.loads - {k})
  {
    FromStoreL1(Next(true, s, Move(t, env)), t, env);
  }

  lemma FromLoad(s: State, t: nat, env: Env)
    requires Inv(s) && t < |s.threads| && s.threads[t].pc.Load? && ThreadOk(s, t)
    ensures var c, k, r := s.threads[t].pc.c, s.threads[t].key, env.loader;
      Ends(s, Solo(s, t, env), t, Done(r, Led(c)),
           if r.Ok? then Put(s.l1, k, r.val, env.l1Kept) else s.l1,
           if r.Ok? && env.l2Wrote then s.l2[k := r.val] else s.l2, s.loads - {k})
  {
    var s1 := Next(true, s, Move(t, env));
    if env.loader.Ok? { FromLoadedValue(s, t, env); } else { FromRelease(s1, t, env); }
  }

  lemma FromLoadedValue(s: State, t: nat, env: Env)
    requires Inv(s) && t < |s.threads| && s.threads[t].pc.Load? && ThreadOk(s, t) && env.loader.Ok?
    ensures var c, k, r := s.threads[t].pc.c, s.threads[t].key, env.loader;
      Ends(s, Solo(s, t, env), t, Done(r, Led(c)), Put(s.l1, k, r.val, env.l1Kept),
           if env.l2Wrote then s.l2[k := r.val] else s.l2, s.loads - {k})
  {
    FromStoreL2(Next(true, s, Move(t, env)), t, env);
  }

  lemma InAndOut(m: map<Key, nat>, k: Key, c: nat)
    requires k !in m
    ensures m[k := c] - {k} == m
  {
  }

  lemma FromJoin(s: State, t: nat, env: Env)
    requires Inv(s) && t < |s.threads| && s.threads[t].pc.Join? && s.threads[t].key !in s.loads
    ensures var k, r := s.threads[t].key, env.loader;
      Ends(s, Solo(s, t, env), t, Done(r, Led(|s.calls|)),
           if r.Ok? then Put(s.l1, k, r.val, env.l1Kept) else s.l1,
           if r.Ok? && env.l2Wrote then s.l2[k := r.val] else s.l2, s.loads)
  {
    var k, s1 := s.threads[t].key, Next(true, s, Move(t, env));
    FromLoad(s1, t, env);
    InAndOut(s.loads, k, |s.calls|);
  }

  // ---------------------------------------------------------------- whole operations

  lemma FromCheckL2(s: State, t: nat, env: Env)
    requires Inv(s) && t < |s.threads| && s.threads[t].pc.CheckL2? && s.threads[t].key !in s.loads
    ensures var k, r, s' := s.threads[t].key, env.loader, Solo(s, t, env);
      if env.l2Read && k in s.l2 then
        Ends(s, s', t, Done(Ok(s.l2[k]), L2Hit), Put(s.l1, k, s.l2[k], env.l1Kept), s.l2, s.loads)
      else
        Ends(s, s', t, Done(r, Led(|s.calls|)), if r.Ok? then Put(s.l1, k, r.val, env.l1Kept) else s.l1,
             if r.Ok? && env.l2Wrote then s.l2[k := r.val] else s.l2, s.loads)
  {
    var k, s1 := s.threads[t].key, Next(true, s, Move(t, env));
    if env.l2Read && k in s.l2 {
      var s2 := Next(true, s1, Move(t, env));
      assert Solo(s2, t, env) == s2;
    } else {
      FromJoin(s1, t, env);
    }
  }

  lemma FromCheckL1(s: State, t: nat, env: Env)
    requires Inv(s) && t < |s.threads| && s.threads[t].pc.CheckL1? && s.threads[t].key !in s.loads
    ensures var k, r, s' := s.threads[t].key, env.loader, Solo(s, t, env);
      if k in s.l1 then
        Ends(s, s', t, Done(Ok(s.l1[k]), L1Hit), s.l1, s.l2, s.loads)
      else if env.l2Read && k in s.l2 then
        Ends(s, s', t, Done(Ok(s.l2[k]), L2Hit), Put(s.l1, k, s.l2[k], env.l1Kept), s.l2, s.loads)
      else
        Ends(s, s', t, Done(r, Led(|s.calls|)), if r.Ok? then Put(s.l1, k, r.val, env.l1Kept) else s.l1,
             if r.Ok? && env.l2Wrote then s.l2[k := r.val] else s.l2, s.loads)
  {
    var s1 := Next(true, s, Move(t, env));
    if s.threads[t].key in s.l1 { assert Solo(s1, t, env) == s1; } else { FromCheckL2(s1, t, env); }
  }

  lemma FromGetL2(s: State, t: nat, env: Env)
    requires Inv(s) && t < |s.threads| && s.threads[t].pc.GetL2?
    ensures var k, s' := s.threads[t].key, Solo(s, t, env);
      if env.l2Read && k in s.l2 then
        Ends(s, s', t, DoneGet(Some(s.l2[k])), Put(s.l1, k, s.l2[k], env.l1Kept), s.l2, s.loads)
      else
        Ends(s, s', t, DoneGet(None), s.l1, s.l2, s.loads)
  {
    var k, s1 := s.threads[t].key, Next(true, s, Move(t, env));
    if env.l2Read && k in s.l2 {
      var s2 := Next(true, s1, Move(t, env));
      assert Solo(s2, t, env) == s2;
    } else {
      assert Solo(s1, t, env) == s1;
    }
  }

  lemma FromGetL1(s: State, t: nat, env: Env)
    requires Inv(s) && t < |s.threads| && s.threads[t].pc.GetL1?
    ensures var k, s' := s.threads[t].key, Solo(s, t, env);
      if k in s.l1 then
        Ends(s, s', t, DoneGet(Some(s.l1[k])), s.l1, s.l2, s.loads)
      else if env.l2Read && k in s.l2 then
        Ends(s, s', t, DoneGet(Some(s.l2[k])), Put(s.l1, k, s.l2[k], env.l1Kept), s.l2, s.loads)
      else
        Ends(s, s', t, DoneGet(None), s.l1, s.l2, s.loads)
  {
    var s1 := Next(true, s, Move(t, env));
    if s.threads[t].key in s.l1 { assert Solo(s1, t, env) == s1; } else { FromGetL2(s1, t, env); }
  }

  lemma FromSetL2(s: State, t: nat, env: Env)
    requires Inv(s) && t < |s.threads| && s.threads[t].pc.SetL2?
    ensures var k, v := s.threads[t].key, s.threads[t].pc.v;
      Ends(s, Solo(s, t, env), t, DoneSet, Put(s.l1, k, v, env.l1Kept),
           if env.l2Wrote then s.l2[k := v] else s.l2, s.loads)
  {
    var s1 := Next(true, s, Move(t, env));
    var s2 := Next(true, s1, Move(t, env));
    assert Solo(s2, t, env) == s2;
  }

  // ---------------------------------------------------------------- against the sequential cache

  /** What a tier answers with at instant `now`. */
  function Shown(m: map<Key, T.Entry>, now: T.Time): map<Key, Bytes> {
    map k | k in m && m[k].Live(now) :: m[k].val
  }

  ghost predicate Shows(s: State, q: T.State, now: T.Time) {
    s.l1 == Shown(q.l1, now) && s.l2 == Shown(q.l2, now)
  }

  predicate IsCall(op: T.Op) {
    op.Get? || op.Set? || op.GetOrSet?
  }

  function RequestOf(op: T.Op): Request
    requires IsCall(op)
  {
    match op
    case Get(_) => GetReq
    case Set(_, v, _) => SetReq(v)
    case GetOrSet(_, _, _) => GetOrSetReq
  }

  function EnvOf(op: T.Op, f: T.Faults): Env {
    Env(if op.GetOrSet? then op.loader else Err(""), f.l1Kept, f.l2Wrote, f.l2Read)
  }

  /** The goroutine returned what the sequential cache replies. */
  predicate Answers(pc: Pc, reply: T.Reply) {
    match reply
    case Hit(v, _) => pc == Done(Ok(v), L1Hit) || pc == Done(Ok(v), L2Hit) || pc == DoneGet(Some(v))
    case Loaded(r) => pc.Done? && pc.result == r && pc.source.Led?
    case Miss => pc == DoneGet(None)
    case Quiet => pc == DoneSet
  }

  lemma ShownPut(m: map<Key, T.Entry>, k: Key, e: T.Entry, now: T.Time)
    requires e.Live(now)
    ensures Shown(m[k := e], now) == Shown(m, now)[k := e.val]
    ensures Shown(m - {k}, now) == Shown(m, now) - {k}
  {
  }

  /** The goroutine that arrives for `op` and is left alone. */
  ghost function Served(s: State, op: T.Op, f: T.Faults): (s': State)
    requires Inv(s) && IsCall(op)
    ensures Inv(s')
  {
    Solo(Next(true, s, Spawn(op.key, RequestOf(op))), |s.threads|, EnvOf(op, f))
  }

  /** It has left the stores of `q'`, nothing in flight, and answered with `reply`. */
  ghost predicate ServedAs(s: State, s': State, key: Key, q': T.State, reply: T.Reply, now: T.Time) {
    var t := |s.threads|;
    && Shows(s', q', now) && s'.loads == map[]
    && |s'.threads| == t + 1 && s'.threads[..t] == s.threads
    && s'.threads[t].key == key && Answers(s'.threads[t].pc, reply)
  }

  lemma SoloGet(s: State, q: T.State, k: Key, now: T.Time, f: T.Faults)
    requires Inv(s) && s.loads == map[] && Shows(s, q, now)
    ensures var (q', reply) := T.Do(q, T.Get(k), now, f); ServedAs(s, Served(s, T.Get(k), f), k, q', reply, now)
  {
    FromGetL1(Next(true, s, Spawn(k, GetReq)), |s.threads|, EnvOf(T.Get(k), f));
    if T.FoundInL2(q, k, now, f) { ShownPut(q.l1, k, q.l2[k].(expires := None), now); }
  }

  lemma SoloSet(s: State, q: T.State, k: Key, v: Bytes, ttl: nat, now: T.Time, f: T.Faults)
    requires Inv(s) && s.loads == map[] && Shows(s, q, now)
    ensures var op := T.Set(k, v, ttl);
      var (q', reply) := T.Do(q, op, now, f); ServedAs(s, Served(s, op, f), k, q', reply, now)
  {
    var e := T.Entry(v, now, T.Expiry(now, ttl));
    FromSetL2(Next(true, s, Spawn(k, SetReq(v))), |s.threads|, EnvOf(T.Set(k, v, ttl), f));
    ShownPut(q.l1, k, e, now);
    ShownPut(q.l2, k, e, now);
  }

  lemma SoloHit(s: State, q: T.State, k: Key, ttl: nat, loader: Outcome, now: T.Time, f: T.Faults)
    requires Inv(s) && s.loads == map[] && Shows(s, q, now) && T.Found(q, k, now, f)
    ensures var op := T.GetOrSet(k, ttl, loader);
      var (q', reply) := T.Do(q, op, now, f); ServedAs(s, Served(s, op, f), k, q', reply, now)
  {
    FromCheckL1(Next(true, s, Spawn(k, GetOrSetReq)), |s.threads|, EnvOf(T.GetOrSet(k, ttl, loader), f));
    if T.FoundInL2(q, k, now, f) { ShownPut(q.l1, k, q.l2[k].(expires := T.Expiry(now, ttl)), now); }
  }

  lemma SoloLoad(s: State, q: T.State, k: Key, ttl: nat, loader: Outcome, now: T.Time, f: T.Faults)
    requires Inv(s) && s.loads == map[] && Shows(s, q, now) && !T.Found(q, k, now, f)
    ensures var op := T.GetOrSet(k, ttl, loader);
      var (q', reply) := T.Do(q, op, now, f); ServedAs(s, Served(s, op, f), k, q', reply, now)
  {
    FromCheckL1(Next(true, s, Spawn(k, GetOrSetReq)), |s.threads|, EnvOf(T.GetOrSet(k, ttl, loader), f));
    if loader.Ok? {
      var e := T.Entry(loader.val, now, T.Expiry(now, ttl));
      ShownPut(q.l1, k, e, now);
      ShownPut(q.l2, k, e, now);
    }
  }

  /** One operation, from arrival to return: the goroutine alone changes the stores and answers as `Tiered.Do` says. */
  lemma SoloIsSequential(s: State, q: T.State, op: T.Op, now: T.Time, f: T.Faults)
    requires Inv(s) && s.loads == map[] && Shows(s, q, now) && IsCall(op)
    ensures var (q', reply) := T.Do(q, op, now, f); ServedAs(s, Served(s, op, f), op.key, q', reply, now)
  {
    match op {
      case Get(k) => SoloGet(s, q, k, now, f);
      case Set(k, v, ttl) => SoloSet(s, q, k, v, ttl, now, f);
      case GetOrSet(k, ttl, loader) =>
        if T.Found(q, k, now, f) { SoloHit(s, q, k, ttl, loader, now, f); } else { SoloLoad(s, q, k, ttl, loader, now, f); }
    }
  }

  // ---------------------------------------------------------------- what runs can reach

  ghost predicate LeadsTo(s: State, es: seq<Event>, s': State)
    requires Inv(s)
  {
    Runs(true, s, es) && Exec(true, s, es) == s'
  }

  /** Some run goes from `s` to `s'`. */
  ghost predicate Reaches(s: State, s': State)
    requires Inv(s)
  {
    exists es: seq<Event> :: LeadsTo(s, es, s')
  }

  lemma ReachesItself(s: State)
    requires Inv(s)
    ensures Reaches(s, s)
  {
    assert LeadsTo(s, [], s);
  }

  lemma LeadsOn(s: State, e: Event, es: seq<Event>, s': State)
    requires Inv(s) && CanDo(s, e) && LeadsTo(Next(true, s, e), es, s')
    ensures LeadsTo(s, [e] + es, s')
  {
    assert ([e] + es)[0] == e && ([e] + es)[1..] == es;
  }

  lemma StepThen(s: State, e: Event, s1: State, s': State)
    requires Inv(s) && CanDo(s, e) && s1 == Next(true, s, e) && Reaches(s1, s')
    ensures Reaches(s, s')
  {
    var es: seq<Event> :| LeadsTo(s1, es, s');
    LeadsOn(s, e, es, s');
  }

  lemma {:induction false} LeadsFurther(s: State, es: seq<Event>, s1: State, s': State)
    requires Inv(s) && LeadsTo(s, es, s1) && Inv(s1) && Reaches(s1, s')
    ensures Reaches(s, s')
    decreases |es|
  {
    if es != [] {
      var next := Next(true, s, es[0]);
      assert LeadsTo(next, es[1..], s1);
      LeadsFurther(next, es[1..], s1, s');
      StepThen(s, es[0], next, s');
    }
  }

  lemma ReachesFurther(s: State, s1: State, s': State)
    requires Inv(s) && Inv(s1) && Reaches(s, s1) && Reaches(s1, s')
    ensures Reaches(s, s')
  {
    var es: seq<Event> :| LeadsTo(s, es, s1);
    LeadsFurther(s, es, s1, s');
  }

  lemma ReachedIsKept(s: State, s': State)
    requires Inv(s) && Reaches(s, s')
    ensures Inv(s') && |s.threads| <= |s'.threads|
    ensures forall t: nat :: t < |s.threads| && s.threads[t].pc.Finished() ==> s'.threads[t] == s.threads[t]
  {
    var es: seq<Event> :| LeadsTo(s, es, s');
    OutcomesAreFinal(true, s, es);
  }

  /** A lone goroutine's steps are a run of the protocol. */
  lemma {:induction false} SoloIsReached(s: State, t: nat, env: Env)
    requires Inv(s)
    ensures Reaches(s, Solo(s, t, env))
    decreases if t < |s.threads| then Rank(s.threads[t].pc) else 0
  {
    if Enabled(s, t) {
      RankDrops(true, s, t, env);
      var s1 := Next(true, s, Move(t, env));
      SoloIsReached(s1, t, env);
      StepThen(s, Move(t, env), s1, Solo(s, t, env));
    } else {
      ReachesItself(s);
    }
  }

  lemma LoseOne(s: State, k: Key)
    requires Inv(s)
    ensures Inv(s.(l1 := s.l1 - {k})) && Inv(s.(l2 := s.l2 - {k}))
    ensures Reaches(s, s.(l1 := s.l1 - {k})) && Reaches(s, s.(l2 := s.l2 - {k}))
  {
    LossKeepsInv(s, k);
    ReachesItself(s.(l1 := s.l1 - {k}));
    ReachesItself(s.(l2 := s.l2 - {k}));
    StepThen(s, LoseL1(k), s.(l1 := s.l1 - {k}), s.(l1 := s.l1 - {k}));
    StepThen(s, LoseL2(k), s.(l2 := s.l2 - {k}), s.(l2 := s.l2 - {k}));
  }

  ghost predicate PartOf(part: map<Key, Bytes>, whole: map<Key, Bytes>) {
    part.Keys <= whole.Keys && forall k :: k in part ==> part[k] == whole[k]
  }

  function Excess(part: map<Key, Bytes>, whole: map<Key, Bytes>): nat {
    |whole.Keys - part.Keys|
  }

  lemma AllOfIt(part: map<Key, Bytes>, whole: map<Key, Bytes>)
    requires PartOf(part, whole) && forall k :: k in whole ==> k in part
    ensures part == whole
  {
  }

  lemma OneLess(part: map<Key, Bytes>, whole: map<Key, Bytes>) returns (k: Key)
    requires PartOf(part, whole) && part != whole
    ensures PartOf(part, whole - {k}) && Excess(part, whole - {k}) < Excess(part, whole)
  {
    if forall j :: j in whole ==> j in part { AllOfIt(part, whole); }
    k :| k in whole && k !in part;
    assert (whole - {k}).Keys - part.Keys == (whole.Keys - part.Keys) - {k};
  }

  /** The stores may lose, one by one, entries down to any part of them. */
  lemma {:induction false} ForgetL1(s: State, l1: map<Key, Bytes>)
    requires Inv(s) && PartOf(l1, s.l1)
    ensures Reaches(s, s.(l1 := l1))
    decreases Excess(l1, s.l1)
  {
    if l1 == s.l1 {
      ReachesItself(s);
    } else {
      var k := OneLess(l1, s.l1);
      LoseOne(s, k);
      ForgetL1(s.(l1 := s.l1 - {k}), l1);
      ReachesFurther(s, s.(l1 := s.l1 - {k}), s.(l1 := l1));
    }
  }

  lemma {:induction false} ForgetL2(s: State, l2: map<Key, Bytes>)
    requires Inv(s) && PartOf(l2, s.l2)
    ensures Reaches(s, s.(l2 := l2))
    decreases Excess(l2, s.l2)
  {
    if l2 == s.l2 {
      ReachesItself(s);
    } else {
      var k := OneLess(l2, s.l2);
      LoseOne(s, k);
      ForgetL2(s.(l2 := s.l2 - {k}), l2);
      ReachesFurther(s, s.(l2 := s.l2 - {k}), s.(l2 := l2));
    }
  }

  // ---------------------------------------------------------------- whole runs

  /** The clock does not go back. */
  predicate ClockRuns(es: seq<T.Event>, since: T.Time) {
    es != [] ==> since <= es[0].now && ClockRuns(es[1..], es[0].now)
  }

  /** Expiry is loss: a state that shows `q` can come to show it at a later instant. */
  lemma Expire(s: State, q: T.State, now: T.Time, later: T.Time) returns (s': State)
    requires Inv(s) && Shows(s, q, now) && now <= later
    ensures Reaches(s, s') && Inv(s') && Shows(s', q, later)
    ensures s' == s.(l1 := s'.l1, l2 := s'.l2)
  {
    var s1 := s.(l1 := Shown(q.l1, later));
    s' := s1.(l2 := Shown(q.l2, later));
    ForgetL1(s, s1.l1);
    ReachedIsKept(s, s1);
    ForgetL2(s1, s'.l2);
    ReachedIsKept(s1, s');
    ReachesFurther(s, s1, s');
  }

  /** The goroutines from `t` on are these calls, in order, and returned these replies. */
  ghost predicate CallsReturned(threads: seq<Thread>, t: nat, replies: seq<(Key, T.Reply)>) {
    && |threads| == t + |replies|
    && forall i :: 0 <= i < |replies| ==>
         threads[t + i].key == replies[i].0 && Answers(threads[t + i].pc, replies[i].1)
  }

  function ReplyOf(q: T.State, e: T.Event): seq<(Key, T.Reply)> {
    if IsCall(e.op) then [(e.op.key, T.Do(q, e.op, e.now, e.f).1)] else []
  }

  /** The calls among the events, each with the reply of the sequential cache. */
  function Replies(q: T.State, es: seq<T.Event>): seq<(Key, T.Reply)>
    decreases |es|
  {
    if es == [] then []
    else ReplyOf(q, es[0]) + Replies(T.Do(q, es[0].op, es[0].now, es[0].f).0, es[1..])
  }

  lemma CallIsReached(s: State, op: T.Op, f: T.Faults)
    requires Inv(s) && IsCall(op)
    ensures Reaches(s, Served(s, op, f))
  {
    var spawn := Spawn(op.key, RequestOf(op));
    SoloIsReached(Next(true, s, spawn), |s.threads|, EnvOf(op, f));
    StepThen(s, spawn, Next(true, s, spawn), Served(s, op, f));
  }

  lemma OneCall(s: State, q: T.State, op: T.Op, now: T.Time, f: T.Faults) returns (s': State)
    requires Inv(s) && s.loads == map[] && Shows(s, q, now) && IsCall(op)
    ensures Reaches(s, s') && Inv(s') && s'.loads == map[]
    ensures Shows(s', T.Do(q, op, now, f).0, now)
    ensures CallsReturned(s'.threads, |s.threads|, [(op.key, T.Do(q, op, now, f).1)])
  {
    s' := Served(s, op, f);
    SoloIsSequential(s, q, op, now, f);
    CallIsReached(s, op, f);
  }

  lemma LossShown(m: map<Key, T.Entry>, k: Key, now: T.Time)
    ensures Shown(m - {k}, now) == Shown(m, now) - {k}
  {
  }

  lemma OneLoss(s: State, q: T.State, op: T.Op, now: T.Time, f: T.Faults) returns (s': State)
    requires Inv(s) && Shows(s, q, now) && !IsCall(op)
    ensures Reaches(s, s') && Inv(s') && s'.loads == s.loads && s'.threads == s.threads
    ensures Shows(s', T.Do(q, op, now, f).0, now)
  {
    LoseOne(s, op.key);
    LossShown(q.l1, op.key, now);
    LossShown(q.l2, op.key, now);
    s' := if op.LoseL1? then s.(l1 := s.l1 - {op.key}) else s.(l2 := s.l2 - {op.key});
  }

  /** One event of the sequential cache, as a run of the protocol. */
  lemma OneEvent(s: State, q: T.State, e: T.Event) returns (s': State)
    requires Inv(s) && s.loads == map[] && Shows(s, q, e.now)
    ensures Reaches(s, s') && Inv(s') && s'.loads == map[]
    ensures Shows(s', T.Do(q, e.op, e.now, e.f).0, e.now)
    ensures CallsReturned(s'.threads, |s.threads|, ReplyOf(q, e))
  {
    if IsCall(e.op) { s' := OneCall(s, q, e.op, e.now, e.f); } else { s' := OneLoss(s, q, e.op, e.now, e.f); }
  }

  /** The clock moves on, and then one event happens. */
  lemma TimedEvent(s: State, q: T.State, since: T.Time, e: T.Event) returns (s': State)
    requires Inv(s) && s.loads == map[] && Shows(s, q, since) && since <= e.now
    ensures Reaches(s, s') && Inv(s') && s'.loads == map[]
    ensures Shows(s', T.Do(q, e.op, e.now, e.f).0, e.now)
    ensures CallsReturned(s'.threads, |s.threads|, ReplyOf(q, e))
  {
    var s1 := Expire(s, q, since, e.now);
    s' := OneEvent(s1, q, e);
    ReachesFurther(s, s1, s');
  }

  lemma AnswersFinish(pc: Pc, reply: T.Reply)
    requires Answers(pc, reply)
    ensures pc.Finished()
  {
  }

  lemma ReturnedJoin(before: seq<Thread>, after: seq<Thread>, t: nat, a: seq<(Key, T.Reply)>, b: seq<(Key, T.Reply)>)
    requires CallsReturned(before, t, a) && CallsReturned(after, |before|, b)
    requires forall u: nat :: u < |before| && before[u].pc.Finished() ==> after[u] == before[u]
    ensures CallsReturned(after, t, a + b)
  {
    forall i | 0 <= i < |a + b|
      ensures after[t + i].key == (a + b)[i].0 && Answers(after[t + i].pc, (a + b)[i].1)
    {
      if i < |a| {
        AnswersFinish(before[t + i].pc, a[i].1);
      } else {
        assert (a + b)[i] == b[i - |a|] && after[t + i] == after[|before| + (i - |a|)];
      }
    }
  }

  lemma ReachedAnswers(s: State, s1: State, s': State, first: seq<(Key, T.Reply)>, rest: seq<(Key, T.Reply)>)
    requires Inv(s) && Inv(s1) && Reaches(s, s1) && Reaches(s1, s')
    requires CallsReturned(s1.threads, |s.threads|, first) && CallsReturned(s'.threads, |s1.threads|, rest)
    ensures Reaches(s, s') && CallsReturned(s'.threads, |s.threads|, first + rest)
  {
    ReachedIsKept(s1, s');
    ReturnedJoin(s1.threads, s'.threads, |s.threads|, first, rest);
    ReachesFurther(s, s1, s');
  }

  function Last(es: seq<T.Event>, since: T.Time): T.Time {
    if es == [] then since else es[|es| - 1].now
  }

  lemma {:induction false} SimulateFrom(s: State, q: T.State, es: seq<T.Event>, since: T.Time) returns (s': State)
    requires Inv(s) && s.loads == map[] && Shows(s, q, since) && ClockRuns(es, since)
    ensures Reaches(s, s') && Shows(s', T.After(q, es), Last(es, since))
    ensures CallsReturned(s'.threads, |s.threads|, Replies(q, es))
    decreases |es|
  {
    if es == [] {
      s' := s;
      ReachesItself(s);
    } else {
      var e := es[0];
      var s1 := TimedEvent(s, q, since, e);
      var q1 := T.Do(q, e.op, e.now, e.f).0;
      s' := SimulateFrom(s1, q1, es[1..], e.now);
      ReachedAnswers(s, s1, s', ReplyOf(q, e), Replies(q1, es[1..]));
    }
  }

  /**
   Every run of the sequential two-tier cache on a clock is a run of the concurrent protocol: its calls are
   goroutines that arrive one after the other, return what the sequential cache replies, and leave the stores it
   leaves.
   */
  lemma SequentialRunsAreRuns(es: seq<T.Event>, since: T.Time) returns (run: seq<Event>)
    requires ClockRuns(es, since)
    ensures IsRun(true, run)
    ensures var s := After(true, run);
      && Shows(s, T.After(T.Empty, es), Last(es, since))
      && CallsReturned(s.threads, 0, Replies(T.Empty, es))
  {
    var s := SimulateFrom(Init, T.Empty, es, since);
    run :| LeadsTo(Init, run, s);
  }
}
