/**
 The cache object itself: the mutex-guarded fields that the goroutines of `GetOrSet`, `Get` and `Set` update,
 one method for each atomic region. Every method takes exactly the protocol's step, so all that is proved of
 the runs of `Singleflight` holds of any interleaving of these methods.
 */
module SharedCache {
  import opened Common
  import opened Singleflight

  /** The protocol's step at each of the four places that write L1. */
  lemma L1Write(tiered: bool, s: State, t: nat, env: Env)
    requires Inv(s) && Enabled(s, t) && ThreadOk(s, t)
    ensures var k, pc, s' := s.threads[t].key, s.threads[t].pc, Step(tiered, s, t, env);
      && (pc.StoreL1? ==> s' == GoTo(WriteL1(s, k, s.calls[pc.c].outcome.value.val, env.l1Kept), t, Release(pc.c)))
      && (pc.Promote? ==> s' == GoTo(WriteL1(s, k, pc.v, env.l1Kept), t, Done(Ok(pc.v), L2Hit)))
      && (pc.GetPromote? ==> s' == GoTo(WriteL1(s, k, pc.v, env.l1Kept), t, DoneGet(Some(pc.v))))
      && (pc.SetL1? ==> s' == GoTo(WriteL1(s, k, pc.v, env.l1Kept), t, DoneSet))
  {
  }

  class Cache {
    const tiered: bool
    var l1: map<Key, Bytes>
    var l2: map<Key, Bytes>
    var loads: map<Key, nat>
    var calls: seq<Call>
    var threads: seq<Thread>
    ghost var produced: set<(Key, Bytes)>

    ghost function View(): State
      reads this
    {
      State(threads, loads, calls, l1, l2, produced)
    }

    ghost predicate Valid()
      reads this
    {
      Inv(View())
    }

    ghost predicate At(t: nat)
      reads this
    {
      Valid() && Enabled(View(), t) && ThreadOk(View(), t)
    }

    constructor (tiered: bool)
      ensures Valid() && View() == Init && this.tiered == tiered
    {
      this.tiered := tiered;
      l1, l2, loads, calls, threads, produced := map[], map[], map[], [], [], {};
    }

    /** A goroutine enters one of the three operations. */
    method Enter(key: Key, req: Request) returns (t: nat)
      requires Valid()
      modifies this
      ensures Valid() && View() == Next(tiered, old(View()), Spawn(key, req))
      ensures t == |old(threads)| && t < |threads| && threads[t].key == key
    {
      SpawnKeepsInv(tiered, View(), key, req);
      t := |threads|;
      var pc := if req.GetOrSetReq? then CheckL1 else if req.GetReq? then GetL1
                else if tiered then SetL2(req.v) else SetL1(req.v);
      threads := threads + [Thread(key, pc)];
      if req.SetReq? { produced := produced + {(key, req.v)}; }
    }

    method LookIntoL1(t: nat, ghost env: Env)
      requires At(t) && threads[t].pc.CheckL1?
      modifies this`threads
      ensures Valid() && View() == Next(tiered, old(View()), Move(t, env))
    {
      StepKeepsInv(tiered, View(), t, env);
      var k := threads[t].key;
      var pc := Join;
      if k in l1 {
        pc := Done(Ok(l1[k]), L1Hit);
      } else if tiered {
        pc := CheckL2;
      }
      threads := threads[t := Thread(k, pc)];
    }

    method LookIntoL2(t: nat, readOk: bool, ghost env: Env)
      requires At(t) && threads[t].pc.CheckL2? && env.l2Read == readOk
      modifies this`threads
      ensures Valid() && View() == Next(tiered, old(View()), Move(t, env))
    {
      StepKeepsInv(tiered, View(), t, env);
      var k := threads[t].key;
      var pc := Join;
      if readOk && k in l2 { pc := Promote(l2[k]); }
      threads := threads[t := Thread(k, pc)];
    }

    /** The locked region: join the call in flight on this key, or register a new one. */
    method JoinOrCreate(t: nat, ghost env: Env) returns (leads: bool)
      requires At(t) && threads[t].pc.Join?
      modifies this`threads, this`loads, this`calls
      ensures Valid() && View() == Next(tiered, old(View()), Move(t, env))
      ensures leads <==> threads[t].key !in old(loads)
      ensures leads ==> threads[t].key in loads && loads[threads[t].key] !in old(loads).Values
    {
      StepKeepsInv(tiered, View(), t, env);
      var k := threads[t].key;
      leads := k !in loads;
      if leads {
        var c := |calls|;
        assert forall j :: j in loads ==> LoadOk(View(), j);
        calls := calls + [Call(k, t, None, false)];
        loads := loads[k := c];
        threads := threads[t := Thread(k, Load(c))];
      } else {
        threads := threads[t := Thread(k, Wait(loads[k]))];
      }
    }

    method LoaderReturned(t: nat, result: Outcome, ghost env: Env)
      requires At(t) && threads[t].pc.Load? && env.loader == result
      modifies this`threads, this`calls, this`produced
      ensures Valid() && View() == Next(tiered, old(View()), Move(t, env))
    {
      StepKeepsInv(tiered, View(), t, env);
      var k, c := threads[t].key, threads[t].pc.c;
      calls := calls[c := calls[c].(outcome := Some(result))];
      var pc := Release(c);
      if result.Ok? {
        produced := produced + {(k, result.val)};
        pc := if tiered then StoreL2(c) else StoreL1(c);
      }
      threads := threads[t := Thread(k, pc)];
    }

    method StoreInL2(t: nat, wrote: bool, ghost env: Env)
      requires At(t) && (threads[t].pc.StoreL2? || threads[t].pc.SetL2?) && env.l2Wrote == wrote
      modifies this`threads, this`l2
      ensures Valid() && View() == Next(tiered, old(View()), Move(t, env))
    {
      StepKeepsInv(tiered, View(), t, env);
      var k, pc := threads[t].key, threads[t].pc;
      if wrote {
        l2 := l2[k := if pc.StoreL2? then calls[pc.c].outcome.value.val else pc.v];
      }
      threads := threads[t := Thread(k, if pc.StoreL2? then StoreL1(pc.c) else SetL1(pc.v))];
    }

    /** The L1 write of a leader, of `Set` and of a promotion. */
    method StoreInL1(t: nat, kept: bool, ghost env: Env)
      requires At(t) && (threads[t].pc.StoreL1? || threads[t].pc.SetL1? || threads[t].pc.Promote? || threads[t].pc.GetPromote?)
      requires env.l1Kept == kept
      modifies this`threads, this`l1
      ensures Valid() && View() == Next(tiered, old(View()), Move(t, env))
    {
      StepKeepsInv(tiered, View(), t, env);
      L1Write(tiered, View(), t, env);
      var k, pc := threads[t].key, threads[t].pc;
      var v := if pc.StoreL1? then calls[pc.c].outcome.value.val else pc.v;
      l1 := if kept then l1[k := v] else l1 - {k};
      var next := match pc
        case StoreL1(c) => Release(c)
        case Promote(_) => Done(Ok(v), L2Hit)
        case GetPromote(_) => DoneGet(Some(v))
        case _ => DoneSet;
      threads := threads[t := Thread(k, next)];
    }

    /** `wg.Done`: the waiters may go on. */
    method ReleaseWaiters(t: nat, ghost env: Env)
      requires At(t) && threads[t].pc.Release?
      modifies this`threads, this`calls
      ensures Valid() && View() == Next(tiered, old(View()), Move(t, env))
    {
      StepKeepsInv(tiered, View(), t, env);
      var k, c := threads[t].key, threads[t].pc.c;
      calls := calls[c := calls[c].(released := true)];
      threads := threads[t := Thread(k, Delete(c))];
    }

    /** The locked delete, and the leader's return. */
    method DeleteCall(t: nat, ghost env: Env) returns (result: Outcome)
      requires At(t) && threads[t].pc.Delete?
      modifies this`threads, this`loads
      ensures Valid() && View() == Next(tiered, old(View()), Move(t, env))
      ensures threads[t].pc.Done? && threads[t].pc.result == result
    {
      StepKeepsInv(tiered, View(), t, env);
      var k, c := threads[t].key, threads[t].pc.c;
      loads := loads - {k};
      result := calls[c].outcome.value;
      threads := threads[t := Thread(k, Done(result, Led(c)))];
    }

    /** `wg.Wait` returns: only once the call is released. */
    method WakeUp(t: nat, ghost env: Env) returns (result: Outcome)
      requires At(t) && threads[t].pc.Wait?
      modifies this`threads
      ensures Valid() && View() == Next(tiered, old(View()), Move(t, env))
      ensures threads[t].pc.Done? && threads[t].pc.result == result
    {
      StepKeepsInv(tiered, View(), t, env);
      var k, c := threads[t].key, threads[t].pc.c;
      assert CallOk(View(), c);
      result := calls[c].outcome.value;
      threads := threads[t := Thread(k, Done(result, Waited(c)))];
    }

    /** The first look of `Get`. */
    method GetFromL1(t: nat, ghost env: Env)
      requires At(t) && threads[t].pc.GetL1?
      modifies this`threads
      ensures Valid() && View() == Next(tiered, old(View()), Move(t, env))
    {
      StepKeepsInv(tiered, View(), t, env);
      var k := threads[t].key;
      var pc := if k in l1 then DoneGet(Some(l1[k])) else if tiered then GetL2 else DoneGet(None);
      threads := threads[t := Thread(k, pc)];
    }

    /** The second look of `Get`. */
    method GetFromL2(t: nat, readOk: bool, ghost env: Env)
      requires At(t) && threads[t].pc.GetL2? && env.l2Read == readOk
      modifies this`threads
      ensures Valid() && View() == Next(tiered, old(View()), Move(t, env))
    {
      StepKeepsInv(tiered, View(), t, env);
      var k := threads[t].key;
      threads := threads[t := Thread(k, if readOk && k in l2 then GetPromote(l2[k]) else DoneGet(None))];
    }
  }
}
