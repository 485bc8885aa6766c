/** The protocol cannot deadlock, and does a bounded amount of work for each goroutine. */
module SingleflightLiveness {
  import opened Singleflight

  /** How many regions a goroutine still has to go through, at most. */
  function Rank(pc: Pc): nat {
    match pc
    case CheckL1 => 8
    case CheckL2 => 7
    case Join => 6
    case Load(_) => 5
    case StoreL2(_) => 4
    case StoreL1(_) => 3
    case Release(_) => 2
    case Delete(_) => 1
    case Wait(_) => 1
    case Promote(_) => 1
    case GetL1 => 3
    case GetL2 => 2
    case GetPromote(_) => 1
    case SetL2(_) => 2
    case SetL1(_) => 1
    case _ => 0
  }

  function Measure(threads: seq<Thread>): nat {
    if threads == [] then 0 else Measure(threads[..|threads| - 1]) + Rank(threads[|threads| - 1].pc)
  }

  lemma {:induction false} MeasureUpdate(threads: seq<Thread>, t: nat, th: Thread)
    requires t < |threads|
    ensures Measure(threads[t := th]) == Measure(threads) - Rank(threads[t].pc) + Rank(th.pc)
  {
    var n := |threads| - 1;
    var changed := threads[t := th];
    if t < n {
      MeasureUpdate(threads[..n], t, th);
      assert changed[..n] == threads[..n][t := th];
    } else {
      assert changed[..n] == threads[..n];
    }
  }

  lemma {:induction false} MeasureAtLeast(threads: seq<Thread>, t: nat)
    requires t < |threads|
    ensures Measure(threads) >= Rank(threads[t].pc)
  {
    if t < |threads| - 1 { MeasureAtLeast(threads[..|threads| - 1], t); }
  }

  predicate AllFinished(s: State) {
    forall t: nat :: t < |s.threads| ==> s.threads[t].pc.Finished()
  }

  /** No deadlock: while some goroutine is unfinished, one can move; a blocked waiter's leader, for one. */
  lemma SomeoneCanMove(s: State, t: nat) returns (u: nat)
    requires Inv(s) && t < |s.threads| && !s.threads[t].pc.Finished()
    ensures Enabled(s, u)
    ensures u == t || (s.threads[t].pc.Wait? && s.threads[t].key in s.loads && s.threads[u].pc.InFlight() &&
                       s.threads[u].pc.c == s.threads[t].pc.c)
  {
    assert ThreadOk(s, t);
    u := t;
    if s.threads[t].pc.Wait? && !s.calls[s.threads[t].pc.c].released {
      assert LoadOk(s, s.threads[t].key);
      u := s.calls[s.threads[t].pc.c].owner;
      assert CallOk(s, s.threads[t].pc.c);
    }
  }

  lemma RankDrops(tiered: bool, s: State, t: nat, env: Env)
    requires Inv(s) && Enabled(s, t)
    ensures t < |Step(tiered, s, t, env).threads|
    ensures Rank(Step(tiered, s, t, env).threads[t].pc) < Rank(s.threads[t].pc)
  {
    assert ThreadOk(s, t);
    if s.threads[t].pc.InFlight() {
      FlightRankDrops(tiered, s, t, env);
    } else if s.threads[t].pc.Stores() {
      WriteRankDrops(s, t, env);
    } else {
      assert Looks(s, t);
      LookRankDrops(tiered, s, t, env);
    }
  }

  lemma WriteRankDrops(s: State, t: nat, env: Env)
    requires t < |s.threads| && s.threads[t].pc.Stores()
    ensures var s' := WriteStep(s, t, env);
      t < |s'.threads| && Rank(s'.threads[t].pc) < Rank(s.threads[t].pc)
  {
  }

  lemma FlightRankDrops(tiered: bool, s: State, t: nat, env: Env)
    requires ThreadOk(s, t) && s.threads[t].pc.InFlight()
    ensures var s' := FlightStep(tiered, s, t, env);
      t < |s'.threads| && Rank(s'.threads[t].pc) < Rank(s.threads[t].pc)
  {
    FlightTargets(tiered, s, t, env);
  }

  lemma LookRankDrops(tiered: bool, s: State, t: nat, env: Env)
    requires Looks(s, t)
    ensures var s' := LookStep(tiered, s, t, env);
      t < |s'.threads| && Rank(s'.threads[t].pc) < Rank(s.threads[t].pc)
  {
    LookTargets(tiered, s, t, env);
  }

  /** Every step brings its goroutine closer to the end and moves no other. */
  lemma StepDecreases(tiered: bool, s: State, t: nat, env: Env)
    requires Inv(s) && Enabled(s, t)
    ensures Measure(Next(tiered, s, Move(t, env)).threads) < Measure(s.threads)
  {
    var threads' := Next(tiered, s, Move(t, env)).threads;
    StepOnlyTouches(tiered, s, t, env);
    RankDrops(tiered, s, t, env);
    assert threads' == s.threads[t := threads'[t]];
    MeasureUpdate(s.threads, t, threads'[t]);
  }

  function Moves(es: seq<Event>): nat {
    if es == [] then 0 else (if es[0].Move? then 1 else 0) + Moves(es[1..])
  }

  function Spawns(es: seq<Event>): nat {
    if es == [] then 0 else (if es[0].Spawn? then 1 else 0) + Spawns(es[1..])
  }

  lemma EventWork(tiered: bool, s: State, e: Event)
    requires Inv(s) && CanDo(s, e)
    ensures Moves([e]) + Measure(Next(tiered, s, e).threads) <= Measure(s.threads) + 8 * Spawns([e])
  {
    match e {
      case Spawn(k, req) =>
        assert SpawnThread(tiered, s, k, req).threads[..|s.threads|] == s.threads;
      case Move(t, env) =>
        StepDecreases(tiered, s, t, env);
      case _ =>
    }
  }

  /** Under any schedule, any losses and any loader results, the goroutines take at most 8 steps each. */
  lemma {:induction false} WorkIsBounded(tiered: bool, s: State, es: seq<Event>)
    requires Inv(s) && Runs(tiered, s, es)
    ensures Moves(es) + Measure(Exec(tiered, s, es).threads) <= Measure(s.threads) + 8 * Spawns(es)
    decreases |es|
  {
    if es != [] {
      EventWork(tiered, s, es[0]);
      WorkIsBounded(tiered, Next(tiered, s, es[0]), es[1..]);
    }
  }

  /** A run that cannot go on has finished every goroutine: nobody waits for ever. */
  lemma StuckMeansFinished(tiered: bool, es: seq<Event>)
    requires IsRun(tiered, es)
    ensures AllFinished(After(tiered, es)) <==> forall t: nat :: !Enabled(After(tiered, es), t)
    ensures Moves(es) <= 8 * Spawns(es)
  {
    var s := After(tiered, es);
    WorkIsBounded(tiered, Init, es);
    forall t: nat | t < |s.threads| && !s.threads[t].pc.Finished() ensures exists u: nat :: Enabled(s, u) {
      var u := SomeoneCanMove(s, t);
    }
  }

  /** Whatever the loaders return and the stores lose from here on, the goroutines can all be run to their end. */
  lemma {:induction false} CanFinish(tiered: bool, s: State, envs: seq<Env>) returns (es: seq<Event>)
    requires Inv(s) && |envs| >= Measure(s.threads)
    ensures Runs(tiered, s, es) && AllFinished(Exec(tiered, s, es))
    ensures |es| <= Measure(s.threads)
    ensures forall i :: 0 <= i < |es| ==> es[i].Move? && es[i].env == envs[i]
    decreases Measure(s.threads)
  {
    if AllFinished(s) {
      es := [];
    } else {
      var t: nat :| t < |s.threads| && !s.threads[t].pc.Finished();
      var u := SomeoneCanMove(s, t);
      assert Rank(s.threads[t].pc) > 0;
      MeasureAtLeast(s.threads, t);
      StepDecreases(tiered, s, u, envs[0]);
      var rest := CanFinish(tiered, Next(tiered, s, Move(u, envs[0])), envs[1..]);
      es := [Move(u, envs[0])] + rest;
      assert es[1..] == rest;
    }
  }
}
