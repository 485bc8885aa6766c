/** The retry loop and its delays; durations are whole nanoseconds, fractions are exact. */
module Retry {
  datatype Config = Config(maxAttempts: int, baseDelay: int, maxDelay: int, jitter: real, retryCodes: seq<nat>)

  /** What one call of the function returns: a value, a gRPC status, or an error without one. */
  datatype CallResult<T> = Value(v: T) | StatusError(code: nat) | PlainError(msg: string)

  /** How the wait after a failed call ends: when timer and context are both ready, the choice is arbitrary. */
  datatype Race = TimerOnly | ContextOnly | BothReady(picksContext: bool) {
    predicate ContextDone() {
      !TimerOnly?
    }

    predicate ContextWins() {
      ContextOnly? || (BothReady? && picksContext)
    }
  }

  /** What `Do` returns: the value, the last error, or the context's error. */
  datatype Verdict<T> = Success(v: T) | Error(e: CallResult<T>) | ContextError

  type Draw = r: real | 0.0 <= r < 1.0 witness 0.0

  function Pow2(n: nat): nat {
    if n == 0 then 1 else 2 * Pow2(n - 1)
  }

  /** The delay before jitter: exponential and capped. */
  function Capped(cfg: Config, attempt: nat): int {
    var delay := cfg.baseDelay * Pow2(attempt);
    if delay > cfg.maxDelay then cfg.maxDelay else delay
  }

  function Spread(delay: real, jitter: real, draw: Draw): real {
    if jitter > 0.0 then delay + delay * jitter * (draw * 2.0 - 1.0) else delay
  }

  function Jittered(cfg: Config, attempt: nat, draw: Draw): real {
    Spread(Capped(cfg, attempt) as real, cfg.jitter, draw)
  }

  /** A negative delay is none; fractions of a nanosecond are cut off. */
  function Whole(d: real): nat {
    if d < 0.0 then 0 else d.Floor
  }

  function Delay(cfg: Config, attempt: nat, draw: Draw): nat {
    Whole(Jittered(cfg, attempt, draw))
  }

  method Backoff(cfg: Config, attempt: nat, draw: Draw) returns (duration: nat)
    ensures duration == Delay(cfg, attempt, draw)
  {
    var delay := (cfg.baseDelay * Pow2(attempt)) as real;
    if delay > cfg.maxDelay as real { delay := cfg.maxDelay as real; }
    assert delay == Capped(cfg, attempt) as real;
    if cfg.jitter > 0.0 { delay := delay + delay * cfg.jitter * (draw * 2.0 - 1.0); }
    assert delay == Jittered(cfg, attempt, draw);
    if delay < 0.0 { delay := 0.0; }
    duration := delay.Floor;
  }

  function Attempts(cfg: Config): nat {
    if cfg.maxAttempts < 1 then 1 else cfg.maxAttempts
  }

  predicate Retryable<T>(cfg: Config, r: CallResult<T>) {
    r.StatusError? && r.code in cfg.retryCodes
  }

  function Total(delays: seq<nat>): nat {
    if delays == [] then 0 else Total(delays[..|delays| - 1]) + delays[|delays| - 1]
  }

  /** The delays after the first `n` calls. */
  function Waits(cfg: Config, draws: nat -> Draw, n: nat): seq<nat> {
    seq<nat>(n, i requires 0 <= i => Delay(cfg, i, draws(i)))
  }

  /** Attempt `i` is followed by another: it failed with a retryable code, was not the last, and the timer won. */
  predicate GoesOn<T>(cfg: Config, i: nat, r: CallResult<T>, race: Race) {
    Retryable(cfg, r) && i + 1 < Attempts(cfg) && !race.ContextWins()
  }

  /**
   Call `results(0)`, `results(1)` and so on. `n` is the number of calls and `waits` are the delays between
   them; the last wait is cut short if the context wins it.
   */
  method Do<T>(cfg: Config, results: nat -> CallResult<T>, races: nat -> Race, draws: nat -> Draw)
    returns (verdict: Verdict<T>, n: nat, waits: seq<nat>)
    ensures 1 <= n <= Attempts(cfg)
    ensures forall i: nat :: i < n - 1 ==> GoesOn(cfg, i, results(i), races(i))
    ensures !GoesOn(cfg, n - 1, results(n - 1), races(n - 1))
    ensures match results(n - 1)
      case Value(v) => verdict == Success(v)
      case _ => verdict == if Retryable(cfg, results(n - 1)) && n < Attempts(cfg) then ContextError else Error(results(n - 1))
    ensures verdict.ContextError? ==> races(n - 1).ContextDone()
    ensures waits == Waits(cfg, draws, if verdict.ContextError? then n else n - 1)
    // the same in the source's own terms
    ensures 1 <= n <= (if cfg.maxAttempts <= 1 then 1 else cfg.maxAttempts)
    ensures forall i: nat :: i < n - 1 ==>
      results(i).StatusError? && results(i).code in cfg.retryCodes && (races(i) == TimerOnly || races(i) == BothReady(false))
    ensures results(n - 1).Value? ==> verdict == Success(results(n - 1).v)
    ensures verdict.Success? ==> results(n - 1) == Value(verdict.v)
    ensures verdict.Error? ==>
      && verdict.e == results(n - 1) && !results(n - 1).Value?
      && (n >= cfg.maxAttempts || !(results(n - 1).StatusError? && results(n - 1).code in cfg.retryCodes))
    ensures verdict.ContextError? ==>
      && n < cfg.maxAttempts && results(n - 1).StatusError? && results(n - 1).code in cfg.retryCodes
      && (races(n - 1) == ContextOnly || races(n - 1) == BothReady(true))
    ensures |waits| == (if verdict.ContextError? then n else n - 1)
    ensures forall i: nat :: i < |waits| ==> waits[i] == Delay(cfg, i, draws(i))
  {
    var attempts := Attempts(cfg);
    waits := [];
    for i := 0 to attempts
      invariant forall j: nat :: j < i ==> GoesOn(cfg, j, results(j), races(j))
      invariant waits == Waits(cfg, draws, i)
      invariant i < attempts || !GoesOn(cfg, attempts - 1, results(attempts - 1), races(attempts - 1))
    {
      var result := results(i);
      n := i + 1;
      if result.Value? {
        return Success(result.v), n, waits;
      }
      if i == attempts - 1 {
        return Error(result), n, waits;
      }
      if !(result.StatusError? && result.code in cfg.retryCodes) {
        return Error(result), n, waits;
      }
      var delay := Backoff(cfg, i, draws(i));
      waits := waits + [delay];
      if races(i).ContextWins() {
        return ContextError, n, waits;
      }
    }
    assert false;  // every path returns inside the loop
  }

  // ---------------------------------------------------------------- how many calls

  /** The calls are pinned down: there is one number that fits. */
  lemma CallsDetermined<T>(cfg: Config, results: nat -> CallResult<T>, races: nat -> Race, m: nat, n: nat)
    requires m >= 1 && n >= 1
    requires forall i: nat :: i < m - 1 ==> GoesOn(cfg, i, results(i), races(i))
    requires forall i: nat :: i < n - 1 ==> GoesOn(cfg, i, results(i), races(i))
    requires !GoesOn(cfg, m - 1, results(m - 1), races(m - 1)) && !GoesOn(cfg, n - 1, results(n - 1), races(n - 1))
    ensures m == n
  {
    var x, y := GoesOn(cfg, m - 1, results(m - 1), races(m - 1)), GoesOn(cfg, n - 1, results(n - 1), races(n - 1));
  }

  /** The same readiness of timer and context, with the choice made by `p` where there is one. */
  function Pick(race: Race, p: bool): Race {
    if race.BothReady? then BothReady(p) else race
  }

  /**
   "The context is checked before every retry": at a wait that is reached with a done context, every choice
   stops there exactly when the timer is not ready. With both ready the choice is arbitrary.
   */
  lemma DoneContextStopsIff<T>(cfg: Config, i: nat, r: CallResult<T>, race: Race)
    requires Retryable(cfg, r) && i + 1 < Attempts(cfg) && race.ContextDone()
    ensures (forall p :: !GoesOn(cfg, i, r, Pick(race, p))) <==> race.ContextOnly?
  {
    if race.BothReady? { assert GoesOn(cfg, i, r, Pick(race, false)); }
  }

  /** With a context that is done throughout, every attempt may still be made. */
  method RetriesWithDoneContext(cfg: Config, code: nat, draws: nat -> Draw) returns (n: nat)
    requires cfg.maxAttempts >= 2 && code in cfg.retryCodes
    ensures n == cfg.maxAttempts && BothReady(false).ContextDone()
  {
    var results: nat -> CallResult<int> := _ => StatusError(code);
    var races: nat -> Race := _ => BothReady(false);
    var verdict, calls, waits := Do(cfg, results, races, draws);
    n := calls;
    assert forall i: nat :: i + 1 < cfg.maxAttempts ==> GoesOn(cfg, i, results(i), races(i));
  }

  // ---------------------------------------------------------------- how long

  /** Without jitter the delay is exactly the capped exponential. */
  lemma DelayWithoutJitter(cfg: Config, attempt: nat, draw: Draw)
    requires cfg.jitter <= 0.0
    ensures Delay(cfg, attempt, draw) ==
      var d := cfg.baseDelay * Pow2(attempt);
      if d <= cfg.maxDelay then (if d < 0 then 0 else d) else (if cfg.maxDelay < 0 then 0 else cfg.maxDelay)
  {
  }

  function Raised(delay: real, jitter: real): real {
    if jitter > 0.0 then delay * (1.0 + jitter) else delay
  }

  /** The delay at the draw zero, which is the longest one if `delay` is negative. */
  function Lowered(delay: real, jitter: real): real {
    if jitter > 0.0 then delay - delay * jitter else delay
  }

  /** The delay that the largest draw would approach. */
  function Peak(cfg: Config, attempt: nat): real {
    Raised(Capped(cfg, attempt) as real, cfg.jitter)
  }

  lemma MulLe(x: real, y: real, z: real)
    requires 0.0 <= x && y <= z
    ensures x * y <= x * z
  {
  }

  lemma MulPositive(x: real, y: real)
    requires x > 0.0 && y > 0.0
    ensures x * y > 0.0
  {
  }

  lemma MulLess(p: real, x: real)
    requires p >= 0.0 && x < 1.0
    ensures p * x <= p
    ensures p > 0.0 ==> p * x < p
  {
    if p > 0.0 {
      MulPositive(p, 1.0 - x);
      assert p * (1.0 - x) == p - p * x;
    }
  }

  /** The first retry waits Base, each later one twice as long as the one before, up to Max. */
  lemma DelaysDouble(cfg: Config, attempt: nat, draw: Draw)
    requires cfg.jitter <= 0.0 && cfg.baseDelay >= 0 && cfg.maxDelay >= 0
    ensures Delay(cfg, 0, draw) == if cfg.baseDelay <= cfg.maxDelay then cfg.baseDelay else cfg.maxDelay
    ensures var d := Delay(cfg, attempt, draw);
      Delay(cfg, attempt + 1, draw) == if 2 * d <= cfg.maxDelay then 2 * d else cfg.maxDelay
  {
    AbsOfProduct(cfg.baseDelay, Pow2(attempt));
    Twice(cfg.baseDelay, Pow2(attempt));
  }

  lemma Twice(base: int, p: nat)
    ensures base * (2 * p) == 2 * (base * p)
  {
  }

  /** Jitter is proportional to the delay: from minus its fraction at the draw 0, over nothing at 1/2, towards plus it. */
  lemma JitterIsProportional(delay: real, jitter: real, draw: Draw)
    requires jitter > 0.0
    ensures Spread(delay, jitter, draw) == Scaled(delay, jitter, draw)
    ensures Spread(delay, jitter, 0.0) == delay * (1.0 - jitter)
    ensures Spread(delay, jitter, 0.5) == delay
  {
    var x := draw * 2.0 - 1.0;
    assert delay * (1.0 + jitter * x) == delay + delay * jitter * x;
    assert delay * (1.0 - jitter) == delay + delay * jitter * (0.0 * 2.0 - 1.0);
    assert 0.5 * 2.0 - 1.0 == 0.0;
  }

  /** A delay is short by at most its fraction, and by less than a nanosecond of rounding. */
  lemma DelayAtLeast(cfg: Config, attempt: nat, draw: Draw)
    requires Capped(cfg, attempt) >= 0
    ensures Delay(cfg, attempt, draw) as real > Lowered(Capped(cfg, attempt) as real, cfg.jitter) - 1.0
  {
    var d := Capped(cfg, attempt) as real;
    SpreadAtLeast(d, cfg.jitter, draw);
    WholeAbove(Jittered(cfg, attempt, draw));
  }

  lemma SpreadAtLeast(d: real, jitter: real, draw: Draw)
    requires d >= 0.0
    ensures Spread(d, jitter, draw) >= Lowered(d, jitter)
  {
    if jitter > 0.0 {
      var p, x: real := d * jitter, draw * 2.0 - 1.0;
      assert p >= 0.0 by { MulLe(d, 0.0, jitter); }
      assert -p <= p * x by { MulLe(p, -1.0, x); }
      assert Spread(d, jitter, draw) == d + p * x;
    }
  }

  /** `n` is `x` rounded down, or nothing if `x` is negative. */
  predicate RoundsTo(x: real, n: nat) {
    if x < 0.0 then n == 0 else n as real <= x < n as real + 1.0
  }

  function Scaled(delay: real, jitter: real, draw: Draw): real {
    delay * (1.0 + jitter * (2.0 * draw - 1.0))
  }

  /** With jitter, the delay is the capped delay times 1 + jitter * (2 * draw - 1), rounded down, and never negative. */
  lemma DelayRoundsDown(cfg: Config, attempt: nat, draw: Draw)
    requires cfg.jitter > 0.0
    ensures RoundsTo(Scaled(Capped(cfg, attempt) as real, cfg.jitter, draw), Delay(cfg, attempt, draw))
  {
    var x := Scaled(Capped(cfg, attempt) as real, cfg.jitter, draw);
    JitterIsProportional(Capped(cfg, attempt) as real, cfg.jitter, draw);
    assert Jittered(cfg, attempt, draw) == x;
    WholeRounds(x);
  }

  lemma WholeRounds(d: real)
    ensures RoundsTo(d, Whole(d))
  {
  }

  lemma WholeAbove(d: real)
    ensures Whole(d) as real > d - 1.0
  {
  }

  function Abs(x: int): nat {
    if x < 0 then -x else x
  }

  /** Jitter adds less than its fraction of a delay, and takes off at most as much. */
  lemma JitterAdds(d: real, jitter: real, draw: Draw)
    requires d >= 0.0
    ensures 0.0 <= Raised(d, jitter)
    ensures Spread(d, jitter, draw) <= Raised(d, jitter)
    ensures d > 0.0 && jitter > 0.0 ==> Spread(d, jitter, draw) < Raised(d, jitter)
    ensures Spread(-d, jitter, draw) <= Lowered(-d, jitter) <= Raised(d, jitter)
  {
    if jitter > 0.0 {
      var p, x: real := d * jitter, draw * 2.0 - 1.0;
      assert Spread(d, jitter, draw) == d + p * x;
      assert Spread(-d, jitter, draw) == -d - p * x;
      assert Raised(d, jitter) == d + p && Lowered(-d, jitter) == -d + p;
      assert p >= 0.0 by { MulLe(d, 0.0, jitter); }
      assert d > 0.0 ==> p > 0.0 by { if d > 0.0 { MulPositive(d, jitter); } }
      MulLess(p, x);
      assert -p <= p * x by { MulLe(p, -1.0, x); }
    }
  }

  lemma RaisedGrows(a: real, b: real, jitter: real)
    requires a <= b
    ensures Raised(a, jitter) <= Raised(b, jitter)
  {
    if jitter > 0.0 { MulLe(1.0 + jitter, a, b); }
  }

  /** The delay after jitter stays within the size of the capped delay times one plus the jitter. */
  lemma DelayBounded(cfg: Config, attempt: nat, draw: Draw)
    ensures Delay(cfg, attempt, draw) as real <= Raised(Abs(Capped(cfg, attempt)) as real, cfg.jitter)
  {
    JitterAdds(Abs(Capped(cfg, attempt)) as real, cfg.jitter, draw);
    WholeBelow(Jittered(cfg, attempt, draw), Raised(Abs(Capped(cfg, attempt)) as real, cfg.jitter));
  }

  lemma WholeBelow(d: real, bound: real)
    requires d <= bound && 0.0 <= bound
    ensures Whole(d) as real <= bound
  {
  }

  lemma CappedBounds(cfg: Config, attempt: nat)
    ensures Capped(cfg, attempt) <= cfg.maxDelay
    ensures cfg.maxDelay >= 0 ==> Abs(Capped(cfg, attempt)) <= Abs(cfg.baseDelay) * Pow2(attempt)
    ensures cfg.baseDelay >= 0 ==> Abs(Capped(cfg, attempt)) <= Abs(cfg.maxDelay)
    ensures Abs(Capped(cfg, attempt)) <= Abs(cfg.baseDelay) * Pow2(attempt) + Abs(cfg.maxDelay)
  {
    AbsOfProduct(cfg.baseDelay, Pow2(attempt));
  }

  lemma AbsOfProduct(x: int, p: nat)
    ensures Abs(x * p) == Abs(x) * p
    ensures x >= 0 ==> x * p >= 0
  {
    if x < 0 {
      assert -x * p == -(x * p);
      assert -x * p >= 0;
    }
  }

  /** The sum of the sizes of the capped delays before `n` retries. */
  function CappedTotal(cfg: Config, n: nat): nat {
    if n == 0 then 0 else CappedTotal(cfg, n - 1) + Abs(Capped(cfg, n - 1))
  }

  /** Base*(2^n-1), by the size of the base. */
  function ByBase(cfg: Config, n: nat): int {
    Abs(cfg.baseDelay) * (Pow2(n) - 1)
  }

  /** n*Max, by the size of the cap. */
  function ByMax(cfg: Config, n: nat): int {
    n * Abs(cfg.maxDelay)
  }

  ghost predicate Fits(cfg: Config, n: nat, total: nat) {
    && (cfg.maxDelay >= 0 ==> total <= ByBase(cfg, n))
    && (cfg.baseDelay >= 0 ==> total <= ByMax(cfg, n))
    && total <= ByBase(cfg, n) + ByMax(cfg, n)
  }

  lemma {:induction false} CappedTotalBounds(cfg: Config, n: nat)
    ensures Fits(cfg, n, CappedTotal(cfg, n))
  {
    if n > 0 {
      CappedTotalBounds(cfg, n - 1);
      CappedBounds(cfg, n - 1);
      Doubling(Abs(cfg.baseDelay), Pow2(n - 1));
      OneMore(n, Abs(cfg.maxDelay));
    }
  }

  lemma Doubling(base: int, p: nat)
    ensures base * (2 * p - 1) == base * (p - 1) + base * p
  {
  }

  lemma OneMore(n: nat, max: int)
    ensures n * max == (n - 1) * max + max
  {
  }

  lemma {:induction false} TotalWithin(cfg: Config, draws: nat -> Draw, n: nat)
    ensures Total(Waits(cfg, draws, n)) as real <= Raised(CappedTotal(cfg, n) as real, cfg.jitter)
  {
    if n > 0 {
      var m := n - 1;
      TotalWithin(cfg, draws, m);
      DelayBounded(cfg, m, draws(m));
      assert Waits(cfg, draws, n)[..m] == Waits(cfg, draws, m);
      SumRaised(CappedTotal(cfg, m), Abs(Capped(cfg, m)), cfg.jitter);
    }
  }

  lemma SumRaised(a: int, b: int, jitter: real)
    ensures Raised((a + b) as real, jitter) == Raised(a as real, jitter) + Raised(b as real, jitter)
  {
  }

  /**
   With `n` attempts the waits sum to at most min(Base*(2^(n-1)-1), (n-1)*Max), times 1 + Jitter, if neither is
   negative; a negative one counts by its size, and then only the other bound, or the sum of both, is promised.
   */
  lemma TotalWaitBounded(cfg: Config, draws: nat -> Draw, n: nat)
    requires n >= 1
    ensures var total, byBase, byMax := Total(Waits(cfg, draws, n - 1)) as real, ByBase(cfg, n - 1), ByMax(cfg, n - 1);
      && (cfg.maxDelay >= 0 ==> total <= Raised(byBase as real, cfg.jitter))
      && (cfg.baseDelay >= 0 ==> total <= Raised(byMax as real, cfg.jitter))
      && total <= Raised((byBase + byMax) as real, cfg.jitter)
  {
    TotalWithin(cfg, draws, n - 1);
    CappedTotalBounds(cfg, n - 1);
    FitsRaised(cfg, n - 1, CappedTotal(cfg, n - 1));
  }

  lemma FitsRaised(cfg: Config, n: nat, sum: nat)
    requires Fits(cfg, n, sum)
    ensures cfg.maxDelay >= 0 ==> Raised(sum as real, cfg.jitter) <= Raised(ByBase(cfg, n) as real, cfg.jitter)
    ensures cfg.baseDelay >= 0 ==> Raised(sum as real, cfg.jitter) <= Raised(ByMax(cfg, n) as real, cfg.jitter)
    ensures Raised(sum as real, cfg.jitter) <= Raised((ByBase(cfg, n) + ByMax(cfg, n)) as real, cfg.jitter)
  {
    if cfg.maxDelay >= 0 { RaisedGrows(sum as real, ByBase(cfg, n) as real, cfg.jitter); }
    if cfg.baseDelay >= 0 { RaisedGrows(sum as real, ByMax(cfg, n) as real, cfg.jitter); }
    RaisedGrows(sum as real, (ByBase(cfg, n) + ByMax(cfg, n)) as real, cfg.jitter);
  }

  // ---------------------------------------------------------------- the cap

  /** The draw at which the jittered delay is exactly `target`. */
  lemma DrawFor(d: real, jitter: real, target: real) returns (draw: Draw)
    requires jitter > 0.0 && 0.0 < d <= target < Raised(d, jitter)
    ensures Spread(d, jitter, draw) == target
  {
    var dj := d * jitter;
    assert Raised(d, jitter) == d + dj;
    var r := (target - d) / dj;
    assert r * dj == target - d;
    assert r < 1.0 by { if r >= 1.0 { MulLe(dj, 1.0, r); } }
    assert r >= 0.0 by { if r < 0.0 { MulLe(dj, r, 0.0); } }
    draw := (r + 1.0) / 2.0;
    assert draw * 2.0 - 1.0 == r;
    assert dj * r == target - d;
  }

  /** The jittered delay cannot reach one nanosecond more than the cap. */
  predicate StaysUnder(cfg: Config, attempt: nat) {
    var d, limit := Capped(cfg, attempt) as real, (cfg.maxDelay + 1) as real;
    if d >= 0.0 then Peak(cfg, attempt) <= limit else Lowered(d, cfg.jitter) < limit
  }

  /**
   "Capped at MaxDelay" holds for every draw exactly when the cap is not negative and the capped delay with all
   its jitter stays under the next nanosecond: the cap is applied before the jitter.
   */
  lemma CapHoldsIff(cfg: Config, attempt: nat)
    ensures (forall draw: Draw :: Delay(cfg, attempt, draw) <= cfg.maxDelay)
        <==> cfg.maxDelay >= 0 && StaysUnder(cfg, attempt)
  {
    if cfg.maxDelay < 0 {
      assert Delay(cfg, attempt, 0.0) > cfg.maxDelay;
    } else if StaysUnder(cfg, attempt) {
      forall draw: Draw ensures Delay(cfg, attempt, draw) <= cfg.maxDelay { UnderTheCap(cfg, attempt, draw); }
    } else {
      var draw := OverTheCap(cfg, attempt);
      assert Delay(cfg, attempt, draw) > cfg.maxDelay;
    }
  }

  lemma UnderTheCap(cfg: Config, attempt: nat, draw: Draw)
    requires cfg.maxDelay >= 0 && StaysUnder(cfg, attempt)
    ensures Delay(cfg, attempt, draw) <= cfg.maxDelay
  {
    CappedBounds(cfg, attempt);
    JitterAdds(Abs(Capped(cfg, attempt)) as real, cfg.jitter, draw);
    WholeUnder(Jittered(cfg, attempt, draw), cfg.maxDelay);
  }

  lemma OverTheCap(cfg: Config, attempt: nat) returns (draw: Draw)
    requires cfg.maxDelay >= 0 && !StaysUnder(cfg, attempt)
    ensures Delay(cfg, attempt, draw) > cfg.maxDelay
  {
    CappedBounds(cfg, attempt);
    var d, limit := Capped(cfg, attempt) as real, (cfg.maxDelay + 1) as real;
    if d >= 0.0 {
      draw := DrawFor(d, cfg.jitter, limit);
    } else {
      draw := 0.0;
      assert Spread(d, cfg.jitter, 0.0) == Lowered(d, cfg.jitter);
    }
  }

  lemma WholeUnder(d: real, m: nat)
    requires d < (m + 1) as real
    ensures Whole(d) <= m
  {
  }

  /** A delay above the cap: base and cap 100, jitter one half, draw 0.9. */
  lemma JitterCanExceedCap()
    ensures var cfg := Config(3, 100, 100, 0.5, []); Delay(cfg, 0, 0.9) > cfg.maxDelay
  {
    assert Pow2(0) == 1;
  }
}
