/** The circuit breaker: the object, and the function of the event history it computes. */
module Breaker {
  datatype Phase = Closed | Open | HalfOpen

  type Time = int

  /** Any integers: the source accepts every configuration. */
  datatype Config = Config(failureThreshold: int, openTimeout: int, halfOpenMaxSuccess: int)

  datatype State = State(phase: Phase, failures: int, successes: int, openedAt: Time)

  const Fresh := State(Closed, 0, 0, 0)

  /** One locked call; `Allow` and `State` both poll the clock. */
  datatype Event = Poll(now: Time) | Success(now: Time) | Failure(now: Time)

  function Polled(cfg: Config, s: State, now: Time): State {
    if s.phase.Open? && now - s.openedAt >= cfg.openTimeout then s.(phase := HalfOpen, successes := 0) else s
  }

  function Tripped(s: State, now: Time): State {
    s.(phase := Open, openedAt := now, successes := 0)
  }

  function Succeeded(cfg: Config, s: State): State {
    match s.phase
    case Closed => s.(failures := 0)
    case HalfOpen =>
      if s.successes + 1 >= cfg.halfOpenMaxSuccess then s.(phase := Closed, failures := 0, successes := 0)
      else s.(successes := s.successes + 1)
    case Open => s
  }

  function Failed(cfg: Config, s: State, now: Time): State {
    match s.phase
    case Closed =>
      var s1 := s.(failures := s.failures + 1);
      if s1.failures >= cfg.failureThreshold then Tripped(s1, now) else s1
    case HalfOpen => Tripped(s, now)
    case Open => s
  }

  function Next(cfg: Config, s: State, e: Event): State {
    match e
    case Poll(now) => Polled(cfg, s, now)
    case Success(_) => Succeeded(cfg, s)
    case Failure(now) => Failed(cfg, s, now)
  }

  /** The state after a history. */
  function After(cfg: Config, h: seq<Event>): State {
    if h == [] then Fresh else Next(cfg, After(cfg, h[..|h| - 1]), h[|h| - 1])
  }

  function Admits(cfg: Config, s: State): bool {
    match s.phase
    case Closed => true
    case HalfOpen => s.successes < cfg.halfOpenMaxSuccess
    case Open => false
  }

  lemma AfterSnoc(cfg: Config, h: seq<Event>, e: Event)
    ensures After(cfg, h + [e]) == Next(cfg, After(cfg, h), e)
  {
    assert (h + [e])[..|h|] == h;
  }

  class Breaker {
    const cfg: Config
    var phase: Phase
    var failures: int
    var successes: int
    var openedAt: Time
    ghost var history: seq<Event>

    ghost function View(): State
      reads this
    {
      State(phase, failures, successes, openedAt)
    }

    /** The fields are the state after the history of calls. */
    ghost predicate Valid()
      reads this
    {
      View() == After(cfg, history)
    }

    constructor (cfg: Config)
      ensures Valid() && history == [] && this.cfg == cfg
    {
      this.cfg := cfg;
      phase, failures, successes, openedAt, history := Closed, 0, 0, 0, [];
    }

    method CurrentState(now: Time) returns (p: Phase)
      requires Valid()
      modifies this
      ensures Valid() && history == old(history) + [Poll(now)]
      ensures p == After(cfg, history).phase
    {
      AfterSnoc(cfg, history, Poll(now));
      CheckOpenTimeout(now);
      history := history + [Poll(now)];
      p := phase;
    }

    method Allow(now: Time) returns (ok: bool)
      requires Valid()
      modifies this
      ensures Valid() && history == old(history) + [Poll(now)]
      ensures ok <==> Admits(cfg, After(cfg, history))
    {
      AfterSnoc(cfg, history, Poll(now));
      CheckOpenTimeout(now);
      history := history + [Poll(now)];
      match phase {
        case Closed => ok := true;
        case HalfOpen => ok := successes < cfg.halfOpenMaxSuccess;
        case Open => ok := false;
      }
    }

    method OnSuccess(now: Time)
      requires Valid()
      modifies this
      ensures Valid() && history == old(history) + [Success(now)]
    {
      AfterSnoc(cfg, history, Success(now));
      match phase {
        case Closed => failures := 0;
        case HalfOpen =>
          successes := successes + 1;
          if successes >= cfg.halfOpenMaxSuccess {
            phase := Closed;
            failures := 0;
            successes := 0;
          }
        case Open =>
      }
      history := history + [Success(now)];
    }

    method OnFailure(now: Time)
      requires Valid()
      modifies this
      ensures Valid() && history == old(history) + [Failure(now)]
    {
      AfterSnoc(cfg, history, Failure(now));
      match phase {
        case Closed =>
          failures := failures + 1;
          if failures >= cfg.failureThreshold { ToOpen(now); }
        case HalfOpen => ToOpen(now);
        case Open =>
      }
      history := history + [Failure(now)];
    }

    method CheckOpenTimeout(now: Time)
      modifies this`phase, this`successes
      ensures View() == Polled(cfg, old(View()), now)
    {
      if phase == Open && now - openedAt >= cfg.openTimeout {
        phase := HalfOpen;
        successes := 0;
      }
    }

    method ToOpen(now: Time)
      modifies this`phase, this`openedAt, this`successes
      ensures View() == Tripped(old(View()), now)
    {
      phase := Open;
      openedAt := now;
      successes := 0;
    }
  }
}
