/** What requests take from the rate limits: one stage, a whole chain, and every sequence of requests to one server. */
module Debits {
  import opened Common
  import opened Chain
  import opened Middleware
  import opened Pipeline
  import opened Options
  import opened Gates
  import opened OptionOrder
  import opened ServerChain
  import RL = RateLimit
  import Policy

  /** The tokens left in a bucket of a rate limit: an unused global bucket is full, a group's is still to be made. */
  function Left(s: Stage, w: World, b: RL.Bucket): Option<nat>
    requires s.RateLimit?
  {
    match b
    case Global => Some(if s.limiter in w.globals then w.globals[s.limiter].tokens else RL.Burst(s.spec))
    case OfGroup(name) =>
      if (s.limiter, s.side) in w.groups && name in w.groups[(s.limiter, s.side)]
      then Some(w.groups[(s.limiter, s.side)][name].tokens)
      else None
  }

  function ChargedBy(s: Stage, fullMethod: string): RL.Bucket
    requires s.RateLimit?
  {
    RL.Charged(s.resolver, fullMethod)
  }

  function Positive(n: int): nat {
    if n < 0 then 0 else n
  }

  /** The tokens a request finds: those left, or the rate of its group's rule if it is the first of the group. */
  function Found(s: Stage, w: World, fullMethod: string): nat
    requires s.RateLimit?
  {
    match Left(s, w, ChargedBy(s, fullMethod))
    case Some(n) => n
    case None => Positive(RL.RuleFor(s.resolver, fullMethod).value.1.rate)
  }

  /** The two sides of a server share a global bucket; each has group buckets of its own. */
  predicate SameBucket(s: Stage, b: RL.Bucket, t: Stage, c: RL.Bucket)
    requires s.RateLimit? && t.RateLimit?
  {
    s.limiter == t.limiter && b == c && (b.Global? || s.side == t.side)
  }

  // ---------------------------------------------------------------- one stage

  /** A rate limit lets a request pass exactly if it finds a token, which it then takes; the users' state stays. */
  lemma StageDebits(s: Stage, w: World, q: Request, fullMethod: string)
    requires s.RateLimit?
    ensures var d, n := BeforeStage(s, w, q, fullMethod), Found(s, w, fullMethod);
      && (d.Proceed? <==> n > 0)
      && (if d.Proceed? then d.q == q else d.r == Failed(ResourceExhausted))
      && d.w.app == w.app
      && Left(s, d.w, ChargedBy(s, fullMethod)) == Some(if n > 0 then n - 1 else 0)
  {
  }

  /** It changes no other bucket of any limit. */
  lemma StageKeepsOthers(s: Stage, w: World, q: Request, fullMethod: string, t: Stage, b: RL.Bucket)
    requires s.RateLimit? && t.RateLimit? && (t.limiter == s.limiter ==> t.spec == s.spec)
    requires !SameBucket(s, ChargedBy(s, fullMethod), t, b)
    ensures Left(t, BeforeStage(s, w, q, fullMethod).w, b) == Left(t, w, b)
  {
  }

  /** No other stage touches a limit. */
  lemma StageKeepsLimits(s: Stage, w: World, q: Request, fullMethod: string)
    requires !s.RateLimit?
    ensures var d := BeforeStage(s, w, q, fullMethod); d.w.globals == w.globals && d.w.groups == w.groups
  {
  }

  // ---------------------------------------------------------------- one request

  /** Handlers cannot reach the limiters. */
  ghost predicate KeepsLimits(handler: Handler<World, Request, Reply>) {
    forall w, q :: handler(w, q).0.globals == w.globals && handler(w, q).0.groups == w.groups
  }

  /** Each limiter is used once in the chain. */
  ghost predicate OneOfEach(stages: seq<Stage>) {
    forall i, j :: 0 <= i < j < |stages| && stages[i].RateLimit? && stages[j].RateLimit? ==>
      stages[i].limiter != stages[j].limiter
  }

  /** The chain's limiters are configured as `t` has them. */
  ghost predicate Agrees(stages: seq<Stage>, t: Stage)
    requires t.RateLimit?
  {
    forall s :: s in stages && s.RateLimit? && s.limiter == t.limiter ==> s.spec == t.spec
  }

  /** Stage `k` is entered and charges the request to bucket `b` of `t`. */
  ghost predicate Charges(stages: seq<Stage>, w: World, q: Request, fullMethod: string, k: nat, t: Stage, b: RL.Bucket)
    requires t.RateLimit?
  {
    && k < |stages| && k <= Passed(stages, w, q, fullMethod) && stages[k].RateLimit?
    && SameBucket(stages[k], ChargedBy(stages[k], fullMethod), t, b)
  }

  lemma LeftDependsOnLimits(t: Stage, v: World, w: World, b: RL.Bucket)
    requires t.RateLimit? && v.globals == w.globals && v.groups == w.groups
    ensures Left(t, v, b) == Left(t, w, b)
  {
  }

  /** What is left in a bucket behind the head of a chain. */
  lemma HeadKeeps(stages: seq<Stage>, w: World, q: Request, fullMethod: string, t: Stage, b: RL.Bucket)
    requires stages != [] && t.RateLimit? && Agrees(stages, t) && !Charges(stages, w, q, fullMethod, 0, t, b)
    ensures Left(t, BeforeStage(stages[0], w, q, fullMethod).w, b) == Left(t, w, b)
  {
    assert stages[0] in stages;
    if stages[0].RateLimit? {
      StageKeepsOthers(stages[0], w, q, fullMethod, t, b);
    } else {
      StageKeepsLimits(stages[0], w, q, fullMethod);
    }
  }

  lemma BehindHead(stages: seq<Stage>, w: World, q: Request, fullMethod: string,
                   handler: Handler<World, Request, Reply>, t: Stage, b: RL.Bucket)
    requires stages != [] && t.RateLimit? && BeforeStage(stages[0], w, q, fullMethod).Proceed?
    ensures var d := BeforeStage(stages[0], w, q, fullMethod);
      Left(t, Eval(stages, w, q, fullMethod, handler).0, b) == Left(t, Eval(stages[1..], d.w, d.q, fullMethod, handler).0, b)
  {
  }

  /** A bucket that no entered stage charges the request to keeps its tokens. */
  lemma {:induction false} OthersKept(stages: seq<Stage>, w: World, q: Request, fullMethod: string,
                                      handler: Handler<World, Request, Reply>, t: Stage, b: RL.Bucket)
    requires t.RateLimit? && Agrees(stages, t) && KeepsLimits(handler)
    requires forall k: nat :: !Charges(stages, w, q, fullMethod, k, t, b)
    ensures Left(t, Eval(stages, w, q, fullMethod, handler).0, b) == Left(t, w, b)
    decreases |stages|
  {
    if stages == [] {
      LeftDependsOnLimits(t, handler(w, q).0, w, b);
    } else {
      PassedHead(stages, w, q, fullMethod);
      HeadKeeps(stages, w, q, fullMethod, t, b);
      match BeforeStage(stages[0], w, q, fullMethod)
      case Reject(_, _) =>
      case Proceed(w', q') =>
        forall k: nat ensures !Charges(stages[1..], w', q', fullMethod, k, t, b) {
          assert !Charges(stages, w, q, fullMethod, k + 1, t, b);
        }
        OthersKept(stages[1..], w', q', fullMethod, handler, t, b);
        BehindHead(stages, w, q, fullMethod, handler, t, b);
    }
  }

  /** An entered rate limit lets the request pass exactly if it found a token, and that token is gone afterwards. */
  lemma {:induction false} EnteredDebits(stages: seq<Stage>, w: World, q: Request, fullMethod: string,
                                         handler: Handler<World, Request, Reply>, k: nat)
    requires OneOfEach(stages) && KeepsLimits(handler)
    requires k < |stages| && k <= Passed(stages, w, q, fullMethod) && stages[k].RateLimit?
    ensures var n := Found(stages[k], w, fullMethod);
      && (k < Passed(stages, w, q, fullMethod) <==> n > 0)
      && Left(stages[k], Eval(stages, w, q, fullMethod, handler).0, ChargedBy(stages[k], fullMethod))
           == Some(if n > 0 then n - 1 else 0)
    decreases |stages|
  {
    var s, rest := stages[k], stages[1..];
    var b := ChargedBy(s, fullMethod);
    PassedHead(stages, w, q, fullMethod);
    if k == 0 {
      StageDebits(s, w, q, fullMethod);
      if BeforeStage(s, w, q, fullMethod).Proceed? {
        var d := BeforeStage(s, w, q, fullMethod);
        OthersKept(rest, d.w, d.q, fullMethod, handler, s, b);
        BehindHead(stages, w, q, fullMethod, handler, s, b);
      }
    } else {
      AgreesWithOwn(stages, k);
      HeadKeeps(stages, w, q, fullMethod, s, b);
      var d := BeforeStage(stages[0], w, q, fullMethod);
      EnteredDebits(rest, d.w, d.q, fullMethod, handler, k - 1);
      BehindHead(stages, w, q, fullMethod, handler, s, b);
    }
  }

  lemma AgreesWithOwn(stages: seq<Stage>, k: nat)
    requires OneOfEach(stages) && k < |stages| && stages[k].RateLimit?
    ensures Agrees(stages, stages[k])
  {
  }

  lemma EnteredMarks(stages: seq<Stage>, w: World, q: Request, fullMethod: string, handler: Handler<World, Request, Reply>,
                     k: nat)
    requires k < |stages|
    ensures var marks, d := Run(stages, w, q, fullMethod, handler).0.marks, Passed(stages, w, q, fullMethod);
      (Before(k) in marks <==> k <= d) && (After(k) in marks <==> k < d)
  {
    RunMarks(stages, w, q, fullMethod, handler);
    MarksOf(Passed(stages, w, q, fullMethod), |stages|, k);
  }

  /**
   The rate limits of a request: each one it enters lets it pass exactly if its bucket held a token when the request
   arrived, and takes exactly that token.
   */
  lemma RunDebits(stages: seq<Stage>, w: World, q: Request, fullMethod: string, handler: Handler<World, Request, Reply>,
                  k: nat)
    requires OneOfEach(stages) && KeepsLimits(handler) && k < |stages| && stages[k].RateLimit?
    ensures var m, n := Run(stages, w, q, fullMethod, handler).0, Found(stages[k], w, fullMethod);
      Before(k) in m.marks ==>
        && (After(k) in m.marks <==> n > 0)
        && Left(stages[k], m.w, ChargedBy(stages[k], fullMethod)) == Some(if n > 0 then n - 1 else 0)
  {
    EnteredMarks(stages, w, q, fullMethod, handler, k);
    RunEvaluates(stages, w, q, fullMethod, handler);
    if k <= Passed(stages, w, q, fullMethod) { EnteredDebits(stages, w, q, fullMethod, handler, k); }
  }

  /** Every other bucket keeps what it has: of the limits entered, of those not entered, of the other side. */
  lemma RunKeepsOthers(stages: seq<Stage>, w: World, q: Request, fullMethod: string, handler: Handler<World, Request, Reply>,
                       t: Stage, b: RL.Bucket)
    requires t.RateLimit? && Agrees(stages, t) && KeepsLimits(handler)
    requires forall k: nat :: k < |stages| && stages[k].RateLimit? && SameBucket(stages[k], ChargedBy(stages[k], fullMethod), t, b) ==>
      Before(k) !in Run(stages, w, q, fullMethod, handler).0.marks
    ensures Left(t, Run(stages, w, q, fullMethod, handler).0.w, b) == Left(t, w, b)
  {
    forall k: nat ensures !Charges(stages, w, q, fullMethod, k, t, b) {
      if k < |stages| { EnteredMarks(stages, w, q, fullMethod, handler, k); }
    }
    RunEvaluates(stages, w, q, fullMethod, handler);
    OthersKept(stages, w, q, fullMethod, handler, t, b);
  }

  // ---------------------------------------------------------------- the limits of a server

  lemma {:induction false} LimitsOfOptions(opts: seq<Opt>, resolver: Option<RL.Rules>, side: Side)
    ensures forall s :: s in LimitsOf(opts, resolver, side) ==>
      s.RateLimit? && exists i :: 0 <= i < |opts| && opts[i].WithRateLimitGlobal? && opts[i].limiter == s.limiter
  {
    if opts != [] {
      var next := if opts[0].WithResolver? then opts[0].r else resolver;
      LimitsOfOptions(opts[1..], next, side);
      forall s | s in LimitsOf(opts, resolver, side)
        ensures s.RateLimit? && exists i :: 0 <= i < |opts| && opts[i].WithRateLimitGlobal? && opts[i].limiter == s.limiter
      {
        if s in LimitsOf(opts[1..], next, side) {
          var i :| 0 <= i < |opts[1..]| && opts[1..][i].WithRateLimitGlobal? && opts[1..][i].limiter == s.limiter;
          assert opts[i + 1] == opts[1..][i];
        }
      }
    }
  }

  lemma {:induction false} LimitsDiffer(opts: seq<Opt>, resolver: Option<RL.Rules>, side: Side)
    requires OwnLimiters(opts)
    ensures OneOfEach(LimitsOf(opts, resolver, side))
  {
    if opts != [] {
      var next := if opts[0].WithResolver? then opts[0].r else resolver;
      var rest := LimitsOf(opts[1..], next, side);
      LimitsDiffer(opts[1..], next, side);
      LimitsOfOptions(opts[1..], next, side);
      forall s | s in rest ensures opts[0].WithRateLimitGlobal? ==> s.RateLimit? && s.limiter != opts[0].limiter {
        var i :| 0 <= i < |opts[1..]| && opts[1..][i].WithRateLimitGlobal? && opts[1..][i].limiter == s.limiter;
        assert opts[i + 1] == opts[1..][i];
      }
    }
  }

  lemma {:induction false} OneOfEachPicked(stages: seq<Stage>)
    requires OneOfEach(Picked(stages, StageAt(ORDER_RATE_LIMIT)))
    ensures OneOfEach(stages)
  {
    if stages != [] {
      var s, rest := stages[0], stages[1..];
      var behind := Picked(rest, StageAt(ORDER_RATE_LIMIT));
      assert stages == [s] + rest;
      PickedCons(s, rest, StageAt(ORDER_RATE_LIMIT));
      if s.RateLimit? { assert ([s] + behind)[1..] == behind; }
      OneOfEachPicked(rest);
      forall j | 0 <= j < |rest| && s.RateLimit? && rest[j].RateLimit? ensures s.limiter != rest[j].limiter {
        assert rest[j] in rest && StageAt(ORDER_RATE_LIMIT)(rest[j]) == Some(rest[j]);
        PickedFrom(rest, StageAt(ORDER_RATE_LIMIT), rest[j]);
        var i :| 0 <= i < |behind| && behind[i] == rest[j];
        assert ([s] + behind)[i + 1] == rest[j];
      }
    }
  }

  /** A server whose options make a limiter each uses each of them once on either side. */
  lemma ServerHasOneOfEach(opts: seq<Opt>, side: Side)
    requires OwnLimiters(opts)
    ensures OneOfEach(ServerStages(opts, side))
  {
    ChainAt(opts, ORDER_RATE_LIMIT, side);
    RegisteredAt(opts, None, ORDER_RATE_LIMIT, side);
    LimitsDiffer(opts, None, side);
    OneOfEachPicked(ServerStages(opts, side));
  }

  /** The two sides configure a limiter alike. */
  lemma SidesAgree(opts: seq<Opt>, side: Side, s: Stage, t: Stage)
    requires OwnLimiters(opts) && t.RateLimit? && t in ServerStages(opts, t.side)
    requires s.RateLimit? && s in ServerStages(opts, side) && s.limiter == t.limiter
    ensures s.spec == t.spec && s.resolver == t.resolver && s.side == side
  {
    LimitsAreInstalled(opts, side, s);
    LimitsAreInstalled(opts, t.side, t);
    var i: nat :| LimitsWith(opts, i, None, side, s);
    var j: nat :| LimitsWith(opts, j, None, t.side, t);
    assert i == j;
  }

  // ---------------------------------------------------------------- a sequence of requests

  datatype Call = Call(side: Side, q: Request, fullMethod: string, handler: Handler<World, Request, Reply>)

  function Taken(opts: seq<Opt>, w: World, c: Call): Marked<World> {
    Handle(opts, c.side, w, c.q, c.fullMethod, c.handler).0
  }

  /** The world after requests that one server takes one after the other. */
  function AfterAll(opts: seq<Opt>, w: World, calls: seq<Call>): World
    decreases |calls|
  {
    if calls == [] then w else AfterAll(opts, Taken(opts, w, calls[0]).w, calls[1..])
  }

  /** A rate limit charges the call to bucket `b` of `t` and lets it pass. */
  ghost predicate LetPass(opts: seq<Opt>, w: World, c: Call, t: Stage, b: RL.Bucket)
    requires t.RateLimit?
  {
    var stages := ServerStages(opts, c.side);
    exists k: nat :: k < |stages| && stages[k].RateLimit? && SameBucket(stages[k], ChargedBy(stages[k], c.fullMethod), t, b)
      && After(k) in Taken(opts, w, c).marks
  }

  ghost function Passes(opts: seq<Opt>, w: World, calls: seq<Call>, t: Stage, b: RL.Bucket): nat
    requires t.RateLimit?
    decreases |calls|
  {
    if calls == [] then 0
    else (if LetPass(opts, w, calls[0], t, b) then 1 else 0) + Passes(opts, Taken(opts, w, calls[0]).w, calls[1..], t, b)
  }

  /** The call enters a rate limit that charges it to bucket `b` of `t`. */
  ghost predicate Asks(opts: seq<Opt>, w: World, c: Call, t: Stage, b: RL.Bucket)
    requires t.RateLimit?
  {
    var stages := ServerStages(opts, c.side);
    exists k: nat :: k < |stages| && stages[k].RateLimit? && SameBucket(stages[k], ChargedBy(stages[k], c.fullMethod), t, b)
      && Before(k) in Taken(opts, w, c).marks
  }

  lemma SameLeft(s: Stage, t: Stage, w: World, b: RL.Bucket, fullMethod: string)
    requires s.RateLimit? && t.RateLimit? && s.spec == t.spec && s.resolver == t.resolver
    requires SameBucket(s, ChargedBy(s, fullMethod), t, b)
    ensures ChargedBy(t, fullMethod) == b && Left(s, w, b) == Left(t, w, b) && Found(s, w, fullMethod) == Found(t, w, fullMethod)
  {
  }

  lemma AskedDebits(opts: seq<Opt>, w: World, c: Call, t: Stage, b: RL.Bucket, k: nat)
    requires OwnLimiters(opts) && t.RateLimit? && t in ServerStages(opts, t.side) && KeepsLimits(c.handler)
    requires var stages := ServerStages(opts, c.side);
      && k < |stages| && stages[k].RateLimit? && SameBucket(stages[k], ChargedBy(stages[k], c.fullMethod), t, b)
      && Before(k) in Taken(opts, w, c).marks
    ensures ChargedBy(t, c.fullMethod) == b
    ensures LetPass(opts, w, c, t, b) <==> After(k) in Taken(opts, w, c).marks
    ensures var n := Found(t, w, c.fullMethod);
      (After(k) in Taken(opts, w, c).marks <==> n > 0) && Left(t, Taken(opts, w, c).w, b) == Some(if n > 0 then n - 1 else 0)
  {
    var stages := ServerStages(opts, c.side);
    ServerHasOneOfEach(opts, c.side);
    SidesAgree(opts, c.side, stages[k], t);
    SameLeft(stages[k], t, w, b, c.fullMethod);
    SameLeft(stages[k], t, Taken(opts, w, c).w, b, c.fullMethod);
    RunDebits(stages, w, c.q, c.fullMethod, c.handler, k);
  }

  lemma UnaskedKeeps(opts: seq<Opt>, w: World, c: Call, t: Stage, b: RL.Bucket)
    requires OwnLimiters(opts) && t.RateLimit? && t in ServerStages(opts, t.side) && KeepsLimits(c.handler)
    requires !Asks(opts, w, c, t, b)
    ensures !LetPass(opts, w, c, t, b) && Left(t, Taken(opts, w, c).w, b) == Left(t, w, b)
  {
    var stages := ServerStages(opts, c.side);
    forall k: nat | k < |stages| ensures After(k) in Taken(opts, w, c).marks ==> Before(k) in Taken(opts, w, c).marks {
      EnteredMarks(stages, w, c.q, c.fullMethod, c.handler, k);
    }
    forall s | s in stages && s.RateLimit? && s.limiter == t.limiter ensures s.spec == t.spec { SidesAgree(opts, c.side, s, t); }
    RunKeepsOthers(stages, w, c.q, c.fullMethod, c.handler, t, b);
  }

  /** One call: a bucket that is asked loses the token it lets the call pass on, and any other keeps its tokens. */
  lemma CallDebits(opts: seq<Opt>, w: World, c: Call, t: Stage, b: RL.Bucket)
    requires OwnLimiters(opts) && t.RateLimit? && t in ServerStages(opts, t.side) && KeepsLimits(c.handler)
    ensures var w', n := Taken(opts, w, c).w, Found(t, w, c.fullMethod);
      if Asks(opts, w, c, t, b) then
        && ChargedBy(t, c.fullMethod) == b
        && (LetPass(opts, w, c, t, b) <==> n > 0) && Left(t, w', b) == Some(if n > 0 then n - 1 else 0)
      else !LetPass(opts, w, c, t, b) && Left(t, w', b) == Left(t, w, b)
  {
    if Asks(opts, w, c, t, b) {
      var stages := ServerStages(opts, c.side);
      var k: nat :| k < |stages| && stages[k].RateLimit? && SameBucket(stages[k], ChargedBy(stages[k], c.fullMethod), t, b)
        && Before(k) in Taken(opts, w, c).marks;
      AskedDebits(opts, w, c, t, b, k);
    } else {
      UnaskedKeeps(opts, w, c, t, b);
    }
  }

  /** For every sequence of requests to a server, of both sides: what a bucket let pass and what is left is what it held. */
  lemma {:induction false} ServerConserves(opts: seq<Opt>, w: World, calls: seq<Call>, t: Stage, b: RL.Bucket)
    requires OwnLimiters(opts) && t.RateLimit? && t in ServerStages(opts, t.side)
    requires forall c :: c in calls ==> KeepsLimits(c.handler)
    requires Left(t, w, b).Some?
    ensures Left(t, AfterAll(opts, w, calls), b).Some?
    ensures Passes(opts, w, calls, t, b) + Left(t, AfterAll(opts, w, calls), b).value == Left(t, w, b).value
    decreases |calls|
  {
    if calls != [] {
      assert calls[0] in calls;
      CallDebits(opts, w, calls[0], t, b);
      ServerConserves(opts, Taken(opts, w, calls[0]).w, calls[1..], t, b);
    }
  }

  /** The rule of the first call that asks a group's bucket. */
  ghost function FirstAsked(opts: seq<Opt>, w: World, calls: seq<Call>, t: Stage, name: string): Option<Policy.RateLimitRule>
    requires t.RateLimit?
    decreases |calls|
  {
    if calls == [] then None
    else if Asks(opts, w, calls[0], t, RL.OfGroup(name)) && RL.RuleFor(t.resolver, calls[0].fullMethod).Some?
      then Some(RL.RuleFor(t.resolver, calls[0].fullMethod).value.1)
    else FirstAsked(opts, Taken(opts, w, calls[0]).w, calls[1..], t, name)
  }

  /** A group's bucket that is still to be made starts with the rate of the rule that the first call finds. */
  lemma {:induction false} ServerConservesNew(opts: seq<Opt>, w: World, calls: seq<Call>, t: Stage, name: string)
    requires OwnLimiters(opts) && t.RateLimit? && t in ServerStages(opts, t.side)
    requires forall c :: c in calls ==> KeepsLimits(c.handler)
    requires Left(t, w, RL.OfGroup(name)).None?
    ensures var b := RL.OfGroup(name);
      match FirstAsked(opts, w, calls, t, name)
      case None => Left(t, AfterAll(opts, w, calls), b).None? && Passes(opts, w, calls, t, b) == 0
      case Some(rule) =>
        && Left(t, AfterAll(opts, w, calls), b).Some?
        && Passes(opts, w, calls, t, b) + Left(t, AfterAll(opts, w, calls), b).value == Positive(rule.rate)
    decreases |calls|
  {
    if calls != [] {
      assert calls[0] in calls;
      var w', b := Taken(opts, w, calls[0]).w, RL.OfGroup(name);
      CallDebits(opts, w, calls[0], t, b);
      if Asks(opts, w, calls[0], t, b) {
        ServerConserves(opts, w', calls[1..], t, b);
      } else {
        ServerConservesNew(opts, w', calls[1..], t, name);
      }
    }
  }
}
