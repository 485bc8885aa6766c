/** Folding a list of interceptors into one, unary and stream alike: `I` is the call's fixed info. */
module Chain {
  import opened Common

  /** State passing makes effects visible: a handler maps a world and a request to a world and a result. */
  type Handler<!W, !Q, !R> = (W, Q) -> (W, R)

  type Interceptor<!W, !Q, !I, !R> = (W, Q, I, Handler<W, Q, R>) -> (W, R)

  /** The closure the loop builds around `next`. */
  function Wrap<W, Q, I, R>(ic: Interceptor<W, Q, I, R>, info: I, next: Handler<W, Q, R>): Handler<W, Q, R> {
    (w, q) => ic(w, q, info, next)
  }

  /** The right fold: the first interceptor outermost, the handler innermost. */
  function Fold<W, Q, I, R>(ics: seq<Interceptor<W, Q, I, R>>, info: I, handler: Handler<W, Q, R>): Handler<W, Q, R> {
    if ics == [] then handler else Wrap(ics[0], info, Fold(ics[1..], info, handler))
  }

  /** `ChainUnary` and `ChainStream`: nothing, the one interceptor, or a closure over the list. */
  function ChainOf<W, Q, I, R>(ics: seq<Interceptor<W, Q, I, R>>): Option<Interceptor<W, Q, I, R>> {
    if |ics| == 0 then None
    else if |ics| == 1 then Some(ics[0])
    else Some((w, q, info, handler) => Fold(ics, info, handler)(w, q))
  }

  /** What the chained closure does when called: the downward loop that rebinds `curr`. */
  method Invoke<W, Q, I, R>(ics: seq<Interceptor<W, Q, I, R>>, w: W, q: Q, info: I, handler: Handler<W, Q, R>)
    returns (w': W, r: R)
    requires |ics| > 1
    ensures ChainOf(ics).Some? && (w', r) == ChainOf(ics).value(w, q, info, handler)
  {
    var curr := handler;
    var i := |ics| - 1;
    assert ics[i + 1..] == [];
    while i > 0
      invariant 0 <= i < |ics|
      invariant curr == Fold(ics[i + 1..], info, handler)
    {
      var next := curr;
      curr := Wrap(ics[i], info, next);
      assert ics[i..][1..] == ics[i + 1..];
      i := i - 1;
    }
    assert curr == Fold(ics[1..], info, handler);
    assert Fold(ics, info, handler) == Wrap(ics[0], info, curr);
    var result := ics[0](w, q, info, curr);
    w', r := result.0, result.1;
  }

  /** The server without an installed interceptor calls the handler itself. */
  function Serve<W, Q, I, R>(ic: Option<Interceptor<W, Q, I, R>>, w: W, q: Q, info: I, handler: Handler<W, Q, R>): (W, R) {
    match ic
    case None => handler(w, q)
    case Some(f) => f(w, q, info, handler)
  }

  /** However long the list, the chained interceptor is the fold. */
  lemma ChainIsFold<W, Q, I, R>(ics: seq<Interceptor<W, Q, I, R>>, w: W, q: Q, info: I, handler: Handler<W, Q, R>)
    ensures Serve(ChainOf(ics), w, q, info, handler) == Fold(ics, info, handler)(w, q)
  {
    if |ics| == 1 { assert ics[1..] == []; }
  }

  lemma {:induction false} FoldOfAppend<W, Q, I, R>(a: seq<Interceptor<W, Q, I, R>>, b: seq<Interceptor<W, Q, I, R>>,
                                                    info: I, handler: Handler<W, Q, R>)
    ensures Fold(a + b, info, handler) == Fold(a, info, Fold(b, info, handler))
  {
    if a == [] {
      assert a + b == b;
    } else {
      FoldOfAppend(a[1..], b, info, handler);
      assert (a + b)[1..] == a[1..] + b;
    }
  }

  lemma FoldOfOne<W, Q, I, R>(ic: Interceptor<W, Q, I, R>, info: I, handler: Handler<W, Q, R>)
    ensures Fold([ic], info, handler) == Wrap(ic, info, handler)
  {
    assert [ic][1..] == [];
  }

  /** Handlers that answer alike. */
  ghost predicate Same<W(!new), Q(!new), R(!new)>(f: Handler<W, Q, R>, g: Handler<W, Q, R>) {
    forall w, q :: f(w, q) == g(w, q)
  }

  /** An interceptor can do nothing with a handler but call it. */
  ghost predicate OnlyCalls<W(!new), Q(!new), I(!new), R(!new)>(ic: Interceptor<W, Q, I, R>) {
    forall w, q, info, f, g :: Same(f, g) ==> ic(w, q, info, f) == ic(w, q, info, g)
  }

  lemma {:induction false} FoldRespectsSame<W(!new), Q(!new), I(!new), R(!new)>(
      ics: seq<Interceptor<W, Q, I, R>>, info: I, f: Handler<W, Q, R>, g: Handler<W, Q, R>)
    requires forall ic :: ic in ics ==> OnlyCalls(ic)
    requires Same(f, g)
    ensures Same(Fold(ics, info, f), Fold(ics, info, g))
  {
    if ics != [] {
      FoldRespectsSame(ics[1..], info, f, g);
      assert OnlyCalls(ics[0]);
    }
  }

  /** Chaining two chains is chaining the concatenation. */
  lemma ChainOfChains<W(!new), Q(!new), I(!new), R(!new)>(
      a: seq<Interceptor<W, Q, I, R>>, b: seq<Interceptor<W, Q, I, R>>, w: W, q: Q, info: I, handler: Handler<W, Q, R>)
    requires a != [] && b != []
    requires forall ic :: ic in a ==> OnlyCalls(ic)
    ensures Serve(ChainOf([ChainOf(a).value, ChainOf(b).value]), w, q, info, handler)
         == Serve(ChainOf(a + b), w, q, info, handler)
  {
    var outer, inner := ChainOf(a).value, ChainOf(b).value;
    var viaChain := Wrap(inner, info, handler);
    var direct := Fold(b, info, handler);
    forall w1: W, q1: Q ensures viaChain(w1, q1) == direct(w1, q1) {
      ChainIsFold(b, w1, q1, info, handler);
    }
    assert Same(viaChain, direct);
    FoldRespectsSame(a, info, viaChain, direct);
    ChainIsFold(a, w, q, info, viaChain);
    FoldOfAppend(a, b, info, handler);
    ChainIsFold(a + b, w, q, info, handler);
    assert [outer, inner] == [outer] + [inner];
    FoldOfAppend([outer], [inner], info, handler);
    FoldOfOne(inner, info, handler);
    FoldOfOne(outer, info, viaChain);
    ChainIsFold([outer, inner], w, q, info, handler);
  }

  // ---------------------------------------------------------------- the onion

  /** What an interceptor does before calling on: go on, perhaps with another request, or answer itself. */
  datatype Decision<W, Q, R> = Proceed(w: W, q: Q) | Reject(w: W, r: R)

  /** An interceptor given by what it does before and after. */
  datatype Hook<!W, !Q, !I, !R> = Hook(before: (W, Q, I) -> Decision<W, Q, R>, after: (W, R) -> (W, R))

  /** `Before(i)`: interceptor `i` was entered; `After(i)`: it saw the result come back. */
  datatype Mark = Before(i: nat) | Called | After(i: nat)

  /** The world of a marked run: the interceptors' own world, and the marks so far. */
  datatype Marked<W> = Marked(w: W, marks: seq<Mark>)

  /** Interceptor `i` of the chain, marking its passage. */
  function Stage<W, Q, I, R>(i: nat, hook: Hook<W, Q, I, R>): Interceptor<Marked<W>, Q, I, R> {
    (m: Marked<W>, q: Q, info: I, next: Handler<Marked<W>, Q, R>) =>
      match hook.before(m.w, q, info)
      case Reject(w, r) => (Marked(w, m.marks + [Before(i)]), r)
      case Proceed(w, q') =>
        var (m', r) := next(Marked(w, m.marks + [Before(i)]), q');
        var (w', r') := hook.after(m'.w, r);
        (Marked(w', m'.marks + [After(i)]), r')
  }

  function Stages<W, Q, I, R>(from: nat, hooks: seq<Hook<W, Q, I, R>>): seq<Interceptor<Marked<W>, Q, I, R>>
    decreases |hooks|
  {
    if hooks == [] then [] else [Stage(from, hooks[0])] + Stages(from + 1, hooks[1..])
  }

  function MarkedHandler<W, Q, R>(handler: Handler<W, Q, R>): Handler<Marked<W>, Q, R> {
    (m: Marked<W>, q: Q) => var (w, r) := handler(m.w, q); (Marked(w, m.marks + [Called]), r)
  }

  /** How deep a request gets: the number of hooks that proceed before one rejects, or all of them. */
  function Depth<W, Q, I, R>(hooks: seq<Hook<W, Q, I, R>>, w: W, q: Q, info: I): nat {
    if hooks == [] then 0
    else match hooks[0].before(w, q, info)
         case Reject(_, _) => 0
         case Proceed(w', q') => 1 + Depth(hooks[1..], w', q', info)
  }

  function Befores(from: nat, n: nat): seq<Mark> {
    seq(n, k requires 0 <= k < n => Before(from + k))
  }

  function AftersBackwards(from: nat, n: nat): seq<Mark> {
    seq(n, k requires 0 <= k < n => After(from + n - 1 - k))
  }

  /** The marks of a run: in through the hooks that proceed, the rejecting one or the handler, and back out. */
  function OnionMarks<W, Q, I, R>(from: nat, hooks: seq<Hook<W, Q, I, R>>, w: W, q: Q, info: I): seq<Mark> {
    var d := Depth(hooks, w, q, info);
    Befores(from, d) + (if d < |hooks| then [Before(from + d)] else [Called]) + AftersBackwards(from, d)
  }

  lemma {:induction false} DepthBounded<W, Q, I, R>(hooks: seq<Hook<W, Q, I, R>>, w: W, q: Q, info: I)
    ensures Depth(hooks, w, q, info) <= |hooks|
  {
    if hooks != [] {
      match hooks[0].before(w, q, info)
      case Proceed(w', q') => DepthBounded(hooks[1..], w', q', info);
      case Reject(_, _) =>
    }
  }

  lemma OnionStep<W, Q, I, R>(from: nat, hooks: seq<Hook<W, Q, I, R>>, w: W, q: Q, info: I)
    requires hooks != [] && hooks[0].before(w, q, info).Proceed?
    ensures var d := hooks[0].before(w, q, info);
      OnionMarks(from, hooks, w, q, info)
        == [Before(from)] + OnionMarks(from + 1, hooks[1..], d.w, d.q, info) + [After(from)]
  {
    var d := hooks[0].before(w, q, info);
    var n := Depth(hooks[1..], d.w, d.q, info);
    DepthBounded(hooks[1..], d.w, d.q, info);
    assert Befores(from, n + 1) == [Before(from)] + Befores(from + 1, n);
    assert AftersBackwards(from, n + 1) == AftersBackwards(from + 1, n) + [After(from)];
  }

  /**
   The onion law: every interceptor up to the first that rejects is entered in order, the handler is called
   exactly if none rejects, and those that proceeded see the result in reverse. Nothing behind a rejecting
   interceptor runs.
   */
  lemma {:induction false} Onion<W, Q, I, R>(from: nat, hooks: seq<Hook<W, Q, I, R>>, m: Marked<W>, q: Q, info: I,
                                             handler: Handler<W, Q, R>)
    ensures Fold(Stages(from, hooks), info, MarkedHandler(handler))(m, q).0.marks
         == m.marks + OnionMarks(from, hooks, m.w, q, info)
    decreases |hooks|
  {
    var run := Fold(Stages(from, hooks), info, MarkedHandler(handler))(m, q).0.marks;
    if hooks == [] {
      assert Stages(from, hooks) == [];
      assert OnionMarks(from, hooks, m.w, q, info) == [Called];
    } else {
      assert Stages(from, hooks)[1..] == Stages(from + 1, hooks[1..]);
      match hooks[0].before(m.w, q, info)
      case Reject(_, _) =>
        assert OnionMarks(from, hooks, m.w, q, info) == [Before(from)];
      case Proceed(w', q') =>
        var inner := Marked(w', m.marks + [Before(from)]);
        Onion(from + 1, hooks[1..], inner, q', info, handler);
        OnionStep(from, hooks, m.w, q, info);
        assert run == inner.marks + OnionMarks(from + 1, hooks[1..], w', q', info) + [After(from)];
    }
  }

  /** The handler runs exactly when no interceptor rejects, and then exactly once. */
  lemma HandlerRunsIffNoneRejects<W, Q, I, R>(hooks: seq<Hook<W, Q, I, R>>, w: W, q: Q, info: I, handler: Handler<W, Q, R>)
    ensures var marks := Fold(Stages(0, hooks), info, MarkedHandler(handler))(Marked(w, []), q).0.marks;
      multiset(marks)[Called] == if Depth(hooks, w, q, info) == |hooks| then 1 else 0
  {
    Onion(0, hooks, Marked(w, []), q, info, handler);
    DepthBounded(hooks, w, q, info);
    var d := Depth(hooks, w, q, info);
    NotCalled(Befores(0, d));
    NotCalled(AftersBackwards(0, d));
  }

  lemma NotCalled(marks: seq<Mark>)
    requires forall k :: 0 <= k < |marks| ==> !marks[k].Called?
    ensures multiset(marks)[Called] == 0
  {
    assert Called !in marks;
  }
}
