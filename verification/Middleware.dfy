/** The builder that sorts middleware by priority and splits it into unary and stream interceptors. */
module Middleware {
  import opened Common

  datatype Entry<U, S> = Entry(unary: Option<U>, stream: Option<S>, order: int)

  ghost predicate Sorted<U, S>(es: seq<Entry<U, S>>) {
    forall i, j :: 0 <= i < j < |es| ==> es[i].order <= es[j].order
  }

  /** The entries of one priority, in their order of registration. */
  function OfOrder<U, S>(es: seq<Entry<U, S>>, order: int): seq<Entry<U, S>> {
    if es == [] then []
    else if es[0].order == order then [es[0]] + OfOrder(es[1..], order)
    else OfOrder(es[1..], order)
  }

  /** Put `e` before the first entry that does not precede it. */
  function Insert<U, S>(e: Entry<U, S>, es: seq<Entry<U, S>>): seq<Entry<U, S>> {
    if es == [] || e.order <= es[0].order then [e] + es
    else [es[0]] + Insert(e, es[1..])
  }

  /** The library's stable sort. */
  function StableSort<U, S>(es: seq<Entry<U, S>>): seq<Entry<U, S>> {
    if es == [] then [] else Insert(es[0], StableSort(es[1..]))
  }

  function UnaryOf<U, S>(e: Entry<U, S>): Option<U> {
    e.unary
  }

  function StreamOf<U, S>(e: Entry<U, S>): Option<S> {
    e.stream
  }

  function Unaries<U, S>(es: seq<Entry<U, S>>): seq<U> {
    Picked(es, UnaryOf)
  }

  function Streams<U, S>(es: seq<Entry<U, S>>): seq<S> {
    Picked(es, StreamOf)
  }

  class MiddlewareBuilder<U, S> {
    var entries: seq<Entry<U, S>>

    constructor ()
      ensures entries == []
    {
      entries := [];
    }

    method Add(order: int, unary: Option<U>, stream: Option<S>)
      modifies this
      ensures entries == old(entries) + [Entry(unary, stream, order)]
    {
      entries := entries + [Entry(unary, stream, order)];
    }

    /** Sorts the collected entries in place, then splits them. */
    method Build() returns (unary: seq<U>, stream: seq<S>)
      modifies this
      ensures entries == StableSort(old(entries))
      ensures unary == Unaries(entries) && stream == Streams(entries)
    {
      entries := StableSort(entries);
      unary, stream := [], [];
      for i := 0 to |entries|
        invariant entries == StableSort(old(entries))
        invariant unary == Unaries(entries[..i]) && stream == Streams(entries[..i])
      {
        var m := entries[i];
        SplitSnoc(entries[..i], m);
        assert entries[..i + 1] == entries[..i] + [m];
        if m.unary.Some? { unary := unary + [m.unary.value]; }
        if m.stream.Some? { stream := stream + [m.stream.value]; }
      }
      assert entries[..|entries|] == entries;
    }
  }

  lemma SplitSnoc<U, S>(es: seq<Entry<U, S>>, e: Entry<U, S>)
    ensures Unaries(es + [e]) == Unaries(es) + (if e.unary.Some? then [e.unary.value] else [])
    ensures Streams(es + [e]) == Streams(es) + (if e.stream.Some? then [e.stream.value] else [])
  {
    PickedAppend(es, [e], UnaryOf);
    PickedAppend(es, [e], StreamOf);
  }

  /** Each entry contributes its own interceptors, at its own place, and a missing one contributes nothing. */
  lemma SplitKeepsPlaces<U, S>(front: seq<Entry<U, S>>, e: Entry<U, S>, back: seq<Entry<U, S>>)
    ensures Unaries(front + [e] + back) ==
      Unaries(front) + (if e.unary.Some? then [e.unary.value] else []) + Unaries(back)
    ensures Streams(front + [e] + back) ==
      Streams(front) + (if e.stream.Some? then [e.stream.value] else []) + Streams(back)
  {
    PickedAppend(front + [e], back, UnaryOf);
    PickedAppend(front + [e], back, StreamOf);
    SplitSnoc(front, e);
  }

  // ---------------------------------------------------------------- the sort

  lemma {:induction false} InsertKeeps<U, S>(e: Entry<U, S>, es: seq<Entry<U, S>>)
    ensures multiset(Insert(e, es)) == multiset(es) + multiset{e}
  {
    if es != [] && e.order > es[0].order {
      InsertKeeps(e, es[1..]);
      assert es == [es[0]] + es[1..];
    }
  }

  lemma {:induction false} InsertSorts<U, S>(e: Entry<U, S>, es: seq<Entry<U, S>>)
    requires Sorted(es)
    ensures Sorted(Insert(e, es))
  {
    if es != [] && e.order > es[0].order {
      var tail := Insert(e, es[1..]);
      InsertSorts(e, es[1..]);
      InsertKeeps(e, es[1..]);
      forall j | 0 <= j < |tail| ensures es[0].order <= tail[j].order {
        assert tail[j] in multiset(tail);
        assert tail[j] == e || tail[j] in es[1..];
      }
    }
  }

  lemma OfOrderCons<U, S>(e: Entry<U, S>, es: seq<Entry<U, S>>, order: int)
    ensures OfOrder([e] + es, order) == if e.order == order then [e] + OfOrder(es, order) else OfOrder(es, order)
  {
    assert ([e] + es)[1..] == es;
  }

  lemma {:induction false} InsertIsStable<U, S>(e: Entry<U, S>, es: seq<Entry<U, S>>, order: int)
    ensures OfOrder(Insert(e, es), order) == if e.order == order then [e] + OfOrder(es, order) else OfOrder(es, order)
  {
    if es == [] || e.order <= es[0].order {
      OfOrderCons(e, es, order);
    } else {
      InsertIsStable(e, es[1..], order);
      OfOrderCons(es[0], Insert(e, es[1..]), order);
    }
  }

  /** For every priority, the two lists hold the same entries in the same order. */
  ghost predicate SameOrders<U, S>(a: seq<Entry<U, S>>, b: seq<Entry<U, S>>) {
    forall order: int :: OfOrder(a, order) == OfOrder(b, order)
  }

  /** The result is sorted, keeps every entry, and keeps the registration order within each priority. */
  lemma {:induction false} SortIsStable<U, S>(es: seq<Entry<U, S>>)
    ensures Sorted(StableSort(es))
    ensures multiset(StableSort(es)) == multiset(es)
    ensures SameOrders(StableSort(es), es)
  {
    if es != [] {
      var rest := StableSort(es[1..]);
      SortIsStable(es[1..]);
      InsertSorts(es[0], rest);
      InsertKeeps(es[0], rest);
      assert es == [es[0]] + es[1..];
      forall order: int ensures OfOrder(StableSort(es), order) == OfOrder(es, order) {
        InsertIsStable(es[0], rest, order);
        assert OfOrder(rest, order) == OfOrder(es[1..], order);
      }
    }
  }

  lemma {:induction false} OfOrderMember<U, S>(es: seq<Entry<U, S>>, x: Entry<U, S>)
    ensures x in OfOrder(es, x.order) <==> x in es
  {
    if es != [] { OfOrderMember(es[1..], x); }
  }

  lemma SameMembers<U, S>(a: seq<Entry<U, S>>, b: seq<Entry<U, S>>, x: Entry<U, S>)
    requires SameOrders(a, b)
    ensures x in a <==> x in b
  {
    OfOrderMember(a, x);
    OfOrderMember(b, x);
  }

  lemma SameHeads<U, S>(a: seq<Entry<U, S>>, b: seq<Entry<U, S>>)
    requires Sorted(a) && Sorted(b) && SameOrders(a, b) && a != [] && b != []
    ensures a[0] == b[0] && SameOrders(a[1..], b[1..])
  {
    SameMembers(a, b, a[0]);
    SameMembers(a, b, b[0]);
    assert a[0].order == b[0].order;
    assert a == [a[0]] + a[1..] && b == [b[0]] + b[1..];
    OfOrderCons(a[0], a[1..], a[0].order);
    OfOrderCons(b[0], b[1..], a[0].order);
    assert OfOrder(a, a[0].order)[0] == a[0] && OfOrder(b, a[0].order)[0] == b[0];
    forall order: int ensures OfOrder(a[1..], order) == OfOrder(b[1..], order) {
      assert OfOrder(a, order) == OfOrder(b, order);
      OfOrderCons(a[0], a[1..], order);
      OfOrderCons(b[0], b[1..], order);
      var k := if a[0].order == order then 1 else 0;
      assert OfOrder(a, order)[k..] == OfOrder(a[1..], order);
      assert OfOrder(b, order)[k..] == OfOrder(b[1..], order);
    }
  }

  /** Two sorted lists that agree on every priority are the same list. */
  lemma {:induction false} SortedUnique<U, S>(a: seq<Entry<U, S>>, b: seq<Entry<U, S>>)
    requires Sorted(a) && Sorted(b) && SameOrders(a, b)
    ensures a == b
  {
    if a != [] { SameMembers(a, b, a[0]); }
    if b != [] { SameMembers(a, b, b[0]); }
    if a != [] {
      SameHeads(a, b);
      SortedUnique(a[1..], b[1..]);
    }
  }

  lemma SameOrdersTransitive<U, S>(a: seq<Entry<U, S>>, b: seq<Entry<U, S>>, c: seq<Entry<U, S>>)
    requires SameOrders(a, b) && SameOrders(b, c)
    ensures SameOrders(a, c) && SameOrders(b, a)
  {
    forall order: int ensures OfOrder(a, order) == OfOrder(c, order) {
      assert OfOrder(a, order) == OfOrder(b, order);
    }
  }

  /** The stable sort is the only sorted list that keeps the registration order within each priority. */
  lemma StableSortIsUnique<U, S>(es: seq<Entry<U, S>>, t: seq<Entry<U, S>>)
    ensures t == StableSort(es) <==> Sorted(t) && SameOrders(t, es)
  {
    SortIsStable(es);
    if Sorted(t) && SameOrders(t, es) {
      SameOrdersTransitive(StableSort(es), es, es);
      SameOrdersTransitive(t, es, StableSort(es));
      SortedUnique(t, StableSort(es));
    }
  }

  /** Two registrations build the same chain exactly when they agree on the order within each priority. */
  lemma SameChainIff<U, S>(a: seq<Entry<U, S>>, b: seq<Entry<U, S>>)
    ensures StableSort(a) == StableSort(b) <==> SameOrders(a, b)
  {
    SortIsStable(a);
    SortIsStable(b);
    if StableSort(a) == StableSort(b) {
      SameOrdersTransitive(StableSort(a), a, a);
      SameOrdersTransitive(a, StableSort(a), b);
    }
    if SameOrders(a, b) {
      SameOrdersTransitive(StableSort(a), a, b);
      StableSortIsUnique(b, StableSort(a));
    }
  }

  lemma {:induction false} OfOrderAppend<U, S>(a: seq<Entry<U, S>>, b: seq<Entry<U, S>>, order: int)
    ensures OfOrder(a + b, order) == OfOrder(a, order) + OfOrder(b, order)
  {
    if a == [] {
      assert a + b == b;
    } else {
      var e, rest := a[0], a[1..];
      assert a == [e] + rest;
      ConcatAssociative([e], rest, b);
      OfOrderAppend(rest, b, order);
      OfOrderCons(e, rest, order);
      OfOrderCons(e, rest + b, order);
    }
  }

  /** Sorting in place does no harm: building early, then adding more, builds what building late would have. */
  lemma BuildingEarlyIsHarmless<U, S>(es: seq<Entry<U, S>>, more: seq<Entry<U, S>>)
    ensures StableSort(StableSort(es) + more) == StableSort(es + more)
    ensures StableSort(StableSort(es)) == StableSort(es)
  {
    SortIsStable(es);
    forall order: int ensures OfOrder(StableSort(es) + more, order) == OfOrder(es + more, order) {
      OfOrderAppend(StableSort(es), more, order);
      OfOrderAppend(es, more, order);
      assert OfOrder(StableSort(es), order) == OfOrder(es, order);
    }
    SameChainIff(StableSort(es) + more, es + more);
    SameChainIff(StableSort(es), es);
  }

  // ---------------------------------------------------------------- one side of the chain

  /** One interceptor with its priority. */
  type Slot<X> = Entry<X, ()>

  /** What `pick` finds in an entry, with the entry's priority. */
  function Tagged<U, S, X>(pick: Entry<U, S> -> Option<X>): Entry<U, S> -> Option<Slot<X>> {
    (e: Entry<U, S>) => if pick(e).Some? then Some(Entry(pick(e), None, e.order)) else None
  }

  function Slots<U, S, X>(es: seq<Entry<U, S>>, pick: Entry<U, S> -> Option<X>): seq<Slot<X>> {
    Picked(es, Tagged(pick))
  }

  lemma {:induction false} SlotsHold<U, S, X>(es: seq<Entry<U, S>>, pick: Entry<U, S> -> Option<X>)
    ensures Unaries(Slots(es, pick)) == Picked(es, pick)
  {
    if es != [] {
      var e, rest := es[0], es[1..];
      assert es == [e] + rest;
      SlotsHold(rest, pick);
      PickedCons(e, rest, Tagged(pick));
      PickedCons(e, rest, pick);
      if pick(e).Some? { PickedCons(Entry(pick(e), None, e.order), Slots(rest, pick), UnaryOf); }
    }
  }

  lemma {:induction false} SlotsOfOrder<U, S, X>(es: seq<Entry<U, S>>, pick: Entry<U, S> -> Option<X>, order: int)
    ensures OfOrder(Slots(es, pick), order) == Slots(OfOrder(es, order), pick)
  {
    if es != [] {
      var e, rest := es[0], es[1..];
      assert es == [e] + rest;
      SlotsOfOrder(rest, pick, order);
      PickedCons(e, rest, Tagged(pick));
      if pick(e).Some? { OfOrderCons(Entry(pick(e), None, e.order), Slots(rest, pick), order); }
      if e.order == order { PickedCons(e, OfOrder(rest, order), Tagged(pick)); }
    }
  }

  lemma {:induction false} SlotsSorted<U, S, X>(es: seq<Entry<U, S>>, pick: Entry<U, S> -> Option<X>)
    requires Sorted(es)
    ensures Sorted(Slots(es, pick))
  {
    if es != [] {
      var e, rest := es[0], es[1..];
      assert es == [e] + rest;
      SlotsSorted(rest, pick);
      PickedCons(e, rest, Tagged(pick));
      forall x | x in Slots(rest, pick) ensures e.order <= x.order { PickedFrom(rest, Tagged(pick), x); }
    }
  }

  /** Sorting the registrations and taking one side is taking that side and sorting it. */
  lemma SlotsOfSort<U, S, X>(es: seq<Entry<U, S>>, pick: Entry<U, S> -> Option<X>)
    ensures Slots(StableSort(es), pick) == StableSort(Slots(es, pick))
  {
    SortIsStable(es);
    SlotsSorted(StableSort(es), pick);
    forall order: int ensures OfOrder(Slots(StableSort(es), pick), order) == OfOrder(Slots(es, pick), order) {
      SlotsOfOrder(StableSort(es), pick, order);
      SlotsOfOrder(es, pick, order);
      assert OfOrder(StableSort(es), order) == OfOrder(es, order);
    }
    StableSortIsUnique(Slots(es, pick), Slots(StableSort(es), pick));
  }

  lemma {:induction false} SlotsOfOnePriority<U, S, X>(es: seq<Entry<U, S>>, fs: seq<Entry<U, S>>, pick: Entry<U, S> -> Option<X>, order: int)
    requires (forall e :: e in es ==> e.order == order) && (forall e :: e in fs ==> e.order == order)
    requires Picked(es, pick) == Picked(fs, pick)
    ensures Slots(es, pick) == Slots(fs, pick)
  {
    SlotsAreTagged(es, pick, order);
    SlotsAreTagged(fs, pick, order);
  }

  function WithOrder<X>(xs: seq<X>, order: int): seq<Slot<X>> {
    seq(|xs|, i requires 0 <= i < |xs| => Entry(Some(xs[i]), None, order))
  }

  lemma {:induction false} SlotsAreTagged<U, S, X>(es: seq<Entry<U, S>>, pick: Entry<U, S> -> Option<X>, order: int)
    requires forall e :: e in es ==> e.order == order
    ensures Slots(es, pick) == WithOrder(Picked(es, pick), order)
  {
    if es != [] {
      var e, rest := es[0], es[1..];
      assert es == [e] + rest && e in es;
      SlotsAreTagged(rest, pick, order);
      PickedCons(e, rest, Tagged(pick));
      PickedCons(e, rest, pick);
    }
  }

  lemma {:induction false} OfOrderHasOrder<U, S>(es: seq<Entry<U, S>>, order: int)
    ensures forall e :: e in OfOrder(es, order) ==> e.order == order
  {
    if es != [] { OfOrderHasOrder(es[1..], order); }
  }

  /** For every priority, the two registrations hold the same interceptors of one side in the same order. */
  ghost predicate SameOnSide<U, S, X>(a: seq<Entry<U, S>>, b: seq<Entry<U, S>>, pick: Entry<U, S> -> Option<X>) {
    forall order: int :: Picked(OfOrder(a, order), pick) == Picked(OfOrder(b, order), pick)
  }

  /** One side of the chain depends on nothing but the order of that side's interceptors within each priority. */
  lemma SameSide<U, S, X>(a: seq<Entry<U, S>>, b: seq<Entry<U, S>>, pick: Entry<U, S> -> Option<X>)
    requires SameOnSide(a, b, pick)
    ensures Picked(StableSort(a), pick) == Picked(StableSort(b), pick)
  {
    forall order: int ensures OfOrder(Slots(a, pick), order) == OfOrder(Slots(b, pick), order) {
      OfOrderHasOrder(a, order);
      OfOrderHasOrder(b, order);
      assert Picked(OfOrder(a, order), pick) == Picked(OfOrder(b, order), pick);
      SlotsOfOnePriority(OfOrder(a, order), OfOrder(b, order), pick, order);
      SlotsOfOrder(a, pick, order);
      SlotsOfOrder(b, pick, order);
    }
    SameChainIff(Slots(a, pick), Slots(b, pick));
    SlotsOfSort(a, pick);
    SlotsOfSort(b, pick);
    SlotsHold(StableSort(a), pick);
    SlotsHold(StableSort(b), pick);
  }
}
