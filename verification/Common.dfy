/** Small types shared by the whole model. */
module Common {
  newtype byte = x: int | 0 <= x < 256

  type Bytes = seq<byte>
  type Key = string

  datatype Option<+T> = None | Some(value: T)

  /** What `pick` finds in the elements, in their order. */
  function Picked<E, X>(es: seq<E>, pick: E -> Option<X>): seq<X> {
    if es == [] then []
    else if pick(es[0]).Some? then [pick(es[0]).value] + Picked(es[1..], pick)
    else Picked(es[1..], pick)
  }

  lemma PickedCons<E, X>(e: E, es: seq<E>, pick: E -> Option<X>)
    ensures Picked([e] + es, pick) == if pick(e).Some? then [pick(e).value] + Picked(es, pick) else Picked(es, pick)
  {
    assert ([e] + es)[1..] == es;
  }

  lemma {:induction false} PickedAppend<E, X>(a: seq<E>, b: seq<E>, pick: E -> Option<X>)
    ensures Picked(a + b, pick) == Picked(a, pick) + Picked(b, pick)
  {
    if a == [] {
      assert a + b == b;
    } else {
      var e, rest := a[0], a[1..];
      assert a == [e] + rest;
      ConcatAssociative([e], rest, b);
      PickedAppend(rest, b, pick);
      PickedCons(e, rest, pick);
      PickedCons(e, rest + b, pick);
    }
  }

  lemma {:induction false} PickedFrom<E, X>(es: seq<E>, pick: E -> Option<X>, x: X)
    ensures x in Picked(es, pick) <==> exists e :: e in es && pick(e) == Some(x)
  {
    if es != [] {
      var e, rest := es[0], es[1..];
      assert es == [e] + rest;
      PickedCons(e, rest, pick);
      PickedFrom(rest, pick, x);
      if pick(e) == Some(x) { assert e in es; }
    }
  }

  lemma ConcatAssociative<T>(x: seq<T>, y: seq<T>, z: seq<T>)
    ensures (x + y) + z == x + (y + z)
  {
  }

  /** What a cache loader returns: the value bytes, or an error. */
  datatype Outcome = Ok(val: Bytes) | Err(err: string)
}
