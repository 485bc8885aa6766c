/** The two tiers, used by one goroutine at a time, agree, key by key, with the value last written. */
module Coherence {
  import opened Common
  import opened Tiered

  /** The value an operation writes: that of a `Set`, or of a loader that ran. */
  function WrittenValue(s: State, op: Op, now: Time, f: Faults): Option<Bytes> {
    match op
    case Set(_, v, _) => Some(v)
    case GetOrSet(k, _, loader) => if !Found(s, k, now, f) && loader.Ok? then Some(loader.val) else None
    case _ => None
  }

  /** The value last written for `k` after one more operation. */
  function Recorded(last: Option<Bytes>, s: State, e: Event, k: Key): Option<Bytes> {
    var w := WrittenValue(s, e.op, e.now, e.f);
    if e.op.key == k && w.Some? then w else last
  }

  predicate Agrees(tier: map<Key, Entry>, k: Key, last: Option<Bytes>, now: Time) {
    Holds(tier, k, now) ==> last == Some(tier[k].val)
  }

  /** Whatever a tier still answers with for `k` is the value last written. */
  predicate Coherent(s: State, k: Key, last: Option<Bytes>, now: Time) {
    Agrees(s.l1, k, last, now) && Agrees(s.l2, k, last, now)
  }

  /** A write for `k` that L2 drops while it still holds another value. */
  predicate LeavesStale(s: State, e: Event, k: Key) {
    var w := WrittenValue(s, e.op, e.now, e.f);
    e.op.key == k && w.Some? && !e.f.l2Wrote && Holds(s.l2, k, e.now) && s.l2[k].val != w.value
  }

  /** An operation keeps the tiers coherent for `k` exactly when it leaves no stale value of `k` in L2. */
  lemma CoherentIff(s: State, k: Key, last: Option<Bytes>, e: Event)
    requires Coherent(s, k, last, e.now)
    ensures Coherent(Do(s, e.op, e.now, e.f).0, k, Recorded(last, s, e, k), e.now) <==> !LeavesStale(s, e, k)
  {
    if e.op.key != k { StrangerOp(s, k, e); }
  }

  /** An operation on another key changes no entry of `k`. */
  lemma StrangerOp(s: State, k: Key, e: Event)
    requires e.op.key != k
    ensures var s' := Do(s, e.op, e.now, e.f).0;
      && (k in s'.l1 <==> k in s.l1) && (k in s.l1 ==> s'.l1[k] == s.l1[k])
      && (k in s'.l2 <==> k in s.l2) && (k in s.l2 ==> s'.l2[k] == s.l2[k])
  {
  }

  /** The value last written for `k` in a run. */
  function LastWrite(last: Option<Bytes>, s: State, es: seq<Event>, k: Key): Option<Bytes>
    decreases |es|
  {
    if es == [] then last
    else LastWrite(Recorded(last, s, es[0], k), Do(s, es[0].op, es[0].now, es[0].f).0, es[1..], k)
  }

  /** For `k`, the clock does not go back, and no write leaves a stale value in L2; other keys are free. */
  predicate Sound(s: State, es: seq<Event>, k: Key, since: Time)
    decreases |es|
  {
    es != [] ==>
      && (es[0].op.key == k ==> since <= es[0].now && !LeavesStale(s, es[0], k))
      && Sound(Do(s, es[0].op, es[0].now, es[0].f).0, es[1..], k, if es[0].op.key == k then es[0].now else since)
  }

  lemma {:induction false} HitsAgreeFrom(s: State, last: Option<Bytes>, es: seq<Event>, k: Key, since: Time, i: nat)
    requires Coherent(s, k, last, since) && Sound(s, es, k, since) && i < |es| && es[i].op.key == k
    ensures ReplyTo(s, es, i).Hit? ==> LastWrite(last, s, es[..i], k) == Some(ReplyTo(s, es, i).val)
    decreases |es|
  {
    var e := es[0];
    if i == 0 {
      assert es[..0] == [];
    } else {
      if e.op.key == k { CoherentIff(s, k, last, e); } else { StrangerOp(s, k, e); }
      HitsAgreeFrom(Do(s, e.op, e.now, e.f).0, Recorded(last, s, e, k), es[1..], k, if e.op.key == k then e.now else since, i - 1);
      assert es[..i][1..] == es[1..][..i - 1];
    }
  }

  /**
   Over every sequential run in which no write for `k` leaves a stale value behind, each hit of `Get` or `GetOrSet`
   on `k` returns the value last written for it, whatever is evicted or expires, and whatever becomes of other keys.
   */
  lemma HitsAgreeWithLastWrites(es: seq<Event>, k: Key, since: Time, i: nat)
    requires Sound(Empty, es, k, since) && i < |es| && es[i].op.key == k
    ensures ReplyTo(Empty, es, i).Hit? ==> LastWrite(None, Empty, es[..i], k) == Some(ReplyTo(Empty, es, i).val)
  {
    HitsAgreeFrom(Empty, None, es, k, since, i);
  }

  /** A dropped L2 write and a lost L1 entry bring back the value before. */
  lemma DroppedWriteResurfaces(k: Key, before: Bytes, after: Bytes)
    requires before != after
    ensures var ok := Faults(true, true, true);
      var s1 := Do(Empty, Set(k, before, 0), 0, ok).0;
      var s2 := Do(s1, Set(k, after, 0), 1, ok.(l2Wrote := false)).0;
      var s3 := Do(s2, LoseL1(k), 2, ok).0;
      LeavesStale(s1, Event(Set(k, after, 0), 1, ok.(l2Wrote := false)), k) && Do(s3, Get(k), 3, ok).1 == Hit(before, 0)
  {
  }
}
