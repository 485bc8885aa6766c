/** How old a served value can be, over every run of the two tiers. */
module Freshness {
  import opened Common
  import opened Tiered

  /** `Get` copies an L2 entry into L1 and drops its expiry. */
  predicate Immortalises(s: State, op: Op, now: Time, f: Faults) {
    op.Get? && FoundInL2(s, op.key, now, f) && f.l1Kept
  }

  /** Writes carry a TTL in (0, T]. */
  predicate TtlWithin(op: Op, T: nat) {
    match op
    case Set(_, _, ttl) => 0 < ttl <= T
    case GetOrSet(_, ttl, _) => 0 < ttl <= T
    case _ => true
  }

  /** An L2 entry for `k` ends within T of its birth, an L1 entry within 2T. */
  predicate Dated(s: State, k: Key, T: nat) {
    && (k in s.l2 ==> s.l2[k].expires.Some? && s.l2[k].expires.value <= s.l2[k].born + T)
    && (k in s.l1 ==> s.l1[k].expires.Some? && s.l1[k].expires.value <= s.l1[k].born + 2 * T)
  }

  /** A served value is at most `bound` old. */
  predicate NotOlder(reply: Reply, now: Time, bound: int) {
    reply.Hit? ==> now - reply.born <= bound
  }

  /** On key `k`, the operation writes with a TTL in (0, T] only, and is no promoting `Get`; on others, anything. */
  predicate CarefulStep(s: State, e: Event, T: nat, k: Key) {
    e.op.key == k ==> TtlWithin(e.op, T) && !Immortalises(s, e.op, e.now, e.f)
  }

  lemma DatedKept(s: State, e: Event, T: nat, k: Key)
    requires Dated(s, k, T) && CarefulStep(s, e, T, k)
    ensures Dated(Do(s, e.op, e.now, e.f).0, k, T)
    ensures e.op.key == k ==> NotOlder(Do(s, e.op, e.now, e.f).1, e.now, 2 * T)
  {
  }

  predicate Careful(s: State, es: seq<Event>, T: nat, k: Key)
    decreases |es|
  {
    es != [] ==>
      CarefulStep(s, es[0], T, k) && Careful(Do(s, es[0].op, es[0].now, es[0].f).0, es[1..], T, k)
  }

  lemma {:induction false} NeverOlderFrom(s: State, es: seq<Event>, T: nat, k: Key, i: nat)
    requires Dated(s, k, T) && Careful(s, es, T, k) && i < |es| && es[i].op.key == k
    ensures NotOlder(ReplyTo(s, es, i), es[i].now, 2 * T)
    decreases |es|
  {
    DatedKept(s, es[0], T, k);
    if i > 0 { NeverOlderFrom(Do(s, es[0].op, es[0].now, es[0].f).0, es[1..], T, k, i - 1); }
  }

  /**
   With TTLs in (0, T] for a key, and no `Get` that promotes it, no value of that key is ever served more than 2T
   after it was supplied, whatever is lost, whatever fails, and whatever is done to other keys.
   */
  lemma NeverOlderThanTwoTtls(es: seq<Event>, T: nat, k: Key, i: nat)
    requires Careful(Empty, es, T, k) && i < |es| && es[i].op.key == k
    ensures NotOlder(ReplyTo(Empty, es, i), es[i].now, 2 * T)
  {
    NeverOlderFrom(Empty, es, T, k, i);
  }

  /** The bound is met: a value supplied at 0 and promoted at T is served at 2T. */
  lemma TwoTtlsIsReached(T: nat, k: Key, v: Bytes) returns (es: seq<Event>)
    requires T > 0
    ensures Careful(Empty, es, T, k) && |es| == 4 && es[3].now == 2 * T
    ensures ReplyTo(Empty, es, 3) == Hit(v, 0)
  {
    var f := Faults(true, true, true);
    var e0 := Event(Set(k, v, T), 0, f);
    var e1 := Event(LoseL1(k), T, f);
    var e2 := Event(GetOrSet(k, T, Err("down")), T, f);
    var e3 := Event(GetOrSet(k, T, Err("down")), 2 * T, f);
    es := [e0, e1, e2, e3];
    var s1 := Do(Empty, e0.op, 0, f).0;
    var s2 := Do(s1, e1.op, T, f).0;
    var s3 := Do(s2, e2.op, T, f).0;
    assert s3.l1[k] == Entry(v, 0, Some(2 * T));
    assert es[1..] == [e1, e2, e3] && es[1..][1..] == [e2, e3] && es[1..][1..][1..] == [e3];
    assert Careful(s3, [e3], T, k) && Careful(s2, [e2, e3], T, k) && Careful(s1, [e1, e2, e3], T, k);
    assert ReplyTo(s3, [e3], 0) == Hit(v, 0);
    assert ReplyTo(s2, [e2, e3], 1) == Hit(v, 0);
    assert ReplyTo(s1, [e1, e2, e3], 2) == Hit(v, 0);
  }

  /** Later `Get`s of the key have bounded age. */
  ghost predicate BoundedAfter(s: State, k: Key, bound: int) {
    forall now: Time, f: Faults :: NotOlder(Do(s, Get(k), now, f).1, now, bound)
  }

  /**
   From a state that keeps the dates of `k`, the values that `Get` serves afterwards stay below some age exactly
   when this `Get` does not promote: a promotion with TTL zero never expires.
   */
  lemma GetKeepsBoundIff(s: State, k: Key, now: Time, f: Faults, T: nat)
    requires Dated(s, k, T)
    ensures (exists bound: int :: BoundedAfter(Do(s, Get(k), now, f).0, k, bound))
        <==> !Immortalises(s, Get(k), now, f)
    ensures !Immortalises(s, Get(k), now, f) ==> BoundedAfter(Do(s, Get(k), now, f).0, k, 2 * T)
  {
    var s' := Do(s, Get(k), now, f).0;
    if Immortalises(s, Get(k), now, f) {
      forall bound: int ensures !BoundedAfter(s', k, bound) {
        var late := s.l2[k].born + bound + 1;
        assert Do(s', Get(k), late, f).1 == Hit(s.l2[k].val, s.l2[k].born);
      }
    } else {
      DatedKept(s, Event(Get(k), now, f), T, k);
      DatedIsBounded(s', k, T);
    }
  }

  lemma DatedIsBounded(s: State, k: Key, T: nat)
    requires Dated(s, k, T)
    ensures BoundedAfter(s, k, 2 * T)
  {
    forall now: Time, f: Faults ensures NotOlder(Do(s, Get(k), now, f).1, now, 2 * T) {
      assert k in s.l1 ==> s.l1[k].expires.value <= s.l1[k].born + 2 * T;
      assert k in s.l2 ==> s.l2[k].expires.value <= s.l2[k].born + T;
    }
  }

  // ---------------------------------------------------------------- a value's own TTL

  /** A write: the value, the instant, and the TTL that came with it. */
  datatype Write = Write(val: Bytes, at: Time, ttl: nat)

  /** The write for `k` that an event makes: a `Set`, or a load on a miss. */
  function WriteOf(s: State, e: Event, k: Key): Option<Write> {
    if e.op.key != k then None
    else match e.op
         case Set(_, v, ttl) => Some(Write(v, e.now, ttl))
         case GetOrSet(_, ttl, loader) =>
           if loader.Ok? && !Found(s, k, e.now, e.f) then Some(Write(loader.val, e.now, ttl)) else None
         case _ => None
  }

  /** The writes for `k` in a run. */
  function Writes(s: State, es: seq<Event>, k: Key): seq<Write>
    decreases |es|
  {
    if es == [] then []
    else
      var rest := Writes(Do(s, es[0].op, es[0].now, es[0].f).0, es[1..], k);
      if WriteOf(s, es[0], k).Some? then [WriteOf(s, es[0], k).value] + rest else rest
  }

  /** The event copies an entry of `k` from L2 into L1. */
  predicate Promotes(s: State, e: Event, k: Key) {
    e.op.key == k && (e.op.Get? || e.op.GetOrSet?) && FoundInL2(s, k, e.now, e.f) && e.f.l1Kept
  }

  predicate NoPromotion(s: State, es: seq<Event>, k: Key)
    decreases |es|
  {
    es != [] ==> !Promotes(s, es[0], k) && NoPromotion(Do(s, es[0].op, es[0].now, es[0].f).0, es[1..], k)
  }

  /** The entry is what one of the writes made, and ends when that write's TTL does. */
  ghost predicate EndsOnTime(e: Entry, ws: seq<Write>) {
    exists w :: w in ws && w.val == e.val && w.at == e.born && (forall now: Time :: e.Live(now) ==> w.ttl == 0 || now <= w.at + w.ttl)
  }

  ghost predicate AllEndOnTime(s: State, k: Key, ws: seq<Write>) {
    (k in s.l1 ==> EndsOnTime(s.l1[k], ws)) && (k in s.l2 ==> EndsOnTime(s.l2[k], ws))
  }

  lemma MoreWrites(e: Entry, ws: seq<Write>, more: seq<Write>)
    requires EndsOnTime(e, ws)
    ensures EndsOnTime(e, ws + more)
  {
    var w :| w in ws && w.val == e.val && w.at == e.born && (forall now: Time :: e.Live(now) ==> w.ttl == 0 || now <= w.at + w.ttl);
    assert w in ws + more;
  }

  lemma WriteEndsOnTime(w: Write, ws: seq<Write>)
    ensures EndsOnTime(Entry(w.val, w.at, Expiry(w.at, w.ttl)), ws + [w])
  {
    assert w in ws + [w];
  }

  lemma EventEndsOnTime(s: State, e: Event, k: Key, ws: seq<Write>)
    requires AllEndOnTime(s, k, ws) && !Promotes(s, e, k)
    ensures var w := WriteOf(s, e, k);
      AllEndOnTime(Do(s, e.op, e.now, e.f).0, k, if w.Some? then ws + [w.value] else ws)
  {
    var w := WriteOf(s, e, k);
    if w.Some? {
      WriteEndsOnTime(w.value, ws);
      if k in s.l2 { MoreWrites(s.l2[k], ws, [w.value]); }
    }
  }

  lemma {:induction false} HitEndsOnTime(s: State, es: seq<Event>, k: Key, i: nat, ws: seq<Write>)
    requires i < |es| && es[i].op.key == k && AllEndOnTime(s, k, ws) && NoPromotion(s, es[..i], k)
    ensures var r := ReplyTo(s, es, i);
      r.Hit? ==> exists w :: w in ws + Writes(s, es[..i], k) && w.val == r.val && w.at == r.born && (w.ttl == 0 || es[i].now <= w.at + w.ttl)
    decreases |es|
  {
    if i == 0 {
      assert es[..0] == [] && ws + [] == ws;
    } else {
      var s1, w := Do(s, es[0].op, es[0].now, es[0].f).0, WriteOf(s, es[0], k);
      var ws1 := if w.Some? then ws + [w.value] else ws;
      assert es[..i][0] == es[0] && es[..i][1..] == es[1..][..i - 1];
      EventEndsOnTime(s, es[0], k, ws);
      HitEndsOnTime(s1, es[1..], k, i - 1, ws1);
      assert ws1 + Writes(s1, es[1..][..i - 1], k) == ws + Writes(s, es[..i], k);
    }
  }

  /**
   Over every run: unless an L2 entry of the key was promoted before, a hit serves the value of an earlier write for
   that key within the TTL of that very write. A value outlives its own TTL by promotion only.
   */
  lemma OutlivesTtlByPromotionOnly(es: seq<Event>, k: Key, i: nat)
    requires i < |es| && es[i].op.key == k && NoPromotion(Empty, es[..i], k)
    ensures var r := ReplyTo(Empty, es, i);
      r.Hit? ==> exists w :: w in Writes(Empty, es[..i], k) && w.val == r.val && w.at == r.born && (w.ttl == 0 || es[i].now <= w.at + w.ttl)
  {
    HitEndsOnTime(Empty, es, k, i, []);
    assert [] + Writes(Empty, es[..i], k) == Writes(Empty, es[..i], k);
  }
}
