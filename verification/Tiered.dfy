/**
 The two tiers with their clocks: every operation happens at one instant, and in between either tier may lose
 entries. `born` is history: the instant at which a `Set` or a loader supplied the value.
 */
module Tiered {
  import opened Common

  type Time = int

  datatype Entry = Entry(val: Bytes, born: Time, expires: Option<Time>) {
    predicate Live(now: Time) {
      expires.None? || now <= expires.value
    }
  }

  datatype State = State(l1: map<Key, Entry>, l2: map<Key, Entry>)

  const Empty := State(map[], map[])

  /** Which store accesses of one operation succeed. */
  datatype Faults = Faults(l1Kept: bool, l2Wrote: bool, l2Read: bool)

  datatype Op =
    | Get(key: Key)
    | Set(key: Key, val: Bytes, ttl: nat)
    | GetOrSet(key: Key, ttl: nat, loader: Outcome)
    | LoseL1(key: Key)
    | LoseL2(key: Key)

  /** `Loaded` is the reply of a `GetOrSet` that ran its loader. */
  datatype Reply = Hit(val: Bytes, born: Time) | Loaded(result: Outcome) | Miss | Quiet

  /** A zero TTL means no expiry. */
  function Expiry(now: Time, ttl: nat): Option<Time> {
    if ttl == 0 then None else Some(now + ttl)
  }

  predicate Holds(m: map<Key, Entry>, k: Key, now: Time) {
    k in m && m[k].Live(now)
  }

  /** L1 keeps the new entry or nothing. */
  function PutL1(s: State, k: Key, e: Entry, f: Faults): State {
    s.(l1 := if f.l1Kept then s.l1[k := e] else s.l1 - {k})
  }

  /** L2 drops a write it cannot make. */
  function PutL2(s: State, k: Key, e: Entry, f: Faults): State {
    if f.l2Wrote then s.(l2 := s.l2[k := e]) else s
  }

  /** An operation finds its key only in L2. */
  predicate FoundInL2(s: State, k: Key, now: Time, f: Faults) {
    !Holds(s.l1, k, now) && f.l2Read && Holds(s.l2, k, now)
  }

  predicate Found(s: State, k: Key, now: Time, f: Faults) {
    Holds(s.l1, k, now) || FoundInL2(s, k, now, f)
  }

  function Written(s: State, k: Key, v: Bytes, ttl: nat, now: Time, f: Faults): State {
    var e := Entry(v, now, Expiry(now, ttl));
    PutL1(PutL2(s, k, e, f), k, e, f)
  }

  function Promoted(s: State, k: Key, ttl: nat, now: Time, f: Faults): State
    requires k in s.l2
  {
    PutL1(s, k, s.l2[k].(expires := Expiry(now, ttl)), f)
  }

  /** One operation at instant `now`: the new state and the reply. */
  function Do(s: State, op: Op, now: Time, f: Faults): (State, Reply) {
    match op
    case Get(k) =>
      if Holds(s.l1, k, now) then (s, Hit(s.l1[k].val, s.l1[k].born))
      else if FoundInL2(s, k, now, f) then (Promoted(s, k, 0, now, f), Hit(s.l2[k].val, s.l2[k].born))
      else (s, Miss)
    case Set(k, v, ttl) =>
      (Written(s, k, v, ttl, now, f), Quiet)
    case GetOrSet(k, ttl, loader) =>
      if Holds(s.l1, k, now) then (s, Hit(s.l1[k].val, s.l1[k].born))
      else if FoundInL2(s, k, now, f) then (Promoted(s, k, ttl, now, f), Hit(s.l2[k].val, s.l2[k].born))
      else if loader.Ok? then (Written(s, k, loader.val, ttl, now, f), Loaded(loader))
      else (s, Loaded(loader))
    case LoseL1(k) => (s.(l1 := s.l1 - {k}), Quiet)
    case LoseL2(k) => (s.(l2 := s.l2 - {k}), Quiet)
  }

  /** The tiered cache as used by one goroutine at a time. */
  class Cache {
    var l1: map<Key, Entry>
    var l2: map<Key, Entry>

    ghost function View(): State
      reads this
    {
      State(l1, l2)
    }

    constructor ()
      ensures View() == Empty
    {
      l1, l2 := map[], map[];
    }

    method L1Get(key: Key, now: Time) returns (e: Option<Entry>)
      ensures e == if Holds(l1, key, now) then Some(l1[key]) else None
    {
      e := if key in l1 && l1[key].Live(now) then Some(l1[key]) else None;
    }

    method L2Get(key: Key, now: Time, f: Faults) returns (e: Option<Entry>)
      ensures e == if f.l2Read && Holds(l2, key, now) then Some(l2[key]) else None
    {
      e := None;
      if f.l2Read && key in l2 && l2[key].Live(now) { e := Some(l2[key]); }
    }

    method L1Set(key: Key, e: Entry, f: Faults)
      modifies this`l1
      ensures View() == PutL1(old(View()), key, e, f)
    {
      l1 := l1 - {key};
      if f.l1Kept { l1 := l1[key := e]; }
      assert f.l1Kept ==> l1 == old(l1)[key := e];
    }

    method L2Set(key: Key, e: Entry, f: Faults)
      modifies this`l2
      ensures View() == PutL2(old(View()), key, e, f)
    {
      if f.l2Wrote { l2 := l2[key := e]; }
    }

    method DoGet(key: Key, now: Time, f: Faults) returns (reply: Reply)
      modifies this`l1
      ensures (View(), reply) == Do(old(View()), Get(key), now, f)
    {
      var e := L1Get(key, now);
      if e.Some? { return Hit(e.value.val, e.value.born); }
      e := L2Get(key, now, f);
      if e.None? { return Miss; }
      L1Set(key, e.value.(expires := None), f);
      reply := Hit(e.value.val, e.value.born);
    }

    method DoSet(key: Key, val: Bytes, ttl: nat, now: Time, f: Faults)
      modifies this
      ensures (View(), Quiet) == Do(old(View()), Set(key, val, ttl), now, f)
    {
      var e := Entry(val, now, Expiry(now, ttl));
      L2Set(key, e, f);
      L1Set(key, e, f);
    }

    method DoGetOrSet(key: Key, ttl: nat, loader: Outcome, now: Time, f: Faults) returns (reply: Reply)
      modifies this
      ensures (View(), reply) == Do(old(View()), GetOrSet(key, ttl, loader), now, f)
    {
      var e := L1Get(key, now);
      if e.Some? { return Hit(e.value.val, e.value.born); }
      e := L2Get(key, now, f);
      if e.Some? {
        L1Set(key, e.value.(expires := Expiry(now, ttl)), f);
        return Hit(e.value.val, e.value.born);
      }
      if loader.Ok? {
        var entry := Entry(loader.val, now, Expiry(now, ttl));
        L2Set(key, entry, f);
        L1Set(key, entry, f);
      }
      reply := Loaded(loader);
    }
  }

  // ---------------------------------------------------------------- runs

  datatype Event = Event(op: Op, now: Time, f: Faults)

  function After(s: State, es: seq<Event>): State
    decreases |es|
  {
    if es == [] then s
    else After(Do(s, es[0].op, es[0].now, es[0].f).0, es[1..])
  }

  /** The reply to event `i` of a run from `s`. */
  function ReplyTo(s: State, es: seq<Event>, i: nat): Reply
    requires i < |es|
    decreases |es|
  {
    var step := Do(s, es[0].op, es[0].now, es[0].f);
    if i == 0 then step.1 else ReplyTo(step.0, es[1..], i - 1)
  }

  /** The loader runs exactly when neither tier answers, and whatever it brings is served again, from either tier. */
  lemma LoadedOnceThenServed(s: State, k: Key, ttl: nat, loader: Outcome, now: Time, f: Faults,
                             later: Time, g: Faults, loader': Outcome)
    requires now <= later && (ttl > 0 ==> later <= now + ttl)
    ensures Do(s, GetOrSet(k, ttl, loader), now, f).1.Loaded? <==> !Found(s, k, now, f)
    ensures !Found(s, k, now, f) && loader.Ok? ==>
      var s1 := Do(s, GetOrSet(k, ttl, loader), now, f).0;
      && (f.l1Kept ==> Do(s1, GetOrSet(k, ttl, loader'), later, g) == (s1, Hit(loader.val, now)))
      && (f.l2Wrote && g.l2Read ==>
            Do(Do(s1, LoseL1(k), later, g).0, GetOrSet(k, ttl, loader'), later, g).1 == Hit(loader.val, now))
    ensures !Found(s, k, now, f) && loader.Err? ==> Do(s, GetOrSet(k, ttl, loader), now, f).0 == s
  {
  }

  /** A `Set` is served, from either tier that kept it, until its TTL is over; and it touches no other key. */
  lemma SetThenServed(s: State, k: Key, v: Bytes, ttl: nat, now: Time, f: Faults, later: Time, g: Faults, other: Key)
    requires now <= later && (ttl > 0 ==> later <= now + ttl)
    ensures var s1 := Do(s, Set(k, v, ttl), now, f).0;
      && (f.l1Kept ==> Do(s1, Get(k), later, g) == (s1, Hit(v, now)))
      && (f.l2Wrote && g.l2Read ==> Do(Do(s1, LoseL1(k), later, g).0, Get(k), later, g).1 == Hit(v, now))
      && (other != k ==> Do(s1, Get(other), later, g).1 == Do(s, Get(other), later, g).1)
  {
  }

  /** And no longer: right after a `Set` that L2 took, or a load, the key is a miss once the TTL is over. */
  lemma WriteExpires(s: State, k: Key, v: Bytes, ttl: nat, now: Time, f: Faults, later: Time, g: Faults)
    requires f.l2Wrote && ttl > 0 && later > now + ttl
    ensures Do(Do(s, Set(k, v, ttl), now, f).0, Get(k), later, g).1 == Miss
    ensures !Found(s, k, now, f) ==> Do(Do(s, GetOrSet(k, ttl, Ok(v)), now, f).0, Get(k), later, g).1 == Miss
  {
  }

  /** A promotion gives the key a life of its own: that of the promoting `GetOrSet`'s TTL. */
  lemma PromotionExpires(s: State, k: Key, ttl: nat, loader: Outcome, now: Time, f: Faults, later: Time, g: Faults)
    requires FoundInL2(s, k, now, f) && ttl > 0 && later > now + ttl
    ensures var s1 := Do(Do(s, GetOrSet(k, ttl, loader), now, f).0, LoseL2(k), later, g).0;
      Do(s1, Get(k), later, g).1 == Miss
  {
  }

  /** An L2 that cannot be read is as good as empty: the same replies, the same L1 afterwards. */
  lemma UnreadableIsEmpty(s: State, k: Key, ttl: nat, loader: Outcome, now: Time, f: Faults)
    requires !f.l2Read
    ensures var bare := s.(l2 := map[]);
      && Do(s, Get(k), now, f).1 == Do(bare, Get(k), now, f).1
      && Do(s, Get(k), now, f).0 == s
      && Do(s, GetOrSet(k, ttl, loader), now, f).1 == Do(bare, GetOrSet(k, ttl, loader), now, f).1
      && Do(s, GetOrSet(k, ttl, loader), now, f).0.l1 == Do(bare, GetOrSet(k, ttl, loader), now, f).0.l1
  {
  }

  /** A `Get` that misses, or hits L1, changes nothing; one that hits L2 changes L1 at its own key only. */
  lemma GetWritesOnlyPromotions(s: State, k: Key, now: Time, f: Faults)
    ensures var (s', reply) := Do(s, Get(k), now, f);
      && s'.l2 == s.l2 && s'.l1 - {k} == s.l1 - {k}
      && (reply == Miss || Holds(s.l1, k, now) ==> s' == s)
  {
  }

  /** A promotion spares L2: afterwards the key is served although L2 loses it. */
  lemma PromotionServesFromL1(s: State, k: Key, op: Op, now: Time, f: Faults, later: Time, g: Faults, loader: Outcome)
    requires FoundInL2(s, k, now, f) && f.l1Kept && now <= later
    requires op == Get(k) || (op.GetOrSet? && op.key == k && (op.ttl > 0 ==> later <= now + op.ttl))
    ensures var s1 := Do(Do(s, op, now, f).0, LoseL2(k), later, g).0;
      Do(s1, GetOrSet(k, 1, loader), later, g).1 == Hit(s.l2[k].val, s.l2[k].born)
  {
  }
}
