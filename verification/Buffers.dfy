/**
 The clone discipline of the caches, on real byte buffers. L1 keeps only buffers it made itself, and
 every buffer a caller gets is a fresh one, so writing to any buffer outside the store changes
 neither a later hit nor what another caller was given.
 */
module Buffers {
  import opened Common

  method Clone(b: array<byte>) returns (r: array<byte>)
    ensures fresh(r) && r[..] == b[..]
  {
    r := new byte[b.Length];
    for i := 0 to b.Length
      invariant r[..i] == b[..i]
    {
      r[i] := b[i];
    }
  }

  /** Bytes off the network: a buffer nobody else holds. */
  method Receive(bytes: Bytes) returns (r: array<byte>)
    ensures fresh(r) && r[..] == bytes
  {
    r := new byte[|bytes|];
    for i := 0 to |bytes|
      invariant r[..i] == bytes[..i]
    {
      r[i] := bytes[i];
    }
  }

  /** One load in flight: the loader's own buffer or its error, shared by leader and waiters. */
  class Call {
    var released: bool
    var val: array?<byte>
    var err: Option<string>

    constructor ()
      ensures !released && val == null && err.None?
    {
      released, val, err := false, null, None;
    }
  }

  /** The contents of L1 after a write to it: the new bytes, or nothing for the key. */
  function Written(contents: map<Key, Bytes>, key: Key, v: Bytes, kept: bool): map<Key, Bytes> {
    if kept then contents[key := v] else contents - {key}
  }

  /** That is: the key's bytes are the new ones, or it is gone; any other key has what it had. */
  lemma WrittenBytes(contents: map<Key, Bytes>, key: Key, v: Bytes, kept: bool, other: Key)
    ensures var after := Written(contents, key, v, kept);
      && (kept ==> key in after && after[key] == v)
      && (!kept ==> key !in after)
      && (other != key ==> (other in after <==> other in contents) && (other in contents ==> after[other] == contents[other]))
  {
  }

  class L1 {
    var rc: map<Key, array<byte>>
    ghost var handed: set<array<byte>>  // every buffer a caller or a loader has seen

    ghost function Owned(): set<array<byte>>
      reads this`rc
    {
      rc.Values
    }

    ghost function Contents(): map<Key, Bytes>
      reads this`rc, rc.Values
    {
      map k | k in rc :: rc[k][..]
    }

    /** No stored buffer is known outside, and no two keys share one. */
    ghost predicate Valid()
      reads this
    {
      && Owned() !! handed
      && (forall j, k :: j in rc && k in rc && j != k ==> rc[j] != rc[k])
    }

    constructor ()
      ensures Valid() && Contents() == map[] && handed == {}
    {
      rc, handed := map[], {};
    }

    method Get(key: Key) returns (v: array?<byte>)
      requires Valid()
      modifies this`handed
      ensures Valid()
      ensures v != null <==> key in rc
      ensures v != null ==> fresh(v) && v[..] == rc[key][..]
      ensures handed == old(handed) + (if v == null then {} else {v})
    {
      v := null;
      if key in rc {
        v := Clone(rc[key]);
        handed := handed + {v};
      }
    }

    /** The store takes a copy: the caller's buffer stays outside. */
    method Set(key: Key, val: array<byte>, kept: bool)
      requires Valid() && val !in Owned()
      modifies this
      ensures Valid() && fresh(Owned() - old(Owned()))
      ensures Contents() == Written(old(Contents()), key, old(val[..]), kept)
      ensures handed == old(handed) + {val}
    {
      handed := handed + {val};
      if kept {
        var copy := Clone(val);
        rc := rc[key := copy];
        assert Contents() == old(Contents())[key := old(val[..])];
      } else {
        rc := rc - {key};
        assert Contents() == old(Contents()) - {key};
      }
    }

    /** What leader and waiters return from a finished call: the error, or a copy each. */
    method Result(c: Call) returns (v: array?<byte>, err: Option<string>)
      requires Valid()
      requires c.err.None? ==> c.val != null
      modifies this`handed
      ensures Valid()
      ensures err == c.err && (v == null <==> err.Some?)
      ensures v != null ==> fresh(v) && v[..] == c.val[..]
      ensures handed == old(handed) + (if v == null then {} else {v})
    {
      v, err := null, c.err;
      if c.err.None? {
        v := Clone(c.val);
        handed := handed + {v};
      }
    }

    /** The leader's part once the loader has returned: store a value, never an error, then release. */
    method Finish(c: Call, key: Key, kept: bool)
      requires Valid() && (c.err.None? ==> c.val != null && c.val !in Owned())
      modifies this, c`released
      ensures Valid() && fresh(Owned() - old(Owned())) && c.released
      ensures c.err.Some? ==> rc == old(rc) && handed == old(handed) && Contents() == old(Contents())
      ensures c.err.None? ==> handed == old(handed) + {c.val}
      ensures c.err.None? ==> Contents() == Written(old(Contents()), key, old(c.val[..]), kept)
    {
      if c.err.None? {
        Set(key, c.val, kept);
      }
      c.released := true;
    }

    /** The leader's call from the loader's return to its own result: the loader hands over `loaded`, or fails. */
    method Complete(key: Key, loaded: array<byte>, fail: Option<string>, kept: bool)
      returns (v: array?<byte>, err: Option<string>)
      requires Valid() && loaded !in Owned()
      modifies this
      ensures Valid() && fresh(Owned() - old(Owned()))
      ensures err == fail && (v == null <==> fail.Some?)
      ensures v != null ==> fresh(v) && v !in Owned() && v[..] == old(loaded[..])
      ensures Contents() == if fail.Some? then old(Contents()) else Written(old(Contents()), key, old(loaded[..]), kept)
      ensures handed == old(handed) + (if v == null then {} else {v, loaded})
    {
      var c := new Call();
      c.err := fail;
      if fail.None? { c.val := loaded; }
      v, err := FinishAndReturn(c, key, kept);
    }

    method FinishAndReturn(c: Call, key: Key, kept: bool) returns (v: array?<byte>, err: Option<string>)
      requires Valid() && (c.err.None? ==> c.val != null && c.val !in Owned())
      modifies this, c`released
      ensures Valid() && fresh(Owned() - old(Owned())) && c.released
      ensures err == c.err && (v == null <==> c.err.Some?)
      ensures v != null ==> fresh(v) && v !in Owned() && v[..] == old(c.val[..])
      ensures Contents() == if c.err.Some? then old(Contents()) else Written(old(Contents()), key, old(c.val[..]), kept)
      ensures handed == old(handed) + (if v == null then {} else {v, c.val})
    {
      Finish(c, key, kept);
      ghost var contents := Contents();
      v, err := Result(c);
      assert Contents() == contents;
    }

    /** `GetOrSet` of a goroutine that meets no other. */
    method GetOrSet(key: Key, loaded: array<byte>, fail: Option<string>, kept: bool)
      returns (v: array?<byte>, err: Option<string>, ran: bool)
      requires Valid() && loaded !in Owned()
      modifies this
      ensures Valid() && fresh(Owned() - old(Owned()))
      ensures ran <==> key !in old(rc)
      ensures v == null <==> ran && fail.Some?
      ensures err == if ran then fail else None
      ensures v != null ==> fresh(v) && v !in Owned() && v[..] == if ran then old(loaded[..]) else old(rc[key][..])
      ensures Contents() == if !ran || fail.Some? then old(Contents())
                            else Written(old(Contents()), key, old(loaded[..]), kept)
      ensures handed == old(handed) + (if v == null then {} else {v}) + (if ran && fail.None? then {loaded} else {})
    {
      v := Get(key);
      err, ran := None, v == null;
      if ran {
        v, err := Complete(key, loaded, fail, kept);
      }
    }

    /** A caller writes to a buffer it holds; later hits do not see it. */
    method CallerWrites(b: array<byte>, i: nat, x: byte)
      requires Valid() && b in handed && i < b.Length
      modifies b
      ensures Valid() && Contents() == old(Contents())
      ensures b[..] == old(b[..])[i := x]
      ensures forall a: array<byte> :: a in handed && a != b ==> a[..] == old(a[..])
    {
      b[i] := x;
    }
  }

  /** Two goroutines of one cohort: separate copies, so a write by one reaches neither the other nor the store. */
  method CohortGetsSeparateCopies(l: L1, c: Call, x: byte) returns (mine: array<byte>, theirs: array<byte>)
    requires l.Valid() && c.err.None? && c.val != null && c.val !in l.Owned() && c.val.Length > 0
    modifies l`handed
    ensures l.Valid() && l.rc == old(l.rc) && mine != theirs && {mine, theirs} <= l.handed
    ensures fresh({mine, theirs}) && |theirs[..]| > 0
    ensures theirs[..] == c.val[..] && mine[..] == c.val[..][0 := x]
    ensures l.Contents() == old(l.Contents())
  {
    var a, _ := l.Result(c);
    var b, _ := l.Result(c);
    l.CallerWrites(a, 0, x);
    mine, theirs := a, b;
  }

  // ---------------------------------------------------------------- a loader that keeps writing

  /** A buffer after some writes to it, each an index and a byte. */
  function Applied(before: Bytes, writes: seq<(nat, byte)>): (after: Bytes)
    ensures |after| == |before|
  {
    if writes == [] then before
    else
      var init, last := Applied(before, writes[..|writes| - 1]), writes[|writes| - 1];
      if last.0 < |init| then init[last.0 := last.1] else init
  }

  /** The byte that the last of the writes to index `i` leaves there. */
  function LastWrite(writes: seq<(nat, byte)>, i: nat): Option<byte> {
    if writes == [] then None
    else
      var last := writes[|writes| - 1];
      if last.0 == i then Some(last.1) else LastWrite(writes[..|writes| - 1], i)
  }

  /** Each byte that is written at all is last written with what it was. */
  ghost predicate LeavesAlone(before: Bytes, writes: seq<(nat, byte)>) {
    forall i: nat :: i < |before| && LastWrite(writes, i).Some? ==> LastWrite(writes, i).value == before[i]
  }

  lemma {:induction false} AppliedAt(before: Bytes, writes: seq<(nat, byte)>, i: nat)
    requires i < |before|
    ensures Applied(before, writes)[i] == match LastWrite(writes, i) case None => before[i] case Some(x) => x
  {
    if writes != [] { AppliedAt(before, writes[..|writes| - 1], i); }
  }

  /** The writes change nothing in the end exactly if they leave every byte as it was. */
  lemma UnchangedIff(before: Bytes, writes: seq<(nat, byte)>)
    ensures Applied(before, writes) == before <==> LeavesAlone(before, writes)
  {
    forall i: nat | i < |before| ensures Applied(before, writes)[i] == before[i] <==>
      (LastWrite(writes, i).Some? ==> LastWrite(writes, i).value == before[i])
    {
      AppliedAt(before, writes, i);
    }
  }

  /** Somebody who holds the buffer makes the writes. */
  method PutAll(b: array<byte>, writes: seq<(nat, byte)>)
    modifies b
    ensures b[..] == Applied(old(b[..]), writes)
  {
    for j := 0 to |writes|
      invariant b[..] == Applied(old(b[..]), writes[..j])
    {
      assert writes[..j + 1][..j] == writes[..j];
      if writes[j].0 < b.Length { b[writes[j].0] := writes[j].1; }
    }
    assert writes[..|writes|] == writes;
  }

  /**
   The one buffer that is not copied on the way in is the loader's. A loader that goes on writing to it after
   returning does so before the store takes its copy, between that and the first copy of the cohort (the leader's
   or a waiter's), and between the first and a second. Each copy shows the writes before it, so store, first and
   second agree exactly as far as the writes between them leave every byte as it was.
   */
  method LoaderKeepsWriting(l: L1, c: Call, key: Key, kept: bool,
                            early: seq<(nat, byte)>, between: seq<(nat, byte)>, late: seq<(nat, byte)>)
    returns (first: array<byte>, second: array<byte>, ghost stored: Bytes)
    requires l.Valid() && c.err.None? && c.val != null && c.val !in l.Owned()
    modifies l, c`released, c.val
    ensures l.Valid() && c.released
    ensures stored == Applied(old(c.val[..]), early) && l.Contents() == Written(old(l.Contents()), key, stored, kept)
    ensures stored == old(c.val[..]) <==> LeavesAlone(old(c.val[..]), early)
    ensures first[..] == Applied(stored, between) && (first[..] == stored <==> LeavesAlone(stored, between))
    ensures second[..] == Applied(first[..], late) && (second[..] == first[..] <==> LeavesAlone(first[..], late))
    ensures fresh({first, second}) && {first, second} !! l.Owned()
  {
    UnchangedIff(c.val[..], early);
    WriteEarly(l, c.val, early);
    stored := c.val[..];
    l.Finish(c, key, kept);
    first := CopyAfter(l, c, between);
    second := CopyAfter(l, c, late);
  }

  method WriteEarly(l: L1, b: array<byte>, writes: seq<(nat, byte)>)
    requires l.Valid() && b !in l.Owned()
    modifies b
    ensures b[..] == Applied(old(b[..]), writes) && l.Valid() && l.Contents() == old(l.Contents())
  {
    PutAll(b, writes);
  }

  /** More writes to the loader's buffer, and then one copy of it for a member of the cohort. */
  method CopyAfter(l: L1, c: Call, writes: seq<(nat, byte)>) returns (copy: array<byte>)
    requires l.Valid() && c.err.None? && c.val != null && c.val !in l.Owned()
    modifies l`handed, c.val
    ensures l.Valid() && l.Contents() == old(l.Contents()) && l.Owned() == old(l.Owned())
    ensures c.val[..] == Applied(old(c.val[..]), writes) == copy[..]
    ensures copy[..] == old(c.val[..]) <==> LeavesAlone(old(c.val[..]), writes)
    ensures fresh(copy) && copy !in l.Owned()
  {
    UnchangedIff(c.val[..], writes);
    WriteEarly(l, c.val, writes);
    var v, _ := l.Result(c);
    copy := v;
  }

  /** The two tiers: L2 is another process, so only bytes cross, never buffers. */
  class Tiered {
    const l1: L1
    var l2: map<Key, Bytes>

    ghost predicate Valid()
      reads this, l1
    {
      l1.Valid()
    }

    constructor (l1: L1)
      requires l1.Valid()
      ensures Valid() && this.l1 == l1 && l2 == map[]
    {
      this.l1, l2 := l1, map[];
    }

    /** The promoted buffer itself goes to the caller; L1 keeps a copy. */
    method Get(key: Key, l2Read: bool, kept: bool) returns (v: array?<byte>)
      requires Valid()
      modifies l1
      ensures Valid() && fresh(l1.Owned() - old(l1.Owned()))
      ensures v != null <==> key in old(l1.rc) || (l2Read && key in l2)
      ensures v != null ==> fresh(v) && v !in l1.Owned() && v in l1.handed && v !in old(l1.handed)
      ensures v != null ==> v[..] == if key in old(l1.rc) then old(l1.rc[key][..]) else l2[key]
      ensures key in old(l1.rc) || v == null ==> l1.Contents() == old(l1.Contents())
      ensures key !in old(l1.rc) && v != null ==> l1.Contents() == Written(old(l1.Contents()), key, v[..], kept)
    {
      v := l1.Get(key);
      if v == null && l2Read && key in l2 {
        var got := Receive(l2[key]);
        l1.Set(key, got, kept);
        v := got;
      }
    }

    /** L2 drops a write it cannot make. */
    method Set(key: Key, val: array<byte>, l2Wrote: bool, kept: bool)
      requires Valid() && val !in l1.Owned()
      modifies this, l1
      ensures Valid() && fresh(l1.Owned() - old(l1.Owned()))
      ensures l2 == if l2Wrote then old(l2)[key := old(val[..])] else old(l2)
      ensures l1.Contents() == Written(old(l1.Contents()), key, old(val[..]), kept)
      ensures val in l1.handed
    {
      if l2Wrote { l2 := l2[key := val[..]]; }
      l1.Set(key, val, kept);
    }

    /** The L2 hit of `GetOrSet`: promote, and give the caller its own copy. */
    method Promote(key: Key, kept: bool) returns (v: array<byte>)
      requires Valid() && key in l2
      modifies l1
      ensures Valid() && fresh(l1.Owned() - old(l1.Owned()))
      ensures fresh(v) && v !in l1.Owned() && v in l1.handed && v !in old(l1.handed) && v[..] == l2[key]
      ensures l1.Contents() == Written(old(l1.Contents()), key, l2[key], kept)
    {
      var got := Receive(l2[key]);
      l1.Set(key, got, kept);
      v := Clone(got);
      l1.handed := l1.handed + {v};
    }

    /** The leader of `GetOrSet`: store what the loader brought in L2 and then in L1. */
    method Lead(key: Key, loaded: array<byte>, fail: Option<string>, l2Wrote: bool, kept: bool)
      returns (v: array?<byte>, err: Option<string>)
      requires Valid() && loaded !in l1.Owned()
      modifies this, l1
      ensures Valid() && fresh(l1.Owned() - old(l1.Owned()))
      ensures err == fail && (v == null <==> fail.Some?)
      ensures v != null ==> fresh(v) && v !in l1.Owned() && v in l1.handed && v !in old(l1.handed) && v[..] == old(loaded[..])
      ensures l2 == if fail.None? && l2Wrote then old(l2)[key := old(loaded[..])] else old(l2)
      ensures l1.Contents() == if fail.None? then Written(old(l1.Contents()), key, old(loaded[..]), kept) else old(l1.Contents())
    {
      if fail.None? && l2Wrote {
        l2 := l2[key := loaded[..]];
      }
      v, err := l1.Complete(key, loaded, fail, kept);
    }

    /** `GetOrSet` of a goroutine that meets no other. */
    method GetOrSet(key: Key, loaded: array<byte>, fail: Option<string>, l2Read: bool, l2Wrote: bool, kept: bool)
      returns (v: array?<byte>, err: Option<string>, ran: bool)
      requires Valid() && loaded !in l1.Owned()
      modifies this, l1
      ensures Valid() && fresh(l1.Owned() - old(l1.Owned()))
      ensures ran <==> key !in old(l1.rc) && !(l2Read && key in old(l2))
      ensures v == null <==> ran && fail.Some?
      ensures err == if ran then fail else None
      ensures v != null ==> fresh(v) && v !in l1.Owned() && v in l1.handed && v !in old(l1.handed)
      ensures v != null ==> v[..] == if key in old(l1.rc) then old(l1.rc[key][..])
                                     else if !ran then old(l2)[key] else old(loaded[..])
      ensures l2 == if ran && fail.None? && l2Wrote then old(l2)[key := old(loaded[..])] else old(l2)
      ensures key in old(l1.rc) || v == null ==> l1.Contents() == old(l1.Contents())
      ensures key !in old(l1.rc) && v != null ==> l1.Contents() == Written(old(l1.Contents()), key, v[..], kept)
    {
      v := l1.Get(key);
      err, ran := None, false;
      if v == null {
        if l2Read && key in l2 {
          v := Promote(key, kept);
        } else {
          ran := true;
          v, err := Lead(key, loaded, fail, l2Wrote, kept);
        }
      }
    }
  }

  /** With two tiers there is one more moment to write: before the bytes go to L2. */
  method TieredLoaderKeepsWriting(t: Tiered, c: Call, key: Key, l2Wrote: bool, kept: bool,
                                  first: seq<(nat, byte)>, early: seq<(nat, byte)>,
                                  between: seq<(nat, byte)>, late: seq<(nat, byte)>)
    returns (one: array<byte>, other: array<byte>, ghost sent: Bytes, ghost stored: Bytes)
    requires t.Valid() && c.err.None? && c.val != null && c.val !in t.l1.Owned()
    modifies t`l2, t.l1, c`released, c.val
    ensures t.Valid() && c.released
    ensures sent == Applied(old(c.val[..]), first) && t.l2 == if l2Wrote then old(t.l2)[key := sent] else old(t.l2)
    ensures stored == Applied(sent, early) && t.l1.Contents() == Written(old(t.l1.Contents()), key, stored, kept)
    ensures stored == sent <==> LeavesAlone(sent, early)
    ensures one[..] == Applied(stored, between) && (one[..] == stored <==> LeavesAlone(stored, between))
    ensures other[..] == Applied(one[..], late) && (other[..] == one[..] <==> LeavesAlone(one[..], late))
  {
    WriteEarly(t.l1, c.val, first);
    sent := c.val[..];
    if l2Wrote { t.l2 := t.l2[key := c.val[..]]; }
    one, other, stored := LoaderKeepsWriting(t.l1, c, key, kept, early, between, late);
  }
}
