/** The byte-bounded least-recently-used cache with an optional expiry per entry. */
module Lru {
  import opened Common

  datatype Cached = Cached(status: int, contentType: string, body: seq<byte>, etag: string, fetched: int)

  datatype Entry = Entry(key: string, val: Cached, size: nat, expires: Option<int>)

  /** `entryMax`: the largest entry kept; 0 means an eighth of `max`. */
  datatype Bounds = Bounds(max: int, entryMax: int)

  function SizeOf(key: string, val: Cached): nat { |key| + |val.body| + 64 }

  predicate Admits(b: Bounds, key: string, val: Cached) {
    b.max > 0 && SizeOf(key, val) <= (if b.entryMax > 0 then b.entryMax else b.max / 8)
  }

  predicate Dead(e: Entry, now: int) { e.expires.Some? && now >= e.expires.value }

  function NewEntry(key: string, val: Cached, ttl: int, now: int): Entry {
    Entry(key, val, SizeOf(key, val), if ttl > 0 then Some(now + ttl) else None)
  }

  function Bytes(e: Entry): nat { e.size }

  // ------------------------------------------------------ the list, front first

  function Find(ll: seq<Entry>, key: string): Option<Entry> {
    if ll == [] then None
    else if ll[|ll| - 1].key == key then Some(ll[|ll| - 1])
    else Find(ll[..|ll| - 1], key)
  }

  function Drop(ll: seq<Entry>, key: string): seq<Entry> {
    if ll == [] then []
    else Drop(ll[..|ll| - 1], key) + (if ll[|ll| - 1].key == key then [] else [ll[|ll| - 1]])
  }

  /** The longest prefix of at most `max` bytes. */
  function Trim(ll: seq<Entry>, max: int): seq<Entry> {
    if ll == [] || Sum(ll, Bytes) <= max then ll else Trim(ll[..|ll| - 1], max)
  }

  function Looked(ll: seq<Entry>, key: string, now: int): seq<Entry> {
    match Find(ll, key)
    case None => ll
    case Some(e) => if Dead(e, now) then Drop(ll, key) else [e] + Drop(ll, key)
  }

  function Hit(ll: seq<Entry>, key: string, now: int): Option<Cached> {
    match Find(ll, key)
    case None => None
    case Some(e) => if Dead(e, now) then None else Some(e.val)
  }

  function Added(b: Bounds, ll: seq<Entry>, key: string, val: Cached, ttl: int, now: int): seq<Entry> {
    if Admits(b, key, val) then Trim([NewEntry(key, val, ttl, now)] + Drop(ll, key), b.max) else ll
  }

  ghost predicate Distinct(ll: seq<Entry>) { forall i, j | 0 <= i < j < |ll| :: ll[i].key != ll[j].key }

  lemma {:induction false} FindIs(ll: seq<Entry>, key: string)
    ensures Find(ll, key).Some? ==> Find(ll, key).value in ll && Find(ll, key).value.key == key
    ensures Find(ll, key).None? ==> forall e | e in ll :: e.key != key
  {
    if ll != [] {
      FindIs(ll[..|ll| - 1], key);
      assert ll == ll[..|ll| - 1] + [ll[|ll| - 1]];
    }
  }

  lemma FindAt(ll: seq<Entry>, i: nat)
    requires Distinct(ll) && i < |ll|
    ensures Find(ll, ll[i].key) == Some(ll[i])
  {
    FindIs(ll, ll[i].key);
  }

  lemma {:induction false} DropMembers(ll: seq<Entry>, key: string)
    ensures forall e :: e in Drop(ll, key) <==> e in ll && e.key != key
  {
    if ll != [] {
      DropMembers(ll[..|ll| - 1], key);
      assert ll == ll[..|ll| - 1] + [ll[|ll| - 1]];
    }
  }

  lemma {:induction false} DropDistinct(ll: seq<Entry>, key: string)
    requires Distinct(ll)
    ensures Distinct(Drop(ll, key))
  {
    if ll != [] {
      DropDistinct(ll[..|ll| - 1], key);
      DropMembers(ll[..|ll| - 1], key);
    }
  }

  lemma {:induction false} DropSum(ll: seq<Entry>, key: string)
    requires Distinct(ll)
    ensures Sum(ll, Bytes) == Sum(Drop(ll, key), Bytes) + (if Find(ll, key).Some? then Find(ll, key).value.size else 0)
  {
    if ll != [] {
      var init, last := ll[..|ll| - 1], ll[|ll| - 1];
      DropSum(init, key);
      FindIs(init, key);
      if last.key == key {
        NothingToDrop(init, key);
        assert Drop(init, key) + [] == init;
      } else {
        SumAppend(Drop(init, key), last, Bytes);
      }
    }
  }

  lemma FallingSnoc(init: seq<Entry>, last: Entry, rank: string -> nat)
    ensures Falling(init + [last], rank) <==> Falling(init, rank) && forall e | e in init ::
      rank(e.key) > rank(last.key)
  {
    var ll := init + [last];
    assert forall i | 0 <= i < |init| :: ll[i] == init[i];
    if Falling(ll, rank) {
      forall e | e in init ensures rank(e.key) > rank(last.key) {
        var i :| 0 <= i < |init| && init[i] == e;
        assert ll[i] == e && ll[|init|] == last;
      }
    }
  }

  /** Removal keeps the order of the rest. */
  lemma {:induction false} DropOrder(ll: seq<Entry>, key: string, rank: string -> nat)
    requires Falling(ll, rank)
    ensures Falling(Drop(ll, key), rank)
  {
    hide Falling;
    if ll != [] {
      var init, last := ll[..|ll| - 1], ll[|ll| - 1];
      assert ll == init + [last];
      FallingSnoc(init, last, rank);
      DropOrder(init, key, rank);
      DropMembers(init, key);
      FallingSnoc(Drop(init, key), last, rank);
      assert Drop(init, key) + [] == Drop(init, key);
    }
  }

  lemma {:induction false} DropFind(ll: seq<Entry>, key: string, k: string)
    ensures Find(Drop(ll, key), k) == if k == key then None else Find(ll, k)
  {
    if ll != [] {
      var init, last := ll[..|ll| - 1], ll[|ll| - 1];
      DropFind(init, key, k);
      assert (Drop(init, key) + [last])[..|Drop(init, key)|] == Drop(init, key);
      assert Drop(init, key) + [] == Drop(init, key);
    }
  }

  lemma {:induction false} PushFind(e: Entry, ll: seq<Entry>, k: string)
    requires Find(ll, e.key).None?
    ensures Find([e] + ll, k) == if k == e.key then Some(e) else Find(ll, k)
  {
    if ll != [] {
      FindIs(ll, e.key);
      PushFind(e, ll[..|ll| - 1], k);
      assert ([e] + ll)[..|ll|] == [e] + ll[..|ll| - 1];
    } else {
      assert ([e] + ll)[..0] == [];
    }
  }

  lemma {:induction false} PushSum(e: Entry, ll: seq<Entry>)
    ensures Sum([e] + ll, Bytes) == e.size + Sum(ll, Bytes)
  {
    if ll != [] {
      PushSum(e, ll[..|ll| - 1]);
      assert ([e] + ll)[..|ll|] == [e] + ll[..|ll| - 1];
    } else {
      assert ([e] + ll)[..0] == [];
    }
  }

  /** Eviction keeps exactly the longest prefix that fits. */
  lemma {:induction false} TrimIsLongest(ll: seq<Entry>, max: int)
    ensures var kept := Trim(ll, max);
      && kept <= ll
      && (kept == [] || Sum(kept, Bytes) <= max)
      && (kept != ll ==> Sum(ll[..|kept| + 1], Bytes) > max)
  {
    if ll != [] && Sum(ll, Bytes) > max {
      var init := ll[..|ll| - 1];
      TrimIsLongest(init, max);
      var kept := Trim(init, max);
      if kept == init { assert ll[..|kept| + 1] == ll; } else { assert ll[..|kept| + 1] == init[..|kept| + 1]; }
    }
  }

  // --------------------------------------------------------------- the class

  class Cache {
    const bounds: Bounds
    var size: int
    var ll: seq<Entry>
    var items: map<string, Entry>

    ghost predicate Valid()
      reads this
    {
      Agree(ll, items, size) && (ll == [] || size <= bounds.max)
    }

    constructor (bounds: Bounds)
      ensures Valid() && ll == [] && this.bounds == bounds
    {
      this.bounds := bounds;
      size, ll, items := 0, [], map[];
    }

    method Remove(e: Entry)
      requires Agree(ll, items, size) && e.key in items && items[e.key] == e
      modifies this`ll, this`items, this`size
      ensures ll == Drop(old(ll), e.key) && items == old(items) - {e.key} && size == old(size) - e.size
      ensures Agree(ll, items, size)
    {
      hide Agree, Drop, Find, Sum;
      AgreeDrop(ll, items, size, e.key);
      ll := Drop(ll, e.key);
      items := items - {e.key};
      size := size - e.size;
    }

    method Get(key: string, now: int) returns (val: Option<Cached>)
      requires Valid()
      modifies this`ll, this`items, this`size
      ensures Valid() && ll == Looked(old(ll), key, now)
      ensures val == Hit(old(ll), key, now)
    {
      hide Agree, Drop, Find, Sum;
      AgreeFind(ll, items, size, key);
      if key !in items { return None; }
      var e := items[key];
      if Dead(e, now) {
        Remove(e);
        return None;
      }
      // MoveToFront
      AgreeMoved(ll, items, size, key);
      ll := [e] + Drop(ll, key);
      return Some(e.val);
    }

    method Put(key: string, val: Cached, ttl: int, now: int)
      requires Valid()
      modifies this`ll, this`items, this`size
      ensures Valid() && ll == Added(bounds, old(ll), key, val, ttl, now)
    {
      hide Agree, Drop, Find, Sum, Trim;
      var bytes := |key| + |val.body| + 64;
      var limit := bounds.max / 8;
      if bounds.entryMax > 0 { limit := bounds.entryMax; }
      if bounds.max <= 0 || bytes > limit { return; }
      var expires := None;
      if ttl > 0 { expires := Some(now + ttl); }
      AgreeFind(ll, items, size, key);
      if key in items {
        Remove(items[key]);
      } else {
        NothingToDrop(ll, key);
      }
      assert ll == Drop(old(ll), key) && key !in items;
      var e := Entry(key, val, bytes, expires);
      AgreePush(ll, items, size, e);
      ll, items, size := [e] + ll, items[key := e], size + bytes;
      while size > bounds.max
        invariant Agree(ll, items, size)
        invariant Trim(ll, bounds.max) == Trim([e] + Drop(old(ll), key), bounds.max)
        decreases |ll|
      {
        AgreeBack(ll, items, size, bounds.max);
        Remove(ll[|ll| - 1]);
      }
      AgreeFits(ll, items, size, bounds.max);
    }
  }

  /** What ties the list, the map and the byte count together. */
  ghost predicate Agree(ll: seq<Entry>, items: map<string, Entry>, size: int) {
    && Distinct(ll)
    && (forall k :: Find(ll, k) == if k in items then Some(items[k]) else None)
    && size == Sum(ll, Bytes)
  }

  lemma AgreeFind(ll: seq<Entry>, items: map<string, Entry>, size: int, key: string)
    requires Agree(ll, items, size)
    ensures Find(ll, key) == if key in items then Some(items[key]) else None
    ensures key in items ==> items[key].key == key && ll != []
  {
    FindIs(ll, key);
  }

  lemma AgreeDrop(ll: seq<Entry>, items: map<string, Entry>, size: int, key: string)
    requires Agree(ll, items, size) && key in items
    ensures Agree(Drop(ll, key), items - {key}, size - items[key].size)
    ensures Sum(Drop(ll, key), Bytes) <= size
  {
    DropDistinct(ll, key);
    DropSum(ll, key);
    forall k ensures Find(Drop(ll, key), k) == if k == key then None else Find(ll, k) { DropFind(ll, key, k); }
  }

  lemma AgreePush(ll: seq<Entry>, items: map<string, Entry>, size: int, e: Entry)
    requires Agree(ll, items, size) && e.key !in items
    ensures Agree([e] + ll, items[e.key := e], size + e.size)
  {
    assert Find(ll, e.key).None?;
    FindIs(ll, e.key);
    PushSum(e, ll);
    forall k ensures Find([e] + ll, k) == if k == e.key then Some(e) else Find(ll, k) { PushFind(e, ll, k); }
  }

  lemma AgreeMoved(ll: seq<Entry>, items: map<string, Entry>, size: int, key: string)
    requires Agree(ll, items, size) && key in items
    ensures Agree([items[key]] + Drop(ll, key), items, size)
  {
    hide Agree;
    AgreeFind(ll, items, size, key);
    AgreeDrop(ll, items, size, key);
    AgreePush(Drop(ll, key), items - {key}, size - items[key].size, items[key]);
    assert (items - {key})[key := items[key]] == items;
  }

  /** Too many bytes: there is a back, and without it the list trims to the same. */
  lemma AgreeBack(ll: seq<Entry>, items: map<string, Entry>, size: int, max: int)
    requires Agree(ll, items, size) && size > max > 0
    ensures ll != [] && ll[|ll| - 1].key in items && items[ll[|ll| - 1].key] == ll[|ll| - 1]
    ensures Drop(ll, ll[|ll| - 1].key) == ll[..|ll| - 1]
    ensures Trim(ll[..|ll| - 1], max) == Trim(ll, max)
  {
    BackDrop(ll);
    FindAt(ll, |ll| - 1);
  }

  lemma AgreeFits(ll: seq<Entry>, items: map<string, Entry>, size: int, max: int)
    requires Agree(ll, items, size) && size <= max
    ensures Trim(ll, max) == ll
  {}

  lemma {:induction false} NothingToDrop(ll: seq<Entry>, key: string)
    requires Find(ll, key).None?
    ensures Drop(ll, key) == ll
  {
    if ll != [] {
      var init, last := ll[..|ll| - 1], ll[|ll| - 1];
      assert last.key != key && Find(init, key).None?;
      NothingToDrop(init, key);
      assert Drop(ll, key) == init + [last] == ll;
    }
  }

  lemma BackDrop(ll: seq<Entry>)
    requires ll != [] && Distinct(ll)
    ensures Drop(ll, ll[|ll| - 1].key) == ll[..|ll| - 1]
  {
    var init := ll[..|ll| - 1];
    FindIs(init, ll[|ll| - 1].key);
    NothingToDrop(init, ll[|ll| - 1].key);
  }

  // ---------------------------------------------------- what a run leaves behind

  datatype Op = Get(key: string, now: int) | Put(key: string, val: Cached, ttl: int, now: int)

  function After(b: Bounds, ll: seq<Entry>, op: Op): seq<Entry> {
    match op
    case Get(key, now) => Looked(ll, key, now)
    case Put(key, val, ttl, now) => Added(b, ll, key, val, ttl, now)
  }

  function Run(b: Bounds, ops: seq<Op>): seq<Entry> {
    if ops == [] then [] else After(b, Run(b, ops[..|ops| - 1]), ops[|ops| - 1])
  }

  function Written(b: Bounds, m: map<string, Entry>, op: Op): map<string, Entry> {
    match op
    case Get(key, now) => if key in m && Dead(m[key], now) then m - {key} else m
    case Put(key, val, ttl, now) => if Admits(b, key, val) then m[key := NewEntry(key, val, ttl, now)] else m
  }

  /** The same operations on a plain map that never runs out of room. */
  function Reference(b: Bounds, ops: seq<Op>): map<string, Entry> {
    if ops == [] then map[] else Written(b, Reference(b, ops[..|ops| - 1]), ops[|ops| - 1])
  }

  predicate Touches(b: Bounds, ll: seq<Entry>, op: Op) {
    match op
    case Get(key, now) => Hit(ll, key, now).Some?
    case Put(key, val, _, _) => Admits(b, key, val)
  }

  /** When `key` was last used: 1 for the first operation, 0 for never. */
  function LastUse(b: Bounds, ops: seq<Op>, key: string): (n: nat)
    ensures n <= |ops|
  {
    if ops == [] then 0
    else if ops[|ops| - 1].key == key && Touches(b, Run(b, ops[..|ops| - 1]), ops[|ops| - 1]) then |ops|
    else LastUse(b, ops[..|ops| - 1], key)
  }

  ghost predicate Falling(ll: seq<Entry>, rank: string -> nat) {
    forall i, j | 0 <= i < j < |ll| :: rank(ll[i].key) > rank(ll[j].key)
  }

  /** `ll` holds only what `ref` does, most recent first, and nothing that `ref`
      holds and that was used since the least recent of `ll` is missing. */
  ghost predicate RecentPart(ll: seq<Entry>, ref: map<string, Entry>, rank: string -> nat) {
    && Falling(ll, rank)
    && (forall e | e in ll :: e.key in ref && ref[e.key] == e)
    && (forall e, k | e in ll && k in ref && rank(k) >= rank(e.key) :: ref[k] in ll)
    && (forall k | k in ref :: ref[k].key == k)
  }

  lemma FallingOrder(ll: seq<Entry>, rank: string -> nat, i: nat, j: nat)
    requires Falling(ll, rank) && i < |ll| && j < |ll| && rank(ll[j].key) >= rank(ll[i].key)
    ensures j <= i
  {}

  lemma RecentPrefix(ll: seq<Entry>, kept: seq<Entry>, ref: map<string, Entry>, rank: string -> nat)
    requires RecentPart(ll, ref, rank) && kept <= ll
    ensures RecentPart(kept, ref, rank)
  {
    forall e, k | e in kept && k in ref && rank(k) >= rank(e.key) ensures ref[k] in kept {
      assert e in ll && ref[k] in ll && ref[k].key == k;
      UpToThere(ll, kept, rank, e, ref[k]);
    }
  }

  /** An entry used no earlier than one of a prefix is in the prefix. */
  lemma UpToThere(ll: seq<Entry>, kept: seq<Entry>, rank: string -> nat, e: Entry, x: Entry)
    requires Falling(ll, rank) && kept <= ll && e in kept && x in ll && rank(x.key) >= rank(e.key)
    ensures x in kept
  {
    var i :| 0 <= i < |kept| && kept[i] == e;
    var j :| 0 <= j < |ll| && ll[j] == x;
    FallingOrder(ll, rank, i, j);
    assert kept[j] == x;
  }

  lemma RecentDrop(ll: seq<Entry>, ref: map<string, Entry>, rank: string -> nat, key: string)
    requires RecentPart(ll, ref, rank)
    ensures RecentPart(Drop(ll, key), ref - {key}, rank)
  {
    hide Drop;
    DropOrder(ll, key, rank);
    DropMembers(ll, key);
  }

  /** An entry used just now goes to the front. */
  lemma RecentPush(ll: seq<Entry>, ref: map<string, Entry>, rank: string -> nat, rank': string -> nat, e: Entry)
    requires RecentPart(ll, ref, rank)
    requires forall k | k != e.key :: rank'(k) == rank(k) < rank'(e.key)
    ensures RecentPart([e] + Drop(ll, e.key), ref[e.key := e], rank')
  {
    hide Drop;
    var rest, ref' := Drop(ll, e.key), ref[e.key := e];
    RecentDrop(ll, ref, rank, e.key);
    DropMembers(ll, e.key);
    assert Falling([e] + rest, rank') by {
      forall j | 0 <= j < |rest|
        ensures rank'(rest[j].key) == rank(rest[j].key) < rank'(e.key)
      {
        assert rest[j] in rest;
      }
    }
    forall x, k | x in [e] + rest && k in ref' && rank'(k) >= rank'(x.key) ensures ref'[k] in [e] + rest {
      if k != e.key { StillThere(ll, ref, rank, rank', e, x, k); }
    }
  }

  lemma StillThere(ll: seq<Entry>, ref: map<string, Entry>, rank: string -> nat, rank': string -> nat, e: Entry,
      x: Entry, k: string)
    requires RecentPart(ll, ref, rank) && k in ref && k != e.key
    requires forall k | k != e.key :: rank'(k) == rank(k) < rank'(e.key)
    requires x in [e] + Drop(ll, e.key) && rank'(k) >= rank'(x.key)
    ensures ref[k] in Drop(ll, e.key)
  {
    hide Drop, Falling;
    DropMembers(ll, e.key);
    assert x in ll && x.key != e.key;
  }

  ghost function Ranks(b: Bounds, ops: seq<Op>): string -> nat { k => LastUse(b, ops, k) }

  lemma RanksAfter(b: Bounds, ops: seq<Op>)
    requires ops != []
    ensures var op := ops[|ops| - 1];
      forall k :: Ranks(b, ops)(k) ==
        if k == op.key && Touches(b, Run(b, ops[..|ops| - 1]), op) then |ops| else Ranks(b, ops[..|ops| - 1])(k)
  {}

  lemma Reranked(ll: seq<Entry>, ref: map<string, Entry>, rank: string -> nat, rank': string -> nat)
    requires RecentPart(ll, ref, rank) && forall k :: rank'(k) == rank(k)
    ensures RecentPart(ll, ref, rank')
  {}

  lemma LookIsRecent(ll: seq<Entry>, ref: map<string, Entry>, rank: string -> nat, rank': string -> nat, op: Op, n: nat)
    requires RecentPart(ll, ref, rank) && op.Get?
    requires forall k :: rank(k) < n && rank'(k) == if k == op.key && Hit(ll, op.key, op.now).Some? then n else rank(k)
    ensures RecentPart(Looked(ll, op.key, op.now), Written(Bounds(0, 0), ref, op), rank')
  {
    hide Drop, Find;
    var key := op.key;
    FindIs(ll, key);
    match Find(ll, key) {
      case None =>
        NothingToDrop(ll, key);
        RecentDrop(ll, ref, rank, key);
      case Some(e) =>
        assert ref[key] == e && ref[key := e] == ref;
        if Dead(e, op.now) { RecentDrop(ll, ref, rank, key); } else { RecentPush(ll, ref, rank, rank', e); }
    }
  }

  lemma StepIsRecent(b: Bounds, ll: seq<Entry>, ref: map<string, Entry>, rank: string -> nat, rank': string -> nat,
      op: Op, n: nat)
    requires RecentPart(ll, ref, rank)
    requires forall k :: rank(k) < n && rank'(k) == if k == op.key && Touches(b, ll, op) then n else rank(k)
    ensures RecentPart(After(b, ll, op), Written(b, ref, op), rank')
  {
    hide RecentPart, Drop, Find, Trim, Sum;
    match op
    case Get(_, _) => LookIsRecent(ll, ref, rank, rank', op, n);
    case Put(key, val, ttl, now) =>
      if Admits(b, key, val) {
        var e := NewEntry(key, val, ttl, now);
        RecentPush(ll, ref, rank, rank', e);
        TrimIsLongest([e] + Drop(ll, key), b.max);
        RecentPrefix([e] + Drop(ll, key), After(b, ll, op), ref[key := e], rank');
      } else {
        Reranked(ll, ref, rank, rank');
      }
  }

  /** After any run the cache is a contiguous prefix, by recency of use, of what a
      map without bound would hold. */
  lemma {:induction false} CacheIsRecentPart(b: Bounds, ops: seq<Op>)
    ensures RecentPart(Run(b, ops), Reference(b, ops), Ranks(b, ops))
    decreases |ops|
  {
    hide After, Written, Touches;
    if ops != [] {
      var pre, op := ops[..|ops| - 1], ops[|ops| - 1];
      CacheIsRecentPart(b, pre);
      RanksAfter(b, ops);
      StepIsRecent(b, Run(b, pre), Reference(b, pre), Ranks(b, pre), Ranks(b, ops), op, |ops|);
    }
  }

  ghost predicate AdmittedPut(b: Bounds, op: Op, key: string) { op.Put? && op.key == key && Admits(b, key, op.val) }

  /** The last admitted Put of a key is what the unbounded map holds for it, until a
      Get finds it expired. */
  lemma {:induction false} ReferenceIsLastPut(b: Bounds, ops: seq<Op>, key: string) returns (i: nat)
    requires key in Reference(b, ops)
    ensures i < |ops| && AdmittedPut(b, ops[i], key)
    ensures forall j | i < j < |ops| :: !AdmittedPut(b, ops[j], key)
    ensures Reference(b, ops)[key] == NewEntry(key, ops[i].val, ops[i].ttl, ops[i].now)
    decreases |ops|
  {
    if AdmittedPut(b, ops[|ops| - 1], key) {
      i := |ops| - 1;
    } else {
      i := ReferenceIsLastPut(b, ops[..|ops| - 1], key);
    }
  }

  /** A hit is the last admitted Put of its key, and it has not expired. */
  lemma HitIsLastAdmittedPut(b: Bounds, ops: seq<Op>, key: string, now: int) returns (i: nat)
    requires Hit(Run(b, ops), key, now).Some?
    ensures i < |ops| && AdmittedPut(b, ops[i], key) && Hit(Run(b, ops), key, now) == Some(ops[i].val)
    ensures forall j | i < j < |ops| :: !AdmittedPut(b, ops[j], key)
    ensures ops[i].ttl > 0 ==> now < ops[i].now + ops[i].ttl
  {
    CacheIsRecentPart(b, ops);
    FindIs(Run(b, ops), key);
    i := ReferenceIsLastPut(b, ops, key);
  }

  lemma {:induction false} SumPrefix(ll: seq<Entry>, i: nat, j: nat)
    requires i <= j <= |ll|
    ensures Sum(ll[..i], Bytes) <= Sum(ll[..j], Bytes)
    decreases j
  {
    if i < j {
      SumPrefix(ll, i, j - 1);
      assert ll[..j][..j - 1] == ll[..j - 1];
    }
  }

  /** The bytes of entry i and of those more recent. */
  function BytesThrough(ll: seq<Entry>, i: nat): nat
    requires i < |ll|
  {
    Sum(ll[..i + 1], Bytes)
  }

  lemma TrimExactly(all: seq<Entry>, max: int, i: nat)
    requires i < |all|
    ensures i < |Trim(all, max)| <==> BytesThrough(all, i) <= max
  {
    hide Sum, Trim;
    var kept := Trim(all, max);
    TrimIsLongest(all, max);
    if i < |kept| {
      SumPrefix(all, i + 1, |kept|);
      assert all[..|kept|] == kept;
    } else {
      SumPrefix(all, |kept| + 1, i + 1);
    }
  }

  /** An admitted Put evicts exactly the entries that do not fit beside the more
      recent ones. */
  lemma EvictsExactly(b: Bounds, ll: seq<Entry>, key: string, val: Cached, ttl: int, now: int)
    requires Admits(b, key, val)
    ensures var all, kept := [NewEntry(key, val, ttl, now)] + Drop(ll, key), Added(b, ll, key, val, ttl, now);
      kept <= all && forall i | 0 <= i < |all| :: i < |kept| <==> BytesThrough(all, i) <= b.max
  {
    hide Sum, Trim, Drop, BytesThrough, NewEntry, Admits;
    var all := [NewEntry(key, val, ttl, now)] + Drop(ll, key);
    TrimIsLongest(all, b.max);
    forall i | 0 <= i < |all|
      ensures i < |Trim(all, b.max)| <==> BytesThrough(all, i) <= b.max
    {
      TrimExactly(all, b.max, i);
    }
  }

  /** What was put is read back until it expires, exactly when it was admitted and
      fits by itself. A value that is not admitted changes nothing. */
  lemma PutThenGet(b: Bounds, ll: seq<Entry>, key: string, val: Cached, ttl: int, now: int, later: int)
    requires Distinct(ll)
    ensures var bytes, after := |key| + |val.body| + 64, Added(b, ll, key, val, ttl, now);
      if b.max <= 0 || bytes > (if b.entryMax > 0 then b.entryMax else b.max / 8) then after == ll
      else if bytes > b.max then after == []
      else Hit(after, key, later) == if ttl <= 0 || later < now + ttl then Some(val) else None
  {
    if Admits(b, key, val) {
      var e := NewEntry(key, val, ttl, now);
      var all, kept := [e] + Drop(ll, key), Added(b, ll, key, val, ttl, now);
      EvictsExactly(b, ll, key, val, ttl, now);
      PushSum(e, []);
      assert all[..1] == [e] + [];
      assert BytesThrough(all, 0) == e.size;
      if e.size <= b.max {
        DropDistinct(ll, key);
        DropMembers(ll, key);
        DistinctPush(e, Drop(ll, key));
        assert Distinct(kept) && kept[0] == e;
        FindAt(kept, 0);
      }
    }
  }

  lemma DistinctPush(e: Entry, ll: seq<Entry>)
    requires Distinct(ll) && forall x | x in ll :: x.key != e.key
    ensures Distinct([e] + ll)
  {}

  /** A value too large to admit leaves the older one in place. */
  lemma OversizedPutKeepsTheOld(small: Cached, big: Cached)
    requires |small.body| < 60 && |big.body| >= 128
    ensures var b, ops := Bounds(1024, 0), [Put("k", small, 0, 0), Put("k", big, 0, 1)];
      Hit(Run(b, ops), "k", 2) == Some(small)
  {
    var b, ops := Bounds(1024, 0), [Put("k", small, 0, 0), Put("k", big, 0, 1)];
    assert ops[..1] == [Put("k", small, 0, 0)];
    assert ops[..1][..0] == [];
    PutThenGet(b, [], "k", small, 0, 2, 2);
    assert Run(b, ops) == Run(b, ops[..1]) == Added(b, [], "k", small, 0, 0) == Added(b, [], "k", small, 0, 2);
  }
}
