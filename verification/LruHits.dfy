/** When the cache still holds a value, over any run of its operations. */
module LruHits {
  import opened Common
  import opened Lru

  ghost function Weigh(m: map<string, Entry>, keys: set<string>): nat
    requires keys <= m.Keys
  {
    if keys == {} then 0 else
    var k :| k in keys;
    m[k].size + Weigh(m, keys - {k})
  }

  lemma {:induction false} WeighOne(m: map<string, Entry>, keys: set<string>, k: string)
    requires keys <= m.Keys && k in keys
    ensures Weigh(m, keys) == m[k].size + Weigh(m, keys - {k})
  {
    var first :| first in keys && Weigh(m, keys) == m[first].size + Weigh(m, keys - {first});
    if first != k {
      WeighOne(m, keys - {first}, k);
      WeighOne(m, keys - {k}, first);
      assert keys - {first} - {k} == keys - {k} - {first};
    }
  }

  lemma {:induction false} SumIsWeight(ll: seq<Entry>, m: map<string, Entry>, keys: set<string>)
    requires Distinct(ll) && keys <= m.Keys
    requires forall e | e in ll :: e.key in keys && m[e.key] == e
    requires forall k | k in keys :: m[k] in ll && m[k].key == k
    ensures Sum(ll, Bytes) == Weigh(m, keys)
  {
    if ll != [] {
      var init, last := ll[..|ll| - 1], ll[|ll| - 1];
      assert ll == init + [last] && last in ll;
      forall e | e in init ensures e.key != last.key {
        var i :| 0 <= i < |init| && init[i] == e;
        assert ll[i] == e;
      }
      SumIsWeight(init, m, keys - {last.key});
      WeighOne(m, keys, last.key);
    } else {
      assert keys == {};
    }
  }

  /** What the unbounded map holds and was last used no earlier than `key`. */
  ghost function UsedSince(b: Bounds, ops: seq<Op>, key: string): set<string> {
    set k | k in Reference(b, ops) && LastUse(b, ops, k) >= LastUse(b, ops, key)
  }

  /** The bytes of these. */
  ghost function BytesSince(b: Bounds, ops: seq<Op>, key: string): nat {
    Weigh(Reference(b, ops), UsedSince(b, ops, key))
  }

  /** Since the Put at `i` no Get of the key came too late. */
  ghost predicate InTime(ops: seq<Op>, i: nat, n: nat)
    requires i < n <= |ops| && ops[i].Put?
  {
    ops[i].ttl > 0 ==>
      forall j | i < j < n && ops[j].Get? && ops[j].key == ops[i].key :: ops[j].now < ops[i].now + ops[i].ttl
  }

  /** At every admitted Put since then the key and all that was used since fitted. */
  ghost predicate Fitted(b: Bounds, ops: seq<Op>, i: nat, n: nat)
    requires i < n <= |ops|
  {
    forall j | i <= j < n && ops[j].Put? && Admits(b, ops[j].key, ops[j].val) ::
      BytesSince(b, ops[..j + 1], ops[i].key) <= b.max
  }

  ghost predicate LastPut(b: Bounds, ops: seq<Op>, i: nat, n: nat) {
    && i < n <= |ops| && AdmittedPut(b, ops[i], ops[i].key)
    && forall j | i < j < n :: !AdmittedPut(b, ops[j], ops[i].key)
  }

  function Wrote(op: Op): Entry
    requires op.Put?
  {
    NewEntry(op.key, op.val, op.ttl, op.now)
  }

  lemma FallingDistinct(ll: seq<Entry>, rank: string -> nat)
    requires Falling(ll, rank)
    ensures Distinct(ll)
  {}

  /** The bytes up to an entry are those of what was used since it. */
  lemma BytesThroughAre(ll: seq<Entry>, ref: map<string, Entry>, rank: string -> nat, x: nat, keys: set<string>)
    requires RecentPart(ll, ref, rank) && x < |ll|
    requires keys == set k | k in ref && rank(k) >= rank(ll[x].key)
    ensures BytesThrough(ll, x) == Weigh(ref, keys)
  {
    hide Sum;
    var part := ll[..x + 1];
    FallingDistinct(part, rank);
    forall e | e in part ensures e.key in keys && ref[e.key] == e {
      var i :| 0 <= i < |part| && part[i] == e;
      assert ll[i] == e && e in ll;
    }
    forall k | k in keys ensures ref[k] in part && ref[k].key == k {
      assert ll[x] in ll && part[x] == ll[x];
      UpToThere(ll, part, rank, ll[x], ref[k]);
    }
    SumIsWeight(part, ref, keys);
  }

  lemma FindIndex(ll: seq<Entry>, key: string) returns (x: nat)
    requires Find(ll, key).Some?
    ensures x < |ll| && ll[x] == Find(ll, key).value && ll[x].key == key
  {
    FindIs(ll, key);
    x :| 0 <= x < |ll| && ll[x] == Find(ll, key).value;
  }

  lemma FindPrefix(all: seq<Entry>, kept: seq<Entry>, x: nat)
    requires Distinct(all) && kept <= all && x < |all|
    ensures Find(kept, all[x].key) == if x < |kept| then Some(all[x]) else None
  {
    FindIs(kept, all[x].key);
    if x < |kept| {
      FindAt(kept, x);
    } else {
      forall e | e in kept ensures e.key != all[x].key {
        var y :| 0 <= y < |kept| && kept[y] == e;
        assert all[y] == e;
      }
    }
  }

  /** An admitted Put keeps an entry exactly when it and what was used since fit. */
  lemma PutKeeps(b: Bounds, ops: seq<Op>, key: string, e: Entry)
    requires ops != [] && ops[|ops| - 1].Put? && Admits(b, ops[|ops| - 1].key, ops[|ops| - 1].val)
    requires e == if key == ops[|ops| - 1].key then Wrote(ops[|ops| - 1]) else e
    requires key != ops[|ops| - 1].key ==> Find(Run(b, ops[..|ops| - 1]), key) == Some(e)
    ensures Find(Run(b, ops), key) == if BytesSince(b, ops, key) <= b.max then Some(e) else None
  {
    hide Drop, Find, Trim, Sum, Admits, Touches, NewEntry, BytesThrough, RecentPart, Falling;
    var pre, op := ops[..|ops| - 1], ops[|ops| - 1];
    var ll, front := Run(b, pre), Wrote(op);
    var all, ref := [front] + Drop(ll, op.key), Reference(b, pre)[op.key := front];
    CacheIsRecentPart(b, pre);
    RanksAfter(b, ops);
    PushIsRecent(b, ops, all, ref);
    DropFind(ll, op.key, op.key);
    DropFind(ll, op.key, key);
    NewKey(op);
    PushFind(front, Drop(ll, op.key), key);
    assert Find(all, key) == Some(e);
    var x := FindIndex(all, key);
    EvictsExactly(b, ll, op.key, op.val, op.ttl, op.now);
    RecentDistinct(all, ref, Ranks(b, ops));
    FindPrefix(all, Run(b, ops), x);
    BytesThroughAre(all, ref, Ranks(b, ops), x, UsedSince(b, ops, key));
  }

  lemma NewKey(op: Op)
    requires op.Put?
    ensures Wrote(op).key == op.key
  {}

  lemma RecentDistinct(ll: seq<Entry>, ref: map<string, Entry>, rank: string -> nat)
    requires RecentPart(ll, ref, rank)
    ensures Distinct(ll)
  {
    FallingDistinct(ll, rank);
  }

  lemma PushIsRecent(b: Bounds, ops: seq<Op>, all: seq<Entry>, ref: map<string, Entry>)
    requires ops != [] && ops[|ops| - 1].Put? && Admits(b, ops[|ops| - 1].key, ops[|ops| - 1].val)
    requires var pre, op := ops[..|ops| - 1], ops[|ops| - 1];
      all == [Wrote(op)] + Drop(Run(b, pre), op.key) && ref == Reference(b, pre)[op.key := Wrote(op)]
    ensures ref == Reference(b, ops) && RecentPart(all, ref, Ranks(b, ops))
  {
    hide Drop, Find, Trim, Sum, Admits, RecentPart;
    var pre, op := ops[..|ops| - 1], ops[|ops| - 1];
    CacheIsRecentPart(b, pre);
    RanksAfter(b, ops);
    RecentPush(Run(b, pre), Reference(b, pre), Ranks(b, pre), Ranks(b, ops), Wrote(op));
  }

  /** A Get drops an entry exactly when it is the one asked for and has expired. */
  lemma GetKeeps(ll: seq<Entry>, op: Op, key: string)
    requires op.Get? && Distinct(ll)
    ensures Find(Looked(ll, op.key, op.now), key) ==
      if key == op.key && Find(ll, key).Some? && Dead(Find(ll, key).value, op.now) then None else Find(ll, key)
  {
    FindIs(ll, op.key);
    if Find(ll, op.key).Some? {
      DropFind(ll, op.key, op.key);
      DropFind(ll, op.key, key);
      PushFind(Find(ll, op.key).value, Drop(ll, op.key), key);
    }
  }

  lemma PutDropsOthers(b: Bounds, ops: seq<Op>, key: string)
    requires ops != [] && ops[|ops| - 1].Put? && ops[|ops| - 1].key != key
    requires Find(Run(b, ops[..|ops| - 1]), key).None?
    ensures Find(Run(b, ops), key).None?
  {
    hide Drop, Find, Trim, Admits;
    var ll, op := Run(b, ops[..|ops| - 1]), ops[|ops| - 1];
    if Admits(b, op.key, op.val) {
      var all := [Wrote(op)] + Drop(ll, op.key);
      DropFind(ll, op.key, op.key);
      DropFind(ll, op.key, key);
      PushFind(Wrote(op), Drop(ll, op.key), key);
      TrimIsLongest(all, b.max);
      FindIs(all, key);
      FindIs(Run(b, ops), key);
    }
  }

  /** The entry is there exactly while no late Get and no crowded Put has come. */
  lemma {:induction false} PresentIff(b: Bounds, ops: seq<Op>, i: nat, n: nat)
    requires LastPut(b, ops, i, n)
    ensures Find(Run(b, ops[..n]), ops[i].key) ==
      if InTime(ops, i, n) && Fitted(b, ops, i, n) then Some(Wrote(ops[i])) else None
    decreases n
  {
    hide Run, Find, Admits, BytesSince, NewEntry;
    var key, op, pre := ops[i].key, ops[n - 1], ops[..n - 1];
    assert ops[..n][..n - 1] == pre && ops[..n][n - 1] == op;
    if n == i + 1 {
      PutKeeps(b, ops[..n], key, Wrote(op));
    } else {
      PresentIff(b, ops, i, n - 1);
      StepPresent(b, ops, i, n);
    }
  }

  lemma StepPresent(b: Bounds, ops: seq<Op>, i: nat, n: nat)
    requires LastPut(b, ops, i, n) && n > i + 1
    requires Find(Run(b, ops[..n - 1]), ops[i].key) ==
      if InTime(ops, i, n - 1) && Fitted(b, ops, i, n - 1) then Some(Wrote(ops[i])) else None
    ensures Find(Run(b, ops[..n]), ops[i].key) ==
      if InTime(ops, i, n) && Fitted(b, ops, i, n) then Some(Wrote(ops[i])) else None
  {
    hide Find, Admits, BytesSince, Trim, Drop, Looked, Run;
    var key, op, pre := ops[i].key, ops[n - 1], ops[..n - 1];
    assert ops[..n][..n - 1] == pre && ops[..n][n - 1] == op;
    RunSnoc(b, ops[..n]);
    if op.Get? {
      CacheIsRecentPart(b, pre);
      RecentDistinct(Run(b, pre), Reference(b, pre), Ranks(b, pre));
      GetKeeps(Run(b, pre), op, key);
    } else if !Admits(b, op.key, op.val) {
    } else if Find(Run(b, pre), key).Some? {
      PutKeeps(b, ops[..n], key, Wrote(ops[i]));
    } else {
      PutDropsOthers(b, ops[..n], key);
    }
  }

  lemma RunSnoc(b: Bounds, ops: seq<Op>)
    requires ops != []
    ensures Run(b, ops) == After(b, Run(b, ops[..|ops| - 1]), ops[|ops| - 1])
  {}

  /** A Get answers with the last admitted Put of its key exactly when, since then,
      no Get of the key came too late and at no Put what had been used since was too
      much. Otherwise it answers with nothing. */
  lemma HitIff(b: Bounds, ops: seq<Op>, i: nat, now: int)
    requires LastPut(b, ops, i, |ops|)
    ensures Hit(Run(b, ops), ops[i].key, now) ==
      if InTime(ops, i, |ops|) && Fitted(b, ops, i, |ops|) && (ops[i].ttl <= 0 || now < ops[i].now + ops[i].ttl)
      then Some(ops[i].val) else None
  {
    hide Run, Find, Admits, BytesSince;
    PresentIff(b, ops, i, |ops|);
    assert ops[..|ops|] == ops;
  }

  /** A key of which no Put was admitted is never hit. */
  lemma MissWithoutPut(b: Bounds, ops: seq<Op>, key: string, now: int)
    requires forall op | op in ops :: !AdmittedPut(b, op, key)
    ensures Hit(Run(b, ops), key, now).None?
  {
    assert forall i | 0 <= i < |ops| :: ops[i] in ops;
    if Hit(Run(b, ops), key, now).Some? { var _ := HitIsLastAdmittedPut(b, ops, key, now); }
  }
}
