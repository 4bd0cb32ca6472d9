/**
  The table of buckets shared by the lock-based hash maps: chains of key-value pairs, one chain
  per residue of the hash value, and the rebuilding of the table with twice as many buckets.
*/
module BucketTable {
  import opened Sequences

  /** The source's template parameters; nothing but equality of keys is used. */
  type Key = int
  type Value = int
  type Hash = Key -> nat

  type Bucket = seq<(Key, Value)>

  const THRESHOLD: nat := 4

  // ---------------------------------------------------------------- one bucket

  /** `std::find_if` over the chain: the first pair with this key, or the end. */
  function Position(b: Bucket, k: Key): (p: nat)
    ensures p <= |b|
    ensures p < |b| ==> b[p].0 == k
    ensures forall i :: 0 <= i < p ==> b[i].0 != k
  {
    if b == [] || b[0].0 == k then 0 else 1 + Position(b[1..], k)
  }

  function Lookup(b: Bucket, k: Key): Option<Value> {
    var p := Position(b, k);
    if p < |b| then Some(b[p].1) else None
  }

  /** The chain after writing at the position found for `k`. */
  function WriteAt(b: Bucket, p: nat, k: Key, v: Value): Bucket {
    if p < |b| then b[p := (b[p].0, v)] else b + [(k, v)]
  }

  function EraseAt(b: Bucket, p: nat): Bucket {
    if p < |b| then b[..p] + b[p + 1..] else b
  }

  ghost predicate KeysDistinct(b: Bucket) { forall i, j :: 0 <= i < j < |b| ==> b[i].0 != b[j].0 }

  lemma LookupIs(b: Bucket, i: nat)
    requires KeysDistinct(b) && i < |b|
    ensures Position(b, b[i].0) == i && Lookup(b, b[i].0) == Some(b[i].1)
  {
  }

  lemma LookupNone(b: Bucket, k: Key)
    ensures Lookup(b, k).None? <==> forall i :: 0 <= i < |b| ==> b[i].0 != k
  {
  }

  /** Two chains with the same pairs answer alike. */
  lemma LookupSame(b: Bucket, c: Bucket, k: Key)
    requires KeysDistinct(b) && KeysDistinct(c)
    requires forall i :: 0 <= i < |b| && b[i].0 == k ==> b[i] in c
    requires forall i :: 0 <= i < |c| && c[i].0 == k ==> c[i] in b
    ensures Lookup(b, k) == Lookup(c, k)
  {
    if Position(b, k) < |b| {
      var i :| 0 <= i < |c| && c[i] == b[Position(b, k)];
      LookupIs(c, i);
    }
  }

  lemma WriteKeeps(b: Bucket, k: Key, v: Value)
    requires KeysDistinct(b)
    ensures var c := WriteAt(b, Position(b, k), k, v);
            && KeysDistinct(c)
            && Lookup(c, k) == Some(v)
            && forall q :: q != k ==> Lookup(c, q) == Lookup(b, q)
  {
    var p := Position(b, k);
    var c := WriteAt(b, p, k, v);
    assert c[p] == (k, v);
    LookupIs(c, p);
    forall q | q != k ensures Lookup(c, q) == Lookup(b, q) {
      assert forall i :: 0 <= i < |b| && b[i].0 == q ==> c[i] == b[i];
      LookupSame(b, c, q);
    }
  }

  lemma EraseShifts(b: Bucket, p: nat)
    requires KeysDistinct(b) && p <= |b|
    ensures KeysDistinct(EraseAt(b, p))
    ensures forall e :: e in EraseAt(b, p) <==> e in b && (p < |b| ==> e.0 != b[p].0)
  {
    if p < |b| {
      var c := b[..p] + b[p + 1..];
      assert forall i :: 0 <= i < |c| ==> c[i] == b[if i < p then i else i + 1];
      forall e | e in b && e.0 != b[p].0 ensures e in c {
        var i :| 0 <= i < |b| && b[i] == e;
        assert c[if i < p then i else i - 1] == e;
      }
    } else {
      assert forall e :: e in EraseAt(b, p) <==> e in b;
    }
  }

  lemma EraseKeeps(b: Bucket, k: Key)
    requires KeysDistinct(b)
    ensures var c := EraseAt(b, Position(b, k));
            && KeysDistinct(c)
            && Lookup(c, k) == None
            && forall q :: q != k ==> Lookup(c, q) == Lookup(b, q)
  {
    var c := EraseAt(b, Position(b, k));
    EraseShifts(b, Position(b, k));
    hide EraseAt;
    forall i | 0 <= i < |c| ensures c[i].0 != k {
      assert c[i] in c;
    }
    LookupNone(c, k);
    forall q | q != k ensures Lookup(c, q) == Lookup(b, q) {
      LookupSame(b, c, q);
    }
  }

  // ---------------------------------------------------------------- the table

  /** `getBucketIndex`. */
  function Index(h: nat, n: nat): (i: nat)
    requires n > 0
    ensures i < n
  {
    h % n
  }

  function FindIn(hash: Hash, table: seq<Bucket>, k: Key): Option<Value>
    requires table != []
  {
    Lookup(table[Index(hash(k), |table|)], k)
  }

  /** Every pair is in the bucket its hash value selects, and no key occurs twice. */
  ghost predicate BucketOk(hash: Hash, n: nat, j: nat, b: Bucket)
    requires n > 0
  {
    && KeysDistinct(b)
    && forall i :: 0 <= i < |b| ==> Index(hash(b[i].0), n) == j
  }

  ghost predicate TableOk(hash: Hash, table: seq<Bucket>) {
    && table != []
    && forall j :: 0 <= j < |table| ==> BucketOk(hash, |table|, j, table[j])
  }

  /** The table stands for the map `m`. */
  ghost predicate Represents(hash: Hash, table: seq<Bucket>, m: map<Key, Value>)
    requires table != []
  {
    forall k :: FindIn(hash, table, k) == if k in m then Some(m[k]) else None
  }

  function Write(hash: Hash, table: seq<Bucket>, k: Key, v: Value): seq<Bucket>
    requires table != []
  {
    var i := Index(hash(k), |table|);
    table[i := WriteAt(table[i], Position(table[i], k), k, v)]
  }

  function Erase(hash: Hash, table: seq<Bucket>, k: Key): seq<Bucket>
    requires table != []
  {
    var i := Index(hash(k), |table|);
    table[i := EraseAt(table[i], Position(table[i], k))]
  }

  /** Writing a key changes the map at that key only. */
  lemma WriteRepresents(hash: Hash, table: seq<Bucket>, m: map<Key, Value>, k: Key, v: Value)
    requires TableOk(hash, table) && Represents(hash, table, m)
    ensures TableOk(hash, Write(hash, table, k, v)) && Represents(hash, Write(hash, table, k, v), m[k := v])
  {
    var i := Index(hash(k), |table|);
    assert BucketOk(hash, |table|, i, table[i]);
    WriteKeeps(table[i], k, v);
    var t' := Write(hash, table, k, v);
    forall j | 0 <= j < |t'| ensures BucketOk(hash, |t'|, j, t'[j]) {
      assert BucketOk(hash, |table|, j, table[j]);
    }
    forall q ensures FindIn(hash, t', q) == if q in m[k := v] then Some(m[k := v][q]) else None {
      assert FindIn(hash, table, q) == if q in m then Some(m[q]) else None;
    }
  }

  lemma EraseRepresents(hash: Hash, table: seq<Bucket>, m: map<Key, Value>, k: Key)
    requires TableOk(hash, table) && Represents(hash, table, m)
    ensures TableOk(hash, Erase(hash, table, k)) && Represents(hash, Erase(hash, table, k), m - {k})
  {
    var i := Index(hash(k), |table|);
    assert BucketOk(hash, |table|, i, table[i]);
    EraseKeeps(table[i], k);
    var t' := Erase(hash, table, k);
    forall j | 0 <= j < |t'| ensures BucketOk(hash, |t'|, j, t'[j]) {
      assert BucketOk(hash, |table|, j, table[j]);
    }
    forall q ensures FindIn(hash, t', q) == if q in m - {k} then Some((m - {k})[q]) else None {
      assert FindIn(hash, table, q) == if q in m then Some(m[q]) else None;
    }
  }

  // ---------------------------------------------------------------- rebuilding the table

  function Place(hash: Hash, table: seq<Bucket>, e: (Key, Value)): seq<Bucket>
    requires table != []
  {
    var i := Index(hash(e.0), |table|);
    table[i := table[i] + [e]]
  }

  function PlaceBucket(hash: Hash, table: seq<Bucket>, b: Bucket): (r: seq<Bucket>)
    requires table != []
    ensures |r| == |table|
  {
    if b == [] then table
    else Place(hash, PlaceBucket(hash, table, b[..|b| - 1]), b[|b| - 1])
  }

  function PlaceTable(hash: Hash, table: seq<Bucket>, source: seq<Bucket>): (r: seq<Bucket>)
    requires table != []
    ensures |r| == |table|
  {
    if source == [] then table
    else PlaceBucket(hash, PlaceTable(hash, table, source[..|source| - 1]), source[|source| - 1])
  }

  function EmptyTable(n: nat): seq<Bucket> { seq(n, _ => []) }

  /** The pairs of `table` distributed over `n` buckets. */
  function Rehashed(hash: Hash, table: seq<Bucket>, n: nat): (r: seq<Bucket>)
    requires n > 0
    ensures |r| == n
  {
    PlaceTable(hash, EmptyTable(n), table)
  }

  lemma PlaceOk(hash: Hash, table: seq<Bucket>, e: (Key, Value))
    requires TableOk(hash, table) && FindIn(hash, table, e.0) == None
    ensures TableOk(hash, Place(hash, table, e))
    ensures forall k :: FindIn(hash, Place(hash, table, e), k) == if k == e.0 then Some(e.1) else FindIn(hash, table, k)
  {
    var i := Index(hash(e.0), |table|);
    var b, t' := table[i], Place(hash, table, e);
    assert BucketOk(hash, |table|, i, b);
    LookupNone(b, e.0);
    WriteKeeps(b, e.0, e.1);
    assert t'[i] == WriteAt(b, Position(b, e.0), e.0, e.1);
    forall j | 0 <= j < |t'| ensures BucketOk(hash, |t'|, j, t'[j]) {
      assert BucketOk(hash, |table|, j, table[j]);
    }
  }

  lemma {:induction false} PlaceBucketOk(hash: Hash, table: seq<Bucket>, b: Bucket)
    requires TableOk(hash, table) && KeysDistinct(b)
    requires forall i :: 0 <= i < |b| ==> FindIn(hash, table, b[i].0) == None
    ensures TableOk(hash, PlaceBucket(hash, table, b))
    ensures forall k :: FindIn(hash, PlaceBucket(hash, table, b), k)
                     == if Lookup(b, k).Some? then Lookup(b, k) else FindIn(hash, table, k)
  {
    if b != [] {
      var init, e := b[..|b| - 1], b[|b| - 1];
      PlaceBucketOk(hash, table, init);
      LookupNone(init, e.0);
      assert b[|b| - 1] == e;
      PlaceOk(hash, PlaceBucket(hash, table, init), e);
      forall k ensures Lookup(b, k) == if k == e.0 then Some(e.1) else Lookup(init, k) {
        LookupLast(b, k);
      }
    }
  }

  lemma LookupLast(b: Bucket, k: Key)
    requires KeysDistinct(b) && b != []
    ensures Lookup(b, k) == if k == b[|b| - 1].0 then Some(b[|b| - 1].1) else Lookup(b[..|b| - 1], k)
  {
    var init := b[..|b| - 1];
    if k == b[|b| - 1].0 {
      LookupIs(b, |b| - 1);
    } else {
      assert forall i :: 0 <= i < |b| && b[i].0 == k ==> b[i] == init[i];
      LookupSame(b, init, k);
    }
  }

  /** After the first `j` buckets, the new table answers for exactly the keys of those buckets. */
  lemma {:induction false} PlaceTableOk(hash: Hash, table: seq<Bucket>, n: nat, j: nat)
    requires TableOk(hash, table) && n > 0 && j <= |table|
    ensures TableOk(hash, Rehashed(hash, table[..j], n))
    ensures forall k :: FindIn(hash, Rehashed(hash, table[..j], n), k)
                     == if Index(hash(k), |table|) < j then FindIn(hash, table, k) else None
  {
    if j == 0 {
      EmptyTableOk(hash, n);
    } else {
      PlaceTableOk(hash, table, n, j - 1);
      var b, done := table[j - 1], Rehashed(hash, table[..j - 1], n);
      assert BucketOk(hash, |table|, j - 1, b);
      assert table[..j][..j - 1] == table[..j - 1];
      assert Rehashed(hash, table[..j], n) == PlaceBucket(hash, done, b);
      hide TableOk, FindIn, Lookup, PlaceBucket, PlaceTable, Rehashed, EmptyTable, KeysDistinct;
      PlaceBucketOk(hash, done, b);
      forall k ensures FindIn(hash, Rehashed(hash, table[..j], n), k)
                    == if Index(hash(k), |table|) < j then FindIn(hash, table, k) else None {
        LookupInBucket(hash, table, j - 1, k);
      }
    }
  }

  lemma EmptyTableOk(hash: Hash, n: nat)
    requires n > 0
    ensures TableOk(hash, EmptyTable(n)) && forall k :: FindIn(hash, EmptyTable(n), k) == None
  {
  }

  lemma LookupInBucket(hash: Hash, table: seq<Bucket>, j: nat, k: Key)
    requires TableOk(hash, table) && j < |table|
    ensures if Index(hash(k), |table|) == j then Lookup(table[j], k) == FindIn(hash, table, k)
            else Lookup(table[j], k) == None
  {
    assert BucketOk(hash, |table|, j, table[j]);
  }

  /** Rebuilding keeps the map and puts every pair where its hash value says. */
  lemma RehashKeeps(hash: Hash, table: seq<Bucket>, n: nat, m: map<Key, Value>)
    requires TableOk(hash, table) && n > 0 && Represents(hash, table, m)
    ensures TableOk(hash, Rehashed(hash, table, n)) && Represents(hash, Rehashed(hash, table, n), m)
  {
    PlaceTableOk(hash, table, n, |table|);
    assert table[..|table|] == table;
  }

  // ---------------------------------------------------------------- the abstract map

  datatype Op = FindKey(key: Key) | AddOrUpdate(key: Key, value: Value) | Remove(key: Key)

  /** A completed bucket operation and its answer. */
  datatype Event = Silent | Did(op: Op, answer: Option<Value>)

  function Apply(m: map<Key, Value>, op: Op): map<Key, Value> {
    match op
    case FindKey(_) => m
    case AddOrUpdate(k, v) => m[k := v]
    case Remove(k) => m - {k}
  }

  /** What the operation answers on the abstract map. */
  function AnswerOn(m: map<Key, Value>, op: Op): Option<Value> {
    if op.FindKey? && op.key in m then Some(m[op.key]) else None
  }

  function Update(m: map<Key, Value>, e: Event): map<Key, Value> { if e.Did? then Apply(m, e.op) else m }

  lemma ApplySize(m: map<Key, Value>, op: Op)
    ensures |Apply(m, op)| - |m| ==
            (if op.AddOrUpdate? && op.key !in m then 1 else if op.Remove? && op.key in m then -1 else 0)
  {
    if op.AddOrUpdate? {
      assert m[op.key := op.value].Keys == m.Keys + {op.key};
    } else if op.Remove? {
      assert (m - {op.key}).Keys == m.Keys - {op.key};
    }
  }

  // ---------------------------------------------------------------- the map run by one thread

  /** The bodies that the lock-based maps run while they hold the locks they need. */
  class BucketMap {
    const mHasher: Hash
    var mBuckets: seq<Bucket>
    var mSize: nat
    ghost var contents: map<Key, Value>

    ghost predicate Valid()
      reads this
    {
      && TableOk(mHasher, mBuckets)
      && Represents(mHasher, mBuckets, contents)
      && mSize == |contents|
    }

    constructor (hasher: Hash, initialBucketSize: nat)
      requires initialBucketSize > 0
      ensures Valid() && contents == map[] && |mBuckets| == initialBucketSize && mHasher == hasher
    {
      mHasher := hasher;
      mBuckets := EmptyTable(initialBucketSize);
      mSize := 0;
      contents := map[];
    }

    method Find(k: Key) returns (r: Option<Value>)
      requires Valid()
      ensures r == if k in contents then Some(contents[k]) else None
    {
      var bucket := mBuckets[Index(mHasher(k), |mBuckets|)];
      var p := Position(bucket, k);
      r := if p < |bucket| then Some(bucket[p].1) else None;
      assert r == FindIn(mHasher, mBuckets, k);
    }

    method AddOrUpdate(k: Key, v: Value)
      requires Valid()
      modifies this
      ensures Valid() && contents == old(contents)[k := v]
      ensures |mBuckets| ==
        if k !in old(contents) && old(mSize) / old(|mBuckets|) > THRESHOLD then 2 * old(|mBuckets|) else old(|mBuckets|)
    {
      var i := Index(mHasher(k), |mBuckets|);
      var p := Position(mBuckets[i], k);
      var doRehash := false;
      WriteRepresents(mHasher, mBuckets, contents, k, v);
      assert p < |mBuckets[i]| <==> k in contents by {
        assert FindIn(mHasher, mBuckets, k).Some? <==> k in contents;
      }
      assert contents[k := v].Keys == contents.Keys + {k};
      if p == |mBuckets[i]| {
        mBuckets := mBuckets[i := mBuckets[i] + [(k, v)]];
        var curSize := mSize;
        mSize := mSize + 1;
        doRehash := curSize / |mBuckets| > THRESHOLD;
      } else {
        mBuckets := mBuckets[i := mBuckets[i][p := (mBuckets[i][p].0, v)]];
      }
      contents := contents[k := v];
      if doRehash {
        Rehash();
      }
    }

    method Remove(k: Key)
      requires Valid()
      modifies this
      ensures Valid() && contents == old(contents) - {k} && |mBuckets| == old(|mBuckets|)
    {
      var i := Index(mHasher(k), |mBuckets|);
      var p := Position(mBuckets[i], k);
      EraseRepresents(mHasher, mBuckets, contents, k);
      assert p < |mBuckets[i]| <==> k in contents by {
        assert FindIn(mHasher, mBuckets, k).Some? <==> k in contents;
      }
      assert (contents - {k}).Keys == contents.Keys - {k};
      if p < |mBuckets[i]| {
        mBuckets := mBuckets[i := mBuckets[i][..p] + mBuckets[i][p + 1..]];
        mSize := mSize - 1;
      } else {
        assert mBuckets == Erase(mHasher, mBuckets, k);
      }
      contents := contents - {k};
    }

    /** Doubles the number of buckets; the loops run over the old chains, pair by pair. */
    method Rehash()
      requires Valid()
      modifies this`mBuckets
      ensures Valid() && mBuckets == Rehashed(mHasher, old(mBuckets), 2 * old(|mBuckets|))
    {
      var newBucketSize := 2 * |mBuckets|;
      var newBucket := EmptyTable(newBucketSize);
      for j := 0 to |mBuckets|
        invariant newBucket == Rehashed(mHasher, mBuckets[..j], newBucketSize)
        invariant mBuckets == old(mBuckets)
      {
        var bucket := mBuckets[j];
        ghost var before := newBucket;
        for i := 0 to |bucket|
          invariant |newBucket| == newBucketSize
          invariant newBucket == PlaceBucket(mHasher, before, bucket[..i])
          invariant mBuckets == old(mBuckets)
        {
          var index := Index(mHasher(bucket[i].0), newBucketSize);
          assert bucket[..i + 1][..i] == bucket[..i];
          newBucket := newBucket[index := newBucket[index] + [bucket[i]]];
        }
        assert bucket[..|bucket|] == bucket;
        assert mBuckets[..j + 1][..j] == mBuckets[..j];
      }
      assert mBuckets[..|mBuckets|] == mBuckets;
      RehashKeeps(mHasher, mBuckets, newBucketSize, contents);
      mBuckets := newBucket;
    }
  }
}
