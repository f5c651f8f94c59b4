// A chained hash set, searched by key.
module UnorderedSets {

  // an unsigned -1
  const NO_LIMIT: nat := 0xffff_ffff_ffff_ffff

  function Slot(h: nat, n: nat): (b: nat)
    requires n > 0
    ensures b < n
  {
    h % n
  }

  // the elements in the buckets are those in contents, each once, in the bucket its hash says
  ghost predicate Placed<K, Key>(hash: Key -> nat, key: K -> Key, buckets: seq<seq<K>>, contents: map<Key, K>, n: nat) {
    && n <= |buckets|
    && (forall b, i {:trigger buckets[b][i]} :: 0 <= b < |buckets| && 0 <= i < |buckets[b]| ==>
          Keeps(key, contents, buckets[b][i]) && n > 0 && b == Slot(hash(key(buckets[b][i])), n))
    && (forall b, i, j {:trigger buckets[b][i], buckets[b][j]} :: 0 <= b < |buckets| && 0 <= i < j < |buckets[b]| ==> key(buckets[b][i]) != key(buckets[b][j]))
    && (forall k :: k in contents ==> key(contents[k]) == k && n > 0 && contents[k] in buckets[Slot(hash(k), n)])
  }

  ghost predicate Keeps<K, Key>(key: K -> Key, contents: map<Key, K>, e: K) {
    key(e) in contents && contents[key(e)] == e
  }

  ghost predicate Distinct<K, Key>(key: K -> Key, all: seq<K>) {
    forall i, j :: 0 <= i < j < |all| ==> key(all[i]) != key(all[j])
  }

  lemma DistinctBoth<K, Key>(key: K -> Key, a: seq<K>, b: seq<K>)
    requires Distinct(key, a) && Distinct(key, b)
    requires forall i, j :: 0 <= i < |a| && 0 <= j < |b| ==> key(a[i]) != key(b[j])
    ensures Distinct(key, a + b)
  {
  }

  // a list of the elements in contents, each once
  ghost predicate Lists<K, Key>(key: K -> Key, all: seq<K>, contents: map<Key, K>) {
    && (forall i :: 0 <= i < |all| ==> Keeps(key, contents, all[i]))
    && Distinct(key, all)
    && (forall k :: k in contents ==> contents[k] in all && key(contents[k]) == k)
  }

  function BucketsToMax(buckets: nat): nat {
    buckets / 4 * 3 + buckets % 4 * 3 / 4
  }

  lemma BucketsToMaxExact(buckets: nat)
    ensures BucketsToMax(buckets) == buckets * 3 / 4
  {
  }

  function MinBuckets(size: nat): nat {
    size / 3 * 4 + size % 3 * 4 / 3
  }

  // as many buckets as keep the load within three quarters
  lemma MinBucketsExact(size: nat)
    ensures MinBuckets(size) == size * 4 / 3
    ensures size > 0 ==> MinBuckets(size) > 0
  {
  }

  // the elements of the first n buckets
  function Concat<K>(buckets: seq<seq<K>>, n: nat): seq<K>
    requires n <= |buckets|
  {
    if n == 0 then [] else Concat(buckets, n - 1) + buckets[n - 1]
  }

  ghost predicate Somewhere<K>(buckets: seq<seq<K>>, n: nat, e: K) {
    exists b, i :: 0 <= b < n && b < |buckets| && 0 <= i < |buckets[b]| && buckets[b][i] == e
  }

  lemma {:induction false} ConcatFrom<K>(buckets: seq<seq<K>>, n: nat, e: K)
    requires n <= |buckets|
    ensures e in Concat(buckets, n) <==> Somewhere(buckets, n, e)
  {
    if n > 0 {
      ConcatFrom(buckets, n - 1, e);
      if e in buckets[n - 1] {
        var i :| 0 <= i < |buckets[n - 1]| && buckets[n - 1][i] == e;
      }
    }
  }

  lemma {:induction false} ConcatOnce<K, Key>(hash: Key -> nat, key: K -> Key, buckets: seq<seq<K>>, contents: map<Key, K>, m: nat, n: nat)
    requires Placed(hash, key, buckets, contents, m) && n <= |buckets|
    ensures Distinct(key, Concat(buckets, n))
    decreases n
  {
    if n > 0 {
      ConcatOnce(hash, key, buckets, contents, m, n - 1);
      var before, last := Concat(buckets, n - 1), buckets[n - 1];
      forall i, j | 0 <= i < |before| && 0 <= j < |last| ensures key(before[i]) != key(last[j]) {
        ConcatFrom(buckets, n - 1, before[i]);
        var b, k :| 0 <= b < n - 1 && 0 <= k < |buckets[b]| && buckets[b][k] == before[i];
      }
      assert Distinct(key, last);
      DistinctBoth(key, before, last);
    }
  }

  // Going through the buckets one after another lists every element once
  lemma BucketsList<K, Key>(hash: Key -> nat, key: K -> Key, buckets: seq<seq<K>>, contents: map<Key, K>, n: nat)
    requires Placed(hash, key, buckets, contents, n)
    ensures Lists(key, Concat(buckets, |buckets|), contents)
  {
    var all := Concat(buckets, |buckets|);
    ConcatOnce(hash, key, buckets, contents, n, |buckets|);
    forall i | 0 <= i < |all| ensures Keeps(key, contents, all[i]) {
      ConcatFrom(buckets, |buckets|, all[i]);
      var b, j :| 0 <= b < |buckets| && 0 <= j < |buckets[b]| && buckets[b][j] == all[i];
    }
    forall k | k in contents ensures contents[k] in all {
      var b := Slot(hash(k), n);
      var j :| 0 <= j < |buckets[b]| && buckets[b][j] == contents[k];
      ConcatFrom(buckets, |buckets|, contents[k]);
    }
  }

  // how many elements come before the one at i in bucket b
  function Offset<K>(buckets: seq<seq<K>>, b: nat, i: nat): nat
    requires b < |buckets|
  {
    |Concat(buckets, b)| + i
  }

  lemma {:induction false} ConcatAt<K>(buckets: seq<seq<K>>, b: nat, i: nat, n: nat)
    requires b < n <= |buckets| && i < |buckets[b]|
    ensures Offset(buckets, b, i) < |Concat(buckets, n)| && Concat(buckets, n)[Offset(buckets, b, i)] == buckets[b][i]
    decreases n
  {
    if b < n - 1 {
      ConcatAt(buckets, b, i, n - 1);
    }
  }

  lemma HeldIsKept<K, Key>(hash: Key -> nat, key: K -> Key, buckets: seq<seq<K>>, contents: map<Key, K>, n: nat, b: nat, i: nat)
    requires Placed(hash, key, buckets, contents, n) && b < |buckets| && i < |buckets[b]|
    ensures contents != map[]
  {
    assert Keeps(key, contents, buckets[b][i]);
  }

  lemma {:induction false} AllEmpty<K, Key>(hash: Key -> nat, key: K -> Key, buckets: seq<seq<K>>, m: nat, n: nat)
    requires Placed(hash, key, buckets, map[], m) && n <= |buckets|
    ensures Concat(buckets, n) == []
  {
    if n > 0 {
      AllEmpty(hash, key, buckets, m, n - 1);
      if buckets[n - 1] != [] {
        HeldIsKept(hash, key, buckets, map[], m, n - 1, 0);
      }
    }
  }

  class UnorderedSet<K, Key(==)> {
    const hash: Key -> nat
    const key: K -> Key
    const maxBuckets: nat
    var buckets: seq<seq<K>>
    var currentSize: nat
    var currentLimit: nat
    ghost var contents: map<Key, K>

    ghost predicate Valid()
      reads this
    {
      && Placed(hash, key, buckets, contents, |buckets|)
      && |contents| <= currentSize && 4 <= maxBuckets
      && (currentLimit != NO_LIMIT ==> currentSize <= currentLimit && 4 * currentLimit <= 3 * |buckets| && |buckets| <= maxBuckets)
      && (currentLimit == NO_LIMIT ==> |buckets| > maxBuckets / 2)
      && (buckets == [] <==> currentLimit == 0)
      && (buckets == [] ==> currentSize == 0)
    }

    constructor (hash: Key -> nat, key: K -> Key, maxBuckets: nat)
      requires 4 <= maxBuckets
      ensures Valid() && contents == map[] && this.hash == hash && this.key == key
    {
      this.hash, this.key, this.maxBuckets := hash, key, maxBuckets;
      buckets, currentSize, currentLimit, contents := [], 0, 0, map[];
    }

    // where the element with the given key is in its bucket
    method FindInBucket(k: Key, b: nat) returns (found: bool, i: nat)
      requires b < |buckets|
      ensures found ==> i < |buckets[b]| && key(buckets[b][i]) == k
      ensures !found ==> forall j :: 0 <= j < |buckets[b]| ==> key(buckets[b][j]) != k
    {
      found, i := false, 0;
      while i < |buckets[b]|
        invariant i <= |buckets[b]| && forall j :: 0 <= j < i ==> key(buckets[b][j]) != k
      {
        if key(buckets[b][i]) == k {
          return true, i;
        }
        i := i + 1;
      }
    }

    method Find(k: Key) returns (found: bool, b: nat, i: nat)
      requires Valid()
      ensures found <==> k in contents
      ensures found ==> b < |buckets| && i < |buckets[b]| && buckets[b][i] == contents[k]
    {
      found, b, i := false, 0, 0;
      if |buckets| == 0 {
        NoneHeld(hash, key, contents);
        return;
      }
      b := Slot(hash(k), |buckets|);
      found, i := FindInBucket(k, b);
      if !found {
        NotHeld(hash, key, buckets, contents, |buckets|, k);
      }
    }

    method Contains(k: Key) returns (r: bool)
      requires Valid()
      ensures r <==> k in contents
    {
      var b, i;
      r, b, i := Find(k);
    }

    method Clear()
      requires Valid()
      modifies this
      ensures Valid() && contents == map[] && currentSize == 0
    {
      buckets, currentSize, currentLimit, contents := [], 0, 0, map[];
    }

    lemma Listed()
      requires Valid()
      ensures Lists(key, Concat(buckets, |buckets|), contents)
    {
      BucketsList(hash, key, buckets, contents, |buckets|);
    }

    // the first position at which there is an element
    method Begin() returns (end: bool, b: nat, i: nat)
      requires Valid()
      ensures end ==> Concat(buckets, |buckets|) == []
      ensures !end ==> b < |buckets| && i < |buckets[b]| && Offset(buckets, b, i) == 0
    {
      end, b, i := true, 0, 0;
      if currentSize == 0 {
        assert contents == map[];
        AllEmpty(hash, key, buckets, |buckets|, |buckets|);
        return;
      }
      end, b := FirstFrom(0);
    }

    // the position after this one
    method Next(b0: nat, i0: nat) returns (end: bool, b: nat, i: nat)
      requires b0 < |buckets| && i0 < |buckets[b0]|
      ensures end ==> |Concat(buckets, |buckets|)| == Offset(buckets, b0, i0) + 1
      ensures !end ==> b < |buckets| && i < |buckets[b]| && Offset(buckets, b, i) == Offset(buckets, b0, i0) + 1
    {
      end, b, i := false, b0, i0 + 1;
      if i == |buckets[b0]| {
        end, b := FirstFrom(b0 + 1);
        i := 0;
      }
    }

    // the first bucket from b0 on that is not empty
    method FirstFrom(b0: nat) returns (end: bool, b: nat)
      requires b0 <= |buckets|
      ensures end ==> Concat(buckets, |buckets|) == Concat(buckets, b0)
      ensures !end ==> b < |buckets| && buckets[b] != [] && Concat(buckets, b) == Concat(buckets, b0)
    {
      b := b0;
      while b < |buckets|
        invariant b0 <= b <= |buckets| && Concat(buckets, b) == Concat(buckets, b0)
      {
        if buckets[b] != [] {
          return false, b;
        }
        b := b + 1;
      }
      end := true;
    }

    // the count of elements is not adjusted
    method Erase(k: Key) returns (n: nat)
      requires Valid()
      modifies this`buckets, this`contents
      ensures Valid() && contents == old(contents) - {k} && n == if k in old(contents) then 1 else 0
    {
      var found, b, i := Find(k);
      if found {
        Removed(hash, key, buckets, contents, |buckets|, k, b, i);
        buckets := buckets[b := Without(buckets[b], i)];
        contents := contents - {k};
        return 1;
      }
      assert contents - {k} == contents;
      return 0;
    }

    method Insert(value: K) returns (inserted: bool, b: nat, i: nat)
      requires Valid()
      modifies this
      ensures Valid()
      ensures inserted <==> key(value) !in old(contents)
      ensures contents == if inserted then old(contents)[key(value) := value] else old(contents)
      ensures b < |buckets| && i < |buckets[b]| && buckets[b][i] == contents[key(value)] && key(buckets[b][i]) == key(value)
      ensures !inserted ==> buckets == old(buckets)
    {
      hide Placed, Slot;
      var k := key(value);
      if |buckets| == 0 {
        NoneHeld(hash, key, contents);
        buckets := [[], [], [], []];
        currentLimit := 3;
        b := Slot(hash(k), |buckets|);
      } else {
        b := Slot(hash(k), |buckets|);
        var found;
        found, i := FindInBucket(k, b);
        if found {
          Found(hash, key, buckets, contents, |buckets|, k, b, i);
          return false, b, i;
        }
        NotHeld(hash, key, buckets, contents, |buckets|, k);
        if currentSize >= currentLimit {
          Grow();
          b := Slot(hash(k), |buckets|);
        }
      }
      i := |buckets[b]|;
      Added(hash, key, buckets, contents, |buckets|, value);
      buckets := buckets[b := buckets[b] + [value]];
      contents := contents[k := value];
      currentSize := currentSize + 1;
      inserted := true;
    }

    // put another element with the same key in the place of one
    method Replace(b: nat, i: nat, value: K)
      requires Valid() && b < |buckets| && i < |buckets[b]| && key(buckets[b][i]) == key(value)
      modifies this`buckets, this`contents
      ensures Valid() && contents == old(contents)[key(value) := value]
    {
      hide Placed;
      Replaced(hash, key, buckets, contents, |buckets|, b, i, value);
      buckets := buckets[b := buckets[b][i := value]];
      contents := contents[key(value) := value];
    }

    // twice the buckets, unless there can be no more
    method Grow()
      requires Valid() && currentSize >= currentLimit && buckets != []
      modifies this`buckets, this`currentLimit
      ensures Valid() && buckets != [] && (currentLimit == NO_LIMIT || currentSize < currentLimit)
    {
      hide Placed;
      if |buckets| <= maxBuckets / 2 && currentLimit != NO_LIMIT {
        LoadFits(currentSize, currentLimit, |buckets|, maxBuckets);
      }
      if |buckets| <= maxBuckets / 2 {
        Rehash(|buckets| * 2);
        currentLimit := currentLimit * 2;
      } else {
        currentLimit := NO_LIMIT;
      }
    }

    // splice all elements into one list, and from there into the first n buckets
    method DoRehash(n: nat, ghost m: nat)
      requires Placed(hash, key, buckets, contents, m) && n <= |buckets| && (contents == map[] || n > 0)
      modifies this`buckets
      ensures Placed(hash, key, buckets, contents, n) && |buckets| == old(|buckets|)
    {
      hide Placed, Lists, Slot, Keeps;
      var all := [];
      for i := 0 to |buckets|
        invariant all == Concat(buckets, i)
      {
        all := all + buckets[i];
      }
      BucketsList(hash, key, buckets, contents, m);
      buckets := seq(|buckets|, _ => []);
      ghost var done: map<Key, K> := map[];
      NoneListed(hash, key, buckets, n);
      assert all[..0] == [];
      for j := 0 to |all|
        invariant |buckets| == old(|buckets|) && Lists(key, all[..j], done) && Placed(hash, key, buckets, done, n)
      {
        ListedOne(key, all, contents, done, j);
        assert n > 0 by {
          ListedKept(key, all, contents, j);
        }
        var b := Slot(hash(key(all[j])), n);
        Added(hash, key, buckets, done, n, all[j]);
        buckets := buckets[b := buckets[b] + [all[j]]];
        done := done[key(all[j]) := all[j]];
      }
      assert all[..|all|] == all;
      ListedAll(key, all, contents, done);
    }

    method Rehash(bucketCount: nat)
      requires Placed(hash, key, buckets, contents, |buckets|) && |contents| <= currentSize && 4 <= maxBuckets
      modifies this`buckets
      ensures Placed(hash, key, buckets, contents, |buckets|)
      ensures var least := if currentSize > BucketsToMax(maxBuckets) then maxBuckets else MinBuckets(currentSize);
        |buckets| == if bucketCount < least then least else bucketCount
    {
      hide Placed;
      var maxCount := BucketsToMax(maxBuckets);
      var minBuckets;
      if currentSize > maxCount {
        minBuckets := maxBuckets;
      } else {
        minBuckets := MinBuckets(currentSize);
      }
      var n := if bucketCount < minBuckets then minBuckets else bucketCount;
      MinBucketsExact(currentSize);
      assert |contents| == 0 ==> contents == map[];
      ghost var m := |buckets|;
      if n < |buckets| {
        DoRehash(n, m);
        Shrunk(hash, key, buckets, contents, n);
        buckets := buckets[..n];
      } else {
        Grown(hash, key, buckets, contents, m, n);
        buckets := buckets + seq(n - |buckets|, _ => []);
        DoRehash(n, m);
      }
    }
  }

  lemma LoadFits(size: nat, limit: nat, buckets: nat, most: nat)
    requires size == limit && 4 * limit <= 3 * buckets && 2 * buckets <= most
    ensures MinBuckets(size) <= buckets && size <= BucketsToMax(most)
  {
    MinBucketsExact(size);
    BucketsToMaxExact(most);
  }

  lemma NoneListed<K, Key>(hash: Key -> nat, key: K -> Key, buckets: seq<seq<K>>, n: nat)
    requires n <= |buckets| && forall b :: 0 <= b < |buckets| ==> buckets[b] == []
    ensures Placed(hash, key, buckets, map[], n) && Lists(key, [], map[])
  {
  }

  lemma ListedKept<K, Key>(key: K -> Key, all: seq<K>, contents: map<Key, K>, j: nat)
    requires Lists(key, all, contents) && j < |all|
    ensures contents != map[]
  {
    assert Keeps(key, contents, all[j]);
  }

  lemma Shrunk<K, Key>(hash: Key -> nat, key: K -> Key, buckets: seq<seq<K>>, contents: map<Key, K>, n: nat)
    requires Placed(hash, key, buckets, contents, n)
    ensures Placed(hash, key, buckets[..n], contents, n)
  {
    var fewer := buckets[..n];
    forall b, i | 0 <= b < n && 0 <= i < |fewer[b]| ensures fewer[b][i] == buckets[b][i] {
    }
    forall k | k in contents ensures contents[k] in fewer[Slot(hash(k), n)] {
      assert fewer[Slot(hash(k), n)] == buckets[Slot(hash(k), n)];
    }
  }

  lemma Grown<K, Key>(hash: Key -> nat, key: K -> Key, buckets: seq<seq<K>>, contents: map<Key, K>, m: nat, n: nat)
    requires Placed(hash, key, buckets, contents, m) && |buckets| <= n
    ensures Placed(hash, key, buckets + seq(n - |buckets|, _ => []), contents, m)
  {
    var more := buckets + seq(n - |buckets|, _ => []);
    assert forall b :: 0 <= b < |more| ==> more[b] == if b < |buckets| then buckets[b] else [];
  }

  lemma NoneHeld<K, Key>(hash: Key -> nat, key: K -> Key, contents: map<Key, K>)
    requires Placed(hash, key, [], contents, 0)
    ensures contents == map[] && Placed(hash, key, [[], [], [], []], contents, 4)
  {
  }

  lemma NotHeld<K, Key>(hash: Key -> nat, key: K -> Key, buckets: seq<seq<K>>, contents: map<Key, K>, n: nat, k: Key)
    requires Placed(hash, key, buckets, contents, n) && n > 0
    requires var b := Slot(hash(k), n); forall j :: 0 <= j < |buckets[b]| ==> key(buckets[b][j]) != k
    ensures k !in contents
  {
  }

  lemma Found<K, Key>(hash: Key -> nat, key: K -> Key, buckets: seq<seq<K>>, contents: map<Key, K>, n: nat, k: Key, b: nat, i: nat)
    requires Placed(hash, key, buckets, contents, n) && b < |buckets| && i < |buckets[b]| && key(buckets[b][i]) == k
    ensures k in contents && contents[k] == buckets[b][i]
  {
  }

  function Without<K>(bucket: seq<K>, i: nat): (r: seq<K>)
    requires i < |bucket|
    ensures |r| == |bucket| - 1 && forall j :: 0 <= j < |r| ==> r[j] == bucket[if j < i then j else j + 1]
  {
    bucket[..i] + bucket[i + 1..]
  }

  lemma WithoutIn<K>(bucket: seq<K>, i: nat, e: K)
    requires i < |bucket| && e in bucket && e != bucket[i]
    ensures e in Without(bucket, i)
  {
    var j :| 0 <= j < |bucket| && bucket[j] == e;
    assert Without(bucket, i)[if j < i then j else j - 1] == e;
  }

  lemma Removed<K, Key>(hash: Key -> nat, key: K -> Key, buckets: seq<seq<K>>, contents: map<Key, K>, n: nat, k: Key, b: nat, i: nat)
    requires Placed(hash, key, buckets, contents, n)
    requires k in contents && b < |buckets| && i < |buckets[b]| && buckets[b][i] == contents[k]
    ensures Placed(hash, key, buckets[b := Without(buckets[b], i)], contents - {k}, n) && |contents - {k}| == |contents| - 1
  {
    hide Slot, Without;
    var left := contents - {k};
    var rest := buckets[b := Without(buckets[b], i)];
    forall c, j | 0 <= c < |rest| && 0 <= j < |rest[c]| ensures Keeps(key, left, rest[c][j]) && c == Slot(hash(key(rest[c][j])), n) {
      var j0 := if c == b && j >= i then j + 1 else j;
      assert rest[c][j] == buckets[c][j0];
      RemovedKeeps(hash, key, buckets, contents, n, k, b, i, c, j0);
    }
    forall c, j, l | 0 <= c < |rest| && 0 <= j < l < |rest[c]| ensures key(rest[c][j]) != key(rest[c][l]) {
      assert rest[c][j] == buckets[c][if c == b && j >= i then j + 1 else j];
      assert rest[c][l] == buckets[c][if c == b && l >= i then l + 1 else l];
    }
    forall m | m in left ensures contents[m] in rest[Slot(hash(m), n)] {
      if Slot(hash(m), n) == b {
        WithoutIn(buckets[b], i, contents[m]);
      }
    }
    assert contents.Keys == left.Keys + {k};
  }

  lemma RemovedKeeps<K, Key>(hash: Key -> nat, key: K -> Key, buckets: seq<seq<K>>, contents: map<Key, K>, n: nat, k: Key, b: nat, i: nat, c: nat, j: nat)
    requires Placed(hash, key, buckets, contents, n)
    requires k in contents && b < |buckets| && i < |buckets[b]| && buckets[b][i] == contents[k]
    requires c < |buckets| && j < |buckets[c]| && (c != b || j != i)
    ensures Keeps(key, contents - {k}, buckets[c][j])
  {
    hide Slot;
    assert Keeps(key, contents, buckets[c][j]) && Keeps(key, contents, buckets[b][i]);
    if c == b {
      var lo, hi := if j < i then j else i, if j < i then i else j;
      assert key(buckets[b][lo]) != key(buckets[b][hi]);
    }
  }

  lemma Replaced<K, Key>(hash: Key -> nat, key: K -> Key, buckets: seq<seq<K>>, contents: map<Key, K>, n: nat, b: nat, i: nat, value: K)
    requires Placed(hash, key, buckets, contents, n) && b < |buckets| && i < |buckets[b]| && key(buckets[b][i]) == key(value)
    ensures Placed(hash, key, buckets[b := buckets[b][i := value]], contents[key(value) := value], n)
    ensures |contents[key(value) := value]| == |contents|
  {
    hide Slot;
    var after, rest := contents[key(value) := value], buckets[b := buckets[b][i := value]];
    assert Keeps(key, contents, buckets[b][i]) && b == Slot(hash(key(value)), n);
    assert after.Keys == contents.Keys;
    forall c, j | 0 <= c < |rest| && 0 <= j < |rest[c]| ensures Keeps(key, after, rest[c][j]) && c == Slot(hash(key(rest[c][j])), n) {
      assert Keeps(key, contents, buckets[c][j]) && c == Slot(hash(key(buckets[c][j])), n);
      if c == b && j != i {
        assert key(buckets[b][if j < i then j else i]) != key(buckets[b][if j < i then i else j]);
      }
    }
    forall c, j, l | 0 <= c < |rest| && 0 <= j < l < |rest[c]| ensures key(rest[c][j]) != key(rest[c][l]) {
      assert key(buckets[c][j]) != key(buckets[c][l]);
    }
    forall k | k in after ensures after[k] in rest[Slot(hash(k), n)] {
      if k == key(value) {
        assert rest[b][i] == value;
      } else {
        var c := Slot(hash(k), n);
        var j :| 0 <= j < |buckets[c]| && buckets[c][j] == contents[k];
        assert rest[c][j] == contents[k];
      }
    }
  }

  lemma Added<K, Key>(hash: Key -> nat, key: K -> Key, buckets: seq<seq<K>>, contents: map<Key, K>, n: nat, value: K)
    requires Placed(hash, key, buckets, contents, n) && key(value) !in contents && n > 0
    ensures var b := Slot(hash(key(value)), n);
      && Placed(hash, key, buckets[b := buckets[b] + [value]], contents[key(value) := value], n)
      && |contents[key(value) := value]| == |contents| + 1
  {
    hide Slot;
    var b := Slot(hash(key(value)), n);
    var more, after := buckets[b := buckets[b] + [value]], contents[key(value) := value];
    assert after.Keys == contents.Keys + {key(value)};
    forall c, i | 0 <= c < |more| && 0 <= i < |more[c]|
      ensures Keeps(key, after, more[c][i]) && c == Slot(hash(key(more[c][i])), n)
    {
      assert more[c][i] == if c == b && i == |buckets[b]| then value else buckets[c][i];
    }
    forall c, i, j | 0 <= c < |more| && 0 <= i < j < |more[c]| ensures key(more[c][i]) != key(more[c][j]) {
      assert more[c][i] == buckets[c][i];
    }
    forall m | m in after ensures after[m] in more[Slot(hash(m), n)] {
      if m != key(value) {
        assert contents[m] in buckets[Slot(hash(m), n)];
      } else {
        assert more[b][|buckets[b]|] == value;
      }
    }
  }

  // contents is what the first n elements of all make up
  lemma ListedOne<K, Key>(key: K -> Key, all: seq<K>, contents: map<Key, K>, done: map<Key, K>, n: nat)
    requires n < |all| && Lists(key, all, contents) && Lists(key, all[..n], done)
    ensures key(all[n]) !in done && Lists(key, all[..n + 1], done[key(all[n]) := all[n]])
  {
    var before, after := all[..n], all[..n + 1];
    forall k | k in done ensures k != key(all[n]) {
      var i :| 0 <= i < n && before[i] == done[k];
      assert all[i] == done[k];
    }
    var more := done[key(all[n]) := all[n]];
    forall k | k in more ensures more[k] in after {
      if k != key(all[n]) {
        var i :| 0 <= i < n && before[i] == done[k];
        assert after[i] == done[k];
      } else {
        assert after[n] == all[n];
      }
    }
    forall i | 0 <= i < |after| ensures Keeps(key, more, after[i]) {
      assert i < n ==> before[i] == after[i];
    }
  }

  lemma ListedAll<K, Key>(key: K -> Key, all: seq<K>, contents: map<Key, K>, done: map<Key, K>)
    requires Lists(key, all, contents) && Lists(key, all, done)
    ensures done == contents
  {
    forall k | k in contents ensures k in done && done[k] == contents[k] {
      var i :| 0 <= i < |all| && all[i] == contents[k];
      assert Keeps(key, done, all[i]);
    }
    forall k | k in done ensures k in contents {
      var i :| 0 <= i < |all| && all[i] == done[k];
      assert Keeps(key, contents, all[i]);
    }
  }
}
