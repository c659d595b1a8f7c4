/**
 * Insertion-ordered buckets: the model of a Swift dictionary whose values are
 * lists that grow by `append`.  The planner uses this shape twice: layers are
 * bucketed by scale factor, and trees are bucketed by the radius at a level.
 * Swift leaves the iteration order of a dictionary unspecified; the model fixes
 * it to the order in which keys were first inserted.
 */
module Buckets {

  datatype Bucket<K, V> = Bucket(key: K, items: seq<V>)

  function Keys<K, V>(bs: seq<Bucket<K, V>>): (ks: seq<K>)
  {
    seq(|bs|, i requires 0 <= i < |bs| => bs[i].key)
  }

  /** Position of the first `k` in `ks`, or `|ks|` when `k` does not occur. */
  function Find<K(==)>(ks: seq<K>, k: K): (i: nat)
    ensures i <= |ks|
    ensures i < |ks| ==> ks[i] == k
    ensures i == |ks| ==> k !in ks
    ensures forall j :: 0 <= j < i ==> ks[j] != k
  {
    if ks == [] then 0
    else if ks[0] == k then 0
    else 1 + Find(ks[1..], k)
  }

  /** `dict[k]!.append(v)` when `k` is present, `dict[k] = [v]` otherwise. */
  function Add<K(==), V>(bs: seq<Bucket<K, V>>, k: K, v: V): seq<Bucket<K, V>>
  {
    var i := Find(Keys(bs), k);
    if i < |bs| then bs[i := Bucket(k, bs[i].items + [v])]
    else bs + [Bucket(k, [v])]
  }

  /** The buckets built by adding every pair of `kvs`, in order. */
  function Bucketize<K(==), V>(kvs: seq<(K, V)>): seq<Bucket<K, V>>
  {
    if kvs == [] then []
    else
      var n := |kvs| - 1;
      Add(Bucketize(kvs[..n]), kvs[n].0, kvs[n].1)
  }

  /** Reference definition: the values paired with `k`, in input order. */
  function Select<K(==), V>(kvs: seq<(K, V)>, k: K): seq<V>
  {
    if kvs == [] then []
    else
      var n := |kvs| - 1;
      Select(kvs[..n], k) + (if kvs[n].0 == k then [kvs[n].1] else [])
  }

  function Values<K, V>(kvs: seq<(K, V)>): seq<V>
  {
    seq(|kvs|, i requires 0 <= i < |kvs| => kvs[i].1)
  }

  /** All items of all buckets, bucket after bucket. */
  function Flatten<K, V>(bs: seq<Bucket<K, V>>): seq<V>
  {
    if bs == [] then [] else bs[0].items + Flatten(bs[1..])
  }

  ghost predicate DistinctKeys<K, V>(bs: seq<Bucket<K, V>>)
  {
    forall i, j :: 0 <= i < j < |bs| ==> bs[i].key != bs[j].key
  }

  ghost predicate NonEmptyBuckets<K, V>(bs: seq<Bucket<K, V>>)
  {
    forall i :: 0 <= i < |bs| ==> bs[i].items != []
  }

  lemma {:induction false} SelectAbsent<K, V>(kvs: seq<(K, V)>, k: K)
    requires forall j :: 0 <= j < |kvs| ==> kvs[j].0 != k
    ensures Select(kvs, k) == []
  {
    if kvs != [] {
      SelectAbsent(kvs[..|kvs| - 1], k);
    }
  }

  /** Whatever `Select` returns was paired with the key in the input. */
  lemma {:induction false} SelectMembers<K, V>(kvs: seq<(K, V)>, k: K, v: V)
    requires v in Select(kvs, k)
    ensures (k, v) in kvs
  {
    var n := |kvs| - 1;
    if v in Select(kvs[..n], k) {
      SelectMembers(kvs[..n], k, v);
      assert (k, v) in kvs[..n];
    } else {
      assert kvs[n] == (k, v);
    }
  }

  /** Taking one more element of a sequence appends that element. */
  lemma TakeSnoc<T>(s: seq<T>, k: nat)
    requires k < |s|
    ensures s[..k + 1] == s[..k] + [s[k]]
  {
  }

  /** Appending a prefix one element longer appends that element. */
  lemma AppendTakeSnoc<T>(a: seq<T>, s: seq<T>, k: nat)
    requires k < |s|
    ensures a + s[..k + 1] == (a + s[..k]) + [s[k]]
  {
    assert s[..k + 1] == s[..k] + [s[k]];
  }

  lemma BucketizeSnoc<K, V>(kvs: seq<(K, V)>, k: K, v: V)
    ensures Bucketize(kvs + [(k, v)]) == Add(Bucketize(kvs), k, v)
  {
    assert (kvs + [(k, v)])[..|kvs|] == kvs;
  }

  /** What `Bucketize(kvs)` is, stated without the insertion procedure. */
  ghost predicate Groups<K, V>(kvs: seq<(K, V)>, bs: seq<Bucket<K, V>>)
  {
    && DistinctKeys(bs)
    && (forall i :: 0 <= i < |bs| ==> bs[i].items == Select(kvs, bs[i].key))
    && (forall j :: 0 <= j < |kvs| ==> kvs[j].0 in Keys(bs))
  }

  lemma AddToExisting<K, V>(kvs: seq<(K, V)>, bs: seq<Bucket<K, V>>, k: K, v: V)
    requires Groups(kvs, bs)
    requires Find(Keys(bs), k) < |bs|
    ensures Groups(kvs + [(k, v)], Add(bs, k, v))
  {
    var p := Find(Keys(bs), k);
    var all := kvs + [(k, v)];
    var bs' := Add(bs, k, v);
    assert all[..|kvs|] == kvs;
    assert Keys(bs') == Keys(bs);
    forall i | 0 <= i < |bs'|
      ensures bs'[i].items == Select(all, bs'[i].key)
    {
      if i != p {
        assert bs[i].key != k;
      }
    }
    forall j | 0 <= j < |all|
      ensures all[j].0 in Keys(bs')
    {
      if j < |kvs| {
        assert all[j] == kvs[j];
      }
    }
  }

  lemma AddNew<K, V>(kvs: seq<(K, V)>, bs: seq<Bucket<K, V>>, k: K, v: V)
    requires Groups(kvs, bs)
    requires Find(Keys(bs), k) == |bs|
    ensures Groups(kvs + [(k, v)], Add(bs, k, v))
  {
    var all := kvs + [(k, v)];
    var bs' := Add(bs, k, v);
    assert all[..|kvs|] == kvs;
    SelectAbsent(kvs, k);
    assert Keys(bs') == Keys(bs) + [k];
    forall i | 0 <= i < |bs'|
      ensures bs'[i].items == Select(all, bs'[i].key)
    {
      if i < |bs| {
        assert Keys(bs)[i] == bs[i].key;
      }
    }
    forall j | 0 <= j < |all|
      ensures all[j].0 in Keys(bs')
    {
      if j < |kvs| {
        assert all[j] == kvs[j];
      } else {
        assert Keys(bs')[|bs|] == k;
      }
    }
  }

  /**
   * The buckets partition the input: keys are distinct, every bucket holds
   * exactly the values paired with its key in input order (so it is never
   * empty), and every key of the input has a bucket.
   */
  lemma {:induction false} BucketizeSpec<K, V>(kvs: seq<(K, V)>)
    ensures Groups(kvs, Bucketize(kvs))
    ensures NonEmptyBuckets(Bucketize(kvs))
  {
    if kvs != [] {
      var n := |kvs| - 1;
      BucketizeSpec(kvs[..n]);
      assert kvs == kvs[..n] + [(kvs[n].0, kvs[n].1)];
      if Find(Keys(Bucketize(kvs[..n])), kvs[n].0) < |Bucketize(kvs[..n])| {
        AddToExisting(kvs[..n], Bucketize(kvs[..n]), kvs[n].0, kvs[n].1);
      } else {
        AddNew(kvs[..n], Bucketize(kvs[..n]), kvs[n].0, kvs[n].1);
      }
    }
  }

  /** The first pair of the input opens the first bucket and is its first item. */
  lemma {:induction false} BucketizeHead<K, V>(kvs: seq<(K, V)>)
    requires kvs != []
    ensures |Bucketize(kvs)| > 0
    ensures Bucketize(kvs)[0].key == kvs[0].0
    ensures Bucketize(kvs)[0].items != [] && Bucketize(kvs)[0].items[0] == kvs[0].1
  {
    var n := |kvs| - 1;
    if n > 0 {
      BucketizeHead(kvs[..n]);
      assert kvs[..n][0] == kvs[0];
    }
  }

  lemma {:induction false} FlattenAppend<K, V>(a: seq<Bucket<K, V>>, b: seq<Bucket<K, V>>)
    ensures Flatten(a + b) == Flatten(a) + Flatten(b)
  {
    if a != [] {
      assert (a + b)[0] == a[0];
      assert (a + b)[1..] == a[1..] + b;
      FlattenAppend(a[1..], b);
    } else {
      assert a + b == b;
    }
  }

  lemma AddCounts<K, V>(bs: seq<Bucket<K, V>>, k: K, v: V)
    ensures multiset(Flatten(Add(bs, k, v))) == multiset(Flatten(bs)) + multiset{v}
  {
    var i := Find(Keys(bs), k);
    if i < |bs| {
      AddCountsAt(bs, i, k, v);
    } else {
      FlattenAppend(bs, [Bucket(k, [v])]);
    }
  }

  /** Appending `v` to the items of bucket `i` adds one `v` to the flattened items. */
  lemma AddCountsAt<K, V>(bs: seq<Bucket<K, V>>, i: nat, k: K, v: V)
    requires i < |bs|
    ensures multiset(Flatten(bs[i := Bucket(k, bs[i].items + [v])])) == multiset(Flatten(bs)) + multiset{v}
  {
    var b := Bucket(k, bs[i].items + [v]);
    var pre, post := bs[..i], bs[i + 1..];
    assert bs == pre + [bs[i]] + post;
    assert bs[i := b] == pre + [b] + post;
    FlattenAppend(pre + [bs[i]], post);
    FlattenAppend(pre, [bs[i]]);
    FlattenAppend(pre + [b], post);
    FlattenAppend(pre, [b]);
    assert Flatten([b]) == Flatten([bs[i]]) + [v];
  }

  /** Every value lands in exactly one bucket: the buckets hold the input's values and nothing else. */
  lemma {:induction false} BucketizePartition<K, V>(kvs: seq<(K, V)>)
    ensures multiset(Flatten(Bucketize(kvs))) == multiset(Values(kvs))
    ensures |Flatten(Bucketize(kvs))| == |kvs|
  {
    BucketizeCounts(kvs);
    assert |multiset(Flatten(Bucketize(kvs)))| == |Flatten(Bucketize(kvs))|;
    assert |multiset(Values(kvs))| == |Values(kvs)|;
  }

  lemma {:induction false} BucketizeCounts<K, V>(kvs: seq<(K, V)>)
    ensures multiset(Flatten(Bucketize(kvs))) == multiset(Values(kvs))
  {
    if kvs != [] {
      var n := |kvs| - 1;
      BucketizeCounts(kvs[..n]);
      AddCounts(Bucketize(kvs[..n]), kvs[n].0, kvs[n].1);
      ValuesSnoc(kvs);
    }
  }

  lemma ValuesSnoc<K, V>(kvs: seq<(K, V)>)
    requires kvs != []
    ensures Values(kvs) == Values(kvs[..|kvs| - 1]) + [kvs[|kvs| - 1].1]
  {
  }
}
