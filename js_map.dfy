/**
 * JavaScript's `Map` as the sources use it: entries in insertion order,
 * `set` replacing the value of a present key in place and appending a new
 * key at the end, `delete` removing the key's entry. The entries are a
 * sequence of pairs with distinct keys; every operation keeps them distinct.
 */
module JsMap {
  import opened Util

  type Entries<K, V> = seq<(K, V)>

  /** The keys in iteration order (`map.keys()`). */
  function KeysOf<K, V>(e: Entries<K, V>): (r: seq<K>)
    ensures |r| == |e| && forall i :: 0 <= i < |e| ==> r[i] == e[i].0
  {
    seq(|e|, i requires 0 <= i < |e| => e[i].0)
  }

  /** No key appears twice. */
  ghost predicate Distinct<K, V>(e: Entries<K, V>) {
    forall i, j :: 0 <= i < j < |e| ==> e[i].0 != e[j].0
  }

  /** `map.has(k)` */
  ghost predicate Has<K, V>(e: Entries<K, V>, k: K) {
    exists i :: 0 <= i < |e| && e[i].0 == k
  }

  /** `map.get(k)`: the value of the first entry with key `k`. */
  function Get<K(==), V>(e: Entries<K, V>, k: K): (r: Option<V>)
    ensures r.Some? <==> Has(e, k)
    ensures r.Some? ==> exists i :: 0 <= i < |e| && e[i] == (k, r.value)
  {
    if |e| == 0 then None
    else if e[0].0 == k then Some(e[0].1)
    else
      var r := Get(e[1..], k);
      assert forall i :: 0 < i < |e| ==> e[i] == e[1..][i - 1];
      r
  }

  /** `map.set(k, v)`: replace in place when present, otherwise append. */
  function Put<K(==), V>(e: Entries<K, V>, k: K, v: V): Entries<K, V> {
    if |e| == 0 then [(k, v)]
    else if e[0].0 == k then [(k, v)] + e[1..]
    else [e[0]] + Put(e[1..], k, v)
  }

  /** After `set(k, v)`, `get(k)` is `v` and every other key reads as before. */
  lemma {:induction false} PutGet<K(!new), V>(e: Entries<K, V>, k: K, v: V)
    ensures Get(Put(e, k, v), k) == Some(v)
    ensures forall q :: q != k ==> Get(Put(e, k, v), q) == Get(e, q)
  {
    if |e| > 0 && e[0].0 != k {
      PutGet(e[1..], k, v);
    }
  }

  /** The entries after `set(k, v)` are `(k, v)` and entries that were there before. */
  lemma {:induction false} PutMembers<K(!new), V(!new)>(e: Entries<K, V>, k: K, v: V)
    ensures (k, v) in Put(e, k, v)
    ensures forall x :: x in Put(e, k, v) ==> x in e || x == (k, v)
  {
    if |e| > 0 && e[0].0 != k {
      PutMembers(e[1..], k, v);
      assert forall x :: x in e[1..] ==> x in e;
    }
  }

  /** With distinct keys, every entry is what `get` reads for its key. */
  lemma {:induction false} GetEntry<K(!new), V>(e: Entries<K, V>, i: nat)
    requires Distinct(e) && i < |e|
    ensures Get(e, e[i].0) == Some(e[i].1)
  {
    if i > 0 {
      DistinctSlice(e, 1, |e|);
      assert e[1..][i - 1] == e[i];
      GetEntry(e[1..], i - 1);
    }
  }

  /** With distinct keys, no entry occurs twice. */
  lemma {:induction false} DistinctOnce<K(!new), V(!new)>(e: Entries<K, V>, x: (K, V))
    requires Distinct(e)
    ensures multiset(e)[x] <= 1
  {
    if |e| > 0 {
      DistinctSlice(e, 1, |e|);
      DistinctOnce(e[1..], x);
      assert e == [e[0]] + e[1..];
      if x == e[0] {
        forall j | 0 <= j < |e[1..]| ensures e[1..][j] != x {
          assert e[1..][j] == e[j + 1];
        }
        assert x !in e[1..];
      }
    }
  }

  /** `set` of a new key appends it. */
  lemma {:induction false} PutNew<K(!new), V>(e: Entries<K, V>, k: K, v: V)
    requires !Has(e, k)
    ensures Put(e, k, v) == e + [(k, v)]
  {
    if |e| > 0 {
      assert !Has(e[1..], k) by {
        forall i | 0 <= i < |e[1..]| ensures e[1..][i].0 != k {
          assert e[1..][i] == e[i + 1];
        }
      }
      PutNew(e[1..], k, v);
      assert [e[0]] + (e[1..] + [(k, v)]) == e + [(k, v)];
    }
  }

  /** Setting a present key keeps every key where it was. */
  lemma {:induction false} PutPresentKeepsKeys<K(!new), V>(e: Entries<K, V>, k: K, v: V)
    requires Has(e, k)
    ensures |Put(e, k, v)| == |e|
    ensures forall i :: 0 <= i < |e| ==> Put(e, k, v)[i].0 == e[i].0
  {
    if e[0].0 != k {
      assert Has(e[1..], k) by {
        var j :| 0 <= j < |e| && e[j].0 == k;
        assert e[1..][j - 1] == e[j];
      }
      PutPresentKeepsKeys(e[1..], k, v);
      var r := Put(e, k, v);
      forall i | 0 < i < |e| ensures r[i].0 == e[i].0 {
        assert r[i] == Put(e[1..], k, v)[i - 1] && e[i] == e[1..][i - 1];
      }
    }
  }

  /** `set` never introduces a duplicate key. */
  lemma {:induction false} PutKeepsDistinct<K(!new), V>(e: Entries<K, V>, k: K, v: V)
    requires Distinct(e)
    ensures Distinct(Put(e, k, v))
  {
    var r := Put(e, k, v);
    if !Has(e, k) {
      PutNew(e, k, v);
      forall i, j | 0 <= i < j < |r| ensures r[i].0 != r[j].0 {
        if j == |e| {
          assert r[i] == e[i];
        } else {
          assert r[i] == e[i] && r[j] == e[j];
        }
      }
    } else {
      PutPresentKeepsKeys(e, k, v);
    }
  }

  /** A run of `set` calls, in order. */
  function PutAll<K(==), V>(e: Entries<K, V>, kvs: seq<(K, V)>): Entries<K, V> {
    if |kvs| == 0 then e
    else Put(PutAll(e, kvs[..|kvs| - 1]), kvs[|kvs| - 1].0, kvs[|kvs| - 1].1)
  }

  /** One more pair at the end of the run is one more `set`. */
  lemma PutAllSnoc<K, V>(e: Entries<K, V>, kvs: seq<(K, V)>, kv: (K, V))
    ensures PutAll(e, kvs + [kv]) == Put(PutAll(e, kvs), kv.0, kv.1)
  {
    assert (kvs + [kv])[..|kvs|] == kvs;
  }

  /** Setting the pairs of `a + b` is setting those of `a`, then those of `b`. */
  lemma {:induction false} PutAllAppend<K, V>(e: Entries<K, V>, a: seq<(K, V)>, b: seq<(K, V)>)
    ensures PutAll(e, a + b) == PutAll(PutAll(e, a), b)
  {
    if |b| == 0 {
      assert a + b == a;
    } else {
      var n := |b| - 1;
      assert (a + b)[..|a| + n] == a + b[..n];
      assert (a + b)[|a| + n] == b[n];
      PutAllAppend(e, a, b[..n]);
    }
  }

  /** A run of `set` calls keeps the keys distinct. */
  lemma {:induction false} PutAllKeepsDistinct<K(!new), V>(e: Entries<K, V>, kvs: seq<(K, V)>)
    requires Distinct(e)
    ensures Distinct(PutAll(e, kvs))
  {
    if |kvs| > 0 {
      var n := |kvs| - 1;
      PutAllKeepsDistinct(e, kvs[..n]);
      PutKeepsDistinct(PutAll(e, kvs[..n]), kvs[n].0, kvs[n].1);
    }
  }

  /** A key no pair of the run names reads as before. */
  lemma {:induction false} PutAllUntouched<K(!new), V>(e: Entries<K, V>, kvs: seq<(K, V)>, k: K)
    requires forall i :: 0 <= i < |kvs| ==> kvs[i].0 != k
    ensures Get(PutAll(e, kvs), k) == Get(e, k)
  {
    if |kvs| > 0 {
      var n := |kvs| - 1;
      assert forall i :: 0 <= i < n ==> kvs[..n][i] == kvs[i];
      PutAllUntouched(e, kvs[..n], k);
      PutGet(PutAll(e, kvs[..n]), kvs[n].0, kvs[n].1);
    }
  }

  /** A key reads as the value of the last pair of the run that names it. */
  lemma {:induction false} PutAllLast<K(!new), V>(e: Entries<K, V>, kvs: seq<(K, V)>, i: nat)
    requires i < |kvs| && forall j :: i < j < |kvs| ==> kvs[j].0 != kvs[i].0
    ensures Get(PutAll(e, kvs), kvs[i].0) == Some(kvs[i].1)
  {
    var n := |kvs| - 1;
    var k := kvs[i].0;
    if i == n {
      PutGet(PutAll(e, kvs[..n]), k, kvs[n].1);
    } else {
      assert kvs[..n][i] == kvs[i];
      assert forall j :: i < j < n ==> kvs[..n][j] == kvs[j];
      PutAllLast(e, kvs[..n], i);
      PutGet(PutAll(e, kvs[..n]), kvs[n].0, kvs[n].1);
    }
  }

  /** `map.delete(k)`: every entry with key `k` goes, the rest keep their order. */
  function Remove<K(==,!new), V(!new)>(e: Entries<K, V>, k: K): (r: Entries<K, V>)
    ensures !Has(r, k)
    ensures forall x :: x in r <==> x in e && x.0 != k
    ensures |r| <= |e|
  {
    if |e| == 0 then []
    else if e[0].0 == k then Remove(e[1..], k)
    else [e[0]] + Remove(e[1..], k)
  }

  /** `delete` keeps the remaining keys distinct. */
  lemma {:induction false} RemoveKeepsDistinct<K(!new), V(!new)>(e: Entries<K, V>, k: K)
    requires Distinct(e)
    ensures Distinct(Remove(e, k))
  {
    if |e| > 0 {
      DistinctSlice(e, 1, |e|);
      RemoveKeepsDistinct(e[1..], k);
      if e[0].0 != k {
        var rest := Remove(e[1..], k);
        forall j | 0 <= j < |rest| ensures rest[j].0 != e[0].0 {
          assert rest[j] in e[1..];
          var m :| 0 <= m < |e[1..]| && e[1..][m] == rest[j];
          assert e[m + 1] == rest[j];
        }
        assert forall j :: 0 < j < |rest| + 1 ==> ([e[0]] + rest)[j] == rest[j - 1];
      }
    }
  }

  /** After `delete(k)`, `get(k)` is undefined and every other key reads as before. */
  lemma {:induction false} RemoveGet<K(!new), V(!new)>(e: Entries<K, V>, k: K)
    requires Distinct(e)
    ensures Get(Remove(e, k), k).None?
    ensures forall q :: q != k ==> Get(Remove(e, k), q) == Get(e, q)
  {
    RemoveKeepsDistinct(e, k);
    forall q | q != k
      ensures Get(Remove(e, k), q) == Get(e, q)
    {
      var g := Get(e, q);
      if g.Some? {
        assert (q, g.value) in Remove(e, k);
        var i :| 0 <= i < |Remove(e, k)| && Remove(e, k)[i] == (q, g.value);
        GetEntry(Remove(e, k), i);
      }
      var h := Get(Remove(e, k), q);
      if h.Some? {
        assert (q, h.value) in e;
        var i :| 0 <= i < |e| && e[i] == (q, h.value);
        GetEntry(e, i);
      }
    }
  }

  /** Deleting an absent key changes nothing. */
  lemma {:induction false} RemoveAbsent<K(!new), V(!new)>(e: Entries<K, V>, k: K)
    requires !Has(e, k)
    ensures Remove(e, k) == e
  {
    if |e| > 0 {
      assert !Has(e[1..], k) by {
        forall i | 0 <= i < |e[1..]| ensures e[1..][i].0 != k {
          assert e[1..][i] == e[i + 1];
        }
      }
      RemoveAbsent(e[1..], k);
      assert [e[0]] + e[1..] == e;
    }
  }

  /** Deleting from a concatenation deletes from each part. */
  lemma {:induction false} RemoveAppend<K(!new), V(!new)>(a: Entries<K, V>, b: Entries<K, V>, k: K)
    ensures Remove(a + b, k) == Remove(a, k) + Remove(b, k)
  {
    if |a| > 0 {
      assert (a + b)[0] == a[0] && (a + b)[1..] == a[1..] + b;
      RemoveAppend(a[1..], b, k);
      var ra, rb := Remove(a[1..], k), Remove(b, k);
      if a[0].0 != k {
        assert [a[0]] + (ra + rb) == ([a[0]] + ra) + rb;
      }
    } else {
      assert a + b == b;
    }
  }

  /** A slice holds a key only if some entry in that range has it. */
  lemma NotInSlice<K, V>(e: Entries<K, V>, k: K, lo: nat, hi: nat)
    requires lo <= hi <= |e|
    requires forall j :: lo <= j < hi ==> e[j].0 != k
    ensures !Has(e[lo..hi], k)
  {
    forall j | 0 <= j < hi - lo ensures e[lo..hi][j].0 != k {
      assert e[lo..hi][j] == e[lo + j];
    }
  }

  /** Deleting the first key of a map with distinct keys removes exactly the first entry. */
  lemma RemoveFirst<K(!new), V(!new)>(e: Entries<K, V>)
    requires Distinct(e) && |e| > 0
    ensures Remove(e, e[0].0) == e[1..]
  {
    NotInSlice(e, e[0].0, 1, |e|);
    assert e[1..|e|] == e[1..];
    RemoveAbsent(e[1..], e[0].0);
  }

  /** A sub-sequence of entries with distinct keys has distinct keys. */
  lemma DistinctSlice<K, V>(e: Entries<K, V>, i: nat, j: nat)
    requires Distinct(e) && i <= j <= |e|
    ensures Distinct(e[i..j])
  {
    forall a, b | 0 <= a < b < j - i ensures e[i..j][a].0 != e[i..j][b].0 {
      assert e[i..j][a] == e[i + a] && e[i..j][b] == e[i + b];
    }
  }
}
