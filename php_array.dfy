/**
 * PHP's ordered array, as the application uses it: a list of key/value
 * entries in insertion order in which every key occurs once. Covers
 * `$a[$k] = $v`, reading `$a[$k]`, the copying `foreach ... $a[$k] = $v`
 * loop, and `ksort` on integer keys.
 */
module PhpArray {
  import opened Wrappers

  type Entries<K, V> = seq<(K, V)>

  /** Every key occurs at most once: what makes a list of entries a PHP array. */
  ghost predicate DistinctKeys<K, V>(a: Entries<K, V>) {
    forall i, j :: 0 <= i < j < |a| ==> a[i].0 != a[j].0
  }

  /** `$a[$k]`: the value stored under `k`, `None` when the key is absent. */
  function Get<K(==,!new), V>(a: Entries<K, V>, k: K): (r: Option<V>)
    ensures r.Some? <==> exists i :: 0 <= i < |a| && a[i].0 == k
    ensures r.Some? ==> exists i :: 0 <= i < |a| && a[i] == (k, r.value)
  {
    if a == [] then None
    else if a[0].0 == k then Some(a[0].1)
    else
      var r := Get(a[1..], k);
      assert r.Some? ==> exists i :: 0 <= i < |a[1..]| && a[1..][i] == (k, r.value);
      r
  }

  /** The values in array order, as `call_user_func_array` passes them. */
  function Values<K, V>(a: Entries<K, V>): (r: seq<V>)
    ensures |r| == |a|
    ensures forall i :: 0 <= i < |a| ==> r[i] == a[i].1
  {
    seq(|a|, i requires 0 <= i < |a| => a[i].1)
  }

  /** In an array with distinct keys, each entry is what `Get` finds under its key. */
  lemma {:induction false} GetEntry<K(!new), V>(a: Entries<K, V>, i: int)
    requires DistinctKeys(a) && 0 <= i < |a|
    ensures Get(a, a[i].0) == Some(a[i].1)
  {
    if i > 0 {
      GetEntry(a[1..], i - 1);
    }
  }

  /** `$a[$k] = $v`: `k` holds `v` afterwards, and every other key keeps its value. */
  function Put<K(==,!new), V>(a: Entries<K, V>, k: K, v: V): (r: Entries<K, V>)
    ensures Get(r, k) == Some(v)
    ensures forall k' :: k' != k ==> Get(r, k') == Get(a, k')
  {
    if a == [] then [(k, v)]
    else if a[0].0 == k then [(k, v)] + a[1..]
    else [a[0]] + Put(a[1..], k, v)
  }

  /** Assigning to a key the array does not hold appends a new entry at its end. */
  lemma {:induction false} PutFresh<K(!new), V>(a: Entries<K, V>, k: K, v: V)
    requires Get(a, k).None?
    ensures Put(a, k, v) == a + [(k, v)]
  {
    if a != [] {
      PutFresh(a[1..], k, v);
      assert a == [a[0]] + a[1..];
    }
  }

  /** Assigning to a key the array holds replaces the value in place: the length is unchanged. */
  lemma {:induction false} PutPresent<K(!new), V>(a: Entries<K, V>, k: K, v: V)
    requires Get(a, k).Some?
    ensures |Put(a, k, v)| == |a|
    ensures forall i :: 0 <= i < |a| ==> Put(a, k, v)[i].0 == a[i].0
  {
    if a != [] && a[0].0 != k {
      PutPresent(a[1..], k, v);
    }
  }

  /** An array with a new head key in front of an array with distinct keys has distinct keys. */
  lemma DistinctCons<K, V>(h: (K, V), rest: Entries<K, V>)
    requires DistinctKeys(rest)
    requires forall j :: 0 <= j < |rest| ==> rest[j].0 != h.0
    ensures DistinctKeys([h] + rest)
  {
  }

  /** Assigning to the head key keeps every key at its position. */
  lemma PutHeadKeys<K(!new), V>(a: Entries<K, V>, k: K, v: V)
    requires a != [] && a[0].0 == k
    ensures |Put(a, k, v)| == |a|
    ensures forall i :: 0 <= i < |a| ==> Put(a, k, v)[i].0 == a[i].0
  {
  }

  /** Assignment keeps the keys of an array distinct. */
  lemma {:induction false} PutDistinct<K(!new), V>(a: Entries<K, V>, k: K, v: V)
    ensures DistinctKeys(a) ==> DistinctKeys(Put(a, k, v))
  {
    if a != [] && DistinctKeys(a) {
      if a[0].0 == k {
        PutHeadKeys(a, k, v);
      } else {
        var rest := Put(a[1..], k, v);
        PutDistinct(a[1..], k, v);
        forall j | 0 <= j < |rest| ensures rest[j].0 != a[0].0 {
          GetEntry(rest, j);
          if rest[j].0 != k {
            assert Get(a[1..], rest[j].0).Some?;
          }
        }
        DistinctCons(a[0], rest);
      }
    }
  }

  /** The copying loop `foreach ($es as $k => $v) { $a[$k] = $v; }`, entry by entry. */
  function PutAll<K(==,!new), V>(a: Entries<K, V>, es: Entries<K, V>): (r: Entries<K, V>)
    ensures DistinctKeys(a) ==> DistinctKeys(r)
  {
    if es == [] then a
    else
      var last := es[|es| - 1];
      PutDistinct(PutAll(a, es[..|es| - 1]), last.0, last.1);
      Put(PutAll(a, es[..|es| - 1]), last.0, last.1)
  }

  /** The copying loop itself, entry by entry in array order. */
  method CopyInto<K(==,!new), V>(a: Entries<K, V>, es: Entries<K, V>) returns (r: Entries<K, V>)
    ensures r == PutAll(a, es)
  {
    r := a;
    for i := 0 to |es|
      invariant r == PutAll(a, es[..i])
    {
      assert es[..i + 1][..i] == es[..i];
      r := Put(r, es[i].0, es[i].1);
    }
    assert es[..|es|] == es;
  }

  /** Looking up in an array with one more entry at its end. */
  lemma {:induction false} GetSnoc<K(!new), V>(a: Entries<K, V>, e: (K, V), k: K)
    ensures Get(a + [e], k) == if Get(a, k).Some? then Get(a, k) else if e.0 == k then Some(e.1) else None
  {
    if a != [] {
      assert (a + [e])[1..] == a[1..] + [e];
      GetSnoc(a[1..], e, k);
    }
  }

  /** After the copying loop a key holds the copied value, or its old value when it was not copied. */
  lemma {:induction false} GetPutAll<K(!new), V>(a: Entries<K, V>, es: Entries<K, V>, k: K)
    requires DistinctKeys(es)
    ensures Get(PutAll(a, es), k) == if Get(es, k).Some? then Get(es, k) else Get(a, k)
  {
    if es != [] {
      var init, last := es[..|es| - 1], es[|es| - 1];
      assert es == init + [last];
      GetPutAll(a, init, k);
      GetSnoc(init, last, k);
    }
  }

  /** Looking up in two arrays laid end to end: the first one wins. */
  lemma {:induction false} GetAppend<K(!new), V>(a: Entries<K, V>, b: Entries<K, V>, k: K)
    ensures Get(a + b, k) == if Get(a, k).Some? then Get(a, k) else Get(b, k)
  {
    if a == [] {
      assert a + b == b;
    } else {
      assert (a + b)[1..] == a[1..] + b;
      GetAppend(a[1..], b, k);
    }
  }

  /** `GetAppend` for every key at once. */
  lemma GetAppendAll<K(!new), V>(a: Entries<K, V>, b: Entries<K, V>)
    ensures forall k :: Get(a + b, k) == if Get(a, k).Some? then Get(a, k) else Get(b, k)
  {
    forall k {
      GetAppend(a, b, k);
    }
  }

  /** Copying entries whose keys are all new appends them in order. */
  lemma {:induction false} PutAllFresh<K(!new), V>(a: Entries<K, V>, es: Entries<K, V>)
    requires DistinctKeys(a + es)
    ensures PutAll(a, es) == a + es
  {
    if es != [] {
      var init, last := es[..|es| - 1], es[|es| - 1];
      assert a + es == (a + init) + [last];
      assert forall i :: 0 <= i < |a + init| ==> (a + init)[i] == (a + es)[i];
      PutAllFresh(a, init);
      assert Get(a + init, last.0).None? by {
        assert forall i :: 0 <= i < |a + init| ==> (a + init)[i].0 != (a + es)[|a + es| - 1].0;
      }
      PutFresh(a + init, last.0, last.1);
    }
  }

  /** Keys strictly ascending: the order `ksort` leaves an integer-keyed array in. */
  ghost predicate StrictlyAscending<V>(a: Entries<int, V>) {
    forall i, j :: 0 <= i < j < |a| ==> a[i].0 < a[j].0
  }

  /** Inserts an entry with a new key into an ascending array, keeping it ascending. */
  function Insert<V>(a: Entries<int, V>, e: (int, V)): (r: Entries<int, V>)
    requires StrictlyAscending(a) && Get(a, e.0).None?
    ensures StrictlyAscending(r) && |r| == |a| + 1
    ensures r[0] == if a == [] || e.0 < a[0].0 then e else a[0]
    ensures forall k :: Get(r, k) == if k == e.0 then Some(e.1) else Get(a, k)
  {
    if a == [] then [e]
    else if e.0 < a[0].0 then [e] + a
    else [a[0]] + Insert(a[1..], e)
  }

  /** `ksort`: the same key/value pairs, ordered by ascending key. */
  function KSort<V>(a: Entries<int, V>): (r: Entries<int, V>)
    requires DistinctKeys(a)
    ensures StrictlyAscending(r) && |r| == |a|
    ensures forall k :: Get(r, k) == Get(a, k)
  {
    if a == [] then []
    else Insert(KSort(a[1..]), a[0])
  }
}
