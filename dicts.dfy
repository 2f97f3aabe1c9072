/** Insertion-ordered dictionaries with string keys, as Python keeps them:
    a list of entries whose keys are distinct.  Assigning to a present key
    replaces its value where it stands; a new key goes to the end. */
module Dicts {
  import opened Wrappers

  type Dict<V> = seq<(string, V)>

  function Keys<V>(d: Dict<V>): (ks: seq<string>)
    ensures |ks| == |d|
    ensures forall i :: 0 <= i < |d| ==> ks[i] == d[i].0
  {
    seq(|d|, i requires 0 <= i < |d| => d[i].0)
  }

  predicate DistinctKeys<V>(d: Dict<V>)
  {
    forall i, j :: 0 <= i < j < |d| ==> d[i].0 != d[j].0
  }

  /** `d.get(k)`. */
  function Get<V>(d: Dict<V>, k: string): (r: Option<V>)
    ensures r.None? <==> k !in Keys(d)
    ensures r.Some? ==> exists i :: 0 <= i < |d| && d[i] == (k, r.value)
  {
    if |d| == 0 then None
    else if d[|d| - 1].0 == k then Some(d[|d| - 1].1)
    else Get(d[..|d| - 1], k)
  }

  /** `d[k] = v`. */
  function Put<V>(d: Dict<V>, k: string, v: V): (r: Dict<V>)
    ensures k in Keys(d) ==> |r| == |d|
    ensures k !in Keys(d) ==> r == d + [(k, v)]
  {
    if k in Keys(d) then seq(|d|, i requires 0 <= i < |d| => if d[i].0 == k then (k, v) else d[i])
    else d + [(k, v)]
  }

  /** After `d[k] = v`, `k` holds `v`, every other key keeps its value, the
      keys are those of `d` plus `k`, and they stay distinct. */
  lemma PutMeaning<V>(d: Dict<V>, k: string, v: V)
    requires DistinctKeys(d)
    ensures DistinctKeys(Put(d, k, v))
    ensures Get(Put(d, k, v), k) == Some(v)
    ensures forall k' :: k' != k ==> Get(Put(d, k, v), k') == Get(d, k')
    ensures forall k' :: k' in Keys(Put(d, k, v)) <==> k' in Keys(d) || k' == k
  {
    var r := Put(d, k, v);
    forall k' | k' != k
      ensures Get(r, k') == Get(d, k')
    {
      GetUnique(d, k');
      GetUnique(r, k');
      if Get(d, k').Some? {
        var i :| 0 <= i < |d| && d[i] == (k', Get(d, k').value);
        assert r[i] == d[i];
      }
      if Get(r, k').Some? {
        var i :| 0 <= i < |r| && r[i] == (k', Get(r, k').value);
        assert d[i] == r[i];
      }
    }
    if k in Keys(d) {
      forall k' | k' in Keys(d)
        ensures k' in Keys(r)
      {
        var j :| 0 <= j < |d| && Keys(d)[j] == k';
        assert Keys(r)[j] == k';
      }
      forall k' | k' in Keys(r)
        ensures k' in Keys(d)
      {
        var j :| 0 <= j < |r| && Keys(r)[j] == k';
        assert Keys(d)[j] == k' || k' == k;
      }
    } else {
      assert Keys(r) == Keys(d) + [k];
    }
    GetUnique(r, k);
    assert k in Keys(r);
    var i :| 0 <= i < |r| && Keys(r)[i] == k;
    assert r[i] == (k, v);
  }

  /** In a dictionary with distinct keys, a present key has one entry. */
  lemma GetUnique<V>(d: Dict<V>, k: string)
    requires DistinctKeys(d)
    ensures forall i :: 0 <= i < |d| && d[i].0 == k ==> Get(d, k) == Some(d[i].1)
  {
    if |d| > 0 && d[|d| - 1].0 != k {
      GetUnique(d[..|d| - 1], k);
      forall i | 0 <= i < |d| && d[i].0 == k
        ensures Get(d, k) == Some(d[i].1)
      {
        assert d[..|d| - 1][i] == d[i];
      }
    }
  }

  /** After `d[k] = v`, the entry `(k, v)` is present and every other
      entry was already in `d`. */
  lemma PutEntries<V>(d: Dict<V>, k: string, v: V)
    ensures (k, v) in Put(d, k, v)
    ensures forall e :: e in Put(d, k, v) ==> e in d || e == (k, v)
  {
    var r := Put(d, k, v);
    if k in Keys(d) {
      var j :| 0 <= j < |d| && Keys(d)[j] == k;
      assert r[j] == (k, v);
      forall e | e in r
        ensures e in d || e == (k, v)
      {
        var i :| 0 <= i < |r| && r[i] == e;
        assert r[i] == d[i] || r[i] == (k, v);
      }
    }
  }

  /** `dict.fromkeys(keys, v)`: each distinct key once, in first-appearance
      order, all with the value `v`. */
  function FromKeys<V>(keys: seq<string>, v: V): (r: Dict<V>)
    ensures DistinctKeys(r)
    ensures forall k :: k in Keys(r) <==> k in keys
    ensures forall i :: 0 <= i < |r| ==> r[i].1 == v
  {
    if |keys| == 0 then []
    else
      var init := FromKeys(keys[..|keys| - 1], v);
      PutMeaning(init, keys[|keys| - 1], v);
      assert forall k :: k in keys <==> k in keys[..|keys| - 1] || k == keys[|keys| - 1];
      Put(init, keys[|keys| - 1], v)
  }

  /** `sum(d.values())`. */
  function Sum(d: Dict<nat>): nat
  {
    if |d| == 0 then 0 else Sum(d[..|d| - 1]) + d[|d| - 1].1
  }

  /** The values of the entries filed under `k`, added up. */
  function KeySum(d: Dict<nat>, k: string): nat
  {
    if |d| == 0 then 0 else KeySum(d[..|d| - 1], k) + (if d[|d| - 1].0 == k then d[|d| - 1].1 else 0)
  }

  lemma {:induction false} SumSnoc(d: Dict<nat>, e: (string, nat))
    ensures Sum(d + [e]) == Sum(d) + e.1
  {
    assert (d + [e])[..|d|] == d;
  }

  /** Replacing one value changes the sum by the difference. */
  lemma {:induction false} SumReplace(d: Dict<nat>, i: nat, v: nat)
    requires i < |d|
    ensures Sum(d[i := (d[i].0, v)]) + d[i].1 == Sum(d) + v
  {
    var r := d[i := (d[i].0, v)];
    if i < |d| - 1 {
      SumReplace(d[..|d| - 1], i, v);
      assert r[..|r| - 1] == d[..|d| - 1][i := (d[i].0, v)];
    } else {
      assert r[..|r| - 1] == d[..|d| - 1];
    }
  }

  /** Assigning `v` to key `k` adds `v` to the sum and takes away the value
      `k` held, if any. */
  lemma PutSum(d: Dict<nat>, k: string, v: nat)
    requires DistinctKeys(d)
    ensures Sum(Put(d, k, v)) + Get(d, k).GetOr(0) == Sum(d) + v
  {
    if k in Keys(d) {
      var i :| 0 <= i < |d| && d[i].0 == k;
      GetUnique(d, k);
      assert Put(d, k, v) == d[i := (k, v)];
      SumReplace(d, i, v);
    } else {
      SumSnoc(d, (k, v));
    }
  }

  /** Every value of a dictionary of zeros sums to zero. */
  lemma {:induction false} SumZeros(d: Dict<nat>)
    requires forall i :: 0 <= i < |d| ==> d[i].1 == 0
    ensures Sum(d) == 0
  {
    if |d| > 0 {
      SumZeros(d[..|d| - 1]);
    }
  }
}
