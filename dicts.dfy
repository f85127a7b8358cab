/** Insertion-ordered dictionaries, as Python 3 dicts behave: a lookup finds
    the first entry with the key, an assignment to a present key overwrites its
    value where it stands, and an assignment to an absent key appends. */
module Dicts {

  datatype Option<T> = None | Some(value: T)

  type Dict<K, V> = seq<(K, V)>

  /** The keys, in insertion order. */
  function Keys<K, V>(d: Dict<K, V>): (ks: seq<K>)
    ensures |ks| == |d|
  {
    if |d| == 0 then [] else [d[0].0] + Keys(d[1..])
  }

  lemma {:induction false} KeysAt<K, V>(d: Dict<K, V>, i: nat)
    requires i < |d|
    ensures Keys(d)[i] == d[i].0
  {
    if i > 0 {
      KeysAt(d[1..], i - 1);
    }
  }

  lemma {:induction false} KeysAppend<K, V>(d: Dict<K, V>, e: Dict<K, V>)
    ensures Keys(d + e) == Keys(d) + Keys(e)
  {
    if |d| == 0 {
      assert d + e == e;
    } else {
      assert (d + e)[1..] == d[1..] + e;
      KeysAppend(d[1..], e);
    }
  }

  predicate HasKey<K(==), V>(d: Dict<K, V>, k: K)
  {
    k in Keys(d)
  }

  /** No key occurs twice, as in every Python dict. */
  predicate UniqueKeys<K(==), V>(d: Dict<K, V>)
  {
    |d| == 0 || (!HasKey(d[1..], d[0].0) && UniqueKeys(d[1..]))
  }

  /** Dropping the last entry of a dictionary keeps its keys distinct, and
      the dropped key occurs nowhere else. */
  lemma {:induction false} UniqueInit<K, V>(d: Dict<K, V>)
    requires |d| > 0 && UniqueKeys(d)
    ensures UniqueKeys(d[..|d| - 1]) && !HasKey(d[..|d| - 1], d[|d| - 1].0)
  {
    if |d| > 1 {
      UniqueInit(d[1..]);
      assert d[1..][..|d| - 2] == d[..|d| - 1][1..];
      assert Keys(d[..|d| - 1]) == [d[0].0] + Keys(d[1..][..|d| - 2]);
      assert Keys(d[1..]) == Keys(d[1..][..|d| - 2]) + [d[|d| - 1].0] by {
        KeysAppend(d[1..][..|d| - 2], [d[|d| - 1]]);
        assert d[1..] == d[1..][..|d| - 2] + [d[|d| - 1]];
      }
    }
  }

  /** `d.get(k)`: the value of the first entry whose key is `k`. */
  function Get<K(==), V>(d: Dict<K, V>, k: K): (r: Option<V>)
    ensures r.None? <==> !HasKey(d, k)
  {
    if |d| == 0 then None
    else if d[0].0 == k then Some(d[0].1)
    else Get(d[1..], k)
  }

  /** `d.get(k, default)`. */
  function GetOr<K(==), V>(d: Dict<K, V>, k: K, default: V): V
  {
    match Get(d, k)
    case Some(v) => v
    case None => default
  }

  lemma {:induction false} GetFound<K, V>(d: Dict<K, V>, k: K)
    requires HasKey(d, k)
    ensures Get(d, k).Some? && (k, Get(d, k).value) in d
  {
    if d[0].0 != k {
      GetFound(d[1..], k);
    }
  }

  lemma {:induction false} GetAppend<K, V>(d: Dict<K, V>, e: Dict<K, V>, k: K)
    ensures Get(d + e, k) == if HasKey(d, k) then Get(d, k) else Get(e, k)
  {
    if |d| == 0 {
      assert d + e == e;
    } else {
      assert (d + e)[1..] == d[1..] + e;
      GetAppend(d[1..], e, k);
    }
  }

  /** `d[k] = v`: overwrite the first entry with key `k` in place, or append. */
  function Put<K(==), V>(d: Dict<K, V>, k: K, v: V): (r: Dict<K, V>)
    ensures Get(r, k) == Some(v)
    ensures HasKey(d, k) ==> Keys(r) == Keys(d)
    ensures !HasKey(d, k) ==> r == d + [(k, v)]
  {
    if |d| == 0 then [(k, v)]
    else if d[0].0 == k then [(k, v)] + d[1..]
    else
      assert (d + [(k, v)])[1..] == d[1..] + [(k, v)];
      [d[0]] + Put(d[1..], k, v)
  }

  lemma {:induction false} PutOther<K, V>(d: Dict<K, V>, k: K, v: V, k': K)
    requires k' != k
    ensures Get(Put(d, k, v), k') == Get(d, k')
  {
    if |d| > 0 && d[0].0 != k {
      PutOther(d[1..], k, v, k');
    }
  }

  lemma PutHasKey<K, V>(d: Dict<K, V>, k: K, v: V, k': K)
    ensures HasKey(Put(d, k, v), k') <==> k' == k || HasKey(d, k')
  {
    if k' != k {
      PutOther(d, k, v, k');
    }
  }

  /** Every entry after the write is the new one or an entry from before. */
  lemma {:induction false} PutEntries<K, V>(d: Dict<K, V>, k: K, v: V, i: nat)
    requires i < |Put(d, k, v)|
    ensures Put(d, k, v)[i] == (k, v) || Put(d, k, v)[i] in d
  {
    if |d| > 0 && d[0].0 != k && i > 0 {
      PutEntries(d[1..], k, v, i - 1);
      assert Put(d, k, v)[i] == Put(d[1..], k, v)[i - 1];
    }
  }

  lemma {:induction false} PutUnique<K, V>(d: Dict<K, V>, k: K, v: V)
    requires UniqueKeys(d)
    ensures UniqueKeys(Put(d, k, v))
  {
    if |d| == 0 {
    } else if d[0].0 == k {
      assert Put(d, k, v)[1..] == d[1..];
    } else {
      PutUnique(d[1..], k, v);
      PutHasKey(d[1..], k, v, d[0].0);
      assert Put(d, k, v)[1..] == Put(d[1..], k, v);
    }
  }

  /** The values of a dictionary of integers, added up. */
  function SumValues<K>(d: Dict<K, int>): int
  {
    if |d| == 0 then 0 else d[0].1 + SumValues(d[1..])
  }

  /** Overwriting the value of `k` changes the sum by the difference with the
      first value `k` had (or adds the whole new value if `k` was absent). */
  lemma {:induction false} SumAfterPut<K>(d: Dict<K, int>, k: K, v: int)
    ensures SumValues(Put(d, k, v)) == SumValues(d) - GetOr(d, k, 0) + v
  {
    if |d| == 0 {
    } else if d[0].0 == k {
      assert Put(d, k, v)[1..] == d[1..];
    } else {
      SumAfterPut(d[1..], k, v);
      assert Put(d, k, v)[1..] == Put(d[1..], k, v);
    }
  }

  /** `d[k] += n` on a `defaultdict(int)`; the total grows by exactly `n`. */
  function Add<K(==)>(d: Dict<K, int>, k: K, n: int): (r: Dict<K, int>)
    ensures SumValues(r) == SumValues(d) + n
    ensures Get(r, k) == Some(GetOr(d, k, 0) + n)
  {
    SumAfterPut(d, k, GetOr(d, k, 0) + n);
    Put(d, k, GetOr(d, k, 0) + n)
  }

  /** `d.update(e)`: assign the entries of `e` one after the other. */
  function Update<K(==), V>(d: Dict<K, V>, e: Dict<K, V>): (r: Dict<K, V>)
    decreases |e|
  {
    if |e| == 0 then d else Update(Put(d, e[0].0, e[0].1), e[1..])
  }

  lemma {:induction false} UpdateHasKey<K, V>(d: Dict<K, V>, e: Dict<K, V>, k: K)
    ensures HasKey(Update(d, e), k) <==> HasKey(d, k) || HasKey(e, k)
    decreases |e|
  {
    if |e| > 0 {
      UpdateHasKey(Put(d, e[0].0, e[0].1), e[1..], k);
      PutHasKey(d, e[0].0, e[0].1, k);
    }
  }

  lemma {:induction false} UpdateUnique<K, V>(d: Dict<K, V>, e: Dict<K, V>)
    requires UniqueKeys(d)
    ensures UniqueKeys(Update(d, e))
    decreases |e|
  {
    if |e| > 0 {
      PutUnique(d, e[0].0, e[0].1);
      UpdateUnique(Put(d, e[0].0, e[0].1), e[1..]);
    }
  }

  /** With distinct keys in `e`, a key of `e` ends up with its value in `e`;
      other keys keep their value in `d`. */
  lemma {:induction false} UpdateGet<K, V>(d: Dict<K, V>, e: Dict<K, V>, k: K)
    requires UniqueKeys(e)
    ensures Get(Update(d, e), k) == if HasKey(e, k) then Get(e, k) else Get(d, k)
    decreases |e|
  {
    if |e| > 0 {
      UpdateGet(Put(d, e[0].0, e[0].1), e[1..], k);
      if k != e[0].0 {
        PutOther(d, e[0].0, e[0].1, k);
      }
    }
  }
}
