/** Row sorting for the report tables: rows are ordered by a composite key
    of string and integer columns, compared column by column, and rows with
    equal keys keep their original order (the multi-column `sort_values`
    and Python's `sorted`). */
module RowSort {
  import opened Strs

  /** One column of a sort key. */
  datatype Atom = AInt(i: int) | AStr(s: string)

  /** Integers sort before strings; only keys of one shape occur. */
  predicate AtomLess(a: Atom, b: Atom)
  {
    match (a, b)
    case (AInt(x), AInt(y)) => x < y
    case (AStr(x), AStr(y)) => StrLess(x, y)
    case (AInt(_), AStr(_)) => true
    case (AStr(_), AInt(_)) => false
  }

  /** Column-by-column comparison; a shorter key that is a prefix of a
      longer one sorts first. */
  predicate KeyLess(a: seq<Atom>, b: seq<Atom>)
  {
    if |b| == 0 then false
    else if |a| == 0 then true
    else if a[0] != b[0] then AtomLess(a[0], b[0])
    else KeyLess(a[1..], b[1..])
  }

  lemma AtomLessTransitive(a: Atom, b: Atom, c: Atom)
    requires AtomLess(a, b) && AtomLess(b, c)
    ensures AtomLess(a, c)
  {
    if a.AStr? && b.AStr? && c.AStr? {
      StrLessTransitive(a.s, b.s, c.s);
    }
  }

  lemma AtomLessIrreflexive(a: Atom)
    ensures !AtomLess(a, a)
  {
    if a.AStr? {
      StrLessIrreflexive(a.s);
    }
  }

  lemma AtomLessTotal(a: Atom, b: Atom)
    ensures a == b || AtomLess(a, b) || AtomLess(b, a)
  {
    if a.AStr? && b.AStr? {
      StrLessTotal(a.s, b.s);
    }
  }

  lemma {:induction false} KeyLessTransitive(a: seq<Atom>, b: seq<Atom>, c: seq<Atom>)
    requires KeyLess(a, b) && KeyLess(b, c)
    ensures KeyLess(a, c)
  {
    if |a| > 0 {
      if a[0] == b[0] && b[0] == c[0] {
        KeyLessTransitive(a[1..], b[1..], c[1..]);
      } else if a[0] != b[0] && b[0] != c[0] {
        AtomLessTransitive(a[0], b[0], c[0]);
        AtomLessIrreflexive(a[0]);
      }
    }
  }

  lemma {:induction false} KeyLessIrreflexive(a: seq<Atom>)
    ensures !KeyLess(a, a)
  {
    if |a| > 0 {
      KeyLessIrreflexive(a[1..]);
    }
  }

  lemma {:induction false} KeyLessTotal(a: seq<Atom>, b: seq<Atom>)
    ensures a == b || KeyLess(a, b) || KeyLess(b, a)
  {
    if |a| > 0 && |b| > 0 {
      if a[0] == b[0] {
        KeyLessTotal(a[1..], b[1..]);
        if a[1..] == b[1..] {
          assert a == [a[0]] + a[1..] && b == [b[0]] + b[1..];
        }
      } else {
        AtomLessTotal(a[0], b[0]);
      }
    }
  }

  /** No later row has a smaller key than an earlier one. */
  ghost predicate SortedBy<T>(xs: seq<T>, key: T -> seq<Atom>)
  {
    forall i, j :: 0 <= i < j < |xs| ==> !KeyLess(key(xs[j]), key(xs[i]))
  }

  /** Inserts `x` after every row whose key is not larger. */
  function Insert<T>(x: T, ys: seq<T>, key: T -> seq<Atom>): (r: seq<T>)
    ensures multiset(r) == multiset(ys) + multiset{x}
    ensures |r| == |ys| + 1
  {
    if |ys| == 0 then [x]
    else if KeyLess(key(x), key(ys[0])) then [x] + ys
    else
      assert ys == [ys[0]] + ys[1..];
      [ys[0]] + Insert(x, ys[1..], key)
  }

  /** The rows in key order; equal keys keep their input order. */
  function SortBy<T>(xs: seq<T>, key: T -> seq<Atom>): (r: seq<T>)
    ensures multiset(r) == multiset(xs)
    ensures |r| == |xs|
  {
    if |xs| == 0 then []
    else
      assert xs == xs[..|xs| - 1] + [xs[|xs| - 1]];
      Insert(xs[|xs| - 1], SortBy(xs[..|xs| - 1], key), key)
  }

  /** A lower bound of `x` and of every row bounds the result too. */
  lemma {:induction false} InsertLowerBound<T>(x: T, ys: seq<T>, key: T -> seq<Atom>, b: seq<Atom>)
    requires !KeyLess(key(x), b)
    requires forall i :: 0 <= i < |ys| ==> !KeyLess(key(ys[i]), b)
    ensures forall j :: 0 <= j < |Insert(x, ys, key)| ==> !KeyLess(key(Insert(x, ys, key)[j]), b)
  {
    if |ys| > 0 && !KeyLess(key(x), key(ys[0])) {
      var tail := ys[1..];
      forall i | 0 <= i < |tail|
        ensures !KeyLess(key(tail[i]), b)
      {
        assert tail[i] == ys[i + 1];
      }
      InsertLowerBound(x, tail, key, b);
    }
  }

  lemma InsertSortedFront<T>(x: T, ys: seq<T>, key: T -> seq<Atom>)
    requires SortedBy(ys, key) && |ys| > 0 && KeyLess(key(x), key(ys[0]))
    ensures SortedBy([x] + ys, key)
  {
    var r := [x] + ys;
    forall i, j | 0 <= i < j < |r|
      ensures !KeyLess(key(r[j]), key(r[i]))
    {
      if i == 0 {
        assert r[j] == ys[j - 1];
        if j > 1 {
          assert !KeyLess(key(ys[j - 1]), key(ys[0]));
        }
        KeyLessIrreflexive(key(ys[0]));
        if KeyLess(key(r[j]), key(x)) {
          KeyLessTransitive(key(r[j]), key(x), key(ys[0]));
        }
      } else {
        assert r[i] == ys[i - 1] && r[j] == ys[j - 1];
      }
    }
  }

  lemma {:induction false} InsertSorted<T>(x: T, ys: seq<T>, key: T -> seq<Atom>)
    requires SortedBy(ys, key)
    ensures SortedBy(Insert(x, ys, key), key)
  {
    if |ys| == 0 {
    } else if KeyLess(key(x), key(ys[0])) {
      InsertSortedFront(x, ys, key);
    } else {
      var tail := ys[1..];
      forall i, j | 0 <= i < j < |tail|
        ensures !KeyLess(key(tail[j]), key(tail[i]))
      {
        assert tail[i] == ys[i + 1] && tail[j] == ys[j + 1];
      }
      forall i | 0 <= i < |tail|
        ensures !KeyLess(key(tail[i]), key(ys[0]))
      {
        assert tail[i] == ys[i + 1];
      }
      InsertSorted(x, tail, key);
      InsertLowerBound(x, tail, key, key(ys[0]));
      var rest := Insert(x, tail, key);
      var r := [ys[0]] + rest;
      forall i, j | 0 <= i < j < |r|
        ensures !KeyLess(key(r[j]), key(r[i]))
      {
        assert r[j] == rest[j - 1];
        if i > 0 {
          assert r[i] == rest[i - 1];
        }
      }
    }
  }

  /** The sort orders the rows. */
  lemma {:induction false} SortBySorted<T>(xs: seq<T>, key: T -> seq<Atom>)
    ensures SortedBy(SortBy(xs, key), key)
  {
    if |xs| > 0 {
      SortBySorted(xs[..|xs| - 1], key);
      InsertSorted(xs[|xs| - 1], SortBy(xs[..|xs| - 1], key), key);
    }
  }

  /** Rows that are already in order are left as they are. */
  lemma {:induction false} SortBySortedInput<T>(xs: seq<T>, key: T -> seq<Atom>)
    requires SortedBy(xs, key)
    ensures SortBy(xs, key) == xs
  {
    if |xs| > 0 {
      var init := xs[..|xs| - 1];
      SortedInit(xs, key);
      SortBySortedInput(init, key);
      InsertAtEnd(xs[|xs| - 1], init, key);
    }
  }

  /** Dropping the last of sorted rows leaves them sorted, and no earlier
      row has a larger key than the last. */
  lemma SortedInit<T>(xs: seq<T>, key: T -> seq<Atom>)
    requires SortedBy(xs, key) && |xs| > 0
    ensures SortedBy(xs[..|xs| - 1], key)
    ensures forall i :: 0 <= i < |xs| - 1 ==> !KeyLess(key(xs[|xs| - 1]), key(xs[i]))
  {
    var init := xs[..|xs| - 1];
    forall i, j | 0 <= i < j < |init|
      ensures !KeyLess(key(init[j]), key(init[i]))
    {
      assert init[i] == xs[i] && init[j] == xs[j];
    }
    forall i | 0 <= i < |init|
      ensures !KeyLess(key(xs[|xs| - 1]), key(init[i]))
    {
      assert init[i] == xs[i];
    }
  }

  lemma {:induction false} InsertAtEnd<T>(x: T, ys: seq<T>, key: T -> seq<Atom>)
    requires forall i :: 0 <= i < |ys| ==> !KeyLess(key(x), key(ys[i]))
    ensures Insert(x, ys, key) == ys + [x]
  {
    if |ys| > 0 {
      var tail := ys[1..];
      forall i | 0 <= i < |tail|
        ensures !KeyLess(key(x), key(tail[i]))
      {
        assert tail[i] == ys[i + 1];
      }
      InsertAtEnd(x, tail, key);
      assert ys == [ys[0]] + tail;
    }
  }

  /** The rows whose key is `k`, in their order. */
  function WithKey<T>(xs: seq<T>, key: T -> seq<Atom>, k: seq<Atom>): (r: seq<T>)
    ensures |r| <= |xs|
  {
    if |xs| == 0 then []
    else (if key(xs[0]) == k then [xs[0]] else []) + WithKey(xs[1..], key, k)
  }

  /** The row `x` if its key is `k`, else nothing. */
  function Keyed<T>(x: T, key: T -> seq<Atom>, k: seq<Atom>): seq<T>
  {
    if key(x) == k then [x] else []
  }

  lemma WithKeyCons<T>(y: T, ys: seq<T>, key: T -> seq<Atom>, k: seq<Atom>)
    ensures WithKey([y] + ys, key, k) == Keyed(y, key, k) + WithKey(ys, key, k)
  {
    assert ([y] + ys)[0] == y;
    assert ([y] + ys)[1..] == ys;
  }

  lemma {:induction false} WithKeyAppend<T>(a: seq<T>, b: seq<T>, key: T -> seq<Atom>, k: seq<Atom>)
    ensures WithKey(a + b, key, k) == WithKey(a, key, k) + WithKey(b, key, k)
  {
    if |a| == 0 {
      assert a + b == b;
    } else {
      var tail := a[1..];
      assert a == [a[0]] + tail;
      assert a + b == [a[0]] + (tail + b);
      WithKeyCons(a[0], tail + b, key, k);
      WithKeyCons(a[0], tail, key, k);
      WithKeyAppend(tail, b, key, k);
    }
  }

  lemma WithKeySnoc<T>(xs: seq<T>, x: T, key: T -> seq<Atom>, k: seq<Atom>)
    ensures WithKey(xs + [x], key, k) == WithKey(xs, key, k) + Keyed(x, key, k)
  {
    WithKeyAppend(xs, [x], key, k);
    assert [x] == [x] + [];
    WithKeyCons(x, [], key, k);
  }

  /** No row of `ys` has key `k` when every key of `ys` is larger than `k`. */
  lemma {:induction false} WithKeyAbove<T>(ys: seq<T>, key: T -> seq<Atom>, k: seq<Atom>)
    requires forall i :: 0 <= i < |ys| ==> KeyLess(k, key(ys[i]))
    ensures WithKey(ys, key, k) == []
  {
    if |ys| > 0 {
      KeyLessIrreflexive(k);
      var tail := ys[1..];
      forall i | 0 <= i < |tail|
        ensures KeyLess(k, key(tail[i]))
      {
        assert tail[i] == ys[i + 1];
      }
      WithKeyAbove(tail, key, k);
    }
  }

  /** In sorted rows, every key is at least the first one. */
  lemma SortedAboveFirst<T>(ys: seq<T>, key: T -> seq<Atom>, k: seq<Atom>)
    requires SortedBy(ys, key) && |ys| > 0 && KeyLess(k, key(ys[0]))
    ensures forall i :: 0 <= i < |ys| ==> KeyLess(k, key(ys[i]))
  {
    forall i | 0 < i < |ys|
      ensures KeyLess(k, key(ys[i]))
    {
      KeyLessTotal(key(ys[i]), key(ys[0]));
      if key(ys[i]) != key(ys[0]) {
        KeyLessTransitive(k, key(ys[0]), key(ys[i]));
      }
    }
  }

  /** `x` goes in front of sorted rows whose keys are all larger. */
  lemma InsertWithKeyFront<T>(x: T, ys: seq<T>, key: T -> seq<Atom>, k: seq<Atom>)
    requires SortedBy(ys, key) && |ys| > 0 && KeyLess(key(x), key(ys[0]))
    ensures WithKey([x] + ys, key, k) == WithKey(ys, key, k) + Keyed(x, key, k)
  {
    WithKeyCons(x, ys, key, k);
    if key(x) == k {
      SortedAboveFirst(ys, key, k);
      WithKeyAbove(ys, key, k);
    }
  }

  /** Inserting into sorted rows places `x` after every row with its key. */
  lemma {:induction false} InsertWithKey<T>(x: T, ys: seq<T>, key: T -> seq<Atom>, k: seq<Atom>)
    requires SortedBy(ys, key)
    ensures WithKey(Insert(x, ys, key), key, k) == WithKey(ys, key, k) + Keyed(x, key, k)
  {
    if |ys| == 0 {
      WithKeyCons(x, ys, key, k);
    } else if KeyLess(key(x), key(ys[0])) {
      InsertWithKeyFront(x, ys, key, k);
    } else {
      var tail := ys[1..];
      SortedTail(ys, key);
      var rest := Insert(x, tail, key);
      assert Insert(x, ys, key) == [ys[0]] + rest;
      InsertWithKey(x, tail, key, k);
      WithKeyCons(ys[0], rest, key, k);
      assert ys == [ys[0]] + tail;
      WithKeyCons(ys[0], tail, key, k);
    }
  }

  lemma SortedTail<T>(ys: seq<T>, key: T -> seq<Atom>)
    requires SortedBy(ys, key) && |ys| > 0
    ensures SortedBy(ys[1..], key)
  {
    var tail := ys[1..];
    forall i, j | 0 <= i < j < |tail|
      ensures !KeyLess(key(tail[j]), key(tail[i]))
    {
      assert tail[i] == ys[i + 1] && tail[j] == ys[j + 1];
    }
  }

  /** The sort is stable: the rows with any one key come out in the order
      they went in. */
  lemma {:induction false} SortByStable<T>(xs: seq<T>, key: T -> seq<Atom>, k: seq<Atom>)
    ensures WithKey(SortBy(xs, key), key, k) == WithKey(xs, key, k)
  {
    if |xs| > 0 {
      var init, last := xs[..|xs| - 1], xs[|xs| - 1];
      var sorted := SortBy(init, key);
      assert xs == init + [last];
      SortBySorted(init, key);
      calc {
        WithKey(SortBy(xs, key), key, k);
        WithKey(Insert(last, sorted, key), key, k);
        { InsertWithKey(last, sorted, key, k); }
        WithKey(sorted, key, k) + Keyed(last, key, k);
        { SortByStable(init, key, k); }
        WithKey(init, key, k) + Keyed(last, key, k);
        { WithKeySnoc(init, last, key, k); }
        WithKey(init + [last], key, k);
      }
    }
  }

}
