/** The flattener of the detailed-results sheet: a nested result object
    becomes one dictionary from dotted paths to cell text. Objects are
    descended into; a list is a leaf written as JSON text; any other value is
    a leaf written with `str`. */
module Flattener {
  import opened Dicts
  import opened Strs
  import opened JsonValue

  /** The cell text of a leaf value. */
  function LeafText(v: Json): string
  {
    if v.JList? then Dumps(v) else PyStr(v)
  }

  /** `_flatten_dict(fs, prefix)`: entries are visited in order; an object
      value merges its own flattening into the result with `update`, any
      other value is assigned under its path. */
  function Flatten(fs: Dict<string, Json>, prefix: string): Dict<string, string>
    decreases fs
  {
    if |fs| == 0 then []
    else
      var (k, v) := fs[|fs| - 1];
      assert v < JObj(fs);
      var acc := Flatten(fs[..|fs| - 1], prefix);
      var key := ChildPath(prefix, k);
      if v.JObj? then Update(acc, Flatten(v.fields, key)) else Put(acc, key, LeafText(v))
  }

  /** The paths of the leaves below `prefix`: one per non-object value
      reached through objects. An empty object has none. */
  function LeafPaths(fs: Dict<string, Json>, prefix: string): set<string>
    decreases fs
  {
    if |fs| == 0 then {}
    else
      var (k, v) := fs[|fs| - 1];
      assert v < JObj(fs);
      var key := ChildPath(prefix, k);
      LeafPaths(fs[..|fs| - 1], prefix) + if v.JObj? then LeafPaths(v.fields, key) else {key}
  }

  /** The flattened keys are exactly the leaf paths. */
  lemma {:induction false} FlattenKeys(fs: Dict<string, Json>, prefix: string, p: string)
    ensures HasKey(Flatten(fs, prefix), p) <==> p in LeafPaths(fs, prefix)
    decreases fs
  {
    if |fs| > 0 {
      var (k, v) := fs[|fs| - 1];
      assert v < JObj(fs);
      var acc := Flatten(fs[..|fs| - 1], prefix);
      var key := ChildPath(prefix, k);
      FlattenKeys(fs[..|fs| - 1], prefix, p);
      if v.JObj? {
        FlattenKeys(v.fields, key, p);
        UpdateHasKey(acc, Flatten(v.fields, key), p);
      } else {
        PutHasKey(acc, key, LeafText(v), p);
      }
    }
  }

  /** The flattening never holds a key twice. */
  lemma {:induction false} FlattenUnique(fs: Dict<string, Json>, prefix: string)
    ensures UniqueKeys(Flatten(fs, prefix))
    decreases fs
  {
    if |fs| > 0 {
      var (k, v) := fs[|fs| - 1];
      assert v < JObj(fs);
      var acc := Flatten(fs[..|fs| - 1], prefix);
      var key := ChildPath(prefix, k);
      FlattenUnique(fs[..|fs| - 1], prefix);
      if v.JObj? {
        UpdateUnique(acc, Flatten(v.fields, key));
      } else {
        PutUnique(acc, key, LeafText(v));
      }
    }
  }

  /** With a non-empty prefix every leaf path starts with `prefix + "."`. */
  lemma {:induction false} LeafPathsPrefixed(fs: Dict<string, Json>, prefix: string, p: string)
    requires |prefix| > 0 && p in LeafPaths(fs, prefix)
    ensures StartsWith(p, prefix + ".")
    decreases fs
  {
    var (k, v) := fs[|fs| - 1];
    assert v < JObj(fs);
    var key := ChildPath(prefix, k);
    assert key == (prefix + ".") + k;
    if p in LeafPaths(fs[..|fs| - 1], prefix) {
      LeafPathsPrefixed(fs[..|fs| - 1], prefix, p);
    } else if v.JObj? {
      LeafPathsPrefixed(v.fields, key, p);
      assert key + "." == (prefix + ".") + (k + ".");
      assert p[..|prefix + "."|] == (key + ".")[..|prefix + "."|];
    } else {
      assert p[..|prefix + "."|] == prefix + ".";
    }
  }

  /** Every flattened key of a result under a non-empty prefix starts with
      `prefix + "."`. */
  lemma FlattenPrefixed(fs: Dict<string, Json>, prefix: string, p: string)
    requires |prefix| > 0 && HasKey(Flatten(fs, prefix), p)
    ensures StartsWith(p, prefix + ".")
  {
    FlattenKeys(fs, prefix, p);
    LeafPathsPrefixed(fs, prefix, p);
  }

  /** Nested objects whose keys are non-empty, distinct and free of dots:
      then no two leaves share a path. */
  predicate WellKeyed(fs: Dict<string, Json>)
    decreases fs
  {
    UniqueKeys(fs)
    && forall i :: 0 <= i < |fs| ==>
         |fs[i].0| > 0 && '.' !in fs[i].0
         && (fs[i].1.JObj? ==> (assert fs[i].1 < JObj(fs); WellKeyed(fs[i].1.fields)))
  }

  lemma WellKeyedInit(fs: Dict<string, Json>)
    requires |fs| > 0 && WellKeyed(fs)
    ensures WellKeyed(fs[..|fs| - 1])
  {
    UniqueInit(fs);
    var init := fs[..|fs| - 1];
    forall i | 0 <= i < |init|
      ensures |init[i].0| > 0 && '.' !in init[i].0
      ensures init[i].1.JObj? ==> WellKeyed(init[i].1.fields)
    {
      assert init[i] == fs[i];
    }
  }

  /** The part of a path below `prefix`. */
  function Below(prefix: string): string
  {
    if |prefix| > 0 then prefix + "." else ""
  }

  lemma ChildPathBelow(prefix: string, k: string)
    ensures ChildPath(prefix, k) == Below(prefix) + k
  {
  }

  lemma WordAt(p: string, w: string)
    requires StartsWith(p, w + ".")
    ensures |p| > |w| && p[|w|] == '.' && p[..|w|] == w
  {
    assert p[..|w| + 1][|w|] == (w + ".")[|w|];
    assert p[..|w|] == p[..|w| + 1][..|w|];
  }

  /** Two words that both start a path, each followed by a dot, are the same
      word unless one of them holds a dot. */
  lemma DottedWordsAgree(q: string, k: string, k': string)
    requires StartsWith(q, k + ".") && StartsWith(q, k' + ".")
    ensures k == k' || '.' in k || '.' in k'
  {
    WordAt(q, k);
    WordAt(q, k');
    if |k| < |k'| {
      assert k'[|k|] == q[..|k'|][|k|] == q[|k|];
    } else if |k'| < |k| {
      assert k[|k'|] == q[..|k|][|k'|] == q[|k'|];
    }
  }

  /** A word that starts with another word and a dot holds a dot. */
  lemma WordNotDotted(k: string, k': string)
    ensures StartsWith(k', k + ".") ==> '.' in k'
  {
    if StartsWith(k', k + ".") {
      WordAt(k', k);
    }
  }

  lemma AppendCancel(b: string, k: string, k': string)
    ensures b + k == b + k' ==> k == k'
  {
    if b + k == b + k' {
      assert k == (b + k)[|b|..];
      assert k' == (b + k')[|b|..];
    }
  }

  lemma StripBelow(p: string, b: string, k: string)
    requires StartsWith(p, b + k + ".")
    ensures StartsWith(p, b) && StartsWith(p[|b|..], k + ".")
  {
    assert p[..|b|] == (b + k + ".")[..|b|] == b;
    assert p[|b|..][..|k + "."|] == p[|b|..|b| + |k| + 1];
    assert (b + k + ".")[|b|..] == k + ".";
  }

  lemma DistinctKeysAt(fs: Dict<string, Json>, i: nat)
    requires UniqueKeys(fs) && i < |fs| - 1
    ensures fs[i].0 != fs[|fs| - 1].0
  {
    UniqueInit(fs);
    KeysAt(fs[..|fs| - 1], i);
  }

  /** The path `t` is not a leaf path contributed by the entry `(kl, vl)`
      when it lies at or below a sibling key `k`. */
  lemma NotUnderSibling(prefix: string, k: string, kl: string, vl: Json, t: string, atKey: bool)
    requires k != kl && |k| > 0 && |kl| > 0 && '.' !in k && '.' !in kl
    requires atKey ==> t == ChildPath(prefix, k)
    requires !atKey ==> StartsWith(t, ChildPath(prefix, k) + ".")
    ensures t != ChildPath(prefix, kl)
    ensures vl.JObj? ==> t !in LeafPaths(vl.fields, ChildPath(prefix, kl))
  {
    var b := Below(prefix);
    ChildPathBelow(prefix, k);
    ChildPathBelow(prefix, kl);
    AppendCancel(b, k, kl);
    if atKey {
      if vl.JObj? && t in LeafPaths(vl.fields, b + kl) {
        LeafPathsPrefixed(vl.fields, b + kl, t);
        StripBelow(t, b, kl);
        assert t[|b|..] == k;
        WordNotDotted(kl, k);
      }
    } else {
      if t == b + kl {
        StripBelow(t, b, k);
        assert t[|b|..] == kl;
        WordNotDotted(k, kl);
      }
      if vl.JObj? && t in LeafPaths(vl.fields, b + kl) {
        LeafPathsPrefixed(vl.fields, b + kl, t);
        StripBelow(t, b, kl);
        StripBelow(t, b, k);
        DottedWordsAgree(t[|b|..], k, kl);
      }
    }
  }

  /** Flattening loses nothing for well-keyed objects: the path of a leaf
      entry holds that leaf's text, and the paths below an object entry hold
      what flattening that object alone gives. */
  lemma {:induction false} FlattenGet(fs: Dict<string, Json>, prefix: string, i: nat, p: string)
    requires WellKeyed(fs) && i < |fs|
    ensures !fs[i].1.JObj? ==>
              Get(Flatten(fs, prefix), ChildPath(prefix, fs[i].0)) == Some(LeafText(fs[i].1))
    ensures fs[i].1.JObj? && p in LeafPaths(fs[i].1.fields, ChildPath(prefix, fs[i].0)) ==>
              Get(Flatten(fs, prefix), p) == Get(Flatten(fs[i].1.fields, ChildPath(prefix, fs[i].0)), p)
    decreases |fs|
  {
    var (k, v) := fs[i];
    var key := ChildPath(prefix, k);
    var init := fs[..|fs| - 1];
    var acc := Flatten(init, prefix);
    var (kl, vl) := fs[|fs| - 1];
    var keyl := ChildPath(prefix, kl);
    assert |ChildPath(prefix, k)| >= |k|;
    if vl.JObj? {
      FlattenUnique(vl.fields, keyl);
    }
    if i == |fs| - 1 {
      if v.JObj? && p in LeafPaths(v.fields, key) {
        FlattenKeys(v.fields, key, p);
        UpdateGet(acc, Flatten(v.fields, key), p);
      }
    } else {
      WellKeyedInit(fs);
      assert init[i] == fs[i];
      FlattenGet(init, prefix, i, p);
      DistinctKeysAt(fs, i);
      var t := if v.JObj? then p else key;
      if !v.JObj? || p in LeafPaths(v.fields, key) {
        if v.JObj? {
          LeafPathsPrefixed(v.fields, key, p);
        }
        NotUnderSibling(prefix, k, kl, vl, t, !v.JObj?);
        if vl.JObj? {
          FlattenKeys(vl.fields, keyl, t);
          UpdateGet(acc, Flatten(vl.fields, keyl), t);
        } else {
          PutOther(acc, keyl, LeafText(vl), t);
        }
      }
    }
  }

  /** The flattening rewritten as an object of strings. */
  function AsStrings(d: Dict<string, string>): (r: Dict<string, Json>)
    ensures |r| == |d|
  {
    if |d| == 0 then [] else AsStrings(d[..|d| - 1]) + [(d[|d| - 1].0, JStr(d[|d| - 1].1))]
  }

  lemma {:induction false} AsStringsKeys(d: Dict<string, string>)
    ensures Keys(AsStrings(d)) == Keys(d)
  {
    if |d| > 0 {
      AsStringsKeys(d[..|d| - 1]);
      KeysAppend(AsStrings(d[..|d| - 1]), [(d[|d| - 1].0, JStr(d[|d| - 1].1))]);
      KeysAppend(d[..|d| - 1], [d[|d| - 1]]);
      assert d == d[..|d| - 1] + [d[|d| - 1]];
    }
  }

  /** Flattening is idempotent: an already flat dictionary of strings,
      flattened again at the top level, comes back unchanged. */
  lemma {:induction false} FlattenFlat(d: Dict<string, string>)
    requires UniqueKeys(d)
    ensures Flatten(AsStrings(d), "") == d
  {
    if |d| > 0 {
      var init := d[..|d| - 1];
      UniqueInit(d);
      FlattenFlat(init);
      var e := AsStrings(d);
      assert e[..|e| - 1] == AsStrings(init);
      AsStringsKeys(init);
      assert !HasKey(init, d[|d| - 1].0);
      assert d == init + [d[|d| - 1]];
    }
  }

  lemma FlattenTwice(fs: Dict<string, Json>, prefix: string)
    ensures Flatten(AsStrings(Flatten(fs, prefix)), "") == Flatten(fs, prefix)
  {
    FlattenUnique(fs, prefix);
    FlattenFlat(Flatten(fs, prefix));
  }
}
