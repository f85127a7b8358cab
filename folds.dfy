/** Lists built by concatenating what each element of a list contributes,
    and where an element of the result comes from. */
module PrefixFolds {
  import opened Dicts

  /** The list of what `f` gives for each element, in order. */
  function MapAll<R, T>(xs: seq<R>, f: R -> T): (r: seq<T>)
    ensures |r| == |xs|
    ensures forall i :: 0 <= i < |xs| ==> r[i] == f(xs[i])
  {
    if |xs| == 0 then [] else MapAll(xs[..|xs| - 1], f) + [f(xs[|xs| - 1])]
  }

  function FlatMap<R, T>(xs: seq<R>, f: R -> seq<T>): seq<T>
  {
    if |xs| == 0 then [] else FlatMap(xs[..|xs| - 1], f) + f(xs[|xs| - 1])
  }

  /** One more element adds what it contributes at the end. */
  lemma FlatMapSnoc<R, T>(xs: seq<R>, f: R -> seq<T>, n: nat)
    requires n < |xs|
    ensures FlatMap(xs[..n + 1], f) == FlatMap(xs[..n], f) + f(xs[n])
  {
    assert xs[..n + 1][..n] == xs[..n];
  }

  /** What any element contributes is in the result. */
  lemma {:induction false} FlatMapHas<R, T>(xs: seq<R>, f: R -> seq<T>, p: nat, x: T)
    requires p < |xs| && x in f(xs[p])
    ensures x in FlatMap(xs, f)
  {
    var init := xs[..|xs| - 1];
    if p < |init| {
      assert init[p] == xs[p];
      FlatMapHas(init, f, p, x);
    }
  }

  /** Everything in the result was contributed by some element. */
  lemma {:induction false} FlatMapWitness<R, T>(xs: seq<R>, f: R -> seq<T>, x: T) returns (p: nat)
    requires x in FlatMap(xs, f)
    ensures p < |xs| && x in f(xs[p])
  {
    var init := xs[..|xs| - 1];
    if x in FlatMap(init, f) {
      p := FlatMapWitness(init, f, x);
      assert init[p] == xs[p];
    } else {
      p := |xs| - 1;
    }
  }

  /** The first index whose element satisfies `p`, if any. */
  function FirstWhere<T>(xs: seq<T>, p: T -> bool): (r: Option<nat>)
    ensures r.Some? ==> r.value < |xs| && p(xs[r.value])
    ensures r.Some? ==> forall j :: 0 <= j < r.value ==> !p(xs[j])
    ensures r.None? ==> forall j :: 0 <= j < |xs| ==> !p(xs[j])
  {
    if |xs| == 0 then None
    else if p(xs[0]) then Some(0)
    else
      match FirstWhere(xs[1..], p) {
        case None => None
        case Some(i) => Some(i + 1)
      }
  }
}
