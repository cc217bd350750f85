/** Sequence utilities standing in for the datastore's queries:
    `.filter(...).first()`, uniqueness constraints and auto-increment keys. */
module Seqs {
  import opened Outcomes

  /** Position of the first element satisfying `p` (`.filter(p).first()`). */
  function FirstIndex<T>(xs: seq<T>, p: T -> bool): (r: Option<nat>)
    ensures r.Some? ==> r.value < |xs| && p(xs[r.value])
    ensures r.Some? ==> forall j :: 0 <= j < r.value ==> !p(xs[j])
    ensures r.None? <==> forall j :: 0 <= j < |xs| ==> !p(xs[j])
    decreases |xs|
  {
    if |xs| == 0 then None
    else if p(xs[0]) then Some(0)
    else
      match FirstIndex(xs[1..], p)
      case None => None
      case Some(i) => Some(i + 1)
  }

  /** The first match depends only on which positions satisfy the predicate. */
  lemma FirstIndexSame<T>(xs: seq<T>, ys: seq<T>, p: T -> bool)
    requires |xs| == |ys|
    requires forall j :: 0 <= j < |xs| ==> p(xs[j]) == p(ys[j])
    ensures FirstIndex(xs, p) == FirstIndex(ys, p)
  {
  }

  /** No two elements share a key (a `unique=True` column or a primary key). */
  ghost predicate Distinct<T, K>(xs: seq<T>, key: T -> K) {
    forall i, j :: 0 <= i < j < |xs| ==> key(xs[i]) != key(xs[j])
  }

  /** The key an auto-increment column hands out next: above every key in use. */
  function FreshKey<T>(xs: seq<T>, key: T -> nat): (r: nat)
    ensures r >= 1
    ensures forall i :: 0 <= i < |xs| ==> key(xs[i]) < r
    decreases |xs|
  {
    if |xs| == 0 then 1
    else
      var rest := FreshKey(xs[1..], key);
      if key(xs[0]) < rest then rest else key(xs[0]) + 1
  }

  /** Appending an element whose key is fresh keeps the keys distinct. */
  lemma DistinctAppend<T, K>(xs: seq<T>, x: T, key: T -> K)
    requires Distinct(xs, key)
    requires forall i :: 0 <= i < |xs| ==> key(xs[i]) != key(x)
    ensures Distinct(xs + [x], key)
  {
  }
}
