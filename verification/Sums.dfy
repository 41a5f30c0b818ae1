/** Arithmetic of natural numbers: sums, used by every conservation and termination argument, and division. */
module Sums {

  function Sum(xs: seq<nat>): nat {
    if xs == [] then 0 else xs[0] + Sum(xs[1..])
  }

  lemma {:induction false} SumUpdate(xs: seq<nat>, i: nat, v: nat)
    requires i < |xs|
    ensures Sum(xs[i := v]) + xs[i] == Sum(xs) + v
  {
    if i == 0 {
      assert xs[i := v][1..] == xs[1..];
    } else {
      assert xs[i := v][1..] == xs[1..][i - 1 := v];
      SumUpdate(xs[1..], i - 1, v);
    }
  }

  lemma {:induction false} SumZero(xs: seq<nat>)
    requires forall i :: 0 <= i < |xs| ==> xs[i] == 0
    ensures Sum(xs) == 0
  {
    if xs != [] {
      SumZero(xs[1..]);
    }
  }

  lemma {:induction false} SumOfOne(xs: seq<nat>, i: nat)
    requires forall k :: 0 <= k < |xs| ==> xs[k] == if k == i then 1 else 0
    ensures Sum(xs) == if i < |xs| then 1 else 0
  {
    if xs != [] {
      if i == 0 {
        SumZero(xs[1..]);
      } else {
        SumOfOne(xs[1..], i - 1);
      }
    }
  }

  // Two sequences that differ in at most one place.
  lemma SumChangesAt(xs: seq<nat>, ys: seq<nat>, i: nat)
    requires |xs| == |ys| && i < |xs|
    requires forall j :: 0 <= j < |xs| && j != i ==> xs[j] == ys[j]
    ensures Sum(ys) + xs[i] == Sum(xs) + ys[i]
  {
    assert ys == xs[i := ys[i]];
    SumUpdate(xs, i, ys[i]);
  }

  function Union<T>(xs: seq<multiset<T>>): multiset<T> {
    if xs == [] then multiset{} else xs[0] + Union(xs[1..])
  }

  // Two sequences that differ by `d` in one place.
  lemma {:induction false} UnionShrinks<T>(xs: seq<multiset<T>>, ys: seq<multiset<T>>, i: nat, d: multiset<T>)
    requires |xs| == |ys| && i < |xs| && xs[i] == ys[i] + d
    requires forall j :: 0 <= j < |xs| && j != i ==> xs[j] == ys[j]
    ensures Union(xs) == Union(ys) + d
  {
    if i == 0 {
      assert xs[1..] == ys[1..];
    } else {
      UnionShrinks(xs[1..], ys[1..], i - 1, d);
    }
  }

  lemma {:induction false} UnionEmpty<T>(xs: seq<multiset<T>>)
    ensures Union(xs) == multiset{} <==> (forall i :: 0 <= i < |xs| ==> xs[i] == multiset{})
  {
    if xs != [] {
      UnionEmpty(xs[1..]);
      if Union(xs) == multiset{} {
        assert xs[0] <= Union(xs) && Union(xs[1..]) <= Union(xs);
      }
    }
  }

  // Quotient and remainder are the only pair that fits.
  lemma DivideBy(a: nat, b: nat, q: nat, r: nat)
    requires b >= 1 && r < b && a == q * b + r
    ensures a / b == q && a % b == r
  {
    var p := a / b;
    assert a == p * b + a % b;
    assert p < q ==> (p + 1) * b <= q * b;
    assert q < p ==> (q + 1) * b <= p * b;
  }
}
