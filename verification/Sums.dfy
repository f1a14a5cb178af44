/** Finite sums over an initial segment of the naturals, and the little set
    arithmetic the counters of the transport are checked against. */
module Sums {

  function Sum(f: nat -> nat, n: nat): nat {
    if n == 0 then 0 else Sum(f, n - 1) + f(n - 1)
  }

  lemma {:induction false} SumMonotone(f: nat -> nat, g: nat -> nat, n: nat)
    requires forall i: nat :: i < n ==> f(i) <= g(i)
    ensures Sum(f, n) <= Sum(g, n)
  {
    if n > 0 {
      SumMonotone(f, g, n - 1);
    }
  }

  /** Raising one term by at least `d`, and lowering none, raises the sum by at least `d`. */
  lemma {:induction false} SumBump(f: nat -> nat, g: nat -> nat, n: nat, k: nat, d: nat)
    requires k < n
    requires forall i: nat :: i < n ==> f(i) <= g(i)
    requires f(k) + d <= g(k)
    ensures Sum(f, n) + d <= Sum(g, n)
  {
    if k == n - 1 {
      SumMonotone(f, g, n - 1);
    } else {
      SumBump(f, g, n - 1, k, d);
    }
  }

  lemma {:induction false} SumScale(f: nat -> nat, g: nat -> nat, n: nat, k: nat)
    requires forall i: nat :: i < n ==> g(i) == k * f(i)
    ensures Sum(g, n) == k * Sum(f, n)
  {
    if n > 0 {
      SumScale(f, g, n - 1, k);
      var a, b := Sum(f, n - 1), f(n - 1);
      assert k * (a + b) == k * a + k * b;
    }
  }

  function Below(n: nat): (s: set<nat>)
    ensures forall x: nat :: x in s <==> x < n
    ensures |s| == n
  {
    if n == 0 then {} else Below(n - 1) + {n - 1}
  }

  lemma {:induction false} SubsetSize<T>(a: set<T>, b: set<T>)
    requires a <= b
    ensures |a| <= |b|
    ensures |a| == |b| ==> a == b
  {
    var rest := b - a;
    assert b == a + rest;
    assert |b| == |a| + |rest|;
    if |a| == |b| {
      assert rest == {};
    }
  }

  /** Pigeonhole: `n` distinct ids below `n` are all of them. */
  lemma {:induction false} Pigeonhole(s: set<nat>, n: nat)
    requires forall x :: x in s ==> x < n
    ensures |s| <= n
    ensures |s| == n ==> s == Below(n)
  {
    SubsetSize(s, Below(n));
  }
}
