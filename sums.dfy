/** Sums of real-valued weights over sequences, and the facts about them that
    the aggregation and the merge rely on: a sum splits over concatenation and
    does not depend on the order of its terms. */
module Sums {

  /** The sum of `f` over the elements of `s`, added up left to right. */
  function Sum<T>(s: seq<T>, f: T -> real): real
  {
    if s == [] then 0.0 else Sum(s[..|s| - 1], f) + f(s[|s| - 1])
  }

  lemma {:induction false} SumAppend<T>(a: seq<T>, b: seq<T>, f: T -> real)
    ensures Sum(a + b, f) == Sum(a, f) + Sum(b, f)
    decreases |b|
  {
    if b == [] {
      assert a + b == a;
    } else {
      assert (a + b)[..|a + b| - 1] == a + b[..|b| - 1];
      SumAppend(a, b[..|b| - 1], f);
    }
  }

  /** `s` without its element at index `i`. */
  function Without<T>(s: seq<T>, i: nat): (r: seq<T>)
    requires i < |s|
    ensures |r| == |s| - 1
    ensures multiset(r) + multiset{s[i]} == multiset(s)
  {
    assert s == s[..i] + [s[i]] + s[i + 1..];
    s[..i] + s[i + 1..]
  }

  lemma SumWithout<T>(s: seq<T>, i: nat, f: T -> real)
    requires i < |s|
    ensures Sum(s, f) == Sum(Without(s, i), f) + f(s[i])
  {
    var front, rest := s[..i], s[i..];
    var x, back := [s[i]], s[i + 1..];
    assert s == front + rest;
    assert rest == x + back;
    assert Sum(x, f) == f(s[i]) by {
      assert x[..0] == [];
    }
    SumAppend(front, rest, f);
    SumAppend(x, back, f);
    SumAppend(front, back, f);
  }

  lemma MultisetCancel<T>(x: multiset<T>, y: multiset<T>, e: T)
    requires x + multiset{e} == y + multiset{e}
    ensures x == y
  {
    forall z ensures x[z] == y[z] {
      assert (x + multiset{e})[z] == (y + multiset{e})[z];
    }
  }

  /** Permuting the terms leaves the sum unchanged. */
  lemma {:induction false} SumPermutation<T>(a: seq<T>, b: seq<T>, f: T -> real)
    requires multiset(a) == multiset(b)
    ensures Sum(a, f) == Sum(b, f)
    decreases |a|
  {
    if a == [] {
      assert |multiset(b)| == 0;
    } else {
      var n := |a| - 1;
      assert a[n] in multiset(b);
      var i :| 0 <= i < |b| && b[i] == a[n];
      assert a == a[..n] + [a[n]];
      assert multiset(a[..n]) + multiset{a[n]} == multiset(Without(b, i)) + multiset{a[n]};
      MultisetCancel(multiset(a[..n]), multiset(Without(b, i)), a[n]);
      SumPermutation(a[..n], Without(b, i), f);
      SumWithout(b, i, f);
    }
  }
}
