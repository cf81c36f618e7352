/**
 Sums and scalings of finite sequences of reals: the arithmetic a
 fixed-fraction split of an amount relies on.
 */
module Sums {

  /** The sum of a sequence, taken from the front to the back. */
  function Sum(s: seq<real>): (r: real)
  {
    if |s| == 0 then 0.0 else Sum(s[..|s| - 1]) + s[|s| - 1]
  }

  /** Every element of `s` multiplied by `k`. */
  function Scale(s: seq<real>, k: real): (r: seq<real>)
    ensures |r| == |s|
    ensures forall i :: 0 <= i < |s| ==> r[i] == k * s[i]
  {
    seq(|s|, i requires 0 <= i < |s| => k * s[i])
  }

  /** True iff the elements of `s` strictly increase from front to back. */
  predicate StrictlyIncreasing(s: seq<real>)
  {
    forall i, j :: 0 <= i < j < |s| ==> s[i] < s[j]
  }

  /** True iff the elements of `s` strictly decrease from front to back. */
  predicate StrictlyDecreasing(s: seq<real>)
  {
    forall i, j :: 0 <= i < j < |s| ==> s[i] > s[j]
  }

  /** True iff no element of `s` is negative. */
  predicate NonNegative(s: seq<real>)
  {
    forall i :: 0 <= i < |s| ==> s[i] >= 0.0
  }

  /** Scaling distributes over the sum: splitting `k` by the weights `s`
      hands out `k` times the total weight. */
  lemma {:induction false} SumScale(s: seq<real>, k: real)
    ensures Sum(Scale(s, k)) == k * Sum(s)
  {
    if |s| > 0 {
      var n := |s| - 1;
      forall i | 0 <= i < n
        ensures Scale(s, k)[..n][i] == Scale(s[..n], k)[i]
      {
        assert s[..n][i] == s[i];
      }
      assert Scale(s, k)[..n] == Scale(s[..n], k);
      SumScale(s[..n], k);
    }
  }

  /** Scaling by `a` and then by `k` is scaling by `k * a`. */
  lemma ScaleTwice(s: seq<real>, a: real, k: real)
    ensures Scale(s, k * a) == Scale(Scale(s, a), k)
  {
    forall i | 0 <= i < |s|
      ensures Scale(s, k * a)[i] == Scale(Scale(s, a), k)[i]
    {
      assert (k * a) * s[i] == k * (a * s[i]);
    }
  }

  /** A sequence of three elements sums to the sum of those elements. */
  lemma {:induction false} SumOfThree(a: real, b: real, c: real)
    ensures Sum([a, b, c]) == a + b + c
  {
    assert [a, b, c][..2] == [a, b];
    assert [a, b][..1] == [a];
    assert [a][..0] == [];
    assert Sum([a]) == a;
    assert Sum([a, b]) == a + b;
  }
}
