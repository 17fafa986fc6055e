/** Sums over sequences of reals (numpy's `np.sum`) and list repetition (`[x] * n`). */
module Sums {

  function Sum(s: seq<real>): real
  {
    if s == [] then 0.0 else Sum(s[..|s| - 1]) + s[|s| - 1]
  }

  /** `[x] * n` */
  function Repeat(x: real, n: nat): (r: seq<real>)
    ensures |r| == n
    ensures forall k :: 0 <= k < n ==> r[k] == x
  {
    seq(n, _ => x)
  }

  lemma {:induction false} SumAppend(a: seq<real>, b: seq<real>)
    ensures Sum(a + b) == Sum(a) + Sum(b)
    decreases |b|
  {
    if b == [] {
      assert a + b == a;
    } else {
      var b' := b[..|b| - 1];
      assert (a + b)[..|a + b| - 1] == a + b';
      SumAppend(a, b');
    }
  }

  lemma {:induction false} SumRepeat(x: real, n: nat)
    ensures Sum(Repeat(x, n)) == n as real * x
  {
    if n > 0 {
      assert Repeat(x, n)[..n - 1] == Repeat(x, n - 1);
      SumRepeat(x, n - 1);
    }
  }

  lemma {:induction false} SumNonNegative(s: seq<real>)
    requires forall k :: 0 <= k < |s| ==> s[k] >= 0.0
    ensures Sum(s) >= 0.0
  {
    if s != [] {
      SumNonNegative(s[..|s| - 1]);
    }
  }

  /** Sum of squared deviations from `mean`. */
  function SumSqDev(s: seq<real>, mean: real): real
  {
    if s == [] then 0.0 else SumSqDev(s[..|s| - 1], mean) + (s[|s| - 1] - mean) * (s[|s| - 1] - mean)
  }

  lemma {:induction false} SumSqDevNonNegative(s: seq<real>, mean: real)
    ensures SumSqDev(s, mean) >= 0.0
  {
    if s != [] {
      SumSqDevNonNegative(s[..|s| - 1], mean);
      var d := s[|s| - 1] - mean;
      assert d * d >= 0.0 by {
        if d < 0.0 { assert d * d == (-d) * (-d); }
      }
    }
  }

  lemma {:induction false} SumSqDevAppend(a: seq<real>, b: seq<real>, mean: real)
    ensures SumSqDev(a + b, mean) == SumSqDev(a, mean) + SumSqDev(b, mean)
    decreases |b|
  {
    if b == [] {
      assert a + b == a;
    } else {
      var b' := b[..|b| - 1];
      assert (a + b)[..|a + b| - 1] == a + b';
      SumSqDevAppend(a, b', mean);
    }
  }

  lemma {:induction false} SumSqDevRepeat(x: real, n: nat, mean: real)
    ensures SumSqDev(Repeat(x, n), mean) == n as real * ((x - mean) * (x - mean))
  {
    if n > 0 {
      assert Repeat(x, n)[..n - 1] == Repeat(x, n - 1);
      SumSqDevRepeat(x, n - 1, mean);
    }
  }

  /** Unbiased sample variance, `np.var(s, ddof=1)`. */
  function SampleVariance(s: seq<real>): (v: real)
    requires |s| >= 2
    ensures v >= 0.0
  {
    SumSqDevNonNegative(s, Sum(s) / |s| as real);
    SumSqDev(s, Sum(s) / |s| as real) / (|s| - 1) as real
  }
}
