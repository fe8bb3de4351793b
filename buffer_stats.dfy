/**
  * The two statistics `detectWaveFile` takes of its frequency buffer:
  * numpy's `mean()` and the population variance behind its `std()`.
  */
module BufferStats {

  function Sum(s: seq<real>): real
  {
    if s == [] then 0.0 else s[0] + Sum(s[1..])
  }

  function Mean(s: seq<real>): real
    requires |s| > 0
  {
    Sum(s) / |s| as real
  }

  /** The sum of squared deviations of the entries from m. */
  function SquaredDeviation(s: seq<real>, m: real): (r: real)
    ensures r >= 0.0
  {
    if s == [] then 0.0
    else
      var d := s[0] - m;
      assert d * d >= 0.0;
      d * d + SquaredDeviation(s[1..], m)
  }

  /**
    * The population variance, the square of numpy's `std()`. Since a standard
    * deviation is never negative, `std() < b` is the same as `Variance < b * b`
    * for every b > 0.
    */
  function Variance(s: seq<real>): (v: real)
    requires |s| > 0
    ensures v >= 0.0
  {
    SquaredDeviation(s, Mean(s)) / |s| as real
  }

  /** A buffer of identical values f has mean f and variance 0. */
  lemma {:induction false} ConstantBuffer(s: seq<real>, f: real)
    requires |s| > 0
    requires forall i :: 0 <= i < |s| ==> s[i] == f
    ensures Mean(s) == f && Variance(s) == 0.0
  {
    ConstantSums(s, f);
  }

  lemma {:induction false} ConstantSums(s: seq<real>, f: real)
    requires forall i :: 0 <= i < |s| ==> s[i] == f
    ensures Sum(s) == |s| as real * f && SquaredDeviation(s, f) == 0.0
  {
    if s != [] {
      ConstantSums(s[1..], f);
    }
  }

  /** All-zero entries add nothing to the sum and m^2 each to the squared deviation. */
  lemma {:induction false} ZeroSums(s: seq<real>, m: real)
    requires forall i :: 0 <= i < |s| ==> s[i] == 0.0
    ensures Sum(s) == 0.0 && SquaredDeviation(s, m) == |s| as real * (m * m)
  {
    if s != [] {
      ZeroSums(s[1..], m);
    }
  }

  /**
    * A buffer holding f in its first slot and 0 in the n - 1 others has
    * mean f / n and variance (n - 1) * (f / n)^2.
    */
  lemma LeadingSlotStats(s: seq<real>, f: real)
    requires |s| > 0 && s[0] == f
    requires forall i :: 1 <= i < |s| ==> s[i] == 0.0
    ensures Mean(s) == f / |s| as real
    ensures Variance(s) == (|s| - 1) as real * (Mean(s) * Mean(s))
  {
    var n := |s| as real;
    var m := f / n;
    ZeroSums(s[1..], m);
    assert Sum(s) == f;
    assert f == n * m;
    var k := (|s| - 1) as real;
    assert f - m == k * m;
    calc {
      SquaredDeviation(s, m);
      (f - m) * (f - m) + k * (m * m);
      (k * m) * (k * m) + k * (m * m);
      k * (k + 1.0) * (m * m);
      k * n * (m * m);
    }
    assert Variance(s) == k * n * (m * m) / n;
  }
}
