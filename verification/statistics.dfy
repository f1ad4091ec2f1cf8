/** Welford's one-pass accumulator for the mean and variance of a stream of
    observations (class OnlineStatistics). */
module Statistics {
  import Moments

  /** A double that is either an ordinary number or NaN. Only 0.0 / 0 can arise
      here, so no infinity is modelled. */
  datatype Extended = Finite(value: real) | NaN

  class OnlineStatistics {
    var n: nat
    var mean: real
    var m2: real
    /** The observations added so far, in order. */
    ghost var samples: seq<real>

    /** The three fields are the two-pass statistics of the observations added so far. */
    ghost predicate Valid()
      reads this
    {
      n == |samples| && mean == Moments.Mean(samples) && m2 == Moments.SumSqDev(samples)
    }

    /** A fresh accumulator has seen nothing: count, mean and M2 are all zero. */
    constructor ()
      ensures Valid() && samples == []
      ensures n == 0 && mean == 0.0 && m2 == 0.0
    {
      n, mean, m2 := 0, 0.0, 0.0;
      samples := [];
    }

    /** Welford's update, in the order of OnlineStatistics::add: count, then mean, then M2
        with the deviations from the old and the new mean. */
    method Add(x: real)
      requires Valid()
      modifies this
      ensures Valid() && samples == old(samples) + [x]
      ensures n == old(n) + 1
    {
      var count := n + 1;
      var delta := x - mean;
      var newMean := mean + delta / count as real;
      var delta2 := x - newMean;
      var newM2 := m2 + delta * delta2;
      Moments.VarianceStep(samples, x, mean, m2, delta, count as real, newMean, newM2);
      n, mean, m2 := count, newMean, newM2;
      samples := samples + [x];
    }

    /** Number of observations added. */
    function Count(): (c: nat)
      requires Valid()
      reads this
      ensures c == |samples|
    {
      n
    }

    /** The running mean is the arithmetic mean of the observations. */
    function Mean(): (m: real)
      requires Valid()
      reads this
      ensures m == Moments.Mean(samples)
      ensures |samples| > 0 ==> m * |samples| as real == Moments.Sum(samples)
    {
      mean
    }

    /** Unbiased sample variance: M2 / (n - 1), or 0 with fewer than two observations. */
    function Variance(): (v: real)
      requires Valid()
      reads this
      ensures v == Moments.SampleVariance(samples)
      ensures v >= 0.0
      ensures n <= 1 ==> v == 0.0
    {
      Moments.SampleVarianceNonnegative(samples);
      if n > 1 then m2 / (n - 1) as real else 0.0
    }

    /** The square of standard_error, variance / n. With no observations the
        standard_error divides 0.0 by 0 and yields NaN. */
    function SquaredStandardError(): (e: Extended)
      requires Valid()
      reads this
      ensures e == NaN <==> |samples| == 0
      ensures e.Finite? ==> e.value * |samples| as real == Moments.SampleVariance(samples) && e.value >= 0.0
    {
      if n == 0 then NaN else Finite(Variance() / n as real)
    }
  }
}
