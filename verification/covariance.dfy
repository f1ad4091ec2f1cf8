/** Welford's one-pass accumulator for the covariance of a stream of pairs and the
    variances of its two components (class OnlineCovariance). */
module Covariance {
  import Moments

  class OnlineCovariance {
    var n: nat
    var meanX: real
    var meanY: real
    var varX: real
    var varY: real
    var c: real
    /** The first and the second components of the pairs added so far, in order. */
    ghost var xs: seq<real>
    ghost var ys: seq<real>

    /** The fields are the two-pass statistics of the pairs added so far: the two
        means, the two M2 sums and the co-moment. */
    ghost predicate Valid()
      reads this
    {
      n == |xs| == |ys| &&
      meanX == Moments.Mean(xs) && meanY == Moments.Mean(ys) &&
      varX == Moments.SumSqDev(xs) && varY == Moments.SumSqDev(ys) &&
      c == Moments.CoMoment(xs, ys)
    }

    /** A fresh accumulator: every field zero. */
    constructor ()
      ensures Valid() && xs == [] && ys == []
      ensures n == 0 && meanX == 0.0 && meanY == 0.0 && varX == 0.0 && varY == 0.0 && c == 0.0
    {
      n, meanX, meanY, varX, varY, c := 0, 0.0, 0.0, 0.0, 0.0, 0.0;
      xs, ys := [], [];
    }

    /** The bivariate Welford update in the order of OnlineCovariance::add: both means
        first, then the co-moment and the two M2 sums, each from the deviation from
        the old mean times the deviation from the new one. */
    method Add(x: real, y: real)
      requires Valid()
      modifies this
      ensures Valid() && xs == old(xs) + [x] && ys == old(ys) + [y]
      ensures n == old(n) + 1
    {
      var count := n + 1;
      var deltaX := x - meanX;
      var newMeanX := meanX + deltaX / count as real;
      var deltaY := y - meanY;
      var newMeanY := meanY + deltaY / count as real;
      var newC := c + deltaX * (y - newMeanY);
      var newVarX := varX + deltaX * (x - newMeanX);
      var newVarY := varY + deltaY * (y - newMeanY);
      Moments.CovarianceStep(xs, ys, x, y, meanX, meanY, varX, varY, c, deltaX, deltaY, count as real,
                             newMeanX, newMeanY, newVarX, newVarY, newC);
      n, meanX, meanY, c, varX, varY := count, newMeanX, newMeanY, newC, newVarX, newVarY;
      xs, ys := xs + [x], ys + [y];
    }

    /** Number of pairs added. */
    function Count(): (k: nat)
      requires Valid()
      reads this
      ensures k == |xs| == |ys|
    {
      n
    }

    /** Unbiased sample covariance, 0 with fewer than two pairs; it does not change
        when the two components are swapped. */
    function Covariance(): (cov: real)
      requires Valid()
      reads this
      ensures cov == Moments.SampleCovariance(xs, ys) == Moments.SampleCovariance(ys, xs)
      ensures n <= 1 ==> cov == 0.0
    {
      Moments.CoMomentSwap(xs, ys);
      if n > 1 then c / (n - 1) as real else 0.0
    }

    /** Unbiased sample variance of the first components, 0 with fewer than two pairs. */
    function VarianceX(): (v: real)
      requires Valid()
      reads this
      ensures v == Moments.SampleVariance(xs) && v >= 0.0
      ensures n <= 1 ==> v == 0.0
    {
      Moments.SampleVarianceNonnegative(xs);
      if n > 1 then varX / (n - 1) as real else 0.0
    }

    /** Unbiased sample variance of the second components, 0 with fewer than two pairs. */
    function VarianceY(): (v: real)
      requires Valid()
      reads this
      ensures v == Moments.SampleVariance(ys) && v >= 0.0
      ensures n <= 1 ==> v == 0.0
    {
      Moments.SampleVarianceNonnegative(ys);
      if n > 1 then varY / (n - 1) as real else 0.0
    }

    /** The estimates satisfy Cauchy-Schwarz, so the correlation they imply lies in [-1, 1]. */
    lemma CauchySchwarzBound()
      requires Valid()
      ensures Covariance() * Covariance() <= VarianceX() * VarianceY()
    {
      Moments.SampleCauchySchwarz(xs, ys, Covariance(), VarianceX(), VarianceY());
    }

    /** Fed the same value twice in every pair, the accumulator reports the
        variance of that stream three times. */
    lemma SameStreams()
      requires Valid() && xs == ys
      ensures Covariance() == VarianceX() == VarianceY() >= 0.0
    {
    }
  }
}
