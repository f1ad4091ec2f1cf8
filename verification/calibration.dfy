/** Adaptive estimation of the control-variate coefficient (calibrate_beta): pairs
    of target and control estimates on the same draw are fed to an OnlineCovariance
    until the slope estimate cov / var_y is precise enough or the budget is spent. */
module Calibration {
  import opened Samplers
  import opened Draws
  import opened Covariance
  import Moments

  /** The square of the standard error calibrate_beta computes for the slope,
      (var_x / var_y) * (1 - corr^2) / n with corr = cov / sqrt(var_x * var_y). */
  function SquaredSlopeError(vx: real, vy: real, cov: real, n: nat): (se2: real)
    requires vx > 0.0 && vy > 0.0 && n > 0
    ensures se2 * (vy * vy * n as real) == vx * vy - cov * cov
  {
    var se2 := (vx / vy) * (1.0 - cov * cov / (vx * vy)) / n as real;
    SlopeErrorForm(vx, vy, cov, n as real, se2);
    se2
  }

  /** The relative-precision stop test |se / beta| < e with beta = cov / var_y, in
      squared form. With var_x = 0 the correlation is 0 / 0 and with beta = 0 the
      ratio se / beta is infinite or NaN: in both cases the comparison fails, as it
      does for a target e that is not positive. */
  predicate StopTest(vx: real, vy: real, cov: real, n: nat, e: real)
  {
    vx > 0.0 && vy > 0.0 && n > 0 && e > 0.0 && cov / vy != 0.0 &&
    SquaredSlopeError(vx, vy, cov, n) < e * e * ((cov / vy) * (cov / vy))
  }

  /** Iteration k (k pairs seen) re-estimates beta: past the warm-up floor and with a
      control whose sample variance is positive. */
  predicate Updates(xs: seq<real>, ys: seq<real>, k: nat, minSamples: nat)
    requires k <= |xs| == |ys|
  {
    k > minSamples && Moments.SampleVariance(ys[..k]) > 0.0
  }

  /** The slope estimate cov / var_y over the first k pairs. */
  function Estimate(xs: seq<real>, ys: seq<real>, k: nat): real
    requires k <= |xs| == |ys| && Moments.SampleVariance(ys[..k]) > 0.0
  {
    Moments.SampleCovariance(xs[..k], ys[..k]) / Moments.SampleVariance(ys[..k])
  }

  /** Iteration k re-estimates beta and its stop test succeeds. */
  predicate Stops(xs: seq<real>, ys: seq<real>, k: nat, minSamples: nat, e: real)
    requires k <= |xs| == |ys|
  {
    Updates(xs, ys, k, minSamples) &&
    StopTest(Moments.SampleVariance(xs[..k]), Moments.SampleVariance(ys[..k]),
             Moments.SampleCovariance(xs[..k], ys[..k]), k, e)
  }

  /** beta after k iterations: the estimate of the last iteration that re-estimated
      it, or 0 if none did. */
  function LastBeta(xs: seq<real>, ys: seq<real>, k: nat, minSamples: nat): (beta: real)
    requires k <= |xs| == |ys|
    ensures k <= minSamples ==> beta == 0.0
  {
    if k == 0 then 0.0
    else if Updates(xs, ys, k, minSamples) then Estimate(xs, ys, k)
    else LastBeta(xs, ys, k - 1, minSamples)
  }

  /** The first iteration at or after k whose stop test succeeds, or |xs| if none does. */
  function FirstStopFrom(xs: seq<real>, ys: seq<real>, k: nat, minSamples: nat, e: real): (n: nat)
    requires 1 <= k <= |xs| + 1 && |xs| == |ys|
    ensures n <= |xs|
    ensures n == |xs| || (k <= n && Stops(xs, ys, n, minSamples, e))
    decreases |xs| + 1 - k
  {
    if k > |xs| then |xs|
    else if Stops(xs, ys, k, minSamples, e) then k
    else FirstStopFrom(xs, ys, k + 1, minSamples, e)
  }

  /** The number of pairs the calibration consumes when at most |xs| are available. */
  function StopCount(xs: seq<real>, ys: seq<real>, minSamples: nat, e: real): (n: nat)
    requires |xs| == |ys|
    ensures n <= |xs|
  {
    FirstStopFrom(xs, ys, 1, minSamples, e)
  }

  /** No iteration from 1 to k stops. */
  predicate NoStopUpTo(xs: seq<real>, ys: seq<real>, k: nat, minSamples: nat, e: real)
    requires k <= |xs| == |ys|
  {
    k == 0 || (NoStopUpTo(xs, ys, k - 1, minSamples, e) && !Stops(xs, ys, k, minSamples, e))
  }

  /** calibrate_beta: at most maxSamples draws, each giving a target and a control
      estimate on the same draw; beta is re-estimated past the warm-up floor when the
      control's variance is positive, and the loop stops after the first iteration
      whose stop test succeeds. The floor defaults to 1000 pairs and the relative
      precision target to 0.05. */
  method CalibrateBeta(target: Sampler, control: Sampler, rng: NormalStream,
                       maxSamples: nat, minSamples: nat := 1000, errorTarget: real := 0.05) returns (beta: real)
    modifies rng
    ensures var zs := Window(rng.source, old(rng.consumed), maxSamples);
            var n := StopCount(Outputs(target, zs), Outputs(control, zs), minSamples, errorTarget);
            rng.consumed == old(rng.consumed) + n &&
            beta == LastBeta(Outputs(target, zs), Outputs(control, zs), n, minSamples)
  {
    var stats := new OnlineCovariance();
    beta := 0.0;
    ghost var start := rng.consumed;
    ghost var zs := Window(rng.source, start, maxSamples);
    ghost var xs, ys := Outputs(target, zs), Outputs(control, zs);
    var i := 0;
    var stop := false;
    while i < maxSamples
      invariant i <= maxSamples && !stop
      invariant fresh(stats) && stats.Valid()
      invariant rng.consumed == start + i
      invariant stats.xs == xs[..i] && stats.ys == ys[..i]
      invariant NoStopUpTo(xs, ys, i, minSamples, errorTarget)
      invariant beta == LastBeta(xs, ys, i, minSamples)
    {
      Feed(target, control, rng, stats, zs, start, i);
      i := i + 1;
      beta, stop := Reestimate(stats, xs, ys, i, minSamples, errorTarget, beta);
      if stop {
        FirstStopIs(xs, ys, minSamples, errorTarget, i);
        break;
      }
    }
    if !stop {
      NeverStops(xs, ys, minSamples, errorTarget);
    }
  }

  /** The start of one iteration: the next draw, and the target's and the control's
      estimates on that draw added as one pair. */
  method Feed(target: Sampler, control: Sampler, rng: NormalStream, stats: OnlineCovariance,
              ghost zs: seq<real>, ghost start: nat, ghost i: nat)
    requires i < |zs| && zs == Window(rng.source, start, |zs|) && rng.consumed == start + i
    requires stats.Valid() && stats.xs == Outputs(target, zs)[..i] && stats.ys == Outputs(control, zs)[..i]
    modifies rng, stats
    ensures stats.Valid() && rng.consumed == start + i + 1
    ensures stats.xs == Outputs(target, zs)[..i + 1] && stats.ys == Outputs(control, zs)[..i + 1]
  {
    var z := rng.Normal();
    assert z == zs[i];
    var x := Sample(target, z);
    var y := Sample(control, z);
    OutputsPrefix(target, zs, i);
    OutputsPrefix(control, zs, i);
    stats.Add(x, y);
  }

  /** The body of one iteration after the new pair is added: past the warm-up floor
      and with a positive control variance, beta becomes cov / var_y and the stop test
      is evaluated; otherwise beta is kept and the loop goes on. */
  method Reestimate(stats: OnlineCovariance, ghost xs: seq<real>, ghost ys: seq<real>, ghost i: nat,
                    minSamples: nat, errorTarget: real, previous: real) returns (beta: real, stop: bool)
    requires stats.Valid() && 1 <= i <= |xs| == |ys|
    requires stats.xs == xs[..i] && stats.ys == ys[..i]
    requires previous == LastBeta(xs, ys, i - 1, minSamples)
    ensures beta == LastBeta(xs, ys, i, minSamples)
    ensures stop == Stops(xs, ys, i, minSamples, errorTarget)
  {
    beta, stop := previous, false;
    if stats.Count() > minSamples {
      var varY := stats.VarianceY();
      if varY > 0.0 {
        beta := stats.Covariance() / varY;
        var varX := stats.VarianceX();
        var cov := stats.Covariance();
        stop := StopTest(varX, varY, cov, stats.Count(), errorTarget);
      }
    }
    Iteration(xs, ys, stats.Count(), minSamples, errorTarget, stats.VarianceX(), stats.VarianceY(), stats.Covariance(),
              previous, beta, stop);
  }

  /** One iteration of the loop over the first i pairs: the coefficient it leaves and
      whether it stops are those of the specification. */
  lemma Iteration(xs: seq<real>, ys: seq<real>, i: nat, minSamples: nat, e: real,
                  vx: real, vy: real, cov: real, previous: real, beta: real, stop: bool)
    requires 1 <= i <= |xs| == |ys|
    requires vx == Moments.SampleVariance(xs[..i]) && vy == Moments.SampleVariance(ys[..i])
    requires cov == Moments.SampleCovariance(xs[..i], ys[..i])
    requires previous == LastBeta(xs, ys, i - 1, minSamples)
    requires beta == (if i > minSamples && vy > 0.0 then cov / vy else previous)
    requires stop == (i > minSamples && vy > 0.0 && StopTest(vx, vy, cov, i, e))
    ensures beta == LastBeta(xs, ys, i, minSamples)
    ensures stop == Stops(xs, ys, i, minSamples, e)
  {
  }

  /** The calibration consumes j pairs exactly when no earlier iteration stops and
      iteration j either stops or is the last one available. */
  lemma {:induction false} FirstStopIs(xs: seq<real>, ys: seq<real>, minSamples: nat, e: real, j: nat)
    requires |xs| == |ys| && j <= |xs|
    requires j == 0 || NoStopUpTo(xs, ys, j - 1, minSamples, e)
    requires j == |xs| || Stops(xs, ys, j, minSamples, e)
    ensures StopCount(xs, ys, minSamples, e) == j
  {
    var k := if j == 0 then 1 else j;
    while k > 1
      invariant 1 <= k <= |xs| + 1 && k <= j + 1
      invariant j == 0 || NoStopUpTo(xs, ys, k - 1, minSamples, e)
      invariant FirstStopFrom(xs, ys, k, minSamples, e) == j
      decreases k
    {
      k := k - 1;
    }
  }

  /** When no iteration stops, the calibration consumes every pair available. */
  lemma NeverStops(xs: seq<real>, ys: seq<real>, minSamples: nat, e: real)
    requires |xs| == |ys| && NoStopUpTo(xs, ys, |xs|, minSamples, e)
    ensures StopCount(xs, ys, minSamples, e) == |xs|
  {
    if |xs| > 0 {
      assert NoStopUpTo(xs, ys, |xs| - 1, minSamples, e);
    }
    FirstStopIs(xs, ys, minSamples, e, |xs|);
  }

  /** For positive variances and a positive target, the stop test is the
      polynomial inequality var_x var_y - cov^2 < e^2 cov^2 n with cov nonzero. */
  lemma {:induction false} StopTestSquared(vx: real, vy: real, cov: real, n: nat, e: real)
    requires vx > 0.0 && vy > 0.0 && n > 0 && e > 0.0
    ensures StopTest(vx, vy, cov, n, e) <==> cov != 0.0 && vx * vy - cov * cov < e * e * cov * cov * n as real
  {
    var k := n as real;
    var beta := cov / vy;
    var se2 := SquaredSlopeError(vx, vy, cov, n);
    var q := e * e * (beta * beta);
    SlopeErrorForm(vx, vy, cov, k, se2);
    TargetForm(e, beta, vy, cov, k);
    ScaleComparison(vx * vy - cov * cov, e * e * cov * cov * k, vy * vy * k, se2, q);
    NonzeroRatio(cov, vy, beta);
  }

  /** A ratio with a nonzero denominator is zero exactly when its numerator is. */
  lemma {:induction false} NonzeroRatio(num: real, den: real, r: real)
    requires den != 0.0 && r == num / den
    ensures r != 0.0 <==> num != 0.0
  {
    assert r * den == num;
  }

  /** The bound e^2 beta^2 with beta = cov / var_y, scaled by var_y^2 n. */
  lemma {:induction false} TargetForm(e: real, beta: real, vy: real, cov: real, k: real)
    requires vy > 0.0 && beta == cov / vy
    ensures e * e * (beta * beta) * (vy * vy * k) == e * e * cov * cov * k
  {
    assert beta * vy == cov;
    assert (beta * beta) * (vy * vy) == (beta * vy) * (beta * vy);
  }

  /** The real-number step behind StopTestSquared: se^2 = (var_x var_y - cov^2) / (var_y^2 n). */
  lemma {:induction false} SlopeErrorForm(vx: real, vy: real, cov: real, k: real, se2: real)
    requires vx > 0.0 && vy > 0.0 && k > 0.0
    requires se2 == (vx / vy) * (1.0 - cov * cov / (vx * vy)) / k
    ensures se2 * (vy * vy * k) == vx * vy - cov * cov
  {
    var r := cov * cov / (vx * vy);
    assert r * (vx * vy) == cov * cov;
    assert (vx / vy) * vy == vx;
    assert se2 * k == (vx / vy) * (1.0 - r);
    assert (vx / vy) * (1.0 - r) * (vy * vy) == vx * vy - r * (vx * vy);
  }

  /** Comparing two quantities after scaling both by the same positive factor. */
  lemma {:induction false} ScaleComparison(a: real, b: real, f: real, p: real, q: real)
    requires f > 0.0 && p * f == a && q * f == b
    ensures p < q <==> a < b
  {
    if p < q {
      assert (q - p) * f > 0.0;
    }
    if a < b {
      assert (q - p) * f == b - a;
    }
  }

  /** By Cauchy-Schwarz (1 - corr^2 >= 0), the squared slope error is never negative,
      so the square root calibrate_beta takes is always defined. */
  lemma {:induction false} SlopeErrorNonnegative(vx: real, vy: real, cov: real, n: nat)
    requires vx > 0.0 && vy > 0.0 && n > 0 && cov * cov <= vx * vy
    ensures SquaredSlopeError(vx, vy, cov, n) >= 0.0
  {
    var se2 := SquaredSlopeError(vx, vy, cov, n);
    var f := vy * vy * n as real;
    SlopeErrorForm(vx, vy, cov, n as real, se2);
    assert f > 0.0;
  }

  /** Up to the warm-up floor beta is never re-estimated: with no more pairs than
      the floor, the calibration returns 0. */
  lemma {:induction false} WarmUp(xs: seq<real>, ys: seq<real>, k: nat, minSamples: nat)
    requires k <= |xs| == |ys| && k <= minSamples
    ensures LastBeta(xs, ys, k, minSamples) == 0.0
  {
    if k > 0 {
      WarmUp(xs, ys, k - 1, minSamples);
    }
  }

  /** The coefficient after k iterations is 0 or the estimate cov / var_y over the
      first j pairs for some re-estimating iteration j past the floor, j <= k. */
  lemma {:induction false} BetaIsEstimate(xs: seq<real>, ys: seq<real>, k: nat, minSamples: nat)
    requires k <= |xs| == |ys|
    ensures LastBeta(xs, ys, k, minSamples) == 0.0 ||
            exists j :: minSamples < j <= k && Updates(xs, ys, j, minSamples) &&
                        LastBeta(xs, ys, k, minSamples) == Estimate(xs, ys, j)
  {
    if k > 0 && !Updates(xs, ys, k, minSamples) {
      BetaIsEstimate(xs, ys, k - 1, minSamples);
    }
  }

  /** A stopping iteration always has a nonzero coefficient: with beta = 0 the
      relative error is not a number and the loop goes on. */
  lemma StopHasNonzeroBeta(xs: seq<real>, ys: seq<real>, k: nat, minSamples: nat, e: real)
    requires k <= |xs| == |ys| && Stops(xs, ys, k, minSamples, e)
    ensures Estimate(xs, ys, k) != 0.0 && e > 0.0
  {
  }

  /** Up to the warm-up floor no iteration stops. */
  lemma {:induction false} NoStopInWarmUp(xs: seq<real>, ys: seq<real>, k: nat, minSamples: nat, e: real)
    requires k <= |xs| == |ys| && k <= minSamples
    ensures NoStopUpTo(xs, ys, k, minSamples, e)
  {
    if k > 0 {
      NoStopInWarmUp(xs, ys, k - 1, minSamples, e);
    }
  }

  /** A control that explains the target exactly (x = a y + b pair by pair, a != 0)
      and varies over the first minSamples + 1 pairs: the first iteration past the
      floor estimates beta = a with slope error 0, stops, and returns a. */
  lemma {:induction false} ExactControl(xs: seq<real>, ys: seq<real>, a: real, b: real, minSamples: nat, e: real)
    requires |xs| == |ys| && minSamples < |xs|
    requires forall i :: 0 <= i < |xs| ==> xs[i] == a * ys[i] + b
    requires a != 0.0 && e > 0.0 && Moments.SampleVariance(ys[..minSamples + 1]) > 0.0
    ensures StopCount(xs, ys, minSamples, e) == minSamples + 1
    ensures LastBeta(xs, ys, minSamples + 1, minSamples) == a
  {
    var k := minSamples + 1;
    var px, py := xs[..k], ys[..k];
    forall i | 0 <= i < |px|
      ensures px[i] == a * py[i] + b
    {
      assert px[i] == xs[i] && py[i] == ys[i];
    }
    Moments.AffinePairsPointwise(px, py, a, b);
    Moments.AffineSampleMoments(px, py, a, b);
    var vx, vy, cov := Moments.SampleVariance(px), Moments.SampleVariance(py), Moments.SampleCovariance(px, py);
    ExactSlope(a, vx, vy, cov);
    ExactStops(vx, vy, cov, k, e);
    assert Updates(xs, ys, k, minSamples);
    assert Stops(xs, ys, k, minSamples, e);
    NoStopInWarmUp(xs, ys, minSamples, minSamples, e);
    FirstStopIs(xs, ys, minSamples, e, k);
  }

  /** Positive variances with a nonzero covariance and zero slope error pass the
      stop test for every positive target. */
  lemma {:induction false} ExactStops(vx: real, vy: real, cov: real, n: nat, e: real)
    requires vx > 0.0 && vy > 0.0 && n > 0 && e > 0.0
    requires cov != 0.0 && vx * vy - cov * cov == 0.0
    ensures StopTest(vx, vy, cov, n, e)
  {
    assert vx * vy > 0.0;
    ExactBound(vx * vy, cov * cov, e, n as real);
    StopTestSquared(vx, vy, cov, n, e);
  }

  /** The real-number step behind ExactControl: with cov = a var_y and var_x = a^2 var_y
      the slope is a, var_x is positive and var_x var_y - cov^2 vanishes. */
  lemma {:induction false} ExactSlope(a: real, vx: real, vy: real, cov: real)
    requires a != 0.0 && vy > 0.0
    requires cov == a * vy && vx == a * a * vy
    ensures cov / vy == a && vx > 0.0 && cov != 0.0
    ensures vx * vy - cov * cov == 0.0
  {
  }

  /** With var_x var_y = cov^2 = q > 0, the left side of the squared stop test is 0
      and its right side e^2 q n is positive. */
  lemma {:induction false} ExactBound(p: real, q: real, e: real, k: real)
    requires p == q && q > 0.0 && e > 0.0 && k > 0.0
    ensures p - q < e * e * q * k
  {
    var ek := e * k;
    PositiveProduct(e, q, ek);
    assert e * e * q * k == e * q * ek;
  }

  /** A product of three positive reals is positive. */
  lemma {:induction false} PositiveProduct(a: real, b: real, c: real)
    requires a > 0.0 && b > 0.0 && c > 0.0
    ensures a * b * c > 0.0
  {
    assert a * b > 0.0;
  }

  /** ExactControl for samplers: when the target's estimate is a times the control's
      plus b on every draw, the calibration over any draws that make the control vary
      within the first minSamples + 1 stops there and returns a. */
  lemma ExactControlSamplers(target: Sampler, control: Sampler, zs: seq<real>, a: real, b: real,
                             minSamples: nat, e: real)
    requires forall z :: Sample(target, z) == a * Sample(control, z) + b
    requires minSamples < |zs| && a != 0.0 && e > 0.0
    requires Moments.SampleVariance(Outputs(control, zs)[..minSamples + 1]) > 0.0
    ensures StopCount(Outputs(target, zs), Outputs(control, zs), minSamples, e) == minSamples + 1
    ensures LastBeta(Outputs(target, zs), Outputs(control, zs), minSamples + 1, minSamples) == a
  {
    var xs, ys := Outputs(target, zs), Outputs(control, zs);
    forall i | 0 <= i < |xs|
      ensures xs[i] == a * ys[i] + b
    {
      assert xs[i] == Sample(target, zs[i]) && ys[i] == Sample(control, zs[i]);
    }
    ExactControl(xs, ys, a, b, minSamples, e);
  }
}
