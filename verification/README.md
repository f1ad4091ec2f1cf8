# Variance-reduction Monte Carlo pricer: estimation core in Dafny

This project models the estimation and variance-reduction core of a C++ Monte
Carlo option pricer over exact real numbers and proves what that core computes.

The core has five parts:

- **Streaming accumulators.** `OnlineStatistics` and `OnlineCovariance` run
  Welford's one-pass updates of a count, running means, M2 sums and a co-moment.
  Each is a class whose `Add` method updates the fields in place, in the order of
  the C++ code. Each keeps the invariant `Valid()`: every field equals the
  two-pass statistic of the observations added so far, which are kept in ghost
  sequences.
- **Path samplers.** The plain (MC), antithetic and control-variate samplers are
  one datatype, `Sampler`. Its `Control` case nests a target and a control
  sampler, as the owning pointers of `ControlSampler` do. `Sample(s, z)` is the
  estimate for one standard normal draw `z`. The asset model is a `Model` value
  holding an arbitrary function `simulate(t, z)`. The options are the European
  call and put, the degenerate `NoOption` whose payoff is the price itself, and
  `Custom`, any other implementation of the `Option` interface with an arbitrary
  payoff function.
- **Simulation engine.** `MonteCarloEngine.Run` draws `nPaths` normals, turns each
  into an estimate and adds it to a fresh `OnlineStatistics`.
- **Beta calibration.** `CalibrateBeta` feeds pairs of target and control
  estimates to an `OnlineCovariance`. Past a warm-up floor, and only while the
  control's variance is positive, it re-estimates `beta = cov / var_y`. It stops
  once the relative standard error of `beta` falls below the target. Reals have no
  square root, so the stop test is stated in squared form (`StopTest`), and
  `StopTestSquared` proves its polynomial equivalent.
- **Random source.** The generator is a `NormalStream`: a fixed stream
  `source: nat -> real` and a count of the draws handed out. `Window` names the
  draws a run consumes.

The reference definitions live in module `Moments`. They are the sum, mean, sum of
squared deviations, co-moment, and unbiased sample variance and covariance of a
sequence. The lemmas there relate these to the one-pass recurrences, and to the
affine and control-variate transformations of a sample.

## Model

| member | source | states |
|---|---|---|
| Statistics.OnlineStatistics.constructor | include/core/OnlineStatistics.hpp:17-19 | A fresh accumulator has count 0, mean 0 and M2 0, and has seen no observation. |
| Statistics.OnlineStatistics.Add | src/core/OnlineStatistics.cpp:3-10 | Welford's update appends x to the observations, raises the count by one and keeps mean = arithmetic mean and M2 = sum of squared deviations. |
| Statistics.OnlineStatistics.Count | include/core/OnlineStatistics.hpp:11 | The count is the number of observations added. |
| Statistics.OnlineStatistics.Mean | include/core/OnlineStatistics.hpp:12 | The running mean is the arithmetic mean; times the count, it is the sum of the observations. |
| Statistics.OnlineStatistics.Variance | src/core/OnlineStatistics.cpp:12-15 | The variance is the unbiased sample variance: never negative, and 0 with fewer than two observations. |
| Statistics.OnlineStatistics.SquaredStandardError | src/core/OnlineStatistics.cpp:17-20 | variance / n is NaN exactly when nothing was added; otherwise it is a non-negative value that, times n, gives the sample variance. |
| Covariance.OnlineCovariance.constructor | include/core/OnlineCovariance.hpp:17-22 | A fresh accumulator has every field zero and has seen no pair. |
| Covariance.OnlineCovariance.Add | src/core/OnlineCovariance.cpp:3-13 | The bivariate update appends (x, y) and keeps both means, both M2 sums and the co-moment equal to their two-pass values. |
| Covariance.OnlineCovariance.Count | include/core/OnlineCovariance.hpp:11 | The count is the number of pairs added. |
| Covariance.OnlineCovariance.Covariance | src/core/OnlineCovariance.cpp:15-18 | The covariance is the unbiased sample covariance. It is 0 with fewer than two pairs and unchanged when the two components are swapped. |
| Covariance.OnlineCovariance.VarianceX | src/core/OnlineCovariance.cpp:20-23 | variance_x is the sample variance of the first components: non-negative, and 0 with fewer than two pairs. |
| Covariance.OnlineCovariance.VarianceY | src/core/OnlineCovariance.cpp:25-28 | variance_y is the sample variance of the second components: non-negative, and 0 with fewer than two pairs. |
| Covariance.OnlineCovariance.CauchySchwarzBound | src/core/OnlineCovariance.cpp:10-12 | covariance^2 <= variance_x * variance_y, so the implied correlation lies in [-1, 1]. |
| Covariance.OnlineCovariance.SameStreams | src/core/OnlineCovariance.cpp:6-12 | When x = y in every pair, covariance, variance_x and variance_y are equal and non-negative. |
| Moments.MeanStep | src/core/OnlineStatistics.cpp:6-7 | mean + (x - mean) / (n + 1) is the mean of the observations with x appended. |
| Moments.VarianceStep | src/core/OnlineStatistics.cpp:5-9 | The one-variable Welford step turns the mean and M2 of xs into those of xs + [x]. |
| Moments.WelfordStep | src/core/OnlineCovariance.cpp:6-10 | The means step, and c + dx * (y - new mean_y) is the co-moment of the extended pairs. |
| Moments.CovarianceStep | src/core/OnlineCovariance.cpp:5-12 | The bivariate step turns both means, both M2 sums and the co-moment of the pairs into those of the extended pairs. |
| Moments.CoDevIsDeviationSum | src/core/OnlineCovariance.cpp:10 | The co-moment in raw-sum form equals the literal sum of products (x - a)(y - b). |
| Moments.CauchySchwarz | src/core/OnlineCovariance.cpp:10-12 | For any centres, the squared co-moment is at most the product of the two sums of squared deviations. |
| Moments.SampleCauchySchwarz | src/core/OnlineCovariance.cpp:15-28 | The sample covariance squared is at most the product of the two sample variances. |
| Moments.SampleVarianceNonnegative | src/core/OnlineStatistics.cpp:12-15 | M2 and the sample variance are never negative. |
| Moments.CoMomentSwap | src/core/OnlineCovariance.cpp:10-17 | The co-moment and the sample covariance do not change when the two sequences are swapped. |
| Moments.ConstantSamples | src/core/OnlineStatistics.cpp:6-9 | Copies of one value c have mean c, M2 0 and sample variance 0. |
| Moments.AffineMean | src/analytics/CalibrateControl.cpp:29 | For x = a y + b pair by pair, the mean of the xs is a times the mean of the ys plus b. |
| Moments.AffineMoments | src/analytics/CalibrateControl.cpp:29 | For x = a y + b pair by pair, C = a M2(ys) and M2(xs) = a^2 M2(ys). |
| Moments.AffineSampleMoments | src/analytics/CalibrateControl.cpp:29-33 | For x = a y + b pair by pair, cov = a var_y and var_x = a^2 var_y. |
| Moments.AdjustedMean | src/samplers/ControlSampler.cpp:16 | The mean of x - beta (y - m) is mean_x - beta (mean_y - m). |
| Moments.AdjustedMoments | src/samplers/ControlSampler.cpp:16 | M2 of the adjusted observations is M2(xs) - 2 beta C + beta^2 M2(ys). |
| Moments.AdjustedSampleVariance | src/samplers/ControlSampler.cpp:16 | The sample variance of the adjusted observations is var_x - 2 beta cov + beta^2 var_y. |
| Moments.OptimalCoefficient | src/analytics/CalibrateControl.cpp:29 | With beta = cov / var_y, the adjusted variance is var_x - cov * beta. It is at most var_x and at most the adjusted variance for any other coefficient. |
| Options.Payoff | src/options/EuropeanOption.cpp:11-17 | The payoff of the terminal price st: max(st - K, 0) for a call, max(K - st, 0) for a put, st for `NoOption` and the option's own payoff for any other implementation; every European payoff is non-negative. |
| Options.PayoffCases | src/options/EuropeanOption.cpp:11-17 | The call pays max(st - K, 0) and the put max(K - st, 0), each non-negative, at least its exercise value and equal to 0 or to it. The degenerate option pays st. |
| Options.PayoffNonnegative | src/options/EuropeanOption.cpp:13-16 | Every European payoff is non-negative. |
| Options.PutCallParity | src/options/EuropeanOption.cpp:13-16 | Call payoff minus put payoff is st - K for every st. |
| Options.PayoffMonotone | src/options/EuropeanOption.cpp:14-16 | The call payoff is non-decreasing in st and the put payoff non-increasing. |
| Options.OutOfTheMoney | src/options/EuropeanOption.cpp:14-16 | The call pays 0 when st <= K, and the put pays 0 when st >= K. |
| Samplers.Leg | src/samplers/MCSampler.cpp:12-18 | The payoff at the option's maturity of the price the model simulates for one draw; never negative for a European option. |
| Samplers.Sample | src/samplers/AntitheticSampler.cpp:10-18 | One estimate per draw: the leg at z (plain), the average of the legs at z and -z (antithetic), or the control-variate estimate; plain and antithetic estimates of a European option are never negative. |
| Samplers.ControlSample | src/samplers/ControlSampler.cpp:12-17 | X - beta (Y - control mean) with X and Y the target's and the control's estimates on the same draw; with beta = 0 it is the target's estimate. |
| Samplers.MCAtMaturity | src/samplers/MCSampler.cpp:12-18 | The plain estimate is the payoff of the price simulated at the option's maturity for z. |
| Samplers.SampleNonnegative | src/samplers/AntitheticSampler.cpp:17 | Plain and antithetic estimates of a European option are never negative. |
| Samplers.AntitheticIsAverageOfLegs | src/samplers/AntitheticSampler.cpp:10-18 | The antithetic estimate is the average of the plain estimates at z and at -z. |
| Samplers.AntitheticSymmetric | src/samplers/AntitheticSampler.cpp:14-17 | The antithetic estimate is the same for z and -z. |
| Samplers.AntitheticBetweenLegs | src/samplers/AntitheticSampler.cpp:17 | The antithetic estimate lies between its two legs. |
| Samplers.ControlStep | src/samplers/ControlSampler.cpp:12-17 | The control estimate is X - beta (Y - control mean), with X and Y the sub-samplers' estimates on the same z. |
| Samplers.ControlNeutral | src/samplers/ControlSampler.cpp:16 | With beta = 0, or when the control hits its known mean, the control estimate is the target's. |
| Samplers.ControlAffineInBeta | src/samplers/ControlSampler.cpp:16 | For a fixed z the control estimate is affine in beta. |
| Samplers.ControlOutputs | src/samplers/ControlSampler.cpp:14-16 | On any draws, each control estimate adjusts the target estimate by the control estimate on the same draw. |
| Samplers.ControlMean | src/samplers/ControlSampler.cpp:16 | The sample mean of the control estimates is mean_x - beta (mean_y - control mean). |
| Samplers.ControlMeanUnchanged | src/samplers/ControlSampler.cpp:16 | When the control's sample mean equals its known mean, the control estimates have the target's sample mean. |
| Samplers.ControlVariance | src/samplers/ControlSampler.cpp:16 | The sample variance of the control estimates is var_x - 2 beta cov + beta^2 var_y. |
| Samplers.OptimalBeta | src/analytics/CalibrateControl.cpp:26-29 | With beta = cov / var_y on the same draws, the control estimates' variance is var_x - cov * beta. It is at most the target's and at most that of any other beta. |
| Draws.NormalStream.Normal | include/core/RandomEngine.hpp:9 | normal() hands out the next draw of the stream and advances it by one. |
| Engine.MonteCarloEngine.constructor | src/core/MonteCarloEngine.cpp:3-4 | The engine keeps the sampler it is given. |
| Engine.MonteCarloEngine.Run | src/core/MonteCarloEngine.cpp:6-20 | run consumes exactly nPaths draws. It returns a fresh, valid accumulator whose observations are the sampler's estimates for those draws, in draw order. |
| Calibration.SquaredSlopeError | src/analytics/CalibrateControl.cpp:32-37 | The square of se_beta, (var_x / var_y)(1 - corr^2) / n; times var_y^2 n it equals var_x var_y - cov^2. |
| Calibration.StopTest | src/analytics/CalibrateControl.cpp:38-40 | The stop condition abs(se / beta) < e in squared form. It fails when var_x = 0, when beta = 0 and when e <= 0; `StopTestSquared` gives its polynomial form. |
| Calibration.LastBeta | src/analytics/CalibrateControl.cpp:15-29 | beta after k iterations: cov / var_y of the last re-estimating iteration, and 0 through the warm-up floor. |
| Calibration.FirstStopFrom | src/analytics/CalibrateControl.cpp:17-40 | The first iteration from k on whose stop test succeeds, or the number of available pairs; it never exceeds that number and, unless equal to it, is an iteration that stops. |
| Calibration.StopCount | src/analytics/CalibrateControl.cpp:17 | The calibration never consumes more pairs than are available. |
| Calibration.CalibrateBeta | src/analytics/CalibrateControl.cpp:5-45 | calibrate_beta consumes the draws up to the first iteration whose stop test succeeds, or all maxSamples. It returns the beta of the last re-estimating iteration, or 0. |
| Calibration.Feed | src/analytics/CalibrateControl.cpp:19-22 | One draw is consumed, and the target's and the control's estimates on it are added as the next pair. |
| Calibration.Reestimate | src/analytics/CalibrateControl.cpp:24-41 | Past the floor with var_y > 0, beta becomes cov / var_y and the stop test is evaluated; otherwise beta is kept and the loop goes on. |
| Calibration.Iteration | src/analytics/CalibrateControl.cpp:24-40 | One iteration's beta and stop decision are those of LastBeta and Stops. |
| Calibration.FirstStopIs | src/analytics/CalibrateControl.cpp:39-40 | The loop consumes j pairs when no earlier iteration stops and iteration j stops or is the last. |
| Calibration.NeverStops | src/analytics/CalibrateControl.cpp:17 | When no iteration stops, every available pair is consumed. |
| Calibration.StopTestSquared | src/analytics/CalibrateControl.cpp:32-40 | For positive variances and target, the stop test holds iff cov != 0 and var_x var_y - cov^2 < e^2 cov^2 n. |
| Calibration.SlopeErrorNonnegative | src/analytics/CalibrateControl.cpp:34-37 | Under Cauchy-Schwarz the squared slope error is non-negative, so its square root is defined. |
| Calibration.WarmUp | src/analytics/CalibrateControl.cpp:15-24 | Up to the warm-up floor beta stays 0; in particular, maxSamples <= minSamples returns 0. |
| Calibration.BetaIsEstimate | src/analytics/CalibrateControl.cpp:29-44 | The returned beta is 0 or cov / var_y over the first j pairs, for a re-estimating iteration j with minSamples < j <= k. |
| Calibration.StopHasNonzeroBeta | src/analytics/CalibrateControl.cpp:39-40 | A stopping iteration has a nonzero beta and a positive target: with beta = 0 the test cannot succeed. |
| Calibration.NoStopInWarmUp | src/analytics/CalibrateControl.cpp:24 | No iteration up to the floor stops. |
| Calibration.ExactControl | src/analytics/CalibrateControl.cpp:29-40 | Take x = a y + b exactly, a != 0, a control that varies within the first floor + 1 pairs, and e > 0. The loop then stops at iteration floor + 1 and returns a. |
| Calibration.ExactStops | src/analytics/CalibrateControl.cpp:32-40 | Positive variances with cov != 0 and var_x var_y = cov^2 (zero slope error) pass the stop test for every e > 0. |
| Calibration.ExactControlSamplers | src/analytics/CalibrateControl.cpp:19-40 | The same for samplers whose target estimate is a times the control's plus b on every draw. |

## Left out

- Floating point: every quantity is an exact real. Rounding, overflow, and the numerical-stability benefit of Welford's method are not modelled.
- NaN and infinity are not modelled, with two exceptions. `SquaredStandardError` returns NaN for an empty accumulator. The stop test counts the 0/0 correlation (var_x = 0) and the division by beta = 0 as a failed comparison.
- Statistics.OnlineStatistics.SquaredStandardError: returns variance / n rather than its square root, because reals have no square root.
- Calibration.StopTest: compares squares (se^2 < e^2 beta^2) instead of |se / beta| < e, because reals have no square root. The two agree wherever se^2 >= 0 (`SlopeErrorNonnegative`) and e > 0. A non-positive target never stops in either form.
- Calibration.CalibrateBeta: each iteration's body is split into `Feed` and `Reestimate`; `Reestimate` returns the stop decision and the loop breaks on it.
- Samplers.Sample: `PathSampler` is an open interface in C++; the model covers its three implementations (plain, antithetic, control) and no others.
- Counts (`std::size_t`) are unbounded naturals; wrap-around is not modelled.
- The random engine (Mersenne Twister, normal transform, seeding) is not part of this model. The draws are an arbitrary stream `nat -> real` consumed in order.
- The Black-Scholes model (`exp`, `sqrt`) is not part of this model; `simulate` is an arbitrary function of time and draw.
- The closed-form Black-Scholes price, the flat discount factor, `main`, the tests and the benchmarks are I/O or transcendental numerics and are not part of this model.
- Confidence intervals, convergence rates and the expected variance reduction are probabilistic claims and are not stated.
- The constructors of `EuropeanOption` and `ControlSampler` only store their arguments. They are the datatype constructors `European` and `Control`, whose fields are the accessors, so they have no member of their own.
- `const`-ness of `sample` and `run` is structural: `Sample` is a function, and `Run` modifies only the random stream. Two runs over the same draws give the same observations because `Run`'s postcondition determines them.
