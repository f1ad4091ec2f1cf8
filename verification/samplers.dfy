/** Path samplers: each maps one standard normal draw to one Monte Carlo estimate
    (classes MCSampler, AntitheticSampler and ControlSampler behind PathSampler). */
module Samplers {
  import opened Options
  import opened Models
  import Moments

  /** A sampler over a model and an option. Control owns its target and control
      samplers and stores the control's known mean and the coefficient beta. */
  datatype Sampler =
    | MC(model: Model, option: Option)
    | Antithetic(model: Model, option: Option)
    | Control(target: Sampler, control: Sampler, controlMean: real, beta: real)

  /** The payoff of the price the model simulates at the option's maturity for draw z. */
  function Leg(m: Model, o: Option, z: real): (r: real)
    ensures o.European? ==> r >= 0.0
  {
    Payoff(o, m.simulate(o.maturity, z))
  }

  /** One estimate from draw z. */
  function Sample(s: Sampler, z: real): (r: real)
    ensures (s.MC? || s.Antithetic?) && s.option.European? ==> r >= 0.0
    decreases s, 1
  {
    match s
    case MC(m, o) => Leg(m, o, z)
    case Antithetic(m, o) => 0.5 * (Leg(m, o, z) + Leg(m, o, -z))
    case Control(t, c, mean, beta) => ControlSample(t, c, mean, beta, z)
  }

  /** The control-variate estimate: the target's estimate minus beta times the
      control's deviation from its known mean, both on the same draw. */
  function ControlSample(t: Sampler, c: Sampler, mean: real, beta: real, z: real): (r: real)
    ensures beta == 0.0 ==> r == Sample(t, z)
    decreases Control(t, c, mean, beta), 0
  {
    Sample(t, z) - beta * (Sample(c, z) - mean)
  }

  /** The estimates of a sampler for a sequence of draws, in draw order. */
  function Outputs(s: Sampler, zs: seq<real>): (xs: seq<real>)
    ensures |xs| == |zs|
  {
    seq(|zs|, i requires 0 <= i < |zs| => Sample(s, zs[i]))
  }

  /** The estimates for the first i + 1 draws extend those for the first i by the
      estimate for draw i. */
  lemma OutputsPrefix(s: Sampler, zs: seq<real>, i: nat)
    requires i < |zs|
    ensures Outputs(s, zs)[..i + 1] == Outputs(s, zs)[..i] + [Sample(s, zs[i])]
  {
  }

  /** A plain or antithetic sampler over a European option never yields a negative
      estimate. */
  lemma SampleNonnegative(s: Sampler, z: real)
    requires (s.MC? || s.Antithetic?) && s.option.European?
    ensures Sample(s, z) >= 0.0
  {
    PayoffNonnegative(s.option, s.model.simulate(s.option.maturity, z));
    PayoffNonnegative(s.option, s.model.simulate(s.option.maturity, -z));
  }

  /** The plain sampler passes the option's maturity, and nothing else, to the model
      as the time, and pays the option's payoff of the simulated price. */
  lemma MCAtMaturity(m: Model, o: Option, z: real, t: real)
    requires t == o.maturity
    ensures Sample(MC(m, o), z) == Payoff(o, m.simulate(t, z))
  {
  }

  /** A control sampler yields its target's estimate when beta is 0, or when the
      control's estimate equals the control's known mean. */
  lemma ControlNeutral(t: Sampler, c: Sampler, mean: real, beta: real, z: real)
    requires beta == 0.0 || Sample(c, z) == mean
    ensures Sample(Control(t, c, mean, beta), z) == Sample(t, z)
  {
  }

  /** The antithetic estimate is the average of the plain estimates at z and at -z. */
  lemma AntitheticIsAverageOfLegs(m: Model, o: Option, z: real)
    ensures Sample(Antithetic(m, o), z) == (Sample(MC(m, o), z) + Sample(MC(m, o), -z)) / 2.0
  {
  }

  /** The antithetic estimate does not change when the draw is negated. */
  lemma AntitheticSymmetric(m: Model, o: Option, z: real)
    ensures Sample(Antithetic(m, o), z) == Sample(Antithetic(m, o), -z)
  {
  }

  /** The antithetic estimate lies between its two legs. */
  lemma AntitheticBetweenLegs(m: Model, o: Option, z: real)
    ensures Sample(MC(m, o), z) <= Sample(Antithetic(m, o), z) <= Sample(MC(m, o), -z) ||
            Sample(MC(m, o), -z) <= Sample(Antithetic(m, o), z) <= Sample(MC(m, o), z)
  {
  }

  /** For a fixed draw the control estimate is affine in beta: mixing two
      coefficients mixes the two estimates with the same weights. */
  lemma ControlAffineInBeta(t: Sampler, c: Sampler, mean: real, b1: real, b2: real, lambda: real, z: real,
                            r: real, r1: real, r2: real)
    requires r1 == Sample(Control(t, c, mean, b1), z) && r2 == Sample(Control(t, c, mean, b2), z)
    requires r == Sample(Control(t, c, mean, lambda * b1 + (1.0 - lambda) * b2), z)
    ensures r == lambda * r1 + (1.0 - lambda) * r2
  {
    var x, d := Sample(t, z), Sample(c, z) - mean;
    ControlStep(t, c, mean, b1, z, x, d);
    ControlStep(t, c, mean, b2, z, x, d);
    ControlStep(t, c, mean, lambda * b1 + (1.0 - lambda) * b2, z, x, d);
    MixStep(x, d, b1, b2, lambda, r, r1, r2);
  }

  /** The control estimate from the target's estimate x and the control's deviation
      d from its known mean. */
  lemma ControlStep(t: Sampler, c: Sampler, mean: real, beta: real, z: real, x: real, d: real)
    requires x == Sample(t, z) && d == Sample(c, z) - mean
    ensures Sample(Control(t, c, mean, beta), z) == x - beta * d
  {
  }

  /** The real-number step behind ControlAffineInBeta. */
  lemma MixStep(x: real, d: real, b1: real, b2: real, lambda: real, r: real, r1: real, r2: real)
    requires r1 == x - b1 * d && r2 == x - b2 * d && r == x - (lambda * b1 + (1.0 - lambda) * b2) * d
    ensures r == lambda * r1 + (1.0 - lambda) * r2
  {
    assert (lambda * b1 + (1.0 - lambda) * b2) * d == lambda * (b1 * d) + (1.0 - lambda) * (b2 * d);
  }

  /** On any sequence of draws, the control estimates are the target estimates
      adjusted by the control estimates, pair by pair on the same draw. */
  lemma ControlOutputs(t: Sampler, c: Sampler, mean: real, beta: real, zs: seq<real>)
    ensures Moments.Adjusted(Outputs(Control(t, c, mean, beta), zs), Outputs(t, zs), Outputs(c, zs), beta, mean)
  {
    var ws, xs, ys := Outputs(Control(t, c, mean, beta), zs), Outputs(t, zs), Outputs(c, zs);
    forall i | 0 <= i < |ws|
      ensures ws[i] == xs[i] - beta * (ys[i] - mean)
    {
      ControlOutputAt(t, c, mean, beta, zs, i);
    }
  }

  /** The control estimate for draw i, in terms of the target's and the control's. */
  lemma ControlOutputAt(t: Sampler, c: Sampler, mean: real, beta: real, zs: seq<real>, i: nat)
    requires i < |zs|
    ensures Outputs(Control(t, c, mean, beta), zs)[i] == Outputs(t, zs)[i] - beta * (Outputs(c, zs)[i] - mean)
  {
    assert Outputs(Control(t, c, mean, beta), zs)[i] == Sample(Control(t, c, mean, beta), zs[i]);
    ControlStep(t, c, mean, beta, zs[i], Outputs(t, zs)[i], Outputs(c, zs)[i] - mean);
  }

  /** The sample mean of the control estimates is the target's sample mean minus
      beta times the control's deviation from its known mean. */
  lemma ControlMean(t: Sampler, c: Sampler, mean: real, beta: real, zs: seq<real>, mw: real, mx: real, my: real)
    requires |zs| > 0
    requires mw == Moments.Mean(Outputs(Control(t, c, mean, beta), zs))
    requires mx == Moments.Mean(Outputs(t, zs)) && my == Moments.Mean(Outputs(c, zs))
    ensures mw == mx - beta * (my - mean)
  {
    ControlOutputs(t, c, mean, beta, zs);
    Moments.AdjustedMean(Outputs(Control(t, c, mean, beta), zs), Outputs(t, zs), Outputs(c, zs), beta, mean);
  }

  /** When the control's sample mean hits its known mean, the control estimates have
      the target's sample mean, whatever beta is. */
  lemma ControlMeanUnchanged(t: Sampler, c: Sampler, mean: real, beta: real, zs: seq<real>, mw: real, mx: real)
    requires |zs| > 0 && Moments.Mean(Outputs(c, zs)) == mean
    requires mw == Moments.Mean(Outputs(Control(t, c, mean, beta), zs)) && mx == Moments.Mean(Outputs(t, zs))
    ensures mw == mx
  {
    ControlMean(t, c, mean, beta, zs, mw, mx, mean);
  }

  /** The sample variance of the control estimates: var_x - 2 beta cov + beta^2 var_y
      in terms of the target's and the control's estimates on the same draws. */
  lemma ControlVariance(t: Sampler, c: Sampler, mean: real, beta: real, zs: seq<real>,
                        vw: real, vx: real, vy: real, cov: real)
    requires vw == Moments.SampleVariance(Outputs(Control(t, c, mean, beta), zs))
    requires vx == Moments.SampleVariance(Outputs(t, zs)) && vy == Moments.SampleVariance(Outputs(c, zs))
    requires cov == Moments.SampleCovariance(Outputs(t, zs), Outputs(c, zs))
    ensures vw == vx - 2.0 * beta * cov + beta * beta * vy
  {
    ControlOutputs(t, c, mean, beta, zs);
    Moments.AdjustedSampleVariance(Outputs(Control(t, c, mean, beta), zs), Outputs(t, zs), Outputs(c, zs), beta, mean,
                                   vw, vx, vy, cov);
  }

  /** With beta = cov / var_y estimated on the same draws, the control estimates have
      sample variance var_x - cov * beta: never more than the target's, and never more
      than with any other coefficient. */
  lemma OptimalBeta(t: Sampler, c: Sampler, mean: real, beta: real, other: real, zs: seq<real>,
                    v: real, w: real, vx: real, vy: real, cov: real)
    requires vx == Moments.SampleVariance(Outputs(t, zs)) && vy == Moments.SampleVariance(Outputs(c, zs))
    requires cov == Moments.SampleCovariance(Outputs(t, zs), Outputs(c, zs))
    requires vy > 0.0 && beta == cov / vy
    requires v == Moments.SampleVariance(Outputs(Control(t, c, mean, beta), zs))
    requires w == Moments.SampleVariance(Outputs(Control(t, c, mean, other), zs))
    ensures v == vx - cov * beta && v <= vx && v <= w
  {
    ControlVariance(t, c, mean, beta, zs, v, vx, vy, cov);
    ControlVariance(t, c, mean, other, zs, w, vx, vy, cov);
    Moments.OptimalCoefficient(vx, vy, cov, beta, v, other, w);
  }
}
