/** Reference (two-pass) definitions of the sample statistics that the streaming
    accumulators maintain, over exact reals, and the algebra that connects the
    one-pass Welford recurrences to them. */
module Moments {

  /** Sum of the observations. Recursion peels off the LAST element, which is the
      element a streaming accumulator adds. */
  function Sum(xs: seq<real>): real
  {
    if |xs| == 0 then 0.0 else Sum(xs[..|xs| - 1]) + xs[|xs| - 1]
  }

  /** Sum of the products of paired observations. */
  function SumProd(xs: seq<real>, ys: seq<real>): real
    requires |xs| == |ys|
  {
    if |xs| == 0 then 0.0 else SumProd(xs[..|xs| - 1], ys[..|ys| - 1]) + xs[|xs| - 1] * ys[|ys| - 1]
  }

  /** Arithmetic mean; 0 for no observations (the accumulators start at 0). */
  function Mean(xs: seq<real>): real
  {
    if |xs| == 0 then 0.0 else Sum(xs) / |xs| as real
  }

  /** Sum over the pairs of (x - a) * (y - b), the co-moment about the centres a
      and b, written out through the raw sums (see CoDevIsDeviationSum). */
  function CoDev(xs: seq<real>, ys: seq<real>, a: real, b: real): real
    requires |xs| == |ys|
  {
    SumProd(xs, ys) - b * Sum(xs) - a * Sum(ys) + |xs| as real * a * b
  }

  /** The products of deviations (x - a) * (y - b), pair by pair. */
  function Products(xs: seq<real>, ys: seq<real>, a: real, b: real): (ps: seq<real>)
    requires |xs| == |ys|
    ensures |ps| == |xs|
  {
    if |xs| == 0 then []
    else Products(xs[..|xs| - 1], ys[..|xs| - 1], a, b) + [(xs[|xs| - 1] - a) * (ys[|xs| - 1] - b)]
  }

  /** The same co-moment as a literal sum of products of deviations. */
  function DeviationSum(xs: seq<real>, ys: seq<real>, a: real, b: real): real
    requires |xs| == |ys|
  {
    Sum(Products(xs, ys, a, b))
  }

  /** Sum of squared deviations from the mean (Welford's M2). */
  function SumSqDev(xs: seq<real>): real
  {
    CoDev(xs, xs, Mean(xs), Mean(xs))
  }

  /** Sum of products of deviations from the two means (the co-moment C). */
  function CoMoment(xs: seq<real>, ys: seq<real>): real
    requires |xs| == |ys|
  {
    CoDev(xs, ys, Mean(xs), Mean(ys))
  }

  /** Unbiased sample variance, 0 for fewer than two observations. */
  function SampleVariance(xs: seq<real>): real
  {
    if |xs| <= 1 then 0.0 else SumSqDev(xs) / (|xs| - 1) as real
  }

  /** Unbiased sample covariance, 0 for fewer than two pairs. */
  function SampleCovariance(xs: seq<real>, ys: seq<real>): real
    requires |xs| == |ys|
  {
    if |xs| <= 1 then 0.0 else CoMoment(xs, ys) / (|xs| - 1) as real
  }

  /** Appending an observation adds it to the sum. */
  lemma {:induction false} SumAppend(xs: seq<real>, x: real)
    ensures Sum(xs + [x]) == Sum(xs) + x
  {
    assert (xs + [x])[..|xs|] == xs;
  }

  /** Appending a pair adds its product to the sum of products. */
  lemma {:induction false} SumProdAppend(xs: seq<real>, ys: seq<real>, x: real, y: real)
    requires |xs| == |ys|
    ensures SumProd(xs + [x], ys + [y]) == SumProd(xs, ys) + x * y
  {
    assert (xs + [x])[..|xs|] == xs;
    assert (ys + [y])[..|ys|] == ys;
  }

  /** Appending a pair adds its product of deviations to the co-moment. */
  lemma {:induction false} CoDevAppend(xs: seq<real>, ys: seq<real>, x: real, y: real, a: real, b: real)
    requires |xs| == |ys|
    ensures CoDev(xs + [x], ys + [y], a, b) == CoDev(xs, ys, a, b) + (x - a) * (y - b)
  {
    SumAppend(xs, x);
    SumAppend(ys, y);
    SumProdAppend(xs, ys, x, y);
    AppendAlgebra(SumProd(xs, ys), Sum(xs), Sum(ys), |xs| as real, x, y, a, b,
                  SumProd(xs + [x], ys + [y]), Sum(xs + [x]), Sum(ys + [y]), |xs + [x]| as real,
                  CoDev(xs, ys, a, b), CoDev(xs + [x], ys + [y], a, b));
  }

  /** The real-number step behind CoDevAppend. */
  lemma {:induction false} AppendAlgebra(p: real, sx: real, sy: real, n: real, x: real, y: real, a: real, b: real,
                                        p2: real, sx2: real, sy2: real, n2: real, c: real, c2: real)
    requires p2 == p + x * y && sx2 == sx + x && sy2 == sy + y && n2 == n + 1.0
    requires c == p - b * sx - a * sy + n * a * b
    requires c2 == p2 - b * sx2 - a * sy2 + n2 * a * b
    ensures c2 == c + (x - a) * (y - b)
  {
  }

  /** The raw-sum form of the co-moment is the sum of products of deviations. */
  lemma {:induction false} CoDevIsDeviationSum(xs: seq<real>, ys: seq<real>, a: real, b: real)
    requires |xs| == |ys|
    ensures CoDev(xs, ys, a, b) == DeviationSum(xs, ys, a, b)
  {
    if |xs| > 0 {
      var px, py := xs[..|xs| - 1], ys[..|xs| - 1];
      assert xs == px + [xs[|xs| - 1]] && ys == py + [ys[|xs| - 1]];
      CoDevIsDeviationSum(px, py, a, b);
      CoDevAppend(px, py, xs[|xs| - 1], ys[|xs| - 1], a, b);
      DeviationSumLast(xs, ys, a, b);
    }
  }

  /** Dropping the last pair drops its product from the deviation sum. */
  lemma {:induction false} DeviationSumLast(xs: seq<real>, ys: seq<real>, a: real, b: real)
    requires |xs| == |ys| > 0
    ensures DeviationSum(xs, ys, a, b) ==
            DeviationSum(xs[..|xs| - 1], ys[..|xs| - 1], a, b) + (xs[|xs| - 1] - a) * (ys[|xs| - 1] - b)
  {
    var qs := Products(xs[..|xs| - 1], ys[..|xs| - 1], a, b);
    var ps := Products(xs, ys, a, b);
    assert ps == qs + [(xs[|xs| - 1] - a) * (ys[|xs| - 1] - b)];
    assert ps[..|xs| - 1] == qs;
  }

  /** Product i is the product of the deviations of pair i. */
  lemma {:induction false} ProductAt(xs: seq<real>, ys: seq<real>, a: real, b: real, i: nat)
    requires i < |xs| == |ys|
    ensures Products(xs, ys, a, b)[i] == (xs[i] - a) * (ys[i] - b)
  {
    var px, py := xs[..|xs| - 1], ys[..|xs| - 1];
    assert Products(xs, ys, a, b) == Products(px, py, a, b) + [(xs[|xs| - 1] - a) * (ys[|xs| - 1] - b)];
    if i < |xs| - 1 {
      ProductAt(px, py, a, b, i);
      assert px[i] == xs[i] && py[i] == ys[i];
    } else {
      assert xs[i] == xs[|xs| - 1] && ys[i] == ys[|xs| - 1];
    }
  }

  /** The one-pass mean update m + (x - m) / (n + 1) yields the mean of the extended sample. */
  lemma {:induction false} MeanStep(xs: seq<real>, x: real, m: real, d: real, cnt: real, m2: real)
    requires m == Mean(xs) && d == x - m && cnt == (|xs| + 1) as real && m2 == m + d / cnt
    ensures m2 == Mean(xs + [x])
  {
    SumAppend(xs, x);
    MeanAlgebra(|xs| as real, Sum(xs), m, x, d, cnt, m2, Sum(xs + [x]), Mean(xs + [x]));
  }

  /** The real-number step behind MeanStep. */
  lemma {:induction false} MeanAlgebra(k: real, s: real, m: real, x: real, d: real, cnt: real, m2: real, s2: real, M: real)
    requires k >= 0.0 && (k == 0.0 ==> s == 0.0 && m == 0.0) && (k > 0.0 ==> m == s / k)
    requires d == x - m && cnt == k + 1.0 && m2 == m + d / cnt
    requires s2 == s + x && M == s2 / cnt
    ensures m2 == M
  {
    if k > 0.0 {
      assert s == k * m;
    }
    assert m2 * cnt == m * cnt + d;
    assert M * cnt == s2;
  }

  /** One step of Welford's bivariate recurrence: updating both means and then adding
      dx * (y - my') to the co-moment yields the two-pass statistics of the extended samples. */
  lemma {:induction false} WelfordStep(xs: seq<real>, ys: seq<real>, x: real, y: real, mx: real, my: real, c: real,
                                        dx: real, dy: real, cnt: real, mx2: real, my2: real, ey: real, c2: real)
    requires |xs| == |ys|
    requires mx == Mean(xs) && my == Mean(ys) && c == CoMoment(xs, ys)
    requires dx == x - mx && dy == y - my && cnt == (|xs| + 1) as real
    requires mx2 == mx + dx / cnt && my2 == my + dy / cnt
    requires ey == y - my2 && c2 == c + dx * ey
    ensures mx2 == Mean(xs + [x]) && my2 == Mean(ys + [y])
    ensures c2 == CoMoment(xs + [x], ys + [y])
  {
    MeanStep(xs, x, mx, dx, cnt, mx2);
    MeanStep(ys, y, my, dy, cnt, my2);
    SumAppend(xs, x);
    SumAppend(ys, y);
    SumProdAppend(xs, ys, x, y);
    WelfordAlgebra(SumProd(xs, ys), Sum(xs), Sum(ys), |xs| as real, x, y, mx, my, c, dx, dy, cnt, mx2, my2, ey, c2,
                   SumProd(xs + [x], ys + [y]), Sum(xs + [x]), Sum(ys + [y]), CoMoment(xs + [x], ys + [y]));
  }

  /** The univariate case of WelfordStep: M2 grows by (x - m) * (x - m'), the
      deviations from the old and the new mean. */
  lemma {:induction false} VarianceStep(xs: seq<real>, x: real, m: real, m2: real, d: real, cnt: real, mNew: real, m2New: real)
    requires m == Mean(xs) && m2 == SumSqDev(xs)
    requires d == x - m && cnt == (|xs| + 1) as real && mNew == m + d / cnt
    requires m2New == m2 + d * (x - mNew)
    ensures mNew == Mean(xs + [x]) && m2New == SumSqDev(xs + [x])
  {
    WelfordStep(xs, xs, x, x, m, m, m2, d, d, cnt, mNew, mNew, x - mNew, m2New);
  }

  /** One step of the bivariate accumulator: the co-moment as in WelfordStep and
      each M2 as in VarianceStep, all from the same deviations. */
  lemma {:induction false} CovarianceStep(xs: seq<real>, ys: seq<real>, x: real, y: real,
                                         mx: real, my: real, vx: real, vy: real, c: real,
                                         dx: real, dy: real, cnt: real,
                                         mx2: real, my2: real, vx2: real, vy2: real, c2: real)
    requires |xs| == |ys|
    requires mx == Mean(xs) && my == Mean(ys) && vx == SumSqDev(xs) && vy == SumSqDev(ys) && c == CoMoment(xs, ys)
    requires dx == x - mx && dy == y - my && cnt == (|xs| + 1) as real
    requires mx2 == mx + dx / cnt && my2 == my + dy / cnt
    requires c2 == c + dx * (y - my2) && vx2 == vx + dx * (x - mx2) && vy2 == vy + dy * (y - my2)
    ensures mx2 == Mean(xs + [x]) && my2 == Mean(ys + [y])
    ensures vx2 == SumSqDev(xs + [x]) && vy2 == SumSqDev(ys + [y])
    ensures c2 == CoMoment(xs + [x], ys + [y])
  {
    WelfordStep(xs, ys, x, y, mx, my, c, dx, dy, cnt, mx2, my2, y - my2, c2);
    VarianceStep(xs, x, mx, vx, dx, cnt, mx2, vx2);
    VarianceStep(ys, y, my, vy, dy, cnt, my2, vy2);
  }

  /** The real-number step behind WelfordStep. */
  lemma {:induction false} WelfordAlgebra(p: real, sx: real, sy: real, n: real, x: real, y: real, mx: real, my: real,
                                         c: real, dx: real, dy: real, cnt: real, mx2: real, my2: real, ey: real, c2: real,
                                         p2: real, sx2: real, sy2: real, C2: real)
    requires n >= 0.0 && (n == 0.0 ==> sx == 0.0 && sy == 0.0 && mx == 0.0 && my == 0.0)
    requires n > 0.0 ==> mx == sx / n && my == sy / n
    requires c == p - my * sx - mx * sy + n * mx * my
    requires dx == x - mx && dy == y - my && cnt == n + 1.0
    requires mx2 == mx + dx / cnt && my2 == my + dy / cnt
    requires ey == y - my2 && c2 == c + dx * ey
    requires p2 == p + x * y && sx2 == sx + x && sy2 == sy + y
    requires C2 == p2 - my2 * sx2 - mx2 * sy2 + cnt * mx2 * my2
    ensures C2 == c2
  {
    if n > 0.0 {
      assert sx == n * mx && sy == n * my;
    }
    var fx, fy := dx / cnt, dy / cnt;
    assert dx == cnt * fx && dy == cnt * fy;
    var s := p - my2 * sx - mx2 * sy + n * mx2 * my2;
    WelfordShift(p, sx, sy, n, mx, my, c, fx, fy, s);
    assert C2 == s + (x - mx2) * (y - my2);
    assert x - mx2 == n * fx && ey == n * fy;
    WelfordClose(n, fx, fy, c, s, dx, x - mx2, ey, C2, c2);
  }

  /** The last step of WelfordAlgebra: n fx fy + (n fx)(n fy) == (n + 1) fx (n fy). */
  lemma {:induction false} WelfordClose(n: real, fx: real, fy: real, c: real, s: real, dx: real, u: real, v: real,
                                        C2: real, c2: real)
    requires u == n * fx && v == n * fy && dx == (n + 1.0) * fx
    requires s == c + n * fx * fy && C2 == s + u * v && c2 == c + dx * v
    ensures C2 == c2
  {
  }

  /** Moving both centres by (fx, fy) changes the raw co-moment of the old pairs by n fx fy. */
  lemma {:induction false} WelfordShift(p: real, sx: real, sy: real, n: real, mx: real, my: real, c: real,
                                        fx: real, fy: real, s: real)
    requires sx == n * mx && sy == n * my
    requires c == p - my * sx - mx * sy + n * mx * my
    requires s == p - (my + fy) * sx - (mx + fx) * sy + n * (mx + fx) * (my + fy)
    ensures s == c + n * fx * fy
  {
  }

  /** q^2 A - 2 p q C + p^2 B is a sum of squares (q (x - a) - p (y - b))^2, hence non-negative. */
  lemma {:induction false} CrossQuadraticNonnegative(xs: seq<real>, ys: seq<real>, a: real, b: real, p: real, q: real,
                                                      A: real, B: real, C: real)
    requires |xs| == |ys|
    requires A == CoDev(xs, xs, a, a) && B == CoDev(ys, ys, b, b) && C == CoDev(xs, ys, a, b)
    ensures q * q * A - 2.0 * p * q * C + p * p * B >= 0.0
  {
    if |xs| > 0 {
      var px, py, x, y := xs[..|xs| - 1], ys[..|ys| - 1], xs[|xs| - 1], ys[|ys| - 1];
      assert xs == px + [x] && ys == py + [y];
      CoDevAppend(px, px, x, x, a, a);
      CoDevAppend(py, py, y, y, b, b);
      CoDevAppend(px, py, x, y, a, b);
      var A0, B0, C0 := CoDev(px, px, a, a), CoDev(py, py, b, b), CoDev(px, py, a, b);
      var u, v := x - a, y - b;
      assert A == A0 + u * u;
      assert B == B0 + v * v;
      assert C == C0 + u * v;
      CrossQuadraticNonnegative(px, py, a, b, p, q, A0, B0, C0);
      QuadraticStep(A0, B0, C0, u, v, p, q, A, B, C);
    } else {
      QuadraticStep(0.0, 0.0, 0.0, 0.0, 0.0, p, q, A, B, C);
    }
  }

  /** The real-number step behind CrossQuadraticNonnegative. */
  lemma {:induction false} QuadraticStep(A0: real, B0: real, C0: real, u: real, v: real, p: real, q: real, A: real, B: real, C: real)
    requires q * q * A0 - 2.0 * p * q * C0 + p * p * B0 >= 0.0
    requires A == A0 + u * u && B == B0 + v * v && C == C0 + u * v
    ensures q * q * A - 2.0 * p * q * C + p * p * B >= 0.0
  {
    var k1, k2, k3 := q * q, 2.0 * p * q, p * p;
    SquareNonnegative(q * u - p * v);
    DifferenceSquare(p, q, u, v, k1, k2, k3);
    Distribute(k1, k2, k3, A0, B0, C0, u * u, v * v, u * v);
  }

  /** (q u - p v)^2 = q^2 u^2 - 2 p q u v + p^2 v^2. */
  lemma {:induction false} DifferenceSquare(p: real, q: real, u: real, v: real, k1: real, k2: real, k3: real)
    requires k1 == q * q && k2 == 2.0 * p * q && k3 == p * p
    ensures (q * u - p * v) * (q * u - p * v) == k1 * (u * u) - k2 * (u * v) + k3 * (v * v)
  {
  }

  /** A combination k1 A - k2 C + k3 B of sums splits into the combinations of the parts. */
  lemma {:induction false} Distribute(k1: real, k2: real, k3: real, A0: real, B0: real, C0: real, a: real, b: real, c: real)
    ensures k1 * (A0 + a) - k2 * (C0 + c) + k3 * (B0 + b) == (k1 * A0 - k2 * C0 + k3 * B0) + (k1 * a - k2 * c + k3 * b)
  {
  }

  /** Cauchy-Schwarz for co-moments about any centres: C^2 <= A B. */
  lemma {:induction false} CauchySchwarz(xs: seq<real>, ys: seq<real>, a: real, b: real, A: real, B: real, C: real)
    requires |xs| == |ys|
    requires A == CoDev(xs, xs, a, a) && B == CoDev(ys, ys, b, b) && C == CoDev(xs, ys, a, b)
    ensures C * C <= A * B
  {
    if |xs| > 0 {
      var px, py, x, y := xs[..|xs| - 1], ys[..|ys| - 1], xs[|xs| - 1], ys[|ys| - 1];
      assert xs == px + [x] && ys == py + [y];
      CoDevAppend(px, px, x, x, a, a);
      CoDevAppend(py, py, y, y, b, b);
      CoDevAppend(px, py, x, y, a, b);
      var A0, B0, C0 := CoDev(px, px, a, a), CoDev(py, py, b, b), CoDev(px, py, a, b);
      var u, v := x - a, y - b;
      assert A == A0 + u * u;
      assert B == B0 + v * v;
      assert C == C0 + u * v;
      CauchySchwarz(px, py, a, b, A0, B0, C0);
      CrossQuadraticNonnegative(px, py, a, b, u, v, A0, B0, C0);
      CauchySchwarzStep(A0, B0, C0, u, v, A, B, C);
    } else {
      CauchySchwarzStep(0.0, 0.0, 0.0, 0.0, 0.0, A, B, C);
    }
  }

  /** The real-number step behind CauchySchwarz. */
  lemma {:induction false} CauchySchwarzStep(A0: real, B0: real, C0: real, u: real, v: real, A: real, B: real, C: real)
    requires C0 * C0 <= A0 * B0
    requires v * v * A0 - 2.0 * u * v * C0 + u * u * B0 >= 0.0
    requires A == A0 + u * u && B == B0 + v * v && C == C0 + u * v
    ensures C * C <= A * B
  {
    assert C * C == C0 * C0 + 2.0 * u * v * C0 + (u * v) * (u * v);
    assert A * B == A0 * B0 + v * v * A0 + u * u * B0 + (u * u) * (v * v);
  }

  /** Cauchy-Schwarz for the unbiased estimators: cov^2 <= var_x var_y. */
  lemma {:induction false} SampleCauchySchwarz(xs: seq<real>, ys: seq<real>, cov: real, vx: real, vy: real)
    requires |xs| == |ys|
    requires cov == SampleCovariance(xs, ys) && vx == SampleVariance(xs) && vy == SampleVariance(ys)
    ensures cov * cov <= vx * vy
  {
    if |xs| > 1 {
      CauchySchwarz(xs, ys, Mean(xs), Mean(ys), SumSqDev(xs), SumSqDev(ys), CoMoment(xs, ys));
      ScaledCauchySchwarz(SumSqDev(xs), SumSqDev(ys), CoMoment(xs, ys), (|xs| - 1) as real, vx, vy, cov);
    } else {
      ScaledCauchySchwarz(0.0, 0.0, 0.0, 1.0, vx, vy, cov);
    }
  }

  /** Dividing A, B and C by the same positive divisor keeps C^2 <= A B. */
  lemma {:induction false} ScaledCauchySchwarz(A: real, B: real, C: real, d: real, vx: real, vy: real, cov: real)
    requires d > 0.0 && C * C <= A * B
    requires vx == A / d && vy == B / d && cov == C / d
    ensures cov * cov <= vx * vy
  {
    var r := 1.0 / d;
    assert vx == A * r && vy == B * r && cov == C * r;
    MulMonotone(C * C, A * B, r * r);
    assert cov * cov == (C * C) * (r * r);
    assert vx * vy == (A * B) * (r * r);
  }

  /** Multiplying by a non-negative factor keeps an inequality. */
  lemma {:induction false} MulMonotone(x: real, y: real, k: real)
    requires x <= y && k >= 0.0
    ensures x * k <= y * k
  {
  }

  /** A sum of squared deviations about any centre is non-negative. */
  lemma {:induction false} DevSquaresNonnegative(xs: seq<real>, a: real)
    ensures CoDev(xs, xs, a, a) >= 0.0
  {
    if |xs| > 0 {
      var px, x := xs[..|xs| - 1], xs[|xs| - 1];
      assert xs == px + [x];
      CoDevAppend(px, px, x, x, a, a);
      DevSquaresNonnegative(px, a);
      SquareNonnegative(x - a);
    }
  }

  /** A square is non-negative. */
  lemma {:induction false} SquareNonnegative(u: real)
    ensures u * u >= 0.0
  {
  }

  /** M2 and the sample variance are non-negative. */
  lemma {:induction false} SampleVarianceNonnegative(xs: seq<real>)
    ensures SumSqDev(xs) >= 0.0 && SampleVariance(xs) >= 0.0
  {
    DevSquaresNonnegative(xs, Mean(xs));
  }

  /** The sum of products does not depend on the order of the factors. */
  lemma {:induction false} SumProdSwap(xs: seq<real>, ys: seq<real>)
    requires |xs| == |ys|
    ensures SumProd(xs, ys) == SumProd(ys, xs)
  {
    if |xs| > 0 {
      SumProdSwap(xs[..|xs| - 1], ys[..|ys| - 1]);
    }
  }

  /** Swapping the two samples keeps the co-moment and the sample covariance. */
  lemma {:induction false} CoMomentSwap(xs: seq<real>, ys: seq<real>)
    requires |xs| == |ys|
    ensures CoMoment(xs, ys) == CoMoment(ys, xs)
    ensures SampleCovariance(xs, ys) == SampleCovariance(ys, xs)
  {
    SumProdSwap(xs, ys);
  }

  /** `xs` is `ys` mapped through y |-> a * y + b, element by element. */
  predicate AffinePairs(xs: seq<real>, ys: seq<real>, a: real, b: real)
    requires |xs| == |ys|
  {
    |xs| == 0 ||
    (AffinePairs(xs[..|xs| - 1], ys[..|ys| - 1], a, b) && xs[|xs| - 1] == a * ys[|ys| - 1] + b)
  }

  /** The element-by-element statement of an affine relation gives AffinePairs. */
  lemma {:induction false} AffinePairsPointwise(xs: seq<real>, ys: seq<real>, a: real, b: real)
    requires |xs| == |ys|
    requires forall i :: 0 <= i < |xs| ==> xs[i] == a * ys[i] + b
    ensures AffinePairs(xs, ys, a, b)
  {
    if |xs| > 0 {
      var px, py := xs[..|xs| - 1], ys[..|ys| - 1];
      forall i | 0 <= i < |px|
        ensures px[i] == a * py[i] + b
      {
        assert px[i] == xs[i] && py[i] == ys[i];
      }
      AffinePairsPointwise(px, py, a, b);
      assert xs[|xs| - 1] == a * ys[|ys| - 1] + b;
    }
  }

  /** Sum of an affine image: a * Sum(ys) + n * b. */
  lemma {:induction false} AffineSum(xs: seq<real>, ys: seq<real>, a: real, b: real)
    requires |xs| == |ys| && AffinePairs(xs, ys, a, b)
    ensures Sum(xs) == a * Sum(ys) + |xs| as real * b
  {
    if |xs| > 0 {
      AffineSum(xs[..|xs| - 1], ys[..|ys| - 1], a, b);
    }
  }

  /** Deviations of an affine image about the image of the centre are the deviations
      scaled by a. */
  lemma {:induction false} AffineDeviations(xs: seq<real>, ys: seq<real>, a: real, b: real, c: real, d: real, A: real, B: real, C: real)
    requires |xs| == |ys| && AffinePairs(xs, ys, a, b)
    requires |xs| > 0 ==> d == a * c + b
    requires A == CoDev(xs, xs, d, d) && B == CoDev(ys, ys, c, c) && C == CoDev(xs, ys, d, c)
    ensures C == a * B && A == a * a * B
  {
    if |xs| > 0 {
      var px, py, x, y := xs[..|xs| - 1], ys[..|ys| - 1], xs[|xs| - 1], ys[|ys| - 1];
      assert xs == px + [x] && ys == py + [y];
      CoDevAppend(px, px, x, x, d, d);
      CoDevAppend(py, py, y, y, c, c);
      CoDevAppend(px, py, x, y, d, c);
      var A0, B0, C0 := CoDev(px, px, d, d), CoDev(py, py, c, c), CoDev(px, py, d, c);
      AffineDeviations(px, py, a, b, c, d, A0, B0, C0);
      AffineStep(x, y, a, b, c, d, A0, B0, C0, A, B, C);
    } else {
      assert A == 0.0 && B == 0.0 && C == 0.0;
    }
  }
  /** The real-number step behind AffineDeviations. */
  lemma {:induction false} AffineStep(x: real, y: real, a: real, b: real, c: real, d: real, A0: real, B0: real, C0: real, A: real, B: real, C: real)
    requires x == a * y + b && d == a * c + b
    requires C0 == a * B0 && A0 == a * a * B0
    requires A == A0 + (x - d) * (x - d)
    requires B == B0 + (y - c) * (y - c)
    requires C == C0 + (x - d) * (y - c)
    ensures C == a * B && A == a * a * B
  {
    var e := y - c;
    assert x - d == a * e;
    assert C == a * B0 + (a * e) * e;
    assert A == a * a * B0 + (a * e) * (a * e);
  }

  /** The mean of an affine image is the image of the mean. */
  lemma {:induction false} AffineMean(xs: seq<real>, ys: seq<real>, a: real, b: real)
    requires |xs| == |ys| && AffinePairs(xs, ys, a, b)
    ensures |xs| > 0 ==> Mean(xs) == a * Mean(ys) + b
  {
    AffineSum(xs, ys, a, b);
    if |xs| > 0 {
      AffineMeanAlgebra(Sum(xs), Sum(ys), |xs| as real, a, b, Mean(ys), Mean(xs));
    }
  }

  /** The co-moment with, and the M2 of, an affine image are a and a^2 times M2. */
  lemma {:induction false} AffineMoments(xs: seq<real>, ys: seq<real>, a: real, b: real)
    requires |xs| == |ys| && AffinePairs(xs, ys, a, b)
    ensures CoMoment(xs, ys) == a * SumSqDev(ys)
    ensures SumSqDev(xs) == a * a * SumSqDev(ys)
  {
    var mx, my := Mean(xs), Mean(ys);
    var A, B, C := SumSqDev(xs), SumSqDev(ys), CoMoment(xs, ys);
    AffineMean(xs, ys, a, b);
    AffineDeviations(xs, ys, a, b, my, mx, A, B, C);
  }

  /** The unbiased estimators of an affine image: cov(a y + b, y) = a var(y) and
      var(a y + b) = a^2 var(y). */
  lemma {:induction false} AffineSampleMoments(xs: seq<real>, ys: seq<real>, a: real, b: real)
    requires |xs| == |ys| && AffinePairs(xs, ys, a, b)
    ensures SampleCovariance(xs, ys) == a * SampleVariance(ys)
    ensures SampleVariance(xs) == a * a * SampleVariance(ys)
  {
    if |xs| > 1 {
      var A, B, C, k := SumSqDev(xs), SumSqDev(ys), CoMoment(xs, ys), (|xs| - 1) as real;
      AffineMoments(xs, ys, a, b);
      var vx, vy, cov := SampleVariance(xs), SampleVariance(ys), SampleCovariance(xs, ys);
      AffineScale(A, B, C, a, k, vx, vy, cov);
    } else {
      assert SampleVariance(ys) == 0.0;
    }
  }

  /** The real-number step behind AffineSampleMoments. */
  lemma {:induction false} AffineScale(A: real, B: real, C: real, a: real, k: real, vx: real, vy: real, cov: real)
    requires C == a * B && A == a * a * B
    requires k > 0.0 && vx == A / k && vy == B / k && cov == C / k
    ensures cov == a * vy && vx == a * a * vy
  {
    assert B == k * vy;
    assert C == k * cov;
    assert A == k * vx;
  }

  /** The real-number step behind AffineMean. */
  lemma {:induction false} AffineMeanAlgebra(sx: real, sy: real, n: real, a: real, b: real, my: real, mx: real)
    requires n > 0.0 && my == sy / n && sx == a * sy + n * b && mx == sx / n
    ensures mx == a * my + b
  {
    assert sy == n * my;
    assert sx == n * (a * my + b);
  }

  /** Copies of one value c have mean c and zero variance. */
  lemma {:induction false} ConstantSamples(xs: seq<real>, c: real)
    requires forall i :: 0 <= i < |xs| ==> xs[i] == c
    ensures |xs| > 0 ==> Mean(xs) == c
    ensures SumSqDev(xs) == 0.0 && SampleVariance(xs) == 0.0
  {
    AffinePairsPointwise(xs, xs, 0.0, c);
    AffineMean(xs, xs, 0.0, c);
    AffineMoments(xs, xs, 0.0, c);
  }

  /** `ws` is `xs` adjusted by the control `ys` about m with coefficient beta:
      ws[i] == xs[i] - beta * (ys[i] - m) for every i. */
  predicate Adjusted(ws: seq<real>, xs: seq<real>, ys: seq<real>, beta: real, m: real)
  {
    |ws| == |xs| == |ys| && forall i :: 0 <= i < |ws| ==> ws[i] == xs[i] - beta * (ys[i] - m)
  }

  /** The same relation stated from the last pair backwards, the form the sums recurse on. */
  predicate AdjustedPairs(ws: seq<real>, xs: seq<real>, ys: seq<real>, beta: real, m: real)
    requires |ws| == |xs| == |ys|
  {
    |ws| == 0 ||
    (AdjustedPairs(ws[..|ws| - 1], xs[..|xs| - 1], ys[..|ys| - 1], beta, m) &&
     ws[|ws| - 1] == xs[|xs| - 1] - beta * (ys[|ys| - 1] - m))
  }

  /** The element-by-element statement of an adjustment gives AdjustedPairs. */
  lemma {:induction false} AdjustedPairsPointwise(ws: seq<real>, xs: seq<real>, ys: seq<real>, beta: real, m: real)
    requires |ws| == |xs| == |ys|
    requires forall i :: 0 <= i < |ws| ==> ws[i] == xs[i] - beta * (ys[i] - m)
    ensures AdjustedPairs(ws, xs, ys, beta, m)
  {
    if |ws| > 0 {
      var pw, px, py := ws[..|ws| - 1], xs[..|xs| - 1], ys[..|ys| - 1];
      forall i | 0 <= i < |pw|
        ensures pw[i] == px[i] - beta * (py[i] - m)
      {
        assert pw[i] == ws[i] && px[i] == xs[i] && py[i] == ys[i];
      }
      AdjustedPairsPointwise(pw, px, py, beta, m);
      assert ws[|ws| - 1] == xs[|xs| - 1] - beta * (ys[|ys| - 1] - m);
    }
  }

  /** Sum of adjusted observations: Sum(xs) - beta * (Sum(ys) - n * m). */
  lemma {:induction false} AdjustedSum(ws: seq<real>, xs: seq<real>, ys: seq<real>, beta: real, m: real)
    requires |ws| == |xs| == |ys| && AdjustedPairs(ws, xs, ys, beta, m)
    ensures Sum(ws) == Sum(xs) - beta * (Sum(ys) - |ys| as real * m)
  {
    if |ws| > 0 {
      AdjustedSum(ws[..|ws| - 1], xs[..|xs| - 1], ys[..|ys| - 1], beta, m);
    }
  }

  /** The mean of the adjusted observations is Mean(xs) - beta * (Mean(ys) - m); with
      m the mean of the control the adjustment leaves the mean unchanged. */
  lemma {:induction false} AdjustedMean(ws: seq<real>, xs: seq<real>, ys: seq<real>, beta: real, m: real)
    requires Adjusted(ws, xs, ys, beta, m)
    ensures |ws| > 0 ==> Mean(ws) == Mean(xs) - beta * (Mean(ys) - m)
  {
    if |ws| > 0 {
      AdjustedTotal(ws, xs, ys, beta, m);
      AdjustedMeanAlgebra(Sum(ws), Sum(xs), Sum(ys), |ws| as real, beta, m, Mean(ws), Mean(xs), Mean(ys));
    }
  }

  /** AdjustedSum for the element-by-element statement of the adjustment. */
  lemma {:induction false} AdjustedTotal(ws: seq<real>, xs: seq<real>, ys: seq<real>, beta: real, m: real)
    requires Adjusted(ws, xs, ys, beta, m)
    ensures Sum(ws) == Sum(xs) - beta * (Sum(ys) - |ys| as real * m)
  {
    AdjustedPairsPointwise(ws, xs, ys, beta, m);
    AdjustedSum(ws, xs, ys, beta, m);
  }

  /** The real-number step behind AdjustedMean. */
  lemma {:induction false} AdjustedMeanAlgebra(sw: real, sx: real, sy: real, n: real, beta: real, m: real,
                                              mw: real, mx: real, my: real)
    requires n > 0.0 && sw == sx - beta * (sy - n * m)
    requires mw == sw / n && mx == sx / n && my == sy / n
    ensures mw == mx - beta * (my - m)
  {
    assert sx == n * mx && sy == n * my;
    assert sw == n * (mx - beta * (my - m));
  }

  /** Deviation sums are linear in the adjusted argument: pairing the adjusted
      observations with any zs gives the xs pairing minus beta times the ys pairing. */
  lemma {:induction false} AdjustedLinear(ws: seq<real>, xs: seq<real>, ys: seq<real>, zs: seq<real>, beta: real, m: real,
                                         cw: real, cx: real, cy: real, c: real, P: real, Q: real, R: real)
    requires Adjusted(ws, xs, ys, beta, m) && |zs| == |ws|
    requires cw == cx - beta * (cy - m)
    requires P == DeviationSum(ws, zs, cw, c) && Q == DeviationSum(xs, zs, cx, c) && R == DeviationSum(ys, zs, cy, c)
    ensures P == Q - beta * R
  {
    var ts, us, vs := Products(ws, zs, cw, c), Products(xs, zs, cx, c), Products(ys, zs, cy, c);
    ProductsPointwise(ws, zs, cw, c);
    ProductsPointwise(xs, zs, cx, c);
    ProductsPointwise(ys, zs, cy, c);
    AdjustedProducts(ws, xs, ys, zs, beta, m, cw, cx, cy, c, ts, us, vs);
    ScaledSum(ts, us, vs, beta, P, Q, R);
  }

  /** ps holds the products of the deviations of the pairs of xs and ys, pair by pair. */
  predicate IsProducts(ps: seq<real>, xs: seq<real>, ys: seq<real>, a: real, b: real)
  {
    |ps| == |xs| == |ys| && forall i :: 0 <= i < |ps| ==> ps[i] == (xs[i] - a) * (ys[i] - b)
  }

  /** Products is the pair-by-pair product of deviations. */
  lemma {:induction false} ProductsPointwise(xs: seq<real>, ys: seq<real>, a: real, b: real)
    requires |xs| == |ys|
    ensures IsProducts(Products(xs, ys, a, b), xs, ys, a, b)
  {
    forall i | 0 <= i < |xs|
      ensures Products(xs, ys, a, b)[i] == (xs[i] - a) * (ys[i] - b)
    {
      ProductAt(xs, ys, a, b, i);
    }
  }

  /** Pair by pair, the adjusted product of deviations is the xs product minus beta
      times the ys product. */
  lemma {:induction false} AdjustedProducts(ws: seq<real>, xs: seq<real>, ys: seq<real>, zs: seq<real>, beta: real, m: real,
                                           cw: real, cx: real, cy: real, c: real, ts: seq<real>, us: seq<real>, vs: seq<real>)
    requires Adjusted(ws, xs, ys, beta, m) && |zs| == |ws|
    requires cw == cx - beta * (cy - m)
    requires IsProducts(ts, ws, zs, cw, c) && IsProducts(us, xs, zs, cx, c) && IsProducts(vs, ys, zs, cy, c)
    ensures |ts| == |us| == |vs|
    ensures forall i :: 0 <= i < |ts| ==> ts[i] == us[i] - beta * vs[i]
  {
    forall i | 0 <= i < |ts|
      ensures ts[i] == us[i] - beta * vs[i]
    {
      LinearStep(ws[i], xs[i], ys[i], zs[i], beta, m, cw, cx, cy, c, ts[i], us[i], vs[i]);
    }
  }

  /** Sums respect a pointwise relation t = u - beta v. */
  lemma {:induction false} ScaledSum(ts: seq<real>, us: seq<real>, vs: seq<real>, beta: real, T: real, U: real, V: real)
    requires |ts| == |us| == |vs|
    requires forall i :: 0 <= i < |ts| ==> ts[i] == us[i] - beta * vs[i]
    requires T == Sum(ts) && U == Sum(us) && V == Sum(vs)
    ensures T == U - beta * V
  {
    if |ts| > 0 {
      var pt, pu, pv := ts[..|ts| - 1], us[..|us| - 1], vs[..|vs| - 1];
      forall i | 0 <= i < |pt|
        ensures pt[i] == pu[i] - beta * pv[i]
      {
        assert pt[i] == ts[i] && pu[i] == us[i] && pv[i] == vs[i];
      }
      ScaledSum(pt, pu, pv, beta, Sum(pt), Sum(pu), Sum(pv));
      assert ts[|ts| - 1] == us[|us| - 1] - beta * vs[|vs| - 1];
    }
  }

  /** The real-number step behind AdjustedLinear: one adjusted pair's product of
      deviations. */
  lemma {:induction false} LinearStep(w: real, x: real, y: real, z: real, beta: real, m: real,
                                     cw: real, cx: real, cy: real, c: real, t: real, u: real, v: real)
    requires w == x - beta * (y - m) && cw == cx - beta * (cy - m)
    requires t == (w - cw) * (z - c) && u == (x - cx) * (z - c) && v == (y - cy) * (z - c)
    ensures t == u - beta * v
  {
    assert w - cw == (x - cx) - beta * (y - cy);
  }

  /** Swapping the two samples (and their centres) leaves a deviation sum unchanged. */
  lemma {:induction false} DeviationSumSwap(xs: seq<real>, ys: seq<real>, a: real, b: real)
    requires |xs| == |ys|
    ensures DeviationSum(xs, ys, a, b) == DeviationSum(ys, xs, b, a)
  {
    ProductsSwap(xs, ys, a, b);
  }

  /** Swapping the two samples and their centres gives the same products. */
  lemma {:induction false} ProductsSwap(xs: seq<real>, ys: seq<real>, a: real, b: real)
    requires |xs| == |ys|
    ensures Products(xs, ys, a, b) == Products(ys, xs, b, a)
  {
    ProductsPointwise(xs, ys, a, b);
    ProductsPointwise(ys, xs, b, a);
    forall i | 0 <= i < |xs|
      ensures Products(xs, ys, a, b)[i] == Products(ys, xs, b, a)[i]
    {
      assert (xs[i] - a) * (ys[i] - b) == (ys[i] - b) * (xs[i] - a);
    }
  }

  /** Squared deviations of the adjusted observations about the adjusted centre:
      A - 2 beta C + beta^2 B in terms of the deviation sums of the two inputs. */
  lemma {:induction false} AdjustedDeviations(ws: seq<real>, xs: seq<real>, ys: seq<real>, beta: real, m: real,
                                             cx: real, cy: real, cw: real, W: real, A: real, B: real, C: real)
    requires Adjusted(ws, xs, ys, beta, m)
    requires cw == cx - beta * (cy - m)
    requires W == DeviationSum(ws, ws, cw, cw) && A == DeviationSum(xs, xs, cx, cx)
    requires B == DeviationSum(ys, ys, cy, cy) && C == DeviationSum(xs, ys, cx, cy)
    ensures W == A - 2.0 * beta * C + beta * beta * B
  {
    var XW, YW := DeviationSum(xs, ws, cx, cw), DeviationSum(ys, ws, cy, cw);
    var WX, WY, YX := DeviationSum(ws, xs, cw, cx), DeviationSum(ws, ys, cw, cy), DeviationSum(ys, xs, cy, cx);
    AdjustedLinear(ws, xs, ys, ws, beta, m, cw, cx, cy, cw, W, XW, YW);
    DeviationSumSwap(xs, ws, cx, cw);
    DeviationSumSwap(ys, ws, cy, cw);
    DeviationSumSwap(ys, xs, cy, cx);
    AdjustedLinear(ws, xs, ys, xs, beta, m, cw, cx, cy, cx, WX, A, YX);
    AdjustedLinear(ws, xs, ys, ys, beta, m, cw, cx, cy, cy, WY, C, B);
    SquareExpansion(W, XW, YW, A, B, C, beta);
  }

  /** The real-number step behind AdjustedDeviations. */
  lemma {:induction false} SquareExpansion(W: real, XW: real, YW: real, A: real, B: real, C: real, beta: real)
    requires W == XW - beta * YW && XW == A - beta * C && YW == C - beta * B
    ensures W == A - 2.0 * beta * C + beta * beta * B
  {
  }

  /** M2 of the adjusted observations: M2(xs) - 2 beta C + beta^2 M2(ys), with C
      the co-moment of xs and ys. */
  lemma {:induction false} AdjustedMoments(ws: seq<real>, xs: seq<real>, ys: seq<real>, beta: real, m: real,
                                          W: real, A: real, B: real, C: real)
    requires Adjusted(ws, xs, ys, beta, m)
    requires W == SumSqDev(ws) && A == SumSqDev(xs) && B == SumSqDev(ys) && C == CoMoment(xs, ys)
    ensures W == A - 2.0 * beta * C + beta * beta * B
  {
    if |ws| > 0 {
      AdjustedMean(ws, xs, ys, beta, m);
      AdjustedCoDevs(ws, xs, ys, beta, m, Mean(xs), Mean(ys), Mean(ws), W, A, B, C);
    }
  }

  /** AdjustedDeviations for the raw-sum co-moments. */
  lemma {:induction false} AdjustedCoDevs(ws: seq<real>, xs: seq<real>, ys: seq<real>, beta: real, m: real,
                                         cx: real, cy: real, cw: real, W: real, A: real, B: real, C: real)
    requires Adjusted(ws, xs, ys, beta, m)
    requires cw == cx - beta * (cy - m)
    requires W == CoDev(ws, ws, cw, cw) && A == CoDev(xs, xs, cx, cx) && B == CoDev(ys, ys, cy, cy) && C == CoDev(xs, ys, cx, cy)
    ensures W == A - 2.0 * beta * C + beta * beta * B
  {
    CoDevIsDeviationSum(ws, ws, cw, cw);
    CoDevIsDeviationSum(xs, xs, cx, cx);
    CoDevIsDeviationSum(ys, ys, cy, cy);
    CoDevIsDeviationSum(xs, ys, cx, cy);
    AdjustedDeviations(ws, xs, ys, beta, m, cx, cy, cw, W, A, B, C);
  }

  /** Sample variance of the adjusted observations:
      var(xs) - 2 beta cov(xs, ys) + beta^2 var(ys). */
  lemma {:induction false} AdjustedSampleVariance(ws: seq<real>, xs: seq<real>, ys: seq<real>, beta: real, m: real,
                                                 vw: real, vx: real, vy: real, cov: real)
    requires Adjusted(ws, xs, ys, beta, m)
    requires vw == SampleVariance(ws) && vx == SampleVariance(xs) && vy == SampleVariance(ys) && cov == SampleCovariance(xs, ys)
    ensures vw == vx - 2.0 * beta * cov + beta * beta * vy
  {
    if |ws| > 1 {
      AdjustedMoments(ws, xs, ys, beta, m, SumSqDev(ws), SumSqDev(xs), SumSqDev(ys), CoMoment(xs, ys));
      AdjustedScale(SumSqDev(ws), SumSqDev(xs), SumSqDev(ys), CoMoment(xs, ys), beta, (|ws| - 1) as real, vw, vx, vy, cov);
    }
  }

  /** The real-number step behind AdjustedSampleVariance. */
  lemma {:induction false} AdjustedScale(W: real, A: real, B: real, C: real, beta: real, k: real,
                                        vw: real, vx: real, vy: real, cov: real)
    requires W == A - 2.0 * beta * C + beta * beta * B
    requires k > 0.0 && vw == W / k && vx == A / k && vy == B / k && cov == C / k
    ensures vw == vx - 2.0 * beta * cov + beta * beta * vy
  {
    assert A == k * vx && B == k * vy && C == k * cov && W == k * vw;
    assert k * vw == k * (vx - 2.0 * beta * cov + beta * beta * vy);
  }

  /** Among all coefficients, cov / var_y gives the adjusted variance its least
      value var_x - cov^2 / var_y, which is at most var_x. */
  lemma {:induction false} OptimalCoefficient(vx: real, vy: real, cov: real, beta: real, v: real, other: real, w: real)
    requires vy > 0.0 && beta == cov / vy
    requires v == vx - 2.0 * beta * cov + beta * beta * vy
    requires w == vx - 2.0 * other * cov + other * other * vy
    ensures v == vx - cov * beta && v <= vx
    ensures v <= w
  {
    assert cov == beta * vy;
    assert w - v == vy * ((other - beta) * (other - beta));
    assert (other - beta) * (other - beta) >= 0.0;
    MulMonotone(0.0, (other - beta) * (other - beta), vy);
    assert beta * beta * vy >= 0.0;
  }
}
