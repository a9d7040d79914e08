/** Adaptive interval controllers (confopt/estimation.py, classes ACI and
    DtACI). Both keep a target miscoverage `alpha` and move their running
    estimate `alpha_t` from breach feedback; the samplers own them through the
    sum type `Adapter`. */
module Controllers {
  import opened Common
  import opened RealSeq

  /** Default step size of `ACI`. */
  const AciDefaultGamma: real := 0.01

  /** Default step sizes of the `DtACI` experts, log-spaced from 0.001 to 0.128. */
  const DefaultGammaCandidates: seq<real> := [0.001, 0.002, 0.004, 0.008, 0.016, 0.032, 0.064, 0.128]

  /** Default weight learning rate and exploration rate of `DtACI`. */
  const DtAciDefaultEta: real := 0.1
  const DtAciDefaultSigma: real := 0.01

  // ---------------------------------------------------------------------------
  // Counting steps

  lemma DistributeStep(k: nat, d: real)
    ensures (k + 1) as real * d == k as real * d + d
  {
  }

  // ---------------------------------------------------------------------------
  // ACI

  /** One ACI step: `alpha_t + gamma * (alpha - breach)`, clamped to [0.01, 0.99]. */
  function AciStep(alphaT: real, alpha: real, gamma: real, breach: int): (r: real)
    ensures 0.01 <= r <= 0.99
  {
    var raw := alphaT + gamma * (alpha - breach as real);
    MaxReal(0.01, MinReal(raw, 0.99))
  }

  /** `alpha_t` after feeding `breaches` to an ACI controller, first to last. */
  function AciRun(alphaT: real, alpha: real, gamma: real, breaches: seq<int>): real
    decreases |breaches|
  {
    if |breaches| == 0 then alphaT
    else AciRun(AciStep(alphaT, alpha, gamma, breaches[0]), alpha, gamma, breaches[1..])
  }

  /** `k` consecutive breaches. */
  function Misses(k: nat): (r: seq<int>)
    ensures |r| == k && forall i :: 0 <= i < k ==> r[i] == 1
  {
    seq(k, i => 1)
  }

  class Aci {
    const alpha: real
    const gamma: real
    var alphaT: real

    constructor (alpha: real, gamma: real)
      ensures this.alpha == alpha && this.gamma == gamma && alphaT == alpha
    {
      this.alpha := alpha;
      this.gamma := gamma;
      alphaT := alpha;
    }

    /** `ACI.update`: one integral step, clamped; returns the new `alpha_t`. */
    method Update(breach: int) returns (r: real)
      modifies this
      ensures alphaT == AciStep(old(alphaT), alpha, gamma, breach)
      ensures r == alphaT && 0.01 <= r <= 0.99
    {
      alphaT := alphaT + gamma * (alpha - breach as real);
      alphaT := MaxReal(0.01, MinReal(alphaT, 0.99));
      r := alphaT;
    }
  }

  /** Whatever the breach sequence, once at least one update has happened
      `alpha_t` lies in [0.01, 0.99]. */
  lemma {:induction false} AciRunBounded(alphaT: real, alpha: real, gamma: real, breaches: seq<int>)
    requires |breaches| > 0
    ensures 0.01 <= AciRun(alphaT, alpha, gamma, breaches) <= 0.99
    decreases |breaches|
  {
    if |breaches| > 1 {
      AciRunBounded(AciStep(alphaT, alpha, gamma, breaches[0]), alpha, gamma, breaches[1..]);
    }
  }

  /** A breach never raises `alpha_t` when `alpha <= 1` and `gamma >= 0`
      (once `alpha_t` is at least the lower clamp). */
  lemma AciBreachNeverIncreases(alphaT: real, alpha: real, gamma: real)
    requires alpha <= 1.0 && gamma >= 0.0 && alphaT >= 0.01
    ensures AciStep(alphaT, alpha, gamma, 1) <= alphaT
  {
    ProductNonNegative(gamma, 1.0 - alpha);
    assert gamma * (alpha - 1.0) == -(gamma * (1.0 - alpha));
  }

  /** One breach moves `alpha_t` (within the clamp) down by `d = gamma * (1 - alpha)`. */
  lemma AciMissStep(alphaT: real, alpha: real, gamma: real, d: real)
    requires alphaT <= 0.99 && alpha <= 1.0 && gamma >= 0.0 && d == gamma * (1.0 - alpha)
    ensures AciStep(alphaT, alpha, gamma, 1) == MaxReal(0.01, alphaT - d)
  {
    ProductNonNegative(gamma, 1.0 - alpha);
    assert gamma * (alpha - 1 as real) == -d;
  }

  lemma PinnedShift(x: real, d: real, e: real)
    requires d >= 0.0 && e >= 0.0
    ensures MaxReal(0.01, MaxReal(0.01, x - d) - e) == MaxReal(0.01, x - d - e)
  {
  }

  lemma DistributeLast(k: nat, d: real)
    requires k > 0
    ensures k as real * d == (k - 1) as real * d + d
  {
  }

  /** `k` times subtracting `d`, never going below the lower clamp 0.01. */
  function PinnedDescent(x: real, d: real, k: nat): real
    decreases k
  {
    if k == 0 then x else PinnedDescent(MaxReal(0.01, x - d), d, k - 1)
  }

  lemma AciRunMissesUnfold(alphaT: real, alpha: real, gamma: real, k: nat)
    requires k > 0
    ensures AciRun(alphaT, alpha, gamma, Misses(k))
         == AciRun(AciStep(alphaT, alpha, gamma, 1), alpha, gamma, Misses(k - 1))
  {
    assert Misses(k)[1..] == Misses(k - 1);
  }

  /** Under consecutive breaches ACI is a descent by `d = gamma * (1 - alpha)`
      per step, pinned at 0.01. */
  lemma {:induction false} AciMissesDescent(alphaT: real, alpha: real, gamma: real, d: real, k: nat)
    requires alphaT <= 0.99
    requires alpha <= 1.0 && gamma >= 0.0 && d == gamma * (1.0 - alpha)
    ensures AciRun(alphaT, alpha, gamma, Misses(k)) == PinnedDescent(alphaT, d, k)
    decreases k
  {
    if k > 0 {
      var next := AciStep(alphaT, alpha, gamma, 1);
      AciRunMissesUnfold(alphaT, alpha, gamma, k);
      AciMissStep(alphaT, alpha, gamma, d);
      AciMissesDescent(next, alpha, gamma, d, k - 1);
    }
  }

  /** The pinned descent in closed form: `max(0.01, x - k * d)`. */
  lemma {:induction false} PinnedDescentClosedForm(x: real, d: real, k: nat)
    requires 0.01 <= x && d >= 0.0
    ensures PinnedDescent(x, d, k) == MaxReal(0.01, x - k as real * d)
    decreases k
  {
    if k > 0 {
      PinnedDescentClosedForm(MaxReal(0.01, x - d), d, k - 1);
      var e := (k - 1) as real * d;
      ProductNonNegative((k - 1) as real, d);
      PinnedShift(x, d, e);
      DistributeLast(k, d);
    }
  }

  /** Under `k` consecutive breaches `alpha_t` falls by `d = gamma * (1 - alpha)`
      per step until it is pinned at 0.01. */
  lemma AciMissesClosedForm(alphaT: real, alpha: real, gamma: real, d: real, k: nat)
    requires 0.01 <= alphaT <= 0.99
    requires alpha <= 1.0 && gamma >= 0.0 && d == gamma * (1.0 - alpha)
    ensures AciRun(alphaT, alpha, gamma, Misses(k)) == MaxReal(0.01, alphaT - k as real * d)
  {
    ProductNonNegative(gamma, 1.0 - alpha);
    AciMissesDescent(alphaT, alpha, gamma, d, k);
    PinnedDescentClosedForm(alphaT, d, k);
  }

  /** Consecutive breaches pin `alpha_t` at 0.01 after finitely many steps. */
  lemma AciMissesPinned(alphaT: real, alpha: real, gamma: real, d: real, k: nat)
    requires 0.01 <= alphaT <= 0.99
    requires alpha <= 1.0 && gamma >= 0.0 && d == gamma * (1.0 - alpha)
    requires k as real * d >= alphaT - 0.01
    ensures AciRun(alphaT, alpha, gamma, Misses(k)) == 0.01
  {
    AciMissesClosedForm(alphaT, alpha, gamma, d, k);
  }

  /** Starting lower never ends higher: ACI steps are monotone in `alpha_t`. */
  lemma {:induction false} AciRunMonotone(lo: real, hi: real, alpha: real, gamma: real, breaches: seq<int>)
    requires lo <= hi
    ensures AciRun(lo, alpha, gamma, breaches) <= AciRun(hi, alpha, gamma, breaches)
    decreases |breaches|
  {
    if |breaches| > 0 {
      var b := breaches[0];
      AciStepMonotone(lo, hi, alpha, gamma, b);
      AciRunMonotone(AciStep(lo, alpha, gamma, b), AciStep(hi, alpha, gamma, b), alpha, gamma, breaches[1..]);
    }
  }

  lemma AciStepMonotone(lo: real, hi: real, alpha: real, gamma: real, breach: int)
    requires lo <= hi
    ensures AciStep(lo, alpha, gamma, breach) <= AciStep(hi, alpha, gamma, breach)
  {
  }

  /** Under consecutive breaches `alpha_t` is non-increasing from step to step
      (once it lies in the clamp range). */
  lemma AciMissesMonotone(alphaT: real, alpha: real, gamma: real, k: nat)
    requires 0.01 <= alphaT <= 0.99
    requires alpha <= 1.0 && gamma >= 0.0
    ensures AciRun(alphaT, alpha, gamma, Misses(k + 1)) <= AciRun(alphaT, alpha, gamma, Misses(k))
  {
    var next := AciStep(alphaT, alpha, gamma, 1);
    AciBreachNeverIncreases(alphaT, alpha, gamma);
    assert Misses(k + 1)[1..] == Misses(k);
    assert Misses(k + 1)[0] == 1;
    AciRunMonotone(next, alphaT, alpha, gamma, Misses(k));
  }

  /** With alpha = 0.1 and gamma = 0.05, five consecutive breaches give
      0.055, then 0.01 from the second step on. */
  lemma AciFiveMissesScenario()
    ensures AciRun(0.1, 0.1, 0.05, Misses(1)) == 0.055
    ensures AciRun(0.1, 0.1, 0.05, Misses(2)) == 0.01
    ensures AciRun(0.1, 0.1, 0.05, Misses(5)) == 0.01
  {
    var d := 0.05 * (1.0 - 0.1);
    AciMissesClosedForm(0.1, 0.1, 0.05, d, 1);
    AciMissesClosedForm(0.1, 0.1, 0.05, d, 2);
    AciMissesClosedForm(0.1, 0.1, 0.05, d, 5);
  }

  // ---------------------------------------------------------------------------
  // DtACI

  /** The constructor's checks, in the order the source makes them: the first
      failing check names the error. */
  function CheckParameters(alpha: real, gammas: seq<real>, eta: real, sigma: real): (r: Option<Error>)
    ensures r == None <==> ParametersValid(alpha, gammas, eta, sigma)
    ensures r == Some(AlphaOutOfRange) <==> !(0.0 < alpha < 1.0)
    ensures r == Some(NonPositiveGamma) <==>
      0.0 < alpha < 1.0 && exists i :: 0 <= i < |gammas| && gammas[i] <= 0.0
    ensures r == Some(NonPositiveEta) <==>
      0.0 < alpha < 1.0 && (forall i :: 0 <= i < |gammas| ==> gammas[i] > 0.0) && eta <= 0.0
    ensures r == Some(SigmaOutOfRange) <==>
      0.0 < alpha < 1.0 && (forall i :: 0 <= i < |gammas| ==> gammas[i] > 0.0) && eta > 0.0
      && !(0.0 <= sigma <= 1.0)
  {
    if !(0.0 < alpha < 1.0) then Some(AlphaOutOfRange)
    else if exists i :: 0 <= i < |gammas| && gammas[i] <= 0.0 then Some(NonPositiveGamma)
    else if eta <= 0.0 then Some(NonPositiveEta)
    else if !(0.0 <= sigma <= 1.0) then Some(SigmaOutOfRange)
    else None
  }

  predicate ParametersValid(alpha: real, gammas: seq<real>, eta: real, sigma: real)
  {
    && 0.0 < alpha < 1.0
    && (forall i :: 0 <= i < |gammas| ==> gammas[i] > 0.0)
    && eta > 0.0
    && 0.0 <= sigma <= 1.0
  }

  /** Expert weights as the source keeps them: positive, and summing to one
      whenever there is an expert. */
  predicate WeightsValid(w: seq<real>)
  {
    && (forall i :: 0 <= i < |w| ==> w[i] > 0.0)
    && (|w| > 0 ==> Sum(w) == 1.0)
  }

  /** Every expert takes its own ACI step (without clamping). */
  function ExpertsStep(experts: seq<real>, gammas: seq<real>, alpha: real, breach: int): (r: seq<real>)
    requires |experts| == |gammas|
    ensures |r| == |experts|
    ensures forall i :: 0 <= i < |r| ==> r[i] - experts[i] == gammas[i] * (alpha - breach as real)
  {
    seq(|experts|, i requires 0 <= i < |experts| => experts[i] + gammas[i] * (alpha - breach as real))
  }

  /** One weight after mixing: `(1 - sigma) * x / total + sigma / K`. */
  function MixWeight(x: real, sigma: real, total: real, k: nat): real
    requires total != 0.0 && k > 0
  {
    (1.0 - sigma) / total * x + sigma / k as real
  }

  /** Normalisation mixed with the uniform distribution, applied to every
      weight with the total and count of the whole vector. */
  function Mix(w: seq<real>, sigma: real): (r: seq<real>)
    requires |w| > 0 && Sum(w) != 0.0
    ensures |r| == |w|
  {
    var total := Sum(w);
    seq(|w|, i requires 0 <= i < |w| => MixWeight(w[i], sigma, total, |w|))
  }

  lemma MixWeightAffine(x: real, sigma: real, t: real, k: nat, n: real, a: real, b: real)
    requires t != 0.0 && k > 0 && n == k as real
    requires a == (1.0 - sigma) / t && b == sigma / n
    ensures MixWeight(x, sigma, t, k) == a * x + b
  {
  }

  /** `Mix` is the affine map with coefficients `(1 - sigma) / sum(w)` and
      `sigma / K`. */
  lemma MixIsAffine(w: seq<real>, sigma: real, t: real, n: real, a: real, b: real)
    requires |w| > 0 && t == Sum(w) && t != 0.0 && n == |w| as real
    requires a == (1.0 - sigma) / t && b == sigma / n
    ensures Mix(w, sigma) == Affine(w, a, b)
  {
    var m := Mix(w, sigma);
    var f := Affine(w, a, b);
    assert |m| == |f|;
    forall i | 0 <= i < |w| ensures m[i] == f[i] {
      MixAffineAt(w, sigma, t, n, a, b, i);
    }
    assert m == f;
  }

  lemma MixAffineAt(w: seq<real>, sigma: real, t: real, n: real, a: real, b: real, i: nat)
    requires i < |w| && t == Sum(w) && t != 0.0 && n == |w| as real
    requires a == (1.0 - sigma) / t && b == sigma / n
    ensures Mix(w, sigma)[i] == Affine(w, a, b)[i]
  {
    MixWeightAffine(w[i], sigma, t, |w|, n, a, b);
  }

  lemma SumAffineAt(s: seq<real>, a: real, b: real, t: real, n: real)
    requires t == Sum(s) && n == |s| as real
    ensures Sum(Affine(s, a, b)) == a * t + n * b
  {
    SumAffine(s, a, b);
  }

  lemma MixCoefficientsTotal(a: real, b: real, sigma: real, t: real, n: real)
    requires t != 0.0 && n != 0.0
    requires a == (1.0 - sigma) / t && b == sigma / n
    ensures a * t + n * b == 1.0
  {
  }

  /** The mixed weights add up to one. */
  lemma MixSumsToOne(w: seq<real>, sigma: real)
    requires |w| > 0 && Sum(w) != 0.0
    ensures Sum(Mix(w, sigma)) == 1.0
  {
    var t := Sum(w);
    var n := |w| as real;
    var a := (1.0 - sigma) / t;
    var b := sigma / n;
    MixIsAffine(w, sigma, t, n, a, b);
    SumAffineAt(w, a, b, t, n);
    MixCoefficientsTotal(a, b, sigma, t, n);
  }

  /** The uniform floor: every mixed weight is at least `sigma / K`. */
  lemma MixLowerBound(w: seq<real>, sigma: real)
    requires |w| > 0 && Sum(w) > 0.0 && sigma <= 1.0
    requires forall i :: 0 <= i < |w| ==> w[i] >= 0.0
    ensures forall i :: 0 <= i < |w| ==> Mix(w, sigma)[i] >= sigma / |w| as real
  {
    var t := Sum(w);
    var n := |w| as real;
    var a := (1.0 - sigma) / t;
    var b := sigma / n;
    MixIsAffine(w, sigma, t, n, a, b);
    QuotientNonNegative(1.0 - sigma, t);
    forall i | 0 <= i < |w| ensures Mix(w, sigma)[i] >= b {
      ProductNonNegative(a, w[i]);
    }
  }

  /** Mixing keeps positive weights positive. */
  lemma MixPositive(w: seq<real>, sigma: real)
    requires |w| > 0 && Sum(w) > 0.0 && 0.0 <= sigma <= 1.0
    requires forall i :: 0 <= i < |w| ==> w[i] > 0.0
    ensures forall i :: 0 <= i < |w| ==> Mix(w, sigma)[i] > 0.0
  {
    var t := Sum(w);
    var n := |w| as real;
    var a := (1.0 - sigma) / t;
    var b := sigma / n;
    MixIsAffine(w, sigma, t, n, a, b);
    if sigma < 1.0 {
      QuotientPositive(1.0 - sigma, t);
      QuotientNonNegative(sigma, |w| as real);
      forall i | 0 <= i < |w| ensures Mix(w, sigma)[i] > 0.0 {
        ProductPositive(a, w[i]);
      }
    } else {
      QuotientPositive(sigma, |w| as real);
      forall i | 0 <= i < |w| ensures Mix(w, sigma)[i] > 0.0 {
        assert a == 0.0;
      }
    }
  }

  lemma Reassociate(a: real, x: real, c: real, y: real)
    requires y == x * c
    ensures a * y == (a * c) * x
  {
  }

  lemma AffineOfScale(w: seq<real>, c: real, a: real, b: real)
    ensures Affine(Scale(w, c), a, b) == Affine(w, a * c, b)
  {
    var l := Affine(Scale(w, c), a, b);
    var r := Affine(w, a * c, b);
    forall i | 0 <= i < |w| ensures l[i] == r[i] {
      var x := w[i];
      var y := Scale(w, c)[i];
      assert y == x * c;
      Reassociate(a, x, c, y);
    }
  }

  lemma SumScaleAt(s: seq<real>, c: real, t: real)
    requires t == Sum(s)
    ensures Sum(Scale(s, c)) == c * t
  {
    SumScale(s, c);
  }

  lemma ProductNonZero(x: real, y: real, p: real)
    requires x != 0.0 && y != 0.0 && p == x * y
    ensures p != 0.0
  {
  }

  lemma ScaledCoefficient(x: real, c: real, t: real, ct: real, a: real, ac: real)
    requires c != 0.0 && t != 0.0 && ct == c * t
    requires a == x / t && ac == x / ct
    ensures ac * c == a
  {
  }

  /** Multiplying every weight by one positive factor (the shared
      `exp(-eta * loss)`) does not change the mixed weights. */
  lemma MixScaleInvariant(w: seq<real>, sigma: real, c: real)
    requires |w| > 0 && Sum(w) != 0.0 && c > 0.0
    ensures Sum(Scale(w, c)) != 0.0
    ensures Mix(Scale(w, c), sigma) == Mix(w, sigma)
  {
    var t := Sum(w);
    var ct := Sum(Scale(w, c));
    SumScaleAt(w, c, t);
    ProductNonZero(c, t, ct);
    var x := 1.0 - sigma;
    var a := x / t;
    var ac := x / ct;
    var n := |w| as real;
    var b := sigma / n;
    MixIsAffine(w, sigma, t, n, a, b);
    MixIsAffine(Scale(w, c), sigma, ct, n, ac, b);
    AffineOfScale(w, c, ac, b);
    ScaledCoefficient(x, c, t, ct, a, ac);
  }

  lemma UniformEntryFixed(sigma: real, k: real, u: real, a: real, b: real)
    requires k > 0.0 && u == 1.0 / k && a == (1.0 - sigma) / 1.0 && b == sigma / k
    ensures a * u + b == u
  {
  }

  /** Uniform weights are a fixed point of the mixing step. */
  lemma MixUniformFixed(k: nat, sigma: real)
    requires k > 0
    ensures Sum(Uniform(k)) == 1.0
    ensures Mix(Uniform(k), sigma) == Uniform(k)
  {
    UniformSumsToOne(k);
    var w := Uniform(k);
    var a := (1.0 - sigma) / 1.0;
    var n := k as real;
    var b := sigma / n;
    MixIsAffine(w, sigma, 1.0, n, a, b);
    forall i | 0 <= i < k ensures Mix(w, sigma)[i] == w[i] {
      UniformEntryFixed(sigma, n, w[i], a, b);
    }
  }

  /** Weights that start uniform stay uniform through any number of updates:
      the loss is one scalar shared by all experts. */
  lemma WeightsStayUniform(k: nat, sigma: real, c: real)
    requires k > 0 && c > 0.0
    ensures Sum(Scale(Uniform(k), c)) != 0.0
    ensures Mix(Scale(Uniform(k), c), sigma) == Uniform(k)
  {
    MixUniformFixed(k, sigma);
    MixScaleInvariant(Uniform(k), sigma, c);
  }

  /** The mixing step keeps valid weights valid and respects the floor. */
  lemma MixKeepsWeightsValid(w: seq<real>, sigma: real, c: real)
    requires WeightsValid(w) && |w| > 0 && 0.0 <= sigma <= 1.0 && c > 0.0
    ensures Sum(Scale(w, c)) > 0.0
    ensures WeightsValid(Mix(Scale(w, c), sigma))
    ensures forall i :: 0 <= i < |w| ==> Mix(Scale(w, c), sigma)[i] >= sigma / |w| as real
  {
    SumScaleAt(w, c, 1.0);
    MixScaleInvariant(w, sigma, c);
    MixPositive(w, sigma);
    MixSumsToOne(w, sigma);
    MixLowerBound(w, sigma);
  }

  /** The weight update: every weight is scaled by `exp(-eta * |alpha - breach|)`,
      then the weights are mixed with the uniform distribution. */
  function WeightsStep(w: seq<real>, alpha: real, eta: real, sigma: real, breach: int, exp: real -> real): (r: seq<real>)
    requires WeightsValid(w) && |w| > 0 && 0.0 <= sigma <= 1.0
    requires forall x :: exp(x) > 0.0
    ensures |r| == |w| && WeightsValid(r)
    ensures forall i :: 0 <= i < |w| ==> r[i] >= sigma / |w| as real
  {
    var factor := exp(-eta * Abs(alpha - breach as real));
    MixKeepsWeightsValid(w, sigma, factor);
    Mix(Scale(w, factor), sigma)
  }

  /** Uniform weights stay uniform through a weight update. */
  lemma WeightsStepUniform(k: nat, alpha: real, eta: real, sigma: real, breach: int, exp: real -> real)
    requires k > 0 && 0.0 <= sigma <= 1.0
    requires forall x :: exp(x) > 0.0
    ensures WeightsValid(Uniform(k))
    ensures WeightsStep(Uniform(k), alpha, eta, sigma, breach, exp) == Uniform(k)
  {
    UniformSumsToOne(k);
    var u := Uniform(k);
    forall i | 0 <= i < k ensures u[i] > 0.0 {
      QuotientPositive(1.0, k as real);
    }
    WeightsStayUniform(k, sigma, exp(-eta * Abs(alpha - breach as real)));
  }

  class DtAci {
    const alpha: real
    const gammaCandidates: seq<real>
    const eta: real
    const sigma: real
    const numExperts: nat
    /** Each expert's own `alpha_t` estimate. */
    const alphaT: array<real>
    const weights: array<real>

    ghost predicate Valid()
      reads alphaT, weights
    {
      && alphaT != weights
      && alphaT.Length == weights.Length == numExperts == |gammaCandidates|
      && ParametersValid(alpha, gammaCandidates, eta, sigma)
      && WeightsValid(weights[..])
    }

    /** The part of `DtACI.__init__` after validation: every expert starts at
        `alpha`, weights start uniform. */
    constructor (alpha: real, gammaCandidates: seq<real>, eta: real, sigma: real)
      requires ParametersValid(alpha, gammaCandidates, eta, sigma)
      ensures Valid() && fresh(alphaT) && fresh(weights)
      ensures this.alpha == alpha && this.gammaCandidates == gammaCandidates
      ensures this.eta == eta && this.sigma == sigma
      ensures alphaT[..] == seq(|gammaCandidates|, i => alpha)
      ensures weights[..] == Uniform(|gammaCandidates|)
    {
      this.alpha := alpha;
      this.gammaCandidates := gammaCandidates;
      this.eta := eta;
      this.sigma := sigma;
      var k := |gammaCandidates|;
      numExperts := k;
      alphaT := new real[k](i => alpha);
      weights := new real[k](i requires 0 <= i < k => 1.0 / k as real);
      new;
      assert weights[..] == Uniform(k);
      if k > 0 {
        UniformSumsToOne(k);
      }
    }

    /** `DtACI.update`. Rejects a breach outside {0, 1} before touching
        anything; with no experts the final `sigma / num_experts` divides by
        zero. Otherwise every expert steps, the weights are scaled by
        `exp(-eta * |alpha - breach|)` and mixed, and the weighted average of
        the experts, clipped to [0, 1], is returned. */
    method Update(breach: int, exp: real -> real) returns (r: Result<real>)
      requires Valid()
      requires forall x :: exp(x) > 0.0
      modifies alphaT, weights
      ensures Valid()
      ensures breach != 0 && breach != 1 ==>
        r == Err(InvalidBreach) && alphaT[..] == old(alphaT[..]) && weights[..] == old(weights[..])
      ensures (breach == 0 || breach == 1) && numExperts == 0 ==>
        r == Err(ZeroDivision) && alphaT[..] == old(alphaT[..]) && weights[..] == old(weights[..])
      ensures (breach == 0 || breach == 1) && numExperts > 0 ==>
        && alphaT[..] == ExpertsStep(old(alphaT[..]), gammaCandidates, alpha, breach)
        && weights[..] == WeightsStep(old(weights[..]), alpha, eta, sigma, breach, exp)
        && r == Ok(Clip(Dot(weights[..], alphaT[..]), 0.0, 1.0))
      ensures r.Ok? ==> 0.0 <= r.value <= 1.0
      ensures r.Ok? ==> forall i :: 0 <= i < numExperts ==> weights[i] >= sigma / numExperts as real
      ensures old(weights[..]) == Uniform(numExperts) ==> weights[..] == Uniform(numExperts)
    {
      if breach != 0 && breach != 1 {
        return Err(InvalidBreach);
      }
      if numExperts == 0 {
        // With no experts both element-wise updates leave the empty arrays as
        // they are; the division `sigma / num_experts` then raises.
        return Err(ZeroDivision);
      }
      if weights[..] == Uniform(numExperts) {
        WeightsStepUniform(numExperts, alpha, eta, sigma, breach, exp);
      }
      StepExperts(alphaT, gammaCandidates, alpha, breach);
      StepWeights(weights, alpha, eta, sigma, breach, exp);
      r := Ok(Clip(Dot(weights[..], alphaT[..]), 0.0, 1.0));
    }
  }

  /** `alpha_t[i] += gamma_i * (alpha - breach)` for every expert. */
  method StepExperts(experts: array<real>, gammas: seq<real>, alpha: real, breach: int)
    requires experts.Length == |gammas|
    modifies experts
    ensures experts[..] == ExpertsStep(old(experts[..]), gammas, alpha, breach)
  {
    ghost var experts0 := experts[..];
    var i := 0;
    while i < experts.Length
      invariant 0 <= i <= experts.Length
      invariant forall k :: 0 <= k < i ==> experts[k] == experts0[k] + gammas[k] * (alpha - breach as real)
      invariant forall k :: i <= k < experts.Length ==> experts[k] == experts0[k]
    {
      experts[i] := experts[i] + gammas[i] * (alpha - breach as real);
      i := i + 1;
    }
    assert experts[..] == ExpertsStep(experts0, gammas, alpha, breach);
  }

  /** The two element-wise weight updates of `DtACI.update`. */
  method StepWeights(w: array<real>, alpha: real, eta: real, sigma: real, breach: int, exp: real -> real)
    requires WeightsValid(w[..]) && w.Length > 0 && 0.0 <= sigma <= 1.0
    requires forall x :: exp(x) > 0.0
    modifies w
    ensures w[..] == WeightsStep(old(w[..]), alpha, eta, sigma, breach, exp)
  {
    ghost var w0 := w[..];
    var factor := exp(-eta * Abs(alpha - breach as real));
    ScaleInPlace(w, factor);
    MixKeepsWeightsValid(w0, sigma, factor);
    MixInPlace(w, sigma);
  }

  /** `weights *= c`. */
  method ScaleInPlace(w: array<real>, c: real)
    modifies w
    ensures w[..] == Scale(old(w[..]), c)
  {
    ghost var w0 := w[..];
    var i := 0;
    while i < w.Length
      invariant 0 <= i <= w.Length
      invariant forall k :: 0 <= k < i ==> w[k] == w0[k] * c
      invariant forall k :: i <= k < w.Length ==> w[k] == w0[k]
    {
      w[i] := w[i] * c;
      i := i + 1;
    }
    assert w[..] == Scale(w0, c) by {
      forall k | 0 <= k < w.Length ensures w[..][k] == Scale(w0, c)[k] {
      }
    }
  }

  /** `weights = (1 - sigma) * weights / np.sum(weights) + sigma / K`. */
  method MixInPlace(w: array<real>, sigma: real)
    requires w.Length > 0 && Sum(w[..]) != 0.0
    modifies w
    ensures w[..] == Mix(old(w[..]), sigma)
  {
    ghost var w0 := w[..];
    var total := Sum(w[..]);
    var count := w.Length;
    var i := 0;
    while i < count
      invariant 0 <= i <= count
      invariant forall k :: 0 <= k < i ==> w[k] == MixWeight(w0[k], sigma, total, count)
      invariant forall k :: i <= k < count ==> w[k] == w0[k]
    {
      w[i] := MixWeight(w[i], sigma, total, count);
      i := i + 1;
    }
    assert w[..] == Mix(w0, sigma);
  }

  /** `DtACI(alpha, gamma_candidates, eta, sigma)`: validates eagerly and
      raises on the first failing check; `None` selects the default step sizes. */
  method CreateDtAci(alpha: real, gammaCandidates: Option<seq<real>>, eta: real, sigma: real)
    returns (r: Result<DtAci>)
    ensures var gammas := if gammaCandidates.Some? then gammaCandidates.value else DefaultGammaCandidates;
      && (r.Err? <==> CheckParameters(alpha, gammas, eta, sigma).Some?)
      && (r.Err? ==> Some(r.error) == CheckParameters(alpha, gammas, eta, sigma))
      && (r.Ok? ==>
            && fresh(r.value.alphaT) && fresh(r.value.weights) && r.value.Valid()
            && r.value.alpha == alpha && r.value.gammaCandidates == gammas
            && r.value.eta == eta && r.value.sigma == sigma
            && r.value.alphaT[..] == seq(|gammas|, i => alpha)
            && r.value.weights[..] == Uniform(|gammas|))
  {
    var gammas := if gammaCandidates.Some? then gammaCandidates.value else DefaultGammaCandidates;
    var check := CheckParameters(alpha, gammas, eta, sigma);
    if check.Some? {
      return Err(check.value);
    }
    var d := new DtAci(alpha, gammas, eta, sigma);
    r := Ok(d);
  }

  // ---------------------------------------------------------------------------
  // The sum type of controllers

  /** The `adapter_framework` literal a sampler is given. */
  datatype Framework = AciFramework | DtAciFramework

  /** The state an adapter's `update` changes. */
  datatype AdapterState =
    | AciState(alphaT: real)
    | DtAciState(experts: seq<real>, weights: seq<real>)

  /** A controller, either variant; the samplers call `update` through it. */
  datatype Adapter = AciAdapter(aci: Aci) | DtAciAdapter(dtaci: DtAci)
  {
    /** The objects an update may change. */
    ghost function Repr(): set<object>
    {
      match this
      case AciAdapter(a) => {a}
      case DtAciAdapter(d) => {d, d.alphaT, d.weights}
    }

    ghost predicate Valid()
      reads Repr()
    {
      match this
      case AciAdapter(_) => true
      case DtAciAdapter(d) => d.Valid()
    }

    ghost function State(): AdapterState
      reads Repr()
    {
      match this
      case AciAdapter(a) => AciState(a.alphaT)
      case DtAciAdapter(d) => DtAciState(d.alphaT[..], d.weights[..])
    }

    /** `st` is a state this adapter can be in. */
    ghost predicate Fits(st: AdapterState)
    {
      match this
      case AciAdapter(_) => st.AciState?
      case DtAciAdapter(d) =>
        && st.DtAciState?
        && |st.experts| == |st.weights| == d.numExperts == |d.gammaCandidates|
        && ParametersValid(d.alpha, d.gammaCandidates, d.eta, d.sigma)
        && WeightsValid(st.weights)
    }
  }

  lemma ValidFits(a: Adapter)
    requires a.Valid()
    ensures a.Fits(a.State())
  {
  }

  /** What one `update` call does to an adapter in state `st`: the value it
      returns (or the error it raises) and the state it leaves behind. */
  ghost function AdapterStep(a: Adapter, st: AdapterState, breach: int, exp: real -> real): (AdapterResult)
    requires a.Fits(st)
    requires forall x :: exp(x) > 0.0
  {
    match a
    case AciAdapter(c) =>
      var next := AciStep(st.alphaT, c.alpha, c.gamma, breach);
      AdapterResult(Ok(next), AciState(next))
    case DtAciAdapter(d) =>
      if breach != 0 && breach != 1 then AdapterResult(Err(InvalidBreach), st)
      else if d.numExperts == 0 then AdapterResult(Err(ZeroDivision), st)
      else
        var experts := ExpertsStep(st.experts, d.gammaCandidates, d.alpha, breach);
        var weights := WeightsStep(st.weights, d.alpha, d.eta, d.sigma, breach, exp);
        AdapterResult(Ok(Clip(Dot(weights, experts), 0.0, 1.0)), DtAciState(experts, weights))
  }

  datatype AdapterResult = AdapterResult(output: Result<real>, state: AdapterState)

  /** An update returns a level in [0, 1] (ACI: in [0.01, 0.99]), keeps the
      adapter in a valid state, and fails only for DtACI, exactly when the
      breach is not 0 or 1 or there are no experts; a failed update changes
      nothing. */
  lemma AdapterStepFacts(a: Adapter, st: AdapterState, breach: int, exp: real -> real)
    requires a.Fits(st)
    requires forall x :: exp(x) > 0.0
    ensures a.Fits(AdapterStep(a, st, breach, exp).state)
    ensures var out := AdapterStep(a, st, breach, exp).output;
      && (out.Ok? ==> 0.0 <= out.value <= 1.0)
      && (a.AciAdapter? ==> out.Ok? && 0.01 <= out.value <= 0.99)
      && (out.Err? <==> a.DtAciAdapter? && ((breach != 0 && breach != 1) || a.dtaci.numExperts == 0))
      && (out.Err? ==> AdapterStep(a, st, breach, exp).state == st)
  {
  }

  /** `adapter.update(breach_indicator=breach)` on either variant. */
  method UpdateAdapter(a: Adapter, breach: int, exp: real -> real) returns (r: Result<real>)
    requires a.Valid()
    requires forall x :: exp(x) > 0.0
    modifies a.Repr()
    ensures a.Valid()
    ensures a.Fits(old(a.State()))
    ensures AdapterStep(a, old(a.State()), breach, exp) == AdapterResult(r, a.State())
  {
    match a
    case AciAdapter(c) =>
      var v := c.Update(breach);
      r := Ok(v);
    case DtAciAdapter(d) =>
      r := d.Update(breach, exp);
  }

  /** `a` is what `ACI(alpha=alpha)` or `DtACI(alpha=alpha)` builds: the
      framework's variant, with that `alpha` and the default parameters, in
      its initial state. */
  ghost predicate BuiltFor(a: Adapter, framework: Framework, alpha: real)
    reads a.Repr()
  {
    match framework
    case AciFramework =>
      && a.AciAdapter? && a.aci.alpha == alpha && a.aci.gamma == AciDefaultGamma
      && a.State() == AciState(alpha)
    case DtAciFramework =>
      && a.DtAciAdapter? && a.dtaci.alpha == alpha
      && a.dtaci.gammaCandidates == DefaultGammaCandidates
      && a.dtaci.eta == DtAciDefaultEta && a.dtaci.sigma == DtAciDefaultSigma
      && a.State() == DtAciState(seq(8, i => alpha), Uniform(8))
  }

  /** `ACI(alpha=alpha)` or `DtACI(alpha=alpha)` with their defaults; only the
      DtACI constructor can raise (for `alpha` outside (0, 1)). */
  method CreateAdapter(framework: Framework, alpha: real) returns (r: Result<Adapter>)
    ensures r.Err? <==> framework == DtAciFramework && !(0.0 < alpha < 1.0)
    ensures r.Err? ==> r.error == AlphaOutOfRange
    ensures r.Ok? ==> fresh(r.value.Repr()) && r.value.Valid() && BuiltFor(r.value, framework, alpha)
  {
    match framework
    case AciFramework =>
      var c := new Aci(alpha, AciDefaultGamma);
      r := Ok(AciAdapter(c));
    case DtAciFramework =>
      var d := CreateDtAci(alpha, None, DtAciDefaultEta, DtAciDefaultSigma);
      if d.Err? {
        return Err(d.error);
      }
      r := Ok(DtAciAdapter(d.value));
  }
}
