/** The two concrete stochastic processes (src/SDEConcrete.cpp): geometric
    Brownian motion and constant elasticity of variance. Both read the
    shared, immutable option data; neither holds any other state. */
module SdeConcrete {
  import opened Numerics
  import opened OptionData

  datatype Concrete = GBM(data: OptionData) | CEV(data: OptionData) {

    /** Maturity of the option. */
    function Expiry(): real { data.T }

    /** Starting level of the process. */
    function InitialCondition(): real { data.S0 }

    /** Drift term (r - q) S, the same for both processes; t is unused. */
    function Drift(S: real, t: real): real { (data.r - data.q) * S }

    /** Diffusion term: vol S for GBM, vol S^beta for CEV; t is unused. */
    function Diffusion(m: Libm, S: real, t: real): real {
      match this
      case GBM(_) => data.vol * S
      case CEV(_) => data.vol * m.pow(S, data.betaCEV)
    }

    /** Levels at which the diffusion derivative is defined: the CEV branch
        for beta <= 1 divides by S^(1 - beta), which must not vanish. The
        source does not guard this; keeping levels admissible is the caller's
        duty (a zero divisor would give an IEEE infinity, not modelled). */
    predicate Admissible(m: Libm, S: real) {
      GBM? || data.betaCEV > 1.0 || m.pow(S, 1.0 - data.betaCEV) != 0.0
    }

    /** Derivative of the diffusion in S. For CEV the two branches are the
        same quantity written so that the exponent of S is never negative. */
    function DiffusionDerivative(m: Libm, S: real): real
      requires Admissible(m, S)
    {
      match this
      case GBM(_) => data.vol
      case CEV(_) =>
        if data.betaCEV > 1.0 then data.vol * data.betaCEV * m.pow(S, data.betaCEV - 1.0)
        else data.vol * data.betaCEV / m.pow(S, 1.0 - data.betaCEV)
    }

    /** Drift corrected by the market price of risk B. */
    function DriftCorrected(m: Libm, S: real, t: real, B: real): real
      requires Admissible(m, S)
    {
      Drift(S, t) - B * Diffusion(m, S, t) * DiffusionDerivative(m, S)
    }
  }

  /** GBM: expiry T, initial level S0, drift (r - q) S for every t, diffusion
      vol S, a constant diffusion derivative vol, and the corrected drift
      (r - q) S - B vol^2 S. */
  lemma GbmCoefficients(d: OptionData, m: Libm, S: real, t: real, t': real, S': real, B: real)
    ensures GBM(d).Expiry() == d.T && GBM(d).InitialCondition() == d.S0
    ensures GBM(d).Drift(S, t) == (d.r - d.q) * S == GBM(d).Drift(S, t')
    ensures GBM(d).Diffusion(m, S, t) == d.vol * S
    ensures GBM(d).DiffusionDerivative(m, S) == d.vol == GBM(d).DiffusionDerivative(m, S')
    ensures GBM(d).DriftCorrected(m, S, t, B) == (d.r - d.q) * S - B * d.vol * d.vol * S
  {
  }

  /** CEV shares GBM's expiry, initial level and drift for the same data. */
  lemma CevSharesGbmDrift(d: OptionData, S: real, t: real)
    ensures CEV(d).Expiry() == GBM(d).Expiry()
    ensures CEV(d).InitialCondition() == GBM(d).InitialCondition()
    ensures CEV(d).Drift(S, t) == GBM(d).Drift(S, t)
  {
  }

  /** The two branches of CEV's diffusion derivative are one quantity:
      wherever S^(1 - beta) and S^(beta - 1) are reciprocal, the level is
      admissible and the derivative is vol beta S^(beta - 1) for every beta,
      on either side of beta = 1. */
  lemma CevDiffusionDerivative(d: OptionData, m: Libm, S: real)
    requires m.pow(S, 1.0 - d.betaCEV) * m.pow(S, d.betaCEV - 1.0) == 1.0
    ensures CEV(d).Admissible(m, S)
    ensures CEV(d).DiffusionDerivative(m, S) == d.vol * d.betaCEV * m.pow(S, d.betaCEV - 1.0)
  {
    var down, up := m.pow(S, 1.0 - d.betaCEV), m.pow(S, d.betaCEV - 1.0);
    if d.betaCEV <= 1.0 {
      ReciprocalQuotient(d.vol * d.betaCEV, down, up);
    }
  }

  /** Dividing by one of two reciprocals is multiplying by the other. */
  lemma ReciprocalQuotient(x: real, down: real, up: real)
    requires down * up == 1.0
    ensures down != 0.0 && x / down == x * up
  {
    assert x / down * (down * up) == x * up;
  }

  /** CEV's corrected drift, with the derivative in its single form: drift
      minus B times vol S^beta times vol beta S^(beta - 1). */
  lemma CevDriftCorrected(d: OptionData, m: Libm, S: real, t: real, B: real)
    requires m.pow(S, 1.0 - d.betaCEV) * m.pow(S, d.betaCEV - 1.0) == 1.0
    ensures CEV(d).Admissible(m, S)
    ensures CEV(d).DriftCorrected(m, S, t, B)
         == (d.r - d.q) * S - B * (d.vol * m.pow(S, d.betaCEV)) * (d.vol * d.betaCEV * m.pow(S, d.betaCEV - 1.0))
  {
    CevDiffusionDerivative(d, m, S);
  }

  /** At elasticity 1, where S^1 = S and S^0 = 1, CEV is GBM: the same
      diffusion, diffusion derivative and corrected drift. */
  lemma CevAtUnitElasticity(d: OptionData, m: Libm, S: real, t: real, B: real)
    requires d.betaCEV == 1.0 && m.pow(S, 1.0) == S && m.pow(S, 0.0) == 1.0
    ensures CEV(d).Admissible(m, S)
    ensures CEV(d).Diffusion(m, S, t) == GBM(d).Diffusion(m, S, t)
    ensures CEV(d).DiffusionDerivative(m, S) == GBM(d).DiffusionDerivative(m, S)
    ensures CEV(d).DriftCorrected(m, S, t, B) == GBM(d).DriftCorrected(m, S, t, B)
  {
    assert 1.0 - d.betaCEV == 0.0;
    assert CEV(d).DiffusionDerivative(m, S) == d.vol;
  }
}
