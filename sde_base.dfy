/** The SDE bridge (src/SDEBase.cpp): a wrapper that holds a copy of a
    process and forwards every coefficient query to it unchanged. */
module SdeBase {
  import opened Numerics
  import opened OptionData
  import opened SdeConcrete

  /** A coefficient of the equation as a function of (level, time). */
  type Term = (real, real) -> real

  /** What a wrapped process offers, member by member. `expiry` is demanded
      of every process; the optional terms are present exactly when the
      process has the member that the corresponding C++ concept tests for. */
  datatype Process = Process(
    expiry: real,
    initialCondition: real,
    drift: Term,
    diffusion: Term,
    jump: Option<Term>,
    convection: Option<Term>,
    reaction: Option<Term>)

  /** The members of a concrete process as the bridge sees them. Neither GBM
      nor CEV has a jump, convection or reaction term. */
  function AsProcess(c: Concrete, m: Libm): (p: Process)
    ensures p.jump == None && p.convection == None && p.reaction == None
    ensures p.expiry == c.data.T && p.initialCondition == c.data.S0
  {
    Process(c.Expiry(), c.InitialCondition(),
            (S, t) => c.Drift(S, t), (S, t) => c.Diffusion(m, S, t),
            None, None, None)
  }

  /** `SDEBase<SDE>`: the constructor stores a copy of the process. */
  datatype SdeBase = SdeBase(sde: Process) {

    function Expiry(): real { sde.expiry }

    function InitialCondition(): real { sde.initialCondition }

    function Drift(S: real, t: real): real { sde.drift(S, t) }

    function Diffusion(S: real, t: real): real { sde.diffusion(S, t) }

    /** Only available for a process with a jump term. */
    function Jump(S: real, t: real): real
      requires sde.jump.Some?
    {
      sde.jump.value(S, t)
    }

    /** Only available for a process with a convection term. */
    function Convection(S: real, t: real): real
      requires sde.convection.Some?
    {
      sde.convection.value(S, t)
    }

    /** Only available for a process with a reaction term. */
    function Reaction(S: real, t: real): real
      requires sde.reaction.Some?
    {
      sde.reaction.value(S, t)
    }
  }

  /** Wrapping GBM or CEV and asking the bridge gives the concrete process's
      own expiry, initial level, drift and diffusion at the same (S, t). */
  lemma BridgeForwardsConcrete(c: Concrete, m: Libm, S: real, t: real)
    ensures SdeBase(AsProcess(c, m)).Expiry() == c.Expiry()
    ensures SdeBase(AsProcess(c, m)).InitialCondition() == c.InitialCondition()
    ensures SdeBase(AsProcess(c, m)).Drift(S, t) == c.Drift(S, t)
    ensures SdeBase(AsProcess(c, m)).Diffusion(S, t) == c.Diffusion(m, S, t)
  {
  }

  /** The optional terms are forwarded with both arguments unchanged, for any
      wrapped process that has them. */
  lemma BridgeForwardsOptionalTerms(p: Process, S: real, t: real)
    ensures p.jump.Some? ==> SdeBase(p).Jump(S, t) == p.jump.value(S, t)
    ensures p.convection.Some? ==> SdeBase(p).Convection(S, t) == p.convection.value(S, t)
    ensures p.reaction.Some? ==> SdeBase(p).Reaction(S, t) == p.reaction.value(S, t)
  {
  }
}
