/** The option's parameter set and its payoff (include/OptionData.hpp). */
module OptionData {
  import opened Numerics

  datatype OptionType = Call | Put

  /** Strike, maturity, rate, volatility, dividend yield, initial level,
      barrier level, CEV elasticity, CEV scale and the option type. */
  datatype OptionData = OptionData(
    K: real, T: real, r: real, vol: real, q: real, S0: real,
    H: real, betaCEV: real, scale: real, kind: OptionType)

  /** The default constructor: every number zero, type Call. */
  function Default(): (d: OptionData)
    ensures d.K == 0.0 && d.T == 0.0 && d.r == 0.0 && d.vol == 0.0 && d.q == 0.0
    ensures d.S0 == 0.0 && d.H == 0.0 && d.betaCEV == 0.0 && d.scale == 0.0
    ensures d.kind == Call
  {
    OptionData(0.0, 0.0, 0.0, 0.0, 0.0, 0.0, 0.0, 0.0, 0.0, Call)
  }

  /** `myPayOffFunction`: the payoff at level S. For a call it is the least
      non-negative amount that is at least S - K, for a put the least
      non-negative amount that is at least K - S. */
  function PayOff(d: OptionData, S: real): (p: real)
    ensures p >= 0.0
    ensures d.kind == Call ==> p >= S - d.K && (p == 0.0 || p == S - d.K)
    ensures d.kind == Put ==> p >= d.K - S && (p == 0.0 || p == d.K - S)
  {
    if d.kind == Call then Max(S - d.K, 0.0) else Max(d.K - S, 0.0)
  }

  /** Put-call parity of the terminal payoffs: for the same strike and level,
      call payoff minus put payoff is S - K, and at most one of them is positive. */
  lemma PutCallParity(d: OptionData, S: real)
    ensures PayOff(d.(kind := Call), S) - PayOff(d.(kind := Put), S) == S - d.K
    ensures PayOff(d.(kind := Call), S) == 0.0 || PayOff(d.(kind := Put), S) == 0.0
  {
  }
}
