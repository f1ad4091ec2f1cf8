/** Options priced by the simulation: the European call and put, and the
    degenerate option whose payoff is the underlying price itself (used as a
    control variate). */
module Options {

  datatype OptionType = Call | Put

  /** An option: a payoff of the terminal price, and a maturity. A European
      option stores its strike, maturity and type exactly as constructed; Custom
      stands for any other implementation of the abstract Option interface. */
  datatype Option =
    | European(strike: real, maturity: real, optionType: OptionType)
    | NoOption(maturity: real)
    | Custom(payoff: real -> real, maturity: real)

  function Max(a: real, b: real): real
  {
    if a >= b then a else b
  }

  /** The payoff at maturity for terminal price st: max(st - K, 0) for a call,
      max(K - st, 0) for a put, st itself for the degenerate option, and its own
      payoff function for any other option. */
  function Payoff(o: Option, st: real): (p: real)
    ensures o.European? ==> p >= 0.0
  {
    match o
    case NoOption(_) => st
    case Custom(f, _) => f(st)
    case European(k, _, Call) => Max(st - k, 0.0)
    case European(k, _, Put) => Max(k - st, 0.0)
  }

  /** The European payoff is the smallest non-negative amount that is at least the
      exercise value (st - K for a call, K - st for a put), and equal to one of the two. */
  lemma PayoffCases(o: Option, st: real)
    ensures o.NoOption? ==> Payoff(o, st) == st
    ensures o.European? && o.optionType == Call ==>
      Payoff(o, st) >= 0.0 && Payoff(o, st) >= st - o.strike && (Payoff(o, st) == 0.0 || Payoff(o, st) == st - o.strike)
    ensures o.European? && o.optionType == Put ==>
      Payoff(o, st) >= 0.0 && Payoff(o, st) >= o.strike - st && (Payoff(o, st) == 0.0 || Payoff(o, st) == o.strike - st)
  {
  }

  /** Every European payoff is non-negative. */
  lemma PayoffNonnegative(o: Option, st: real)
    requires o.European?
    ensures Payoff(o, st) >= 0.0
  {
  }

  /** Payoff-level put-call parity: call minus put is st - K. */
  lemma PutCallParity(strike: real, maturity: real, st: real)
    ensures Payoff(European(strike, maturity, Call), st) - Payoff(European(strike, maturity, Put), st) == st - strike
  {
  }

  /** The call payoff is non-decreasing and the put payoff non-increasing in st. */
  lemma PayoffMonotone(strike: real, maturity: real, s1: real, s2: real)
    requires s1 <= s2
    ensures Payoff(European(strike, maturity, Call), s1) <= Payoff(European(strike, maturity, Call), s2)
    ensures Payoff(European(strike, maturity, Put), s1) >= Payoff(European(strike, maturity, Put), s2)
  {
  }

  /** Out of the money the payoff is zero: the call when st <= K, the put when st >= K. */
  lemma OutOfTheMoney(strike: real, maturity: real, st: real)
    ensures st <= strike ==> Payoff(European(strike, maturity, Call), st) == 0.0
    ensures st >= strike ==> Payoff(European(strike, maturity, Put), st) == 0.0
  {
  }
}
