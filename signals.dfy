/** The three-valued trading signal used by the strategy, the backtest and the trader. */
module Signals {

  datatype Signal = Buy | Sell | Hold

  /** The wire spelling of a signal ('BUY', 'SELL', 'HOLD'). */
  function SignalText(s: Signal): (t: string)
    ensures t in {"BUY", "SELL", "HOLD"}
  {
    match s
    case Buy => "BUY"
    case Sell => "SELL"
    case Hold => "HOLD"
  }

  /** Distinct signals are spelled differently, so the text determines the signal. */
  lemma SignalTextInjective(a: Signal, b: Signal)
    requires SignalText(a) == SignalText(b)
    ensures a == b
  {
  }
}
