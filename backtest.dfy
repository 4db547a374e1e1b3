/**
 * The backtest service: replay a candle series with a (cash, coin) wallet
 * that goes all-in on BUY and all-out on SELL, the signal for each candle
 * coming from the indicators of the candles before it. The historical data
 * is an input (the service method that would fetch it is not part of this
 * model).
 *
 * As written, the source computes the indicators of the empty history
 * before the first candle, where the EMA reads the close of a missing
 * candle and throws; and an empty series throws when the final balance
 * reads the last close. `RunBacktestAsWritten` models that code;
 * `RunBacktest` is the corrected replay, in which a candle with no history
 * holds.
 */
module Backtest {
  import opened Wrappers
  import opened Signals
  import opened Indicators

  datatype Wallet = Wallet(cash: real, coin: real)

  /** One entry of `results`: the balance recorded is the cash after the trade. */
  datatype Trade = Trade(date: int, action: Signal, price: real, balance: real)

  /** The wallet and the trades recorded so far. */
  datatype State = State(wallet: Wallet, results: seq<Trade>)

  datatype Report = Report(results: seq<Trade>, finalBalance: real)

  datatype BacktestError =
    | EmptyHistory  // the indicators of an empty prefix were asked for
    | NoLastCandle  // the final balance read the close of a missing last candle

  /** 10000 in cash, no coin, nothing traded. */
  const Initial := State(Wallet(10000.0, 0.0), [])

  /** Every close is non-zero, so buying `cash / close` is defined. */
  predicate NonZeroCloses(candles: seq<Candle>) {
    forall i :: 0 <= i < |candles| ==> candles[i].close != 0.0
  }

  /** `generateSignal` */
  function GenerateSignal(ind: IndicatorSet): (s: Signal)
    ensures s == Buy <==> ind.ema20 > ind.ema50 && ind.rsi < 70.0
    ensures s == Sell <==> ind.ema20 < ind.ema50 && ind.rsi > 30.0
    ensures ind.ema20 == ind.ema50 ==> s == Hold
  {
    if ind.ema20 > ind.ema50 && ind.rsi < 70.0 then Buy
    else if ind.ema20 < ind.ema50 && ind.rsi > 30.0 then Sell
    else Hold
  }

  /** The indicators of a history, or `None` where the source's EMA throws (an empty history). */
  function HistoryIndicators(history: seq<Candle>): Option<IndicatorSet> {
    if history == [] then None else Some(IndicatorsOf(Closes(history)))
  }

  /** The corrected signal for candle i: HOLD without history, else the signal of candles[..i]. */
  function SignalAt(candles: seq<Candle>, i: nat): (s: Signal)
    requires i < |candles|
    ensures i == 0 ==> s == Hold
    ensures i > 0 ==> s == GenerateSignal(IndicatorsOf(Closes(candles[..i])))
  {
    match HistoryIndicators(candles[..i])
    case None => Hold
    case Some(ind) => GenerateSignal(ind)
  }

  /** The coin bought with `cash` at `price`: `cash / price`. */
  function CoinFor(cash: real, price: real): real
    requires price != 0.0
  {
    cash / price
  }

  /** The cash `coin` sells for at `price`: `coin * price`. */
  function ValueOf(coin: real, price: real): real {
    coin * price
  }

  /** One iteration of the loop body at candle `c`. */
  function Step(s: State, signal: Signal, c: Candle): (t: State)
    requires c.close != 0.0
    ensures |s.results| <= |t.results| <= |s.results| + 1 && t.results[..|s.results|] == s.results
    ensures t.results == s.results <==> t == s
    ensures t.results != s.results ==> t.results[|s.results|] == Trade(c.openTime, signal, c.close, t.wallet.cash)
    ensures signal == Hold ==> t == s
    ensures signal == Buy && s.wallet.cash > 0.0 ==>
      t.wallet == Wallet(0.0, CoinFor(s.wallet.cash, c.close)) && |t.results| == |s.results| + 1
    ensures signal == Sell && s.wallet.coin > 0.0 ==>
      t.wallet == Wallet(ValueOf(s.wallet.coin, c.close), 0.0) && |t.results| == |s.results| + 1
    ensures !(signal == Buy && s.wallet.cash > 0.0) && !(signal == Sell && s.wallet.coin > 0.0) ==> t == s
  {
    if signal == Buy && s.wallet.cash > 0.0 then
      State(Wallet(0.0, CoinFor(s.wallet.cash, c.close)), s.results + [Trade(c.openTime, Buy, c.close, 0.0)])
    else if signal == Sell && s.wallet.coin > 0.0 then
      var balance := ValueOf(s.wallet.coin, c.close);
      State(Wallet(balance, 0.0), s.results + [Trade(c.openTime, Sell, c.close, balance)])
    else s
  }

  /** The state after the first n candles of the corrected replay. */
  function Run(candles: seq<Candle>, n: nat): State
    requires n <= |candles| && NonZeroCloses(candles)
    decreases n
  {
    if n == 0 then Initial
    else Step(Run(candles, n - 1), SignalAt(candles, n - 1), candles[n - 1])
  }

  /** Run advances by one Step per candle. */
  lemma RunStep(candles: seq<Candle>, i: nat)
    requires i < |candles| && NonZeroCloses(candles)
    ensures Run(candles, i + 1) == Step(Run(candles, i), SignalAt(candles, i), candles[i])
  {
  }

  /** `balance + btcBalance * close` */
  function FinalBalance(w: Wallet, close: real): real {
    w.cash + ValueOf(w.coin, close)
  }

  /** The source's loop as written: the first candle's empty history ends the run with an error. */
  function RunBacktestAsWritten(candles: seq<Candle>, i: nat, s: State): Result<Report, BacktestError>
    requires i <= |candles| && (i == 0 || NonZeroCloses(candles))
    decreases |candles| - i
  {
    if i == |candles| then
      if |candles| == 0 then Failure(NoLastCandle)
      else Success(Report(s.results, FinalBalance(s.wallet, candles[|candles| - 1].close)))
    else
      match HistoryIndicators(candles[..i])
      case None => Failure(EmptyHistory)
      case Some(ind) => RunBacktestAsWritten(candles, i + 1, Step(s, GenerateSignal(ind), candles[i]))
  }

  /** As written, no input yields a report: an empty series fails at the end, any other at its first candle. */
  lemma AsWrittenNeverReports(candles: seq<Candle>)
    ensures RunBacktestAsWritten(candles, 0, Initial).Failure?
    ensures |candles| > 0 ==> RunBacktestAsWritten(candles, 0, Initial) == Failure(EmptyHistory)
  {
    if |candles| > 0 {
      assert candles[..0] == [];
    }
  }

  /**
   * `runBacktest`, corrected: a candle with no history holds. An empty
   * series still fails, since there is no last close to value the coin at.
   */
  method RunBacktest(candles: seq<Candle>) returns (r: Result<Report, BacktestError>)
    requires NonZeroCloses(candles)
    ensures |candles| == 0 ==> r == Failure(NoLastCandle)
    ensures |candles| > 0 ==>
      var s := Run(candles, |candles|);
      r == Success(Report(s.results, FinalBalance(s.wallet, candles[|candles| - 1].close)))
  {
    var balance := 10000.0;
    var btcBalance := 0.0;
    var results: seq<Trade> := [];
    var i := 0;
    while i < |candles|
      invariant 0 <= i <= |candles|
      invariant Run(candles, i) == State(Wallet(balance, btcBalance), results)
    {
      var candle := candles[i];
      var signal := Hold;
      if i > 0 {
        var indicators := CalculateIndicators(candles[..i]);
        signal := GenerateSignal(indicators);
      }
      assert signal == SignalAt(candles, i);
      ghost var before := State(Wallet(balance, btcBalance), results);
      if signal == Buy && balance > 0.0 {
        btcBalance := CoinFor(balance, candle.close);
        balance := 0.0;
        results := results + [Trade(candle.openTime, Buy, candle.close, balance)];
      } else if signal == Sell && btcBalance > 0.0 {
        balance := ValueOf(btcBalance, candle.close);
        btcBalance := 0.0;
        results := results + [Trade(candle.openTime, Sell, candle.close, balance)];
      }
      assert State(Wallet(balance, btcBalance), results) == Step(before, signal, candle);
      RunStep(candles, i);
      i := i + 1;
    }
    if |candles| == 0 {
      return Failure(NoLastCandle);
    }
    assert Run(candles, |candles|) == State(Wallet(balance, btcBalance), results);
    r := Success(Report(results, FinalBalance(Wallet(balance, btcBalance), candles[|candles| - 1].close)));
  }

  /**
   * The recorded trades alternate BUY, SELL, BUY, ... and the parity of
   * their number says which side of the wallet is empty: no coin after an
   * even number of trades, no cash after an odd number.
   */
  ghost predicate Alternates(s: State) {
    && (forall j :: 0 <= j < |s.results| ==> s.results[j].action == (if j % 2 == 0 then Buy else Sell))
    && (|s.results| % 2 == 0 ==> s.wallet.coin == 0.0)
    && (|s.results| % 2 == 1 ==> s.wallet.cash == 0.0)
  }

  /** A step keeps the alternation and records at most one trade. */
  lemma StepAlternates(s: State, signal: Signal, c: Candle)
    requires c.close != 0.0 && Alternates(s)
    ensures Alternates(Step(s, signal, c))
    ensures |s.results| <= |Step(s, signal, c).results| <= |s.results| + 1
  {
  }

  /**
   * Starting from (10000, 0), the trades alternate beginning with BUY, after
   * every candle the cash or the coin is 0, and there are at most as many
   * trades as candles replayed.
   */
  lemma {:induction false} RunAlternates(candles: seq<Candle>, n: nat)
    requires n <= |candles| && NonZeroCloses(candles)
    ensures Alternates(Run(candles, n))
    ensures Run(candles, n).wallet.cash == 0.0 || Run(candles, n).wallet.coin == 0.0
    ensures |Run(candles, n).results| <= n
    decreases n
  {
    if n > 0 {
      RunAlternates(candles, n - 1);
      StepAlternates(Run(candles, n - 1), SignalAt(candles, n - 1), candles[n - 1]);
    }
  }

  /** No look-ahead: the state after n candles depends only on those n candles. */
  lemma {:induction false} RunUsesOnlyPastCandles(a: seq<Candle>, b: seq<Candle>, n: nat)
    requires n <= |a| && n <= |b| && NonZeroCloses(a) && NonZeroCloses(b)
    requires a[..n] == b[..n]
    ensures Run(a, n) == Run(b, n)
    decreases n
  {
    if n > 0 {
      assert a[..n - 1] == a[..n][..n - 1] == b[..n][..n - 1] == b[..n - 1];
      RunUsesOnlyPastCandles(a, b, n - 1);
      assert a[n - 1] == a[..n][n - 1] == b[..n][n - 1] == b[n - 1];
    }
  }

  /** The signal for candle i is computed from candles[..i] alone, never from candle i or later. */
  lemma SignalUsesOnlyPastCandles(a: seq<Candle>, b: seq<Candle>, i: nat)
    requires i < |a| && i < |b| && a[..i] == b[..i]
    ensures SignalAt(a, i) == SignalAt(b, i)
  {
  }

  /**
   * When one side of the wallet is empty, a step never changes the wallet's
   * value marked at the step's close: trades happen at that very price.
   */
  lemma StepKeepsValue(s: State, signal: Signal, c: Candle)
    requires c.close != 0.0
    requires s.wallet.cash == 0.0 || s.wallet.coin == 0.0
    ensures FinalBalance(Step(s, signal, c).wallet, c.close) == FinalBalance(s.wallet, c.close)
  {
    if signal == Buy && s.wallet.cash > 0.0 {
      assert CoinFor(s.wallet.cash, c.close) * c.close == s.wallet.cash;
    }
  }
}
