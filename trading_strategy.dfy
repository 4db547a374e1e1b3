/**
 * The trading strategy service: re-read the strategy analysis with the
 * stricter 80 / 20 thresholds, compute a risk-reward ratio, and test the
 * golden-cross / oversold / bullish-MACD entry condition.
 */
module TradingStrategy {
  import opened Wrappers
  import opened Signals
  import opened Indicators
  import Advisors
  import StrategyAnalysis
  import Backtest

  /** What `evaluateStrategy` returns; it has the same fields as the strategy report. */
  type Verdict = StrategyAnalysis.StrategyReport

  const EvaluationError := "Failed to evaluate trading strategy."

  /** The reason text for each verdict. */
  function VerdictReason(signal: Signal): (reason: string)
    ensures reason == "No strong signal detected. Holding position is recommended." <==> signal == Hold
  {
    match signal
    case Buy => "Strong buy signal detected with high confidence."
    case Sell => "Strong sell signal detected with high confidence."
    case Hold => "No strong signal detected. Holding position is recommended."
  }

  /**
   * `evaluateStrategy`: BUY above 80, SELL below 20, HOLD otherwise, keeping
   * the score; any failure of the analysis becomes the service's own error.
   */
  function EvaluateStrategy(analysis: Result<StrategyAnalysis.StrategyReport, string>): (r: Result<Verdict, string>)
    ensures analysis.Failure? <==> r == Failure(EvaluationError)
    ensures analysis.Success? ==>
      && r.Success?
      && r.value.scoreSignal == analysis.value.scoreSignal
      && (r.value.signal == Buy <==> analysis.value.scoreSignal > 80.0)
      && (r.value.signal == Sell <==> analysis.value.scoreSignal < 20.0)
      && r.value.reason == VerdictReason(r.value.signal)
  {
    match analysis
    case Failure(_) => Failure(EvaluationError)
    case Success(report) =>
      var signal := if report.scoreSignal > 80.0 then Buy else if report.scoreSignal < 20.0 then Sell else Hold;
      Success(StrategyAnalysis.StrategyReport(signal, VerdictReason(signal), report.scoreSignal))
  }

  /** The verdict depends on the analysis's score alone, not on its signal or reason. */
  lemma VerdictDependsOnlyOnScore(a: StrategyAnalysis.StrategyReport, b: StrategyAnalysis.StrategyReport)
    requires a.scoreSignal == b.scoreSignal
    ensures EvaluateStrategy(Success(a)) == EvaluateStrategy(Success(b))
  {
  }

  /**
   * The 80 / 20 verdict only strengthens the 60 / 40 analysis: a strong BUY
   * or SELL was already a BUY or SELL upstream, and an upstream HOLD stays HOLD.
   */
  lemma VerdictRefinesAnalysis(report: StrategyAnalysis.StrategyReport)
    requires report.signal == StrategyAnalysis.ScoreSignal(report.scoreSignal)
    ensures var v := EvaluateStrategy(Success(report)).value;
      && (v.signal == Buy ==> report.signal == Buy)
      && (v.signal == Sell ==> report.signal == Sell)
      && (report.signal == Hold ==> v.signal == Hold)
  {
  }

  function Abs(x: real): (a: real)
    ensures a >= 0.0 && (a == x || a == -x)
  {
    if x < 0.0 then -x else x
  }

  /** `calculateRiskReward`: |target - current| / |current - stopLoss|, or 0 when the stop equals the price. */
  function CalculateRiskReward(currentPrice: real, targetPrice: real, stopLoss: real): (ratio: real)
    ensures ratio >= 0.0
    ensures currentPrice == stopLoss ==> ratio == 0.0
    ensures currentPrice != stopLoss ==> ratio * Abs(currentPrice - stopLoss) == Abs(targetPrice - currentPrice)
  {
    var potentialProfit := Abs(targetPrice - currentPrice);
    var potentialLoss := Abs(currentPrice - stopLoss);
    if potentialLoss == 0.0 then 0.0
    else
      Indicators.DivideByPositive(potentialProfit, potentialLoss);
      potentialProfit / potentialLoss
  }

  /** The ratio is zero exactly when there is no loss to risk or no profit to gain. */
  lemma RiskRewardZeroIff(currentPrice: real, targetPrice: real, stopLoss: real)
    ensures CalculateRiskReward(currentPrice, targetPrice, stopLoss) == 0.0
      <==> currentPrice == stopLoss || currentPrice == targetPrice
  {
  }

  /** Abs(k * x) == k * Abs(x) for k > 0. */
  lemma AbsScale(k: real, x: real)
    requires k > 0.0
    ensures Abs(k * x) == k * Abs(x)
  {
    if x < 0.0 {
      Advisors.MulPositive(k, -x);
    } else {
      Indicators.MulNonNegative(k, x);
    }
  }

  /** (k * a) / (k * b) == a / b for positive k and b. */
  lemma CancelCommonFactor(k: real, a: real, b: real)
    requires k > 0.0 && b > 0.0
    ensures (k * a) / (k * b) == a / b
  {
    var q := a / b;
    assert q * b == a;
    Advisors.MulPositive(k, b);
    assert (k * b) * q == k * (b * q);
    StrategyAnalysis.CancelFactor(q, k * b);
  }

  /** Quoting all three prices in another currency (a positive factor) leaves the ratio unchanged. */
  lemma RiskRewardScaleInvariant(k: real, currentPrice: real, targetPrice: real, stopLoss: real)
    requires k > 0.0
    ensures CalculateRiskReward(k * currentPrice, k * targetPrice, k * stopLoss)
         == CalculateRiskReward(currentPrice, targetPrice, stopLoss)
  {
    var profit, loss := Abs(targetPrice - currentPrice), Abs(currentPrice - stopLoss);
    assert k * targetPrice - k * currentPrice == k * (targetPrice - currentPrice);
    assert k * currentPrice - k * stopLoss == k * (currentPrice - stopLoss);
    AbsScale(k, targetPrice - currentPrice);
    AbsScale(k, currentPrice - stopLoss);
    if loss != 0.0 {
      CancelCommonFactor(k, profit, loss);
    } else {
      assert k * loss == 0.0;
    }
  }

  /** Shifting all three prices by the same amount leaves the ratio unchanged. */
  lemma RiskRewardShiftInvariant(d: real, currentPrice: real, targetPrice: real, stopLoss: real)
    ensures CalculateRiskReward(currentPrice + d, targetPrice + d, stopLoss + d)
         == CalculateRiskReward(currentPrice, targetPrice, stopLoss)
  {
  }

  /** `isMarketConditionFavorable`: golden cross, RSI oversold and MACD positive, all three. */
  predicate IsMarketConditionFavorable(ind: IndicatorSet)
    ensures IsMarketConditionFavorable(ind) <==> Backtest.GenerateSignal(ind) == Buy && ind.rsi < 30.0 && ind.macd > 0.0
  {
    ind.ema20 > ind.ema50 && ind.rsi < 30.0 && ind.macd > 0.0
  }

  /** A favourable market is one the backtest's signal rule would buy. */
  lemma FavorableMeansBacktestBuys(ind: IndicatorSet)
    requires IsMarketConditionFavorable(ind)
    ensures Backtest.GenerateSignal(ind) == Buy
  {
  }

  /** Fewer than 15 closes give the neutral RSI 50, so such a series is never favourable. */
  lemma ShortHistoryNeverFavorable(closes: seq<real>)
    requires 0 < |closes| < 15
    ensures !IsMarketConditionFavorable(IndicatorsOf(closes))
  {
  }

  /** A flat market has EMA20 == EMA50 and is never favourable. */
  lemma FlatMarketNeverFavorable(closes: seq<real>, c: real)
    requires |closes| > 0 && forall i :: 0 <= i < |closes| ==> closes[i] == c
    ensures !IsMarketConditionFavorable(IndicatorsOf(closes))
  {
    EmaOfConstant(closes, 20, c);
    EmaOfConstant(closes, 50, c);
  }
}
