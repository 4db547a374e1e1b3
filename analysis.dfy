/**
 * The analysis service: combine the market data, the news/AI sentiment
 * level and the four-model market level into the final report. Only a
 * STRONG market level moves the final signal off HOLD; the sentiment is
 * passed through and never consulted.
 */
module Analysis {
  import opened Wrappers
  import opened Signals
  import Indicators
  import AiAnalysis
  import Trading

  /** What `getTechnicalIndicators` returns; that method is not part of this model, so it is an input. */
  datatype MarketData = MarketData(price: real, indicators: Indicators.IndicatorSet)

  /** The `marketData` part of the report: the final signal beside the price and indicators. */
  datatype SignalledMarket = SignalledMarket(signal: Signal, price: real, indicators: Indicators.IndicatorSet)

  /** What `analyze` returns. */
  datatype AnalysisReport = AnalysisReport(marketData: SignalledMarket, sentimentAnalysis: AiAnalysis.Level,
                                           marketAnalysis: AiAnalysis.Level, reason: string)

  /** The reason attached to each final signal. */
  function AnalysisReason(signal: Signal): (reason: string)
    ensures signal == Hold <==> reason == "No strong signal from AI models."
  {
    match signal
    case Buy => "Strong buy signal detected by multiple AI models based on market indicators."
    case Sell => "Strong sell signal detected by multiple AI models based on market indicators."
    case Hold => "No strong signal from AI models."
  }

  /** The final signal of a market level: only the strong levels trade. */
  function FinalSignal(marketSignal: AiAnalysis.Level): (signal: Signal)
    ensures signal == Buy <==> marketSignal == AiAnalysis.StrongBuy
    ensures signal == Sell <==> marketSignal == AiAnalysis.StrongSell
  {
    if marketSignal == AiAnalysis.StrongBuy then Buy
    else if marketSignal == AiAnalysis.StrongSell then Sell
    else Hold
  }

  /** `analyze`, given the market data and the two levels the AI service produced. */
  function Analyze(marketData: MarketData, sentimentSignal: AiAnalysis.Level, marketSignal: AiAnalysis.Level): (r: AnalysisReport)
    ensures r.marketData.signal == Buy <==> marketSignal == AiAnalysis.StrongBuy
    ensures r.marketData.signal == Sell <==> marketSignal == AiAnalysis.StrongSell
    ensures r.marketData.price == marketData.price && r.marketData.indicators == marketData.indicators
    ensures r.sentimentAnalysis == sentimentSignal && r.marketAnalysis == marketSignal
    ensures r.reason == AnalysisReason(r.marketData.signal)
  {
    var finalSignal := FinalSignal(marketSignal);
    AnalysisReport(SignalledMarket(finalSignal, marketData.price, marketData.indicators),
                   sentimentSignal, marketSignal, AnalysisReason(finalSignal))
  }

  /** The reason identifies the final signal: two reports agree on one exactly when they agree on the other. */
  lemma ReasonDeterminedBySignal(a: AnalysisReport, b: AnalysisReport, da: MarketData, db: MarketData,
                                 sa: AiAnalysis.Level, ma: AiAnalysis.Level, sb: AiAnalysis.Level, mb: AiAnalysis.Level)
    requires a == Analyze(da, sa, ma) && b == Analyze(db, sb, mb)
    ensures a.reason == b.reason <==> a.marketData.signal == b.marketData.signal
  {
    ReasonsDistinct();
    match a.marketData.signal
    case Buy =>
    case Sell =>
    case Hold =>
  }

  /** The three reasons are told apart by their length. */
  lemma ReasonsDistinct()
    ensures |AnalysisReason(Buy)| == 76 && |AnalysisReason(Sell)| == 77 && |AnalysisReason(Hold)| == 32
  {
  }

  /** The sentiment level never changes the final signal or the reason. */
  lemma SentimentNeverDecides(marketData: MarketData, s1: AiAnalysis.Level, s2: AiAnalysis.Level, m: AiAnalysis.Level)
    ensures Analyze(marketData, s1, m).marketData == Analyze(marketData, s2, m).marketData
    ensures Analyze(marketData, s1, m).reason == Analyze(marketData, s2, m).reason
  {
  }

  /** In terms of the four-model average: BUY exactly above 0.7, SELL exactly below -0.7. */
  lemma FinalSignalFromAverage(averageScore: real)
    ensures FinalSignal(AiAnalysis.LevelOf(averageScore)) == Buy <==> averageScore > 0.7
    ensures FinalSignal(AiAnalysis.LevelOf(averageScore)) == Sell <==> averageScore < -0.7
  {
    AiAnalysis.LevelBands(averageScore, averageScore);
  }

  /**
   * The fields of a report that the trade validation reads. The report type
   * (`marketData`, `sentimentAnalysis`, `marketAnalysis`, `reason`) has no
   * top-level `signal`, `sentiment` or `score_signal`, so for every report
   * all three are missing: the constant comes from the type, not from `r`.
   */
  function TradeFields(r: AnalysisReport): Trading.AnalysisFields {
    Trading.AnalysisFields(None, None, None)
  }

  /**
   * A wiring note rather than a property of `Analyze`: `TradeFields` is the
   * constant all-missing field set, so this states that the trade validation
   * rejects an analysis without `signal`, `sentiment` and `score_signal`, and
   * that executing a trade on one makes no broker call.
   */
  lemma AnalyzedReportNeverTrades(marketData: MarketData, sentimentSignal: AiAnalysis.Level, marketSignal: AiAnalysis.Level,
                                  latest: Trading.LatestOrder, balance: Trading.Balance, currentPrice: real, buyPrice: real)
    requires currentPrice != 0.0
    requires balance.btc > 0.0 ==> buyPrice != 0.0
    ensures !Trading.ValidAnalysis(Some(TradeFields(Analyze(marketData, sentimentSignal, marketSignal))))
    ensures Trading.ExecuteTrade(Some(TradeFields(Analyze(marketData, sentimentSignal, marketSignal))),
                                 latest, balance, currentPrice, buyPrice) == []
  {
  }
}
