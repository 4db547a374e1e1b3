/**
 * The strategy analysis service: compute the indicator snapshot of a candle
 * series, ask the Ollama and DeepSeek advisors about it, fold their scores
 * onto the 1-100 scale and map the result to BUY / SELL / HOLD (60 / 40).
 * The advisors are parameters: a function from the snapshot to the number
 * the adapter parsed, or `None` when its request or parsing threw.
 */
module StrategyAnalysis {
  import opened Wrappers
  import opened Signals
  import opened Advisors
  import opened Indicators

  /** The `technicalIndicators` object sent to the advisors. */
  datatype MarketSnapshot = MarketSnapshot(price: real, indicators: IndicatorSet, volume: real, avgVolume: real)

  /** What `strategyAnalysis` returns. */
  datatype StrategyReport = StrategyReport(signal: Signal, reason: string, scoreSignal: real)

  /** The snapshot of a non-empty candle series: last close and volume, EMA20/50, RSI14, MACD, 20-candle average volume. */
  function SnapshotOf(data: seq<Candle>): (snapshot: MarketSnapshot)
    requires |data| > 0
    ensures snapshot.price == data[|data| - 1].close && snapshot.volume == data[|data| - 1].volume
    ensures snapshot.indicators == IndicatorsOf(Closes(data)) && 0.0 <= snapshot.indicators.rsi < 100.0
    ensures snapshot.avgVolume == AverageVolume(data, 20)
  {
    RsiBounds(Closes(data), 14);
    var last := data[|data| - 1];
    MarketSnapshot(last.close, IndicatorsOf(Closes(data)), last.volume, AverageVolume(data, 20))
  }

  /**
   * The outcomes of the models `['ollama', 'deepseek']` in loop order;
   * DeepSeek is skipped when its API key is empty.
   */
  function MarketOutcomes(ollama: Option<real>, deepseekKey: string, deepseek: Option<real>): (os: seq<Outcome>)
    ensures |os| == 2 && InRange(os)
    ensures os[0].Failed? <==> ollama.None?
    ensures os[1].Skipped? <==> deepseekKey == ""
    ensures os[1].Failed? <==> deepseekKey != "" && deepseek.None?
  {
    [AdapterOutcome(ollama), if deepseekKey == "" then Skipped else AdapterOutcome(deepseek)]
  }

  /** The average of the counted 1-100 scores (50 when none counted), clamped into [1, 100]. */
  function FinalScore(os: seq<Outcome>): (score: real)
    ensures 1.0 <= score <= 100.0
    ensures CountOf(os) == 0 ==> score == 50.0
  {
    var averageScore := if CountOf(os) > 0 then ScaledTotal(os) / CountOf(os) as real else 50.0;
    Max(1.0, Min(100.0, averageScore))
  }

  /** BUY above 60, SELL below 40, HOLD otherwise. */
  function ScoreSignal(score: real): (signal: Signal)
    ensures signal == Buy <==> score > 60.0
    ensures signal == Sell <==> score < 40.0
    ensures signal == Hold <==> 40.0 <= score <= 60.0
  {
    if score > 60.0 then Buy else if score < 40.0 then Sell else Hold
  }

  /** The reason text `strategyAnalysis` attaches to each signal. */
  function Reason(signal: Signal): (reason: string)
    ensures reason == "No strong signal from AI models." <==> signal == Hold
  {
    match signal
    case Buy => "Buy signal detected by AI models based on market indicators."
    case Sell => "Sell signal detected by AI models based on market indicators."
    case Hold => "No strong signal from AI models."
  }

  /** `analyzeMarketWithMultipleAI`: the loop that folds each model's outcome into `totalScore` / `modelCount`. */
  method AnalyzeMarketWithMultipleAI(outcomes: seq<Outcome>) returns (signal: Signal, scoreSignal: real)
    ensures scoreSignal == FinalScore(outcomes)
    ensures signal == ScoreSignal(scoreSignal)
    ensures 1.0 <= scoreSignal <= 100.0
  {
    var totalScore := 0.0;
    var modelCount := 0;
    var i := 0;
    while i < |outcomes|
      invariant 0 <= i <= |outcomes|
      invariant totalScore == ScaledTotal(outcomes[..i])
      invariant modelCount == CountOf(outcomes[..i])
    {
      assert outcomes[..i + 1][..i] == outcomes[..i];
      match outcomes[i] {
        case Scored(sentimentScore) =>
          if sentimentScore != 0.0 {
            var scaledScore := ((sentimentScore + 1.0) / 2.0) * 99.0 + 1.0;
            totalScore := totalScore + scaledScore;
            modelCount := modelCount + 1;
          }
        case Failed =>   // the catch block logs the error and moves on
        case Skipped =>  // `continue`
      }
      i := i + 1;
    }
    assert outcomes[..i] == outcomes;
    var averageScore := if modelCount > 0 then totalScore / modelCount as real else 50.0;
    scoreSignal := Max(1.0, Min(100.0, averageScore));
    signal := Hold;
    if scoreSignal > 60.0 {
      signal := Buy;
    } else if scoreSignal < 40.0 {
      signal := Sell;
    }
  }

  /**
   * `strategyAnalysis`: a missing or empty candle series makes the EMA throw,
   * which surfaces as the one error 'Failed to analyze the market.'.
   */
  method StrategyAnalysis(market: Option<seq<Candle>>, ollama: MarketSnapshot -> Option<real>,
                          deepseekKey: string, deepseek: MarketSnapshot -> Option<real>)
    returns (r: Result<StrategyReport, string>)
    ensures r.Failure? <==> market.None? || market.value == []
    ensures r.Failure? ==> r.error == "Failed to analyze the market."
    ensures r.Success? ==>
      var snapshot := SnapshotOf(market.value);
      && r.value.scoreSignal == FinalScore(MarketOutcomes(ollama(snapshot), deepseekKey, deepseek(snapshot)))
      && r.value.signal == ScoreSignal(r.value.scoreSignal)
      && r.value.reason == Reason(r.value.signal)
  {
    if market.None? || market.value == [] {
      return Failure("Failed to analyze the market.");
    }
    var data := market.value;
    var indicators := CalculateIndicators(data);
    var lastCandle := data[|data| - 1];
    var avgVolume := AverageVolume(data, 20);
    var snapshot := MarketSnapshot(lastCandle.close, indicators, lastCandle.volume, avgVolume);
    assert snapshot == SnapshotOf(data);
    var signal, scoreSignal := AnalyzeMarketWithMultipleAI(MarketOutcomes(ollama(snapshot), deepseekKey, deepseek(snapshot)));
    r := Success(StrategyReport(signal, Reason(signal), scoreSignal));
  }

  /** `(n * v) / n == v` for a positive n. */
  lemma CancelFactor(v: real, n: real)
    requires n > 0.0
    ensures (n * v) / n == v
  {
  }

  /**
   * With every score in [-1, 1] and at least one counted, the final clamp
   * changes nothing: the final score is the 1-100 image of the mean score.
   */
  lemma FinalScoreIsScaledMean(os: seq<Outcome>)
    requires InRange(os) && CountOf(os) > 0
    ensures FinalScore(os) == Scale(MeanScore(os))
  {
    ScaledTotalAffine(os);
    RawTotalBounded(os);
    AffineAverage(RawTotal(os), ScaledTotal(os), CountOf(os) as real);
  }

  /** Averaging totals related by the affine rescaling gives the rescaled average, already inside [1, 100]. */
  lemma AffineAverage(raw: real, scaled: real, n: real)
    requires n > 0.0 && -n <= raw <= n
    requires scaled == 49.5 * raw + 50.5 * n
    ensures Max(1.0, Min(100.0, scaled / n)) == Scale(raw / n)
  {
    var m := raw / n;
    assert m * n == raw;
    assert -1.0 <= m <= 1.0 by {
      assert (m - 1.0) * n == raw - n;
      assert (m + 1.0) * n == raw + n;
      if m > 1.0 { MulPositive(m - 1.0, n); }
      if m < -1.0 { MulPositive(-(m + 1.0), n); }
    }
    var v := 49.5 * m + 50.5;
    assert 49.5 * raw == n * (49.5 * m);
    assert scaled == n * v;
    CancelFactor(v, n);
    assert scaled / n == v;
    assert Scale(m) == v;
    assert 1.0 <= v <= 100.0;
  }

  /**
   * The signal read back on the [-1, 1] scale: BUY exactly when some model
   * counted and the mean score exceeds 19/99, SELL exactly when it is below
   * -7/33, so the 60/40 band is not centred on a zero mean.
   */
  lemma SignalFromMeanScore(os: seq<Outcome>)
    requires InRange(os)
    ensures ScoreSignal(FinalScore(os)) == Buy <==> CountOf(os) > 0 && MeanScore(os) > 19.0 / 99.0
    ensures ScoreSignal(FinalScore(os)) == Sell <==> CountOf(os) > 0 && MeanScore(os) < -7.0 / 33.0
  {
    if CountOf(os) > 0 {
      FinalScoreIsScaledMean(os);
    }
  }

  /** Failed, skipped and zero outcomes anywhere in the list do not move the final score. */
  lemma FinalScoreIgnoresNonCounting(a: seq<Outcome>, o: Outcome, b: seq<Outcome>)
    requires !Counts(o)
    ensures FinalScore(a + [o] + b) == FinalScore(a + b)
  {
    IgnoredOutcome(a, o, b);
  }

  /** The final score, and hence the signal, does not depend on the order of the models. */
  lemma FinalScorePermutation(a: seq<Outcome>, b: seq<Outcome>)
    requires multiset(a) == multiset(b)
    ensures FinalScore(a) == FinalScore(b)
  {
    TotalsPermutation(a, b);
  }

  /** Scores 0.8, 0.6, a failure and a 0: the last two are excluded, (90.1 + 80.2) / 2 = 85.15, BUY. */
  lemma ExampleAggregation()
    ensures FinalScore([Scored(0.8), Scored(0.6), Failed, Scored(0.0)]) == 85.15
    ensures ScoreSignal(85.15) == Buy
  {
    var os := [Scored(0.8), Scored(0.6), Failed, Scored(0.0)];
    assert os[..3][..2] == [Scored(0.8), Scored(0.6)];
    assert os[..3][..2][..1] == [Scored(0.8)];
    assert ScaledTotal([Scored(0.8)]) == 90.1 by { assert [Scored(0.8)][..0] == []; }
    assert CountOf([Scored(0.8)]) == 1 by { assert [Scored(0.8)][..0] == []; }
    assert ScaledTotal(os) == 170.3;
    assert CountOf(os) == 2;
  }

  /** With no advisor opinion at all (both fail, DeepSeek unconfigured, or both answer 0), the result is 50 and HOLD. */
  lemma NoOpinionHolds(ollama: Option<real>, deepseekKey: string, deepseek: Option<real>)
    requires ollama.None? || ollama.value == 0.0
    requires deepseekKey == "" || deepseek.None? || deepseek.value == 0.0
    ensures FinalScore(MarketOutcomes(ollama, deepseekKey, deepseek)) == 50.0
    ensures ScoreSignal(FinalScore(MarketOutcomes(ollama, deepseekKey, deepseek))) == Hold
  {
    var os := MarketOutcomes(ollama, deepseekKey, deepseek);
    assert os[..1] == [os[0]];
    assert [os[0]][..0] == [];
    assert os[..|os| - 1] == [os[0]];
    assert !Counts(os[0]);
    assert !Counts(os[1]);
    assert CountOf([os[0]]) == 0;
  }
}
