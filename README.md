# Scallpper trading core in Dafny

This project models the decision core of the Scallpper crypto trading bot. The bot is a NestJS service that trades BTC/IDR on Indodax. Its core works as follows:

- **Technical indicators** (EMA, RSI, MACD and average volume) are computed over Binance candles.
- **AI advisors** are consulted (Ollama, DeepSeek, Anthropic, OpenAI and a news feed). Each returns a score in [-1, 1], or fails.
- **Aggregation** folds the advisor scores into a signal. The strategy service maps them to a 1-100 score with 60 / 40 thresholds. The AI service maps them to a five-level scale with the thresholds 0.7 and 0.4.
- **Evaluation and decision**: the trading-strategy service re-reads the 1-100 score with the 80 / 20 thresholds. The trading service turns a validated analysis, the balances and the prices into broker calls.
- **Backtest**: an all-in / all-out wallet is replayed over historical candles.
- **Social sentiment**: post texts are joined and cut to length, and the model's reply is classified into `positif` or `negative`.

Every network call, every environment variable and the exchange itself are inputs of the model. An advisor's reply is `Option<real>`: `None` means its request or its parsing threw, and `Some(x)` is the number it parsed. The fetched candles, news articles and posts, and the broker's answers (latest order, balance, market price, last buy price) are parameters of the same kind.

Numbers are exact `real`s. The loops of the source (EMA smoothing, gain/loss arrays, the advisor folds and the backtest replay) are `method`s with `while` loops. Each is proved equal to a recursive specification function, and the properties are lemmas about those functions. Code that is one expression or a chain of branches is a `function`.

Modules, one per service plus shared pieces:

| module | file | models |
|---|---|---|
| `Wrappers` | wrappers.dfy | `Option` / `Result` |
| `Signals` | signals.dfy | the BUY / SELL / HOLD signal |
| `Advisors` | advisors.dfy | one advisor's outcome, the clamp, and the totals the aggregation loops keep |
| `Indicators` | indicators.dfy | `calculateEMA`, `calculateRSI`, `calculateMACD`, `calculateAverageVolume`, `calculateIndicators` |
| `StrategyAnalysis` | strategy_analysis.dfy | `strategyAnalysis`, `analyzeMarketWithMultipleAI` of the strategy service |
| `AiAnalysis` | ai_analysis.dfy | `analyzeSentiment`, `fetchNewsSentiment`, `convertSentimentToScore`, `analyzeMarketWithMultipleAI` of the AI service |
| `Backtest` | backtest.dfy | `runBacktest`, `generateSignal` |
| `TradingStrategy` | trading_strategy.dfy | `evaluateStrategy`, `calculateRiskReward`, `isMarketConditionFavorable` |
| `Trading` | trading.dfy | the validation and buy / sell / hold decision of `executeTrade` |
| `Analysis` | analysis.dfy | `analyze` |
| `Sentiment` | sentiment.dfy | `fetchXSentiment`, `analyzeWithOllama`, `analyzeSentiment` of the sentiment service |

The backtest service has its own copies of the indicator calculators (`src/backtest.service.ts:54-88`). They compute the same values as the strategy service's, so one definition in `Indicators` models both.

**The code departs from the textbook RSI.** The textbook RSI is 100 when there are no losses. The code sets `rs = 0` when the average loss is 0, so it returns RSI 0 (`src/analysis/strategy-analysis.service.ts:348-349`). The model follows the code. `Indicators.RsiZeroIff` shows the consequence: a market that only rose over the window reads as RSI 0, the "oversold" end.

**As wired, the trading service never trades.** There are two independent reasons. First, `StrategyAnalysisService` (`src/analysis/strategy-analysis.service.ts`) defines neither `getTechnicalIndicators` nor `getHistoricalData`. So `analyze` fails at its first call (`src/analysis/analysis.service.ts:19`), and the catch in `executeTrade` (`src/trading/trading.service.ts:94-96`) swallows that failure; likewise `runBacktest` fails at `src/backtest.service.ts:14`. The model takes the results those two methods would return as inputs. Second, even with a report, the fields do not match. `analyze` returns `{marketData, sentimentAnalysis, marketAnalysis, reason}`. `executeTrade` validates `analysis.signal`, `analysis.sentiment` and `analysis.score_signal` at the top level. None of those three exists on that report, so every analysis is rejected before any broker call (`Analysis.AnalyzedReportNeverTrades`). What `executeTrade` would have read instead is not clear from the code, so this is stated as a property and not listed under Findings. The decision rule itself is modelled and proved on any analysis fields (`Trading.ExecuteTrade`).

## Model

| member | source | states |
|---|---|---|
| Signals.SignalText | src/analysis/strategy-analysis.service.ts:103-106 | the signal is one of the three texts BUY, SELL, HOLD |
| Signals.SignalTextInjective | src/analysis/strategy-analysis.service.ts:142-147 | distinct signals have distinct texts |
| Advisors.Clamp | src/analysis/strategy-analysis.service.ts:190-191 | the clamped score lies in [-1, 1]; it equals the input exactly when the input is already in range; above 1 gives 1, below -1 gives -1 |
| Advisors.AdapterOutcome | src/analysis/ai-analysis.service.ts:117-121 | an adapter scores exactly when its reply parsed, and then with the clamped value; a throw is a failure, never a skip |
| Advisors.Scale | src/analysis/strategy-analysis.service.ts:129-130 | the 1-100 rescaling maps [-1, 1] into [1, 100], -1 to 1 and 1 to 100 |
| Advisors.TotalsAppend | src/analysis/ai-analysis.service.ts:58-82 | the running sum, count and scaled sum of a concatenation are the sums of the parts |
| Advisors.IgnoredOutcome | src/analysis/ai-analysis.service.ts:74-81 | a failed, skipped or zero-scored model changes neither the sum nor the count, wherever it sits in the list |
| Advisors.TotalsPermutation | src/analysis/ai-analysis.service.ts:212-236 | sum, count and scaled sum are the same for any reordering of the models |
| Advisors.ScaledTotalAffine | src/analysis/strategy-analysis.service.ts:128-133 | the scaled sum equals 49.5 times the raw sum plus 50.5 times the count |
| Advisors.RawTotalBounded | src/analysis/ai-analysis.service.ts:74-78 | with in-range scores, the raw sum lies between minus the count and the count |
| Advisors.MeanScoreBounded | src/analysis/ai-analysis.service.ts:85 | the average of in-range scores lies in [-1, 1], and is 0 when no model counted |
| Advisors.MeanScorePermutation | src/analysis/ai-analysis.service.ts:238 | the average does not depend on the order of the models |
| Indicators.Closes | src/analysis/strategy-analysis.service.ts:316 | the close series has one entry per candle, equal to that candle's close |
| Indicators.Volumes | src/analysis/strategy-analysis.service.ts:371 | the volume series has one entry per candle, equal to that candle's volume |
| Indicators.Multiplier | src/analysis/strategy-analysis.service.ts:317 | the smoothing factor 2 / (period + 1) lies in (0, 2], and in (0, 1] for period >= 1 |
| Indicators.CalculateEma | src/analysis/strategy-analysis.service.ts:315-323 | the loop computes the left-fold EMA of the closes, seeded with the first close |
| Indicators.EmaWithinBounds | src/analysis/strategy-analysis.service.ts:318-321 | for period >= 1 the EMA stays within the lowest and highest close |
| Indicators.EmaOfConstant | src/analysis/strategy-analysis.service.ts:318-321 | a flat close series has that price as its EMA, for every period |
| Indicators.Gain | src/analysis/strategy-analysis.service.ts:341 | a gain entry is never negative |
| Indicators.Loss | src/analysis/strategy-analysis.service.ts:342 | a loss entry is never negative |
| Indicators.Gains | src/analysis/strategy-analysis.service.ts:339-343 | one non-negative gain per consecutive pair of closes, equal to the rise between them |
| Indicators.Losses | src/analysis/strategy-analysis.service.ts:339-343 | one non-negative loss per consecutive pair of closes, equal to the fall between them |
| Indicators.SumNonNegative | src/analysis/strategy-analysis.service.ts:344-347 | a sum of non-negative entries is non-negative, and zero exactly when every entry is zero |
| Indicators.RsiFromSums | src/analysis/strategy-analysis.service.ts:344-349 | RSI from the window sums lies in [0, 100) and is 0 exactly when there was no gain or no loss |
| Indicators.ChangeArrays | src/analysis/strategy-analysis.service.ts:337-343 | the loop builds exactly the gain and loss arrays |
| Indicators.SumFirst | src/analysis/strategy-analysis.service.ts:344-347 | the reduce over the first n entries is their sum |
| Indicators.CalculateRsi | src/analysis/strategy-analysis.service.ts:331-351 | the method computes the RSI function, 50 with fewer than period + 1 candles, always in [0, 100) |
| Indicators.RsiBounds | src/analysis/strategy-analysis.service.ts:348-349 | the exact-real RSI lies in [0, 100); the printed value is not modelled, and `toFixed(2)` can round it up to 100 |
| Indicators.RsiZeroIff | src/analysis/strategy-analysis.service.ts:344-349 | with enough closes, RSI is 0 exactly when the first window has no rise or no fall |
| Indicators.RsiIgnoresLaterCandles | src/analysis/strategy-analysis.service.ts:344-347 | only the first period changes enter RSI; candles appended later do not change it |
| Indicators.CalculateMacd | src/analysis/strategy-analysis.service.ts:358-362 | the method computes EMA(12) minus EMA(26) of the closes |
| Indicators.MacdBounds | src/analysis/strategy-analysis.service.ts:358-362 | MACD is bounded by the spread of the closes, and is 0 on a flat market |
| Indicators.LastN | src/analysis/strategy-analysis.service.ts:372 | the slice has min(length, period) entries and is the tail of the series |
| Indicators.AverageVolume | src/analysis/strategy-analysis.service.ts:370-374 | with at least period candles, the sum of the last period volumes divided by the period; with fewer, the sum of all volumes divided by the period; non-negative for non-negative volumes |
| Indicators.WindowSumNonNegative | src/analysis/strategy-analysis.service.ts:372-373 | the volume window of non-negative volumes has a non-negative sum |
| Indicators.AverageVolumeWindow | src/analysis/strategy-analysis.service.ts:370-374 | with at least period candles, older candles do not affect the average volume |
| Indicators.AverageVolumeShortSeries | src/analysis/strategy-analysis.service.ts:372-373 | with fewer candles than the period, the sum is still divided by the period, so the result is at most the true mean |
| Indicators.AverageVolumeExample | src/analysis/strategy-analysis.service.ts:370-374 | five candles of volume 10, 20, 30, 40, 50 over period 20 give 150 / 20 = 7.5, not their mean 30 |
| Indicators.CalculateIndicators | src/backtest.service.ts:34-42 | the indicator set is EMA20, EMA50, RSI14 and MACD of the closes, with RSI in [0, 100) |
| Indicators.SingleCandleIndicators | src/backtest.service.ts:34-42 | one candle gives EMA20 = EMA50 = its close, RSI 50 and MACD 0 |
| StrategyAnalysis.SnapshotOf | src/analysis/strategy-analysis.service.ts:50-68 | the snapshot carries the last close and volume, the indicators of the closes with RSI in [0, 100), and the 20-candle average volume |
| StrategyAnalysis.MarketOutcomes | src/analysis/strategy-analysis.service.ts:107-126 | two outcomes in loop order; Ollama fails exactly when its reply is missing; DeepSeek is skipped exactly when the key is empty, and otherwise fails exactly when its reply is missing |
| StrategyAnalysis.FinalScore | src/analysis/strategy-analysis.service.ts:139-140 | the final score lies in [1, 100] and is 50 when no model counted |
| StrategyAnalysis.ScoreSignal | src/analysis/strategy-analysis.service.ts:142-147 | BUY exactly above 60, SELL exactly below 40, HOLD exactly in [40, 60] |
| StrategyAnalysis.Reason | src/analysis/strategy-analysis.service.ts:74-84 | the no-signal reason is given exactly for HOLD |
| StrategyAnalysis.AnalyzeMarketWithMultipleAI | src/analysis/strategy-analysis.service.ts:103-153 | the loop returns the final score of the outcomes, in [1, 100], with the signal given by the 60 / 40 thresholds |
| StrategyAnalysis.StrategyAnalysis | src/analysis/strategy-analysis.service.ts:43-96 | fails with "Failed to analyze the market." exactly when there is no market data or it is empty; otherwise reports the signal of its score and the reason of its signal |
| StrategyAnalysis.FinalScoreIsScaledMean | src/analysis/strategy-analysis.service.ts:128-140 | when a model counted, the final clamp changes nothing: the score is the 1-100 image of the mean advisor score |
| StrategyAnalysis.SignalFromMeanScore | src/analysis/strategy-analysis.service.ts:139-147 | BUY exactly when a model counted and the mean score exceeds 19/99; SELL exactly when it is below -7/33 |
| StrategyAnalysis.FinalScoreIgnoresNonCounting | src/analysis/strategy-analysis.service.ts:128-136 | failed, skipped and zero outcomes do not move the final score |
| StrategyAnalysis.FinalScorePermutation | src/analysis/strategy-analysis.service.ts:111-140 | the final score is independent of the model order |
| StrategyAnalysis.ExampleAggregation | src/analysis/strategy-analysis.service.ts:128-147 | scores 0.8, 0.6, a failure and 0 give 85.15 and BUY |
| StrategyAnalysis.NoOpinionHolds | src/analysis/strategy-analysis.service.ts:118-121 | when no model gives a non-zero score, the score is 50 and the signal HOLD |
| AiAnalysis.LevelOf | src/analysis/ai-analysis.service.ts:88-92 | STRONG_BUY exactly above 0.7, STRONG_SELL exactly below -0.7, HOLD exactly in [-0.4, 0.4] |
| AiAnalysis.LevelBands | src/analysis/ai-analysis.service.ts:88-92 | each of the five levels holds on exactly one band of the average, and a higher average never gives a lower level |
| AiAnalysis.ConvertSentimentToScore | src/analysis/ai-analysis.service.ts:164-173 | 1 exactly for 'Positif', -1 exactly for 'Negatif', 0 for every other string |
| AiAnalysis.ArticleScores | src/analysis/ai-analysis.service.ts:142-148 | one clamped score per article, in order |
| AiAnalysis.NewsSentiment | src/analysis/ai-analysis.service.ts:128-159 | the verdict is one of 'Positif', 'Negatif', 'Netral' |
| AiAnalysis.NewsSentimentPositiveIff | src/analysis/ai-analysis.service.ts:136-157 | 'Positif' exactly when there are articles, all were scored and the scores sum above 0; 'Netral' exactly when there is no article or one scoring threw |
| AiAnalysis.SentimentOutcomes | src/analysis/ai-analysis.service.ts:56-68 | two outcomes in [-1, 1] |
| AiAnalysis.MarketOutcomes | src/analysis/ai-analysis.service.ts:208-227 | four outcomes in [-1, 1], none skipped |
| AiAnalysis.AverageScore | src/analysis/ai-analysis.service.ts:209-238 | the loop computes the mean of the non-zero scores (0 with none), within [-1, 1] for in-range scores |
| AiAnalysis.AnalyzeSentiment | src/analysis/ai-analysis.service.ts:49-97 | the level is the band of the mean of the Ollama and news scores |
| AiAnalysis.AnalyzeMarketWithMultipleAI | src/analysis/ai-analysis.service.ts:207-245 | the level is the band of the mean of the four market scores |
| AiAnalysis.NoContributorHolds | src/analysis/ai-analysis.service.ts:238-244 | with no counted model the average is 0 and the level HOLD |
| AiAnalysis.LevelIndependentOfOrder | src/analysis/ai-analysis.service.ts:212-244 | reordering the models never changes the level |
| AiAnalysis.SentimentFollowsNewsWhenOllamaFails | src/analysis/ai-analysis.service.ts:58-92 | with Ollama failing, 'Positif' news gives STRONG_BUY, 'Negatif' STRONG_SELL and 'Netral' HOLD |
| Backtest.GenerateSignal | src/backtest.service.ts:44-52 | BUY exactly when EMA20 > EMA50 and RSI < 70; SELL exactly when EMA20 < EMA50 and RSI > 30; HOLD otherwise, in particular whenever the EMAs are equal |
| Backtest.SignalAt | src/backtest.service.ts:17-18 | the first candle holds; every later candle gets the signal of the indicators of the candles before it |
| Backtest.Step | src/backtest.service.ts:20-28 | BUY with cash spends all of it on cash / close coin and appends one trade; SELL with coin sells all of it for coin * close and appends one trade; in every other case, HOLD included, the state is unchanged; earlier trades are kept, and a new trade records the candle's time, the signal, the close and the cash after it |
| Backtest.RunStep | src/backtest.service.ts:16-29 | the replay advances one candle per step |
| Backtest.RunBacktestAsWritten | src/backtest.service.ts:16-31 | (as written) the loop with the indicators of the empty history before the first candle |
| Backtest.AsWrittenNeverReports | src/backtest.service.ts:17 | as written, every run fails, for every series: a non-empty one at its first candle, an empty one at the final balance |
| Backtest.RunBacktest | src/backtest.service.ts:8-32 | the loop computes the replay state; an empty series fails; otherwise the report holds the trades and cash plus coin valued at the last close |
| Backtest.StepAlternates | src/backtest.service.ts:20-28 | one candle adds at most one trade and keeps the BUY/SELL alternation |
| Backtest.RunAlternates | src/backtest.service.ts:10-29 | trades alternate BUY, SELL, ... from BUY; after every candle the cash or the coin is 0; no more trades than candles |
| Backtest.RunUsesOnlyPastCandles | src/backtest.service.ts:16-18 | the state after n candles depends only on those n candles |
| Backtest.SignalUsesOnlyPastCandles | src/backtest.service.ts:17 | the signal for a candle depends only on the candles before it |
| Backtest.StepKeepsValue | src/backtest.service.ts:20-28 | a trade at the candle's close never changes the wallet's value at that close |
| TradingStrategy.EvaluateStrategy | src/trading/trading-strategy.service.ts:13-50 | an analysis failure becomes "Failed to evaluate trading strategy."; otherwise BUY exactly above 80, SELL exactly below 20, the score unchanged and the reason that of the verdict |
| TradingStrategy.VerdictDependsOnlyOnScore | src/trading/trading-strategy.service.ts:23-45 | the verdict ignores the analysis's own signal and reason |
| TradingStrategy.VerdictRefinesAnalysis | src/trading/trading-strategy.service.ts:26-45 | against a 60 / 40 analysis, a strong BUY or SELL was already BUY or SELL upstream, and an upstream HOLD stays HOLD |
| TradingStrategy.CalculateRiskReward | src/trading/trading-strategy.service.ts:59-69 | the ratio is non-negative, 0 when the stop equals the price, and otherwise times the loss equals the profit |
| TradingStrategy.RiskRewardZeroIff | src/trading/trading-strategy.service.ts:59-69 | the ratio is 0 exactly when the stop or the target equals the current price |
| TradingStrategy.RiskRewardScaleInvariant | src/trading/trading-strategy.service.ts:60-68 | multiplying all three prices by a positive factor keeps the ratio |
| TradingStrategy.RiskRewardShiftInvariant | src/trading/trading-strategy.service.ts:60-68 | shifting all three prices by one amount keeps the ratio |
| TradingStrategy.VerdictReason | src/trading/trading-strategy.service.ts:26-45 | the holding reason is given exactly for HOLD |
| TradingStrategy.IsMarketConditionFavorable | src/trading/trading-strategy.service.ts:76-85 | favourable exactly when the backtest rule says BUY, RSI is below 30 and MACD is positive |
| TradingStrategy.FavorableMeansBacktestBuys | src/trading/trading-strategy.service.ts:76-85 | a favourable market is one the backtest's rule buys |
| TradingStrategy.ShortHistoryNeverFavorable | src/trading/trading-strategy.service.ts:81 | with fewer than 15 closes RSI is 50, so the market is never favourable |
| TradingStrategy.FlatMarketNeverFavorable | src/trading/trading-strategy.service.ts:80 | a flat market has no golden cross |
| Trading.ProfitLossPercentage | src/trading/trading.service.ts:57-61 | 0 without BTC; otherwise the percentage times the buy price is 100 times the price change |
| Trading.LossThresholdInPrices | src/trading/trading.service.ts:79-84 | a loss beyond 3% means the price fell below 97% of the buy price; a profit beyond 2% means it rose above 102% |
| Trading.CancelStep | src/trading/trading.service.ts:39-49 | one cancellation exactly when the latest order exists and is not filled, carrying its id and type |
| Trading.Decide | src/trading/trading.service.ts:63-93 | at most one order, at the current price; no order for any signal but BUY and SELL |
| Trading.ValidAnalysis | src/trading/trading.service.ts:20-31 | a missing analysis is invalid; a valid one has a signal text among BUY, SELL, HOLD and a score in [1, 100] |
| Trading.ExecuteTrade | src/trading/trading.service.ts:14-97 | no broker call for an invalid analysis; at most two calls, a cancellation only first and before any order |
| Trading.ExecuteTradeUntil | src/trading/trading.service.ts:39-96 | when a broker call throws, the calls already made are a prefix of the full run; with no failure they are the full run; a failing latest-order query makes no call |
| Trading.FailureKeepsOrderRules | src/trading/trading.service.ts:39-96 | whichever broker call throws, at most one order is placed and a cancellation can only be the first call |
| Trading.CancelSurvivesLaterFailure | src/trading/trading.service.ts:39-54 | a cancellation already sent stays sent when the balance query then throws |
| Trading.OrdersOfValidTrade | src/trading/trading.service.ts:39-93 | the orders of a valid trade are those of the decision; the cancellation adds none |
| Trading.AtMostOneOrder | src/trading/trading.service.ts:63-93 | every call places at most one order |
| Trading.BuyOrderExactly | src/trading/trading.service.ts:64-76 | on BUY an order is placed exactly when there is IDR and a positive price, and it spends all the IDR at the current price |
| Trading.SellOrderExactly | src/trading/trading.service.ts:77-89 | on SELL the whole BTC is sold exactly when there is BTC and the price left the 97%-102% band around the buy price |
| Trading.HoldNeverOrders | src/trading/trading.service.ts:90-93 | on HOLD the only possible call is the cancellation |
| Trading.CancelOnlyUnfilled | src/trading/trading.service.ts:39-49 | after a valid analysis the latest order is cancelled exactly when it exists and is not filled |
| Analysis.AnalysisReason | src/analysis/analysis.service.ts:28-37 | the HOLD reason is given exactly for HOLD |
| Analysis.FinalSignal | src/analysis/analysis.service.ts:28-37 | BUY exactly for STRONG_BUY, SELL exactly for STRONG_SELL, HOLD for every other level, plain BUY and SELL included |
| Analysis.Analyze | src/analysis/analysis.service.ts:17-49 | the final signal follows the strong market levels only; price, indicators and both levels pass through; the reason is that of the final signal |
| Analysis.ReasonsDistinct | src/analysis/analysis.service.ts:29-37 | the three reason texts have different lengths, so they are pairwise different |
| Analysis.ReasonDeterminedBySignal | src/analysis/analysis.service.ts:29-37 | two reports have the same reason exactly when they have the same final signal |
| Analysis.SentimentNeverDecides | src/analysis/analysis.service.ts:22-37 | the sentiment level never changes the final signal or the reason |
| Analysis.FinalSignalFromAverage | src/analysis/analysis.service.ts:31-37 | BUY exactly when the four-model average exceeds 0.7, SELL exactly when it is below -0.7 |
| Analysis.AnalyzedReportNeverTrades | src/analysis/analysis.service.ts:39-48 | (wiring note) the validation rejects an analysis with no top-level signal, sentiment or score, which is every report `analyze` builds, and executing a trade on it makes no broker call |
| Sentiment.StanceText | src/analysis/sentiment-analysis.service.ts:23 | the stance is reported as 'positif' or 'negative' |
| Sentiment.TrimStart | src/analysis/sentiment-analysis.service.ts:101 | the result is a suffix of the input; only white space was removed; it does not start with white space |
| Sentiment.TrimEnd | src/analysis/sentiment-analysis.service.ts:101 | the result is a prefix of the input; only white space was removed; it does not end with white space |
| Sentiment.Trim | src/analysis/sentiment-analysis.service.ts:101 | the result is a slice of the input with only white space cut from each end and none left at either end |
| Sentiment.LowerChar | src/analysis/sentiment-analysis.service.ts:101 | upper-case ASCII letters move to lower case; every other character is kept |
| Sentiment.ToLower | src/analysis/sentiment-analysis.service.ts:101 | the same length, each character lower-cased |
| Sentiment.NormaliseReply | src/analysis/sentiment-analysis.service.ts:95-111 | positive exactly when there is a reply and it trims and lower-cases to "positif"; otherwise negative |
| Sentiment.TrimIdempotent | src/analysis/sentiment-analysis.service.ts:101 | trimming twice is trimming once |
| Sentiment.ToLowerIdempotent | src/analysis/sentiment-analysis.service.ts:101 | lower-casing twice is lower-casing once |
| Sentiment.LowerKeepsSpace | src/analysis/sentiment-analysis.service.ts:101 | lower-casing neither creates nor removes white space |
| Sentiment.TrimStartToLower | src/analysis/sentiment-analysis.service.ts:101 | lower-casing commutes with trimming the start |
| Sentiment.TrimEndToLower | src/analysis/sentiment-analysis.service.ts:101 | lower-casing commutes with trimming the end |
| Sentiment.NormaliseStable | src/analysis/sentiment-analysis.service.ts:101-107 | a reply already trimmed and lower-cased is classified as the original |
| Sentiment.PaddedUpperCaseReply | src/analysis/sentiment-analysis.service.ts:101-103 | " POSITIF\n" is read as positive |
| Sentiment.Join | src/analysis/sentiment-analysis.service.ts:60-62 | no posts join to the empty text |
| Sentiment.JoinLength | src/analysis/sentiment-analysis.service.ts:60-62 | the joined text has every post's characters plus one separator between neighbours |
| Sentiment.FetchText | src/analysis/sentiment-analysis.service.ts:45-69 | the text is "" without posts; otherwise a prefix of the joined posts of length min(joined length, 5000) |
| Sentiment.SeveralPostsGiveText | src/analysis/sentiment-analysis.service.ts:60-64 | two or more posts always give text to classify, even empty ones |
| Sentiment.AnalyzeSentiment | src/analysis/sentiment-analysis.service.ts:23-40 | positive exactly when there is text and the reply classifies as positive |
| Sentiment.NoPostsNegative | src/analysis/sentiment-analysis.service.ts:28-31 | without posts the stance is negative whatever the model replies |

## Left out

- HTTP calls, prompts, request payloads, API keys, environment variables and response parsing are left out. Each advisor, the news feed and the X.com search appear only through the value they return, or `None` when they throw. The broker's answers are inputs of `Trading.ExecuteTrade`; a broker call that throws is modelled by `Trading.ExecuteTradeUntil`, which takes the failing call as a parameter and returns the calls made before it.
- `parseFloat(x.toFixed(2))` rounding of EMA, RSI and average volume is not modelled: values are exact reals.
- NaN and Infinity are left out. A reply that parses to NaN is not modelled: `Math.max(-1, Math.min(1, NaN))` is NaN and would poison the sum.
- Division by zero is excluded by preconditions rather than modelled as Infinity or NaN:
  - a zero close in the backtest;
  - a zero current price or zero buy price in the trade decision.
- Indicators.CalculateEma: requires at least one candle. On an empty series the source reads `undefined.toFixed` and throws. The callers model that throw: `StrategyAnalysis.StrategyAnalysis` fails, and the corrected backtest holds.
- Indicators.AverageVolume: requires a positive period. `slice(-0)` would take every volume and then divide by 0.
- Logging, `console` output and the `Logger` calls are left out.
- Concurrency is left out. The `Promise.all` over news articles is modelled by its result: every article scored, or one failure making the verdict 'Netral'.
- `Backtest.RunBacktest` uses the loop position where the source uses `historicalData.indexOf(candle)`. The two agree when the array holds distinct candle objects, as a fetched series does. The same object stored twice is not modelled.
- Sentiment.ToLower: lower-cases ASCII letters only, where `toLowerCase` maps all of Unicode. This does not change any classification: no other character lower-cases to a string of the ASCII letters in "positif" or "negative".
- Sentiment.FetchText: counts length in characters, where `slice(0, 5000)` counts UTF-16 code units. A post with characters outside the Basic Multilingual Plane is cut at a different place.
- Post objects without a `text` field are inputs whose text is "". `join` writes `undefined` as the empty string.
- `src/broker/broker.service.ts` defines only `createOrder` and `getBalance`. The other broker calls `executeTrade` makes (`getLatestOrderId`, `getOrder`, `cancelOrder`, `getPriceBTCIndodax`, `getBuyPrice`) are inputs here. `src/broker/indodax-broker.service.ts` is not part of this model.
- The stop-loss and take-profit prices in `BrokerService.createOrder` only feed a log line and are left out.
- `StrategyAnalysisService` defines neither `getHistoricalData` nor `getTechnicalIndicators`, which `runBacktest` and `analyze` call, so as written both calls fail. The model takes their results, a candle series and a price with indicators, as inputs.
- Persistence of trading signals and backtest results, the scheduler and module wiring are left out.

## Findings

| source | as written | input that shows it | evidently intended | confidence | as-written member | corrected member |
|---|---|---|---|---|---|---|
| src/backtest.service.ts:16-18 | The first candle's indicators are computed from `historicalData.slice(0, 0)`, the empty history. `calculateEMA` then returns `undefined.toFixed(2)` and throws, so `runBacktest` never returns a report. | any series of one or more candles; an empty series also throws, at `historicalData[-1].close` on line 31. As written, the call at line 14 already fails first, because `getHistoricalData` does not exist; this row is about the loop once a series is supplied | a candle without history holds, and the replay continues with the indicators of the candles before each later one | high (not executed) | Backtest.RunBacktestAsWritten, Backtest.AsWrittenNeverReports | Backtest.RunBacktest, Backtest.RunAlternates |
