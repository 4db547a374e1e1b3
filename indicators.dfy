/**
 * The technical-indicator calculators of the strategy analysis service,
 * whose backtest-service copies compute the same values: EMA, RSI, MACD and average
 * volume over a candle series. Each calculator that works by an update loop
 * is a method proved equal to a specification function; the properties are
 * lemmas about those functions. Prices are exact reals: the final
 * two-decimal rounding is not modelled.
 */
module Indicators {

  /** One OHLCV candle as the market-data source delivers it. */
  datatype Candle = Candle(openTime: int, open: real, high: real, low: real,
                           close: real, volume: real, closeTime: int)

  /** The indicators the backtest derives from a history (and the strategy sends to its advisors). */
  datatype IndicatorSet = IndicatorSet(ema20: real, ema50: real, rsi: real, macd: real)

  /** `data.map((candle) => candle.close)` */
  function Closes(data: seq<Candle>): (r: seq<real>)
    ensures |r| == |data|
    ensures forall i :: 0 <= i < |data| ==> r[i] == data[i].close
  {
    seq(|data|, i requires 0 <= i < |data| => data[i].close)
  }

  /** `data.map((candle) => candle.volume)` */
  function Volumes(data: seq<Candle>): (r: seq<real>)
    ensures |r| == |data|
    ensures forall i :: 0 <= i < |data| ==> r[i] == data[i].volume
  {
    seq(|data|, i requires 0 <= i < |data| => data[i].volume)
  }

  /** The left fold `reduce((a, b) => a + b, 0)`. */
  function Sum(xs: seq<real>): real
    decreases |xs|
  {
    if xs == [] then 0.0 else Sum(xs[..|xs| - 1]) + xs[|xs| - 1]
  }

  predicate NonNegative(xs: seq<real>) {
    forall i :: 0 <= i < |xs| ==> xs[i] >= 0.0
  }

  // ---------------------------------------------------------------- EMA

  /** The smoothing factor `2 / (period + 1)`. */
  function Multiplier(period: nat): (k: real)
    ensures 0.0 < k <= 2.0
    ensures period >= 1 ==> k <= 1.0
  {
    2.0 / (period as real + 1.0)
  }

  /** EMA as a fold: seeded with the first close, then `ema = (close - ema) * k + ema` per later close. */
  function EmaOf(closes: seq<real>, period: nat): real
    requires |closes| > 0
    decreases |closes|
  {
    if |closes| == 1 then closes[0]
    else
      var prev := EmaOf(closes[..|closes| - 1], period);
      (closes[|closes| - 1] - prev) * Multiplier(period) + prev
  }

  /** `calculateEMA`: the update loop over the closes. An empty series throws in the source. */
  method CalculateEma(data: seq<Candle>, period: nat) returns (ema: real)
    requires |data| > 0
    ensures ema == EmaOf(Closes(data), period)
  {
    var closes := Closes(data);
    var multiplier := 2.0 / (period as real + 1.0);
    ema := closes[0];
    var i := 1;
    while i < |closes|
      invariant 1 <= i <= |closes|
      invariant ema == EmaOf(closes[..i], period)
    {
      assert closes[..i + 1][..i] == closes[..i];
      ema := (closes[i] - ema) * multiplier + ema;
      i := i + 1;
    }
    assert closes[..i] == closes;
  }

  lemma MulNonNegative(a: real, b: real)
    requires a >= 0.0 && b >= 0.0
    ensures a * b >= 0.0
  {
  }

  /** One smoothing step with a factor in [0, 1] moves the average towards the new close, staying in [lo, hi]. */
  lemma SmoothingStepWithin(x: real, prev: real, k: real, lo: real, hi: real)
    requires 0.0 <= k <= 1.0 && lo <= x <= hi && lo <= prev <= hi
    ensures lo <= (x - prev) * k + prev <= hi
  {
    var r := (x - prev) * k + prev;
    assert r - lo == k * (x - lo) + (1.0 - k) * (prev - lo);
    assert hi - r == k * (hi - x) + (1.0 - k) * (hi - prev);
    MulNonNegative(k, x - lo);
    MulNonNegative(1.0 - k, prev - lo);
    MulNonNegative(k, hi - x);
    MulNonNegative(1.0 - k, hi - prev);
  }

  /** For period >= 1 the EMA never leaves any interval that holds every close. */
  lemma {:induction false} EmaWithinBounds(closes: seq<real>, period: nat, lo: real, hi: real)
    requires |closes| > 0 && period >= 1
    requires forall i :: 0 <= i < |closes| ==> lo <= closes[i] <= hi
    ensures lo <= EmaOf(closes, period) <= hi
    decreases |closes|
  {
    if |closes| > 1 {
      var init := closes[..|closes| - 1];
      EmaWithinBounds(init, period, lo, hi);
      SmoothingStepWithin(closes[|closes| - 1], EmaOf(init, period), Multiplier(period), lo, hi);
    }
  }

  /** A constant close series has that constant as its EMA, whatever the period; so does a single candle. */
  lemma {:induction false} EmaOfConstant(closes: seq<real>, period: nat, c: real)
    requires |closes| > 0
    requires forall i :: 0 <= i < |closes| ==> closes[i] == c
    ensures EmaOf(closes, period) == c
    decreases |closes|
  {
    if |closes| > 1 {
      EmaOfConstant(closes[..|closes| - 1], period, c);
    }
  }

  // ---------------------------------------------------------------- RSI

  function Gain(change: real): (g: real)
    ensures g >= 0.0
  {
    if change > 0.0 then change else 0.0
  }

  /** `change < 0 ? Math.abs(change) : 0` */
  function Loss(change: real): (l: real)
    ensures l >= 0.0
  {
    if change < 0.0 then -change else 0.0
  }

  /** The `gains` array: one entry per consecutive pair of closes. */
  function Gains(closes: seq<real>): (g: seq<real>)
    requires |closes| > 0
    ensures |g| == |closes| - 1 && NonNegative(g)
    ensures forall j :: 0 <= j < |g| ==> g[j] == Gain(closes[j + 1] - closes[j])
  {
    seq(|closes| - 1, j requires 0 <= j < |closes| - 1 => Gain(closes[j + 1] - closes[j]))
  }

  /** The `losses` array. */
  function Losses(closes: seq<real>): (l: seq<real>)
    requires |closes| > 0
    ensures |l| == |closes| - 1 && NonNegative(l)
    ensures forall j :: 0 <= j < |l| ==> l[j] == Loss(closes[j + 1] - closes[j])
  {
    seq(|closes| - 1, j requires 0 <= j < |closes| - 1 => Loss(closes[j + 1] - closes[j]))
  }

  /** A sum of non-negative numbers is non-negative, and it is zero exactly when every term is. */
  lemma {:induction false} SumNonNegative(xs: seq<real>)
    requires NonNegative(xs)
    ensures Sum(xs) >= 0.0
    ensures Sum(xs) == 0.0 <==> forall i :: 0 <= i < |xs| ==> xs[i] == 0.0
    decreases |xs|
  {
    if xs != [] {
      var init := xs[..|xs| - 1];
      assert NonNegative(init) by {
        forall i | 0 <= i < |init| ensures init[i] >= 0.0 {
          assert init[i] == xs[i];
        }
      }
      SumNonNegative(init);
      if Sum(xs) == 0.0 {
        forall i | 0 <= i < |xs| ensures xs[i] == 0.0 {
          if i < |init| {
            assert init[i] == xs[i];
          }
        }
      }
    }
  }

  /** Dividing by a positive number keeps the sign, and the quotient is zero only for a zero dividend. */
  lemma DivideByPositive(a: real, b: real)
    requires b > 0.0
    ensures a >= 0.0 ==> a / b >= 0.0
    ensures a / b == 0.0 <==> a == 0.0
    ensures a / b * b == a
  {
    assert a / b * b == a;
  }

  /** `100 - 100 / (1 + rs)` for rs >= 0 lies in [0, 100) and is 0 exactly when rs is. */
  lemma RsiRatioForm(rs: real)
    requires rs >= 0.0
    ensures 0.0 <= 100.0 - 100.0 / (1.0 + rs) < 100.0
    ensures 100.0 - 100.0 / (1.0 + rs) == 0.0 <==> rs == 0.0
  {
    var q := 100.0 / (1.0 + rs);
    assert q * (1.0 + rs) == 100.0;
    assert q > 0.0;
    assert q <= 100.0;
    if q == 100.0 {
      assert 100.0 * (1.0 + rs) == 100.0;
    }
  }

  /**
   * The RSI from the summed gains and losses of the first `period` changes:
   * `rs = avgGain / avgLoss`, forced to 0 when the average loss is 0, and
   * `rsi = 100 - 100 / (1 + rs)`.
   */
  function RsiFromSums(gainSum: real, lossSum: real, period: nat): (rsi: real)
    requires gainSum >= 0.0 && lossSum >= 0.0 && period > 0
    ensures 0.0 <= rsi < 100.0
    ensures rsi == 0.0 <==> gainSum == 0.0 || lossSum == 0.0
  {
    var avgGain := gainSum / period as real;
    var avgLoss := lossSum / period as real;
    DivideByPositive(gainSum, period as real);
    DivideByPositive(lossSum, period as real);
    var rs := if avgLoss == 0.0 then 0.0 else avgGain / avgLoss;
    DivideByPositive(avgGain, if avgLoss == 0.0 then 1.0 else avgLoss);
    RsiRatioForm(rs);
    100.0 - 100.0 / (1.0 + rs)
  }

  /** RSI over the first `period` changes, or the neutral 50 with fewer than period + 1 closes. */
  function RsiOf(closes: seq<real>, period: nat): real
    requires period > 0
  {
    if |closes| < period + 1 then 50.0
    else
      SumNonNegativeSlice(Gains(closes), period);
      SumNonNegativeSlice(Losses(closes), period);
      RsiFromSums(Sum(Gains(closes)[..period]), Sum(Losses(closes)[..period]), period)
  }

  /** A prefix of a non-negative sequence has a non-negative sum. */
  lemma SumNonNegativeSlice(xs: seq<real>, n: nat)
    requires NonNegative(xs) && n <= |xs|
    ensures NonNegative(xs[..n]) && Sum(xs[..n]) >= 0.0
    ensures Sum(xs[..n]) == 0.0 <==> forall i :: 0 <= i < n ==> xs[i] == 0.0
  {
    assert forall i :: 0 <= i < n ==> xs[..n][i] == xs[i];
    SumNonNegative(xs[..n]);
  }

  /** The loop of `calculateRSI` that pushes one gain and one loss per consecutive pair of closes. */
  method ChangeArrays(closes: seq<real>) returns (gains: seq<real>, losses: seq<real>)
    requires |closes| > 0
    ensures gains == Gains(closes) && losses == Losses(closes)
  {
    gains, losses := [], [];
    var i := 1;
    while i < |closes|
      invariant 1 <= i <= |closes|
      invariant |gains| == i - 1 && |losses| == i - 1
      invariant forall j :: 0 <= j < i - 1 ==> gains[j] == Gain(closes[j + 1] - closes[j])
      invariant forall j :: 0 <= j < i - 1 ==> losses[j] == Loss(closes[j + 1] - closes[j])
    {
      var change := closes[i] - closes[i - 1];
      gains := gains + [if change > 0.0 then change else 0.0];
      losses := losses + [if change < 0.0 then -change else 0.0];
      i := i + 1;
    }
  }

  /** `xs.slice(0, n).reduce((a, b) => a + b, 0)` */
  method SumFirst(xs: seq<real>, n: nat) returns (total: real)
    requires n <= |xs|
    ensures total == Sum(xs[..n])
  {
    total := 0.0;
    var k := 0;
    while k < n
      invariant 0 <= k <= n
      invariant total == Sum(xs[..k])
    {
      assert xs[..k + 1][..k] == xs[..k];
      total := total + xs[k];
      k := k + 1;
    }
  }

  /** `calculateRSI`: the neutral 50 on short input, else the RSI of the first `period` changes. */
  method CalculateRsi(data: seq<Candle>, period: nat) returns (rsi: real)
    requires period > 0
    ensures rsi == RsiOf(Closes(data), period)
    ensures |data| < period + 1 ==> rsi == 50.0
    ensures 0.0 <= rsi < 100.0
  {
    var closes := Closes(data);
    if |closes| < period + 1 {
      return 50.0;
    }
    var gains, losses := ChangeArrays(closes);
    var gainSum := SumFirst(gains, period);
    var lossSum := SumFirst(losses, period);
    SumNonNegativeSlice(gains, period);
    SumNonNegativeSlice(losses, period);
    rsi := RsiFromSums(gainSum, lossSum, period);
  }

  /** RSI always lies in [0, 100). */
  lemma RsiBounds(closes: seq<real>, period: nat)
    requires period > 0
    ensures 0.0 <= RsiOf(closes, period) < 100.0
  {
  }

  /** No close among the first period + 1 rises above its predecessor. */
  predicate NoRiseIn(closes: seq<real>, period: nat)
    requires period < |closes|
  {
    forall j :: 0 <= j < period ==> closes[j + 1] <= closes[j]
  }

  /** No close among the first period + 1 falls below its predecessor. */
  predicate NoFallIn(closes: seq<real>, period: nat)
    requires period < |closes|
  {
    forall j :: 0 <= j < period ==> closes[j] <= closes[j + 1]
  }

  /**
   * With enough closes, the RSI is 0 exactly when the first `period`
   * changes hold no rise or no fall. In particular a steadily rising series
   * gives 0, not 100: a zero average loss forces rs to 0.
   */
  lemma RsiZeroIff(closes: seq<real>, period: nat)
    requires period > 0 && |closes| >= period + 1
    ensures RsiOf(closes, period) == 0.0 <==> NoRiseIn(closes, period) || NoFallIn(closes, period)
  {
    SumNonNegativeSlice(Gains(closes), period);
    SumNonNegativeSlice(Losses(closes), period);
    forall i | 0 <= i < period
      ensures Gains(closes)[i] == 0.0 <==> closes[i + 1] <= closes[i]
      ensures Losses(closes)[i] == 0.0 <==> closes[i] <= closes[i + 1]
    {
    }
  }

  /** The RSI reads only the first period + 1 closes: appending later candles never changes it. */
  lemma RsiIgnoresLaterCandles(closes: seq<real>, later: seq<real>, period: nat)
    requires period > 0 && |closes| >= period + 1
    ensures RsiOf(closes + later, period) == RsiOf(closes, period)
  {
    assert Gains(closes + later)[..period] == Gains(closes)[..period];
    assert Losses(closes + later)[..period] == Losses(closes)[..period];
  }

  // ---------------------------------------------------------------- MACD

  /** MACD is EMA(12) - EMA(26); no signal line is computed. */
  function MacdOf(closes: seq<real>): real
    requires |closes| > 0
  {
    EmaOf(closes, 12) - EmaOf(closes, 26)
  }

  /** `calculateMACD` */
  method CalculateMacd(data: seq<Candle>) returns (macd: real)
    requires |data| > 0
    ensures macd == MacdOf(Closes(data))
  {
    var ema12 := CalculateEma(data, 12);
    var ema26 := CalculateEma(data, 26);
    macd := ema12 - ema26;
  }

  /** A flat market has MACD 0; and the MACD never exceeds the spread of the closes. */
  lemma MacdBounds(closes: seq<real>, lo: real, hi: real)
    requires |closes| > 0
    requires forall i :: 0 <= i < |closes| ==> lo <= closes[i] <= hi
    ensures lo - hi <= MacdOf(closes) <= hi - lo
    ensures lo == hi ==> MacdOf(closes) == 0.0
  {
    EmaWithinBounds(closes, 12, lo, hi);
    EmaWithinBounds(closes, 26, lo, hi);
  }

  // ---------------------------------------------------------------- average volume

  /** `volumes.slice(-period)` for period > 0: the last `period` entries, or all of them. */
  function LastN(xs: seq<real>, n: nat): (r: seq<real>)
    requires n > 0
    ensures |r| == if |xs| < n then |xs| else n
    ensures r == xs[|xs| - |r|..]
  {
    if |xs| <= n then xs else xs[|xs| - n..]
  }

  /** Sum of the last `period` volumes divided by `period`, even when fewer candles exist. */
  function AverageVolume(data: seq<Candle>, period: nat): (avg: real)
    requires period > 0
    ensures |data| >= period ==> avg == Sum(Volumes(data)[|data| - period..]) / period as real
    ensures |data| < period ==> avg == Sum(Volumes(data)) / period as real
    ensures NonNegative(Volumes(data)) ==> avg >= 0.0
  {
    var total := Sum(LastN(Volumes(data), period));
    DivideByPositive(total, period as real);
    WindowSumNonNegative(Volumes(data), period);
    total / period as real
  }

  /** The window of a non-negative series has a non-negative sum. */
  lemma WindowSumNonNegative(xs: seq<real>, n: nat)
    requires n > 0
    ensures NonNegative(xs) ==> Sum(LastN(xs, n)) >= 0.0
  {
    if NonNegative(xs) {
      var w := LastN(xs, n);
      assert NonNegative(w) by {
        forall i | 0 <= i < |w| ensures w[i] >= 0.0 {
          assert w[i] == xs[|xs| - |w| + i];
        }
      }
      SumNonNegative(w);
    }
  }

  /** Only the last `period` candles matter: an older candle in front changes nothing. */
  lemma AverageVolumeWindow(older: Candle, data: seq<Candle>, period: nat)
    requires period > 0 && |data| >= period
    ensures AverageVolume([older] + data, period) == AverageVolume(data, period)
  {
    assert LastN(Volumes([older] + data), period) == LastN(Volumes(data), period);
  }

  /**
   * With fewer candles than the period, the whole volume sum is divided by
   * the nominal period; for non-negative volumes that never exceeds the true
   * mean of the candles present.
   */
  lemma AverageVolumeShortSeries(data: seq<Candle>, period: nat)
    requires 0 < |data| < period
    requires NonNegative(Volumes(data))
    ensures AverageVolume(data, period) == Sum(Volumes(data)) / period as real
    ensures AverageVolume(data, period) <= Sum(Volumes(data)) / |data| as real
  {
    SumNonNegative(Volumes(data));
    DivideByLarger(Sum(Volumes(data)), |data| as real, period as real);
  }

  /** A non-negative amount shared among more parts gives each part no more. */
  lemma DivideByLarger(s: real, n: real, p: real)
    requires s >= 0.0 && 0.0 < n <= p
    ensures s / p <= s / n
  {
    var a, b := s / p, s / n;
    assert a * p == s && b * n == s;
    assert b >= 0.0;
    MulNonNegative(b, p - n);
    assert a * p <= b * p;
  }

  /** Five candles of volume 10..50 with period 20 average to 150 / 20 = 7.5. */
  lemma AverageVolumeExample(c: Candle)
    ensures AverageVolume([c.(volume := 10.0), c.(volume := 20.0), c.(volume := 30.0),
                           c.(volume := 40.0), c.(volume := 50.0)], 20) == 7.5
  {
    var data := [c.(volume := 10.0), c.(volume := 20.0), c.(volume := 30.0),
                 c.(volume := 40.0), c.(volume := 50.0)];
    var v := Volumes(data);
    assert v == [10.0, 20.0, 30.0, 40.0, 50.0];
    assert Sum(v[..1]) == 10.0 by { assert v[..1][..0] == []; }
    assert Sum(v[..2]) == 30.0 by { assert v[..2][..1] == v[..1]; }
    assert Sum(v[..3]) == 60.0 by { assert v[..3][..2] == v[..2]; }
    assert Sum(v[..4]) == 100.0 by { assert v[..4][..3] == v[..3]; }
    assert Sum(v) == 150.0 by { assert v[..4] == v[..|v| - 1]; }
    assert LastN(v, 20) == v;
  }

  // ---------------------------------------------------------------- the indicator set

  /** `calculateIndicators` of the backtest, and the indicator part of the strategy's snapshot. */
  function IndicatorsOf(closes: seq<real>): IndicatorSet
    requires |closes| > 0
  {
    IndicatorSet(EmaOf(closes, 20), EmaOf(closes, 50), RsiOf(closes, 14), MacdOf(closes))
  }

  /** Computes EMA(20), EMA(50), RSI(14) and MACD by the calculator methods. */
  method CalculateIndicators(data: seq<Candle>) returns (ind: IndicatorSet)
    requires |data| > 0
    ensures ind == IndicatorsOf(Closes(data))
    ensures 0.0 <= ind.rsi < 100.0
  {
    var ema20 := CalculateEma(data, 20);
    var ema50 := CalculateEma(data, 50);
    var rsi := CalculateRsi(data, 14);
    var macd := CalculateMacd(data);
    ind := IndicatorSet(ema20, ema50, rsi, macd);
  }

  /** A history of one candle gives EMA20 = EMA50 = its close, MACD 0 and the neutral RSI 50. */
  lemma SingleCandleIndicators(c: Candle)
    ensures IndicatorsOf(Closes([c])) == IndicatorSet(c.close, c.close, 50.0, 0.0)
  {
  }
}
