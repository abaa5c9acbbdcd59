/**
 * The decision rules of `UpbitTechnicalAnalyzer` (`upbit_technical.py`):
 * which candles `fetch_ohlcv_data` requests, how the already-computed
 * indicator values are classified, and the success rate it reports. An
 * indicator value that the numeric library leaves undefined (NaN or missing)
 * is `None`; the indicator mathematics itself is not modelled.
 */
module Technical {
  import opened Wrappers
  import opened CandleIntervals

  const UpbitUrl: string := "https://api.upbit.com/v1"

  /** `fetch_ohlcv_data`'s endpoint: minute candles default to unit 60. */
  function FetchEndpoint(interval: string): (r: Option<string>)
    ensures r.None? <==> interval != "days" && !StartsWith(interval, "minutes")
  {
    CandleEndpoint(UpbitUrl, interval, "60")
  }

  lemma FetchDays()
    ensures FetchEndpoint("days") == Some("https://api.upbit.com/v1/candles/days")
  {
    assert UpbitUrl + "/candles/days" == "https://api.upbit.com/v1/candles/days";
  }

  lemma FetchMinutesUnit(n: string)
    requires '/' !in n
    ensures FetchEndpoint("minutes/" + n) == Some(UpbitUrl + "/candles/minutes/" + n)
  {
    MinutesUnit(UpbitUrl, n, "60");
  }

  lemma FetchMinutesDefault()
    ensures FetchEndpoint("minutes") == Some("https://api.upbit.com/v1/candles/minutes/60")
  {
    MinutesDefault(UpbitUrl, "minutes", "60");
    assert UpbitUrl + "/candles/minutes/" + "60" == "https://api.upbit.com/v1/candles/minutes/60";
  }

  // ---------------------------------------------------------------------------
  // Moving averages

  /** The SMA periods, in the order the loop visits them. */
  const SmaPeriods: seq<nat> := [5, 20, 60, 120]

  datatype SmaEntry = SmaEntry(value: real, trend: string, signal: string)

  function SmaEntryOf(price: real, sma: real): (r: SmaEntry)
    ensures r.value == sma
    ensures r.trend == "up" <==> price > sma
    ensures r.signal == "bullish" <==> price > sma
    ensures r.trend == "up" <==> r.signal == "bullish"
  {
    SmaEntry(sma, if price > sma then "up" else "down", if price > sma then "bullish" else "bearish")
  }

  /** Whether the loop records an average for `period`. */
  predicate SmaRecorded(dataLength: int, sma: nat -> Option<real>, period: nat) {
    dataLength >= period && sma(period).Some?
  }

  /**
   * `_calculate_moving_averages`: for each period with enough data and a
   * defined average, record it with its trend and signal against the latest
   * close `price`. `sma(p)` is the library's latest `p`-period average.
   */
  method MovingAverages(dataLength: int, price: real, sma: nat -> Option<real>) returns (r: map<nat, SmaEntry>)
    ensures forall p :: p in r <==> p in SmaPeriods && SmaRecorded(dataLength, sma, p)
    ensures forall p :: p in r ==> sma(p).Some? && r[p] == SmaEntryOf(price, sma(p).value)
  {
    r := map[];
    var k := 0;
    while k < |SmaPeriods|
      invariant 0 <= k <= |SmaPeriods|
      invariant forall p :: p in r <==> p in SmaPeriods[..k] && SmaRecorded(dataLength, sma, p)
      invariant forall p :: p in r ==> sma(p).Some? && r[p] == SmaEntryOf(price, sma(p).value)
    {
      var period := SmaPeriods[k];
      assert SmaPeriods[..k + 1] == SmaPeriods[..k] + [period];
      if dataLength >= period {
        var current := sma(period);
        if current.Some? {
          r := r[period := SmaEntryOf(price, current.value)];
        }
      }
      k := k + 1;
    }
    assert SmaPeriods[..k] == SmaPeriods;
  }

  // ---------------------------------------------------------------------------
  // Momentum: RSI and MACD

  datatype RsiEntry = RsiEntry(value: real, signal: string, strength: real)

  function Abs(x: real): (r: real)
    ensures r >= 0.0 && (r == x || r == -x)
  {
    if x < 0.0 then -x else x
  }

  function RsiSignal(rsi: real): string {
    if rsi >= 70.0 then "overbought" else if rsi <= 30.0 then "oversold" else "neutral"
  }

  /** The RSI entry: recorded only with at least 14 candles and a defined value. */
  function RsiReading(dataLength: int, rsi: Option<real>): (r: Option<RsiEntry>)
    ensures r.Some? <==> dataLength >= 14 && rsi.Some?
    ensures r.Some? ==> r.value.value == rsi.value && r.value.signal == RsiSignal(rsi.value)
    ensures r.Some? ==> r.value.strength * 50.0 == Abs(rsi.value - 50.0)
  {
    if dataLength >= 14 && rsi.Some? then
      Some(RsiEntry(rsi.value, RsiSignal(rsi.value), Abs(rsi.value - 50.0) / 50.0))
    else None
  }

  /** The RSI bands, and the strength of an RSI within [0, 100] lies in [0, 1]. */
  lemma RsiBands(rsi: real)
    ensures RsiSignal(rsi) == "overbought" <==> rsi >= 70.0
    ensures RsiSignal(rsi) == "oversold" <==> rsi <= 30.0
    ensures RsiSignal(rsi) == "neutral" <==> 30.0 < rsi < 70.0
    ensures 0.0 <= rsi <= 100.0 ==> 0.0 <= Abs(rsi - 50.0) / 50.0 <= 1.0
  {
  }

  datatype MacdEntry = MacdEntry(macdLine: real, signalLine: real, histogram: real, signal: string, crossover: int)

  /** The MACD entry: at least 26 candles and all three lines defined. */
  function MacdReading(dataLength: int, macd: Option<real>, signal: Option<real>, histogram: Option<real>): (r: Option<MacdEntry>)
    ensures r.Some? <==> dataLength >= 26 && macd.Some? && signal.Some? && histogram.Some?
    ensures r.Some? ==> r.value.macdLine == macd.value && r.value.signalLine == signal.value
                        && r.value.histogram == histogram.value
    ensures r.Some? ==> (r.value.signal == "bullish" <==> macd.value > signal.value)
    ensures r.Some? ==> (r.value.crossover == 1 <==> Abs(macd.value - signal.value) < Abs(histogram.value) * 0.1)
    ensures r.Some? ==> r.value.crossover in {0, 1}
  {
    if dataLength >= 26 && macd.Some? && signal.Some? && histogram.Some? then
      var m, s, h := macd.value, signal.value, histogram.value;
      Some(MacdEntry(m, s, h, if m > s then "bullish" else "bearish",
                     if Abs(m - s) < Abs(h) * 0.1 then 1 else 0))
    else None
  }

  /**
   * Both the library's MACD and the fallback define the histogram as
   * `macd - signal`; with such a histogram the crossover flag is never set.
   */
  lemma CrossoverNeverFires(dataLength: int, m: real, s: real)
    requires dataLength >= 26
    ensures MacdReading(dataLength, Some(m), Some(s), Some(m - s)).value.crossover == 0
  {
  }

  // ---------------------------------------------------------------------------
  // Volatility: Bollinger bands and ATR

  datatype BollingerEntry = BollingerEntry(upper: real, middle: real, lower: real, width: real,
                                           position: string, squeeze: int)

  function BandPosition(price: real, upper: real, lower: real): string {
    if price > upper then "upper" else if price < lower then "lower" else "middle"
  }

  function BollingerReading(dataLength: int, price: real, upper: Option<real>, middle: Option<real>,
                            lower: Option<real>): (r: Option<BollingerEntry>)
    ensures r.Some? <==> dataLength >= 20 && upper.Some? && middle.Some? && lower.Some?
    ensures r.Some? ==> r.value.upper == upper.value && r.value.middle == middle.value
                        && r.value.lower == lower.value
    ensures r.Some? ==> r.value.width == upper.value - lower.value
    ensures r.Some? ==> r.value.position == BandPosition(price, upper.value, lower.value)
    ensures r.Some? ==> (r.value.squeeze == 1 <==> r.value.width < middle.value * 0.1)
    ensures r.Some? ==> r.value.squeeze in {0, 1}
  {
    if dataLength >= 20 && upper.Some? && middle.Some? && lower.Some? then
      var width := upper.value - lower.value;
      Some(BollingerEntry(upper.value, middle.value, lower.value, width,
                          BandPosition(price, upper.value, lower.value),
                          if width < middle.value * 0.1 then 1 else 0))
    else None
  }

  /** With the bands in order, the price is above, below or inside them, and exactly one of these. */
  lemma BandPositionMeaning(price: real, upper: real, lower: real)
    requires lower <= upper
    ensures BandPosition(price, upper, lower) == "upper" <==> price > upper
    ensures BandPosition(price, upper, lower) == "lower" <==> price < lower
    ensures BandPosition(price, upper, lower) == "middle" <==> lower <= price <= upper
  {
  }

  datatype AtrEntry = AtrEntry(value: real, volatilityLevel: string)

  function AtrLevel(atr: real, price: real): string {
    if atr > price * 0.03 then "high" else if atr > price * 0.01 then "medium" else "low"
  }

  /** The ATR entry: at least 14 candles and a defined, positive value. */
  function AtrReading(dataLength: int, price: real, atr: Option<real>): (r: Option<AtrEntry>)
    ensures r.Some? <==> dataLength >= 14 && atr.Some? && atr.value > 0.0
    ensures r.Some? ==> r.value.value == atr.value && r.value.volatilityLevel == AtrLevel(atr.value, price)
  {
    if dataLength >= 14 && atr.Some? && atr.value > 0.0 then Some(AtrEntry(atr.value, AtrLevel(atr.value, price)))
    else None
  }

  /** For a positive price the levels cut at 1 % and 3 % of the price, and a larger ATR never lowers the level. */
  lemma AtrBands(atr: real, atr2: real, price: real)
    requires price > 0.0
    ensures AtrLevel(atr, price) == "high" <==> atr > price * 0.03
    ensures AtrLevel(atr, price) == "medium" <==> price * 0.01 < atr <= price * 0.03
    ensures AtrLevel(atr, price) == "low" <==> atr <= price * 0.01
    ensures atr <= atr2 && AtrLevel(atr, price) == "high" ==> AtrLevel(atr2, price) == "high"
    ensures atr <= atr2 && AtrLevel(atr2, price) == "low" ==> AtrLevel(atr, price) == "low"
  {
  }

  // ---------------------------------------------------------------------------
  // Statistics

  /** `success_count / max(analysis_count, 1) * 100`. */
  function SuccessRate(successCount: nat, analysisCount: nat): (r: real)
    ensures r * (if analysisCount == 0 then 1.0 else analysisCount as real) == successCount as real * 100.0
  {
    successCount as real / (if analysisCount == 0 then 1 else analysisCount) as real * 100.0
  }

  /**
   * A success is only counted after its analysis has been, so the rate is a
   * percentage: 0 before any analysis, 100 exactly when every analysis so far
   * succeeded.
   */
  lemma SuccessRateBounds(successCount: nat, analysisCount: nat)
    requires successCount <= analysisCount
    ensures 0.0 <= SuccessRate(successCount, analysisCount) <= 100.0
    ensures analysisCount == 0 ==> SuccessRate(successCount, analysisCount) == 0.0
    ensures SuccessRate(successCount, analysisCount) == 100.0 <==> 0 < analysisCount == successCount
  {
    var r := SuccessRate(successCount, analysisCount);
    if analysisCount > 0 {
      var n := analysisCount as real;
      assert r * n == successCount as real * 100.0;
      assert (100.0 - r) * n == (analysisCount - successCount) as real * 100.0;
      assert r * n >= 0.0;
    }
  }
}
