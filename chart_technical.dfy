/**
 * `UpbitChartCollector.get_candles` (`upbit_chart_technical.py`): the same
 * endpoint rule as `fetch_ohlcv_data` except that a minute interval without a
 * unit means one-minute candles.
 */
module ChartTechnical {
  import opened Wrappers
  import opened CandleIntervals
  import Technical

  const ServerUrl: string := "https://api.upbit.com/v1"

  function CandlesEndpoint(interval: string): (r: Option<string>)
    ensures r.None? <==> interval != "days" && !StartsWith(interval, "minutes")
  {
    CandleEndpoint(ServerUrl, interval, "1")
  }

  lemma CandlesDays()
    ensures CandlesEndpoint("days") == Some("https://api.upbit.com/v1/candles/days")
  {
    assert ServerUrl + "/candles/days" == "https://api.upbit.com/v1/candles/days";
  }

  lemma CandlesMinutesUnit(n: string)
    requires '/' !in n
    ensures CandlesEndpoint("minutes/" + n) == Some(ServerUrl + "/candles/minutes/" + n)
  {
    MinutesUnit(ServerUrl, n, "1");
  }

  lemma CandlesMinutesDefault()
    ensures CandlesEndpoint("minutes") == Some("https://api.upbit.com/v1/candles/minutes/1")
  {
    MinutesDefault(ServerUrl, "minutes", "1");
    assert ServerUrl + "/candles/minutes/" + "1" == "https://api.upbit.com/v1/candles/minutes/1";
  }

  /**
   * The two collectors agree on every interval except a `"minutes…"` one
   * without `/`, where the technical analyzer asks for hourly and the chart
   * collector for one-minute candles.
   */
  lemma CollectorsAgree(interval: string)
    ensures CandlesEndpoint(interval) == Technical.FetchEndpoint(interval)
            <==> !(StartsWith(interval, "minutes") && '/' !in interval)
  {
    if StartsWith(interval, "minutes") && '/' !in interval {
      MinutesDefault(ServerUrl, interval, "1");
      MinutesDefault(Technical.UpbitUrl, interval, "60");
      var a := ServerUrl + "/candles/minutes/" + "1";
      var b := ServerUrl + "/candles/minutes/" + "60";
      assert |a| != |b|;
    }
  }
}
