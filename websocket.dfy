/**
 * `UpbitWebSocketCollector.format_ticker_data` (`upbit_websocket.py`): copy
 * the thirteen keys of a ticker frame, with `""` for absent text and 0 for
 * absent numbers. The wall-clock `timestamp` it adds is not modelled.
 */
module WebsocketTicker {
  import opened Wrappers
  import opened Messages
  import RealtimeRecords

  datatype TickerView = TickerView(
    symbol: string,
    tradePrice: real,
    change: string,
    changePrice: real,
    changeRate: real,
    signedChangePrice: real,
    signedChangeRate: real,
    tradeVolume: real,
    accTradeVolume24h: real,
    accTradePrice24h: real,
    highPrice: real,
    lowPrice: real,
    prevClosingPrice: real)

  function FormatTickerData(data: RawTicker): TickerView {
    TickerView(
      data.code.GetOr(""),
      data.tradePrice.GetOr(0.0),
      data.change.GetOr(""),
      data.changePrice.GetOr(0.0),
      data.changeRate.GetOr(0.0),
      data.signedChangePrice.GetOr(0.0),
      data.signedChangeRate.GetOr(0.0),
      data.tradeVolume.GetOr(0.0),
      data.accTradeVolume24h.GetOr(0.0),
      data.accTradePrice24h.GetOr(0.0),
      data.highPrice.GetOr(0.0),
      data.lowPrice.GetOr(0.0),
      data.prevClosingPrice.GetOr(0.0))
  }

  /** The frame carrying exactly the values of `v`. */
  function FrameOf(v: TickerView): RawTicker {
    RawTicker(Some(v.symbol), Some(v.tradePrice), Some(v.change), Some(v.changePrice), Some(v.changeRate),
              Some(v.signedChangePrice), Some(v.signedChangeRate), Some(v.tradeVolume),
              Some(v.accTradeVolume24h), Some(v.accTradePrice24h), Some(v.highPrice), Some(v.lowPrice),
              Some(v.prevClosingPrice))
  }

  /** Keys that are present are copied unchanged: nothing is derived from them. */
  lemma FormatRoundTrip(v: TickerView)
    ensures FormatTickerData(FrameOf(v)) == v
  {
  }

  /** Absent keys take their defaults, one by one. */
  lemma FormatDefaults(data: RawTicker)
    ensures data.code.None? ==> FormatTickerData(data).symbol == ""
    ensures data.change.None? ==> FormatTickerData(data).change == ""
    ensures data.tradePrice.None? ==> FormatTickerData(data).tradePrice == 0.0
    ensures data.changePrice.None? ==> FormatTickerData(data).changePrice == 0.0
    ensures data.changeRate.None? ==> FormatTickerData(data).changeRate == 0.0
    ensures data.signedChangePrice.None? ==> FormatTickerData(data).signedChangePrice == 0.0
    ensures data.signedChangeRate.None? ==> FormatTickerData(data).signedChangeRate == 0.0
    ensures data.tradeVolume.None? ==> FormatTickerData(data).tradeVolume == 0.0
    ensures data.accTradeVolume24h.None? ==> FormatTickerData(data).accTradeVolume24h == 0.0
    ensures data.accTradePrice24h.None? ==> FormatTickerData(data).accTradePrice24h == 0.0
    ensures data.highPrice.None? ==> FormatTickerData(data).highPrice == 0.0
    ensures data.lowPrice.None? ==> FormatTickerData(data).lowPrice == 0.0
    ensures data.prevClosingPrice.None? ==> FormatTickerData(data).prevClosingPrice == 0.0
    ensures FormatTickerData(EmptyTicker) == TickerView("", 0.0, "", 0.0, 0.0, 0.0, 0.0, 0.0, 0.0, 0.0, 0.0, 0.0, 0.0)
  {
  }

  /** The real-time collector keeps ten of these thirteen keys, with the same defaults. */
  function RealtimeProjection(v: TickerView): RealtimeRecords.Tick {
    RealtimeRecords.Tick(v.symbol, v.tradePrice, v.change, v.changeRate, v.tradeVolume,
                         v.accTradeVolume24h, v.accTradePrice24h, v.highPrice, v.lowPrice, v.prevClosingPrice)
  }

  /** Both ticker normalisers agree on every key they share. */
  lemma NormalisersAgree(data: RawTicker)
    ensures RealtimeRecords.FormatTickerData(data) == RealtimeProjection(FormatTickerData(data))
  {
  }
}
