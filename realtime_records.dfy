/**
 * The canonical records of the real-time collector (`upbit_realtime.py`) and
 * its two normalisers, `_format_ticker_data` and `_format_orderbook_data`.
 * The source tags each record dict with a `data_type` string; here the tag is
 * the variant of `Record`.
 */
module RealtimeRecords {
  import opened Wrappers
  import opened Messages
  import opened OrderBook

  /** A normalised trade tick (`data_type == "ticker"`). */
  datatype Tick = Tick(
    symbol: string,
    tradePrice: real,
    change: string,
    changeRate: real,
    tradeVolume: real,
    accTradeVolume24h: real,
    accTradePrice24h: real,
    highPrice: real,
    lowPrice: real,
    prevClosingPrice: real)

  /** A normalised order-book summary (`data_type == "orderbook"`). */
  datatype BookSummary = BookSummary(symbol: string, figures: Figures)

  /** A record as the buffer receives it; `OtherRecord` is a dict whose `data_type` is neither. */
  datatype Record = TickerRecord(tick: Tick) | OrderbookRecord(book: BookSummary) | OtherRecord

  /** A record once the buffer has written `buffer_timestamp` into it. */
  datatype Entry = Entry(record: Record, bufferTimestamp: real)

  /** `_format_ticker_data`: copy the ten keys, with `""` and 0 for absent ones. */
  function FormatTickerData(data: RawTicker): Tick {
    Tick(
      data.code.GetOr(""),
      data.tradePrice.GetOr(0.0),
      data.change.GetOr(""),
      data.changeRate.GetOr(0.0),
      data.tradeVolume.GetOr(0.0),
      data.accTradeVolume24h.GetOr(0.0),
      data.accTradePrice24h.GetOr(0.0),
      data.highPrice.GetOr(0.0),
      data.lowPrice.GetOr(0.0),
      data.prevClosingPrice.GetOr(0.0))
  }

  /** The frame that carries exactly the keys of `t`. */
  function TickerMessage(t: Tick): RawTicker {
    RawTicker(Some(t.symbol), Some(t.tradePrice), Some(t.change), None, Some(t.changeRate),
              None, None, Some(t.tradeVolume), Some(t.accTradeVolume24h), Some(t.accTradePrice24h),
              Some(t.highPrice), Some(t.lowPrice), Some(t.prevClosingPrice))
  }

  /** Normalising a frame built from a tick gives back that tick: nothing is derived. */
  lemma TickerRoundTrip(t: Tick)
    ensures FormatTickerData(TickerMessage(t)) == t
  {
  }

  /** Every absent key takes its default: `""` for the symbol and `change`, 0 for numbers. */
  lemma TickerDefaults(data: RawTicker)
    ensures data.code.None? ==> FormatTickerData(data).symbol == ""
    ensures data.tradePrice.None? ==> FormatTickerData(data).tradePrice == 0.0
    ensures data.change.None? ==> FormatTickerData(data).change == ""
    ensures data.changeRate.None? ==> FormatTickerData(data).changeRate == 0.0
    ensures data.tradeVolume.None? ==> FormatTickerData(data).tradeVolume == 0.0
    ensures data.accTradeVolume24h.None? ==> FormatTickerData(data).accTradeVolume24h == 0.0
    ensures data.accTradePrice24h.None? ==> FormatTickerData(data).accTradePrice24h == 0.0
    ensures data.highPrice.None? ==> FormatTickerData(data).highPrice == 0.0
    ensures data.lowPrice.None? ==> FormatTickerData(data).lowPrice == 0.0
    ensures data.prevClosingPrice.None? ==> FormatTickerData(data).prevClosingPrice == 0.0
    ensures FormatTickerData(EmptyTicker) == Tick("", 0.0, "", 0.0, 0.0, 0.0, 0.0, 0.0, 0.0, 0.0)
  {
  }

  /**
   * `_format_orderbook_data`: build the level lists in a loop, sort them in
   * place and derive the summary figures (see `OrderBook.BestAskIsLowest`,
   * `OrderBook.BestBidIsHighest` and `OrderBook.SpreadAndTotals` for what they
   * mean). An absent `orderbook_units` key counts as no units.
   */
  method FormatOrderbookData(data: RawOrderbook) returns (r: BookSummary)
    ensures r.symbol == data.code.GetOr("")
    ensures r.figures == BookFigures(data.orderbookUnits.GetOr([]))
  {
    var units := data.orderbookUnits.GetOr([]);
    var asks, bids := SplitAndSort(units);
    r := BookSummary(data.code.GetOr(""), FiguresOf(asks, bids));
  }
}
