/**
 * `RealtimeInfluxWriter` of `upbit_realtime.py`: turns a flushed batch into
 * storage points, one per ticker or order-book record, hands them to the
 * storage client in one write, and keeps write and error counters. Whether the
 * write succeeds is a parameter (`writeSucceeds`); the client itself is not
 * modelled.
 */
module RealtimeWriter {
  import opened RealtimeRecords
  import opened OrderBook

  /** `_calculate_market_pressure`: order-book imbalance from the two size totals. */
  function MarketPressure(totalAsk: real, totalBid: real): (r: real)
    ensures totalAsk + totalBid == 0.0 ==> r == 0.0
    ensures totalAsk + totalBid != 0.0 ==> r * (totalBid + totalAsk) == totalBid - totalAsk
  {
    if totalAsk + totalBid == 0.0 then 0.0 else (totalBid - totalAsk) / (totalBid + totalAsk)
  }

  /** A ratio `r` with `r * (ask + bid) == bid - ask` over non-negative sizes. */
  lemma ImbalanceRatio(totalAsk: real, totalBid: real, r: real)
    requires totalAsk >= 0.0 && totalBid >= 0.0 && totalAsk + totalBid > 0.0
    requires r * (totalBid + totalAsk) == totalBid - totalAsk
    ensures -1.0 <= r <= 1.0
    ensures r > 0.0 <==> totalBid > totalAsk
    ensures r < 0.0 <==> totalAsk > totalBid
  {
    var t := totalBid + totalAsk;
    assert (r + 1.0) * t == 2.0 * totalBid;
    assert (1.0 - r) * t == 2.0 * totalAsk;
  }

  /** For non-negative sizes the pressure lies in [-1, 1] and its sign says which side is larger. */
  lemma MarketPressureBounds(totalAsk: real, totalBid: real)
    requires totalAsk >= 0.0 && totalBid >= 0.0
    ensures -1.0 <= MarketPressure(totalAsk, totalBid) <= 1.0
    ensures MarketPressure(totalAsk, totalBid) > 0.0 <==> totalBid > totalAsk
    ensures MarketPressure(totalAsk, totalBid) < 0.0 <==> totalAsk > totalBid
    ensures MarketPressure(totalAsk, totalBid) == 0.0 <==> totalAsk == totalBid
  {
    if totalAsk + totalBid != 0.0 {
      ImbalanceRatio(totalAsk, totalBid, MarketPressure(totalAsk, totalBid));
    }
  }

  /** `max(0, 1 - spread_pct / 0.01)`. */
  function SpreadScore(spreadPct: real): (r: real)
    ensures r >= 0.0 && (r == 0.0 || r == 1.0 - spreadPct / 0.01)
    ensures r >= 1.0 - spreadPct / 0.01
    ensures spreadPct >= 0.0 ==> r <= 1.0
  {
    if 1.0 - spreadPct / 0.01 > 0.0 then 1.0 - spreadPct / 0.01 else 0.0
  }

  /** `min(1.0, total_volume / 10.0)`. */
  function VolumeScore(totalVolume: real): (r: real)
    ensures r <= 1.0 && (r == 1.0 || r == totalVolume / 10.0)
    ensures r <= totalVolume / 10.0
    ensures totalVolume >= 0.0 ==> r >= 0.0
  {
    if totalVolume / 10.0 < 1.0 then totalVolume / 10.0 else 1.0
  }

  /**
   * `_calculate_liquidity_score`: 1 for a zero spread, otherwise the mean of a
   * spread score and a volume score.
   */
  function LiquidityScore(spreadPct: real, totalAsk: real, totalBid: real): (r: real)
    ensures spreadPct == 0.0 ==> r == 1.0
    ensures spreadPct != 0.0 ==> r * 2.0 == SpreadScore(spreadPct) + VolumeScore(totalAsk + totalBid)
  {
    if spreadPct == 0.0 then 1.0
    else (SpreadScore(spreadPct) + VolumeScore(totalAsk + totalBid)) / 2.0
  }

  /**
   * For a non-negative spread and non-negative sizes the score lies in [0, 1]
   * and is 1 exactly when the spread is 0; a spread of at least 0.01 percent
   * leaves only the volume half.
   */
  lemma LiquidityScoreBounds(spreadPct: real, totalAsk: real, totalBid: real)
    requires spreadPct >= 0.0 && totalAsk >= 0.0 && totalBid >= 0.0
    ensures 0.0 <= LiquidityScore(spreadPct, totalAsk, totalBid) <= 1.0
    ensures LiquidityScore(spreadPct, totalAsk, totalBid) == 1.0 <==> spreadPct == 0.0
    ensures spreadPct >= 0.01 ==>
      LiquidityScore(spreadPct, totalAsk, totalBid) == VolumeScore(totalAsk + totalBid) / 2.0
  {
    if spreadPct > 0.0 {
      assert spreadPct / 0.01 > 0.0;
      assert SpreadScore(spreadPct) < 1.0;
    }
  }

  /** A larger spread never raises the score. */
  lemma LiquidityScoreMonotone(p: real, q: real, totalAsk: real, totalBid: real)
    requires 0.0 <= p <= q && totalAsk >= 0.0 && totalBid >= 0.0
    ensures LiquidityScore(q, totalAsk, totalBid) <= LiquidityScore(p, totalAsk, totalBid)
  {
    LiquidityScoreBounds(q, totalAsk, totalBid);
    assert p / 0.01 <= q / 0.01;
  }

  // ---------------------------------------------------------------------------
  // Points

  /**
   * A storage point: `ticker_data` or `orderbook_summary`, timed by the
   * record's `buffer_timestamp` (in seconds; the nanosecond conversion is not
   * modelled).
   */
  datatype Point =
    | TickerPoint(tick: Tick, time: real)
    | OrderbookPoint(book: BookSummary, marketPressure: real, liquidityScore: real, time: real)

  /** `create_ticker_point` / `create_orderbook_point` for one entry; other types give no point. */
  function EntryPoints(e: Entry): (r: seq<Point>)
    ensures |r| <= 1
    ensures r == [] <==> e.record.OtherRecord?
  {
    match e.record
    case TickerRecord(t) => [TickerPoint(t, e.bufferTimestamp)]
    case OrderbookRecord(b) =>
      var f := b.figures;
      [OrderbookPoint(b, MarketPressure(f.totalAskSize, f.totalBidSize),
                      LiquidityScore(f.spreadPercentage, f.totalAskSize, f.totalBidSize),
                      e.bufferTimestamp)]
    case OtherRecord => []
  }

  /** The points of a batch, in batch order. */
  function BatchPoints(batch: seq<Entry>): seq<Point> {
    if batch == [] then []
    else BatchPoints(batch[..|batch| - 1]) + EntryPoints(batch[|batch| - 1])
  }

  function TickerCount(batch: seq<Entry>): nat {
    if batch == [] then 0
    else TickerCount(batch[..|batch| - 1]) + (if batch[|batch| - 1].record.TickerRecord? then 1 else 0)
  }

  function OrderbookCount(batch: seq<Entry>): nat {
    if batch == [] then 0
    else OrderbookCount(batch[..|batch| - 1]) + (if batch[|batch| - 1].record.OrderbookRecord? then 1 else 0)
  }

  /** Every ticker and every order-book record yields exactly one point, and nothing else does. */
  lemma {:induction false} PointCount(batch: seq<Entry>)
    ensures |BatchPoints(batch)| == TickerCount(batch) + OrderbookCount(batch)
    ensures |BatchPoints(batch)| <= |batch|
  {
    if batch != [] {
      PointCount(batch[..|batch| - 1]);
    }
  }

  /** A batch yields no point exactly when none of its records is a ticker or an order book. */
  lemma {:induction false} NoPoints(batch: seq<Entry>)
    ensures BatchPoints(batch) == [] <==> forall i :: 0 <= i < |batch| ==> batch[i].record.OtherRecord?
  {
    if batch != [] {
      var prefix := batch[..|batch| - 1];
      NoPoints(prefix);
      if BatchPoints(batch) == [] {
        forall i | 0 <= i < |batch| ensures batch[i].record.OtherRecord? {
          if i < |batch| - 1 { assert batch[i] == prefix[i]; }
        }
      }
      if forall i :: 0 <= i < |batch| ==> batch[i].record.OtherRecord? {
        forall i | 0 <= i < |prefix| ensures prefix[i].record.OtherRecord? {
          assert prefix[i] == batch[i];
        }
      }
    }
  }

  /** Each point comes from a record of the batch and carries that record's stamp. */
  lemma {:induction false} PointsFromBatch(batch: seq<Entry>, p: Point)
    requires p in BatchPoints(batch)
    ensures exists e :: e in batch && EntryPoints(e) == [p] && p.time == e.bufferTimestamp
  {
    var prefix := batch[..|batch| - 1];
    var last := batch[|batch| - 1];
    if p in BatchPoints(prefix) {
      PointsFromBatch(prefix, p);
      var e :| e in prefix && EntryPoints(e) == [p] && p.time == e.bufferTimestamp;
      assert e in batch;
    } else {
      assert p in EntryPoints(last);
      assert last in batch;
    }
  }

  /** The points of one batch are those of its two halves, so splitting a batch loses nothing. */
  lemma {:induction false} BatchPointsAppend(a: seq<Entry>, b: seq<Entry>)
    ensures BatchPoints(a + b) == BatchPoints(a) + BatchPoints(b)
  {
    if b != [] {
      var b' := b[..|b| - 1];
      assert (a + b)[..|a + b| - 1] == a + b';
      assert (a + b)[|a + b| - 1] == b[|b| - 1];
      BatchPointsAppend(a, b');
    } else {
      assert a + b == a;
    }
  }

  /** The loop of `save_mixed_batch`: build the point list and count the two kinds. */
  method CollectPoints(batch: seq<Entry>) returns (points: seq<Point>, tickers: nat, orderbooks: nat)
    ensures points == BatchPoints(batch)
    ensures tickers == TickerCount(batch) && orderbooks == OrderbookCount(batch)
  {
    points, tickers, orderbooks := [], 0, 0;
    var i := 0;
    while i < |batch|
      invariant 0 <= i <= |batch|
      invariant points == BatchPoints(batch[..i])
      invariant tickers == TickerCount(batch[..i]) && orderbooks == OrderbookCount(batch[..i])
    {
      var e := batch[i];
      assert batch[..i + 1][..i] == batch[..i];
      match e.record {
        case TickerRecord(_) =>
          points := points + EntryPoints(e);
          tickers := tickers + 1;
        case OrderbookRecord(_) =>
          points := points + EntryPoints(e);
          orderbooks := orderbooks + 1;
        case OtherRecord =>
      }
      i := i + 1;
    }
    assert batch[..i] == batch;
  }

  // ---------------------------------------------------------------------------
  // The writer

  datatype WriterCounters = WriterCounters(tickerWrites: nat, orderbookWrites: nat, errors: nat)

  /**
   * `save_mixed_batch`: the new counters, whether it reports success, and the
   * points handed to the storage client (none when it does not write).
   */
  function SaveBatch(w: WriterCounters, batch: seq<Entry>, writeSucceeds: bool): (r: (WriterCounters, bool, seq<Point>))
    ensures r.0.errors == w.errors + (if r.1 || r.2 == [] then 0 else 1)
    ensures r.0.tickerWrites >= w.tickerWrites && r.0.orderbookWrites >= w.orderbookWrites
    ensures !r.1 ==> r.0.tickerWrites == w.tickerWrites && r.0.orderbookWrites == w.orderbookWrites
  {
    if batch == [] then (w, true, [])
    else
      var points := BatchPoints(batch);
      if points == [] then (w, false, [])
      else if !writeSucceeds then (w.(errors := w.errors + 1), false, points)
      else (w.(tickerWrites := w.tickerWrites + TickerCount(batch),
               orderbookWrites := w.orderbookWrites + OrderbookCount(batch)), true, points)
  }

  /**
   * What `save_mixed_batch` promises: an empty batch is a success with nothing
   * written; a batch without valid points fails without counting an error; a
   * failed write counts exactly one error and no writes, and the batch is not
   * kept anywhere; a successful write counts every point by its kind.
   */
  lemma SaveBatchOutcome(w: WriterCounters, batch: seq<Entry>, writeSucceeds: bool)
    ensures var (w', ok, sent) := SaveBatch(w, batch, writeSucceeds);
      var valid := exists i :: 0 <= i < |batch| && !batch[i].record.OtherRecord?;
      && (ok <==> batch == [] || (valid && writeSucceeds))
      && (sent != [] <==> valid) && (sent != [] ==> sent == BatchPoints(batch))
      && w'.errors == w.errors + (if valid && !writeSucceeds then 1 else 0)
      && (ok ==> w'.tickerWrites + w'.orderbookWrites == w.tickerWrites + w.orderbookWrites + |sent|)
      && (batch == [] ==> w' == w && ok && sent == [])
      && (ok && batch != [] ==> && w'.tickerWrites == w.tickerWrites + TickerCount(batch)
                                && w'.orderbookWrites == w.orderbookWrites + OrderbookCount(batch))
      && (!ok ==> w'.tickerWrites == w.tickerWrites && w'.orderbookWrites == w.orderbookWrites)
  {
    NoPoints(batch);
    PointCount(batch);
  }

  /** `get_stats` without the floating-point success rate. */
  datatype WriterStats = WriterStats(totalWriteCount: nat, tickerWriteCount: nat, orderbookWriteCount: nat,
                                     errorCount: nat, connected: bool)

  class RealtimeInfluxWriter {
    var tickerWriteCount: nat
    var orderbookWriteCount: nat
    var totalErrorCount: nat
    /** Whether the storage client exists; construction fails when it cannot be created. */
    var connected: bool

    function Counters(): WriterCounters
      reads this
    {
      WriterCounters(tickerWriteCount, orderbookWriteCount, totalErrorCount)
    }

    constructor ()
      ensures Counters() == WriterCounters(0, 0, 0) && connected
    {
      tickerWriteCount, orderbookWriteCount, totalErrorCount := 0, 0, 0;
      connected := true;
    }

    method SaveMixedBatch(batch: seq<Entry>, writeSucceeds: bool) returns (ok: bool, sent: seq<Point>)
      modifies this
      ensures (Counters(), ok, sent) == SaveBatch(old(Counters()), batch, writeSucceeds)
      ensures connected == old(connected)
    {
      if batch == [] {
        return true, [];
      }
      var points, tickers, orderbooks := CollectPoints(batch);
      if points == [] {
        return false, [];
      }
      sent := points;
      if !writeSucceeds {
        totalErrorCount := totalErrorCount + 1;
        return false, sent;
      }
      tickerWriteCount := tickerWriteCount + tickers;
      orderbookWriteCount := orderbookWriteCount + orderbooks;
      ok := true;
    }

    /** `get_stats`: the total is the sum of the two kinds. */
    function GetStats(): (r: WriterStats)
      reads this
      ensures r.totalWriteCount == r.tickerWriteCount + r.orderbookWriteCount
      ensures r.tickerWriteCount == tickerWriteCount && r.orderbookWriteCount == orderbookWriteCount
      ensures r.errorCount == totalErrorCount && r.connected == connected
    {
      WriterStats(tickerWriteCount + orderbookWriteCount, tickerWriteCount, orderbookWriteCount,
                  totalErrorCount, connected)
    }
  }
}
