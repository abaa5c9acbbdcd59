/**
 * The record pipeline of `UpbitRealtimeCollector` (`upbit_realtime.py`):
 * `_process_data` buffers a normalised record, caches tickers under a
 * per-symbol key with a 10-second expiry, saves any flushed batch and counts
 * the record by type; `stop_collection` saves what is left in the buffer.
 *
 * The cache is a map from key to cached entry; its expiry and the connection
 * are not modelled. Whether the cache write and the storage write succeed are
 * parameters.
 */
module RealtimeCollector {
  import opened Wrappers
  import opened RealtimeRecords
  import opened RealtimeBuffer
  import opened RealtimeWriter

  /** The expiry, in seconds, that `setex` gives a cached ticker. */
  const CacheTtl: int := 10

  /** How many processed records pass between two statistics reports. */
  const ReportEvery: nat := 50

  const KeyPrefix: string := "ticker:"
  const KeySuffix: string := ":latest"

  /** `f"ticker:{symbol}:latest"`. */
  function CacheKey(symbol: string): (r: string)
    ensures |r| == |symbol| + 14
    ensures r[..7] == KeyPrefix && r[|r| - 7..] == KeySuffix && r[7..|r| - 7] == symbol
  {
    KeyPrefix + symbol + KeySuffix
  }

  /** Distinct symbols never share a cache slot. */
  lemma CacheKeyInjective(a: string, b: string)
    requires CacheKey(a) == CacheKey(b)
    ensures a == b
  {
    var k := CacheKey(a);
    assert a == k[7..|k| - 7];
  }

  /** The cached value: the ticker record as buffered, stamp included, and its expiry. */
  datatype CachedTick = CachedTick(payload: Entry, ttl: int)

  datatype CollectorState = CollectorState(
    buffer: State,
    writer: WriterCounters,
    cache: map<string, CachedTick>,
    tickerProcessed: nat,
    orderbookProcessed: nat)

  /** Whether this call's cache write raises: only tickers are cached, and only when a cache exists. */
  predicate CacheFails(cacheEnabled: bool, data: Record, cacheSucceeds: bool) {
    data.TickerRecord? && cacheEnabled && !cacheSucceeds
  }

  /** The cache after a successful `setex` for this record, if it is cached at all. */
  function CacheAfter(cacheEnabled: bool, cache: map<string, CachedTick>, data: Record, now: real): map<string, CachedTick> {
    if data.TickerRecord? && cacheEnabled
    then cache[CacheKey(data.tick.symbol) := CachedTick(Entry(data, now), CacheTtl)]
    else cache
  }

  /** `if batch:` — only a non-empty flushed batch is saved. */
  function BatchToSave(batch: Option<seq<Entry>>): seq<Entry> {
    if batch.Some? then batch.value else []
  }

  /** What follows the cache write: save the flushed batch and count the record by type. */
  function SaveAndCount(s: CollectorState, handed: seq<Entry>, data: Record, writeSucceeds: bool): (r: CollectorState)
    ensures r.buffer == s.buffer && r.cache == s.cache
  {
    var w := if handed != [] then SaveBatch(s.writer, handed, writeSucceeds).0 else s.writer;
    s.(writer := w,
       tickerProcessed := s.tickerProcessed + (if data.TickerRecord? then 1 else 0),
       orderbookProcessed := s.orderbookProcessed + (if data.OrderbookRecord? then 1 else 0))
  }

  /**
   * `_process_data` as written: the new state, the batch handed to
   * `save_mixed_batch` (empty when none), and whether the statistics report is
   * printed. A failing cache write raises inside the one `try` block, so the
   * save and the counting that follow it are skipped, although `add_data` has
   * already run and may have emptied the buffer.
   */
  function Process(c: Config, cacheEnabled: bool, s: CollectorState, data: Record, now: real,
                   cacheSucceeds: bool, writeSucceeds: bool): (CollectorState, seq<Entry>, bool)
  {
    var (b, batch) := Add(c, s.buffer, data, now);
    AfterAdd(cacheEnabled, s.(buffer := b), data, now, batch, cacheSucceeds, writeSucceeds)
  }

  /** The steps of `_process_data` that follow `add_data`, which returned `batch`. */
  function AfterAdd(cacheEnabled: bool, s: CollectorState, data: Record, now: real, batch: Option<seq<Entry>>,
                    cacheSucceeds: bool, writeSucceeds: bool): (CollectorState, seq<Entry>, bool)
  {
    if CacheFails(cacheEnabled, data, cacheSucceeds) then (s, [], false)
    else
      var handed := BatchToSave(batch);
      var s2 := SaveAndCount(s.(cache := CacheAfter(cacheEnabled, s.cache, data, now)), handed, data, writeSucceeds);
      (s2, handed, (s2.tickerProcessed + s2.orderbookProcessed) % ReportEvery == 0)
  }

  /**
   * When the cache write does not raise: the buffer does what `add_data` does,
   * a flushed batch is handed to the writer and counted as the writer counts
   * it, the ticker is cached under its symbol's key with expiry 10, the record
   * is counted by type, and the report is due every 50 processed records.
   */
  lemma ProcessOutcome(c: Config, cacheEnabled: bool, s: CollectorState, data: Record, now: real,
                       cacheSucceeds: bool, writeSucceeds: bool)
    requires !CacheFails(cacheEnabled, data, cacheSucceeds)
    ensures var (s', handed, report) := Process(c, cacheEnabled, s, data, now, cacheSucceeds, writeSucceeds);
      var (b, batch) := Add(c, s.buffer, data, now);
      && s'.buffer == b
      && handed == (if batch.Some? then batch.value else [])
      && s'.writer == (if handed == [] then s.writer else SaveBatch(s.writer, handed, writeSucceeds).0)
      && (data.TickerRecord? && cacheEnabled ==>
            s'.cache == s.cache[CacheKey(data.tick.symbol) := CachedTick(Entry(data, now), 10)])
      && (!(data.TickerRecord? && cacheEnabled) ==> s'.cache == s.cache)
      && s'.tickerProcessed == s.tickerProcessed + (if data.TickerRecord? then 1 else 0)
      && s'.orderbookProcessed == s.orderbookProcessed + (if data.OrderbookRecord? then 1 else 0)
      && (report <==> (s'.tickerProcessed + s'.orderbookProcessed) % 50 == 0)
  {
  }

  /**
   * When the cache write does not raise and the threshold is within the
   * capacity, no record is lost: the batch handed to the writer followed by the
   * buffer is the old buffer followed by the new stamped record.
   */
  lemma ProcessConserves(c: Config, cacheEnabled: bool, s: CollectorState, data: Record, now: real,
                         cacheSucceeds: bool, writeSucceeds: bool)
    requires Inv(c, s.buffer) && 1 <= c.batchThreshold <= c.maxSize
    requires !CacheFails(cacheEnabled, data, cacheSucceeds)
    ensures var (s', handed, _) := Process(c, cacheEnabled, s, data, now, cacheSucceeds, writeSucceeds);
      handed + s'.buffer.buffer == s.buffer.buffer + [Entry(data, now)]
  {
    AddOutcome(c, s.buffer, data, now);
  }

  /**
   * A failing cache write on the call that triggers a flush loses the whole
   * batch: it has left the buffer but is never handed to the writer, and
   * neither the writer's nor the collector's counters move.
   */
  lemma CacheFailureLosesBatch(c: Config, s: CollectorState, data: Record, now: real, writeSucceeds: bool)
    requires data.TickerRecord? && |s.buffer.buffer| < c.maxSize
    requires FlushDue(c, |s.buffer.buffer| + 1, now - s.buffer.lastFlushTime)
    ensures var (s', handed, report) := Process(c, true, s, data, now, false, writeSucceeds);
      && handed == [] && s'.buffer.buffer == []
      && Add(c, s.buffer, data, now).1 == Some(s.buffer.buffer + [Entry(data, now)])
      && s'.buffer.totalFlushed == s.buffer.totalFlushed + |s.buffer.buffer| + 1
      && s'.writer == s.writer && s'.tickerProcessed == s.tickerProcessed && !report
  {
    AddOutcome(c, s.buffer, data, now);
  }

  /**
   * The evidently intended `_process_data`: a cache failure is non-fatal and
   * only leaves the cache as it was; saving and counting go ahead.
   */
  function ProcessIsolated(c: Config, cacheEnabled: bool, s: CollectorState, data: Record, now: real,
                           cacheSucceeds: bool, writeSucceeds: bool): (CollectorState, seq<Entry>, bool)
  {
    var (b, batch) := Add(c, s.buffer, data, now);
    var cache := if CacheFails(cacheEnabled, data, cacheSucceeds) then s.cache else CacheAfter(cacheEnabled, s.cache, data, now);
    var handed := BatchToSave(batch);
    var s2 := SaveAndCount(s.(buffer := b, cache := cache), handed, data, writeSucceeds);
    (s2, handed, (s2.tickerProcessed + s2.orderbookProcessed) % ReportEvery == 0)
  }

  /**
   * With the cache failure isolated, no record is ever lost whatever the cache
   * does, every record is counted, and a healthy cache gives exactly the
   * behaviour of the code as written.
   */
  lemma ProcessIsolatedConserves(c: Config, cacheEnabled: bool, s: CollectorState, data: Record, now: real,
                                 cacheSucceeds: bool, writeSucceeds: bool)
    requires Inv(c, s.buffer) && 1 <= c.batchThreshold <= c.maxSize
    ensures var (s', handed, _) := ProcessIsolated(c, cacheEnabled, s, data, now, cacheSucceeds, writeSucceeds);
      && handed + s'.buffer.buffer == s.buffer.buffer + [Entry(data, now)]
      && s'.tickerProcessed + s'.orderbookProcessed
         == s.tickerProcessed + s.orderbookProcessed + (if data.OtherRecord? then 0 else 1)
    ensures !CacheFails(cacheEnabled, data, cacheSucceeds) ==>
      ProcessIsolated(c, cacheEnabled, s, data, now, cacheSucceeds, writeSucceeds)
      == Process(c, cacheEnabled, s, data, now, cacheSucceeds, writeSucceeds)
  {
    AddOutcome(c, s.buffer, data, now);
  }

  /**
   * `stop_collection`'s final flush: drain the buffer and save what it held, if
   * anything. Nothing is left buffered, everything that was is handed to the
   * writer, which counts it as `save_mixed_batch` does, the cache is kept, and
   * an empty buffer leaves the state alone.
   */
  function Stop(s: CollectorState, now: real, writeSucceeds: bool): (r: (CollectorState, seq<Entry>))
    ensures r.0.buffer.buffer == [] && r.1 == s.buffer.buffer
    ensures r.0.buffer == FlushState(s.buffer, now).0
    ensures r.0.writer == if r.1 == [] then s.writer else SaveBatch(s.writer, r.1, writeSucceeds).0
    ensures r.0.cache == s.cache
    ensures r.1 == [] ==> r.0 == s
    ensures r.0.tickerProcessed == s.tickerProcessed && r.0.orderbookProcessed == s.orderbookProcessed
  {
    var (b, remaining) := FlushState(s.buffer, now);
    var w := if remaining != [] then SaveBatch(s.writer, remaining, writeSucceeds).0 else s.writer;
    (s.(buffer := b, writer := w), remaining)
  }

  class UpbitRealtimeCollector {
    const buffer: RealtimeDataBuffer
    const writer: RealtimeInfluxWriter
    /** Whether the cache connection was established at start-up. */
    const cacheEnabled: bool
    var cache: map<string, CachedTick>
    var tickerProcessed: nat
    var orderbookProcessed: nat
    var isRunning: bool

    function Snapshot(): CollectorState
      reads this, buffer, writer
    {
      CollectorState(buffer.Snapshot(), writer.Counters(), cache, tickerProcessed, orderbookProcessed)
    }

    ghost predicate Valid()
      reads this, buffer
    {
      buffer.Valid()
    }

    /** `__init__`: a default buffer whose clock starts at `now`, a fresh writer, empty statistics. */
    constructor (cacheEnabled: bool, now: real)
      ensures Valid() && fresh(buffer) && fresh(writer)
      ensures buffer.config == DefaultConfig && this.cacheEnabled == cacheEnabled
      ensures Snapshot() == CollectorState(InitialState(now), WriterCounters(0, 0, 0), map[], 0, 0)
      ensures !isRunning
    {
      buffer := new RealtimeDataBuffer(1500, 150, 5.0, now);
      writer := new RealtimeInfluxWriter();
      this.cacheEnabled := cacheEnabled;
      cache := map[];
      tickerProcessed, orderbookProcessed := 0, 0;
      isRunning := false;
    }

    method ProcessData(data: Record, now: real, cacheSucceeds: bool, writeSucceeds: bool)
      returns (handed: seq<Entry>, report: bool)
      requires Valid()
      modifies this, buffer, writer
      ensures Valid() && isRunning == old(isRunning)
      ensures (Snapshot(), handed, report)
              == Process(buffer.config, cacheEnabled, old(Snapshot()), data, now, cacheSucceeds, writeSucceeds)
    {
      var batch := buffer.AddData(data, now);
      handed, report := FinishProcessing(data, now, batch, cacheSucceeds, writeSucceeds);
    }

    /** Everything `_process_data` does after `add_data`. */
    method FinishProcessing(data: Record, now: real, batch: Option<seq<Entry>>, cacheSucceeds: bool, writeSucceeds: bool)
      returns (handed: seq<Entry>, report: bool)
      modifies this, writer
      ensures (Snapshot(), handed, report)
              == AfterAdd(cacheEnabled, old(Snapshot()), data, now, batch, cacheSucceeds, writeSucceeds)
      ensures isRunning == old(isRunning)
    {
      if CacheFails(cacheEnabled, data, cacheSucceeds) {
        return [], false;
      }
      if data.TickerRecord? && cacheEnabled {
        cache := cache[CacheKey(data.tick.symbol) := CachedTick(Entry(data, now), CacheTtl)];
      }
      assert Snapshot() == old(Snapshot()).(cache := CacheAfter(cacheEnabled, old(cache), data, now));
      handed := BatchToSave(batch);
      SaveAndCountRecord(handed, data, writeSucceeds);
      report := (tickerProcessed + orderbookProcessed) % ReportEvery == 0;
    }

    /** The save of the flushed batch, if any, and the per-type count. */
    method SaveAndCountRecord(handed: seq<Entry>, data: Record, writeSucceeds: bool)
      modifies this, writer
      ensures Snapshot() == SaveAndCount(old(Snapshot()), handed, data, writeSucceeds)
      ensures isRunning == old(isRunning)
    {
      if handed != [] {
        var ok, sent := writer.SaveMixedBatch(handed, writeSucceeds);
      }
      if data.TickerRecord? {
        tickerProcessed := tickerProcessed + 1;
      } else if data.OrderbookRecord? {
        orderbookProcessed := orderbookProcessed + 1;
      }
    }

    method StopCollection(now: real, writeSucceeds: bool) returns (remaining: seq<Entry>)
      requires Valid()
      modifies this, buffer, writer
      ensures Valid() && !isRunning
      ensures (Snapshot(), remaining) == Stop(old(Snapshot()), now, writeSucceeds)
    {
      isRunning := false;
      remaining := buffer.Flush(now);
      if remaining != [] {
        var ok, sent := writer.SaveMixedBatch(remaining, writeSucceeds);
      }
    }
  }
}
