/**
 * `RealtimeDataBuffer` of `upbit_realtime.py`: a bounded FIFO of stamped
 * records with a three-way flush trigger (size, elapsed time, memory
 * pressure) and three counters. The clock is a parameter: `now` is the value
 * `time.time()` returns during the call. The buffer's lock is not modelled;
 * every method is one atomic step.
 *
 * `State`, `Add` and `Flush` are the specification; the class
 * `RealtimeDataBuffer` keeps the same state in fields and its methods are
 * proved to follow the specification functions.
 */
module RealtimeBuffer {
  import opened Wrappers
  import opened RealtimeRecords

  /** `max_size`, `batch_threshold` and `flush_interval` (seconds). */
  datatype Config = Config(maxSize: nat, batchThreshold: int, flushInterval: real)

  /** The constructor's defaults: 1500 records, 150 records, 5 seconds. */
  const DefaultConfig: Config := Config(1500, 150, 5.0)

  datatype State = State(
    buffer: seq<Entry>,
    lastFlushTime: real,
    tickerAdded: nat,
    orderbookAdded: nat,
    totalFlushed: nat)

  function InitialState(now: real): State {
    State([], now, 0, 0, 0)
  }

  /**
   * `deque(maxlen=maxLen).append(x)`: when the deque is full the oldest
   * element is discarded.
   */
  function DequeAppend(q: seq<Entry>, x: Entry, maxLen: nat): seq<Entry> {
    var full := q + [x];
    if |full| <= maxLen then full else full[|full| - maxLen..]
  }

  /** `_should_flush` on a buffer of `size` records, `elapsed` seconds after the last flush. */
  predicate FlushDue(c: Config, size: nat, elapsed: real) {
    || size >= c.batchThreshold
    || elapsed >= c.flushInterval
    || size as real > c.maxSize as real * 0.8
  }

  /** `flush`: hand over the whole buffer and restart the flush clock; nothing happens when it is empty. */
  function FlushState(s: State, now: real): (r: (State, seq<Entry>))
    ensures r.1 == s.buffer && r.0.buffer == []
    ensures r.0.totalFlushed == s.totalFlushed + |r.1|
    ensures r.0.tickerAdded == s.tickerAdded && r.0.orderbookAdded == s.orderbookAdded
    ensures r.0.lastFlushTime == if s.buffer == [] then s.lastFlushTime else now
  {
    if s.buffer == [] then (s, [])
    else (s.(buffer := [], lastFlushTime := now, totalFlushed := s.totalFlushed + |s.buffer|), s.buffer)
  }

  /** `add_data`: stamp, count by type, append, and flush when the trigger fires. */
  function Add(c: Config, s: State, data: Record, now: real): (r: (State, Option<seq<Entry>>))
    ensures r.0.tickerAdded == s.tickerAdded + (if data.TickerRecord? then 1 else 0)
    ensures r.0.orderbookAdded == s.orderbookAdded + (if data.OrderbookRecord? then 1 else 0)
    ensures var grown := DequeAppend(s.buffer, Entry(data, now), c.maxSize);
      && (r.1.Some? <==> FlushDue(c, |grown|, now - s.lastFlushTime))
      && (r.1.Some? ==> r.1.value == grown && r.0.buffer == [])
      && (r.1.None? ==> r.0.buffer == grown && r.0.lastFlushTime == s.lastFlushTime)
  {
    var appended := s.(
      buffer := DequeAppend(s.buffer, Entry(data, now), c.maxSize),
      tickerAdded := s.tickerAdded + (if data.TickerRecord? then 1 else 0),
      orderbookAdded := s.orderbookAdded + (if data.OrderbookRecord? then 1 else 0));
    if FlushDue(c, |appended.buffer|, now - appended.lastFlushTime) then
      var (flushed, batch) := FlushState(appended, now);
      (flushed, Some(batch))
    else
      (appended, None)
  }

  /**
   * The buffer invariant: never more than `max_size` records, and, once the
   * threshold is at least 1, fewer records than the threshold.
   */
  ghost predicate Inv(c: Config, s: State) {
    && |s.buffer| <= c.maxSize
    && (c.batchThreshold >= 1 ==> |s.buffer| < c.batchThreshold)
  }

  /** `flush` on an empty buffer returns `[]` and changes nothing. */
  lemma FlushEmpty(s: State, now: real)
    requires s.buffer == []
    ensures FlushState(s, now) == (s, [])
  {
  }

  /** A flush drains everything, in order, resets the clock and adds the count to `total_flushed`. */
  lemma FlushDrains(s: State, now: real)
    requires s.buffer != []
    ensures var (s', batch) := FlushState(s, now);
      && batch == s.buffer && s'.buffer == []
      && s'.lastFlushTime == now && s'.totalFlushed == s.totalFlushed + |batch|
      && s'.tickerAdded == s.tickerAdded && s'.orderbookAdded == s.orderbookAdded
  {
  }

  /** The deque never holds more than `maxLen` elements and drops nothing while it has room. */
  lemma DequeAppendBounded(q: seq<Entry>, x: Entry, maxLen: nat)
    requires |q| <= maxLen
    ensures |DequeAppend(q, x, maxLen)| <= maxLen
    ensures |q| < maxLen ==> DequeAppend(q, x, maxLen) == q + [x]
    ensures |q| == maxLen ==> DequeAppend(q, x, maxLen) == (q + [x])[1..]
  {
  }

  /** `add_data` counts a record as a ticker or an order book by its type, and other types not at all. */
  lemma AddCounts(c: Config, s: State, data: Record, now: real)
    ensures var (s', _) := Add(c, s, data, now);
      && s'.tickerAdded == s.tickerAdded + (if data.TickerRecord? then 1 else 0)
      && s'.orderbookAdded == s.orderbookAdded + (if data.OrderbookRecord? then 1 else 0)
  {
  }

  /**
   * When the trigger fires, `add_data` returns every record buffered since the
   * last flush followed by the new one, stamped with `now`, leaves the buffer
   * empty, restarts the flush clock and adds the batch length to
   * `total_flushed`. Otherwise it returns nothing and the buffer grows by the
   * new record.
   */
  lemma AddOutcome(c: Config, s: State, data: Record, now: real)
    requires |s.buffer| < c.maxSize
    ensures var (s', batch) := Add(c, s, data, now);
      var e := Entry(data, now);
      && (batch.Some? <==> FlushDue(c, |s.buffer| + 1, now - s.lastFlushTime))
      && (batch.Some? ==>
            && batch.value == s.buffer + [e] && batch.value[|batch.value| - 1] == e
            && s'.buffer == [] && s'.lastFlushTime == now
            && s'.totalFlushed == s.totalFlushed + |batch.value|)
      && (batch.None? ==>
            && s'.buffer == s.buffer + [e] && |s'.buffer| == |s.buffer| + 1
            && s'.lastFlushTime == s.lastFlushTime && s'.totalFlushed == s.totalFlushed)
  {
    DequeAppendBounded(s.buffer, Entry(data, now), c.maxSize);
  }

  /** `add_data` keeps the invariant: the buffer stays below the threshold and within `max_size`. */
  lemma AddKeepsInv(c: Config, s: State, data: Record, now: real)
    requires Inv(c, s)
    ensures Inv(c, Add(c, s, data, now).0)
  {
    DequeAppendBounded(s.buffer, Entry(data, now), c.maxSize);
  }

  /**
   * When `1 <= batch_threshold <= max_size` the deque never discards a record:
   * the buffer is always below the threshold, so it always has room.
   */
  lemma NoSilentDrop(c: Config, s: State, data: Record, now: real)
    requires Inv(c, s) && 1 <= c.batchThreshold <= c.maxSize
    ensures DequeAppend(s.buffer, Entry(data, now), c.maxSize) == s.buffer + [Entry(data, now)]
  {
    DequeAppendBounded(s.buffer, Entry(data, now), c.maxSize);
  }

  // ---------------------------------------------------------------------------
  // Sequences of calls

  /** One `add_data(data)` call made when the clock reads `now`. */
  datatype Arrival = Arrival(data: Record, now: real)

  function Stamped(arrivals: seq<Arrival>): (r: seq<Entry>)
    ensures |r| == |arrivals|
    ensures forall i :: 0 <= i < |r| ==> r[i] == Entry(arrivals[i].data, arrivals[i].now)
  {
    if arrivals == [] then []
    else Stamped(arrivals[..|arrivals| - 1]) + [Entry(arrivals[|arrivals| - 1].data, arrivals[|arrivals| - 1].now)]
  }

  /** The final state and the batches returned, in call order, by a sequence of `add_data` calls. */
  function Run(c: Config, s: State, arrivals: seq<Arrival>): (State, seq<seq<Entry>>) {
    if arrivals == [] then (s, [])
    else
      var (s1, batches) := Run(c, s, arrivals[..|arrivals| - 1]);
      var last := arrivals[|arrivals| - 1];
      var (s2, batch) := Add(c, s1, last.data, last.now);
      (s2, batches + Emitted(batch))
  }

  /** What one call adds to the list of returned batches. */
  function Emitted(batch: Option<seq<Entry>>): seq<seq<Entry>> {
    if batch.Some? then [batch.value] else []
  }

  function Concat(batches: seq<seq<Entry>>): seq<Entry> {
    if batches == [] then [] else Concat(batches[..|batches| - 1]) + batches[|batches| - 1]
  }

  lemma {:induction false} ConcatAppend(batches: seq<seq<Entry>>, b: seq<Entry>)
    ensures Concat(batches + [b]) == Concat(batches) + b
  {
    assert (batches + [b])[..|batches|] == batches;
  }

  /** One call: what it returns followed by the new buffer is the old buffer followed by the new record. */
  lemma AddConserves(c: Config, s: State, data: Record, now: real)
    requires Inv(c, s) && 1 <= c.batchThreshold <= c.maxSize
    ensures var (s', batch) := Add(c, s, data, now);
      && Concat(Emitted(batch)) + s'.buffer == s.buffer + [Entry(data, now)]
      && s'.totalFlushed == s.totalFlushed + |Concat(Emitted(batch))|
      && Inv(c, s')
  {
    AddOutcome(c, s, data, now);
    AddKeepsInv(c, s, data, now);
    var (s', batch) := Add(c, s, data, now);
    if batch.Some? {
      ConcatAppend([], batch.value);
      assert [] + [batch.value] == Emitted(batch);
    }
  }

  lemma ConcatEmitted(batches: seq<seq<Entry>>, batch: Option<seq<Entry>>)
    ensures Concat(batches + Emitted(batch)) == Concat(batches) + Concat(Emitted(batch))
  {
    if batch.Some? {
      ConcatAppend(batches, batch.value);
      ConcatAppend([], batch.value);
      assert [] + [batch.value] == Emitted(batch);
    } else {
      assert batches + Emitted(batch) == batches;
    }
  }

  /**
   * Nothing is lost or reordered: over any sequence of `add_data` calls with
   * `1 <= batch_threshold <= max_size`, the returned batches followed by what
   * is still buffered are exactly the records added, stamped, in call order,
   * `total_flushed` counts the records handed over and the invariant holds.
   */
  lemma {:induction false} RunConserves(c: Config, s: State, arrivals: seq<Arrival>)
    requires Inv(c, s) && 1 <= c.batchThreshold <= c.maxSize
    ensures var (s', batches) := Run(c, s, arrivals);
      && Concat(batches) + s'.buffer == s.buffer + Stamped(arrivals)
      && s'.totalFlushed == s.totalFlushed + |Concat(batches)|
      && Inv(c, s')
  {
    if arrivals != [] {
      var prefix := arrivals[..|arrivals| - 1];
      var last := arrivals[|arrivals| - 1];
      RunConserves(c, s, prefix);
      var (s1, batches) := Run(c, s, prefix);
      var e := Entry(last.data, last.now);
      AddConserves(c, s1, last.data, last.now);
      var (s2, batch) := Add(c, s1, last.data, last.now);
      ConcatEmitted(batches, batch);
      var out := Concat(Emitted(batch));
      assert Stamped(arrivals) == Stamped(prefix) + [e];
      SeqAssoc(Concat(batches), out, s2.buffer);
      SeqAssoc(Concat(batches), s1.buffer, [e]);
      SeqAssoc(s.buffer, Stamped(prefix), [e]);
    }
  }

  lemma SeqAssoc(a: seq<Entry>, b: seq<Entry>, c: seq<Entry>)
    ensures (a + b) + c == a + (b + c)
  {
  }

  /**
   * Below the threshold, within the memory watermark and before the flush
   * interval has passed, `add_data` returns nothing and the buffer holds the
   * records in call order.
   */
  lemma {:induction false} QuietRun(c: Config, s: State, arrivals: seq<Arrival>)
    requires |s.buffer| + |arrivals| < c.batchThreshold
    requires (|s.buffer| + |arrivals|) as real <= c.maxSize as real * 0.8
    requires forall i :: 0 <= i < |arrivals| ==> arrivals[i].now - s.lastFlushTime < c.flushInterval
    ensures var (s', batches) := Run(c, s, arrivals);
      && batches == [] && s'.buffer == s.buffer + Stamped(arrivals)
      && s'.lastFlushTime == s.lastFlushTime && s'.totalFlushed == s.totalFlushed
  {
    if arrivals != [] {
      var prefix := arrivals[..|arrivals| - 1];
      var last := arrivals[|arrivals| - 1];
      QuietRun(c, s, prefix);
      var (s1, batches) := Run(c, s, prefix);
      assert |s1.buffer| < c.maxSize;
      AddOutcome(c, s1, last.data, last.now);
    }
  }

  /**
   * Starting from an empty buffer, with no time or memory trigger, the call
   * that brings the buffer to the threshold returns all the records added so
   * far, in call order, and leaves the buffer empty; the calls before it
   * return nothing.
   */
  lemma ThresholdRun(c: Config, s: State, arrivals: seq<Arrival>)
    requires s.buffer == [] && 1 <= c.batchThreshold <= c.maxSize && |arrivals| == c.batchThreshold
    requires (c.batchThreshold - 1) as real <= c.maxSize as real * 0.8
    requires forall i :: 0 <= i < |arrivals| ==> arrivals[i].now - s.lastFlushTime < c.flushInterval
    ensures var (s', batches) := Run(c, s, arrivals);
      && batches == [Stamped(arrivals)] && s'.buffer == []
      && s'.lastFlushTime == arrivals[|arrivals| - 1].now
      && s'.totalFlushed == s.totalFlushed + c.batchThreshold
  {
    var prefix := arrivals[..|arrivals| - 1];
    var last := arrivals[|arrivals| - 1];
    forall i | 0 <= i < |prefix| ensures prefix[i].now - s.lastFlushTime < c.flushInterval {
      assert prefix[i] == arrivals[i];
    }
    QuietRun(c, s, prefix);
    var (s1, batches) := Run(c, s, prefix);
    assert [] + Stamped(prefix) == Stamped(prefix);
    assert batches == [] && s1.buffer == Stamped(prefix);
    var e := Entry(last.data, last.now);
    assert |s1.buffer| + 1 == c.batchThreshold;
    AddOutcome(c, s1, last.data, last.now);
    var (s2, batch) := Add(c, s1, last.data, last.now);
    assert batch.Some? && batch.value == s1.buffer + [e];
    assert Stamped(arrivals) == Stamped(prefix) + [e];
    assert [] + Emitted(batch) == [Stamped(arrivals)];
    assert s2.totalFlushed == s.totalFlushed + c.batchThreshold;
  }

  /** With the defaults, the 150th quick `add_data` returns all 150 records and empties the buffer. */
  lemma DefaultThresholdScenario(start: real, arrivals: seq<Arrival>)
    requires |arrivals| == 150
    requires forall i :: 0 <= i < |arrivals| ==> arrivals[i].now - start < 5.0
    ensures var (s', batches) := Run(DefaultConfig, InitialState(start), arrivals);
      batches == [Stamped(arrivals)] && |batches[0]| == 150 && s'.buffer == []
  {
    ThresholdRun(DefaultConfig, InitialState(start), arrivals);
  }

  // ---------------------------------------------------------------------------
  // The object

  /** `get_stats` without the floating-point `buffer_usage` percentage. */
  datatype BufferStats = BufferStats(bufferSize: nat, tickerAdded: nat, orderbookAdded: nat, totalFlushed: nat)

  class RealtimeDataBuffer {
    const config: Config
    var buffer: seq<Entry>
    var lastFlushTime: real
    var tickerAdded: nat
    var orderbookAdded: nat
    var totalFlushed: nat

    function Snapshot(): State
      reads this
    {
      State(buffer, lastFlushTime, tickerAdded, orderbookAdded, totalFlushed)
    }

    ghost predicate Valid()
      reads this
    {
      Inv(config, Snapshot())
    }

    /** `__init__`: an empty buffer whose flush clock starts at `now`. */
    constructor (maxSize: nat, batchThreshold: int, flushInterval: real, now: real)
      ensures config == Config(maxSize, batchThreshold, flushInterval)
      ensures Snapshot() == InitialState(now)
      ensures Valid()
    {
      config := Config(maxSize, batchThreshold, flushInterval);
      buffer := [];
      lastFlushTime := now;
      tickerAdded, orderbookAdded, totalFlushed := 0, 0, 0;
    }

    /** `_should_flush` at time `now`. */
    predicate ShouldFlush(now: real): (r: bool)
      reads this
      ensures r <==> || |buffer| >= config.batchThreshold
                     || now - lastFlushTime >= config.flushInterval
                     || |buffer| as real > config.maxSize as real * 0.8
    {
      FlushDue(config, |buffer|, now - lastFlushTime)
    }

    method AddData(data: Record, now: real) returns (batch: Option<seq<Entry>>)
      requires Valid()
      modifies this
      ensures Valid()
      ensures (Snapshot(), batch) == Add(config, old(Snapshot()), data, now)
    {
      AddKeepsInv(config, Snapshot(), data, now);
      var e := Entry(data, now);
      if data.TickerRecord? {
        tickerAdded := tickerAdded + 1;
      } else if data.OrderbookRecord? {
        orderbookAdded := orderbookAdded + 1;
      }
      buffer := DequeAppend(buffer, e, config.maxSize);
      if ShouldFlush(now) {
        if buffer == [] {
          return Some([]);
        }
        var b := buffer;
        buffer := [];
        lastFlushTime := now;
        totalFlushed := totalFlushed + |b|;
        return Some(b);
      }
      return None;
    }

    method Flush(now: real) returns (batch: seq<Entry>)
      requires Valid()
      modifies this
      ensures Valid()
      ensures (Snapshot(), batch) == FlushState(old(Snapshot()), now)
    {
      if buffer == [] {
        return [];
      }
      batch := buffer;
      buffer := [];
      lastFlushTime := now;
      totalFlushed := totalFlushed + |batch|;
    }

    /** `get_stats`: what it reports never exceeds the capacity, nor reaches the threshold. */
    function GetStats(): (r: BufferStats)
      requires Valid()
      reads this
      ensures r.bufferSize <= config.maxSize
      ensures config.batchThreshold >= 1 ==> r.bufferSize < config.batchThreshold
      ensures r.bufferSize == |buffer| && r.totalFlushed == totalFlushed
      ensures r.tickerAdded == tickerAdded && r.orderbookAdded == orderbookAdded
    {
      BufferStats(|buffer|, tickerAdded, orderbookAdded, totalFlushed)
    }
  }
}
