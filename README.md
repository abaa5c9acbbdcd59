# one-bailey market-data collectors, modelled in Dafny

This project models the data-handling core of the one-bailey trading service's
Upbit collectors (`services/mvp-trading-service/src/data/collectors/`):

- **Real-time ingestion** (`upbit_realtime.py`):
  - `RealtimeDataBuffer`, a bounded FIFO of time-stamped ticker and order-book
    records with three flush triggers (size, elapsed time, 80 % capacity) and
    counters. It is a class over a `seq` field. Its methods are proved against
    the pure state functions `Add` and `FlushState`.
  - `RealtimeInfluxWriter.save_mixed_batch`, which turns a mixed batch into
    points, counts the points by type and counts failed writes. It is a class
    with a loop (`CollectPoints`), proved against `SaveBatch`.
  - The derived order-book metrics (market pressure, liquidity score).
  - The ticker and order-book normalisers.
  - The buffering, caching and counting steps of
    `UpbitRealtimeCollector._process_data` and `stop_collection`.
- **Record transforms:**
  - the order-book collector's normaliser, top-10 cut, pressure label and
    sentiment analysis (`upbit_orderbook.py`);
  - the WebSocket ticker normaliser (`upbit_websocket.py`);
  - account and order formatting (`upbit_rest_api.py`);
  - Fear & Greed banding, trend analysis and the sentiment verdict
    (`fear_greed_index.py`).
- **Technical-analysis decision rules:**
  - candle-endpoint selection and the 200-candle clamp;
  - the SMA, RSI, MACD, Bollinger and ATR classifications, applied to
    already-computed indicator values;
  - the success-rate formula.
  - These come from `upbit_technical.py` and `upbit_chart_technical.py`.

Conventions of the model:

- An inbound JSON object is a datatype whose fields are `Option`s. An absent key
  is `None`, and `dict.get(k, d)` is `GetOr(d)`.
- Prices and sizes are `real`.
- Python's stable `list.sort` / `sorted` is a stable insertion sort (module
  `Sorting`). It is proved to be sorted, a permutation and stable.
- The clock and the outcomes of external calls are parameters: `now`, and
  `cacheSucceeds` / `writeSucceeds` for Redis `setex` and the InfluxDB write.

Two points where the code's behaviour is worth stating outright:

- Market pressure is not clamped (upbit_realtime.py:171). It is proved to lie
  in [-1, 1] for non-negative sizes.
- For what a failing cache write does in `_process_data`, see the Findings row.

## Model

| member | source | states |
|---|---|---|
| RealtimeBuffer.RealtimeDataBuffer.constructor | services/mvp-trading-service/src/data/collectors/upbit_realtime.py:272-288 | the configuration is the given one; the buffer is empty, the counters are 0 and the last flush time is `now` |
| RealtimeBuffer.RealtimeDataBuffer.AddData | services/mvp-trading-service/src/data/collectors/upbit_realtime.py:290-309 | new state and result are exactly `Add` of the old state; the buffer invariant is kept |
| RealtimeBuffer.RealtimeDataBuffer.Flush | services/mvp-trading-service/src/data/collectors/upbit_realtime.py:319-343 | new state and batch are exactly `FlushState` of the old state |
| RealtimeBuffer.RealtimeDataBuffer.GetStats | services/mvp-trading-service/src/data/collectors/upbit_realtime.py:345-351 | reports the buffer size, both type counters and total flushed; the size never exceeds the capacity and stays below the batch threshold when that is at least 1 |
| RealtimeBuffer.FlushEmpty | services/mvp-trading-service/src/data/collectors/upbit_realtime.py:322-323 | flushing an empty buffer returns `[]` and changes nothing, including last flush time and total flushed |
| RealtimeBuffer.FlushDrains | services/mvp-trading-service/src/data/collectors/upbit_realtime.py:325-328 | a non-empty flush returns the whole buffer in order, empties it, sets last flush time to `now`, adds the batch length to total flushed and keeps the type counters |
| RealtimeBuffer.DequeAppendBounded | services/mvp-trading-service/src/data/collectors/upbit_realtime.py:281 | appending to a `deque(maxlen)` never exceeds the bound; below the bound it appends, at the bound it drops the oldest |
| RealtimeBuffer.AddCounts | services/mvp-trading-service/src/data/collectors/upbit_realtime.py:297-301 | `add_data` increments exactly the counter of the record's type and neither for other types |
| RealtimeBuffer.AddOutcome | services/mvp-trading-service/src/data/collectors/upbit_realtime.py:303-317 | a batch is returned iff the flush predicate holds on the grown buffer; that batch is the old buffer plus the new stamped record, last; otherwise the buffer grows by exactly that record and the clock and total are kept |
| RealtimeBuffer.AddKeepsInv | services/mvp-trading-service/src/data/collectors/upbit_realtime.py:290-309 | `add_data` keeps the invariant: size at most capacity and below the batch threshold |
| RealtimeBuffer.NoSilentDrop | services/mvp-trading-service/src/data/collectors/upbit_realtime.py:281 | with threshold between 1 and capacity, the deque never drops a record on append |
| RealtimeBuffer.Stamped | services/mvp-trading-service/src/data/collectors/upbit_realtime.py:294 | the i-th arrival becomes the i-th record, stamped with its own arrival time |
| RealtimeBuffer.AddConserves | services/mvp-trading-service/src/data/collectors/upbit_realtime.py:303-328 | one add: what is emitted followed by what stays buffered equals the old buffer plus the new record; total flushed grows by what is emitted |
| RealtimeBuffer.RunConserves | services/mvp-trading-service/src/data/collectors/upbit_realtime.py:290-328 | over any sequence of adds, the emitted batches concatenated, followed by the buffer, are the old buffer followed by every stamped arrival in order; total flushed counts exactly the emitted records |
| RealtimeBuffer.QuietRun | services/mvp-trading-service/src/data/collectors/upbit_realtime.py:306-309 | while no trigger fires, adds return nothing and only append |
| RealtimeBuffer.ThresholdRun | services/mvp-trading-service/src/data/collectors/upbit_realtime.py:313 | from an empty buffer with no time or memory trigger, the threshold-th add returns all records in order and empties the buffer |
| RealtimeBuffer.DefaultThresholdScenario | services/mvp-trading-service/src/data/collectors/upbit_realtime.py:274-281 | with the defaults (1500, 150, 5 s), 150 arrivals within 5 s yield exactly one batch of all 150 |
| RealtimeWriter.MarketPressure | services/mvp-trading-service/src/data/collectors/upbit_realtime.py:163-171 | 0 when the totals sum to 0, otherwise the result times (bid + ask) is bid - ask |
| RealtimeWriter.MarketPressureBounds | services/mvp-trading-service/src/data/collectors/upbit_realtime.py:163-171 | for non-negative sizes the pressure lies in [-1, 1], is positive iff bids exceed asks, negative iff asks exceed bids, zero iff equal |
| RealtimeWriter.SpreadScore | services/mvp-trading-service/src/data/collectors/upbit_realtime.py:183 | `max(0, 1 - spread/0.01)`: the larger of 0 and `1 - spread/0.01`, so at least both and equal to one; at most 1 for a non-negative spread |
| RealtimeWriter.VolumeScore | services/mvp-trading-service/src/data/collectors/upbit_realtime.py:184 | `min(1, volume/10)`: the smaller of 1 and `volume/10`, so at most both and equal to one; non-negative for a non-negative volume |
| RealtimeWriter.LiquidityScore | services/mvp-trading-service/src/data/collectors/upbit_realtime.py:173-186 | 1 when the spread is 0, otherwise the mean of the spread and volume scores |
| RealtimeWriter.LiquidityScoreBounds | services/mvp-trading-service/src/data/collectors/upbit_realtime.py:173-186 | for non-negative inputs the score is in [0, 1], equals 1 iff the spread is 0, and from a `spread_percentage` of 0.01 (0.01 %) on depends on volume only |
| RealtimeWriter.LiquidityScoreMonotone | services/mvp-trading-service/src/data/collectors/upbit_realtime.py:173-186 | a wider spread never raises the liquidity score |
| RealtimeWriter.EntryPoints | services/mvp-trading-service/src/data/collectors/upbit_realtime.py:198-214 | a record yields at most one point, and none iff it is neither ticker nor order book |
| RealtimeWriter.PointCount | services/mvp-trading-service/src/data/collectors/upbit_realtime.py:198-211 | the batch yields one point per ticker and order-book record, never more points than records |
| RealtimeWriter.NoPoints | services/mvp-trading-service/src/data/collectors/upbit_realtime.py:213-218 | a batch yields no points iff every record is of another type |
| RealtimeWriter.PointsFromBatch | services/mvp-trading-service/src/data/collectors/upbit_realtime.py:198-211 | every point comes from a record of the batch and carries that record's buffer time stamp |
| RealtimeWriter.CollectPoints | services/mvp-trading-service/src/data/collectors/upbit_realtime.py:194-214 | the loop collects exactly the batch's points in order and counts the tickers and order books |
| RealtimeWriter.SaveBatchOutcome | services/mvp-trading-service/src/data/collectors/upbit_realtime.py:190-239 | an empty batch succeeds with the counters unchanged; otherwise it succeeds iff there are valid points and the write succeeds; a success adds the ticker and order-book counts of the batch to their counters; a failed write adds exactly 1 error and leaves the write counts; no points means failure without an error |
| RealtimeWriter.RealtimeInfluxWriter.constructor | services/mvp-trading-service/src/data/collectors/upbit_realtime.py:57-66 | all counters start at 0 |
| RealtimeWriter.RealtimeInfluxWriter.SaveMixedBatch | services/mvp-trading-service/src/data/collectors/upbit_realtime.py:188-239 | new counters, result and points sent are exactly `SaveBatch` of the old counters |
| RealtimeWriter.RealtimeInfluxWriter.GetStats | services/mvp-trading-service/src/data/collectors/upbit_realtime.py:241-255 | the total write count is the ticker count plus the order-book count |
| RealtimeRecords.TickerRoundTrip | services/mvp-trading-service/src/data/collectors/upbit_realtime.py:585-601 | a ticker message carrying every field normalises back to the same values |
| RealtimeRecords.TickerDefaults | services/mvp-trading-service/src/data/collectors/upbit_realtime.py:585-601 | each absent key becomes `""` (symbol, change) or 0 (every number), one by one, and the empty message gives all defaults |
| RealtimeRecords.FormatOrderbookData | services/mvp-trading-service/src/data/collectors/upbit_realtime.py:603-640 | the symbol is the code or `""`, and the figures are those of the sorted book |
| OrderBook.AskLevels | services/mvp-trading-service/src/data/collectors/upbit_realtime.py:610-616 | one ask level per unit, in unit order, with absent price or size read as 0 |
| OrderBook.BidLevels | services/mvp-trading-service/src/data/collectors/upbit_realtime.py:610-616 | one bid level per unit, in unit order, with absent price or size read as 0 |
| OrderBook.SplitAndSort | services/mvp-trading-service/src/data/collectors/upbit_realtime.py:610-619 | asks are a stable ascending sort of the ask levels and bids a stable descending sort of the bid levels |
| OrderBook.SumSizesSort | services/mvp-trading-service/src/data/collectors/upbit_realtime.py:626-627 | sorting does not change the size total |
| OrderBook.BestAskIsLowest | services/mvp-trading-service/src/data/collectors/upbit_realtime.py:621 | best ask is 0 with no units, otherwise an ask price of some unit and no greater than any |
| OrderBook.BestBidIsHighest | services/mvp-trading-service/src/data/collectors/upbit_realtime.py:622 | best bid is 0 with no units, otherwise a bid price of some unit and no less than any |
| OrderBook.SpreadAndTotals | services/mvp-trading-service/src/data/collectors/upbit_realtime.py:621-627 | spread is ask - bid only when both are non-zero; the percentage is spread/ask*100 when ask is non-zero; totals sum all levels |
| OrderBook.ExampleAsks | services/mvp-trading-service/src/data/collectors/upbit_realtime.py:618 | a three-unit book's asks sort ascending |
| OrderBook.ExampleBids | services/mvp-trading-service/src/data/collectors/upbit_realtime.py:619 | the same book's bids sort descending, with a unit missing its bid read as 0 |
| OrderBook.WorkedExample | services/mvp-trading-service/src/data/collectors/upbit_realtime.py:621-624 | the same book has best ask 101, best bid 100, spread 1 and percentage 100/101 |
| Sorting.SortPermutes | services/mvp-trading-service/src/data/collectors/upbit_realtime.py:618-619 | sorting is a permutation |
| Sorting.SortSorted | services/mvp-trading-service/src/data/collectors/upbit_realtime.py:618-619 | the result is ordered by the key in the chosen direction |
| Sorting.WithKeySort | services/mvp-trading-service/src/data/collectors/upbit_realtime.py:618-619 | the elements with any one key keep their relative order |
| Sorting.SortIsStable | services/mvp-trading-service/src/data/collectors/upbit_realtime.py:618-619 | sorting is a stable sort of its input, of the same length |
| Sorting.FirstIsExtreme | services/mvp-trading-service/src/data/collectors/upbit_orderbook.py:93-94 | the first element of a sorted permutation occurs in the input and precedes every input element |
| Sorting.LastIsExtreme | services/mvp-trading-service/src/data/collectors/fear_greed_index.py:182 | the last element of a sorted permutation occurs in the input and every input element precedes it |
| Sorting.SecondIsNextExtreme | services/mvp-trading-service/src/data/collectors/fear_greed_index.py:179 | the second element is extreme among the input without the first |
| RealtimeCollector.CacheKey | services/mvp-trading-service/src/data/collectors/upbit_realtime.py:560 | the key is `ticker:`, then the symbol, then `:latest` |
| RealtimeCollector.CacheKeyInjective | services/mvp-trading-service/src/data/collectors/upbit_realtime.py:560 | different symbols get different cache keys |
| RealtimeCollector.SaveAndCount | services/mvp-trading-service/src/data/collectors/upbit_realtime.py:564-575 | saving and counting leave the buffer and the cache alone |
| RealtimeCollector.ProcessOutcome | services/mvp-trading-service/src/data/collectors/upbit_realtime.py:552-580 | without a cache failure: the buffer does `add_data`, a flushed batch is saved and counted as the writer counts it, a ticker is cached under its key for 10 s, the record is counted, and the report is due every 50 records |
| RealtimeCollector.ProcessConserves | services/mvp-trading-service/src/data/collectors/upbit_realtime.py:552-575 | without a cache failure, nothing is lost: what is handed to the writer followed by the buffer is the old buffer plus the record |
| RealtimeCollector.CacheFailureLosesBatch | services/mvp-trading-service/src/data/collectors/upbit_realtime.py:556-583 | as written: when a flush fires and the cache write fails, `add_data` has returned the old buffer plus the record and emptied the buffer, but that batch is not saved, the writer is untouched and the record is not counted |
| RealtimeCollector.ProcessIsolatedConserves | services/mvp-trading-service/src/data/collectors/upbit_realtime.py:552-583 | corrected: with the cache write isolated, nothing is ever lost and every ticker or order book is counted; this agrees with the as-written step whenever the cache does not fail |
| RealtimeCollector.UpbitRealtimeCollector.constructor | services/mvp-trading-service/src/data/collectors/upbit_realtime.py:377-391 | a new default buffer and writer, an empty cache and zero counters |
| RealtimeCollector.UpbitRealtimeCollector.ProcessData | services/mvp-trading-service/src/data/collectors/upbit_realtime.py:552-583 | the new state, handed batch and report flag are exactly `Process` of the old state |
| RealtimeCollector.UpbitRealtimeCollector.FinishProcessing | services/mvp-trading-service/src/data/collectors/upbit_realtime.py:558-580 | the steps after `add_data` are exactly `AfterAdd` |
| RealtimeCollector.UpbitRealtimeCollector.SaveAndCountRecord | services/mvp-trading-service/src/data/collectors/upbit_realtime.py:564-575 | the save and the per-type count are exactly `SaveAndCount` |
| RealtimeCollector.UpbitRealtimeCollector.StopCollection | services/mvp-trading-service/src/data/collectors/upbit_realtime.py:435-452 | stop: not running, and the state and remaining batch are exactly `Stop` |
| OrderbookCollector.Top | services/mvp-trading-service/src/data/collectors/upbit_orderbook.py:105-106 | `[:n]`: the first `min(n, len)` elements |
| OrderbookCollector.PressureLabelAgreesWithPressure | services/mvp-trading-service/src/data/collectors/upbit_orderbook.py:113-119 | for non-negative totals the label has the sign of the real-time market pressure |
| OrderbookCollector.FormatOrderbookData | services/mvp-trading-service/src/data/collectors/upbit_orderbook.py:69-120 | the ask and bid lists are the first 10 sorted levels, the figures are those of the whole book, and the pressure label is taken from the totals |
| OrderbookCollector.TopLevelsAndTotals | services/mvp-trading-service/src/data/collectors/upbit_orderbook.py:99-106 | at most 10 levels are shown, as a prefix of the sorted list, while the totals also count the levels not shown |
| OrderbookCollector.Top5Average | services/mvp-trading-service/src/data/collectors/upbit_orderbook.py:257-258 | the average times 5 is the size sum of the first five levels |
| OrderbookCollector.ShortSideAverage | services/mvp-trading-service/src/data/collectors/upbit_orderbook.py:257 | with fewer than 5 ask levels the sum is still divided by 5 |
| OrderbookCollector.LiquidityBands | services/mvp-trading-service/src/data/collectors/upbit_orderbook.py:264-279 | liquidity is high below 0.1, medium below 0.5, low otherwise, and the spread is narrow iff liquidity is high |
| OrderbookCollector.StrengthMeaning | services/mvp-trading-service/src/data/collectors/upbit_orderbook.py:269-274 | strong buying iff bid average > 1.2 ask average, strong selling iff ask average > 1.2 bid average, balanced otherwise |
| WebsocketTicker.FormatRoundTrip | services/mvp-trading-service/src/data/collectors/upbit_websocket.py:69-86 | fields that are present are copied unchanged |
| WebsocketTicker.FormatDefaults | services/mvp-trading-service/src/data/collectors/upbit_websocket.py:72-84 | an absent code or change becomes `""` and each of the eleven numbers becomes 0 when absent, field by field |
| WebsocketTicker.NormalisersAgree | services/mvp-trading-service/src/data/collectors/upbit_websocket.py:69-86 | on the fields both read, the WebSocket and real-time ticker normalisers agree |
| FearGreed.BandOf | services/mvp-trading-service/src/data/collectors/fear_greed_index.py:103-137 | every integer falls in exactly one band: at most 20, 21-40, 41-60, 61-80, above 80 |
| FearGreed.SameBoundaries | services/mvp-trading-service/src/data/collectors/fear_greed_index.py:101-163 | two values get the same level, emoji, colour or analysis iff they are in the same band |
| FearGreed.LevelsDistinct | services/mvp-trading-service/src/data/collectors/fear_greed_index.py:103-137 | values in different bands get different level names |
| FearGreed.MarkersDistinct | services/mvp-trading-service/src/data/collectors/fear_greed_index.py:139-163 | values in different bands get different emojis and colours |
| FearGreed.FormatIndexData | services/mvp-trading-service/src/data/collectors/fear_greed_index.py:77-96 | the analysis, emoji and colour are those of the record's value |
| FearGreed.MissingValueIsExtremeFear | services/mvp-trading-service/src/data/collectors/fear_greed_index.py:80 | a missing value defaults to 0 and so reads as extreme fear |
| FearGreed.MaxValueIsMax | services/mvp-trading-service/src/data/collectors/fear_greed_index.py:203 | `max` is a value of the list and no value exceeds it |
| FearGreed.MinValueIsMin | services/mvp-trading-service/src/data/collectors/fear_greed_index.py:203 | `min` is a value of the list and no value is below it |
| FearGreed.ExtremesOfPermutation | services/mvp-trading-service/src/data/collectors/fear_greed_index.py:202-203 | sorting does not change the maximum or the minimum |
| FearGreed.TrendNeedsTwo | services/mvp-trading-service/src/data/collectors/fear_greed_index.py:169-170 | the analysis reports insufficient data, with change 0, iff there are fewer than 2 readings |
| FearGreed.TrendReadings | services/mvp-trading-service/src/data/collectors/fear_greed_index.py:173-187 | current is the latest reading, previous the latest of the rest, week-ago the oldest when there are 7 or more readings, else previous; the changes are their differences |
| FearGreed.ShortHistoryWeeklyIsDaily | services/mvp-trading-service/src/data/collectors/fear_greed_index.py:181-187 | with 2 to 6 readings the weekly change equals the daily change |
| FearGreed.TrendBands | services/mvp-trading-service/src/data/collectors/fear_greed_index.py:190-199 | the trend label is chosen by the strict thresholds 10, 5, -5, -10 |
| FearGreed.VolatilityMeaning | services/mvp-trading-service/src/data/collectors/fear_greed_index.py:202-210 | volatility is max - min over all readings, at least 0, and stable iff below 20 |
| FearGreed.SentimentBand | services/mvp-trading-service/src/data/collectors/fear_greed_index.py:342-376 | the sentiment bands are at most 25, 26-45, 46-55, 56-75 and above 75 |
| FearGreed.AnalyzeMarketSentiment | services/mvp-trading-service/src/data/collectors/fear_greed_index.py:336-337 | no verdict exactly when no index data was collected |
| FearGreed.VerdictBands | services/mvp-trading-service/src/data/collectors/fear_greed_index.py:342-376 | two values get the same verdict iff they share a band, and the bands rise with the value |
| FearGreed.NeutralBandsNest | services/mvp-trading-service/src/data/collectors/fear_greed_index.py:356-362 | a neutral sentiment value is also in the neutral index band |
| RestApi.AssetOf | services/mvp-trading-service/src/data/collectors/upbit_rest_api.py:150-160 | each asset's total is balance plus locked |
| RestApi.FormatAccountsData | services/mvp-trading-service/src/data/collectors/upbit_rest_api.py:139-170 | the loop computes the last KRW and BTC holdings and the held assets |
| RestApi.HeldAssetsMeaning | services/mvp-trading-service/src/data/collectors/upbit_rest_api.py:167-168 | an asset is listed iff it comes from an account with a positive total |
| RestApi.LastHoldingMeaning | services/mvp-trading-service/src/data/collectors/upbit_rest_api.py:141-165 | the KRW or BTC total is 0 without such an account, otherwise the total of the last such account |
| RestApi.AccountsExample | services/mvp-trading-service/src/data/collectors/upbit_rest_api.py:139-170 | a KRW account with 1000 + 500 and an empty BTC account give 1500 KRW, 0 BTC and one asset |
| RestApi.OrderRoundTrip | services/mvp-trading-service/src/data/collectors/upbit_rest_api.py:177-189 | fields that are present are copied unchanged |
| RestApi.OrderDefaults | services/mvp-trading-service/src/data/collectors/upbit_rest_api.py:177-189 | each absent string field becomes `""`, each absent number 0 and an absent trade count 0, field by field |
| RestApi.FormatOrdersData | services/mvp-trading-service/src/data/collectors/upbit_rest_api.py:172-192 | one formatted order per input order, in input order |
| CandleIntervals.TakeUntilSlash | services/mvp-trading-service/src/data/collectors/upbit_technical.py:149 | the field is a slash-free prefix, followed by a slash unless it is the whole rest |
| CandleIntervals.CandleEndpoint | services/mvp-trading-service/src/data/collectors/upbit_technical.py:146-153 | no endpoint exactly when the interval is neither `days` nor starts with `minutes` |
| CandleIntervals.RequestCount | services/mvp-trading-service/src/data/collectors/upbit_technical.py:156 | the request count is at most 200 and at most the asked count, and equals one of the two: their minimum; the chart collector asks the same (upbit_chart_technical.py:59) |
| CandleIntervals.MinutesUnit | services/mvp-trading-service/src/data/collectors/upbit_technical.py:148-150 | `minutes/N` selects unit N |
| CandleIntervals.MinutesDefault | services/mvp-trading-service/src/data/collectors/upbit_technical.py:149 | a `minutes…` interval without a slash selects the default unit |
| CandleIntervals.ExtraFieldsIgnored | services/mvp-trading-service/src/data/collectors/upbit_technical.py:149 | `split("/")[1]` ignores fields after the second |
| Technical.FetchDays | services/mvp-trading-service/src/data/collectors/upbit_technical.py:146-147 | `days` selects `https://api.upbit.com/v1/candles/days` |
| Technical.FetchMinutesUnit | services/mvp-trading-service/src/data/collectors/upbit_technical.py:148-150 | `minutes/N` selects `/candles/minutes/N` under the API base URL |
| Technical.FetchMinutesDefault | services/mvp-trading-service/src/data/collectors/upbit_technical.py:149-150 | `minutes` selects hourly candles, unit `60` |
| Technical.SmaEntryOf | services/mvp-trading-service/src/data/collectors/upbit_technical.py:266-275 | the trend is up and the signal bullish iff price > SMA |
| Technical.MovingAverages | services/mvp-trading-service/src/data/collectors/upbit_technical.py:252-280 | an entry exists exactly for the periods 5, 20, 60, 120 that the data length reaches and whose SMA is defined, with that SMA's reading |
| Technical.RsiReading | services/mvp-trading-service/src/data/collectors/upbit_technical.py:306-318 | a reading exists iff there are 14 values and an RSI; strength times 50 is abs(rsi - 50) |
| Technical.RsiBands | services/mvp-trading-service/src/data/collectors/upbit_technical.py:307-312 | overbought from 70, oversold up to 30, neutral between; strength is in [0, 1] for RSI in [0, 100] |
| Technical.MacdReading | services/mvp-trading-service/src/data/collectors/upbit_technical.py:324-376 | present iff there are 26 candles and all three lines; the entry holds the MACD, signal and histogram values; bullish iff macd > signal; crossover is 1 iff the lines are closer than a tenth of the histogram |
| Technical.CrossoverNeverFires | services/mvp-trading-service/src/data/collectors/upbit_technical.py:363-368 | when the histogram is macd - signal, as TA-Lib and pandas compute it, crossover is always 0 |
| Technical.BollingerReading | services/mvp-trading-service/src/data/collectors/upbit_technical.py:390-441 | exists iff there are 20 candles and all three bands; the entry holds the upper, middle and lower values; width is upper - lower; squeeze iff width < a tenth of middle |
| Technical.BandPositionMeaning | services/mvp-trading-service/src/data/collectors/upbit_technical.py:425-430 | upper iff price above the upper band, lower iff below the lower, middle iff between |
| Technical.AtrReading | services/mvp-trading-service/src/data/collectors/upbit_technical.py:470-485 | recorded iff ATR exists and is positive, with its level |
| Technical.AtrBands | services/mvp-trading-service/src/data/collectors/upbit_technical.py:476-480 | high above 3 % of price, medium above 1 %, low otherwise, monotone in ATR |
| Technical.SuccessRate | services/mvp-trading-service/src/data/collectors/upbit_technical.py:702 | the rate times `max(analyses, 1)` is successes times 100 |
| Technical.SuccessRateBounds | services/mvp-trading-service/src/data/collectors/upbit_technical.py:702 | in [0, 100], 0 with no analyses, 100 iff every analysis succeeded |
| ChartTechnical.CandlesDays | services/mvp-trading-service/src/data/collectors/upbit_chart_technical.py:49-50 | `days` selects `https://api.upbit.com/v1/candles/days` |
| ChartTechnical.CandlesMinutesUnit | services/mvp-trading-service/src/data/collectors/upbit_chart_technical.py:51-53 | `minutes/N` selects `/candles/minutes/N` under the server URL |
| ChartTechnical.CandlesMinutesDefault | services/mvp-trading-service/src/data/collectors/upbit_chart_technical.py:52-53 | `minutes` selects one-minute candles, unit `1` |
| ChartTechnical.CollectorsAgree | services/mvp-trading-service/src/data/collectors/upbit_chart_technical.py:49-56 | the chart and technical collectors choose the same endpoint iff the interval is not a `minutes…` one without a slash |
| RealtimeBuffer.FlushDue | services/mvp-trading-service/src/data/collectors/upbit_realtime.py:311-317 | the flush condition on a size and an elapsed time: size at least the threshold, or elapsed at least the interval, or size above 0.8 of the capacity; `AddOutcome` shows `add_data` flushes exactly when it holds |
| RealtimeBuffer.RealtimeDataBuffer.ShouldFlush | services/mvp-trading-service/src/data/collectors/upbit_realtime.py:311-317 | holds iff the buffer holds at least the threshold, or the interval has elapsed since the last flush, or the buffer holds more than 0.8 of the capacity |
| RealtimeBuffer.FlushState | services/mvp-trading-service/src/data/collectors/upbit_realtime.py:319-343 | the batch is the whole buffer, which is left empty; total flushed grows by the batch length; the type counters are kept; the clock moves to `now` only when the buffer was non-empty |
| RealtimeBuffer.Add | services/mvp-trading-service/src/data/collectors/upbit_realtime.py:290-309 | the type counters move by the record's type; a batch is returned iff the flush condition holds on the deque after appending, and it is that whole deque, leaving the buffer empty; otherwise the buffer is that deque and the clock is kept |
| RealtimeWriter.SaveBatch | services/mvp-trading-service/src/data/collectors/upbit_realtime.py:188-239 | the error count grows by 1 exactly on a failed write of existing points; write counts never decrease and change only on success |
| RealtimeRecords.FormatTickerData | services/mvp-trading-service/src/data/collectors/upbit_realtime.py:585-601 | the ten kept keys of a ticker frame, each as given or its default; its round trip and defaults are `TickerRoundTrip` and `TickerDefaults` |
| RealtimeCollector.Process | services/mvp-trading-service/src/data/collectors/upbit_realtime.py:552-583 | `_process_data` as written: `add_data`, then the cache write, the save of a flushed batch and the count, all under one `try`; its properties are `ProcessOutcome`, `ProcessConserves` and `CacheFailureLosesBatch` |
| RealtimeCollector.AfterAdd | services/mvp-trading-service/src/data/collectors/upbit_realtime.py:558-580 | the steps of `_process_data` after `add_data`; a failing cache write returns the state unchanged with nothing saved |
| RealtimeCollector.Stop | services/mvp-trading-service/src/data/collectors/upbit_realtime.py:435-452 | stopping leaves the buffer as `flush` leaves it (empty, total and clock advanced), returns everything it held, sets the writer to `SaveBatch` of that batch when it is non-empty, keeps the cache and the processed counters, and leaves the state alone if the buffer was empty |
| WebsocketTicker.FormatTickerData | services/mvp-trading-service/src/data/collectors/upbit_websocket.py:69-86 | the thirteen keys of a ticker frame, each as given or its default; see `FormatRoundTrip` and `FormatDefaults` |
| OrderbookCollector.PressureLabel | services/mvp-trading-service/src/data/collectors/upbit_orderbook.py:113-119 | buy-dominant iff bids exceed asks, sell-dominant iff asks exceed bids, balanced iff equal |
| OrderbookCollector.AnalyzeMarketSentiment | services/mvp-trading-service/src/data/collectors/upbit_orderbook.py:251-282 | the top-5 averages, liquidity, strength and spread labels of a formatted book; see `Top5Average`, `ShortSideAverage`, `LiquidityBands`, `StrengthMeaning` |
| FearGreed.AnalyzeIndexValue | services/mvp-trading-service/src/data/collectors/fear_greed_index.py:101-137 | the level, description and advice of each band; see `BandOf`, `SameBoundaries` and `LevelsDistinct` |
| FearGreed.GetIndexEmoji | services/mvp-trading-service/src/data/collectors/fear_greed_index.py:139-150 | the emoji of each band; see `SameBoundaries` and `MarkersDistinct` |
| FearGreed.GetIndexColor | services/mvp-trading-service/src/data/collectors/fear_greed_index.py:152-163 | the colour of each band; see `SameBoundaries` and `MarkersDistinct` |
| FearGreed.CalculateTrendAnalysis | services/mvp-trading-service/src/data/collectors/fear_greed_index.py:165-211 | trend analysis of a reading history; see `TrendNeedsTwo`, `TrendReadings`, `ShortHistoryWeeklyIsDaily`, `TrendBands` and `VolatilityMeaning` |
| FearGreed.VerdictFor | services/mvp-trading-service/src/data/collectors/fear_greed_index.py:341-376 | the overall sentiment, opportunity, risk and strategy of each sentiment band; see `VerdictBands` |
| RestApi.FormatOrder | services/mvp-trading-service/src/data/collectors/upbit_rest_api.py:177-189 | one formatted order, each field as given or its default; see `OrderRoundTrip` and `OrderDefaults` |
| Technical.FetchEndpoint | services/mvp-trading-service/src/data/collectors/upbit_technical.py:146-153 | no endpoint iff the interval is neither `days` nor starts with `minutes`; default unit `60`; see `FetchDays`, `FetchMinutesUnit`, `FetchMinutesDefault` and `CandleIntervals.CandleEndpoint` |
| ChartTechnical.CandlesEndpoint | services/mvp-trading-service/src/data/collectors/upbit_chart_technical.py:49-56 | no endpoint iff the interval is neither `days` nor starts with `minutes`; default unit `1`; see `CandlesDays`, `CandlesMinutesUnit`, `CandlesMinutesDefault` and `CollectorsAgree` |

## Left out

- WebSocket and HTTP I/O are not modelled. This covers connect, subscribe and listen, the `run_forever` reconnect loops, `requests.get`, JWT/SHA-512 headers and JSON decoding. The model starts from decoded messages.
- Concurrency is not modelled: `asyncio.gather` of the two streams and the buffer's `RLock`. Each buffer method is one atomic step.
- InfluxDB client set-up and `Point` construction are not modelled. A point keeps the normalised record and its time stamp. The float-to-nanosecond conversion and the `datetime.utcnow` fallback are left out. The write is an abstract success or failure (`writeSucceeds`).
- RealtimeWriter.EntryPoints: a ticker or order-book record always yields a point. The source's `create_*_point` returns `None` when building the point raises, which the model does not capture.
- Redis I/O is not modelled. `setex` is a map update plus an abstract success flag (`cacheSucceeds`). The 10-second expiry is recorded, not enforced. `psutil` system monitoring is left out.
- Indicator mathematics (pandas and TA-Lib rolling means, EWM, standard deviation, true range) is not modelled. The classification rules take the indicator values as `Option` inputs.
- FearGreed.FormatIndexData: `int()` parsing of the value and time stamp is not modelled (they arrive as integers), and so neither is the `except` path that returns `None` when parsing fails.
- `float()` parsing is not modelled. Numbers arrive already as reals. A JSON null is treated like an absent key, whereas the source's `float(None)` would raise.
- Console printing, wall-clock `timestamp` strings, `buffer_usage`, and the real-time writer's `success_rate` percentage are left out.
- `scripts/setup/verify_setup.py` and `scripts/setup/init_database.py` are not part of this model; they are environment checks only.
- Time is one `now` per call, where the source reads `time.time()` up to three times in one `add_data`.
- RealtimeBuffer.RealtimeDataBuffer.AddData: `buffer_timestamp` is not written into the caller's dict in place. The record is paired with its stamp in an `Entry`, so aliasing of the caller's dict is not captured.
- OrderBook.SplitAndSort: the in-place `list.sort` is modelled as a stable sort on values, so in-place update is not captured.
- Technical.MovingAverages: the per-period exception path (a failing SMA computation is skipped) is folded into `sma(p)` being `None`.
- Technical.SuccessRateBounds: requires `success_count <= analysis_count`, which the counters in `analyze_symbol` keep. Those counter updates are not modelled.
- The `symbol` in the cache key is the normalised ticker's symbol. The source's `data.get('symbol')` could be `None` only for a record that did not come through the normaliser.

## Findings

| source | as written | input that shows it | evidently intended | confidence | as-written member | corrected member |
|---|---|---|---|---|---|---|
| services/mvp-trading-service/src/data/collectors/upbit_realtime.py:552-583 | `add_data`, the Redis `setex`, the save and the counting share one `try`. A raising `setex` skips the save of a batch that `add_data` has already removed from the buffer, so those records are lost. | a ticker whose `add_data` triggers a flush while `setex` raises | a cache failure is logged and the batch is still saved and the record counted | not executed | RealtimeCollector.CacheFailureLosesBatch | RealtimeCollector.ProcessIsolatedConserves |
