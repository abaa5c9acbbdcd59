/**
 * `upbit_orderbook.py`: the stand-alone order-book collector's
 * `format_orderbook_data`, which keeps the ten best levels of each side and
 * labels the size imbalance, and `UpbitOrderbookAnalyzer.analyze_market_sentiment`,
 * which judges liquidity, spread and strength from the five best levels.
 */
module OrderbookCollector {
  import opened Wrappers
  import opened Messages
  import opened OrderBook
  import RealtimeWriter

  const BuyDominant: string := "매수우세"
  const SellDominant: string := "매도우세"
  const Balanced: string := "균형"

  /** How many levels of each side `format_orderbook_data` returns. */
  const DepthShown: nat := 10

  /** `levels[:n]`. */
  function Top(levels: seq<Level>, n: nat): (r: seq<Level>)
    ensures |r| == if |levels| < n then |levels| else n
    ensures r == levels[..|r|]
  {
    if |levels| <= n then levels else levels[..n]
  }

  /** The `market_pressure` label: which side has the larger total size; each label holds exactly when its comparison does. */
  function PressureLabel(totalAsk: real, totalBid: real): (r: string)
    ensures r == BuyDominant <==> totalBid > totalAsk
    ensures r == SellDominant <==> totalAsk > totalBid
    ensures r == Balanced <==> totalAsk == totalBid
  {
    if totalBid > totalAsk then BuyDominant
    else if totalAsk > totalBid then SellDominant
    else Balanced
  }

  /** For non-negative totals the label agrees with the sign of the writer's market pressure. */
  lemma PressureLabelAgreesWithPressure(totalAsk: real, totalBid: real)
    requires totalAsk >= 0.0 && totalBid >= 0.0
    ensures PressureLabel(totalAsk, totalBid) == BuyDominant <==> RealtimeWriter.MarketPressure(totalAsk, totalBid) > 0.0
    ensures PressureLabel(totalAsk, totalBid) == SellDominant <==> RealtimeWriter.MarketPressure(totalAsk, totalBid) < 0.0
    ensures PressureLabel(totalAsk, totalBid) == Balanced <==> RealtimeWriter.MarketPressure(totalAsk, totalBid) == 0.0
  {
    RealtimeWriter.MarketPressureBounds(totalAsk, totalBid);
  }

  /** The dict `format_orderbook_data` returns, without its wall-clock timestamp. */
  datatype OrderbookView = OrderbookView(
    symbol: string,
    askOrders: seq<Level>,
    bidOrders: seq<Level>,
    figures: Figures,
    marketPressure: string)

  method FormatOrderbookData(data: RawOrderbook) returns (r: OrderbookView)
    ensures r.symbol == data.code.GetOr("")
    ensures var units := data.orderbookUnits.GetOr([]);
      && r.askOrders == Top(SortedAsks(units), DepthShown)
      && r.bidOrders == Top(SortedBids(units), DepthShown)
      && r.figures == BookFigures(units)
      && r.marketPressure == PressureLabel(r.figures.totalAskSize, r.figures.totalBidSize)
  {
    var units := data.orderbookUnits.GetOr([]);
    var asks, bids := SplitAndSort(units);
    var figures := FiguresOf(asks, bids);
    r := OrderbookView(data.code.GetOr(""), Top(asks, DepthShown), Top(bids, DepthShown), figures,
                       PressureLabel(figures.totalAskSize, figures.totalBidSize));
  }

  lemma {:induction false} SumSizesAppend(a: seq<Level>, b: seq<Level>)
    ensures SumSizes(a + b) == SumSizes(a) + SumSizes(b)
  {
    if a != [] {
      assert (a + b)[1..] == a[1..] + b;
      SumSizesAppend(a[1..], b);
    } else {
      assert a + b == b;
    }
  }

  /**
   * The returned lists are the best levels, at most ten of them, and the
   * totals count every level, the ones beyond the tenth included.
   */
  lemma TopLevelsAndTotals(units: seq<RawUnit>)
    ensures var asks := SortedAsks(units);
      var shown := Top(asks, DepthShown);
      && |shown| <= 10 && shown == asks[..|shown|]
      && BookFigures(units).totalAskSize == SumSizes(shown) + SumSizes(asks[|shown|..])
    ensures var bids := SortedBids(units);
      var shown := Top(bids, DepthShown);
      && |shown| <= 10 && shown == bids[..|shown|]
      && BookFigures(units).totalBidSize == SumSizes(shown) + SumSizes(bids[|shown|..])
  {
    var asks := SortedAsks(units);
    var n := |Top(asks, DepthShown)|;
    assert asks == asks[..n] + asks[n..];
    SumSizesAppend(asks[..n], asks[n..]);
    var bids := SortedBids(units);
    var m := |Top(bids, DepthShown)|;
    assert bids == bids[..m] + bids[m..];
    SumSizesAppend(bids[..m], bids[m..]);
  }

  // ---------------------------------------------------------------------------
  // analyze_market_sentiment

  const LiquidityHigh: string := "높음"
  const LiquidityMedium: string := "보통"
  const LiquidityLow: string := "낮음"
  const StrongBuying: string := "강한 매수세"
  const StrongSelling: string := "강한 매도세"
  const BalancedMarket: string := "균형잡힌 시장"
  const SpreadNarrow: string := "좁음"
  const SpreadWide: string := "넓음"

  datatype Sentiment = Sentiment(
    liquidity: string,
    marketStrength: string,
    spreadAnalysis: string,
    top5BidAvg: real,
    top5AskAvg: real)

  /** `sum(size of levels[:5]) / 5`: the divisor is 5 however many levels there are. */
  function Top5Average(levels: seq<Level>): (r: real)
    ensures r * 5.0 == SumSizes(Top(levels, 5))
  {
    SumSizes(Top(levels, 5)) / 5.0
  }

  function LiquidityLabel(spreadPct: real): string {
    if spreadPct < 0.1 then LiquidityHigh else if spreadPct < 0.5 then LiquidityMedium else LiquidityLow
  }

  function StrengthLabel(bidAvg: real, askAvg: real): string {
    if bidAvg > askAvg * 1.2 then StrongBuying
    else if askAvg > bidAvg * 1.2 then StrongSelling
    else BalancedMarket
  }

  function SpreadLabel(spreadPct: real): string {
    if spreadPct < 0.1 then SpreadNarrow else SpreadWide
  }

  function AnalyzeMarketSentiment(view: OrderbookView): Sentiment {
    var askAvg := Top5Average(view.askOrders);
    var bidAvg := Top5Average(view.bidOrders);
    var pct := view.figures.spreadPercentage;
    Sentiment(LiquidityLabel(pct), StrengthLabel(bidAvg, askAvg), SpreadLabel(pct), bidAvg, askAvg)
  }

  /** The liquidity bands split at 0.1 and 0.5, and the spread is narrow exactly when liquidity is high. */
  lemma LiquidityBands(spreadPct: real)
    ensures LiquidityLabel(spreadPct) == LiquidityHigh <==> spreadPct < 0.1
    ensures LiquidityLabel(spreadPct) == LiquidityMedium <==> 0.1 <= spreadPct < 0.5
    ensures LiquidityLabel(spreadPct) == LiquidityLow <==> spreadPct >= 0.5
    ensures SpreadLabel(spreadPct) == SpreadNarrow <==> spreadPct < 0.1
    ensures SpreadLabel(spreadPct) == SpreadNarrow <==> LiquidityLabel(spreadPct) == LiquidityHigh
  {
  }

  /**
   * For non-negative averages the two strong verdicts are each decided by
   * their own comparison alone: the `elif` never hides a strong selling side.
   */
  lemma StrengthMeaning(bidAvg: real, askAvg: real)
    requires bidAvg >= 0.0 && askAvg >= 0.0
    ensures StrengthLabel(bidAvg, askAvg) == StrongBuying <==> bidAvg > askAvg * 1.2
    ensures StrengthLabel(bidAvg, askAvg) == StrongSelling <==> askAvg > bidAvg * 1.2
    ensures StrengthLabel(bidAvg, askAvg) == BalancedMarket <==>
      bidAvg <= askAvg * 1.2 && askAvg <= bidAvg * 1.2
  {
  }

  /** With fewer than five levels on a side, its average is the side's whole size divided by 5. */
  lemma ShortSideAverage(view: OrderbookView)
    requires |view.askOrders| < 5
    ensures AnalyzeMarketSentiment(view).top5AskAvg * 5.0 == SumSizes(view.askOrders)
  {
  }
}
