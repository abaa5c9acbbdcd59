/**
 * Order-book normalisation shared by the real-time collector
 * (`_format_orderbook_data`) and the stand-alone order-book collector
 * (`format_orderbook_data`): split each unit into an ask and a bid level,
 * sort asks by ascending and bids by descending price, and derive the best
 * prices, the spread and the size totals.
 */
module OrderBook {
  import opened Wrappers
  import opened Messages
  import Sorting

  /** One price level: `{"price": ..., "size": ...}`. */
  datatype Level = Level(price: real, size: real)

  function AskLevel(u: RawUnit): Level {
    Level(u.askPrice.GetOr(0.0), u.askSize.GetOr(0.0))
  }

  function BidLevel(u: RawUnit): Level {
    Level(u.bidPrice.GetOr(0.0), u.bidSize.GetOr(0.0))
  }

  function Price(l: Level): real { l.price }

  /** The ask levels in unit order, before sorting. */
  function AskLevels(units: seq<RawUnit>): (r: seq<Level>)
    ensures |r| == |units| && forall i :: 0 <= i < |units| ==> r[i] == AskLevel(units[i])
  {
    seq(|units|, i requires 0 <= i < |units| => AskLevel(units[i]))
  }

  function BidLevels(units: seq<RawUnit>): (r: seq<Level>)
    ensures |r| == |units| && forall i :: 0 <= i < |units| ==> r[i] == BidLevel(units[i])
  {
    seq(|units|, i requires 0 <= i < |units| => BidLevel(units[i]))
  }

  /** `ask_orders` after `sort(key=price)`. */
  function SortedAsks(units: seq<RawUnit>): seq<Level> {
    Sorting.Sort(AskLevels(units), Price, false)
  }

  /** `bid_orders` after `sort(key=price, reverse=True)`. */
  function SortedBids(units: seq<RawUnit>): seq<Level> {
    Sorting.Sort(BidLevels(units), Price, true)
  }

  /** `sum(order["size"] for order in levels)`. */
  function SumSizes(levels: seq<Level>): real {
    if levels == [] then 0.0 else levels[0].size + SumSizes(levels[1..])
  }

  /** The figures both normalisers derive from the sorted level lists. */
  datatype Figures = Figures(
    bestAsk: real,
    bestBid: real,
    spread: real,
    spreadPercentage: real,
    totalAskSize: real,
    totalBidSize: real)

  /** Python truthiness of a number: zero is false. */
  function BestPrice(sorted: seq<Level>): real {
    if sorted == [] then 0.0 else sorted[0].price
  }

  function FiguresOf(asks: seq<Level>, bids: seq<Level>): Figures {
    var bestAsk := BestPrice(asks);
    var bestBid := BestPrice(bids);
    var spread := if bestAsk != 0.0 && bestBid != 0.0 then bestAsk - bestBid else 0.0;
    var spreadPercentage := if bestAsk != 0.0 then spread / bestAsk * 100.0 else 0.0;
    Figures(bestAsk, bestBid, spread, spreadPercentage, SumSizes(asks), SumSizes(bids))
  }

  /** The figures of an order-book frame whose units are `units`. */
  function BookFigures(units: seq<RawUnit>): Figures {
    FiguresOf(SortedAsks(units), SortedBids(units))
  }

  /**
   * The loop of both normalisers: one ask and one bid level per unit, then the
   * two in-place sorts.
   */
  method SplitAndSort(units: seq<RawUnit>) returns (asks: seq<Level>, bids: seq<Level>)
    ensures Sorting.IsStableSortOf(asks, AskLevels(units), Price, false)
    ensures Sorting.IsStableSortOf(bids, BidLevels(units), Price, true)
    ensures asks == SortedAsks(units) && bids == SortedBids(units)
  {
    asks, bids := [], [];
    var i := 0;
    while i < |units|
      invariant 0 <= i <= |units|
      invariant |asks| == i && forall k :: 0 <= k < i ==> asks[k] == AskLevel(units[k])
      invariant |bids| == i && forall k :: 0 <= k < i ==> bids[k] == BidLevel(units[k])
    {
      asks := asks + [AskLevel(units[i])];
      bids := bids + [BidLevel(units[i])];
      i := i + 1;
    }
    assert asks == AskLevels(units);
    assert bids == BidLevels(units);
    Sorting.SortIsStable(asks, Price, false);
    Sorting.SortIsStable(bids, Price, true);
    asks := Sorting.Sort(asks, Price, false);
    bids := Sorting.Sort(bids, Price, true);
  }

  lemma {:induction false} SumSizesInsert(x: Level, s: seq<Level>, descending: bool)
    ensures SumSizes(Sorting.Insert(x, s, Price, descending)) == x.size + SumSizes(s)
  {
    if s == [] || Sorting.Precedes(Price(x), Price(s[0]), descending) {
      assert ([x] + s)[1..] == s;
    } else {
      var rest := Sorting.Insert(x, s[1..], Price, descending);
      assert ([s[0]] + rest)[1..] == rest;
      SumSizesInsert(x, s[1..], descending);
    }
  }

  /** Sorting does not change the total size. */
  lemma {:induction false} SumSizesSort(s: seq<Level>, descending: bool)
    ensures SumSizes(Sorting.Sort(s, Price, descending)) == SumSizes(s)
  {
    if s != [] {
      SumSizesSort(s[1..], descending);
      SumSizesInsert(s[0], Sorting.Sort(s[1..], Price, descending), descending);
    }
  }

  /** `best_ask` is the lowest ask price, 0 when the frame has no units. */
  lemma BestAskIsLowest(units: seq<RawUnit>)
    ensures var f := BookFigures(units);
      && (units == [] ==> f.bestAsk == 0.0)
      && (units != [] ==>
            && (exists u :: u in units && AskLevel(u).price == f.bestAsk)
            && (forall u :: u in units ==> f.bestAsk <= AskLevel(u).price))
  {
    if units != [] {
      var asks := SortedAsks(units);
      Sorting.SortIsStable(AskLevels(units), Price, false);
      Sorting.FirstIsExtreme(asks, AskLevels(units), Price, false);
      var ia :| 0 <= ia < |units| && AskLevels(units)[ia] == asks[0];
      assert AskLevel(units[ia]).price == BestPrice(asks);
      forall u | u in units ensures BestPrice(asks) <= AskLevel(u).price {
        var k :| 0 <= k < |units| && units[k] == u;
        assert AskLevels(units)[k] in AskLevels(units);
      }
    }
  }

  /** `best_bid` is the highest bid price, 0 when the frame has no units. */
  lemma BestBidIsHighest(units: seq<RawUnit>)
    ensures var f := BookFigures(units);
      && (units == [] ==> f.bestBid == 0.0)
      && (units != [] ==>
            && (exists u :: u in units && BidLevel(u).price == f.bestBid)
            && (forall u :: u in units ==> f.bestBid >= BidLevel(u).price))
  {
    if units != [] {
      var bids := SortedBids(units);
      Sorting.SortIsStable(BidLevels(units), Price, true);
      Sorting.FirstIsExtreme(bids, BidLevels(units), Price, true);
      var ib :| 0 <= ib < |units| && BidLevels(units)[ib] == bids[0];
      assert BidLevel(units[ib]).price == BestPrice(bids);
      forall u | u in units ensures BestPrice(bids) >= BidLevel(u).price {
        var k :| 0 <= k < |units| && units[k] == u;
        assert BidLevels(units)[k] in BidLevels(units);
      }
    }
  }

  /**
   * The spread is taken only when both bests are non-zero, the percentage only
   * when `best_ask` is, and the totals add up the sizes of every level, in
   * unit order.
   */
  lemma SpreadAndTotals(units: seq<RawUnit>)
    ensures var f := BookFigures(units);
      && f.spread == (if f.bestAsk != 0.0 && f.bestBid != 0.0 then f.bestAsk - f.bestBid else 0.0)
      && f.spreadPercentage == (if f.bestAsk != 0.0 then f.spread / f.bestAsk * 100.0 else 0.0)
      && f.totalAskSize == SumSizes(AskLevels(units))
      && f.totalBidSize == SumSizes(BidLevels(units))
  {
    SumSizesSort(AskLevels(units), false);
    SumSizesSort(BidLevels(units), true);
  }

  /** The worked example's units: asks 105/101/103, bids 99/100, the third unit without a bid. */
  function ExampleUnits(): seq<RawUnit> {
    [ RawUnit(Some(105.0), Some(1.0), Some(99.0), Some(5.0)),
      RawUnit(Some(101.0), Some(2.0), Some(100.0), Some(4.0)),
      RawUnit(Some(103.0), Some(3.0), None, None) ]
  }

  lemma ExampleAsks()
    ensures SortedAsks(ExampleUnits()) == [Level(101.0, 2.0), Level(103.0, 3.0), Level(105.0, 1.0)]
  {
    var a1, a2, a3 := Level(105.0, 1.0), Level(101.0, 2.0), Level(103.0, 3.0);
    assert AskLevels(ExampleUnits()) == [a1, a2, a3];
    assert [a1, a2, a3][1..] == [a2, a3] && [a2, a3][1..] == [a3] && [a3][1..] == [];
    assert Sorting.Sort([a3], Price, false) == [a3];
    assert Sorting.Sort([a2, a3], Price, false) == [a2, a3];
    assert Sorting.Insert(a1, [a3], Price, false) == [a3, a1];
  }

  lemma ExampleBids()
    ensures SortedBids(ExampleUnits()) == [Level(100.0, 4.0), Level(99.0, 5.0), Level(0.0, 0.0)]
  {
    var b1, b2, b3 := Level(99.0, 5.0), Level(100.0, 4.0), Level(0.0, 0.0);
    assert BidLevels(ExampleUnits()) == [b1, b2, b3];
    assert [b1, b2, b3][1..] == [b2, b3] && [b2, b3][1..] == [b3] && [b3][1..] == [];
    assert Sorting.Sort([b3], Price, true) == [b3];
    assert Sorting.Sort([b2, b3], Price, true) == [b2, b3];
    assert Sorting.Insert(b1, [b3], Price, true) == [b1, b3];
  }

  /** The worked example: best ask 101, best bid 100, spread 1, spread about 0.990 %. */
  lemma WorkedExample()
    ensures var f := BookFigures(ExampleUnits());
      && f.bestAsk == 101.0 && f.bestBid == 100.0 && f.spread == 1.0
      && f.spreadPercentage == 100.0 / 101.0
  {
    ExampleAsks();
    ExampleBids();
  }
}
