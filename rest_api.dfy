/**
 * `UpbitRestAPI.format_accounts_data` and `format_orders_data`
 * (`upbit_rest_api.py`): normalise account balances into held assets and
 * KRW/BTC totals, and normalise open orders field by field. Decoding of
 * numeric strings by `float()` is not modelled: numbers arrive as `real`.
 */
module RestApi {
  import opened Wrappers

  datatype RawAccount = RawAccount(
    currency: Option<string>,
    balance: Option<real>,
    locked: Option<real>,
    avgBuyPrice: Option<real>)

  datatype Asset = Asset(currency: string, balance: real, locked: real, total: real, avgBuyPrice: real)

  /** `assets`, `total_krw` and `total_btc`; the wall-clock `timestamp` is not modelled. */
  datatype AccountsSummary = AccountsSummary(totalKrw: real, totalBtc: real, assets: seq<Asset>)

  /** `asset_info` of one account: absent text is `""`, absent numbers are 0. */
  function AssetOf(a: RawAccount): (r: Asset)
    ensures r.total == r.balance + r.locked
  {
    var balance := a.balance.GetOr(0.0);
    var locked := a.locked.GetOr(0.0);
    Asset(a.currency.GetOr(""), balance, locked, balance + locked, a.avgBuyPrice.GetOr(0.0))
  }

  /** The assets with something held, in account order. */
  function HeldAssets(accounts: seq<RawAccount>): seq<Asset> {
    if accounts == [] then []
    else
      var a := AssetOf(accounts[|accounts| - 1]);
      HeldAssets(accounts[..|accounts| - 1]) + (if a.total > 0.0 then [a] else [])
  }

  /** The holding (`balance + locked`) of the last account in `currency`, or 0 if there is none. */
  function LastHolding(accounts: seq<RawAccount>, currency: string): real {
    if accounts == [] then 0.0
    else
      var a := AssetOf(accounts[|accounts| - 1]);
      if a.currency == currency then a.total else LastHolding(accounts[..|accounts| - 1], currency)
  }

  method FormatAccountsData(accounts: seq<RawAccount>) returns (r: AccountsSummary)
    ensures r == AccountsSummary(LastHolding(accounts, "KRW"), LastHolding(accounts, "BTC"), HeldAssets(accounts))
  {
    r := AccountsSummary(0.0, 0.0, []);
    var i := 0;
    while i < |accounts|
      invariant 0 <= i <= |accounts|
      invariant r == AccountsSummary(LastHolding(accounts[..i], "KRW"), LastHolding(accounts[..i], "BTC"),
                                     HeldAssets(accounts[..i]))
    {
      assert accounts[..i + 1][..i] == accounts[..i];
      var info := AssetOf(accounts[i]);
      if info.currency == "KRW" {
        r := r.(totalKrw := info.balance + info.locked);
      } else if info.currency == "BTC" {
        r := r.(totalBtc := info.balance + info.locked);
      }
      if info.balance + info.locked > 0.0 {
        r := r.(assets := r.assets + [info]);
      }
      i := i + 1;
    }
    assert accounts[..i] == accounts;
  }

  /** Held assets distribute over concatenation, so their order is the accounts' order. */
  lemma {:induction false} HeldAssetsAppend(a: seq<RawAccount>, b: seq<RawAccount>)
    ensures HeldAssets(a + b) == HeldAssets(a) + HeldAssets(b)
  {
    if b == [] {
      assert a + b == a;
    } else {
      var b' := b[..|b| - 1];
      assert (a + b)[..|a + b| - 1] == a + b';
      assert (a + b)[|a + b| - 1] == b[|b| - 1];
      HeldAssetsAppend(a, b');
    }
  }

  /** An asset is listed exactly when some account yields it with a positive holding. */
  lemma {:induction false} HeldAssetsMeaning(accounts: seq<RawAccount>, x: Asset)
    ensures x in HeldAssets(accounts) <==>
      exists i :: 0 <= i < |accounts| && x == AssetOf(accounts[i]) && x.total > 0.0
    ensures |HeldAssets(accounts)| <= |accounts|
  {
    if accounts != [] {
      var prefix := accounts[..|accounts| - 1];
      var last := accounts[|accounts| - 1];
      HeldAssetsMeaning(prefix, x);
      if x in HeldAssets(accounts) {
        if x in HeldAssets(prefix) {
          var i :| 0 <= i < |prefix| && x == AssetOf(prefix[i]) && x.total > 0.0;
          assert accounts[i] == prefix[i];
        } else {
          assert x == AssetOf(last);
        }
      }
      if exists i :: 0 <= i < |accounts| && x == AssetOf(accounts[i]) && x.total > 0.0 {
        var i :| 0 <= i < |accounts| && x == AssetOf(accounts[i]) && x.total > 0.0;
        if i < |prefix| {
          assert prefix[i] == accounts[i];
        }
      }
    }
  }

  /**
   * `total_krw` and `total_btc`: 0 when no account is in that currency,
   * otherwise the holding of the last account in it; earlier ones are
   * overwritten, not added.
   */
  lemma {:induction false} LastHoldingMeaning(accounts: seq<RawAccount>, currency: string)
    ensures (forall i :: 0 <= i < |accounts| ==> AssetOf(accounts[i]).currency != currency) ==>
      LastHolding(accounts, currency) == 0.0
    ensures (exists i :: 0 <= i < |accounts| && AssetOf(accounts[i]).currency == currency) ==>
      exists i :: 0 <= i < |accounts| && AssetOf(accounts[i]).currency == currency
        && LastHolding(accounts, currency) == AssetOf(accounts[i]).total
        && forall j :: i < j < |accounts| ==> AssetOf(accounts[j]).currency != currency
  {
    if accounts != [] {
      var prefix := accounts[..|accounts| - 1];
      var n := |accounts| - 1;
      LastHoldingMeaning(prefix, currency);
      if AssetOf(accounts[n]).currency != currency {
        if forall i :: 0 <= i < |accounts| ==> AssetOf(accounts[i]).currency != currency {
          forall i | 0 <= i < |prefix| ensures AssetOf(prefix[i]).currency != currency {
            assert prefix[i] == accounts[i];
          }
        }
        if exists i :: 0 <= i < |accounts| && AssetOf(accounts[i]).currency == currency {
          var k :| 0 <= k < |accounts| && AssetOf(accounts[k]).currency == currency;
          assert prefix[k] == accounts[k];
          var i :| 0 <= i < |prefix| && AssetOf(prefix[i]).currency == currency
            && LastHolding(prefix, currency) == AssetOf(prefix[i]).total
            && forall j :: i < j < |prefix| ==> AssetOf(prefix[j]).currency != currency;
          assert accounts[i] == prefix[i];
          forall j | i < j < |accounts| ensures AssetOf(accounts[j]).currency != currency {
            if j < n { assert accounts[j] == prefix[j]; }
          }
        }
      }
    }
  }

  /** A KRW cash account of 1000 plus 500 locked is reported in full; an empty BTC wallet is not listed. */
  lemma AccountsExample()
    ensures var accounts := [RawAccount(Some("KRW"), Some(1000.0), Some(500.0), None),
                             RawAccount(Some("BTC"), Some(0.0), None, Some(50000000.0))];
      && LastHolding(accounts, "KRW") == 1500.0 && LastHolding(accounts, "BTC") == 0.0
      && HeldAssets(accounts) == [Asset("KRW", 1000.0, 500.0, 1500.0, 0.0)]
  {
    var accounts := [RawAccount(Some("KRW"), Some(1000.0), Some(500.0), None),
                     RawAccount(Some("BTC"), Some(0.0), None, Some(50000000.0))];
    assert accounts[..1] == [accounts[0]];
    assert accounts[..1][..0] == [];
  }

  // ---------------------------------------------------------------------------
  // Orders

  datatype RawOrder = RawOrder(
    uuid: Option<string>,
    market: Option<string>,
    side: Option<string>,
    ordType: Option<string>,
    price: Option<real>,
    volume: Option<real>,
    remainingVolume: Option<real>,
    executedVolume: Option<real>,
    state: Option<string>,
    createdAt: Option<string>,
    tradesCount: Option<int>)

  datatype Order = Order(
    uuid: string,
    market: string,
    side: string,
    ordType: string,
    price: real,
    volume: real,
    remainingVolume: real,
    executedVolume: real,
    state: string,
    createdAt: string,
    tradesCount: int)

  /** One `formatted_order`: absent text is `""`, absent numbers and `trades_count` are 0. */
  function FormatOrder(o: RawOrder): Order {
    Order(o.uuid.GetOr(""), o.market.GetOr(""), o.side.GetOr(""), o.ordType.GetOr(""),
          o.price.GetOr(0.0), o.volume.GetOr(0.0), o.remainingVolume.GetOr(0.0), o.executedVolume.GetOr(0.0),
          o.state.GetOr(""), o.createdAt.GetOr(""), o.tradesCount.GetOr(0))
  }

  /** The order record carrying exactly the fields of `x`. */
  function OrderFrame(x: Order): RawOrder {
    RawOrder(Some(x.uuid), Some(x.market), Some(x.side), Some(x.ordType), Some(x.price), Some(x.volume),
             Some(x.remainingVolume), Some(x.executedVolume), Some(x.state), Some(x.createdAt), Some(x.tradesCount))
  }

  /** Present fields are copied unchanged. */
  lemma OrderRoundTrip(x: Order)
    ensures FormatOrder(OrderFrame(x)) == x
  {
  }

  /** Absent fields take their defaults. */
  lemma OrderDefaults(o: RawOrder)
    ensures o.uuid.None? ==> FormatOrder(o).uuid == ""
    ensures o.market.None? ==> FormatOrder(o).market == ""
    ensures o.side.None? ==> FormatOrder(o).side == ""
    ensures o.ordType.None? ==> FormatOrder(o).ordType == ""
    ensures o.price.None? ==> FormatOrder(o).price == 0.0
    ensures o.volume.None? ==> FormatOrder(o).volume == 0.0
    ensures o.remainingVolume.None? ==> FormatOrder(o).remainingVolume == 0.0
    ensures o.executedVolume.None? ==> FormatOrder(o).executedVolume == 0.0
    ensures o.state.None? ==> FormatOrder(o).state == ""
    ensures o.createdAt.None? ==> FormatOrder(o).createdAt == ""
    ensures o.tradesCount.None? ==> FormatOrder(o).tradesCount == 0
    ensures FormatOrder(RawOrder(None, None, None, None, None, None, None, None, None, None, None))
      == Order("", "", "", "", 0.0, 0.0, 0.0, 0.0, "", "", 0)
  {
  }

  /** One formatted order per input order, in the same order. */
  method FormatOrdersData(orders: seq<RawOrder>) returns (r: seq<Order>)
    ensures |r| == |orders|
    ensures forall i :: 0 <= i < |orders| ==> r[i] == FormatOrder(orders[i])
  {
    r := [];
    var i := 0;
    while i < |orders|
      invariant 0 <= i <= |orders|
      invariant |r| == i && forall k :: 0 <= k < i ==> r[k] == FormatOrder(orders[k])
    {
      r := r + [FormatOrder(orders[i])];
      i := i + 1;
    }
  }
}
