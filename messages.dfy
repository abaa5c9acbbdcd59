/**
 * Inbound messages as the exchange's streaming and REST venues deliver them.
 * A JSON object is a record whose fields are optional: `None` is a key the
 * message does not carry, so Python's `data.get(key, default)` is
 * `field.GetOr(default)`. Numbers are `real`; decoding of the JSON text is
 * not part of this model.
 */
module Messages {
  import opened Wrappers

  /** An inbound `ticker` frame. */
  datatype RawTicker = RawTicker(
    code: Option<string>,
    tradePrice: Option<real>,
    change: Option<string>,
    changePrice: Option<real>,
    changeRate: Option<real>,
    signedChangePrice: Option<real>,
    signedChangeRate: Option<real>,
    tradeVolume: Option<real>,
    accTradeVolume24h: Option<real>,
    accTradePrice24h: Option<real>,
    highPrice: Option<real>,
    lowPrice: Option<real>,
    prevClosingPrice: Option<real>)

  /** A ticker frame that carries no key at all. */
  const EmptyTicker: RawTicker :=
    RawTicker(None, None, None, None, None, None, None, None, None, None, None, None, None)

  /** One element of `orderbook_units`: one ask level and one bid level. */
  datatype RawUnit = RawUnit(
    askPrice: Option<real>,
    askSize: Option<real>,
    bidPrice: Option<real>,
    bidSize: Option<real>)

  /** An inbound `orderbook` frame. */
  datatype RawOrderbook = RawOrderbook(code: Option<string>, orderbookUnits: Option<seq<RawUnit>>)
}
