/** The shape of the quote provider's reply as the handlers read it, the raw
    field values it carries, and what one run of a handler does to the host. */
module Provider {
  import opened Js
  import opened Stock

  /** `response.bid` and `response.ask`: objects holding a price. */
  datatype Price = Price(value: Value)

  /** `response.dayRange` and `response.fiftyTwoWeekRange`. */
  datatype Range = Range(low: Value, high: Value)

  /** `reply.response`. A nested object that is `None` is undefined or null, and
      reading a property of it throws a TypeError. */
  datatype Response = Response(
    bid: Option<Price>,
    ask: Option<Price>,
    marketCap: Value,
    previousClose: Value,
    volume: Value,
    fiftyTwoWeekRange: Option<Range>,
    dayRange: Option<Range>,
    updated: Value)

  /** The object `getSymbol` resolves to. The handlers read `name` and
      `currency` at this level, not inside `response`. */
  datatype Reply = Reply(
    error: Value,
    message: Value,
    name: Value,
    currency: Value,
    response: Option<Response>)

  /** The reply's response object and the four objects nested in it are all present. */
  predicate Complete(reply: Reply) {
    && reply.response.Some?
    && reply.response.value.bid.Some?
    && reply.response.value.ask.Some?
    && reply.response.value.fiftyTwoWeekRange.Some?
    && reply.response.value.dayRange.Some?
  }

  function PriceValue(p: Option<Price>): Value {
    match p
    case Some(price) => price.value
    case None => Undefined
  }

  function RangeLow(r: Option<Range>): Value {
    match r
    case Some(range) => range.low
    case None => Undefined
  }

  function RangeHigh(r: Option<Range>): Value {
    match r
    case Some(range) => range.high
    case None => Undefined
  }

  /** The provider's own value for every quote field, before any coalescing; a
      value inside a missing object is undefined here. */
  function Fields(reply: Reply): Quote
    requires reply.response.Some?
  {
    var info := reply.response.value;
    Quote(reply.name, reply.currency, PriceValue(info.bid), PriceValue(info.ask),
      info.marketCap, info.previousClose, info.volume,
      RangeHigh(info.fiftyTwoWeekRange), RangeLow(info.fiftyTwoWeekRange),
      RangeHigh(info.dayRange), RangeLow(info.dayRange), info.updated)
  }

  /** The three ways a call to the provider can come back. */
  datatype Outcome = Success(reply: Reply) | ProviderError(message: Value) | NoResponse

  /** What one run of a handler does: replace the editor selection; or log a
      diagnostic and show one transient notice; or throw out of the async handler,
      which rejects its promise and touches neither the editor nor the screen. */
  datatype Effect =
    | Replaced(text: string)
    | Warned(notice: string, durationMs: nat, logged: Value)
    | Threw

  const NOTICE_TEXT := "Error: couldn't retrieve stock information"
  const NOTICE_DURATION_MS: nat := 15000

  function Warn(logged: Value): Effect {
    Warned(NOTICE_TEXT, NOTICE_DURATION_MS, logged)
  }
}
