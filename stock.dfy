/** The `stock` dictionary both command handlers fill from the provider's reply,
    its typed view as a quote record, and the loop that empties it. */
module Stock {
  import opened Js

  /** The twelve property names the handlers write into `stock`. */
  datatype Key =
    | NameKey            // "name"
    | CurrencyKey        // "currency"
    | BidKey             // "bid"
    | AskKey             // "ask"
    | MarketCapKey       // "marketCap"
    | PreviousCloseKey   // "previousClose"
    | VolumeKey          // "volume"
    | FiftyTwoHighKey    // "fiftytwo_high"
    | FiftyTwoLowKey     // "fiftytwo_low"
    | DayRangeHighKey    // "dayRange_high"
    | DayRangeLowKey     // "dayRange_low"
    | UpdatedKey         // "updated"

  const KEYS: set<Key> := {NameKey, CurrencyKey, BidKey, AskKey, MarketCapKey,
    PreviousCloseKey, VolumeKey, FiftyTwoHighKey, FiftyTwoLowKey,
    DayRangeHighKey, DayRangeLowKey, UpdatedKey}

  /** The normalised quote: one field per dictionary key. */
  datatype Quote = Quote(
    name: Value,
    currency: Value,
    bid: Value,
    ask: Value,
    marketCap: Value,
    previousClose: Value,
    volume: Value,
    fiftyTwoHigh: Value,
    fiftyTwoLow: Value,
    dayRangeHigh: Value,
    dayRangeLow: Value,
    updated: Value)

  /** `stock.key`: an absent key reads as undefined. */
  function Get(stock: map<Key, Value>, key: Key): Value {
    if key in stock then stock[key] else Undefined
  }

  /** What `stock.name`, `stock.bid`, ... read. */
  function QuoteOf(stock: map<Key, Value>): Quote {
    Quote(
      Get(stock, NameKey), Get(stock, CurrencyKey), Get(stock, BidKey), Get(stock, AskKey),
      Get(stock, MarketCapKey), Get(stock, PreviousCloseKey), Get(stock, VolumeKey),
      Get(stock, FiftyTwoHighKey), Get(stock, FiftyTwoLowKey),
      Get(stock, DayRangeHighKey), Get(stock, DayRangeLowKey), Get(stock, UpdatedKey))
  }

  /** The dictionary holding the quote's fields under their keys, written in the
      order the handlers write them. */
  function StockOf(q: Quote): map<Key, Value> {
    map[NameKey := q.name, CurrencyKey := q.currency, BidKey := q.bid, AskKey := q.ask,
      MarketCapKey := q.marketCap, PreviousCloseKey := q.previousClose,
      VolumeKey := q.volume, FiftyTwoHighKey := q.fiftyTwoHigh,
      FiftyTwoLowKey := q.fiftyTwoLow, DayRangeHighKey := q.dayRangeHigh,
      DayRangeLowKey := q.dayRangeLow, UpdatedKey := q.updated]
  }

  /** Reading the dictionary back gives the quote that filled it, and every
      key is written. */
  lemma ReadBack(q: Quote)
    ensures QuoteOf(StockOf(q)) == q
    ensures StockOf(q).Keys == KEYS
  {
  }

  /** The same quote with `f` applied to every field. */
  function MapFields(q: Quote, f: Value -> Value): Quote {
    Quote(f(q.name), f(q.currency), f(q.bid), f(q.ask), f(q.marketCap), f(q.previousClose),
      f(q.volume), f(q.fiftyTwoHigh), f(q.fiftyTwoLow), f(q.dayRangeHigh), f(q.dayRangeLow),
      f(q.updated))
  }

  /** The quote with every falsy field replaced by null. Two quotes with the same
      normal form agree on every truthy field and on which fields are truthy. */
  function Normalize(q: Quote): Quote {
    MapFields(q, TruthyOrNull)
  }

  /** No field is undefined. */
  predicate Defined(q: Quote) {
    && !q.name.Undefined? && !q.currency.Undefined? && !q.bid.Undefined? && !q.ask.Undefined?
    && !q.marketCap.Undefined? && !q.previousClose.Undefined? && !q.volume.Undefined?
    && !q.fiftyTwoHigh.Undefined? && !q.fiftyTwoLow.Undefined?
    && !q.dayRangeHigh.Undefined? && !q.dayRangeLow.Undefined? && !q.updated.Undefined?
  }

  /** Every field is truthy or nullish: nothing falsy such as 0 or "" is kept. */
  predicate Clean(q: Quote) {
    && CleanValue(q.name) && CleanValue(q.currency) && CleanValue(q.bid) && CleanValue(q.ask)
    && CleanValue(q.marketCap) && CleanValue(q.previousClose) && CleanValue(q.volume)
    && CleanValue(q.fiftyTwoHigh) && CleanValue(q.fiftyTwoLow)
    && CleanValue(q.dayRangeHigh) && CleanValue(q.dayRangeLow) && CleanValue(q.updated)
  }

  predicate CleanValue(v: Value) {
    Truthy(v) || Nullish(v)
  }

  /** A normal form is its own normal form, and keeps no falsy value other than
      null: undefined is gone too. */
  lemma NormalizeIdempotent(q: Quote)
    ensures Normalize(Normalize(q)) == Normalize(q)
    ensures Clean(Normalize(q)) && Defined(Normalize(q))
  {
  }

  /** `for (const r in stock) delete stock[r]`: every key present when the loop
      starts is deleted, and nothing else. */
  method DeleteAll(stock: map<Key, Value>) returns (emptied: map<Key, Value>)
    ensures emptied == map[]
  {
    emptied := stock;
    var pending := stock.Keys;
    while pending != {}
      invariant emptied.Keys <= pending
      decreases pending
    {
      var r :| r in pending;
      emptied := emptied - {r};
      pending := pending - {r};
    }
    assert emptied.Keys == {};
  }
}
