/** The "Insert stock info" handler of the older main.ts: the reply is read
    without a null check, absent prices leave their keys unset, every field is
    coalesced with `x ? x : null`, the header has no previous-close fallback and
    the body has no previous-close line. */
module LegacyStockInfo {
  import opened Js
  import opened Stock
  import opened Provider
  import opened Callout
  import StockInfo

  /** The order in which the older handler appends body lines. */
  const LEGACY_ORDER: seq<Line> := [NameLine, CurrencyLine, VolumeLine, MarketCapLine,
    DayRangeLine, FiftyTwoWeekLine, UpdatedLine]

  /** Bid/ask/spread when both prices are truthy, else nothing. */
  function LegacyParenFor(q: Quote): Parenthetical {
    if Truthy(q.bid) && Truthy(q.ask) then BidAskSpread else Bare
  }

  function LegacyLines(q: Quote): seq<Line> {
    Present(q, LEGACY_ORDER)
  }

  /** Reference rendering of the older handler. */
  function LegacyRender(h: Host, ticker: string, q: Quote): string {
    HeaderPrefix(ticker) + ParenText(h, q, LegacyParenFor(q)) + Body(h, q, LegacyLines(q))
  }

  /** main.ts lines 104-113: `if (response.bid) stock.bid = value ? value : null`. A
      missing price object leaves the key unset, which reads as undefined. */
  function PriceOrAbsent(p: Option<Price>): (r: Value)
    ensures r.Undefined? <==> p.None?
    ensures p.Some? ==> Truthy(r) == Truthy(p.value.value)
  {
    match p
    case None => Undefined
    case Some(price) => TruthyOrNull(price.value)
  }

  /** The nested objects the older handler dereferences unconditionally. */
  predicate LegacyComplete(reply: Reply) {
    && reply.response.Some?
    && reply.response.value.fiftyTwoWeekRange.Some?
    && reply.response.value.dayRange.Some?
  }

  /** The quote main.ts lines 94-158 leave in `stock`, or `None` when one of them throws
      because `response`, `fiftyTwoWeekRange` or `dayRange` is missing. */
  function LegacyExtracted(reply: Reply): (r: Option<Quote>)
    ensures r.Some? <==> LegacyComplete(reply)
    ensures r.Some? ==> (r.value.bid.Undefined? <==> reply.response.value.bid.None?)
    ensures r.Some? ==> (r.value.ask.Undefined? <==> reply.response.value.ask.None?)
  {
    if LegacyComplete(reply) then
      var info := reply.response.value;
      Some(Quote(TruthyOrNull(reply.name), TruthyOrNull(reply.currency),
        PriceOrAbsent(info.bid), PriceOrAbsent(info.ask),
        TruthyOrNull(info.marketCap), TruthyOrNull(info.previousClose),
        TruthyOrNull(info.volume),
        TruthyOrNull(info.fiftyTwoWeekRange.value.high),
        TruthyOrNull(info.fiftyTwoWeekRange.value.low),
        TruthyOrNull(info.dayRange.value.high), TruthyOrNull(info.dayRange.value.low),
        TruthyOrNull(info.updated)))
    else None
  }

  /** The older extraction keeps no falsy value other than null and undefined,
      and agrees with the provider's values once both are normalised. */
  lemma LegacyExtractionIsClean(reply: Reply)
    requires LegacyComplete(reply)
    ensures Clean(LegacyExtracted(reply).value)
    ensures Normalize(LegacyExtracted(reply).value) == Normalize(Fields(reply))
  {
    var q, raw := LegacyExtracted(reply).value, Fields(reply);
    var info := reply.response.value;
    PriceNormalizes(info.bid);
    PriceNormalizes(info.ask);
    assert Clean(q);
    assert Normalize(q).bid == Normalize(raw).bid;
    assert Normalize(q).ask == Normalize(raw).ask;
  }

  lemma PriceNormalizes(p: Option<Price>)
    ensures CleanValue(PriceOrAbsent(p))
    ensures TruthyOrNull(PriceOrAbsent(p)) == TruthyOrNull(PriceValue(p))
  {
  }

  /** Reference for one run of the older handler. A missing reply throws at
      `currentStockInfo.error` instead of showing a notice. */
  function LegacySubmit(h: Host, ticker: string, reply: Option<Reply>): Effect {
    match StockInfo.Classify(reply)
    case NoResponse => Threw
    case ProviderError(message) => Warn(message)
    case Success(rep) =>
      match LegacyExtracted(rep)
      case None => Threw
      case Some(q) => Replaced(LegacyRender(h, ticker, q) + "\n\n")
  }

  /** main.ts lines 40 and 94-158: `stock` starts empty and is filled one key at a time,
      the price keys only when their object is present; `fault` reports the
      TypeError raised at the first missing object that is dereferenced. */
  method LegacyFillStock(reply: Reply) returns (stock: map<Key, Value>, fault: bool)
    ensures fault <==> LegacyExtracted(reply).None?
    ensures !fault ==> QuoteOf(stock) == LegacyExtracted(reply).value
    ensures !fault ==> (BidKey in stock <==> reply.response.value.bid.Some?)
    ensures !fault ==> (AskKey in stock <==> reply.response.value.ask.Some?)
  {
    stock := map[];
    stock := stock[NameKey := TruthyOrNull(reply.name)];
    stock := stock[CurrencyKey := TruthyOrNull(reply.currency)];
    if reply.response.None? {
      return stock, true;
    }
    var info := reply.response.value;
    if info.bid.Some? {
      stock := stock[BidKey := TruthyOrNull(info.bid.value.value)];
    }
    if info.ask.Some? {
      stock := stock[AskKey := TruthyOrNull(info.ask.value.value)];
    }
    stock := stock[MarketCapKey := TruthyOrNull(info.marketCap)];
    stock := stock[PreviousCloseKey := TruthyOrNull(info.previousClose)];
    stock := stock[VolumeKey := TruthyOrNull(info.volume)];
    if info.fiftyTwoWeekRange.None? {
      return stock, true;
    }
    stock := stock[FiftyTwoHighKey := TruthyOrNull(info.fiftyTwoWeekRange.value.high)];
    stock := stock[FiftyTwoLowKey := TruthyOrNull(info.fiftyTwoWeekRange.value.low)];
    if info.dayRange.None? {
      return stock, true;
    }
    stock := stock[DayRangeHighKey := TruthyOrNull(info.dayRange.value.high)];
    stock := stock[DayRangeLowKey := TruthyOrNull(info.dayRange.value.low)];
    stock := stock[UpdatedKey := TruthyOrNull(info.updated)];
    fault := false;
  }

  /** main.ts lines 161-173: the header line, whose only parenthetical is bid/ask/spread. */
  method LegacyBuildHeader(h: Host, ticker: string, q: Quote) returns (output: string)
    ensures output == HeaderPrefix(ticker) + ParenText(h, q, LegacyParenFor(q))
  {
    output := "> [!info]- " + ticker + " ";
    if Truthy(q.bid) && Truthy(q.ask) {
      output := output + ParenText(h, q, BidAskSpread);
    } else {
      assert output + ParenText(h, q, Bare) == output;
    }
  }

  /** main.ts lines 161-209: the callout built by `output +=` under the source's tests. */
  method LegacyBuildOutput(h: Host, ticker: string, stock: map<Key, Value>)
    returns (output: string)
    ensures output == LegacyRender(h, ticker, QuoteOf(stock))
  {
    var q := QuoteOf(stock);
    output := LegacyBuildHeader(h, ticker, q);
    ghost var header := output;
    // `done` is the prefix of LEGACY_ORDER whose tests have been made. It is
    // chosen with `:|` rather than assigned `[]` so that it is not a literal: the
    // verifier would otherwise unfold every `Appended` term over it in full.
    ghost var done: seq<Line> :| done == [];
    output := AppendIf(h, q, header, done, output, NameLine);
    done := done + [NameLine];
    output := AppendIf(h, q, header, done, output, CurrencyLine);
    done := done + [CurrencyLine];
    output := AppendIf(h, q, header, done, output, VolumeLine);
    done := done + [VolumeLine];
    output := AppendIf(h, q, header, done, output, MarketCapLine);
    done := done + [MarketCapLine];
    output := AppendIf(h, q, header, done, output, DayRangeLine);
    done := done + [DayRangeLine];
    output := AppendIf(h, q, header, done, output, FiftyTwoWeekLine);
    done := done + [FiftyTwoWeekLine];
    output := AppendIf(h, q, header, done, output, UpdatedLine);
    done := done + [UpdatedLine];
    assert done == LEGACY_ORDER;
    AppendedIsBody(h, q, header, LEGACY_ORDER);
  }

  /** main.ts lines 78-216. The out-parameter `stock` is the
      handler's dictionary when the handler returns. */
  method LegacyOnSubmit(h: Host, ticker: string, reply: Option<Reply>)
    returns (effect: Effect, stock: map<Key, Value>)
    ensures effect == LegacySubmit(h, ticker, reply)
    ensures !effect.Threw? ==> stock == map[]
  {
    stock := map[];
    if reply.None? {
      return Threw, stock;
    }
    if Truthy(reply.value.error) {
      return Warn(reply.value.message), stock;
    }
    var fault;
    stock, fault := LegacyFillStock(reply.value);
    if fault {
      return Threw, stock;
    }
    var output := LegacyBuildOutput(h, ticker, stock);
    effect := Replaced(output + "\n\n");
    stock := DeleteAll(stock);
  }

  lemma LegacyInOrder(l: Line)
    ensures l in LEGACY_ORDER <==> l != PreviousCloseLine
  {
  }

  /** A body line is rendered exactly when it is not the previous-close line and
      its test passes. */
  lemma LegacyLineShownIff(q: Quote, l: Line)
    ensures l in LegacyLines(q) <==> l != PreviousCloseLine && Shown(q, l)
  {
    LegacyInOrder(l);
    PresentIff(q, LEGACY_ORDER, l);
  }

  /** The body lines come in the fixed order Name, Currency, Volume, Market cap,
      Day range, 52W range, timestamp, each at most once. */
  lemma LegacyLinesInOrder(q: Quote)
    ensures Ordered(LegacyLines(q))
  {
    assert Ordered(LEGACY_ORDER);
    PresentOrdered(q, LEGACY_ORDER);
  }

  /** The text starts with the header prefix; what follows opens with "(Bid: "
      exactly when both prices are truthy, never with "(Previous close: ", and is
      otherwise the bare body, empty or starting a new line. */
  lemma LegacyHeaderHasNoFallback(h: Host, ticker: string, q: Quote)
    ensures HeaderPrefix(ticker) <= LegacyRender(h, ticker, q)
    ensures var rest := LegacyRender(h, ticker, q)[|HeaderPrefix(ticker)|..];
      && ("(Bid: " <= rest <==> Truthy(q.bid) && Truthy(q.ask))
      && !("(Previous close: " <= rest)
      && ((rest == [] || rest[0] == '\n') <==> !(Truthy(q.bid) && Truthy(q.ask)))
  {
    var body := Body(h, q, LegacyLines(q));
    AfterPrefix(HeaderPrefix(ticker), ParenText(h, q, LegacyParenFor(q)), body);
    BodyStartsWithNewline(h, q, LegacyLines(q));
    match LegacyParenFor(q)
    case BidAskSpread => OpensWithBidAsk(h, q, body);
    case Bare => assert ParenText(h, q, Bare) + body == body;
  }

  /** The older handler never prints the previous close: changing it leaves
      the text as it was. */
  lemma LegacyIgnoresPreviousClose(h: Host, ticker: string, q: Quote, v: Value)
    ensures LegacyRender(h, ticker, q) == LegacyRender(h, ticker, q.(previousClose := v))
  {
    var q' := q.(previousClose := v);
    forall l | l in LEGACY_ORDER
      ensures Shown(q, l) <==> Shown(q', l)
    {
      LegacyInOrder(l);
    }
    PresentFrame(q, q', LEGACY_ORDER);
    forall l | l in LegacyLines(q)
      ensures LineText(h, q, l) == LineText(h, q', l)
    {
      PresentIff(q, LEGACY_ORDER, l);
      LegacyInOrder(l);
    }
    BodyFrame(h, q, q', LegacyLines(q));
  }

  /** Zero, NaN, false and "" are printed as null would be. */
  lemma LegacyRenderIgnoresFalsy(h: Host, ticker: string, q: Quote)
    ensures LegacyRender(h, ticker, q) == LegacyRender(h, ticker, Normalize(q))
  {
    BodyUnderNormalize(h, q, LEGACY_ORDER);
  }

  /** With a falsy previous close the two handlers print the same callout. */
  lemma RenderAgrees(h: Host, ticker: string, q: Quote)
    requires !Truthy(q.previousClose)
    ensures StockInfo.Render(h, ticker, q) == LegacyRender(h, ticker, q)
  {
    LinesAgree(q);
  }

  /** Without a truthy previous close the newer handler's extra line is never
      kept, so both keep the same lines. */
  lemma LinesAgree(q: Quote)
    requires !Truthy(q.previousClose)
    ensures StockInfo.Lines(q) == LegacyLines(q)
  {
    var front, back := LEGACY_ORDER[..4], LEGACY_ORDER[4..];
    assert StockInfo.ORDER == front + ([PreviousCloseLine] + back);
    assert LEGACY_ORDER == front + back;
    PresentAppend(q, front, [PreviousCloseLine] + back);
    PresentAppend(q, [PreviousCloseLine], back);
    PresentAppend(q, front, back);
    assert Present(q, [PreviousCloseLine]) == [] by {
      assert [PreviousCloseLine][..0] == [];
    }
    assert Present(q, [PreviousCloseLine]) + Present(q, back) == Present(q, back);
  }

  /** Where the two handlers agree and where they part: the same notice for a
      provider error; the same text for a complete reply whose previous close is
      falsy; a missing reply is a notice in the newer handler and a throw in the
      older; missing price objects throw only in the newer handler. */
  lemma VariantsAgree(h: Host, ticker: string, reply: Option<Reply>)
    ensures reply.Some? && Truthy(reply.value.error) ==>
      LegacySubmit(h, ticker, reply) == StockInfo.Submit(h, ticker, reply)
    ensures (reply.Some? && !Truthy(reply.value.error) && Complete(reply.value)
      && !Truthy(reply.value.response.value.previousClose)) ==>
      LegacySubmit(h, ticker, reply) == StockInfo.Submit(h, ticker, reply)
    ensures reply.None? ==>
      StockInfo.Submit(h, ticker, reply).Warned? && LegacySubmit(h, ticker, reply).Threw?
    ensures (reply.Some? && !Truthy(reply.value.error) && LegacyComplete(reply.value)
      && !Complete(reply.value)) ==>
      StockInfo.Submit(h, ticker, reply).Threw? && LegacySubmit(h, ticker, reply).Replaced?
  {
    if reply.Some? && !Truthy(reply.value.error) && Complete(reply.value)
      && !Truthy(reply.value.response.value.previousClose)
    {
      var newer := StockInfo.Extracted(reply.value).value;
      var older := LegacyExtracted(reply.value).value;
      LegacyExtractionIsClean(reply.value);
      assert Normalize(newer) == Normalize(older);
      StockInfo.RenderIgnoresFalsy(h, ticker, newer);
      LegacyRenderIgnoresFalsy(h, ticker, older);
      assert !Truthy(Normalize(newer).previousClose);
      RenderAgrees(h, ticker, Normalize(newer));
    }
  }
}
