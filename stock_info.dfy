/** The "Insert stock info" handler of src/main.ts: classify the provider's
    reply, copy its fields into `stock` with `?? null`, build the callout with
    successive appends, replace the selection, and empty `stock`. */
module StockInfo {
  import opened Js
  import opened Stock
  import opened Provider
  import opened Callout

  /** The order in which the handler appends body lines. */
  const ORDER: seq<Line> := [NameLine, CurrencyLine, VolumeLine, MarketCapLine,
    PreviousCloseLine, DayRangeLine, FiftyTwoWeekLine, UpdatedLine]

  /** Bid/ask/spread when both prices are truthy, else the previous close when
      truthy, else nothing. */
  function ParenFor(q: Quote): Parenthetical {
    if Truthy(q.bid) && Truthy(q.ask) then BidAskSpread
    else if Truthy(q.previousClose) then PreviousCloseOnly
    else Bare
  }

  function Lines(q: Quote): seq<Line> {
    Present(q, ORDER)
  }

  /** Reference rendering: header, parenthetical, then the shown lines of ORDER. */
  function Render(h: Host, ticker: string, q: Quote): string {
    HeaderPrefix(ticker) + ParenText(h, q, ParenFor(q)) + Body(h, q, Lines(q))
  }

  /** src/main.ts lines 63-64: a falsy reply is no response; a reply with a truthy `error`
      is a provider error carrying its `message`; anything else is a success. */
  function Classify(reply: Option<Reply>): (r: Outcome)
    ensures r.NoResponse? <==> reply.None?
    ensures r.ProviderError? <==> reply.Some? && Truthy(reply.value.error)
    ensures r.ProviderError? ==> r.message == reply.value.message
    ensures r.Success? ==> reply == Some(r.reply)
  {
    match reply
    case None => NoResponse
    case Some(rep) => if Truthy(rep.error) then ProviderError(rep.message) else Success(rep)
  }

  /** The quote that src/main.ts lines 69-88 leave in `stock`, or `None` when one of those
      lines throws because `response`, `bid`, `ask`, `fiftyTwoWeekRange` or
      `dayRange` is missing. */
  function Extracted(reply: Reply): (r: Option<Quote>)
    ensures r.Some? <==> Complete(reply)
    ensures r.Some? ==> Defined(r.value) && Normalize(r.value) == Normalize(Fields(reply))
  {
    if Complete(reply) then Some(MapFields(Fields(reply), OrNull)) else None
  }

  /** Reference for one run of the handler on the provider's reply. */
  function Submit(h: Host, ticker: string, reply: Option<Reply>): Effect {
    match Classify(reply)
    case NoResponse => Warn(Text("API did not respond"))
    case ProviderError(message) => Warn(message)
    case Success(rep) =>
      match Extracted(rep)
      case None => Threw
      case Some(q) => Replaced(Render(h, ticker, q) + "\n\n")
  }

  /** src/main.ts lines 60 and 69-88: `stock` starts empty and is filled one key at a time;
      `fault` reports the TypeError, raised at the first absent nested object. */
  method FillStock(reply: Reply) returns (stock: map<Key, Value>, fault: bool)
    ensures fault <==> Extracted(reply).None?
    ensures !fault ==> stock == StockOf(Extracted(reply).value)
  {
    stock := map[];
    stock := stock[NameKey := OrNull(reply.name)];
    stock := stock[CurrencyKey := OrNull(reply.currency)];
    if reply.response.None? || reply.response.value.bid.None? {
      return stock, true;
    }
    var info := reply.response.value;
    stock := stock[BidKey := OrNull(info.bid.value.value)];
    if info.ask.None? {
      return stock, true;
    }
    stock := stock[AskKey := OrNull(info.ask.value.value)];
    stock := stock[MarketCapKey := OrNull(info.marketCap)];
    stock := stock[PreviousCloseKey := OrNull(info.previousClose)];
    stock := stock[VolumeKey := OrNull(info.volume)];
    if info.fiftyTwoWeekRange.None? {
      return stock, true;
    }
    stock := stock[FiftyTwoHighKey := OrNull(info.fiftyTwoWeekRange.value.high)];
    stock := stock[FiftyTwoLowKey := OrNull(info.fiftyTwoWeekRange.value.low)];
    if info.dayRange.None? {
      return stock, true;
    }
    stock := stock[DayRangeHighKey := OrNull(info.dayRange.value.high)];
    stock := stock[DayRangeLowKey := OrNull(info.dayRange.value.low)];
    stock := stock[UpdatedKey := OrNull(info.updated)];
    fault := false;
  }

  /** src/main.ts lines 91-108: the header line, opened with the ticker and followed by the
      parenthetical the prices call for. */
  method BuildHeader(h: Host, ticker: string, q: Quote) returns (output: string)
    ensures output == HeaderPrefix(ticker) + ParenText(h, q, ParenFor(q))
  {
    output := "> [!info]- " + ticker + " ";
    if Truthy(q.bid) && Truthy(q.ask) {
      output := output + ParenText(h, q, BidAskSpread);
    } else if Truthy(q.previousClose) {
      output := output + ParenText(h, q, PreviousCloseOnly);
    } else {
      assert output + ParenText(h, q, Bare) == output;
    }
  }

  /** src/main.ts lines 91-142: the callout built by `output +=` under the source's tests. */
  method BuildOutput(h: Host, ticker: string, stock: map<Key, Value>) returns (output: string)
    ensures output == Render(h, ticker, QuoteOf(stock))
  {
    var q := QuoteOf(stock);
    output := BuildHeader(h, ticker, q);
    ghost var header := output;
    // `done` is the prefix of ORDER whose tests have been made. It is chosen with
    // `:|` rather than assigned `[]` so that it is not a literal: the verifier
    // would otherwise unfold every `Appended` term over it in full.
    ghost var done: seq<Line> :| done == [];
    output := AppendIf(h, q, header, done, output, NameLine);
    done := done + [NameLine];
    output := AppendIf(h, q, header, done, output, CurrencyLine);
    done := done + [CurrencyLine];
    output := AppendIf(h, q, header, done, output, VolumeLine);
    done := done + [VolumeLine];
    output := AppendIf(h, q, header, done, output, MarketCapLine);
    done := done + [MarketCapLine];
    output := AppendIf(h, q, header, done, output, PreviousCloseLine);
    done := done + [PreviousCloseLine];
    output := AppendIf(h, q, header, done, output, DayRangeLine);
    done := done + [DayRangeLine];
    output := AppendIf(h, q, header, done, output, FiftyTwoWeekLine);
    done := done + [FiftyTwoWeekLine];
    output := AppendIf(h, q, header, done, output, UpdatedLine);
    done := done + [UpdatedLine];
    assert done == ORDER;
    AppendedIsBody(h, q, header, ORDER);
  }

  /** src/main.ts lines 55-156. The out-parameter `stock` is the handler's dictionary when
      the handler returns. */
  method OnSubmit(h: Host, ticker: string, reply: Option<Reply>)
    returns (effect: Effect, stock: map<Key, Value>)
    ensures effect == Submit(h, ticker, reply)
    ensures !effect.Threw? ==> stock == map[]
  {
    stock := map[];
    if reply.Some? {
      if !Truthy(reply.value.error) {
        var fault;
        stock, fault := FillStock(reply.value);
        if fault {
          return Threw, stock;
        }
        ReadBack(Extracted(reply.value).value);
        var output := BuildOutput(h, ticker, stock);
        effect := Replaced(output + "\n\n");
        stock := DeleteAll(stock);
      } else {
        effect := Warn(reply.value.message);
      }
    } else {
      effect := Warn(Text("API did not respond"));
    }
  }

  /** Every line comes from ORDER. */
  lemma InOrder(l: Line)
    ensures l in ORDER
  {
  }

  /** A body line is rendered exactly when its test passes. */
  lemma LineShownIff(q: Quote, l: Line)
    ensures l in Lines(q) <==> Shown(q, l)
  {
    InOrder(l);
    PresentIff(q, ORDER, l);
  }

  /** The body lines come in the fixed order Name, Currency, Volume, Market cap,
      Previous close, Day range, 52W range, timestamp, each at most once. */
  lemma LinesInOrder(q: Quote)
    ensures Ordered(Lines(q))
  {
    assert Ordered(ORDER);
    PresentOrdered(q, ORDER);
  }

  /** The market-cap line needs both currency and market cap, each range line
      both its ends, and the previous-close line both prices and the close. */
  lemma ConditionalLines(q: Quote)
    ensures MarketCapLine in Lines(q) <==> Truthy(q.currency) && Truthy(q.marketCap)
    ensures DayRangeLine in Lines(q) <==> Truthy(q.dayRangeLow) && Truthy(q.dayRangeHigh)
    ensures FiftyTwoWeekLine in Lines(q) <==> Truthy(q.fiftyTwoLow) && Truthy(q.fiftyTwoHigh)
    ensures PreviousCloseLine in Lines(q) <==>
      Truthy(q.bid) && Truthy(q.ask) && Truthy(q.previousClose)
  {
    LineShownIff(q, MarketCapLine);
    LineShownIff(q, DayRangeLine);
    LineShownIff(q, FiftyTwoWeekLine);
    LineShownIff(q, PreviousCloseLine);
  }

  /** The text always starts with the header prefix built from the ticker as
      given; what follows it opens with "(Bid: " exactly when both prices are
      truthy, with "(Previous close: " exactly when they are not but the close
      is, and is otherwise the bare body, empty or starting a new line. */
  lemma HeaderParenthetical(h: Host, ticker: string, q: Quote)
    ensures HeaderPrefix(ticker) <= Render(h, ticker, q)
    ensures var rest := Render(h, ticker, q)[|HeaderPrefix(ticker)|..];
      && ("(Bid: " <= rest <==> Truthy(q.bid) && Truthy(q.ask))
      && ("(Previous close: " <= rest <==>
           !(Truthy(q.bid) && Truthy(q.ask)) && Truthy(q.previousClose))
      && ((rest == [] || rest[0] == '\n') <==>
           !(Truthy(q.bid) && Truthy(q.ask)) && !Truthy(q.previousClose))
  {
    RenderSplits(h, ticker, q);
    BodyStartsWithNewline(h, q, Lines(q));
    OpensWith(h, q, Body(h, q, Lines(q)));
  }

  lemma RenderSplits(h: Host, ticker: string, q: Quote)
    ensures HeaderPrefix(ticker) <= Render(h, ticker, q)
    ensures Render(h, ticker, q)[|HeaderPrefix(ticker)|..]
      == ParenText(h, q, ParenFor(q)) + Body(h, q, Lines(q))
  {
    AfterPrefix(HeaderPrefix(ticker), ParenText(h, q, ParenFor(q)), Body(h, q, Lines(q)));
  }

  /** What follows the header prefix, for any body that is empty or starts a
      new line. */
  lemma OpensWith(h: Host, q: Quote, body: string)
    requires body == [] || body[0] == '\n'
    ensures var rest := ParenText(h, q, ParenFor(q)) + body;
      && ("(Bid: " <= rest <==> Truthy(q.bid) && Truthy(q.ask))
      && ("(Previous close: " <= rest <==>
           !(Truthy(q.bid) && Truthy(q.ask)) && Truthy(q.previousClose))
      && ((rest == [] || rest[0] == '\n') <==>
           !(Truthy(q.bid) && Truthy(q.ask)) && !Truthy(q.previousClose))
  {
    match ParenFor(q)
    case BidAskSpread => OpensWithBidAsk(h, q, body);
    case PreviousCloseOnly => OpensWithPreviousClose(h, q, body);
    case Bare => assert ParenText(h, q, Bare) + body == body;
  }

  /** A truthy previous close is printed exactly once, in the header when the
      bid/ask parenthetical is not shown and as a body line when it is; a falsy
      one is printed nowhere. */
  lemma PreviousCloseOnce(q: Quote)
    ensures Truthy(q.previousClose) ==>
      ((ParenFor(q) == PreviousCloseOnly) != (PreviousCloseLine in Lines(q)))
    ensures !Truthy(q.previousClose) ==>
      ParenFor(q) != PreviousCloseOnly && PreviousCloseLine !in Lines(q)
  {
    LineShownIff(q, PreviousCloseLine);
  }

  /** Zero, NaN, false and "" kept by `?? null` print exactly as null would:
      rendering a quote and rendering its normal form give the same text. */
  lemma RenderIgnoresFalsy(h: Host, ticker: string, q: Quote)
    ensures Render(h, ticker, q) == Render(h, ticker, Normalize(q))
  {
    BodyUnderNormalize(h, q, ORDER);
  }

  /** The selection is replaced only after a non-null reply with a falsy error
      whose nested objects are all present, by the rendered callout and two
      newlines; a provider error or a missing reply shows the one fixed notice. */
  lemma ReplacementOnlyOnSuccess(h: Host, ticker: string, reply: Option<Reply>)
    ensures Submit(h, ticker, reply).Replaced? <==>
      reply.Some? && !Truthy(reply.value.error) && Complete(reply.value)
    ensures Submit(h, ticker, reply).Warned? <==> !Classify(reply).Success?
    ensures Submit(h, ticker, reply).Warned? ==>
      Submit(h, ticker, reply).notice == NOTICE_TEXT &&
      Submit(h, ticker, reply).durationMs == NOTICE_DURATION_MS
    ensures Submit(h, ticker, reply).Replaced? ==>
      var text := Submit(h, ticker, reply).text;
      && HeaderPrefix(ticker) <= text
      && |text| >= 2 && text[|text| - 2..] == "\n\n"
  {
  }
}
