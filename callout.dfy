/** The pieces of the rendered callout shared by both handlers: the header prefix,
    the three header parentheticals, the eight body lines and the condition under
    which each is printed, and the body as the concatenation of the lines kept
    from a fixed order. */
module Callout {
  import opened Js
  import opened LongNumber
  import opened Stock

  function HeaderPrefix(ticker: string): string {
    "> [!info]- " + ticker + " "
  }

  datatype Parenthetical = BidAskSpread | PreviousCloseOnly | Bare

  /** The spread percentage, `(((ask - bid) / ask) * 100).toFixed(3)`. */
  function SpreadText(h: Host, q: Quote): string {
    h.toFixed(h.spreadPercent(ToNumber(h, q.bid), ToNumber(h, q.ask)), 3)
  }

  function ParenText(h: Host, q: Quote, p: Parenthetical): string {
    match p
    case BidAskSpread =>
      "(Bid: " + ToString(h, q.bid) + ", Ask: " + ToString(h, q.ask)
      + ", Spread: " + SpreadText(h, q) + "%)"
    case PreviousCloseOnly => "(Previous close: " + ToString(h, q.previousClose) + ")"
    case Bare => ""
  }

  datatype Line =
    | NameLine | CurrencyLine | VolumeLine | MarketCapLine
    | PreviousCloseLine | DayRangeLine | FiftyTwoWeekLine | UpdatedLine

  /** Position of each line in the order the newer handler appends them. */
  function Rank(l: Line): nat {
    match l
    case NameLine => 0
    case CurrencyLine => 1
    case VolumeLine => 2
    case MarketCapLine => 3
    case PreviousCloseLine => 4
    case DayRangeLine => 5
    case FiftyTwoWeekLine => 6
    case UpdatedLine => 7
  }

  /** Strictly increasing in rank, hence also free of repetitions. */
  predicate Ordered(ls: seq<Line>) {
    forall i, j :: 0 <= i < j < |ls| ==> Rank(ls[i]) < Rank(ls[j])
  }

  /** `"..." + formatLongNumber(v)`; an undefined result prints as "undefined". */
  function MarketCapText(h: Host, v: Value): string {
    match FormatLongNumber(h, ToNumber(h, v))
    case Some(s) => s
    case None => "undefined"
  }

  /** The market-cap text reads "undefined" exactly when the field does not
      convert to a number, which a truthy number never fails to do. */
  lemma MarketCapUndefinedIff(h: Host, v: Value)
    ensures MarketCapText(h, v) == "undefined" <==> ToNumber(h, v).NaN?
    ensures v.Num? && Truthy(v) ==> MarketCapText(h, v) != "undefined"
  {
  }

  /** The text each line appends; every one starts a new line. */
  function LineText(h: Host, q: Quote, l: Line): (r: string)
    ensures |r| > 0 && r[0] == '\n'
  {
    match l
    case NameLine => "\n> **Name:** " + ToString(h, q.name)
    case CurrencyLine => "\n> **Currency:** " + ToString(h, q.currency)
    case VolumeLine => "\n> **Volume:** " + h.toLocaleString(q.volume)
    case MarketCapLine => "\n> **Market cap:** " + MarketCapText(h, q.marketCap)
    case PreviousCloseLine => "\n> **Previous close:** " + ToString(h, q.previousClose)
    case DayRangeLine =>
      "\n> **Day range:** " + ToString(h, q.dayRangeLow) + " – " + ToString(h, q.dayRangeHigh)
    case FiftyTwoWeekLine =>
      "\n> **52W range:** " + ToString(h, q.fiftyTwoLow) + " – " + ToString(h, q.fiftyTwoHigh)
    case UpdatedLine => "\n>\n><small>*" + h.dateToString(q.updated) + "*</small>"
  }

  /** The test guarding each line. */
  predicate Shown(q: Quote, l: Line) {
    match l
    case NameLine => Truthy(q.name)
    case CurrencyLine => Truthy(q.currency)
    case VolumeLine => Truthy(q.volume)
    case MarketCapLine => Truthy(q.currency) && Truthy(q.marketCap)
    case PreviousCloseLine => Truthy(q.bid) && Truthy(q.ask) && Truthy(q.previousClose)
    case DayRangeLine => Truthy(q.dayRangeLow) && Truthy(q.dayRangeHigh)
    case FiftyTwoWeekLine => Truthy(q.fiftyTwoLow) && Truthy(q.fiftyTwoHigh)
    case UpdatedLine => Truthy(q.updated)
  }

  function Keep(q: Quote, l: Line): seq<Line> {
    if Shown(q, l) then [l] else []
  }

  /** The lines of `order` whose test passes, in the order given. */
  function Present(q: Quote, order: seq<Line>): seq<Line> {
    if order == [] then []
    else Present(q, order[..|order| - 1]) + Keep(q, order[|order| - 1])
  }

  /** The texts of `ls`, one after the other. */
  function Body(h: Host, q: Quote, ls: seq<Line>): string {
    if ls == [] then ""
    else Body(h, q, ls[..|ls| - 1]) + LineText(h, q, ls[|ls| - 1])
  }

  /** What a run of guarded appends produces from `start`: for each line of
      `ls` in turn, its text is appended when its test passes. */
  function Appended(h: Host, q: Quote, start: string, ls: seq<Line>): string {
    if ls == [] then start
    else
      var before := Appended(h, q, start, ls[..|ls| - 1]);
      var l := ls[|ls| - 1];
      if Shown(q, l) then before + LineText(h, q, l) else before
  }

  lemma SeqAssoc(a: string, b: string, c: string)
    ensures a + (b + c) == a + b + c
  {
  }

  /** Dropping the prefix `a` from `a + b + c` leaves `b + c`. */
  lemma AfterPrefix(a: string, b: string, c: string)
    ensures a <= a + b + c && (a + b + c)[|a|..] == b + c
  {
  }

  /** Guarded appends leave `start` followed by the body of the kept lines. */
  lemma {:induction false} AppendedIsBody(h: Host, q: Quote, start: string, ls: seq<Line>)
    ensures Appended(h, q, start, ls) == start + Body(h, q, Present(q, ls))
  {
    if ls == [] {
      assert start + [] == start;
    } else {
      var init, l := ls[..|ls| - 1], ls[|ls| - 1];
      AppendedIsBody(h, q, start, init);
      var p := Present(q, init);
      if Shown(q, l) {
        assert (p + [l])[..|p|] == p;
        var b, t := Body(h, q, p), LineText(h, q, l);
        SeqAssoc(start, b, t);
      } else {
        assert p + [] == p;
      }
    }
  }

  lemma {:induction false} PresentIff(q: Quote, order: seq<Line>, l: Line)
    ensures l in Present(q, order) <==> l in order && Shown(q, l)
  {
    if order != [] {
      var init, last := order[..|order| - 1], order[|order| - 1];
      assert order == init + [last];
      PresentIff(q, init, l);
    }
  }

  lemma {:induction false} PresentOrdered(q: Quote, order: seq<Line>)
    requires Ordered(order)
    ensures Ordered(Present(q, order))
  {
    if order != [] {
      var init, last := order[..|order| - 1], order[|order| - 1];
      assert Ordered(init);
      PresentOrdered(q, init);
      var p := Present(q, init);
      forall i | 0 <= i < |p|
        ensures Rank(p[i]) < Rank(last)
      {
        PresentIff(q, init, p[i]);
        var k :| 0 <= k < |init| && init[k] == p[i];
        assert order[k] == p[i];
      }
    }
  }

  lemma {:induction false} PresentAppend(q: Quote, a: seq<Line>, b: seq<Line>)
    ensures Present(q, a + b) == Present(q, a) + Present(q, b)
  {
    if b == [] {
      assert a + b == a;
    } else {
      var init, last := b[..|b| - 1], b[|b| - 1];
      assert (a + b)[..|a + b| - 1] == a + init;
      assert (a + b)[|a + b| - 1] == last;
      PresentAppend(q, a, init);
    }
  }

  /** The kept lines depend only on the tests' outcomes. */
  lemma {:induction false} PresentFrame(q: Quote, q': Quote, order: seq<Line>)
    requires forall l :: l in order ==> (Shown(q, l) <==> Shown(q', l))
    ensures Present(q, order) == Present(q', order)
  {
    if order != [] {
      var init, last := order[..|order| - 1], order[|order| - 1];
      assert order == init + [last];
      PresentFrame(q, q', init);
    }
  }

  /** The body depends only on the texts of the lines it is made of. */
  lemma {:induction false} BodyFrame(h: Host, q: Quote, q': Quote, ls: seq<Line>)
    requires forall l :: l in ls ==> LineText(h, q, l) == LineText(h, q', l)
    ensures Body(h, q, ls) == Body(h, q', ls)
  {
    if ls != [] {
      var init, last := ls[..|ls| - 1], ls[|ls| - 1];
      assert ls == init + [last];
      BodyFrame(h, q, q', init);
    }
  }

  lemma {:induction false} BodyStartsWithNewline(h: Host, q: Quote, ls: seq<Line>)
    ensures Body(h, q, ls) == [] || Body(h, q, ls)[0] == '\n'
    ensures ls != [] ==> |Body(h, q, ls)| > 0
  {
    if ls != [] {
      BodyStartsWithNewline(h, q, ls[..|ls| - 1]);
    }
  }

  /** Normalising a quote changes neither which lines are shown nor the text of
      a shown line, since a shown line prints only fields its test found truthy. */
  lemma ShownUnderNormalize(h: Host, q: Quote, l: Line)
    ensures Shown(q, l) <==> Shown(Normalize(q), l)
    ensures Shown(q, l) ==> LineText(h, q, l) == LineText(h, Normalize(q), l)
  {
  }

  /** The lines kept from any order, and the body made of them, are the same for
      a quote and for its normal form. */
  lemma BodyUnderNormalize(h: Host, q: Quote, order: seq<Line>)
    ensures Present(q, order) == Present(Normalize(q), order)
    ensures Body(h, q, Present(q, order)) == Body(h, Normalize(q), Present(q, order))
  {
    forall l | l in order
      ensures Shown(q, l) <==> Shown(Normalize(q), l)
    {
      ShownUnderNormalize(h, q, l);
    }
    PresentFrame(q, Normalize(q), order);
    forall l | l in Present(q, order)
      ensures LineText(h, q, l) == LineText(h, Normalize(q), l)
    {
      PresentIff(q, order, l);
      ShownUnderNormalize(h, q, l);
    }
    BodyFrame(h, q, Normalize(q), Present(q, order));
  }

  /** One `if (test) output += text` of a handler: the text of line `l` is
      appended when its test passes, after the run of guarded appends over the
      lines before it. */
  method AppendIf(h: Host, q: Quote, ghost start: string, ghost done: seq<Line>,
                  output: string, l: Line) returns (r: string)
    requires output == Appended(h, q, start, done)
    ensures r == Appended(h, q, start, done + [l])
  {
    assert (done + [l])[..|done|] == done;
    if Shown(q, l) {
      r := output + LineText(h, q, l);
    } else {
      r := output;
    }
  }

  /** The bid/ask parenthetical opens with "(Bid: ", whatever follows it. */
  lemma OpensWithBidAsk(h: Host, q: Quote, body: string)
    ensures var rest := ParenText(h, q, BidAskSpread) + body;
      "(Bid: " <= rest && !("(Previous close: " <= rest) && rest != [] && rest[0] != '\n'
  {
    var rest := ParenText(h, q, BidAskSpread) + body;
    assert rest[..6] == "(Bid: ";
    assert rest[1] == 'B';
  }

  /** The previous-close parenthetical opens with "(Previous close: ". */
  lemma OpensWithPreviousClose(h: Host, q: Quote, body: string)
    ensures var rest := ParenText(h, q, PreviousCloseOnly) + body;
      !("(Bid: " <= rest) && "(Previous close: " <= rest && rest != [] && rest[0] != '\n'
  {
    var rest := ParenText(h, q, PreviousCloseOnly) + body;
    assert rest[..17] == "(Previous close: ";
    assert rest[1] == 'P';
  }
}
