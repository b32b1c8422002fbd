# Stock information callout, modelled in Dafny

The Obsidian plugin "Get stock information" has one command, "Insert stock info".
It asks for a ticker and fetches a quote from the Yahoo provider. It then
replaces the editor selection with a collapsible callout: a header line holding
the ticker and, when the prices allow, a price parenthetical, followed by up to seven `> **Label:** value`
lines (six in the older version) and a small-font timestamp. If the provider
reports an error, it logs a diagnostic and shows a 15-second notice instead. The
newer version does the same when nothing comes back; the older one throws.

Two versions of the handler are modelled:

- the newer `src/main.ts`, in `stock_info.dfy`;
- the older `main.ts`, in `legacy_stock_info.dfy`.

They share these modules:

- `js.dfy`: the part of JavaScript value semantics the handler relies on. This
  covers undefined and null, numbers with NaN and the infinities, truthiness,
  `?? null`, `x ? x : null`, and the implicit ToNumber and ToString conversions.
- `long_number.dfy`: the market-cap formatter `formatLongNumber`.
- `stock.dfy`: the `stock` dictionary, its typed view as a quote record, and the
  loop that empties it.
- `provider.dfy`: the provider's reply as the handler reads it, and the three
  things a run of the handler can do to the host: replace the selection, show
  a notice, or throw.
- `callout.dfy`: the header prefix, the parentheticals, the body lines with the
  test guarding each one, and the body as the concatenation of the lines kept
  from a fixed order.

Each handler is written twice:

- **As imperative code.** `FillStock` fills the dictionary one key at a time.
  `BuildOutput` builds the text by successive appends. `OnSubmit` classifies the
  reply, fills, renders, replaces the selection and empties the dictionary.
- **As a reference function.** `Render` or `LegacyRender` is the header prefix,
  then the chosen parenthetical, then the kept body lines in order. `Submit` or
  `LegacySubmit` gives the effect of one run.

Each method is proved equal to its reference function. The properties are then
proved as lemmas about the reference functions.

Host behaviour whose output depends on floating-point digits, the locale or the
clock is not modelled. That covers `Number::toString`, string-to-number
conversion, `toFixed`, the spread arithmetic, `toLocaleString("en-US")` and
`String(new Date(v))`. All of these are fields of the record `Js.Host`, and
every definition takes that record as a parameter. So every fact proved holds
whatever those host functions return.

The model follows the code in the following cases:

- **Missing nested object.** Reading a property of a missing object inside the
  reply, such as `response.bid` being absent in the newer handler, raises a
  TypeError. The model returns `Threw` here: no replacement and no notice.
- **Null reply in the older handler.** Reading `.error` of a missing reply
  throws in the same way.
- **Trailing zeros.** The unary `+` applied to `toFixed`'s text drops trailing
  zeros, so 500,000,000 prints as `500M` rather than `500.000M`. The model
  writes this step out (`LongNumber.Rounded`), but cannot prove the digits.

## Model

| member | source | states |
|---|---|---|
| Js.Truthy | src/main.ts:92 | JavaScript truthiness, which every `if (stock.x)` test applies: undefined, null, false, 0, NaN and "" are falsy, everything else is truthy |
| Js.ToNumber | src/main.ts:100 | ToNumber, applied by `-`, `<` and `>=` to a field: undefined is NaN, null is 0, booleans are 1 and 0, strings go through the host's string-to-number |
| Js.ToString | src/main.ts:94-97 | ToString, applied by `"..." + v`: "undefined", "null", "true"/"false", the host's number text, or the string itself |
| LongNumber.Rounded | src/main.ts:24 | `+(x).toFixed(k)` placed in a string: the fixed-point text is read back as a number and printed again |
| Stock.Get | src/main.ts:92 | `stock.key` reads the stored value, and undefined for an absent key |
| Stock.QuoteOf | src/main.ts:91-142 | the twelve `stock.key` reads the builder makes, as one quote |
| Provider.Fields | src/main.ts:65-88 | the provider's own value behind each dictionary key: `name` and `currency` at the top level, the rest inside `response`, `bid.value`, `ask.value` and the two ranges' `high`/`low` |
| Callout.ParenText | src/main.ts:92-108 | the three parentheticals: `(Bid: b, Ask: a, Spread: s%)`, `(Previous close: p)`, or nothing |
| Callout.SpreadText | src/main.ts:99-102 | `(((ask - bid) / ask) * 100).toFixed(3)`, with the arithmetic left to the host |
| Callout.MarketCapText | src/main.ts:118-121 | `"..." + formatLongNumber(stock.marketCap)`: the formatter's text, or "undefined" when it falls off its end |
| Callout.Shown | src/main.ts:110-138 | the test guarding each body line: name; currency; volume; currency and market cap; bid, ask and previous close; both day-range ends; both 52-week ends; updated (main.ts:175-205 has the same tests without the previous-close line) |
| Callout.LineText | src/main.ts:110-142 | the text each line appends, label and value(s) as in the source; every one is non-empty and starts a new line |
| Callout.HeaderPrefix | src/main.ts:91 | `"> [!info]- " + ticker + " "`, the same at main.ts:161 |
| StockInfo.ParenFor | src/main.ts:92-108 | bid/ask/spread when both prices are truthy, else the previous close when it is truthy, else nothing |
| LegacyStockInfo.LegacyParenFor | main.ts:162-173 | bid/ask/spread when both prices are truthy, else nothing |
| Provider.Complete | src/main.ts:73-87 | the nested objects the newer handler dereferences: the response, its bid, ask, 52-week and day-range objects |
| LegacyStockInfo.LegacyComplete | main.ts:104-153 | the nested objects the older handler dereferences unconditionally: the response and its two range objects |
| Provider.Warn | src/main.ts:31-37 | `logError(msg)`: log `msg` and show "Error: couldn't retrieve stock information" for 15000 ms |
| StockInfo.Render | src/main.ts:91-142 | the newer callout: header prefix, the parenthetical `ParenFor` chooses, then the kept lines of the eight-line order |
| StockInfo.Submit | src/main.ts:55-156 | one run of the newer handler: the fixed notice logging "API did not respond" for no reply, the notice logging `message` for a provider error, a throw when a nested object is missing, otherwise the callout and two newlines |
| LegacyStockInfo.LegacyRender | main.ts:161-209 | the older callout: header prefix, the bid/ask parenthetical or nothing, then the kept lines of the seven-line order |
| LegacyStockInfo.LegacySubmit | main.ts:78-216 | one run of the older handler: a throw for no reply, the notice logging `message` for a provider error, a throw when the response or a range is missing, otherwise the callout and two newlines |
| Js.OrNull | src/main.ts:69-88 | `v ?? null` is null exactly for undefined and null, keeps every other value (0, NaN, false, "" included), never yields undefined, and preserves truthiness |
| Js.TruthyOrNull | main.ts:94-158 | `v ? v : null` keeps a truthy value, turns every falsy one into null, and preserves truthiness |
| Js.Quotient | src/main.ts:24-27 | `n / 1e6` (and 1e9, 1e12) is finite exactly when `n` is, multiplies back to `n`, and leaves NaN and the infinities as they are |
| LongNumber.FormatLongNumber | src/main.ts:23-28 | no result (the function falls off its end) exactly for NaN; otherwise a non-empty text ending in M exactly below 1e9, in B exactly in [1e9, 1e12), in T exactly from 1e12, equal to the value scaled to its tier, rounded to 3, 3 or 1 decimals by `+toFixed`, then the tier letter; main.ts:22-27 is the same function |
| Callout.MarketCapUndefinedIff | src/main.ts:118-121 | the market-cap text is "undefined" exactly when the field does not convert to a number, and never for a truthy number |
| Stock.ReadBack | src/main.ts:69-88 | the dictionary written with all twelve keys reads back as the quote that filled it, and holds exactly the twelve keys |
| Stock.DeleteAll | src/main.ts:146 | `for (const r in stock) delete stock[r]` leaves the dictionary empty; main.ts:213 is the same loop |
| StockInfo.Classify | src/main.ts:63-64 | no reply is NoResponse; a reply with a truthy `error` is ProviderError with that reply's `message`; anything else is Success with the reply itself |
| StockInfo.Extracted | src/main.ts:69-88 | a quote exists exactly when the response and its bid, ask, 52-week and day-range objects are all present; it has no undefined field and normalises to the provider's own values |
| StockInfo.FillStock | src/main.ts:60-88 | faults exactly when the extraction fails; otherwise the dictionary holds, key by key, the extracted quote |
| StockInfo.BuildHeader | src/main.ts:91-108 | the header is the prefix with the ticker, then the bid/ask/spread, the previous-close or no parenthetical |
| StockInfo.BuildOutput | src/main.ts:91-142 | the successive appends produce the reference rendering of the quote the dictionary holds |
| Callout.AppendIf | src/main.ts:110-142 | one guarded append extends the run of guarded appends by one line |
| Callout.AppendedIsBody | src/main.ts:110-142 | a run of guarded appends leaves the start text followed by the texts of exactly the lines whose test passed, in order |
| StockInfo.OnSubmit | src/main.ts:55-156 | the effect of one run is the reference effect, and whenever the handler returns normally the dictionary is empty |
| StockInfo.LineShownIff | src/main.ts:110-142 | a body line is rendered exactly when its test passes |
| StockInfo.LinesInOrder | src/main.ts:110-142 | the rendered lines come in the order Name, Currency, Volume, Market cap, Previous close, Day range, 52W range, timestamp, each at most once |
| StockInfo.ConditionalLines | src/main.ts:118-137 | the market-cap line needs currency and market cap, each range line both its ends, the previous-close line both prices and the close |
| StockInfo.HeaderParenthetical | src/main.ts:91-108 | the text starts with the header prefix; what follows opens with "(Bid: " exactly when both prices are truthy, with "(Previous close: " exactly when they are not and the close is, and is otherwise the body alone (empty or starting a new line) |
| StockInfo.RenderSplits | src/main.ts:91 | the rendering minus the header prefix is the parenthetical followed by the body |
| StockInfo.OpensWith | src/main.ts:92-108 | for any body that is empty or starts a new line, the three openings of the text after the prefix match the three parenthetical cases |
| Callout.OpensWithBidAsk | src/main.ts:93-103 | the bid/ask parenthetical opens with "(Bid: " and not with "(Previous close: " or a new line |
| Callout.OpensWithPreviousClose | src/main.ts:104-108 | the previous-close parenthetical opens with "(Previous close: " and not with "(Bid: " or a new line |
| StockInfo.PreviousCloseOnce | src/main.ts:104-125 | a truthy previous close is printed exactly once, in the header or as a body line and never both; a falsy one is printed nowhere |
| StockInfo.RenderIgnoresFalsy | src/main.ts:69-142 | keeping 0, NaN, false or "" through `?? null` prints the same text as replacing them with null |
| StockInfo.ReplacementOnlyOnSuccess | src/main.ts:63-156 | the selection is replaced exactly for a reply with a falsy error and all nested objects present, by a text that starts with the header prefix and ends in two newlines; a notice is shown exactly for a provider error or a missing reply, always with the same text and a 15000 ms duration |
| Callout.PresentIff | src/main.ts:110-142 | a line is kept from an order exactly when it is in the order and its test passes |
| Callout.PresentOrdered | src/main.ts:110-142 | keeping lines from a strictly ordered sequence leaves them strictly ordered |
| Callout.PresentAppend | src/main.ts:110-142 | the lines kept from two concatenated orders are those kept from each, concatenated |
| Callout.PresentFrame | src/main.ts:110-142 | the kept lines depend only on the outcomes of the tests |
| Callout.BodyFrame | src/main.ts:110-142 | the body depends only on the texts of its lines |
| Callout.BodyStartsWithNewline | src/main.ts:110-142 | a body is empty or starts a new line, and is non-empty when it has a line |
| Callout.ShownUnderNormalize | src/main.ts:110-142 | whether a line is shown, and the text of a shown line, are the same for a quote and its normal form |
| Callout.BodyUnderNormalize | src/main.ts:110-142 | the kept lines, and the body made of them, are the same for a quote and its normal form |
| Stock.NormalizeIdempotent | main.ts:94-158 | normalising twice is normalising once, and a normal form keeps no falsy value other than null (no field is undefined) |
| LegacyStockInfo.PriceOrAbsent | main.ts:104-113 | a missing price object leaves its key unset (undefined); a present one gives its value coalesced by truthiness |
| LegacyStockInfo.LegacyExtracted | main.ts:94-158 | a quote exists exactly when the response, its 52-week and day-range objects are present (missing bid or ask objects do not throw); bid and ask are undefined exactly when their object is missing |
| LegacyStockInfo.LegacyExtractionIsClean | main.ts:94-158 | the extracted quote keeps no falsy value other than null and undefined, and normalises to the provider's own values |
| LegacyStockInfo.PriceNormalizes | main.ts:104-113 | a price field's stored value is clean and normalises like the provider's |
| LegacyStockInfo.LegacyFillStock | main.ts:40-158 | faults exactly when the extraction fails; otherwise the dictionary reads back as the extracted quote and holds the bid and ask keys exactly when their objects are present |
| LegacyStockInfo.LegacyBuildHeader | main.ts:161-173 | the header is the prefix with the ticker, then the bid/ask/spread parenthetical or nothing |
| LegacyStockInfo.LegacyBuildOutput | main.ts:161-209 | the successive appends produce the older reference rendering of the quote the dictionary holds |
| LegacyStockInfo.LegacyOnSubmit | main.ts:78-216 | the effect of one run is the older reference effect (a missing reply throws, an error shows the notice), and whenever the handler returns normally the dictionary is empty |
| LegacyStockInfo.LegacyInOrder | main.ts:175-209 | every line except the previous-close line is appended by the older handler |
| LegacyStockInfo.LegacyLineShownIff | main.ts:175-209 | a body line is rendered exactly when it is not the previous-close line and its test passes |
| LegacyStockInfo.LegacyLinesInOrder | main.ts:175-209 | the rendered lines come in the order Name, Currency, Volume, Market cap, Day range, 52W range, timestamp, each at most once |
| LegacyStockInfo.LegacyHeaderHasNoFallback | main.ts:161-173 | the text starts with the header prefix; what follows opens with "(Bid: " exactly when both prices are truthy, never with "(Previous close: ", and is otherwise the body alone |
| LegacyStockInfo.LegacyIgnoresPreviousClose | main.ts:161-209 | changing the previous close never changes the older rendering |
| LegacyStockInfo.LegacyRenderIgnoresFalsy | main.ts:94-209 | the older rendering of a quote equals that of its normal form |
| LegacyStockInfo.LinesAgree | main.ts:175-209 | with a falsy previous close both handlers keep the same body lines |
| LegacyStockInfo.RenderAgrees | main.ts:161-209 | with a falsy previous close both handlers print the same callout |
| LegacyStockInfo.VariantsAgree | main.ts:83-216 | both handlers show the same notice for a provider error and print the same text for a complete reply with a falsy previous close; a missing reply shows a notice in the newer handler and throws in the older; a reply missing only price objects throws in the newer handler and renders in the older |

## Left out

- `modal.ts`, the ticker prompt, is not part of this model. The handler receives the ticker as a parameter.
- The call to `yahoo.getSymbol`, `async`/`await` and the `try` around it in `callCurrentPrices` are left out. The reply is a parameter: `None` for an undefined reply, `Some` for an object.
- `console.error` and `Notice` are not performed. The returned `Effect` records the value passed to `console.error` (`Warned.logged`), the notice text and the notice duration.
- `console.log(currentStockInfo)` at main.ts:81 runs on every run of the older handler. No `Effect` records it.
- The `catch` in `callCurrentPrices` (src/main.ts:45-51, main.ts:68-74) is not modelled. Because the promise is returned without being awaited, it only catches a synchronous throw from `getSymbol`.
- Floating-point digits are left unspecified. This covers `toFixed`, `toLocaleString("en-US")`, Date stringification, the spread arithmetic `((ask - bid) / ask) * 100`, `Number::toString` and string-to-number conversion. All are fields of `Js.Host`, so no digit string, rounding or thousands separator is proved.
- Js.Quotient: division is modelled as exact real division, rounded only through `Host.toFixed`. IEEE double rounding of the quotient is therefore not represented.
- LongNumber.FormatLongNumber: 500,000,000 prints as `500M`, not `500.000M`, because the unary `+` re-reads `toFixed`'s text. The model writes these steps out but cannot state the digits.
- `isToday` (main.ts:30-37) is left out. It is defined but never called.
- The commented-out code is left out: the historical-prices call and its log line (main.ts:42-61, 80), and the day-change parenthetical (main.ts:176-182).
- The loop deleting the provider reply's own properties (main.ts:214-215) is left out. The reply is never read after it.
- StockInfo.OnSubmit, LegacyStockInfo.LegacyOnSubmit: on the `Threw` path they state nothing about the dictionary, which the source leaves partly filled when a TypeError interrupts the filling.
- Dictionary keys are the enumeration `Stock.Key`, one constructor per property name the handlers write, rather than arbitrary strings.
- The static type annotations have no effect at run time and are left out: `as getSymbolResponse`, `as string` and the dictionary's declared value type.
