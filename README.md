# hiram-dashboard: symbol search, pricer form and pricing request models in Dafny

This project models three pieces of the hiram-dashboard repository and proves what they promise.

- **Symbol search** (`frontend/src/pages/Stock/Stock.tsx`). The stock page turns the symbol
  records from the server into select options (`value` = symbol, label = `symbol - security name`).
  It filters them with `optionsFilter`. That filter lower-cases and trims the search and each label,
  cuts both at single spaces, and keeps an option when every search token is included in some
  label token. Modules `Text` (the JavaScript string operations) and `StockSearch`.
- **Pricer form and page state** (`frontend/src/pages/Pricer/Pricer.tsx`). The form record has
  defaults and four validators. A preset table is copied into the form when a stock is chosen.
  The page holds the last pricing result and a request error message. Module `PricerForm` holds
  the pure parts. Module `PricerPage` holds the class `Pricer`, whose methods are the page's
  handlers. The outcome of the pricing request is an input.
- **Pricing request models** (`backend/app/pricer/model.py`). The two enumerations, and the
  validation of a request body into a `MarketDataRequest` or an `OptionPricingRequest`. The
  validation either succeeds with the typed request or fails with every field error. Module
  `PricerModel`.

The stock page as written only loads, lists and filters symbols. Its Run button has no handler
(`frontend/src/pages/Stock/Stock.tsx:59-61`). So there is no analysis state machine, watch-list,
indicator classification, time-horizon window or stale-response check in the code, and the model
has none.

Files: `wrappers.dfy` (Option, Result), `text.dfy`, `stock_search.dfy`, `pricer_form.dfy`,
`pricer_page.dfy`, `pricer_model.dfy`.

## Model

| member | source | states |
|---|---|---|
| `Text.Lower` | frontend/src/pages/Stock/Stock.tsx:14-16 | `toLowerCase`: same length, each character lower-cased |
| `Text.LowerAppend` | frontend/src/pages/Stock/Stock.tsx:16 | lower-casing a concatenation lower-cases each part |
| `Text.LowerOfUpper` | frontend/src/pages/Stock/Stock.tsx:14-16 | lower-casing forgets an earlier upper-casing: `Lower(Upper(s)) == Lower(s)` |
| `Text.LowerIdempotent` | frontend/src/pages/Stock/Stock.tsx:14-16 | lower-casing twice is lower-casing once |
| `Text.LowerCharWhitespace` | frontend/src/pages/Stock/Stock.tsx:14 | lower-casing a character neither creates nor removes whitespace |
| `Text.NoWhitespaceLower` | frontend/src/pages/Stock/Stock.tsx:14 | a text without whitespace keeps none after lower-casing, so it holds no space |
| `Text.TrimStart` | frontend/src/pages/Stock/Stock.tsx:14 | the result is a suffix of the input, everything dropped is whitespace, and it does not start with whitespace |
| `Text.TrimEnd` | frontend/src/pages/Stock/Stock.tsx:14 | the result is a prefix of the input, everything dropped is whitespace, and it does not end with whitespace |
| `Text.Trim` | frontend/src/pages/Stock/Stock.tsx:14-16 | `trim`: the result is a slice of the input with only whitespace outside it, and neither end is whitespace |
| `Text.TrimAllWhitespace` | frontend/src/pages/Stock/Stock.tsx:14 | an empty or whitespace-only text trims to the empty string |
| `Text.TrimUnchanged` | frontend/src/pages/Stock/Stock.tsx:14 | a text with no whitespace at either end is left alone by `trim` |
| `Text.Split` | frontend/src/pages/Stock/Stock.tsx:14-16 | `split(' ')`: at least one piece, no piece holds the separator, and joining the pieces with it gives the input back |
| `Text.SplitJoin` | frontend/src/pages/Stock/Stock.tsx:14-16 | splitting a joined list of separator-free pieces gives the list back |
| `Text.SplitNoSeparator` | frontend/src/pages/Stock/Stock.tsx:14 | a text without the separator splits to itself alone |
| `Text.SplitAtSeparator` | frontend/src/pages/Stock/Stock.tsx:16 | the first piece ends at the first separator |
| `Text.Includes` | frontend/src/pages/Stock/Stock.tsx:17 | `word.includes(sub)` is true exactly when `sub` occurs at some position of `word` |
| `Text.OccursShift` | frontend/src/pages/Stock/Stock.tsx:17 | after a mismatch at position 0, `sub` occurs in `word` exactly when it occurs in `word` without its first character |
| `Text.IncludesEmptyAndSelf` | frontend/src/pages/Stock/Stock.tsx:17 | every word includes the empty string and itself |
| `StockSearch.Tokens` | frontend/src/pages/Stock/Stock.tsx:14-16 | the tokens of a text are never empty and join back to the lower-cased, trimmed text |
| `StockSearch.SomeWordIncludes` | frontend/src/pages/Stock/Stock.tsx:17 | `words.some(...)` is true exactly when some word includes the token |
| `StockSearch.EveryTokenFound` | frontend/src/pages/Stock/Stock.tsx:17 | `every(...)` is true exactly when every search token is included in some label token |
| `StockSearch.OptionsFilter` | frontend/src/pages/Stock/Stock.tsx:13-19 | the result is a subsequence of the options (nothing added, order kept); an option is in it exactly when it is an input option whose label matches the search; and each kept option appears as many times as in the input |
| `StockSearch.FilterDependsOnlyOnTokens` | frontend/src/pages/Stock/Stock.tsx:14-17 | two searches with the same tokens keep the same options |
| `StockSearch.SearchCaseInsensitive` | frontend/src/pages/Stock/Stock.tsx:14 | upper-casing or lower-casing the search never changes the result |
| `StockSearch.LabelCaseInsensitive` | frontend/src/pages/Stock/Stock.tsx:16 | upper-casing or lower-casing a label never changes whether it is kept |
| `StockSearch.BlankSearchTokens` | frontend/src/pages/Stock/Stock.tsx:14 | an empty or whitespace-only search splits to `[""]` |
| `StockSearch.BlankSearchKeepsAll` | frontend/src/pages/Stock/Stock.tsx:14-17 | an empty or whitespace-only search keeps every option, in order |
| `StockSearch.NarrowerSearchKeepsSubsequence` | frontend/src/pages/Stock/Stock.tsx:17 | a search whose tokens include another's keeps a subsequence of what the other keeps |
| `StockSearch.StockOptions` | frontend/src/pages/Stock/Stock.tsx:34-42 | no data gives no options; otherwise one option per record, in order, with value = symbol and label = `symbol - security name` |
| `StockSearch.SingleWordTokens` | frontend/src/pages/Stock/Stock.tsx:14 | a non-empty search without whitespace is the single token of its lower-cased text |
| `StockSearch.LeadingWordIsFirstToken` | frontend/src/pages/Stock/Stock.tsx:16 | a label `w - rest` whose `w` has no whitespace has `w` as its first token |
| `StockSearch.SymbolMatchesOwnLabel` | frontend/src/pages/Stock/Stock.tsx:13-40 | a symbol without whitespace, used as the search, matches its own label |
| `StockSearch.SymbolSearchFindsItsOption` | frontend/src/pages/Stock/Stock.tsx:13-42 | searching a record's symbol keeps that record's option, when the symbol is non-empty and has no whitespace |
| `PricerForm.Validate` | frontend/src/pages/Pricer/Pricer.tsx:127-132 | the form has errors exactly when spot <= 0, strike <= 0, volatility < 0 or maturity <= 0 |
| `PricerForm.ValidateFieldByField` | frontend/src/pages/Pricer/Pricer.tsx:128-131 | each validator rejects exactly its own bad values, with its own fixed message, and accepts the rest |
| `PricerForm.ValidateIgnoresOtherFields` | frontend/src/pages/Pricer/Pricer.tsx:127-132 | rate, dividend yield, the select fields and the symbol never affect validation |
| `PricerForm.ValidateBoundaries` | frontend/src/pages/Pricer/Pricer.tsx:128-131 | zero volatility passes; zero spot, strike or maturity fails with its message alone |
| `PricerForm.InitialValuesValid` | frontend/src/pages/Pricer/Pricer.tsx:113-132 | the default values pass every validator |
| `PricerForm.PresetsWellFormed` | frontend/src/pages/Pricer/Pricer.tsx:142-153 | every preset has a positive price and non-negative volatility and dividend yield |
| `PricerForm.DropdownStocksHavePresets` | frontend/src/pages/Pricer/Pricer.tsx:72-153 | every stock in the dropdown has a preset |
| `PricerForm.PresetsAreOffered` | frontend/src/pages/Pricer/Pricer.tsx:72-153 | every preset is offered by the dropdown |
| `PricerForm.DropdownValuesDistinct` | frontend/src/pages/Pricer/Pricer.tsx:72-83 | no stock is offered twice |
| `PricerForm.SelectStock` | frontend/src/pages/Pricer/Pricer.tsx:138-167 | null or an unknown symbol leaves the form unchanged; a preset symbol sets spot, volatility, dividend yield and the symbol from the table |
| `PricerForm.SelectStockKeepsOtherFields` | frontend/src/pages/Pricer/Pricer.tsx:158-164 | selecting a stock never changes strike, rate, maturity or the option choices |
| `PricerForm.DropdownSelectionLoadsPreset` | frontend/src/pages/Pricer/Pricer.tsx:72-164 | choosing any dropdown stock loads its preset into the form |
| `PricerForm.SelectStockIdempotent` | frontend/src/pages/Pricer/Pricer.tsx:155-164 | selecting the same stock twice is the same as selecting it once |
| `PricerForm.SelectStockPreservesValidity` | frontend/src/pages/Pricer/Pricer.tsx:127-164 | a form that passes validation still passes after a stock is selected |
| `PricerForm.ApplyEdit` | frontend/src/pages/Pricer/Pricer.tsx:218-366 | no input changes the stock symbol or the pricing engine, which have no input of their own |
| `PricerPage.ClearEditedError` | frontend/src/pages/Pricer/Pricer.tsx:218-301 | editing a validated input clears that input's error and nothing else |
| `PricerPage.Pricer.constructor` | frontend/src/pages/Pricer/Pricer.tsx:65-126 | the page starts with the default values, no field errors, no result and no error |
| `PricerPage.Pricer.HandleStockSelect` | frontend/src/pages/Pricer/Pricer.tsx:138-167 | the form becomes `SelectStock` of the old form; loading a preset clears the field errors, anything else keeps them; result and error are unchanged; the symbol stays null or a preset |
| `PricerPage.Pricer.EditField` | frontend/src/pages/Pricer/Pricer.tsx:218-366 | the form becomes `ApplyEdit` of the old form; result and error are unchanged |
| `PricerPage.Pricer.Submit` | frontend/src/pages/Pricer/Pricer.tsx:102-105 | the validators' errors are shown; a form with errors sends nothing; otherwise the error is cleared and the form's values are sent |
| `PricerPage.Pricer.OnSuccess` | frontend/src/pages/Pricer/Pricer.tsx:93-95 | the answer becomes the result; error and form are unchanged |
| `PricerPage.Pricer.OnError` | frontend/src/pages/Pricer/Pricer.tsx:96-98 | the error becomes the fixed message; any earlier result stays |
| `PricerPage.Pricer.SubmitAndSettle` | frontend/src/pages/Pricer/Pricer.tsx:91-105 | after a valid submit, success shows the answer with no error, and failure shows the message and keeps the old result; an invalid form changes neither |
| `PricerModel.ParseOptionType` | backend/app/pricer/model.py:6-8 | accepts exactly "EUROPEAN" and "AMERICAN", giving back the member whose value is the text |
| `PricerModel.ParseModelType` | backend/app/pricer/model.py:11-13 | accepts exactly "Black Scholes" and "Monte Carlo", giving back the member whose value is the text |
| `PricerModel.EnumRoundTrips` | backend/app/pricer/model.py:6-13 | every member is read back from its own value |
| `PricerModel.CheckNonNegative` | backend/app/pricer/model.py:17-22 | a required number passes exactly when present and at least zero; otherwise one error for that field |
| `PricerModel.CheckPresent` | backend/app/pricer/model.py:29-36 | a required field without bounds passes exactly when present |
| `PricerModel.CheckEnum` | backend/app/pricer/model.py:23-25 | a required enumeration passes exactly when present and a member value |
| `PricerModel.ParseMarketDataRequest` | backend/app/pricer/model.py:16-25 | succeeds exactly when all six numbers are present and >= 0 and both enumerations are exact; the request carries the body's values, `isCall` defaults to true, and a failure lists at least one error |
| `PricerModel.MarketDataRoundTrip` | backend/app/pricer/model.py:16-25 | a valid request sent and validated comes back equal, `isCall` true when left out; an invalid one is refused |
| `PricerModel.ReportsConcat` | backend/app/pricer/model.py:16-25 | a field is reported in a concatenation of error lists exactly when one of the parts reports it |
| `PricerModel.MarketDataErrorsPerField` | backend/app/pricer/model.py:16-25 | the error list names a field exactly when that field is missing or out of its bounds |
| `PricerModel.ParseOptionPricingRequest` | backend/app/pricer/model.py:28-36 | succeeds exactly when every field is present and the model type is a member; the values are carried over unchanged |
| `PricerModel.OptionPricingHasNoBounds` | backend/app/pricer/model.py:28-36 | a pricing request takes negative numbers and any option type text, which a market-data request refuses |

## Left out

- Network and caching: the symbol and pricing requests (axios, react-query) are not modelled. A request outcome is an input to `PricerPage.Pricer.OnSuccess` and `PricerPage.Pricer.OnError`.
- Rendering: loading and error screens, alerts, charts, tabs and number formatting are view code with nothing to state.
- Text.Lower: maps only the ASCII letters A-Z. `toLowerCase` also maps other Unicode letters, and a few of them change length.
- Text.Trim: uses the fixed ECMAScript whitespace set (tab, vertical tab, form feed, space, no-break space, byte-order mark, line terminators and the Unicode space separators) as of Unicode 15.
- StockSearch.OptionsFilter: options are flat items. The select component can also pass option groups, which the source casts away.
- PricerForm.Validate: JavaScript numbers are modelled as `real`. NaN, infinities and the rounding of the preset constants to doubles are not modelled, because the form only compares and copies numbers.
- PricerPage.Pricer.Submit: it assumes the form library's submit behaviour. All validators run and their errors are shown, and the handler is called only when there is no error.
- PricerPage.ClearEditedError: it assumes the form library's default, where a change to an input clears that input's error.
- PricerPage.Pricer.HandleStockSelect: it assumes the same default for replacing all the form's values, which clears every field error.
- PricerForm.SelectStock: a symbol outside the table leaves the form unchanged. In JavaScript, a name every object inherits (`toString`, `constructor`, `__proto__`) finds a truthy value in the preset table. Selecting it would set spot, volatility and dividend yield to `undefined`. The dropdown sends only its ten values or null, so the page never reaches this case.
- StockSearch.SearchCaseInsensitive and StockSearch.LabelCaseInsensitive: they hold for the ASCII case mapping modelled here. With full Unicode case mapping they can fail: "straße" upper-cases to "STRASSE", and Greek final sigma lower-cases by context.
- PricerPage.PricingResult: it keeps only the price and the five greeks. The payoff and greek chart series are only stored and drawn.
- The page's `loading` flag is never set by the source, so it is not modelled.
- Overlapping requests: each `OnSuccess`/`OnError` call is one settled request, in whatever order they arrive. Nothing orders or discards them, and neither does the source.
- PricerModel.ParseMarketDataRequest: it models pydantic's strict checks only. Lax coercions (integers or numeric strings for floats), NaN and infinities, extra ignored fields and the text of the error messages are not modelled.
- The pricing service (`backend/app/pricer/service.py`) calls an external pricing library. It, the routers and the database code are not part of this model.
