# Stock portfolio manager: a verified model of its core

The repository is a small stock-portfolio application. Its core parts are:

- **A ledger service** (`services/portfolioService.js`). It buys and sells acquisition lots against a user's funds. Lots live in the `user_portfolio_items` table and funds in the `user_info` table, so a buy moves cash into invested funds and a sell moves it back, with the profit.
- **Two in-memory portfolio back-ends.** `src/app.js` and `backend/server.js` each keep a module-level list of holdings and a `nextId` counter behind the `/api/portfolio` handlers. `backend/server.js` also reads the latest close out of a cached price feed.
- **Three copies of a quote service** wrapping the Yahoo Finance client:
  - `src/services/yahooFinanceService.js` and `src/yahooFinanceService.js` retry every provider call with a linear delay, classify errors as retryable, choose a chart interval from the number of days, and shape quotes, histories, search hits and trending lists.
  - `services/yahooFinanceService.js` is an older copy without retries and with different validation.
- **A Python helper**, `get_stock_info` in `stockApi/test_1.py`. It fetches a ticker's info with exponential backoff on rate-limit errors.

The Dafny model follows that structure:

| file | module | what it holds |
|---|---|---|
| `common.dfy` | `Common` | `Option`, `Result`, JSON numbers (`undefined`, `null` or a number), a sequence-insertion lemma |
| `text.dfy` | `Text` | `toUpperCase`, `toLowerCase` and `includes` on strings |
| `js_array.dfy` | `JsArray` | `findIndex` (a loop) and `splice(i, 1)` |
| `ledger.dfy` | `Ledger` | the two tables as one value; buy, sell and update as pure transitions; the funds conservation laws |
| `portfolio_service.dfy` | `PortfolioServiceModel` | the service as a class over the two tables; each method is proved to reach the state the `Ledger` transition prescribes |
| `app_portfolio.dfy` | `AppPortfolio` | the portfolio of `src/app.js` as a class with `items` and `nextId` |
| `backend_portfolio.dfy` | `BackendPortfolio` | the portfolio of `backend/server.js` as a class, and `extractPrice` |
| `retry_policy.dfy` | `RetryPolicy` | `retryApiCall` (a loop) and `isRetryableError` |
| `quote_data.dfy` | `QuoteData` | provider records, `\|\|` defaults, the history pipeline (filter, map, stable sort), slicing, trending shaping |
| `quote_service.dfy` | `QuoteService` | the quote service in `src/`: each operation is its retried provider call followed by validation and shaping |
| `legacy_quote_service.dfy` | `LegacyQuoteService` | the quote service in `services/`, with lemmas that compare it with the one in `src/` |
| `stock_info_retry.dfy` | `StockInfoRetry` | the `get_stock_info` loop |

Modelling choices:

- **Money.** Money is integer cents in the ledger and in `src/app.js`. `backend/server.js` parses quantities with `parseFloat`, so they are reals there, and provider numbers are reals too.
- **Outside inputs.** The provider, the clock and the quote lookup used to validate a ticker are all parameters:
  - a provider call is a function from attempt number to outcome;
  - a timestamp is an opaque value;
  - the ticker check is a predicate.
- **Sleeps.** Sleeps are recorded as values, not slept.
- **Missing strings.** A string field the provider leaves out is `""`. That is the same wherever the source applies `||` to it. A field passed through without `||`, such as the trending `symbol` (`src/services/yahooFinanceService.js:231`), would be `undefined` and left out of the JSON, where the model gives `""`.

## Model

| member | source | states |
|---|---|---|
| Ledger.WriteFunds | services/portfolioService.js:30-36 | `User.update` on one id. It rewrites that user's three fund columns and keeps the username. It changes no other user and adds no key; a missing id updates nothing. |
| Ledger.Buy | services/portfolioService.js:6-39 | A buy fails exactly when the user is missing or has less available than price × quantity; equal funds are enough. An unknown user gives `UserNotFound`, and on failure nothing changes. On success there is one new lot under the next id, stamped `now` and returned. The counter advances, and no user except user 1 changes. |
| Ledger.Sell | services/portfolioService.js:67-95 | An unknown lot gives `LotNotFound` with nothing changed. An existing lot is always removed, with every other lot kept, even when the sell then fails for want of an owner. On success, revenue is sell price × quantity and profit is revenue − cost basis. Only the owner's record changes. |
| Ledger.Patch | services/portfolioService.js:55-58 | Each column the update names takes the given value, and each column it leaves out keeps its value; an empty update changes nothing. |
| Ledger.UpdateLot | services/portfolioService.js:55-64 | An unmatched id gives `null` and no change. A matched id overwrites that lot alone and returns the re-read lot. Users and the counter are never touched. |
| Ledger.SumCostRemove | services/portfolioService.js:80-85 | The cost basis of the lots splits into any one lot's cost plus the rest. This is the fact each sell relies on. |
| Ledger.SumCostInsert | services/portfolioService.js:25-32 | Adding a lot under a fresh id adds its cost basis to the table's total. |
| Ledger.BuyKeepsBalance | services/portfolioService.js:30-36 | For user 1, a buy (successful or not) keeps the books balanced: invested funds equal the cost basis of all lots, and total equals available plus invested. |
| Ledger.SellKeepsBalance | services/portfolioService.js:77-89 | For user 1, a sell keeps the same balance. |
| Ledger.BuyMovesCost | services/portfolioService.js:9-33 | A successful buy takes price × quantity from available funds and adds it to invested funds. Total funds stay put, and so does available + invested. |
| Ledger.BuyChargesUserOne | services/portfolioService.js:26-36 | A buy by another user rewrites user 1's whole record from the buyer's: user 1 keeps its username and gets the buyer's total, the buyer's available funds minus the cost, and the buyer's invested funds plus the cost. The buyer's own record is unchanged. |
| Ledger.SellMovesFunds | services/portfolioService.js:77-94 | On a successful sell: available rises by the revenue, invested falls by the cost basis, and total rises by the profit, which equals the sum of the other two changes. |
| Ledger.SellWithoutOwnerLosesLot | services/portfolioService.js:74-84 | With no owner readable (the lot table has no user column), selling an existing lot destroys it, fails, and changes no funds. |
| Ledger.BuyThenSellExample | services/portfolioService.js:6-95 | Start with 1000.00. Buy 10 at 100.00, which leaves 0 available and 1000.00 invested. Sell at 150.00: the receipt is profit 500.00 and revenue 1500.00, and the user ends with 1500.00 total, all available. |
| PortfolioServiceModel.NewerCount | services/portfolioService.js:45 | In a newest-first list, the lots before the returned position are strictly newer than `t`, and the rest are not. |
| PortfolioServiceModel.InsertNewestFirst | services/portfolioService.js:45 | Inserting a lot keeps the list newest first, adds exactly that lot as a multiset, and grows the list by one. |
| PortfolioServiceModel.InsertKeepsOrder | services/portfolioService.js:45 | A lot placed after the strictly newer lots and before the rest keeps the order by `buy_time`, descending. |
| PortfolioServiceModel.ListsOwnedStep | services/portfolioService.js:43-44 | Examining one more id keeps the list equal to the owned lots among the ids seen so far. |
| PortfolioServiceModel.OwnedStep | services/portfolioService.js:44 | The owned ids grow by one exactly when the examined id belongs to the user. |
| PortfolioServiceModel.OwnedNewestFirst | services/portfolioService.js:42-47 | The query result holds exactly the rows owned by the user, each once, newest first. |
| PortfolioServiceModel.PortfolioService.BuyStock | services/portfolioService.js:6-39 | Changes the tables step by step into exactly the state and result of `Ledger.Buy`, and keeps lot ids below the counter. |
| PortfolioServiceModel.PortfolioService.SellStock | services/portfolioService.js:67-95 | Reads the owner's record, destroys the lot, and only then uses that record for the funds update, failing there if the owner was missing. Ends in exactly the state and result of `Ledger.Sell`. |
| PortfolioServiceModel.PortfolioService.UpdatePortfolioItem | services/portfolioService.js:55-64 | Ends in exactly the state and result of `Ledger.UpdateLot`. |
| PortfolioServiceModel.PortfolioService.GetPortfolioItemById | services/portfolioService.js:50-52 | `findByPk`: the lot with that id, or `null` when there is none. |
| PortfolioServiceModel.PortfolioService.GetUserPortfolio | services/portfolioService.js:42-47 | The user's lots and no others, each with its stored row, as many as the user owns, ordered by `buy_time`, newest first. |
| PortfolioServiceModel.PortfolioService.constructor | services/portfolioService.js:98 | An empty lot table over the given users. |
| PortfolioServiceModel.BuyThenSell | services/portfolioService.js:6-95 | The worked example of `Ledger.BuyThenSellExample` on the service object: the buy returns lot 1, reading lot 1 back gives it, and the sell returns profit 500.00 and revenue 1500.00. |
| Text.Upper | src/app.js:230 | `toUpperCase` keeps the length, upper-cases each ASCII letter in place, and leaves no lower-case ASCII letter. |
| Text.UpperIdempotent | src/app.js:271 | Upper-casing an already upper-cased ticker changes nothing. |
| Text.Lower | src/services/yahooFinanceService.js:296 | `toLowerCase` keeps the length, lower-cases each ASCII letter in place, and leaves no upper-case ASCII letter. |
| Text.LowerIdempotent | src/services/yahooFinanceService.js:296 | Lower-casing twice is lower-casing once. |
| Text.IncludesIff | src/services/yahooFinanceService.js:296 | The left-to-right search succeeds exactly when the substring occurs at some position. |
| JsArray.FindIndex | src/app.js:259 | The first index whose element matches, or -1 exactly when none does. |
| JsArray.RemoveAt | src/app.js:304 | `splice(i, 1)` drops element `i` and keeps the rest in order, so the length falls by one. |
| AppPortfolio.CheckNewItem | src/app.js:203-215 | A POST passes exactly when all four fields are truthy and quantity and price are positive. A missing or falsy field is reported before a non-positive one. |
| AppPortfolio.Overwrite | src/app.js:271-274 | Each truthy field of the PUT body overwrites its column, the ticker upper-cased. Each field left out or sent falsy keeps its value. The id and `createdAt` are always kept. |
| AppPortfolio.OverwriteIdempotent | src/app.js:271-274 | Sending the same PUT twice gives the item the first one gave. |
| AppPortfolio.OverwriteNothing | src/app.js:271-274 | A PUT with no truthy field leaves the item unchanged. |
| AppPortfolio.OverwriteKeepsNegativeQuantity | src/app.js:210-272 | A PUT stores a negative quantity as sent, though a POST with that quantity is rejected. |
| AppPortfolio.Value | src/app.js:104-125 | `purchaseValue` is price × quantity whether or not the quote succeeded. Current value and gain or loss are present exactly when it did. |
| AppPortfolio.PortfolioApp.Listing | src/app.js:96-146 | The GET list has one entry per item, in order. Each carries its item and price × quantity as purchase value, and is that item valued (`Value`) with the quote for its ticker. |
| AppPortfolio.PortfolioApp.IndexOf | src/app.js:259 | The position of the item with that id, or -1 exactly when no item has it. |
| AppPortfolio.PortfolioApp.GetItem | src/app.js:151-159 | The item with that id, or `NotFound` exactly when none has it. |
| AppPortfolio.PortfolioApp.AddItem | src/app.js:199-253 | Rejections change nothing: the body checks first, then the ticker oracle on the upper-cased ticker. Otherwise the item gets id = `nextId` and the upper-cased ticker, is appended, and `nextId` advances, so ids stay strictly increasing. |
| AppPortfolio.PortfolioApp.UpdateItem | src/app.js:256-289 | An unknown id gives `NotFound` and no change. Otherwise only that position is overwritten, with the supplied fields, and the other items and `nextId` stay. |
| AppPortfolio.PortfolioApp.DeleteItem | src/app.js:292-319 | An unknown id gives `NotFound` and no change. Otherwise the item with that id is returned and spliced out; the others keep their order and nothing else is removed. |
| AppPortfolio.PortfolioApp.constructor | src/app.js:38-57 | The two seed items (AAPL 10 at 150.00, GOOGL 5 at 125.00) and `nextId` = 3. |
| AppPortfolio.RemoveMatching | src/app.js:304 | Splicing out the item with a given id from an id-ordered list keeps the ids ordered and removes that item and no other. |
| AppPortfolio.FreshIdExceedsAll | src/app.js:57-229 | An item added under `nextId` keeps ids strictly increasing and duplicates no id. |
| BackendPortfolio.PriceOrNull | backend/server.js:32 | The price is kept exactly when it is truthy; otherwise it is `null`. |
| BackendPortfolio.ExtractPrice | backend/server.js:110-117 | With a close list present, the result is its last element (`undefined` when the list is empty); without one it is `null`. |
| BackendPortfolio.ExtractPriceAfterAppend | backend/server.js:114 | A close list that gains one more close reports that close. |
| BackendPortfolio.HoldingsStore.AddHolding | backend/server.js:21-39 | A missing ticker or quantity is rejected with no change. Otherwise the holding gets id = `nextId`, the upper-cased ticker and a price or `null`, is appended, and `nextId` advances. |
| BackendPortfolio.HoldingsStore.DeleteHolding | backend/server.js:42-52 | An unknown id gives 404 and no change. Otherwise the holding with that id is returned and spliced out; the count falls by one and `nextId` stays. |
| BackendPortfolio.HoldingsStore.constructor | backend/server.js:12-13 | An empty list and `nextId` = 1. |
| RetryPolicy.SomeIncludedIff | src/services/yahooFinanceService.js:295-297 | The pattern check succeeds exactly when some lower-cased pattern occurs in the text. |
| RetryPolicy.RetryableIff | src/services/yahooFinanceService.js:285-298 | An error is retryable exactly when one of the six listed patterns, lower-cased, occurs in its lower-cased message. `src/yahooFinanceService.js:276-289` is the same code. |
| RetryPolicy.RetryableIgnoresCase | src/services/yahooFinanceService.js:296 | A message and its lower-cased form are classified alike. |
| RetryPolicy.Status403IsRetryable | src/services/yahooFinanceService.js:287 | Any message ending in "status 403" is retryable. |
| RetryPolicy.RetryApiCall | src/services/yahooFinanceService.js:263-282 | The calls stop when one succeeds, returning its value; at most `maxRetries` calls are made. Every earlier call failed with a retryable error. A failure is rethrown when it is not retryable or comes on the last attempt. There is no wait before the first call and a wait of `delay × i` before call `i`. With `maxRetries` ≤ 0 no call is made. `src/yahooFinanceService.js:255-274` is the same code. |
| RetryPolicy.AlwaysForbidden | src/services/yahooFinanceService.js:263-298 | With the defaults, a provider that always answers 403 is called 3 times, with waits of 1000 then 2000 ms, and its error is rethrown. |
| QuoteData.OrZero | src/services/yahooFinanceService.js:51-55 | `v \|\| 0` keeps a non-zero number and gives 0 for `undefined`, `null` and 0. |
| QuoteData.OrText | src/services/yahooFinanceService.js:56 | `s \|\| d` keeps a non-empty string and gives `d` for an empty or missing one. |
| QuoteData.PriceFields | src/services/yahooFinanceService.js:49-57 | The price record has the given price. Change, change percent, volume, previous close and market cap default to 0, and the currency defaults to "USD". |
| QuoteData.ToPoint | src/services/yahooFinanceService.js:114-121 | A point has the quote's date as its timestamp and its close as the close. Open, high and low pass through unchanged, and volume is `volume \|\| 0`. |
| QuoteData.Filter | src/services/yahooFinanceService.js:112-113 | `filter` keeps exactly the elements that pass the test, and is no longer than its input. |
| QuoteData.FilterCounts | src/services/yahooFinanceService.js:112-113 | Each kept element occurs as often as in the input; a rejected one does not occur. |
| QuoteData.FilterAppend | src/services/yahooFinanceService.js:112-113 | Filtering a concatenation is the concatenation of the filtered parts, so kept elements stay in input order. |
| QuoteData.KeepClosed | src/services/yahooFinanceService.js:112-121 | The i-th point is the mapped i-th quote with a close, so there is one point per such quote, in input order. Every point comes from a quote with a close, and every quote with a close gives a point. |
| QuoteData.EarlierCount | src/services/yahooFinanceService.js:122 | In an ascending list, the points before the returned position are strictly earlier than `t`, and the rest are not. |
| QuoteData.InsertByTime | src/services/yahooFinanceService.js:122 | Inserting a point keeps the list ascending by time and adds exactly that point as a multiset. |
| QuoteData.SortByTime | src/services/yahooFinanceService.js:122 | The sort gives an ascending permutation of its input. |
| QuoteData.HistoryPointsSpec | src/services/yahooFinanceService.js:112-122 | The history is ascending by time and is a permutation of the mapped quotes that have a close. Every quote with a close appears, and nothing else does. |
| QuoteData.NoClosesNoPoints | src/services/yahooFinanceService.js:112-113 | Quotes that all lack a close give an empty history. |
| QuoteData.FilterMap | src/services/yahooFinanceService.js:160-168 | `filter` then `map`: the i-th output is the image of the i-th kept input, one output per kept input. Each output is the image of a kept input, and each kept input's image is present. |
| QuoteData.Take | src/services/yahooFinanceService.js:169 | `slice(0, n)` is the first `min(n, length)` elements. |
| QuoteData.TakeLast | services/yahooFinanceService.js:83 | `slice(-n)` is the last `min(n, length)` elements. |
| QuoteData.ToTrend | src/services/yahooFinanceService.js:229-235 | A trending entry keeps the symbol. It is named by the short name, else the long name, else the symbol. Price, change and change percent are each `\|\| 0` of the quote's field. |
| QuoteData.Trends | src/services/yahooFinanceService.js:229-235 | One entry per quote, in order. |
| QuoteData.FirstResult | src/services/yahooFinanceService.js:223 | `result[0]` exists exactly when the result list is present, non-empty and its first element is not null. |
| QuoteService.Settled | src/services/yahooFinanceService.js:271-279 | What an awaited call yields: a resolved non-null value, `null`/`undefined`, or the thrown error's message. |
| QuoteService.PriceFromQuote | src/services/yahooFinanceService.js:36-63 | Succeeds exactly when a quote came back with a price that is not `null` or `undefined`; 0 counts as a price. A provider error becomes `ProviderFailed`, anything else missing becomes `NoPriceData`, and success gives the defaulted price record. |
| QuoteService.OrPrice | src/yahooFinanceService.js:51-53 | `v \|\| price` keeps a non-zero number and otherwise gives the price. |
| QuoteService.OhlcFromQuote | src/yahooFinanceService.js:36-67 | Succeeds exactly when a price is present. Close is the price, and open, high and low default to it. |
| QuoteService.OhlcExtendsPrice | src/yahooFinanceService.js:42-61 | The OHLC variant fails exactly when the basic one does, with the same error, and on success carries the same price record. |
| QuoteService.MissingOhlcIsFlat | src/yahooFinanceService.js:51-54 | A quote without open, high and low reports a flat bar: all four equal the price. |
| QuoteService.PlanIntraday | src/services/yahooFinanceService.js:78-90 | The interval is intraday exactly for 1, 3 and 5 days, each expecting more points than days. Every other span is daily, expecting one point per day. |
| QuoteService.HistoryFromChart | src/services/yahooFinanceService.js:105-141 | Fails exactly when the call threw, the chart is absent, or its quote list is absent or empty. Otherwise it carries the plan for `days` and the chart's symbol, defaulting to the ticker. `src/yahooFinanceService.js:108-141` is the same code. |
| QuoteService.HistoryKeepsClosedSorted | src/services/yahooFinanceService.js:107-122 | A non-empty quote list always gives a history. It holds exactly the quotes with a close, each as often as in the input (the same multiset as the filtered, mapped quotes), ascending by time, and is empty when no quote has a close. |
| QuoteService.ToHit | src/services/yahooFinanceService.js:162-168 | A hit keeps the symbol. It is named by the short name, else the long name, else the symbol; type, exchange and region default to "EQUITY", "Unknown" and "United States". |
| QuoteService.SearchFromResults | src/services/yahooFinanceService.js:150-178 | The hits are those of the first 10 quotes with a symbol and a short or long name, one each, in input order: there are min(10, such quotes) of them. Each hit has a symbol and a name. There are no hits when the call failed or found no quotes. `src/yahooFinanceService.js:150-177` is the same code. |
| QuoteService.FewListedAllHit | src/services/yahooFinanceService.js:160-169 | When at most 10 quotes qualify, every qualifying quote becomes a hit. |
| QuoteService.TrendingFromResponse | src/services/yahooFinanceService.js:216-244 | `[]` unless `finance.result[0]` exists; otherwise one entry per quote of that result, in order. `src/yahooFinanceService.js:212-238` is the same code. |
| QuoteService.TrendingNamesDefault | src/services/yahooFinanceService.js:231 | Every trending entry has a non-empty name unless its symbol is empty. |
| QuoteService.GetCurrentPrice | src/services/yahooFinanceService.js:36-63 | Makes 1 to 3 provider calls, every call before the last failing retryably. A last call that fails retryably is the third. The result is the validation of what the last call gave. |
| QuoteService.GetCurrentOhlc | src/yahooFinanceService.js:36-67 | The same calls and retries, with the OHLC validation. |
| QuoteService.GetHistoryByDays | src/services/yahooFinanceService.js:66-147 | Makes 1 to 3 chart calls, every call before the last failing retryably. A last call that fails retryably is the third. The result is the history pipeline over what the last call gave. |
| QuoteService.SearchSymbols | src/services/yahooFinanceService.js:150-178 | Makes 1 to 3 search calls, every call before the last failing retryably; a last call that fails retryably is the third. The result is the shaping of the last call's answer, and `[]` when that call failed. |
| QuoteService.GetTrendingSymbols | src/services/yahooFinanceService.js:216-244 | Makes 1 to 3 trending calls, every call before the last failing retryably; a last call that fails retryably is the third. The result is the shaping of the last call's answer, and `[]` when that call failed. |
| LegacyQuoteService.CurrentPrice | services/yahooFinanceService.js:9-36 | Succeeds exactly when the price is truthy: absent, `null`, `undefined` and 0 all fail with `NoPriceData`, and a provider error with `ProviderFailed`. The price returned is non-zero. |
| LegacyQuoteService.PriceVariantsAgree | services/yahooFinanceService.js:15-30 | This service answers exactly as the one in `src/` except for a price of 0, which `src/` returns and this one rejects. |
| LegacyQuoteService.IntervalsAgree | services/yahooFinanceService.js:58 | The interval ('5m' for one day, '1d' otherwise) matches the table in `src/` exactly outside 1, 3 and 5 days. |
| LegacyQuoteService.HistoryFromChart | services/yahooFinanceService.js:39-97 | Fails exactly as the `src/` version does. A one-day history has at most 50 points. The symbol defaults to the ticker. |
| LegacyQuoteService.SuffixAscending | services/yahooFinanceService.js:83 | The last points of an ascending history are ascending. |
| LegacyQuoteService.HistoryVariantsAgree | services/yahooFinanceService.js:65-83 | On the same chart, both services fail or succeed together. A one-day history here is the last 50 points of the `src/` one, and other spans are equal. Either way the result is ascending. |
| LegacyQuoteService.ToHit | services/yahooFinanceService.js:112-118 | A hit keeps the symbol. Its region is always "United States", and type and exchange default to "EQUITY" and "Unknown". |
| LegacyQuoteService.SearchFromResults | services/yahooFinanceService.js:100-128 | No quotes is an error (`NoSearchResults`), not `[]`. Otherwise the hits are those of the first 10 quotes with a symbol and a short name, one each, in input order, each named by that short name. |
| LegacyQuoteService.SearchNarrower | services/yahooFinanceService.js:111 | Every hit here comes from a quote the `src/` service also keeps, and equals that service's hit with the region fixed. |
| LegacyQuoteService.SearchVariantsAgree | services/yahooFinanceService.js:110-119 | When every quote the `src/` service keeps has a short name, both services give the same number of hits, and the i-th hit here is the i-th `src/` hit with the region fixed to "United States". |
| LegacyQuoteService.TrendingFromResponse | services/yahooFinanceService.js:166-194 | Fails exactly without `finance.result`. Otherwise one entry per quote of `result[0]`, or `[]` when `result[0]` is missing. |
| LegacyQuoteService.TrendingVariantsAgree | services/yahooFinanceService.js:173-177 | Where this service returns a list, the `src/` one returns the same list; where this one fails, that one returns `[]`. |
| StockInfoRetry.Pow2 | stockApi/test_1.py:25 | `2 ** n` is at least 1. |
| StockInfoRetry.BackoffDoubles | stockApi/test_1.py:25 | Each backoff delay is twice the one before. |
| StockInfoRetry.GetStockInfo | stockApi/test_1.py:6-33 | At most `max_retries` attempts, and none when that is ≤ 0, which gives `None`. Every attempt before the last was rate-limited. The info is returned exactly when the last attempt fetched it. A rate limit ends the loop only on the last attempt, unless `initial_delay` is negative: then the first rate limit with a retry left makes `time.sleep` raise `ValueError` out of the function. Sleeps come before every retry, the a-th being `initial_delay × 2^a` seconds, fractions allowed, never negative. |
| StockInfoRetry.AlwaysRateLimited | stockApi/test_1.py:6-30 | With the defaults, a provider that always rate-limits gets 5 attempts with sleeps of 5, 10, 20 and 40 seconds, then `None`. |

## Left out

- The HTTP layer is not modelled: routes, status codes, response bodies, logging and startup. Each handler's state logic is modelled instead.
- Database and network I/O are replaced by values.
  - The two tables are in-memory maps, and Sequelize calls are the steps of the class methods.
  - The Yahoo Finance client, `yf.Ticker` and the HTTPS fetch in `backend/server.js` are function parameters giving one outcome per call.
- DECIMAL values are numbers here. With the MySQL driver's default settings, Sequelize returns DECIMAL columns as strings. Then `user.invested_funds + totalCost` in `services/portfolioService.js:32` would concatenate, and so would `user.available_funds + totalRevenue` and `user.total_funds + (...)` at `services/portfolioService.js:84` and `services/portfolioService.js:86`. The model assumes numeric columns.
- `PortfolioServiceModel.PortfolioService.GetUserPortfolio`: the lot model has no `user_id` column, so ownership is a parameter. The order among lots with the same `buy_time` is left open, because the query does not fix it.
- `PortfolioServiceModel.PortfolioService.UpdatePortfolioItem`: the driver's changed-rows count is taken as "the id matched".
- `buyStock` mutates its argument: it deletes `user_id`, sets `buy_time` and sets `user_id` to 1. Only the created row and the funds update are modelled, not what the caller sees in its object afterwards.
- Timestamps (`new Date()`, `toISOString`) are opaque parameters. The chart's `period1`/`period2` and the query options (`count`, `lang`) go to the provider and are not modelled.
- Request parsing is not modelled: `parseInt`/`parseFloat`, `NaN`, and numbers sent as strings (a string "0" is truthy). Request fields arrive already typed as integers (cents) or reals.
- Concurrency is not modelled: `Promise.all` in the GET list, and the lack of atomicity between creating or destroying a lot and the funds update. Calls are sequential.
- `Text.Upper`, `Text.Lower`: ASCII letters only; JavaScript's full Unicode case mapping is not modelled.
- `AppPortfolio.Value`: `gainLossPercent` (a `toFixed(2)` string), the change fields and the error text are left out. Floating point is not modelled.
- `AppPortfolio.PortfolioApp.GetItem`: only the lookup is modelled, not the quote enrichment of the found item. That enrichment differs from the list's: with a quote it adds `provider` and has no `gainLossPercent`, and without one it reports only `currentPrice: null` and an error text, with no `purchaseValue` (`src/app.js:161-188`).
- `QuoteService.HistoryFromChart`: the `quality.coverage` percentage (`Math.round`), the `timeRange` text and the `source` text are left out. The plan carries the interval and the expected point count.
- `QuoteService.PriceFromQuote`, `LegacyQuoteService.CurrentPrice` and the other quote operations wrap every error into a new message. Only the cause is modelled: the provider's message, or which check failed.
- `getCompanyOverview` and `getRecommendations` are provider pass-throughs and not part of this model.
- The history sort compares timestamps in milliseconds. The model sorts by the integer `date` of each quote, stably, as `Array.prototype.sort` is.
- Console and `print` output is not modelled.
