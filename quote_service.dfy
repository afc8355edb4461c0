/**
 * The `YahooFinanceService` of `src/services/yahooFinanceService.js` and its
 * twin `src/yahooFinanceService.js`: every provider call goes through
 * `retryApiCall`, and what it settles to is validated and shaped.
 *
 * The twins differ only in `getCurrentPrice`: the first returns the price
 * record (`PriceFromQuote`), the second adds open, high, low and close
 * (`OhlcFromQuote`). Each provider call is the function from attempt number to
 * outcome that `RetryPolicy.RetryApiCall` takes; a call resolving to
 * `null`/`undefined` resolves to `None`.
 */
module QuoteService {
  import opened Common
  import opened QuoteData
  import RetryPolicy

  /** What the awaited `retryApiCall(...)` gives the caller, from the outcome of the last attempt. */
  function Settled<T>(a: RetryPolicy.Attempt<Option<T>>): (r: Response<T>)
    ensures r.Value? <==> a.Resolved? && a.value.Some?
    ensures r.Value? ==> r.v == a.value.value
    ensures r.Thrown? <==> a.Rejected?
    ensures r.Thrown? ==> r.message == a.message
  {
    match a
    case Resolved(Some(v)) => Value(v)
    case Resolved(None) => Absent
    case Rejected(m) => Thrown(m)
  }

  // ---------------------------------------------------------------- current price

  /** A price is missing when the quote is absent or its price is `null`/`undefined`; 0 is a price. */
  predicate HasPrice(resp: Response<Quote>)
  {
    resp.Value? && resp.v.regularMarketPrice.Num?
  }

  /** `getCurrentPrice` of `src/services/yahooFinanceService.js`, after the retried call. */
  function PriceFromQuote(resp: Response<Quote>): (r: Result<PriceInfo, QuoteError>)
    ensures r.Ok? <==> HasPrice(resp)
    ensures resp.Thrown? ==> r == Err(ProviderFailed(resp.message))
    ensures !resp.Thrown? && !HasPrice(resp) ==> r == Err(NoPriceData)
    ensures r.Ok? ==> r.value.price == resp.v.regularMarketPrice.x && r.value == PriceFields(resp.v, r.value.price)
  {
    match resp
    case Thrown(m) => Err(ProviderFailed(m))
    case Absent => Err(NoPriceData)
    case Value(q) =>
      if q.regularMarketPrice.Num? then Ok(PriceFields(q, q.regularMarketPrice.x)) else Err(NoPriceData)
  }

  /** The record `getCurrentPrice` of `src/yahooFinanceService.js` returns: the price record plus OHLC. */
  datatype OhlcPrice = OhlcPrice(open: real, high: real, low: real, close: real, info: PriceInfo)

  /** `v || price`. */
  function OrPrice(v: JsNumber, price: real): (r: real)
    ensures v.Num? && v.x != 0.0 ==> r == v.x
    ensures !(v.Num? && v.x != 0.0) ==> r == price
  {
    if v.Num? && v.x != 0.0 then v.x else price
  }

  /** `getCurrentPrice` of `src/yahooFinanceService.js`, after the retried call. */
  function OhlcFromQuote(resp: Response<Quote>): (r: Result<OhlcPrice, QuoteError>)
    ensures r.Ok? <==> HasPrice(resp)
    ensures r.Ok? ==> var q := resp.v;
                      var price := q.regularMarketPrice.x;
                      && r.value.close == price
                      && r.value.open == OrPrice(q.regularMarketOpen, price)
                      && r.value.high == OrPrice(q.regularMarketDayHigh, price)
                      && r.value.low == OrPrice(q.regularMarketDayLow, price)
  {
    match PriceFromQuote(resp)
    case Err(e) => Err(e)
    case Ok(info) =>
      var q := resp.v;
      Ok(OhlcPrice(OrPrice(q.regularMarketOpen, info.price), OrPrice(q.regularMarketDayHigh, info.price),
                   OrPrice(q.regularMarketDayLow, info.price), info.price, info))
  }

  /** The two twins fail alike, and on success agree on the price record. */
  lemma OhlcExtendsPrice(resp: Response<Quote>)
    ensures OhlcFromQuote(resp).Ok? <==> PriceFromQuote(resp).Ok?
    ensures OhlcFromQuote(resp).Err? ==> OhlcFromQuote(resp).error == PriceFromQuote(resp).error
    ensures OhlcFromQuote(resp).Ok? ==> OhlcFromQuote(resp).value.info == PriceFromQuote(resp).value
  {
  }

  /** A quote with no open, high or low reports a flat bar at its price. */
  lemma MissingOhlcIsFlat(q: Quote, price: real)
    requires q.regularMarketPrice == Num(price)
    requires !q.regularMarketOpen.Num? && !q.regularMarketDayHigh.Num? && !q.regularMarketDayLow.Num?
    ensures OhlcFromQuote(Value(q)).Ok?
    ensures var bar := OhlcFromQuote(Value(q)).value;
            bar.open == bar.high == bar.low == bar.close == price
  {
  }

  // ---------------------------------------------------------------- history

  /** The chart interval and the number of points it is expected to give. */
  datatype Plan = Plan(interval: string, expectedPoints: int)

  /** The `days` to interval table. */
  function PlanFor(days: int): (p: Plan)
  {
    if days == 1 then Plan("2m", 195)
    else if days == 3 then Plan("5m", 576)
    else if days == 5 then Plan("15m", 320)
    else Plan("1d", days)
  }

  /** Only 1, 3 and 5 days are intraday; every other span is daily with one point expected per day. */
  lemma PlanIntraday(days: int)
    ensures PlanFor(days).interval != "1d" <==> days in {1, 3, 5}
    ensures days !in {1, 3, 5} ==> PlanFor(days).expectedPoints == days
    ensures days in {1, 3, 5} ==> PlanFor(days).expectedPoints > days
  {
  }

  /** The returned history: its points, its symbol, and the plan it was asked with. */
  datatype History = History(data: seq<HistoryPoint>, symbol: string, plan: Plan)

  /**
   * `getHistoryByDays` after the retried `chart` call: an absent chart or an
   * absent or empty quote list is an error; otherwise the pipeline runs and
   * the symbol defaults to the ticker.
   */
  function HistoryFromChart(resp: Response<Chart>, ticker: string, days: int): (r: Result<History, QuoteError>)
    ensures r.Err? <==> resp.Thrown? || resp.Absent? || resp.v.quotes.None? || resp.v.quotes.value == []
    ensures resp.Thrown? ==> r == Err(ProviderFailed(resp.message))
    ensures r.Err? && !resp.Thrown? ==> r == Err(NoHistoryData)
    ensures r.Ok? ==> r.value.plan == PlanFor(days)
                      && r.value.symbol == (if resp.v.metaSymbol == "" then ticker else resp.v.metaSymbol)
  {
    match resp
    case Thrown(m) => Err(ProviderFailed(m))
    case Absent => Err(NoHistoryData)
    case Value(chart) =>
      if chart.quotes.None? || chart.quotes.value == [] then Err(NoHistoryData)
      else Ok(History(HistoryPoints(chart.quotes.value), OrText(chart.metaSymbol, ticker), PlanFor(days)))
  }

  /**
   * A history holds exactly the quotes that have a close, mapped, ascending
   * by time; quotes that all lack a close give an empty history, not an error.
   */
  lemma HistoryKeepsClosedSorted(chart: Chart, ticker: string, days: int)
    requires chart.quotes.Some? && chart.quotes.value != []
    ensures var r := HistoryFromChart(Value(chart), ticker, days);
            && r.Ok?
            && Ascending(r.value.data)
            && multiset(r.value.data) == multiset(KeepClosed(chart.quotes.value))
            && (forall p :: p in r.value.data ==> exists q :: q in chart.quotes.value && HasClose(q) && ToPoint(q) == p)
            && (forall q :: q in chart.quotes.value && HasClose(q) ==> ToPoint(q) in r.value.data)
            && ((forall q :: q in chart.quotes.value ==> !HasClose(q)) ==> r.value.data == [])
  {
    HistoryPointsSpec(chart.quotes.value);
    if forall q :: q in chart.quotes.value ==> !HasClose(q) {
      NoClosesNoPoints(chart.quotes.value);
    }
  }

  // ---------------------------------------------------------------- search

  /** `quote.symbol && (quote.shortname || quote.longname)`. */
  predicate Listed(q: SearchQuote)
  {
    q.symbol != "" && (q.shortname != "" || q.longname != "")
  }

  /** The per-quote `map`. */
  function ToHit(q: SearchQuote): (h: SearchHit)
    ensures h.symbol == q.symbol && h.name == OrText(q.shortname, OrText(q.longname, q.symbol))
    ensures h.quoteType == OrText(q.quoteType, "EQUITY") && h.exchange == OrText(q.exchange, "Unknown")
    ensures h.region == OrText(q.market, "United States")
  {
    SearchHit(q.symbol, OrText(q.shortname, OrText(q.longname, q.symbol)), OrText(q.quoteType, "EQUITY"),
              OrText(q.exchange, "Unknown"), OrText(q.market, "United States"))
  }

  /**
   * `searchSymbols` after the retried call: no quotes, or a failed call, give
   * `[]`; otherwise the hits of the first ten listed quotes, in input order,
   * each with a symbol and a name.
   */
  function SearchFromResults(resp: Response<SearchResults>): (r: seq<SearchHit>)
    ensures |r| <= MaxSearchHits
    ensures !resp.Value? || resp.v.quotes.None? || resp.v.quotes.value == [] ==> r == []
    ensures forall h :: h in r ==> h.symbol != "" && h.name != ""
    ensures forall h :: h in r ==> exists q :: q in resp.v.quotes.value && Listed(q) && ToHit(q) == h
    ensures resp.Value? && resp.v.quotes.Some? ==>
              var listed := Filter(resp.v.quotes.value, Listed);
              && |r| == (if |listed| <= MaxSearchHits then |listed| else MaxSearchHits)
              && forall i :: 0 <= i < |r| ==> r[i] == ToHit(listed[i])
  {
    if !resp.Value? || resp.v.quotes.None? || resp.v.quotes.value == [] then []
    else
      var hits := FilterMap(resp.v.quotes.value, Listed, ToHit);
      var r := Take(hits, MaxSearchHits);
      assert forall h :: h in r ==> h in hits;
      r
  }

  /** With fewer than eleven listed quotes, every one of them is a hit. */
  lemma FewListedAllHit(results: SearchResults)
    requires results.quotes.Some?
    requires |FilterMap(results.quotes.value, Listed, ToHit)| <= MaxSearchHits
    ensures forall q :: q in results.quotes.value && Listed(q) ==> ToHit(q) in SearchFromResults(Value(results))
  {
  }

  // ---------------------------------------------------------------- trending

  /**
   * `getTrendingSymbols` after the retried call: `[]` unless `finance.result[0]`
   * exists, otherwise one entry per quote of that result.
   */
  function TrendingFromResponse(resp: Response<TrendingResponse>): (r: seq<Trend>)
    ensures !(resp.Value? && resp.v.finance.Some? && FirstResult(resp.v.finance.value).Some?) ==> r == []
    ensures resp.Value? && resp.v.finance.Some? && FirstResult(resp.v.finance.value).Some? ==>
              var quotes := QuotesOrEmpty(FirstResult(resp.v.finance.value).value);
              |r| == |quotes| && forall i :: 0 <= i < |r| ==> r[i] == ToTrend(quotes[i])
  {
    if resp.Value? && resp.v.finance.Some? && FirstResult(resp.v.finance.value).Some? then
      Trends(QuotesOrEmpty(FirstResult(resp.v.finance.value).value))
    else []
  }

  /** Every trending entry is named: by its short name, its long name, or else its symbol. */
  lemma TrendingNamesDefault(resp: Response<TrendingResponse>)
    ensures forall t :: t in TrendingFromResponse(resp) ==> t.name != "" || t.symbol == ""
  {
  }

  // ---------------------------------------------------------------- calls through retryApiCall

  /** `getCurrentPrice` of `src/services/yahooFinanceService.js`: retry the quote call, then validate. */
  method GetCurrentPrice(quoteCall: nat -> RetryPolicy.Attempt<Option<Quote>>)
    returns (r: Result<PriceInfo, QuoteError>, calls: nat)
    ensures 1 <= calls <= RetryPolicy.DefaultMaxRetries
    ensures forall i :: 0 <= i < calls - 1 ==> quoteCall(i).Rejected? && RetryPolicy.IsRetryableError(quoteCall(i).message)
    ensures quoteCall(calls - 1).Rejected? && RetryPolicy.IsRetryableError(quoteCall(calls - 1).message) ==>
              calls == RetryPolicy.DefaultMaxRetries
    ensures r == PriceFromQuote(Settled(quoteCall(calls - 1)))
  {
    var outcome, n, waits := RetryPolicy.RetryApiCall(quoteCall, RetryPolicy.DefaultMaxRetries, RetryPolicy.DefaultDelayMs);
    calls := n;
    r := PriceFromQuote(SettledOutcome(outcome));
  }

  /** `getCurrentPrice` of `src/yahooFinanceService.js`: retry the quote call, then validate with OHLC. */
  method GetCurrentOhlc(quoteCall: nat -> RetryPolicy.Attempt<Option<Quote>>)
    returns (r: Result<OhlcPrice, QuoteError>, calls: nat)
    ensures 1 <= calls <= RetryPolicy.DefaultMaxRetries
    ensures forall i :: 0 <= i < calls - 1 ==> quoteCall(i).Rejected? && RetryPolicy.IsRetryableError(quoteCall(i).message)
    ensures quoteCall(calls - 1).Rejected? && RetryPolicy.IsRetryableError(quoteCall(calls - 1).message) ==>
              calls == RetryPolicy.DefaultMaxRetries
    ensures r == OhlcFromQuote(Settled(quoteCall(calls - 1)))
  {
    var outcome, n, waits := RetryPolicy.RetryApiCall(quoteCall, RetryPolicy.DefaultMaxRetries, RetryPolicy.DefaultDelayMs);
    calls := n;
    r := OhlcFromQuote(SettledOutcome(outcome));
  }

  /** `getHistoryByDays`: retry the chart call, then run the pipeline. */
  method GetHistoryByDays(chartCall: nat -> RetryPolicy.Attempt<Option<Chart>>, ticker: string, days: int)
    returns (r: Result<History, QuoteError>, calls: nat)
    ensures 1 <= calls <= RetryPolicy.DefaultMaxRetries
    ensures forall i :: 0 <= i < calls - 1 ==> chartCall(i).Rejected? && RetryPolicy.IsRetryableError(chartCall(i).message)
    ensures chartCall(calls - 1).Rejected? && RetryPolicy.IsRetryableError(chartCall(calls - 1).message) ==>
              calls == RetryPolicy.DefaultMaxRetries
    ensures r == HistoryFromChart(Settled(chartCall(calls - 1)), ticker, days)
  {
    var outcome, n, waits := RetryPolicy.RetryApiCall(chartCall, RetryPolicy.DefaultMaxRetries, RetryPolicy.DefaultDelayMs);
    calls := n;
    r := HistoryFromChart(SettledOutcome(outcome), ticker, days);
  }

  /** `searchSymbols`: retry the search call; a call that still fails gives `[]`. */
  method SearchSymbols(searchCall: nat -> RetryPolicy.Attempt<Option<SearchResults>>)
    returns (r: seq<SearchHit>, calls: nat)
    ensures 1 <= calls <= RetryPolicy.DefaultMaxRetries
    ensures forall i :: 0 <= i < calls - 1 ==> searchCall(i).Rejected? && RetryPolicy.IsRetryableError(searchCall(i).message)
    ensures searchCall(calls - 1).Rejected? && RetryPolicy.IsRetryableError(searchCall(calls - 1).message) ==>
              calls == RetryPolicy.DefaultMaxRetries
    ensures r == SearchFromResults(Settled(searchCall(calls - 1)))
    ensures searchCall(calls - 1).Rejected? ==> r == []
  {
    var outcome, n, waits := RetryPolicy.RetryApiCall(searchCall, RetryPolicy.DefaultMaxRetries, RetryPolicy.DefaultDelayMs);
    calls := n;
    r := SearchFromResults(SettledOutcome(outcome));
  }

  /** `getTrendingSymbols`: retry the trending call; a call that still fails gives `[]`. */
  method GetTrendingSymbols(trendingCall: nat -> RetryPolicy.Attempt<Option<TrendingResponse>>)
    returns (r: seq<Trend>, calls: nat)
    ensures 1 <= calls <= RetryPolicy.DefaultMaxRetries
    ensures forall i :: 0 <= i < calls - 1 ==> trendingCall(i).Rejected? && RetryPolicy.IsRetryableError(trendingCall(i).message)
    ensures trendingCall(calls - 1).Rejected? && RetryPolicy.IsRetryableError(trendingCall(calls - 1).message) ==>
              calls == RetryPolicy.DefaultMaxRetries
    ensures r == TrendingFromResponse(Settled(trendingCall(calls - 1)))
    ensures trendingCall(calls - 1).Rejected? ==> r == []
  {
    var outcome, n, waits := RetryPolicy.RetryApiCall(trendingCall, RetryPolicy.DefaultMaxRetries, RetryPolicy.DefaultDelayMs);
    calls := n;
    r := TrendingFromResponse(SettledOutcome(outcome));
  }

  /** What an awaited `retryApiCall` that made at least one call gives its caller. */
  function SettledOutcome<T>(o: RetryPolicy.RetryOutcome<Option<T>>): (r: Response<T>)
    ensures o.Returned? ==> r == Settled(RetryPolicy.Resolved(o.value))
    ensures o.Rethrown? ==> r == Settled<T>(RetryPolicy.Rejected(o.message))
  {
    match o
    case Returned(v) => Settled(RetryPolicy.Resolved(v))
    case Rethrown(m) => Settled<T>(RetryPolicy.Rejected(m))
    case NoAttempt => Absent
  }
}
