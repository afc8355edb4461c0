/**
 * The older `YahooFinanceService` of `services/yahooFinanceService.js`. It
 * calls the provider once, without retries, so each operation is a function
 * of that one call's response. It differs from the service in `src/` in
 * several places, each stated by a lemma against `QuoteService`:
 * a price of 0 is rejected, one day of history is asked at 5-minute
 * intervals and cut to its last 50 points, search needs a short name and
 * fails when nothing is found, and trending fails without a result list.
 */
module LegacyQuoteService {
  import opened Common
  import opened QuoteData
  import QuoteService

  // ---------------------------------------------------------------- current price

  /** `!quote || !quote.regularMarketPrice`: absent, `null`, `undefined` and 0 are all missing. */
  predicate HasTruthyPrice(resp: Response<Quote>)
  {
    resp.Value? && resp.v.regularMarketPrice.Num? && resp.v.regularMarketPrice.x != 0.0
  }

  /** `getCurrentPrice`: a truthy price, and the other fields defaulted. */
  function CurrentPrice(resp: Response<Quote>): (r: Result<PriceInfo, QuoteError>)
    ensures r.Ok? <==> HasTruthyPrice(resp)
    ensures resp.Thrown? ==> r == Err(ProviderFailed(resp.message))
    ensures !resp.Thrown? && !HasTruthyPrice(resp) ==> r == Err(NoPriceData)
    ensures r.Ok? ==> r.value.price == resp.v.regularMarketPrice.x != 0.0
  {
    match resp
    case Thrown(m) => Err(ProviderFailed(m))
    case Absent => Err(NoPriceData)
    case Value(q) =>
      if q.regularMarketPrice.Num? && q.regularMarketPrice.x != 0.0 then Ok(PriceFields(q, q.regularMarketPrice.x))
      else Err(NoPriceData)
  }

  /**
   * The two services answer a quote alike unless its price is exactly 0,
   * which the service in `src/` returns and this one rejects.
   */
  lemma PriceVariantsAgree(resp: Response<Quote>)
    ensures !(resp.Value? && resp.v.regularMarketPrice == Num(0.0)) ==>
              CurrentPrice(resp) == QuoteService.PriceFromQuote(resp)
    ensures resp.Value? && resp.v.regularMarketPrice == Num(0.0) ==>
              && CurrentPrice(resp) == Err(NoPriceData)
              && QuoteService.PriceFromQuote(resp).Ok?
              && QuoteService.PriceFromQuote(resp).value.price == 0.0
  {
  }

  // ---------------------------------------------------------------- history

  /** `days === 1 ? '5m' : '1d'`. */
  function Interval(days: int): (interval: string)
  {
    if days == 1 then "5m" else "1d"
  }

  /** The two interval tables agree on every span but 1, 3 and 5 days, and differ on each of those. */
  lemma IntervalsAgree(days: int)
    ensures Interval(days) == QuoteService.PlanFor(days).interval <==> days !in {1, 3, 5}
  {
  }

  /** The most points one day of history keeps. */
  const OneDayPoints: nat := 50

  /** The returned history: its points, its symbol and the interval it was asked with. */
  datatype History = History(data: seq<HistoryPoint>, symbol: string, interval: string)

  /** `getHistoryByDays`: the same pipeline as in `src/`, then the last 50 points of a one-day history. */
  function HistoryFromChart(resp: Response<Chart>, ticker: string, days: int): (r: Result<History, QuoteError>)
    ensures r.Err? <==> resp.Thrown? || resp.Absent? || resp.v.quotes.None? || resp.v.quotes.value == []
    ensures resp.Thrown? ==> r == Err(ProviderFailed(resp.message))
    ensures r.Err? && !resp.Thrown? ==> r == Err(NoHistoryData)
    ensures r.Ok? ==> r.value.interval == Interval(days)
                      && r.value.symbol == (if resp.v.metaSymbol == "" then ticker else resp.v.metaSymbol)
    ensures r.Ok? && days == 1 ==> |r.value.data| <= OneDayPoints
  {
    match resp
    case Thrown(m) => Err(ProviderFailed(m))
    case Absent => Err(NoHistoryData)
    case Value(chart) =>
      if chart.quotes.None? || chart.quotes.value == [] then Err(NoHistoryData)
      else
        var points := HistoryPoints(chart.quotes.value);
        Ok(History(if days == 1 then TakeLast(points, OneDayPoints) else points,
                   OrText(chart.metaSymbol, ticker), Interval(days)))
  }

  /** A suffix of an ascending history is ascending. */
  lemma SuffixAscending(ps: seq<HistoryPoint>, k: nat)
    requires Ascending(ps) && k <= |ps|
    ensures Ascending(ps[k..])
  {
    assert forall i :: 0 <= i < |ps| - k ==> ps[k..][i] == ps[k + i];
  }

  /**
   * Given the same chart, the two services fail alike; a one-day history here
   * is the last (at most) 50 points of the one in `src/`, and any other span
   * gives the same points. Either way the points are ascending by time.
   */
  lemma HistoryVariantsAgree(resp: Response<Chart>, ticker: string, days: int)
    ensures HistoryFromChart(resp, ticker, days).Ok? <==> QuoteService.HistoryFromChart(resp, ticker, days).Ok?
    ensures HistoryFromChart(resp, ticker, days).Ok? ==>
              var mine := HistoryFromChart(resp, ticker, days).value;
              var theirs := QuoteService.HistoryFromChart(resp, ticker, days).value;
              && mine.symbol == theirs.symbol
              && mine.data == (if days == 1 then TakeLast(theirs.data, OneDayPoints) else theirs.data)
              && Ascending(mine.data)
  {
    if HistoryFromChart(resp, ticker, days).Ok? {
      var points := HistoryPoints(resp.v.quotes.value);
      HistoryPointsSpec(resp.v.quotes.value);
      if days == 1 {
        SuffixAscending(points, |points| - |TakeLast(points, OneDayPoints)|);
      }
    }
  }

  // ---------------------------------------------------------------- search

  /** `quote.symbol && quote.shortname`. */
  predicate Listed(q: SearchQuote)
  {
    q.symbol != "" && q.shortname != ""
  }

  /** The per-quote `map`; the region is always "United States". */
  function ToHit(q: SearchQuote): (h: SearchHit)
    ensures h.symbol == q.symbol && h.name == OrText(q.shortname, OrText(q.longname, q.symbol))
    ensures h.quoteType == OrText(q.quoteType, "EQUITY") && h.exchange == OrText(q.exchange, "Unknown")
    ensures h.region == "United States"
  {
    SearchHit(q.symbol, OrText(q.shortname, OrText(q.longname, q.symbol)), OrText(q.quoteType, "EQUITY"),
              OrText(q.exchange, "Unknown"), "United States")
  }

  /**
   * `searchSymbols`: no quotes is an error; otherwise the hits of the first
   * ten quotes with a symbol and a short name, in input order, each named by
   * that short name.
   */
  function SearchFromResults(resp: Response<SearchResults>): (r: Result<seq<SearchHit>, QuoteError>)
    ensures r.Err? <==> !resp.Value? || resp.v.quotes.None? || resp.v.quotes.value == []
    ensures resp.Thrown? ==> r == Err(ProviderFailed(resp.message))
    ensures r.Err? && !resp.Thrown? ==> r == Err(NoSearchResults)
    ensures r.Ok? ==> |r.value| <= MaxSearchHits
    ensures r.Ok? ==> forall h :: h in r.value ==>
              exists q :: q in resp.v.quotes.value && Listed(q) && h == ToHit(q) && h.name == q.shortname
    ensures r.Ok? ==>
              var listed := Filter(resp.v.quotes.value, Listed);
              && |r.value| == (if |listed| <= MaxSearchHits then |listed| else MaxSearchHits)
              && forall i :: 0 <= i < |r.value| ==> r.value[i] == ToHit(listed[i])
  {
    match resp
    case Thrown(m) => Err(ProviderFailed(m))
    case Absent => Err(NoSearchResults)
    case Value(results) =>
      if results.quotes.None? || results.quotes.value == [] then Err(NoSearchResults)
      else
        var hits := FilterMap(results.quotes.value, Listed, ToHit);
        var r := Take(hits, MaxSearchHits);
        assert forall h :: h in r ==> h in hits;
        Ok(r)
  }

  /**
   * Every hit here comes from a quote the service in `src/` also lists, and is
   * that service's hit for it with the region fixed to "United States".
   */
  lemma SearchNarrower(resp: Response<SearchResults>)
    requires SearchFromResults(resp).Ok?
    ensures forall h :: h in SearchFromResults(resp).value ==>
              exists q :: q in resp.v.quotes.value && QuoteService.Listed(q)
                          && h == QuoteService.ToHit(q).(region := "United States")
  {
    forall h | h in SearchFromResults(resp).value
      ensures exists q :: q in resp.v.quotes.value && QuoteService.Listed(q)
                          && h == QuoteService.ToHit(q).(region := "United States")
    {
      var q :| q in resp.v.quotes.value && Listed(q) && h == ToHit(q);
      assert QuoteService.Listed(q);
    }
  }

  /** Filtering by two tests that agree on every element gives the same sequence. */
  lemma {:induction false} FilterAgrees(s: seq<SearchQuote>, keep: SearchQuote -> bool, keep': SearchQuote -> bool)
    requires forall q :: q in s ==> keep(q) == keep'(q)
    ensures Filter(s, keep) == Filter(s, keep')
  {
    if s != [] {
      FilterCons(s, keep);
      FilterCons(s, keep');
      FilterAgrees(s[1..], keep, keep');
    }
  }

  /**
   * The converse of `SearchNarrower`: when every quote the service in `src/`
   * lists has a short name, a non-empty search gives the same hits here, one for
   * one and in the same order, with the region fixed to "United States".
   */
  lemma SearchVariantsAgree(results: SearchResults)
    requires results.quotes.Some? && results.quotes.value != []
    requires forall q :: q in results.quotes.value && QuoteService.Listed(q) ==> q.shortname != ""
    ensures SearchFromResults(Value(results)).Ok?
    ensures var mine, theirs := SearchFromResults(Value(results)).value, QuoteService.SearchFromResults(Value(results));
            && |mine| == |theirs|
            && forall i :: 0 <= i < |mine| ==> mine[i] == theirs[i].(region := "United States")
  {
    FilterAgrees(results.quotes.value, Listed, QuoteService.Listed);
  }

  // ---------------------------------------------------------------- trending

  /** `getTrendingSymbols`: an error without `finance.result`, otherwise one entry per quote of `result[0]`, if any. */
  function TrendingFromResponse(resp: Response<TrendingResponse>): (r: Result<seq<Trend>, QuoteError>)
    ensures r.Err? <==> !(resp.Value? && resp.v.finance.Some? && resp.v.finance.value.result.Some?)
    ensures resp.Thrown? ==> r == Err(ProviderFailed(resp.message))
    ensures r.Err? && !resp.Thrown? ==> r == Err(NoTrendingData)
    ensures r.Ok? && FirstResult(resp.v.finance.value).None? ==> r.value == []
    ensures r.Ok? && FirstResult(resp.v.finance.value).Some? ==>
              var quotes := QuotesOrEmpty(FirstResult(resp.v.finance.value).value);
              |r.value| == |quotes| && forall i :: 0 <= i < |quotes| ==> r.value[i] == ToTrend(quotes[i])
  {
    match resp
    case Thrown(m) => Err(ProviderFailed(m))
    case Absent => Err(NoTrendingData)
    case Value(trending) =>
      if trending.finance.None? || trending.finance.value.result.None? then Err(NoTrendingData)
      else
        var first := FirstResult(trending.finance.value);
        Ok(Trends(if first.Some? then QuotesOrEmpty(first.value) else []))
  }

  /** Where this service returns a list, the service in `src/` returns the same one; where it fails, that one returns `[]`. */
  lemma TrendingVariantsAgree(resp: Response<TrendingResponse>)
    ensures TrendingFromResponse(resp).Ok? ==> QuoteService.TrendingFromResponse(resp) == TrendingFromResponse(resp).value
    ensures TrendingFromResponse(resp).Err? ==> QuoteService.TrendingFromResponse(resp) == []
  {
  }
}
