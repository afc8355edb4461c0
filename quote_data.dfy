/**
 * The provider records the quote services receive, and the post-processing
 * they share: JavaScript's `||` defaults, the history pipeline (drop quotes
 * without a close, map, sort by time) and the trending-quote shaping.
 */
module QuoteData {
  import opened Common

  /** `v || 0` on a number: `undefined`, `null` and 0 all give 0. */
  function OrZero(v: JsNumber): (r: real)
    ensures v.Num? && v.x != 0.0 ==> r == v.x
    ensures !v.Num? ==> r == 0.0
    ensures v == Num(0.0) ==> r == 0.0
  {
    if v.Num? && v.x != 0.0 then v.x else 0.0
  }

  /** `s || fallback` on a string: the empty (or missing) string gives the fallback. */
  function OrText(s: string, fallback: string): (r: string)
    ensures s != "" ==> r == s
    ensures s == "" ==> r == fallback
  {
    if s != "" then s else fallback
  }

  /** What a provider call gave the service: a value, `null`/`undefined`, or an error. */
  datatype Response<T> = Value(v: T) | Absent | Thrown(message: string)

  /** Why a service call fails. */
  datatype QuoteError = NoPriceData | NoHistoryData | NoSearchResults | NoTrendingData | ProviderFailed(message: string)

  // ---------------------------------------------------------------- quotes

  /** The fields of `yahooFinance.quote(symbol)` the services read. A missing currency is "". */
  datatype Quote = Quote(regularMarketPrice: JsNumber, regularMarketOpen: JsNumber, regularMarketDayHigh: JsNumber,
                         regularMarketDayLow: JsNumber, regularMarketChange: JsNumber,
                         regularMarketChangePercent: JsNumber, regularMarketVolume: JsNumber,
                         previousClose: JsNumber, marketCap: JsNumber, currency: string)

  /** The price record `getCurrentPrice` returns. */
  datatype PriceInfo = PriceInfo(price: real, change: real, changePercent: real, volume: real,
                                 previousClose: real, marketCap: real, currency: string)

  /** The price record with the quote's price and every other field defaulted. */
  function PriceFields(q: Quote, price: real): (r: PriceInfo)
    ensures r.price == price
    ensures r.change == OrZero(q.regularMarketChange) && r.changePercent == OrZero(q.regularMarketChangePercent)
    ensures r.volume == OrZero(q.regularMarketVolume) && r.previousClose == OrZero(q.previousClose)
    ensures r.marketCap == OrZero(q.marketCap)
    ensures r.currency == if q.currency == "" then "USD" else q.currency
  {
    PriceInfo(price, OrZero(q.regularMarketChange), OrZero(q.regularMarketChangePercent),
              OrZero(q.regularMarketVolume), OrZero(q.previousClose), OrZero(q.marketCap), OrText(q.currency, "USD"))
  }

  // ---------------------------------------------------------------- history

  /** One element of `chart.quotes`; `date` is in milliseconds. */
  datatype ChartQuote = ChartQuote(date: int, open: JsNumber, high: JsNumber, low: JsNumber,
                                   close: JsNumber, volume: JsNumber)

  /** `yahooFinance.chart(...)`: the quotes (`None` when absent) and `meta.symbol` ("" when absent). */
  datatype Chart = Chart(quotes: Option<seq<ChartQuote>>, metaSymbol: string)

  /** One point of the returned history. */
  datatype HistoryPoint = HistoryPoint(timestamp: int, open: JsNumber, high: JsNumber, low: JsNumber,
                                       close: real, volume: real)

  /** `quote.close !== null && quote.close !== undefined`. */
  predicate HasClose(q: ChartQuote)
  {
    q.close.Num?
  }

  /** The `map` step: open, high and low pass through, volume defaults to 0. */
  function ToPoint(q: ChartQuote): (p: HistoryPoint)
    requires HasClose(q)
    ensures p.timestamp == q.date && p.close == q.close.x
    ensures p.open == q.open && p.high == q.high && p.low == q.low
    ensures p.volume == OrZero(q.volume)
  {
    HistoryPoint(q.date, q.open, q.high, q.low, q.close.x, OrZero(q.volume))
  }

  /** `s.filter(keep)`: the kept elements; `FilterCounts` and `FilterAppend` state their number and order. */
  function Filter<A(!new)>(s: seq<A>, keep: A -> bool): (r: seq<A>)
    ensures |r| <= |s|
    ensures forall x :: x in r <==> x in s && keep(x)
  {
    if s == [] then []
    else
      var rest := Filter(s[1..], keep);
      assert forall x :: x in s <==> x == s[0] || x in s[1..];
      if keep(s[0]) then [s[0]] + rest else rest
  }

  /** Each kept element occurs as often as in the input, and nothing else occurs. */
  lemma {:induction false} FilterCounts<A(!new)>(s: seq<A>, keep: A -> bool)
    ensures forall x :: multiset(Filter(s, keep))[x] == if keep(x) then multiset(s)[x] else 0
  {
    if s != [] {
      FilterCounts(s[1..], keep);
      assert s == [s[0]] + s[1..];
      assert multiset(s) == multiset{s[0]} + multiset(s[1..]);
    }
  }

  /** Filtering a non-empty sequence: its head, if kept, then the filtered rest. */
  lemma FilterCons<A(!new)>(s: seq<A>, keep: A -> bool)
    requires s != []
    ensures Filter(s, keep) == (if keep(s[0]) then [s[0]] else []) + Filter(s[1..], keep)
  {
  }

  /** Filtering a concatenation filters each part in turn, so the kept elements keep their order. */
  lemma {:induction false} FilterAppend<A(!new)>(s: seq<A>, t: seq<A>, keep: A -> bool)
    ensures Filter(s + t, keep) == Filter(s, keep) + Filter(t, keep)
  {
    if s == [] {
      assert s + t == t;
    } else {
      assert (s + t)[0] == s[0] && (s + t)[1..] == s[1..] + t;
      FilterCons(s + t, keep);
      FilterCons(s, keep);
      FilterAppend(s[1..], t, keep);
    }
  }

  /** The `filter` and `map` steps: one point per quote with a close, in input order. */
  function KeepClosed(qs: seq<ChartQuote>): (ps: seq<HistoryPoint>)
    ensures |ps| <= |qs|
    ensures |ps| == |Filter(qs, HasClose)|
    ensures forall i :: 0 <= i < |ps| ==> HasClose(Filter(qs, HasClose)[i]) && ps[i] == ToPoint(Filter(qs, HasClose)[i])
    ensures forall p :: p in ps ==> exists q :: q in qs && HasClose(q) && ToPoint(q) == p
    ensures forall q :: q in qs && HasClose(q) ==> ToPoint(q) in ps
  {
    var kept := Filter(qs, HasClose);
    var ps := seq(|kept|, i requires 0 <= i < |kept| => ToPoint(kept[i]));
    assert forall i :: 0 <= i < |kept| ==> kept[i] in qs && HasClose(kept[i]);
    ps
  }

  /** Timestamps never decrease along the sequence. */
  predicate Ascending(ps: seq<HistoryPoint>)
  {
    forall i, j :: 0 <= i < j < |ps| ==> ps[i].timestamp <= ps[j].timestamp
  }

  /** How many points of an ascending sequence are strictly earlier than `t`. */
  function EarlierCount(ps: seq<HistoryPoint>, t: int): (n: nat)
    requires Ascending(ps)
    ensures n <= |ps|
    ensures forall i :: 0 <= i < n ==> ps[i].timestamp < t
    ensures forall i :: n <= i < |ps| ==> ps[i].timestamp >= t
  {
    if ps == [] || ps[0].timestamp >= t then 0 else 1 + EarlierCount(ps[1..], t)
  }

  /** Put `p` before every point that is not earlier than it, so that equal timestamps keep their input order. */
  function InsertByTime(ps: seq<HistoryPoint>, p: HistoryPoint): (r: seq<HistoryPoint>)
    requires Ascending(ps)
    ensures Ascending(r)
    ensures multiset(r) == multiset(ps) + multiset{p}
  {
    var n := EarlierCount(ps, p.timestamp);
    InsertAt(ps, n, p);
    var r := ps[..n] + [p] + ps[n..];
    assert forall i, j :: 0 <= i < j < |r| ==> r[i].timestamp <= r[j].timestamp;
    r
  }

  /** `.sort((a, b) => a.timestamp - b.timestamp)`, a stable sort, as insertion from the back. */
  function SortByTime(ps: seq<HistoryPoint>): (r: seq<HistoryPoint>)
    ensures Ascending(r)
    ensures multiset(r) == multiset(ps)
  {
    if ps == [] then []
    else
      assert ps == [ps[0]] + ps[1..];
      InsertByTime(SortByTime(ps[1..]), ps[0])
  }

  /** The whole pipeline. */
  function HistoryPoints(qs: seq<ChartQuote>): seq<HistoryPoint>
  {
    SortByTime(KeepClosed(qs))
  }

  /**
   * The history keeps exactly the quotes with a close, mapped, and is ascending by
   * time; it has as many points as quotes with a close, counted with repetition.
   */
  lemma HistoryPointsSpec(qs: seq<ChartQuote>)
    ensures Ascending(HistoryPoints(qs))
    ensures multiset(HistoryPoints(qs)) == multiset(KeepClosed(qs))
    ensures forall p :: p in HistoryPoints(qs) ==> exists q :: q in qs && HasClose(q) && ToPoint(q) == p
    ensures forall q :: q in qs && HasClose(q) ==> ToPoint(q) in HistoryPoints(qs)
  {
    SameElements(HistoryPoints(qs), KeepClosed(qs));
  }

  /** Sequences with the same multiset have the same elements. */
  lemma SameElements(a: seq<HistoryPoint>, b: seq<HistoryPoint>)
    requires multiset(a) == multiset(b)
    ensures forall p :: p in a <==> p in b
  {
    forall p
      ensures p in a <==> p in b
    {
      assert p in a <==> p in multiset(a);
      assert p in b <==> p in multiset(b);
    }
  }

  /** Quotes that all lack a close give an empty history, not an error. */
  lemma NoClosesNoPoints(qs: seq<ChartQuote>)
    requires forall q :: q in qs ==> !HasClose(q)
    ensures HistoryPoints(qs) == []
  {
    HistoryPointsSpec(qs);
    var h := HistoryPoints(qs);
    forall p
      ensures p !in multiset(h)
    {
      assert p in multiset(h) <==> p in h;
    }
    assert multiset(h) == multiset{};
  }

  /** `s.filter(keep).map(f)`: the image of each kept element, in input order. */
  function FilterMap<A(!new), B>(s: seq<A>, keep: A -> bool, f: A -> B): (r: seq<B>)
    ensures |r| <= |s|
    ensures |r| == |Filter(s, keep)| && forall i :: 0 <= i < |r| ==> r[i] == f(Filter(s, keep)[i])
    ensures forall y :: y in r ==> exists x :: x in s && keep(x) && f(x) == y
    ensures forall x :: x in s && keep(x) ==> f(x) in r
  {
    var kept := Filter(s, keep);
    assert forall i :: 0 <= i < |kept| ==> kept[i] in s && keep(kept[i]);
    seq(|kept|, i requires 0 <= i < |kept| => f(kept[i]))
  }

  /** `s.slice(0, n)`: the first `n` elements, or all of them. */
  function Take<T>(s: seq<T>, n: nat): (r: seq<T>)
    ensures |r| == if |s| <= n then |s| else n
    ensures r == s[..|r|]
  {
    if |s| <= n then s else s[..n]
  }

  /** `s.slice(-n)` for `n > 0`: the last `n` elements, or all of them. */
  function TakeLast<T>(s: seq<T>, n: nat): (r: seq<T>)
    requires n > 0
    ensures |r| == if |s| <= n then |s| else n
    ensures r == s[|s| - |r|..]
  {
    if |s| <= n then s else s[|s| - n..]
  }

  // ---------------------------------------------------------------- search

  /** One element of `search(keywords).quotes`; missing strings are "". */
  datatype SearchQuote = SearchQuote(symbol: string, shortname: string, longname: string,
                                     quoteType: string, exchange: string, market: string)

  /** `yahooFinance.search(...)`: the quotes, `None` when absent. */
  datatype SearchResults = SearchResults(quotes: Option<seq<SearchQuote>>)

  /** One search hit as returned. */
  datatype SearchHit = SearchHit(symbol: string, name: string, quoteType: string, exchange: string, region: string)

  /** The most hits a search returns. */
  const MaxSearchHits: nat := 10

  // ---------------------------------------------------------------- trending

  /** One element of `finance.result[0].quotes`; missing strings are "". */
  datatype TrendingQuote = TrendingQuote(symbol: string, shortName: string, longName: string,
                                         regularMarketPrice: JsNumber, regularMarketChange: JsNumber,
                                         regularMarketChangePercent: JsNumber)

  /** One trending entry as returned. */
  datatype Trend = Trend(symbol: string, name: string, price: real, change: real, changePercent: real)

  /** `yahooFinance.trendingSymbols(...)`: `finance.result`, each `None` absent. */
  datatype TrendingResponse = TrendingResponse(finance: Option<Finance>)
  datatype Finance = Finance(result: Option<seq<Option<TrendingResult>>>)
  datatype TrendingResult = TrendingResult(quotes: Option<seq<TrendingQuote>>)

  /** The per-quote `map` of `getTrendingSymbols`. */
  function ToTrend(q: TrendingQuote): (t: Trend)
    ensures t.symbol == q.symbol
    ensures q.shortName != "" ==> t.name == q.shortName
    ensures q.shortName == "" && q.longName != "" ==> t.name == q.longName
    ensures q.shortName == "" && q.longName == "" ==> t.name == q.symbol
    ensures t.price == OrZero(q.regularMarketPrice) && t.change == OrZero(q.regularMarketChange)
    ensures t.changePercent == OrZero(q.regularMarketChangePercent)
  {
    Trend(q.symbol, OrText(q.shortName, OrText(q.longName, q.symbol)), OrZero(q.regularMarketPrice),
          OrZero(q.regularMarketChange), OrZero(q.regularMarketChangePercent))
  }

  /** The shaped list: one entry per quote, in order. */
  function Trends(qs: seq<TrendingQuote>): (r: seq<Trend>)
    ensures |r| == |qs| && forall i :: 0 <= i < |qs| ==> r[i] == ToTrend(qs[i])
  {
    seq(|qs|, i requires 0 <= i < |qs| => ToTrend(qs[i]))
  }

  /** `result[0]`, when the result list has a non-null first element. */
  function FirstResult(f: Finance): (r: Option<TrendingResult>)
    ensures r.Some? <==> f.result.Some? && |f.result.value| > 0 && f.result.value[0].Some?
  {
    if f.result.Some? && |f.result.value| > 0 then f.result.value[0] else None
  }

  /** `result[0].quotes || []`. */
  function QuotesOrEmpty(r: TrendingResult): seq<TrendingQuote>
  {
    if r.quotes.Some? then r.quotes.value else []
  }
}
