/**
 * The in-memory holdings of `backend/server.js`: a module-level list and a
 * `nextId` counter changed by POST and DELETE `/api/portfolio`, and the price
 * extraction applied to the cached price feed.
 *
 * Quantities and prices go through `parseFloat` and are modelled as reals.
 */
module BackendPortfolio {
  import opened Common
  import opened Text
  import JsArray

  /** One holding. `purchasePrice` is `None` for JSON `null`. */
  datatype Holding = Holding(id: int, stockTicker: string, quantity: real, purchasePrice: Option<real>,
                             purchaseDate: string, createdAt: string)

  /** The POST body; `None` is a field that was not sent. */
  datatype HoldingRequest = HoldingRequest(stockTicker: Option<string>, quantity: Option<real>, purchasePrice: Option<real>)

  /** 400 for a missing field, 404 for an unknown id. */
  datatype BackendError = MissingField | NotFound

  /** A number that is truthy in JavaScript: present and non-zero. */
  predicate NumberGiven(f: Option<real>)
  {
    f.Some? && f.value != 0.0
  }

  /** `purchasePrice ? parseFloat(purchasePrice) : null`. */
  function PriceOrNull(f: Option<real>): (r: Option<real>)
    ensures r.Some? <==> NumberGiven(f)
    ensures r.Some? ==> r.value == f.value
  {
    if NumberGiven(f) then f else None
  }

  /** The cached feed's response; each `None` is an absent or falsy member. */
  datatype StockData = StockData(priceData: Option<PriceData>)
  /** `price_data`; an array is truthy even when it is empty. */
  datatype PriceData = PriceData(close: Option<seq<JsNumber>>)

  /** `extractPrice(stockData)`: the last close price, `undefined` for an empty list, `null` without one. */
  function ExtractPrice(stockData: Option<StockData>): (r: JsNumber)
    ensures (stockData.Some? && stockData.value.priceData.Some? && stockData.value.priceData.value.close.Some?) ==>
              var closes := stockData.value.priceData.value.close.value;
              r == if |closes| == 0 then Undefined else closes[|closes| - 1]
    ensures !(stockData.Some? && stockData.value.priceData.Some? && stockData.value.priceData.value.close.Some?) ==>
              r == Null
  {
    if stockData.Some? && stockData.value.priceData.Some? && stockData.value.priceData.value.close.Some? then
      var closes := stockData.value.priceData.value.close.value;
      if |closes| == 0 then Undefined else closes[|closes| - 1]
    else
      Null
  }

  /** A price list that grows by one close reports that close. */
  lemma ExtractPriceAfterAppend(closes: seq<JsNumber>, latest: JsNumber)
    ensures ExtractPrice(Some(StockData(Some(PriceData(Some(closes + [latest])))))) == latest
  {
  }

  /** Ids strictly increase along the list. */
  predicate IdsAscending(h: seq<Holding>)
  {
    forall i, j :: 0 <= i < j < |h| ==> h[i].id < h[j].id
  }

  class HoldingsStore {
    /** `portfolio`. */
    var portfolio: seq<Holding>
    /** `nextId`. */
    var nextId: int

    ghost predicate Valid()
      reads this
    {
      IdsAscending(portfolio) && forall k :: 0 <= k < |portfolio| ==> portfolio[k].id < nextId
    }

    /** An empty list and `nextId = 1`. */
    constructor ()
      ensures Valid() && portfolio == [] && nextId == 1
    {
      portfolio := [];
      nextId := 1;
    }

    /** POST `/api/portfolio`: ticker and quantity required; the date stamps are given by the caller. */
    method AddHolding(req: HoldingRequest, today: string, now: string) returns (r: Result<Holding, BackendError>)
      requires Valid()
      modifies this
      ensures Valid()
      ensures r.Err? <==> !(req.stockTicker.Some? && req.stockTicker.value != "" && NumberGiven(req.quantity))
      ensures r.Err? ==> r == Err(MissingField) && portfolio == old(portfolio) && nextId == old(nextId)
      ensures r.Ok? ==>
                && r.value == Holding(old(nextId), Upper(req.stockTicker.value), req.quantity.value,
                                      PriceOrNull(req.purchasePrice), today, now)
                && portfolio == old(portfolio) + [r.value]
                && nextId == old(nextId) + 1
    {
      if !(req.stockTicker.Some? && req.stockTicker.value != "") || !NumberGiven(req.quantity) {
        return Err(MissingField);
      }
      var holding := Holding(nextId, Upper(req.stockTicker.value), req.quantity.value,
                             PriceOrNull(req.purchasePrice), today, now);
      nextId := nextId + 1;
      portfolio := portfolio + [holding];
      r := Ok(holding);
    }

    /** DELETE `/api/portfolio/:id`: splice out the matching holding and return it. */
    method DeleteHolding(id: int) returns (r: Result<Holding, BackendError>)
      requires Valid()
      modifies this
      ensures Valid()
      ensures nextId == old(nextId)
      ensures r.Err? <==> forall k :: 0 <= k < |old(portfolio)| ==> old(portfolio)[k].id != id
      ensures r.Err? ==> r == Err(NotFound) && portfolio == old(portfolio)
      ensures r.Ok? ==> r.value.id == id
                        && exists k :: 0 <= k < |old(portfolio)| && old(portfolio)[k] == r.value
                                       && portfolio == JsArray.RemoveAt(old(portfolio), k)
      ensures r.Ok? ==> |portfolio| == |old(portfolio)| - 1
    {
      var index := JsArray.FindIndex(portfolio, (x: Holding) => x.id == id);
      if index == -1 {
        return Err(NotFound);
      }
      var deleted := portfolio[index];
      portfolio := JsArray.RemoveAt(portfolio, index);
      r := Ok(deleted);
    }
  }
}
