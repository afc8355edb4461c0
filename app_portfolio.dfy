/**
 * The in-memory portfolio of `src/app.js`: a module-level list of items and a
 * `nextId` counter, changed by the POST, PUT and DELETE `/api/portfolio`
 * handlers and read by the GET handlers.
 *
 * Prices are integer cents. The ticker check against the quote provider is the
 * oracle `quoteOk`, asked about the upper-cased ticker.
 */
module AppPortfolio {
  import opened Common
  import opened Text
  import JsArray

  type Cents = int

  /** One portfolio entry. */
  datatype Item = Item(id: int, stockTicker: string, quantity: int, purchasePrice: Cents,
                       purchaseDate: string, createdAt: string)

  /** The body of a POST or PUT; `None` is a field that was not sent. */
  datatype ItemRequest = ItemRequest(stockTicker: Option<string>, quantity: Option<int>,
                                     purchasePrice: Option<Cents>, purchaseDate: Option<string>)

  /** The handlers' error responses (400 for the first three, 404 for the last). */
  datatype AppError = MissingField | NotPositive | InvalidTicker | NotFound

  /** A string field is truthy: sent and non-empty. */
  predicate TextGiven(f: Option<string>)
  {
    f.Some? && f.value != ""
  }

  /** A numeric field is truthy: sent and non-zero. */
  predicate NumberGiven(f: Option<int>)
  {
    f.Some? && f.value != 0
  }

  /** Ids strictly increase along the list; in particular no id occurs twice. */
  predicate IdsAscending(items: seq<Item>)
  {
    forall i, j :: 0 <= i < j < |items| ==> items[i].id < items[j].id
  }

  /** The POST body checks: every field present, then quantity and price positive. */
  function CheckNewItem(req: ItemRequest): (e: Option<AppError>)
    ensures e.None? <==>
              && TextGiven(req.stockTicker) && NumberGiven(req.quantity)
              && NumberGiven(req.purchasePrice) && TextGiven(req.purchaseDate)
              && req.quantity.value > 0 && req.purchasePrice.value > 0
    ensures e == Some(MissingField) <==>
              !(TextGiven(req.stockTicker) && NumberGiven(req.quantity)
                && NumberGiven(req.purchasePrice) && TextGiven(req.purchaseDate))
    ensures e.Some? ==> e.value in {MissingField, NotPositive}
  {
    if !TextGiven(req.stockTicker) || !NumberGiven(req.quantity) || !NumberGiven(req.purchasePrice) || !TextGiven(req.purchaseDate) then
      Some(MissingField)
    else if req.quantity.value <= 0 || req.purchasePrice.value <= 0 then
      Some(NotPositive)
    else
      None
  }

  /** The PUT field updates: each truthy field overwrites its column; nothing else changes. */
  function Overwrite(item: Item, req: ItemRequest): (r: Item)
    ensures r.id == item.id && r.createdAt == item.createdAt
    ensures !TextGiven(req.stockTicker) ==> r.stockTicker == item.stockTicker
    ensures !NumberGiven(req.quantity) ==> r.quantity == item.quantity
    ensures !NumberGiven(req.purchasePrice) ==> r.purchasePrice == item.purchasePrice
    ensures !TextGiven(req.purchaseDate) ==> r.purchaseDate == item.purchaseDate
    ensures TextGiven(req.stockTicker) ==> r.stockTicker == Upper(req.stockTicker.value)
    ensures NumberGiven(req.quantity) ==> r.quantity == req.quantity.value
    ensures NumberGiven(req.purchasePrice) ==> r.purchasePrice == req.purchasePrice.value
    ensures TextGiven(req.purchaseDate) ==> r.purchaseDate == req.purchaseDate.value
  {
    item.(stockTicker := if TextGiven(req.stockTicker) then Upper(req.stockTicker.value) else item.stockTicker,
          quantity := if NumberGiven(req.quantity) then req.quantity.value else item.quantity,
          purchasePrice := if NumberGiven(req.purchasePrice) then req.purchasePrice.value else item.purchasePrice,
          purchaseDate := if TextGiven(req.purchaseDate) then req.purchaseDate.value else item.purchaseDate)
  }

  /** A PUT sent without any truthy field leaves the item as it was. */
  lemma OverwriteNothing(item: Item, req: ItemRequest)
    requires !TextGiven(req.stockTicker) && !NumberGiven(req.quantity)
    requires !NumberGiven(req.purchasePrice) && !TextGiven(req.purchaseDate)
    ensures Overwrite(item, req) == item
  {
  }

  /** Sending the same PUT twice leaves the item as the first one did. */
  lemma OverwriteIdempotent(item: Item, req: ItemRequest)
    ensures Overwrite(Overwrite(item, req), req) == Overwrite(item, req)
  {
    if TextGiven(req.stockTicker) {
      UpperIdempotent(req.stockTicker.value);
    }
  }

  /** Unlike POST, PUT does not check signs: a negative quantity is stored as sent. */
  lemma OverwriteKeepsNegativeQuantity(item: Item, q: int)
    requires q < 0
    ensures Overwrite(item, ItemRequest(None, Some(q), None, None)).quantity == q
    ensures CheckNewItem(ItemRequest(Some(item.stockTicker), Some(q), Some(1), Some("d"))).Some?
  {
  }

  /** An item as the GET list reports it: with or without a current quote. */
  datatype Valuation = Valuation(item: Item, currentPrice: Option<Cents>, currentValue: Option<int>,
                                 purchaseValue: int, gainLoss: Option<int>)

  /** The per-item enrichment of GET `/api/portfolio`; `quote` is `None` when the quote failed. */
  function Value(item: Item, quote: Option<Cents>): (v: Valuation)
    ensures v.item == item
    ensures v.purchaseValue == item.purchasePrice * item.quantity
    ensures v.currentPrice == quote
    ensures v.currentValue.Some? <==> quote.Some?
    ensures v.gainLoss.Some? <==> quote.Some?
    ensures quote.Some? ==> v.gainLoss.value == v.currentValue.value - v.purchaseValue
                            && v.currentValue.value == quote.value * item.quantity
  {
    match quote
    case None => Valuation(item, None, None, item.purchasePrice * item.quantity, None)
    case Some(price) =>
      var current := price * item.quantity;
      var purchase := item.purchasePrice * item.quantity;
      Valuation(item, Some(price), Some(current), purchase, Some(current - purchase))
  }

  class PortfolioApp {
    /** `portfolioItems`. */
    var items: seq<Item>
    /** `nextId`. */
    var nextId: int

    ghost predicate Valid()
      reads this
    {
      IdsAscending(items) && forall k :: 0 <= k < |items| ==> items[k].id < nextId
    }

    /** The two seed entries and `nextId = 3`. */
    constructor (createdAt: string)
      ensures Valid()
      ensures items == [Item(1, "AAPL", 10, 15000, "2024-01-15", createdAt),
                        Item(2, "GOOGL", 5, 12500, "2024-02-01", createdAt)]
      ensures nextId == 3
    {
      items := [Item(1, "AAPL", 10, 15000, "2024-01-15", createdAt),
                Item(2, "GOOGL", 5, 12500, "2024-02-01", createdAt)];
      nextId := 3;
    }

    /** `portfolioItems.findIndex(item => item.id === id)`. */
    method IndexOf(id: int) returns (idx: int)
      ensures -1 <= idx < |items|
      ensures idx == -1 <==> forall k :: 0 <= k < |items| ==> items[k].id != id
      ensures 0 <= idx ==> items[idx].id == id
    {
      idx := JsArray.FindIndex(items, (x: Item) => x.id == id);
    }

    /** The GET list: every item valued with the quote for its ticker, in list order. */
    function Listing(quoteOf: string -> Option<Cents>): (r: seq<Valuation>)
      reads this
      ensures |r| == |items|
      ensures forall k :: 0 <= k < |r| ==>
                r[k].item == items[k] && r[k].purchaseValue == items[k].purchasePrice * items[k].quantity
    ensures forall k :: 0 <= k < |r| ==> r[k] == Value(items[k], quoteOf(items[k].stockTicker))
    {
      seq(|items|, k requires 0 <= k < |items| reads this => Value(items[k], quoteOf(items[k].stockTicker)))
    }

    /** GET `/api/portfolio/:id`: the item with that id, or not-found. */
    method GetItem(id: int) returns (r: Result<Item, AppError>)
      ensures r.Ok? ==> r.value in items && r.value.id == id
      ensures r.Err? ==> r.error == NotFound
      ensures r.Err? <==> forall k :: 0 <= k < |items| ==> items[k].id != id
    {
      var idx := IndexOf(id);
      if idx == -1 {
        return Err(NotFound);
      }
      r := Ok(items[idx]);
    }

    /** POST `/api/portfolio`: validate, ask the quote oracle, then append a fresh item. */
    method AddItem(req: ItemRequest, quoteOk: string -> bool, createdAt: string) returns (r: Result<Item, AppError>)
      requires Valid()
      modifies this
      ensures Valid()
      ensures CheckNewItem(req).Some? ==> r == Err(CheckNewItem(req).value)
      ensures CheckNewItem(req).None? && !quoteOk(Upper(req.stockTicker.value)) ==> r == Err(InvalidTicker)
      ensures r.Err? ==> items == old(items) && nextId == old(nextId)
      ensures r.Ok? <==> CheckNewItem(req).None? && quoteOk(Upper(req.stockTicker.value))
      ensures r.Ok? ==>
                && r.value == Item(old(nextId), Upper(req.stockTicker.value), req.quantity.value,
                                   req.purchasePrice.value, req.purchaseDate.value, createdAt)
                && items == old(items) + [r.value]
                && nextId == old(nextId) + 1
    {
      var e := CheckNewItem(req);
      if e.Some? {
        return Err(e.value);
      }
      var ticker := Upper(req.stockTicker.value);
      if !quoteOk(ticker) {
        return Err(InvalidTicker);
      }
      var item := Item(nextId, ticker, req.quantity.value, req.purchasePrice.value, req.purchaseDate.value, createdAt);
      nextId := nextId + 1;
      items := items + [item];
      r := Ok(item);
    }

    /** PUT `/api/portfolio/:id`: overwrite the truthy fields of the matching item. */
    method UpdateItem(id: int, req: ItemRequest) returns (r: Result<Item, AppError>)
      requires Valid()
      modifies this
      ensures Valid()
      ensures nextId == old(nextId)
      ensures r.Err? <==> forall k :: 0 <= k < |old(items)| ==> old(items)[k].id != id
      ensures r.Err? ==> r == Err(NotFound) && items == old(items)
      ensures r.Ok? ==> exists k :: 0 <= k < |old(items)| && old(items)[k].id == id
                         && r.value == Overwrite(old(items)[k], req)
                         && items == old(items)[k := r.value]
    {
      var idx := IndexOf(id);
      if idx == -1 {
        return Err(NotFound);
      }
      var item := Overwrite(items[idx], req);
      items := items[idx := item];
      r := Ok(item);
    }

    /** DELETE `/api/portfolio/:id`: splice out the matching item and return it. */
    method DeleteItem(id: int) returns (r: Result<Item, AppError>)
      requires Valid()
      modifies this
      ensures Valid()
      ensures nextId == old(nextId)
      ensures r.Err? <==> forall k :: 0 <= k < |old(items)| ==> old(items)[k].id != id
      ensures r.Err? ==> r == Err(NotFound) && items == old(items)
      ensures r.Ok? ==> r.value.id == id
                        && exists k :: 0 <= k < |old(items)| && old(items)[k] == r.value
                                       && items == JsArray.RemoveAt(old(items), k)
      ensures r.Ok? ==> forall x :: x in items <==> x in old(items) && x.id != id
    {
      var idx := IndexOf(id);
      if idx == -1 {
        return Err(NotFound);
      }
      var deleted := items[idx];
      RemoveMatching(items, idx, id);
      items := JsArray.RemoveAt(items, idx);
      r := Ok(deleted);
    }
  }

  /** Splicing out the item with the given id from an id-ordered list removes that item and no other. */
  lemma RemoveMatching(before: seq<Item>, idx: nat, id: int)
    requires IdsAscending(before) && idx < |before| && before[idx].id == id
    ensures IdsAscending(JsArray.RemoveAt(before, idx))
    ensures forall x :: x in JsArray.RemoveAt(before, idx) <==> x in before && x.id != id
  {
    var after := JsArray.RemoveAt(before, idx);
    forall x | x in before && x.id != id ensures x in after {
      var k :| 0 <= k < |before| && before[k] == x;
      if k < idx {
        assert after[k] == x;
      } else {
        assert after[k - 1] == x;
      }
    }
    forall x | x in after ensures x in before && x.id != id {
      var k :| 0 <= k < |after| && after[k] == x;
      if k < idx {
        assert before[k].id < before[idx].id;
      } else {
        assert before[k + 1] == x;
        assert before[idx].id < before[k + 1].id;
      }
    }
  }

  /** Ids handed out by POST are never reused: after any add the new id exceeds every id before it. */
  lemma FreshIdExceedsAll(items: seq<Item>, nextId: int, item: Item)
    requires IdsAscending(items) && forall k :: 0 <= k < |items| ==> items[k].id < nextId
    requires item.id == nextId
    ensures IdsAscending(items + [item])
    ensures forall x :: x in items ==> x.id != item.id
  {
  }
}
