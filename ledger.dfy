/**
 * The holdings-and-funds bookkeeping of `services/portfolioService.js`, as pure
 * transitions over a snapshot of the two tables it touches: the lot table
 * (`user_portfolio_items`) and the user table (`user_info`).
 *
 * Money columns are DECIMAL(…,2) and are modelled as integer cents.
 */
module Ledger {
  import opened Common

  /** Surrogate key of a lot (auto-increment INTEGER). */
  type LotId = nat
  /** An amount of money in cents. */
  type Cents = int

  /** One row of `user_portfolio_items`: an acquisition lot. There is no user column. */
  datatype Lot = Lot(stockName: string, buyTime: int, buyPrice: Cents, quantity: int)

  /** One row of `user_info`. */
  datatype UserInfo = UserInfo(username: string, totalFunds: Cents, availableFunds: Cents, investedFunds: Cents)

  /** The fields of the buy request (`itemData`). */
  datatype BuyRequest = BuyRequest(userId: int, stockName: string, buyPrice: Cents, quantity: int)

  /** The columns a lot update may overwrite; `None` leaves the column as it is. */
  datatype LotPatch = LotPatch(stockName: Option<string>, buyTime: Option<int>, buyPrice: Option<Cents>, quantity: Option<int>)

  /**
   * The errors the service raises. `OwnerMissing` is the TypeError raised when the
   * seller's user record cannot be read after the lot is already gone.
   */
  datatype LedgerError = UserNotFound | InsufficientFunds | LotNotFound | OwnerMissing

  /** What a successful sell returns. */
  datatype SellReceipt = SellReceipt(profit: Cents, totalRevenue: Cents)

  /** A snapshot of both tables and the lot table's auto-increment counter. */
  datatype Tables = Tables(lots: map<LotId, Lot>, users: map<int, UserInfo>, nextId: LotId)

  /** The result of a buy: the new tables and either the created lot (with its id) or an error. */
  datatype BuyOutcome = BuyOutcome(after: Tables, result: Result<(LotId, Lot), LedgerError>)

  /** The result of a sell: the new tables and either the receipt or an error. */
  datatype SellOutcome = SellOutcome(after: Tables, result: Result<SellReceipt, LedgerError>)

  /** The funds update in `buyStock` is always written to the user with this id. */
  const FundsUserId: int := 1

  /** The auto-increment counter is ahead of every existing lot id. */
  predicate KeysBelowNext(t: Tables)
  {
    forall id :: id in t.lots ==> id < t.nextId
  }

  /** Price times quantity: the cost of a buy, the revenue of a sell, the cost basis of a lot. */
  function Amount(price: Cents, quantity: int): Cents
  {
    price * quantity
  }

  /** The cost basis of a lot. */
  function LotCost(l: Lot): Cents
  {
    Amount(l.buyPrice, l.quantity)
  }

  /** The cost basis of all lots of the table. */
  ghost function SumCost(lots: map<LotId, Lot>): Cents
    decreases |lots|
  {
    if lots == map[] then 0
    else
      var k :| k in lots;
      LotCost(lots[k]) + SumCost(lots - {k})
  }

  /** Any lot can be taken out of the sum first. */
  lemma {:induction false} SumCostRemove(lots: map<LotId, Lot>, k: LotId)
    requires k in lots
    ensures SumCost(lots) == LotCost(lots[k]) + SumCost(lots - {k})
    decreases |lots|
  {
    var j :| j in lots && SumCost(lots) == LotCost(lots[j]) + SumCost(lots - {j});
    if j != k {
      assert (lots - {j}).Keys == lots.Keys - {j};
      assert |lots - {j}| < |lots|;
      SumCostRemove(lots - {j}, k);
      assert (lots - {k}).Keys == lots.Keys - {k};
      assert |lots - {k}| < |lots|;
      SumCostRemove(lots - {k}, j);
      assert lots - {j} - {k} == lots - {k} - {j};
    }
  }

  /** Adding a new lot adds its cost basis. */
  lemma SumCostInsert(lots: map<LotId, Lot>, k: LotId, l: Lot)
    requires k !in lots
    ensures SumCost(lots[k := l]) == SumCost(lots) + LotCost(l)
  {
    SumCostRemove(lots[k := l], k);
    assert lots[k := l] - {k} == lots;
  }

  /**
   * The books of the single user the service actually serves (user 1): the
   * invested funds are the cost basis of the open lots, and the total is cash
   * plus invested funds.
   */
  ghost predicate Balanced(t: Tables)
  {
    && KeysBelowNext(t)
    && FundsUserId in t.users
    && t.users[FundsUserId].investedFunds == SumCost(t.lots)
    && t.users[FundsUserId].totalFunds == t.users[FundsUserId].availableFunds + t.users[FundsUserId].investedFunds
  }

  /** `User.update({total, available, invested}, where id)`: the username stays; a missing id updates nothing. */
  function WriteFunds(users: map<int, UserInfo>, id: int, total: Cents, available: Cents, invested: Cents): (r: map<int, UserInfo>)
    ensures r.Keys == users.Keys
    ensures forall u :: u in users && u != id ==> r[u] == users[u]
    ensures id in users ==> r[id] == UserInfo(users[id].username, total, available, invested)
  {
    if id in users then users[id := UserInfo(users[id].username, total, available, invested)] else users
  }

  /**
   * `buyStock(itemData)`: reject an unknown user or a cost above the user's
   * available funds; otherwise create the lot stamped `now` under the next id and
   * write the checked user's funds, less the cost moved to invested funds, to user 1.
   */
  function Buy(t: Tables, req: BuyRequest, now: int): (o: BuyOutcome)
    ensures o.result.Err? <==>
              req.userId !in t.users || t.users[req.userId].availableFunds < Amount(req.buyPrice, req.quantity)
    ensures req.userId !in t.users ==> o == BuyOutcome(t, Err(UserNotFound))
    ensures o.result.Err? ==> o.after == t
    ensures o.result.Ok? ==>
              && o.result.value.0 == t.nextId
              && o.result.value.1 == Lot(req.stockName, now, req.buyPrice, req.quantity)
              && o.after.lots == t.lots[t.nextId := o.result.value.1]
              && o.after.nextId == t.nextId + 1
              && o.after.users.Keys == t.users.Keys
              && (forall u :: u in t.users && u != FundsUserId ==> o.after.users[u] == t.users[u])
  {
    var cost := Amount(req.buyPrice, req.quantity);
    if req.userId !in t.users then BuyOutcome(t, Err(UserNotFound))
    else
      var user := t.users[req.userId];
      if user.availableFunds < cost then BuyOutcome(t, Err(InsufficientFunds))
      else
        var lot := Lot(req.stockName, now, req.buyPrice, req.quantity);
        var users' := WriteFunds(t.users, FundsUserId, user.totalFunds, user.availableFunds - cost, user.investedFunds + cost);
        BuyOutcome(Tables(t.lots[t.nextId := lot], users', t.nextId + 1), Ok((t.nextId, lot)))
  }

  /**
   * `sellStock(itemId, sellPrice)`: reject an unknown lot; otherwise destroy the
   * whole lot, then credit the revenue, debit the lot's cost basis and book the
   * profit on the owner's funds. `owner` stands for `item.user_id`; when it names
   * no user the lot is already destroyed when the funds update fails.
   */
  function Sell(t: Tables, itemId: LotId, sellPrice: Cents, owner: Option<int>): (o: SellOutcome)
    ensures o.result.Err? <==> itemId !in t.lots || !(owner.Some? && owner.value in t.users)
    ensures itemId !in t.lots ==> o == SellOutcome(t, Err(LotNotFound))
    ensures itemId in t.lots ==> o.after.lots == t.lots - {itemId} && o.after.nextId == t.nextId
    ensures o.result.Err? ==> o.after.users == t.users
    ensures o.result.Ok? ==>
              && o.result.value.totalRevenue == Amount(sellPrice, t.lots[itemId].quantity)
              && o.result.value.profit == o.result.value.totalRevenue - LotCost(t.lots[itemId])
              && o.after.users.Keys == t.users.Keys
              && (forall u :: u in t.users && u != owner.value ==> o.after.users[u] == t.users[u])
  {
    if itemId !in t.lots then SellOutcome(t, Err(LotNotFound))
    else
      var item := t.lots[itemId];
      var revenue := Amount(sellPrice, item.quantity);
      var lots' := t.lots - {itemId};
      if !(owner.Some? && owner.value in t.users) then SellOutcome(Tables(lots', t.users, t.nextId), Err(OwnerMissing))
      else
        var user := t.users[owner.value];
        var users' := WriteFunds(t.users, owner.value, user.totalFunds + (revenue - LotCost(item)),
                                 user.availableFunds + revenue, user.investedFunds - LotCost(item));
        SellOutcome(Tables(lots', users', t.nextId), Ok(SellReceipt(revenue - LotCost(item), revenue)))
  }

  /** Overwrite the columns the patch names. */
  function Patch(l: Lot, p: LotPatch): (r: Lot)
    ensures p.stockName.None? ==> r.stockName == l.stockName
    ensures p.buyTime.None? ==> r.buyTime == l.buyTime
    ensures p.buyPrice.None? ==> r.buyPrice == l.buyPrice
    ensures p.quantity.None? ==> r.quantity == l.quantity
    ensures p.stockName.Some? ==> r.stockName == p.stockName.value
    ensures p.buyTime.Some? ==> r.buyTime == p.buyTime.value
    ensures p.buyPrice.Some? ==> r.buyPrice == p.buyPrice.value
    ensures p.quantity.Some? ==> r.quantity == p.quantity.value
    ensures p == LotPatch(None, None, None, None) ==> r == l
  {
    Lot(if p.stockName.Some? then p.stockName.value else l.stockName,
        if p.buyTime.Some? then p.buyTime.value else l.buyTime,
        if p.buyPrice.Some? then p.buyPrice.value else l.buyPrice,
        if p.quantity.Some? then p.quantity.value else l.quantity)
  }

  /** `updatePortfolioItem(id, data)`: overwrite the matched lot, never the funds. */
  function UpdateLot(t: Tables, id: LotId, p: LotPatch): (r: (Tables, Option<Lot>))
    ensures r.0.users == t.users && r.0.nextId == t.nextId
    ensures r.1.None? <==> id !in t.lots
    ensures id !in t.lots ==> r.0 == t
    ensures id in t.lots ==> r.0.lots == t.lots[id := r.1.value] && r.1.value == Patch(t.lots[id], p)
  {
    if id in t.lots then (Tables(t.lots[id := Patch(t.lots[id], p)], t.users, t.nextId), Some(Patch(t.lots[id], p)))
    else (t, None)
  }

  /** A buy by user 1 keeps the books balanced: cash moves to invested funds at cost. */
  lemma BuyKeepsBalance(t: Tables, req: BuyRequest, now: int)
    requires Balanced(t) && req.userId == FundsUserId
    ensures Balanced(Buy(t, req, now).after)
  {
    var o := Buy(t, req, now);
    if o.result.Ok? {
      assert t.nextId !in t.lots;
      SumCostInsert(t.lots, t.nextId, o.result.value.1);
    }
  }

  /** A sell whose owner is user 1 keeps the books balanced: the profit lands in both cash and total. */
  lemma SellKeepsBalance(t: Tables, itemId: LotId, sellPrice: Cents)
    requires Balanced(t)
    ensures Balanced(Sell(t, itemId, sellPrice, Some(FundsUserId)).after)
  {
    if itemId in t.lots {
      SumCostRemove(t.lots, itemId);
    }
  }

  /** The funds conservation of a buy: available falls by the cost, invested rises by it, total stays. */
  lemma BuyMovesCost(t: Tables, req: BuyRequest, now: int)
    requires req.userId == FundsUserId
    requires Buy(t, req, now).result.Ok?
    ensures var before, after := t.users[FundsUserId], Buy(t, req, now).after.users[FundsUserId];
            && after.availableFunds == before.availableFunds - Amount(req.buyPrice, req.quantity)
            && after.investedFunds == before.investedFunds + Amount(req.buyPrice, req.quantity)
            && after.totalFunds == before.totalFunds
            && after.availableFunds + after.investedFunds == before.availableFunds + before.investedFunds
  {
  }

  /**
   * The funds written by a buy of another user land on user 1 and are computed
   * from the buyer's record: user 1 keeps its username and takes the buyer's
   * total, the buyer's cash less the cost and the buyer's invested funds plus
   * the cost. The buyer's own record is not charged.
   */
  lemma BuyChargesUserOne(t: Tables, req: BuyRequest, now: int)
    requires req.userId != FundsUserId && FundsUserId in t.users
    requires Buy(t, req, now).result.Ok?
    ensures Buy(t, req, now).after.users[req.userId] == t.users[req.userId]
    ensures var buyer, cost := t.users[req.userId], Amount(req.buyPrice, req.quantity);
            Buy(t, req, now).after.users[FundsUserId]
            == UserInfo(t.users[FundsUserId].username, buyer.totalFunds,
                        buyer.availableFunds - cost, buyer.investedFunds + cost)
  {
  }

  /** A successful sell: the funds move as the receipt says, and the sum of the three changes is consistent. */
  lemma SellMovesFunds(t: Tables, itemId: LotId, sellPrice: Cents, owner: int)
    requires Sell(t, itemId, sellPrice, Some(owner)).result.Ok?
    ensures var o := Sell(t, itemId, sellPrice, Some(owner));
            var before, after := t.users[owner], o.after.users[owner];
            && after.availableFunds == before.availableFunds + o.result.value.totalRevenue
            && after.investedFunds == before.investedFunds - LotCost(t.lots[itemId])
            && after.totalFunds == before.totalFunds + o.result.value.profit
            && (after.totalFunds - before.totalFunds)
               == (after.availableFunds - before.availableFunds) + (after.investedFunds - before.investedFunds)
  {
  }

  /** With no readable owner, which is what the lot table gives, every sell of an existing lot destroys it and fails. */
  lemma SellWithoutOwnerLosesLot(t: Tables, itemId: LotId, sellPrice: Cents)
    requires itemId in t.lots
    ensures var o := Sell(t, itemId, sellPrice, None);
            o.result == Err(OwnerMissing) && itemId !in o.after.lots && o.after.users == t.users
  {
  }

  /** The worked example: 1000.00 of cash, buy 10 at 100.00, then sell that lot at 150.00. */
  lemma BuyThenSellExample()
    ensures var t0 := Tables(map[], map[1 := UserInfo("u", 100000, 100000, 0)], 1);
            var b := Buy(t0, BuyRequest(1, "AAPL", 10000, 10), 0);
            var s := Sell(b.after, 1, 15000, Some(1));
            && b.after.users[1] == UserInfo("u", 100000, 0, 100000)
            && s.result == Ok(SellReceipt(50000, 150000))
            && s.after.users[1] == UserInfo("u", 150000, 150000, 0)
            && s.after.lots == map[]
  {
    var t0 := Tables(map[], map[1 := UserInfo("u", 100000, 100000, 0)], 1);
    var b := Buy(t0, BuyRequest(1, "AAPL", 10000, 10), 0);
    assert b.after.lots == map[1 := Lot("AAPL", 0, 10000, 10)];
  }
}
