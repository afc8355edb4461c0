/**
 * `services/portfolioService.js`: the service object, over an in-memory copy of
 * the lot table and the user table. Each method changes the tables step by step
 * as the service does and is proved to reach the state the `Ledger` transition
 * prescribes.
 */
module PortfolioServiceModel {
  import opened Common
  import opened Ledger

  /** Lots ordered by `buy_time`, newest first. */
  predicate NewestFirst(r: seq<(LotId, Lot)>)
  {
    forall i, j :: 0 <= i < j < |r| ==> r[i].1.buyTime >= r[j].1.buyTime
  }

  /** The lot ids among `ids` that `owners` assigns to `userId`. */
  ghost function OwnedAmong(ids: set<LotId>, owners: map<LotId, int>, userId: int): set<LotId>
  {
    set id | id in ids && id in owners && owners[id] == userId
  }

  /** How many lots of a newest-first list were bought strictly after `t`. */
  function NewerCount(r: seq<(LotId, Lot)>, t: int): (p: nat)
    requires NewestFirst(r)
    ensures p <= |r|
    ensures forall i :: 0 <= i < p ==> r[i].1.buyTime > t
    ensures forall i :: p <= i < |r| ==> r[i].1.buyTime <= t
  {
    if r == [] || r[0].1.buyTime <= t then 0 else 1 + NewerCount(r[1..], t)
  }

  /** Put one more lot into a newest-first list, after the lots bought strictly later. */
  function InsertNewestFirst(r: seq<(LotId, Lot)>, e: (LotId, Lot)): (r': seq<(LotId, Lot)>)
    requires NewestFirst(r)
    ensures NewestFirst(r')
    ensures multiset(r') == multiset(r) + multiset{e}
    ensures |r'| == |r| + 1
    ensures forall x :: x in r' <==> x in r || x == e
  {
    var p := NewerCount(r, e.1.buyTime);
    InsertAt(r, p, e);
    InsertKeepsOrder(r, p, e);
    r[..p] + [e] + r[p..]
  }

  /** A lot placed after the strictly newer lots and before the others keeps the list newest first. */
  lemma InsertKeepsOrder(r: seq<(LotId, Lot)>, p: nat, e: (LotId, Lot))
    requires NewestFirst(r) && p <= |r|
    requires forall i :: 0 <= i < p ==> r[i].1.buyTime > e.1.buyTime
    requires forall i :: p <= i < |r| ==> r[i].1.buyTime <= e.1.buyTime
    ensures NewestFirst(r[..p] + [e] + r[p..])
  {
    var r' := r[..p] + [e] + r[p..];
    InsertAt(r, p, e);
    forall i, j | 0 <= i < j < |r'|
      ensures r'[i].1.buyTime >= r'[j].1.buyTime
    {
      if j < p {
      } else if j == p {
      } else if i < p {
        assert r'[j] == r[j - 1];
      } else if i == p {
      } else {
        assert r'[i] == r[i - 1] && r'[j] == r[j - 1];
      }
    }
  }

  class PortfolioService {
    /** `user_portfolio_items`, keyed by id. */
    var lots: map<LotId, Lot>
    /** `user_info`, keyed by id. */
    var users: map<int, UserInfo>
    /** The lot table's auto-increment counter. */
    var nextId: LotId

    function Snapshot(): Tables
      reads this
    {
      Tables(lots, users, nextId)
    }

    ghost predicate Valid()
      reads this
    {
      KeysBelowNext(Snapshot())
    }

    /** An empty lot table over the given users. */
    constructor (initialUsers: map<int, UserInfo>)
      ensures Valid()
      ensures lots == map[] && users == initialUsers && nextId == 1
    {
      lots := map[];
      users := initialUsers;
      nextId := 1;
    }

    /** `buyStock(itemData)`. */
    method BuyStock(req: BuyRequest, now: int) returns (r: Result<(LotId, Lot), LedgerError>)
      requires Valid()
      modifies this
      ensures Valid()
      ensures Buy(old(Snapshot()), req, now) == BuyOutcome(Snapshot(), r)
    {
      var totalCost := Amount(req.buyPrice, req.quantity);
      if req.userId !in users {
        return Err(UserNotFound);
      }
      var user := users[req.userId];
      if user.availableFunds < totalCost {
        return Err(InsufficientFunds);
      }
      // PortfolioItem.create: the request without its user id, stamped with the buy time.
      var lot := Lot(req.stockName, now, req.buyPrice, req.quantity);
      var id := nextId;
      lots := lots[id := lot];
      nextId := nextId + 1;
      // User.update(..., { where: { id: 1 } }) with the values read from the buyer's record.
      if FundsUserId in users {
        users := users[FundsUserId := UserInfo(users[FundsUserId].username, user.totalFunds,
                                               user.availableFunds - totalCost, user.investedFunds + totalCost)];
      }
      r := Ok((id, lot));
    }

    /** `getPortfolioItemById(id)`: `findByPk`. */
    method GetPortfolioItemById(id: LotId) returns (r: Option<Lot>)
      ensures r.Some? <==> id in lots
      ensures r.Some? ==> r.value == lots[id]
    {
      r := if id in lots then Some(lots[id]) else None;
    }

    /** `updatePortfolioItem(id, data)`: overwrite, then re-read the row if one was matched. */
    method UpdatePortfolioItem(id: LotId, data: LotPatch) returns (r: Option<Lot>)
      requires Valid()
      modifies this
      ensures Valid()
      ensures (Snapshot(), r) == UpdateLot(old(Snapshot()), id, data)
    {
      var updated := if id in lots then 1 else 0;
      if updated == 1 {
        lots := lots[id := Patch(lots[id], data)];
      }
      if updated != 0 {
        r := GetPortfolioItemById(id);
      } else {
        r := None;
      }
    }

    /** `sellStock(itemId, sellPrice)`; `owner` is the lot's `user_id` as read back. */
    method SellStock(itemId: LotId, sellPrice: Cents, owner: Option<int>) returns (r: Result<SellReceipt, LedgerError>)
      requires Valid()
      modifies this
      ensures Valid()
      ensures Sell(old(Snapshot()), itemId, sellPrice, owner) == SellOutcome(Snapshot(), r)
    {
      if itemId !in lots {
        return Err(LotNotFound);
      }
      var item := lots[itemId];
      var user := if owner.Some? && owner.value in users then Some(users[owner.value]) else None;
      var totalRevenue := Amount(sellPrice, item.quantity);
      // PortfolioItem.destroy happens before the user record is dereferenced.
      lots := lots - {itemId};
      if user.None? {
        return Err(OwnerMissing);
      }
      var u := user.value;
      users := users[owner.value := UserInfo(u.username, u.totalFunds + (totalRevenue - LotCost(item)),
                                             u.availableFunds + totalRevenue, u.investedFunds - LotCost(item))];
      r := Ok(SellReceipt(totalRevenue - LotCost(item), totalRevenue));
    }

    /**
     * `getUserPortfolio(userId)`: the lots whose owner is `userId`, newest first.
     * `owners` stands for the `user_id` column, which the lot model does not map.
     */
    method GetUserPortfolio(userId: int, owners: map<LotId, int>) returns (r: seq<(LotId, Lot)>)
      ensures forall x :: x in r <==> x.0 in lots && x.1 == lots[x.0] && x.0 in owners && owners[x.0] == userId
      ensures |r| == |OwnedAmong(lots.Keys, owners, userId)|
      ensures NewestFirst(r)
    {
      r := OwnedNewestFirst(lots, owners, userId);
    }
  }

  /** The query behind `getUserPortfolio`: pick the owned rows of `table` one id at a time, keeping them newest first. */
  method OwnedNewestFirst(table: map<LotId, Lot>, owners: map<LotId, int>, userId: int) returns (r: seq<(LotId, Lot)>)
    ensures ListsOwned(r, table.Keys, table, owners, userId)
    ensures |r| == |OwnedAmong(table.Keys, owners, userId)|
    ensures NewestFirst(r)
  {
    r := [];
    var todo := table.Keys;
    ghost var done: set<LotId> := {};
    while todo != {}
      invariant todo + done == table.Keys && todo !! done
      invariant ListsOwned(r, done, table, owners, userId)
      invariant |r| == |OwnedAmong(done, owners, userId)|
      invariant NewestFirst(r)
      decreases |todo|
    {
      var id :| id in todo;
      OwnedStep(done, id, owners, userId);
      ghost var before := r;
      if id in owners && owners[id] == userId {
        r := InsertNewestFirst(r, (id, table[id]));
      }
      ListsOwnedStep(before, r, done, id, table, owners, userId);
      todo := todo - {id};
      done := done + {id};
    }
  }

  /** `r` holds exactly the lots of `table` whose ids are among `ids` and owned by `userId`. */
  ghost predicate ListsOwned(r: seq<(LotId, Lot)>, ids: set<LotId>, table: map<LotId, Lot>, owners: map<LotId, int>, userId: int)
  {
    forall x :: x in r <==> x.0 in ids && x.0 in table && x.1 == table[x.0] && x.0 in owners && owners[x.0] == userId
  }

  /** Looking at one more lot id keeps `ListsOwned`, whether or not the lot was added. */
  lemma ListsOwnedStep(r: seq<(LotId, Lot)>, r': seq<(LotId, Lot)>, done: set<LotId>, id: LotId,
                       table: map<LotId, Lot>, owners: map<LotId, int>, userId: int)
    requires ListsOwned(r, done, table, owners, userId)
    requires id in table && id !in done
    requires id in owners && owners[id] == userId ==> forall x :: x in r' <==> x in r || x == (id, table[id])
    requires !(id in owners && owners[id] == userId) ==> r' == r
    ensures ListsOwned(r', done + {id}, table, owners, userId)
  {
  }

  /** Looking at one more lot id adds it to the owned ids exactly when `userId` owns it. */
  lemma OwnedStep(done: set<LotId>, id: LotId, owners: map<LotId, int>, userId: int)
    requires id !in done
    ensures |OwnedAmong(done + {id}, owners, userId)| ==
              |OwnedAmong(done, owners, userId)| + if id in owners && owners[id] == userId then 1 else 0
  {
    assert id !in OwnedAmong(done, owners, userId);
    if id in owners && owners[id] == userId {
      assert OwnedAmong(done + {id}, owners, userId) == OwnedAmong(done, owners, userId) + {id};
    } else {
      assert OwnedAmong(done + {id}, owners, userId) == OwnedAmong(done, owners, userId);
    }
  }

  /** The worked example of `Ledger.BuyThenSellExample`, checked against the service object: buy, read back, sell. */
  method BuyThenSell() returns (bought: Result<(LotId, Lot), LedgerError>, got: Option<Lot>, sold: Result<SellReceipt, LedgerError>)
    ensures bought == Ok((1, Lot("AAPL", 0, 10000, 10)))
    ensures got == Some(Lot("AAPL", 0, 10000, 10))
    ensures sold == Ok(SellReceipt(50000, 150000))
  {
    var s := new PortfolioService(map[1 := UserInfo("u", 100000, 100000, 0)]);
    bought := s.BuyStock(BuyRequest(1, "AAPL", 10000, 10), 0);
    got := s.GetPortfolioItemById(1);
    sold := s.SellStock(1, 15000, Some(1));
    assert s.users[1] == UserInfo("u", 150000, 150000, 0) && s.lots == map[];
  }
}
