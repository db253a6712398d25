// The accounts service over its tables: every operation is a transaction, which leaves the
// tables as they were when any step of it fails.
module AccountsService {
  import opened Common
  import opened Decimals
  import opened Ledger
  import opened AccountTables
  import opened OrderLocks
  import opened Settlement

  class Accounts {
    var ledger: seq<LedgerEntry>
    var balances: map<Account, real>
    var orders: map<Reference, OrderRow>
    var trades: map<string, TradeRow>

    function State(): Db
      reads this
    {
      Db(Books(ledger, balances), orders, trades)
    }

    constructor ()
      ensures State() == EMPTY
    {
      ledger, balances, orders, trades := [], map[], map[], map[];
    }

    // ROLLBACK to the state in which the transaction began.
    method Rollback(begin: Db)
      modifies this
      ensures State() == begin
    {
      ledger, balances, orders, trades := begin.books.ledger, begin.books.balances, begin.orders, begin.trades;
    }

    // Within a transaction: a failure may leave an entry behind, for the caller to roll back.
    method AppendInTx(p: Posting) returns (r: Result<LedgerEntry, LedgerError>)
      modifies `ledger, `balances
      ensures match Append(old(State()).books, p)
        case Ok(books) => State() == old(State()).(books := books) && r == Ok(books.ledger[|books.ledger| - 1])
        case Err(e) => r == Err(e)
    {
      hide Column, ValidateAsset, ValidatePrecision;
      var invalid := ValidateAsset(p.asset);
      if invalid.Some? {
        return Err(invalid.value);
      }
      invalid := ValidatePrecision(p.asset, p.amount);
      if invalid.Some? {
        return Err(invalid.value);
      }
      var currentBalance := if p.Account() in balances then balances[p.Account()] else 0.0;
      var newBalance := currentBalance + p.amount;
      if newBalance < 0.0 && p.entryType != Lock {
        return Err(InsufficientBalance);
      }
      var entry := LedgerEntry(p.user, p.asset, Column(p.amount), Column(newBalance), p.entryType, p.reference);
      ledger := ledger + [entry];
      balances := balances[p.Account() := Column(newBalance)];
      if balances[p.Account()] < 0.0 {
        return Err(NegativeAvailable);
      }
      return Ok(entry);
    }

    // append: one entry in a transaction of its own.
    method AppendEntry(p: Posting) returns (r: Result<LedgerEntry, LedgerError>)
      modifies this
      ensures match Append(old(State()).books, p)
        case Ok(books) => State() == old(State()).(books := books) && r.Ok?
        case Err(e) => r == Err(e) && State() == old(State())
    {
      hide Append;
      var begin := State();
      r := AppendInTx(p);
      if r.Err? {
        Rollback(begin);
      }
    }

    // Several entries in the running transaction.
    method AppendAllInTx(ps: seq<Posting>) returns (error: Option<LedgerError>)
      modifies `ledger, `balances
      ensures match AppendAll(old(State()).books, ps)
        case Ok(books) => State() == old(State()).(books := books) && error == None
        case Err(e) => error == Some(e)
    {
      ghost var begin := State();
      var i := 0;
      while i < |ps|
        invariant 0 <= i <= |ps|
        invariant AppendAll(begin.books, ps[..i]) == Ok(State().books)
        invariant orders == begin.orders && trades == begin.trades
      {
        assert ps[..i + 1][..i] == ps[..i];
        var appended := AppendInTx(ps[i]);
        if appended.Err? {
          ErrorStays(begin.books, ps, i + 1);
          return Some(appended.error);
        }
        i := i + 1;
      }
      assert ps[..i] == ps;
      return None;
    }

    method PlaceOrder(user: UserId, id: Reference, req: PlaceRequest) returns (r: Result<OrderRow, OrderError>)
      modifies this
      ensures match Place(old(State()), user, id, req)
        case Ok(db) => State() == db && id in db.orders && r == Ok(db.orders[id])
        case Err(e) => r == Err(e) && State() == old(State())
    {
      hide Append, LockFor, NewRow;
      if req.orderType.Limit? && req.price.None? {
        return Err(LimitOrderRequiresPrice);
      }
      var calculated := LockFor(req);
      if calculated.Err? {
        return Err(calculated.error);
      }
      var lock := calculated.value;
      var begin := State();
      var lockEntry := AppendInTx(Posting(user, lock.asset, -lock.amount, Lock, Some(id)));
      if lockEntry.Err? {
        Rollback(begin);
        match lockEntry.error
        case InsufficientBalance => return Err(InsufficientFunds(lock.amount));
        case NegativeAvailable => return Err(InsufficientFunds(lock.amount));
        case _ => return Err(Database(lockEntry.error));
      }
      if id in orders {
        Rollback(begin);
        return Err(DuplicateId);
      }
      orders := orders[id := NewRow(user, req)];
      return Ok(orders[id]);
    }

    // The part that both kinds of cancel share: work out the remaining lock and append it.
    method ReleaseInTx(id: Reference, row: OrderRow, filled: real) returns (error: Option<OrderError>)
      modifies `ledger, `balances
      ensures match Release(old(State()), id, row, filled)
        case Ok(books) => State() == old(State()).(books := books) && error == None
        case Err(e) => error == Some(e)
    {
      hide Append, LockFor, UnfilledShare;
      var calculated := LockFor(RequestOf(row));
      if calculated.Err? {
        return Some(calculated.error);
      }
      if row.quantity == 0.0 {
        return Some(DivisionByZero);
      }
      var lock := calculated.value;
      var unlockAmount := RoundToPrecision(lock.asset, UnfilledShare(lock.amount, filled, row.quantity));
      if unlockAmount > 0.0 {
        var unlocked := AppendInTx(Posting(row.user, lock.asset, unlockAmount, Unlock, Some(id)));
        if unlocked.Err? {
          return Some(Database(unlocked.error));
        }
      }
      return None;
    }

    method CancelOrder(user: UserId, id: Reference) returns (r: Result<OrderRow, OrderError>)
      modifies this
      ensures match Cancel(old(State()), user, id)
        case Ok(db) => State() == db && id in db.orders && r == Ok(db.orders[id])
        case Err(e) => r == Err(e) && State() == old(State())
    {
      hide Release;
      var begin := State();
      if id !in orders || orders[id].user != user {
        return Err(NotFound);
      }
      var order := orders[id];
      if !order.status.Cancellable() {
        return Err(CannotCancel(order.status));
      }
      var error := ReleaseInTx(id, order, order.filled);
      if error.Some? {
        Rollback(begin);
        return Err(error.value);
      }
      orders := orders[id := order.(status := Cancelled)];
      return Ok(orders[id]);
    }

    method CancelOrderInternal(id: Reference, filledQuantity: real) returns (r: Result<OrderRow, OrderError>)
      modifies this
      ensures match CancelInternal(old(State()), id, filledQuantity)
        case Ok(db) => State() == db && id in db.orders && r == Ok(db.orders[id])
        case Err(e) => r == Err(e) && State() == old(State())
    {
      hide Release, Column;
      var begin := State();
      if id !in orders {
        return Err(NotFound);
      }
      var order := orders[id];
      if !order.status.Cancellable() {
        return Err(CannotCancel(order.status));
      }
      var error := ReleaseInTx(id, order, filledQuantity);
      if error.Some? {
        Rollback(begin);
        return Err(error.value);
      }
      orders := orders[id := order.(status := Cancelled, filled := Column(filledQuantity))];
      return Ok(orders[id]);
    }

    method AddFillInTx(id: Reference, quantity: real)
      requires id in orders
      modifies `orders
      ensures orders == WithFill(old(orders), id, quantity)
    {
      var order := orders[id];
      if order.status != Cancelled {
        var status := if order.filled + quantity >= order.quantity then Filled else PartiallyFilled;
        orders := orders[id := order.(filled := Column(order.filled + quantity), status := status)];
      } else {
        orders := orders[id := order];
      }
    }

    // Buyer first, then seller, then the trade.
    method SettleFill(symbol: string, fill: Fill) returns (r: Result<TradeRow, SettlementError>)
      modifies this
      ensures match Settle(old(State()), symbol, fill)
        case Ok(settled) => State() == settled.db && r == Ok(settled.trade)
        case Err(e) => r == Err(e) && State() == old(State())
    {
      hide AppendAll, RoundToPrecision, AddFill, ParseSymbol, Column;
      var fillId := fill.Key();
      if fillId in trades {
        return Ok(trades[fillId]);
      }
      var buyer, seller := UserOf(orders, fill.buyOrderId), UserOf(orders, fill.sellOrderId);
      if buyer.None? && seller.None? {
        return Err(PartialSettlement);
      }
      var assets := ParseSymbol(symbol);
      if assets.None? {
        return Err(BadSymbol(symbol));
      }
      var (base, quote) := assets.value;
      var quoteAmount := RoundToPrecision(quote, Worth(fill.price, fill.quantity));
      var begin := State();
      var buys := if buyer.None? then []
        else BuyerPostings(buyer.value, fill.buyOrderId, base, quote, fill.quantity, quoteAmount);
      var sells := if seller.None? then []
        else SellerPostings(seller.value, fill.sellOrderId, base, quote, fill.quantity, quoteAmount);
      AppendAllConcat(begin.books, buys, sells);
      hide Postings, Buys, Sells, BuyerPostings, SellerPostings;
      var refused := AppendAllInTx(buys);
      if refused.Some? {
        Rollback(begin);
        return Err(LedgerRefused(refused.value));
      }
      if buyer.Some? {
        AddFillInTx(fill.buyOrderId, fill.quantity);
      }
      refused := AppendAllInTx(sells);
      if refused.Some? {
        Rollback(begin);
        return Err(LedgerRefused(refused.value));
      }
      if seller.Some? {
        AddFillInTx(fill.sellOrderId, fill.quantity);
      }
      var trade := TradeOf(begin.orders, symbol, quote, fill);
      trades := trades[fillId := trade];
      return Ok(trade);
    }
  }

  lemma {:induction false} ErrorStays(b: Books, ps: seq<Posting>, i: nat)
    requires i <= |ps| && AppendAll(b, ps[..i]).Err?
    ensures AppendAll(b, ps) == AppendAll(b, ps[..i])
    decreases |ps| - i
  {
    hide Append;
    if i < |ps| {
      assert ps[..i + 1][..i] == ps[..i];
      ErrorStays(b, ps, i + 1);
    } else {
      assert ps[..i] == ps;
    }
  }
}
