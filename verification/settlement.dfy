// Settling a fill: both orders' funds are released, the assets change hands, and the trade is
// recorded under its idempotency key.
module Settlement {
  import opened Common
  import opened Decimals
  import opened Ledger
  import opened AccountTables
  import opened OrderLocks

  const FEE_RATE := 0.001

  datatype SettlementError =
    | PartialSettlement
    | BadSymbol(symbol: string)
    | LedgerRefused(error: LedgerError)

  function BuyerPostings(buyer: UserId, id: Reference, base: string, quote: string,
                         quantity: real, quoteAmount: real): seq<Posting> {
    [Posting(buyer, quote, quoteAmount, Unlock, Some(id)),
     Posting(buyer, quote, -quoteAmount, Trade, Some(id)),
     Posting(buyer, base, quantity, Trade, Some(id))]
  }

  function SellerPostings(seller: UserId, id: Reference, base: string, quote: string,
                          quantity: real, quoteAmount: real): seq<Posting> {
    [Posting(seller, base, quantity, Unlock, Some(id)),
     Posting(seller, base, -quantity, Trade, Some(id)),
     Posting(seller, quote, quoteAmount, Trade, Some(id))]
  }

  // An order that is not in the table is anonymous and has no entries.
  function Buys(orders: map<Reference, OrderRow>, base: string, quote: string, fill: Fill): seq<Posting> {
    var id, quoteAmount := fill.buyOrderId, RoundToPrecision(quote, Worth(fill.price, fill.quantity));
    if id in orders then BuyerPostings(orders[id].user, id, base, quote, fill.quantity, quoteAmount) else []
  }

  function Sells(orders: map<Reference, OrderRow>, base: string, quote: string, fill: Fill): seq<Posting> {
    var id, quoteAmount := fill.sellOrderId, RoundToPrecision(quote, Worth(fill.price, fill.quantity));
    if id in orders then SellerPostings(orders[id].user, id, base, quote, fill.quantity, quoteAmount) else []
  }

  // The entries of one settlement.
  function Postings(orders: map<Reference, OrderRow>, base: string, quote: string, fill: Fill): seq<Posting> {
    Buys(orders, base, quote, fill) + Sells(orders, base, quote, fill)
  }

  function WithFill(orders: map<Reference, OrderRow>, id: Reference, quantity: real): map<Reference, OrderRow> {
    if id in orders then orders[id := AddFill(orders[id], quantity)] else orders
  }

  function UserOf(orders: map<Reference, OrderRow>, id: Reference): Option<UserId> {
    if id in orders then Some(orders[id].user) else None
  }

  function TradeOf(orders: map<Reference, OrderRow>, symbol: string, quote: string, fill: Fill): TradeRow {
    var fee := RoundToPrecision(quote, RoundToPrecision(quote, Worth(fill.price, fill.quantity)) * FEE_RATE);
    TradeRow(symbol,
             if fill.buyOrderId in orders then Some(fill.buyOrderId) else None,
             if fill.sellOrderId in orders then Some(fill.sellOrderId) else None,
             UserOf(orders, fill.buyOrderId), UserOf(orders, fill.sellOrderId),
             Column(fill.price), Column(fill.quantity), fee, fee)
  }

  datatype Settled = Settled(db: Db, trade: TradeRow)

  function Settle(db: Db, symbol: string, fill: Fill): Result<Settled, SettlementError> {
    if fill.Key() in db.trades then Ok(Settled(db, db.trades[fill.Key()]))
    else if fill.buyOrderId !in db.orders && fill.sellOrderId !in db.orders then Err(PartialSettlement)
    else
      match ParseSymbol(symbol)
      case None => Err(BadSymbol(symbol))
      case Some((base, quote)) =>
        match AppendAll(db.books, Postings(db.orders, base, quote, fill))
        case Err(e) => Err(LedgerRefused(e))
        case Ok(books) =>
          var orders := WithFill(WithFill(db.orders, fill.buyOrderId, fill.quantity), fill.sellOrderId, fill.quantity);
          var trade := TradeOf(db.orders, symbol, quote, fill);
          Ok(Settled(Db(books, orders, db.trades[fill.Key() := trade]), trade))
  }

  lemma TotalOfConcat(a: seq<Posting>, b: seq<Posting>, f: Filter)
    ensures TotalOf(a + b, f) == TotalOf(a, f) + TotalOf(b, f)
  {
    if b == [] {
      assert a + b == a;
    } else {
      assert (a + b)[..|a + b| - 1] == a + b[..|b| - 1];
      TotalOfConcat(a, b[..|b| - 1], f);
    }
  }

  lemma TotalOfThree(x: Posting, y: Posting, z: Posting, f: Filter)
    ensures TotalOf([x, y, z], f) == f.Of(x) + f.Of(y) + f.Of(z)
  {
    assert [x, y, z][..2] == [x, y] && [x, y][..1] == [x] && [x][..0] == [];
    assert TotalOf([x], f) == f.Of(x);
    assert TotalOf([x, y], f) == f.Of(x) + f.Of(y);
  }

  // What one side of a settlement adds to the trade entries of an asset.
  function BuyerShare(asset: string, base: string, quote: string, quantity: real, quoteAmount: real): real {
    (if asset == base then quantity else 0.0) - (if asset == quote then quoteAmount else 0.0)
  }

  lemma PostingsTrade(orders: map<Reference, OrderRow>, base: string, quote: string, fill: Fill, asset: string)
    ensures var share := BuyerShare(asset, base, quote, fill.quantity, RoundToPrecision(quote, Worth(fill.price, fill.quantity)));
      TotalOf(Postings(orders, base, quote, fill), TradesIn(asset))
      == (if fill.buyOrderId in orders then share else 0.0) - (if fill.sellOrderId in orders then share else 0.0)
  {
    hide RoundToPrecision, Worth;
    var buys, sells := Buys(orders, base, quote, fill), Sells(orders, base, quote, fill);
    TotalOfConcat(buys, sells, TradesIn(asset));
    if buys != [] {
      TotalOfThree(buys[0], buys[1], buys[2], TradesIn(asset));
      assert buys == [buys[0], buys[1], buys[2]];
    }
    if sells != [] {
      TotalOfThree(sells[0], sells[1], sells[2], TradesIn(asset));
      assert sells == [sells[0], sells[1], sells[2]];
    }
  }

  // A settlement moves the trade entries of an asset, over all users, by what its known sides
  // leave unbalanced: by nothing when both orders are known.
  lemma SettlementNets(db: Db, symbol: string, fill: Fill, asset: string)
    requires LedgerOk(db.books) && Settle(db, symbol, fill).Ok? && fill.Key() !in db.trades
    ensures ParseSymbol(symbol).Some?
    ensures var (base, quote) := ParseSymbol(symbol).value;
      var share := BuyerShare(asset, base, quote, fill.quantity, RoundToPrecision(quote, Worth(fill.price, fill.quantity)));
      var after := Settle(db, symbol, fill).value.db;
      && Total(after.books.ledger, TradesIn(asset)) - Total(db.books.ledger, TradesIn(asset))
         == (if fill.buyOrderId in db.orders then share else 0.0) - (if fill.sellOrderId in db.orders then share else 0.0)
      && (fill.buyOrderId in db.orders && fill.sellOrderId in db.orders ==>
          Total(after.books.ledger, TradesIn(asset)) == Total(db.books.ledger, TradesIn(asset)))
  {
    hide AppendAll, Total, TotalOf, Postings, LedgerOk, BuyerShare, RoundToPrecision, Worth, ParseSymbol;
    var (base, quote) := ParseSymbol(symbol).value;
    var postings := Postings(db.orders, base, quote, fill);
    AppendAllTotals(db.books, postings, TradesIn(asset));
    PostingsTrade(db.orders, base, quote, fill, asset);
  }

  // One side of a settlement always goes through: its funds are released before they are taken.
  lemma SideSucceeds(b: Books, user: UserId, id: Reference, given: string, x: real, taken: string, y: real)
    requires LedgerOk(b) && x >= 0.0 && y >= 0.0
    requires ValidateAsset(given).None? && PlacesOf(given).Fits(x)
    requires ValidateAsset(taken).None? && PlacesOf(taken).Fits(y)
    ensures AppendAll(b, [Posting(user, given, x, Unlock, Some(id)), Posting(user, given, -x, Trade, Some(id)),
                          Posting(user, taken, y, Trade, Some(id))]).Ok?
  {
    hide Append, ValidateAsset, PlacesOf, Places.Fits, Column;
    var unlock, debit := Posting(user, given, x, Unlock, Some(id)), Posting(user, given, -x, Trade, Some(id));
    var credit := Posting(user, taken, y, Trade, Some(id));
    var all := [unlock, debit, credit];
    assert all[..2] == [unlock, debit] && [unlock, debit][..1] == [unlock] && [unlock][..0] == [];
    assert AccountOk(b, (user, given));
    AppendSucceeds(b, unlock);
    AppendAdds(b, unlock);
    AppendKeepsLedger(b, unlock);
    var b1 := Append(b, unlock).value;
    assert AppendAll(b, [unlock]) == Ok(b1);
    assert AccountOk(b1, (user, given));
    FitsSum(PlacesOf(given), x, x);
    AppendSucceeds(b1, debit);
    AppendKeepsLedger(b1, debit);
    var b2 := Append(b1, debit).value;
    assert AppendAll(b, [unlock, debit]) == Ok(b2);
    assert AccountOk(b2, (user, taken));
    AppendSucceeds(b2, credit);
  }

  lemma SidesSucceed(db: Db, base: string, quote: string, fill: Fill)
    requires LedgerOk(db.books) && fill.quantity >= 0.0 && Worth(fill.price, fill.quantity) >= 0.0
    requires ValidateAsset(base).None? && ValidateAsset(quote).None? && PlacesOf(base).Fits(fill.quantity)
    ensures AppendAll(db.books, Postings(db.orders, base, quote, fill)).Ok?
  {
    hide Append, ValidateAsset, LedgerOk, PlacesOf, Places.Fits, Worth;
    var buys, sells := Buys(db.orders, base, quote, fill), Sells(db.orders, base, quote, fill);
    var quantity, quoteAmount := fill.quantity, RoundToPrecision(quote, Worth(fill.price, fill.quantity));
    RoundFits(PlacesOf(quote), Worth(fill.price, fill.quantity));
    RoundSign(PlacesOf(quote), Worth(fill.price, fill.quantity));
    if fill.buyOrderId in db.orders {
      SideSucceeds(db.books, db.orders[fill.buyOrderId].user, fill.buyOrderId, quote, quoteAmount, base, quantity);
    }
    var bought := AppendAll(db.books, buys).value;
    AppendAllKeepsLedger(db.books, buys);
    if fill.sellOrderId in db.orders {
      SideSucceeds(bought, db.orders[fill.sellOrderId].user, fill.sellOrderId, base, quantity, quote, quoteAmount);
    }
    AppendAllConcat(db.books, buys, sells);
  }

  // When a new fill of a non-negative quantity and worth settles. Neither the balances, nor the
  // locks, nor what became of the orders enter into it.
  lemma SettleSucceeds(db: Db, symbol: string, fill: Fill)
    requires LedgerOk(db.books) && fill.Key() !in db.trades
    requires fill.quantity >= 0.0 && Worth(fill.price, fill.quantity) >= 0.0
    ensures Settle(db, symbol, fill).Ok? <==>
      && (fill.buyOrderId in db.orders || fill.sellOrderId in db.orders)
      && ParseSymbol(symbol).Some?
      && var (base, quote) := ParseSymbol(symbol).value;
        ValidateAsset(base).None? && ValidateAsset(quote).None? && PlacesOf(base).Fits(fill.quantity)
    ensures Settle(db, symbol, fill) == Err(PartialSettlement) <==> fill.buyOrderId !in db.orders && fill.sellOrderId !in db.orders
    ensures Settle(db, symbol, fill) == Err(BadSymbol(symbol)) <==>
      (fill.buyOrderId in db.orders || fill.sellOrderId in db.orders) && ParseSymbol(symbol).None?
  {
    hide AppendAll, ParseSymbol, ValidateAsset, LedgerOk, PlacesOf, Places.Fits, Worth, RoundToPrecision, TradeOf, Fill.Key;
    if ParseSymbol(symbol).Some? && (fill.buyOrderId in db.orders || fill.sellOrderId in db.orders) {
      var (base, quote) := ParseSymbol(symbol).value;
      var postings := Postings(db.orders, base, quote, fill);
      if AppendAll(db.books, postings).Ok? {
        AppendAllTakes(db.books, postings, 0);
        AppendAllTakes(db.books, postings, 2);
      }
      if ValidateAsset(base).None? && ValidateAsset(quote).None? && PlacesOf(base).Fits(fill.quantity) {
        SidesSucceed(db, base, quote, fill);
      }
    }
  }

  // What a settlement leaves in the accounts: what it releases pays for it, so the buyer gains the
  // quantity, the seller the rounded cost, and nothing else moves.
  lemma SettlementPays(db: Db, symbol: string, fill: Fill, k: Account)
    requires LedgerOk(db.books) && Settle(db, symbol, fill).Ok? && fill.Key() !in db.trades
    ensures ParseSymbol(symbol).Some?
    ensures var (base, quote) := ParseSymbol(symbol).value;
      var cost := RoundToPrecision(quote, Worth(fill.price, fill.quantity));
      Cached(Settle(db, symbol, fill).value.db.books, k) == Cached(db.books, k)
        + (if fill.buyOrderId in db.orders && k == (db.orders[fill.buyOrderId].user, base) then fill.quantity else 0.0)
        + (if fill.sellOrderId in db.orders && k == (db.orders[fill.sellOrderId].user, quote) then cost else 0.0)
  {
    hide AppendAll, TotalOf, Postings, LedgerOk, RoundToPrecision, Worth, ParseSymbol, Cached, Fill.Key, TradeOf, WithFill;
    var (base, quote) := ParseSymbol(symbol).value;
    AppendAllMoves(db.books, Postings(db.orders, base, quote, fill), k);
    PostingsMove(db.orders, base, quote, fill, k);
  }

  lemma PostingsMove(orders: map<Reference, OrderRow>, base: string, quote: string, fill: Fill, k: Account)
    ensures TotalOf(Postings(orders, base, quote, fill), OfAccount(k)) ==
      (if fill.buyOrderId in orders && k == (orders[fill.buyOrderId].user, base) then fill.quantity else 0.0)
      + (if fill.sellOrderId in orders && k == (orders[fill.sellOrderId].user, quote)
         then RoundToPrecision(quote, Worth(fill.price, fill.quantity)) else 0.0)
  {
    hide RoundToPrecision, TotalOf, Worth, BuyerPostings, SellerPostings;
    TotalOfConcat(Buys(orders, base, quote, fill), Sells(orders, base, quote, fill), OfAccount(k));
    NoTotal(OfAccount(k));
    var cost := RoundToPrecision(quote, Worth(fill.price, fill.quantity));
    if fill.buyOrderId in orders {
      BuyerMoves(orders[fill.buyOrderId].user, fill.buyOrderId, base, quote, fill.quantity, cost, k);
    }
    if fill.sellOrderId in orders {
      SellerMoves(orders[fill.sellOrderId].user, fill.sellOrderId, base, quote, fill.quantity, cost, k);
    }
  }

  lemma BuyerMoves(buyer: UserId, id: Reference, base: string, quote: string, quantity: real, cost: real, k: Account)
    ensures TotalOf(BuyerPostings(buyer, id, base, quote, quantity, cost), OfAccount(k))
      == if k == (buyer, base) then quantity else 0.0
  {
    var ps := BuyerPostings(buyer, id, base, quote, quantity, cost);
    TotalOfThree(ps[0], ps[1], ps[2], OfAccount(k));
    assert ps == [ps[0], ps[1], ps[2]];
    hide TotalOf;
  }

  lemma SellerMoves(seller: UserId, id: Reference, base: string, quote: string, quantity: real, cost: real, k: Account)
    ensures TotalOf(SellerPostings(seller, id, base, quote, quantity, cost), OfAccount(k))
      == if k == (seller, quote) then cost else 0.0
  {
    var ps := SellerPostings(seller, id, base, quote, quantity, cost);
    TotalOfThree(ps[0], ps[1], ps[2], OfAccount(k));
    assert ps == [ps[0], ps[1], ps[2]];
    hide TotalOf;
  }

  lemma NoTotal(f: Filter)
    ensures TotalOf([], f) == 0.0
  {
  }

  // What is recorded of a new fill: both orders and their owners as far as they are known, price
  // and quantity in their columns, and for each side a fee of a thousandth of the cost.
  lemma TradeIsRecorded(db: Db, symbol: string, fill: Fill)
    requires Settle(db, symbol, fill).Ok? && fill.Key() !in db.trades
    ensures ParseSymbol(symbol).Some?
    ensures var settled, quote := Settle(db, symbol, fill).value, ParseSymbol(symbol).value.1;
      var t, cost := settled.trade, RoundToPrecision(quote, Worth(fill.price, fill.quantity));
      && settled.db.trades == db.trades[fill.Key() := t]
      && t.symbol == symbol && t.price == Column(fill.price) && t.quantity == Column(fill.quantity)
      && (if fill.buyOrderId in db.orders
          then t.buyOrderId == Some(fill.buyOrderId) && t.buyer == Some(db.orders[fill.buyOrderId].user)
          else t.buyOrderId == None && t.buyer == None)
      && (if fill.sellOrderId in db.orders
          then t.sellOrderId == Some(fill.sellOrderId) && t.seller == Some(db.orders[fill.sellOrderId].user)
          else t.sellOrderId == None && t.seller == None)
      && t.buyerFee == t.sellerFee && HasPlaces(quote, t.buyerFee)
      && Abs(t.buyerFee - cost / 1000.0)
         <= (if quote == "EUR" || quote == "USD" || quote == "GBP" then 0.005 else 0.000_000_005)
  {
    hide AppendAll, Postings, RoundToPrecision, Worth, ParseSymbol, Fill.Key, Column, HasPlaces, WithFill;
    var quote := ParseSymbol(symbol).value.1;
    FeeIsAThousandth(quote, RoundToPrecision(quote, Worth(fill.price, fill.quantity)));
  }

  lemma FeeIsAThousandth(quote: string, cost: real)
    ensures var fee := RoundToPrecision(quote, cost * FEE_RATE);
      && HasPlaces(quote, fee)
      && Abs(fee - cost / 1000.0) <= (if quote == "EUR" || quote == "USD" || quote == "GBP" then 0.005 else 0.000_000_005)
  {
    hide RoundToPrecision, HasPlaces;
    RoundsByAsset(quote, cost * FEE_RATE);
    assert cost * FEE_RATE == cost / 1000.0;
  }

  // What a settlement releases for an order: a buyer gets back the rounded cost of the fill, a
  // seller its quantity.
  lemma PostingsUnlock(orders: map<Reference, OrderRow>, base: string, quote: string, fill: Fill, id: Reference)
    requires fill.buyOrderId != id || fill.sellOrderId != id
    ensures TotalOf(Postings(orders, base, quote, fill), UnlocksFor(id))
      == (if id !in orders then 0.0
          else if fill.buyOrderId == id then RoundToPrecision(quote, Worth(fill.price, fill.quantity))
          else if fill.sellOrderId == id then fill.quantity
          else 0.0)
    ensures TotalOf(Postings(orders, base, quote, fill), LocksFor(id)) == 0.0
  {
    hide RoundToPrecision, Worth;
    var buys, sells := Buys(orders, base, quote, fill), Sells(orders, base, quote, fill);
    forall f: Filter
      ensures TotalOf(buys + sells, f) ==
        (if buys == [] then 0.0 else f.Of(buys[0]) + f.Of(buys[1]) + f.Of(buys[2]))
        + (if sells == [] then 0.0 else f.Of(sells[0]) + f.Of(sells[1]) + f.Of(sells[2]))
    {
      TotalOfConcat(buys, sells, f);
      if buys != [] {
        TotalOfThree(buys[0], buys[1], buys[2], f);
        assert buys == [buys[0], buys[1], buys[2]];
      }
      if sells != [] {
        TotalOfThree(sells[0], sells[1], sells[2], f);
        assert sells == [sells[0], sells[1], sells[2]];
      }
    }
  }

  lemma SettlementKeepsLedger(db: Db, symbol: string, fill: Fill)
    requires LedgerOk(db.books) && Settle(db, symbol, fill).Ok?
    ensures LedgerOk(Settle(db, symbol, fill).value.db.books)
  {
    hide AppendAll, Postings, LedgerOk, ParseSymbol, WithFill, TradeOf;
    if fill.Key() !in db.trades {
      var (base, quote) := ParseSymbol(symbol).value;
      AppendAllKeepsLedger(db.books, Postings(db.orders, base, quote, fill));
    }
  }
}
