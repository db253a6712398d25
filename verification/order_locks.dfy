// Placing and cancelling orders: what is locked, and what is released again.
module OrderLocks {
  import opened Common
  import opened Decimals
  import opened Ledger
  import opened AccountTables
  import Orders

  datatype PlaceRequest = PlaceRequest(
    symbol: string,
    side: Side,
    orderType: OrderType,
    price: Option<real>,
    quantity: real,
    maxSlippagePrice: Option<real>)

  datatype OrderError =
    | InsufficientFunds(required: real)
    | LimitOrderRequiresPrice
    | InvalidSymbol
    | NotFound
    | CannotCancel(status: OrderStatus)
    | Database(error: LedgerError)
    | DuplicateId
    | DivisionByZero

  const FALLBACK_PRICE := 1000.0

  datatype Locked = Locked(asset: string, amount: real)

  // The cost of a quantity at a price.
  function Worth(price: real, quantity: real): real {
    price * quantity
  }

  // calculate_lock_amount: a bid locks the quote asset, an ask the base asset.
  function LockFor(req: PlaceRequest): Result<Locked, OrderError> {
    match ParseSymbol(req.symbol)
    case None => Err(InvalidSymbol)
    case Some((base, quote)) =>
      if req.side.Ask? then Ok(Locked(base, RoundToPrecision(base, req.quantity)))
      else if req.orderType.Market? then
        Ok(Locked(quote, RoundToPrecision(quote, Worth(req.maxSlippagePrice.GetOr(FALLBACK_PRICE), req.quantity))))
      else
        match req.price
        case None => Err(LimitOrderRequiresPrice)
        case Some(price) => Ok(Locked(quote, RoundToPrecision(quote, Worth(price, req.quantity))))
  }

  // The price kept with the order, so that a cancel can work out the lock again.
  function StoredPrice(req: PlaceRequest): Option<real> {
    if req.orderType.Limit? then req.price
    else if req.side.Bid? then Some(req.maxSlippagePrice.GetOr(FALLBACK_PRICE))
    else None
  }

  function ColumnPrice(price: Option<real>): Option<real> {
    match price
    case None => None
    case Some(p) => Some(Column(p))
  }

  // The row a request becomes.
  function NewRow(user: UserId, req: PlaceRequest): OrderRow {
    OrderRow(user, req.symbol, req.side, req.orderType, ColumnPrice(StoredPrice(req)), Column(req.quantity), 0.0, Pending)
  }

  function LockPosting(user: UserId, id: Reference, lock: Locked): Posting {
    Posting(user, lock.asset, -lock.amount, Lock, Some(id))
  }

  function Place(db: Db, user: UserId, id: Reference, req: PlaceRequest): Result<Db, OrderError> {
    if req.orderType.Limit? && req.price.None? then Err(LimitOrderRequiresPrice)
    else
      var lock :- LockFor(req);
      match Append(db.books, LockPosting(user, id, lock))
      case Err(InsufficientBalance) => Err(InsufficientFunds(lock.amount))
      case Err(NegativeAvailable) => Err(InsufficientFunds(lock.amount))
      case Err(e) => Err(Database(e))
      case Ok(books) =>
        if id in db.orders then Err(DuplicateId)
        else Ok(Db(books, db.orders[id := NewRow(user, req)], db.trades))
  }

  // The request a cancel reconstructs from the stored row.
  function RequestOf(row: OrderRow): PlaceRequest {
    PlaceRequest(row.symbol, row.side, row.orderType, row.price, row.quantity, row.price)
  }

  // The share of a lock that is not filled.
  function UnfilledShare(lock: real, filled: real, quantity: real): real
    requires quantity != 0.0
  {
    lock * (1.0 - filled / quantity)
  }

  // The part of the recomputed lock that `filled` has not used up.
  function Unfilled(row: OrderRow, filled: real): Result<Locked, OrderError> {
    var lock :- LockFor(RequestOf(row));
    if row.quantity == 0.0 then Err(DivisionByZero)
    else Ok(Locked(lock.asset, RoundToPrecision(lock.asset, UnfilledShare(lock.amount, filled, row.quantity))))
  }

  function Release(db: Db, id: Reference, row: OrderRow, filled: real): Result<Books, OrderError> {
    var unlock :- Unfilled(row, filled);
    if unlock.amount > 0.0 then
      match Append(db.books, Posting(row.user, unlock.asset, unlock.amount, Unlock, Some(id)))
      case Err(e) => Err(Database(e))
      case Ok(books) => Ok(books)
    else Ok(db.books)
  }

  function Cancel(db: Db, user: UserId, id: Reference): Result<Db, OrderError> {
    if id !in db.orders || db.orders[id].user != user then Err(NotFound)
    else
      var row := db.orders[id];
      if !row.status.Cancellable() then Err(CannotCancel(row.status))
      else
        var books :- Release(db, id, row, row.filled);
        Ok(Db(books, db.orders[id := row.(status := Cancelled)], db.trades))
  }

  // cancel_internal: the matching engine says how much was filled.
  function CancelInternal(db: Db, id: Reference, filled: real): Result<Db, OrderError> {
    if id !in db.orders then Err(NotFound)
    else
      var row := db.orders[id];
      if !row.status.Cancellable() then Err(CannotCancel(row.status))
      else
        var books :- Release(db, id, row, filled);
        Ok(Db(books, db.orders[id := row.(status := Cancelled, filled := Column(filled))], db.trades))
  }

  // add_fill: a cancelled order stays as it is.
  function AddFill(row: OrderRow, quantity: real): OrderRow {
    if row.status.Cancelled? then row
    else
      row.(filled := Column(row.filled + quantity),
           status := if row.filled + quantity >= row.quantity then Filled else PartiallyFilled)
  }

  // ---------- placing and cancelling again ----------

  // What a cancel of the untouched order would release.
  function Recomputed(user: UserId, req: PlaceRequest): Result<Locked, OrderError> {
    LockFor(RequestOf(NewRow(user, req)))
  }

  lemma RecomputedAsset(user: UserId, req: PlaceRequest)
    requires !(req.orderType.Limit? && req.price.None?)
    ensures LockFor(req).Ok? <==> Recomputed(user, req).Ok?
    ensures LockFor(req).Ok? ==> LockFor(req).value.asset == Recomputed(user, req).value.asset
  {
    hide Column, ParseSymbol, RoundToPrecision;
  }

  // The numbers of the request survive the columns they are stored in.
  ghost predicate FitsColumns(req: PlaceRequest) {
    && Eight.Fits(req.quantity)
    && (StoredPrice(req).Some? ==> Eight.Fits(StoredPrice(req).value))
  }

  lemma RecomputedExactly(user: UserId, req: PlaceRequest)
    requires FitsColumns(req) && !(req.orderType.Limit? && req.price.None?)
    ensures LockFor(req) == Recomputed(user, req)
  {
    ColumnKeeps(req.quantity);
    if StoredPrice(req).Some? {
      ColumnKeeps(StoredPrice(req).value);
    }
    hide Column, RoundToPrecision, ParseSymbol, Worth;
    var again := RequestOf(NewRow(user, req));
    assert again.price == StoredPrice(req) && again.quantity == req.quantity;
  }

  lemma LockFits(req: PlaceRequest)
    requires LockFor(req).Ok?
    ensures var lock := LockFor(req).value; PlacesOf(lock.asset).Fits(lock.amount)
  {
    match ParseSymbol(req.symbol)
    case Some((base, quote)) =>
      RoundFits(PlacesOf(base), req.quantity);
      if req.side.Bid? {
        RoundFits(PlacesOf(quote), Worth(StoredPrice(req).value, req.quantity));
      }
  }

  // When an order is accepted, and what that changes.
  lemma PlaceSucceeds(db: Db, user: UserId, id: Reference, req: PlaceRequest)
    requires LedgerOk(db.books)
    ensures Place(db, user, id, req).Ok? <==>
      && !(req.orderType.Limit? && req.price.None?) && LockFor(req).Ok? && id !in db.orders
      && ValidateAsset(LockFor(req).value.asset).None?
      && Cached(db.books, (user, LockFor(req).value.asset)) >= LockFor(req).value.amount
    ensures Place(db, user, id, req).Ok? ==>
      var placed, k := Place(db, user, id, req).value, (user, LockFor(req).value.asset);
      && placed.orders == db.orders[id := NewRow(user, req)] && placed.trades == db.trades
      && Cached(placed.books, k) == Cached(db.books, k) - LockFor(req).value.amount
      && forall other: Account :: other != k ==> Cached(placed.books, other) == Cached(db.books, other)
  {
    hide Column, LockFor, ValidateAsset, PlacesOf, Places.Fits, NewRow;
    if LockFor(req).Ok? {
      var lock := LockFor(req).value;
      assert AccountOk(db.books, (user, lock.asset));
      LockFits(req);
      FitsSum(PlacesOf(lock.asset), lock.amount, lock.amount);
      AppendSucceeds(db.books, LockPosting(user, id, lock));
      if Append(db.books, LockPosting(user, id, lock)).Ok? {
        AppendAdds(db.books, LockPosting(user, id, lock));
      }
    }
  }

  // What an order locks. A limit bid locks its price times its quantity of the quote asset, a
  // market bid uses the slippage price or else 1000, an ask locks its quantity of the base asset,
  // each to the half-unit.
  lemma LockAmounts(req: PlaceRequest, base: string, quote: string)
    requires ParseSymbol(req.symbol) == Some((base, quote))
    ensures LockFor(req).Err? <==> req.side.Bid? && req.orderType.Limit? && req.price.None?
    ensures LockFor(req).Ok? ==>
      var lock := LockFor(req).value;
      var exact :=
        if req.side.Ask? then req.quantity
        else if req.orderType.Limit? then req.price.value * req.quantity
        else if req.maxSlippagePrice.Some? then req.maxSlippagePrice.value * req.quantity
        else 1000.0 * req.quantity;
      && lock.asset == (if req.side.Ask? then base else quote)
      && HasPlaces(lock.asset, lock.amount)
      && Abs(lock.amount - exact)
         <= (if lock.asset == "EUR" || lock.asset == "USD" || lock.asset == "GBP" then 0.005 else 0.000_000_005)
  {
    hide ParseSymbol, RoundToPrecision, HasPlaces;
    if LockFor(req).Ok? {
      RoundsByAsset(base, req.quantity);
      if req.side.Bid? {
        RoundsByAsset(quote, Worth(StoredPrice(req).value, req.quantity));
      }
    }
  }

  // Why an order is not accepted.
  lemma PlaceErrors(db: Db, user: UserId, id: Reference, req: PlaceRequest)
    requires LedgerOk(db.books)
    ensures var lock := LockFor(req);
      && (Place(db, user, id, req) == Err(LimitOrderRequiresPrice) <==> req.orderType.Limit? && req.price.None?)
      && (Place(db, user, id, req) == Err(InvalidSymbol) <==>
          !(req.orderType.Limit? && req.price.None?) && ParseSymbol(req.symbol).None?)
      && (lock.Ok? && !(req.orderType.Limit? && req.price.None?) && PlainAsset(lock.value.asset) ==>
          if Cached(db.books, (user, lock.value.asset)) < lock.value.amount then
            Place(db, user, id, req) == Err(InsufficientFunds(lock.value.amount))
          else id in db.orders ==> Place(db, user, id, req) == Err(DuplicateId))
  {
    hide Column, ParseSymbol, PlacesOf, Places.Fits, Places.Round, NewRow, HasPlaces, PlainAsset, Append;
    if LockFor(req).Ok? {
      var lock := LockFor(req).value;
      assert AccountOk(db.books, (user, lock.asset));
      LockHasPlaces(req);
      NegativePlaces(lock.asset, lock.amount);
      AppendOutcome(db.books, LockPosting(user, id, lock));
    }
  }

  lemma LockHasPlaces(req: PlaceRequest)
    requires LockFor(req).Ok?
    ensures HasPlaces(LockFor(req).value.asset, LockFor(req).value.amount)
  {
    hide ParseSymbol, HasPlaces;
    var (base, quote) := ParseSymbol(req.symbol).value;
    LockAmounts(req, base, quote);
  }

  lemma NegativePlaces(asset: string, amount: real)
    requires HasPlaces(asset, amount)
    ensures HasPlaces(asset, -amount)
  {
    FitsSum(Two, if Two.Fits(amount) then amount else 0.0, if Two.Fits(amount) then amount else 0.0);
    FitsSum(Eight, if Eight.Fits(amount) then amount else 0.0, if Eight.Fits(amount) then amount else 0.0);
  }

  // Cancelling an untouched order releases the whole recomputed lock.
  lemma UntouchedUnfilled(user: UserId, req: PlaceRequest)
    requires Recomputed(user, req).Ok? && Column(req.quantity) != 0.0
    ensures Unfilled(NewRow(user, req), 0.0) == Recomputed(user, req)
  {
    var row := NewRow(user, req);
    var lock := LockFor(RequestOf(row)).value;
    LockFits(RequestOf(row));
    assert UnfilledShare(lock.amount, 0.0, row.quantity) == lock.amount;
    RoundKeeps(PlacesOf(lock.asset), lock.amount);
  }

  ghost predicate Restores(before: Db, after: Db) {
    forall k: Account :: Cached(after.books, k) == Cached(before.books, k)
  }

  // Place, then cancel with no fill between. The cancel fails only if the quantity vanishes in
  // its column; otherwise every balance is restored exactly when the lock worked out again from
  // the stored columns, if positive, is the lock that was taken.
  lemma PlaceThenCancel(db: Db, user: UserId, id: Reference, req: PlaceRequest)
    requires LedgerOk(db.books) && Place(db, user, id, req).Ok?
    ensures var placed := Place(db, user, id, req).value;
      var cancelled := Cancel(placed, user, id);
      var lock, again := LockFor(req).value.amount, Recomputed(user, req).value.amount;
      && LockFor(req).Ok? && Recomputed(user, req).Ok?
      && (Column(req.quantity) == 0.0 ==> cancelled == Err(DivisionByZero))
      && (Column(req.quantity) != 0.0 ==>
          && cancelled.Ok?
          && (Restores(db, cancelled.value) <==> lock == if again > 0.0 then again else 0.0)
          && cancelled.value.orders == db.orders[id := NewRow(user, req).(status := Cancelled)])
  {
    var placed := Place(db, user, id, req).value;
    var lock := LockFor(req).value;
    RecomputedAsset(user, req);
    hide Column, LockFor, ValidateAsset;
    var k := (user, lock.asset);
    assert AccountOk(db.books, k);
    var posting := LockPosting(user, id, lock);
    AppendAdds(db.books, posting);
    AppendKeepsLedger(db.books, posting);
    assert AccountOk(placed.books, k);
    var row := NewRow(user, req);
    assert placed.orders[id] == row;
    if Column(req.quantity) != 0.0 {
      UntouchedUnfilled(user, req);
      LockFits(RequestOf(row));
      var again := Recomputed(user, req).value;
      CancelRestores(db, placed, id, row, lock, again);
    }
  }

  lemma CancelRestores(db: Db, placed: Db, id: Reference, row: OrderRow, lock: Locked, again: Locked)
    requires LedgerOk(placed.books) && id in placed.orders && placed.orders[id] == row && row.status.Cancellable()
    requires Unfilled(row, row.filled) == Ok(again) && again.asset == lock.asset
    requires ValidateAsset(lock.asset).None? && PlacesOf(again.asset).Fits(again.amount)
    requires forall k: Account ::
      Cached(placed.books, k) == if k == (row.user, lock.asset) then Cached(db.books, k) - lock.amount else Cached(db.books, k)
    ensures var cancelled := Cancel(placed, row.user, id);
      && cancelled.Ok? && cancelled.value.orders == placed.orders[id := row.(status := Cancelled)]
      && (Restores(db, cancelled.value) <==> lock.amount == if again.amount > 0.0 then again.amount else 0.0)
  {
    hide Column, LockFor, ValidateAsset, Unfilled;
    var k0 := (row.user, lock.asset);
    assert AccountOk(placed.books, k0);
    if again.amount > 0.0 {
      var posting := Posting(row.user, again.asset, again.amount, Unlock, Some(id));
      AppendSucceeds(placed.books, posting);
      AppendAdds(placed.books, posting);
    }
    hide Append, AccountOk, LedgerOk;
    var cancelled := Cancel(placed, row.user, id).value;
    assert Cached(cancelled.books, k0) == Cached(db.books, k0) - lock.amount + if again.amount > 0.0 then again.amount else 0.0;
  }

  // With a price and a quantity of at most eight decimals nothing is gained or lost.
  lemma FittingOrderRestores(db: Db, user: UserId, id: Reference, req: PlaceRequest)
    requires LedgerOk(db.books) && Place(db, user, id, req).Ok?
    requires FitsColumns(req) && req.quantity > 0.0 && (StoredPrice(req).Some? ==> StoredPrice(req).value > 0.0)
    ensures Cancel(Place(db, user, id, req).value, user, id).Ok?
    ensures Restores(db, Cancel(Place(db, user, id, req).value, user, id).value)
  {
    assert !(req.orderType.Limit? && req.price.None?);
    hide Place, Cancel, Restores;
    PlaceThenCancel(db, user, id, req);
    ColumnKeeps(req.quantity);
    RecomputedExactly(user, req);
    LockNotNegative(req);
  }

  lemma LockNotNegative(req: PlaceRequest)
    requires LockFor(req).Ok? && req.quantity > 0.0 && (StoredPrice(req).Some? ==> StoredPrice(req).value > 0.0)
    ensures LockFor(req).value.amount >= 0.0
  {
    hide ParseSymbol, Places.Round, PlacesOf, Worth;
    match ParseSymbol(req.symbol)
    case Some((base, quote)) =>
      RoundSign(PlacesOf(base), req.quantity);
      if req.side.Bid? {
        ProductNotNegative(StoredPrice(req).value, req.quantity);
        RoundSign(PlacesOf(quote), Worth(StoredPrice(req).value, req.quantity));
      }
  }

  lemma ProductNotNegative(x: real, y: real)
    requires x > 0.0 && y > 0.0
    ensures Worth(x, y) >= 0.0
  {
  }

  lemma KcnEur()
    ensures ParseSymbol("KCN/EUR") == Some(("KCN", "EUR"))
    ensures PlacesOf("KCN") == Eight && PlacesOf("EUR") == Two
  {
    assert "KCN/EUR" == "KCN" + "/" + "EUR";
    SymbolRoundTrip("KCN/EUR", "KCN", "EUR");
    hide ParseSymbol;
  }

  // An ask for half of the smallest unit.
  const HALF_UNIT_ASK := PlaceRequest("KCN/EUR", Orders.Ask, Orders.Limit, Some(1.0), 0.000_000_005, None)

  lemma HalfUnitLocks(user: UserId)
    ensures LockFor(HALF_UNIT_ASK) == Ok(Locked("KCN", 0.0))
    ensures Recomputed(user, HALF_UNIT_ASK) == Ok(Locked("KCN", 0.000_000_01))
    ensures Column(HALF_UNIT_ASK.quantity) == 0.000_000_01
  {
    KcnEur();
    HalfUnitNumbers();
    hide ParseSymbol, PlacesOf, Places.Round, Column, Worth;
  }

  lemma HalfUnitNumbers()
    ensures Column(0.000_000_005) == 0.000_000_01
    ensures Eight.Round(0.000_000_005) == 0.0
    ensures Eight.Round(0.000_000_01) == 0.000_000_01
  {
  }

  // Its lock rounds to the even zero, the stored quantity rounds away from it, and cancelling
  // releases a unit that was never locked: the order fits no column and is not restored.
  lemma HalfUnitAskIsNotRestored(db: Db, user: UserId, id: Reference)
    requires LedgerOk(db.books) && id !in db.orders
    ensures Place(db, user, id, HALF_UNIT_ASK).Ok?
    ensures var cancelled := Cancel(Place(db, user, id, HALF_UNIT_ASK).value, user, id);
      cancelled.Ok? && !Restores(db, cancelled.value)
  {
    HalfUnitLocks(user);
    hide LockFor, Column;
    var lock := Locked("KCN", 0.0);
    assert AccountOk(db.books, (user, "KCN"));
    ZeroFits(Eight);
    assert ValidateAsset("KCN").None? && PlacesOf("KCN") == Eight;
    AppendSucceeds(db.books, LockPosting(user, id, lock));
    hide Append;
    assert Place(db, user, id, HALF_UNIT_ASK).Ok?;
    hide Restores, Place, Cancel;
    PlaceThenCancel(db, user, id, HALF_UNIT_ASK);
  }

  // A limit bid for ten million at a price of nine decimals.
  const DRIFTING_BID := PlaceRequest("KCN/EUR", Orders.Bid, Orders.Limit, Some(1.000_000_005), 10_000_000.0, None)

  lemma DriftingNumbers()
    ensures Column(1.000_000_005) == 1.000_000_01 && Column(10_000_000.0) == 10_000_000.0
    ensures Worth(1.000_000_005, 10_000_000.0) == 10_000_000.05 && Worth(1.000_000_01, 10_000_000.0) == 10_000_000.1
  {
  }

  lemma DriftingRounds()
    ensures Two.Round(10_000_000.05) == 10_000_000.05 && Two.Round(10_000_000.1) == 10_000_000.1
  {
  }

  lemma DriftingLocks(user: UserId)
    ensures LockFor(DRIFTING_BID) == Ok(Locked("EUR", 10_000_000.05))
    ensures Recomputed(user, DRIFTING_BID) == Ok(Locked("EUR", 10_000_000.1))
    ensures Column(DRIFTING_BID.quantity) == 10_000_000.0
  {
    KcnEur();
    DriftingNumbers();
    DriftingRounds();
    hide ParseSymbol, PlacesOf, Places.Round, Column, Worth;
  }

  // Its price grows in its column, and place then cancel releases five cents, ten half-units of
  // the quote asset, more than were locked.
  lemma DriftingBidIsNotRestored(db: Db, user: UserId, id: Reference)
    requires LedgerOk(db.books) && id !in db.orders && Cached(db.books, (user, "EUR")) >= 10_000_000.05
    ensures LockFor(DRIFTING_BID) == Ok(Locked("EUR", 10_000_000.05))
    ensures Recomputed(user, DRIFTING_BID) == Ok(Locked("EUR", 10_000_000.1))
    ensures Place(db, user, id, DRIFTING_BID).Ok?
    ensures var cancelled := Cancel(Place(db, user, id, DRIFTING_BID).value, user, id);
      cancelled.Ok? && !Restores(db, cancelled.value)
  {
    DriftingLocks(user);
    hide LockFor, Column;
    var lock := Locked("EUR", 10_000_000.05);
    assert AccountOk(db.books, (user, "EUR"));
    assert ValidateAsset("EUR").None? && PlacesOf("EUR") == Two;
    AmountFits(Two, -1_000_000_005);
    AppendSucceeds(db.books, LockPosting(user, id, lock));
    hide Append;
    assert Place(db, user, id, DRIFTING_BID).Ok?;
    hide Restores, Place, Cancel;
    PlaceThenCancel(db, user, id, DRIFTING_BID);
  }
}
