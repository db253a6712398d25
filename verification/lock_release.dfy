// What one order locked against what was released for it, over whole runs.
module LockRelease {
  import opened Common
  import opened Decimals
  import opened Ledger
  import opened AccountTables
  import opened OrderLocks
  import opened Settlement
  import opened AccountRuns
  import Orders

  // What happened to one order: its owner and request, the fills settled for it, and the filled
  // quantity with which it was cancelled.
  datatype Track = Track(user: UserId, req: PlaceRequest, fills: seq<Fill>, cancelledAt: Option<real>)

  const UNPLACED := Track(0, PlaceRequest("", Orders.Bid, Orders.Limit, None, 0.0, None), [], None)

  // The command settles a new fill of the order.
  predicate Fills(db: Db, c: Command, id: Reference) {
    && c.SettleOne? && id in db.orders
    && (c.fill.buyOrderId == id || c.fill.sellOrderId == id)
    && c.fill.Key() !in db.trades && Settle(db, c.symbol, c.fill).Ok?
  }

  function Follow(db: Db, t: Track, c: Command, id: Reference): Track {
    match c
    case PlaceNew(user, i, req) => if i == id && Place(db, user, id, req).Ok? then Track(user, req, [], None) else t
    case CancelByUser(user, i) =>
      if i == id && Cancel(db, user, id).Ok? then t.(cancelledAt := Some(db.orders[id].filled)) else t
    case CancelByEngine(i, filled) => if i == id && CancelInternal(db, id, filled).Ok? then t.(cancelledAt := Some(filled)) else t
    case SettleOne(symbol, fill) => if Fills(db, c, id) then t.(fills := t.fills + [fill]) else t
    case _ => t
  }

  function FollowAll(cs: seq<Command>, id: Reference): Track {
    if cs == [] then UNPLACED
    else Follow(DoAll(cs[..|cs| - 1]), FollowAll(cs[..|cs| - 1], id), cs[|cs| - 1], id)
  }

  // What the matching engine and the routes guarantee about one order: a positive quantity;
  // fills name it on its own side, under its own symbol, for a positive quantity; and a cancel
  // by the engine states a filled quantity of at most the order's, in the base asset's places.
  predicate Proper(db: Db, c: Command, id: Reference) {
    match c
    case PlaceNew(_, i, req) => i == id ==> req.quantity > 0.0
    case CancelByEngine(i, filled) =>
      i == id && id in db.orders ==>
        0.0 <= filled <= db.orders[id].quantity && PlacesOf(BaseOf(db.orders[id].symbol)).Fits(filled)
    case SettleOne(symbol, fill) =>
      id in db.orders && (fill.buyOrderId == id || fill.sellOrderId == id) ==>
        && fill.quantity > 0.0 && symbol == db.orders[id].symbol
        && fill.buyOrderId != fill.sellOrderId
        && (fill.buyOrderId == id <==> db.orders[id].side.Bid?)
    case _ => true
  }

  ghost predicate ProperRun(cs: seq<Command>, id: Reference) {
    forall i :: 0 <= i < |cs| ==> Proper(DoAll(cs[..i]), cs[i], id)
  }

  function BaseOf(symbol: string): string {
    match ParseSymbol(symbol)
    case None => ""
    case Some((base, _)) => base
  }

  function QuoteOf(symbol: string): string {
    match ParseSymbol(symbol)
    case None => ""
    case Some((_, quote)) => quote
  }

  // What one fill releases of the lock.
  function FillRelease(side: Side, symbol: string, fill: Fill): real {
    if side.Bid? then RoundToPrecision(QuoteOf(symbol), Worth(fill.price, fill.quantity)) else fill.quantity
  }

  function FillReleases(side: Side, symbol: string, fills: seq<Fill>): real {
    if fills == [] then 0.0
    else FillReleases(side, symbol, fills[..|fills| - 1]) + FillRelease(side, symbol, fills[|fills| - 1])
  }

  function FilledBy(fills: seq<Fill>): real {
    if fills == [] then 0.0 else FilledBy(fills[..|fills| - 1]) + fills[|fills| - 1].quantity
  }

  function LockedBy(db: Db, id: Reference): real {
    -Total(db.books.ledger, LocksFor(id))
  }

  function UnlockedBy(db: Db, id: Reference): real {
    Total(db.books.ledger, UnlocksFor(id))
  }

  // The row is the placed request, apart from its progress.
  predicate RowOf(row: OrderRow, req: PlaceRequest) {
    row == NewRow(row.user, req).(filled := row.filled, status := row.status)
  }

  // Pending without fills, partially filled below the quantity, filled from there on.
  function StatusOf(t: Track, quantity: real): OrderStatus {
    if t.fills == [] then Pending
    else if FilledBy(t.fills) < quantity then PartiallyFilled
    else Filled
  }

  // The ledger's entries for the order, and its row, say exactly what the track says.
  ghost predicate Accounted(db: Db, t: Track, id: Reference) {
    if id !in db.orders then t == UNPLACED && LockedBy(db, id) == 0.0 && UnlockedBy(db, id) == 0.0
    else
      var row := db.orders[id];
      && row.user == t.user && RowOf(row, t.req) && t.req.quantity > 0.0
      && LockFor(t.req).Ok? && ValidateAsset(LockFor(t.req).value.asset).None?
      && !(t.req.orderType.Limit? && t.req.price.None?)
      && LockedBy(db, id) == LockFor(t.req).value.amount
      && UnlockedBy(db, id) == FillReleases(row.side, row.symbol, t.fills)
           + (match t.cancelledAt case None => 0.0 case Some(filled) => Released(row, filled))
      && PlacesOf(BaseOf(row.symbol)).Fits(FilledBy(t.fills)) && FilledBy(t.fills) >= 0.0
      && (row.status.Cancelled? <==> t.cancelledAt.Some?)
      && (t.cancelledAt.None? ==> row.filled == FilledBy(t.fills) && row.status == StatusOf(t, row.quantity))
      && (t.cancelledAt.Some? ==>
          row.filled == t.cancelledAt.value && row.quantity > 0.0 && 0.0 <= t.cancelledAt.value <= row.quantity && PlacesOf(BaseOf(row.symbol)).Fits(t.cancelledAt.value))
  }

  // ---------- steps ----------

  // The entry leaves the sums of the order alone.
  lemma OtherEntry(db: Db, p: Posting, id: Reference)
    requires LedgerOk(db.books) && Append(db.books, p).Ok? && p.reference != Some(id)
    ensures var db' := db.(books := Append(db.books, p).value);
      LockedBy(db', id) == LockedBy(db, id) && UnlockedBy(db', id) == UnlockedBy(db, id)
  {
    hide LedgerOk, Append, Total;
    AppendTotals(db.books, p, LocksFor(id));
    AppendTotals(db.books, p, UnlocksFor(id));
  }

  lemma PlaceIsAccounted(db: Db, t: Track, user: UserId, i: Reference, req: PlaceRequest, id: Reference)
    requires LedgerOk(db.books) && Accounted(db, t, id) && Proper(db, PlaceNew(user, i, req), id)
    ensures Accounted(Do(db, PlaceNew(user, i, req)), Follow(db, t, PlaceNew(user, i, req), id), id)
  {
    hide LedgerOk, Append, Total, LockFor, Column, ParseSymbol, ValidateAsset;
    if Place(db, user, i, req).Ok? {
      PlaceSucceeds(db, user, i, req);
      var p := LockPosting(user, i, LockFor(req).value);
      if i != id {
        OtherEntry(db, p, id);
      } else {
        AppendTotals(db.books, p, LocksFor(id));
        AppendTotals(db.books, p, UnlocksFor(id));
        ZeroFits(PlacesOf(BaseOf(req.symbol)));
      }
    }
  }

  lemma QuantityNotNegative(req: PlaceRequest)
    requires req.quantity > 0.0
    ensures Column(req.quantity) >= 0.0
  {
  }

  // A row's progress does not enter into what a cancel works out.
  lemma ReleasedOf(row: OrderRow, row': OrderRow, filled: real)
    requires row' == row.(filled := row'.filled, status := row'.status)
    ensures Released(row', filled) == Released(row, filled)
  {
    hide LockFor, UnfilledShare, RoundToPrecision;
  }

  lemma ReleaseDivides(db: Db, id: Reference, row: OrderRow, filled: real)
    requires Release(db, id, row, filled).Ok?
    ensures row.quantity != 0.0
  {
    hide Append, LockFor, UnfilledShare, RoundToPrecision;
  }

  // Closing the order with a given filled quantity.
  lemma CloseIsAccounted(db: Db, t: Track, id: Reference, filled: real, row': OrderRow)
    requires LedgerOk(db.books) && Accounted(db, t, id) && id in db.orders && db.orders[id].status.Cancellable()
    requires Release(db, id, db.orders[id], filled).Ok?
    requires row' == db.orders[id].(status := Cancelled, filled := filled)
    requires 0.0 <= filled <= row'.quantity && PlacesOf(BaseOf(row'.symbol)).Fits(filled)
    ensures Accounted(Db(Release(db, id, db.orders[id], filled).value, db.orders[id := row'], db.trades),
                      t.(cancelledAt := Some(filled)), id)
  {
    hide LedgerOk, Release, Total, LockFor, Column, ParseSymbol, Released, Unfilled, Places.Fits, FillReleases,
         FilledBy;
    var row := db.orders[id];
    ReleasedOf(row, row', filled);
    ReleaseDivides(db, id, row, filled);
    ReleaseTotals(db, id, row, filled, LocksFor(id));
    ReleaseTotals(db, id, row, filled, UnlocksFor(id));
  }

  lemma OtherClose(db: Db, t: Track, i: Reference, filled: real, row': OrderRow, id: Reference)
    requires LedgerOk(db.books) && Accounted(db, t, id) && i != id && i in db.orders
    requires Release(db, i, db.orders[i], filled).Ok?
    ensures Accounted(Db(Release(db, i, db.orders[i], filled).value, db.orders[i := row'], db.trades), t, id)
  {
    hide LedgerOk, Release, Total, LockFor, Column, ParseSymbol, Released, Places.Fits, FillReleases;
    ReleaseTotals(db, i, db.orders[i], filled, LocksFor(id));
    ReleaseTotals(db, i, db.orders[i], filled, UnlocksFor(id));
  }

  lemma UserCancelIsAccounted(db: Db, t: Track, user: UserId, i: Reference, id: Reference)
    requires LedgerOk(db.books) && Accounted(db, t, id)
    ensures Accounted(Do(db, CancelByUser(user, i)), Follow(db, t, CancelByUser(user, i), id), id)
  {
    hide LedgerOk, Total, LockFor, Release, ParseSymbol, Released, FillReleases, Column;
    if Cancel(db, user, i).Ok? {
      var row := db.orders[i];
      if i != id {
        OtherClose(db, t, i, row.filled, row.(status := Cancelled), id);
      } else {
        QuantityNotNegative(t.req);
        CloseIsAccounted(db, t, id, row.filled, row.(status := Cancelled));
      }
    }
  }

  lemma EngineCancelIsAccounted(db: Db, t: Track, i: Reference, filled: real, id: Reference)
    requires LedgerOk(db.books) && Accounted(db, t, id) && Proper(db, CancelByEngine(i, filled), id)
    ensures Accounted(Do(db, CancelByEngine(i, filled)), Follow(db, t, CancelByEngine(i, filled), id), id)
  {
    hide LedgerOk, Total, LockFor, Release, ParseSymbol, Released, FillReleases, Column;
    if CancelInternal(db, i, filled).Ok? {
      var row := db.orders[i];
      if i != id {
        OtherClose(db, t, i, filled, row.(status := Cancelled, filled := Column(filled)), id);
      } else {
        FitsEight(PlacesOf(BaseOf(row.symbol)), filled);
        ColumnKeeps(filled);
        CloseIsAccounted(db, t, id, filled, row.(status := Cancelled, filled := Column(filled)));
      }
    }
  }

  lemma FillsAppend(side: Side, symbol: string, fills: seq<Fill>, fill: Fill)
    ensures FillReleases(side, symbol, fills + [fill]) == FillReleases(side, symbol, fills) + FillRelease(side, symbol, fill)
    ensures FilledBy(fills + [fill]) == FilledBy(fills) + fill.quantity
  {
    assert (fills + [fill])[..|fills|] == fills;
  }

  // A settlement of fills of other orders.
  lemma OtherFill(db: Db, t: Track, symbol: string, fill: Fill, id: Reference)
    requires LedgerOk(db.books) && Accounted(db, t, id) && Settle(db, symbol, fill).Ok? && fill.Key() !in db.trades
    requires id in db.orders ==> fill.buyOrderId != id && fill.sellOrderId != id
    ensures Accounted(Settle(db, symbol, fill).value.db, t, id)
  {
    hide LedgerOk, Total, TotalOf, AppendAll, Postings, LockFor, ParseSymbol, Released, FillReleases, Column,
         AddFill, TradeOf;
    var (base, quote) := ParseSymbol(symbol).value;
    var postings := Postings(db.orders, base, quote, fill);
    AppendAllTotals(db.books, postings, LocksFor(id));
    AppendAllTotals(db.books, postings, UnlocksFor(id));
    if fill.buyOrderId != id || fill.sellOrderId != id {
      PostingsUnlock(db.orders, base, quote, fill, id);
    }
  }

  // The ledger took the fill's quantity as an amount of the base asset.
  lemma FillQuantityFits(db: Db, symbol: string, fill: Fill)
    requires Settle(db, symbol, fill).Ok? && fill.Key() !in db.trades
    ensures PlacesOf(BaseOf(symbol)).Fits(fill.quantity)
  {
    hide AppendAll, Places.Fits, PlacesOf, RoundToPrecision, Worth, TradeOf, AddFill;
    var (base, quote) := ParseSymbol(symbol).value;
    var postings := Postings(db.orders, base, quote, fill);
    if fill.buyOrderId in db.orders {
      AppendAllTakes(db.books, postings, 2);
    } else {
      AppendAllTakes(db.books, postings, 0);
    }
  }

  // A settlement of a fill of the order itself.
  lemma OwnFill(db: Db, t: Track, symbol: string, fill: Fill, id: Reference)
    requires LedgerOk(db.books) && Accounted(db, t, id) && Fills(db, SettleOne(symbol, fill), id)
    requires Proper(db, SettleOne(symbol, fill), id)
    ensures Accounted(Settle(db, symbol, fill).value.db, t.(fills := t.fills + [fill]), id)
  {
    hide LedgerOk, Total, AppendAll, Postings, LockFor, ParseSymbol, FillReleases, FilledBy, FillRelease, Column,
         TradeOf, RoundToPrecision, Worth, Released, Places.Fits, PlacesOf;
    var row, db' := db.orders[id], Settle(db, symbol, fill).value.db;
    var row' := AddFill(row, fill.quantity);
    FillQuantityFits(db, symbol, fill);
    SumFits(PlacesOf(BaseOf(symbol)), FilledBy(t.fills), fill.quantity);
    FillsAppend(row.side, row.symbol, t.fills, fill);
    OwnTotals(db, t, symbol, fill, id);
    assert db'.orders[id] == row';
    if t.cancelledAt.Some? {
      ReleasedOf(row, row', t.cancelledAt.value);
    }
  }

  lemma SumFits(p: Places, x: real, y: real)
    requires p.Fits(x) && p.Fits(y)
    ensures p.Fits(x + y) && Column(x + y) == x + y
  {
    hide Column;
    FitsSum(p, x, y);
    FitsEight(p, x + y);
    ColumnKeeps(x + y);
  }

  lemma OwnTotals(db: Db, t: Track, symbol: string, fill: Fill, id: Reference)
    requires LedgerOk(db.books) && Fills(db, SettleOne(symbol, fill), id) && Proper(db, SettleOne(symbol, fill), id)
    ensures var db' := Settle(db, symbol, fill).value.db;
      && LockedBy(db', id) == LockedBy(db, id)
      && UnlockedBy(db', id) == UnlockedBy(db, id) + FillRelease(db.orders[id].side, symbol, fill)
  {
    hide LedgerOk, Total, TotalOf, AppendAll, Postings, Column, AddFill, TradeOf, RoundToPrecision, Worth;
    var (base, quote) := ParseSymbol(symbol).value;
    var postings := Postings(db.orders, base, quote, fill);
    AppendAllTotals(db.books, postings, LocksFor(id));
    AppendAllTotals(db.books, postings, UnlocksFor(id));
    PostingsUnlock(db.orders, base, quote, fill, id);
  }

  lemma SettleIsAccounted(db: Db, t: Track, symbol: string, fill: Fill, id: Reference)
    requires LedgerOk(db.books) && Accounted(db, t, id) && Proper(db, SettleOne(symbol, fill), id)
    ensures Accounted(Do(db, SettleOne(symbol, fill)), Follow(db, t, SettleOne(symbol, fill), id), id)
  {
    hide LedgerOk, Accounted;
    if fill.Key() !in db.trades && Settle(db, symbol, fill).Ok? {
      if Fills(db, SettleOne(symbol, fill), id) {
        OwnFill(db, t, symbol, fill, id);
      } else {
        OtherFill(db, t, symbol, fill, id);
      }
    }
  }

  lemma StepIsAccounted(db: Db, t: Track, c: Command, id: Reference)
    requires LedgerOk(db.books) && Accounted(db, t, id) && Proper(db, c, id)
    ensures Accounted(Do(db, c), Follow(db, t, c, id), id)
  {
    match c
    case PlaceNew(user, i, req) => PlaceIsAccounted(db, t, user, i, req, id);
    case CancelByUser(user, i) => UserCancelIsAccounted(db, t, user, i, id);
    case CancelByEngine(i, filled) => EngineCancelIsAccounted(db, t, i, filled, id);
    case SettleOne(symbol, fill) => SettleIsAccounted(db, t, symbol, fill, id);
    case DepositFunds(user, asset, amount) =>
      hide LedgerOk, Append, Total, LockFor, Released, FillReleases, ParseSymbol, Column;
      var p := Posting(user, asset, amount, Deposit, None);
      if Append(db.books, p).Ok? { OtherEntry(db, p, id); }
    case WithdrawFunds(user, asset, amount) =>
      hide LedgerOk, Append, Total, LockFor, Released, FillReleases, ParseSymbol, Column;
      var p := Posting(user, asset, -amount, Withdrawal, None);
      if Append(db.books, p).Ok? { OtherEntry(db, p, id); }
  }

  // A cancel that finds a cancellable order is refused only over a stored quantity of zero.
  lemma ReleaseSucceeds(db: Db, t: Track, id: Reference, filled: real)
    requires LedgerOk(db.books) && id in db.orders && Accounted(db, t, id)
    ensures Release(db, id, db.orders[id], filled).Ok? <==> Column(t.req.quantity) != 0.0
  {
    hide Total, Column, ValidateAsset, ParseSymbol, PlacesOf, Places.Fits, Places.Round, FilledBy, FillReleases, Released,
         UnfilledShare, LockFor, LockedBy, UnlockedBy;
    var row := db.orders[id];
    RecomputedAsset(row.user, t.req);
    assert RequestOf(row) == RequestOf(NewRow(row.user, t.req));
    if row.quantity != 0.0 {
      var unlock := Unfilled(row, filled).value;
      RoundFits(PlacesOf(unlock.asset), UnfilledShare(LockFor(RequestOf(row)).value.amount, filled, row.quantity));
      assert AccountOk(db.books, (row.user, unlock.asset));
      AppendSucceeds(db.books, Posting(row.user, unlock.asset, unlock.amount, Unlock, Some(id)));
    }
  }

  // Over every run: when the owner of an order may cancel it. Somebody else never may, and neither
  // a cancelled order nor one whose fills reach its quantity can be cancelled.
  lemma CancelSucceeds(cs: seq<Command>, user: UserId, id: Reference)
    requires ProperRun(cs, id)
    ensures var db, t := DoAll(cs), FollowAll(cs, id);
      && (Cancel(db, user, id).Ok? <==>
          && id in db.orders && t.user == user && Column(t.req.quantity) != 0.0 && t.cancelledAt.None?
          && (t.fills == [] || FilledBy(t.fills) < Column(t.req.quantity)))
      && (Cancel(db, user, id) == Err(NotFound) <==> id !in db.orders || t.user != user)
  {
    hide LedgerOk, DoAll, FollowAll, ProperRun, Release, Column, LockFor, ParseSymbol, ValidateAsset, FilledBy, FillReleases,
         Released, LockedBy, UnlockedBy, PlacesOf, Places.Fits;
    var db, t := DoAll(cs), FollowAll(cs, id);
    EveryRunIsAccounted(cs, id);
    EveryRunKeepsLedger(cs);
    if id in db.orders {
      ReleaseSucceeds(db, t, id, db.orders[id].filled);
      ReleaseErrors(db, id, db.orders[id], db.orders[id].filled);
    }
  }

  // The engine's cancel needs no owner; what it says was filled does not enter.
  lemma EngineCancelSucceeds(cs: seq<Command>, id: Reference, filled: real)
    requires ProperRun(cs, id)
    ensures var db, t := DoAll(cs), FollowAll(cs, id);
      CancelInternal(db, id, filled).Ok? <==>
        && id in db.orders && Column(t.req.quantity) != 0.0 && t.cancelledAt.None?
        && (t.fills == [] || FilledBy(t.fills) < Column(t.req.quantity))
  {
    hide LedgerOk, DoAll, FollowAll, ProperRun, Release, Column, LockFor, ParseSymbol, ValidateAsset, FilledBy, FillReleases,
         Released, LockedBy, UnlockedBy, PlacesOf, Places.Fits;
    EveryRunIsAccounted(cs, id);
    EveryRunKeepsLedger(cs);
    if id in DoAll(cs).orders {
      ReleaseSucceeds(DoAll(cs), FollowAll(cs, id), id, filled);
    }
  }

  lemma ReleaseErrors(db: Db, id: Reference, row: OrderRow, filled: real)
    ensures Release(db, id, row, filled) != Err(NotFound)
  {
    hide Append, LockFor, UnfilledShare, RoundToPrecision;
    LockErrors(RequestOf(row));
  }

  lemma LockErrors(req: PlaceRequest)
    ensures LockFor(req) != Err(NotFound)
  {
  }

  // Over every run: a row keeps what was asked for: who, what, and price and quantity as their
  // columns take them. A market bid is stored with its slippage price or else 1000.
  lemma RowOverRuns(cs: seq<Command>, id: Reference)
    requires ProperRun(cs, id) && id in DoAll(cs).orders
    ensures var row, t := DoAll(cs).orders[id], FollowAll(cs, id);
      && row.user == t.user && row.symbol == t.req.symbol && row.side == t.req.side && row.orderType == t.req.orderType
      && row.quantity == Column(t.req.quantity)
      && row.price == (
           if t.req.orderType.Limit? then (if t.req.price.Some? then Some(Column(t.req.price.value)) else None)
           else if t.req.side.Ask? then None
           else if t.req.maxSlippagePrice.Some? then Some(Column(t.req.maxSlippagePrice.value))
           else Some(Column(1000.0)))
  {
    hide DoAll, FollowAll, ProperRun, LockFor, ValidateAsset, FilledBy, FillReleases, Released, LockedBy, UnlockedBy,
         PlacesOf, Places.Fits, Column;
    EveryRunIsAccounted(cs, id);
  }

  // Over every run: what the row of an order says. Pending without fills, partially filled while
  // its fills sum below its quantity, filled once they reach it; and a cancelled order keeps the
  // quantity it was cancelled with, whatever is settled later.
  lemma {:induction false} StatusOverRuns(cs: seq<Command>, id: Reference)
    requires ProperRun(cs, id) && id in DoAll(cs).orders
    ensures var row, t := DoAll(cs).orders[id], FollowAll(cs, id);
      && (row.status.Cancelled? <==> t.cancelledAt.Some?)
      && (t.cancelledAt.Some? ==> row.filled == t.cancelledAt.value)
      && (t.cancelledAt.None? ==>
          && row.filled == FilledBy(t.fills)
          && (row.status.Pending? <==> t.fills == [])
          && (row.status.PartiallyFilled? <==> t.fills != [] && FilledBy(t.fills) < row.quantity)
          && (row.status.Filled? <==> t.fills != [] && FilledBy(t.fills) >= row.quantity))
      && row.user == t.user && row.quantity == Column(t.req.quantity)
  {
    hide DoAll, FollowAll, ProperRun, LockFor, ValidateAsset, FilledBy, FillReleases, Released, LockedBy, UnlockedBy,
         PlacesOf, Places.Fits, Column;
    EveryRunIsAccounted(cs, id);
  }

  // Over every run the lock and unlock entries of an order are those of its track.
  lemma {:induction false} EveryRunIsAccounted(cs: seq<Command>, id: Reference)
    requires ProperRun(cs, id)
    ensures Accounted(DoAll(cs), FollowAll(cs, id), id)
  {
    hide Accounted, LedgerOk, Follow, Do;
    if cs == [] {
      NothingAccounted(id);
    } else {
      var n := |cs| - 1;
      forall i | 0 <= i < n
        ensures Proper(DoAll(cs[..n][..i]), cs[..n][i], id)
      {
        assert cs[..n][..i] == cs[..i];
      }
      EveryRunIsAccounted(cs[..n], id);
      EveryRunKeepsLedger(cs[..n]);
      assert Proper(DoAll(cs[..n]), cs[n], id);
      StepIsAccounted(DoAll(cs[..n]), FollowAll(cs[..n], id), cs[n], id);
    }
  }

  lemma NothingAccounted(id: Reference)
    ensures Accounted(EMPTY, UNPLACED, id)
  {
  }

  // ---------- asks ----------

  lemma {:induction false} AskReleases(symbol: string, fills: seq<Fill>)
    ensures FillReleases(Orders.Ask, symbol, fills) == FilledBy(fills)
  {
    if fills != [] {
      AskReleases(symbol, fills[..|fills| - 1]);
    }
  }

  lemma WholeShare(quantity: real, filled: real)
    requires quantity != 0.0
    ensures UnfilledShare(quantity, filled, quantity) == quantity - filled
  {
    var ratio := filled / quantity;
    assert ratio * quantity == filled;
  }

  // An ask whose quantity fits the base asset's places locks that quantity, and a cancel
  // releases exactly what it was told is unfilled.
  lemma AskTerms(row: OrderRow, req: PlaceRequest, filled: real)
    requires RowOf(row, req) && row.side.Ask? && LockFor(req).Ok? && req.quantity > 0.0
    requires PlacesOf(BaseOf(row.symbol)).Fits(req.quantity)
    requires PlacesOf(BaseOf(row.symbol)).Fits(filled) && 0.0 <= filled <= req.quantity
    ensures row.quantity == req.quantity == LockFor(req).value.amount
    ensures Released(row, filled) == req.quantity - filled
  {
    hide Column, PlacesOf, ParseSymbol, Places.Fits, Places.Round, UnfilledShare;
    var places := PlacesOf(BaseOf(row.symbol));
    FitsEight(places, req.quantity);
    ColumnKeeps(req.quantity);
    RoundKeeps(places, req.quantity);
    WholeShare(req.quantity, filled);
    FitsSum(places, req.quantity, filled);
    RoundKeeps(places, req.quantity - filled);
  }

  // An ask whose quantity fits the base asset's places.
  predicate ExactAsk(row: OrderRow, req: PlaceRequest) {
    RowOf(row, req) && row.side.Ask? && PlacesOf(BaseOf(row.symbol)).Fits(req.quantity)
  }

  // What was released for an ask: before a cancel, exactly the filled quantity; after it, what
  // was locked plus whatever the fills settled in all, before or after the cancel, exceed the
  // quantity the cancel was worked out with. A cancel by the user uses what is settled so far,
  // so any later fill is released twice.
  lemma AccountedAskIsExact(db: Db, t: Track, id: Reference)
    requires id in db.orders && Accounted(db, t, id) && ExactAsk(db.orders[id], t.req)
    ensures LockedBy(db, id) == t.req.quantity
    ensures t.cancelledAt.None? ==> UnlockedBy(db, id) == FilledBy(t.fills) == db.orders[id].filled
    ensures t.cancelledAt.Some? ==> UnlockedBy(db, id) - LockedBy(db, id) == FilledBy(t.fills) - t.cancelledAt.value
  {
    hide LockFor, Column, PlacesOf, ParseSymbol, FillReleases, FilledBy, Released, Places.Fits, Total;
    var row := db.orders[id];
    AskReleases(row.symbol, t.fills);
    ZeroFits(PlacesOf(BaseOf(row.symbol)));
    AskTerms(row, t.req, 0.0);
    if t.cancelledAt.Some? {
      AskTerms(row, t.req, t.cancelledAt.value);
    }
  }

  // Ask-side release over every run: once cancelled, what was locked is released exactly if the
  // fills add up to the quantity the cancel used.
  lemma AskIsReleasedExactly(cs: seq<Command>, id: Reference)
    requires ProperRun(cs, id) && id in DoAll(cs).orders
    requires ExactAsk(DoAll(cs).orders[id], FollowAll(cs, id).req)
    ensures var db, t := DoAll(cs), FollowAll(cs, id);
      && (t.cancelledAt.None? ==> UnlockedBy(db, id) == FilledBy(t.fills) == db.orders[id].filled)
      && (t.cancelledAt.Some? ==> (UnlockedBy(db, id) == LockedBy(db, id) <==> FilledBy(t.fills) == t.cancelledAt.value))
  {
    hide ProperRun, DoAll, FollowAll, Accounted, ExactAsk, LockedBy, UnlockedBy, FilledBy;
    EveryRunIsAccounted(cs, id);
    AccountedAskIsExact(DoAll(cs), FollowAll(cs, id), id);
  }

  // In particular, a cancel by the user right after any fills releases exactly the rest.
  lemma AskCancelReleasesTheRest(cs: seq<Command>, user: UserId, id: Reference)
    requires ProperRun(cs, id) && id in DoAll(cs).orders && Cancel(DoAll(cs), user, id).Ok?
    requires ExactAsk(DoAll(cs).orders[id], FollowAll(cs, id).req)
    ensures var db := DoAll(cs + [CancelByUser(user, id)]); UnlockedBy(db, id) == LockedBy(db, id)
  {
    hide Places.Fits, LockFor, Released, ParseSymbol, FillReleases, FilledBy, Total, Release;
    var c := CancelByUser(user, id);
    var run := cs + [c];
    assert run[..|run| - 1] == cs;
    forall i | 0 <= i < |run|
      ensures Proper(DoAll(run[..i]), run[i], id)
    {
      if i < |cs| {
        assert run[..i] == cs[..i];
      }
    }
    EveryRunIsAccounted(cs, id);
    AskIsReleasedExactly(run, id);
  }
}
