// Fills that are settled after their order was cancelled.
module LateFills {
  import opened Common
  import opened Decimals
  import opened Ledger
  import opened AccountTables
  import opened OrderLocks
  import opened Settlement
  import opened AccountRuns
  import opened LockRelease
  import opened FillKeys
  import opened FedRuns
  import Orders
  import EngineRuns

  // The settlement names an order of the table, under a symbol and a key that settle.
  ghost predicate MaySettle(db: Db, symbol: string, fill: Fill, id: Reference) {
    && id in db.orders && (fill.buyOrderId == id || fill.sellOrderId == id) && fill.Key() !in db.trades
    && Worth(fill.price, fill.quantity) >= 0.0
    && ParseSymbol(symbol).Some?
    && ValidateAsset(BaseOf(symbol)).None? && ValidateAsset(QuoteOf(symbol)).None?
    && PlacesOf(BaseOf(symbol)).Fits(fill.quantity)
  }

  // A fill of an order settles, and releases its share of the lock, whatever is left of the lock
  // and whether or not the order is cancelled. A cancelled order's row stays as it is.
  lemma FillAlwaysReleases(db: Db, symbol: string, fill: Fill, id: Reference)
    requires LedgerOk(db.books) && MaySettle(db, symbol, fill, id) && Proper(db, SettleOne(symbol, fill), id)
    ensures Settle(db, symbol, fill).Ok?
    ensures var row, db' := db.orders[id], Do(db, SettleOne(symbol, fill));
      && LockedBy(db', id) == LockedBy(db, id)
      && UnlockedBy(db', id) == UnlockedBy(db, id) + FillRelease(row.side, symbol, fill)
      && id in db'.orders && (row.status.Cancelled? ==> db'.orders[id] == row)
  {
    hide LedgerOk, AppendAll, ParseSymbol, ValidateAsset, PlacesOf, Places.Fits, Worth, TradeOf, Total, RoundToPrecision,
         Fill.Key, Column;
    SettleSucceeds(db, symbol, fill);
    OwnTotals(db, UNPLACED, symbol, fill, id);
  }

  // Over every run: a fill that comes up for an order after its cancel is released on top. When
  // the cancel had balanced the lock, the excess is exactly what the fill releases: its quantity
  // for an ask, its rounded cost for a bid.
  lemma LateFillIsReleasedTwice(cs: seq<Command>, symbol: string, fill: Fill, id: Reference)
    requires ProperRun(cs + [SettleOne(symbol, fill)], id) && MaySettle(DoAll(cs), symbol, fill, id)
    requires DoAll(cs).orders[id].status.Cancelled? && UnlockedBy(DoAll(cs), id) == LockedBy(DoAll(cs), id)
    ensures var late := DoAll(cs + [SettleOne(symbol, fill)]);
      UnlockedBy(late, id) == LockedBy(late, id) + FillRelease(DoAll(cs).orders[id].side, symbol, fill)
  {
    hide LedgerOk, DoAll, Do, MaySettle, ProperRun, Proper, LockedBy, UnlockedBy, FillRelease;
    LastIsProper(cs, SettleOne(symbol, fill), id);
    EveryRunKeepsLedger(cs);
    FillAlwaysReleases(DoAll(cs), symbol, fill, id);
    DoneNext(cs, SettleOne(symbol, fill));
  }

  lemma LastIsProper(cs: seq<Command>, c: Command, id: Reference)
    requires ProperRun(cs + [c], id)
    ensures Proper(DoAll(cs), c, id)
  {
    var run := cs + [c];
    assert run[..|cs|] == cs && run[|cs|] == c;
    assert Proper(DoAll(run[..|cs|]), run[|cs|], id);
  }

  lemma DoneNext(cs: seq<Command>, c: Command)
    ensures DoAll(cs + [c]) == Do(DoAll(cs), c)
  {
    assert (cs + [c])[..|cs|] == cs;
  }

  // ---------- a run that gets there ----------

  const BUYER: UserId := 2
  const SELLER: UserId := 1
  const BID_ID: Reference := 2
  const ASK_ID: Reference := 1
  const BID := PlaceRequest("KCN/EUR", Orders.Bid, Orders.Limit, Some(1.0), 1.0, None)
  const ASK := PlaceRequest("KCN/EUR", Orders.Ask, Orders.Limit, Some(1.0), 1.0, None)
  const FILL := Fill(BID_ID, ASK_ID, 1.0, 1.0, 0)

  // Both fund one unit and place their orders, which trade; but the seller's cancel is through
  // before the fill is settled.
  const FUNDED := [DepositFunds(BUYER, "EUR", 1.0), DepositFunds(SELLER, "KCN", 1.0)]
  const PLACED := FUNDED + [PlaceNew(BUYER, BID_ID, BID)] + [PlaceNew(SELLER, ASK_ID, ASK)]
  const CANCELLED := PLACED + [CancelByUser(SELLER, ASK_ID)]
  const LATE := CANCELLED + [SettleOne("KCN/EUR", FILL)]

  lemma OneFits(p: Places)
    ensures p.Fits(1.0) && p.Round(1.0) == 1.0 && Column(1.0) == 1.0
  {
    assert p.Units(1.0).Floor as real == p.Units(1.0);
    RoundKeeps(p, 1.0);
    FitsEight(p, 1.0);
    ColumnKeeps(1.0);
  }

  lemma LocksOfOne()
    ensures LockFor(BID) == Ok(Locked("EUR", 1.0)) && LockFor(ASK) == Ok(Locked("KCN", 1.0))
    ensures ValidateAsset("EUR").None? && ValidateAsset("KCN").None?
    ensures BaseOf("KCN/EUR") == "KCN" && QuoteOf("KCN/EUR") == "EUR" && ParseSymbol("KCN/EUR").Some?
  {
    hide ParseSymbol, PlacesOf, Places.Round, Worth;
    KcnEur();
    OneFits(Two);
    OneFits(Eight);
    OneIsWorthOne();
  }

  lemma OneIsWorthOne()
    ensures Worth(1.0, 1.0) == 1.0
  {
  }

  lemma DepositSucceeds(db: Db, user: UserId, asset: string)
    requires LedgerOk(db.books) && ValidateAsset(asset).None?
    ensures var db' := Do(db, DepositFunds(user, asset, 1.0));
      && db'.orders == db.orders && db'.trades == db.trades
      && forall k: Account :: Cached(db'.books, k) == Cached(db.books, k) + if k == (user, asset) then 1.0 else 0.0
  {
    hide ValidateAsset, PlacesOf, Places.Fits, Column;
    var p := Posting(user, asset, 1.0, Deposit, None);
    assert AccountOk(db.books, (user, asset));
    OneFits(PlacesOf(asset));
    AppendSucceeds(db.books, p);
    AppendAdds(db.books, p);
  }

  lemma FundedIsFunded()
    ensures DoAll(FUNDED).orders == map[] && DoAll(FUNDED).trades == map[]
    ensures Cached(DoAll(FUNDED).books, (BUYER, "EUR")) == 1.0 && Cached(DoAll(FUNDED).books, (SELLER, "KCN")) == 1.0
    ensures Cached(DoAll(FUNDED).books, (BUYER, "KCN")) == 0.0
  {
    LocksOfOne();
    hide LedgerOk, ValidateAsset, Do, LockFor, ParseSymbol, BaseOf, QuoteOf;
    EmptyLedger();
    DepositSucceeds(EMPTY, BUYER, "EUR");
    DoneNext([], FUNDED[0]);
    DoneNext([FUNDED[0]], FUNDED[1]);
    EveryRunKeepsLedger([FUNDED[0]]);
    assert [] + [FUNDED[0]] == [FUNDED[0]] && [FUNDED[0]] + [FUNDED[1]] == FUNDED;
    DepositSucceeds(DoAll([FUNDED[0]]), SELLER, "KCN");
  }

  lemma PlacedIsPlaced()
    ensures DoAll(PLACED).orders == map[BID_ID := NewRow(BUYER, BID), ASK_ID := NewRow(SELLER, ASK)]
    ensures DoAll(PLACED).trades == map[]
    ensures var bidding := DoAll(FUNDED + [PlaceNew(BUYER, BID_ID, BID)]);
      && Place(bidding, SELLER, ASK_ID, ASK) == Ok(DoAll(PLACED))
      && Cached(bidding.books, (SELLER, "KCN")) == 1.0 && Cached(bidding.books, (BUYER, "KCN")) == 0.0
  {
    LocksOfOne();
    FundedIsFunded();
    hide LedgerOk, ValidateAsset, LockFor, ParseSymbol, BaseOf, QuoteOf, NewRow, Append, DoAll;
    var bidding := FUNDED + [PlaceNew(BUYER, BID_ID, BID)];
    EveryRunKeepsLedger(FUNDED);
    EveryRunKeepsLedger(bidding);
    DoneNext(FUNDED, PlaceNew(BUYER, BID_ID, BID));
    PlaceSucceeds(DoAll(FUNDED), BUYER, BID_ID, BID);
    DoneNext(bidding, PlaceNew(SELLER, ASK_ID, ASK));
    PlaceSucceeds(DoAll(bidding), SELLER, ASK_ID, ASK);
  }

  lemma CancelledIsCancelled()
    ensures Cancel(DoAll(PLACED), SELLER, ASK_ID).Ok?
    ensures DoAll(CANCELLED).orders == map[BID_ID := NewRow(BUYER, BID), ASK_ID := NewRow(SELLER, ASK).(status := Cancelled)]
    ensures DoAll(CANCELLED).trades == map[]
    ensures Cached(DoAll(CANCELLED).books, (SELLER, "KCN")) == 1.0 && Cached(DoAll(CANCELLED).books, (BUYER, "KCN")) == 0.0
  {
    hide LedgerOk, LockFor, NewRow, Release, DoAll, Place, Column, Cached, ValidateAsset, ParseSymbol, BaseOf, QuoteOf, Places.Fits;
    LocksOfOne();
    PlacedIsPlaced();
    OneFits(Eight);
    var bidding := FUNDED + [PlaceNew(BUYER, BID_ID, BID)];
    EveryRunKeepsLedger(bidding);
    assert FitsColumns(ASK);
    FittingOrderRestores(DoAll(bidding), SELLER, ASK_ID, ASK);
    DoneNext(PLACED, CancelByUser(SELLER, ASK_ID));
    NewRowIsPending(SELLER, ASK);
  }

  lemma NewRowIsPending(user: UserId, req: PlaceRequest)
    ensures var row := NewRow(user, req);
      row.status.Pending? && row.symbol == req.symbol && row.side == req.side && RowOf(row, req)
  {
  }

  lemma ProperNext(cs: seq<Command>, c: Command, id: Reference)
    requires ProperRun(cs, id) && Proper(DoAll(cs), c, id)
    ensures ProperRun(cs + [c], id)
  {
    hide Proper, DoAll;
    forall i | 0 <= i < |cs + [c]|
      ensures Proper(DoAll((cs + [c])[..i]), (cs + [c])[i], id)
    {
      assert (cs + [c])[..i] == if i < |cs| then cs[..i] else cs;
    }
  }

  lemma LateIsProper()
    ensures ProperRun(PLACED, ASK_ID) && ProperRun(LATE, ASK_ID)
  {
    hide ProperRun, DoAll, NewRow;
    var bidding := FUNDED + [PlaceNew(BUYER, BID_ID, BID)];
    NothingIsProper(ASK_ID);
    assert [] + [FUNDED[0]] == [FUNDED[0]] && [FUNDED[0]] + [FUNDED[1]] == FUNDED;
    ProperNext([], FUNDED[0], ASK_ID);
    ProperNext([FUNDED[0]], FUNDED[1], ASK_ID);
    ProperNext(FUNDED, PlaceNew(BUYER, BID_ID, BID), ASK_ID);
    ProperNext(bidding, PlaceNew(SELLER, ASK_ID, ASK), ASK_ID);
    ProperNext(PLACED, CancelByUser(SELLER, ASK_ID), ASK_ID);
    CancelledIsCancelled();
    NewRowIsPending(SELLER, ASK);
    ProperNext(CANCELLED, SettleOne("KCN/EUR", FILL), ASK_ID);
  }

  lemma NothingIsProper(id: Reference)
    ensures ProperRun([], id)
  {
  }

  lemma AskIsTracked()
    ensures FollowAll(PLACED, ASK_ID) == Track(SELLER, ASK, [], None)
    ensures FollowAll(CANCELLED, ASK_ID).req == ASK
  {
    PlacedIsPlaced();
    hide DoAll, Place, Cancel, NewRow, Release;
    var bidding := FUNDED + [PlaceNew(BUYER, BID_ID, BID)];
    assert PLACED[..|PLACED| - 1] == bidding && PLACED[|PLACED| - 1] == PlaceNew(SELLER, ASK_ID, ASK);
    assert CANCELLED[..|CANCELLED| - 1] == PLACED;
  }

  lemma FillMaySettle()
    ensures MaySettle(DoAll(CANCELLED), "KCN/EUR", FILL, ASK_ID)
    ensures FillRelease(Orders.Ask, "KCN/EUR", FILL) == 1.0
  {
    LocksOfOne();
    CancelledIsCancelled();
    OneFits(Eight);
    KcnEur();
    hide DoAll, NewRow, ParseSymbol, PlacesOf, Places.Fits, ValidateAsset, BaseOf, QuoteOf, Fill.Key;
    assert Worth(1.0, 1.0) == 1.0;
  }

  lemma CancelBalances()
    ensures LockedBy(DoAll(CANCELLED), ASK_ID) == UnlockedBy(DoAll(CANCELLED), ASK_ID) == 1.0
  {
    LateIsProper();
    PlacedIsPlaced();
    CancelledIsCancelled();
    AskIsTracked();
    OneFits(Eight);
    KcnEur();
    LocksOfOne();
    NewRowIsPending(SELLER, ASK);
    hide DoAll, NewRow, ParseSymbol, PlacesOf, Places.Fits, BaseOf, FollowAll, ProperRun, Cancel, LockedBy, UnlockedBy,
         Accounted, Column;
    assert ExactAsk(DoAll(PLACED).orders[ASK_ID], ASK);
    AskCancelReleasesTheRest(PLACED, SELLER, ASK_ID);
    EveryRunIsAccounted(PLACED, ASK_ID);
    ProperUpTo(CANCELLED, SettleOne("KCN/EUR", FILL), ASK_ID);
    EveryRunIsAccounted(CANCELLED, ASK_ID);
    AccountedAskIsExact(DoAll(CANCELLED), FollowAll(CANCELLED, ASK_ID), ASK_ID);
  }

  lemma ProperUpTo(cs: seq<Command>, c: Command, id: Reference)
    requires ProperRun(cs + [c], id)
    ensures ProperRun(cs, id)
  {
    hide Proper, DoAll;
    forall i | 0 <= i < |cs|
      ensures Proper(DoAll(cs[..i]), cs[i], id)
    {
      assert (cs + [c])[..i] == cs[..i] && (cs + [c])[i] == cs[i];
    }
  }

  lemma LateBalances()
    ensures Settle(DoAll(CANCELLED), "KCN/EUR", FILL).Ok? ==>
      var late := Settle(DoAll(CANCELLED), "KCN/EUR", FILL).value.db.books;
      Cached(late, (SELLER, "KCN")) == 1.0 && Cached(late, (BUYER, "KCN")) == 1.0
  {
    CancelledIsCancelled();
    EveryRunKeepsLedger(CANCELLED);
    KcnEur();
    RowsBelong();
    hide DoAll, NewRow, LedgerOk, AppendAll, ParseSymbol, TradeOf, Cached, TotalOf, WithFill, Fill.Key, PlacesOf;
    var db := DoAll(CANCELLED);
    if Settle(db, "KCN/EUR", FILL).Ok? {
      var postings := Postings(db.orders, "KCN", "EUR", FILL);
      AppendAllMoves(db.books, postings, (SELLER, "KCN"));
      AppendAllMoves(db.books, postings, (BUYER, "KCN"));
      LatePostings(db.orders, (SELLER, "KCN"));
      LatePostings(db.orders, (BUYER, "KCN"));
    }
  }

  lemma RowsBelong()
    ensures NewRow(BUYER, BID).user == BUYER && NewRow(SELLER, ASK).user == SELLER
  {
  }

  lemma LatePostings(orders: map<Reference, OrderRow>, k: Account)
    requires BID_ID in orders && orders[BID_ID].user == BUYER && ASK_ID in orders && orders[ASK_ID].user == SELLER
    requires k.1 == "KCN"
    ensures TotalOf(Postings(orders, "KCN", "EUR", FILL), OfAccount(k)) == if k.0 == BUYER then 1.0 else 0.0
  {
    hide TotalOf, RoundToPrecision;
    var buys, sells := Buys(orders, "KCN", "EUR", FILL), Sells(orders, "KCN", "EUR", FILL);
    TotalOfConcat(buys, sells, OfAccount(k));
    TotalOfThree(buys[0], buys[1], buys[2], OfAccount(k));
    TotalOfThree(sells[0], sells[1], sells[2], OfAccount(k));
    assert buys == [buys[0], buys[1], buys[2]] && sells == [sells[0], sells[1], sells[2]];
  }

  // One unit was locked for the ask, and two are released: both users end with a unit of the base
  // asset, of which only one was deposited.
  lemma LateFillExample()
    ensures ProperRun(LATE, ASK_ID) && ASK_ID in DoAll(LATE).orders && DoAll(LATE).orders[ASK_ID].status.Cancelled?
    ensures LockedBy(DoAll(LATE), ASK_ID) == 1.0 && UnlockedBy(DoAll(LATE), ASK_ID) == 2.0
    ensures Cached(DoAll(LATE).books, (SELLER, "KCN")) == 1.0 && Cached(DoAll(LATE).books, (BUYER, "KCN")) == 1.0
  {
    LateIsProper();
    CancelledIsCancelled();
    FillMaySettle();
    CancelBalances();
    hide DoAll, Settle, NewRow, MaySettle, ProperRun, Proper, LockedBy, UnlockedBy, FillRelease, LedgerOk, Cached;
    LateBalances();
    NewRowIsPending(SELLER, ASK);
    LateFillIsReleasedTwice(CANCELLED, "KCN/EUR", FILL, ASK_ID);
    LastIsProper(CANCELLED, SettleOne("KCN/EUR", FILL), ASK_ID);
    EveryRunKeepsLedger(CANCELLED);
    FillAlwaysReleases(DoAll(CANCELLED), "KCN/EUR", FILL, ASK_ID);
    DoneNext(CANCELLED, SettleOne("KCN/EUR", FILL));
  }

  // ---------- what the engine did meanwhile ----------

  const UNIT := 100_000_000
  const RESTING := EngineRuns.AddLimit(BID_ID, Orders.Bid, UNIT, UNIT)
  const TAKING := EngineRuns.AddLimit(ASK_ID, Orders.Ask, UNIT, UNIT)
  const ENGINE := Engine("KCN/EUR", [RESTING, TAKING], [0])

  lemma EngineTrades()
    ensures ENGINE.Fills() == [Orders.Fill(BID_ID, ASK_ID, UNIT, UNIT)]
    ensures ENGINE.Placed() == map[BID_ID := RESTING, ASK_ID := TAKING]
  {
    var run := ENGINE.commands;
    assert run[..1] == [RESTING] && [RESTING][..0] == [];
    var bid, ask := Orders.NewLimit(BID_ID, Orders.Bid, UNIT, UNIT), Orders.NewLimit(ASK_ID, Orders.Ask, UNIT, UNIT);
    assert Orders.Consume(bid, []) == Orders.Outcome(bid, [], [], []);
    assert EngineRuns.Run([RESTING]).book == Orders.Book([bid], []);
    assert [bid][1..] == [];
    var done := ask.(remaining := 0);
    assert Orders.Consume(done, []) == Orders.Outcome(done, [], [], []);
  }

  // The run is one of accounts that are properly fed by an engine.
  lemma LateRunIsFed()
    ensures FedBy(ENGINE, LATE)
  {
    hide EngineRuns.Run, ParseSymbol, PlacesOf, EngineOk;
    EngineTrades();
    EngineIsOk();
    KcnEur();
    assert ENGINE.Amount(UNIT) == 1.0;
    assert ENGINE.Tells(FILL, 0);
  }

  lemma EngineIsOk()
    ensures EngineOk(ENGINE)
  {
    EngineTrades();
    hide EngineRuns.Run, HexCapacity;
    HexGrows(32);
  }

  lemma HexGrows(n: nat)
    requires n > 0
    ensures HexCapacity(n) >= 16
  {
    if n > 1 {
      HexGrows(n - 1);
    }
  }
}
