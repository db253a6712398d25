// What a bid locked against what was released for it: each rounding moves the sum by at most
// half a unit, and storing price and quantity in their columns may move the recomputed lock.
module BidRelease {
  import opened Common
  import opened Decimals
  import opened Ledger
  import opened AccountTables
  import opened OrderLocks
  import opened AccountRuns
  import opened LockRelease
  import Orders

  // What the buyer saved against the price that was locked.
  function Improvement(price: real, fills: seq<Fill>): real {
    if fills == [] then 0.0
    else Improvement(price, fills[..|fills| - 1]) + Saving(price, fills[|fills| - 1])
  }

  function Saving(price: real, fill: Fill): real {
    Worth(price, fill.quantity) - Worth(fill.price, fill.quantity)
  }

  predicate Near(x: real, y: real, within: real) {
    Abs(x - y) <= within
  }

  // Each fill's release is rounded once.
  lemma {:induction false} BidReleases(symbol: string, price: real, fills: seq<Fill>)
    ensures Near(FillReleases(Orders.Bid, symbol, fills), Worth(price, FilledBy(fills)) - Improvement(price, fills),
                 Times(|fills|, PlacesOf(QuoteOf(symbol)).HalfUnit()))
  {
    hide PlacesOf, QuoteOf, Places.Round, Places.HalfUnit, Times, Worth;
    var half := PlacesOf(QuoteOf(symbol)).HalfUnit();
    if fills != [] {
      var n := |fills| - 1;
      BidReleases(symbol, price, fills[..n]);
      var fill := fills[n];
      RoundNear(PlacesOf(QuoteOf(symbol)), Worth(fill.price, fill.quantity));
      WorthAdds(price, FilledBy(fills[..n]), fill.quantity);
      CountUp(n, half);
    } else {
      CountUp(0, half);
      WorthOfNothing(price);
    }
  }

  lemma WorthAdds(price: real, x: real, y: real)
    ensures Worth(price, x + y) == Worth(price, x) + Worth(price, y)
  {
  }

  lemma WorthOfNothing(price: real)
    ensures Worth(price, 0.0) == 0.0
  {
  }

  // n units.
  function Times(n: nat, unit: real): real {
    n as real * unit
  }

  lemma CountUp(n: nat, unit: real)
    ensures Times(n + 1, unit) == Times(n, unit) + unit && Times(0, unit) == 0.0
  {
    assert (n + 1) as real == n as real + 1.0;
  }

  // The unfilled share of a lock that is within `half` of price times quantity.
  lemma ShareNear(lock: real, price: real, quantity: real, filled: real, half: real)
    requires quantity > 0.0 && 0.0 <= filled <= quantity && half >= 0.0
    requires Abs(lock - Worth(price, quantity)) <= half
    ensures Abs(UnfilledShare(lock, filled, quantity) - (lock - Worth(price, filled))) <= half
  {
    var ratio := filled / quantity;
    var d := Worth(price, quantity) - lock;
    assert ratio * quantity == filled;
    RatioBounds(filled, quantity);
    assert Worth(price, filled) == price * (ratio * quantity) == ratio * Worth(price, quantity);
    assert UnfilledShare(lock, filled, quantity) == lock - ratio * lock;
    assert UnfilledShare(lock, filled, quantity) - (lock - Worth(price, filled)) == ratio * d;
    Shrinks(ratio, d);
  }

  lemma RatioBounds(filled: real, quantity: real)
    requires quantity > 0.0 && 0.0 <= filled <= quantity
    ensures 0.0 <= filled / quantity <= 1.0
  {
  }

  lemma Shrinks(ratio: real, d: real)
    requires 0.0 <= ratio <= 1.0
    ensures Abs(ratio * d) <= Abs(d)
    decreases d < 0.0
  {
    if d >= 0.0 {
      assert 0.0 <= ratio * d <= 1.0 * d;
    } else {
      Shrinks(ratio, -d);
      assert ratio * -d == -(ratio * d);
    }
  }

  lemma ShareSign(lock: real, filled: real, quantity: real)
    requires quantity > 0.0 && 0.0 <= filled <= quantity
    ensures lock >= 0.0 ==> UnfilledShare(lock, filled, quantity) >= 0.0
    ensures lock <= 0.0 ==> UnfilledShare(lock, filled, quantity) <= 0.0
  {
    RatioBounds(filled, quantity);
    var rest := 1.0 - filled / quantity;
    assert lock >= 0.0 ==> lock * rest >= 0.0;
    assert lock <= 0.0 ==> lock * rest <= 0.0;
  }

  // ---------- one bid ----------

  // Any bid, limit or market, at the price it is stored with.
  predicate IsBid(row: OrderRow, req: PlaceRequest) {
    RowOf(row, req) && row.side.Bid? && StoredPrice(req).Some?
  }

  // What the price became in its column.
  function StoredAs(req: PlaceRequest): real
    requires StoredPrice(req).Some?
  {
    Column(StoredPrice(req).value)
  }

  // The lock worked out again from the stored row.
  function LockAgain(row: OrderRow): real {
    match LockFor(RequestOf(row))
    case Ok(lock) => lock.amount
    case Err(_) => 0.0
  }

  lemma LockIsNear(row: OrderRow, req: PlaceRequest)
    requires IsBid(row, req) && LockFor(req).Ok?
    ensures Near(LockFor(req).value.amount, Worth(StoredPrice(req).value, req.quantity),
                 PlacesOf(QuoteOf(row.symbol)).HalfUnit())
  {
    hide Column, PlacesOf, ParseSymbol, Places.Round, Places.HalfUnit, Worth;
    RoundNear(PlacesOf(QuoteOf(row.symbol)), Worth(StoredPrice(req).value, req.quantity));
  }

  lemma AgainIsRounded(row: OrderRow, req: PlaceRequest)
    requires IsBid(row, req) && LockFor(req).Ok?
    ensures LockFor(RequestOf(row)) == Ok(Locked(QuoteOf(row.symbol), LockAgain(row)))
    ensures LockAgain(row) == PlacesOf(QuoteOf(row.symbol)).Round(Worth(StoredAs(req), row.quantity))
  {
    hide Column, PlacesOf, ParseSymbol, Places.Round, Worth;
  }

  lemma ColumnSign(x: real)
    ensures x >= 0.0 ==> Column(x) >= 0.0
    ensures x <= 0.0 ==> Column(x) <= 0.0
  {
  }

  lemma WorthSign(price: real, quantity: real)
    requires quantity > 0.0
    ensures price >= 0.0 ==> Worth(price, quantity) >= 0.0
    ensures price <= 0.0 ==> Worth(price, quantity) <= 0.0
  {
  }

  lemma RoundDown(p: Places, x: real)
    requires x <= 0.0
    ensures p.Round(x) <= 0.0
  {
    var y := p.Units(x);
    assert y <= 0.0;
    assert HalfEven(y) <= 0;
    hide HalfEven;
  }

  // What a cancel releases: the recomputed lock less the filled part at the stored price, to
  // within two half-units; nothing for a price that is not positive.
  lemma CancelReleases(row: OrderRow, req: PlaceRequest, filled: real)
    requires IsBid(row, req) && LockFor(req).Ok? && row.quantity > 0.0 && 0.0 <= filled <= row.quantity
    ensures var half := PlacesOf(QuoteOf(row.symbol)).HalfUnit();
      && (StoredPrice(req).value > 0.0 ==>
          Near(Released(row, filled), LockAgain(row) - Worth(StoredAs(req), filled), half + half))
      && (StoredPrice(req).value <= 0.0 ==> Released(row, filled) == 0.0)
  {
    hide Column, PlacesOf, LockFor, ParseSymbol, Places.Round, Places.HalfUnit, UnfilledShare, Worth, RequestOf, LockAgain;
    var places := PlacesOf(QuoteOf(row.symbol));
    var price, again := StoredAs(req), LockAgain(row);
    AgainIsRounded(row, req);
    RoundNear(places, Worth(price, row.quantity));
    ShareNear(again, price, row.quantity, filled, places.HalfUnit());
    var share := UnfilledShare(again, filled, row.quantity);
    RoundNear(places, share);
    ColumnSign(StoredPrice(req).value);
    WorthSign(price, row.quantity);
    ShareSign(again, filled, row.quantity);
    RoundSign(places, share);
    RoundSign(places, Worth(price, row.quantity));
    if StoredPrice(req).value <= 0.0 {
      RoundDown(places, Worth(price, row.quantity));
      RoundDown(places, share);
    }
  }

  // ---------- whole runs ----------

  // What was released for a bid with n fills at any prices, to the half-unit of the quote asset.
  //
  // After a cancel it is, to within n + 2 half-units, the lock less the price improvement, plus
  // what storing the order did to the lock and to the price of the cancelled quantity, plus the
  // price of any fill beyond the cancelled quantity. Before a cancel it is, to within n + 1, the
  // lock less the improvement and less the price of what is not yet filled. A price that is not
  // positive locks nothing worth releasing: a cancel adds nothing to the releases of the fills.
  ghost predicate ReleasedNearLock(db: Db, t: Track, id: Reference)
    requires id in db.orders && IsBid(db.orders[id], t.req)
  {
    var row, price, stored, n := db.orders[id], StoredPrice(t.req).value, StoredAs(t.req), |t.fills|;
    var half := PlacesOf(QuoteOf(row.symbol)).HalfUnit();
    var expected := LockedBy(db, id) - Improvement(price, t.fills);
    match t.cancelledAt
    case None =>
      Near(UnlockedBy(db, id), expected + Worth(price, FilledBy(t.fills) - t.req.quantity), Times(n + 1, half))
    case Some(c) =>
      if price > 0.0 then
        var drift := LockAgain(row) - LockedBy(db, id) + Worth(price - stored, c);
        Near(UnlockedBy(db, id), expected + drift + Worth(price, FilledBy(t.fills) - c), Times(n + 2, half))
      else
        Near(UnlockedBy(db, id), Worth(price, FilledBy(t.fills)) - Improvement(price, t.fills), Times(n, half))
  }

  // Bid-side release over every run, for every limit and market bid.
  lemma BidReleaseBound(cs: seq<Command>, id: Reference)
    requires ProperRun(cs, id) && id in DoAll(cs).orders && DoAll(cs).orders[id].side.Bid?
    ensures IsBid(DoAll(cs).orders[id], FollowAll(cs, id).req)
    ensures ReleasedNearLock(DoAll(cs), FollowAll(cs, id), id)
  {
    hide ProperRun, DoAll, FollowAll, Accounted, ReleasedNearLock, IsBid;
    EveryRunIsAccounted(cs, id);
    AccountedBid(DoAll(cs), FollowAll(cs, id), id);
    AccountedIsNear(DoAll(cs), FollowAll(cs, id), id);
  }

  lemma AccountedBid(db: Db, t: Track, id: Reference)
    requires id in db.orders && Accounted(db, t, id) && db.orders[id].side.Bid?
    ensures IsBid(db.orders[id], t.req)
  {
    hide Column, LockFor, FillReleases, FilledBy, Released, Places.Fits, Total, BaseOf;
  }

  lemma AccountedIsNear(db: Db, t: Track, id: Reference)
    requires id in db.orders && Accounted(db, t, id) && IsBid(db.orders[id], t.req)
    ensures ReleasedNearLock(db, t, id)
  {
    hide FillReleases, FilledBy, Improvement, Released, Worth, Times, Near, LockedBy, UnlockedBy, PlacesOf, QuoteOf,
         Places.HalfUnit, LockAgain, StoredAs, StoredPrice;
    BidSums(db, t, id);
    var row, n := db.orders[id], |t.fills|;
    hide Accounted, IsBid;
    var price, stored := StoredPrice(t.req).value, StoredAs(t.req);
    var half := PlacesOf(QuoteOf(row.symbol)).HalfUnit();
    var releases, lock, filled := FillReleases(row.side, row.symbol, t.fills), LockedBy(db, id), FilledBy(t.fills);
    var saved := Improvement(price, t.fills);
    BidReleases(row.symbol, price, t.fills);
    CountUp(n, half);
    CountUp(n + 1, half);
    match t.cancelledAt
    case Some(c) =>
      WorthAdds(price, filled - c, c);
      WorthDiffers(price, stored, c);
      if price > 0.0 {
        CancelledNear(releases, Released(row, c), LockAgain(row), saved, Worth(price, filled), Worth(price, c),
                      Worth(stored, c), Times(n, half), half);
      }
    case None =>
      WorthAdds(price, filled - t.req.quantity, t.req.quantity);
      FilledNear(releases, lock, saved, Worth(price, filled), Worth(price, t.req.quantity), Times(n, half), half);
  }

  lemma WorthDiffers(price: real, stored: real, quantity: real)
    ensures Worth(price - stored, quantity) == Worth(price, quantity) - Worth(stored, quantity)
  {
  }

  lemma CancelledNear(releases: real, released: real, again: real, saved: real,
                      cost: real, cancelledCost: real, storedCost: real, dn: real, half: real)
    requires Near(releases, cost - saved, dn) && Near(released, again - storedCost, half + half)
    ensures Near(releases + released, again - saved + (cancelledCost - storedCost) + (cost - cancelledCost), dn + half + half)
  {
  }

  lemma FilledNear(releases: real, lock: real, saved: real, cost: real, wholeCost: real, dn: real, half: real)
    requires Near(releases, cost - saved, dn) && Near(lock, wholeCost, half)
    ensures Near(releases, lock - saved + (cost - wholeCost), dn + half)
  {
  }

  // The accounts of a bid.
  lemma BidSums(db: Db, t: Track, id: Reference)
    requires id in db.orders && Accounted(db, t, id) && IsBid(db.orders[id], t.req)
    ensures var row, price := db.orders[id], StoredPrice(t.req).value;
      var half := PlacesOf(QuoteOf(row.symbol)).HalfUnit();
      && row.side == Orders.Bid
      && UnlockedBy(db, id) == FillReleases(row.side, row.symbol, t.fills)
           + (match t.cancelledAt case None => 0.0 case Some(filled) => Released(row, filled))
      && Near(LockedBy(db, id), Worth(price, t.req.quantity), half)
      && (t.cancelledAt.Some? ==>
          var c := t.cancelledAt.value;
          && (price > 0.0 ==> Near(Released(row, c), LockAgain(row) - Worth(StoredAs(t.req), c), half + half))
          && (price <= 0.0 ==> Released(row, c) == 0.0))
  {
    hide Column, PlacesOf, LockFor, FillReleases, FilledBy, Released, Places.HalfUnit, Places.Fits, Total, Worth,
         QuoteOf, BaseOf, Near, LockAgain, StoredAs, StoredPrice;
    LockIsNear(db.orders[id], t.req);
    if t.cancelledAt.Some? {
      CancelReleases(db.orders[id], t.req, t.cancelledAt.value);
    }
  }

  // With a price and a quantity of at most eight decimals nothing drifts: a bid cancelled at what
  // is filled has been released the lock less the improvement, to within n + 2 half-units.
  lemma FittingBidReleaseBound(cs: seq<Command>, id: Reference)
    requires ProperRun(cs, id) && id in DoAll(cs).orders && DoAll(cs).orders[id].side.Bid?
    requires FitsColumns(FollowAll(cs, id).req) && StoredPrice(FollowAll(cs, id).req).Some?
    requires StoredPrice(FollowAll(cs, id).req).value > 0.0
    ensures var db, t := DoAll(cs), FollowAll(cs, id);
      var half := PlacesOf(QuoteOf(db.orders[id].symbol)).HalfUnit();
      t.cancelledAt == Some(FilledBy(t.fills)) ==>
        Near(UnlockedBy(db, id), LockedBy(db, id) - Improvement(StoredPrice(t.req).value, t.fills), Times(|t.fills| + 2, half))
  {
    hide ProperRun, DoAll, FollowAll, Accounted, ReleasedNearLock, IsBid;
    EveryRunIsAccounted(cs, id);
    BidReleaseBound(cs, id);
    if FollowAll(cs, id).cancelledAt == Some(FilledBy(FollowAll(cs, id).fills)) {
      NothingDrifts(DoAll(cs), FollowAll(cs, id), id);
    }
  }

  lemma NothingDrifts(db: Db, t: Track, id: Reference)
    requires id in db.orders && Accounted(db, t, id) && IsBid(db.orders[id], t.req) && ReleasedNearLock(db, t, id)
    requires FitsColumns(t.req) && StoredPrice(t.req).value > 0.0 && t.cancelledAt == Some(FilledBy(t.fills))
    ensures Near(UnlockedBy(db, id), LockedBy(db, id) - Improvement(StoredPrice(t.req).value, t.fills),
                 Times(|t.fills| + 2, PlacesOf(QuoteOf(db.orders[id].symbol)).HalfUnit()))
  {
    SameLock(db, t, id);
    WorthOfNothing(StoredPrice(t.req).value);
    WorthOfNone(FilledBy(t.fills));
    hide Accounted, IsBid, FitsColumns, Near, Improvement, FilledBy, Worth, Times, LockAgain, LockedBy, UnlockedBy,
         PlacesOf, QuoteOf, Places.HalfUnit, StoredAs, StoredPrice;
    var price, filled := StoredPrice(t.req).value, FilledBy(t.fills);
    assert price - StoredAs(t.req) == 0.0 && filled - filled == 0.0;
  }

  lemma WorthOfNone(quantity: real)
    ensures Worth(0.0, quantity) == 0.0
  {
  }

  lemma SameLock(db: Db, t: Track, id: Reference)
    requires id in db.orders && Accounted(db, t, id) && IsBid(db.orders[id], t.req) && FitsColumns(t.req)
    ensures LockAgain(db.orders[id]) == LockedBy(db, id) && StoredAs(t.req) == StoredPrice(t.req).value
  {
    hide Column, PlacesOf, LockFor, FillReleases, FilledBy, Released, Places.HalfUnit, Places.Fits, Total, Worth, QuoteOf, BaseOf;
    RecomputedExactly(db.orders[id].user, t.req);
    ColumnKeeps(StoredPrice(t.req).value);
    assert RequestOf(db.orders[id]) == RequestOf(NewRow(db.orders[id].user, t.req));
  }
}
