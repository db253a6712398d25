// The accounts fed by a matching engine: orders reach both, the engine's fills are settled, and
// its cancels state what it filled.
module FedRuns {
  import opened Common
  import opened Decimals
  import opened FillKeys
  import opened Ledger
  import opened AccountTables
  import opened OrderLocks
  import opened Settlement
  import opened AccountRuns
  import opened LockRelease
  import Orders
  import EngineRuns

  // What one engine did: it serves one symbol, and stamps each of its fills with a time.
  datatype Engine = Engine(symbol: string, commands: seq<EngineRuns.Command>, stamps: seq<int>) {
    function Fills(): seq<Orders.Fill> {
      EngineRuns.Run(commands).fills
    }

    function Placed(): map<Orders.OrderId, EngineRuns.Command> {
      EngineRuns.Run(commands).placed
    }

    // Its quantities are multiples of the smallest amount of the base asset.
    function Amount(quantity: Orders.Quantity): real {
      PlacesOf(BaseOf(symbol)).Amount(quantity)
    }

    // All it filled of an order.
    function Filled(id: Reference): Orders.Quantity {
      EngineRuns.FilledOf(Fills(), id)
    }

    // The fill it reports k-th, at any price.
    predicate Tells(fill: Fill, k: nat)
      requires k < |Fills()| == |stamps|
    {
      var f := Fills()[k];
      fill.buyOrderId == f.buyId && fill.sellOrderId == f.sellId && fill.quantity == Amount(f.quantity)
        && fill.timestamp == stamps[k]
    }
  }

  ghost predicate EngineOk(e: Engine) {
    EngineRuns.FreshCommands(e.commands) && EngineRuns.UuidCommands(e.commands) && |e.stamps| == |e.Fills()|
  }

  // What reaches the accounts: placements of a positive quantity, which are the engine's where it
  // knows the order; settlements of its fills, in any order, any of them never or repeatedly; and
  // cancels that state at most what it filled, such as the fills that were settled at the time.
  ghost predicate Feeds(e: Engine, c: Command)
    requires EngineOk(e)
  {
    match c
    case PlaceNew(_, i, req) => req.quantity > 0.0 && (i in e.Placed() ==> AsPlaced(e, i, req.symbol, req.side, req.quantity))
    case CancelByEngine(i, filled) => exists units :: StatesFilled(e, i, filled, units)
    case SettleOne(symbol, fill) => symbol == e.symbol && exists k :: 0 <= k < |e.Fills()| && e.Tells(fill, k)
    case _ => true
  }

  predicate AsPlaced(e: Engine, i: Reference, symbol: string, side: Side, quantity: real)
    requires i in e.Placed()
  {
    var c := e.Placed()[i];
    c.Places() && symbol == e.symbol && side == c.side && quantity == e.Amount(c.quantity)
  }

  predicate StatesFilled(e: Engine, i: Reference, filled: real, units: Orders.Quantity) {
    0 <= units <= e.Filled(i) && filled == e.Amount(units)
  }

  ghost predicate FedBy(e: Engine, cs: seq<Command>) {
    EngineOk(e) && forall i :: 0 <= i < |cs| ==> Feeds(e, cs[i])
  }

  // ---------- the engine's side ----------

  lemma FillFacts(e: Engine, k: nat)
    requires EngineOk(e) && k < |e.Fills()|
    ensures var f := e.Fills()[k];
      && 0 < f.quantity && f.buyId != f.sellId
      && f.buyId in e.Placed() && e.Placed()[f.buyId].Places() && e.Placed()[f.buyId].side.Bid?
      && f.sellId in e.Placed() && e.Placed()[f.sellId].Places() && e.Placed()[f.sellId].side.Ask?
      && IsUuid(f.buyId) && IsUuid(f.sellId)
  {
    hide EngineRuns.FreshCommands, EngineRuns.UuidCommands, EngineRuns.Run, IsUuid;
    EngineRuns.EveryRunIsOk(e.commands);
    assert EngineRuns.TradesAsPlaced(e.Placed(), e.Fills()[k]);
    EngineRuns.FilledIdsAreUuids(e.commands, k);
  }

  lemma FilledWithin(e: Engine, i: Reference)
    requires EngineOk(e)
    ensures 0 <= e.Filled(i)
    ensures i in e.Placed() ==> e.Placed()[i].Places() && e.Filled(i) <= e.Placed()[i].quantity
    ensures i !in e.Placed() ==> e.Filled(i) == 0
  {
    hide EngineRuns.FreshCommands, EngineRuns.UuidCommands, EngineRuns.Run, EngineRuns.FilledOf, EngineRuns.Remaining;
    var run, fills := EngineRuns.Run(e.commands), e.Fills();
    forall k | 0 <= k < |fills|
      ensures 0 < fills[k].quantity
    {
      FillFacts(e, k);
    }
    EngineRuns.FilledOfPositive(fills, i);
    EngineRuns.EveryRunIsOk(e.commands);
    if i in e.Placed() {
      EngineRuns.RemainingNeverNegative(run.book, i);
    } else {
      EngineRuns.FreshIdIsUnknown(run, i);
    }
  }

  lemma AmountOrder(e: Engine, x: Orders.Quantity, y: Orders.Quantity)
    ensures x <= y <==> e.Amount(x) <= e.Amount(y)
    ensures e.Amount(0) == 0.0 && e.Amount(x + y) == e.Amount(x) + e.Amount(y)
    ensures PlacesOf(BaseOf(e.symbol)).Fits(e.Amount(x)) && Column(e.Amount(x)) == e.Amount(x)
  {
    hide PlacesOf, BaseOf, Column;
    AmountFits(PlacesOf(BaseOf(e.symbol)), x);
    FitsEight(PlacesOf(BaseOf(e.symbol)), e.Amount(x));
    ColumnKeeps(e.Amount(x));
  }

  // ---------- the accounts' side ----------

  predicate RowAsPlaced(e: Engine, i: Reference, row: OrderRow) {
    row.quantity >= 0.0 && (i in e.Placed() ==> AsPlaced(e, i, row.symbol, row.side, row.quantity))
  }

  ghost predicate RowsAsPlaced(e: Engine, db: Db) {
    forall i :: i in db.orders ==> RowAsPlaced(e, i, db.orders[i])
  }

  lemma StepKeepsRows(e: Engine, db: Db, c: Command)
    requires EngineOk(e) && Feeds(e, c) && RowsAsPlaced(e, db)
    ensures RowsAsPlaced(e, Do(db, c))
  {
    hide EngineOk, Engine.Placed, Append, AppendAll, Release, LockFor, ParseSymbol, Postings, Column, Engine.Amount, TradeOf,
         Fill.Key, StatesFilled, Engine.Fills;
    if c.PlaceNew? {
      if c.id in e.Placed() {
        AmountOrder(e, e.Placed()[c.id].quantity, 0);
      }
      QuantityNotNegative(c.req);
    }
  }

  lemma StepIsProper(e: Engine, db: Db, c: Command, id: Reference)
    requires EngineOk(e) && Feeds(e, c) && RowsAsPlaced(e, db)
    ensures Proper(db, c, id)
  {
    hide EngineRuns.FreshCommands, EngineRuns.UuidCommands, Engine.Placed, Engine.Fills, Engine.Amount, EngineRuns.FilledOf, PlacesOf, BaseOf, Places.Fits;
    if c.CancelByEngine? && c.id == id && id in db.orders {
      var units :| StatesFilled(e, id, c.filled, units);
      CancelIsProper(e, db.orders[id], id, c.filled, units);
    } else if c.SettleOne? {
      var k :| 0 <= k < |e.Fills()| && e.Tells(c.fill, k);
      FillFacts(e, k);
      AmountOrder(e, e.Fills()[k].quantity, 0);
      assert id in db.orders ==> RowAsPlaced(e, id, db.orders[id]);
    }
  }

  lemma CancelIsProper(e: Engine, row: OrderRow, id: Reference, filled: real, units: Orders.Quantity)
    requires EngineOk(e) && RowAsPlaced(e, id, row) && StatesFilled(e, id, filled, units)
    ensures 0.0 <= filled <= row.quantity && PlacesOf(BaseOf(row.symbol)).Fits(filled)
  {
    hide EngineOk, Engine.Placed, Engine.Filled, Engine.Amount, PlacesOf, BaseOf, Places.Fits;
    FilledWithin(e, id);
    AmountOrder(e, 0, units);
    if id in e.Placed() {
      AmountOrder(e, units, e.Placed()[id].quantity);
    } else {
      ZeroFits(PlacesOf(BaseOf(row.symbol)));
    }
  }

  lemma {:induction false} EveryFedRunKeepsRows(e: Engine, cs: seq<Command>)
    requires FedBy(e, cs)
    ensures RowsAsPlaced(e, DoAll(cs))
  {
    hide EngineOk, Feeds, Do;
    if cs != [] {
      EveryFedRunKeepsRows(e, cs[..|cs| - 1]);
      StepKeepsRows(e, DoAll(cs[..|cs| - 1]), cs[|cs| - 1]);
    }
  }

  // What the engine guarantees makes every fed run proper, for every order.
  lemma FedRunIsProper(e: Engine, cs: seq<Command>, id: Reference)
    requires FedBy(e, cs)
    ensures ProperRun(cs, id)
  {
    hide EngineOk, Feeds, DoAll, Proper;
    forall i | 0 <= i < |cs|
      ensures Proper(DoAll(cs[..i]), cs[i], id)
    {
      EveryFedRunKeepsRows(e, cs[..i]);
      StepIsProper(e, DoAll(cs[..i]), cs[i], id);
    }
  }

  // ---------- no more is settled than was filled ----------

  function KeyOf(e: Engine, k: nat): string
    requires k < |e.Fills()| == |e.stamps|
  {
    KeyText(e.Fills()[k].buyId, e.Fills()[k].sellId, e.stamps[k])
  }

  // What the order traded in the first n fills of the engine, as far as `keys` are settled.
  function SettledOf(e: Engine, keys: set<string>, id: Reference, n: nat): Orders.Quantity
    requires n <= |e.Fills()| == |e.stamps|
  {
    if n == 0 then 0
    else SettledOf(e, keys, id, n - 1) + (if KeyOf(e, n - 1) in keys then Share(e, id, n - 1) else 0)
  }

  function Share(e: Engine, id: Reference, k: nat): Orders.Quantity
    requires k < |e.Fills()|
  {
    var f := e.Fills()[k];
    if f.buyId == id || f.sellId == id then f.quantity else 0
  }

  lemma {:induction false} OneMoreKey(e: Engine, keys: set<string>, id: Reference, k: nat, n: nat)
    requires EngineOk(e) && k < |e.Fills()| && n <= |e.Fills()| && KeyOf(e, k) !in keys
    ensures SettledOf(e, keys + {KeyOf(e, k)}, id, n) == SettledOf(e, keys, id, n) + if k < n then Share(e, id, k) else 0
  {
    hide EngineRuns.FreshCommands, EngineRuns.UuidCommands, EngineRuns.Run, KeyText, Share;
    if n > 0 {
      OneMoreKey(e, keys, id, k, n - 1);
      if k != n - 1 {
        EngineRuns.KeysNeverClash(e.commands, if k < n - 1 then k else n - 1, if k < n - 1 then n - 1 else k,
                                  e.stamps[if k < n - 1 then k else n - 1], e.stamps[if k < n - 1 then n - 1 else k]);
      }
    }
  }

  lemma {:induction false} SettledAtMost(e: Engine, keys: set<string>, id: Reference, n: nat)
    requires EngineOk(e) && n <= |e.Fills()|
    ensures 0 <= SettledOf(e, keys, id, n) <= EngineRuns.FilledOf(e.Fills()[..n], id)
  {
    hide EngineOk, EngineRuns.Run, KeyOf;
    if n > 0 {
      SettledAtMost(e, keys, id, n - 1);
      FillFacts(e, n - 1);
      var fills := e.Fills();
      assert fills[..n] == fills[..n - 1] + [fills[n - 1]];
      EngineRuns.FilledOfAppend(fills[..n - 1], [fills[n - 1]], id);
      assert EngineRuns.FilledOf([fills[n - 1]], id) == Share(e, id, n - 1);
    }
  }

  // The track of an order in a fed run: its request is the engine's, and the fills settled for
  // it come to no more than what is settled of the engine's fills.
  ghost predicate TrackOk(e: Engine, db: Db, t: Track, id: Reference)
    requires EngineOk(e)
  {
    && FilledBy(t.fills) <= e.Amount(SettledOf(e, db.trades.Keys, id, |e.Fills()|))
    && (id in e.Placed() && id in db.orders ==> AsPlaced(e, id, t.req.symbol, t.req.side, t.req.quantity))
  }

  lemma SettleKeepsTrack(e: Engine, db: Db, t: Track, c: Command, id: Reference)
    requires EngineOk(e) && Feeds(e, c) && TrackOk(e, db, t, id) && c.SettleOne?
    ensures TrackOk(e, Do(db, c), Follow(db, t, c, id), id)
  {
    hide EngineRuns.FreshCommands, EngineRuns.UuidCommands, Engine.Placed, Engine.Fills, Engine.Amount,
         AppendAll, Postings, ParseSymbol, TradeOf, SettledOf, KeyText, FilledBy, AsPlaced;
    var fill, n := c.fill, |e.Fills()|;
    if fill.Key() !in db.trades && Settle(db, c.symbol, fill).Ok? {
      var k :| 0 <= k < n && e.Tells(fill, k);
      var keys, share := db.trades.Keys, Share(e, id, k);
      FillFacts(e, k);
      assert fill.Key() == KeyOf(e, k);
      assert Do(db, c).trades.Keys == keys + {KeyOf(e, k)};
      OneMoreKey(e, keys, id, k, n);
      AmountOrder(e, SettledOf(e, keys, id, n), share);
      AmountOrder(e, 0, share);
      FillsAppend(t.req.side, t.req.symbol, t.fills, fill);
    }
  }

  lemma StepKeepsTrack(e: Engine, db: Db, t: Track, c: Command, id: Reference)
    requires EngineOk(e) && Feeds(e, c) && TrackOk(e, db, t, id)
    ensures TrackOk(e, Do(db, c), Follow(db, t, c, id), id)
  {
    hide EngineRuns.FreshCommands, EngineRuns.UuidCommands, Engine.Placed, Engine.Fills, Engine.Amount,
         Append, Release, ParseSymbol, SettledOf, LockFor, Settle, PlacesOf, BaseOf, Column;
    if c.SettleOne? {
      SettleKeepsTrack(e, db, t, c, id);
    } else {
      SettledAtMost(e, db.trades.Keys, id, |e.Fills()|);
      AmountOrder(e, 0, SettledOf(e, db.trades.Keys, id, |e.Fills()|));
    }
  }

  lemma {:induction false} EveryFedRunKeepsTrack(e: Engine, cs: seq<Command>, id: Reference)
    requires FedBy(e, cs)
    ensures TrackOk(e, DoAll(cs), FollowAll(cs, id), id)
  {
    hide EngineRuns.FreshCommands, EngineRuns.UuidCommands, Feeds, Do, Follow, AsPlaced, SettledOf;
    if cs != [] {
      EveryFedRunKeepsTrack(e, cs[..|cs| - 1], id);
      StepKeepsTrack(e, DoAll(cs[..|cs| - 1]), FollowAll(cs[..|cs| - 1], id), cs[|cs| - 1], id);
    } else {
      SettledAtMost(e, {}, id, |e.Fills()|);
      AmountOrder(e, 0, SettledOf(e, {}, id, |e.Fills()|));
      assert EMPTY.trades.Keys == {};
    }
  }

  // Whatever is settled, repeated, refused or left out, and in whatever order: no order has more
  // settled than the engine filled of it.
  lemma NoMoreSettledThanFilled(e: Engine, cs: seq<Command>, id: Reference)
    requires FedBy(e, cs)
    ensures FilledBy(FollowAll(cs, id).fills) <= e.Amount(e.Filled(id))
  {
    hide EngineRuns.FreshCommands, EngineRuns.UuidCommands, Feeds, DoAll, FollowAll, SettledOf, FilledBy, EngineRuns.Run;
    var n, keys := |e.Fills()|, DoAll(cs).trades.Keys;
    EveryFedRunKeepsTrack(e, cs, id);
    SettledAtMost(e, keys, id, n);
    assert e.Fills()[..n] == e.Fills();
    AmountOrder(e, SettledOf(e, keys, id, n), e.Filled(id));
  }

  // An ask of the engine locks its quantity. While it is not cancelled no more is released than
  // that. Once it is cancelled the excess is at most what the engine filled beyond the quantity
  // the cancel used, and exactly that once all its fills are settled: nothing, if the cancel used
  // all that was filled.
  lemma FedAskIsReleased(e: Engine, cs: seq<Command>, id: Reference)
    requires FedBy(e, cs) && id in DoAll(cs).orders
    requires id in e.Placed() && e.Placed()[id].Places() && e.Placed()[id].side.Ask?
    ensures var db, t, filled := DoAll(cs), FollowAll(cs, id), e.Amount(e.Filled(id));
      && LockedBy(db, id) == e.Amount(e.Placed()[id].quantity)
      && (t.cancelledAt.None? ==> UnlockedBy(db, id) <= LockedBy(db, id))
      && (t.cancelledAt.Some? ==>
          && UnlockedBy(db, id) - LockedBy(db, id) <= filled - t.cancelledAt.value
          && (UnlockedBy(db, id) - LockedBy(db, id) == filled - t.cancelledAt.value <==> FilledBy(t.fills) == filled))
  {
    hide EngineOk, Feeds, DoAll, FollowAll, FilledBy, FillReleases, Total, LockFor, ParseSymbol, Released,
         Engine.Fills, Engine.Placed, Engine.Filled, PlacesOf, Places.Fits, Column, Engine.Amount, BaseOf;
    var db, t := DoAll(cs), FollowAll(cs, id);
    FedRunIsProper(e, cs, id);
    EveryRunIsAccounted(cs, id);
    EveryFedRunKeepsTrack(e, cs, id);
    AmountOrder(e, e.Placed()[id].quantity, 0);
    AccountedAskIsExact(db, t, id);
    NoMoreSettledThanFilled(e, cs, id);
    FilledWithin(e, id);
    AmountOrder(e, e.Filled(id), e.Placed()[id].quantity);
  }
}
