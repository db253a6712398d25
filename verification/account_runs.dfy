// Runs of the accounts service: deposits, withdrawals, placements, cancels and settlements in
// any order.
module AccountRuns {
  import opened Common
  import opened Decimals
  import opened Ledger
  import opened AccountTables
  import opened OrderLocks
  import opened Settlement

  datatype Command =
    | DepositFunds(user: UserId, asset: string, amount: real)
    | WithdrawFunds(user: UserId, asset: string, amount: real)
    | PlaceNew(user: UserId, id: Reference, req: PlaceRequest)
    | CancelByUser(user: UserId, id: Reference)
    | CancelByEngine(id: Reference, filled: real)
    | SettleOne(symbol: string, fill: Fill)

  // A failed command changes nothing.
  function Do(db: Db, c: Command): Db {
    match c
    case DepositFunds(user, asset, amount) =>
      match Append(db.books, Posting(user, asset, amount, Deposit, None)) {
        case Ok(books) => db.(books := books)
        case Err(_) => db
      }
    case WithdrawFunds(user, asset, amount) =>
      match Append(db.books, Posting(user, asset, -amount, Withdrawal, None)) {
        case Ok(books) => db.(books := books)
        case Err(_) => db
      }
    case PlaceNew(user, id, req) =>
      match Place(db, user, id, req) {
        case Ok(db') => db'
        case Err(_) => db
      }
    case CancelByUser(user, id) =>
      match Cancel(db, user, id) {
        case Ok(db') => db'
        case Err(_) => db
      }
    case CancelByEngine(id, filled) =>
      match CancelInternal(db, id, filled) {
        case Ok(db') => db'
        case Err(_) => db
      }
    case SettleOne(symbol, fill) =>
      match Settle(db, symbol, fill) {
        case Ok(settled) => settled.db
        case Err(_) => db
      }
  }

  function DoAll(cs: seq<Command>): Db {
    if cs == [] then EMPTY else Do(DoAll(cs[..|cs| - 1]), cs[|cs| - 1])
  }

  // ---------- the ledger ----------

  lemma PlaceKeepsLedger(db: Db, user: UserId, id: Reference, req: PlaceRequest)
    requires LedgerOk(db.books) && Place(db, user, id, req).Ok?
    ensures LedgerOk(Place(db, user, id, req).value.books)
  {
    hide LedgerOk, Append, LockFor, NewRow;
    AppendKeepsLedger(db.books, LockPosting(user, id, LockFor(req).value));
  }

  lemma ReleaseKeepsLedger(db: Db, id: Reference, row: OrderRow, filled: real)
    requires LedgerOk(db.books) && Release(db, id, row, filled).Ok?
    ensures LedgerOk(Release(db, id, row, filled).value)
  {
    hide LedgerOk, Append, Unfilled;
    var unlock := Unfilled(row, filled).value;
    if unlock.amount > 0.0 {
      AppendKeepsLedger(db.books, Posting(row.user, unlock.asset, unlock.amount, Unlock, Some(id)));
    }
  }

  lemma DoKeepsLedger(db: Db, c: Command)
    requires LedgerOk(db.books)
    ensures LedgerOk(Do(db, c).books)
  {
    hide LedgerOk, Append, Place, Release, Settle;
    match c
    case DepositFunds(user, asset, amount) =>
      var p := Posting(user, asset, amount, Deposit, None);
      if Append(db.books, p).Ok? { AppendKeepsLedger(db.books, p); }
    case WithdrawFunds(user, asset, amount) =>
      var p := Posting(user, asset, -amount, Withdrawal, None);
      if Append(db.books, p).Ok? { AppendKeepsLedger(db.books, p); }
    case PlaceNew(user, id, req) =>
      if Place(db, user, id, req).Ok? { PlaceKeepsLedger(db, user, id, req); }
    case CancelByUser(user, id) =>
      if Cancel(db, user, id).Ok? { ReleaseKeepsLedger(db, id, db.orders[id], db.orders[id].filled); }
    case CancelByEngine(id, filled) =>
      if CancelInternal(db, id, filled).Ok? { ReleaseKeepsLedger(db, id, db.orders[id], filled); }
    case SettleOne(symbol, fill) =>
      if Settle(db, symbol, fill).Ok? { SettlementKeepsLedger(db, symbol, fill); }
  }

  // Over every run the cached balances are the sums of the entries and the last recorded
  // balances, and never negative; every entry recorded its account's running balance.
  lemma {:induction false} EveryRunKeepsLedger(cs: seq<Command>)
    ensures LedgerOk(DoAll(cs).books)
  {
    if cs == [] {
      EmptyLedger();
    } else {
      hide LedgerOk, Do;
      EveryRunKeepsLedger(cs[..|cs| - 1]);
      DoKeepsLedger(DoAll(cs[..|cs| - 1]), cs[|cs| - 1]);
    }
  }

  lemma EmptyLedger()
    ensures LedgerOk(EMPTY.books)
  {
    ZeroFits(Eight);
  }

  lemma EveryRunReconciles(cs: seq<Command>, k: Account)
    ensures Reconciles(DoAll(cs).books, k)
  {
    EveryRunKeepsLedger(cs);
    assert AccountOk(DoAll(cs).books, k);
  }

  // ---------- trades net to zero ----------

  // Both orders of a new settlement are in the table.
  predicate BothKnown(db: Db, c: Command) {
    c.SettleOne? && c.fill.Key() !in db.trades ==> c.fill.buyOrderId in db.orders && c.fill.sellOrderId in db.orders
  }

  lemma PostsNoTrade(db: Db, c: Command, asset: string)
    requires LedgerOk(db.books) && !c.SettleOne?
    ensures Total(Do(db, c).books.ledger, TradesIn(asset)) == Total(db.books.ledger, TradesIn(asset))
  {
    hide LedgerOk, Append, Total, LockFor, Unfilled, NewRow, Column;
    match c
    case DepositFunds(user, asset', amount) =>
      var p := Posting(user, asset', amount, Deposit, None);
      if Append(db.books, p).Ok? { AppendTotals(db.books, p, TradesIn(asset)); }
    case WithdrawFunds(user, asset', amount) =>
      var p := Posting(user, asset', -amount, Withdrawal, None);
      if Append(db.books, p).Ok? { AppendTotals(db.books, p, TradesIn(asset)); }
    case PlaceNew(user, id, req) =>
      if Place(db, user, id, req).Ok? { AppendTotals(db.books, LockPosting(user, id, LockFor(req).value), TradesIn(asset)); }
    case CancelByUser(user, id) =>
      if Cancel(db, user, id).Ok? { ReleaseTotals(db, id, db.orders[id], db.orders[id].filled, TradesIn(asset)); }
    case CancelByEngine(id, filled) =>
      if CancelInternal(db, id, filled).Ok? { ReleaseTotals(db, id, db.orders[id], filled, TradesIn(asset)); }
  }

  // What a cancel adds to a sum.
  function Released(row: OrderRow, filled: real): real {
    match Unfilled(row, filled)
    case Err(_) => 0.0
    case Ok(unlock) => if unlock.amount > 0.0 then unlock.amount else 0.0
  }

  lemma ReleaseTotals(db: Db, id: Reference, row: OrderRow, filled: real, f: Filter)
    requires LedgerOk(db.books) && Release(db, id, row, filled).Ok?
    requires f.TradesIn? || f.LocksFor? || f.UnlocksFor?
    ensures Total(Release(db, id, row, filled).value.ledger, f)
      == Total(db.books.ledger, f) + if f == UnlocksFor(id) then Released(row, filled) else 0.0
  {
    hide LedgerOk, Append, Total, Unfilled;
    var unlock := Unfilled(row, filled).value;
    if unlock.amount > 0.0 {
      AppendTotals(db.books, Posting(row.user, unlock.asset, unlock.amount, Unlock, Some(id)), f);
    }
  }

  // If every settlement knew both of its orders, the trade entries of each asset add up to zero
  // over all users.
  lemma {:induction false} EveryRunNets(cs: seq<Command>, asset: string)
    requires forall i :: 0 <= i < |cs| ==> BothKnown(DoAll(cs[..i]), cs[i])
    ensures Total(DoAll(cs).books.ledger, TradesIn(asset)) == 0.0
  {
    if cs != [] {
      var n := |cs| - 1;
      var before := DoAll(cs[..n]);
      forall i | 0 <= i < n
        ensures BothKnown(DoAll(cs[..n][..i]), cs[..n][i])
      {
        assert cs[..n][..i] == cs[..i];
      }
      EveryRunNets(cs[..n], asset);
      EveryRunKeepsLedger(cs[..n]);
      assert BothKnown(before, cs[n]);
      hide LedgerOk, DoAll, Total, Settle;
      assert DoAll(cs) == Do(before, cs[n]) by {
        LastDone(cs);
      }
      if cs[n].SettleOne? {
        SettleNets(before, cs[n].symbol, cs[n].fill, asset);
      } else {
        PostsNoTrade(before, cs[n], asset);
      }
    }
  }

  lemma LastDone(cs: seq<Command>)
    requires cs != []
    ensures DoAll(cs) == Do(DoAll(cs[..|cs| - 1]), cs[|cs| - 1])
  {
  }

  lemma SettleNets(db: Db, symbol: string, fill: Fill, asset: string)
    requires LedgerOk(db.books) && BothKnown(db, SettleOne(symbol, fill))
    ensures Total(Do(db, SettleOne(symbol, fill)).books.ledger, TradesIn(asset)) == Total(db.books.ledger, TradesIn(asset))
  {
    hide LedgerOk, Total;
    if fill.Key() !in db.trades && Settle(db, symbol, fill).Ok? {
      SettlementNets(db, symbol, fill, asset);
    }
  }

  // ---------- append-only ----------

  lemma DoExtends(db: Db, c: Command)
    ensures db.books.ledger <= Do(db, c).books.ledger
  {
    hide Column, LockFor, Unfilled, ParseSymbol, TradeOf, WithFill, Fill.Key, ValidateAsset, ValidatePrecision;
    if c.SettleOne? && Settle(db, c.symbol, c.fill).Ok? && c.fill.Key() !in db.trades {
      var (base, quote) := ParseSymbol(c.symbol).value;
      AppendAllExtends(db.books, Postings(db.orders, base, quote, c.fill));
    }
  }

  // The ledger is append-only: whatever a run does later, its entries so far stay as they are,
  // in their places.
  lemma {:induction false} LedgerOnlyGrows(cs: seq<Command>, i: nat)
    requires i <= |cs|
    ensures DoAll(cs[..i]).books.ledger <= DoAll(cs).books.ledger
  {
    hide Do;
    if i < |cs| {
      var n := |cs| - 1;
      assert cs[..n][..i] == cs[..i];
      LedgerOnlyGrows(cs[..n], i);
      LastDone(cs);
      DoExtends(DoAll(cs[..n]), cs[n]);
    } else {
      assert cs[..i] == cs;
    }
  }

  // ---------- settling once ----------

  lemma TradeStays(db: Db, c: Command, key: string)
    requires key in db.trades
    ensures key in Do(db, c).trades && Do(db, c).trades[key] == db.trades[key]
  {
    hide Append, AppendAll, Release, LockFor, NewRow, ParseSymbol, TradeOf, WithFill, Fill.Key;
  }

  lemma {:induction false} TradeStaysThrough(cs: seq<Command>, i: nat, key: string)
    requires i <= |cs| && key in DoAll(cs[..i]).trades
    ensures key in DoAll(cs).trades && DoAll(cs).trades[key] == DoAll(cs[..i]).trades[key]
  {
    hide Do;
    if i < |cs| {
      var n := |cs| - 1;
      assert cs[..n][..i] == cs[..i];
      TradeStaysThrough(cs[..n], i, key);
      LastDone(cs);
      TradeStays(DoAll(cs[..n]), cs[n], key);
    } else {
      assert cs[..i] == cs;
    }
  }

  // Over every run: once a settlement has succeeded, every later one under the same key, with
  // whatever symbol, price or quantity and after whatever other commands, changes nothing at
  // all and gives the trade recorded first; that trade stays as it is to the end.
  lemma SettledOnceForAll(cs: seq<Command>, i: nat, j: nat)
    requires i < j < |cs| && cs[i].SettleOne? && cs[j].SettleOne? && cs[i].fill.Key() == cs[j].fill.Key()
    requires Settle(DoAll(cs[..i]), cs[i].symbol, cs[i].fill).Ok?
    ensures var first := Settle(DoAll(cs[..i]), cs[i].symbol, cs[i].fill).value.trade;
      var key, before := cs[i].fill.Key(), DoAll(cs[..j]);
      && Settle(before, cs[j].symbol, cs[j].fill) == Ok(Settled(before, first))
      && DoAll(cs[..j + 1]) == before
      && key in DoAll(cs).trades && DoAll(cs).trades[key] == first
  {
    hide Settle, Fill.Key, DoAll, Do;
    var key := cs[i].fill.Key();
    SettledIsRecorded(DoAll(cs[..i]), cs[i].symbol, cs[i].fill);
    DoneUpTo(cs, i);
    DoneUpTo(cs, j);
    assert cs[..j][..i + 1] == cs[..i + 1];
    TradeStaysThrough(cs[..j], i + 1, key);
    TradeStaysThrough(cs, i + 1, key);
    SettledAgain(DoAll(cs[..j]), cs[j].symbol, cs[j].fill);
  }

  lemma SettledIsRecorded(db: Db, symbol: string, fill: Fill)
    requires Settle(db, symbol, fill).Ok?
    ensures var settled := Settle(db, symbol, fill).value;
      && fill.Key() in settled.db.trades && settled.db.trades[fill.Key()] == settled.trade
      && Do(db, SettleOne(symbol, fill)) == settled.db
  {
    hide AppendAll, Postings, ParseSymbol, TradeOf, WithFill, Fill.Key;
  }

  lemma SettledAgain(db: Db, symbol: string, fill: Fill)
    requires fill.Key() in db.trades
    ensures Settle(db, symbol, fill) == Ok(Settled(db, db.trades[fill.Key()]))
    ensures Do(db, SettleOne(symbol, fill)) == db
  {
    hide AppendAll, Postings, ParseSymbol, TradeOf, WithFill, Fill.Key;
  }

  lemma DoneUpTo(cs: seq<Command>, i: nat)
    requires i < |cs|
    ensures DoAll(cs[..i + 1]) == Do(DoAll(cs[..i]), cs[i])
  {
    assert cs[..i + 1][..i] == cs[..i];
    LastDone(cs[..i + 1]);
  }
}
