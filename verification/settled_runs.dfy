// The fills of an engine run, settled one after the other in the accounts.
module SettledRuns {
  import opened Decimals
  import opened Ledger
  import opened AccountTables
  import opened FillKeys
  import opened Settlement
  import opened AccountRuns
  import Orders
  import EngineRuns

  // A fill as it is sent to the accounts: exact amounts of at most eight places, and the time.
  function Reported(f: Orders.Fill, timestamp: int): Fill {
    Fill(f.buyId, f.sellId, Eight.Amount(f.price), Eight.Amount(f.quantity), timestamp)
  }

  // The first n fills, settled in order; a refused settlement is skipped.
  function SettleFirst(db: Db, symbol: string, fills: seq<Orders.Fill>, stamps: seq<int>, n: nat): Db
    requires n <= |fills| == |stamps|
  {
    if n == 0 then db
    else Do(SettleFirst(db, symbol, fills, stamps, n - 1), SettleOne(symbol, Reported(fills[n - 1], stamps[n - 1])))
  }

  lemma SettleAddsOneKey(db: Db, symbol: string, fill: Fill)
    ensures var after := Do(db, SettleOne(symbol, fill));
      after.trades.Keys == if Settle(db, symbol, fill).Ok? then db.trades.Keys + {fill.Key()} else db.trades.Keys
  {
    hide AppendAll, Postings, ParseSymbol, TradeOf, WithFill;
  }

  // The idempotency check never mistakes one fill of a run for another: however the fills are
  // stamped and whichever settlements are refused, when a fill comes up its key is new unless
  // it was there before the run, and settling it successfully adds a trade.
  lemma {:induction false} NoFillIsConflated(cs: seq<EngineRuns.Command>, db: Db, symbol: string, stamps: seq<int>, n: nat)
    requires EngineRuns.FreshCommands(cs) && EngineRuns.UuidCommands(cs)
    requires |stamps| == |EngineRuns.Run(cs).fills| && n < |stamps|
    ensures var fills := EngineRuns.Run(cs).fills; var fill := Reported(fills[n], stamps[n]);
      var before := SettleFirst(db, symbol, fills, stamps, n);
      && (fill.Key() in before.trades <==> fill.Key() in db.trades)
      && (fill.Key() !in db.trades && Settle(before, symbol, fill).Ok? ==>
          |Do(before, SettleOne(symbol, fill)).trades| == |before.trades| + 1)
  {
    var fills := EngineRuns.Run(cs).fills;
    EngineRuns.EveryRunIsOk(cs);
    hide EngineRuns.FreshCommands, EngineRuns.UuidCommands, EngineRuns.Run, IsUuid, Do, Settle, KeyText;
    forall i | 0 <= i < |fills|
      ensures IsUuid(fills[i].buyId) && IsUuid(fills[i].sellId)
    {
      EngineRuns.FilledIdsAreUuids(cs, i);
    }
    var fill := Reported(fills[n], stamps[n]);
    KeyStaysNew(db, symbol, fills, stamps, n, n);
    var before := SettleFirst(db, symbol, fills, stamps, n);
    hide *;
    if fill.Key() !in db.trades && Settle(before, symbol, fill).Ok? {
      SettleAddsOneTrade(before, symbol, fill);
    }
  }

  lemma SettleAddsOneTrade(db: Db, symbol: string, fill: Fill)
    requires fill.Key() !in db.trades && Settle(db, symbol, fill).Ok?
    ensures |Do(db, SettleOne(symbol, fill)).trades| == |db.trades| + 1
  {
    SettleAddsOneKey(db, symbol, fill);
    hide *;
    assert |db.trades.Keys + {fill.Key()}| == |db.trades.Keys| + 1;
    KeyCount(db.trades);
    KeyCount(Do(db, SettleOne(symbol, fill)).trades);
  }

  lemma KeyCount(trades: map<string, TradeRow>)
    ensures |trades| == |trades.Keys|
  {
  }

  // Settling the fills before fill n does not add its key.
  lemma {:induction false} KeyStaysNew(db: Db, symbol: string, fills: seq<Orders.Fill>, stamps: seq<int>, n: nat, k: nat)
    requires EngineRuns.DistinctPairs(fills) && k <= n < |fills| == |stamps|
    requires forall i :: 0 <= i < |fills| ==> IsUuid(fills[i].buyId) && IsUuid(fills[i].sellId)
    ensures var key := Reported(fills[n], stamps[n]).Key();
      key in SettleFirst(db, symbol, fills, stamps, k).trades <==> key in db.trades
  {
    hide Do, KeyText, IsUuid;
    if k > 0 {
      KeyStaysNew(db, symbol, fills, stamps, n, k - 1);
      SettleAddsOneKey(SettleFirst(db, symbol, fills, stamps, k - 1), symbol, Reported(fills[k - 1], stamps[k - 1]));
      var f, g := fills[k - 1], fills[n];
      assert f.buyId != g.buyId || f.sellId != g.sellId;
      KeyTextDetermines(f.buyId, f.sellId, stamps[k - 1], g.buyId, g.sellId, stamps[n]);
    }
  }
}
