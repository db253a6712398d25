// The gateway's copy of a book: it applies snapshots and deltas and tells its clients what
// changed.
module GatewayBook {
  import opened Common
  import opened Orders
  import opened PriceRows
  import opened Publisher

  datatype LevelChange = LevelChange(price: Price, oldQuantity: Quantity, newQuantity: Quantity)

  datatype Notification = Notification(bidChanges: seq<LevelChange>, askChanges: seq<LevelChange>, isSnapshot: bool) {
    function On(side: Side): seq<LevelChange> {
      if side.Bid? then bidChanges else askChanges
    }
  }

  // The rows a snapshot keeps.
  function NonZero(rows: seq<Row>): seq<Row> {
    if rows == [] then []
    else
      var earlier, last := NonZero(rows[..|rows| - 1]), rows[|rows| - 1];
      if last.1 == 0 then earlier else earlier + [last]
  }

  // A whole side, announced as changes from nothing.
  function Announce(m: Quantities, ks: seq<Price>): (r: seq<LevelChange>)
    requires forall i :: 0 <= i < |ks| ==> ks[i] in m
    ensures |r| == |ks|
    ensures forall i :: 0 <= i < |ks| ==> r[i] == LevelChange(ks[i], 0, m[ks[i]])
  {
    if ks == [] then [] else Announce(m, ks[..|ks| - 1]) + [LevelChange(ks[|ks| - 1], 0, m[ks[|ks| - 1]])]
  }

  function WholeBook(m: Maps): Notification {
    Notification(Announce(m.bids, Ascending(m.bids)), Announce(m.asks, Ascending(m.asks)), true)
  }

  function ChangeBy(m: Quantities, d: LevelDelta): LevelChange {
    LevelChange(d.price, if d.price in m then m[d.price] else 0, if d.action.Remove? then 0 else d.quantity)
  }

  // The changes that deltas make to one side, in order.
  function ChangesBy(m: Maps, side: Side, ds: seq<LevelDelta>): seq<LevelChange> {
    if ds == [] then []
    else
      var d, before := ds[|ds| - 1], ds[..|ds| - 1];
      ChangesBy(m, side, before) + if d.side == side then [ChangeBy(Patch(m, before).On(side), d)] else []
  }

  datatype Applied = Applied(maps: Maps, notification: Option<Notification>)

  // What an event does to the gateway's book.
  function Apply(m: Maps, event: BookEvent): Applied {
    match event
    case BookSnapshot(_, bids, asks) =>
      var maps := Maps(MapOf(NonZero(bids)), MapOf(NonZero(asks)));
      Applied(maps, if maps == m then None else Some(WholeBook(maps)))
    case BookDelta(_, deltas) =>
      Applied(Patch(m, deltas),
              if deltas == [] then None
              else Some(Notification(ChangesBy(m, Bid, deltas), ChangesBy(m, Ask, deltas), false)))
  }

  class OrderBookState {
    var bids: Quantities
    var asks: Quantities
    var lastSequence: nat

    function Book(): Maps
      reads this
    {
      Maps(bids, asks)
    }

    constructor ()
      ensures Book() == Maps(map[], map[]) && lastSequence == 0
    {
      bids, asks, lastSequence := map[], map[], 0;
    }

    // The loop over the rows of one side of a snapshot.
    method Collect(rows: seq<Row>) returns (m: Quantities)
      ensures m == MapOf(NonZero(rows))
    {
      m := map[];
      for i := 0 to |rows|
        invariant m == MapOf(NonZero(rows[..i]))
      {
        var (price, quantity) := rows[i];
        assert rows[..i + 1][..i] == rows[..i];
        if quantity != 0 {
          m := m[price := quantity];
        }
      }
      assert rows[..|rows|] == rows;
    }

    method ApplyOrderbookUpdate(event: BookEvent) returns (notification: Option<Notification>)
      modifies this
      ensures Apply(old(Book()), event) == Applied(Book(), notification)
      ensures lastSequence == event.sequence
    {
      match event
      case BookSnapshot(sequence, bidRows, askRows) =>
        var newBids := Collect(bidRows);
        var newAsks := Collect(askRows);
        var changed := newBids != bids || newAsks != asks;
        bids := newBids;
        asks := newAsks;
        lastSequence := sequence;
        if !changed {
          return None;
        }
        notification := Some(WholeBook(Book()));
      case BookDelta(sequence, deltas) =>
        var bidChanges, askChanges := ApplyDeltas(deltas);
        lastSequence := sequence;
        SomeChange(old(Book()), deltas);
        if bidChanges == [] && askChanges == [] {
          return None;
        }
        notification := Some(Notification(bidChanges, askChanges, false));
    }

    method ApplyDeltas(deltas: seq<LevelDelta>) returns (bidChanges: seq<LevelChange>, askChanges: seq<LevelChange>)
      modifies this
      ensures Book() == Patch(old(Book()), deltas)
      ensures bidChanges == ChangesBy(old(Book()), Bid, deltas) && askChanges == ChangesBy(old(Book()), Ask, deltas)
    {
      bidChanges, askChanges := [], [];
      ghost var before := Book();
      for i := 0 to |deltas|
        invariant Book() == Patch(before, deltas[..i])
        invariant bidChanges == ChangesBy(before, Bid, deltas[..i])
        invariant askChanges == ChangesBy(before, Ask, deltas[..i])
      {
        var delta := deltas[i];
        assert deltas[..i + 1][..i] == deltas[..i];
        var book := if delta.side.Bid? then bids else asks;
        var oldQty := if delta.price in book then book[delta.price] else 0;
        var change: LevelChange;
        match delta.action {
          case Add | Update =>
            book := book[delta.price := delta.quantity];
            change := LevelChange(delta.price, oldQty, delta.quantity);
          case Remove =>
            book := book - {delta.price};
            change := LevelChange(delta.price, oldQty, 0);
        }
        if delta.side.Bid? {
          bids, bidChanges := book, bidChanges + [change];
        } else {
          asks, askChanges := book, askChanges + [change];
        }
      }
      assert deltas[..|deltas|] == deltas;
    }

    method GetOrderbookSnapshot() returns (notification: Notification)
      ensures notification == WholeBook(Book())
    {
      notification := WholeBook(Book());
    }
  }

  lemma {:induction false} SomeChange(m: Maps, ds: seq<LevelDelta>)
    ensures ChangesBy(m, Bid, ds) == [] && ChangesBy(m, Ask, ds) == [] <==> ds == []
  {
    if ds != [] {
      assert ds[|ds| - 1].side == Bid || ds[|ds| - 1].side == Ask;
    }
  }

  // ---------- what is announced ----------

  // Each level has at most one delta.
  ghost predicate OnePerLevel(ds: seq<LevelDelta>) {
    forall i, j :: 0 <= i < j < |ds| && ds[i].side == ds[j].side ==> ds[i].price != ds[j].price
  }

  // A level without a delta stays.
  lemma {:induction false} PatchElsewhere(m: Maps, ds: seq<LevelDelta>, side: Side, p: Price)
    requires forall i :: 0 <= i < |ds| && ds[i].side == side ==> ds[i].price != p
    ensures var before, after := m.On(side), Patch(m, ds).On(side);
      (p in after <==> p in before) && (p in before ==> after[p] == before[p])
  {
    if ds != [] {
      PatchElsewhere(m, ds[..|ds| - 1], side, p);
    }
  }

  // With one delta for each level, each change starts from what the level had before them all.
  lemma {:induction false} ChangesOfDeltas(m: Maps, side: Side, ds: seq<LevelDelta>)
    requires OnePerLevel(ds)
    ensures forall c :: c in ChangesBy(m, side, ds) <==> exists d: LevelDelta :: d in ds && d.side == side && c == ChangeBy(m.On(side), d)
  {
    hide Patch;
    if ds != [] {
      var n := |ds| - 1;
      var d, earlier := ds[n], ds[..n];
      ChangesOfDeltas(m, side, earlier);
      assert ds == earlier + [d];
      if d.side == side {
        PatchElsewhere(m, earlier, side, d.price);
        assert ChangeBy(Patch(m, earlier).On(side), d) == ChangeBy(m.On(side), d);
        hide ChangeBy;
        forall c
          ensures c in ChangesBy(m, side, ds) <==> exists e: LevelDelta :: e in ds && e.side == side && c == ChangeBy(m.On(side), e)
        {
          if c == ChangeBy(m.On(side), d) {
            assert d in ds;
          }
        }
      }
    }
  }

  function QuantityIn(m: Quantities, p: Price): Quantity {
    if p in m then m[p] else 0
  }

  lemma DiffsAreOnePerLevel(s: Published, bids: seq<Row>, asks: seq<Row>)
    ensures OnePerLevel(AllDeltas(s, bids, asks))
    ensures forall side: Side, d: LevelDelta :: d.side == side ==>
      (d in AllDeltas(s, bids, asks) <==> Tells(side, s.prev.On(side), Maps(MapOf(bids), MapOf(asks)).On(side), d))
  {
    hide MapOf, Changes, Removals, Diff;
    DiffTells(Bid, s.prev.bids, MapOf(bids));
    DiffTells(Ask, s.prev.asks, MapOf(asks));
    var n := DiffInOrder(Bid, s.prev.bids, MapOf(bids));
    var k := DiffInOrder(Ask, s.prev.asks, MapOf(asks));
    var b, a := Diff(Bid, s.prev.bids, MapOf(bids)), Diff(Ask, s.prev.asks, MapOf(asks));
    forall i | 0 <= i < |b|
      ensures b[i].side == Bid
    {
      assert b[i] in b;
    }
    forall i | 0 <= i < |a|
      ensures a[i].side == Ask
    {
      assert a[i] in a;
    }
  }

  // A gateway that holds what was last published announces, of the next deltas, exactly the prices
  // whose quantity changed, each with its quantity before and after (none counts as zero).
  lemma AnnouncedChanges(s: Published, bids: seq<Row>, asks: seq<Row>, side: Side, c: LevelChange)
    requires var next := Maps(MapOf(bids), MapOf(asks)); Positive(s.prev.On(side)) && Positive(next.On(side))
    ensures var next := Maps(MapOf(bids), MapOf(asks));
      c in ChangesBy(s.prev, side, AllDeltas(s, bids, asks)) <==>
        && c.oldQuantity == QuantityIn(s.prev.On(side), c.price)
        && c.newQuantity == QuantityIn(next.On(side), c.price)
        && c.oldQuantity != c.newQuantity
  {
    hide MapOf, ChangesBy, AllDeltas;
    var ds, before, after := AllDeltas(s, bids, asks), s.prev.On(side), Maps(MapOf(bids), MapOf(asks)).On(side);
    DiffsAreOnePerLevel(s, bids, asks);
    ChangesOfDeltas(s.prev, side, ds);
    if c in ChangesBy(s.prev, side, ds) {
      var d :| d in ds && d.side == side && c == ChangeBy(before, d);
      assert Tells(side, before, after, d);
    }
    if c.oldQuantity == QuantityIn(before, c.price) && c.newQuantity == QuantityIn(after, c.price) && c.oldQuantity != c.newQuantity {
      var action := if c.price !in before then Add else if c.price in after then Update else Remove;
      var d := LevelDelta(action, side, c.price, c.newQuantity);
      assert Tells(side, before, after, d) && c == ChangeBy(before, d);
    }
  }

  // A snapshot keeps every row but those of no quantity.
  lemma {:induction false} NonZeroKeeps(rows: seq<Row>)
    ensures forall row :: row in NonZero(rows) <==> row in rows && row.1 != 0
  {
    if rows != [] {
      NonZeroKeeps(rows[..|rows| - 1]);
      assert rows == rows[..|rows| - 1] + [rows[|rows| - 1]];
    }
  }

  lemma {:induction false} NonZeroOfPositive(rows: seq<Row>)
    requires forall i :: 0 <= i < |rows| ==> rows[i].1 > 0
    ensures NonZero(rows) == rows
  {
    if rows != [] {
      NonZeroOfPositive(rows[..|rows| - 1]);
    }
  }
}
