// The market data worker: a sorted array of levels with a reverse index and a cached best
// price for each side, kept up to date from the gateway's notifications.
module SortedPrices {
  import opened Common
  import opened Orders
  import opened PriceRows
  import opened GatewayBook

  // Setting a level of the map that a sorted price map stands for.
  function SetLevel(m: Quantities, price: Price, quantity: Quantity): Quantities {
    if quantity <= 0 then m - {price} else m[price := quantity]
  }

  ghost predicate RowsPositive(rows: seq<Row>) {
    forall i :: 0 <= i < |rows| ==> rows[i].1 > 0
  }

  // The index sends each price to its position and nothing else anywhere.
  ghost predicate Inverse(index: map<Price, nat>, rows: seq<Row>) {
    && (forall i :: 0 <= i < |rows| ==> rows[i].0 in index && index[rows[i].0] == i)
    && (forall p :: p in index ==> index[p] < |rows| && rows[index[p]].0 == p)
  }

  // `k` is where a new price belongs.
  ghost predicate InsertAt(side: Side, rows: seq<Row>, price: Price, k: nat) {
    && k <= |rows|
    && (forall i :: 0 <= i < k ==> Better(side, rows[i].0, price))
    && (forall i :: k <= i < |rows| ==> !Better(side, rows[i].0, price))
  }

  lemma InsertSorted(side: Side, rows: seq<Row>, k: nat, row: Row)
    requires Sorted(side, rows) && InsertAt(side, rows, row.0, k)
    requires forall i :: 0 <= i < |rows| ==> rows[i].0 != row.0
    ensures Sorted(side, rows[..k] + [row] + rows[k..])
  {
    var rows' := rows[..k] + [row] + rows[k..];
    forall i, j | 0 <= i < j < |rows'|
      ensures Better(side, rows'[i].0, rows'[j].0)
    {
      var i', j' := if i < k then i else i - 1, if j < k then j else j - 1;
      if i != k && j != k {
        assert Better(side, rows[i'].0, rows[j'].0);
      }
    }
  }

  lemma InsertHolds(m: Quantities, rows: seq<Row>, k: nat, price: Price, quantity: Quantity)
    requires Holds(m, rows) && k <= |rows| && price !in m
    ensures Holds(m[price := quantity], rows[..k] + [(price, quantity)] + rows[k..])
    ensures forall i :: 0 <= i < |rows| ==> rows[i].0 != price
  {
    var m', rows' := m[price := quantity], rows[..k] + [(price, quantity)] + rows[k..];
    forall p | p in m'
      ensures exists i :: 0 <= i < |rows'| && rows'[i].0 == p
    {
      if p == price {
        assert rows'[k].0 == p;
      } else {
        var i :| 0 <= i < |rows| && rows[i].0 == p;
        assert rows'[if i < k then i else i + 1].0 == p;
      }
    }
    forall i | 0 <= i < |rows'|
      ensures rows'[i].0 in m' && m'[rows'[i].0] == rows'[i].1
    {
      if i != k {
        assert rows'[i] == rows[if i < k then i else i - 1];
      }
    }
  }

  lemma RemoveSorted(side: Side, rows: seq<Row>, k: nat)
    requires Sorted(side, rows) && k < |rows|
    ensures Sorted(side, rows[..k] + rows[k + 1..])
  {
    var rows' := rows[..k] + rows[k + 1..];
    forall i, j | 0 <= i < j < |rows'|
      ensures Better(side, rows'[i].0, rows'[j].0)
    {
      var i', j' := if i < k then i else i + 1, if j < k then j else j + 1;
      assert Better(side, rows[i'].0, rows[j'].0);
    }
  }

  lemma PricesDiffer(side: Side, rows: seq<Row>, i: nat, j: nat)
    requires Sorted(side, rows) && i < |rows| && j < |rows| && i != j
    ensures rows[i].0 != rows[j].0
  {
    if i < j {
      assert Better(side, rows[i].0, rows[j].0);
    } else {
      assert Better(side, rows[j].0, rows[i].0);
    }
  }

  lemma RemoveHolds(side: Side, m: Quantities, rows: seq<Row>, k: nat)
    requires Sorted(side, rows) && Holds(m, rows) && k < |rows|
    ensures Holds(m - {rows[k].0}, rows[..k] + rows[k + 1..])
  {
    hide Sorted;
    var m', rows' := m - {rows[k].0}, rows[..k] + rows[k + 1..];
    forall p | p in m'
      ensures exists i :: 0 <= i < |rows'| && rows'[i].0 == p
    {
      var i :| 0 <= i < |rows| && rows[i].0 == p;
      assert rows'[if i < k then i else i - 1].0 == p;
    }
    forall i | 0 <= i < |rows'|
      ensures rows'[i].0 in m' && m'[rows'[i].0] == rows'[i].1
    {
      var j := if i < k then i else i + 1;
      assert rows'[i] == rows[j];
      PricesDiffer(side, rows, j, k);
    }
  }

  lemma UpdateHolds(side: Side, m: Quantities, rows: seq<Row>, k: nat, quantity: Quantity)
    requires Sorted(side, rows) && Holds(m, rows) && k < |rows|
    ensures var rows' := rows[k := (rows[k].0, quantity)];
      Sorted(side, rows') && Holds(m[rows[k].0 := quantity], rows')
  {
    var m', rows' := m[rows[k].0 := quantity], rows[k := (rows[k].0, quantity)];
    forall p | p in m'
      ensures exists i :: 0 <= i < |rows'| && rows'[i].0 == p
    {
      if p == rows[k].0 {
        assert rows'[k].0 == p;
      } else {
        var i :| 0 <= i < |rows| && rows[i].0 == p;
        assert rows'[i].0 == p;
      }
    }
    forall i | 0 <= i < |rows'|
      ensures rows'[i].0 in m' && m'[rows'[i].0] == rows'[i].1
    {
      if i != k {
        assert Better(side, rows[i].0, rows[k].0) || Better(side, rows[k].0, rows[i].0);
      }
    }
  }

  // The index is right before position `start` and knows no foreign price.
  ghost predicate IndexedBefore(index: map<Price, nat>, rows: seq<Row>, start: nat) {
    && start <= |rows|
    && (forall i :: 0 <= i < start ==> rows[i].0 in index && index[rows[i].0] == i)
    && (forall p :: p in index ==> exists i :: 0 <= i < |rows| && rows[i].0 == p)
  }

  lemma InsertIndexed(index: map<Price, nat>, rows: seq<Row>, k: nat, row: Row)
    requires Inverse(index, rows) && k <= |rows|
    ensures IndexedBefore(index, rows[..k] + [row] + rows[k..], k)
  {
    var rows' := rows[..k] + [row] + rows[k..];
    forall p | p in index
      ensures exists i :: 0 <= i < |rows'| && rows'[i].0 == p
    {
      assert rows'[if index[p] < k then index[p] else index[p] + 1].0 == p;
    }
  }

  lemma RemoveIndexed(index: map<Price, nat>, rows: seq<Row>, k: nat)
    requires Inverse(index, rows) && k < |rows|
    ensures IndexedBefore(index - {rows[k].0}, rows[..k] + rows[k + 1..], k)
  {
    var index', rows' := index - {rows[k].0}, rows[..k] + rows[k + 1..];
    forall p | p in index'
      ensures exists i :: 0 <= i < |rows'| && rows'[i].0 == p
    {
      assert rows'[if index[p] < k then index[p] else index[p] - 1].0 == p;
    }
  }

  // A new price spliced in where it belongs keeps everything but the index of what follows.
  lemma InsertStands(side: Side, index: map<Price, nat>, rows: seq<Row>, k: nat, row: Row)
    requires Sorted(side, rows) && RowsPositive(rows) && Inverse(index, rows)
    requires InsertAt(side, rows, row.0, k) && row.0 !in index && row.1 > 0
    ensures var rows' := rows[..k] + [row] + rows[k..];
      && Sorted(side, rows') && RowsPositive(rows') && IndexedBefore(index, rows', k)
      && MapOf(rows') == MapOf(rows)[row.0 := row.1]
  {
    var m, rows' := MapOf(rows), rows[..k] + [row] + rows[k..];
    hide MapOf, IndexedBefore, Sorted, Holds;
    MapOfHolds(side, rows);
    InsertIndexed(index, rows, k, row);
    assert row.0 !in m by {
      HoldsKnows(m, index, rows);
    }
    InsertHolds(m, rows, k, row.0, row.1);
    InsertSorted(side, rows, k, row);
    MapOfHolds(side, rows');
    HoldsOnce(MapOf(rows'), m[row.0 := row.1], rows');
  }

  lemma HoldsKnows(m: Quantities, index: map<Price, nat>, rows: seq<Row>)
    requires Holds(m, rows) && Inverse(index, rows)
    ensures forall p :: p in m <==> p in index
  {
  }

  class SortedPriceMap {
    const isBidSide: bool
    var levels: seq<Row>
    var priceToIndex: map<Price, nat>
    var bestPrice: Option<Price>

    ghost function Order(): Side {
      if isBidSide then Bid else Ask
    }

    // The finite map the three structures stand for.
    ghost function Contents(): Quantities
      reads this
    {
      MapOf(levels)
    }

    ghost predicate Valid()
      reads this
    {
      && Sorted(Order(), levels) && RowsPositive(levels)
      && Inverse(priceToIndex, levels)
      && bestPrice == if levels == [] then None else Some(levels[0].0)
    }

    constructor (isBidSide: bool)
      ensures Valid() && Contents() == map[] && this.isBidSide == isBidSide
    {
      this.isBidSide := isBidSide;
      levels, priceToIndex, bestPrice := [], map[], None;
    }

    method FindInsertIndex(price: Price) returns (low: nat)
      requires Sorted(Order(), levels)
      ensures InsertAt(Order(), levels, price, low)
    {
      low := 0;
      var high := |levels|;
      while low < high
        invariant 0 <= low <= high <= |levels|
        invariant forall i :: 0 <= i < low ==> Better(Order(), levels[i].0, price)
        invariant forall i :: high <= i < |levels| ==> !Better(Order(), levels[i].0, price)
      {
        var mid := (low + high) / 2;
        var cmp := if isBidSide then levels[mid].0 > price else levels[mid].0 < price;
        if cmp {
          low := mid + 1;
        } else {
          high := mid;
        }
      }
    }

    // Renumber the levels from `start` on.
    method Reindex(start: nat)
      requires Sorted(Order(), levels) && IndexedBefore(priceToIndex, levels, start)
      modifies `priceToIndex
      ensures Inverse(priceToIndex, levels)
    {
      var i := start;
      while i < |levels|
        invariant start <= i <= |levels| && IndexedBefore(priceToIndex, levels, i)
      {
        forall j | 0 <= j < i
          ensures levels[j].0 != levels[i].0
        {
          assert Better(Order(), levels[j].0, levels[i].0);
        }
        priceToIndex := priceToIndex[levels[i].0 := i];
        i := i + 1;
      }
    }

    // An existing level with a new quantity.
    method Overwrite(k: nat, quantity: Quantity)
      requires Valid() && k < |levels| && quantity > 0
      modifies this
      ensures Valid() && Contents() == old(Contents())[old(levels)[k].0 := quantity]
    {
      ghost var m := Contents();
      MapOfHolds(Order(), levels);
      UpdateHolds(Order(), m, levels, k, quantity);
      levels := levels[k := (levels[k].0, quantity)];
      MapOfHolds(Order(), levels);
      HoldsOnce(Contents(), m[old(levels)[k].0 := quantity], levels);
    }

    method Insert(price: Price, quantity: Quantity)
      requires Valid() && quantity > 0 && price !in priceToIndex
      modifies this
      ensures Valid() && Contents() == old(Contents())[price := quantity]
    {
      hide MapOf, IndexedBefore, Sorted, RowsPositive, Inverse, InsertAt;
      var insertIdx := FindInsertIndex(price);
      InsertStands(Order(), priceToIndex, levels, insertIdx, (price, quantity));
      levels := levels[..insertIdx] + [(price, quantity)] + levels[insertIdx..];
      Reindex(insertIdx);
      bestPrice := Some(levels[0].0);
    }

    method Delete(k: nat)
      requires Valid() && k < |levels|
      modifies this
      ensures Valid() && Contents() == old(Contents()) - {old(levels)[k].0}
    {
      ghost var m := Contents();
      hide MapOf, IndexedBefore, Inverse, Holds, Sorted;
      MapOfHolds(Order(), levels);
      RemoveHolds(Order(), m, levels, k);
      RemoveSorted(Order(), levels, k);
      RemoveIndexed(priceToIndex, levels, k);
      var price := levels[k].0;
      levels := levels[..k] + levels[k + 1..];
      priceToIndex := priceToIndex - {price};
      Reindex(k);
      bestPrice := if |levels| > 0 then Some(levels[0].0) else None;
      MapOfHolds(Order(), levels);
      HoldsOnce(Contents(), m - {price}, levels);
    }

    method Set(price: Price, quantity: Quantity)
      requires Valid()
      modifies this
      ensures Valid() && Contents() == SetLevel(old(Contents()), price, quantity)
    {
      hide MapOf;
      MapOfHolds(Order(), levels);
      if quantity <= 0 {
        if price in priceToIndex {
          Delete(priceToIndex[price]);
        } else {
          assert Contents() - {price} == Contents();
        }
        return;
      }
      if price in priceToIndex {
        Overwrite(priceToIndex[price], quantity);
      } else {
        Insert(price, quantity);
      }
    }

    method Clear()
      modifies this
      ensures Valid() && Contents() == map[]
    {
      levels, priceToIndex, bestPrice := [], map[], None;
    }
  }

  // The worker's map after a list of changes.
  function WithChanges(m: Quantities, changes: seq<LevelChange>): Quantities {
    if changes == [] then m
    else
      var last := changes[|changes| - 1];
      SetLevel(WithChanges(m, changes[..|changes| - 1]), last.price, last.newQuantity)
  }

  // One side of the worker after a notification.
  function Notified(m: Quantities, n: Notification, side: Side): Quantities {
    WithChanges(if n.isSnapshot then map[] else m, n.On(side))
  }

  // The loop over the changes of one side.
  method ApplyChanges(book: SortedPriceMap, changes: seq<LevelChange>)
    requires book.Valid()
    modifies book
    ensures book.Valid() && book.Contents() == WithChanges(old(book.Contents()), changes)
  {
    ghost var m := book.Contents();
    for i := 0 to |changes|
      invariant book.Valid() && book.Contents() == WithChanges(m, changes[..i])
    {
      var change := changes[i];
      assert changes[..i + 1][..i] == changes[..i];
      book.Set(change.price, change.newQuantity);
    }
    assert changes[..|changes|] == changes;
  }

  method ProcessChannelNotification(bids: SortedPriceMap, asks: SortedPriceMap, n: Notification)
    requires bids != asks && bids.Valid() && asks.Valid()
    modifies bids, asks
    ensures bids.Valid() && bids.Contents() == Notified(old(bids.Contents()), n, Bid)
    ensures asks.Valid() && asks.Contents() == Notified(old(asks.Contents()), n, Ask)
  {
    if n.isSnapshot {
      bids.Clear();
      asks.Clear();
    }
    ApplyChanges(bids, n.bidChanges);
    ApplyChanges(asks, n.askChanges);
  }

  // ---------- what is displayed ----------

  function TotalQuantity(rows: seq<Row>): Quantity {
    if rows == [] then 0 else TotalQuantity(rows[..|rows| - 1]) + rows[|rows| - 1].1
  }

  lemma NoQuantity(rows: seq<Row>)
    ensures TotalQuantity(rows[..0]) == 0
  {
  }

  lemma QuantityUpTo(rows: seq<Row>, i: nat)
    requires i < |rows|
    ensures TotalQuantity(rows[..i + 1]) == TotalQuantity(rows[..i]) + rows[i].1
  {
    assert rows[..i + 1][..i] == rows[..i];
  }

  datatype DisplayLevel = DisplayLevel(price: Price, quantity: Quantity, total: Quantity)

  // Each displayed level carries the quantity up to and including it.
  method BuildOrderBookLevels(book: SortedPriceMap) returns (result: seq<DisplayLevel>)
    requires book.Valid()
    ensures |result| == |book.levels|
    ensures forall i :: 0 <= i < |result| ==>
      result[i] == DisplayLevel(book.levels[i].0, book.levels[i].1, TotalQuantity(book.levels[..i + 1]))
  {
    hide SortedPriceMap.Valid, TotalQuantity;
    var rows := book.levels;
    result := [];
    var total := 0;
    NoQuantity(rows);
    for i := 0 to |rows|
      invariant |result| == i && total == TotalQuantity(rows[..i])
      invariant forall j :: 0 <= j < i ==> result[j] == DisplayLevel(rows[j].0, rows[j].1, TotalQuantity(rows[..j + 1]))
    {
      QuantityUpTo(rows, i);
      total := total + rows[i].1;
      result := result + [DisplayLevel(rows[i].0, rows[i].1, total)];
    }
  }

  // ---------- price history ----------

  datatype PricePoint = PricePoint(price: Price, time: int)

  ghost predicate InTimeOrder(points: seq<PricePoint>) {
    forall i, j :: 0 <= i < j < |points| ==> points[i].time <= points[j].time
  }

  // The point lands at `k`: after every earlier point and before every later one.
  ghost predicate InsertedAt(before: seq<PricePoint>, point: PricePoint, after: seq<PricePoint>, k: nat) {
    k <= |before| && after == before[..k] + [point] + before[k..]
  }

  lemma InsertedInTimeOrder(points: seq<PricePoint>, point: PricePoint, r: seq<PricePoint>, k: nat)
    requires InTimeOrder(points) && InsertedAt(points, point, r, k)
    requires forall i :: 0 <= i < k ==> points[i].time <= point.time
    requires forall i :: k <= i < |points| ==> point.time <= points[i].time
    ensures InTimeOrder(r)
  {
    forall i, j | 0 <= i < j < |r|
      ensures r[i].time <= r[j].time
    {
      var i', j' := if i < k then i else i - 1, if j < k then j else j - 1;
      if i != k && j != k {
        assert points[i'].time <= points[j'].time;
      }
    }
  }

  // The history stays in time order and gains exactly the new point.
  method BinaryInsertPricePoint(points: seq<PricePoint>, point: PricePoint) returns (r: seq<PricePoint>)
    requires InTimeOrder(points)
    ensures InTimeOrder(r)
    ensures exists k :: InsertedAt(points, point, r, k)
  {
    var time := point.time;
    var len := |points|;
    if len == 0 || time >= points[len - 1].time {
      r := points + [point];
      assert InsertedAt(points, point, r, len);
      InsertedInTimeOrder(points, point, r, len);
      return;
    }
    if time <= points[0].time {
      r := [point] + points;
      assert InsertedAt(points, point, r, 0);
      InsertedInTimeOrder(points, point, r, 0);
      return;
    }
    var low, high := 0, len;
    while low < high
      invariant 0 <= low <= high <= len
      invariant forall i :: 0 <= i < low ==> points[i].time < time
      invariant forall i :: high <= i < len ==> points[i].time >= time
    {
      var mid := (low + high) / 2;
      if points[mid].time < time {
        low := mid + 1;
      } else {
        high := mid;
      }
    }
    r := points[..low] + [point] + points[low..];
    assert InsertedAt(points, point, r, low);
    InsertedInTimeOrder(points, point, r, low);
  }
}
