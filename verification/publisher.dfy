// OrderBookPublisher: publishes the best ten levels of each side, as a full snapshot on every
// tenth publish and as changes against the last publish otherwise.
module Publisher {
  import opened Common
  import opened Orders
  import opened PriceLevels
  import opened MatchingEngine
  import opened PriceRows

  const MAX_LEVELS := 10
  const SNAPSHOT_INTERVAL := 10

  datatype DeltaAction = Add | Update | Remove

  datatype LevelDelta = LevelDelta(action: DeltaAction, side: Side, price: Price, quantity: Quantity)

  datatype BookEvent =
    | BookSnapshot(sequence: nat, bids: seq<Row>, asks: seq<Row>)
    | BookDelta(sequence: nat, deltas: seq<LevelDelta>)

  // ---------- differences ----------

  // The change, if any, at a price of the new book.
  function ChangeAt(side: Side, prev: Quantities, next: Quantities, p: Price): seq<LevelDelta>
    requires p in next
  {
    if p !in prev then [LevelDelta(Add, side, p, next[p])]
    else if prev[p] != next[p] then [LevelDelta(Update, side, p, next[p])]
    else []
  }

  function Changes(side: Side, prev: Quantities, next: Quantities, ks: seq<Price>): seq<LevelDelta>
    requires forall i :: 0 <= i < |ks| ==> ks[i] in next
  {
    if ks == [] then []
    else Changes(side, prev, next, ks[..|ks| - 1]) + ChangeAt(side, prev, next, ks[|ks| - 1])
  }

  function Removals(side: Side, next: Quantities, ks: seq<Price>): seq<LevelDelta> {
    if ks == [] then []
    else
      var earlier, p := Removals(side, next, ks[..|ks| - 1]), ks[|ks| - 1];
      if p in next then earlier else earlier + [LevelDelta(Remove, side, p, 0)]
  }

  // The keys of a map in ascending order.
  function Ascending(m: Quantities): (ks: seq<Price>)
    ensures forall p :: p in ks <==> p in m
    ensures forall i :: 0 <= i < |ks| ==> ks[i] in m
  {
    BestFirstIsKeyList(Ask, m.Keys);
    var ks := BestFirst(Ask, m.Keys);
    assert forall i :: 0 <= i < |ks| ==> ks[i] in ks;
    ks
  }

  function Diff(side: Side, prev: Quantities, next: Quantities): seq<LevelDelta> {
    Changes(side, prev, next, Ascending(next)) + Removals(side, next, Ascending(prev))
  }

  // ---------- applying them ----------

  function Patched(m: Quantities, d: LevelDelta): Quantities {
    if d.action.Remove? then m - {d.price} else m[d.price := d.quantity]
  }

  // The two sides of a published book.
  datatype Maps = Maps(bids: Quantities, asks: Quantities) {
    function On(side: Side): Quantities {
      if side.Bid? then bids else asks
    }

    function With(side: Side, m: Quantities): Maps {
      if side.Bid? then Maps(m, asks) else Maps(bids, m)
    }
  }

  function Patch(m: Maps, ds: seq<LevelDelta>): Maps {
    if ds == [] then m
    else
      var before, d := Patch(m, ds[..|ds| - 1]), ds[|ds| - 1];
      before.With(d.side, Patched(before.On(d.side), d))
  }

  lemma {:induction false} PatchConcat(m: Maps, a: seq<LevelDelta>, b: seq<LevelDelta>)
    ensures Patch(m, a + b) == Patch(Patch(m, a), b)
  {
    if b == [] {
      assert a + b == a;
    } else {
      PatchConcat(m, a, b[..|b| - 1]);
      assert (a + b)[..|a + b| - 1] == a + b[..|b| - 1];
    }
  }

  lemma PatchNothing(m: Maps)
    ensures Patch(m, []) == m
  {
  }

  lemma PatchOne(m: Maps, d: LevelDelta)
    ensures Patch(m, [d]) == m.With(d.side, Patched(m.On(d.side), d))
  {
    assert [d][..0] == [];
  }

  // The changes overwrite the old book at their prices.
  lemma {:induction false} ChangesPatch(m: Maps, side: Side, next: Quantities, ks: seq<Price>)
    requires forall i :: 0 <= i < |ks| ==> ks[i] in next
    ensures var prev := m.On(side);
      var patched := Patch(m, Changes(side, prev, next, ks));
      && patched == m.With(side, patched.On(side))
      && (forall p :: p in patched.On(side) <==> p in prev || p in ks)
      && (forall p :: p in patched.On(side) ==> patched.On(side)[p] == if p in ks then next[p] else prev[p])
  {
    hide Patch, ChangeAt;
    PatchNothing(m);
    if ks != [] {
      var n := |ks| - 1;
      var p, prev := ks[n], m.On(side);
      ChangesPatch(m, side, next, ks[..n]);
      var earlier := Changes(side, prev, next, ks[..n]);
      var change := ChangeAt(side, prev, next, p);
      PatchConcat(m, earlier, change);
      assert ks == ks[..n] + [p];
      var before := Patch(m, earlier);
      OneChange(before, side, prev, next, p);
    }
  }

  lemma OneChange(m: Maps, side: Side, prev: Quantities, next: Quantities, p: Price)
    requires p in next
    ensures var change := ChangeAt(side, prev, next, p);
      && (change == [] ==> p in prev && prev[p] == next[p])
      && Patch(m, change) == if change == [] then m else m.With(side, m.On(side)[p := next[p]])
  {
    hide Patch;
    var change := ChangeAt(side, prev, next, p);
    if change == [] {
      PatchNothing(m);
    } else {
      PatchOne(m, change[0]);
    }
  }

  lemma {:induction false} RemovalsPatch(m: Maps, side: Side, next: Quantities, ks: seq<Price>)
    ensures var patched := Patch(m, Removals(side, next, ks));
      && patched == m.With(side, patched.On(side))
      && (forall p :: p in patched.On(side) <==> p in m.On(side) && (p in next || p !in ks))
      && (forall p :: p in patched.On(side) ==> patched.On(side)[p] == m.On(side)[p])
  {
    if ks != [] {
      var n := |ks| - 1;
      RemovalsPatch(m, side, next, ks[..n]);
      var earlier, p := Removals(side, next, ks[..n]), ks[n];
      assert ks == ks[..n] + [p];
      if p !in next {
        assert (earlier + [LevelDelta(Remove, side, p, 0)])[..|earlier|] == earlier;
      }
    }
  }

  // The difference of two books turns the first into the second and leaves the other side alone.
  lemma {:induction false} DiffPatches(m: Maps, side: Side, next: Quantities)
    ensures Patch(m, Diff(side, m.On(side), next)) == m.With(side, next)
  {
    hide Patch, Changes, Removals;
    var prev := m.On(side);
    var changes, removals := Changes(side, prev, next, Ascending(next)), Removals(side, next, Ascending(prev));
    ChangesPatch(m, side, next, Ascending(next));
    var changed := Patch(m, changes);
    RemovalsPatch(changed, side, next, Ascending(prev));
    PatchConcat(m, changes, removals);
    hide Ascending;
    var result := Patch(changed, removals).On(side);
    forall p
      ensures p in result <==> p in next
      ensures p in next ==> result[p] == next[p]
    {
      assert p in Ascending(next) <==> p in next;
      assert p in Ascending(prev) <==> p in prev;
    }
    assert result == next;
  }

  lemma {:induction false} ChangesEmpty(side: Side, prev: Quantities, next: Quantities, ks: seq<Price>)
    requires forall i :: 0 <= i < |ks| ==> ks[i] in next
    ensures Changes(side, prev, next, ks) == [] <==> forall i :: 0 <= i < |ks| ==> ks[i] in prev && prev[ks[i]] == next[ks[i]]
  {
    if ks != [] {
      ChangesEmpty(side, prev, next, ks[..|ks| - 1]);
    }
  }

  lemma {:induction false} RemovalsEmpty(side: Side, next: Quantities, ks: seq<Price>)
    ensures Removals(side, next, ks) == [] <==> forall i :: 0 <= i < |ks| ==> ks[i] in next
  {
    if ks != [] {
      RemovalsEmpty(side, next, ks[..|ks| - 1]);
    }
  }

  // Nothing is sent exactly when nothing changed.
  lemma {:induction false} DiffIsEmpty(side: Side, prev: Quantities, next: Quantities)
    ensures Diff(side, prev, next) == [] <==> prev == next
  {
    var ns, ps := Ascending(next), Ascending(prev);
    ChangesEmpty(side, prev, next, ns);
    RemovalsEmpty(side, next, ps);
    hide Changes, Removals, Ascending;
    if Changes(side, prev, next, ns) == [] && Removals(side, next, ps) == [] {
      forall p
        ensures p in prev <==> p in next
        ensures p in next ==> prev[p] == next[p]
      {
        if p in next {
          var i :| 0 <= i < |ns| && ns[i] == p;
        }
        if p in prev {
          var i :| 0 <= i < |ps| && ps[i] == p;
        }
      }
    }
  }

  // Every delta of a difference adds or updates a quantity of the new book, or removes.
  ghost predicate DeltasPositive(ds: seq<LevelDelta>) {
    forall i :: 0 <= i < |ds| && !ds[i].action.Remove? ==> ds[i].quantity > 0
  }

  lemma {:induction false} DiffPositive(side: Side, prev: Quantities, next: Quantities, ks: seq<Price>)
    requires Positive(next) && forall i :: 0 <= i < |ks| ==> ks[i] in next
    ensures DeltasPositive(Changes(side, prev, next, ks))
  {
    if ks != [] {
      DiffPositive(side, prev, next, ks[..|ks| - 1]);
    }
  }

  lemma {:induction false} RemovalsRemove(side: Side, next: Quantities, ks: seq<Price>)
    ensures DeltasPositive(Removals(side, next, ks))
  {
    if ks != [] {
      RemovalsRemove(side, next, ks[..|ks| - 1]);
    }
  }

  // ---------- which deltas there are ----------

  // The delta says what became of its price.
  predicate Tells(side: Side, prev: Quantities, next: Quantities, d: LevelDelta) {
    && d.side == side
    && match d.action
       case Add => d.price !in prev && d.price in next && d.quantity == next[d.price]
       case Update => d.price in prev && d.price in next && prev[d.price] != next[d.price] && d.quantity == next[d.price]
       case Remove => d.price in prev && d.price !in next && d.quantity == 0
  }

  ghost predicate Climbs(ds: seq<LevelDelta>) {
    forall i, j :: 0 <= i < j < |ds| ==> ds[i].price < ds[j].price
  }

  ghost predicate OnePerPrice(ds: seq<LevelDelta>) {
    forall i, j :: 0 <= i < j < |ds| ==> ds[i].price != ds[j].price
  }

  lemma ChangeTells(side: Side, prev: Quantities, next: Quantities, p: Price)
    requires p in next
    ensures |ChangeAt(side, prev, next, p)| <= 1
    ensures forall d :: d in ChangeAt(side, prev, next, p) <==> d.price == p && !d.action.Remove? && Tells(side, prev, next, d)
  {
  }

  lemma RemovalTells(side: Side, prev: Quantities, next: Quantities, p: Price)
    requires p in prev && p !in next
    ensures forall d :: d == LevelDelta(Remove, side, p, 0) <==> d.price == p && d.action.Remove? && Tells(side, prev, next, d)
  {
  }

  // One more delta at a price above all before it.
  lemma ClimbsOn(ds: seq<LevelDelta>, more: seq<LevelDelta>, ks: seq<Price>, p: Price)
    requires Climbs(ds) && |more| <= 1 && (more != [] ==> more[0].price == p)
    requires StrictlyOrdered(Ask, ks + [p]) && forall d :: d in ds ==> d.price in ks
    ensures Climbs(ds + more)
  {
    forall i | 0 <= i < |ds|
      ensures ds[i].price < p
    {
      assert ds[i] in ds;
      var k :| 0 <= k < |ks| && ks[k] == ds[i].price;
      assert Better(Ask, (ks + [p])[k], (ks + [p])[|ks|]);
    }
  }

  lemma OrderedPrefix(ks: seq<Price>, n: nat)
    requires StrictlyOrdered(Ask, ks) && n <= |ks|
    ensures StrictlyOrdered(Ask, ks[..n])
  {
  }

  lemma {:induction false} ChangesTell(side: Side, prev: Quantities, next: Quantities, ks: seq<Price>)
    requires forall i :: 0 <= i < |ks| ==> ks[i] in next
    requires StrictlyOrdered(Ask, ks)
    ensures forall d :: d in Changes(side, prev, next, ks) <==> d.price in ks && !d.action.Remove? && Tells(side, prev, next, d)
    ensures Climbs(Changes(side, prev, next, ks))
  {
    hide Tells, ChangeAt, StrictlyOrdered, Climbs;
    if ks == [] {
      NothingClimbs();
    } else {
      var n := |ks| - 1;
      var earlier, p := Changes(side, prev, next, ks[..n]), ks[n];
      OrderedPrefix(ks, n);
      ChangesTell(side, prev, next, ks[..n]);
      assert ks == ks[..n] + [p];
      ChangeTells(side, prev, next, p);
      var more := ChangeAt(side, prev, next, p);
      assert more != [] ==> more[0] in more;
      ClimbsOn(earlier, more, ks[..n], p);
    }
  }

  lemma NothingClimbs()
    ensures Climbs([])
  {
  }

  lemma {:induction false} RemovalsTell(side: Side, prev: Quantities, next: Quantities, ks: seq<Price>)
    requires forall i :: 0 <= i < |ks| ==> ks[i] in prev
    requires StrictlyOrdered(Ask, ks)
    ensures forall d :: d in Removals(side, next, ks) <==> d.price in ks && d.action.Remove? && Tells(side, prev, next, d)
    ensures Climbs(Removals(side, next, ks))
  {
    hide StrictlyOrdered, Climbs;
    if ks == [] {
      NothingClimbs();
    } else {
      var n := |ks| - 1;
      var earlier, p := Removals(side, next, ks[..n]), ks[n];
      OrderedPrefix(ks, n);
      RemovalsTell(side, prev, next, ks[..n]);
      assert ks == ks[..n] + [p];
      if p !in next {
        RemovalTells(side, prev, next, p);
        ClimbsOn(earlier, [LevelDelta(Remove, side, p, 0)], ks[..n], p);
      }
    }
  }

  lemma TellsWhere(side: Side, prev: Quantities, next: Quantities, d: LevelDelta)
    requires Tells(side, prev, next, d)
    ensures if d.action.Remove? then d.price in prev && d.price !in next else d.price in next
  {
  }

  lemma AscendingOrder(m: Quantities)
    ensures StrictlyOrdered(Ask, Ascending(m))
  {
    BestFirstIsKeyList(Ask, m.Keys);
  }

  // The two parts of a difference.
  lemma DiffParts(side: Side, prev: Quantities, next: Quantities)
    ensures var changes, removals := Changes(side, prev, next, Ascending(next)), Removals(side, next, Ascending(prev));
      && Climbs(changes) && Climbs(removals)
      && (forall d :: d in changes <==> !d.action.Remove? && Tells(side, prev, next, d))
      && (forall d :: d in removals <==> d.action.Remove? && Tells(side, prev, next, d))
  {
    hide Changes, Removals, StrictlyOrdered, Climbs, Tells, Ascending;
    AscendingOrder(prev);
    AscendingOrder(next);
    ChangesTell(side, prev, next, Ascending(next));
    RemovalsTell(side, prev, next, Ascending(prev));
    forall d | Tells(side, prev, next, d)
      ensures if d.action.Remove? then d.price in prev else d.price in next
    {
      TellsWhere(side, prev, next, d);
    }
  }

  // The deltas of a difference are exactly those that tell what became of a price: it was added,
  // got another quantity, or was removed.
  lemma DiffTells(side: Side, prev: Quantities, next: Quantities)
    ensures forall d :: d in Diff(side, prev, next) <==> Tells(side, prev, next, d)
  {
    hide Changes, Removals, Tells, Ascending, Climbs;
    DiffParts(side, prev, next);
  }

  // Each price has at most one; additions and updates come first, and each group ascends.
  lemma DiffInOrder(side: Side, prev: Quantities, next: Quantities) returns (n: nat)
    ensures OnePerPrice(Diff(side, prev, next))
    ensures var ds := Diff(side, prev, next);
      && n <= |ds| && Climbs(ds[..n]) && Climbs(ds[n..])
      && forall i :: 0 <= i < |ds| ==> (ds[i].action.Remove? <==> n <= i)
  {
    hide Changes, Removals, Tells, Ascending, Climbs, OnePerPrice;
    DiffParts(side, prev, next);
    var changes, removals := Changes(side, prev, next, Ascending(next)), Removals(side, next, Ascending(prev));
    var ds := Diff(side, prev, next);
    n := |changes|;
    assert ds[..n] == changes && ds[n..] == removals;
    forall i | 0 <= i < |ds|
      ensures (ds[i].action.Remove? <==> n <= i) && (ds[i].price in next <==> i < n)
    {
      assert if i < n then ds[i] in changes else ds[i] in removals;
      TellsWhere(side, prev, next, ds[i]);
    }
    DistinctHalves(ds, n, next);
  }

  lemma DistinctHalves(ds: seq<LevelDelta>, n: nat, next: Quantities)
    requires n <= |ds| && Climbs(ds[..n]) && Climbs(ds[n..])
    requires forall i :: 0 <= i < |ds| ==> (ds[i].price in next <==> i < n)
    ensures OnePerPrice(ds)
  {
    forall i, j | 0 <= i < j < |ds|
      ensures ds[i].price != ds[j].price
    {
      if j < n {
        assert ds[..n][i].price < ds[..n][j].price;
      } else if n <= i {
        assert ds[n..][i - n].price < ds[n..][j - n].price;
      }
    }
  }

  // ---------- the publisher ----------

  // The publisher's fields as a value.
  datatype Published = Published(prev: Maps, sequence: nat, updatesSinceSnapshot: nat)

  const UNPUBLISHED := Published(Maps(map[], map[]), 0, SNAPSHOT_INTERVAL)

  predicate SnapshotDue(s: Published) {
    s.updatesSinceSnapshot >= SNAPSHOT_INTERVAL
  }

  function AllDeltas(s: Published, bids: seq<Row>, asks: seq<Row>): seq<LevelDelta> {
    Diff(Bid, s.prev.bids, MapOf(bids)) + Diff(Ask, s.prev.asks, MapOf(asks))
  }

  // The event a publish tries to send, if any.
  function EventFor(s: Published, bids: seq<Row>, asks: seq<Row>): Option<BookEvent> {
    if SnapshotDue(s) then Some(BookSnapshot(s.sequence, bids, asks))
    else
      var deltas := AllDeltas(s, bids, asks);
      if deltas == [] then None else Some(BookDelta(s.sequence, deltas))
  }

  // The state after a successful publish.
  function After(s: Published, bids: seq<Row>, asks: seq<Row>): Published {
    Published(Maps(MapOf(bids), MapOf(asks)), s.sequence + 1, if SnapshotDue(s) then 1 else s.updatesSinceSnapshot + 1)
  }

  // The best levels of one side of a book.
  function Top(q: seq<Order>): seq<Row> {
    Depth(q)[..Min(MAX_LEVELS, |Depth(q)|)]
  }

  class OrderBookPublisher {
    var prevBids: Quantities
    var prevAsks: Quantities
    var sequence: nat
    var updatesSinceSnapshot: nat

    function State(): Published
      reads this
    {
      Published(Maps(prevBids, prevAsks), sequence, updatesSinceSnapshot)
    }

    constructor ()
      ensures State() == UNPUBLISHED
    {
      prevBids, prevAsks, sequence, updatesSinceSnapshot := map[], map[], 0, SNAPSHOT_INTERVAL;
    }

    predicate ShouldSendSnapshot()
      reads this
    {
      updatesSinceSnapshot >= SNAPSHOT_INTERVAL
    }

    // The loop over the new levels of one side.
    method SideChanges(side: Side, prev: Quantities, next: Quantities) returns (deltas: seq<LevelDelta>)
      ensures deltas == Changes(side, prev, next, Ascending(next))
    {
      deltas := [];
      var ks := Ascending(next);
      hide Ascending;
      var i := 0;
      while i < |ks|
        invariant 0 <= i <= |ks| && deltas == Changes(side, prev, next, ks[..i])
      {
        var price := ks[i];
        assert ks[..i + 1][..i] == ks[..i];
        if price !in prev {
          deltas := deltas + [LevelDelta(Add, side, price, next[price])];
        } else if prev[price] != next[price] {
          deltas := deltas + [LevelDelta(Update, side, price, next[price])];
        }
        i := i + 1;
      }
      assert ks[..i] == ks;
    }

    // The loop over the old levels of one side.
    method SideRemovals(side: Side, prev: Quantities, next: Quantities) returns (deltas: seq<LevelDelta>)
      ensures deltas == Removals(side, next, Ascending(prev))
    {
      deltas := [];
      var ks := Ascending(prev);
      hide Ascending;
      var i := 0;
      while i < |ks|
        invariant 0 <= i <= |ks| && deltas == Removals(side, next, ks[..i])
      {
        var price := ks[i];
        assert ks[..i + 1][..i] == ks[..i];
        if price !in next {
          deltas := deltas + [LevelDelta(Remove, side, price, 0)];
        }
        i := i + 1;
      }
      assert ks[..i] == ks;
    }

    method ComputeDeltas(newBids: seq<Row>, newAsks: seq<Row>) returns (deltas: seq<LevelDelta>)
      ensures deltas == AllDeltas(State(), newBids, newAsks)
    {
      var newBidMap, newAskMap := MapOf(newBids), MapOf(newAsks);
      deltas := SideChanges(Bid, prevBids, newBidMap);
      var more := SideRemovals(Bid, prevBids, newBidMap);
      deltas := deltas + more;
      more := SideChanges(Ask, prevAsks, newAskMap);
      var last := SideRemovals(Ask, prevAsks, newAskMap);
      deltas := deltas + (more + last);
    }

    method UpdateState(bids: seq<Row>, asks: seq<Row>)
      modifies this
      ensures State() == Published(Maps(MapOf(bids), MapOf(asks)), old(sequence) + 1, old(updatesSinceSnapshot))
    {
      prevBids := MapOf(bids);
      prevAsks := MapOf(asks);
      sequence := sequence + 1;
    }

    // `sendOk` says whether the transport takes an event. A failed send leaves the publisher
    // as it was, so that the next difference is against what was last sent.
    method Publish(book: OrderBook, sendOk: bool) returns (sent: Option<BookEvent>, ok: bool)
      requires book.Valid()
      modifies this
      ensures var bids, asks := Top(book.Contents().bids), Top(book.Contents().asks);
        var event := EventFor(old(State()), bids, asks);
        && (ok <==> event == None || sendOk)
        && sent == (if ok then event else None)
        && State() == if ok then After(old(State()), bids, asks) else old(State())
    {
      hide Depth, MapOf, Diff;
      var bidLevels := book.GetLevels(Bid, MAX_LEVELS);
      var askLevels := book.GetLevels(Ask, MAX_LEVELS);
      sent := None;
      if ShouldSendSnapshot() {
        if !sendOk {
          return None, false;
        }
        sent := Some(BookSnapshot(sequence, bidLevels, askLevels));
        updatesSinceSnapshot := 0;
      } else {
        var deltas := ComputeDeltas(bidLevels, askLevels);
        if deltas != [] {
          if !sendOk {
            return None, false;
          }
          sent := Some(BookDelta(sequence, deltas));
        }
      }
      UpdateState(bidLevels, askLevels);
      updatesSinceSnapshot := updatesSinceSnapshot + 1;
      ok := true;
    }
  }
}
