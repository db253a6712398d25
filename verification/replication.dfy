// Publisher, gateway and client hold the same book: the best ten levels of the plain list of
// resting orders, whenever the latest snapshot and the deltas since it have arrived.
module Replication {
  import opened Common
  import opened Orders
  import opened PriceLevels
  import opened PriceRows
  import opened Publisher
  import opened GatewayBook
  import opened SortedPrices

  // ---------- runs of the publisher ----------

  // A publish finds the book in some state, and the transport accepts an event or not.
  datatype Attempt = Attempt(book: Book, sendOk: bool)

  // The publisher's state, the events it sent, how many publishes succeeded, and the book at
  // the last of them.
  datatype Stream = Stream(state: Published, sent: seq<BookEvent>, successes: nat, lastBook: Book)

  function TryPublish(s: Stream, a: Attempt): Stream {
    var bids, asks := Top(a.book.bids), Top(a.book.asks);
    match EventFor(s.state, bids, asks)
    case None => Stream(After(s.state, bids, asks), s.sent, s.successes + 1, a.book)
    case Some(event) =>
      if a.sendOk then Stream(After(s.state, bids, asks), s.sent + [event], s.successes + 1, a.book) else s
  }

  function PublishAll(attempts: seq<Attempt>): Stream {
    if attempts == [] then Stream(UNPUBLISHED, [], 0, EMPTY_BOOK)
    else TryPublish(PublishAll(attempts[..|attempts| - 1]), attempts[|attempts| - 1])
  }

  function TopMaps(b: Book): Maps {
    Maps(MapOf(Top(b.bids)), MapOf(Top(b.asks)))
  }

  ghost predicate BooksOk(attempts: seq<Attempt>) {
    forall i :: 0 <= i < |attempts| ==> BookOk(attempts[i].book)
  }

  // ---------- what a published side is ----------

  lemma {:induction false} DepthPositive(side: Side, q: seq<Order>)
    requires AllResting(side, q)
    ensures RowsPositive(Depth(q))
  {
    if q != [] {
      DepthPositive(side, q[1..]);
    }
  }

  lemma {:induction false} TopIsSorted(side: Side, q: seq<Order>)
    requires SideOk(side, q)
    ensures Sorted(side, Top(q)) && RowsPositive(Top(q)) && Positive(MapOf(Top(q))) && Holds(MapOf(Top(q)), Top(q))
    ensures (Top(q) == [] <==> q == []) && (q != [] ==> Top(q)[0].0 == q[0].RestPrice())
  {
    DepthIsSummary(side, q);
    DepthPositive(side, q);
    hide Depth, MapOf;
    MapOfHolds(side, Top(q));
    forall p | p in MapOf(Top(q))
      ensures MapOf(Top(q))[p] > 0
    {
      var i :| 0 <= i < |Top(q)| && Top(q)[i].0 == p;
      assert MapOf(Top(q))[Top(q)[i].0] == Top(q)[i].1;
    }
  }

  // The prices at which something rests that is served before p.
  function BetterPrices(side: Side, q: seq<Order>, p: Price): set<Price> {
    set o | o in q && Better(side, o.RestPrice(), p) :: o.RestPrice()
  }

  // The map has the ten best prices of the list, each with everything that rests at it.
  ghost predicate TenBest(side: Side, m: Quantities, q: seq<Order>) {
    && (forall p :: p in m <==> RestsAt(q, p) && |BetterPrices(side, q, p)| < 10)
    && (forall p :: p in m ==> m[p] == QuantityAt(q, p))
  }

  ghost predicate RestsAt(q: seq<Order>, p: Price) {
    exists i :: 0 <= i < |q| && q[i].RestPrice() == p
  }

  ghost predicate BestOfBook(m: Maps, b: Book) {
    TenBest(Bid, m.bids, b.bids) && TenBest(Ask, m.asks, b.asks)
  }

  lemma {:induction false} FirstPrices(side: Side, rows: seq<Row>, n: nat)
    requires Sorted(side, rows) && n <= |rows|
    ensures |set i | 0 <= i < n :: rows[i].0| == n
  {
    if n > 0 {
      FirstPrices(side, rows, n - 1);
      var earlier := set i | 0 <= i < n - 1 :: rows[i].0;
      assert (set i | 0 <= i < n :: rows[i].0) == earlier + {rows[n - 1].0};
      assert forall i :: 0 <= i < n - 1 ==> Better(side, rows[i].0, rows[n - 1].0);
    }
  }

  // The prices of the depth are those at which something rests.
  lemma DepthPrices(side: Side, q: seq<Order>, p: Price)
    requires SideOk(side, q)
    ensures RestsAt(q, p) <==> exists j :: 0 <= j < |Depth(q)| && Depth(q)[j].0 == p
  {
    DepthIsSummary(side, q);
    DepthPositive(side, q);
    hide Depth;
    forall j | 0 <= j < |Depth(q)| && Depth(q)[j].0 == p
      ensures RestsAt(q, p)
    {
      if !RestsAt(q, p) {
        QuantityElsewhere(q, p);
      }
    }
  }

  lemma IsBetterPrice(side: Side, q: seq<Order>, p: Price, than: Price)
    ensures p in BetterPrices(side, q, than) <==> RestsAt(q, p) && Better(side, p, than)
  {
    if RestsAt(q, p) && Better(side, p, than) {
      var k :| 0 <= k < |q| && q[k].RestPrice() == p;
      assert q[k] in q;
    }
  }

  lemma BetterIsEarlier(side: Side, q: seq<Order>, j: nat, p: Price)
    requires SideOk(side, q) && j < |Depth(q)|
    ensures p in BetterPrices(side, q, Depth(q)[j].0) <==> exists i :: 0 <= i < j && Depth(q)[i].0 == p
  {
    hide Depth, BetterPrices, SideOk, RestsAt;
    var rows := Depth(q);
    DepthIsSorted(side, q);
    DepthPrices(side, q, p);
    IsBetterPrice(side, q, p, rows[j].0);
    if RestsAt(q, p) {
      var k :| 0 <= k < |rows| && rows[k].0 == p;
      RowOrder(side, rows, k, j);
    }
  }

  lemma DepthIsSorted(side: Side, q: seq<Order>)
    requires SideOk(side, q)
    ensures Sorted(side, Depth(q))
    ensures forall j :: 0 <= j < |Depth(q)| ==> Depth(q)[j].1 == QuantityAt(q, Depth(q)[j].0)
  {
    hide Depth;
    DepthIsSummary(side, q);
  }

  lemma RowOrder(side: Side, rows: seq<Row>, k: nat, j: nat)
    requires Sorted(side, rows) && k < |rows| && j < |rows|
    ensures Better(side, rows[k].0, rows[j].0) <==> k < j
    ensures rows[k].0 == rows[j].0 <==> k == j
  {
    if k < j {
      assert Better(side, rows[k].0, rows[j].0);
    } else if j < k {
      assert Better(side, rows[j].0, rows[k].0);
    }
  }

  // How many prices are served before the j-th one.
  lemma BetterThanRow(side: Side, q: seq<Order>, j: nat)
    requires SideOk(side, q) && j < |Depth(q)|
    ensures |BetterPrices(side, q, Depth(q)[j].0)| == j
  {
    hide Depth, BetterPrices, SideOk;
    var rows := Depth(q);
    DepthIsSorted(side, q);
    FirstPrices(side, rows, j);
    var better, first := BetterPrices(side, q, rows[j].0), set i | 0 <= i < j :: rows[i].0;
    forall p
      ensures p in better <==> p in first
    {
      BetterIsEarlier(side, q, j, p);
    }
    assert better == first;
  }

  // What is published of a side is its ten best prices.
  lemma TopIsTenBest(side: Side, q: seq<Order>)
    requires SideOk(side, q)
    ensures TenBest(side, MapOf(Top(q)), q) && |Top(q)| <= 10
  {
    hide BetterPrices, RestsAt, Depth, SideOk, MapOf;
    TopIsSorted(side, q);
    assert |Top(q)| <= 10;
    forall p
      ensures p in MapOf(Top(q)) <==> RestsAt(q, p) && |BetterPrices(side, q, p)| < 10
      ensures p in MapOf(Top(q)) ==> MapOf(Top(q))[p] == QuantityAt(q, p)
    {
      DepthPrices(side, q, p);
      if RestsAt(q, p) {
        var j :| 0 <= j < |Depth(q)| && Depth(q)[j].0 == p;
        InTop(side, q, j);
      } else {
        assert forall i :: 0 <= i < |Top(q)| ==> Top(q)[i].0 == Depth(q)[i].0;
      }
    }
  }

  lemma InTop(side: Side, q: seq<Order>, j: nat)
    requires SideOk(side, q) && j < |Depth(q)|
    ensures var p := Depth(q)[j].0;
      && (p in MapOf(Top(q)) <==> |BetterPrices(side, q, p)| < 10)
      && (p in MapOf(Top(q)) ==> MapOf(Top(q))[p] == QuantityAt(q, p))
  {
    hide BetterPrices, Depth, SideOk, MapOf;
    var rows, p := Depth(q), Depth(q)[j].0;
    TopIsSorted(side, q);
    DepthIsSorted(side, q);
    BetterThanRow(side, q, j);
    if j < 10 {
      assert Top(q)[j] == rows[j];
    }
    if p in MapOf(Top(q)) {
      var i :| 0 <= i < |Top(q)| && Top(q)[i].0 == p;
      RowOrder(side, rows, i, j);
    }
  }

  lemma TopMapsAreBest(b: Book)
    requires BookOk(b)
    ensures BestOfBook(TopMaps(b), b)
  {
    TopIsTenBest(Bid, b.bids);
    TopIsTenBest(Ask, b.asks);
  }

  // ---------- snapshots ----------

  // One of every ten consecutive successful publishes is a snapshot: the next one is exactly
  // when the count so far is a multiple of ten. A success counts even when nothing changed and
  // nothing was sent.
  lemma {:induction false} SnapshotCadence(attempts: seq<Attempt>)
    ensures var s := PublishAll(attempts);
      && (SnapshotDue(s.state) <==> s.successes % 10 == 0)
      && s.state.sequence == s.successes
      && s.state.updatesSinceSnapshot == if s.successes == 0 then 10 else (s.successes - 1) % 10 + 1
  {
    hide MapOf, AllDeltas, Top;
    if attempts != [] {
      SnapshotCadence(attempts[..|attempts| - 1]);
      NextInTen(PublishAll(attempts[..|attempts| - 1]).successes);
    }
  }

  lemma NextInTen(n: nat)
    ensures n % 10 == 0 ==> (n + 1) % 10 == 1
    ensures n > 0 && n % 10 != 0 ==> n % 10 == (n - 1) % 10 + 1
    ensures n > 0 && n % 10 == 0 ==> (n - 1) % 10 == 9
  {
  }

  // The position of the latest snapshot, or -1.
  function LastSnapshot(sent: seq<BookEvent>): (k: int)
    ensures -1 <= k < |sent|
    ensures k >= 0 ==> sent[k].BookSnapshot?
  {
    if sent == [] then -1
    else if sent[|sent| - 1].BookSnapshot? then |sent| - 1
    else LastSnapshot(sent[..|sent| - 1])
  }

  lemma {:induction false} NoLaterSnapshot(sent: seq<BookEvent>, i: nat)
    requires LastSnapshot(sent) < i < |sent|
    ensures sent[i].BookDelta?
  {
    if i < |sent| - 1 {
      NoLaterSnapshot(sent[..|sent| - 1], i);
    }
  }

  // ---------- the gateway ----------

  function Replay(m: Maps, events: seq<BookEvent>): Maps {
    if events == [] then m else Apply(Replay(m, events[..|events| - 1]), events[|events| - 1]).maps
  }

  lemma {:induction false} ReplayAppend(m: Maps, events: seq<BookEvent>, e: BookEvent)
    ensures Replay(m, events + [e]) == Apply(Replay(m, events), e).maps
  {
    assert (events + [e])[..|events|] == events;
  }

  // A published snapshot replaces whatever the gateway had.
  lemma SnapshotReplaces(m: Maps, sequence: nat, b: Book)
    requires BookOk(b)
    ensures Apply(m, BookSnapshot(sequence, Top(b.bids), Top(b.asks))).maps == TopMaps(b)
  {
    hide Depth, MapOf, NonZero;
    TopIsSorted(Bid, b.bids);
    TopIsSorted(Ask, b.asks);
    NonZeroOfPositive(Top(b.bids));
    NonZeroOfPositive(Top(b.asks));
  }

  // A published delta moves the gateway from the last published book to the new one.
  lemma DeltaMoves(s: Published, bids: seq<Row>, asks: seq<Row>)
    ensures Patch(s.prev, AllDeltas(s, bids, asks)) == Maps(MapOf(bids), MapOf(asks))
  {
    hide Patch, Diff, MapOf;
    DiffPatches(s.prev, Bid, MapOf(bids));
    DiffPatches(s.prev.With(Bid, MapOf(bids)), Ask, MapOf(asks));
    PatchConcat(s.prev, Diff(Bid, s.prev.bids, MapOf(bids)), Diff(Ask, s.prev.asks, MapOf(asks)));
  }

  // If nothing is sent, nothing changed.
  lemma NothingMoves(s: Published, bids: seq<Row>, asks: seq<Row>)
    requires AllDeltas(s, bids, asks) == []
    ensures s.prev == Maps(MapOf(bids), MapOf(asks))
  {
    hide Diff, MapOf;
    DiffIsEmpty(Bid, s.prev.bids, MapOf(bids));
    DiffIsEmpty(Ask, s.prev.asks, MapOf(asks));
  }

  // Replication under loss: a gateway in any state that then receives the latest snapshot and
  // every delta since holds exactly what was last published, the best ten levels of each side
  // of the book at that time.
  lemma {:induction false} GatewayAgrees(attempts: seq<Attempt>, g: Maps)
    requires BooksOk(attempts)
    ensures var s := PublishAll(attempts);
      && (s.successes == 0 ==> s.sent == [] && s.state == UNPUBLISHED)
      && (s.successes > 0 ==>
          LastSnapshot(s.sent) >= 0 && BookOk(s.lastBook)
          && s.state.prev == TopMaps(s.lastBook)
          && Replay(g, s.sent[LastSnapshot(s.sent)..]) == TopMaps(s.lastBook)
          && BestOfBook(Replay(g, s.sent[LastSnapshot(s.sent)..]), s.lastBook))
      && (forall i :: LastSnapshot(s.sent) < i < |s.sent| ==> s.sent[i].BookDelta?)
  {
    hide BookOk, AllDeltas, MapOf, Top, Apply, BestOfBook;
    var sent := PublishAll(attempts).sent;
    forall i | LastSnapshot(sent) < i < |sent|
      ensures sent[i].BookDelta?
    {
      NoLaterSnapshot(sent, i);
    }
    if attempts != [] {
      var n := |attempts| - 1;
      GatewayAgrees(attempts[..n], g);
      SnapshotCadence(attempts[..n]);
      GatewayStep(PublishAll(attempts[..n]), attempts[n], g);
      if PublishAll(attempts).successes > 0 {
        TopMapsAreBest(PublishAll(attempts).lastBook);
      }
    }
  }

  // What holds of a stream: the latest snapshot and the deltas since it give the last book.
  ghost predicate Agrees(s: Stream, g: Maps) {
    && LastSnapshot(s.sent) >= 0 && s.state.prev == TopMaps(s.lastBook)
    && Replay(g, s.sent[LastSnapshot(s.sent)..]) == TopMaps(s.lastBook)
  }

  lemma GatewayStep(s: Stream, a: Attempt, g: Maps)
    requires BookOk(a.book)
    requires SnapshotDue(s.state) <== s.successes == 0
    requires s.successes > 0 ==> Agrees(s, g)
    ensures var s' := TryPublish(s, a); s'.successes > 0 ==> s' == s || (Agrees(s', g) && s'.lastBook == a.book)
  {
    hide BookOk, AllDeltas, MapOf, Top, Apply, Replay;
    var bids, asks := Top(a.book.bids), Top(a.book.asks);
    var s' := TryPublish(s, a);
    if SnapshotDue(s.state) {
      if a.sendOk {
        var e := BookSnapshot(s.state.sequence, bids, asks);
        assert s'.sent[|s.sent|..] == [] + [e];
        ReplayAppend(g, [], e);
        SnapshotReplaces(Replay(g, []), s.state.sequence, a.book);
      }
    } else if AllDeltas(s.state, bids, asks) == [] {
      NothingMoves(s.state, bids, asks);
    } else if a.sendOk {
      var e := BookDelta(s.state.sequence, AllDeltas(s.state, bids, asks));
      var k := LastSnapshot(s.sent);
      assert s'.sent[..|s.sent|] == s.sent;
      assert LastSnapshot(s'.sent) == k;
      assert s'.sent[k..] == s.sent[k..] + [e];
      ReplayAppend(g, s.sent[k..], e);
      DeltaApplies(s.state.prev, e);
      DeltaMoves(s.state, bids, asks);
    }
  }

  lemma DeltaApplies(m: Maps, e: BookEvent)
    requires e.BookDelta?
    ensures Apply(m, e).maps == Patch(m, e.deltas)
  {
  }

  // ---------- the client ----------

  // A client's two maps after a notification.
  function Heard(c: Maps, n: Notification): Maps {
    Maps(Notified(c.bids, n, Bid), Notified(c.asks, n, Ask))
  }

  lemma {:induction false} AnnouncedIsHeard(m: Quantities, ks: seq<Price>)
    requires Positive(m) && forall i :: 0 <= i < |ks| ==> ks[i] in m
    ensures var heard := WithChanges(map[], Announce(m, ks));
      && (forall p :: p in heard <==> p in ks)
      && (forall p :: p in heard ==> p in m && heard[p] == m[p])
  {
    hide WithChanges, Announce;
    if ks == [] {
      NothingAnnounced(m);
    } else {
      var n := |ks| - 1;
      var p := ks[n];
      AnnouncedIsHeard(m, ks[..n]);
      AnnounceLast(m, ks[..n], p);
      HeardLast(map[], Announce(m, ks[..n]), LevelChange(p, 0, m[p]));
      assert ks == ks[..n] + [p];
      assert m[p] > 0;
    }
  }

  lemma NothingAnnounced(m: Quantities)
    ensures WithChanges(map[], Announce(m, [])) == map[]
  {
  }

  lemma AnnounceLast(m: Quantities, ks: seq<Price>, p: Price)
    requires p in m && forall i :: 0 <= i < |ks| ==> ks[i] in m
    ensures Announce(m, ks + [p]) == Announce(m, ks) + [LevelChange(p, 0, m[p])]
  {
    assert (ks + [p])[..|ks|] == ks;
  }

  // A full snapshot gives a client the gateway's book, whatever it had before.
  lemma SnapshotHeals(m: Maps, c: Maps)
    requires Positive(m.bids) && Positive(m.asks)
    ensures Heard(c, WholeBook(m)) == m
  {
    hide Ascending, Announce, WithChanges;
    forall side: Side
      ensures WithChanges(map[], Announce(m.On(side), Ascending(m.On(side)))) == m.On(side)
    {
      var q := m.On(side);
      AnnouncedIsHeard(q, Ascending(q));
      var heard := WithChanges(map[], Announce(q, Ascending(q)));
      forall p
        ensures p in heard <==> p in q
      {
        assert p in Ascending(q) <==> p in q;
      }
      assert heard == q;
    }
    assert m.On(Bid) == m.bids && m.On(Ask) == m.asks;
    assert WithChanges(map[], Announce(m.On(Bid), Ascending(m.On(Bid)))) == m.On(Bid);
    assert WithChanges(map[], Announce(m.On(Ask), Ascending(m.On(Ask)))) == m.On(Ask);
  }

  // What the gateway announces of a delta is what the delta did.
  lemma {:induction false} ChangesAreHeard(m: Maps, side: Side, ds: seq<LevelDelta>)
    requires DeltasPositive(ds)
    ensures WithChanges(m.On(side), ChangesBy(m, side, ds)) == Patch(m, ds).On(side)
  {
    hide Patch, ChangesBy, WithChanges;
    if ds != [] {
      var n := |ds| - 1;
      var d, before := ds[n], Patch(m, ds[..n]);
      ChangesAreHeard(m, side, ds[..n]);
      LastDelta(m, side, ds);
      HeardLast(m.On(side), ChangesBy(m, side, ds[..n]), ChangeBy(before.On(side), d));
    } else {
      PatchNothing(m);
      NothingHeard(m, side);
    }
  }

  lemma NothingHeard(m: Maps, side: Side)
    ensures WithChanges(m.On(side), ChangesBy(m, side, [])) == m.On(side)
  {
  }

  lemma LastDelta(m: Maps, side: Side, ds: seq<LevelDelta>)
    requires ds != []
    ensures var d, before := ds[|ds| - 1], Patch(m, ds[..|ds| - 1]);
      var earlier := ChangesBy(m, side, ds[..|ds| - 1]);
      && Patch(m, ds) == before.With(d.side, Patched(before.On(d.side), d))
      && ChangesBy(m, side, ds) == if d.side == side then earlier + [ChangeBy(before.On(side), d)] else earlier
  {
    assert ChangesBy(m, side, ds[..|ds| - 1]) + [] == ChangesBy(m, side, ds[..|ds| - 1]);
  }

  lemma HeardLast(m: Quantities, earlier: seq<LevelChange>, change: LevelChange)
    ensures WithChanges(m, earlier + [change]) == SetLevel(WithChanges(m, earlier), change.price, change.newQuantity)
  {
    assert (earlier + [change])[..|earlier|] == earlier;
  }

  ghost predicate EventPositive(e: BookEvent) {
    match e
    case BookSnapshot(_, bids, asks) =>
      Positive(MapOf(NonZero(bids))) && Positive(MapOf(NonZero(asks)))
    case BookDelta(_, deltas) => DeltasPositive(deltas)
  }

  function HeardOf(c: Maps, notification: Option<Notification>): Maps {
    match notification
    case None => c
    case Some(n) => Heard(c, n)
  }

  // A client that holds the gateway's book holds it again after every event. In particular a
  // suppressed notification is one that would have changed nothing.
  lemma ClientKeepsUp(m: Maps, e: BookEvent)
    requires EventPositive(e)
    ensures HeardOf(m, Apply(m, e).notification) == Apply(m, e).maps
  {
    hide Patch, ChangesBy, WithChanges, MapOf, NonZero, DeltasPositive, WholeBook;
    match e
    case BookSnapshot(_, bids, asks) =>
      SnapshotHeals(Maps(MapOf(NonZero(bids)), MapOf(NonZero(asks))), m);
    case BookDelta(_, deltas) =>
      ChangesAreHeard(m, Bid, deltas);
      ChangesAreHeard(m, Ask, deltas);
      PatchNothing(m);
  }

  // A gateway that holds what was last published moves to what is published next, and tells its
  // clients exactly if that is something else: a snapshot of the same book is not announced.
  lemma AnnouncedWhenChanged(s: Published, b: Book)
    requires BookOk(b)
    ensures var e := EventFor(s, Top(b.bids), Top(b.asks));
      e.Some? ==>
        var applied := Apply(s.prev, e.value);
        && applied.maps == TopMaps(b)
        && (applied.notification.Some? <==> applied.maps != s.prev)
  {
    hide MapOf, Diff, NonZero, Patch, BookOk, Top, WholeBook, ChangesBy;
    var bids, asks := Top(b.bids), Top(b.asks);
    if SnapshotDue(s) {
      SnapshotReplaces(s.prev, s.sequence, b);
    } else {
      DeltaMoves(s, bids, asks);
      DiffIsEmpty(Bid, s.prev.bids, MapOf(bids));
      DiffIsEmpty(Ask, s.prev.asks, MapOf(asks));
    }
  }

  // The client after the notifications of some events, given the gateway's book before them.
  function ClientAfter(m: Maps, c: Maps, events: seq<BookEvent>): Maps {
    if events == [] then c
    else
      var n := |events| - 1;
      HeardOf(ClientAfter(m, c, events[..n]), Apply(Replay(m, events[..n]), events[n]).notification)
  }

  ghost predicate EventsPositive(events: seq<BookEvent>) {
    forall i :: 0 <= i < |events| ==> EventPositive(events[i])
  }

  lemma {:induction false} ClientAgrees(m: Maps, events: seq<BookEvent>)
    requires EventsPositive(events)
    ensures ClientAfter(m, m, events) == Replay(m, events)
  {
    hide Apply, EventPositive, HeardOf;
    if events != [] {
      var n := |events| - 1;
      ClientAgrees(m, events[..n]);
      ClientKeepsUp(Replay(m, events[..n]), events[n]);
    }
  }

  lemma EventIsPositive(s: Published, b: Book)
    requires BookOk(b)
    ensures var e := EventFor(s, Top(b.bids), Top(b.asks)); e.Some? ==> EventPositive(e.value)
  {
    hide Depth, MapOf, NonZero, Changes, Removals, Top, SideOk, Ascending;
    TopIsSorted(Bid, b.bids);
    TopIsSorted(Ask, b.asks);
    NonZeroOfPositive(Top(b.bids));
    NonZeroOfPositive(Top(b.asks));
    var bids, asks := MapOf(Top(b.bids)), MapOf(Top(b.asks));
    DiffPositive(Bid, s.prev.bids, bids, Ascending(bids));
    RemovalsRemove(Bid, bids, Ascending(s.prev.bids));
    DiffPositive(Ask, s.prev.asks, asks, Ascending(asks));
    RemovalsRemove(Ask, asks, Ascending(s.prev.asks));
  }

  // Every event of a stream: positive quantities, and the sequence number counts the publishes.
  // It is a snapshot exactly when that count is a multiple of ten.
  ghost predicate SentOk(s: Stream) {
    && EventsPositive(s.sent)
    && (forall i :: 0 <= i < |s.sent| ==> s.sent[i].sequence < s.successes)
    && (forall i, j :: 0 <= i < j < |s.sent| ==> s.sent[i].sequence < s.sent[j].sequence)
    && (forall i :: 0 <= i < |s.sent| ==> (s.sent[i].BookSnapshot? <==> s.sent[i].sequence % 10 == 0))
    && (forall i :: 0 <= i < |s.sent| && s.sent[i].BookDelta? ==> s.sent[i].deltas != [])
    && (forall n: nat :: n < s.successes && n % 10 == 0 ==> SnapshotSent(s.sent, n))
  }

  ghost predicate SnapshotSent(sent: seq<BookEvent>, n: nat) {
    exists i :: 0 <= i < |sent| && sent[i].BookSnapshot? && sent[i].sequence == n
  }

  lemma {:induction false} EverythingSentIsOk(attempts: seq<Attempt>)
    requires BooksOk(attempts)
    ensures SentOk(PublishAll(attempts))
  {
    hide BookOk, PublishAll, TryPublish, SentOk, EventPositive;
    if attempts != [] {
      var n := |attempts| - 1;
      var before := PublishAll(attempts[..n]);
      EverythingSentIsOk(attempts[..n]);
      SnapshotCadence(attempts[..n]);
      EventIsPositive(before.state, attempts[n].book);
      LastPublish(attempts);
      PublishKeepsSent(before, attempts[n]);
    } else {
      NothingPublished();
    }
  }

  lemma LastPublish(attempts: seq<Attempt>)
    requires attempts != []
    ensures PublishAll(attempts) == TryPublish(PublishAll(attempts[..|attempts| - 1]), attempts[|attempts| - 1])
  {
  }

  lemma NothingPublished()
    ensures SentOk(PublishAll([]))
  {
  }

  lemma PublishKeepsSent(s: Stream, a: Attempt)
    requires SentOk(s) && s.state.sequence == s.successes && (SnapshotDue(s.state) <==> s.successes % 10 == 0)
    requires var e := EventFor(s.state, Top(a.book.bids), Top(a.book.asks)); e.Some? ==> EventPositive(e.value)
    ensures SentOk(TryPublish(s, a))
  {
    hide AllDeltas, MapOf, Top, EventPositive, SnapshotSent;
    var after := TryPublish(s, a).sent;
    forall k: nat | k < TryPublish(s, a).successes && k % 10 == 0
      ensures SnapshotSent(after, k)
    {
      SnapshotStays(s.sent, after, k);
      if k == s.successes {
        LastSent(after, k);
      }
    }
  }

  lemma LastSent(sent: seq<BookEvent>, n: nat)
    requires sent != [] && sent[|sent| - 1].BookSnapshot? && sent[|sent| - 1].sequence == n
    ensures SnapshotSent(sent, n)
  {
  }

  lemma SnapshotStays(before: seq<BookEvent>, after: seq<BookEvent>, n: nat)
    requires before <= after
    ensures SnapshotSent(before, n) ==> SnapshotSent(after, n)
  {
    if SnapshotSent(before, n) {
      var i :| 0 <= i < |before| && before[i].BookSnapshot? && before[i].sequence == n;
      assert after[i] == before[i];
    }
  }

  lemma {:induction false} ReplaySplit(m: Maps, events: seq<BookEvent>, k: nat)
    requires k <= |events|
    ensures Replay(m, events) == Replay(Replay(m, events[..k]), events[k..])
  {
    hide Apply;
    if k < |events| {
      var n := |events| - 1;
      assert events[k..][..n - k] == events[..n][k..];
      assert events[..n][..k] == events[..k];
      ReplaySplit(m, events[..n], k);
    } else {
      assert events[..k] == events;
    }
  }

  // The gateway's maps are positive once it holds a published book.
  lemma {:induction false} ReplayPositive(m: Maps, events: seq<BookEvent>)
    requires EventsPositive(events)
    requires (Positive(m.bids) && Positive(m.asks)) || (events != [] && events[0].BookSnapshot?)
    ensures var r := Replay(m, events); Positive(r.bids) && Positive(r.asks)
  {
    hide MapOf, NonZero;
    if events != [] {
      var n := |events| - 1;
      assert EventPositive(events[n]);
      if n > 0 || (Positive(m.bids) && Positive(m.asks)) {
        ReplayPositive(m, events[..n]);
        if events[n].BookDelta? {
          PatchPositive(Replay(m, events[..n]), events[n].deltas);
        }
      }
    }
  }

  lemma {:induction false} PatchPositive(m: Maps, ds: seq<LevelDelta>)
    requires Positive(m.bids) && Positive(m.asks) && DeltasPositive(ds)
    ensures Positive(Patch(m, ds).bids) && Positive(Patch(m, ds).asks)
  {
    if ds != [] {
      PatchPositive(m, ds[..|ds| - 1]);
    }
  }

  // End to end. The gateway is in any state g when the latest snapshot arrives; some client in
  // any state c joins after it has heard `joined` of the events since, asks for the whole book
  // and then follows. Both end with the best ten levels of each side of the book at the last
  // successful publish.
  lemma EndToEnd(attempts: seq<Attempt>, g: Maps, c: Maps, joined: nat)
    requires BooksOk(attempts) && PublishAll(attempts).successes > 0
    requires var s := PublishAll(attempts); 1 <= joined <= |s.sent| - LastSnapshot(s.sent)
    ensures var s := PublishAll(attempts);
      var k := LastSnapshot(s.sent);
      && k >= 0
      && var since := s.sent[k..];
      && var gateway := Replay(g, since[..joined]);
      && var client := Heard(c, WholeBook(gateway));
      && Replay(gateway, since[joined..]) == TopMaps(s.lastBook)
      && ClientAfter(gateway, client, since[joined..]) == TopMaps(s.lastBook)
      && BestOfBook(ClientAfter(gateway, client, since[joined..]), s.lastBook)
  {
    hide BestOfBook, PublishAll, Replay, ClientAfter, EventPositive, BookOk, TopMaps, Heard, WholeBook;
    var s := PublishAll(attempts);
    GatewayAgrees(attempts, g);
    EverythingSentIsOk(attempts);
    var since := s.sent[LastSnapshot(s.sent)..];
    ReplaySplit(g, since, joined);
    var gateway := Replay(g, since[..joined]);
    ReplayPositive(g, since[..joined]);
    SnapshotHeals(gateway, c);
    ClientAgrees(gateway, since[joined..]);
  }

  // What a client shows: a sorted price map that stands for a published side lists exactly the
  // best ten levels of the plain list, best first, under the best price.
  lemma ShownIsTop(book: SortedPriceMap, q: seq<Order>)
    requires book.Valid() && SideOk(book.Order(), q) && book.Contents() == MapOf(Top(q))
    ensures book.levels == Top(q) && |book.levels| <= 10 && TenBest(book.Order(), book.Contents(), q)
    ensures book.bestPrice == if q == [] then None else Some(q[0].RestPrice())
  {
    hide MapOf, Depth, Top, TenBest;
    TopIsTenBest(book.Order(), q);
    TopIsSorted(book.Order(), q);
    MapOfHolds(book.Order(), book.levels);
    SortedOnce(book.Order(), book.Contents(), book.levels, Top(q));
  }
}
