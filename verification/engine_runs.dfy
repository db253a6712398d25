// Whole runs of the matching engine: any sequence of limit orders, market orders and
// cancels with fresh ids and positive quantities.
module EngineRuns {
  import opened Common
  import opened Orders
  import opened FlatBook
  import opened Taking
  import opened ArrivalBook
  import opened ArrivalMatching
  import opened FillKeys

  datatype Command =
    | AddLimit(id: OrderId, side: Side, price: Price, quantity: Quantity)
    | AddMarket(id: OrderId, side: Side, quantity: Quantity)
    | CancelId(cancelId: OrderId)
  {
    predicate Places() {
      !CancelId?
    }

    // Would this order accept to trade at `p`?
    predicate Admits(p: Price)
      requires Places()
    {
      AddLimit? ==> if side.Bid? then p <= price else p >= price
    }
  }

  // What the callers of the engine guarantee: ids are never reused, quantities are positive.
  ghost predicate FreshCommands(cs: seq<Command>) {
    && (forall i :: 0 <= i < |cs| && cs[i].Places() ==> 0 < cs[i].quantity)
    && (forall i, j :: 0 <= i < j < |cs| && cs[i].Places() && cs[j].Places() ==> cs[i].id != cs[j].id)
  }

  // The book after a run, with everything that was reported on the way.
  datatype Execution = Execution(
    book: Book,
    fills: seq<Fill>,
    completed: seq<OrderId>,
    placed: map<OrderId, Command>,
    dropped: map<OrderId, Quantity>)

  const START := Execution(EMPTY_BOOK, [], [], map[], map[])

  function Step(e: Execution, c: Command): Execution {
    match c
    case AddLimit(id, side, price, quantity) =>
      var p := PlaceLimit(e.book, id, side, price, quantity);
      Execution(p.book, e.fills + p.result.fills, e.completed + p.result.completed, e.placed[id := c], e.dropped)
    case AddMarket(id, side, quantity) =>
      var p := PlaceMarket(e.book, id, side, quantity);
      var unfilled := Consume(NewMarket(id, side, quantity), e.book.On(side.Opposite())).taker.remaining;
      Execution(p.book, e.fills + p.result.fills, e.completed + p.result.completed, e.placed[id := c],
                e.dropped[id := unfilled])
    case CancelId(id) =>
      Execution(Cancel(e.book, id), e.fills, e.completed, e.placed,
                if Remaining(e.book, id) == 0 then e.dropped else e.dropped[id := Remaining(e.book, id)])
  }

  function Run(cs: seq<Command>): Execution {
    if cs == [] then START else Step(Run(cs[..|cs| - 1]), cs[|cs| - 1])
  }

  // ---------- quantities per order ----------

  function RemainingOf(q: seq<Order>, id: OrderId): Quantity {
    if q == [] then 0 else (if q[0].id == id then q[0].remaining else 0) + RemainingOf(q[1..], id)
  }

  function Remaining(b: Book, id: OrderId): Quantity {
    RemainingOf(b.bids, id) + RemainingOf(b.asks, id)
  }

  function FilledOf(fills: seq<Fill>, id: OrderId): Quantity {
    if fills == [] then 0
    else (if fills[0].buyId == id || fills[0].sellId == id then fills[0].quantity else 0) + FilledOf(fills[1..], id)
  }

  function DroppedOf(e: Execution, id: OrderId): Quantity {
    if id in e.dropped then e.dropped[id] else 0
  }

  lemma {:induction false} FilledOfAppend(a: seq<Fill>, b: seq<Fill>, id: OrderId)
    ensures FilledOf(a + b, id) == FilledOf(a, id) + FilledOf(b, id)
  {
    if a == [] {
      assert a + b == b;
    } else {
      assert (a + b)[1..] == a[1..] + b;
      FilledOfAppend(a[1..], b, id);
    }
  }

  lemma {:induction false} RemainingOfAbsent(q: seq<Order>, id: OrderId)
    requires forall i :: 0 <= i < |q| ==> 0 < q[i].remaining
    ensures 0 <= RemainingOf(q, id)
    ensures RemainingOf(q, id) == 0 <==> !HasId(q, id)
  {
    if q != [] {
      RemainingOfAbsent(q[1..], id);
      if HasId(q, id) && q[0].id != id {
        var i :| 0 <= i < |q| && q[i].id == id;
        assert q[1..][i - 1].id == id;
      }
      if HasId(q[1..], id) {
        var i :| 0 <= i < |q[1..]| && q[1..][i].id == id;
        assert q[i + 1].id == id;
      }
    }
  }

  lemma {:induction false} RemainingOfWithout(q: seq<Order>, cancelled: OrderId, id: OrderId)
    ensures RemainingOf(Without(q, cancelled), id) == if id == cancelled then 0 else RemainingOf(q, id)
  {
    if q != [] {
      RemainingOfWithout(q[1..], cancelled, id);
    }
  }

  lemma {:induction false} RemainingOfEnqueue(side: Side, q: seq<Order>, o: Order, id: OrderId)
    ensures RemainingOf(Enqueue(side, q, o), id) == RemainingOf(q, id) + if o.id == id then o.remaining else 0
  {
    if q == [] || Better(side, o.RestPrice(), q[0].RestPrice()) {
      assert ([o] + q)[1..] == q;
    } else {
      assert ([q[0]] + Enqueue(side, q[1..], o))[1..] == Enqueue(side, q[1..], o);
      RemainingOfEnqueue(side, q[1..], o, id);
    }
  }

  // What matching takes from a resting order it adds to that order's fills; what it takes
  // from the taker it adds to the taker's.
  lemma {:induction false} ConsumeConserves(taker: Order, q: seq<Order>, id: OrderId)
    requires UniqueIds(q) && !HasId(q, taker.id)
    requires forall i :: 0 <= i < |q| ==> 0 < q[i].remaining
    ensures var out := Consume(taker, q);
      && (id != taker.id ==> RemainingOf(q, id) == RemainingOf(out.rest, id) + FilledOf(out.fills, id))
      && (id == taker.id ==> taker.remaining == out.taker.remaining + FilledOf(out.fills, id))
    decreases |q|
  {
    hide Order.Accepts;
    var out := Consume(taker, q);
    if !(taker.IsFilled() || q == [] || !taker.Accepts(q[0].RestPrice())) {
      assert q[0].id != taker.id;
      var traded := Min(taker.remaining, q[0].remaining);
      var taker' := taker.(remaining := taker.remaining - traded);
      var fill := FillBetween(taker, q[0], q[0].RestPrice(), traded);
      var tail := q[1..];
      assert forall i :: 0 <= i < |tail| ==> tail[i] == q[i + 1];
      if traded == q[0].remaining {
        ConsumeConserves(taker', tail, id);
        var later := Consume(taker', tail);
        assert out == Outcome(later.taker, later.rest, [fill] + later.fills, [q[0].id] + later.completed);
        hide Consume, UniqueIds, HasId;
        assert ([fill] + later.fills)[1..] == later.fills;
      } else {
        var head := q[0].(remaining := q[0].remaining - traded);
        hide Consume, UniqueIds, HasId;
        assert ([head] + tail)[1..] == tail;
        assert FilledOf([fill], id) == (if fill.buyId == id || fill.sellId == id then fill.quantity else 0) + FilledOf([], id);
      }
    }
  }

  lemma {:induction false} DistinctCount(ids: seq<OrderId>, id: OrderId)
    requires forall i, j :: 0 <= i < j < |ids| ==> ids[i] != ids[j]
    ensures multiset(ids)[id] == if id in ids then 1 else 0
  {
    if ids != [] {
      assert ids == [ids[0]] + ids[1..];
      DistinctCount(ids[1..], id);
    }
  }

  // Matching completes exactly the resting orders that it leaves nothing of.
  lemma {:induction false} ConsumeCompletes(taker: Order, q: seq<Order>, id: OrderId)
    requires UniqueIds(q) && 0 <= taker.remaining
    requires forall i :: 0 <= i < |q| ==> 0 < q[i].remaining
    ensures var out := Consume(taker, q);
      multiset(out.completed)[id] == if HasId(q, id) && RemainingOf(out.rest, id) == 0 then 1 else 0
  {
    hide Consume, TakesInOrder, Leaves, Remnant, RemainingOf;
    var out := Consume(taker, q);
    ConsumeIsGreedy(taker, q, out);
    ConsumeLeavesRemnant(taker, q);
    FirstIds(q, out.completed, id);
    LeftIdsAreRest(q, out.rest, id);
  }

  lemma FirstIds(q: seq<Order>, ids: seq<OrderId>, id: OrderId)
    requires UniqueIds(q) && |ids| <= |q| && forall i :: 0 <= i < |ids| ==> ids[i] == q[i].id
    ensures multiset(ids)[id] == if exists i :: 0 <= i < |ids| && q[i].id == id then 1 else 0
  {
    assert forall i, j :: 0 <= i < j < |ids| ==> ids[i] == q[i].id && q[i].id != q[j].id;
    DistinctCount(ids, id);
  }

  lemma {:induction false} LeftIdsAreRest(q: seq<Order>, rest: seq<Order>, id: OrderId)
    requires Remnant(q, rest) && UniqueIds(q)
    ensures RemainingOf(rest, id) == 0 <==> !exists i :: |q| - |rest| <= i < |q| && q[i].id == id
  {
    var k := |q| - |rest|;
    assert forall i :: 0 <= i < |rest| ==> LeftOf(q[k + i], rest[i], i > 0);
    RemainingOfAbsent(rest, id);
    if exists i :: k <= i < |q| && q[i].id == id {
      var i :| k <= i < |q| && q[i].id == id;
      assert LeftOf(q[i], rest[i - k], i - k > 0);
    }
  }

  lemma {:induction false} HasIdSplit(q: seq<Order>, id: OrderId)
    requires q != []
    ensures HasId(q, id) <==> q[0].id == id || HasId(q[1..], id)
  {
    if HasId(q, id) && q[0].id != id {
      var i :| 0 <= i < |q| && q[i].id == id;
      assert q[1..][i - 1].id == id;
    }
    if HasId(q[1..], id) {
      var i :| 0 <= i < |q[1..]| && q[1..][i].id == id;
      assert q[i + 1].id == id;
    }
  }

  lemma {:induction false} ConsumeDropsAbsent(taker: Order, q: seq<Order>, id: OrderId)
    requires !HasId(q, id)
    ensures RemainingOf(Consume(taker, q).rest, id) == 0
    decreases |q|
  {
    RemainingOfMissing(q, id);
    if !(taker.IsFilled() || q == [] || !taker.Accepts(q[0].RestPrice())) {
      HasIdSplit(q, id);
      assert q[0].id != id;
      var traded := Min(taker.remaining, q[0].remaining);
      if traded == q[0].remaining {
        ConsumeDropsAbsent(taker.(remaining := taker.remaining - traded), q[1..], id);
      } else {
        var head := q[0].(remaining := q[0].remaining - traded);
        assert ([head] + q[1..])[1..] == q[1..];
        RemainingOfMissing(q[1..], id);
      }
    }
  }

  lemma {:induction false} RemainingOfMissing(q: seq<Order>, id: OrderId)
    requires !HasId(q, id)
    ensures RemainingOf(q, id) == 0
  {
    if q != [] {
      HasIdSplit(q, id);
      assert q[0].id != id;
      RemainingOfMissing(q[1..], id);
    }
  }

  // ---------- what every run keeps ----------

  // Every order's quantity is what it traded, what still rests and what was dropped.
  ghost predicate Conserved(e: Execution) {
    && (forall id :: id in e.placed ==>
          && e.placed[id].Places()
          && e.placed[id].quantity == FilledOf(e.fills, id) + Remaining(e.book, id) + DroppedOf(e, id))
    && (forall id :: id in e.dropped ==>
          id in e.placed && 0 <= e.dropped[id] && (0 < e.dropped[id] ==> Remaining(e.book, id) == 0))
  }

  // An order is reported complete once if it traded its whole quantity, and otherwise never.
  ghost predicate CompletedOnce(e: Execution) {
    forall id :: multiset(e.completed)[id] ==
      if id in e.placed && e.placed[id].Places() && FilledOf(e.fills, id) == e.placed[id].quantity then 1 else 0
  }

  // Resting orders are the limit orders that were placed, at their own side and price.
  ghost predicate BookIsPlaced(e: Execution) {
    && (forall i :: 0 <= i < |e.book.bids| ==> RestsAsPlaced(e.placed, Bid, e.book.bids[i]))
    && (forall i :: 0 <= i < |e.book.asks| ==> RestsAsPlaced(e.placed, Ask, e.book.asks[i]))
  }

  predicate RestsAsPlaced(placed: map<OrderId, Command>, side: Side, o: Order) {
    o.id in placed && placed[o.id] == AddLimit(o.id, side, o.RestPrice(), o.quantity)
  }

  // A trade is between a bid and an ask that were placed, at a price both accept.
  predicate TradesAsPlaced(placed: map<OrderId, Command>, f: Fill) {
    && 0 < f.quantity
    && f.buyId in placed && placed[f.buyId].Places() && placed[f.buyId].side.Bid? && placed[f.buyId].Admits(f.price)
    && f.sellId in placed && placed[f.sellId].Places() && placed[f.sellId].side.Ask? && placed[f.sellId].Admits(f.price)
  }

  ghost predicate FillsAsPlaced(e: Execution) {
    forall i :: 0 <= i < |e.fills| ==> TradesAsPlaced(e.placed, e.fills[i])
  }

  // No two fills are between the same two orders.
  ghost predicate DistinctPairs(fills: seq<Fill>) {
    forall i, j :: 0 <= i < j < |fills| ==>
      fills[i].buyId != fills[j].buyId || fills[i].sellId != fills[j].sellId
  }

  ghost predicate RunOk(e: Execution) {
    && BookOk(e.book) && BookIsPlaced(e) && FillsAsPlaced(e)
    && Conserved(e) && CompletedOnce(e) && DistinctPairs(e.fills)
  }

  function TakerOf(c: Command): Order
    requires c.Places()
  {
    if c.AddLimit? then NewLimit(c.id, c.side, c.price, c.quantity) else NewMarket(c.id, c.side, c.quantity)
  }

  function OutcomeOf(e: Execution, c: Command): Outcome
    requires c.Places()
  {
    Consume(TakerOf(c), e.book.On(c.side.Opposite()))
  }

  ghost predicate Admissible(e: Execution, c: Command) {
    c.Places() ==> 0 < c.quantity && c.id !in e.placed
  }

  lemma {:induction false} FreshIdIsUnknown(e: Execution, id: OrderId)
    requires BookIsPlaced(e) && FillsAsPlaced(e) && id !in e.placed
    ensures !InBook(e.book, id)
    ensures FilledOf(e.fills, id) == 0
  {
    FilledOfUnplaced(e.placed, e.fills, id);
    forall i | 0 <= i < |e.book.bids|
      ensures e.book.bids[i].id != id
    {
      assert RestsAsPlaced(e.placed, Bid, e.book.bids[i]);
    }
    forall i | 0 <= i < |e.book.asks|
      ensures e.book.asks[i].id != id
    {
      assert RestsAsPlaced(e.placed, Ask, e.book.asks[i]);
    }
  }

  lemma {:induction false} FilledOfUnplaced(placed: map<OrderId, Command>, fills: seq<Fill>, id: OrderId)
    requires forall i :: 0 <= i < |fills| ==> TradesAsPlaced(placed, fills[i])
    requires id !in placed
    ensures FilledOf(fills, id) == 0
  {
    if fills != [] {
      assert TradesAsPlaced(placed, fills[0]);
      FilledOfUnplaced(placed, fills[1..], id);
    }
  }

  // How placing an order moves quantities between the book, the fills and the floor.
  lemma {:induction false} PlaceMoves(e: Execution, c: Command, id: OrderId)
    requires BookOk(e.book) && c.Places() && 0 < c.quantity && !InBook(e.book, c.id)
    ensures var out := OutcomeOf(e, c);
      var e' := Step(e, c);
      && e'.fills == e.fills + out.fills
      && FilledOf(e'.fills, id) == FilledOf(e.fills, id) + FilledOf(out.fills, id)
      && (id != c.id ==> Remaining(e'.book, id) == Remaining(e.book, id) - FilledOf(out.fills, id))
      && (id == c.id ==> Remaining(e'.book, id) == (if c.AddLimit? then out.taker.remaining else 0))
      && (id == c.id ==> c.quantity == out.taker.remaining + FilledOf(out.fills, id))
      && 0 <= out.taker.remaining
  {
    hide Consume, Enqueue, FilledOf, RemainingOf, TakesInOrder, Exhausts, Leaves, Prioritized;
    var taker := TakerOf(c);
    var opposite, own := e.book.On(c.side.Opposite()), e.book.On(c.side);
    var out := OutcomeOf(e, c);
    assert SideOk(c.side, own) && SideOk(c.side.Opposite(), opposite);
    assert forall i :: 0 <= i < |opposite| ==> Resting(c.side.Opposite(), opposite[i]);
    ConsumeIsGreedy(taker, opposite, out);
    ConsumeConserves(taker, opposite, id);
    FilledOfAppend(e.fills, out.fills, id);
    if id == c.id {
      RemainingOfMissing(own, id);
      ConsumeDropsAbsent(taker, opposite, id);
    }
    if c.AddLimit? && !out.taker.IsFilled() {
      RemainingOfEnqueue(c.side, own, out.taker, id);
    }
  }

  lemma {:induction false} PlaceKeepsConserved(e: Execution, c: Command)
    requires RunOk(e) && c.Places() && Admissible(e, c)
    ensures Conserved(Step(e, c))
  {
    hide Consume, Enqueue, BookIsPlaced, FillsAsPlaced, DistinctPairs, CompletedOnce;
    var e' := Step(e, c);
    var out := OutcomeOf(e, c);
    FreshIdIsUnknown(e, c.id);
    StepKeepsBook(e, c);
    OutcomeIsGreedy(e, c);
    forall id | id in e'.placed
      ensures e'.placed[id].Places()
      ensures e'.placed[id].quantity == FilledOf(e'.fills, id) + Remaining(e'.book, id) + DroppedOf(e', id)
    {
      PlaceMoves(e, c, id);
    }
    forall id | id in e'.dropped
      ensures id in e'.placed && 0 <= e'.dropped[id] && (0 < e'.dropped[id] ==> Remaining(e'.book, id) == 0)
    {
      PlaceMoves(e, c, id);
      if id != c.id && 0 < e.dropped[id] {
        RemainingNeverNegative(e'.book, id);
        FilledNeverNegative(out.fills, id, TakerOf(c), e.book.On(c.side.Opposite()));
      }
    }
  }

  lemma {:induction false} OutcomeIsGreedy(e: Execution, c: Command)
    requires BookOk(e.book) && c.Places() && 0 < c.quantity
    ensures GreedyMatch(TakerOf(c), e.book.On(c.side.Opposite()), OutcomeOf(e, c))
  {
    var q := e.book.On(c.side.Opposite());
    assert forall i :: 0 <= i < |q| ==> Resting(c.side.Opposite(), q[i]);
    ConsumeIsGreedy(TakerOf(c), q, OutcomeOf(e, c));
  }

  lemma {:induction false} FilledNeverNegative(fills: seq<Fill>, id: OrderId, taker: Order, q: seq<Order>)
    requires TakesInOrder(taker, q, fills)
    ensures 0 <= FilledOf(fills, id)
  {
    assert forall i :: 0 <= i < |fills| ==> 0 < fills[i].quantity;
    FilledOfPositive(fills, id);
  }

  lemma {:induction false} FilledOfPositive(fills: seq<Fill>, id: OrderId)
    requires forall i :: 0 <= i < |fills| ==> 0 < fills[i].quantity
    ensures 0 <= FilledOf(fills, id)
  {
    if fills != [] {
      FilledOfPositive(fills[1..], id);
    }
  }

  lemma {:induction false} RemainingNeverNegative(b: Book, id: OrderId)
    requires BookOk(b)
    ensures 0 <= Remaining(b, id)
    ensures Remaining(b, id) == 0 <==> !InBook(b, id)
  {
    assert forall i :: 0 <= i < |b.bids| ==> Resting(Bid, b.bids[i]);
    assert forall i :: 0 <= i < |b.asks| ==> Resting(Ask, b.asks[i]);
    RemainingOfAbsent(b.bids, id);
    RemainingOfAbsent(b.asks, id);
  }

  lemma {:induction false} StepKeepsBook(e: Execution, c: Command)
    requires RunOk(e) && Admissible(e, c)
    ensures BookOk(Step(e, c).book)
  {
    match c
    case AddLimit(id, side, price, quantity) =>
      FreshIdIsUnknown(e, id);
      PlaceLimitKeepsBook(e.book, id, side, price, quantity);
    case AddMarket(id, side, quantity) =>
      PlaceMarketKeepsBook(e.book, id, side, quantity);
    case CancelId(id) =>
      CancelKeepsBook(e.book, id);
  }

  lemma {:induction false} PlaceReports(e: Execution, c: Command, id: OrderId)
    requires c.Places()
    ensures multiset(Step(e, c).completed)[id]
      == multiset(e.completed)[id] + multiset(OutcomeOf(e, c).completed)[id]
       + (if id == c.id && OutcomeOf(e, c).taker.IsFilled() then 1 else 0)
  {
    hide Consume, Enqueue, Order.IsFilled;
    var out := OutcomeOf(e, c);
    var own := if out.taker.IsFilled() then [c.id] else [];
    assert Step(e, c).completed == e.completed + (out.completed + own);
  }

  lemma {:induction false} PlaceCompletes(e: Execution, c: Command, id: OrderId)
    requires RunOk(e) && c.Places() && Admissible(e, c)
    ensures var e' := Step(e, c);
      multiset(e'.completed)[id] ==
        if id in e'.placed && e'.placed[id].Places() && FilledOf(e'.fills, id) == e'.placed[id].quantity then 1 else 0
  {
    hide Consume, BookIsPlaced, FillsAsPlaced, DistinctPairs, FilledOf, Enqueue;
    var out := OutcomeOf(e, c);
    PlaceSetup(e, c);
    PlaceReports(e, c, id);
    PlaceMoves(e, c, id);
    MatchingCompletes(e, c, id);
    assert Step(e, c).placed == e.placed[c.id := c];
    if id != c.id {
      PlaceLeavesOthers(e, c, id);
    }
  }

  lemma {:induction false} MatchingCompletes(e: Execution, c: Command, id: OrderId)
    requires BookOk(e.book) && c.Places() && 0 < c.quantity
    ensures multiset(OutcomeOf(e, c).completed)[id]
      == if HasId(e.book.On(c.side.Opposite()), id) && RemainingOf(OutcomeOf(e, c).rest, id) == 0 then 1 else 0
  {
    var q := e.book.On(c.side.Opposite());
    assert SideOk(c.side.Opposite(), q);
    assert forall i :: 0 <= i < |q| ==> Resting(c.side.Opposite(), q[i]);
    ConsumeCompletes(TakerOf(c), q, id);
  }

  // A resting order that was hit is either still there, reduced, or fully traded.
  lemma {:induction false} PlaceLeavesOthers(e: Execution, c: Command, id: OrderId)
    requires RunOk(e) && c.Places() && Admissible(e, c) && id != c.id
    ensures var q := e.book.On(c.side.Opposite());
      HasId(q, id) && RemainingOf(OutcomeOf(e, c).rest, id) == 0 <==>
      id in e.placed && FilledOf(e.fills, id) < e.placed[id].quantity
        && FilledOf(e.fills, id) + FilledOf(OutcomeOf(e, c).fills, id) == e.placed[id].quantity
    ensures id in e.placed ==> FilledOf(e.fills, id) <= e.placed[id].quantity
    ensures id in e.placed && FilledOf(e.fills, id) == e.placed[id].quantity ==> FilledOf(OutcomeOf(e, c).fills, id) == 0
  {
    hide Consume, Enqueue, DistinctPairs, CompletedOnce, FilledOf, RemainingOf, FillsAsPlaced, UniqueIds, Prioritized;
    RemainingNeverNegative(e.book, id);
    var out := OutcomeOf(e, c);
    var q, own := e.book.On(c.side.Opposite()), e.book.On(c.side);
    FreshIdIsUnknown(e, c.id);
    assert forall i :: 0 <= i < |q| ==> Resting(c.side.Opposite(), q[i]);
    assert forall i :: 0 <= i < |own| ==> Resting(c.side, own[i]);
    ConsumeConserves(TakerOf(c), q, id);
    RemainingOfAbsent(q, id);
    RemainingOfAbsent(own, id);
    OutcomeIsGreedy(e, c);
    FilledNeverNegative(out.fills, id, TakerOf(c), q);
    if HasId(q, id) {
      var i :| 0 <= i < |q| && q[i].id == id;
      assert RestsAsPlaced(e.placed, c.side.Opposite(), q[i]);
      assert !HasId(own, id);
      RestingIsUnfilled(e, id);
    } else {
      ConsumeDropsAbsent(TakerOf(c), q, id);
    }
  }

  lemma {:induction false} RestingIsUnfilled(e: Execution, id: OrderId)
    requires RunOk(e) && InBook(e.book, id) && id in e.placed
    ensures FilledOf(e.fills, id) < e.placed[id].quantity
    ensures DroppedOf(e, id) == 0
  {
    RemainingNeverNegative(e.book, id);
  }

  lemma {:induction false} RemnantRestsAsPlaced(placed: map<OrderId, Command>, side: Side, q: seq<Order>,
                                                rest: seq<Order>, i: nat)
    requires Remnant(q, rest) && i < |rest|
    requires forall k :: 0 <= k < |q| ==> RestsAsPlaced(placed, side, q[k])
    ensures RestsAsPlaced(placed, side, rest[i])
  {
    assert LeftOf(q[|q| - |rest| + i], rest[i], i > 0);
    assert RestsAsPlaced(placed, side, q[|q| - |rest| + i]);
  }

  lemma {:induction false} EnqueueRestsAsPlaced(placed: map<OrderId, Command>, side: Side, q: seq<Order>, o: Order)
    requires RestsAsPlaced(placed, side, o)
    requires forall k :: 0 <= k < |q| ==> RestsAsPlaced(placed, side, q[k])
    ensures forall k :: 0 <= k < |Enqueue(side, q, o)| ==> RestsAsPlaced(placed, side, Enqueue(side, q, o)[k])
  {
    var q' := Enqueue(side, q, o);
    EnqueueMembers(side, q, o);
    forall k | 0 <= k < |q'|
      ensures RestsAsPlaced(placed, side, q'[k])
    {
      assert q'[k] in q';
    }
  }

  lemma {:induction false} PlaceSetup(e: Execution, c: Command)
    requires RunOk(e) && c.Places() && Admissible(e, c)
    ensures !InBook(e.book, c.id) && FilledOf(e.fills, c.id) == 0
    ensures var out := OutcomeOf(e, c);
      && out.taker == TakerOf(c).(remaining := out.taker.remaining)
      && Remnant(e.book.On(c.side.Opposite()), out.rest)
  {
    var q := e.book.On(c.side.Opposite());
    FreshIdIsUnknown(e, c.id);
    OutcomeIsGreedy(e, c);
    assert forall i :: 0 <= i < |q| ==> Resting(c.side.Opposite(), q[i]);
    ConsumeLeavesRemnant(TakerOf(c), q);
  }

  lemma {:induction false} StillRestsAsPlaced(e: Execution, id: OrderId, c: Command, side: Side)
    requires BookIsPlaced(e) && id !in e.placed
    ensures forall k :: 0 <= k < |e.book.On(side)| ==> RestsAsPlaced(e.placed[id := c], side, e.book.On(side)[k])
  {
    forall k | 0 <= k < |e.book.On(side)|
      ensures RestsAsPlaced(e.placed[id := c], side, e.book.On(side)[k])
    {
      assert RestsAsPlaced(e.placed, side, e.book.On(side)[k]);
    }
  }

  lemma {:induction false} PlaceKeepsBookPlaced(e: Execution, c: Command)
    requires RunOk(e) && c.Places() && Admissible(e, c)
    ensures BookIsPlaced(Step(e, c))
  {
    hide Consume, BookOk, FillsAsPlaced, Conserved, CompletedOnce, DistinctPairs, Enqueue;
    var e' := Step(e, c);
    var taker, out := TakerOf(c), OutcomeOf(e, c);
    var side := c.side.Opposite();
    var q, own := e.book.On(side), e.book.On(c.side);
    PlaceSetup(e, c);
    StillRestsAsPlaced(e, c.id, c, side);
    StillRestsAsPlaced(e, c.id, c, c.side);
    forall i | 0 <= i < |out.rest|
      ensures RestsAsPlaced(e'.placed, side, out.rest[i])
    {
      RemnantRestsAsPlaced(e'.placed, side, q, out.rest, i);
    }
    if c.AddLimit? && !out.taker.IsFilled() {
      EnqueueRestsAsPlaced(e'.placed, c.side, own, out.taker);
    }
  }

  // A new fill is between the command that was just placed and an order that was there.
  lemma {:induction false} NewFillTradesAsPlaced(placed: map<OrderId, Command>, c: Command, q: seq<Order>,
                                                 fills: seq<Fill>, i: nat)
    requires c.Places() && c.id !in placed
    requires TakesInOrder(TakerOf(c), q, fills) && i < |fills|
    requires forall k :: 0 <= k < |q| ==> RestsAsPlaced(placed, c.side.Opposite(), q[k])
    ensures TradesAsPlaced(placed[c.id := c], fills[i])
    ensures fills[i] == FillBetween(TakerOf(c), q[i], q[i].RestPrice(), fills[i].quantity)
  {
    assert RestsAsPlaced(placed, c.side.Opposite(), q[i]);
    assert TakerOf(c).Accepts(q[i].RestPrice());
  }

  lemma {:induction false} FillsExtend(placed: map<OrderId, Command>, c: Command, q: seq<Order>,
                                       before: seq<Fill>, fills: seq<Fill>)
    requires c.Places() && c.id !in placed && UniqueIds(q)
    requires forall i :: 0 <= i < |before| ==> TradesAsPlaced(placed, before[i])
    requires TakesInOrder(TakerOf(c), q, fills) && DistinctPairs(before)
    requires forall k :: 0 <= k < |q| ==> RestsAsPlaced(placed, c.side.Opposite(), q[k])
    ensures forall i :: 0 <= i < |before + fills| ==> TradesAsPlaced(placed[c.id := c], (before + fills)[i])
    ensures DistinctPairs(before + fills)
  {
    var n, all := |before|, before + fills;
    forall i | 0 <= i < |fills|
      ensures TradesAsPlaced(placed[c.id := c], fills[i])
      ensures fills[i] == FillBetween(TakerOf(c), q[i], q[i].RestPrice(), fills[i].quantity)
    {
      NewFillTradesAsPlaced(placed, c, q, fills, i);
    }
    hide TakesInOrder, RestsAsPlaced;
    forall i, j | 0 <= i < j < |all|
      ensures all[i].buyId != all[j].buyId || all[i].sellId != all[j].sellId
    {
      if i < n <= j {
        assert TradesAsPlaced(placed, before[i]);
      } else if n <= i {
        assert q[i - n].id != q[j - n].id;
      }
    }
  }

  lemma {:induction false} PlaceKeepsFills(e: Execution, c: Command)
    requires RunOk(e) && c.Places() && Admissible(e, c)
    ensures FillsAsPlaced(Step(e, c)) && DistinctPairs(Step(e, c).fills)
  {
    hide Conserved, CompletedOnce, DistinctPairs, Consume, Enqueue, TradesAsPlaced, Exhausts, Leaves, TakesInOrder;
    OutcomeIsGreedy(e, c);
    FillsExtend(e.placed, c, e.book.On(c.side.Opposite()), e.fills, OutcomeOf(e, c).fills);
    assert Step(e, c).fills == e.fills + OutcomeOf(e, c).fills;
  }

  lemma {:induction false} CancelStep(e: Execution, c: Command)
    requires RunOk(e) && c.CancelId?
    ensures RunOk(Step(e, c))
  {
    var e', cancelled := Step(e, c), c.cancelId;
    StepKeepsBook(e, c);
    WithoutKeepsSide(Bid, e.book.bids, cancelled);
    WithoutKeepsSide(Ask, e.book.asks, cancelled);
    assert BookIsPlaced(e') by {
      forall i | 0 <= i < |e'.book.bids|
        ensures RestsAsPlaced(e.placed, Bid, e'.book.bids[i])
      {
        assert e'.book.bids[i] in e'.book.bids;
      }
      forall i | 0 <= i < |e'.book.asks|
        ensures RestsAsPlaced(e.placed, Ask, e'.book.asks[i])
      {
        assert e'.book.asks[i] in e'.book.asks;
      }
    }
    CancelKeepsConserved(e, cancelled);
  }

  lemma {:induction false} CancelKeepsConserved(e: Execution, cancelled: OrderId)
    requires RunOk(e)
    ensures Conserved(Step(e, CancelId(cancelled)))
  {
    var e' := Step(e, CancelId(cancelled));
    RemainingNeverNegative(e.book, cancelled);
    if cancelled !in e.placed {
      FreshIdIsUnknown(e, cancelled);
    }
    forall id | id in e'.placed
      ensures e'.placed[id].quantity == FilledOf(e'.fills, id) + Remaining(e'.book, id) + DroppedOf(e', id)
    {
      RemainingOfWithout(e.book.bids, cancelled, id);
      RemainingOfWithout(e.book.asks, cancelled, id);
    }
    forall id | id in e'.dropped
      ensures id in e'.placed && 0 <= e'.dropped[id] && (0 < e'.dropped[id] ==> Remaining(e'.book, id) == 0)
    {
      RemainingOfWithout(e.book.bids, cancelled, id);
      RemainingOfWithout(e.book.asks, cancelled, id);
    }
  }

  lemma {:induction false} StepKeepsRunOk(e: Execution, c: Command)
    requires RunOk(e) && Admissible(e, c)
    ensures RunOk(Step(e, c))
  {
    if c.CancelId? {
      CancelStep(e, c);
    } else {
      StepKeepsBook(e, c);
      PlaceKeepsBookPlaced(e, c);
      PlaceKeepsFills(e, c);
      PlaceKeepsConserved(e, c);
      forall id
        ensures multiset(Step(e, c).completed)[id] ==
          if id in Step(e, c).placed && Step(e, c).placed[id].Places()
             && FilledOf(Step(e, c).fills, id) == Step(e, c).placed[id].quantity then 1 else 0
      {
        PlaceCompletes(e, c, id);
      }
    }
  }

  lemma {:induction false} PlacedIdsWerePlaced(cs: seq<Command>)
    ensures forall id :: id in Run(cs).placed ==> exists i :: 0 <= i < |cs| && cs[i].Places() && cs[i].id == id
  {
    if cs != [] {
      var earlier := cs[..|cs| - 1];
      PlacedIdsWerePlaced(earlier);
      forall id | id in Run(cs).placed
        ensures exists i :: 0 <= i < |cs| && cs[i].Places() && cs[i].id == id
      {
        if id in Run(earlier).placed {
          var i :| 0 <= i < |earlier| && earlier[i].Places() && earlier[i].id == id;
          assert cs[i].Places() && cs[i].id == id;
        } else {
          assert cs[|cs| - 1].Places() && cs[|cs| - 1].id == id;
        }
      }
    }
  }

  lemma {:induction false} LastIsAdmissible(cs: seq<Command>)
    requires FreshCommands(cs) && cs != []
    ensures FreshCommands(cs[..|cs| - 1])
    ensures Admissible(Run(cs[..|cs| - 1]), cs[|cs| - 1])
  {
    PlacedIdsWerePlaced(cs[..|cs| - 1]);
  }

  // Every run keeps the book sorted, positive and uncrossed, trades each pair at most once,
  // conserves every order's quantity and completes every fully traded order exactly once.
  lemma {:induction false} EveryRunIsOk(cs: seq<Command>)
    requires FreshCommands(cs)
    ensures RunOk(Run(cs))
  {
    if cs != [] {
      LastIsAdmissible(cs);
      EveryRunIsOk(cs[..|cs| - 1]);
      StepKeepsRunOk(Run(cs[..|cs| - 1]), cs[|cs| - 1]);
    } else {
      assert forall id :: multiset(START.completed)[id] == 0;
    }
  }

  lemma {:induction false} PlacedCommandIsKnown(cs: seq<Command>, i: nat)
    requires FreshCommands(cs) && i < |cs| && cs[i].Places()
    ensures cs[i].id in Run(cs).placed && Run(cs).placed[cs[i].id] == cs[i]
  {
    var n := |cs| - 1;
    if i < n {
      assert FreshCommands(cs[..n]);
      PlacedCommandIsKnown(cs[..n], i);
      assert cs[n].Places() ==> cs[n].id != cs[i].id;
    }
  }

  // The life of one order, in terms of the commands alone.
  lemma {:induction false} OrderLifecycle(cs: seq<Command>, i: nat)
    requires FreshCommands(cs) && i < |cs| && cs[i].Places()
    ensures var e, id := Run(cs), cs[i].id;
      && cs[i].quantity == FilledOf(e.fills, id) + Remaining(e.book, id) + DroppedOf(e, id)
      && 0 <= FilledOf(e.fills, id) && 0 <= Remaining(e.book, id) && 0 <= DroppedOf(e, id)
      && (Remaining(e.book, id) > 0 <==> InBook(e.book, id))
      && (InBook(e.book, id) ==> DroppedOf(e, id) == 0)
      && multiset(e.completed)[id] == (if FilledOf(e.fills, id) == cs[i].quantity then 1 else 0)
  {
    var e := Run(cs);
    EveryRunIsOk(cs);
    PlacedCommandIsKnown(cs, i);
    RemainingNeverNegative(e.book, cs[i].id);
    assert forall k :: 0 <= k < |e.fills| ==> TradesAsPlaced(e.placed, e.fills[k]) && 0 < e.fills[k].quantity;
    FilledOfPositive(e.fills, cs[i].id);
  }

  lemma {:induction false} AdmissibleNext(commands: seq<Command>, i: nat)
    requires FreshCommands(commands) && i < |commands|
    ensures Run(commands[..i + 1]) == Step(Run(commands[..i]), commands[i])
    ensures Admissible(Run(commands[..i]), commands[i])
    ensures commands[i].Places() ==> 0 < commands[i].quantity && !InBook(Run(commands[..i]).book, commands[i].id)
  {
    var now := commands[..i + 1];
    assert now[..|now| - 1] == commands[..i];
    assert FreshCommands(now);
    LastIsAdmissible(now);
    EveryRunIsOk(commands[..i]);
    if commands[i].Places() {
      FreshIdIsUnknown(Run(commands[..i]), commands[i].id);
    }
  }

  function LimitOfCommand(c: Command): Option<Price> {
    if c.AddLimit? then Some(c.price) else None
  }

  // What an order takes when it is placed in a run: all that the other side offers at its limit,
  // a market order whatever there is, up to its quantity. The rest of a limit order rests, the
  // rest of a market order is dropped.
  lemma {:induction false} PlacementTakes(cs: seq<Command>, i: nat)
    requires FreshCommands(cs) && i < |cs| && cs[i].Places()
    ensures var before, after, c := Run(cs[..i]), Run(cs[..i + 1]), cs[i];
      var taken := Min(c.quantity, Offered(c.side, LimitOfCommand(c), before.book.On(c.side.Opposite())));
      && before.fills <= after.fills && FillTotal(after.fills[|before.fills|..]) == taken
      && FilledOf(after.fills, c.id) == taken
      && Remaining(after.book, c.id) == (if c.AddLimit? then c.quantity - taken else 0)
      && DroppedOf(after, c.id) == (if c.AddLimit? then 0 else c.quantity - taken)
  {
    hide FreshCommands, Consume, RunOk, FilledOf, Remaining, Offered;
    var before, c := Run(cs[..i]), cs[i];
    AdmissibleNext(cs, i);
    PrefixIsFresh(cs, i);
    EveryRunIsOk(cs[..i]);
    assert c.Places() && 0 < c.quantity && c.id !in before.placed;
    PlaceTakes(before, c);
  }

  lemma {:induction false} PlaceTakes(e: Execution, c: Command)
    requires RunOk(e) && c.Places() && 0 < c.quantity && c.id !in e.placed
    ensures var taken := Min(c.quantity, Offered(c.side, LimitOfCommand(c), e.book.On(c.side.Opposite())));
      var after := Step(e, c);
      && e.fills <= after.fills && FillTotal(after.fills[|e.fills|..]) == taken
      && FilledOf(after.fills, c.id) == taken
      && Remaining(after.book, c.id) == (if c.AddLimit? then c.quantity - taken else 0)
      && DroppedOf(after, c.id) == (if c.AddLimit? then 0 else c.quantity - taken)
  {
    hide Consume, DistinctPairs, CompletedOnce, FilledOf, Remaining, Offered, Enqueue;
    FreshIdIsUnknown(e, c.id);
    PlaceMoves(e, c, c.id);
    var q := e.book.On(c.side.Opposite());
    assert SideOk(c.side.Opposite(), q);
    ConsumeTakes(TakerOf(c), q);
    assert Step(e, c).fills[|e.fills|..] == OutcomeOf(e, c).fills;
  }

  lemma PrefixIsFresh(cs: seq<Command>, i: nat)
    requires FreshCommands(cs) && i <= |cs|
    ensures FreshCommands(cs[..i])
  {
  }

  // ---------- settlement keys ----------

  // Order ids are UUIDs.
  ghost predicate UuidCommands(cs: seq<Command>) {
    forall i :: 0 <= i < |cs| && cs[i].Places() ==> IsUuid(cs[i].id)
  }

  lemma FilledIdsAreUuids(cs: seq<Command>, i: nat)
    requires FreshCommands(cs) && UuidCommands(cs) && i < |Run(cs).fills|
    ensures IsUuid(Run(cs).fills[i].buyId) && IsUuid(Run(cs).fills[i].sellId)
  {
    EveryRunIsOk(cs);
    PlacedIdsWerePlaced(cs);
    var f := Run(cs).fills[i];
    assert TradesAsPlaced(Run(cs).placed, f);
    hide IsUuid, Run;
    var j :| 0 <= j < |cs| && cs[j].Places() && cs[j].id == f.buyId;
    var k :| 0 <= k < |cs| && cs[k].Places() && cs[k].id == f.sellId;
  }

  // Two fills of a run never get the same idempotency text, whatever timestamps they are
  // stamped with.
  lemma KeysNeverClash(cs: seq<Command>, i: nat, j: nat, t: int, u: int)
    requires FreshCommands(cs) && UuidCommands(cs)
    requires i < j < |Run(cs).fills|
    ensures var f, g := Run(cs).fills[i], Run(cs).fills[j];
      KeyText(f.buyId, f.sellId, t) != KeyText(g.buyId, g.sellId, u)
  {
    hide KeyText, IsUuid;
    EveryRunIsOk(cs);
    FilledIdsAreUuids(cs, i);
    FilledIdsAreUuids(cs, j);
    var f, g := Run(cs).fills[i], Run(cs).fills[j];
    KeyTextDetermines(f.buyId, f.sellId, t, g.buyId, g.sellId, u);
  }

  // ---------- runs over arrivals ----------

  datatype ArrivalExecution = ArrivalExecution(arrivals: seq<Order>, fills: seq<Fill>, completed: seq<OrderId>)

  ghost function ArrivalStep(e: ArrivalExecution, c: Command): ArrivalExecution {
    match c
    case AddLimit(id, side, price, quantity) =>
      var p := ArrivalLimit(e.arrivals, id, side, price, quantity);
      ArrivalExecution(p.arrivals, e.fills + p.result.fills, e.completed + p.result.completed)
    case AddMarket(id, side, quantity) =>
      var p := ArrivalMarket(e.arrivals, id, side, quantity);
      ArrivalExecution(p.arrivals, e.fills + p.result.fills, e.completed + p.result.completed)
    case CancelId(id) =>
      ArrivalExecution(Without(e.arrivals, id), e.fills, e.completed)
  }

  ghost function ArrivalRun(cs: seq<Command>): ArrivalExecution {
    if cs == [] then ArrivalExecution([], [], []) else ArrivalStep(ArrivalRun(cs[..|cs| - 1]), cs[|cs| - 1])
  }

  // Any run reports exactly what serving the earliest best-priced arrival reports, and the
  // book it leaves is those arrivals, sorted.
  lemma {:induction false} RunServesArrivals(cs: seq<Command>)
    ensures Run(cs).book == Sorted(ArrivalRun(cs).arrivals)
    ensures Run(cs).fills == ArrivalRun(cs).fills
    ensures Run(cs).completed == ArrivalRun(cs).completed
  {
    if cs != [] {
      var earlier := cs[..|cs| - 1];
      var arrivals := ArrivalRun(earlier).arrivals;
      RunServesArrivals(earlier);
      match cs[|cs| - 1]
      case AddLimit(id, side, price, quantity) => LimitRefines(arrivals, id, side, price, quantity);
      case AddMarket(id, side, quantity) => MarketRefines(arrivals, id, side, quantity);
      case CancelId(id) => CancelRefines(arrivals, id);
    }
  }
}
