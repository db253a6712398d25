// The matching engine's order book: levels per side, and a second copy of every resting
// order in a hash map. Its operations are verified against the plain book.
module MatchingEngine {
  import opened Common
  import opened Orders
  import opened FlatBook
  import opened Taking
  import opened PriceLevels

  // The hash map holds exactly the resting orders of `p` and `q`, each with the same contents.
  ghost predicate Indexes(index: map<OrderId, Order>, p: seq<Order>, q: seq<Order>) {
    && (forall i :: 0 <= i < |p| ==> p[i].id in index && index[p[i].id] == p[i])
    && (forall i :: 0 <= i < |q| ==> q[i].id in index && index[q[i].id] == q[i])
    && (forall id :: id in index ==> HasId(p, id) || HasId(q, id))
  }

  // The state of matching between two trades: `q` is what is left of the opposite side,
  // `own` the untouched side.
  ghost predicate Live(index: map<OrderId, Order>, q: seq<Order>, own: seq<Order>) {
    Indexes(index, q, own) && UniqueIds(q) && DisjointIds(q, own)
  }

  ghost function Joined(fills: seq<Fill>, completed: seq<OrderId>, out: Outcome): Outcome {
    Outcome(out.taker, out.rest, fills + out.fills, completed + out.completed)
  }

  // The head of the opposite list traded everything it had.
  lemma {:induction false} HeadLeaves(index: map<OrderId, Order>, q: seq<Order>, own: seq<Order>)
    requires Live(index, q, own) && q != []
    ensures Live(index - {q[0].id}, q[1..], own)
  {
    var index' := index - {q[0].id};
    forall id | id in index'
      ensures HasId(q[1..], id) || HasId(own, id)
    {
      if HasId(q, id) {
        var i :| 0 <= i < |q| && q[i].id == id;
        assert q[1..][i - 1].id == id;
      }
    }
  }

  // The head of the opposite list traded a part of what it had.
  lemma {:induction false} HeadShrinks(index: map<OrderId, Order>, q: seq<Order>, own: seq<Order>, head: Order)
    requires Live(index, q, own) && q != [] && head.id == q[0].id
    ensures Live(index[head.id := head], [head] + q[1..], own)
  {
    var q' := [head] + q[1..];
    var index' := index[head.id := head];
    forall id | id in index'
      ensures HasId(q', id) || HasId(own, id)
    {
      if id == head.id {
        assert q'[0].id == id;
      } else if HasId(q, id) {
        var i :| 0 <= i < |q| && q[i].id == id;
        assert q'[i].id == id;
      }
    }
  }

  // The outcome of the matching still to come is known from its start.
  ghost predicate Tracks(goal: Outcome, order: Order, q: seq<Order>, fills: seq<Fill>, completed: seq<OrderId>) {
    Joined(fills, completed, Consume(order, q)) == goal
  }

  // One trade with the head `q[0]`, which leaves the list or stays in it, reduced.
  ghost predicate Trade(order: Order, order': Order, q: seq<Order>, q': seq<Order>, fill: Fill) {
    && q != []
    && var traded := Min(order.remaining, q[0].remaining);
    && order' == order.(remaining := order.remaining - traded)
    && fill == FillBetween(order, q[0], q[0].RestPrice(), traded)
    && q' == if q[0].remaining == traded then q[1..]
             else [q[0].(remaining := q[0].remaining - traded)] + q[1..]
  }

  lemma {:induction false} TradeTracks(goal: Outcome, order: Order, order': Order, q: seq<Order>, q': seq<Order>,
                                       fills: seq<Fill>, fill: Fill, completed: seq<OrderId>, completed': seq<OrderId>)
    requires Tracks(goal, order, q, fills, completed)
    requires q != [] && 0 < q[0].remaining && 0 < order.remaining && order.Accepts(q[0].RestPrice())
    requires Trade(order, order', q, q', fill)
    requires completed' == if q[0].remaining <= order.remaining then completed + [q[0].id] else completed
    ensures Tracks(goal, order', q', fills + [fill], completed')
  {
    if q[0].remaining <= order.remaining {
      var later := Consume(order', q');
      assert fills + ([fill] + later.fills) == fills + [fill] + later.fills;
      assert completed + ([q[0].id] + later.completed) == completed' + later.completed;
    }
  }

  lemma {:induction false} TradeKeepsLive(order: Order, order': Order, q: seq<Order>, q': seq<Order>, fill: Fill,
                                          index: map<OrderId, Order>, own: seq<Order>)
    requires Live(index, q, own) && q != [] && Trade(order, order', q, q', fill)
    ensures q[0].remaining <= order.remaining ==> Live(index - {q[0].id}, q', own)
    ensures order.remaining < q[0].remaining ==> Live(index[q[0].id := q'[0]], q', own)
  {
    if q[0].remaining <= order.remaining {
      HeadLeaves(index, q, own);
    } else {
      HeadShrinks(index, q, own, q'[0]);
    }
  }

  // The state between two trades with the queue of one level. `tail` is the opposite side
  // behind this level.
  ghost predicate LevelState(goal: Outcome, order: Order, price: Price, queue: seq<Order>, total: Quantity,
                             index: map<OrderId, Order>, tail: seq<Order>, own: seq<Order>,
                             fills: seq<Fill>, completed: seq<OrderId>)
  {
    && 0 <= order.remaining
    && QueueOk(order.side.Opposite(), price, queue)
    && total == TotalRemaining(queue)
    && Live(index, queue + tail, own)
    && Tracks(goal, order, queue + tail, fills, completed)
  }

  // One trade with the head of the queue goes from one such state to the next.
  lemma {:induction false} LevelTrade(goal: Outcome, order: Order, order': Order, price: Price,
                                      queue: seq<Order>, queue': seq<Order>, total: Quantity,
                                      index: map<OrderId, Order>, index': map<OrderId, Order>,
                                      tail: seq<Order>, own: seq<Order>,
                                      fills: seq<Fill>, fill: Fill, completed: seq<OrderId>, completed': seq<OrderId>)
    requires LevelState(goal, order, price, queue, total, index, tail, own, fills, completed)
    requires queue != [] && 0 < order.remaining && order.Accepts(price)
    requires Trade(order, order', queue, queue', fill)
    requires queue[0].remaining <= order.remaining ==>
      index' == index - {queue[0].id} && completed' == completed + [queue[0].id]
    requires order.remaining < queue[0].remaining ==> index' == index[queue[0].id := queue'[0]] && completed' == completed
    ensures LevelState(goal, order', price, queue', total - fill.quantity, index', tail, own, fills + [fill], completed')
  {
    hide Live, Tracks;
    var q, q' := queue + tail, queue' + tail;
    assert Resting(order.side.Opposite(), queue[0]) && queue[0].RestPrice() == price;
    assert q[0] == queue[0] && q[1..] == queue[1..] + tail;
    assert Trade(order, order', q, q', fill);
    TradeTracks(goal, order, order', q, q', fills, fill, completed, completed');
    TradeKeepsLive(order, order', q, q', fill, index, own);
  }

  lemma LevelHead(goal: Outcome, order: Order, level: PriceLevel, index: map<OrderId, Order>,
                  tail: seq<Order>, own: seq<Order>, fills: seq<Fill>, completed: seq<OrderId>)
    requires LevelState(goal, order, level.price, level.orders, level.totalQuantity, index, tail, own, fills, completed)
    requires level.orders != []
    ensures 0 < level.orders[0].remaining && level.orders[0].RestPrice() == level.price && 0 <= order.remaining
  {
    assert Resting(order.side.Opposite(), level.orders[0]);
  }

  // The inner loop of matching: trade with the front of one level until the level or the
  // order is used up.
  method MatchLevel(incoming: Order, initial: PriceLevel, initialIndex: map<OrderId, Order>,
                    earlierFills: seq<Fill>, earlierCompleted: seq<OrderId>,
                    ghost tail: seq<Order>, ghost own: seq<Order>, ghost goal: Outcome)
    returns (order: Order, level: PriceLevel, index: map<OrderId, Order>, fills: seq<Fill>, completed: seq<OrderId>)
    requires 0 < incoming.remaining && incoming.Accepts(initial.price)
    requires LevelState(goal, incoming, initial.price, initial.orders, initial.totalQuantity, initialIndex,
                        tail, own, earlierFills, earlierCompleted)
    ensures LevelState(goal, order, level.price, level.orders, level.totalQuantity, index, tail, own, fills, completed)
    ensures order == incoming.(remaining := order.remaining) && level.price == initial.price
    ensures level.orders == [] || order.IsFilled()
  {
    hide LevelState;
    order, level, index, fills, completed := incoming, initial, initialIndex, earlierFills, earlierCompleted;
    while level.orders != [] && !order.IsFilled()
      invariant order == incoming.(remaining := order.remaining) && 0 <= order.remaining
      invariant level.price == initial.price
      invariant LevelState(goal, order, level.price, level.orders, level.totalQuantity, index, tail, own, fills, completed)
      decreases order.remaining
    {
      var oppositeOrder := level.orders[0];
      var waiting := level.orders[1..];
      LevelHead(goal, order, level, index, tail, own, fills, completed);
      ghost var order0, level0, index0, fills0, completed0 := order, level, index, fills, completed;
      var fillQuantity := Min(order.remaining, oppositeOrder.remaining);
      var fill := FillBetween(order, oppositeOrder, level.price, fillQuantity);

      order := order.(remaining := order.remaining - fillQuantity);
      oppositeOrder := oppositeOrder.(remaining := oppositeOrder.remaining - fillQuantity);
      fills := fills + [fill];
      if oppositeOrder.IsFilled() {
        completed := completed + [oppositeOrder.id];
        index := index - {oppositeOrder.id};
        level := PriceLevel(level.price, waiting, level.totalQuantity - fillQuantity);
      } else {
        level := PriceLevel(level.price, [oppositeOrder] + waiting, level.totalQuantity - fillQuantity);
        index := index[oppositeOrder.id := oppositeOrder];
      }
      LevelTrade(goal, order0, order, level.price, level0.orders, level.orders, level0.totalQuantity,
                 index0, index, tail, own, fills0, fill, completed0, completed);
    }
  }

  // Matching a level whose first order is not acceptable, or a filled order, changes nothing.
  lemma {:induction false} MatchingIsOver(goal: Outcome, order: Order, q: seq<Order>,
                                          fills: seq<Fill>, completed: seq<OrderId>)
    requires Tracks(goal, order, q, fills, completed)
    requires order.IsFilled() || q == [] || !order.Accepts(q[0].RestPrice())
    ensures goal == Outcome(order, q, fills, completed)
  {
    assert fills + [] == fills;
    assert completed + [] == completed;
  }

  lemma {:induction false} RemnantKeepsLevel(levels: Levels, ks: seq<Price>, k: nat, level: PriceLevel)
    requires k < |ks| && ks[k] in levels && ks[k] !in ks[k + 1..]
    ensures Flatten(levels[ks[k] := level], ks[k..]) == level.orders + Flatten(levels, ks[k + 1..])
    ensures Flatten(levels[ks[k] := level], ks[k + 1..]) == Flatten(levels, ks[k + 1..])
    ensures Flatten(levels, ks[k..]) == levels[ks[k]].orders + Flatten(levels, ks[k + 1..])
  {
    assert ks[k..][0] == ks[k] && ks[k..][1..] == ks[k + 1..];
    FlattenAgrees(levels, levels[ks[k] := level], ks[k + 1..]);
  }

  lemma {:induction false} KeysSplit(side: Side, ks: seq<Price>, k: nat)
    requires StrictlyOrdered(side, ks) && k <= |ks|
    ensures StrictlyOrdered(side, ks[k..])
    ensures forall p :: p in ks[..k] ==> p !in ks[k..]
  {
    forall i, j | 0 <= i < j < |ks[k..]|
      ensures Better(side, ks[k..][i], ks[k..][j])
    {
      assert Better(side, ks[k + i], ks[k + j]);
    }
    forall i, j | 0 <= i < k <= j < |ks|
      ensures ks[i] != ks[j]
    {
      assert Better(side, ks[i], ks[j]);
    }
  }

  // Dropping the emptied levels leaves the flattened list of the others.
  lemma {:induction false} DropLevels(side: Side, levels: Levels, ks: seq<Price>, k: nat, left: Levels)
    requires KeyList(side, ks, levels.Keys) && k <= |ks|
    requires left == levels - (set p | p in ks[..k])
    ensures KeyList(side, ks[k..], left.Keys)
    ensures Flat(side, left) == Flatten(levels, ks[k..])
  {
    KeysSplit(side, ks, k);
    assert ks == ks[..k] + ks[k..];
    assert forall p :: p in ks <==> p in ks[..k] || p in ks[k..];
    FlatByKeys(side, left, ks[k..]);
    FlattenAgrees(levels, left, ks[k..]);
  }

  lemma LevelsLeftOk(side: Side, levels: Levels, ks: seq<Price>, k: nat, left: Levels)
    requires KeyList(side, ks, levels.Keys) && k <= |ks|
    requires left == levels - (set p | p in ks[..k])
    requires forall j :: k <= j < |ks| ==> ks[j] in levels && LevelOk(side, ks[j], levels[ks[j]])
    ensures LevelsOk(side, left)
  {
    hide LevelOk, StrictlyOrdered;
    assert forall j :: 0 <= j < k ==> ks[j] in ks[..k];
    forall p | p in left
      ensures LevelOk(side, p, left[p])
    {
      assert p in ks && p !in ks[..k];
      var j :| 0 <= j < |ks| && ks[j] == p;
    }
  }

  // The state of matching between two levels: the first `gone` keys have empty levels.
  ghost predicate Sweep(goal: Outcome, incoming: Order, order: Order, side: Side, levels: Levels, ks: seq<Price>,
                        gone: nat, index: map<OrderId, Order>, own: seq<Order>,
                        fills: seq<Fill>, completed: seq<OrderId>)
  {
    && KeyList(side, ks, levels.Keys) && gone <= |ks|
    && (forall j :: gone <= j < |ks| ==> ks[j] in levels && LevelOk(side, ks[j], levels[ks[j]]))
    && order == incoming.(remaining := order.remaining) && 0 <= order.remaining
    && Live(index, Flatten(levels, ks[gone..]), own)
    && Tracks(goal, order, Flatten(levels, ks[gone..]), fills, completed)
  }

  lemma {:induction false} SweepBegins(goal: Outcome, incoming: Order, side: Side, levels: Levels,
                                       index: map<OrderId, Order>, own: seq<Order>)
    requires goal == Consume(incoming, Flat(side, levels)) && 0 <= incoming.remaining
    requires LevelsOk(side, levels) && Live(index, Flat(side, levels), own)
    ensures Sweep(goal, incoming, incoming, side, levels, BestFirst(side, levels.Keys), 0, index, own, [], [])
  {
    hide Live, Consume;
    var ks := BestFirst(side, levels.Keys);
    BestFirstIsKeyList(side, levels.Keys);
    assert ks[0..] == ks;
    forall j | 0 <= j < |ks|
      ensures ks[j] in levels && LevelOk(side, ks[j], levels[ks[j]])
    {
      assert ks[j] in ks;
    }
    hide LevelsOk, LevelOk, BestFirst;
    assert [] + goal.fills == goal.fills;
    assert [] + goal.completed == goal.completed;
  }

  // Before a level is matched.
  lemma {:induction false} SweepEnters(goal: Outcome, incoming: Order, order: Order, side: Side, levels: Levels,
                                       ks: seq<Price>, k: nat, index: map<OrderId, Order>, own: seq<Order>,
                                       fills: seq<Fill>, completed: seq<OrderId>)
    requires Sweep(goal, incoming, order, side, levels, ks, k, index, own, fills, completed) && k < |ks|
    ensures ks[k] in levels && LevelOk(side, ks[k], levels[ks[k]])
    ensures levels[ks[k]].price == ks[k]
    ensures order == incoming.(remaining := order.remaining) && 0 <= order.remaining
    ensures side == order.side.Opposite() ==>
      LevelState(goal, order, ks[k], levels[ks[k]].orders, levels[ks[k]].totalQuantity, index,
                 Flatten(levels, ks[k + 1..]), own, fills, completed)
  {
    KeyAppearsOnce(side, ks, k);
    assert ks[k] in ks;
    RemnantKeepsLevel(levels, ks, k, levels[ks[k]]);
  }

  // After it, with what is left of the level written back.
  lemma {:induction false} SweepLeaves(goal: Outcome, incoming: Order, order0: Order, order: Order,
                                       side: Side, levels: Levels, ks: seq<Price>, k: nat,
                                       index0: map<OrderId, Order>, index: map<OrderId, Order>, own: seq<Order>,
                                       fills0: seq<Fill>, fills: seq<Fill>,
                                       completed0: seq<OrderId>, completed: seq<OrderId>, level: PriceLevel)
    requires Sweep(goal, incoming, order0, side, levels, ks, k, index0, own, fills0, completed0) && k < |ks|
    requires order == order0.(remaining := order.remaining)
    requires side == order.side.Opposite() && level.price == ks[k]
    requires LevelState(goal, order, ks[k], level.orders, level.totalQuantity, index,
                        Flatten(levels, ks[k + 1..]), own, fills, completed)
    ensures var levels' := levels[ks[k] := level];
      Sweep(goal, incoming, order, side, levels', ks, if level.orders == [] then k + 1 else k, index, own, fills, completed)
  {
    hide Live, Tracks, StrictlyOrdered, Consume, Joined;
    KeyAppearsOnce(side, ks, k);
    assert ks[k] in ks;
    RemnantKeepsLevel(levels, ks, k, level);
    var levels' := levels[ks[k] := level];
    assert levels'.Keys == levels.Keys;
    assert [] + Flatten(levels, ks[k + 1..]) == Flatten(levels, ks[k + 1..]);
    forall j | k < j < |ks|
      ensures ks[j] in levels' && LevelOk(side, ks[j], levels'[ks[j]])
    {
      assert ks[j] == ks[k + 1..][j - k - 1];
    }
  }

  // Matching is over when the order is filled or the next level is not acceptable.
  lemma {:induction false} SweepEnds(goal: Outcome, incoming: Order, order: Order, side: Side, levels: Levels,
                                     ks: seq<Price>, k: nat, index: map<OrderId, Order>, own: seq<Order>,
                                     fills: seq<Fill>, completed: seq<OrderId>)
    requires Sweep(goal, incoming, order, side, levels, ks, k, index, own, fills, completed)
    requires order.IsFilled() || k == |ks| || !order.Accepts(ks[k])
    ensures goal == Outcome(order, Flatten(levels, ks[k..]), fills, completed)
    ensures KeyList(side, ks, levels.Keys) && Live(index, Flatten(levels, ks[k..]), own)
    ensures forall j :: k <= j < |ks| ==> ks[j] in levels && LevelOk(side, ks[j], levels[ks[j]])
  {
    var q := Flatten(levels, ks[k..]);
    if k < |ks| {
      SweepEnters(goal, incoming, order, side, levels, ks, k, index, own, fills, completed);
      KeyAppearsOnce(side, ks, k);
      RemnantKeepsLevel(levels, ks, k, levels[ks[k]]);
      assert q[0] == levels[ks[k]].orders[0];
      assert Resting(side, levels[ks[k]].orders[0]);
    }
    MatchingIsOver(goal, order, q, fills, completed);
  }

  // The outer loop of matching: visit the levels from the best price on.
  method MatchLevels(incoming: Order, initial: Levels, initialIndex: map<OrderId, Order>, side: Side,
                     pricesToMatch: seq<Price>, ghost own: seq<Order>, ghost goal: Outcome)
    returns (order: Order, opposite: Levels, index: map<OrderId, Order>, fills: seq<Fill>, completed: seq<OrderId>,
             pricesToRemove: seq<Price>)
    requires side == incoming.side.Opposite()
    requires Sweep(goal, incoming, incoming, side, initial, pricesToMatch, 0, initialIndex, own, [], [])
    ensures pricesToRemove <= pricesToMatch
    ensures KeyList(side, pricesToMatch, opposite.Keys)
    ensures forall j :: |pricesToRemove| <= j < |pricesToMatch| ==>
      && pricesToMatch[j] in opposite
      && LevelOk(side, pricesToMatch[j], opposite[pricesToMatch[j]])
    ensures Live(index, Flatten(opposite, pricesToMatch[|pricesToRemove|..]), own)
    ensures goal == Outcome(order, Flatten(opposite, pricesToMatch[|pricesToRemove|..]), fills, completed)
  {
    hide Sweep, LevelState;
    order, opposite, index, fills, completed := incoming, initial, initialIndex, [], [];
    pricesToRemove := [];
    ghost var ks := pricesToMatch;
    var i := 0;
    while i < |pricesToMatch|
      invariant 0 <= |pricesToRemove| <= i <= |ks|
      invariant i == |pricesToRemove| || (i == |pricesToRemove| + 1 && order.IsFilled())
      invariant pricesToRemove == ks[..|pricesToRemove|]
      invariant Sweep(goal, incoming, order, side, opposite, ks, |pricesToRemove|, index, own, fills, completed)
    {
      var price := pricesToMatch[i];
      if order.IsFilled() || !order.Accepts(price) {
        break;
      }
      SweepEnters(goal, incoming, order, side, opposite, ks, i, index, own, fills, completed);
      ghost var tail := Flatten(opposite, ks[i + 1..]);
      ghost var order0, index0, fills0, completed0 := order, index, fills, completed;
      var level := opposite[price];
      order, level, index, fills, completed := MatchLevel(order, level, index, fills, completed, tail, own, goal);
      SweepLeaves(goal, incoming, order0, order, side, opposite, ks, i, index0, index, own,
                  fills0, fills, completed0, completed, level);
      opposite := opposite[price := level];
      if level.orders == [] {
        pricesToRemove := pricesToRemove + [price];
      }
      i := i + 1;
    }
    SweepEnds(goal, incoming, order, side, opposite, ks, |pricesToRemove|, index, own, fills, completed);
  }

  lemma {:induction false} EnqueueKeepsIndex(q: seq<Order>, other: seq<Order>, index: map<OrderId, Order>, o: Order)
    requires Indexes(index, q, other) && !HasId(q, o.id) && !HasId(other, o.id)
    ensures Indexes(index[o.id := o], Enqueue(o.side, q, o), other)
  {
    var q' := Enqueue(o.side, q, o);
    EnqueueMembers(o.side, q, o);
    assert forall i :: 0 <= i < |q'| ==> q'[i] in q';
    forall id | id in index[o.id := o]
      ensures HasId(q', id) || HasId(other, id)
    {
      if id == o.id {
        assert o in q';
        var i :| 0 <= i < |q'| && q'[i] == o;
      } else if HasId(q, id) {
        var i :| 0 <= i < |q| && q[i].id == id;
        assert q[i] in q;
        var j :| 0 <= j < |q'| && q'[j] == q[i];
      }
    }
  }

  // What is left of a limit order after matching may rest: it is positive and its id is new.
  lemma {:induction false} LeftoverRests(book: Book, incoming: Order)
    requires BookOk(book) && 0 < incoming.remaining <= incoming.quantity
    requires incoming.orderType.Limit? && incoming.price.Some? && !InBook(book, incoming.id)
    requires !Consume(incoming, book.On(incoming.side.Opposite())).taker.IsFilled()
    ensures var out := Consume(incoming, book.On(incoming.side.Opposite()));
      && out.taker == incoming.(remaining := out.taker.remaining)
      && Resting(incoming.side, out.taker)
      && !InBook(book.With(incoming.side.Opposite(), out.rest), incoming.id)
  {
    var q := book.On(incoming.side.Opposite());
    var out := Consume(incoming, q);
    assert forall i :: 0 <= i < |q| ==> Resting(incoming.side.Opposite(), q[i]);
    ConsumeIsGreedy(incoming, q, out);
    FillTotalPositive(out.fills);
    ConsumeAddsNoIds(incoming, q);
  }

  // The hash map answers lookups of the plain book.
  lemma {:induction false} IndexFindsOrder(book: Book, index: map<OrderId, Order>, id: OrderId)
    requires BookOk(book) && Indexes(index, book.bids, book.asks)
    ensures id in index <==> InBook(book, id)
    ensures id in index ==> index[id].id == id && index[id].price.Some? && index[id] in book.On(index[id].side)
  {
    if HasId(book.bids, id) {
      var i :| 0 <= i < |book.bids| && book.bids[i].id == id;
      assert Resting(Bid, book.bids[i]);
    }
    if HasId(book.asks, id) {
      var i :| 0 <= i < |book.asks| && book.asks[i].id == id;
      assert Resting(Ask, book.asks[i]);
    }
  }

  // An id resting on one side is absent from the other.
  lemma {:induction false} WithoutOther(book: Book, order: Order)
    requires BookOk(book) && order in book.On(order.side)
    ensures book.With(order.side, Without(book.On(order.side), order.id)) == Cancel(book, order.id)
  {
    var other := book.On(order.side.Opposite());
    var k :| 0 <= k < |book.On(order.side)| && book.On(order.side)[k] == order;
    assert !HasId(other, order.id);
    WithoutAbsent(other, order.id);
  }

  lemma {:induction false} CancelKeepsIndex(book: Book, index: map<OrderId, Order>, id: OrderId)
    requires BookOk(book) && Indexes(index, book.bids, book.asks)
    ensures Indexes(index - {id}, Cancel(book, id).bids, Cancel(book, id).asks)
  {
    WithoutKeepsSide(Bid, book.bids, id);
    WithoutKeepsSide(Ask, book.asks, id);
    var p, q := Without(book.bids, id), Without(book.asks, id);
    assert forall i :: 0 <= i < |p| ==> p[i] in p;
    assert forall i :: 0 <= i < |q| ==> q[i] in q;
    forall x | x in index - {id}
      ensures HasId(p, x) || HasId(q, x)
    {
      if HasId(book.bids, x) {
        StillThere(book.bids, p, x, id);
      } else {
        StillThere(book.asks, q, x, id);
      }
    }
  }

  lemma {:induction false} StillThere(q: seq<Order>, r: seq<Order>, x: OrderId, id: OrderId)
    requires HasId(q, x) && x != id
    requires forall o :: o in r <==> o in q && o.id != id
    ensures HasId(r, x)
  {
    var i :| 0 <= i < |q| && q[i].id == x;
    assert q[i] in q;
    var j :| 0 <= j < |r| && r[j] == q[i];
  }

  // VecDeque::retain: keep every other order, and note what the removed one had left.
  method Retain(queue: seq<Order>, order: Order) returns (kept: seq<Order>, removedQuantity: Quantity)
    requires order in queue && UniqueIds(queue)
    ensures kept == Without(queue, order.id)
    ensures removedQuantity == order.remaining
  {
    hide Without, UniqueIds;
    kept, removedQuantity := [], 0;
    ghost var k :| 0 <= k < |queue| && queue[k] == order;
    var i := 0;
    WithoutEnds(queue, order.id);
    while i < |queue|
      invariant 0 <= i <= |queue|
      invariant kept + Without(queue[i..], order.id) == Without(queue, order.id)
      invariant removedQuantity == if k < i then order.remaining else 0
    {
      WithoutStep(queue, i, order.id);
      OnlyOne(queue, i, k);
      if queue[i].id == order.id {
        removedQuantity := queue[i].remaining;
      } else {
        assert kept + ([queue[i]] + Without(queue[i + 1..], order.id)) == kept + [queue[i]] + Without(queue[i + 1..], order.id);
        kept := kept + [queue[i]];
      }
      i := i + 1;
    }
  }

  lemma WithoutEnds(q: seq<Order>, id: OrderId)
    ensures [] + Without(q[0..], id) == Without(q, id) && Without(q[|q|..], id) == []
  {
    assert q[0..] == q;
  }

  lemma WithoutStep(q: seq<Order>, i: nat, id: OrderId)
    requires i < |q|
    ensures Without(q[i..], id) == if q[i].id == id then Without(q[i + 1..], id) else [q[i]] + Without(q[i + 1..], id)
  {
    assert q[i..][1..] == q[i + 1..];
  }

  lemma OnlyOne(q: seq<Order>, i: nat, k: nat)
    requires UniqueIds(q) && i < |q| && k < |q|
    ensures q[i].id == q[k].id <==> i == k
  {
  }

  lemma {:induction false} LevelTotalsAt(levels: Levels, ks: seq<Price>)
    requires forall p :: p in ks ==> p in levels
    ensures |LevelTotals(levels, ks)| == |ks|
    ensures forall i :: 0 <= i < |ks| ==>
      ks[i] in levels && LevelTotals(levels, ks)[i] == (ks[i], levels[ks[i]].totalQuantity)
  {
    if ks != [] {
      assert ks[0] in ks;
      var p := ks[0];
      assert p in levels;
      LevelTotalsAt(levels, ks[1..]);
      assert LevelTotals(levels, ks) == [(p, levels[p].totalQuantity)] + LevelTotals(levels, ks[1..]);
      assert forall i :: 0 < i < |ks| ==> ks[i] == ks[1..][i - 1];
    }
  }

  // iter().take(maxLevels).map(..).collect()
  method TakeLevels(levels: Levels, ks: seq<Price>, maxLevels: nat) returns (r: seq<(Price, Quantity)>)
    requires forall p :: p in ks ==> p in levels
    ensures r == LevelTotals(levels, ks)[..Min(maxLevels, |LevelTotals(levels, ks)|)]
  {
    LevelTotalsAt(levels, ks);
    r := [];
    while |r| < |ks| && |r| < maxLevels
      invariant |r| <= |ks| && |r| <= maxLevels
      invariant r == LevelTotals(levels, ks)[..|r|]
    {
      r := r + [(ks[|r|], levels[ks[|r|]].totalQuantity)];
    }
  }

  lemma {:induction false} BestHeadsFlat(side: Side, levels: Levels)
    requires LevelsOk(side, levels) && Prioritized(side, Flat(side, levels))
    ensures Flat(side, levels) == [] <==> levels.Keys == {}
    ensures levels.Keys != {} ==> Flat(side, levels)[0].RestPrice() == Best(side, levels.Keys)
    ensures forall i :: 0 <= i < |Flat(side, levels)| ==>
      !Better(side, Flat(side, levels)[i].RestPrice(), Flat(side, levels)[0].RestPrice())
  {
    if levels.Keys != {} {
      var p := Best(side, levels.Keys);
      var ks := BestFirst(side, levels.Keys);
      assert ks[0] == p && p in levels;
      assert LevelOk(side, p, levels[p]);
      assert Flat(side, levels)[0] == levels[p].orders[0];
    }
  }

  lemma {:induction false} LevelHoldsQuantity(side: Side, levels: Levels, price: Price)
    requires LevelsOk(side, levels)
    ensures QuantityAt(Flat(side, levels), price) == if price in levels then levels[price].totalQuantity else 0
  {
    var ks := BestFirst(side, levels.Keys);
    BestFirstIsKeyList(side, levels.Keys);
    hide BestFirst;
    if price in levels {
      assert price in ks;
      var k :| 0 <= k < |ks| && ks[k] == price;
      KeyAppearsOnce(side, ks, k);
      FlattenSplit(levels, ks, k);
      var a, q, b := Flatten(levels, ks[..k]), levels[price].orders, Flatten(levels, ks[k + 1..]);
      QuantityAtAppend(a + q, b, price);
      QuantityAtAppend(a, q, price);
      FlattenPrices(side, levels, ks[..k]);
      FlattenPrices(side, levels, ks[k + 1..]);
      QuantityElsewhere(a, price);
      QuantityElsewhere(b, price);
      assert LevelOk(side, price, levels[price]);
      QuantityOfQueue(q, price);
    } else {
      FlattenPrices(side, levels, ks);
      QuantityElsewhere(Flatten(levels, ks), price);
    }
  }

  class OrderBook {
    var bids: Levels
    var asks: Levels
    var orders: map<OrderId, Order>

    // The plain book this one stands for.
    ghost function Contents(): Book
      reads this
    {
      Book(Flat(Bid, bids), Flat(Ask, asks))
    }

    ghost predicate Valid()
      reads this
    {
      && LevelsOk(Bid, bids) && LevelsOk(Ask, asks)
      && BookOk(Contents())
      && Indexes(orders, Contents().bids, Contents().asks)
    }

    function LevelsOn(side: Side): Levels
      reads this
    {
      if side.Bid? then bids else asks
    }

    constructor ()
      ensures Valid() && Contents() == EMPTY_BOOK
    {
      bids, asks, orders := map[], map[], map[];
    }

    method MatchOrder(incoming: Order) returns (order: Order, fills: seq<Fill>, completed: seq<OrderId>)
      requires Valid() && 0 < incoming.remaining
      modifies this
      ensures Valid()
      ensures var out := Consume(incoming, old(Contents()).On(incoming.side.Opposite()));
        && Contents() == old(Contents()).With(incoming.side.Opposite(), out.rest)
        && order == out.taker && fills == out.fills && completed == out.completed
    {
      hide Sweep, Consume, Flat, Flatten, BestFirst, KeyList, LevelOk, UniqueIds, Prioritized, AllResting,
           Uncrossed, HasId;
      var side := incoming.side.Opposite();
      var opposite := LevelsOn(side);
      var pricesToMatch := BestFirst(side, opposite.Keys);
      ghost var book := Contents();
      ghost var own := book.On(incoming.side);
      ghost var goal := Consume(incoming, book.On(side));
      SweepBegins(goal, incoming, side, opposite, orders, own);
      var pricesToRemove;
      order, opposite, orders, fills, completed, pricesToRemove :=
        MatchLevels(incoming, opposite, orders, side, pricesToMatch, own, goal);
      RemoveLevels(side, opposite, pricesToRemove, pricesToMatch, book, goal.rest);
      ConsumeKeepsBook(book, incoming);
    }

    // Emptied levels are dropped after the loops.
    method RemoveLevels(side: Side, matched: Levels, pricesToRemove: seq<Price>,
                        ghost ks: seq<Price>, ghost book: Book, ghost rest: seq<Order>)
      requires KeyList(side, ks, matched.Keys) && pricesToRemove <= ks
      requires rest == Flatten(matched, ks[|pricesToRemove|..])
      requires forall j :: |pricesToRemove| <= j < |ks| ==> ks[j] in matched && LevelOk(side, ks[j], matched[ks[j]])
      requires book == Contents() && LevelsOk(Bid, bids) && LevelsOk(Ask, asks)
      modifies this`bids, this`asks
      ensures LevelsOk(Bid, bids) && LevelsOk(Ask, asks)
      ensures Contents() == book.With(side, rest)
    {
      hide LevelOk, LevelsOk, KeyList, Flat, Flatten;
      var opposite := matched;
      var i := 0;
      while i < |pricesToRemove|
        invariant 0 <= i <= |pricesToRemove|
        invariant opposite == matched - (set p | p in ks[..i])
      {
        opposite := opposite - {pricesToRemove[i]};
        i := i + 1;
      }
      DropLevels(side, matched, ks, |pricesToRemove|, opposite);
      LevelsLeftOk(side, matched, ks, |pricesToRemove|, opposite);
      if side.Bid? {
        bids := opposite;
      } else {
        asks := opposite;
      }
    }

    // add_order_to_book: the order goes to the back of its level and into the hash map.
    method AddOrderToBook(order: Order)
      requires LevelsOk(Bid, bids) && LevelsOk(Ask, asks)
      requires Resting(order.side, order)
      requires Indexes(orders, Contents().bids, Contents().asks) && !InBook(Contents(), order.id)
      modifies this
      ensures LevelsOk(Bid, bids) && LevelsOk(Ask, asks)
      ensures Contents() == old(Contents()).With(order.side, Enqueue(order.side, old(Contents()).On(order.side), order))
      ensures Indexes(orders, Contents().bids, Contents().asks)
    {
      ghost var book := Contents();
      var price := order.price.value;
      orders := orders[order.id := order];
      AddIsEnqueue(order.side, LevelsOn(order.side), order);
      if order.side.Bid? {
        bids := AddToLevels(bids, price, order);
      } else {
        asks := AddToLevels(asks, price, order);
      }
      hide Flat, AddToLevels, LevelsOk;
      EnqueueKeepsIndex(book.On(order.side), book.On(order.side.Opposite()), old(orders), order);
    }

    method AddLimitOrder(orderId: OrderId, side: Side, price: Price, quantity: Quantity) returns (result: OrderResult)
      requires Valid()
      requires 0 < quantity && !InBook(Contents(), orderId)
      modifies this
      ensures Valid()
      ensures var placed := PlaceLimit(old(Contents()), orderId, side, price, quantity);
        Contents() == placed.book && result == placed.result
      ensures FillTotal(result.fills) == Min(quantity, Offered(side, Some(price), old(Contents()).On(side.Opposite())))
    {
      ghost var book := Contents();
      LimitTakes(book, orderId, side, price, quantity);
      PlaceLimitKeepsBook(book, orderId, side, price, quantity);
      var order, fills, completed := MatchOrder(NewLimit(orderId, side, price, quantity));
      if order.IsFilled() {
        completed := completed + [orderId];
      } else {
        LeftoverRests(book, NewLimit(orderId, side, price, quantity));
        AddOrderToBook(order);
      }
      result := OrderResult(orderId, fills, completed);
    }

    method AddMarketOrder(orderId: OrderId, side: Side, quantity: Quantity) returns (result: OrderResult)
      requires Valid()
      requires 0 < quantity
      modifies this
      ensures Valid()
      ensures var placed := PlaceMarket(old(Contents()), orderId, side, quantity);
        Contents() == placed.book && result == placed.result
      ensures FillTotal(result.fills) == Min(quantity, TotalRemaining(old(Contents()).On(side.Opposite())))
    {
      MarketTakes(Contents(), orderId, side, quantity);
      var order, fills, completed := MatchOrder(NewMarket(orderId, side, quantity));
      if order.IsFilled() {
        completed := completed + [orderId];
      }
      result := OrderResult(orderId, fills, completed);
    }

    method CancelOrder(orderId: OrderId) returns (cancelled: bool)
      requires Valid()
      modifies this
      ensures Valid()
      ensures cancelled == InBook(old(Contents()), orderId)
      ensures Contents() == Cancel(old(Contents()), orderId)
    {
      ghost var book := Contents();
      IndexFindsOrder(book, orders, orderId);
      CancelKeepsBook(book, orderId);
      if orderId !in orders {
        WithoutAbsent(book.bids, orderId);
        WithoutAbsent(book.asks, orderId);
        return false;
      }
      var order := orders[orderId];
      orders := orders - {orderId};
      RemoveOrderFromBook(order);
      WithoutOther(book, order);
      CancelKeepsIndex(book, old(orders), orderId);
      return true;
    }

    // remove_order_from_book
    method RemoveOrderFromBook(order: Order)
      requires LevelsOk(Bid, bids) && LevelsOk(Ask, asks)
      requires order in Contents().On(order.side) && UniqueIds(Contents().On(order.side))
      requires order.price.Some?
      modifies this`bids, this`asks
      ensures LevelsOk(Bid, bids) && LevelsOk(Ask, asks)
      ensures Contents() == old(Contents()).With(order.side, Without(old(Contents()).On(order.side), order.id))
    {
      var price := order.price.value;
      var book := LevelsOn(order.side);
      ghost var ks := BestFirst(order.side, book.Keys);
      OrderIsInItsLevel(order.side, book, ks, order);
      BestFirstIsKeyList(order.side, book.Keys);
      assert price in book;
      var level := book[price];
      ghost var k :| 0 <= k < |ks| && ks[k] == price;
      QueueHasUniqueIds(book, ks, k);
      var kept, removedQuantity := Retain(level.orders, order);
      level := PriceLevel(level.price, kept, level.totalQuantity - removedQuantity);
      assert LevelOk(order.side, price, book[price]);
      RemoveFromLevel(order.side, book, order, level);
      book := WithQueue(book, price, level);
      if order.side.Bid? {
        bids := book;
      } else {
        asks := book;
      }
    }

    function GetOrder(orderId: OrderId): (r: Option<Order>)
      reads this
      requires Valid()
      ensures r.Some? <==> InBook(Contents(), orderId)
      ensures r.Some? ==> r.value.id == orderId && (r.value in Contents().bids || r.value in Contents().asks)
    {
      IndexFindsOrder(Contents(), orders, orderId);
      if orderId in orders then Some(orders[orderId]) else None
    }

    // best_bid and best_ask: the head of each sorted map.
    function BestPrice(side: Side): (r: Option<Price>)
      reads this
      requires Valid()
      ensures r.None? <==> Contents().On(side) == []
      ensures r.Some? ==> r.value == Contents().On(side)[0].RestPrice()
      ensures r.Some? ==> forall i :: 0 <= i < |Contents().On(side)| ==>
        !Better(side, Contents().On(side)[i].RestPrice(), r.value)
    {
      BestHeadsFlat(side, LevelsOn(side));
      var keys := LevelsOn(side).Keys;
      if keys == {} then None else Some(Best(side, keys))
    }

    // spread is None for a crossed book; no valid book is.
    function Spread(): (r: Option<Price>)
      reads this
      requires Valid()
      ensures r.Some? <==> Contents().bids != [] && Contents().asks != []
      ensures r.Some? ==> r.value == Contents().asks[0].RestPrice() - Contents().bids[0].RestPrice() && r.value > 0
    {
      var ask := BestPrice(Ask);
      var bid := BestPrice(Bid);
      if ask.Some? && bid.Some? && ask.value > bid.value then Some(ask.value - bid.value) else None
    }

    function QuantityAtPrice(side: Side, price: Price): (r: Quantity)
      reads this
      requires Valid()
      ensures r == QuantityAt(Contents().On(side), price)
    {
      LevelHoldsQuantity(side, LevelsOn(side), price);
      if price in LevelsOn(side) then LevelsOn(side)[price].totalQuantity else 0
    }

    // get_bids and get_asks: the best levels with their cached totals.
    method GetLevels(side: Side, maxLevels: nat) returns (r: seq<(Price, Quantity)>)
      requires Valid()
      ensures r == Depth(Contents().On(side))[..Min(maxLevels, |Depth(Contents().On(side))|)]
    {
      var levels := LevelsOn(side);
      var ks := BestFirst(side, levels.Keys);
      BestFirstIsKeyList(side, levels.Keys);
      LevelTotalsAreDepth(side, levels, ks);
      r := TakeLevels(levels, ks, maxLevels);
    }
  }
}
