// The Python book's outer matching loop over the levels of one side.
module PythonLevels {
  import opened Orders
  import opened PriceLevels
  import opened MatchingEngine
  import opened PythonMatching

  ghost function LevelView(level: PyLevel): PriceLevel
    reads level.orders
  {
    PriceLevel(level.price, Views(level.orders), level.total)
  }

  ghost function LevelObjects(levels: PyLevels): (r: set<PyOrder>)
    ensures forall p, o :: p in levels && o in levels[p].orders ==> o in r
  {
    set p, o | p in levels && o in levels[p].orders :: o
  }

  // The levels of one side as values.
  ghost function LevelViews(levels: PyLevels): Levels
    reads LevelObjects(levels)
  {
    map p | p in levels :: LevelView(levels[p])
  }

  ghost predicate LevelsShape(side: Side, levels: PyLevels, index: map<OrderId, PyOrder>) {
    forall p :: p in levels ==> levels[p].price == p && QueueShape(side, p, levels[p].orders, index)
  }

  // What the outer loop keeps: `full` are the levels as values, with the `gone` first ones
  // emptied; those have been deleted from the dictionary.
  ghost predicate Round(goal: Outcome, incoming: Order, order: PyOrder, side: Side, opposite: PyLevels, full: Levels,
                        ks: seq<Price>, gone: nat, index0: map<OrderId, PyOrder>, index: map<OrderId, PyOrder>,
                        own: seq<Order>, fills: seq<PyFill>, completed: seq<OrderId>)
    reads order, index.Values, LevelObjects(opposite)
  {
    && gone <= |ks| && side == order.side.Opposite()
    && opposite.Keys == full.Keys - (set p | p in ks[..gone])
    && (forall p :: p in opposite ==> full[p] == LevelView(opposite[p]))
    && LevelsShape(side, opposite, index)
    && IndexShape(index) && order !in index.Values
    && (forall id :: id in index ==> id in index0 && index0[id] == index[id])
    && Sweep(goal, incoming, order.View(), side, full, ks, gone, ViewIndex(index), own, Plain(fills), completed)
  }

  // Objects queued at other prices are not those of this level.
  lemma {:induction false} OtherLevelsApart(side: Side, levels: PyLevels, index: map<OrderId, PyOrder>, p: Price, q: Price)
    requires LevelsShape(side, levels, index) && p in levels && q in levels && p != q
    ensures forall o :: o in levels[p].orders ==> o !in levels[q].orders
  {
    assert QueueShape(side, p, levels[p].orders, index);
    assert QueueShape(side, q, levels[q].orders, index);
  }

  // The keys left in the dictionary are those from the `k`-th on.
  lemma {:induction false} LeftKeys(side: Side, ks: seq<Price>, keys: set<Price>, k: nat, p: Price)
    requires KeyList(side, ks, keys) && k < |ks|
    requires p in keys - (set q | q in ks[..k])
    ensures p == ks[k] || p in ks[k + 1..]
  {
    assert p in ks && p !in ks[..k];
    assert ks == ks[..k] + [ks[k]] + ks[k + 1..];
  }

  // The objects of the levels behind are still in the dictionary after one level is matched.
  lemma {:induction false} TailStaysIndexed(side: Side, p: Price, queue: seq<PyOrder>, full: Levels, later: seq<Price>,
                                            index: map<OrderId, PyOrder>, index': map<OrderId, PyOrder>,
                                            q: seq<Order>, own: seq<Order>)
    requires QueueShape(side, p, queue, index)
    requires forall id :: id in index' ==> id in index && index'[id] == index[id]
    requires Live(ViewIndex(index'), q + Flatten(full, later), own)
    requires p in later && p in full && full[p].orders == Views(queue)
    ensures QueueShape(side, p, queue, index')
  {
    var tail := Flatten(full, later);
    forall i | 0 <= i < |queue|
      ensures queue[i].id in index'
    {
      FlattenContains(full, later, p, i);
      var j :| 0 <= j < |tail| && tail[j] == queue[i].View();
      assert (q + tail)[|q| + j] == tail[j];
      assert tail[j].id in ViewIndex(index');
    }
  }

  lemma {:induction false} RoundEnters(goal: Outcome, incoming: Order, order: PyOrder, side: Side, opposite: PyLevels,
                                       full: Levels, ks: seq<Price>, k: nat,
                                       index0: map<OrderId, PyOrder>, index: map<OrderId, PyOrder>,
                                       own: seq<Order>, fills: seq<PyFill>, completed: seq<OrderId>)
    requires Round(goal, incoming, order, side, opposite, full, ks, k, index0, index, own, fills, completed)
    requires k < |ks|
    ensures var price := ks[k];
      && price in opposite && opposite[price].price == price
      && LevelShape(order, opposite[price], opposite[price], index, index)
      && LevelState(goal, order.View(), price, Views(opposite[price].orders), opposite[price].total, ViewIndex(index),
                    Flatten(full, ks[k + 1..]), own, Plain(fills), completed)
      && KeyList(side, ks, full.Keys)
  {
    SweepEnters(goal, incoming, order.View(), side, full, ks, k, ViewIndex(index), own, Plain(fills), completed);
    KeyAppearsOnce(side, ks, k);
    assert ks[k] in ks;
    var level := opposite[ks[k]];
    assert level.orders[|level.orders| - |level.orders|..] == level.orders;
  }

  // The outer loop after its `k`-th level, which is left as `level`.
  lemma {:induction false} RoundLeaves(goal: Outcome, incoming: Order, order: PyOrder, side: Side, opposite: PyLevels,
                                       full: Levels, ks: seq<Price>, k: nat,
                                       index0: map<OrderId, PyOrder>, before: map<OrderId, PyOrder>,
                                       index: map<OrderId, PyOrder>,
                                       own: seq<Order>, fills: seq<PyFill>, completed: seq<OrderId>, level: PyLevel)
    requires k < |ks| && side == order.side.Opposite() && ks[k] in opposite
    requires KeyList(side, ks, full.Keys)
    requires opposite.Keys == full.Keys - (set p | p in ks[..k])
    requires LevelsShape(side, opposite, before) && LevelShape(order, opposite[ks[k]], level, before, index)
    requires opposite[ks[k]].price == ks[k]
    requires forall id :: id in before ==> id in index0 && index0[id] == before[id]
    requires forall p :: p in opposite && p != ks[k] ==> full[p] == LevelView(opposite[p])
    requires Live(ViewIndex(index), Views(level.orders) + Flatten(full, ks[k + 1..]), own)
    requires Sweep(goal, incoming, order.View(), side, full[ks[k] := LevelView(level)], ks,
                   if Views(level.orders) == [] then k + 1 else k, ViewIndex(index), own, Plain(fills), completed)
    ensures Round(goal, incoming, order, side, if level.orders == [] then opposite - {ks[k]} else opposite[ks[k] := level],
                  full[ks[k] := LevelView(level)], ks, if level.orders == [] then k + 1 else k,
                  index0, index, own, fills, completed)
  {
    hide Sweep, Live, Flatten, KeyList;
    var opposite' := if level.orders == [] then opposite - {ks[k]} else opposite[ks[k] := level];
    forall p | p in opposite'
      ensures opposite'[p].price == p && QueueShape(side, p, opposite'[p].orders, index)
    {
      if p != ks[k] {
        LeftKeys(side, ks, full.Keys, k, p);
        TailStaysIndexed(side, p, opposite[p].orders, full, ks[k + 1..], before, index, Views(level.orders), own);
      }
    }
    KeyAppears(side, ks, full.Keys, k);
    assert ks[..k + 1] == ks[..k] + [ks[k]];
  }

  lemma {:induction false} KeyAppears(side: Side, ks: seq<Price>, keys: set<Price>, k: nat)
    requires KeyList(side, ks, keys) && k < |ks|
    ensures ks[k] in keys && ks[k] !in ks[..k]
  {
    var p := ks[k];
    assert p in ks;
    KeyAppearsOnce(side, ks, k);
  }

  // From the state before one level was matched, and what matching it returned, to the next round.
  lemma {:induction false} NextRound(goal: Outcome, incoming: Order, order0: Order, order: PyOrder, side: Side,
                                     opposite: PyLevels, full: Levels, ks: seq<Price>, k: nat,
                                     index0: map<OrderId, PyOrder>, before: map<OrderId, PyOrder>,
                                     view0: map<OrderId, Order>, index: map<OrderId, PyOrder>, own: seq<Order>,
                                     fills0: seq<Fill>, fills: seq<PyFill>,
                                     completed0: seq<OrderId>, completed: seq<OrderId>, level: PyLevel)
    requires k < |ks| && side == order.side.Opposite() && ks[k] in opposite && opposite[ks[k]].price == ks[k]
    requires opposite.Keys == full.Keys - (set p | p in ks[..k])
    requires LevelsShape(side, opposite, before) && LevelShape(order, opposite[ks[k]], level, before, index)
    requires forall id :: id in before ==> id in index0 && index0[id] == before[id]
    requires forall p :: p in opposite && p != ks[k] ==> full[p] == LevelView(opposite[p])
    requires Sweep(goal, incoming, order0, side, full, ks, k, view0, own, fills0, completed0)
    requires order.View() == order0.(remaining := order.remaining)
    requires LevelState(goal, order.View(), ks[k], Views(level.orders), level.total, ViewIndex(index),
                        Flatten(full, ks[k + 1..]), own, Plain(fills), completed)
    ensures Round(goal, incoming, order, side, if level.orders == [] then opposite - {ks[k]} else opposite[ks[k] := level],
                  full[ks[k] := LevelView(level)], ks, if level.orders == [] then k + 1 else k,
                  index0, index, own, fills, completed)
  {
    assert KeyList(side, ks, full.Keys);
    assert LevelShape(order, opposite[ks[k]], level, before, index) ==> level.price == ks[k];
    hide Sweep, LevelState, Plain, LevelShape, LevelsShape, Flatten, KeyList;
    SweepLeaves(goal, incoming, order0, order.View(), side, full, ks, k, view0, ViewIndex(index), own,
                fills0, Plain(fills), completed0, completed, LevelView(level));
    LevelStateIsLive(goal, order.View(), ks[k], Views(level.orders), level.total, ViewIndex(index),
                     Flatten(full, ks[k + 1..]), own, Plain(fills), completed);
    RoundLeaves(goal, incoming, order, side, opposite, full, ks, k, index0, before, index, own, fills, completed, level);
  }

  // Matching one level leaves the objects of the others alone.
  method MatchOne(order: PyOrder, opposite: PyLevels, index: map<OrderId, PyOrder>, fills: seq<PyFill>,
                  completed: seq<OrderId>, price: Price, ghost side: Side, ghost full: Levels,
                  ghost tail: seq<Order>, ghost own: seq<Order>, ghost goal: Outcome, ghost index0: map<OrderId, PyOrder>)
    returns (level: PyLevel, index': map<OrderId, PyOrder>, fills': seq<PyFill>, completed': seq<OrderId>)
    requires side == order.side.Opposite() && LevelsShape(side, opposite, index) && price in opposite
    requires 0 < order.remaining && order.View().Accepts(price) && opposite[price].price == price
    requires LevelShape(order, opposite[price], opposite[price], index, index)
    requires LevelState(goal, order.View(), price, Views(opposite[price].orders), opposite[price].total, ViewIndex(index),
                        tail, own, Plain(fills), completed)
    requires AccountsOk(fills, order, index0)
    requires forall id :: id in index ==> id in index0 && index0[id] == index[id]
    requires forall p :: p in opposite ==> p in full && full[p] == LevelView(opposite[p])
    modifies order, LevelObjects(opposite)
    ensures LevelShape(order, opposite[price], level, index, index')
    ensures LevelState(goal, order.View(), price, Views(level.orders), level.total, ViewIndex(index'),
                       tail, own, Plain(fills'), completed')
    ensures forall p :: p in opposite && p != price ==> full[p] == LevelView(opposite[p])
    ensures level.orders == [] || order.remaining <= 0
    ensures AccountsOk(fills', order, index0) && order.status == old(order.status)
    ensures forall o :: o in LevelObjects(opposite) && o != order ==>
      Progress(old(o.remaining), old(o.status), o.remaining, o.status)
  {
    hide LevelState, AccountsOk, Plain;
    forall p | p in opposite && p != price
      ensures forall o :: o in opposite[p].orders ==> o !in opposite[price].orders && o != order
    {
      OtherLevelsApart(side, opposite, index, p, price);
      assert QueueShape(side, p, opposite[p].orders, index);
    }
    hide QueueShape, LevelsShape, IndexShape;
    level, index', fills', completed' :=
      PythonMatching.MatchLevel(order, opposite[price], index, fills, completed, tail, own, goal, index0);
  }

  // One round of the outer loop of _match, at the next price.
  method MatchAt(order: PyOrder, opposite: PyLevels, index: map<OrderId, PyOrder>, fills: seq<PyFill>,
                 completed: seq<OrderId>, price: Price,
                 ghost goal: Outcome, ghost incoming: Order, ghost side: Side, ghost full: Levels,
                 ghost ks: seq<Price>, ghost k: nat, ghost index0: map<OrderId, PyOrder>, ghost own: seq<Order>)
    returns (opposite': PyLevels, index': map<OrderId, PyOrder>, fills': seq<PyFill>, completed': seq<OrderId>,
             ghost full': Levels, ghost gone: nat)
    requires Round(goal, incoming, order, side, opposite, full, ks, k, index0, index, own, fills, completed)
    requires k < |ks| && ks[k] == price && 0 < order.remaining && order.View().Accepts(price)
    requires AccountsOk(fills, order, index0)
    modifies order, LevelObjects(opposite)
    ensures Round(goal, incoming, order, side, opposite', full', ks, gone, index0, index', own, fills', completed')
    ensures gone == k + 1 || (gone == k && order.remaining <= 0)
    ensures AccountsOk(fills', order, index0) && order.status == old(order.status)
    ensures LevelObjects(opposite') <= LevelObjects(opposite)
    ensures forall o :: o in LevelObjects(opposite) && o != order ==>
      Progress(old(o.remaining), old(o.status), o.remaining, o.status)
  {
    RoundEnters(goal, incoming, order, side, opposite, full, ks, k, index0, index, own, fills, completed);
    hide Sweep, LevelState, LevelShape, LevelsShape, AccountsOk, Plain, Flatten, KeyList, IndexShape;
    ghost var order0, view0, fills0 := order.View(), ViewIndex(index), Plain(fills);
    var level;
    level, index', fills', completed' :=
      MatchOne(order, opposite, index, fills, completed, price, side, full, Flatten(full, ks[k + 1..]), own, goal, index0);
    NextRound(goal, incoming, order0, order, side, opposite, full, ks, k, index0, index, view0, index', own,
              fills0, fills', completed, completed', level);
    full' := full[price := LevelView(level)];
    opposite' := if level.orders == [] then opposite - {price} else opposite[price := level];
    gone := if level.orders == [] then k + 1 else k;
    ObjectsShrink(order, opposite, price, level, index, index');
  }

  lemma {:induction false} ObjectsShrink(order: PyOrder, opposite: PyLevels, price: Price, level: PyLevel,
                                         index: map<OrderId, PyOrder>, index': map<OrderId, PyOrder>)
    requires price in opposite && LevelShape(order, opposite[price], level, index, index')
    ensures LevelObjects(if level.orders == [] then opposite - {price} else opposite[price := level])
      <= LevelObjects(opposite)
  {
    var q := opposite[price].orders;
    assert forall o :: o in level.orders ==> o in q;
  }

  lemma LevelStateIsLive(goal: Outcome, order: Order, price: Price, queue: seq<Order>, total: Quantity,
                         index: map<OrderId, Order>, tail: seq<Order>, own: seq<Order>,
                         fills: seq<Fill>, completed: seq<OrderId>)
    requires LevelState(goal, order, price, queue, total, index, tail, own, fills, completed)
    ensures Live(index, queue + tail, own) && 0 <= order.remaining
  {
  }

  lemma {:induction false} RoundBegins(order: PyOrder, side: Side, levels: PyLevels, index: map<OrderId, PyOrder>, own: seq<Order>)
    requires side == order.side.Opposite() && 0 <= order.remaining && order !in index.Values
    requires LevelsShape(side, levels, index) && IndexShape(index)
    requires PriceLevels.LevelsOk(side, LevelViews(levels))
    requires Live(ViewIndex(index), Flat(side, LevelViews(levels)), own)
    ensures Round(Consume(order.View(), Flat(side, LevelViews(levels))), order.View(), order, side, levels, LevelViews(levels),
                  BestFirst(side, levels.Keys), 0, index, index, own, [], [])
  {
    assert LevelViews(levels).Keys == levels.Keys;
    SweepBegins(Consume(order.View(), Flat(side, LevelViews(levels))), order.View(), side, LevelViews(levels),
                ViewIndex(index), own);
  }

  lemma {:induction false} RoundEnds(goal: Outcome, incoming: Order, order: PyOrder, side: Side, opposite: PyLevels,
                                     full: Levels, ks: seq<Price>, k: nat,
                                     index0: map<OrderId, PyOrder>, index: map<OrderId, PyOrder>,
                                     own: seq<Order>, fills: seq<PyFill>, completed: seq<OrderId>)
    requires Round(goal, incoming, order, side, opposite, full, ks, k, index0, index, own, fills, completed)
    requires order.remaining <= 0 || k == |ks| || !order.View().Accepts(ks[k])
    ensures goal == Outcome(order.View(), Flat(side, LevelViews(opposite)), Plain(fills), completed)
    ensures PriceLevels.LevelsOk(side, LevelViews(opposite)) && LevelsShape(side, opposite, index)
    ensures Live(ViewIndex(index), Flat(side, LevelViews(opposite)), own) && IndexShape(index)
    ensures forall id :: id in index ==> id in index0 && index0[id] == index[id]
    ensures order.View() == incoming.(remaining := order.remaining) && 0 <= order.remaining
  {
    hide LevelsShape, IndexShape, Live, Flatten;
    assert order.View() == incoming.(remaining := order.remaining) && 0 <= order.remaining;
    SweepEnds(goal, incoming, order.View(), side, full, ks, k, ViewIndex(index), own, Plain(fills), completed);
    var views := LevelViews(opposite);
    var left := full - (set p | p in ks[..k]);
    assert views.Keys == opposite.Keys == left.Keys;
    assert forall p :: p in views ==> views[p] == full[p];
    assert views == left;
    DropLevels(side, full, ks, k, views);
    forall p | p in views
      ensures LevelOk(side, p, views[p])
    {
      assert p in ks[k..];
    }
  }

  // The rounds of the outer loop of _match, over a snapshot of the prices.
  method MatchPrices(order: PyOrder, initial: PyLevels, initialIndex: map<OrderId, PyOrder>, prices: seq<Price>,
                     ghost goal: Outcome, ghost incoming: Order, ghost side: Side, ghost initialFull: Levels, ghost own: seq<Order>)
    returns (opposite: PyLevels, index: map<OrderId, PyOrder>, fills: seq<PyFill>, completed: seq<OrderId>,
             ghost full: Levels, ghost gone: nat)
    requires Round(goal, incoming, order, side, initial, initialFull, prices, 0, initialIndex, initialIndex, own, [], [])
    modifies order, LevelObjects(initial)
    ensures Round(goal, incoming, order, side, opposite, full, prices, gone, initialIndex, index, own, fills, completed)
    ensures order.remaining <= 0 || gone == |prices| || (gone < |prices| && !order.View().Accepts(prices[gone]))
    ensures AccountsOk(fills, order, initialIndex) && order.status == old(order.status)
    ensures LevelObjects(opposite) <= LevelObjects(initial)
    ensures forall o :: o in LevelObjects(initial) && o != order ==>
      Progress(old(o.remaining), old(o.status), o.remaining, o.status)
  {
    hide Round;
    opposite, index, fills, completed := initial, initialIndex, [], [];
    full, gone := initialFull, 0;
    var i := 0;
    while i < |prices|
      invariant 0 <= gone <= i <= |prices|
      invariant i == gone || (i == gone + 1 && order.remaining <= 0)
      invariant Round(goal, incoming, order, side, opposite, full, prices, gone, initialIndex, index, own, fills, completed)
      invariant AccountsOk(fills, order, initialIndex) && order.status == old(order.status)
      invariant LevelObjects(opposite) <= LevelObjects(initial)
      invariant forall o :: o in LevelObjects(initial) && o != order ==>
        Progress(old(o.remaining), old(o.status), o.remaining, o.status)
    {
      var price := prices[i];
      if order.remaining <= 0 {
        break;
      }
      if !order.View().Accepts(price) {
        break;
      }
      opposite, index, fills, completed, full, gone :=
        MatchAt(order, opposite, index, fills, completed, price, goal, incoming, side, full, prices, gone, initialIndex, own);
      i := i + 1;
    }
  }

  // The outer loop of _match.
  method MatchLevels(order: PyOrder, initial: PyLevels, initialIndex: map<OrderId, PyOrder>,
                     ghost side: Side, ghost own: seq<Order>)
    returns (opposite: PyLevels, index: map<OrderId, PyOrder>, fills: seq<PyFill>, completed: seq<OrderId>)
    requires side == order.side.Opposite() && 0 < order.remaining && order !in initialIndex.Values
    requires LevelsShape(side, initial, initialIndex) && IndexShape(initialIndex)
    requires PriceLevels.LevelsOk(side, LevelViews(initial))
    requires Live(ViewIndex(initialIndex), Flat(side, LevelViews(initial)), own)
    modifies order, LevelObjects(initial)
    ensures Outcome(order.View(), Flat(side, LevelViews(opposite)), Plain(fills), completed)
      == Consume(old(order.View()), Flat(side, old(LevelViews(initial))))
    ensures PriceLevels.LevelsOk(side, LevelViews(opposite)) && LevelsShape(side, opposite, index)
    ensures Live(ViewIndex(index), Flat(side, LevelViews(opposite)), own) && IndexShape(index)
    ensures forall id :: id in index ==> id in initialIndex && initialIndex[id] == index[id]
    ensures AccountsOk(fills, order, initialIndex) && order.status == old(order.status) && 0 <= order.remaining
    ensures LevelObjects(opposite) <= LevelObjects(initial)
    ensures forall o :: o in LevelObjects(initial) && o != order ==>
      Progress(old(o.remaining), old(o.status), o.remaining, o.status)
  {
    hide LevelsShape, IndexShape, Live, Flat, BestFirst, Round, LevelObjects, Progress, AccountsOk;
    RoundBegins(order, side, initial, initialIndex, own);
    ghost var goal := Consume(order.View(), Flat(side, LevelViews(initial)));
    ghost var incoming := order.View();
    var prices := BestFirst(order.side.Opposite(), initial.Keys);
    ghost var full, gone;
    opposite, index, fills, completed, full, gone :=
      MatchPrices(order, initial, initialIndex, prices, goal, incoming, side, LevelViews(initial), own);
    RoundEnds(goal, incoming, order, side, opposite, full, prices, gone, initialIndex, index, own, fills, completed);
  }
}
