// The Python book's matching loop. Order objects are shared: the same object is in its
// level's queue, in the `orders` dictionary and with the caller, and matching changes it
// in place. The loops compute the same plain matching as the Rust engine's.
module PythonMatching {
  import opened Common
  import opened Orders
  import opened MatchingEngine

  datatype TimeInForce = GTC | IOC | FOK

  datatype OrderStatus = Open | PartiallyFilled | Filled | Cancelled | Rejected

  class PyOrder {
    const id: OrderId
    const account: nat
    const side: Side
    const orderType: OrderType
    const price: Option<Price>
    const quantity: Quantity
    const tif: TimeInForce
    const postOnly: bool
    var remaining: Quantity
    var status: OrderStatus

    constructor (id: OrderId, account: nat, side: Side, orderType: OrderType, price: Option<Price>,
                 quantity: Quantity, tif: TimeInForce, postOnly: bool)
      ensures this.id == id && this.account == account && this.side == side && this.orderType == orderType
      ensures this.price == price && this.quantity == quantity && this.tif == tif && this.postOnly == postOnly
      ensures remaining == quantity && status == Open
    {
      this.id, this.account, this.side, this.orderType := id, account, side, orderType;
      this.price, this.quantity, this.tif, this.postOnly := price, quantity, tif, postOnly;
      remaining, status := quantity, Open;
    }

    // The order as a value.
    function View(): Order
      reads this
    {
      Order(id, side, orderType, price, quantity, remaining)
    }
  }

  // A level is reachable only through its book, so it is kept as a value.
  datatype PyLevel = PyLevel(price: Price, orders: seq<PyOrder>, total: Quantity)

  type PyLevels = map<Price, PyLevel>

  // A fill, with the accounts of both orders.
  datatype PyFill = PyFill(fill: Fill, buyer: nat, seller: nat)

  function Plain(fills: seq<PyFill>): seq<Fill> {
    if fills == [] then [] else Plain(fills[..|fills| - 1]) + [fills[|fills| - 1].fill]
  }

  ghost function Views(q: seq<PyOrder>): (v: seq<Order>)
    reads q
    ensures |v| == |q| && forall i :: 0 <= i < |q| ==> v[i] == q[i].View()
  {
    if q == [] then [] else [q[0].View()] + Views(q[1..])
  }

  ghost function ViewIndex(index: map<OrderId, PyOrder>): map<OrderId, Order>
    reads index.Values
  {
    map id | id in index :: index[id].View()
  }

  // What never changes about the objects queued at one price.
  ghost predicate QueueShape(side: Side, p: Price, q: seq<PyOrder>, index: map<OrderId, PyOrder>) {
    && (forall i :: 0 <= i < |q| ==>
          q[i].side == side && q[i].price == Some(p) && q[i].id in index && index[q[i].id] == q[i])
    && (forall i, j :: 0 <= i < j < |q| ==> q[i].id != q[j].id)
  }

  ghost predicate IndexShape(index: map<OrderId, PyOrder>) {
    forall id :: id in index ==> index[id].id == id
  }

  // Both accounts of a fill are those of the orders it names.
  ghost predicate AccountsOk(fills: seq<PyFill>, taker: PyOrder, makers: map<OrderId, PyOrder>) {
    forall i :: 0 <= i < |fills| ==> AccountOk(fills[i], taker, makers)
  }

  lemma {:induction false} AccountsAppend(fills: seq<PyFill>, fill: PyFill, taker: PyOrder,
                                          maker: PyOrder, makers: map<OrderId, PyOrder>)
    requires AccountsOk(fills, taker, makers) && AccountOk(fill, taker, map[maker.id := maker])
    requires maker.id in makers && makers[maker.id] == maker
    ensures AccountsOk(fills + [fill], taker, makers)
    ensures Plain(fills + [fill]) == Plain(fills) + [fill.fill]
  {
    assert (fills + [fill])[..|fills|] == fills;
  }

  predicate AccountOk(f: PyFill, taker: PyOrder, makers: map<OrderId, PyOrder>) {
    if taker.side.Bid? then
      && f.fill.buyId == taker.id && f.buyer == taker.account
      && f.fill.sellId in makers && f.seller == makers[f.fill.sellId].account
    else
      && f.fill.sellId == taker.id && f.seller == taker.account
      && f.fill.buyId in makers && f.buyer == makers[f.fill.buyId].account
  }

  // What never changes while matching one level: the queue is an end of the level's queue,
  // its objects are the dictionary's, and the dictionary only loses entries.
  ghost predicate LevelShape(order: PyOrder, initial: PyLevel, level: PyLevel,
                             initialIndex: map<OrderId, PyOrder>, index: map<OrderId, PyOrder>)
  {
    && level.price == initial.price && |level.orders| <= |initial.orders|
    && level.orders == initial.orders[|initial.orders| - |level.orders|..]
    && QueueShape(order.side.Opposite(), level.price, level.orders, index)
    && IndexShape(index) && order !in index.Values
    && (forall id :: id in index ==> id in initialIndex && index[id] == initialIndex[id])
  }

  lemma {:induction false} HeadLeavesShape(order: PyOrder, initial: PyLevel, level: PyLevel,
                                           initialIndex: map<OrderId, PyOrder>, index: map<OrderId, PyOrder>, total: Quantity)
    requires LevelShape(order, initial, level, initialIndex, index) && level.orders != []
    ensures LevelShape(order, initial, PyLevel(level.price, level.orders[1..], total), initialIndex,
                       index - {level.orders[0].id})
    ensures LevelShape(order, initial, level.(total := total), initialIndex, index)
  {
    var n := |initial.orders| - |level.orders|;
    assert initial.orders[n..][1..] == initial.orders[n + 1..];
  }

  // What matching makes of a resting order: one that traded is filled or partially filled, one
  // that did not keeps its status.
  predicate Progress(remaining: Quantity, status: OrderStatus, remaining': Quantity, status': OrderStatus) {
    && remaining' <= remaining
    && status' == if remaining' == remaining then status else if remaining' <= 0 then Filled else PartiallyFilled
  }

  // One trade between the incoming order and a resting one, both changed in place.
  method TradeOnce(order: PyOrder, resting: PyOrder, price: Price) returns (fill: PyFill)
    requires order != resting && 0 < order.remaining && 0 < resting.remaining
    modifies order, resting
    ensures var qty := Min(old(order.remaining), old(resting.remaining));
      && order.View() == old(order.View()).(remaining := old(order.remaining) - qty)
      && resting.View() == old(resting.View()).(remaining := old(resting.remaining) - qty)
      && fill.fill == FillBetween(old(order.View()), old(resting.View()), price, qty)
    ensures order.status == old(order.status)
    ensures resting.status == if resting.remaining <= 0 then Filled else PartiallyFilled
    ensures AccountOk(fill, order, map[resting.id := resting])
  {
    var qty := Min(order.remaining, resting.remaining);
    order.remaining := order.remaining - qty;
    resting.remaining := resting.remaining - qty;
    if order.side.Bid? {
      fill := PyFill(Fill(order.id, resting.id, price, qty), order.account, resting.account);
    } else {
      fill := PyFill(Fill(resting.id, order.id, price, qty), resting.account, order.account);
    }
    resting.status := if resting.remaining <= 0 then Filled else PartiallyFilled;
  }

  lemma HeadIsApart(order: PyOrder, queue: seq<PyOrder>, price: Price, index: map<OrderId, PyOrder>)
    requires QueueShape(order.side.Opposite(), price, queue, index) && queue != []
    requires IndexShape(index) && order !in index.Values
    ensures order != queue[0] && queue[0] !in queue[1..] && order !in queue[1..]
    ensures queue[0].id in index && index[queue[0].id] == queue[0]
    ensures forall id :: id in index && index[id] == queue[0] ==> id == queue[0].id
    ensures queue[0].side == order.side.Opposite()
  {
  }

  // The body of the inner loop of _match: trade with the head of the queue.
  method TradeHead(order: PyOrder, level: PyLevel, index: map<OrderId, PyOrder>)
    returns (fill: PyFill, level': PyLevel, index': map<OrderId, PyOrder>)
    requires QueueShape(order.side.Opposite(), level.price, level.orders, index)
    requires IndexShape(index) && order !in index.Values
    requires level.orders != [] && 0 < order.remaining && 0 < level.orders[0].remaining
    requires level.orders[0].View().RestPrice() == level.price
    modifies order, level.orders[0]
    ensures order.status == old(order.status)
    ensures Trade(old(order.View()), order.View(), old(Views(level.orders)), Views(level'.orders), fill.fill)
    ensures fill.fill.quantity == Min(old(order.remaining), old(level.orders[0].remaining))
    ensures level.orders[0].remaining == old(level.orders[0].remaining) - fill.fill.quantity
    ensures var head := level.orders[0];
      if old(head.remaining) <= old(order.remaining) then
        && level' == PyLevel(level.price, level.orders[1..], level.total - fill.fill.quantity)
        && index' == index - {head.id}
        && ViewIndex(index') == old(ViewIndex(index)) - {head.id}
      else
        && level' == level.(total := level.total - fill.fill.quantity) && index' == index
        && ViewIndex(index') == old(ViewIndex(index))[head.id := head.View()]
    ensures level.orders[0].status == if level.orders[0].remaining <= 0 then Filled else PartiallyFilled
    ensures AccountOk(fill, order, map[level.orders[0].id := level.orders[0]])
  {
    hide QueueShape, IndexShape, AccountOk;
    var resting := level.orders[0];
    ghost var waiting := level.orders[1..];
    HeadIsApart(order, level.orders, level.price, index);
    ghost var waitingViews, index0, resting0 := Views(waiting), ViewIndex(index), resting.View();
    assert Views(level.orders) == [resting0] + waitingViews;
    fill := TradeOnce(order, resting, level.price);
    assert Views(waiting) == waitingViews;
    assert ViewIndex(index) == index0[resting.id := resting.View()];
    assert Views(level.orders) == [resting.View()] + waitingViews;
    if resting.remaining <= 0 {
      level' := PyLevel(level.price, level.orders[1..], level.total - fill.fill.quantity);
      index' := index - {resting.id};
    } else {
      level' := level.(total := level.total - fill.fill.quantity);
      index' := index;
    }
  }

  lemma {:induction false} HeadRests(goal: Outcome, order: Order, price: Price, queue: seq<Order>, total: Quantity,
                                     index: map<OrderId, Order>, tail: seq<Order>, own: seq<Order>,
                                     fills: seq<Fill>, completed: seq<OrderId>)
    requires LevelState(goal, order, price, queue, total, index, tail, own, fills, completed) && queue != []
    ensures 0 < queue[0].remaining && 0 <= order.remaining
  {
    assert Resting(order.side.Opposite(), queue[0]);
  }

  lemma {:induction false} HeadIsIndexed(order: PyOrder, initial: PyLevel, level: PyLevel,
                                         initialIndex: map<OrderId, PyOrder>, index: map<OrderId, PyOrder>)
    requires LevelShape(order, initial, level, initialIndex, index) && level.orders != []
    ensures var head := level.orders[0];
      && head in initial.orders && head != order
      && head.id in index && index[head.id] == head && head.id in initialIndex && initialIndex[head.id] == head
    ensures QueueShape(order.side.Opposite(), level.price, level.orders, index)
    ensures IndexShape(index) && order !in index.Values && level.price == initial.price
  {
    assert level.orders[0] == initial.orders[|initial.orders| - |level.orders|];
  }

  // One round of the inner loop of _match. `makers` are the resting orders before matching began.
  method TradeStep(order: PyOrder, level: PyLevel, index: map<OrderId, PyOrder>,
                   fills: seq<PyFill>, completed: seq<OrderId>,
                   ghost initial: PyLevel, ghost initialIndex: map<OrderId, PyOrder>,
                   ghost tail: seq<Order>, ghost own: seq<Order>, ghost goal: Outcome,
                   ghost makers: map<OrderId, PyOrder>)
    returns (level': PyLevel, index': map<OrderId, PyOrder>, fills': seq<PyFill>, completed': seq<OrderId>)
    requires 0 < order.remaining && order.View().Accepts(level.price) && level.orders != []
    requires LevelShape(order, initial, level, initialIndex, index)
    requires LevelState(goal, order.View(), level.price, Views(level.orders), level.total, ViewIndex(index),
                        tail, own, Plain(fills), completed)
    requires AccountsOk(fills, order, makers)
    requires forall id :: id in initialIndex ==> id in makers && makers[id] == initialIndex[id]
    modifies order, initial.orders
    ensures LevelShape(order, initial, level', initialIndex, index')
    ensures LevelState(goal, order.View(), level'.price, Views(level'.orders), level'.total, ViewIndex(index'),
                       tail, own, Plain(fills'), completed')
    ensures level'.price == level.price && order.status == old(order.status)
    ensures AccountsOk(fills', order, makers)
    ensures 0 <= order.remaining < old(order.remaining)
    ensures forall o :: o in initial.orders && o != order ==> Progress(old(o.remaining), old(o.status), o.remaining, o.status)
  {
    hide LevelState, LevelShape, QueueShape, IndexShape, AccountsOk, AccountOk, Plain, Tracks, FillBetween, ViewIndex;
    HeadIsIndexed(order, initial, level, initialIndex, index);
    var resting := level.orders[0];
    ghost var order0, queue0, index0 := order.View(), Views(level.orders), ViewIndex(index);
    HeadRests(goal, order0, level.price, queue0, level.total, index0, tail, own, Plain(fills), completed);
    HeadLeavesShape(order, initial, level, initialIndex, index, level.total - Min(order.remaining, resting.remaining));
    var fill;
    fill, level', index' := TradeHead(order, level, index);
    AccountsAppend(fills, fill, order, resting, makers);
    fills' := fills + [fill];
    completed' := if resting.remaining <= 0 then completed + [resting.id] else completed;
    ghost var order1, queue1, index1 := order.View(), Views(level'.orders), ViewIndex(index');
    LevelTrade(goal, order0, order1, level.price, queue0, queue1, level.total,
               index0, index1, tail, own, Plain(fills), fill.fill, completed, completed');
  }

  // The inner loop of _match.
  method MatchLevel(order: PyOrder, initial: PyLevel, initialIndex: map<OrderId, PyOrder>,
                    earlierFills: seq<PyFill>, earlierCompleted: seq<OrderId>,
                    ghost tail: seq<Order>, ghost own: seq<Order>, ghost goal: Outcome,
                    ghost makers: map<OrderId, PyOrder>)
    returns (level: PyLevel, index: map<OrderId, PyOrder>, fills: seq<PyFill>, completed: seq<OrderId>)
    requires 0 < order.remaining && order.View().Accepts(initial.price)
    requires LevelShape(order, initial, initial, initialIndex, initialIndex)
    requires LevelState(goal, order.View(), initial.price, Views(initial.orders), initial.total, ViewIndex(initialIndex),
                        tail, own, Plain(earlierFills), earlierCompleted)
    requires AccountsOk(earlierFills, order, makers)
    requires forall id :: id in initialIndex ==> id in makers && makers[id] == initialIndex[id]
    modifies order, initial.orders
    ensures LevelShape(order, initial, level, initialIndex, index)
    ensures LevelState(goal, order.View(), level.price, Views(level.orders), level.total, ViewIndex(index),
                       tail, own, Plain(fills), completed)
    ensures level.orders == [] || order.remaining <= 0
    ensures 0 <= order.remaining && level.price == initial.price && order.status == old(order.status)
    ensures AccountsOk(fills, order, makers)
    ensures forall o :: o in initial.orders && o != order ==> Progress(old(o.remaining), old(o.status), o.remaining, o.status)
  {
    hide LevelState, LevelShape, AccountsOk, Plain;
    level, index, fills, completed := initial, initialIndex, earlierFills, earlierCompleted;
    while level.orders != [] && order.remaining > 0
      invariant LevelShape(order, initial, level, initialIndex, index)
      invariant LevelState(goal, order.View(), level.price, Views(level.orders), level.total, ViewIndex(index),
                           tail, own, Plain(fills), completed)
      invariant 0 <= order.remaining && level.price == initial.price && order.status == old(order.status)
      invariant AccountsOk(fills, order, makers)
      invariant forall o :: o in initial.orders && o != order ==> Progress(old(o.remaining), old(o.status), o.remaining, o.status)
      decreases order.remaining
    {
      level, index, fills, completed :=
        TradeStep(order, level, index, fills, completed, initial, initialIndex, tail, own, goal, makers);
    }
  }
}
