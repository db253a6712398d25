// The Python order book.
module PythonBook {
  import opened Common
  import opened Orders
  import opened FlatBook
  import opened PriceLevels
  import opened MatchingEngine
  import opened PythonMatching
  import opened PythonLevels
  import opened OrderFlags
  import opened Taking

  datatype PlaceError = PriceMissing | PriceNotPositive | QuantityNotPositive

  datatype PyResult = PyResult(orderId: OrderId, fills: seq<PyFill>, completed: seq<OrderId>, rejected: bool)

  // Orders queued on a side are in the dictionary, so nothing else can be changed by matching.
  lemma {:induction false} ObjectsAreIndexed(side: Side, levels: PyLevels, index: map<OrderId, PyOrder>)
    requires LevelsShape(side, levels, index)
    ensures LevelObjects(levels) <= index.Values
    ensures forall o :: o in LevelObjects(levels) ==> o.side == side
  {
    forall o | o in LevelObjects(levels)
      ensures o in index.Values && o.side == side
    {
      var p :| p in levels && o in levels[p].orders;
      assert QueueShape(side, p, levels[p].orders, index);
      var i :| 0 <= i < |levels[p].orders| && levels[p].orders[i] == o;
      assert o.id in index && index[o.id] == o;
    }
  }

  // The untouched side keeps its objects in the dictionary.
  lemma {:induction false} OwnStaysIndexed(side: Side, levels: PyLevels, index: map<OrderId, PyOrder>,
                                           index': map<OrderId, PyOrder>, q: seq<Order>)
    requires LevelsShape(side, levels, index)
    requires forall id :: id in index' ==> id in index && index'[id] == index[id]
    requires Live(ViewIndex(index'), q, Flat(side, LevelViews(levels)))
    ensures LevelsShape(side, levels, index')
  {
    var views := LevelViews(levels);
    var ks := BestFirst(side, views.Keys);
    BestFirstIsKeyList(side, views.Keys);
    hide BestFirst;
    var own := Flatten(views, ks);
    forall p | p in levels
      ensures QueueShape(side, p, levels[p].orders, index')
    {
      assert p in views;
      assert p in ks;
      var queue := levels[p].orders;
      forall i | 0 <= i < |queue|
        ensures queue[i].id in index'
      {
        FlattenContains(views, ks, p, i);
        var j :| 0 <= j < |own| && own[j] == queue[i].View();
        assert own[j].id in ViewIndex(index');
      }
    }
  }

  lemma LiveIndexes(index: map<OrderId, Order>, q: seq<Order>, own: seq<Order>)
    requires Live(index, q, own)
    ensures Indexes(index, q, own) && Indexes(index, own, q)
  {
  }

  // Matching against one side, with what that means for the other.
  method MatchAgainst(order: PyOrder, initial: PyLevels, own: PyLevels, initialIndex: map<OrderId, PyOrder>, ghost side: Side)
    returns (opposite: PyLevels, index: map<OrderId, PyOrder>, fills: seq<PyFill>, completed: seq<OrderId>)
    requires side == order.side.Opposite() && 0 < order.remaining && order !in initialIndex.Values
    requires LevelsShape(side, initial, initialIndex) && LevelsShape(order.side, own, initialIndex) && IndexShape(initialIndex)
    requires PriceLevels.LevelsOk(side, LevelViews(initial))
    requires Live(ViewIndex(initialIndex), Flat(side, LevelViews(initial)), Flat(order.side, LevelViews(own)))
    modifies order, initialIndex.Values
    ensures Outcome(order.View(), Flat(side, LevelViews(opposite)), Plain(fills), completed)
      == Consume(old(order.View()), Flat(side, old(LevelViews(initial))))
    ensures PriceLevels.LevelsOk(side, LevelViews(opposite)) && LevelViews(own) == old(LevelViews(own))
    ensures LevelsShape(side, opposite, index) && LevelsShape(order.side, own, index) && IndexShape(index)
    ensures Indexes(ViewIndex(index), Flat(side, LevelViews(opposite)), Flat(order.side, LevelViews(own)))
    ensures forall id :: id in index ==> id in initialIndex && initialIndex[id] == index[id]
    ensures AccountsOk(fills, order, initialIndex) && order.status == old(order.status) && 0 <= order.remaining
    ensures LevelObjects(own) !! LevelObjects(opposite) && order !in LevelObjects(own) && order !in LevelObjects(opposite)
    ensures forall id :: id in initialIndex ==>
      Progress(old(initialIndex[id].remaining), old(initialIndex[id].status), initialIndex[id].remaining, initialIndex[id].status)
  {
    hide Live, LevelsShape, IndexShape, Flat, Consume, BestFirst, Plain, AccountsOk, PriceLevels.LevelsOk, Indexes;
    ObjectsAreIndexed(side, initial, initialIndex);
    ObjectsAreIndexed(order.side, own, initialIndex);
    assert forall o :: o in LevelObjects(own) ==> o !in LevelObjects(initial);
    ghost var ownQueue := Flat(order.side, LevelViews(own));
    opposite, index, fills, completed := PythonLevels.MatchLevels(order, initial, initialIndex, side, ownQueue);
    assert LevelViews(own) == old(LevelViews(own));
    ghost var left := Flat(side, LevelViews(opposite));
    OwnStaysIndexed(order.side, own, initialIndex, index, left);
    LiveIndexes(ViewIndex(index), left, ownQueue);
  }

  // The plain book that two sides stand for.
  ghost function BookView(bids: PyLevels, asks: PyLevels): Book
    reads LevelObjects(bids), LevelObjects(asks)
  {
    Book(Flat(Bid, LevelViews(bids)), Flat(Ask, LevelViews(asks)))
  }

  ghost predicate SidesValid(bids: PyLevels, asks: PyLevels, orders: map<OrderId, PyOrder>)
    reads orders.Values, LevelObjects(bids), LevelObjects(asks)
  {
    && LevelsShape(Bid, bids, orders) && LevelsShape(Ask, asks, orders) && IndexShape(orders)
    && PriceLevels.LevelsOk(Bid, LevelViews(bids)) && PriceLevels.LevelsOk(Ask, LevelViews(asks))
    && BookOk(BookView(bids, asks))
    && Indexes(ViewIndex(orders), BookView(bids, asks).bids, BookView(bids, asks).asks)
  }

  lemma {:induction false} IndexesAreLive(book: Book, index: map<OrderId, Order>, side: Side)
    requires BookOk(book) && Indexes(index, book.bids, book.asks)
    ensures Live(index, book.On(side), book.On(side.Opposite()))
  {
  }

  // _match against the opposite side of the book.
  method MatchSides(order: PyOrder, initialBids: PyLevels, initialAsks: PyLevels, initialIndex: map<OrderId, PyOrder>)
    returns (bids: PyLevels, asks: PyLevels, index: map<OrderId, PyOrder>, fills: seq<PyFill>, completed: seq<OrderId>)
    requires SidesValid(initialBids, initialAsks, initialIndex) && 0 < order.remaining && order !in initialIndex.Values
    modifies order, initialIndex.Values
    ensures SidesValid(bids, asks, index)
    ensures var book := old(BookView(initialBids, initialAsks));
      var out := Consume(old(order.View()), book.On(order.side.Opposite()));
      && BookView(bids, asks) == book.With(order.side.Opposite(), out.rest)
      && order.View() == out.taker && Plain(fills) == out.fills && completed == out.completed
    ensures AccountsOk(fills, order, initialIndex) && order.status == old(order.status) && 0 <= order.remaining
    ensures forall id :: id in index ==> id in initialIndex && initialIndex[id] == index[id]
    ensures forall id :: id in initialIndex ==>
      Progress(old(initialIndex[id].remaining), old(initialIndex[id].status), initialIndex[id].remaining, initialIndex[id].status)
  {
    hide Live, LevelsShape, IndexShape, Flat, Consume, BookOk, Indexes, Plain, AccountsOk, LevelViews,
         PriceLevels.LevelsOk;
    ghost var side := order.side.Opposite();
    ghost var book, taker := BookView(initialBids, initialAsks), order.View();
    ConsumeKeepsBook(book, taker);
    IndexesAreLive(book, ViewIndex(initialIndex), side);
    bids, asks := initialBids, initialAsks;
    if order.side.Bid? {
      asks, index, fills, completed := MatchAgainst(order, initialAsks, initialBids, initialIndex, side);
      IndexesSwap(ViewIndex(index), Flat(Bid, LevelViews(bids)), Flat(Ask, LevelViews(asks)));
    } else {
      bids, index, fills, completed := MatchAgainst(order, initialBids, initialAsks, initialIndex, side);
    }
    assert BookView(bids, asks) == book.With(side, Consume(taker, book.On(side)).rest);
  }

  lemma IndexesSwap(index: map<OrderId, Order>, p: seq<Order>, q: seq<Order>)
    ensures Indexes(index, p, q) <==> Indexes(index, q, p)
  {
  }

  // Liquidity at some of the prices.
  function LiquidityAt(taker: Order, q: seq<Order>, prices: set<Price>): Quantity {
    if q == [] then 0
    else
      var here := if q[0].RestPrice() in prices && taker.Accepts(q[0].RestPrice()) then q[0].remaining else 0;
      here + LiquidityAt(taker, q[1..], prices)
  }

  lemma {:induction false} NoPricesNoLiquidity(taker: Order, q: seq<Order>)
    ensures LiquidityAt(taker, q, {}) == 0
  {
    if q != [] {
      NoPricesNoLiquidity(taker, q[1..]);
    }
  }

  lemma {:induction false} OnePriceMore(taker: Order, q: seq<Order>, prices: set<Price>, p: Price)
    requires p !in prices
    ensures LiquidityAt(taker, q, prices + {p})
      == LiquidityAt(taker, q, prices) + if taker.Accepts(p) then QuantityAt(q, p) else 0
  {
    if q != [] {
      OnePriceMore(taker, q[1..], prices, p);
    }
  }

  lemma {:induction false} AllPricesVisited(side: Side, levels: Levels, taker: Order)
    requires PriceLevels.LevelsOk(side, levels)
    ensures LiquidityAt(taker, Flat(side, levels), levels.Keys) == Liquidity(taker, Flat(side, levels))
  {
    BestFirstIsKeyList(side, levels.Keys);
    var q := Flat(side, levels);
    FlattenPrices(side, levels, BestFirst(side, levels.Keys));
    hide BestFirst, Flatten;
    assert forall i :: 0 <= i < |q| ==> q[i].RestPrice() in levels.Keys;
    SameLiquidityAt(taker, q, levels.Keys);
  }

  lemma {:induction false} SameLiquidityAt(taker: Order, q: seq<Order>, prices: set<Price>)
    requires forall i :: 0 <= i < |q| ==> q[i].RestPrice() in prices
    ensures LiquidityAt(taker, q, prices) == Liquidity(taker, q)
  {
    if q != [] {
      SameLiquidityAt(taker, q[1..], prices);
    }
  }

  method SumAcceptable(order: PyOrder, book: PyLevels, ghost views: Levels) returns (total: Quantity)
    requires PriceLevels.LevelsOk(order.side.Opposite(), views) && views.Keys == book.Keys
    requires forall p :: p in book ==> views[p].totalQuantity == book[p].total
    ensures total == Liquidity(order.View(), Flat(order.side.Opposite(), views))
  {
    ghost var side, taker := order.side.Opposite(), order.View();
    ghost var q := Flat(side, views);
    total := 0;
    var todo := book.Keys;
    NoPricesNoLiquidity(taker, q);
    assert book.Keys - todo == {};
    while todo != {}
      invariant todo <= book.Keys
      invariant total == LiquidityAt(taker, q, book.Keys - todo)
    {
      ghost var some := SomeElement(todo);
      var price :| price in todo;
      if order.View().Accepts(price) {
        total := total + book[price].total;
      }
      LevelHoldsQuantity(side, views, price);
      OnePriceMore(taker, q, book.Keys - todo, price);
      assert book.Keys - (todo - {price}) == (book.Keys - todo) + {price};
      todo := todo - {price};
    }
    AllPricesVisited(side, views, taker);
    assert book.Keys - todo == views.Keys;
  }

  lemma {:induction false} CrossingPrice(side: Side, levels: Levels, taker: Order)
    requires PriceLevels.LevelsOk(side, levels)
    ensures (exists p :: p in levels && taker.Accepts(p)) <==> WouldCross(taker, Flat(side, levels))
  {
    var ks, q := BestFirst(side, levels.Keys), Flat(side, levels);
    BestFirstIsKeyList(side, levels.Keys);
    FlattenPrices(side, levels, ks);
    if p :| p in levels && taker.Accepts(p) {
      assert p in ks && LevelOk(side, p, levels[p]);
      FlattenContains(levels, ks, p, 0);
      var i :| 0 <= i < |q| && q[i] == levels[p].orders[0];
    }
    if WouldCross(taker, q) {
      var i :| 0 <= i < |q| && taker.Accepts(q[i].RestPrice());
      assert q[i].RestPrice() in ks;
    }
  }

  lemma {:induction false} ViewsAppend(q: seq<PyOrder>, o: PyOrder)
    ensures Views(q + [o]) == Views(q) + [o.View()]
  {
    assert forall i :: 0 <= i < |q + [o]| ==> Views(q + [o])[i] == (Views(q) + [o.View()])[i];
  }

  // The level of `price` with a newcomer at its back.
  function RestLevel(levels: PyLevels, order: PyOrder, price: Price): PyLevel
    reads order
  {
    if price in levels then PyLevel(price, levels[price].orders + [order], levels[price].total + order.remaining)
    else PyLevel(price, [order], order.remaining)
  }

  lemma {:induction false} RestKeepsShape(side: Side, levels: PyLevels, index: map<OrderId, PyOrder>, order: PyOrder, price: Price)
    requires order.price == Some(price) && order.side == side
    requires LevelsShape(side, levels, index) && order.id !in index
    ensures LevelsShape(side, levels[price := RestLevel(levels, order, price)], index[order.id := order])
  {
    forall p | p in levels
      ensures QueueShape(side, p, levels[p].orders, index[order.id := order])
    {
      assert QueueShape(side, p, levels[p].orders, index);
    }
    if price in levels {
      assert QueueShape(side, price, levels[price].orders, index);
    }
  }

  // As values, the order goes to the back of its level.
  lemma {:induction false} RestIsAdd(levels: PyLevels, order: PyOrder, price: Price)
    requires price in levels ==> levels[price].price == price
    ensures LevelViews(levels[price := RestLevel(levels, order, price)])
      == AddToLevels(LevelViews(levels), price, order.View())
  {
    var level := RestLevel(levels, order, price);
    ViewsAppend(if price in levels then levels[price].orders else [], order);
    assert [] + [order] == [order] && [] + [order.View()] == [order.View()];
    assert LevelView(level) == AddToLevels(LevelViews(levels), price, order.View())[price];
  }

  // One side with a newcomer at the back of its level.
  lemma {:induction false} RestOnSide(side: Side, levels: PyLevels, index: map<OrderId, PyOrder>, order: PyOrder, price: Price)
    requires order.price == Some(price) && order.side == side && Resting(side, order.View())
    requires LevelsShape(side, levels, index) && order.id !in index
    requires PriceLevels.LevelsOk(side, LevelViews(levels))
    ensures var levels' := levels[price := RestLevel(levels, order, price)];
      && LevelsShape(side, levels', index[order.id := order])
      && PriceLevels.LevelsOk(side, LevelViews(levels'))
      && Flat(side, LevelViews(levels')) == Enqueue(side, Flat(side, LevelViews(levels)), order.View())
  {
    assert price in levels ==> levels[price].price == price;
    hide LevelsShape, Flat, Enqueue, LevelViews, RestLevel, AddToLevels, PriceLevels.LevelsOk;
    RestKeepsShape(side, levels, index, order, price);
    RestIsAdd(levels, order, price);
    AddIsEnqueue(side, LevelViews(levels), order.View());
  }

  lemma {:induction false} OtherSideKeepsShape(side: Side, levels: PyLevels, index: map<OrderId, PyOrder>, order: PyOrder)
    requires LevelsShape(side, levels, index) && order.id !in index
    ensures LevelsShape(side, levels, index[order.id := order])
  {
    forall p | p in levels
      ensures QueueShape(side, p, levels[p].orders, index[order.id := order])
    {
      assert QueueShape(side, p, levels[p].orders, index);
    }
  }

  lemma {:induction false} RestIndexes(book: Book, orders: map<OrderId, PyOrder>, order: PyOrder)
    requires BookOk(book) && Indexes(ViewIndex(orders), book.bids, book.asks) && IndexShape(orders)
    requires !InBook(book, order.id)
    ensures order.id !in orders && IndexShape(orders[order.id := order])
    ensures var book' := book.With(order.side, Enqueue(order.side, book.On(order.side), order.View()));
      Indexes(ViewIndex(orders[order.id := order]), book'.bids, book'.asks)
  {
    var o, side, index := order.View(), order.side, ViewIndex(orders);
    IndexFindsOrder(book, index, order.id);
    assert ViewIndex(orders[order.id := order]) == index[order.id := o];
    IndexesSwap(index, book.bids, book.asks);
    EnqueueKeepsIndex(book.On(side), book.On(side.Opposite()), index, o);
    IndexesSwap(index[order.id := o], Enqueue(side, book.On(side), o), book.On(side.Opposite()));
  }

  lemma {:induction false} RestKeepsSides(bids: PyLevels, asks: PyLevels, orders: map<OrderId, PyOrder>,
                                          order: PyOrder, price: Price)
    requires SidesValid(bids, asks, orders)
    requires order.price == Some(price) && Resting(order.side, order.View()) && !InBook(BookView(bids, asks), order.id)
    requires forall x :: x in BookView(bids, asks).On(order.side.Opposite()) ==> !order.View().Accepts(x.RestPrice())
    ensures
      var bids' := if order.side.Bid? then bids[price := RestLevel(bids, order, price)] else bids;
      var asks' := if order.side.Bid? then asks else asks[price := RestLevel(asks, order, price)];
      && SidesValid(bids', asks', orders[order.id := order])
      && BookView(bids', asks')
         == BookView(bids, asks).With(order.side,
                                      Enqueue(order.side, BookView(bids, asks).On(order.side), order.View()))
  {
    hide Flat, Enqueue, BookOk, LevelsShape, LevelViews, PriceLevels.LevelsOk, RestLevel, Indexes, IndexShape;
    var book := BookView(bids, asks);
    RestKeepsBook(book, order.View());
    RestIndexes(book, orders, order);
    if order.side.Bid? {
      RestOnSide(Bid, bids, orders, order, price);
      OtherSideKeepsShape(Ask, asks, orders, order);
    } else {
      RestOnSide(Ask, asks, orders, order, price);
      OtherSideKeepsShape(Bid, bids, orders, order);
    }
  }

  // What is left of a good-till-cancelled order crosses nothing and may rest.
  lemma {:induction false} LeftoverMayRest(book: Book, taker: Order)
    requires BookOk(book) && 0 < taker.remaining <= taker.quantity
    requires taker.orderType.Limit? && taker.price.Some? && !InBook(book, taker.id)
    requires !Consume(taker, book.On(taker.side.Opposite())).taker.IsFilled()
    ensures var out := Consume(taker, book.On(taker.side.Opposite()));
      var matched := book.With(taker.side.Opposite(), out.rest);
      && Resting(taker.side, out.taker) && !InBook(matched, taker.id)
      && matched.On(taker.side) == book.On(taker.side)
      && forall x :: x in matched.On(taker.side.Opposite()) ==> !out.taker.Accepts(x.RestPrice())
  {
    LeftoverRests(book, taker);
    var q := book.On(taker.side.Opposite());
    assert SideOk(taker.side.Opposite(), q);
    UnfilledTakerExhausts(taker, q);
  }

  // deque.remove: drop the object from its queue.
  function RemoveObject(q: seq<PyOrder>, o: PyOrder): seq<PyOrder> {
    if q == [] then [] else if q[0] == o then q[1..] else [q[0]] + RemoveObject(q[1..], o)
  }

  lemma {:induction false} RemoveObjectAt(q: seq<PyOrder>, k: nat)
    requires k < |q| && forall i, j :: 0 <= i < j < |q| ==> q[i].id != q[j].id
    ensures RemoveObject(q, q[k]) == q[..k] + q[k + 1..]
  {
    if k > 0 {
      var tail := q[1..];
      assert q[0] != q[k] && tail[k - 1] == q[k];
      forall i, j | 0 <= i < j < |tail|
        ensures tail[i].id != tail[j].id
      {
        assert tail[i] == q[i + 1] && tail[j] == q[j + 1];
      }
      RemoveObjectAt(tail, k - 1);
      assert [q[0]] + (tail[..k - 1] + tail[k..]) == q[..k] + q[k + 1..];
    }
  }

  lemma {:induction false} ViewsWithoutObject(q: seq<PyOrder>, o: PyOrder)
    requires o in q
    requires forall i, j :: 0 <= i < j < |q| ==> q[i].id != q[j].id
    ensures Views(RemoveObject(q, o)) == Without(Views(q), o.id)
  {
    var tail := q[1..];
    assert q == [q[0]] + tail;
    assert forall i :: 0 <= i < |tail| ==> tail[i] == q[i + 1];
    if q[0] == o {
      assert forall i :: 0 <= i < |tail| ==> Views(tail)[i].id != o.id;
      WithoutAbsent(Views(tail), o.id);
    } else {
      ViewsWithoutObject(tail, o);
      var i :| 0 <= i < |q| && q[i] == o;
      assert q[0].id != o.id;
    }
  }

  // One side without an order, and without its level if that empties it.
  function CancelLevels(levels: PyLevels, order: PyOrder, price: Price): PyLevels
    reads order
    requires price in levels
  {
    var queue := RemoveObject(levels[price].orders, order);
    if queue == [] then levels - {price}
    else levels[price := PyLevel(price, queue, levels[price].total - order.remaining)]
  }

  lemma {:induction false} CancelFinds(bids: PyLevels, asks: PyLevels, orders: map<OrderId, PyOrder>, id: OrderId)
    requires SidesValid(bids, asks, orders)
    ensures id in orders <==> InBook(BookView(bids, asks), id)
    ensures id !in orders ==> Orders.Cancel(BookView(bids, asks), id) == BookView(bids, asks) && orders - {id} == orders
    ensures id in orders ==> orders[id] !in (orders - {id}).Values
    ensures id in orders ==>
      var o := orders[id];
      var levels := if o.side.Bid? then bids else asks;
      && o.id == id && o.price.Some? && o.price.value in levels && o in levels[o.price.value].orders
      && o.View() in BookView(bids, asks).On(o.side)
  {
    var book := BookView(bids, asks);
    IndexFindsOrder(book, ViewIndex(orders), id);
    if id in orders {
      OrderIsQueued(orders[id].side, if orders[id].side.Bid? then bids else asks, orders, orders[id]);
    } else {
      WithoutAbsent(book.bids, id);
      WithoutAbsent(book.asks, id);
    }
  }

  // An order whose value is on its side sits, as an object, in the level of its price.
  lemma {:induction false} OrderIsQueued(side: Side, levels: PyLevels, index: map<OrderId, PyOrder>, o: PyOrder)
    requires LevelsShape(side, levels, index) && o.id in index && index[o.id] == o && o.price.Some?
    requires PriceLevels.LevelsOk(side, LevelViews(levels))
    requires o.View() in Flat(side, LevelViews(levels))
    ensures o.price.value in levels && o in levels[o.price.value].orders
  {
    var views := LevelViews(levels);
    var p := o.price.value;
    hide BestFirst, Flatten;
    OrderIsInItsLevel(side, views, BestFirst(side, views.Keys), o.View());
    assert QueueShape(side, p, levels[p].orders, index);
    var queue := levels[p].orders;
    var i :| 0 <= i < |queue| && Views(queue)[i] == o.View();
    assert queue[i] == o;
  }

  lemma {:induction false} CancelKeepsQueue(side: Side, p: Price, queue: seq<PyOrder>, index: map<OrderId, PyOrder>, o: PyOrder)
    requires QueueShape(side, p, queue, index) && o in queue
    ensures QueueShape(side, p, RemoveObject(queue, o), index - {o.id})
  {
    var k :| 0 <= k < |queue| && queue[k] == o;
    RemoveObjectAt(queue, k);
    ShorterQueue(side, p, queue, index, k);
  }

  lemma {:induction false} ShorterQueue(side: Side, p: Price, queue: seq<PyOrder>, index: map<OrderId, PyOrder>, k: nat)
    requires QueueShape(side, p, queue, index) && k < |queue|
    ensures QueueShape(side, p, queue[..k] + queue[k + 1..], index - {queue[k].id})
  {
    var r := queue[..k] + queue[k + 1..];
    forall i | 0 <= i < |r|
      ensures r[i] == queue[if i < k then i else i + 1]
    {
    }
  }

  lemma {:induction false} CancelKeepsShape(side: Side, levels: PyLevels, index: map<OrderId, PyOrder>, o: PyOrder)
    requires LevelsShape(side, levels, index) && o.id in index && index[o.id] == o
    requires o.price.Some? && o.price.value in levels && o in levels[o.price.value].orders
    ensures LevelsShape(side, CancelLevels(levels, o, o.price.value), index - {o.id})
  {
    var p, levels' := o.price.value, CancelLevels(levels, o, o.price.value);
    CancelKeepsQueue(side, p, levels[p].orders, index, o);
    forall q | q in levels && q != p
      ensures QueueShape(side, q, levels[q].orders, index - {o.id})
    {
      assert QueueShape(side, q, levels[q].orders, index);
    }
  }

  // As values, the order leaves its level.
  lemma LevelWithoutObject(side: Side, p: Price, queue: seq<PyOrder>, index: map<OrderId, PyOrder>, o: PyOrder)
    requires QueueShape(side, p, queue, index) && o in queue
    ensures Views(RemoveObject(queue, o)) == Without(Views(queue), o.id)
  {
    ViewsWithoutObject(queue, o);
  }

  lemma CancelIsRemoval(side: Side, levels: PyLevels, index: map<OrderId, PyOrder>, o: PyOrder, p: Price)
    requires LevelsShape(side, levels, index) && p in levels && o in levels[p].orders
    ensures var views := LevelViews(levels);
      var level := PriceLevel(p, Without(views[p].orders, o.id), views[p].totalQuantity - o.remaining);
      LevelViews(CancelLevels(levels, o, p)) == WithQueue(views, p, level)
  {
    hide QueueShape, RemoveObject, Without;
    assert QueueShape(side, p, levels[p].orders, index) && levels[p].price == p;
    LevelWithoutObject(side, p, levels[p].orders, index, o);
    var views, queue := LevelViews(levels), RemoveObject(levels[p].orders, o);
    var level := PriceLevel(p, Without(views[p].orders, o.id), views[p].totalQuantity - o.remaining);
    assert Views(queue) == level.orders;
    assert LevelViews(CancelLevels(levels, o, p)).Keys == WithQueue(views, p, level).Keys;
  }

  lemma {:induction false} CancelOnSide(side: Side, levels: PyLevels, index: map<OrderId, PyOrder>, o: PyOrder)
    requires LevelsShape(side, levels, index) && o.id in index && index[o.id] == o
    requires o.price.Some? && o.price.value in levels && o in levels[o.price.value].orders
    requires PriceLevels.LevelsOk(side, LevelViews(levels)) && UniqueIds(Flat(side, LevelViews(levels)))
    requires o.View() in Flat(side, LevelViews(levels))
    ensures PriceLevels.LevelsOk(side, LevelViews(CancelLevels(levels, o, o.price.value)))
    ensures Flat(side, LevelViews(CancelLevels(levels, o, o.price.value)))
      == Without(Flat(side, LevelViews(levels)), o.id)
  {
    hide LevelsShape, Flat, PriceLevels.LevelsOk, RemoveObject, UniqueIds, Views, Without, WithQueue, CancelLevels;
    var p, views := o.price.value, LevelViews(levels);
    CancelIsRemoval(side, levels, index, o, p);
    var level := PriceLevel(p, Without(views[p].orders, o.id), views[p].totalQuantity - o.remaining);
    RemoveFromLevel(side, views, o.View(), level);
  }

  lemma {:induction false} OtherSideKeepsShapeOnCancel(side: Side, levels: PyLevels, index: map<OrderId, PyOrder>, o: PyOrder)
    requires LevelsShape(side, levels, index) && o.id in index && index[o.id] == o && o.side != side
    ensures LevelsShape(side, levels, index - {o.id})
  {
    forall p | p in levels
      ensures QueueShape(side, p, levels[p].orders, index - {o.id})
    {
      assert QueueShape(side, p, levels[p].orders, index);
    }
  }

  lemma CancelIndexes(book: Book, orders: map<OrderId, PyOrder>, o: PyOrder)
    requires BookOk(book) && Indexes(ViewIndex(orders), book.bids, book.asks) && IndexShape(orders)
    ensures BookOk(Orders.Cancel(book, o.id)) && IndexShape(orders - {o.id})
    ensures Indexes(ViewIndex(orders - {o.id}), Orders.Cancel(book, o.id).bids, Orders.Cancel(book, o.id).asks)
  {
    hide BookOk, Indexes;
    CancelKeepsBook(book, o.id);
    CancelKeepsIndex(book, ViewIndex(orders), o.id);
    assert ViewIndex(orders - {o.id}) == ViewIndex(orders) - {o.id};
  }

  lemma {:induction false} CancelKeepsSides(bids: PyLevels, asks: PyLevels, orders: map<OrderId, PyOrder>, o: PyOrder)
    requires SidesValid(bids, asks, orders) && o.id in orders && orders[o.id] == o && o.price.Some?
    requires var levels := if o.side.Bid? then bids else asks;
      o.price.value in levels && o in levels[o.price.value].orders
    requires o.View() in BookView(bids, asks).On(o.side)
    ensures
      var bids' := if o.side.Bid? then CancelLevels(bids, o, o.price.value) else bids;
      var asks' := if o.side.Bid? then asks else CancelLevels(asks, o, o.price.value);
      && SidesValid(bids', asks', orders - {o.id})
      && BookView(bids', asks') == Orders.Cancel(BookView(bids, asks), o.id)
      && LevelObjects(bids') <= (orders - {o.id}).Values && LevelObjects(asks') <= (orders - {o.id}).Values
  {
    var book := BookView(bids, asks);
    assert UniqueIds(book.bids) && UniqueIds(book.asks);
    hide Flat, BookOk, LevelsShape, LevelViews, PriceLevels.LevelsOk, CancelLevels, Indexes, UniqueIds, IndexShape, ViewIndex;
    var bids' := if o.side.Bid? then CancelLevels(bids, o, o.price.value) else bids;
    var asks' := if o.side.Bid? then asks else CancelLevels(asks, o, o.price.value);
    WithoutOther(book, o.View());
    CancelIndexes(book, orders, o);
    if o.side.Bid? {
      CancelKeepsShape(Bid, bids, orders, o);
      CancelOnSide(Bid, bids, orders, o);
      OtherSideKeepsShapeOnCancel(Ask, asks, orders, o);
    } else {
      CancelKeepsShape(Ask, asks, orders, o);
      CancelOnSide(Ask, asks, orders, o);
      OtherSideKeepsShapeOnCancel(Bid, bids, orders, o);
    }
    ObjectsAreIndexed(Bid, bids', orders - {o.id});
    ObjectsAreIndexed(Ask, asks', orders - {o.id});
  }

  // No other object enters the dictionary.
  ghost predicate OnlyJoins(before: map<OrderId, PyOrder>, order: PyOrder, after: map<OrderId, PyOrder>) {
    forall id :: id in after ==> after[id] == order || (id in before && before[id] == after[id])
  }

  lemma NoFills(order: PyOrder, makers: map<OrderId, PyOrder>)
    ensures Plain([]) == [] && AccountsOk([], order, makers)
  {
  }

  class PyBook {
    var bids: PyLevels
    var asks: PyLevels
    var orders: map<OrderId, PyOrder>

    function LevelsOn(side: Side): PyLevels
      reads this
    {
      if side.Bid? then bids else asks
    }

    // The plain book this one stands for.
    ghost function Contents(): Book
      reads this, LevelObjects(bids), LevelObjects(asks)
    {
      BookView(bids, asks)
    }

    ghost predicate Valid()
      reads this, orders.Values, LevelObjects(bids), LevelObjects(asks)
    {
      SidesValid(bids, asks, orders)
    }

    constructor ()
      ensures Valid() && Contents() == EMPTY_BOOK && orders == map[]
    {
      bids, asks, orders := map[], map[], map[];
    }

    method Match(order: PyOrder) returns (fills: seq<PyFill>, completed: seq<OrderId>)
      requires Valid() && 0 < order.remaining && order !in orders.Values
      modifies this, order, orders.Values
      ensures Valid()
      ensures var out := Consume(old(order.View()), old(Contents()).On(order.side.Opposite()));
        && Contents() == old(Contents()).With(order.side.Opposite(), out.rest)
        && order.View() == out.taker && Plain(fills) == out.fills && completed == out.completed
      ensures AccountsOk(fills, order, old(orders)) && order.status == old(order.status) && 0 <= order.remaining
      ensures forall id :: id in orders ==> id in old(orders) && old(orders)[id] == orders[id]
      ensures forall id :: id in old(orders) ==>
        var o := old(orders)[id]; Progress(old(o.remaining), old(o.status), o.remaining, o.status)
    {
      hide SidesValid, BookView, Consume, AccountsOk, Plain;
      var bids', asks', orders';
      ghost var makers := orders;
      bids', asks', orders', fills, completed := MatchSides(order, bids, asks, orders);
      assert forall id :: id in makers ==> this as object != makers[id] as object;
      Install(bids', asks', orders');
    }

    // Replacing the dictionaries; the book is none of the orders it holds.
    method Install(bids': PyLevels, asks': PyLevels, orders': map<OrderId, PyOrder>)
      requires SidesValid(bids', asks', orders')
      modifies this
      ensures bids == bids' && asks == asks' && orders == orders'
      ensures Valid() && Contents() == old(BookView(bids', asks'))
    {
      hide SidesValid, BookView;
      ghost var book := BookView(bids', asks');
      assert this as object !in (set o | o in orders'.Values :: o as object);
      assert this as object !in (set o | o in LevelObjects(bids') :: o as object);
      assert this as object !in (set o | o in LevelObjects(asks') :: o as object);
      bids, asks, orders := bids', asks', orders';
      assert SidesValid(bids, asks, orders);
      assert BookView(bids, asks) == book;
    }

    // _available_liquidity: the cached totals of the acceptable levels, in any order.
    method AvailableLiquidity(order: PyOrder) returns (total: Quantity)
      requires Valid()
      ensures Valid() && Contents() == old(Contents()) && order.View() == old(order.View())
      ensures total == Liquidity(order.View(), Contents().On(order.side.Opposite()))
    {
      hide LevelsShape, IndexShape, BookOk, Indexes, Flat, Liquidity;
      ObjectsAreIndexed(Bid, bids, orders);
      ObjectsAreIndexed(Ask, asks, orders);
      assert forall o :: o in LevelObjects(bids) || o in LevelObjects(asks) ==> o in orders.Values;
      ghost var book := Contents();
      total := SumAcceptable(order, LevelsOn(order.side.Opposite()), LevelViews(LevelsOn(order.side.Opposite())));
      assert Contents() == book;
    }

    // _would_cross
    predicate Crosses(order: PyOrder)
      reads this, orders.Values, LevelObjects(bids), LevelObjects(asks), order
      requires Valid()
      ensures Crosses(order) <==> WouldCross(order.View(), Contents().On(order.side.Opposite()))
    {
      CrossingPrice(order.side.Opposite(), LevelViews(LevelsOn(order.side.Opposite())), order.View());
      exists p :: p in LevelsOn(order.side.Opposite()) && order.View().Accepts(p)
    }

    // _rest: the order joins its level and the dictionary.
    method Rest(order: PyOrder)
      requires Valid() && order !in orders.Values
      requires Resting(order.side, order.View()) && !InBook(Contents(), order.id)
      requires forall x :: x in Contents().On(order.side.Opposite()) ==> !order.View().Accepts(x.RestPrice())
      modifies this
      ensures Valid()
      ensures Contents() == old(Contents()).With(order.side, Enqueue(order.side, old(Contents()).On(order.side), order.View()))
      ensures orders == old(orders)[order.id := order]
    {
      hide SidesValid, BookView, Enqueue, RestLevel;
      var price := order.price.value;
      RestKeepsSides(bids, asks, orders, order, price);
      var bids' := if order.side.Bid? then bids[price := RestLevel(bids, order, price)] else bids;
      var asks' := if order.side.Bid? then asks else asks[price := RestLevel(asks, order, price)];
      var orders' := orders[order.id := order];
      Install(bids', asks', orders');
    }

    lemma ApartFromBook(order: PyOrder)
      requires Valid() && order !in orders.Values
      ensures order !in LevelObjects(bids) && order !in LevelObjects(asks)
    {
      ObjectsAreKnown();
    }

    lemma BookIsOk()
      requires Valid()
      ensures BookOk(Contents())
    {
    }

    lemma ObjectsAreKnown()
      requires Valid()
      ensures LevelObjects(bids) <= orders.Values && LevelObjects(asks) <= orders.Values
    {
      hide PriceLevels.LevelsOk, BookOk, Indexes, IndexShape, LevelsShape, BookView;
      ObjectsAreIndexed(Bid, bids, orders);
      ObjectsAreIndexed(Ask, asks, orders);
    }

    // Changing an order that is not in the book leaves the book alone.
    method SetOrder(order: PyOrder, remaining: Quantity, status: OrderStatus)
      requires Valid() && order !in orders.Values
      modifies order
      ensures Valid() && Contents() == old(Contents())
      ensures order.remaining == remaining && order.status == status
    {
      hide SidesValid, BookView, LevelObjects;
      ApartFromBook(order);
      order.remaining, order.status := remaining, status;
    }

    // add_limit_order
    method AddLimitOrder(order: PyOrder) returns (r: Result<PyResult, PlaceError>)
      requires Valid() && order !in orders.Values && !InBook(Contents(), order.id)
      requires order.orderType.Limit?
      modifies this, order, orders.Values
      ensures Valid()
      ensures r.Err? <==> order.price.None? || order.price.value <= 0 || order.quantity <= 0
      ensures r == Err(PriceMissing) <==> order.price.None?
      ensures r == Err(PriceNotPositive) <==> order.price.Some? && order.price.value <= 0
      ensures r.Err? ==> Contents() == old(Contents()) && unchanged(order)
      ensures r.Ok? ==>
        var out := PlaceFlagged(old(Contents()), old(order.View()).(remaining := order.quantity), order.tif, order.postOnly);
        && Contents() == out.book && order.View() == out.taker && order.status == out.status
        && r.value.orderId == order.id && Plain(r.value.fills) == out.fills && r.value.completed == out.completed
        && (r.value.rejected <==> out.status == Rejected)
        && AccountsOk(r.value.fills, order, old(orders))
      ensures forall id :: id in old(orders) ==>
        var o := old(orders)[id]; Progress(old(o.remaining), old(o.status), o.remaining, o.status)
      ensures OnlyJoins(old(orders), order, orders)
    {
      hide SidesValid, BookView, PlaceFlagged, Plain, AccountsOk;
      if order.price.None? {
        return Err(PriceMissing);
      }
      if order.price.value <= 0 {
        return Err(PriceNotPositive);
      }
      if order.quantity <= 0 {
        return Err(QuantityNotPositive);
      }
      SetOrder(order, order.quantity, order.status);
      var result := PlaceChecked(order);
      return Ok(result);
    }

    // The rest of add_limit_order, once the order is validated.
    method PlaceChecked(order: PyOrder) returns (result: PyResult)
      requires Valid() && order !in orders.Values && !InBook(Contents(), order.id)
      requires order.orderType.Limit? && order.price.Some? && 0 < order.quantity == order.remaining
      modifies this, order, orders.Values
      ensures Valid()
      ensures
        var out := PlaceFlagged(old(Contents()), old(order.View()), order.tif, order.postOnly);
        && Contents() == out.book && order.View() == out.taker && order.status == out.status
        && result.orderId == order.id && Plain(result.fills) == out.fills && result.completed == out.completed
        && (result.rejected <==> out.status == Rejected)
        && AccountsOk(result.fills, order, old(orders))
      ensures forall id :: id in old(orders) ==>
        var o := old(orders)[id]; Progress(old(o.remaining), old(o.status), o.remaining, o.status)
      ensures OnlyJoins(old(orders), order, orders)
    {
      hide SidesValid, BookView, Admitted, WouldCross, Liquidity, AccountsOk, Plain, InBook;
      var refused := Refuses(order);
      if refused {
        SetOrder(order, order.remaining, Rejected);
        NoFills(order, orders);
        return PyResult(order.id, [], [], true);
      }
      result := PlaceAdmitted(order);
    }

    // An order that passed the checks is matched; what is left rests, unless it must not.
    method PlaceAdmitted(order: PyOrder) returns (result: PyResult)
      requires Valid() && order !in orders.Values && !InBook(Contents(), order.id)
      requires order.orderType.Limit? && order.price.Some? && 0 < order.quantity == order.remaining
      modifies this, order, orders.Values
      ensures Valid()
      ensures
        var out := Admitted(old(Contents()), old(order.View()), order.tif);
        && Contents() == out.book && order.View() == out.taker && order.status == out.status && out.status != Rejected
        && result.orderId == order.id && Plain(result.fills) == out.fills && result.completed == out.completed
        && !result.rejected && AccountsOk(result.fills, order, old(orders))
      ensures forall id :: id in old(orders) ==>
        var o := old(orders)[id]; Progress(old(o.remaining), old(o.status), o.remaining, o.status)
      ensures OnlyJoins(old(orders), order, orders)
    {
      ghost var book, taker := Contents(), order.View();
      assert BookOk(book);
      hide SidesValid, BookView, Consume, Admitted, BookOk, AccountsOk, Plain, InBook, LevelObjects;
      AdmittedFills(book, taker, order.tif);
      var fills, completed := Match(order);
      completed := Conclude(order, completed, book, taker);
      return PyResult(order.id, fills, completed, false);
    }

    // What becomes of a matched order.
    method Conclude(order: PyOrder, matched: seq<OrderId>, ghost book: Book, ghost taker: Order)
      returns (completed: seq<OrderId>)
      requires Valid() && order !in orders.Values && BookOk(book) && !InBook(book, order.id)
      requires taker == order.View().(remaining := order.quantity) && 0 < order.quantity
      requires order.orderType.Limit? && order.price.Some? && 0 <= order.remaining
      requires var out := Consume(taker, book.On(taker.side.Opposite()));
        && Contents() == book.With(taker.side.Opposite(), out.rest) && order.View() == out.taker && matched == out.completed
      modifies this, order
      ensures Valid()
      ensures var out := Admitted(book, taker, order.tif);
        && Contents() == out.book && order.View() == out.taker && order.status == out.status && out.status != Rejected
        && completed == out.completed
      ensures OnlyJoins(old(orders), order, orders)
    {
      hide SidesValid, BookView, Consume, Enqueue, BookOk, InBook;
      completed := matched;
      if order.remaining <= 0 {
        SetOrder(order, order.remaining, Filled);
        completed := completed + [order.id];
      } else if order.tif.IOC? || order.tif.FOK? {
        SetOrder(order, order.remaining, Cancelled);
      } else {
        LeftoverMayRest(book, taker);
        SetOrder(order, order.remaining, if order.quantity - order.remaining > 0 then PartiallyFilled else Open);
        Rest(order);
      }
    }

    // The post-only and fill-or-kill checks before matching.
    method Refuses(order: PyOrder) returns (refused: bool)
      requires Valid()
      ensures Valid() && Contents() == old(Contents()) && order.View() == old(order.View())
      ensures var q := Contents().On(order.side.Opposite());
        refused <==>
          || (order.postOnly && WouldCross(order.View(), q))
          || (order.tif.FOK? && Liquidity(order.View(), q) < order.quantity)
    {
      if order.postOnly && Crosses(order) {
        return true;
      }
      if order.tif.FOK? {
        var available := AvailableLiquidity(order);
        return available < order.quantity;
      }
      return false;
    }

    // add_market_order: whatever cannot be traded is dropped.
    method AddMarketOrder(order: PyOrder) returns (r: Result<PyResult, PlaceError>)
      requires Valid() && order !in orders.Values
      requires order.orderType.Market? && order.price.None?
      modifies this, order, orders.Values
      ensures Valid()
      ensures r == Err(QuantityNotPositive) <==> order.quantity <= 0
      ensures r.Err? <==> order.quantity <= 0
      ensures r.Err? ==> Contents() == old(Contents()) && unchanged(order)
      ensures r.Ok? ==>
        var placed := PlaceMarket(old(Contents()), order.id, order.side, order.quantity);
        && Contents() == placed.book
        && placed.result == OrderResult(r.value.orderId, Plain(r.value.fills), r.value.completed)
        && order.status == (if order.remaining == 0 then Filled else Cancelled) && !r.value.rejected
        && AccountsOk(r.value.fills, order, old(orders))
      ensures r.Ok? ==>
        var taken := Min(order.quantity, TotalRemaining(old(Contents()).On(order.side.Opposite())));
        FillTotal(Plain(r.value.fills)) == taken && order.remaining == order.quantity - taken
      ensures forall id :: id in old(orders) ==>
        var o := old(orders)[id]; Progress(old(o.remaining), old(o.status), o.remaining, o.status)
      ensures OnlyJoins(old(orders), order, orders)
    {
      hide SidesValid, BookView, Consume, Plain, AccountsOk, BookOk, SideOk;
      if order.quantity <= 0 {
        return Err(QuantityNotPositive);
      }
      BookIsOk();
      SetOrder(order, order.quantity, order.status);
      MarketTakesAll(Contents(), order.View());
      var fills, completed := Match(order);
      if order.remaining <= 0 {
        SetOrder(order, order.remaining, Filled);
        completed := completed + [order.id];
      } else {
        SetOrder(order, order.remaining, Cancelled);
      }
      return Ok(PyResult(order.id, fills, completed, false));
    }

    method CancelOrder(orderId: OrderId) returns (cancelled: bool)
      requires Valid()
      modifies this, orders.Values
      ensures Valid()
      ensures cancelled == InBook(old(Contents()), orderId)
      ensures Contents() == Orders.Cancel(old(Contents()), orderId)
      ensures cancelled ==> orderId in old(orders) && old(orders)[orderId].status == Cancelled
      ensures orders == old(orders) - {orderId}
    {
      hide SidesValid, BookView, CancelLevels, Orders.Cancel, InBook, IndexShape, LevelObjects;
      CancelFinds(bids, asks, orders, orderId);
      if orderId !in orders {
        return false;
      }
      var order := orders[orderId];
      var price := order.price.value;
      CancelKeepsSides(bids, asks, orders, order);
      var bids' := if order.side.Bid? then CancelLevels(bids, order, price) else bids;
      var asks' := if order.side.Bid? then asks else CancelLevels(asks, order, price);
      var orders' := orders - {orderId};
      Install(bids', asks', orders');
      SetOrder(order, order.remaining, Cancelled);
      return true;
    }
  }
}
