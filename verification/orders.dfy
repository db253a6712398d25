// The vocabulary of the matching engine, and the plain list of resting orders in
// price-time priority against which both order books are verified.
module Orders {
  import opened Common

  // Uuid: only its identity matters to the engine.
  type OrderId = nat

  // Decimal prices and quantities, as multiples of the smallest step.
  type Price = int
  type Quantity = int

  datatype Side = Bid | Ask {
    function Opposite(): Side {
      if Bid? then Ask else Bid
    }
  }

  datatype OrderType = Limit | Market

  datatype Order = Order(
    id: OrderId,
    side: Side,
    orderType: OrderType,
    price: Option<Price>,
    quantity: Quantity,
    remaining: Quantity)
  {
    predicate IsFilled() {
      remaining == 0
    }

    // The price of an order that rests in the book; only limit orders ever do.
    function RestPrice(): Price {
      match price
      case Some(p) => p
      case None => 0
    }

    // May this order trade against a resting order priced `p`?
    predicate Accepts(p: Price) {
      match orderType
      case Market => true
      case Limit => if side.Bid? then p <= RestPrice() else p >= RestPrice()
    }
  }

  function NewLimit(id: OrderId, side: Side, price: Price, quantity: Quantity): Order {
    Order(id, side, Limit, Some(price), quantity, quantity)
  }

  function NewMarket(id: OrderId, side: Side, quantity: Quantity): Order {
    Order(id, side, Market, None, quantity, quantity)
  }

  datatype Fill = Fill(buyId: OrderId, sellId: OrderId, price: Price, quantity: Quantity)

  datatype OrderResult = OrderResult(orderId: OrderId, fills: seq<Fill>, completed: seq<OrderId>)

  function FillBetween(taker: Order, maker: Order, price: Price, quantity: Quantity): Fill {
    if taker.side.Bid? then Fill(taker.id, maker.id, price, quantity)
    else Fill(maker.id, taker.id, price, quantity)
  }

  // ---------- price-time priority ----------

  // On side `side`, price `p` is served strictly before price `q`.
  predicate Better(side: Side, p: Price, q: Price) {
    if side.Bid? then p > q else p < q
  }

  predicate Resting(side: Side, o: Order) {
    && o.side == side
    && o.orderType.Limit?
    && o.price.Some?
    && 0 < o.remaining <= o.quantity
  }

  ghost predicate AllResting(side: Side, q: seq<Order>) {
    forall i :: 0 <= i < |q| ==> Resting(side, q[i])
  }

  ghost predicate Prioritized(side: Side, q: seq<Order>) {
    forall i, j :: 0 <= i < j < |q| ==> !Better(side, q[j].RestPrice(), q[i].RestPrice())
  }

  ghost predicate UniqueIds(q: seq<Order>) {
    forall i, j :: 0 <= i < j < |q| ==> q[i].id != q[j].id
  }

  ghost predicate DisjointIds(p: seq<Order>, q: seq<Order>) {
    forall i, j :: 0 <= i < |p| && 0 <= j < |q| ==> p[i].id != q[j].id
  }

  ghost predicate HasId(q: seq<Order>, id: OrderId) {
    exists i :: 0 <= i < |q| && q[i].id == id
  }

  // A newcomer queues behind every order that is at least as well priced.
  function Enqueue(side: Side, q: seq<Order>, o: Order): seq<Order> {
    if q == [] || Better(side, o.RestPrice(), q[0].RestPrice()) then [o] + q
    else [q[0]] + Enqueue(side, q[1..], o)
  }

  function Without(q: seq<Order>, id: OrderId): seq<Order> {
    if q == [] then []
    else if q[0].id == id then Without(q[1..], id)
    else [q[0]] + Without(q[1..], id)
  }

  // ---------- greedy matching against the plain list ----------

  datatype Outcome = Outcome(taker: Order, rest: seq<Order>, fills: seq<Fill>, completed: seq<OrderId>)

  // `taker` trades with the head of the list, at the head's price, until it is filled,
  // the list is exhausted or the head is no longer acceptable.
  function Consume(taker: Order, q: seq<Order>): Outcome
    decreases |q|
  {
    if taker.IsFilled() || q == [] || !taker.Accepts(q[0].RestPrice()) then
      Outcome(taker, q, [], [])
    else
      var maker := q[0];
      var traded := Min(taker.remaining, maker.remaining);
      var taker' := taker.(remaining := taker.remaining - traded);
      var maker' := maker.(remaining := maker.remaining - traded);
      var fill := FillBetween(taker, maker, maker.RestPrice(), traded);
      if maker'.IsFilled() then
        var later := Consume(taker', q[1..]);
        Outcome(later.taker, later.rest, [fill] + later.fills, [maker.id] + later.completed)
      else
        Outcome(taker', [maker'] + q[1..], [fill], [])
  }

  // ---------- the plain book ----------

  datatype Book = Book(bids: seq<Order>, asks: seq<Order>) {
    function On(side: Side): seq<Order> {
      if side.Bid? then bids else asks
    }

    function With(side: Side, q: seq<Order>): Book {
      if side.Bid? then Book(q, asks) else Book(bids, q)
    }
  }

  const EMPTY_BOOK := Book([], [])

  ghost predicate Uncrossed(b: Book) {
    forall i, j :: 0 <= i < |b.bids| && 0 <= j < |b.asks| ==> b.bids[i].RestPrice() < b.asks[j].RestPrice()
  }

  // One side of a reachable book.
  ghost predicate SideOk(side: Side, q: seq<Order>) {
    AllResting(side, q) && Prioritized(side, q) && UniqueIds(q)
  }

  // What every reachable book satisfies.
  ghost predicate BookOk(b: Book) {
    && SideOk(Bid, b.bids) && SideOk(Ask, b.asks)
    && DisjointIds(b.bids, b.asks)
    && Uncrossed(b)
  }

  ghost predicate InBook(b: Book, id: OrderId) {
    HasId(b.bids, id) || HasId(b.asks, id)
  }

  datatype Placed = Placed(book: Book, result: OrderResult)

  function PlaceLimit(b: Book, id: OrderId, side: Side, price: Price, quantity: Quantity): Placed {
    var out := Consume(NewLimit(id, side, price, quantity), b.On(side.Opposite()));
    var matched := b.With(side.Opposite(), out.rest);
    if out.taker.IsFilled() then
      Placed(matched, OrderResult(id, out.fills, out.completed + [id]))
    else
      Placed(matched.With(side, Enqueue(side, b.On(side), out.taker)), OrderResult(id, out.fills, out.completed))
  }

  // A market order never rests: what cannot be filled is dropped.
  function PlaceMarket(b: Book, id: OrderId, side: Side, quantity: Quantity): Placed {
    var out := Consume(NewMarket(id, side, quantity), b.On(side.Opposite()));
    var matched := b.With(side.Opposite(), out.rest);
    Placed(matched, OrderResult(id, out.fills, if out.taker.IsFilled() then out.completed + [id] else out.completed))
  }

  function Cancel(b: Book, id: OrderId): Book {
    Book(Without(b.bids, id), Without(b.asks, id))
  }

  function TotalRemaining(q: seq<Order>): Quantity {
    if q == [] then 0 else q[0].remaining + TotalRemaining(q[1..])
  }

  // Price levels of a prioritized list, best first, each with its summed remainder.
  function Depth(q: seq<Order>): seq<(Price, Quantity)> {
    if q == [] then []
    else
      var d := Depth(q[1..]);
      if d != [] && d[0].0 == q[0].RestPrice() then [(d[0].0, q[0].remaining + d[0].1)] + d[1..]
      else [(q[0].RestPrice(), q[0].remaining)] + d
  }
}
