// What an order takes from the other side of the book.
module Taking {
  import opened Common
  import opened Orders
  import opened FlatBook

  // What the taker could trade in total.
  function Liquidity(taker: Order, q: seq<Order>): Quantity {
    if q == [] then 0
    else (if taker.Accepts(q[0].RestPrice()) then q[0].remaining else 0) + Liquidity(taker, q[1..])
  }

  // Matching takes the whole of what is acceptable, up to what is wanted.
  lemma {:induction false} ConsumeTakesLiquidity(taker: Order, q: seq<Order>)
    requires 0 <= taker.remaining && SideOk(taker.side.Opposite(), q)
    ensures Consume(taker, q).taker.remaining
      == if taker.remaining <= Liquidity(taker, q) then 0 else taker.remaining - Liquidity(taker, q)
    ensures 0 <= Liquidity(taker, q)
    decreases |q|
  {
    if q != [] {
      var side, tail := taker.side.Opposite(), q[1..];
      assert Resting(side, q[0]);
      SideTail(side, q);
      if !taker.Accepts(q[0].RestPrice()) {
        NoLiquidityBehind(taker, q);
        NoLiquidity(taker, q);
      } else if q[0].remaining <= taker.remaining {
        var taker' := taker.(remaining := taker.remaining - q[0].remaining);
        ConsumeTakesLiquidity(taker', tail);
        SameLiquidity(taker, taker', tail);
      } else {
        ConsumeTakesLiquidity(taker, tail);
      }
    }
  }

  lemma {:induction false} SideTail(side: Side, q: seq<Order>)
    requires SideOk(side, q) && q != []
    ensures SideOk(side, q[1..])
  {
    var tail := q[1..];
    assert forall i :: 0 <= i < |tail| ==> tail[i] == q[i + 1];
    forall i, j | 0 <= i < j < |tail|
      ensures !Better(side, tail[j].RestPrice(), tail[i].RestPrice())
      ensures tail[i].id != tail[j].id
    {
      assert !Better(side, q[j + 1].RestPrice(), q[i + 1].RestPrice());
    }
  }

  // Once the head is not acceptable nothing behind it is.
  lemma {:induction false} NoLiquidityBehind(taker: Order, q: seq<Order>)
    requires SideOk(taker.side.Opposite(), q) && q != [] && !taker.Accepts(q[0].RestPrice())
    ensures forall i :: 0 <= i < |q| ==> !taker.Accepts(q[i].RestPrice())
  {
    forall i | 0 < i < |q|
      ensures !taker.Accepts(q[i].RestPrice())
    {
      assert !Better(taker.side.Opposite(), q[i].RestPrice(), q[0].RestPrice());
    }
  }

  lemma {:induction false} NoLiquidity(taker: Order, q: seq<Order>)
    requires forall i :: 0 <= i < |q| ==> !taker.Accepts(q[i].RestPrice())
    ensures Liquidity(taker, q) == 0
  {
    if q != [] {
      NoLiquidity(taker, q[1..]);
    }
  }

  lemma {:induction false} SameLiquidity(taker: Order, taker': Order, q: seq<Order>)
    requires taker' == taker.(remaining := taker'.remaining)
    ensures Liquidity(taker, q) == Liquidity(taker', q)
  {
    if q != [] {
      SameLiquidity(taker, taker', q[1..]);
    }
  }

  // ---------- in plain prices ----------

  // What rests on the other side at the limit or better; with no limit, everything.
  function Offered(side: Side, limit: Option<Price>, q: seq<Order>): Quantity {
    if q == [] then 0
    else
      var p := q[0].RestPrice();
      var within := limit.None? || (if side.Bid? then p <= limit.value else limit.value <= p);
      (if within then q[0].remaining else 0) + Offered(side, limit, q[1..])
  }

  function LimitOf(taker: Order): Option<Price> {
    if taker.orderType.Limit? then taker.price else None
  }

  lemma {:induction false} OfferedIsLiquidity(taker: Order, q: seq<Order>)
    requires taker.orderType.Limit? ==> taker.price.Some?
    ensures Liquidity(taker, q) == Offered(taker.side, LimitOf(taker), q)
  {
    if q != [] {
      OfferedIsLiquidity(taker, q[1..]);
    }
  }

  lemma {:induction false} EverythingIsOffered(side: Side, q: seq<Order>)
    ensures Offered(side, None, q) == TotalRemaining(q)
  {
    if q != [] {
      EverythingIsOffered(side, q[1..]);
    }
  }

  // What matching takes from a side and what it leaves there is what was there.
  lemma {:induction false} ConsumeTakesFrom(taker: Order, q: seq<Order>)
    requires 0 <= taker.remaining && forall i :: 0 <= i < |q| ==> 0 < q[i].remaining
    ensures TotalRemaining(Consume(taker, q).rest) == TotalRemaining(q) - FillTotal(Consume(taker, q).fills)
    decreases |q|
  {
    if !taker.IsFilled() && q != [] && taker.Accepts(q[0].RestPrice()) {
      var traded, tail := Min(taker.remaining, q[0].remaining), q[1..];
      var taker' := taker.(remaining := taker.remaining - traded);
      var fill := FillBetween(taker, q[0], q[0].RestPrice(), traded);
      if traded == q[0].remaining {
        assert forall i :: 0 <= i < |tail| ==> tail[i] == q[i + 1];
        ConsumeTakesFrom(taker', tail);
        assert ([fill] + Consume(taker', tail).fills)[1..] == Consume(taker', tail).fills;
      } else {
        var head := q[0].(remaining := q[0].remaining - traded);
        assert ([head] + tail)[1..] == tail;
        assert FillTotal([fill]) == fill.quantity + FillTotal([]);
      }
    }
  }

  // Matching takes all that is on offer, up to the remainder.
  lemma ConsumeTakes(taker: Order, q: seq<Order>)
    requires 0 <= taker.remaining && SideOk(taker.side.Opposite(), q)
    requires taker.orderType.Limit? ==> taker.price.Some?
    ensures var out, offered := Consume(taker, q), Offered(taker.side, LimitOf(taker), q);
      && 0 <= offered
      && FillTotal(out.fills) == Min(taker.remaining, offered)
      && out.taker == taker.(remaining := taker.remaining - FillTotal(out.fills))
  {
    var out := Consume(taker, q);
    ConsumeTakesLiquidity(taker, q);
    OfferedIsLiquidity(taker, q);
    assert forall i :: 0 <= i < |q| ==> Resting(taker.side.Opposite(), q[i]);
    ConsumeIsGreedy(taker, q, out);
  }

  lemma MakersAreOthers(taker: Order, q: seq<Order>)
    requires 0 <= taker.remaining && SideOk(taker.side.Opposite(), q) && !HasId(q, taker.id)
    ensures taker.id !in Consume(taker, q).completed
  {
    var out := Consume(taker, q);
    assert forall i :: 0 <= i < |q| ==> Resting(taker.side.Opposite(), q[i]);
    ConsumeIsGreedy(taker, q, out);
    hide Consume;
    assert forall i :: 0 <= i < |out.completed| ==> out.completed[i] == q[i].id;
  }

  // A market order takes everything there is, up to its quantity. It is reported complete exactly
  // if the other side holds that much; otherwise that side ends empty. Its own side stays.
  lemma MarketTakes(b: Book, id: OrderId, side: Side, quantity: Quantity)
    requires BookOk(b) && 0 < quantity
    ensures var placed, there := PlaceMarket(b, id, side, quantity), TotalRemaining(b.On(side.Opposite()));
      && placed.result.orderId == id
      && FillTotal(placed.result.fills) == Min(quantity, there)
      && TotalRemaining(placed.book.On(side.Opposite())) == there - Min(quantity, there)
      && placed.book.On(side) == b.On(side)
      && (!InBook(b, id) ==> (id in placed.result.completed <==> quantity <= there))
      && (there <= quantity ==> placed.book.On(side.Opposite()) == [])
  {
    var taker, q := NewMarket(id, side, quantity), b.On(side.Opposite());
    assert SideOk(side.Opposite(), q);
    ConsumeTakes(taker, q);
    EverythingIsOffered(side, q);
    assert forall i :: 0 <= i < |q| ==> Resting(side.Opposite(), q[i]);
    ConsumeTakesFrom(taker, q);
    ConsumeKeepsSide(taker, side.Opposite(), q);
    EmptiedSide(side.Opposite(), Consume(taker, q).rest);
    if !InBook(b, id) {
      MakersAreOthers(taker, q);
    }
  }

  lemma EmptiedSide(side: Side, q: seq<Order>)
    requires SideOk(side, q)
    ensures 0 <= TotalRemaining(q) && (TotalRemaining(q) == 0 <==> q == [])
  {
    if q != [] {
      assert Resting(side, q[0]);
      SideTail(side, q);
      EmptiedSide(side, q[1..]);
    }
  }

  // The same of a taker on its way.
  lemma MarketTakesAll(b: Book, taker: Order)
    requires BookOk(b) && 0 <= taker.remaining && taker.orderType.Market?
    ensures var out, q := Consume(taker, b.On(taker.side.Opposite())), b.On(taker.side.Opposite());
      && FillTotal(out.fills) == Min(taker.remaining, TotalRemaining(q))
      && out.taker.remaining == taker.remaining - FillTotal(out.fills)
  {
    var q := b.On(taker.side.Opposite());
    assert SideOk(taker.side.Opposite(), q);
    ConsumeTakes(taker, q);
    EverythingIsOffered(taker.side, q);
  }

  // A limit order takes what is on offer at its price or better, up to its quantity. It is reported
  // complete exactly if that is enough; otherwise the rest of it joins its own side.
  lemma LimitTakes(b: Book, id: OrderId, side: Side, price: Price, quantity: Quantity)
    requires BookOk(b) && 0 < quantity && !InBook(b, id)
    ensures var placed, q := PlaceLimit(b, id, side, price, quantity), b.On(side.Opposite());
      var taken := Min(quantity, Offered(side, Some(price), q));
      && placed.result.orderId == id
      && FillTotal(placed.result.fills) == taken
      && TotalRemaining(placed.book.On(side.Opposite())) == TotalRemaining(q) - taken
      && (id in placed.result.completed <==> taken == quantity)
      && placed.book.On(side) ==
           if taken == quantity then b.On(side)
           else Enqueue(side, b.On(side), Order(id, side, Limit, Some(price), quantity, quantity - taken))
  {
    var taker, q := NewLimit(id, side, price, quantity), b.On(side.Opposite());
    assert SideOk(side.Opposite(), q);
    ConsumeTakes(taker, q);
    assert forall i :: 0 <= i < |q| ==> Resting(side.Opposite(), q[i]);
    ConsumeTakesFrom(taker, q);
    MakersAreOthers(taker, q);
  }
}
