// Each operation on the sorted lists is the same operation on the arrivals they sort.
module ArrivalMatching {
  import opened Common
  import opened Orders
  import opened ArrivalBook

  lemma {:induction false} OtherSideUntouched(side: Side, arrivals: seq<Order>, i: nat, o: Order)
    requires i < |arrivals| && arrivals[i].side != side && o.side != side
    ensures ByPriority(side, RemoveAt(arrivals, i)) == ByPriority(side, arrivals)
    ensures ByPriority(side, arrivals[i := o]) == ByPriority(side, arrivals)
  {
    var n := |arrivals| - 1;
    if i == n {
      assert RemoveAt(arrivals, i) == arrivals[..n];
      assert arrivals[i := o][..n] == arrivals[..n];
    } else {
      OtherSideUntouched(side, arrivals[..n], i, o);
      assert RemoveAt(arrivals, i)[..n - 1] == RemoveAt(arrivals[..n], i);
      assert arrivals[i := o][..n] == arrivals[..n][i := o];
    }
  }

  // Shrinking the order served next shrinks the head of the sorted list in place.
  lemma {:induction false} ShrinkNext(side: Side, arrivals: seq<Order>, i: nat, remaining: Quantity)
    requires IsNext(side, arrivals, i)
    ensures ByPriority(side, arrivals[i := arrivals[i].(remaining := remaining)])
      == [arrivals[i].(remaining := remaining)] + ByPriority(side, RemoveAt(arrivals, i))
  {
    var shrunk := arrivals[i := arrivals[i].(remaining := remaining)];
    forall j | 0 <= j < |shrunk| && j != i && shrunk[j].side == side
      ensures ServedBefore(side, shrunk, i, j)
    {
      assert ServedBefore(side, arrivals, i, j);
    }
    NextIsHead(side, shrunk, i);
    assert RemoveAt(shrunk, i) == RemoveAt(arrivals, i);
  }

  // ---------- matching the sorted lists is matching the arrivals ----------

  // Outcome `a` over the arrivals is outcome `c` over the sorted opposite side.
  ghost predicate Agrees(taker: Order, arrivals: seq<Order>, a: Outcome, c: Outcome) {
    && a.taker == c.taker && a.fills == c.fills && a.completed == c.completed
    && ByPriority(taker.side.Opposite(), a.rest) == c.rest
    && ByPriority(taker.side, a.rest) == ByPriority(taker.side, arrivals)
  }

  lemma {:induction false} MatchRefines(taker: Order, arrivals: seq<Order>)
    ensures Agrees(taker, arrivals, ArrivalMatch(taker, arrivals),
                   Consume(taker, ByPriority(taker.side.Opposite(), arrivals)))
    decreases |arrivals|
  {
    hide ByPriority, IsNext, FillBetween, NextIndex;
    var side := taker.side.Opposite();
    NextIndexIsNext(side, arrivals);
    var next := NextIndex(side, arrivals);
    if next.None? {
      NoneIsNext(side, arrivals);
    } else {
      var i := next.value;
      NextIsHead(side, arrivals, i);
      var maker := arrivals[i];
      var rest := ByPriority(side, RemoveAt(arrivals, i));
      assert ([maker] + rest)[1..] == rest;
      if !taker.IsFilled() && taker.Accepts(maker.RestPrice()) {
        var traded := Min(taker.remaining, maker.remaining);
        OtherSideUntouched(taker.side, arrivals, i, maker.(remaining := maker.remaining - traded));
        if traded == maker.remaining {
          MatchRefines(taker.(remaining := taker.remaining - traded), RemoveAt(arrivals, i));
        } else {
          ShrinkNext(side, arrivals, i, maker.remaining - traded);
        }
      }
    }
  }

  lemma {:induction false} NoneIsNext(side: Side, arrivals: seq<Order>)
    requires forall i: nat :: !IsNext(side, arrivals, i)
    ensures ByPriority(side, arrivals) == []
  {
    ByPriorityMembers(side, arrivals);
    var q := ByPriority(side, arrivals);
    if q != [] {
      assert q[0] in q;
      var i := NextExists(side, arrivals);
    }
  }

  lemma {:induction false} LimitRefines(arrivals: seq<Order>, id: OrderId, side: Side, price: Price, quantity: Quantity)
    ensures var a := ArrivalLimit(arrivals, id, side, price, quantity);
      PlaceLimit(Sorted(arrivals), id, side, price, quantity) == Placed(Sorted(a.arrivals), a.result)
  {
    var taker := NewLimit(id, side, price, quantity);
    var out := ArrivalMatch(taker, arrivals);
    MatchRefines(taker, arrivals);
    ConsumeKeepsTaker(taker, ByPriority(side.Opposite(), arrivals));
    assert (out.rest + [out.taker])[..|out.rest|] == out.rest;
  }

  lemma {:induction false} MarketRefines(arrivals: seq<Order>, id: OrderId, side: Side, quantity: Quantity)
    ensures var a := ArrivalMarket(arrivals, id, side, quantity);
      PlaceMarket(Sorted(arrivals), id, side, quantity) == Placed(Sorted(a.arrivals), a.result)
  {
    MatchRefines(NewMarket(id, side, quantity), arrivals);
  }

  lemma {:induction false} ConsumeKeepsTaker(taker: Order, q: seq<Order>)
    ensures var t := Consume(taker, q).taker; t == taker.(remaining := t.remaining)
    decreases |q|
  {
    if !(taker.IsFilled() || q == [] || !taker.Accepts(q[0].RestPrice())) {
      var traded := Min(taker.remaining, q[0].remaining);
      ConsumeKeepsTaker(taker.(remaining := taker.remaining - traded), q[1..]);
    }
  }

  lemma {:induction false} CancelRefines(arrivals: seq<Order>, id: OrderId)
    ensures Cancel(Sorted(arrivals), id) == Sorted(Without(arrivals, id))
  {
    WithoutRefines(Bid, arrivals, id);
    WithoutRefines(Ask, arrivals, id);
  }

  lemma {:induction false} WithoutRefines(side: Side, arrivals: seq<Order>, id: OrderId)
    ensures Without(ByPriority(side, arrivals), id) == ByPriority(side, Without(arrivals, id))
  {
    if arrivals != [] {
      var n := |arrivals| - 1;
      var earlier, last := arrivals[..n], arrivals[n];
      WithoutRefines(side, earlier, id);
      WithoutLast(earlier, last, id);
      assert arrivals == earlier + [last];
      ByPriorityIsPrioritized(side, earlier);
      WithoutEnqueue(side, ByPriority(side, earlier), last, id);
    }
  }

  lemma {:induction false} WithoutLast(q: seq<Order>, o: Order, id: OrderId)
    ensures Without(q + [o], id) == if o.id == id then Without(q, id) else Without(q, id) + [o]
  {
    if q == [] {
      assert q + [o] == [o];
      assert Without([o], id) == if o.id == id then Without([], id) else [o] + Without([], id);
    } else {
      assert (q + [o])[1..] == q[1..] + [o];
      WithoutLast(q[1..], o, id);
    }
  }

  lemma {:induction false} WithoutEnqueue(side: Side, q: seq<Order>, o: Order, id: OrderId)
    requires Prioritized(side, q)
    ensures Without(Enqueue(side, q, o), id)
      == if o.id == id then Without(q, id) else Enqueue(side, Without(q, id), o)
  {
    if q == [] || Better(side, o.RestPrice(), q[0].RestPrice()) {
      assert ([o] + q)[1..] == q;
      if o.id != id {
        WithoutStaysBehind(side, q, o, id);
      }
    } else {
      assert ([q[0]] + Enqueue(side, q[1..], o))[1..] == Enqueue(side, q[1..], o);
      WithoutEnqueue(side, q[1..], o, id);
    }
  }

  lemma {:induction false} WithoutStaysBehind(side: Side, q: seq<Order>, o: Order, id: OrderId)
    requires Prioritized(side, q)
    requires q != [] ==> Better(side, o.RestPrice(), q[0].RestPrice())
    ensures Enqueue(side, Without(q, id), o) == [o] + Without(q, id)
  {
    if q != [] && q[0].id == id {
      if |q| > 1 {
        assert !Better(side, q[1].RestPrice(), q[0].RestPrice());
      }
      WithoutStaysBehind(side, q[1..], o, id);
    }
  }
}
