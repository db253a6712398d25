// Facts about the plain book: what greedy matching does, and what each operation keeps.
module FlatBook {
  import opened Orders

  function FillTotal(fills: seq<Fill>): Quantity {
    if fills == [] then 0 else fills[0].quantity + FillTotal(fills[1..])
  }

  // The fill is between the taker and a resting order it accepts, at the resting order's price.
  ghost predicate Takes(taker: Order, maker: Order, fill: Fill) {
    && taker.Accepts(maker.RestPrice())
    && 0 < fill.quantity && fill.price == maker.RestPrice()
    && (taker.side.Bid? ==> fill.buyId == taker.id && fill.sellId == maker.id)
    && (taker.side.Ask? ==> fill.buyId == maker.id && fill.sellId == taker.id)
  }

  // Every fill takes the next order of the list.
  ghost predicate TakesInOrder(taker: Order, q: seq<Order>, fills: seq<Fill>) {
    |fills| <= |q| && forall i :: 0 <= i < |fills| ==> Takes(taker, q[i], fills[i])
  }

  // The completed orders are the first ones of the list, each traded for all it had.
  ghost predicate Exhausts(q: seq<Order>, fills: seq<Fill>, completed: seq<OrderId>) {
    && |completed| <= |fills| <= |q|
    && forall i :: 0 <= i < |completed| ==> completed[i] == q[i].id && fills[i].quantity == q[i].remaining
  }

  // At most one more order trades, in part, and then the taker is filled.
  ghost predicate Leaves(q: seq<Order>, out: Outcome) {
    var k := |out.completed|;
    && k <= |out.fills| <= k + 1
    && |out.fills| <= |q|
    && (|out.fills| == k ==> out.rest == q[k..])
    && (|out.fills| == k + 1 ==>
          && out.taker.IsFilled()
          && out.fills[k].quantity < q[k].remaining
          && out.rest == [q[k].(remaining := q[k].remaining - out.fills[k].quantity)] + q[k + 1..])
  }

  // Matching described without recursion; it stops only when nothing more can trade.
  ghost predicate GreedyMatch(taker: Order, q: seq<Order>, out: Outcome) {
    && TakesInOrder(taker, q, out.fills)
    && Exhausts(q, out.fills, out.completed)
    && Leaves(q, out)
    && out.taker == taker.(remaining := taker.remaining - FillTotal(out.fills))
    && 0 <= out.taker.remaining
    && (out.taker.IsFilled() || out.rest == [] || !taker.Accepts(out.rest[0].RestPrice()))
  }

  // One whole fill put in front of, or taken off, a matching of the remaining list.
  lemma {:induction false} GreedyStep(taker: Order, q: seq<Order>, later: Outcome)
    requires q != [] && 0 < q[0].remaining <= taker.remaining
    requires taker.Accepts(q[0].RestPrice())
    ensures
      var fill := FillBetween(taker, q[0], q[0].RestPrice(), q[0].remaining);
      var out := Outcome(later.taker, later.rest, [fill] + later.fills, [q[0].id] + later.completed);
      GreedyMatch(taker, q, out) <==>
      GreedyMatch(taker.(remaining := taker.remaining - q[0].remaining), q[1..], later)
  {
    var fill := FillBetween(taker, q[0], q[0].RestPrice(), q[0].remaining);
    var out := Outcome(later.taker, later.rest, [fill] + later.fills, [q[0].id] + later.completed);
    var taker' := taker.(remaining := taker.remaining - q[0].remaining);
    var tail := q[1..];
    assert out.fills[1..] == later.fills;
    TakesInOrderStep(taker, taker', q, fill, later.fills);
    ExhaustsStep(q, fill, later.fills, later.completed);
    LeavesStep(q, fill, later, out);
  }

  lemma {:induction false} TakesInOrderStep(taker: Order, taker': Order, q: seq<Order>, fill: Fill, later: seq<Fill>)
    requires q != [] && taker' == taker.(remaining := taker'.remaining)
    requires Takes(taker, q[0], fill)
    ensures TakesInOrder(taker, q, [fill] + later) <==> TakesInOrder(taker', q[1..], later)
  {
    var fills := [fill] + later;
    assert forall maker: Order, f: Fill :: Takes(taker, maker, f) == Takes(taker', maker, f);
    hide Takes;
    assert forall i :: 0 <= i < |later| ==> fills[i + 1] == later[i];
    if TakesInOrder(taker, q, fills) {
      forall i | 0 <= i < |later|
        ensures Takes(taker', q[1..][i], later[i])
      {
        assert Takes(taker, q[i + 1], fills[i + 1]);
      }
    }
    if TakesInOrder(taker', q[1..], later) {
      forall i | 0 <= i < |fills|
        ensures Takes(taker, q[i], fills[i])
      {
        if i > 0 {
          assert Takes(taker', q[1..][i - 1], later[i - 1]);
        }
      }
    }
  }

  lemma {:induction false} ExhaustsStep(q: seq<Order>, fill: Fill, later: seq<Fill>, completed: seq<OrderId>)
    requires q != [] && fill.quantity == q[0].remaining
    ensures Exhausts(q, [fill] + later, [q[0].id] + completed) <==> Exhausts(q[1..], later, completed)
  {
    var fills, done := [fill] + later, [q[0].id] + completed;
    if Exhausts(q, fills, done) {
      forall i | 0 <= i < |completed|
        ensures completed[i] == q[1..][i].id && later[i].quantity == q[1..][i].remaining
      {
        assert done[i + 1] == q[i + 1].id && fills[i + 1].quantity == q[i + 1].remaining;
      }
    }
    if Exhausts(q[1..], later, completed) {
      forall i | 0 <= i < |done|
        ensures done[i] == q[i].id && fills[i].quantity == q[i].remaining
      {
        if i > 0 {
          assert completed[i - 1] == q[1..][i - 1].id && later[i - 1].quantity == q[1..][i - 1].remaining;
        }
      }
    }
  }

  lemma {:induction false} LeavesStep(q: seq<Order>, fill: Fill, later: Outcome, out: Outcome)
    requires q != []
    requires out == Outcome(later.taker, later.rest, [fill] + later.fills, [q[0].id] + later.completed)
    ensures Leaves(q, out) <==> Leaves(q[1..], later)
  {
    var k := |later.completed|;
    if |later.fills| < |q| && k <= |later.fills| {
      assert q[1..][k..] == q[k + 1..];
      if |later.fills| == k + 1 {
        assert q[1..][k + 1..] == q[k + 2..];
        assert out.fills[k + 1] == later.fills[k];
      }
    }
  }

  // The description holds of greedy matching, and of nothing else.
  lemma {:induction false} ConsumeIsGreedy(taker: Order, q: seq<Order>, out: Outcome)
    requires 0 <= taker.remaining
    requires forall i :: 0 <= i < |q| ==> 0 < q[i].remaining
    ensures GreedyMatch(taker, q, out) <==> out == Consume(taker, q)
    decreases |q|
  {
    if taker.IsFilled() || q == [] || !taker.Accepts(q[0].RestPrice()) {
      NothingToTrade(taker, q, out);
    } else if q[0].remaining <= taker.remaining {
      var later := AfterHead(taker, q, out);
      ConsumeIsGreedy(taker.(remaining := taker.remaining - q[0].remaining), q[1..], later);
      WholeHead(taker, q, out);
    } else {
      PartialHead(taker, q, out);
    }
  }

  // What `out` says about the list behind its head.
  function AfterHead(taker: Order, q: seq<Order>, out: Outcome): Outcome
    requires q != []
  {
    if out.fills == [] || out.completed == [] then
      Consume(taker.(remaining := taker.remaining - q[0].remaining), q[1..])
    else Outcome(out.taker, out.rest, out.fills[1..], out.completed[1..])
  }

  lemma {:induction false} WholeHead(taker: Order, q: seq<Order>, out: Outcome)
    requires q != [] && 0 < q[0].remaining <= taker.remaining && taker.Accepts(q[0].RestPrice())
    requires var taker' := taker.(remaining := taker.remaining - q[0].remaining);
      GreedyMatch(taker', q[1..], AfterHead(taker, q, out)) <==> AfterHead(taker, q, out) == Consume(taker', q[1..])
    ensures GreedyMatch(taker, q, out) <==> out == Consume(taker, q)
  {
    hide GreedyMatch, FillBetween;
    var later := AfterHead(taker, q, out);
    GreedyStep(taker, q, later);
    if GreedyMatch(taker, q, out) {
      HeadIsExhausted(taker, q, out);
      assert out.fills == [out.fills[0]] + later.fills;
      assert out.completed == [q[0].id] + later.completed;
    }
  }

  lemma {:induction false} NothingToTrade(taker: Order, q: seq<Order>, out: Outcome)
    requires 0 <= taker.remaining
    requires taker.IsFilled() || q == [] || !taker.Accepts(q[0].RestPrice())
    ensures GreedyMatch(taker, q, out) <==> out == Outcome(taker, q, [], [])
  {
    if GreedyMatch(taker, q, out) && out.fills != [] {
      FillTotalPositive(out.fills);
    }
  }

  lemma {:induction false} HeadIsExhausted(taker: Order, q: seq<Order>, out: Outcome)
    requires q != [] && 0 < q[0].remaining <= taker.remaining
    requires taker.Accepts(q[0].RestPrice())
    requires GreedyMatch(taker, q, out)
    ensures out.completed != [] && out.completed[0] == q[0].id
    ensures out.fills != [] && out.fills[0] == FillBetween(taker, q[0], q[0].RestPrice(), q[0].remaining)
  {
    if |out.fills| == 1 {
      assert FillTotal(out.fills) == out.fills[0].quantity + FillTotal([]);
    }
  }

  lemma {:induction false} PartialHead(taker: Order, q: seq<Order>, out: Outcome)
    requires q != [] && 0 < taker.remaining < q[0].remaining
    requires taker.Accepts(q[0].RestPrice())
    ensures GreedyMatch(taker, q, out) <==> out == Consume(taker, q)
  {
    var fill := FillBetween(taker, q[0], q[0].RestPrice(), taker.remaining);
    assert FillTotal([fill]) == fill.quantity + FillTotal([]);
    if GreedyMatch(taker, q, out) {
      assert out.fills != [];
      FillTotalPositive(out.fills[1..]);
      assert |out.completed| == 0;
      assert |out.fills| == 1;
      assert FillTotal(out.fills) == out.fills[0].quantity + FillTotal([]);
      assert out.fills == [fill];
    }
  }

  lemma {:induction false} FillTotalPositive(fills: seq<Fill>)
    requires forall i :: 0 <= i < |fills| ==> 0 < fills[i].quantity
    ensures 0 <= FillTotal(fills)
    ensures fills != [] ==> 0 < FillTotal(fills)
  {
    if fills != [] {
      FillTotalPositive(fills[1..]);
    }
  }

  // ---------- what every operation keeps ----------

  // `rest` is the end of `q`, with at most its first order's remainder reduced.
  ghost predicate Remnant(q: seq<Order>, rest: seq<Order>) {
    && |rest| <= |q|
    && forall i :: 0 <= i < |rest| ==> LeftOf(q[|q| - |rest| + i], rest[i], i > 0)
  }

  ghost predicate LeftOf(before: Order, after: Order, untouched: bool) {
    && after == before.(remaining := after.remaining)
    && 0 < after.remaining <= before.remaining
    && (untouched ==> after == before)
  }

  lemma {:induction false} ConsumeLeavesRemnant(taker: Order, q: seq<Order>)
    requires 0 <= taker.remaining
    requires forall i :: 0 <= i < |q| ==> 0 < q[i].remaining
    ensures Remnant(q, Consume(taker, q).rest)
    ensures |Consume(taker, q).completed| == |q| - |Consume(taker, q).rest|
  {
    hide Consume;
    var out := Consume(taker, q);
    ConsumeIsGreedy(taker, q, out);
    var k := |out.completed|;
    if |out.fills| == k + 1 {
      var head := q[k].(remaining := q[k].remaining - out.fills[k].quantity);
      assert out.rest == [head] + q[k + 1..];
      assert LeftOf(q[k], head, false);
    }
  }

  lemma {:induction false} RemnantKeepsSide(side: Side, q: seq<Order>, rest: seq<Order>)
    requires SideOk(side, q) && Remnant(q, rest)
    ensures SideOk(side, rest)
  {
    var k := |q| - |rest|;
    forall i | 0 <= i < |rest|
      ensures Resting(side, rest[i])
    {
      assert Resting(side, q[k + i]) && LeftOf(q[k + i], rest[i], i > 0);
    }
    forall i, j | 0 <= i < j < |rest|
      ensures !Better(side, rest[j].RestPrice(), rest[i].RestPrice())
      ensures rest[i].id != rest[j].id
    {
      assert LeftOf(q[k + i], rest[i], i > 0) && LeftOf(q[k + j], rest[j], j > 0);
      assert !Better(side, q[k + j].RestPrice(), q[k + i].RestPrice());
    }
  }

  lemma {:induction false} ConsumeKeepsSide(taker: Order, side: Side, q: seq<Order>)
    requires 0 <= taker.remaining && SideOk(side, q)
    ensures Remnant(q, Consume(taker, q).rest)
    ensures SideOk(side, Consume(taker, q).rest)
  {
    assert forall i :: 0 <= i < |q| ==> Resting(side, q[i]);
    ConsumeLeavesRemnant(taker, q);
    RemnantKeepsSide(side, q, Consume(taker, q).rest);
  }

  // If the taker is not filled, nothing that is left was acceptable to it.
  lemma {:induction false} UnfilledTakerExhausts(taker: Order, q: seq<Order>)
    requires 0 <= taker.remaining && SideOk(taker.side.Opposite(), q)
    requires !Consume(taker, q).taker.IsFilled()
    ensures
      var rest := Consume(taker, q).rest;
      forall i :: 0 <= i < |rest| ==> !taker.Accepts(rest[i].RestPrice())
  {
    var out := Consume(taker, q);
    ConsumeIsGreedy(taker, q, out);
    ConsumeKeepsSide(taker, taker.side.Opposite(), q);
    forall i | 0 <= i < |out.rest|
      ensures !taker.Accepts(out.rest[i].RestPrice())
    {
      if i > 0 {
        assert !Better(taker.side.Opposite(), out.rest[i].RestPrice(), out.rest[0].RestPrice());
      }
    }
  }

  // Where a newcomer goes: behind everything at least as good, ahead of everything worse.
  lemma {:induction false} EnqueuePosition(side: Side, q: seq<Order>, o: Order) returns (k: nat)
    requires Prioritized(side, q)
    ensures k <= |q| && Enqueue(side, q, o) == q[..k] + [o] + q[k..]
    ensures forall i :: 0 <= i < k ==> !Better(side, o.RestPrice(), q[i].RestPrice())
    ensures forall i :: k <= i < |q| ==> Better(side, o.RestPrice(), q[i].RestPrice())
  {
    if q == [] || Better(side, o.RestPrice(), q[0].RestPrice()) {
      k := 0;
      forall i | 0 < i < |q|
        ensures Better(side, o.RestPrice(), q[i].RestPrice())
      {
        assert !Better(side, q[i].RestPrice(), q[0].RestPrice());
      }
    } else {
      var n := EnqueuePosition(side, q[1..], o);
      k := n + 1;
      assert q[..k] == [q[0]] + q[1..][..n];
      assert q[k..] == q[1..][n..];
      forall i | 0 <= i < |q|
        ensures i < k ==> !Better(side, o.RestPrice(), q[i].RestPrice())
        ensures k <= i ==> Better(side, o.RestPrice(), q[i].RestPrice())
      {
        if i > 0 {
          assert q[i] == q[1..][i - 1];
        }
      }
    }
  }

  lemma {:induction false} EnqueueMembers(side: Side, q: seq<Order>, o: Order)
    ensures forall x :: x in Enqueue(side, q, o) <==> x == o || x in q
  {
    if q != [] && !Better(side, o.RestPrice(), q[0].RestPrice()) {
      EnqueueMembers(side, q[1..], o);
      assert q == [q[0]] + q[1..];
    }
  }

  lemma {:induction false} EnqueueKeepsSide(side: Side, q: seq<Order>, o: Order)
    requires SideOk(side, q) && Resting(side, o) && !HasId(q, o.id)
    ensures SideOk(side, Enqueue(side, q, o))
    ensures forall x :: x in Enqueue(side, q, o) <==> x == o || x in q
  {
    var k := EnqueuePosition(side, q, o);
    var r := q[..k] + [o] + q[k..];
    forall i, j | 0 <= i < j < |r|
      ensures !Better(side, r[j].RestPrice(), r[i].RestPrice())
      ensures r[i].id != r[j].id
    {
      var i' := if i < k then i else i - 1;
      var j' := if j < k then j else j - 1;
      if i != k && j != k {
        assert !Better(side, q[j'].RestPrice(), q[i'].RestPrice());
      }
    }
  }

  lemma {:induction false} WithoutAbsent(q: seq<Order>, id: OrderId)
    requires !HasId(q, id)
    ensures Without(q, id) == q
  {
    if q != [] {
      assert q[0].id != id;
      assert forall i :: 0 <= i < |q[1..]| ==> q[1..][i] == q[i + 1];
      WithoutAbsent(q[1..], id);
    }
  }

  // Leaving out an id drops exactly the order that carries it.
  lemma {:induction false} WithoutIsRemoval(q: seq<Order>, k: nat)
    requires UniqueIds(q) && k < |q|
    ensures Without(q, q[k].id) == q[..k] + q[k + 1..]
  {
    var id := q[k].id;
    var tail := q[1..];
    assert forall i :: 0 <= i < |tail| ==> tail[i] == q[i + 1];
    if k == 0 {
      WithoutAbsent(tail, id);
    } else {
      assert q[0].id != id;
      WithoutIsRemoval(tail, k - 1);
      assert q[..k] == [q[0]] + tail[..k - 1];
      assert q[k + 1..] == tail[k..];
    }
  }

  lemma {:induction false} WithoutKeepsSide(side: Side, q: seq<Order>, id: OrderId)
    requires SideOk(side, q)
    ensures SideOk(side, Without(q, id))
    ensures forall x :: x in Without(q, id) <==> x in q && x.id != id
  {
    if HasId(q, id) {
      var i :| 0 <= i < |q| && q[i].id == id;
      WithoutIsRemoval(q, i);
      var r := q[..i] + q[i + 1..];
      forall a, b | 0 <= a < b < |r|
        ensures !Better(side, r[b].RestPrice(), r[a].RestPrice())
        ensures r[a].id != r[b].id
      {
        var a' := if a < i then a else a + 1;
        var b' := if b < i then b else b + 1;
        assert !Better(side, q[b'].RestPrice(), q[a'].RestPrice());
      }
    } else {
      WithoutAbsent(q, id);
      assert forall x :: x in q ==> x.id != id;
    }
  }

  // Every order that is left was there before, under the same id and price.
  lemma {:induction false} RemnantKeepsIds(q: seq<Order>, rest: seq<Order>, i: nat)
    requires Remnant(q, rest) && i < |rest|
    ensures exists k :: 0 <= k < |q| && q[k].id == rest[i].id && q[k].RestPrice() == rest[i].RestPrice()
  {
    var k := |q| - |rest| + i;
    assert LeftOf(q[k], rest[i], i > 0);
    assert q[k].id == rest[i].id && q[k].RestPrice() == rest[i].RestPrice();
  }

  lemma {:induction false} RemnantKeepsBook(b: Book, side: Side, rest: seq<Order>)
    requires BookOk(b) && SideOk(side, rest) && Remnant(b.On(side), rest)
    ensures BookOk(b.With(side, rest))
  {
    forall i, j | 0 <= i < |rest| && 0 <= j < |b.On(side.Opposite())|
      ensures rest[i].id != b.On(side.Opposite())[j].id
      ensures Better(side, b.On(side.Opposite())[j].RestPrice(), rest[i].RestPrice())
    {
      RemnantKeepsIds(b.On(side), rest, i);
    }
  }

  lemma {:induction false} ConsumeKeepsBook(b: Book, taker: Order)
    requires BookOk(b) && 0 <= taker.remaining
    ensures BookOk(b.With(taker.side.Opposite(), Consume(taker, b.On(taker.side.Opposite())).rest))
  {
    ConsumeKeepsSide(taker, taker.side.Opposite(), b.On(taker.side.Opposite()));
    RemnantKeepsBook(b, taker.side.Opposite(), Consume(taker, b.On(taker.side.Opposite())).rest);
  }

  // Adding an order that crosses nothing on the other side.
  lemma {:induction false} RestKeepsBook(b: Book, o: Order)
    requires BookOk(b) && Resting(o.side, o) && !InBook(b, o.id)
    requires forall x :: x in b.On(o.side.Opposite()) ==> !o.Accepts(x.RestPrice())
    ensures BookOk(b.With(o.side, Enqueue(o.side, b.On(o.side), o)))
  {
    var q := Enqueue(o.side, b.On(o.side), o);
    EnqueueKeepsSide(o.side, b.On(o.side), o);
    forall i, j | 0 <= i < |q| && 0 <= j < |b.On(o.side.Opposite())|
      ensures q[i].id != b.On(o.side.Opposite())[j].id
      ensures Better(o.side.Opposite(), q[i].RestPrice(), b.On(o.side.Opposite())[j].RestPrice())
    {
      assert q[i] in q;
      var x := b.On(o.side.Opposite())[j];
      assert x in b.On(o.side.Opposite());
    }
  }

  // A limit order keeps the book well formed; in particular it never leaves it crossed.
  lemma {:induction false} PlaceLimitKeepsBook(b: Book, id: OrderId, side: Side, price: Price, quantity: Quantity)
    requires BookOk(b) && 0 < quantity && !InBook(b, id)
    ensures BookOk(PlaceLimit(b, id, side, price, quantity).book)
  {
    var taker := NewLimit(id, side, price, quantity);
    var opposite := b.On(side.Opposite());
    var out := Consume(taker, opposite);
    var matched := b.With(side.Opposite(), out.rest);
    ConsumeKeepsBook(b, taker);
    if !out.taker.IsFilled() {
      ConsumeIsGreedy(taker, opposite, out);
      FillTotalPositive(out.fills);
      UnfilledTakerExhausts(taker, opposite);
      ConsumeAddsNoIds(taker, opposite);
      RestKeepsBook(matched, out.taker);
    }
  }

  lemma {:induction false} ConsumeAddsNoIds(taker: Order, q: seq<Order>)
    requires 0 <= taker.remaining
    requires forall i :: 0 <= i < |q| ==> 0 < q[i].remaining
    ensures forall id :: HasId(Consume(taker, q).rest, id) ==> HasId(q, id)
  {
    var rest := Consume(taker, q).rest;
    ConsumeLeavesRemnant(taker, q);
    forall id | HasId(rest, id)
      ensures HasId(q, id)
    {
      var i :| 0 <= i < |rest| && rest[i].id == id;
      RemnantKeepsIds(q, rest, i);
    }
  }

  lemma {:induction false} PlaceMarketKeepsBook(b: Book, id: OrderId, side: Side, quantity: Quantity)
    requires BookOk(b) && 0 < quantity
    ensures BookOk(PlaceMarket(b, id, side, quantity).book)
  {
    ConsumeKeepsBook(b, NewMarket(id, side, quantity));
  }

  lemma {:induction false} CancelKeepsBook(b: Book, id: OrderId)
    requires BookOk(b)
    ensures BookOk(Cancel(b, id))
    ensures !InBook(Cancel(b, id), id)
  {
    WithoutKeepsSide(Bid, b.bids, id);
    WithoutKeepsSide(Ask, b.asks, id);
    var c := Cancel(b, id);
    forall i | 0 <= i < |c.bids|
      ensures c.bids[i] in b.bids && c.bids[i].id != id
    {
      assert c.bids[i] in c.bids;
    }
    forall i | 0 <= i < |c.asks|
      ensures c.asks[i] in b.asks && c.asks[i].id != id
    {
      assert c.asks[i] in c.asks;
    }
  }
}
