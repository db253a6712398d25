// An independent reference for price-time priority: resting orders kept in the order in
// which they arrived, and a trade always with the best-priced order, the earliest among
// equals. The prioritized lists of the plain book are shown to compute exactly this.
module ArrivalBook {
  import opened Common
  import opened Orders
  import opened FlatBook

  // `arrivals[i]` is served next on its side.
  ghost predicate IsNext(side: Side, arrivals: seq<Order>, i: nat) {
    && i < |arrivals| && arrivals[i].side == side
    && forall j :: 0 <= j < |arrivals| && j != i && arrivals[j].side == side ==>
         ServedBefore(side, arrivals, i, j)
  }

  ghost predicate ServedBefore(side: Side, arrivals: seq<Order>, i: nat, j: nat)
    requires i < |arrivals| && j < |arrivals|
  {
    var p, q := arrivals[i].RestPrice(), arrivals[j].RestPrice();
    Better(side, p, q) || (p == q && i < j)
  }

  function RemoveAt(s: seq<Order>, i: nat): seq<Order>
    requires i < |s|
  {
    s[..i] + s[i + 1..]
  }

  ghost function NextIndex(side: Side, arrivals: seq<Order>): Option<nat> {
    if i: nat :| IsNext(side, arrivals, i) then Some(i) else None
  }

  lemma NextIndexIsNext(side: Side, arrivals: seq<Order>)
    ensures match NextIndex(side, arrivals)
      case Some(i) => IsNext(side, arrivals, i) && i < |arrivals| && arrivals[i].side == side
      case None => forall i: nat :: !IsNext(side, arrivals, i)
  {
  }

  ghost function ArrivalMatch(taker: Order, arrivals: seq<Order>): Outcome
    decreases |arrivals|
  {
    NextIndexIsNext(taker.side.Opposite(), arrivals);
    var next := NextIndex(taker.side.Opposite(), arrivals);
    if taker.IsFilled() || next.None? || !taker.Accepts(arrivals[next.value].RestPrice()) then
      Outcome(taker, arrivals, [], [])
    else
      var i := next.value;
      var maker := arrivals[i];
      var traded := Min(taker.remaining, maker.remaining);
      var taker' := taker.(remaining := taker.remaining - traded);
      var fill := FillBetween(taker, maker, maker.RestPrice(), traded);
      if traded == maker.remaining then
        var later := ArrivalMatch(taker', RemoveAt(arrivals, i));
        Outcome(later.taker, later.rest, [fill] + later.fills, [maker.id] + later.completed)
      else
        Outcome(taker', arrivals[i := maker.(remaining := maker.remaining - traded)], [fill], [])
  }

  datatype ArrivalPlaced = ArrivalPlaced(arrivals: seq<Order>, result: OrderResult)

  ghost function ArrivalLimit(arrivals: seq<Order>, id: OrderId, side: Side, price: Price, quantity: Quantity)
    : ArrivalPlaced
  {
    var out := ArrivalMatch(NewLimit(id, side, price, quantity), arrivals);
    if out.taker.IsFilled() then
      ArrivalPlaced(out.rest, OrderResult(id, out.fills, out.completed + [id]))
    else
      ArrivalPlaced(out.rest + [out.taker], OrderResult(id, out.fills, out.completed))
  }

  ghost function ArrivalMarket(arrivals: seq<Order>, id: OrderId, side: Side, quantity: Quantity): ArrivalPlaced {
    var out := ArrivalMatch(NewMarket(id, side, quantity), arrivals);
    ArrivalPlaced(out.rest,
                  OrderResult(id, out.fills, if out.taker.IsFilled() then out.completed + [id] else out.completed))
  }

  // ---------- sorting arrivals ----------

  // One side of the arrivals, stably sorted by price.
  function ByPriority(side: Side, arrivals: seq<Order>): seq<Order> {
    if arrivals == [] then []
    else
      var last := arrivals[|arrivals| - 1];
      var sorted := ByPriority(side, arrivals[..|arrivals| - 1]);
      if last.side == side then Enqueue(side, sorted, last) else sorted
  }

  function Sorted(arrivals: seq<Order>): Book {
    Book(ByPriority(Bid, arrivals), ByPriority(Ask, arrivals))
  }

  lemma {:induction false} EnqueueKeepsPriority(side: Side, q: seq<Order>, o: Order)
    requires Prioritized(side, q)
    ensures Prioritized(side, Enqueue(side, q, o))
  {
    var k := EnqueuePosition(side, q, o);
    var r := q[..k] + [o] + q[k..];
    forall i, j | 0 <= i < j < |r|
      ensures !Better(side, r[j].RestPrice(), r[i].RestPrice())
    {
      var i' := if i < k then i else i - 1;
      var j' := if j < k then j else j - 1;
      if i != k && j != k {
        assert !Better(side, q[j'].RestPrice(), q[i'].RestPrice());
      }
    }
  }

  lemma {:induction false} ByPriorityIsPrioritized(side: Side, arrivals: seq<Order>)
    ensures Prioritized(side, ByPriority(side, arrivals))
  {
    if arrivals != [] {
      ByPriorityIsPrioritized(side, arrivals[..|arrivals| - 1]);
      EnqueueKeepsPriority(side, ByPriority(side, arrivals[..|arrivals| - 1]), arrivals[|arrivals| - 1]);
    }
  }

  lemma {:induction false} ByPriorityMembers(side: Side, arrivals: seq<Order>)
    ensures forall o :: o in ByPriority(side, arrivals) <==> o in arrivals && o.side == side
  {
    if arrivals != [] {
      var n := |arrivals| - 1;
      ByPriorityMembers(side, arrivals[..n]);
      assert arrivals == arrivals[..n] + [arrivals[n]];
      EnqueueMembers(side, ByPriority(side, arrivals[..n]), arrivals[n]);
    }
  }

  // The order served next is the head of the sorted list, and without it the list is the rest.
  lemma {:induction false} NextIsHead(side: Side, arrivals: seq<Order>, i: nat)
    requires IsNext(side, arrivals, i)
    ensures ByPriority(side, arrivals) == [arrivals[i]] + ByPriority(side, RemoveAt(arrivals, i))
  {
    var n := |arrivals| - 1;
    var earlier, last := arrivals[..n], arrivals[n];
    if i == n {
      LastGoesFirst(side, arrivals);
    } else {
      NextAmongEarlier(side, arrivals, i);
      assert last.side == side ==> ServedBefore(side, arrivals, i, n);
      hide IsNext, Enqueue;
      NextIsHead(side, earlier, i);
      assert RemoveAt(arrivals, i) == RemoveAt(earlier, i) + [last];
      assert RemoveAt(arrivals, i)[..n - 1] == RemoveAt(earlier, i);
      var q := ByPriority(side, RemoveAt(earlier, i));
      if last.side == side {
        EnqueueBehind(side, arrivals[i], q, last);
      }
    }
  }

  lemma {:induction false} LastGoesFirst(side: Side, arrivals: seq<Order>)
    requires arrivals != [] && IsNext(side, arrivals, |arrivals| - 1)
    ensures var n := |arrivals| - 1;
      ByPriority(side, arrivals) == [arrivals[n]] + ByPriority(side, RemoveAt(arrivals, n))
  {
    var n := |arrivals| - 1;
    assert RemoveAt(arrivals, n) == arrivals[..n];
    var q := ByPriority(side, arrivals[..n]);
    if q != [] {
      ByPriorityMembers(side, arrivals[..n]);
      assert q[0] in q;
      var j :| 0 <= j < n && arrivals[j] == q[0];
      assert ServedBefore(side, arrivals, n, j);
    }
  }

  lemma {:induction false} EnqueueBehind(side: Side, head: Order, q: seq<Order>, o: Order)
    requires !Better(side, o.RestPrice(), head.RestPrice())
    ensures Enqueue(side, [head] + q, o) == [head] + Enqueue(side, q, o)
  {
    assert ([head] + q)[1..] == q;
  }

  lemma {:induction false} NextAmongEarlier(side: Side, arrivals: seq<Order>, i: nat)
    requires IsNext(side, arrivals, i) && i < |arrivals| - 1
    ensures IsNext(side, arrivals[..|arrivals| - 1], i)
  {
    var earlier := arrivals[..|arrivals| - 1];
    forall j | 0 <= j < |earlier| && j != i && earlier[j].side == side
      ensures ServedBefore(side, earlier, i, j)
    {
      assert ServedBefore(side, arrivals, i, j);
    }
  }

  lemma {:induction false} NextExists(side: Side, arrivals: seq<Order>) returns (i: nat)
    requires exists k :: 0 <= k < |arrivals| && arrivals[k].side == side
    ensures IsNext(side, arrivals, i)
  {
    var n := |arrivals| - 1;
    var earlier, last := arrivals[..n], arrivals[n];
    if exists k :: 0 <= k < n && arrivals[k].side == side {
      var k :| 0 <= k < n && arrivals[k].side == side;
      assert earlier[k].side == side;
      i := NextExists(side, earlier);
      forall j | 0 <= j < n && j != i && arrivals[j].side == side
        ensures ServedBefore(side, arrivals, i, j)
      {
        assert ServedBefore(side, earlier, i, j);
      }
      if last.side == side && Better(side, last.RestPrice(), arrivals[i].RestPrice()) {
        forall j | 0 <= j < n && arrivals[j].side == side
          ensures ServedBefore(side, arrivals, n, j)
        {
          assert j != i ==> ServedBefore(side, arrivals, i, j);
        }
        i := n;
      }
    } else {
      i := n;
    }
  }
}
