// Fill-or-kill, immediate-or-cancel and post-only orders over the plain book.
module OrderFlags {
  import opened Common
  import opened Orders
  import opened FlatBook
  import opened Taking
  import opened PythonMatching

  ghost predicate WouldCross(taker: Order, q: seq<Order>) {
    exists i :: 0 <= i < |q| && taker.Accepts(q[i].RestPrice())
  }

  datatype FlaggedOutcome = FlaggedOutcome(
    book: Book, fills: seq<Fill>, completed: seq<OrderId>, taker: Order, status: OrderStatus)

  // An admitted limit order: matching, and what becomes of the rest.
  ghost function Admitted(b: Book, taker: Order, tif: TimeInForce): FlaggedOutcome {
    var out := Consume(taker, b.On(taker.side.Opposite()));
    var matched := b.With(taker.side.Opposite(), out.rest);
    if out.taker.IsFilled() then
      FlaggedOutcome(matched, out.fills, out.completed + [taker.id], out.taker, Filled)
    else if tif.IOC? || tif.FOK? then
      FlaggedOutcome(matched, out.fills, out.completed, out.taker, Cancelled)
    else
      FlaggedOutcome(matched.With(taker.side, Enqueue(taker.side, b.On(taker.side), out.taker)),
                     out.fills, out.completed, out.taker,
                     if out.taker.remaining < taker.quantity then PartiallyFilled else Open)
  }

  lemma AdmittedFills(b: Book, taker: Order, tif: TimeInForce)
    ensures Admitted(b, taker, tif).fills == Consume(taker, b.On(taker.side.Opposite())).fills
  {
  }

  // A limit order with its flags: the pre-checks come first.
  ghost function PlaceFlagged(b: Book, taker: Order, tif: TimeInForce, postOnly: bool): FlaggedOutcome {
    var q := b.On(taker.side.Opposite());
    if postOnly && WouldCross(taker, q) then
      FlaggedOutcome(b, [], [], taker, Rejected)
    else if tif.FOK? && Liquidity(taker, q) < taker.quantity then
      FlaggedOutcome(b, [], [], taker, Rejected)
    else
      Admitted(b, taker, tif)
  }

  // Fill-or-kill is all or nothing: the pre-check admits the order exactly when matching
  // fills it, and otherwise nothing changes.
  lemma {:induction false} FokIsAllOrNothing(b: Book, taker: Order, postOnly: bool)
    requires BookOk(b) && 0 < taker.quantity == taker.remaining
    ensures var out := PlaceFlagged(b, taker, FOK, postOnly);
      && (out.status == Filled || out.status == Rejected)
      && (out.status == Filled ==> out.taker.remaining == 0 && FillTotal(out.fills) == taker.quantity)
      && (out.status == Rejected ==> out.book == b && out.fills == [] && out.completed == [])
      && (!postOnly ==>
            (out.status == Filled <==> Consume(taker, b.On(taker.side.Opposite())).taker.IsFilled()))
  {
    var q := b.On(taker.side.Opposite());
    assert SideOk(taker.side.Opposite(), q);
    ConsumeTakesLiquidity(taker, q);
    assert forall i :: 0 <= i < |q| ==> Resting(taker.side.Opposite(), q[i]);
    ConsumeIsGreedy(taker, q, Consume(taker, q));
  }

  // A post-only order never takes: it is rejected exactly when it would have traded at once.
  lemma {:induction false} PostOnlyNeverTakes(b: Book, taker: Order, tif: TimeInForce)
    requires BookOk(b) && 0 < taker.quantity == taker.remaining
    ensures var out := PlaceFlagged(b, taker, tif, true);
      && out.fills == [] && out.completed == []
      && (out.status == Rejected ==> out.book == b)
      && (!tif.FOK? ==> (out.status == Rejected <==> Consume(taker, b.On(taker.side.Opposite())).fills != []))
  {
    var q := b.On(taker.side.Opposite());
    assert SideOk(taker.side.Opposite(), q);
    if !WouldCross(taker, q) {
      NoLiquidity(taker, q);
    } else {
      if !taker.Accepts(q[0].RestPrice()) {
        NoLiquidityBehind(taker, q);
      }
    }
  }

  // Immediate-or-cancel never rests.
  lemma {:induction false} IocNeverRests(b: Book, taker: Order, postOnly: bool)
    requires BookOk(b) && 0 < taker.quantity == taker.remaining && !InBook(b, taker.id)
    ensures !InBook(PlaceFlagged(b, taker, IOC, postOnly).book, taker.id)
    ensures BookOk(PlaceFlagged(b, taker, IOC, postOnly).book)
  {
    var q := b.On(taker.side.Opposite());
    assert forall i :: 0 <= i < |q| ==> Resting(taker.side.Opposite(), q[i]);
    ConsumeAddsNoIds(taker, q);
    ConsumeKeepsBook(b, taker);
  }

  // An order with its flags, in terms of what the other side offers within its price. It is
  // rejected, and then nothing changes, exactly if it is post-only and anything is on offer, or
  // fill-or-kill and too little is.
  lemma {:induction false} FlaggedRejects(b: Book, taker: Order, tif: TimeInForce, postOnly: bool)
    requires BookOk(b) && taker.orderType.Limit? && taker.price.Some? && 0 < taker.quantity == taker.remaining
    ensures var out := PlaceFlagged(b, taker, tif, postOnly);
      var offered := Offered(taker.side, taker.price, b.On(taker.side.Opposite()));
      && (out.status == Rejected <==> (postOnly && offered > 0) || (tif == FOK && offered < taker.quantity))
      && (out.status == Rejected ==> out == FlaggedOutcome(b, [], [], taker, Rejected))
  {
    var q := b.On(taker.side.Opposite());
    assert SideOk(taker.side.Opposite(), q);
    OfferedIsLiquidity(taker, q);
    CrossingIsOffered(taker, q);
  }

  lemma {:induction false} CrossingIsOffered(taker: Order, q: seq<Order>)
    requires forall i :: 0 <= i < |q| ==> 0 < q[i].remaining
    ensures 0 <= Liquidity(taker, q)
    ensures WouldCross(taker, q) <==> 0 < Liquidity(taker, q)
  {
    if q != [] {
      var tail := q[1..];
      assert forall i :: 0 <= i < |tail| ==> tail[i] == q[i + 1];
      CrossingIsOffered(taker, tail);
      if WouldCross(taker, q) && !taker.Accepts(q[0].RestPrice()) {
        var i :| 0 <= i < |q| && taker.Accepts(q[i].RestPrice());
        assert taker.Accepts(tail[i - 1].RestPrice());
      }
    }
  }

  // Otherwise it takes all that is on offer, up to its quantity, in the order of priority. It is
  // filled exactly if that much is on offer; if not, immediate-or-cancel drops the rest, and a
  // plain order rests with it, open if it took nothing and partially filled if it did.
  lemma {:induction false} FlaggedTakes(b: Book, taker: Order, tif: TimeInForce, postOnly: bool)
    requires BookOk(b) && taker.orderType.Limit? && taker.price.Some? && 0 < taker.quantity == taker.remaining
    ensures var out, q := PlaceFlagged(b, taker, tif, postOnly), b.On(taker.side.Opposite());
      var offered := Offered(taker.side, taker.price, q);
      var filled := taker.quantity <= offered;
      out.status != Rejected ==>
        && out.status == (if filled then Filled else if tif == IOC then Cancelled else if offered > 0 then PartiallyFilled else Open)
        && FillTotal(out.fills) == Min(taker.quantity, offered)
        && out.taker == taker.(remaining := taker.quantity - FillTotal(out.fills))
        && (filled ==> out.completed != [] && out.completed[|out.completed| - 1] == taker.id)
        && GreedyMatch(taker, q, Outcome(out.taker, out.book.On(taker.side.Opposite()), out.fills,
                                         if filled then out.completed[..|out.completed| - 1] else out.completed))
        && out.book.On(taker.side)
           == (if filled || tif == IOC then b.On(taker.side) else Enqueue(taker.side, b.On(taker.side), out.taker))
  {
    hide Consume, GreedyMatch, Offered, Liquidity, WouldCross, SideOk, Enqueue;
    var q := b.On(taker.side.Opposite());
    SideOfBook(b, taker.side.Opposite());
    var out := Consume(taker, q);
    ConsumeTakes(taker, q);
    ConsumeIsGreedy(taker, q, out);
    FlaggedRejects(b, taker, tif, postOnly);
    if PlaceFlagged(b, taker, tif, postOnly).status != Rejected {
      assert PlaceFlagged(b, taker, tif, postOnly) == Admitted(b, taker, tif);
      assert (out.completed + [taker.id])[..|out.completed|] == out.completed;
      assert Outcome(out.taker, out.rest, out.fills, out.completed) == out;
    }
  }

  lemma SideOfBook(b: Book, side: Side)
    requires BookOk(b)
    ensures SideOk(side, b.On(side))
    ensures forall i :: 0 <= i < |b.On(side)| ==> 0 < b.On(side)[i].remaining
  {
    assert forall i :: 0 <= i < |b.On(side)| ==> Resting(side, b.On(side)[i]);
  }

  // So an admitted post-only order that is not immediate-or-cancel rests with its whole quantity.
  lemma PostOnlyRests(b: Book, taker: Order)
    requires BookOk(b) && taker.orderType.Limit? && taker.price.Some? && 0 < taker.quantity == taker.remaining
    requires Offered(taker.side, taker.price, b.On(taker.side.Opposite())) == 0
    ensures PlaceFlagged(b, taker, GTC, true)
      == FlaggedOutcome(b.With(taker.side, Enqueue(taker.side, b.On(taker.side), taker)), [], [], taker, Open)
  {
    var q := b.On(taker.side.Opposite());
    FlaggedRejects(b, taker, GTC, true);
    FlaggedTakes(b, taker, GTC, true);
    PostOnlyNeverTakes(b, taker, GTC);
    var out := PlaceFlagged(b, taker, GTC, true);
    assert out.book.On(taker.side.Opposite()) == q;
    assert out.book == b.With(taker.side, Enqueue(taker.side, b.On(taker.side), taker));
  }

  // Without flags the Python book's limit order is the Rust engine's.
  lemma {:induction false} PlainOrdersAgree(b: Book, id: OrderId, side: Side, price: Price, quantity: Quantity)
    ensures var flagged := PlaceFlagged(b, NewLimit(id, side, price, quantity), GTC, false);
      PlaceLimit(b, id, side, price, quantity)
        == Placed(flagged.book, OrderResult(id, flagged.fills, flagged.completed))
  {
  }
}
