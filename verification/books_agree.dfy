// The Rust engine and the Python book, driven by the same commands.
module BooksAgree {
  import opened Common
  import opened Orders
  import opened EngineRuns
  import opened MatchingEngine
  import opened EngineService
  import opened PythonMatching
  import opened PythonBook
  import opened OrderFlags

  // Commands that both books take: the Python book wants positive prices.
  ghost predicate PlainCommands(cs: seq<Command>) {
    FreshCommands(cs) && forall i :: 0 <= i < |cs| && cs[i].AddLimit? ==> 0 < cs[i].price
  }

  lemma {:induction false} PlainConcat(a: seq<PyFill>, b: seq<PyFill>)
    ensures Plain(a + b) == Plain(a) + Plain(b)
  {
    if b == [] {
      assert a + b == a;
    } else {
      var n := |b| - 1;
      assert (a + b)[..|a + b| - 1] == a + b[..n];
      PlainConcat(a, b[..n]);
    }
  }

  // A new order object changes no book.
  method NewOrder(book: PyBook, c: Command, account: nat) returns (order: PyOrder)
    requires book.Valid() && c.Places()
    ensures fresh(order) && book.Valid() && book.Contents() == old(book.Contents()) && order !in book.orders.Values
    ensures order.View() == TakerOf(c) && order.account == account && order.tif == GTC && !order.postOnly
  {
    book.ObjectsAreKnown();
    var (orderType, price) := if c.AddLimit? then (Limit, Some(c.price)) else (Market, None);
    order := new PyOrder(c.id, account, c.side, orderType, price, c.quantity, GTC, false);
  }

  // One order without flags, as the Rust engine places it.
  method PlacePlain(book: PyBook, c: Command, account: nat) returns (fills: seq<PyFill>, completed: seq<OrderId>)
    requires book.Valid() && c.Places() && 0 < c.quantity && (c.AddLimit? ==> 0 < c.price)
    requires !InBook(book.Contents(), c.id)
    modifies book, book.orders.Values
    ensures book.Valid()
    ensures forall id :: id in book.orders ==> fresh(book.orders[id]) || book.orders[id] in old(book.orders).Values
    ensures var placed :=
        if c.AddLimit? then PlaceLimit(old(book.Contents()), c.id, c.side, c.price, c.quantity)
        else PlaceMarket(old(book.Contents()), c.id, c.side, c.quantity);
      book.Contents() == placed.book && OrderResult(c.id, Plain(fills), completed) == placed.result
  {
    hide PyBook.Valid, PyBook.Contents, Consume, AccountsOk, InBook;
    var order := NewOrder(book, c, account);
    var result;
    if c.AddLimit? {
      PlainOrdersAgree(book.Contents(), c.id, c.side, c.price, c.quantity);
      result := book.AddLimitOrder(order);
    } else {
      result := book.AddMarketOrder(order);
    }
    fills, completed := result.value.fills, result.value.completed;
  }

  // The commands in order against a new Python book.
  method ProcessPlain(commands: seq<Command>, accounts: seq<nat>)
    returns (book: PyBook, fills: seq<PyFill>, completed: seq<OrderId>)
    requires PlainCommands(commands) && |accounts| == |commands|
    ensures fresh(book) && book.Valid()
    ensures book.Contents() == Run(commands).book
    ensures Plain(fills) == Run(commands).fills && completed == Run(commands).completed
  {
    hide FreshCommands, Consume, SidesValid, PyBook.Contents;
    book := new PyBook();
    fills, completed := [], [];
    for i := 0 to |commands|
      invariant fresh(book) && book.Valid()
      invariant forall id :: id in book.orders ==> fresh(book.orders[id])
      invariant book.Contents() == Run(commands[..i]).book
      invariant Plain(fills) == Run(commands[..i]).fills && completed == Run(commands[..i]).completed
    {
      AdmissibleNext(commands, i);
      var c := commands[i];
      if c.Places() {
        var newFills, newCompleted := PlacePlain(book, c, accounts[i]);
        PlainConcat(fills, newFills);
        fills := fills + newFills;
        completed := completed + newCompleted;
      } else {
        var cancelled := book.CancelOrder(c.cancelId);
      }
    }
    assert commands[..|commands|] == commands;
  }

  // Both books, given the same plain commands: they report the same fills and completions in
  // the same order, those of the run, and hold the same orders afterwards.
  method DriveBoth(commands: seq<Command>, accounts: seq<nat>)
    returns (rust: OrderBook, python: PyBook, fills: seq<Fill>, completed: seq<OrderId>,
             pyFills: seq<PyFill>, pyCompleted: seq<OrderId>)
    requires PlainCommands(commands) && |accounts| == |commands|
    ensures rust.Valid() && python.Valid()
    ensures rust.Contents() == Run(commands).book == python.Contents()
    ensures fills == Run(commands).fills == Plain(pyFills)
    ensures completed == Run(commands).completed == pyCompleted
  {
    hide OrderBook.Valid, PyBook.Valid, FreshCommands;
    rust := new OrderBook();
    fills, completed := ProcessCommands(rust, commands);
    python, pyFills, pyCompleted := ProcessPlain(commands, accounts);
  }
}
