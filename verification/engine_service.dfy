// The service's command loop around the matching engine.
module EngineService {
  import opened Orders
  import opened EngineRuns
  import opened MatchingEngine

  // Process commands in order against one order book. What the book holds and everything
  // it reported are those of the run.
  method ProcessCommands(book: OrderBook, commands: seq<Command>)
    returns (fills: seq<Fill>, completed: seq<OrderId>)
    requires book.Valid() && book.Contents() == EMPTY_BOOK
    requires FreshCommands(commands)
    modifies book
    ensures book.Valid()
    ensures book.Contents() == Run(commands).book
    ensures fills == Run(commands).fills && completed == Run(commands).completed
  {
    fills, completed := [], [];
    hide FreshCommands, Consume, OrderBook.Valid;
    for i := 0 to |commands|
      invariant book.Valid()
      invariant book.Contents() == Run(commands[..i]).book
      invariant fills == Run(commands[..i]).fills && completed == Run(commands[..i]).completed
    {
      ghost var earlier := commands[..i];
      assert commands[..i + 1] == earlier + [commands[i]];
      AdmissibleNext(commands, i);
      match commands[i]
      case AddLimit(id, side, price, quantity) =>
        var result := book.AddLimitOrder(id, side, price, quantity);
        fills := fills + result.fills;
        completed := completed + result.completed;
      case AddMarket(id, side, quantity) =>
        var result := book.AddMarketOrder(id, side, quantity);
        fills := fills + result.fills;
        completed := completed + result.completed;
      case CancelId(id) =>
        var cancelled := book.CancelOrder(id);
    }
    assert commands[..|commands|] == commands;
  }
}
