// The tables of the accounts service.
module AccountTables {
  import opened Common
  import opened FillKeys
  import opened Ledger
  import Orders

  type Side = Orders.Side
  type OrderType = Orders.OrderType

  datatype OrderStatus = Pending | Open | PartiallyFilled | Filled | Cancelled | Rejected | Expired {
    predicate Cancellable() {
      Pending? || Open? || PartiallyFilled?
    }
  }

  datatype OrderRow = OrderRow(
    user: UserId,
    symbol: string,
    side: Side,
    orderType: OrderType,
    price: Option<real>,
    quantity: real,
    filled: real,
    status: OrderStatus)

  datatype Fill = Fill(buyOrderId: Reference, sellOrderId: Reference, price: real, quantity: real, timestamp: int) {
    // The idempotency key.
    function Key(): string {
      KeyText(buyOrderId, sellOrderId, timestamp)
    }
  }

  datatype TradeRow = TradeRow(
    symbol: string,
    buyOrderId: Option<Reference>,
    sellOrderId: Option<Reference>,
    buyer: Option<UserId>,
    seller: Option<UserId>,
    price: real,
    quantity: real,
    buyerFee: real,
    sellerFee: real)

  datatype Db = Db(books: Books, orders: map<Reference, OrderRow>, trades: map<string, TradeRow>)

  const EMPTY := Db(Books([], map[]), map[], map[])

  // ---------- symbols ----------

  // The parts between slashes.
  function Split(s: string): (parts: seq<string>)
    ensures |parts| > 0
  {
    if s == [] then [""]
    else
      var rest := Split(s[1..]);
      if s[0] == '/' then [""] + rest else [[s[0]] + rest[0]] + rest[1..]
  }

  // Base and quote asset: "KCN/EUR" gives KCN and EUR.
  function ParseSymbol(symbol: string): Option<(string, string)> {
    var parts := Split(symbol);
    if |parts| == 2 then Some((parts[0], parts[1])) else None
  }

  predicate NoSlash(s: string) {
    forall i :: 0 <= i < |s| ==> s[i] != '/'
  }

  lemma {:induction false} SplitOnce(s: string)
    ensures |Split(s)| == 1 <==> NoSlash(s)
    ensures NoSlash(s) ==> Split(s) == [s]
    ensures NoSlash(Split(s)[0]) && Split(s)[0] <= s
  {
    if s != [] {
      SplitOnce(s[1..]);
      assert s == [s[0]] + s[1..];
      assert NoSlash(s) <==> s[0] != '/' && NoSlash(s[1..]);
    }
  }

  lemma {:induction false} SplitJoined(base: string, rest: string)
    requires NoSlash(base)
    ensures Split(base + "/" + rest) == [base] + Split(rest)
  {
    var s := base + "/" + rest;
    if base == [] {
      assert s == ['/'] + rest;
    } else {
      assert s[1..] == base[1..] + "/" + rest;
      SplitJoined(base[1..], rest);
      assert base == [base[0]] + base[1..];
    }
  }

  lemma {:induction false} SplitParts(s: string)
    requires |Split(s)| > 1
    ensures exists rest :: s == Split(s)[0] + "/" + rest && Split(rest) == Split(s)[1..]
  {
    if s[0] == '/' {
      assert s == "" + "/" + s[1..];
    } else {
      SplitParts(s[1..]);
      var rest :| s[1..] == Split(s[1..])[0] + "/" + rest && Split(rest) == Split(s[1..])[1..];
      assert s == [s[0]] + s[1..];
      assert s == Split(s)[0] + "/" + rest;
    }
  }

  // A symbol parses exactly when it is two assets around a single slash.
  lemma SymbolRoundTrip(symbol: string, base: string, quote: string)
    ensures ParseSymbol(symbol) == Some((base, quote)) <==> symbol == base + "/" + quote && NoSlash(base) && NoSlash(quote)
  {
    if symbol == base + "/" + quote && NoSlash(base) && NoSlash(quote) {
      SplitJoined(base, quote);
      SplitOnce(quote);
    }
    if ParseSymbol(symbol) == Some((base, quote)) {
      SplitParts(symbol);
      var rest :| symbol == Split(symbol)[0] + "/" + rest && Split(rest) == Split(symbol)[1..];
      SplitOnce(symbol);
      SplitOnce(rest);
      assert Split(rest) == [quote];
    }
  }
}
