// The append-only ledger and the cached balances it keeps.
module Ledger {
  import opened Common
  import opened Decimals

  type UserId = nat

  // Order ids, and other ids an entry may refer to.
  type Reference = nat

  // A user's balance in one asset.
  type Account = (UserId, string)

  datatype EntryType = Deposit | Withdrawal | Trade | Fee | Lock | Unlock

  datatype LedgerEntry = LedgerEntry(
    user: UserId,
    asset: string,
    amount: real,
    balanceAfter: real,
    entryType: EntryType,
    reference: Option<Reference>)
  {
    function Account(): Account {
      (user, asset)
    }
  }

  datatype LedgerError =
    | AssetLength
    | AssetNotAlphanumeric
    | TooManyDecimals(asset: string, max: nat)
    | InsufficientBalance
    | NegativeAvailable

  // The ledger and balances tables.
  datatype Books = Books(ledger: seq<LedgerEntry>, balances: map<Account, real>)

  predicate Alphanumeric(c: char) {
    'a' <= c <= 'z' || 'A' <= c <= 'Z' || '0' <= c <= '9'
  }

  function ValidateAsset(asset: string): Option<LedgerError> {
    if |asset| == 0 || |asset| > 10 then Some(AssetLength)
    else if exists i :: 0 <= i < |asset| && !Alphanumeric(asset[i]) then Some(AssetNotAlphanumeric)
    else None
  }

  function PlacesOf(asset: string): Places {
    if asset == "EUR" || asset == "USD" || asset == "GBP" then Two else Eight
  }

  function ValidatePrecision(asset: string, amount: real): Option<LedgerError> {
    if PlacesOf(asset).Fits(amount) then None
    else Some(TooManyDecimals(asset, if PlacesOf(asset).Two? then 2 else 8))
  }

  function RoundToPrecision(asset: string, amount: real): real {
    PlacesOf(asset).Round(amount)
  }

  function Cached(b: Books, k: Account): real {
    if k in b.balances then b.balances[k] else 0.0
  }

  // An entry to be appended.
  datatype Posting = Posting(user: UserId, asset: string, amount: real, entryType: EntryType, reference: Option<Reference>) {
    function Account(): Account {
      (user, asset)
    }
  }

  // append_in_tx. A lock may pass the ledger's own check with a negative balance, but then
  // the table's CHECK constraint refuses it.
  function Append(b: Books, p: Posting): Result<Books, LedgerError> {
    var badAsset, badAmount := ValidateAsset(p.asset), ValidatePrecision(p.asset, p.amount);
    if badAsset.Some? then Err(badAsset.value)
    else if badAmount.Some? then Err(badAmount.value)
    else
      var balance := Cached(b, p.Account()) + p.amount;
      if balance < 0.0 && p.entryType != Lock then Err(InsufficientBalance)
      else
        var entry := LedgerEntry(p.user, p.asset, Column(p.amount), Column(balance), p.entryType, p.reference);
        if Column(balance) < 0.0 then Err(NegativeAvailable)
        else Ok(Books(b.ledger + [entry], b.balances[p.Account() := Column(balance)]))
  }

  // Several appends in one transaction.
  function AppendAll(b: Books, ps: seq<Posting>): Result<Books, LedgerError> {
    if ps == [] then Ok(b)
    else
      var before :- AppendAll(b, ps[..|ps| - 1]);
      Append(before, ps[|ps| - 1])
  }

  // ---------- sums over the ledger ----------

  // Which entries a sum takes.
  datatype Filter =
    | OfAccount(account: Account)
    | TradesIn(asset: string)
    | LocksFor(locked: Reference)
    | UnlocksFor(unlocked: Reference)
  {
    predicate Picks(e: LedgerEntry) {
      match this
      case OfAccount(account) => e.Account() == account
      case TradesIn(asset) => e.entryType.Trade? && e.asset == asset
      case LocksFor(locked) => e.entryType.Lock? && e.reference == Some(locked)
      case UnlocksFor(unlocked) => e.entryType.Unlock? && e.reference == Some(unlocked)
    }

    // What a posting adds to the sum.
    function Of(p: Posting): real {
      if Picks(LedgerEntry(p.user, p.asset, p.amount, 0.0, p.entryType, p.reference)) then p.amount else 0.0
    }
  }

  function Total(ledger: seq<LedgerEntry>, f: Filter): real {
    if ledger == [] then 0.0
    else
      var last := ledger[|ledger| - 1];
      Total(ledger[..|ledger| - 1], f) + if f.Picks(last) then last.amount else 0.0
  }

  function TotalOf(ps: seq<Posting>, f: Filter): real {
    if ps == [] then 0.0 else TotalOf(ps[..|ps| - 1], f) + f.Of(ps[|ps| - 1])
  }

  // derive_balance
  function Derived(ledger: seq<LedgerEntry>, k: Account): real {
    Total(ledger, OfAccount(k))
  }

  // The balance_after of the last entry of an account.
  function LastBalanceAfter(ledger: seq<LedgerEntry>, k: Account): real {
    if ledger == [] then 0.0
    else if ledger[|ledger| - 1].Account() == k then ledger[|ledger| - 1].balanceAfter
    else LastBalanceAfter(ledger[..|ledger| - 1], k)
  }

  // Cached balance, ledger sum and last recorded balance agree, and are not negative.
  ghost predicate AccountOk(b: Books, k: Account) {
    && Cached(b, k) == Derived(b.ledger, k) == LastBalanceAfter(b.ledger, k)
    && Cached(b, k) >= 0.0 && Eight.Fits(Cached(b, k))
  }

  // All accounts agree, and each entry recorded the running balance of its account.
  ghost predicate LedgerOk(b: Books) {
    && (forall k: Account :: AccountOk(b, k))
    && (forall i :: 0 <= i < |b.ledger| ==>
        b.ledger[i].balanceAfter == Derived(b.ledger[..i + 1], b.ledger[i].Account()))
  }

  // reconcile
  predicate Reconciles(b: Books, k: Account) {
    Derived(b.ledger, k) == Cached(b, k)
  }

  lemma TotalAppend(ledger: seq<LedgerEntry>, e: LedgerEntry, f: Filter)
    ensures Total(ledger + [e], f) == Total(ledger, f) + if f.Picks(e) then e.amount else 0.0
  {
    assert (ledger + [e])[..|ledger|] == ledger;
  }

  lemma LastAppend(ledger: seq<LedgerEntry>, e: LedgerEntry, k: Account)
    ensures LastBalanceAfter(ledger + [e], k) == if e.Account() == k then e.balanceAfter else LastBalanceAfter(ledger, k)
  {
    assert (ledger + [e])[..|ledger|] == ledger;
  }

  // A successful append adds one entry, exactly as posted.
  lemma AppendAdds(b: Books, p: Posting)
    requires AccountOk(b, p.Account()) && Append(b, p).Ok?
    ensures var balance := Cached(b, p.Account()) + p.amount;
      && balance >= 0.0 && Eight.Fits(balance) && Eight.Fits(p.amount)
      && Append(b, p).value
         == Books(b.ledger + [LedgerEntry(p.user, p.asset, p.amount, balance, p.entryType, p.reference)],
                  b.balances[p.Account() := balance])
  {
    hide Column, Derived, LastBalanceAfter, ValidateAsset;
    var balance := Cached(b, p.Account()) + p.amount;
    FitsEight(PlacesOf(p.asset), p.amount);
    FitsSum(Eight, Cached(b, p.Account()), p.amount);
    ColumnKeeps(p.amount);
    ColumnKeeps(balance);
  }

  // When an append succeeds.
  lemma AppendSucceeds(b: Books, p: Posting)
    requires AccountOk(b, p.Account())
    ensures Append(b, p).Ok? <==>
      ValidateAsset(p.asset).None? && PlacesOf(p.asset).Fits(p.amount) && Cached(b, p.Account()) + p.amount >= 0.0
  {
    hide Column, Derived, LastBalanceAfter, ValidateAsset;
    if PlacesOf(p.asset).Fits(p.amount) {
      FitsEight(PlacesOf(p.asset), p.amount);
      FitsSum(Eight, Cached(b, p.Account()), p.amount);
      ColumnKeeps(Cached(b, p.Account()) + p.amount);
    }
  }

  // Two decimals for the three currencies, eight for anything else.
  predicate HasPlaces(asset: string, amount: real) {
    if asset == "EUR" || asset == "USD" || asset == "GBP" then (amount * 100.0).Floor as real == amount * 100.0
    else (amount * 100_000_000.0).Floor as real == amount * 100_000_000.0
  }

  // One to ten letters and digits.
  predicate PlainAsset(asset: string) {
    && 1 <= |asset| <= 10
    && forall i :: 0 <= i < |asset| ==> 'a' <= asset[i] <= 'z' || 'A' <= asset[i] <= 'Z' || '0' <= asset[i] <= '9'
  }

  // What an append says: the asset is checked first, then the precision, then the balance.
  lemma AppendOutcome(b: Books, p: Posting)
    requires AccountOk(b, p.Account())
    ensures var covered := Cached(b, p.Account()) + p.amount >= 0.0;
      && (Append(b, p).Ok? <==> PlainAsset(p.asset) && HasPlaces(p.asset, p.amount) && covered)
      && (Append(b, p) == Err(AssetLength) <==> |p.asset| == 0 || |p.asset| > 10)
      && (Append(b, p) == Err(AssetNotAlphanumeric) <==> 1 <= |p.asset| <= 10 && !PlainAsset(p.asset))
      && (PlainAsset(p.asset) && !HasPlaces(p.asset, p.amount) ==> Append(b, p).Err? && Append(b, p).error.TooManyDecimals?)
      && (PlainAsset(p.asset) && HasPlaces(p.asset, p.amount) && !covered ==>
          Append(b, p) == Err(if p.entryType.Lock? then NegativeAvailable else InsufficientBalance))
  {
    hide Column, Derived, LastBalanceAfter;
    AppendSucceeds(b, p);
    if PlacesOf(p.asset).Fits(p.amount) {
      FitsEight(PlacesOf(p.asset), p.amount);
      FitsSum(Eight, Cached(b, p.Account()), p.amount);
      ColumnKeeps(Cached(b, p.Account()) + p.amount);
    }
  }

  // What rounding to an asset's precision gives: an amount of its places, at most half a unit off.
  lemma RoundsByAsset(asset: string, x: real)
    ensures var r := RoundToPrecision(asset, x);
      HasPlaces(asset, r)
      && Abs(r - x) <= if asset == "EUR" || asset == "USD" || asset == "GBP" then 0.005 else 0.000_000_005
  {
    RoundNear(PlacesOf(asset), x);
    RoundFits(PlacesOf(asset), x);
    hide Places.Round;
  }

  lemma AppendKeepsAccount(b: Books, p: Posting, k: Account)
    requires AccountOk(b, p.Account()) && AccountOk(b, k) && Append(b, p).Ok?
    ensures AccountOk(Append(b, p).value, k)
  {
    AppendAdds(b, p);
    hide Append, Column;
    var balance := Cached(b, p.Account()) + p.amount;
    var e := LedgerEntry(p.user, p.asset, p.amount, balance, p.entryType, p.reference);
    TotalAppend(b.ledger, e, OfAccount(k));
    LastAppend(b.ledger, e, k);
    hide Total, LastBalanceAfter;
  }

  lemma AppendKeepsLedger(b: Books, p: Posting)
    requires LedgerOk(b) && Append(b, p).Ok?
    ensures LedgerOk(Append(b, p).value)
  {
    var b' := Append(b, p).value;
    assert AccountOk(b, p.Account());
    AppendAdds(b, p);
    forall k: Account
      ensures AccountOk(b', k)
    {
      assert AccountOk(b, k);
      AppendKeepsAccount(b, p, k);
    }
    hide Append;
    forall i | 0 <= i < |b'.ledger|
      ensures b'.ledger[i].balanceAfter == Derived(b'.ledger[..i + 1], b'.ledger[i].Account())
    {
      if i < |b.ledger| {
        assert b'.ledger[..i + 1] == b.ledger[..i + 1];
      } else {
        assert b'.ledger[..i + 1] == b'.ledger;
        assert AccountOk(b', p.Account());
      }
    }
  }

  lemma {:induction false} AppendAllKeepsLedger(b: Books, ps: seq<Posting>)
    requires LedgerOk(b) && AppendAll(b, ps).Ok?
    ensures LedgerOk(AppendAll(b, ps).value)
  {
    hide LedgerOk, Append;
    if ps != [] {
      AppendAllKeepsLedger(b, ps[..|ps| - 1]);
      AppendKeepsLedger(AppendAll(b, ps[..|ps| - 1]).value, ps[|ps| - 1]);
    }
  }

  lemma AppendTotals(b: Books, p: Posting, f: Filter)
    requires LedgerOk(b) && Append(b, p).Ok?
    ensures Total(Append(b, p).value.ledger, f) == Total(b.ledger, f) + f.Of(p)
  {
    assert AccountOk(b, p.Account());
    AppendAdds(b, p);
    hide Append, Total;
    TotalAppend(b.ledger, Append(b, p).value.ledger[|b.ledger|], f);
  }

  // The appends of a transaction move every sum by what was posted.
  lemma {:induction false} AppendAllTotals(b: Books, ps: seq<Posting>, f: Filter)
    requires LedgerOk(b) && AppendAll(b, ps).Ok?
    ensures Total(AppendAll(b, ps).value.ledger, f) == Total(b.ledger, f) + TotalOf(ps, f)
  {
    hide LedgerOk, Append, Total;
    if ps != [] {
      var before := AppendAll(b, ps[..|ps| - 1]).value;
      AppendAllTotals(b, ps[..|ps| - 1], f);
      AppendAllKeepsLedger(b, ps[..|ps| - 1]);
      AppendTotals(before, ps[|ps| - 1], f);
    }
  }

  // They move each balance by what was posted to its account.
  lemma AppendAllMoves(b: Books, ps: seq<Posting>, k: Account)
    requires LedgerOk(b) && AppendAll(b, ps).Ok?
    ensures Cached(AppendAll(b, ps).value, k) == Cached(b, k) + TotalOf(ps, OfAccount(k))
  {
    hide AppendAll, Total, TotalOf, Cached;
    assert AccountOk(b, k);
    AppendAllTotals(b, ps, OfAccount(k));
    AppendAllKeepsLedger(b, ps);
    assert AccountOk(AppendAll(b, ps).value, k);
  }

  // A transaction takes only valid assets, and amounts in their places.
  lemma {:induction false} AppendAllTakes(b: Books, ps: seq<Posting>, i: nat)
    requires AppendAll(b, ps).Ok? && i < |ps|
    ensures ValidateAsset(ps[i].asset).None? && PlacesOf(ps[i].asset).Fits(ps[i].amount)
  {
    hide Column, Places.Fits, PlacesOf, ValidateAsset;
    if i < |ps| - 1 {
      AppendAllTakes(b, ps[..|ps| - 1], i);
    }
  }

  lemma {:induction false} AppendAllConcat(b: Books, ps: seq<Posting>, qs: seq<Posting>)
    ensures AppendAll(b, ps + qs) ==
      match AppendAll(b, ps)
      case Err(e) => Err(e)
      case Ok(books) => AppendAll(books, qs)
  {
    hide Append;
    if qs == [] {
      assert ps + qs == ps;
    } else {
      assert (ps + qs)[..|ps + qs| - 1] == ps + qs[..|qs| - 1];
      AppendAllConcat(b, ps, qs[..|qs| - 1]);
    }
  }

  // A transaction adds one entry for each posting, behind those that were there.
  lemma {:induction false} AppendAllExtends(b: Books, ps: seq<Posting>)
    requires AppendAll(b, ps).Ok?
    ensures b.ledger <= AppendAll(b, ps).value.ledger
    ensures |AppendAll(b, ps).value.ledger| == |b.ledger| + |ps|
  {
    hide Column, ValidateAsset, ValidatePrecision;
    if ps != [] {
      AppendAllExtends(b, ps[..|ps| - 1]);
    }
  }
}
