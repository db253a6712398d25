// One side of the matching engine's book: a price-keyed map of FIFO levels, read best
// price first, and how it flattens to a list in price-time priority.
module PriceLevels {
  import opened Common
  import opened Orders
  import opened FlatBook

  datatype PriceLevel = PriceLevel(price: Price, orders: seq<Order>, totalQuantity: Quantity) {
    // add_order: the newcomer joins the back of the queue.
    function AddOrder(o: Order): PriceLevel {
      PriceLevel(price, orders + [o], totalQuantity + o.remaining)
    }
  }

  function NewLevel(price: Price): PriceLevel {
    PriceLevel(price, [], 0)
  }

  type Levels = map<Price, PriceLevel>

  // ---------- sorted keys ----------

  lemma {:induction false} BestExists(side: Side, keys: set<Price>)
    requires keys != {}
    ensures exists p :: IsBest(side, keys, p)
  {
    var p := SomeElement(keys);
    if keys == {p} {
      assert IsBest(side, keys, p);
    } else {
      BestExists(side, keys - {p});
      var r :| IsBest(side, keys - {p}, r);
      BestOfBoth(side, keys, p, r);
    }
  }

  predicate IsBest(side: Side, keys: set<Price>, p: Price) {
    p in keys && forall q :: q in keys && q != p ==> Better(side, p, q)
  }

  lemma BestOfBoth(side: Side, keys: set<Price>, p: Price, r: Price)
    requires p in keys && IsBest(side, keys - {p}, r)
    ensures IsBest(side, keys, if Better(side, p, r) then p else r)
  {
    var best := if Better(side, p, r) then p else r;
    forall q | q in keys && q != best
      ensures Better(side, best, q)
    {
      assert q == p || q == r || (q in keys - {p} && Better(side, r, q));
    }
  }

  function Best(side: Side, keys: set<Price>): (p: Price)
    requires keys != {}
    ensures p in keys && forall q :: q in keys && q != p ==> Better(side, p, q)
  {
    BestExists(side, keys);
    var p :| p in keys && IsBest(side, keys, p);
    p
  }

  // The keys of a BTreeMap, iterated from the best price on.
  function BestFirst(side: Side, keys: set<Price>): seq<Price> {
    if keys == {} then []
    else
      var p := Best(side, keys);
      [p] + BestFirst(side, keys - {p})
  }

  predicate StrictlyOrdered(side: Side, ks: seq<Price>) {
    forall i, j :: 0 <= i < j < |ks| ==> Better(side, ks[i], ks[j])
  }

  ghost predicate KeyList(side: Side, ks: seq<Price>, keys: set<Price>) {
    StrictlyOrdered(side, ks) && forall p :: p in ks <==> p in keys
  }

  lemma {:induction false} BestFirstIsKeyList(side: Side, keys: set<Price>)
    ensures KeyList(side, BestFirst(side, keys), keys)
  {
    if keys != {} {
      var p := Best(side, keys);
      BestFirstIsKeyList(side, keys - {p});
      var tail := BestFirst(side, keys - {p});
      assert forall i :: 0 <= i < |tail| ==> tail[i] in tail;
      assert forall q :: q in [p] + tail <==> q == p || q in tail;
    }
  }

  // A strictly ordered list of keys is determined by its set.
  lemma {:induction false} KeyListIsBestFirst(side: Side, ks: seq<Price>, keys: set<Price>)
    requires KeyList(side, ks, keys)
    ensures ks == BestFirst(side, keys)
    decreases |ks|
  {
    if ks == [] {
      assert forall p :: p in keys ==> p in ks;
    } else {
      assert ks[0] in ks;
      var best := Best(side, keys);
      assert best in ks;
      assert best == ks[0];
      assert ks == [best] + ks[1..];
      assert forall p :: p in ks[1..] <==> p in keys - {best};
      KeyListIsBestFirst(side, ks[1..], keys - {best});
    }
  }

  // ---------- levels as a list ----------

  function Flatten(levels: Levels, ks: seq<Price>): seq<Order> {
    if ks == [] then []
    else (if ks[0] in levels then levels[ks[0]].orders else []) + Flatten(levels, ks[1..])
  }

  function Flat(side: Side, levels: Levels): seq<Order> {
    Flatten(levels, BestFirst(side, levels.Keys))
  }

  ghost predicate QueueOk(side: Side, price: Price, queue: seq<Order>) {
    forall i :: 0 <= i < |queue| ==> Resting(side, queue[i]) && queue[i].RestPrice() == price
  }

  ghost predicate LevelOk(side: Side, price: Price, level: PriceLevel) {
    && level.price == price
    && level.orders != []
    && QueueOk(side, price, level.orders)
    && level.totalQuantity == TotalRemaining(level.orders)
  }

  ghost predicate LevelsOk(side: Side, levels: Levels) {
    forall p :: p in levels ==> LevelOk(side, p, levels[p])
  }

  lemma {:induction false} TotalRemainingAppend(p: seq<Order>, q: seq<Order>)
    ensures TotalRemaining(p + q) == TotalRemaining(p) + TotalRemaining(q)
  {
    if p == [] {
      assert p + q == q;
    } else {
      assert (p + q)[1..] == p[1..] + q;
      TotalRemainingAppend(p[1..], q);
    }
  }

  lemma {:induction false} FlattenAgrees(a: Levels, b: Levels, ks: seq<Price>)
    requires forall p :: p in ks ==> (p in a <==> p in b) && (p in a ==> a[p].orders == b[p].orders)
    ensures Flatten(a, ks) == Flatten(b, ks)
  {
    if ks != [] {
      var p := ks[0];
      assert p in ks;
      assert forall p :: p in ks[1..] ==> p in ks;
      FlattenAgrees(a, b, ks[1..]);
    }
  }

  lemma {:induction false} FlattenAppend(levels: Levels, a: seq<Price>, b: seq<Price>)
    ensures Flatten(levels, a + b) == Flatten(levels, a) + Flatten(levels, b)
  {
    if a == [] {
      assert a + b == b;
    } else {
      assert (a + b)[1..] == a[1..] + b;
      FlattenAppend(levels, a[1..], b);
    }
  }

  lemma {:induction false} FlattenSplit(levels: Levels, ks: seq<Price>, k: nat)
    requires k < |ks| && ks[k] in levels
    ensures Flatten(levels, ks) == Flatten(levels, ks[..k]) + levels[ks[k]].orders + Flatten(levels, ks[k + 1..])
  {
    assert ks == ks[..k] + ks[k..];
    FlattenAppend(levels, ks[..k], ks[k..]);
    assert ks[k..][1..] == ks[k + 1..];
  }

  lemma {:induction false} FlatByKeys(side: Side, levels: Levels, ks: seq<Price>)
    requires KeyList(side, ks, levels.Keys)
    ensures Flat(side, levels) == Flatten(levels, ks)
  {
    KeyListIsBestFirst(side, ks, levels.Keys);
  }

  // Every order of the flattened list carries one of the keys as its price.
  lemma {:induction false} FlattenPrices(side: Side, levels: Levels, ks: seq<Price>)
    requires LevelsOk(side, levels)
    ensures forall i :: 0 <= i < |Flatten(levels, ks)| ==>
      Flatten(levels, ks)[i].RestPrice() in ks && Resting(side, Flatten(levels, ks)[i])
  {
    if ks != [] {
      FlattenPrices(side, levels, ks[1..]);
      var head: seq<Order> := if ks[0] in levels then levels[ks[0]].orders else [];
      var tail := Flatten(levels, ks[1..]);
      forall i | 0 <= i < |head + tail|
        ensures (head + tail)[i].RestPrice() in ks && Resting(side, (head + tail)[i])
      {
        if i < |head| {
          assert LevelOk(side, ks[0], levels[ks[0]]);
          assert ks[0] in ks;
        } else {
          assert tail[i - |head|].RestPrice() in ks[1..];
        }
      }
    }
  }

  // ---------- resting a new order ----------

  function AddToLevels(levels: Levels, p: Price, o: Order): Levels {
    levels[p := (if p in levels then levels[p] else NewLevel(p)).AddOrder(o)]
  }

  lemma {:induction false} EnqueueBetween(side: Side, a: seq<Order>, b: seq<Order>, o: Order)
    requires forall i :: 0 <= i < |a| ==> !Better(side, o.RestPrice(), a[i].RestPrice())
    requires forall i :: 0 <= i < |b| ==> Better(side, o.RestPrice(), b[i].RestPrice())
    ensures Enqueue(side, a + b, o) == a + [o] + b
  {
    if a == [] {
      assert a + b == b;
      assert a + [o] + b == [o] + b;
    } else {
      assert (a + b)[1..] == a[1..] + b;
      EnqueueBetween(side, a[1..], b, o);
      assert a + [o] + b == [a[0]] + (a[1..] + [o] + b);
    }
  }

  // Where a new price belongs among the keys.
  lemma {:induction false} KeyGap(side: Side, ks: seq<Price>, p: Price) returns (k: nat)
    requires StrictlyOrdered(side, ks) && p !in ks
    ensures k <= |ks|
    ensures forall i :: 0 <= i < k ==> Better(side, ks[i], p)
    ensures forall i :: k <= i < |ks| ==> Better(side, p, ks[i])
  {
    if ks == [] || Better(side, p, ks[0]) {
      k := 0;
    } else {
      assert ks[0] in ks;
      var n := KeyGap(side, ks[1..], p);
      k := n + 1;
      forall i | 0 <= i < |ks|
        ensures i < k ==> Better(side, ks[i], p)
        ensures k <= i ==> Better(side, p, ks[i])
      {
        if i > 0 {
          assert ks[i] == ks[1..][i - 1];
        }
      }
    }
  }

  lemma {:induction false} GapIsOrdered(side: Side, ks: seq<Price>, p: Price, k: nat)
    requires StrictlyOrdered(side, ks) && k <= |ks|
    requires forall i :: 0 <= i < k ==> Better(side, ks[i], p)
    requires forall i :: k <= i < |ks| ==> Better(side, p, ks[i])
    ensures StrictlyOrdered(side, ks[..k] + [p] + ks[k..])
  {
    var ks' := ks[..k] + [p] + ks[k..];
    forall i, j | 0 <= i < j < |ks'|
      ensures Better(side, ks'[i], ks'[j])
    {
      var i' := if i < k then i else i - 1;
      var j' := if j < k then j else j - 1;
      if i != k && j != k {
        assert Better(side, ks[i'], ks[j']);
      }
    }
  }

  lemma {:induction false} KeysWithGap(side: Side, ks: seq<Price>, keys: set<Price>, p: Price) returns (k: nat)
    requires KeyList(side, ks, keys) && p !in keys
    ensures k <= |ks|
    ensures forall i :: 0 <= i < k ==> Better(side, ks[i], p)
    ensures forall i :: k <= i < |ks| ==> Better(side, p, ks[i])
    ensures KeyList(side, ks[..k] + [p] + ks[k..], keys + {p})
  {
    k := KeyGap(side, ks, p);
    GapIsOrdered(side, ks, p, k);
    assert ks == ks[..k] + ks[k..];
    assert forall q :: q in ks <==> q in ks[..k] || q in ks[k..];
  }

  lemma {:induction false} KeysWithout(side: Side, ks: seq<Price>, keys: set<Price>, k: nat)
    requires KeyList(side, ks, keys) && k < |ks|
    ensures KeyList(side, ks[..k] + ks[k + 1..], keys - {ks[k]})
  {
    var ks' := ks[..k] + ks[k + 1..];
    forall i, j | 0 <= i < j < |ks'|
      ensures Better(side, ks'[i], ks'[j])
    {
      var i' := if i < k then i else i + 1;
      var j' := if j < k then j else j + 1;
      assert Better(side, ks[i'], ks[j']);
    }
    KeyAppearsOnce(side, ks, k);
    assert ks == ks[..k] + [ks[k]] + ks[k + 1..];
    assert forall q :: q in ks <==> q in ks[..k] || q == ks[k] || q in ks[k + 1..];
  }

  lemma {:induction false} KeyAppearsOnce(side: Side, ks: seq<Price>, k: nat)
    requires StrictlyOrdered(side, ks) && k < |ks|
    ensures ks[k] !in ks[..k] && ks[k] !in ks[k + 1..]
    ensures forall p :: p in ks[..k] ==> Better(side, p, ks[k])
    ensures forall p :: p in ks[k + 1..] ==> Better(side, ks[k], p)
  {
    assert forall i :: 0 <= i < k ==> Better(side, ks[i], ks[k]);
    assert forall i :: k < i < |ks| ==> Better(side, ks[k], ks[i]);
  }

  // Levels away from the `k`-th key flatten to the same lists.
  lemma {:induction false} NeighboursAgree(side: Side, a: Levels, b: Levels, ks: seq<Price>, k: nat)
    requires StrictlyOrdered(side, ks) && k < |ks|
    requires forall p :: p in ks && p != ks[k] ==> p in a && p in b && a[p] == b[p]
    ensures Flatten(a, ks[..k]) == Flatten(b, ks[..k])
    ensures Flatten(a, ks[k + 1..]) == Flatten(b, ks[k + 1..])
  {
    KeyAppearsOnce(side, ks, k);
    FlattenAgrees(a, b, ks[..k]);
    FlattenAgrees(a, b, ks[k + 1..]);
  }

  lemma {:induction false} AddKeepsLevels(side: Side, levels: Levels, o: Order)
    requires LevelsOk(side, levels) && Resting(side, o)
    ensures LevelsOk(side, AddToLevels(levels, o.RestPrice(), o))
  {
    var p := o.RestPrice();
    TotalRemainingAppend(if p in levels then levels[p].orders else [], [o]);
    assert TotalRemaining([o]) == o.remaining + TotalRemaining([]);
    if p in levels {
      assert LevelOk(side, p, levels[p]);
    }
    assert LevelOk(side, p, AddToLevels(levels, p, o)[p]);
  }

  // Orders priced `before` come first, then a queue at the newcomer's own price, then `after`.
  lemma {:induction false} EnqueueAmongKeys(side: Side, levels: Levels, o: Order,
                                            before: seq<Price>, queue: seq<Order>, after: seq<Price>)
    requires LevelsOk(side, levels)
    requires forall p :: p in before ==> Better(side, p, o.RestPrice())
    requires forall p :: p in after ==> Better(side, o.RestPrice(), p)
    requires forall i :: 0 <= i < |queue| ==> queue[i].RestPrice() == o.RestPrice()
    ensures Enqueue(side, Flatten(levels, before) + queue + Flatten(levels, after), o)
      == Flatten(levels, before) + queue + [o] + Flatten(levels, after)
  {
    FlattenPrices(side, levels, before);
    FlattenPrices(side, levels, after);
    var a := Flatten(levels, before) + queue;
    forall i | 0 <= i < |a|
      ensures !Better(side, o.RestPrice(), a[i].RestPrice())
    {
      if i < |Flatten(levels, before)| {
        assert a[i] == Flatten(levels, before)[i];
      }
    }
    EnqueueBetween(side, a, Flatten(levels, after), o);
  }

  // A newcomer whose price falls between the keys before and from the `k`-th on.
  lemma EnqueueInGap(side: Side, levels: Levels, o: Order, ks: seq<Price>, k: nat)
    requires LevelsOk(side, levels) && k <= |ks|
    requires forall i :: 0 <= i < k ==> Better(side, ks[i], o.RestPrice())
    requires forall i :: k <= i < |ks| ==> Better(side, o.RestPrice(), ks[i])
    ensures Enqueue(side, Flatten(levels, ks), o) == Flatten(levels, ks[..k]) + [o] + Flatten(levels, ks[k..])
  {
    hide Flatten, Enqueue, LevelsOk;
    var a := Flatten(levels, ks[..k]);
    assert ks == ks[..k] + ks[k..];
    FlattenAppend(levels, ks[..k], ks[k..]);
    EnqueueAmongKeys(side, levels, o, ks[..k], [], ks[k..]);
    assert a + [] == a;
  }

  lemma NewLevelIsAlone(levels: Levels, p: Price, o: Order)
    requires p !in levels
    ensures var levels' := AddToLevels(levels, p, o);
      && p in levels' && levels'[p].orders == [o] && levels'.Keys == levels.Keys + {p}
      && forall q :: q in levels ==> levels'[q] == levels[q]
  {
    assert [] + [o] == [o];
  }

  lemma {:induction false} AddToNewLevel(side: Side, levels: Levels, o: Order, ks: seq<Price>)
    requires LevelsOk(side, levels) && Resting(side, o) && o.RestPrice() !in levels
    requires KeyList(side, ks, levels.Keys)
    ensures Flat(side, AddToLevels(levels, o.RestPrice(), o)) == Enqueue(side, Flatten(levels, ks), o)
  {
    hide Flatten, Flat, Enqueue, LevelsOk, AddToLevels;
    var p := o.RestPrice();
    var k := KeysWithGap(side, ks, levels.Keys, p);
    assert p !in ks;
    hide KeyList;
    NewLevelIsAlone(levels, p, o);
    FlatWithGap(side, levels, AddToLevels(levels, p, o), ks, k, p);
    EnqueueInGap(side, levels, o, ks, k);
  }

  lemma {:induction false} FlatWithGap(side: Side, levels: Levels, levels': Levels, ks: seq<Price>, k: nat, p: Price)
    requires k <= |ks| && p !in ks && p in levels' && levels'.Keys == levels.Keys + {p}
    requires KeyList(side, ks, levels.Keys) && KeyList(side, ks[..k] + [p] + ks[k..], levels'.Keys)
    requires forall q :: q in levels ==> levels'[q] == levels[q]
    ensures Flat(side, levels') == Flatten(levels, ks[..k]) + levels'[p].orders + Flatten(levels, ks[k..])
  {
    hide StrictlyOrdered, Flatten, Flat;
    var ks' := ks[..k] + [p] + ks[k..];
    FlatByKeys(side, levels', ks');
    assert ks'[..k] == ks[..k] && ks'[k + 1..] == ks[k..];
    FlattenSplit(levels', ks', k);
    assert forall q :: q in ks[..k] || q in ks[k..] ==> q in ks;
    FlattenAgrees(levels, levels', ks[..k]);
    FlattenAgrees(levels, levels', ks[k..]);
  }

  // ---------- replacing and dropping levels ----------

  // Replacing one level's queue, dropping the level if the queue is empty.
  function WithQueue(levels: Levels, p: Price, level: PriceLevel): Levels {
    if level.orders == [] then levels - {p} else levels[p := level]
  }

  lemma {:induction false} WithQueueFlat(side: Side, levels: Levels, level: PriceLevel, ks: seq<Price>, k: nat)
    requires KeyList(side, ks, levels.Keys) && k < |ks|
    ensures Flat(side, WithQueue(levels, ks[k], level))
      == Flatten(levels, ks[..k]) + level.orders + Flatten(levels, ks[k + 1..])
  {
    var p := ks[k];
    assert p in ks;
    var levels' := WithQueue(levels, p, level);
    NeighboursAgree(side, levels, levels', ks, k);
    if level.orders == [] {
      KeysWithout(side, ks, levels.Keys, k);
      assert levels'.Keys == levels.Keys - {p};
      FlatByKeys(side, levels', ks[..k] + ks[k + 1..]);
      FlattenAppend(levels', ks[..k], ks[k + 1..]);
      assert Flatten(levels, ks[..k]) + [] == Flatten(levels, ks[..k]);
    } else {
      assert levels'.Keys == levels.Keys;
      FlatByKeys(side, levels', ks);
      FlattenSplit(levels', ks, k);
    }
  }

  // ---------- resting an order in its level ----------

  lemma {:induction false} AddToOldLevel(side: Side, levels: Levels, o: Order, ks: seq<Price>)
    requires LevelsOk(side, levels) && Resting(side, o) && o.RestPrice() in levels
    requires KeyList(side, ks, levels.Keys)
    ensures Flat(side, AddToLevels(levels, o.RestPrice(), o)) == Enqueue(side, Flatten(levels, ks), o)
  {
    hide Flatten, Flat, Enqueue;
    var p := o.RestPrice();
    assert p in ks;
    var k :| 0 <= k < |ks| && ks[k] == p;
    var a, q, b := Flatten(levels, ks[..k]), levels[p].orders, Flatten(levels, ks[k + 1..]);
    assert LevelOk(side, p, levels[p]);
    KeyAppearsOnce(side, ks, k);
    WithQueueFlat(side, levels, levels[p].AddOrder(o), ks, k);
    FlattenSplit(levels, ks, k);
    EnqueueAmongKeys(side, levels, o, ks[..k], q, ks[k + 1..]);
    assert a + (q + [o]) + b == a + q + [o] + b;
  }

  // Resting an order in its level is enqueuing it in the flattened list.
  lemma {:induction false} AddIsEnqueue(side: Side, levels: Levels, o: Order)
    requires LevelsOk(side, levels) && Resting(side, o)
    ensures LevelsOk(side, AddToLevels(levels, o.RestPrice(), o))
    ensures Flat(side, AddToLevels(levels, o.RestPrice(), o)) == Enqueue(side, Flat(side, levels), o)
  {
    AddKeepsLevels(side, levels, o);
    var ks := BestFirst(side, levels.Keys);
    BestFirstIsKeyList(side, levels.Keys);
    if o.RestPrice() in levels {
      AddToOldLevel(side, levels, o, ks);
    } else {
      AddToNewLevel(side, levels, o, ks);
    }
  }

  lemma {:induction false} WithoutAppend(p: seq<Order>, q: seq<Order>, id: OrderId)
    ensures Without(p + q, id) == Without(p, id) + Without(q, id)
  {
    if p == [] {
      assert p + q == q;
    } else {
      assert (p + q)[1..] == p[1..] + q;
      WithoutAppend(p[1..], q, id);
    }
  }

  // Taking an order out of its own level is taking it out of the whole flattened list.
  lemma {:induction false} WithoutInOneLevel(levels: Levels, ks: seq<Price>, k: nat, id: OrderId)
    requires k < |ks| && ks[k] in levels && HasId(levels[ks[k]].orders, id)
    requires UniqueIds(Flatten(levels, ks))
    ensures Without(Flatten(levels, ks), id)
      == Flatten(levels, ks[..k]) + Without(levels[ks[k]].orders, id) + Flatten(levels, ks[k + 1..])
  {
    var a, q, b := Flatten(levels, ks[..k]), levels[ks[k]].orders, Flatten(levels, ks[k + 1..]);
    FlattenSplit(levels, ks, k);
    WithoutAppend(a + q, b, id);
    WithoutAppend(a, q, id);
    OnlyInTheMiddle(a, q, b, id);
    WithoutAbsent(a, id);
    WithoutAbsent(b, id);
  }

  lemma {:induction false} OnlyInTheMiddle(a: seq<Order>, q: seq<Order>, b: seq<Order>, id: OrderId)
    requires UniqueIds(a + q + b) && HasId(q, id)
    ensures !HasId(a, id) && !HasId(b, id)
  {
    var all := a + q + b;
    var m :| 0 <= m < |q| && q[m].id == id;
    assert all[|a| + m] == q[m];
    forall i | 0 <= i < |a|
      ensures a[i].id != id
    {
      assert all[i] == a[i];
    }
    forall i | 0 <= i < |b|
      ensures b[i].id != id
    {
      assert all[|a| + |q| + i] == b[i];
    }
  }

  lemma {:induction false} QueueWithout(side: Side, price: Price, q: seq<Order>, id: OrderId)
    requires QueueOk(side, price, q)
    ensures QueueOk(side, price, Without(q, id))
  {
    if q != [] {
      assert forall i :: 0 <= i < |q[1..]| ==> q[1..][i] == q[i + 1];
      QueueWithout(side, price, q[1..], id);
    }
  }

  // ---------- aggregated depth ----------

  function QuantityAt(q: seq<Order>, p: Price): Quantity {
    if q == [] then 0
    else (if q[0].RestPrice() == p then q[0].remaining else 0) + QuantityAt(q[1..], p)
  }

  lemma {:induction false} QuantityAtAppend(a: seq<Order>, b: seq<Order>, p: Price)
    ensures QuantityAt(a + b, p) == QuantityAt(a, p) + QuantityAt(b, p)
  {
    if a == [] {
      assert a + b == b;
    } else {
      assert (a + b)[1..] == a[1..] + b;
      QuantityAtAppend(a[1..], b, p);
    }
  }

  lemma {:induction false} QuantityElsewhere(q: seq<Order>, p: Price)
    requires forall i :: 0 <= i < |q| ==> q[i].RestPrice() != p
    ensures QuantityAt(q, p) == 0
  {
    if q != [] {
      QuantityElsewhere(q[1..], p);
    }
  }

  lemma {:induction false} QuantityOfQueue(q: seq<Order>, p: Price)
    requires forall i :: 0 <= i < |q| ==> q[i].RestPrice() == p
    ensures QuantityAt(q, p) == TotalRemaining(q)
  {
    if q != [] {
      QuantityOfQueue(q[1..], p);
    }
  }

  // The depth of a prioritized list: every price that occurs, once, best first, with the
  // sum of the remainders resting at it.
  lemma {:induction false} DepthIsSummary(side: Side, q: seq<Order>)
    requires Prioritized(side, q)
    ensures forall i, j :: 0 <= i < j < |Depth(q)| ==> Better(side, Depth(q)[i].0, Depth(q)[j].0)
    ensures forall i :: 0 <= i < |Depth(q)| ==> Depth(q)[i].1 == QuantityAt(q, Depth(q)[i].0)
    ensures forall i :: 0 <= i < |q| ==> exists j :: 0 <= j < |Depth(q)| && Depth(q)[j].0 == q[i].RestPrice()
    ensures q != [] ==> Depth(q) != [] && Depth(q)[0].0 == q[0].RestPrice()
    ensures q == [] ==> Depth(q) == []
    ensures |Depth(q)| <= |q|
  {
    if q != [] {
      var p, tail, d := q[0].RestPrice(), q[1..], Depth(q[1..]);
      assert Prioritized(side, tail);
      DepthIsSummary(side, tail);
      hide Better, QuantityAt;
      if tail != [] && tail[0].RestPrice() == p {
        DepthMerges(q);
      } else {
        DepthOpens(side, q);
      }
    }
  }

  lemma {:induction false} DepthMerges(q: seq<Order>)
    requires |q| > 1 && q[1].RestPrice() == q[0].RestPrice()
    requires var d := Depth(q[1..]);
      && d != [] && d[0].0 == q[0].RestPrice()
      && (forall i :: 0 <= i < |d| ==> d[i].1 == QuantityAt(q[1..], d[i].0))
      && (forall i :: 0 < i < |d| ==> d[i].0 != d[0].0)
      && (forall i :: 0 <= i < |q[1..]| ==> exists j :: 0 <= j < |d| && d[j].0 == q[1..][i].RestPrice())
    ensures var d := Depth(q[1..]);
      && Depth(q) == [(d[0].0, q[0].remaining + d[0].1)] + d[1..]
      && (forall i :: 0 <= i < |Depth(q)| ==> Depth(q)[i].1 == QuantityAt(q, Depth(q)[i].0))
      && (forall i :: 0 <= i < |q| ==> exists j :: 0 <= j < |Depth(q)| && Depth(q)[j].0 == q[i].RestPrice())
  {
    var d := Depth(q[1..]);
    forall i | 0 <= i < |q|
      ensures exists j :: 0 <= j < |Depth(q)| && Depth(q)[j].0 == q[i].RestPrice()
    {
      if i == 0 {
        assert Depth(q)[0].0 == q[0].RestPrice();
      } else {
        var j :| 0 <= j < |d| && d[j].0 == q[1..][i - 1].RestPrice();
        assert Depth(q)[j].0 == q[i].RestPrice();
      }
    }
  }

  lemma {:induction false} DepthOpens(side: Side, q: seq<Order>)
    requires q != [] && Prioritized(side, q)
    requires q[1..] != [] ==> q[1].RestPrice() != q[0].RestPrice()
    requires var d := Depth(q[1..]);
      && (q[1..] != [] ==> d != [] && d[0].0 == q[1].RestPrice())
      && (q[1..] == [] ==> d == [])
      && (forall i, j :: 0 <= i < j < |d| ==> Better(side, d[i].0, d[j].0))
      && (forall i :: 0 <= i < |d| ==> d[i].1 == QuantityAt(q[1..], d[i].0))
      && (forall i :: 0 <= i < |q[1..]| ==> exists j :: 0 <= j < |d| && d[j].0 == q[1..][i].RestPrice())
    ensures Depth(q) == [(q[0].RestPrice(), q[0].remaining)] + Depth(q[1..])
    ensures forall i :: 0 <= i < |Depth(q[1..])| ==> Better(side, q[0].RestPrice(), Depth(q[1..])[i].0)
    ensures forall i :: 0 <= i < |Depth(q)| ==> Depth(q)[i].1 == QuantityAt(q, Depth(q)[i].0)
    ensures forall i :: 0 <= i < |q| ==> exists j :: 0 <= j < |Depth(q)| && Depth(q)[j].0 == q[i].RestPrice()
  {
    var p, tail, d := q[0].RestPrice(), q[1..], Depth(q[1..]);
    forall i | 0 <= i < |tail|
      ensures tail[i].RestPrice() != p
    {
      assert !Better(side, q[1].RestPrice(), q[0].RestPrice());
      assert tail[i] == q[i + 1];
      assert i > 0 ==> !Better(side, q[i + 1].RestPrice(), q[1].RestPrice());
    }
    QuantityElsewhere(tail, p);
    if tail != [] {
      assert !Better(side, q[1].RestPrice(), q[0].RestPrice());
    }
    forall i | 0 <= i < |q|
      ensures exists j :: 0 <= j < |Depth(q)| && Depth(q)[j].0 == q[i].RestPrice()
    {
      if i == 0 {
        assert Depth(q)[0].0 == q[0].RestPrice();
      } else {
        var j :| 0 <= j < |d| && d[j].0 == tail[i - 1].RestPrice();
        assert Depth(q)[j + 1].0 == q[i].RestPrice();
      }
    }
  }

  // The cached totals, level by level.
  function LevelTotals(levels: Levels, ks: seq<Price>): seq<(Price, Quantity)> {
    if ks == [] then []
    else if ks[0] in levels then [(ks[0], levels[ks[0]].totalQuantity)] + LevelTotals(levels, ks[1..])
    else LevelTotals(levels, ks[1..])
  }

  // Reading the cached totals off the levels is aggregating the plain list.
  lemma {:induction false} LevelTotalsAreDepth(side: Side, levels: Levels, ks: seq<Price>)
    requires LevelsOk(side, levels) && StrictlyOrdered(side, ks)
    requires forall p :: p in ks ==> p in levels
    ensures LevelTotals(levels, ks) == Depth(Flatten(levels, ks))
  {
    if ks != [] {
      var tail := Flatten(levels, ks[1..]);
      assert ks[0] in ks;
      assert forall p :: p in ks[1..] ==> p in ks;
      LevelTotalsAreDepth(side, levels, ks[1..]);
      FlattenPrices(side, levels, ks[1..]);
      KeyAppearsOnce(side, ks, 0);
      assert LevelOk(side, ks[0], levels[ks[0]]);
      if tail != [] {
        assert tail[0].RestPrice() in ks[1..];
      }
      DepthOfQueue(ks[0], levels[ks[0]].orders, tail);
    }
  }

  lemma {:induction false} DepthOfQueue(p: Price, queue: seq<Order>, tail: seq<Order>)
    requires queue != [] && forall i :: 0 <= i < |queue| ==> queue[i].RestPrice() == p
    requires tail != [] ==> tail[0].RestPrice() != p
    ensures Depth(queue + tail) == [(p, TotalRemaining(queue))] + Depth(tail)
  {
    var all := queue + tail;
    assert all[1..] == queue[1..] + tail;
    if |queue| == 1 {
      assert all[1..] == tail;
      if tail != [] {
        DepthHead(tail);
      }
      assert TotalRemaining(queue) == queue[0].remaining + TotalRemaining([]);
    } else {
      DepthOfQueue(p, queue[1..], tail);
    }
  }

  lemma {:induction false} DepthHead(q: seq<Order>)
    requires q != []
    ensures Depth(q) != [] && Depth(q)[0].0 == q[0].RestPrice()
  {
  }

  // A resting order sits in the level of its own price.
  lemma {:induction false} OrderIsInItsLevel(side: Side, levels: Levels, ks: seq<Price>, o: Order)
    requires LevelsOk(side, levels) && o in Flatten(levels, ks)
    ensures o.RestPrice() in ks && o.RestPrice() in levels && o in levels[o.RestPrice()].orders
  {
    if ks[0] in levels && o in levels[ks[0]].orders {
      assert LevelOk(side, ks[0], levels[ks[0]]);
      var i :| 0 <= i < |levels[ks[0]].orders| && levels[ks[0]].orders[i] == o;
      assert ks[0] in ks;
    } else {
      OrderIsInItsLevel(side, levels, ks[1..], o);
    }
  }

  // An order found by its id in a queue with unique ids is the one `Without` drops.
  lemma {:induction false} RemainingWithout(q: seq<Order>, o: Order)
    requires o in q && UniqueIds(q)
    ensures TotalRemaining(Without(q, o.id)) == TotalRemaining(q) - o.remaining
    ensures HasId(q, o.id)
  {
    var k :| 0 <= k < |q| && q[k] == o;
    WithoutIsRemoval(q, k);
    assert q == q[..k] + ([o] + q[k + 1..]);
    TotalRemainingAppend(q[..k], [o] + q[k + 1..]);
    TotalRemainingAppend(q[..k], q[k + 1..]);
    assert ([o] + q[k + 1..])[1..] == q[k + 1..];
  }

  lemma {:induction false} QueueHasUniqueIds(levels: Levels, ks: seq<Price>, k: nat)
    requires k < |ks| && ks[k] in levels && UniqueIds(Flatten(levels, ks))
    ensures UniqueIds(levels[ks[k]].orders)
  {
    FlattenSplit(levels, ks, k);
    var a, q := Flatten(levels, ks[..k]), levels[ks[k]].orders;
    var all := Flatten(levels, ks);
    forall i, j | 0 <= i < j < |q|
      ensures q[i].id != q[j].id
    {
      assert all[|a| + i] == q[i] && all[|a| + j] == q[j];
    }
  }

  // Dropping an order from its level, and the level if that empties it.
  lemma {:induction false} RemoveFromLevel(side: Side, levels: Levels, o: Order, level: PriceLevel)
    requires LevelsOk(side, levels) && UniqueIds(Flat(side, levels))
    requires o in Flat(side, levels)
    requires o.RestPrice() in levels
    requires level == PriceLevel(o.RestPrice(), Without(levels[o.RestPrice()].orders, o.id),
                                 levels[o.RestPrice()].totalQuantity - o.remaining)
    ensures LevelsOk(side, WithQueue(levels, o.RestPrice(), level))
    ensures Flat(side, WithQueue(levels, o.RestPrice(), level)) == Without(Flat(side, levels), o.id)
  {
    var p := o.RestPrice();
    var ks := BestFirst(side, levels.Keys);
    BestFirstIsKeyList(side, levels.Keys);
    hide BestFirst;
    OrderIsInItsLevel(side, levels, ks, o);
    var k :| 0 <= k < |ks| && ks[k] == p;
    QueueHasUniqueIds(levels, ks, k);
    var q := levels[p].orders;
    RemainingWithout(q, o);
    assert LevelOk(side, p, levels[p]);
    QueueWithout(side, p, q, o.id);
    WithQueueFlat(side, levels, level, ks, k);
    WithoutInOneLevel(levels, ks, k, o.id);
  }

  lemma {:induction false} FlattenContains(levels: Levels, ks: seq<Price>, p: Price, i: nat)
    requires p in ks && p in levels && i < |levels[p].orders|
    ensures levels[p].orders[i] in Flatten(levels, ks)
  {
    if ks[0] != p {
      assert ks == [ks[0]] + ks[1..];
      FlattenContains(levels, ks[1..], p, i);
    }
  }
}
