// Rows of a book as they are published: a price and the quantity at it.
module PriceRows {
  import opened Orders

  type Row = (Price, Quantity)

  type Quantities = map<Price, Quantity>

  // Each row is served strictly before the rows after it.
  ghost predicate Sorted(side: Side, rows: seq<Row>) {
    forall i, j :: 0 <= i < j < |rows| ==> Better(side, rows[i].0, rows[j].0)
  }

  // Collecting rows into a map: a later row for a price replaces an earlier one.
  function MapOf(rows: seq<Row>): Quantities {
    if rows == [] then map[]
    else
      var n := |rows| - 1;
      MapOf(rows[..n])[rows[n].0 := rows[n].1]
  }

  // `m` holds exactly these rows.
  ghost predicate Holds(m: Quantities, rows: seq<Row>) {
    && (forall i :: 0 <= i < |rows| ==> rows[i].0 in m && m[rows[i].0] == rows[i].1)
    && (forall p :: p in m ==> exists i :: 0 <= i < |rows| && rows[i].0 == p)
  }

  ghost predicate Positive(m: Quantities) {
    forall p :: p in m ==> m[p] > 0
  }

  lemma {:induction false} MapOfHolds(side: Side, rows: seq<Row>)
    requires Sorted(side, rows)
    ensures Holds(MapOf(rows), rows)
  {
    if rows != [] {
      var n := |rows| - 1;
      var earlier := rows[..n];
      MapOfHolds(side, earlier);
      var m := MapOf(rows);
      forall i | 0 <= i < |rows|
        ensures rows[i].0 in m && m[rows[i].0] == rows[i].1
      {
        if i < n {
          assert earlier[i] == rows[i];
          assert Better(side, rows[i].0, rows[n].0);
        }
      }
      forall p | p in m
        ensures exists i :: 0 <= i < |rows| && rows[i].0 == p
      {
        if p == rows[n].0 {
          assert rows[n].0 == p;
        } else {
          var i :| 0 <= i < n && earlier[i].0 == p;
          assert rows[i].0 == p;
        }
      }
    }
  }

  // Two maps that hold the same rows are the same map.
  lemma HoldsOnce(a: Quantities, b: Quantities, rows: seq<Row>)
    requires Holds(a, rows) && Holds(b, rows)
    ensures a == b
  {
    forall p
      ensures p in a <==> p in b
      ensures p in a ==> a[p] == b[p]
    {
      if p in a {
        var i :| 0 <= i < |rows| && rows[i].0 == p;
        assert rows[i].0 in b && a[rows[i].0] == b[rows[i].0];
      }
      if p in b {
        var i :| 0 <= i < |rows| && rows[i].0 == p;
        assert rows[i].0 in a;
      }
    }
  }

  // The last row of a sorted list is served after every other price the map holds.
  lemma LastRow(side: Side, m: Quantities, a: seq<Row>, b: seq<Row>)
    requires Sorted(side, a) && Sorted(side, b) && Holds(m, a) && Holds(m, b)
    requires a != []
    ensures b != [] && a[|a| - 1] == b[|b| - 1]
  {
    var p := a[|a| - 1].0;
    assert p in m;
    var j :| 0 <= j < |b| && b[j].0 == p;
    var q := b[|b| - 1].0;
    assert q in m;
    var i :| 0 <= i < |a| && a[i].0 == q;
  }

  lemma HoldsButLast(side: Side, m: Quantities, rows: seq<Row>)
    requires Sorted(side, rows) && Holds(m, rows) && rows != []
    ensures Holds(m - {rows[|rows| - 1].0}, rows[..|rows| - 1])
  {
    var n := |rows| - 1;
    var m', earlier := m - {rows[n].0}, rows[..n];
    forall p | p in m'
      ensures exists i :: 0 <= i < |earlier| && earlier[i].0 == p
    {
      var i :| 0 <= i < |rows| && rows[i].0 == p;
      assert earlier[i].0 == p;
    }
    forall i | 0 <= i < |earlier|
      ensures earlier[i].0 in m' && m'[earlier[i].0] == earlier[i].1
    {
      assert earlier[i] == rows[i];
      assert Better(side, rows[i].0, rows[n].0);
    }
  }

  // A map has one sorted list of rows.
  lemma {:induction false} SortedOnce(side: Side, m: Quantities, a: seq<Row>, b: seq<Row>)
    requires Sorted(side, a) && Sorted(side, b) && Holds(m, a) && Holds(m, b)
    ensures a == b
    decreases |a|
  {
    if a == [] {
      if b != [] {
        LastRow(side, m, b, a);
      }
    } else {
      LastRow(side, m, a, b);
      HoldsButLast(side, m, a);
      HoldsButLast(side, m, b);
      var a', b' := a[..|a| - 1], b[..|b| - 1];
      SortedOnce(side, m - {a[|a| - 1].0}, a', b');
      assert a == a' + [a[|a| - 1]] && b == b' + [b[|b| - 1]];
    }
  }
}
