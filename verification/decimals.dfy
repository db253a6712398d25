// Rounding of decimal amounts. Values are exact; a scale of 100 means two decimal places.
module Decimals {
  // To the nearest integer, ties to the even one: round_dp.
  function HalfEven(x: real): int {
    var f := x.Floor;
    var d := x - f as real;
    if d < 0.5 then f
    else if d > 0.5 then f + 1
    else if f % 2 == 0 then f
    else f + 1
  }

  // To the nearest integer, ties away from zero: what a NUMERIC column does.
  function HalfAway(x: real): int {
    if x >= 0.0 then (x + 0.5).Floor else -((0.5 - x).Floor)
  }

  function Abs(x: real): real {
    if x < 0.0 then -x else x
  }

  // The nearest integer, and the even one of two that are equally near.
  lemma HalfEvenIsNearest(x: real, n: int)
    ensures Abs(x - HalfEven(x) as real) <= Abs(x - n as real)
    ensures n != HalfEven(x) && Abs(x - HalfEven(x) as real) == Abs(x - n as real) ==> HalfEven(x) % 2 == 0 && n % 2 != 0
  {
    var f := x.Floor;
    if n <= f - 1 || n >= f + 2 {
      assert Abs(x - n as real) >= 1.0;
    }
  }

  // How many decimal places an amount may have: two, or eight.
  datatype Places = Two | Eight {
    // An amount in units of the last place, and back.
    function Units(x: real): real {
      if Two? then x * 100.0 else x * 100_000_000.0
    }

    function Amount(units: int): real {
      if Two? then units as real / 100.0 else units as real / 100_000_000.0
    }

    // Half a unit of the last place.
    function HalfUnit(): real {
      if Two? then 0.005 else 0.000_000_005
    }

    predicate Fits(x: real) {
      Units(x).Floor as real == Units(x)
    }

    function Round(x: real): real {
      Amount(HalfEven(Units(x)))
    }
  }

  // What a DECIMAL(20, 8) column keeps.
  function Column(x: real): real {
    Eight.Amount(HalfAway(Eight.Units(x)))
  }

  lemma AmountFits(p: Places, units: int)
    ensures p.Fits(p.Amount(units)) && p.Units(p.Amount(units)) == units as real
  {
  }

  lemma RoundFits(p: Places, x: real)
    ensures p.Fits(p.Round(x))
  {
    AmountFits(p, HalfEven(p.Units(x)));
  }

  lemma RoundNear(p: Places, x: real)
    ensures Abs(p.Round(x) - x) <= p.HalfUnit()
  {
    var y := p.Units(x);
    assert Abs(HalfEven(y) as real - y) <= 0.5;
    hide HalfEven;
  }

  lemma RoundKeeps(p: Places, x: real)
    requires p.Fits(x)
    ensures p.Round(x) == x
  {
    var y := p.Units(x);
    assert HalfEven(y) as real == y;
    hide HalfEven;
  }

  lemma RoundSign(p: Places, x: real)
    ensures x >= 0.0 ==> p.Round(x) >= 0.0
    ensures p.Round(0.0) == 0.0
  {
    var y := p.Units(x);
    assert y >= 0.0 ==> HalfEven(y) >= 0;
    assert HalfEven(0.0) == 0;
    hide HalfEven;
  }

  lemma FitsEight(p: Places, x: real)
    requires p.Fits(x)
    ensures Eight.Fits(x)
  {
    if p.Two? {
      var n := p.Units(x).Floor;
      assert Eight.Units(x) == (n * 1_000_000) as real;
    }
  }

  lemma ColumnKeeps(x: real)
    requires Eight.Fits(x)
    ensures Column(x) == x
  {
    var y := Eight.Units(x);
    var n := y.Floor;
    assert y == n as real;
    assert HalfAway(y) == n;
  }

  lemma Whole(n: int, x: real)
    requires x == n as real
    ensures x.Floor as real == x
  {
  }

  lemma WholeSum(x: real, y: real)
    requires x.Floor as real == x && y.Floor as real == y
    ensures (x + y).Floor as real == x + y && (x - y).Floor as real == x - y && (-y).Floor as real == -y
  {
    var m, n := x.Floor, y.Floor;
    Whole(m + n, m as real + n as real);
    Whole(m - n, m as real - n as real);
    Whole(-n, -(n as real));
  }

  lemma FitsSum(p: Places, x: real, y: real)
    requires p.Fits(x) && p.Fits(y)
    ensures p.Fits(x + y) && p.Fits(x - y) && p.Fits(-y)
  {
    WholeSum(p.Units(x), p.Units(y));
    assert p.Units(x + y) == p.Units(x) + p.Units(y);
    assert p.Units(x - y) == p.Units(x) - p.Units(y);
    assert p.Units(-y) == -p.Units(y);
  }

  lemma ZeroFits(p: Places)
    ensures p.Fits(0.0)
  {
  }
}
