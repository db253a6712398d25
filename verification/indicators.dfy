// Trading indicators over exact arithmetic: Newton's square root and the z-score it feeds.
module Indicators {
  import opened Common

  const ITERATIONS := 20
  const TOLERANCE := 0.0000001

  function Sum(prices: seq<real>): real {
    if prices == [] then 0.0 else Sum(prices[..|prices| - 1]) + prices[|prices| - 1]
  }

  // Simple moving average.
  function Sma(prices: seq<real>): Option<real> {
    if prices == [] then None else Some(Sum(prices) / |prices| as real)
  }

  function SquaredDeviations(prices: seq<real>, mean: real): real {
    if prices == [] then 0.0
    else SquaredDeviations(prices[..|prices| - 1], mean) + Square(prices[|prices| - 1] - mean)
  }

  function Square(x: real): real {
    x * x
  }

  // Population variance.
  function Variance(prices: seq<real>, mean: real): real
    requires prices != []
  {
    SquaredDeviations(prices, mean) / |prices| as real
  }

  // One Newton step.
  function Improved(guess: real, value: real): real
    requires guess != 0.0
  {
    (guess + value / guess) / 2.0
  }

  // A Newton step from a positive guess lands at or above the root, off by exactly the square
  // of the step.
  lemma NewtonStep(guess: real, value: real)
    requires guess > 0.0 && value > 0.0
    ensures var next := Improved(guess, value);
      next > 0.0 && Square(next) - value == Square(next - guess) >= 0.0
  {
    var q := value / guess;
    var next := Improved(guess, value);
    assert q * guess == value;
    Positive(value, guess);
    assert next - guess == (q - guess) / 2.0;
    SumAndDifference(guess, q);
  }

  lemma Positive(value: real, guess: real)
    requires guess > 0.0 && value > 0.0
    ensures value / guess > 0.0
  {
  }

  lemma SumAndDifference(x: real, y: real)
    ensures Square((x + y) / 2.0) - x * y == Square((y - x) / 2.0) >= 0.0
  {
  }

  function Distance(x: real, y: real): real {
    if x >= y then x - y else y - x
  }

  // At most `steps` Newton steps, stopping after one shorter than the tolerance.
  function Newton(guess: real, value: real, steps: nat): (r: real)
    requires guess > 0.0 && value > 0.0
    ensures r > 0.0
    decreases steps
  {
    NewtonStep(guess, value);
    var next := Improved(guess, value);
    if steps == 0 then guess
    else if Distance(next, guess) < TOLERANCE then next
    else Newton(next, value, steps - 1)
  }

  function Sqrt(value: real): Option<real> {
    if value < 0.0 then None
    else if value == 0.0 then Some(0.0)
    else Some(Newton(value / 2.0, value, ITERATIONS))
  }

  // One of the next `steps` Newton steps is shorter than the tolerance.
  predicate StepsShort(guess: real, value: real, steps: nat)
    requires guess > 0.0 && value > 0.0
    decreases steps
  {
    NewtonStep(guess, value);
    var next := Improved(guess, value);
    steps > 0 && (Distance(next, guess) < TOLERANCE || StepsShort(next, value, steps - 1))
  }

  // sqrt_decimal. No guess is ever zero. The result never falls below the root. The loop stops
  // early exactly when one of its steps is short, and then the square of the result is within
  // 1e-14 of the value.
  method SqrtDecimal(value: real) returns (r: Option<real>, early: bool)
    ensures r == Sqrt(value)
    ensures value > 0.0 ==> r.value > 0.0 && Square(r.value) >= value
    ensures early <==> value > 0.0 && StepsShort(value / 2.0, value, ITERATIONS)
    ensures value > 0.0 && early ==> Square(r.value) - value < 0.000_000_000_000_01
    // Early or not: the error is small, or a 4^19-th of what it was after one step.
    ensures value > 0.0 ==>
      Square(r.value) - value < 0.000_000_000_000_01
      || Square(r.value) - value <= Square(value / 4.0 - 1.0) / 274_877_906_944.0
  {
    if value > 0.0 {
      SqrtIsNear(value);
    }
    early := false;
    if value < 0.0 {
      return None, false;
    }
    if value == 0.0 {
      return Some(0.0), false;
    }
    var guess := value / 2.0;
    var i := 0;
    while i < ITERATIONS
      invariant 0 <= i <= ITERATIONS
      invariant guess > 0.0 && (i > 0 ==> Square(guess) >= value)
      invariant Newton(guess, value, ITERATIONS - i) == Newton(value / 2.0, value, ITERATIONS)
      invariant StepsShort(guess, value, ITERATIONS - i) == StepsShort(value / 2.0, value, ITERATIONS)
    {
      var newGuess := Improved(guess, value);
      NewtonStep(guess, value);
      if Distance(newGuess, guess) < TOLERANCE {
        SmallSquare(newGuess - guess);
        return Some(newGuess), true;
      }
      guess := newGuess;
      i := i + 1;
    }
    r := Some(guess);
  }

  // n quarterings.
  function Quartered(x: real, n: nat): real
    decreases n
  {
    if n == 0 then x else Quartered(x / 4.0, n - 1)
  }

  // A step from above the root leaves at most a quarter of the error.
  lemma QuarterStep(guess: real, value: real)
    requires guess > 0.0 && value > 0.0 && Square(guess) >= value
    ensures Square(Improved(guess, value)) - value <= (Square(guess) - value) / 4.0
  {
    var next, e := Improved(guess, value), Square(guess) - value;
    NewtonStep(guess, value);
    var d := guess - next;
    var q := value / guess;
    assert q * guess == value;
    assert 2.0 * d == guess - q;
    HalfGap(guess, q, d, e);
    assert Square(next - guess) == Square(d);
  }

  lemma HalfGap(guess: real, q: real, d: real, e: real)
    requires guess > 0.0 && q > 0.0 && 2.0 * d == guess - q && e == Square(guess) - q * guess && e >= 0.0
    ensures Square(d) <= e / 4.0
  {
    assert e == guess * (guess - q) == 2.0 * Product(guess, d);
    NotBelow(guess, d);
    PositiveProduct(q, d);
    assert 4.0 * Square(d) == 2.0 * Product(guess, d) - 2.0 * Product(q, d);
  }

  lemma NotBelow(x: real, d: real)
    requires x > 0.0 && Product(x, d) >= 0.0
    ensures d >= 0.0
  {
  }

  lemma {:induction false} QuarteredMonotone(x: real, y: real, n: nat)
    requires x <= y
    ensures Quartered(x, n) <= Quartered(y, n)
    decreases n
  {
    if n > 0 {
      QuarteredMonotone(x / 4.0, y / 4.0, n - 1);
    }
  }

  // Newton from above the root: an early stop, or that many quarterings of the error.
  lemma {:induction false} NewtonShrinks(guess: real, value: real, steps: nat)
    requires guess > 0.0 && value > 0.0 && Square(guess) >= value
    ensures var r := Newton(guess, value, steps);
      Square(r) - value < 0.000_000_000_000_01 || Square(r) - value <= Quartered(Square(guess) - value, steps)
    decreases steps
  {
    hide Square;
    if steps > 0 {
      var next := Improved(guess, value);
      NewtonStep(guess, value);
      QuarterStep(guess, value);
      if Distance(next, guess) < TOLERANCE {
        SmallSquare(next - guess);
      } else {
        NewtonShrinks(next, value, steps - 1);
        QuarteredMonotone(Square(next) - value, (Square(guess) - value) / 4.0, steps - 1);
      }
    }
  }

  lemma NineteenQuarters(x: real)
    ensures Quartered(x, 19) == x / 274_877_906_944.0
  {
    QuarterTwice(x, 10, 9);
    QuarterTen(x);
    QuarterNine(x / 1_048_576.0);
  }

  lemma {:induction false} QuarterTwice(x: real, m: nat, n: nat)
    ensures Quartered(x, m + n) == Quartered(Quartered(x, m), n)
    decreases m
  {
    if m > 0 {
      QuarterTwice(x / 4.0, m - 1, n);
    }
  }

  lemma QuarterFive(x: real)
    ensures Quartered(x, 5) == x / 1_024.0 && Quartered(x, 4) == x / 256.0
  {
    assert Quartered(x, 1) == x / 4.0;
    QuarterTwice(x, 1, 1);
    QuarterTwice(x, 2, 2);
    QuarterTwice(x, 4, 1);
    assert Quartered(x / 4.0, 1) == x / 16.0;
    QuarterTwice(x / 16.0, 1, 1);
    assert Quartered(x / 16.0, 1) == x / 64.0;
    assert Quartered(x / 64.0, 1) == x / 256.0;
    assert Quartered(x / 256.0, 1) == x / 1_024.0;
  }

  lemma QuarterTen(x: real)
    ensures Quartered(x, 10) == x / 1_048_576.0
  {
    QuarterTwice(x, 5, 5);
    QuarterFive(x);
    QuarterFive(x / 1_024.0);
  }

  lemma QuarterNine(x: real)
    ensures Quartered(x, 9) == x / 262_144.0
  {
    QuarterTwice(x, 5, 4);
    QuarterFive(x);
    QuarterFive(x / 1_024.0);
  }

  // The first guess is half the value; after one step the error is the square of value/4 - 1.
  lemma SqrtIsNear(value: real)
    requires value > 0.0
    ensures var r := Sqrt(value).value;
      Square(r) - value < 0.000_000_000_000_01 || Square(r) - value <= Square(value / 4.0 - 1.0) / 274_877_906_944.0
  {
    var guess := value / 2.0;
    var next := Improved(guess, value);
    NewtonStep(guess, value);
    assert value / guess == 2.0;
    assert next - guess == 1.0 - value / 4.0;
    assert Square(next - guess) == Square(value / 4.0 - 1.0);
    if Distance(next, guess) < TOLERANCE {
      SmallSquare(next - guess);
    } else {
      NewtonShrinks(next, value, 19);
      NineteenQuarters(Square(next) - value);
    }
  }

  lemma SmallSquare(d: real)
    requires -TOLERANCE < d < TOLERANCE
    ensures Square(d) < 0.000_000_000_000_01
  {
    if d >= 0.0 {
      Monotone(d, TOLERANCE);
    } else {
      Monotone(-d, TOLERANCE);
      assert Square(-d) == Square(d);
    }
  }

  function Product(x: real, y: real): real {
    x * y
  }

  lemma PositiveProduct(x: real, y: real)
    ensures x > 0.0 && y > 0.0 ==> Product(x, y) > 0.0
    ensures x >= 0.0 && y >= 0.0 ==> Product(x, y) >= 0.0
  {
  }

  lemma PositiveSquare(x: real)
    requires x > 0.0
    ensures Square(x) > 0.0
  {
    PositiveProduct(x, x);
  }

  lemma Monotone(x: real, y: real)
    requires 0.0 <= x < y
    ensures Square(x) < Square(y)
  {
    PositiveProduct(y - x, y);
    PositiveProduct(y - x, x);
    assert Square(y) - Square(x) == Product(y - x, y) + Product(y - x, x);
  }

  function StandardDeviation(prices: seq<real>): Option<real> {
    if |prices| < 2 then None else Sqrt(Variance(prices, Sma(prices).value))
  }

  method StdDev(prices: seq<real>) returns (r: Option<real>)
    ensures r == StandardDeviation(prices)
    ensures r.Some? <==> |prices| >= 2
    ensures r.Some? ==> r.value >= 0.0 && Square(r.value) >= Variance(prices, Sma(prices).value)
    // And hardly more than it.
    ensures r.Some? ==> var variance := Variance(prices, Sma(prices).value);
      Square(r.value) - variance < 0.000_000_000_000_01
      || Square(r.value) - variance <= Square(variance / 4.0 - 1.0) / 274_877_906_944.0
  {
    var mean := Sma(prices);
    if mean.None? || |prices| < 2 {
      return None;
    }
    var variance := Variance(prices, mean.value);
    VarianceNotNegative(prices, mean.value);
    var early;
    r, early := SqrtDecimal(variance);
  }

  lemma {:induction false} DeviationsNotNegative(prices: seq<real>, mean: real)
    ensures SquaredDeviations(prices, mean) >= 0.0
  {
    if prices != [] {
      DeviationsNotNegative(prices[..|prices| - 1], mean);
      assert Square(prices[|prices| - 1] - mean) >= 0.0;
    }
  }

  lemma VarianceNotNegative(prices: seq<real>, mean: real)
    requires prices != []
    ensures Variance(prices, mean) >= 0.0
  {
    DeviationsNotNegative(prices, mean);
  }

  // The z-score of the latest price: its distance from the mean in standard deviations, or zero
  // if there is no deviation. Its square is at most n - 1, whatever the prices.
  method ZScore(prices: seq<real>) returns (z: Option<real>)
    ensures z.Some? <==> |prices| >= 2
    ensures z.Some? ==> StandardDeviation(prices).Some?
    ensures z.Some? ==>
      var mean, std := Sma(prices).value, StandardDeviation(prices).value;
      if std == 0.0 then z.value == 0.0 else Product(z.value, std) == prices[|prices| - 1] - mean
    ensures z.Some? ==> Square(z.value) <= (|prices| - 1) as real
  {
    hide Square, Variance, Sum, Product;
    if |prices| == 0 {
      return None;
    }
    var mean := Sma(prices);
    var std := StdDev(prices);
    if std.None? {
      return None;
    }
    if std.value == 0.0 {
      SquareOfZero();
      return Some(0.0);
    }
    var current := prices[|prices| - 1];
    z := Some((current - mean.value) / std.value);
    TimesDivisor(current - mean.value, std.value);
    Samuelson(prices);
    RatioBound(current - mean.value, std.value, Variance(prices, mean.value), |prices| - 1);
  }

  lemma SquareOfZero()
    ensures Square(0.0) == 0.0
  {
  }

  lemma TimesDivisor(d: real, std: real)
    requires std != 0.0
    ensures Product(d / std, std) == d
  {
  }

  // ---------- Samuelson's inequality ----------

  // The sum of deviations from any mean.
  lemma {:induction false} SumOfDeviations(prices: seq<real>, mean: real)
    ensures Deviations(prices, mean) == Sum(prices) - mean * |prices| as real
  {
    if prices != [] {
      SumOfDeviations(prices[..|prices| - 1], mean);
      assert |prices| as real == (|prices| - 1) as real + 1.0;
    }
  }

  function Deviations(prices: seq<real>, mean: real): real {
    if prices == [] then 0.0 else Deviations(prices[..|prices| - 1], mean) + (prices[|prices| - 1] - mean)
  }

  // The square of a sum of m terms is at most m times the sum of their squares.
  lemma {:induction false} SquareOfSum(prices: seq<real>, mean: real)
    ensures Square(Deviations(prices, mean)) <= |prices| as real * SquaredDeviations(prices, mean)
  {
    if prices != [] {
      var n := |prices| - 1;
      SquareOfSum(prices[..n], mean);
      DeviationsNotNegative(prices[..n], mean);
      OneMoreTerm(n, Deviations(prices[..n], mean), SquaredDeviations(prices[..n], mean), prices[n] - mean);
    }
  }

  lemma OneMoreTerm(m: nat, s: real, q: real, d: real)
    requires Square(s) <= m as real * q && q >= 0.0
    ensures Square(s + d) <= (m + 1) as real * (q + Square(d))
  {
    var k := m as real;
    assert (m + 1) as real == k + 1.0;
    TwiceProduct(m, s, q, d);
    assert Square(s + d) == Square(s) + 2.0 * (s * d) + Square(d);
    assert (k + 1.0) * (q + Square(d)) == k * q + k * Square(d) + q + Square(d);
  }

  lemma TwiceProduct(m: nat, s: real, q: real, d: real)
    requires Square(s) <= m as real * q && q >= 0.0
    ensures 2.0 * (s * d) <= q + m as real * Square(d)
  {
    var k := m as real;
    if m == 0 {
      OnlyZero(s);
    } else {
      assert Square(s - k * d) >= 0.0;
      assert Square(s - k * d) == Square(s) - 2.0 * (k * (s * d)) + k * (k * Square(d));
      Cancel(k, 2.0 * (s * d), q + k * Square(d));
    }
  }

  lemma OnlyZero(s: real)
    requires Square(s) <= 0.0
    ensures s == 0.0
  {
    if s > 0.0 {
      Monotone(0.0, s);
    } else if s < 0.0 {
      Monotone(0.0, -s);
    }
  }

  lemma Cancel(k: real, x: real, y: real)
    requires k > 0.0 && k * x <= k * y
    ensures x <= y
  {
    PositiveProduct(k, x - y);
    assert Product(k, x - y) == k * x - k * y;
  }

  // The latest price is within sqrt(n - 1) deviations of the mean.
  lemma {:induction false} Samuelson(prices: seq<real>)
    requires |prices| >= 2
    ensures var mean := Sma(prices).value;
      Square(prices[|prices| - 1] - mean) <= (|prices| - 1) as real * Variance(prices, mean)
  {
    var n, mean := |prices|, Sma(prices).value;
    var earlier, d := prices[..n - 1], prices[n - 1] - mean;
    assert mean * n as real == Sum(prices);
    SumOfDeviations(prices, mean);
    assert Deviations(earlier, mean) == -d;
    SquareOfSum(earlier, mean);
    assert Square(-d) == Square(d);
    FromEarlier(n, Square(d), SquaredDeviations(earlier, mean), Variance(prices, mean));
  }

  lemma FromEarlier(n: nat, d2: real, earlier: real, variance: real)
    requires n >= 2 && variance == (earlier + d2) / n as real && d2 <= (n - 1) as real * earlier
    ensures d2 <= (n - 1) as real * variance
  {
    var k := n as real;
    assert (n - 1) as real == k - 1.0;
    assert variance * k == earlier + d2;
    assert k * d2 <= (k - 1.0) * (variance * k);
    assert (k - 1.0) * (variance * k) == k * ((k - 1.0) * variance);
    Cancel(k, d2, (k - 1.0) * variance);
  }

  lemma RatioBound(d: real, std: real, variance: real, m: nat)
    requires std > 0.0 && Square(std) >= variance && Square(d) <= m as real * variance
    ensures Square(d / std) <= m as real
  {
    var z, k := d / std, m as real;
    assert z * std == d;
    assert Square(d) == Square(std) * Square(z);
    assert k * variance <= k * Square(std);
    PositiveSquare(std);
    assert Square(std) * Square(z) <= Square(std) * k;
    Cancel(Square(std), Square(z), k);
  }
}
