// Candles at six resolutions, all updated by every trade.
module Candles {
  import opened Common

  datatype Candle = Candle(open: real, high: real, low: real, close: real, volume: real, count: nat)

  datatype CandleKey = CandleKey(symbol: string, interval: nat, openTime: int)

  type Rows = map<CandleKey, Candle>

  datatype Tick = Tick(symbol: string, price: real, quantity: real, timestampMs: int)

  // The lengths of 1m, 5m, 15m, 1h, 4h and 1d in seconds.
  const INTERVALS: seq<nat> := [60, 300, 900, 3600, 14400, 86400]

  function Greatest(a: real, b: real): real {
    if a >= b then a else b
  }

  function Least(a: real, b: real): real {
    if a <= b then a else b
  }

  // i64 division.
  function TruncDiv(a: int, b: nat): int
    requires b > 0
  {
    if a >= 0 then a / b else -((-a) / b)
  }

  // The second a millisecond timestamp is in.
  function Second(timestampMs: int): int {
    timestampMs / 1000
  }

  function OpenTime(timestampMs: int, seconds: nat): int
    requires seconds > 0
  {
    TruncDiv(Second(timestampMs), seconds) * seconds
  }

  function At(rows: Rows, key: CandleKey): Option<Candle> {
    if key in rows then Some(rows[key]) else None
  }

  // INSERT ... ON CONFLICT DO UPDATE: the open of an existing candle stays.
  function Merged(was: Option<Candle>, c: Candle): Candle {
    match was
    case None => c
    case Some(o) => Candle(o.open, Greatest(o.high, c.high), Least(o.low, c.low), c.close, o.volume + c.volume, o.count + c.count)
  }

  function CandleOf(t: Tick): Candle {
    Candle(t.price, t.price, t.price, t.price, t.quantity, 1)
  }

  function KeyOf(t: Tick, seconds: nat): CandleKey
    requires seconds > 0
  {
    CandleKey(t.symbol, seconds, OpenTime(t.timestampMs, seconds))
  }

  ghost predicate PositiveAll(intervals: seq<nat>) {
    forall i :: 0 <= i < |intervals| ==> intervals[i] > 0
  }

  function Upsert(rows: Rows, key: CandleKey, c: Candle): Rows {
    rows[key := Merged(At(rows, key), c)]
  }

  // The candles after a trade has been added at some resolutions.
  function WithTick(rows: Rows, t: Tick, intervals: seq<nat>): Rows
    requires PositiveAll(intervals)
  {
    if intervals == [] then rows
    else
      var n := |intervals| - 1;
      Upsert(WithTick(rows, t, intervals[..n]), KeyOf(t, intervals[n]), CandleOf(t))
  }

  class CandleStore {
    var rows: Rows

    constructor ()
      ensures rows == map[]
    {
      rows := map[];
    }

    method UpsertCandle(key: CandleKey, open: real, high: real, low: real, close: real, volume: real, count: nat)
      modifies this
      ensures rows == Upsert(old(rows), key, Candle(open, high, low, close, volume, count))
    {
      if key in rows {
        var o := rows[key];
        rows := rows[key := Candle(o.open, Greatest(o.high, high), Least(o.low, low), close, o.volume + volume, o.count + count)];
      } else {
        rows := rows[key := Candle(open, high, low, close, volume, count)];
      }
    }

    method UpdateFromTrade(symbol: string, price: real, quantity: real, timestampMs: int)
      modifies this
      ensures rows == WithTick(old(rows), Tick(symbol, price, quantity, timestampMs), INTERVALS)
    {
      var i := 0;
      while i < |INTERVALS|
        invariant 0 <= i <= |INTERVALS|
        invariant rows == WithTick(old(rows), Tick(symbol, price, quantity, timestampMs), INTERVALS[..i])
      {
        var seconds := INTERVALS[i];
        assert INTERVALS[..i + 1][..i] == INTERVALS[..i];
        var openTime := TruncDiv(Second(timestampMs), seconds) * seconds;
        UpsertCandle(CandleKey(symbol, seconds, openTime), price, price, price, price, quantity, 1);
        i := i + 1;
      }
      assert INTERVALS[..i] == INTERVALS;
    }
  }

  function AllCandles(ticks: seq<Tick>): Rows {
    if ticks == [] then map[] else WithTick(AllCandles(ticks[..|ticks| - 1]), ticks[|ticks| - 1], INTERVALS)
  }

  // ---------- each candle summarizes its trades ----------

  // The candle of one trade, merged into the row it belongs to; every other row stays.
  lemma {:induction false} TickTouches(rows: Rows, t: Tick, intervals: seq<nat>, key: CandleKey)
    requires PositiveAll(intervals) && (forall i, j :: 0 <= i < j < |intervals| ==> intervals[i] != intervals[j])
    ensures At(WithTick(rows, t, intervals), key)
      == if key.interval in intervals && key.interval > 0 && key == KeyOf(t, key.interval)
         then Some(Merged(At(rows, key), CandleOf(t))) else At(rows, key)
  {
    hide OpenTime;
    if intervals != [] {
      var n := |intervals| - 1;
      TickTouches(rows, t, intervals[..n], key);
      assert intervals == intervals[..n] + [intervals[n]];
    }
  }

  lemma IntervalsDiffer()
    ensures PositiveAll(INTERVALS) && (forall i, j :: 0 <= i < j < |INTERVALS| ==> INTERVALS[i] != INTERVALS[j])
  {
  }

  // The trades of one candle, in the order they arrived.
  function Within(ticks: seq<Tick>, key: CandleKey): seq<Tick>
    requires key.interval > 0
  {
    if ticks == [] then []
    else
      var earlier, t := Within(ticks[..|ticks| - 1], key), ticks[|ticks| - 1];
      if key == KeyOf(t, key.interval) then earlier + [t] else earlier
  }

  function Volume(ticks: seq<Tick>): real {
    if ticks == [] then 0.0 else Volume(ticks[..|ticks| - 1]) + ticks[|ticks| - 1].quantity
  }

  // First and last price, bounds that are reached, total quantity and number.
  ghost predicate Summarizes(c: Candle, ticks: seq<Tick>) {
    && ticks != [] && c.count == |ticks| && c.volume == Volume(ticks)
    && c.open == ticks[0].price && c.close == ticks[|ticks| - 1].price
    && (forall i :: 0 <= i < |ticks| ==> c.low <= ticks[i].price <= c.high)
    && (exists i :: 0 <= i < |ticks| && ticks[i].price == c.high)
    && (exists i :: 0 <= i < |ticks| && ticks[i].price == c.low)
  }

  lemma MergedSummarizes(was: Option<Candle>, ticks: seq<Tick>, t: Tick)
    requires match was case None => ticks == [] case Some(c) => Summarizes(c, ticks)
    ensures Summarizes(Merged(was, CandleOf(t)), ticks + [t])
  {
    var all, c := ticks + [t], Merged(was, CandleOf(t));
    assert all[..|ticks|] == ticks;
    assert all[|ticks|].price == t.price;
    match was
    case None =>
    case Some(o) =>
      var i :| 0 <= i < |ticks| && ticks[i].price == o.high;
      var j :| 0 <= j < |ticks| && ticks[j].price == o.low;
      assert all[i].price == o.high && all[j].price == o.low;
  }

  // Over every run of trades, a candle exists exactly where trades fell, and summarizes them.
  lemma {:induction false} CandlesSummarize(ticks: seq<Tick>, key: CandleKey)
    requires key.interval in INTERVALS && key.interval > 0
    ensures match At(AllCandles(ticks), key)
      case None => Within(ticks, key) == []
      case Some(c) => Summarizes(c, Within(ticks, key))
  {
    hide Summarizes, Merged, OpenTime, WithTick;
    if ticks != [] {
      var n := |ticks| - 1;
      CandlesSummarize(ticks[..n], key);
      IntervalsDiffer();
      TickTouches(AllCandles(ticks[..n]), ticks[n], INTERVALS, key);
      MergedSummarizes(At(AllCandles(ticks[..n]), key), Within(ticks[..n], key), ticks[n]);
    }
  }

  // ---------- where trades fall ----------

  // A minute, five, a quarter of an hour, an hour, four, a day.
  predicate IsResolution(seconds: nat) {
    seconds in {60, 300, 900, 3_600, 14_400, 86_400}
  }

  lemma {:induction false} WithinHas(ticks: seq<Tick>, i: nat, key: CandleKey)
    requires key.interval > 0 && i < |ticks| && key == KeyOf(ticks[i], key.interval)
    ensures Within(ticks, key) != []
  {
    hide OpenTime;
    if i < |ticks| - 1 {
      WithinHas(ticks[..|ticks| - 1], i, key);
    }
  }

  // The opening time of a timestamp: a multiple of the length, at or before it by less than that
  // length from 1970 on, and at or after its second by less than that before.
  lemma OpenTimeBounds(timestampMs: int, seconds: nat)
    requires seconds > 0
    ensures var o := OpenTime(timestampMs, seconds);
      && o % seconds == 0
      && (timestampMs >= 0 ==> o * 1000 <= timestampMs < (o + seconds) * 1000)
      && (timestampMs < 0 ==> (o - seconds) * 1000 < timestampMs < (o + 1) * 1000)
  {
    var s, o := Second(timestampMs), OpenTime(timestampMs, seconds);
    OpenTimeIsMultiple(timestampMs, seconds);
    if s >= 0 {
      BelowMultiple(s, seconds);
    } else {
      BelowMultiple(-s, seconds);
      assert o == -(((-s) / seconds) * seconds);
    }
    hide OpenTime;
  }

  // Every trade has a candle at each of the six resolutions, and it lies there.
  lemma TickHasCandles(ticks: seq<Tick>, i: nat, seconds: nat) returns (openTime: int)
    requires i < |ticks| && IsResolution(seconds)
    ensures CandleKey(ticks[i].symbol, seconds, openTime) in AllCandles(ticks) && openTime % seconds == 0
    ensures var ms := ticks[i].timestampMs;
      && (ms >= 0 ==> openTime * 1000 <= ms < (openTime + seconds) * 1000)
      && (ms < 0 ==> (openTime - seconds) * 1000 < ms < (openTime + 1) * 1000)
  {
    openTime := OpenTime(ticks[i].timestampMs, seconds);
    OpenTimeBounds(ticks[i].timestampMs, seconds);
    ResolutionsAreSix(seconds);
    var key := CandleKey(ticks[i].symbol, seconds, openTime);
    hide OpenTime, AllCandles, Within, IsResolution;
    assert key == KeyOf(ticks[i], seconds);
    WithinHas(ticks, i, key);
    CandlesSummarize(ticks, key);
  }

  lemma ResolutionsAreSix(seconds: nat)
    ensures IsResolution(seconds) <==> seconds in INTERVALS
  {
    assert INTERVALS == [60, 300, 900, 3_600, 14_400, 86_400];
    assert forall i :: 0 <= i < |INTERVALS| ==> INTERVALS[i] in INTERVALS;
    assert INTERVALS[0] == 60 && INTERVALS[1] == 300 && INTERVALS[2] == 900;
    assert INTERVALS[3] == 3_600 && INTERVALS[4] == 14_400 && INTERVALS[5] == 86_400;
  }

  // And there are no other candles.
  lemma {:induction false} OnlySixResolutions(ticks: seq<Tick>, key: CandleKey)
    requires key in AllCandles(ticks)
    ensures IsResolution(key.interval)
  {
    hide WithTick, OpenTime;
    var n := |ticks| - 1;
    IntervalsDiffer();
    ResolutionsAreSix(key.interval);
    TickTouches(AllCandles(ticks[..n]), ticks[n], INTERVALS, key);
    if key in AllCandles(ticks[..n]) {
      OnlySixResolutions(ticks[..n], key);
    }
  }

  // ---------- roll-up ----------

  // Candles one after the other.
  function Joined(a: Option<Candle>, b: Option<Candle>): Option<Candle> {
    if a.None? then b
    else if b.None? then a
    else Some(Merged(a, b.value))
  }

  // The finer candle that is the k-th inside the coarser one opening at `openTime`.
  function Finer(rows: Rows, symbol: string, fine: nat, openTime: int, k: nat): Option<Candle> {
    At(rows, CandleKey(symbol, fine, openTime + k * fine))
  }

  // The first n finer candles, rolled up.
  function RollUp(rows: Rows, symbol: string, fine: nat, openTime: int, n: nat): Option<Candle> {
    if n == 0 then None
    else Joined(RollUp(rows, symbol, fine, openTime, n - 1), Finer(rows, symbol, fine, openTime, n - 1))
  }

  // Equal apart from open and close.
  predicate SameExtent(a: Option<Candle>, b: Option<Candle>) {
    && (a.None? <==> b.None?)
    && (a.Some? ==>
        a.value.high == b.value.high && a.value.low == b.value.low
        && a.value.volume == b.value.volume && a.value.count == b.value.count)
  }

  // `later` is `rows` with a trade merged into the j-th finer candle.
  ghost predicate OneMerged(rows: Rows, later: Rows, symbol: string, fine: nat, openTime: int, t: Tick, j: nat, n: nat) {
    forall k: nat :: k < n ==>
      Finer(later, symbol, fine, openTime, k)
      == if k == j then Some(Merged(Finer(rows, symbol, fine, openTime, k), CandleOf(t))) else Finer(rows, symbol, fine, openTime, k)
  }

  lemma {:induction false} RollUpUntouched(rows: Rows, later: Rows, symbol: string, fine: nat, openTime: int, n: nat)
    requires forall k: nat :: k < n ==> Finer(later, symbol, fine, openTime, k) == Finer(rows, symbol, fine, openTime, k)
    ensures RollUp(later, symbol, fine, openTime, n) == RollUp(rows, symbol, fine, openTime, n)
  {
    hide Finer, Joined;
    if n > 0 {
      RollUpUntouched(rows, later, symbol, fine, openTime, n - 1);
    }
  }

  // Merging a trade into one finer candle merges it into the roll-up, except for open and close
  // when a later finer candle exists.
  lemma {:induction false} RollUpMerges(rows: Rows, later: Rows, symbol: string, fine: nat, openTime: int, t: Tick, j: nat, n: nat)
    requires j < n && OneMerged(rows, later, symbol, fine, openTime, t, j, n)
    ensures var merged := Some(Merged(RollUp(rows, symbol, fine, openTime, n), CandleOf(t)));
      && SameExtent(RollUp(later, symbol, fine, openTime, n), merged)
      && ((forall k: nat :: j < k < n ==> Finer(rows, symbol, fine, openTime, k).None?) ==>
          RollUp(later, symbol, fine, openTime, n) == merged)
    decreases n
  {
    hide Finer, RollUp;
    RollUpStep(rows, symbol, fine, openTime, n - 1);
    RollUpStep(later, symbol, fine, openTime, n - 1);
    var before, last := RollUp(rows, symbol, fine, openTime, n - 1), Finer(rows, symbol, fine, openTime, n - 1);
    if j == n - 1 {
      RollUpUntouched(rows, later, symbol, fine, openTime, n - 1);
      JoinedMerged(before, last, t);
    } else {
      RollUpMerges(rows, later, symbol, fine, openTime, t, j, n - 1);
      MergedJoined(before, last, RollUp(later, symbol, fine, openTime, n - 1), t);
    }
  }

  lemma RollUpStep(rows: Rows, symbol: string, fine: nat, openTime: int, n: nat)
    ensures RollUp(rows, symbol, fine, openTime, n + 1)
      == Joined(RollUp(rows, symbol, fine, openTime, n), Finer(rows, symbol, fine, openTime, n))
  {
  }

  lemma JoinedMerged(a: Option<Candle>, b: Option<Candle>, t: Tick)
    ensures Joined(a, Some(Merged(b, CandleOf(t)))) == Some(Merged(Joined(a, b), CandleOf(t)))
  {
  }

  lemma MergedJoined(a: Option<Candle>, b: Option<Candle>, a': Option<Candle>, t: Tick)
    requires SameExtent(a', Some(Merged(a, CandleOf(t))))
    ensures SameExtent(Joined(a', b), Some(Merged(Joined(a, b), CandleOf(t))))
    ensures b.None? ==> Joined(a', b) == a' && Joined(a, b) == a
  {
  }

  // ---------- which candle a trade falls into ----------

  lemma Grows(i: int, j: int, m: nat)
    ensures i < j ==> i * m + m <= j * m
  {
    if i < j {
      GrowsBy(i, j - i - 1, m);
    }
  }

  lemma GrowsBy(i: int, d: nat, m: nat)
    ensures (i + 1 + d) * m == i * m + m + d * m && d * m >= 0
  {
  }

  lemma MultipleOf(k: int, m: nat)
    requires m > 0
    ensures (k * m) % m == 0
  {
    var q, r := (k * m) / m, (k * m) % m;
    assert k * m == q * m + r;
    Grows(q, k, m);
    Grows(k, q, m);
  }

  lemma BelowMultiple(s: nat, m: nat)
    requires m > 0
    ensures ((s / m) * m) % m == 0 && 0 <= (s / m) * m <= s < (s / m) * m + m
  {
    var q := s / m;
    assert s == q * m + s % m;
    MultipleOf(q, m);
  }

  // The multiple of m at or below x, less than m away, is unique.
  lemma OneMultiple(a: int, b: int, x: int, m: nat)
    requires m > 0 && a % m == 0 && b % m == 0
    requires a <= x < a + m && b <= x < b + m
    ensures a == b
  {
    var i, j := a / m, b / m;
    assert a == i * m && b == j * m;
    Grows(i, j, m);
    Grows(j, i, m);
  }

  lemma SumOfMultiples(a: int, k: int, fine: nat, m: nat)
    requires fine > 0 && m > 0 && a % (m * fine) == 0
    ensures (a + k * fine) % fine == 0
  {
    var i := a / (m * fine);
    assert a == i * (m * fine) == (i * m) * fine;
    assert a + k * fine == (i * m + k) * fine;
    MultipleOf(i * m + k, fine);
  }

  lemma OpenTimeIsMultiple(timestampMs: int, seconds: nat)
    requires seconds > 0
    ensures OpenTime(timestampMs, seconds) % seconds == 0
  {
    MultipleOf(TruncDiv(Second(timestampMs), seconds), seconds);
  }

  // The coarser candle that the finer candle of a trade lies in.
  function Block(timestampMs: int, fine: nat, m: nat): int
    requires fine > 0 && m * fine > 0
  {
    OpenTime(timestampMs, fine) - OpenTime(timestampMs, fine) % (m * fine)
  }

  // The finer candle of a trade lies in its coarser one: always from 1970 on, and before that
  // only in the last finer candle's length after a multiple of the coarser one's.
  predicate LiesInside(timestampMs: int, fine: nat, m: nat)
    requires m * fine > 0
  {
    Second(timestampMs) >= 0 || (-Second(timestampMs)) % (m * fine) < fine
  }

  lemma BlockIs(timestampMs: int, fine: nat, m: nat, b: int)
    requires fine > 0 && m * fine > 0 && b % (m * fine) == 0
    requires b <= OpenTime(timestampMs, fine) < b + m * fine
    ensures Block(timestampMs, fine, m) == b
  {
    hide OpenTime;
    var o := OpenTime(timestampMs, fine);
    BlockBounds(timestampMs, fine, m);
    OneMultiple(Block(timestampMs, fine, m), b, o, m * fine);
  }

  lemma BlockBounds(timestampMs: int, fine: nat, m: nat)
    requires fine > 0 && m * fine > 0
    ensures var b, o := Block(timestampMs, fine, m), OpenTime(timestampMs, fine);
      b % (m * fine) == 0 && b <= o < b + m * fine
  {
    hide OpenTime;
    var o, coarse := OpenTime(timestampMs, fine), m * fine;
    assert o == (o / coarse) * coarse + o % coarse;
    MultipleOf(o / coarse, coarse);
  }

  // The multiple of `fine` at or below k * (m * fine) + r.
  lemma BelowSum(k: nat, m: nat, fine: nat, r: nat)
    requires fine > 0 && m * fine > 0
    ensures ((k * (m * fine) + r) / fine) * fine == k * (m * fine) + (r / fine) * fine
  {
    var u := k * (m * fine) + r;
    BelowMultiple(u, fine);
    BelowMultiple(r, fine);
    MultipleOf(k, m * fine);
    Positive(m, fine);
    SumOfMultiples(k * (m * fine), r / fine, fine, m);
    OneMultiple((u / fine) * fine, k * (m * fine) + (r / fine) * fine, u, fine);
  }

  lemma Positive(m: nat, fine: nat)
    requires m * fine > 0
    ensures m > 0 && fine > 0
  {
  }

  lemma LaterBlock(timestampMs: int, fine: nat, m: nat)
    requires fine > 0 && m * fine > 0 && Second(timestampMs) >= 0
    ensures Block(timestampMs, fine, m) == OpenTime(timestampMs, m * fine)
  {
    var s, coarse := Second(timestampMs), m * fine;
    BelowMultiple(s, coarse);
    BelowMultiple(s, fine);
    var k, r := s / coarse, s % coarse;
    assert s == k * coarse + r;
    BelowSum(k, m, fine, r);
    BelowMultiple(r, fine);
    BlockIs(timestampMs, fine, m, k * coarse);
  }

  // Before 1970 both opening times are rounded up.
  lemma EarlierTimes(timestampMs: int, fine: nat, m: nat, k: nat, r: nat)
    requires fine > 0 && m * fine > 0 && Second(timestampMs) < 0
    requires k == (-Second(timestampMs)) / (m * fine) && r == (-Second(timestampMs)) % (m * fine)
    ensures OpenTime(timestampMs, m * fine) == -(k * (m * fine))
    ensures OpenTime(timestampMs, fine) == -(k * (m * fine)) - (r / fine) * fine
  {
    var u: nat := -Second(timestampMs);
    assert u == k * (m * fine) + r;
    BelowSum(k, m, fine, r);
    assert OpenTime(timestampMs, m * fine) == -(k * (m * fine));
    assert OpenTime(timestampMs, fine) == -((u / fine) * fine);
  }

  lemma EarlierBlock(timestampMs: int, fine: nat, m: nat)
    requires fine > 0 && m * fine > 0 && Second(timestampMs) < 0
    ensures Block(timestampMs, fine, m)
      == OpenTime(timestampMs, m * fine) - if (-Second(timestampMs)) % (m * fine) < fine then 0 else m * fine
  {
    hide OpenTime, Block;
    var u: nat, coarse := -Second(timestampMs), m * fine;
    var k, r := u / coarse, u % coarse;
    EarlierTimes(timestampMs, fine, m, k, r);
    BelowMultiple(r, fine);
    NegativeMultiples(k, coarse);
    Grows(0, r / fine, fine);
    BlockIs(timestampMs, fine, m, if r < fine then -(k * coarse) else -(k * coarse) - coarse);
  }

  lemma NegativeMultiples(k: nat, m: nat)
    requires m > 0
    ensures (-(k * m)) % m == 0 && (-(k * m) - m) % m == 0
  {
    var i: int := k;
    MultipleOf(-i, m);
    MultipleOf(-i - 1, m);
    assert (-i) * m == -(k * m) && (-i - 1) * m == -(k * m) - m;
  }

  // The finer candle of a trade never lies after its coarser one, and in it exactly under the
  // condition above.
  lemma BlockAgrees(timestampMs: int, fine: nat, m: nat)
    requires fine > 0 && m * fine > 0
    ensures Block(timestampMs, fine, m) <= OpenTime(timestampMs, m * fine)
    ensures Block(timestampMs, fine, m) == OpenTime(timestampMs, m * fine) <==> LiesInside(timestampMs, fine, m)
  {
    if Second(timestampMs) >= 0 {
      LaterBlock(timestampMs, fine, m);
    } else {
      EarlierBlock(timestampMs, fine, m);
    }
  }

  // Of the finer candles inside the coarser one opening at `openTime`, a trade is in exactly one
  // if that is its block, and in none otherwise.
  lemma Placement(timestampMs: int, fine: nat, m: nat, openTime: int) returns (j: nat)
    requires fine > 0 && m * fine > 0 && openTime % (m * fine) == 0
    ensures if Block(timestampMs, fine, m) == openTime
            then j < m && forall k: nat :: OpenTime(timestampMs, fine) == openTime + k * fine <==> k == j
            else forall k: nat :: k < m ==> OpenTime(timestampMs, fine) != openTime + k * fine
  {
    hide OpenTime, Block;
    var o := OpenTime(timestampMs, fine);
    Positive(m, fine);
    BlockBounds(timestampMs, fine, m);
    OpenTimeIsMultiple(timestampMs, fine);
    if Block(timestampMs, fine, m) == openTime {
      j := (o - openTime) / fine;
      SlotBelow(o - openTime, fine, m);
      SumOfMultiples(openTime, j, fine, m);
      OneMultiple(o, openTime + j * fine, o, fine);
      OnlySlot(o, openTime, j, fine);
    } else {
      j := 0;
      OtherBlock(Block(timestampMs, fine, m), openTime, o, fine, m);
    }
  }

  lemma OnlySlot(o: int, openTime: int, j: nat, fine: nat)
    requires fine > 0 && o == openTime + j * fine
    ensures forall k: nat :: o == openTime + k * fine <==> k == j
  {
    forall k: nat
      ensures o == openTime + k * fine <==> k == j
    {
      SameSlot(k, j, fine);
    }
  }

  lemma OtherBlock(block: int, openTime: int, o: int, fine: nat, m: nat)
    requires fine > 0 && m * fine > 0 && openTime % (m * fine) == 0 && block % (m * fine) == 0
    requires block != openTime && block <= o < block + m * fine
    ensures forall k: nat :: k < m ==> o != openTime + k * fine
  {
    forall k: nat | k < m
      ensures o != openTime + k * fine
    {
      if o == openTime + k * fine {
        SlotInside(k, fine, m);
        OneMultiple(block, openTime, o, m * fine);
      }
    }
  }

  lemma SlotBelow(x: int, fine: nat, m: nat)
    requires fine > 0 && 0 <= x < m * fine
    ensures 0 <= x / fine < m && (x / fine) * fine <= x < (x / fine) * fine + fine
  {
    var j := x / fine;
    assert x == j * fine + x % fine;
    Grows(m - 1, j, fine);
    GrowsBy(m - 1, 0, fine);
  }

  lemma SameSlot(k: nat, j: nat, fine: nat)
    requires fine > 0
    ensures k * fine == j * fine <==> k == j
  {
    Grows(k, j, fine);
    Grows(j, k, fine);
  }

  lemma SlotInside(k: nat, fine: nat, m: nat)
    requires k < m
    ensures k * fine + fine <= m * fine && 0 <= k * fine
  {
    Grows(k, m, fine);
    GrowsBy(0, k, fine);
  }

  // ---------- extent ----------

  // A pair of resolutions: the coarser one is m times the finer one.
  predicate Resolutions(fine: nat, m: nat) {
    fine in INTERVALS && m * fine in INTERVALS && fine > 0 && m * fine > 0
  }

  // Every trade of the symbol has its finer candle in its coarser one.
  ghost predicate AllInside(ticks: seq<Tick>, symbol: string, fine: nat, m: nat)
    requires m * fine > 0
  {
    forall i :: 0 <= i < |ticks| && ticks[i].symbol == symbol ==> LiesInside(ticks[i].timestampMs, fine, m)
  }

  // The finer opening times of the symbol's trades never go back.
  ghost predicate FinerInOrder(ticks: seq<Tick>, symbol: string, fine: nat)
    requires fine > 0
  {
    forall i, j :: 0 <= i < j < |ticks| && ticks[i].symbol == symbol && ticks[j].symbol == symbol ==>
      OpenTime(ticks[i].timestampMs, fine) <= OpenTime(ticks[j].timestampMs, fine)
  }

  lemma {:induction false} WithinComesFrom(ticks: seq<Tick>, key: CandleKey) returns (i: nat)
    requires key.interval > 0 && Within(ticks, key) != []
    ensures i < |ticks| && key == KeyOf(ticks[i], key.interval)
  {
    hide OpenTime;
    var n := |ticks| - 1;
    if key == KeyOf(ticks[n], key.interval) {
      i := n;
    } else {
      i := WithinComesFrom(ticks[..n], key);
    }
  }

  // In order, no finer candle after the one of the latest trade exists yet.
  lemma NoLaterCandle(ticks: seq<Tick>, t: Tick, fine: nat, openTime: int, j: nat, k: nat)
    requires fine in INTERVALS && fine > 0 && FinerInOrder(ticks + [t], t.symbol, fine)
    requires OpenTime(t.timestampMs, fine) == openTime + j * fine && j < k
    ensures Finer(AllCandles(ticks), t.symbol, fine, openTime, k).None?
  {
    hide OpenTime, Summarizes, AllCandles;
    var key := CandleKey(t.symbol, fine, openTime + k * fine);
    CandlesSummarize(ticks, key);
    if At(AllCandles(ticks), key).Some? {
      SummarizesSome(At(AllCandles(ticks), key).value, Within(ticks, key));
      var i := WithinComesFrom(ticks, key);
      assert (ticks + [t])[|ticks|] == t && (ticks + [t])[i] == ticks[i];
      SlotInside(j, fine, k);
      assert false;
    }
  }

  lemma SummarizesSome(c: Candle, ticks: seq<Tick>)
    requires Summarizes(c, ticks)
    ensures ticks != []
  {
  }

  // What one more trade does to the finer candles of a coarser one.
  lemma TickAmongFiner(rows: Rows, t: Tick, symbol: string, fine: nat, m: nat, openTime: int) returns (j: nat)
    requires Resolutions(fine, m) && openTime % (m * fine) == 0
    ensures var later := WithTick(rows, t, INTERVALS);
      if symbol == t.symbol && Block(t.timestampMs, fine, m) == openTime
      then j < m && OpenTime(t.timestampMs, fine) == openTime + j * fine && OneMerged(rows, later, symbol, fine, openTime, t, j, m)
      else forall k: nat :: k < m ==> Finer(later, symbol, fine, openTime, k) == Finer(rows, symbol, fine, openTime, k)
  {
    hide OpenTime, WithTick, Merged, Block;
    var later := WithTick(rows, t, INTERVALS);
    IntervalsDiffer();
    j := Placement(t.timestampMs, fine, m, openTime);
    forall k: nat
      ensures Finer(later, symbol, fine, openTime, k)
        == if symbol == t.symbol && OpenTime(t.timestampMs, fine) == openTime + k * fine
           then Some(Merged(Finer(rows, symbol, fine, openTime, k), CandleOf(t))) else Finer(rows, symbol, fine, openTime, k)
    {
      TickTouches(rows, t, INTERVALS, CandleKey(symbol, fine, openTime + k * fine));
    }
  }

  // One more trade keeps a coarser candle the roll-up of its finer candles.
  lemma TickRollsUp(ticks: seq<Tick>, t: Tick, symbol: string, fine: nat, m: nat, openTime: int)
    requires Resolutions(fine, m) && openTime % (m * fine) == 0
    requires t.symbol == symbol ==> LiesInside(t.timestampMs, fine, m)
    requires var rows := AllCandles(ticks);
      SameExtent(At(rows, CandleKey(symbol, m * fine, openTime)), RollUp(rows, symbol, fine, openTime, m))
    ensures var rows := WithTick(AllCandles(ticks), t, INTERVALS);
      SameExtent(At(rows, CandleKey(symbol, m * fine, openTime)), RollUp(rows, symbol, fine, openTime, m))
    ensures var rows, later := AllCandles(ticks), WithTick(AllCandles(ticks), t, INTERVALS);
      FinerInOrder(ticks + [t], symbol, fine)
      && At(rows, CandleKey(symbol, m * fine, openTime)) == RollUp(rows, symbol, fine, openTime, m) ==>
        At(later, CandleKey(symbol, m * fine, openTime)) == RollUp(later, symbol, fine, openTime, m)
  {
    hide OpenTime, WithTick, RollUp, AllCandles, Merged, Block, LiesInside, FinerInOrder;
    var rows, later := AllCandles(ticks), WithTick(AllCandles(ticks), t, INTERVALS);
    var key := CandleKey(symbol, m * fine, openTime);
    IntervalsDiffer();
    TickTouches(rows, t, INTERVALS, key);
    BlockAgrees(t.timestampMs, fine, m);
    var j := TickAmongFiner(rows, t, symbol, fine, m, openTime);
    if symbol == t.symbol && Block(t.timestampMs, fine, m) == openTime {
      RollUpMerges(rows, later, symbol, fine, openTime, t, j, m);
      MergedSame(At(rows, key), RollUp(rows, symbol, fine, openTime, m), t);
      if FinerInOrder(ticks + [t], symbol, fine) {
        forall k: nat | j < k < m
          ensures Finer(rows, symbol, fine, openTime, k).None?
        {
          NoLaterCandle(ticks, t, fine, openTime, j, k);
        }
      }
    } else {
      RollUpUntouched(rows, later, symbol, fine, openTime, m);
    }
  }

  lemma MergedSame(a: Option<Candle>, b: Option<Candle>, t: Tick)
    requires SameExtent(a, b)
    ensures SameExtent(Some(Merged(a, CandleOf(t))), Some(Merged(b, CandleOf(t))))
  {
  }

  // Roll-up, for each pair of resolutions and every run of trades, in any order, whose finer
  // candles lie in their coarser ones: volume, count, high and low of a coarser candle are those
  // of its finer candles taken together, and one exists exactly if a finer one does. When the
  // finer opening times never go back, open and close are too.
  lemma {:induction false} CandlesRollUp(ticks: seq<Tick>, symbol: string, fine: nat, m: nat, openTime: int)
    requires Resolutions(fine, m) && openTime % (m * fine) == 0 && AllInside(ticks, symbol, fine, m)
    ensures var rows := AllCandles(ticks);
      var coarse, rolled := At(rows, CandleKey(symbol, m * fine, openTime)), RollUp(rows, symbol, fine, openTime, m);
      && SameExtent(coarse, rolled)
      && (FinerInOrder(ticks, symbol, fine) ==> coarse == rolled)
  {
    if ticks == [] {
      NothingRollsUp(symbol, fine, openTime, m);
    } else {
      var n := |ticks| - 1;
      hide RollUp, WithTick, SameExtent, OpenTime, LiesInside, Resolutions;
      CandlesRollUp(ticks[..n], symbol, fine, m, openTime);
      assert ticks == ticks[..n] + [ticks[n]];
      TickRollsUp(ticks[..n], ticks[n], symbol, fine, m, openTime);
    }
  }

  lemma {:induction false} NothingRollsUp(symbol: string, fine: nat, openTime: int, n: nat)
    ensures RollUp(map[], symbol, fine, openTime, n) == None
  {
    if n > 0 {
      NothingRollsUp(symbol, fine, openTime, n - 1);
    }
  }

  // ---------- exactly when the extent rolls up ----------

  function CountOf(c: Option<Candle>): nat {
    if c.Some? then c.value.count else 0
  }

  // The coarser opening times of a symbol's trades, and the coarser candles their finer ones
  // lie in.
  function CoarseTimes(ticks: seq<Tick>, symbol: string, coarse: nat): seq<int>
    requires coarse > 0
  {
    if ticks == [] then []
    else
      var earlier, t := CoarseTimes(ticks[..|ticks| - 1], symbol, coarse), ticks[|ticks| - 1];
      if t.symbol == symbol then earlier + [OpenTime(t.timestampMs, coarse)] else earlier
  }

  function Blocks(ticks: seq<Tick>, symbol: string, fine: nat, m: nat): seq<int>
    requires fine > 0 && m * fine > 0
  {
    if ticks == [] then []
    else
      var earlier, t := Blocks(ticks[..|ticks| - 1], symbol, fine, m), ticks[|ticks| - 1];
      if t.symbol == symbol then earlier + [Block(t.timestampMs, fine, m)] else earlier
  }

  function SumOf(s: seq<int>): int {
    if s == [] then 0 else SumOf(s[..|s| - 1]) + s[|s| - 1]
  }

  // A coarser candle counts the trades with its opening time.
  lemma {:induction false} CoarseCounts(ticks: seq<Tick>, symbol: string, coarse: nat, openTime: int)
    requires coarse in INTERVALS && coarse > 0
    ensures CountOf(At(AllCandles(ticks), CandleKey(symbol, coarse, openTime))) == multiset(CoarseTimes(ticks, symbol, coarse))[openTime]
  {
    if ticks != [] {
      hide OpenTime, WithTick;
      var n := |ticks| - 1;
      CoarseCounts(ticks[..n], symbol, coarse, openTime);
      IntervalsDiffer();
      TickTouches(AllCandles(ticks[..n]), ticks[n], INTERVALS, CandleKey(symbol, coarse, openTime));
    }
  }

  // A roll-up counts the trades whose finer candles lie in it.
  lemma {:induction false} RollUpCounts(ticks: seq<Tick>, symbol: string, fine: nat, m: nat, openTime: int)
    requires Resolutions(fine, m) && openTime % (m * fine) == 0
    ensures CountOf(RollUp(AllCandles(ticks), symbol, fine, openTime, m)) == multiset(Blocks(ticks, symbol, fine, m))[openTime]
  {
    if ticks == [] {
      NothingRollsUp(symbol, fine, openTime, m);
    } else {
      hide OpenTime, WithTick, RollUp, Block, Resolutions;
      var n := |ticks| - 1;
      var rows, t := AllCandles(ticks[..n]), ticks[n];
      RollUpCounts(ticks[..n], symbol, fine, m, openTime);
      var later := WithTick(rows, t, INTERVALS);
      assert AllCandles(ticks) == later;
      hide AllCandles;
      var j := TickAmongFiner(rows, t, symbol, fine, m, openTime);
      if symbol == t.symbol && Block(t.timestampMs, fine, m) == openTime {
        RollUpMerges(rows, later, symbol, fine, openTime, t, j, m);
      } else {
        RollUpUntouched(rows, later, symbol, fine, openTime, m);
      }
    }
  }

  lemma {:induction false} OnlyMultiples(ticks: seq<Tick>, symbol: string, fine: nat, m: nat, x: int)
    requires fine > 0 && m * fine > 0 && x % (m * fine) != 0
    ensures x !in CoarseTimes(ticks, symbol, m * fine) && x !in Blocks(ticks, symbol, fine, m)
  {
    if ticks != [] {
      hide OpenTime, Block;
      var t := ticks[|ticks| - 1];
      OnlyMultiples(ticks[..|ticks| - 1], symbol, fine, m, x);
      OpenTimeIsMultiple(t.timestampMs, m * fine);
      BlockBounds(t.timestampMs, fine, m);
    }
  }

  lemma {:induction false} SameSum(a: seq<int>, b: seq<int>)
    requires multiset(a) == multiset(b)
    ensures SumOf(a) == SumOf(b)
    decreases |a|
  {
    if a == [] {
      assert |multiset(b)| == 0;
    } else {
      var n, x := |a| - 1, a[|a| - 1];
      assert a == a[..n] + [x];
      assert x in multiset(b);
      var i :| 0 <= i < |b| && b[i] == x;
      assert b == b[..i] + [x] + b[i + 1..];
      assert multiset(a[..n]) == multiset(a) - multiset{x};
      assert multiset(b[..i] + b[i + 1..]) == multiset(b) - multiset{x};
      SameSum(a[..n], b[..i] + b[i + 1..]);
      SumWithout(b[..i], x, b[i + 1..]);
    }
  }

  lemma {:induction false} SumWithout(a: seq<int>, x: int, b: seq<int>)
    ensures SumOf(a + [x] + b) == SumOf(a + b) + x
  {
    if b == [] {
      assert a + [x] + b == a + [x] && a + b == a && (a + [x])[..|a|] == a;
    } else {
      var n := |b| - 1;
      SumWithout(a, x, b[..n]);
      assert (a + [x] + b)[..|a| + 1 + n] == a + [x] + b[..n];
      assert (a + b)[..|a| + n] == a + b[..n];
    }
  }

  // A trade outside its coarser candle makes the sum of blocks smaller.
  lemma {:induction false} BlocksSumBelow(ticks: seq<Tick>, symbol: string, fine: nat, m: nat)
    requires fine > 0 && m * fine > 0
    ensures SumOf(Blocks(ticks, symbol, fine, m)) <= SumOf(CoarseTimes(ticks, symbol, m * fine))
    ensures SumOf(Blocks(ticks, symbol, fine, m)) == SumOf(CoarseTimes(ticks, symbol, m * fine)) ==>
      AllInside(ticks, symbol, fine, m)
  {
    if ticks != [] {
      hide OpenTime, Block, LiesInside;
      var n := |ticks| - 1;
      BlocksSumBelow(ticks[..n], symbol, fine, m);
      BlockAgrees(ticks[n].timestampMs, fine, m);
      var bs, cs := Blocks(ticks[..n], symbol, fine, m), CoarseTimes(ticks[..n], symbol, m * fine);
      assert (bs + [Block(ticks[n].timestampMs, fine, m)])[..|bs|] == bs;
      assert (cs + [OpenTime(ticks[n].timestampMs, m * fine)])[..|cs|] == cs;
    }
  }

  // The coarser candle opening at `openTime` has the extent of its finer candles.
  ghost predicate ExtentRollsUp(rows: Rows, symbol: string, fine: nat, m: nat, openTime: int)
    requires m * fine > 0
  {
    openTime % (m * fine) == 0 ==>
      SameExtent(At(rows, CandleKey(symbol, m * fine, openTime)), RollUp(rows, symbol, fine, openTime, m))
  }

  // Every coarser candle has.
  ghost predicate ExtentsRollUp(ticks: seq<Tick>, symbol: string, fine: nat, m: nat)
    requires m * fine > 0
  {
    forall openTime: int :: ExtentRollsUp(AllCandles(ticks), symbol, fine, m, openTime)
  }

  // For a symbol and a pair of resolutions, all coarser candles have the extent of their finer
  // candles exactly if every trade of the symbol was at or after 1970, or before it within the
  // length of a finer candle of a multiple of the coarser one's.
  lemma RollsUpExactlyWhen(ticks: seq<Tick>, symbol: string, fine: nat, m: nat)
    requires Resolutions(fine, m)
    ensures ExtentsRollUp(ticks, symbol, fine, m) <==> AllInside(ticks, symbol, fine, m)
  {
    hide ExtentsRollUp, AllInside;
    if AllInside(ticks, symbol, fine, m) {
      InsideRollsUp(ticks, symbol, fine, m);
    } else if ExtentsRollUp(ticks, symbol, fine, m) {
      RollsUpInside(ticks, symbol, fine, m);
    }
  }

  lemma InsideRollsUp(ticks: seq<Tick>, symbol: string, fine: nat, m: nat)
    requires Resolutions(fine, m) && AllInside(ticks, symbol, fine, m)
    ensures ExtentsRollUp(ticks, symbol, fine, m)
  {
    hide AllInside, RollUp, AllCandles;
    forall openTime: int
      ensures ExtentRollsUp(AllCandles(ticks), symbol, fine, m, openTime)
    {
      if openTime % (m * fine) == 0 {
        CandlesRollUp(ticks, symbol, fine, m, openTime);
      }
    }
  }

  lemma RollsUpInside(ticks: seq<Tick>, symbol: string, fine: nat, m: nat)
    requires Resolutions(fine, m)
    requires ExtentsRollUp(ticks, symbol, fine, m)
    ensures AllInside(ticks, symbol, fine, m)
  {
    hide AllInside, ExtentsRollUp, Blocks, CoarseTimes, SumOf;
    SameTimes(ticks, symbol, fine, m);
    SameSum(Blocks(ticks, symbol, fine, m), CoarseTimes(ticks, symbol, m * fine));
    BlocksSumBelow(ticks, symbol, fine, m);
  }

  lemma SameTimes(ticks: seq<Tick>, symbol: string, fine: nat, m: nat)
    requires Resolutions(fine, m)
    requires ExtentsRollUp(ticks, symbol, fine, m)
    ensures multiset(Blocks(ticks, symbol, fine, m)) == multiset(CoarseTimes(ticks, symbol, m * fine))
  {
    hide RollUp, AllCandles, Blocks, CoarseTimes;
    var bs, cs := Blocks(ticks, symbol, fine, m), CoarseTimes(ticks, symbol, m * fine);
    forall x: int
      ensures multiset(bs)[x] == multiset(cs)[x]
    {
      if x % (m * fine) == 0 {
        assert ExtentRollsUp(AllCandles(ticks), symbol, fine, m, x);
        CoarseCounts(ticks, symbol, m * fine, x);
        RollUpCounts(ticks, symbol, fine, m, x);
      } else {
        OnlyMultiples(ticks, symbol, fine, m, x);
        assert multiset(bs)[x] == 0 && multiset(cs)[x] == 0;
      }
    }
  }

  // ---------- exactly when open and close roll up ----------

  // A roll-up opens with its first finer candle and closes with its last.
  lemma {:induction false} RolledEnds(rows: Rows, symbol: string, fine: nat, openTime: int, n: nat) returns (k: nat, l: nat)
    requires RollUp(rows, symbol, fine, openTime, n).Some?
    ensures k <= l < n
    ensures Finer(rows, symbol, fine, openTime, k).Some? && Finer(rows, symbol, fine, openTime, l).Some?
    ensures forall i: nat :: i < k || l < i < n ==> Finer(rows, symbol, fine, openTime, i).None?
    ensures var rolled := RollUp(rows, symbol, fine, openTime, n).value;
      && rolled.open == Finer(rows, symbol, fine, openTime, k).value.open
      && rolled.close == Finer(rows, symbol, fine, openTime, l).value.close
  {
    hide Finer;
    if RollUp(rows, symbol, fine, openTime, n - 1).Some? {
      k, l := RolledEnds(rows, symbol, fine, openTime, n - 1);
      if Finer(rows, symbol, fine, openTime, n - 1).Some? {
        l := n - 1;
      }
    } else {
      k, l := n - 1, n - 1;
      RolledNone(rows, symbol, fine, openTime, n - 1);
    }
  }

  lemma {:induction false} RolledNone(rows: Rows, symbol: string, fine: nat, openTime: int, n: nat)
    requires RollUp(rows, symbol, fine, openTime, n).None?
    ensures forall i: nat :: i < n ==> Finer(rows, symbol, fine, openTime, i).None?
  {
    hide Finer;
    if n > 0 {
      RolledNone(rows, symbol, fine, openTime, n - 1);
    }
  }

  // In any order of trades, a coarser candle equals its roll-up exactly if its first trade has
  // the price of the first trade of its first finer candle, and its last trade that of the last
  // trade of its last finer candle.
  lemma OpenAndCloseRollUp(ticks: seq<Tick>, symbol: string, fine: nat, m: nat, openTime: int) returns (k: nat, l: nat)
    requires Resolutions(fine, m) && openTime % (m * fine) == 0 && AllInside(ticks, symbol, fine, m)
    requires At(AllCandles(ticks), CandleKey(symbol, m * fine, openTime)).Some?
    ensures var rows := AllCandles(ticks);
      && k <= l < m
      && Finer(rows, symbol, fine, openTime, k).Some? && Finer(rows, symbol, fine, openTime, l).Some?
      && forall i: nat :: i < k || l < i < m ==> Finer(rows, symbol, fine, openTime, i).None?
    ensures var coarse := CandleKey(symbol, m * fine, openTime);
      var all, first := Within(ticks, coarse), Within(ticks, CandleKey(symbol, fine, openTime + k * fine));
      var last := Within(ticks, CandleKey(symbol, fine, openTime + l * fine));
      && all != [] && first != [] && last != []
      && (At(AllCandles(ticks), coarse) == RollUp(AllCandles(ticks), symbol, fine, openTime, m) <==>
          all[0].price == first[0].price && all[|all| - 1].price == last[|last| - 1].price)
  {
    hide AllCandles, RollUp, Within, AllInside;
    CandlesRollUp(ticks, symbol, fine, m, openTime);
    k, l := RolledEnds(AllCandles(ticks), symbol, fine, openTime, m);
    CandlesSummarize(ticks, CandleKey(symbol, m * fine, openTime));
    CandlesSummarize(ticks, CandleKey(symbol, fine, openTime + k * fine));
    CandlesSummarize(ticks, CandleKey(symbol, fine, openTime + l * fine));
  }

  // ---------- examples ----------

  lemma LastTick(ticks: seq<Tick>, t: Tick)
    ensures AllCandles(ticks + [t]) == WithTick(AllCandles(ticks), t, INTERVALS) && AllCandles([]) == map[]
  {
    assert (ticks + [t])[..|ticks|] == ticks;
    hide WithTick;
  }

  // Before 1970 the division rounds the other way: a trade at -90 s is in the minute opening at
  // -60 s but in the five minutes opening at 0.
  lemma NegativeTimeDoesNotRollUp()
    ensures var rows := AllCandles([Tick("KCN/EUR", 1.0, 1.0, -90_000)]);
      && At(rows, CandleKey("KCN/EUR", 300, 0)).Some?
      && RollUp(rows, "KCN/EUR", 60, 0, 5).None?
  {
    var t := Tick("KCN/EUR", 1.0, 1.0, -90_000);
    assert [] + [t] == [t];
    var rows := AllCandles([t]);
    IntervalsDiffer();
    LastTick([], t);
    assert OpenTime(-90_000, 300) == 0 && OpenTime(-90_000, 60) == -60;
    assert INTERVALS[1] == 300;
    TickTouches(map[], t, INTERVALS, CandleKey("KCN/EUR", 300, 0));
    hide WithTick, RollUp, AllCandles;
    forall k: nat | k < 5
      ensures Finer(rows, "KCN/EUR", 60, 0, k) == Finer(map[], "KCN/EUR", 60, 0, k)
    {
      TickTouches(map[], t, INTERVALS, CandleKey("KCN/EUR", 60, 0 + k * 60));
    }
    RollUpUntouched(map[], rows, "KCN/EUR", 60, 0, 5);
    NothingRollsUp("KCN/EUR", 60, 0, 5);
  }

  // Out of time order open and close need not roll up: the later minute trades first.
  lemma OutOfOrderOpenDiffers()
    ensures var ticks := [Tick("KCN/EUR", 1.0, 1.0, 60_000), Tick("KCN/EUR", 2.0, 1.0, 0)];
      var rows := AllCandles(ticks);
      At(rows, CandleKey("KCN/EUR", 300, 0)) != RollUp(rows, "KCN/EUR", 60, 0, 5)
  {
    var late, early := Tick("KCN/EUR", 1.0, 1.0, 60_000), Tick("KCN/EUR", 2.0, 1.0, 0);
    var rows, symbol := AllCandles([late, early]), "KCN/EUR";
    assert [] + [late] == [late] && [late] + [early] == [late, early];
    LastTick([], late);
    LastTick([late], early);
    var first := WithTick(map[], late, INTERVALS);
    IntervalsDiffer();
    assert INTERVALS[0] == 60 && INTERVALS[1] == 300;
    hide AllCandles, WithTick, RollUp;
    var coarse := CandleKey(symbol, 300, 0);
    TickTouches(map[], late, INTERVALS, coarse);
    TickTouches(first, early, INTERVALS, coarse);
    assert At(rows, coarse).value.open == 1.0;
    forall k: nat | k < 5
      ensures Finer(rows, symbol, 60, 0, k)
        == if k == 0 then Some(CandleOf(early)) else if k == 1 then Some(CandleOf(late)) else None
    {
      TickTouches(map[], late, INTERVALS, CandleKey(symbol, 60, 0 + k * 60));
      TickTouches(first, early, INTERVALS, CandleKey(symbol, 60, 0 + k * 60));
    }
    RolledOpenStays(rows, symbol, 60, 0, 5);
  }

  // The roll-up opens with its first finer candle.
  lemma {:induction false} RolledOpenStays(rows: Rows, symbol: string, fine: nat, openTime: int, n: nat)
    requires n > 0 && Finer(rows, symbol, fine, openTime, 0).Some?
    ensures RollUp(rows, symbol, fine, openTime, n).Some?
    ensures RollUp(rows, symbol, fine, openTime, n).value.open == Finer(rows, symbol, fine, openTime, 0).value.open
  {
    hide Finer;
    if n > 1 {
      RolledOpenStays(rows, symbol, fine, openTime, n - 1);
    }
  }
}
