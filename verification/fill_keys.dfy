// The text under which a fill is settled: both order ids as hyphenated hexadecimal UUIDs, and
// the timestamp in decimal.
module FillKeys {
  // ---------- numbers as text ----------

  function DigitChar(d: nat): char
    requires d < 16
  {
    if d < 10 then ('0' as int + d) as char else ('a' as int + (d - 10)) as char
  }

  function DigitValue(c: char): int {
    if c <= '9' then c as int - '0' as int else c as int - 'a' as int + 10
  }

  lemma DigitRoundTrip(d: nat)
    requires d < 16
    ensures DigitValue(DigitChar(d)) == d && DigitChar(d) != '-' && DigitChar(d) == "0123456789abcdef"[d]
  {
  }

  // The number a text stands for.
  function Value(base: nat, text: string): int {
    if text == [] then 0
    else Value(base, text[..|text| - 1]) * base + DigitValue(text[|text| - 1])
  }

  // 16 to the power n.
  function HexCapacity(n: nat): nat {
    if n == 0 then 1 else 16 * HexCapacity(n - 1)
  }

  // The last n hexadecimal digits.
  function HexText(n: nat, v: nat): (text: string)
    ensures |text| == n
  {
    if n == 0 then [] else HexText(n - 1, v / 16) + [DigitChar(v % 16)]
  }

  lemma {:induction false} HexRoundTrip(n: nat, v: nat)
    requires v < HexCapacity(n)
    ensures Value(16, HexText(n, v)) == v
  {
    if n > 0 {
      HexRoundTrip(n - 1, v / 16);
      DigitRoundTrip(v % 16);
      var text := HexText(n, v);
      assert text[..n - 1] == HexText(n - 1, v / 16);
    }
  }

  function Digits(v: nat): (text: string)
    ensures text != []
  {
    if v < 10 then [DigitChar(v)] else Digits(v / 10) + [DigitChar(v % 10)]
  }

  lemma {:induction false} DigitsRoundTrip(v: nat)
    ensures Value(10, Digits(v)) == v && Digits(v)[0] != '-'
  {
    DigitRoundTrip(v % 10);
    var text := Digits(v);
    if v < 10 {
      assert Value(10, text[..0]) == 0;
    } else {
      DigitsRoundTrip(v / 10);
      assert text[..|text| - 1] == Digits(v / 10);
    }
  }

  function DecimalText(t: int): string {
    if t < 0 then "-" + Digits(-t) else Digits(t)
  }

  lemma DecimalTextDetermines(t: int, u: int)
    ensures DecimalText(t) == DecimalText(u) <==> t == u
  {
    DigitsRoundTrip(if t < 0 then -t else t);
    DigitsRoundTrip(if u < 0 then -u else u);
    hide Digits, Value;
    if t < 0 {
      assert DecimalText(t)[1..] == Digits(-t);
    }
    if u < 0 {
      assert DecimalText(u)[1..] == Digits(-u);
    }
  }

  // ---------- UUIDs ----------

  // Ids are 128-bit numbers.
  predicate IsUuid(id: nat) {
    id < HexCapacity(32)
  }

  function UuidText(id: nat): (text: string)
    ensures |text| == 36
  {
    var hex := HexText(32, id);
    hex[..8] + "-" + hex[8..12] + "-" + hex[12..16] + "-" + hex[16..20] + "-" + hex[20..]
  }

  lemma UuidTextParts(id: nat)
    ensures var hex, text := HexText(32, id), UuidText(id);
      && text[8] == '-' && text[13] == '-' && text[18] == '-' && text[23] == '-'
      && hex == text[..8] + text[9..13] + text[14..18] + text[19..23] + text[24..]
  {
    hide HexText;
    var hex, text := HexText(32, id), UuidText(id);
    assert text[..8] == hex[..8] && text[9..13] == hex[8..12] && text[14..18] == hex[12..16];
    assert text[19..23] == hex[16..20] && text[24..] == hex[20..];
    assert hex == hex[..8] + hex[8..12] + hex[12..16] + hex[16..20] + hex[20..];
  }

  lemma UuidTextDetermines(a: nat, b: nat)
    requires IsUuid(a) && IsUuid(b)
    ensures UuidText(a) == UuidText(b) <==> a == b
  {
    hide HexCapacity, HexText, UuidText, Value;
    HexRoundTrip(32, a);
    HexRoundTrip(32, b);
    UuidTextParts(a);
    UuidTextParts(b);
  }

  // ---------- the key ----------

  function KeyText(buyId: nat, sellId: nat, timestamp: int): string {
    UuidText(buyId) + "-" + UuidText(sellId) + "-" + DecimalText(timestamp)
  }

  lemma KeyTextParts(buyId: nat, sellId: nat, timestamp: int)
    ensures var text := KeyText(buyId, sellId, timestamp);
      && |text| >= 74 && text[..36] == UuidText(buyId) && text[37..73] == UuidText(sellId)
      && text[36] == '-' && text[73] == '-' && text[74..] == DecimalText(timestamp)
  {
    hide UuidText, DecimalText;
  }

  // The text determines both ids and the timestamp.
  lemma KeyTextDetermines(b: nat, s: nat, t: int, b': nat, s': nat, t': int)
    requires IsUuid(b) && IsUuid(s) && IsUuid(b') && IsUuid(s')
    ensures KeyText(b, s, t) == KeyText(b', s', t') <==> b == b' && s == s' && t == t'
  {
    hide KeyText, UuidText, DecimalText, IsUuid;
    KeyTextParts(b, s, t);
    KeyTextParts(b', s', t');
    UuidTextDetermines(b, b');
    UuidTextDetermines(s, s');
    DecimalTextDetermines(t, t');
  }
}
