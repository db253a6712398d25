// Bytes and little-endian integers.
module UdpWire {
  type byte = x: int | 0 <= x < 256

  // 256 to the power n: one more than the largest n-byte integer.
  function Capacity(n: nat): nat {
    if n == 0 then 1 else 256 * Capacity(n - 1)
  }

  const U16 := 0x1_0000
  const U32 := 0x1_0000_0000
  const U64 := 0x1_0000_0000_0000_0000

  // A u64 counter wraps around.
  function Wrap64(x: nat): nat {
    x % U64
  }

  lemma WrapFits(x: nat)
    ensures Wrap64(x) < U64
    ensures x < U64 ==> Wrap64(x) == x
  {
  }

  // u64 subtraction, as it is without overflow checks.
  function Sub64(a: nat, b: nat): nat {
    (a - b) % U64
  }

  lemma SubFits(a: nat, b: nat)
    requires b <= a < U64
    ensures Sub64(a, b) == a - b
  {
  }

  lemma WrapAdds(a: nat, b: nat)
    ensures Wrap64(Wrap64(a) + b) == Wrap64(a + b)
  {
    assert (a + b) % U64 == (a % U64 + b) % U64;
  }

  lemma CapacityOfWords()
    ensures Capacity(2) == U16 && Capacity(4) == U32 && Capacity(8) == U64
  {
    assert Capacity(1) == 256;
    assert Capacity(2) == 256 * 256;
    assert Capacity(3) == 256 * Capacity(2);
    assert Capacity(4) == 256 * Capacity(3);
    assert Capacity(5) == 256 * Capacity(4);
    assert Capacity(6) == 256 * Capacity(5);
    assert Capacity(7) == 256 * Capacity(6);
    assert Capacity(8) == 256 * Capacity(7);
  }

  // to_le_bytes of an n-byte integer.
  function ToLittleEndian(n: nat, v: nat): (s: seq<byte>)
    ensures |s| == n
  {
    if n == 0 then [] else [v % 256] + ToLittleEndian(n - 1, v / 256)
  }

  // from_le_bytes
  function FromLittleEndian(s: seq<byte>): nat {
    if s == [] then 0 else s[0] + 256 * FromLittleEndian(s[1..])
  }

  lemma {:induction false} LittleEndianRoundTrip(n: nat, v: nat)
    requires v < Capacity(n)
    ensures FromLittleEndian(ToLittleEndian(n, v)) == v
  {
    if n > 0 {
      LittleEndianRoundTrip(n - 1, v / 256);
      assert ToLittleEndian(n, v)[1..] == ToLittleEndian(n - 1, v / 256);
    }
  }

  lemma {:induction false} BytesRoundTrip(s: seq<byte>)
    ensures FromLittleEndian(s) < Capacity(|s|)
    ensures ToLittleEndian(|s|, FromLittleEndian(s)) == s
  {
    if s != [] {
      BytesRoundTrip(s[1..]);
      var v := FromLittleEndian(s);
      assert v % 256 == s[0] && v / 256 == FromLittleEndian(s[1..]);
      assert s == [s[0]] + s[1..];
    }
  }
}
