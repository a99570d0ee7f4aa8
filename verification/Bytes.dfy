/** Bytes and big-endian numbers. */
module Bytes {
  type Byte = b: int | 0 <= b < 256

  const UINT16: nat := 0x1_0000
  const UINT32: nat := 0x1_0000_0000

  /** PutUint16 of a 16-bit value. */
  function U16(n: nat): (s: seq<Byte>)
    requires n < UINT16
    ensures |s| == 2
  {
    [n / 256, n % 256]
  }

  function FromU16(s: seq<Byte>): (n: nat)
    requires |s| == 2
    ensures n < UINT16
  {
    (s[0] as int) * 256 + s[1] as int
  }

  lemma U16RoundTrip(n: nat)
    requires n < UINT16
    ensures FromU16(U16(n)) == n
  {}

  /** PutUint32 of `uint32(n)`: the conversion drops everything above 32 bits. */
  function U32(n: nat): (s: seq<Byte>)
    ensures |s| == 4
  {
    [n / 0x100_0000 % 256, n / 0x1_0000 % 256, n / 256 % 256, n % 256]
  }

  function FromU32(s: seq<Byte>): (n: nat)
    requires |s| == 4
    ensures n < UINT32
  {
    (((s[0] as int) * 256 + s[1] as int) * 256 + s[2] as int) * 256 + s[3] as int
  }

  lemma U32RoundTrip(n: nat)
    ensures FromU32(U32(n)) == n % UINT32
  {
    var q := n / 256;
    var r := q / 256;
    assert n / 0x1_0000 == r && n / 0x100_0000 == r / 256;
    assert n == 256 * q + n % 256 && q == 256 * r + q % 256 && r == 256 * (r / 256) + r % 256;
    var k := r / 256 / 256;
    assert r / 256 == 256 * k + r / 256 % 256;
    assert n == k * UINT32 + FromU32(U32(n));
  }

  lemma Digit(q: nat, r: Byte)
    ensures (q * 256 + r as int) / 256 == q && (q * 256 + r as int) % 256 == r
  {}

  lemma Shift(n: nat)
    ensures n / 0x1_0000 == n / 256 / 256 && n / 0x100_0000 == n / 256 / 256 / 256
  {}

  lemma FromU32Injective(s: seq<Byte>)
    requires |s| == 4
    ensures U32(FromU32(s)) == s
  {
    var x: nat := s[0];
    var y: nat := x * 256 + s[1] as int;
    var z: nat := y * 256 + s[2] as int;
    Digit(x, s[1]);
    Digit(y, s[2]);
    Digit(z, s[3]);
    Shift(FromU32(s));
  }

  /** The order of byte strings by their first difference. */
  predicate Before(s: seq<Byte>, t: seq<Byte>)
    requires |s| == |t|
  {
    s != [] && (s[0] < t[0] || (s[0] == t[0] && Before(s[1..], t[1..])))
  }

  /** Big-endian: numbers are ordered as the strings that read as them. */
  lemma FromU32Order(s: seq<Byte>, t: seq<Byte>)
    requires |s| == 4 && |t| == 4
    ensures FromU32(s) < FromU32(t) <==> Before(s, t)
  {
    assert s == [s[0], s[1], s[2], s[3]] && t == [t[0], t[1], t[2], t[3]];
    assert Before(s[3..], t[3..]) <==> s[3] < t[3];
    assert s[2..][1..] == s[3..] && t[2..][1..] == t[3..];
    assert Before(s[2..], t[2..]) <==> s[2] < t[2] || (s[2] == t[2] && s[3] < t[3]);
    assert s[1..][1..] == s[2..] && t[1..][1..] == t[2..];
  }

  lemma FromU16Order(s: seq<Byte>, t: seq<Byte>)
    requires |s| == 2 && |t| == 2
    ensures FromU16(s) < FromU16(t) <==> Before(s, t)
  {
    assert Before(s[1..], t[1..]) <==> s[1] < t[1];
  }
}
