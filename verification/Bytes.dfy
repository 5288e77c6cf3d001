/** Octets and the bit strings they are sent as, most significant bit first. */
module Bytes {

  type Byte = x: int | 0 <= x < 256

  /** Unsigned 8-bit, 16-bit and 32-bit arithmetic wraps around. */
  function Wrap8(x: int): (r: Byte)
    ensures 0 <= x < 256 ==> r == x
  {
    x % 256
  }

  function Wrap16(x: int): (r: nat)
    ensures r < 0x1_0000
    ensures 0 <= x < 0x1_0000 ==> r == x
  {
    x % 0x1_0000
  }

  function Wrap32(x: int): (r: nat)
    ensures r < 0x1_0000_0000
    ensures 0 <= x < 0x1_0000_0000 ==> r == x
  {
    x % 0x1_0000_0000
  }

  /** The signed 32-bit value with the same bits. */
  function AsS32(x: int): (r: int)
    ensures -0x8000_0000 <= r < 0x8000_0000
    ensures -0x8000_0000 <= x < 0x8000_0000 ==> r == x
    ensures x >= 0 ==> r <= x
  {
    (x + 0x8000_0000) % 0x1_0000_0000 - 0x8000_0000
  }

  /** The signed 16-bit value with the same bits. */
  function AsS16(x: int): (r: int)
    ensures -0x8000 <= r < 0x8000
    ensures -0x8000 <= x < 0x8000 ==> r == x
  {
    (x + 0x8000) % 0x1_0000 - 0x8000
  }

  /** Division in C drops the fraction. */
  function Truncated(a: int, b: int): (q: int)
    requires b > 0
  {
    if a >= 0 then a / b else -(-a / b)
  }

  /** Two octets read as one number. */
  function Pair(high: Byte, low: Byte): (n: nat)
    ensures n < 0x1_0000
  {
    (high as int) * 256 + low as int
  }

  function Flatten(parts: seq<seq<Byte>>): seq<Byte> {
    if parts == [] then [] else parts[0] + Flatten(parts[1..])
  }

  lemma {:induction false} FlattenAppend(parts: seq<seq<Byte>>, last: seq<Byte>)
    ensures Flatten(parts + [last]) == Flatten(parts) + last
  {
    if parts == [] {
      assert Flatten([last]) == last + Flatten([]);
    } else {
      assert (parts + [last])[1..] == parts[1..] + [last];
      FlattenAppend(parts[1..], last);
    }
  }

  /** The bits of an octet in transmission order. */
  function BitsOf(b: Byte): (bits: seq<bool>)
    ensures |bits| == 8
  {
    var v := b as bv8;
    [v & 0x80 != 0, v & 0x40 != 0, v & 0x20 != 0, v & 0x10 != 0,
     v & 0x08 != 0, v & 0x04 != 0, v & 0x02 != 0, v & 0x01 != 0]
  }

  function BitStream(m: seq<Byte>): (bits: seq<bool>)
    ensures |bits| == 8 * |m|
  {
    if m == [] then [] else BitsOf(m[0]) + BitStream(m[1..])
  }

  lemma {:induction false} BitStreamConcat(a: seq<Byte>, b: seq<Byte>)
    ensures BitStream(a + b) == BitStream(a) + BitStream(b)
  {
    if a == [] {
      assert a + b == b;
    } else {
      assert (a + b)[1..] == a[1..] + b;
      BitStreamConcat(a[1..], b);
    }
  }

  lemma SameOctet(v: bv8, w: bv8)
    requires (v & 0x80 != 0) == (w & 0x80 != 0) && (v & 0x40 != 0) == (w & 0x40 != 0)
    requires (v & 0x20 != 0) == (w & 0x20 != 0) && (v & 0x10 != 0) == (w & 0x10 != 0)
    requires (v & 0x08 != 0) == (w & 0x08 != 0) && (v & 0x04 != 0) == (w & 0x04 != 0)
    requires (v & 0x02 != 0) == (w & 0x02 != 0) && (v & 0x01 != 0) == (w & 0x01 != 0)
    ensures v == w
  {}

  lemma ThroughNibbles(high: int, low: int)
    requires 0 <= high < 16 && 0 <= low < 16
    ensures ((16 * high + low) as bv8) as int == 16 * high + low
  {}

  lemma ThroughBits(b: int)
    requires 0 <= b < 256
    ensures (b as bv8) as int == b
  {
    ThroughNibbles(b / 16, b % 16);
    assert 16 * (b / 16) + b % 16 == b;
  }

  lemma BitsOfInjective(a: Byte, b: Byte)
    requires BitsOf(a) == BitsOf(b)
    ensures a == b
  {
    var x, y := BitsOf(a), BitsOf(b);
    assert x[0] == y[0] && x[1] == y[1] && x[2] == y[2] && x[3] == y[3];
    assert x[4] == y[4] && x[5] == y[5] && x[6] == y[6] && x[7] == y[7];
    SameOctet(a as bv8, b as bv8);
    ThroughBits(a);
    ThroughBits(b);
  }

  lemma {:induction false} BitStreamInjective(a: seq<Byte>, b: seq<Byte>)
    requires BitStream(a) == BitStream(b)
    ensures a == b
  {
    if a != [] && b != [] {
      assert BitStream(a)[..8] == BitsOf(a[0]) && BitStream(a)[8..] == BitStream(a[1..]);
      assert BitStream(b)[..8] == BitsOf(b[0]) && BitStream(b)[8..] == BitStream(b[1..]);
      BitsOfInjective(a[0], b[0]);
      BitStreamInjective(a[1..], b[1..]);
    }
  }
}
