module Crc32 {
  import opened Bytes

  const POLYNOMIAL: bv32 := 0x04C1_1DB7
  const TOP: bv32 := 0x8000_0000
  const PRESET: bv32 := 0xFFFF_FFFF

  /* ---------- The shift register of ISO/IEC 13818-1, Annex A ---------- */

  /** Addition over GF(2), bit by bit. */
  function Xor(x: bv32, y: bv32): bv32 { x ^ y }

  /** One clock of the register with nothing fed in. */
  function Clock(reg: bv32): bv32 {
    if reg & TOP != 0 then (reg << 1) ^ POLYNOMIAL else reg << 1
  }

  /** One clock with a message bit added to the stage about to leave. */
  function ClockIn(reg: bv32, bit: bool): bv32 {
    Clock(if bit then Xor(reg, TOP) else reg)
  }

  function Shift(reg: bv32, bits: seq<bool>): bv32
    decreases |bits|
  {
    if bits == [] then reg else Shift(ClockIn(reg, bits[0]), bits[1..])
  }

  function Idle(reg: bv32, n: nat): bv32
    decreases n
  {
    if n == 0 then reg else Idle(Clock(reg), n - 1)
  }

  function Crc(m: seq<Byte>): bv32 {
    Shift(PRESET, BitStream(m))
  }

  /* ---------- Clocking is linear and invertible over GF(2) ---------- */

  predicate Has(reg: bv32, stage: bv32) { reg & stage != 0 }

  lemma LinearBoth(x: bv32, y: bv32)
    requires x & TOP != 0 && y & TOP != 0
    ensures Clock(x ^ y) == Clock(x) ^ Clock(y)
  {}

  lemma LinearLeft(x: bv32, y: bv32)
    requires x & TOP != 0 && y & TOP == 0
    ensures Clock(x ^ y) == Clock(x) ^ Clock(y)
  {}

  lemma LinearNeither(x: bv32, y: bv32)
    requires x & TOP == 0 && y & TOP == 0
    ensures Clock(x ^ y) == Clock(x) ^ Clock(y)
  {}

  lemma XorCommutes(x: bv32, y: bv32)
    ensures Xor(x, y) == Xor(y, x)
  {}

  lemma XorAssociates(x: bv32, y: bv32, z: bv32)
    ensures Xor(Xor(x, y), z) == Xor(x, Xor(y, z))
  {}

  lemma XorCancels(x: bv32, y: bv32)
    ensures Xor(Xor(x, y), y) == x
  {}

  lemma XorZero(x: bv32, y: bv32)
    ensures (Xor(x, y) == 0) == (x == y)
  {}

  lemma ClockLinear(x: bv32, y: bv32)
    ensures Clock(Xor(x, y)) == Xor(Clock(x), Clock(y))
  {
    if Has(x, TOP) {
      if Has(y, TOP) { LinearBoth(x, y); } else { LinearLeft(x, y); }
    } else if Has(y, TOP) {
      LinearLeft(y, x);
      XorCommutes(x, y);
      XorCommutes(Clock(x), Clock(y));
    } else {
      LinearNeither(x, y);
    }
  }

  lemma ClockNonzero(x: bv32)
    requires Clock(x) == 0
    ensures x == 0
  {}

  lemma ClockInjective(x: bv32, y: bv32)
    requires Clock(x) == Clock(y)
    ensures x == y
  {
    ClockLinear(x, y);
    XorZero(Clock(x), Clock(y));
    ClockNonzero(Xor(x, y));
    XorZero(x, y);
  }

  lemma {:induction false} IdleLinear(x: bv32, y: bv32, n: nat)
    ensures Idle(Xor(x, y), n) == Xor(Idle(x, n), Idle(y, n))
    decreases n
  {
    if n > 0 {
      ClockLinear(x, y);
      IdleLinear(Clock(x), Clock(y), n - 1);
    }
  }

  lemma {:induction false} IdleInjective(x: bv32, y: bv32, n: nat)
    requires Idle(x, n) == Idle(y, n)
    ensures x == y
    decreases n
  {
    if n > 0 {
      IdleInjective(Clock(x), Clock(y), n - 1);
      ClockInjective(x, y);
    }
  }

  lemma {:induction false} IdleLast(reg: bv32, n: nat)
    ensures Idle(reg, n + 1) == Clock(Idle(reg, n))
    decreases n
  {
    if n > 0 { IdleLast(Clock(reg), n - 1); }
  }

  lemma {:induction false} ShiftConcat(reg: bv32, a: seq<bool>, b: seq<bool>)
    ensures Shift(reg, a + b) == Shift(Shift(reg, a), b)
    decreases |a|
  {
    if a == [] {
      assert a + b == b;
    } else {
      assert (a + b)[1..] == a[1..] + b;
      ShiftConcat(ClockIn(reg, a[0]), a[1..], b);
    }
  }

  lemma {:induction false} ShiftInjective(x: bv32, y: bv32, bits: seq<bool>)
    requires Shift(x, bits) == Shift(y, bits)
    ensures x == y
    decreases |bits|
  {
    if bits != [] {
      ShiftInjective(ClockIn(x, bits[0]), ClockIn(y, bits[0]), bits[1..]);
      ClockInInjective(x, y, bits[0]);
    }
  }

  lemma ClockInInjective(x: bv32, y: bv32, bit: bool)
    requires ClockIn(x, bit) == ClockIn(y, bit)
    ensures x == y
  {
    if bit {
      ClockInjective(Xor(x, TOP), Xor(y, TOP));
      XorCancels(x, TOP);
      XorCancels(y, TOP);
    } else {
      ClockInjective(x, y);
    }
  }

  /* ---------- A block of at most 32 bits acts as one word ---------- */

  /** The stage from which a bit reaches the top after k idle clocks. */
  function Stage(k: nat): bv32
    requires k < 32
  {
    TOP >> k
  }

  lemma StageClock(k: nat)
    requires k < 31
    ensures Clock(Stage(k + 1)) == Stage(k)
  {}

  lemma {:induction false} StageReachesTop(k: nat)
    requires k < 32
    ensures Idle(Stage(k), k) == TOP
  {
    if k > 0 {
      StageClock(k - 1);
      StageReachesTop(k - 1);
    }
  }

  /** The block as a left-aligned word. */
  function Word(w: seq<bool>): bv32
    requires |w| <= 32
    decreases |w|
  {
    if w == [] then 0
    else
      var n := |w| - 1;
      if w[n] then Xor(Word(w[..n]), Stage(n)) else Word(w[..n])
  }

  lemma XorNothing(x: bv32)
    ensures Xor(x, 0) == x
  {}

  lemma {:induction false} BlockIsWord(reg: bv32, w: seq<bool>)
    requires |w| <= 32
    ensures Shift(reg, w) == Idle(Xor(reg, Word(w)), |w|)
    decreases |w|
  {
    if w == [] {
      XorNothing(reg);
    } else {
      var n := |w| - 1;
      assert w == w[..n] + [w[n]];
      ShiftConcat(reg, w[..n], [w[n]]);
      BlockIsWord(reg, w[..n]);
      LastBit(reg, Word(w[..n]), n, w[n]);
    }
  }

  lemma LastBit(reg: bv32, word: bv32, n: nat, bit: bool)
    requires n < 32
    ensures Shift(Idle(Xor(reg, word), n), [bit]) == Idle(Xor(reg, if bit then Xor(word, Stage(n)) else word), n + 1)
  {
    assert [bit][1..] == [];
    var x := Xor(reg, word);
    if bit {
      XorAssociates(reg, word, Stage(n));
      IdleLinear(x, Stage(n), n);
      StageReachesTop(n);
      IdleLast(Xor(x, Stage(n)), n);
    } else {
      IdleLast(x, n);
    }
  }

  lemma StagesDisjoint(n: nat, k: nat)
    requires n < 32 && k < 32 && n != k
    ensures Stage(n) & Stage(k) == 0
  {}

  lemma StageIsOneBit(k: nat)
    requires k < 32
    ensures Stage(k) != 0 && Stage(k) & (Stage(k) - 1) == 0
  {}

  lemma MaskApart(x: bv32, s: bv32, t: bv32)
    requires s & t == 0
    ensures (x ^ s) & t == x & t
  {}

  lemma MaskOther(x: bv32, s: bv32, t: bv32)
    requires s & t == 0
    ensures Has(Xor(x, s), t) == Has(x, t)
  {
    MaskApart(x, s, t);
  }

  lemma MaskSame(x: bv32, s: bv32)
    requires s != 0 && s & (s - 1) == 0
    ensures Has(Xor(x, s), s) == !Has(x, s)
  {}

  lemma StageTest(x: bv32, n: nat, k: nat)
    requires n < 32 && k < 32
    ensures Has(Xor(x, Stage(n)), Stage(k)) == (if n == k then !Has(x, Stage(k)) else Has(x, Stage(k)))
  {
    hide Stage, Has, Xor;
    if n == k {
      StageIsOneBit(k);
      MaskSame(x, Stage(k));
    } else {
      StagesDisjoint(n, k);
      MaskOther(x, Stage(n), Stage(k));
    }
  }

  lemma NoStage(k: nat)
    requires k < 32
    ensures !Has(0, Stage(k))
  {}

  lemma {:induction false} WordBit(w: seq<bool>, k: nat)
    requires |w| <= 32 && k < 32
    ensures Has(Word(w), Stage(k)) == (k < |w| && w[k])
    decreases |w|
  {
    if w == [] {
      NoStage(k);
    } else {
      var n := |w| - 1;
      WordBit(w[..n], k);
      StageTest(Word(w[..n]), n, k);
    }
  }

  lemma WordInjective(v: seq<bool>, w: seq<bool>)
    requires |v| == |w| <= 32 && Word(v) == Word(w)
    ensures v == w
  {
    forall k | 0 <= k < |v| ensures v[k] == w[k] {
      WordBit(v, k);
      WordBit(w, k);
    }
  }

  /* ---------- What the checksum detects ---------- */

  /** Replacing at most 32 consecutive bits by others always moves the register elsewhere. */
  lemma BurstChangesRegister(reg: bv32, before: seq<bool>, v: seq<bool>, w: seq<bool>, after: seq<bool>)
    requires |v| == |w| <= 32 && v != w
    ensures Shift(reg, before + v + after) != Shift(reg, before + w + after)
  {
    if Shift(reg, before + v + after) == Shift(reg, before + w + after) {
      ShiftConcat(reg, before + v, after);
      ShiftConcat(reg, before + w, after);
      ShiftInjective(Shift(reg, before + v), Shift(reg, before + w), after);
      ShiftConcat(reg, before, v);
      ShiftConcat(reg, before, w);
      var mid := Shift(reg, before);
      BlockIsWord(mid, v);
      BlockIsWord(mid, w);
      IdleInjective(Xor(mid, Word(v)), Xor(mid, Word(w)), |v|);
      XorCommutes(mid, Word(v));
      XorCommutes(mid, Word(w));
      XorCancels(Word(v), mid);
      XorCancels(Word(w), mid);
      WordInjective(v, w);
    }
  }

  /** A corruption confined to four consecutive octets of a sound message never goes unnoticed. */
  lemma FourByteCorruptionDetected(before: seq<Byte>, good: seq<Byte>, bad: seq<Byte>, after: seq<Byte>)
    requires |good| == |bad| <= 4 && good != bad
    requires Crc(before + good + after) == 0
    ensures Crc(before + bad + after) != 0
  {
    Spread(before, good, after);
    Spread(before, bad, after);
    if BitStream(good) == BitStream(bad) { BitStreamInjective(good, bad); }
    BurstChangesRegister(PRESET, BitStream(before), BitStream(good), BitStream(bad), BitStream(after));
  }

  lemma Spread(a: seq<Byte>, b: seq<Byte>, c: seq<Byte>)
    ensures BitStream(a + b + c) == BitStream(a) + BitStream(b) + BitStream(c)
  {
    BitStreamConcat(a + b, c);
    BitStreamConcat(a, b);
  }

  /* ---------- An octet at a time, through the coefficient table ---------- */

  lemma WordStep(w: seq<bool>, k: nat)
    requires k < |w| <= 32
    ensures Word(w[..k + 1]) == if w[k] then Xor(Word(w[..k]), Stage(k)) else Word(w[..k])
  {
    assert w[..k + 1][..k] == w[..k];
  }
  lemma FirstHalf(b: Byte)
    ensures Word(BitsOf(b)[..4]) == (((b as bv8) & 0xF0) as bv32) << 24
  {
    var w := BitsOf(b);
    assert w[..0] == [];
    WordStep(w, 0); WordStep(w, 1); WordStep(w, 2); WordStep(w, 3);
    FirstStages();
    UpperHalf(b as bv8, Word(w[..1]), Word(w[..2]), Word(w[..3]), Word(w[..4]));
  }
  lemma OctetWord(b: Byte)
    ensures Word(BitsOf(b)) == AtTop(b as bv8)
  {
    var w := BitsOf(b);
    assert w[..8] == w;
    FirstHalf(b);
    WordStep(w, 4); WordStep(w, 5); WordStep(w, 6); WordStep(w, 7);
    FirstStages();
    LowerHalf(b as bv8, Word(w[..4]), Word(w[..5]), Word(w[..6]), Word(w[..7]), Word(w[..8]));
  }
  lemma FirstStages()
    ensures Stage(0) == 0x8000_0000 && Stage(1) == 0x4000_0000 && Stage(2) == 0x2000_0000 && Stage(3) == 0x1000_0000
    ensures Stage(4) == 0x0800_0000 && Stage(5) == 0x0400_0000 && Stage(6) == 0x0200_0000 && Stage(7) == 0x0100_0000
  {}
  lemma UpperHalf(v: bv8, a: bv32, b: bv32, c: bv32, d: bv32)
    requires a == if v & 0x80 != 0 then Xor(0, 0x8000_0000) else 0
    requires b == if v & 0x40 != 0 then Xor(a, 0x4000_0000) else a
    requires c == if v & 0x20 != 0 then Xor(b, 0x2000_0000) else b
    requires d == if v & 0x10 != 0 then Xor(c, 0x1000_0000) else c
    ensures d == ((v & 0xF0) as bv32) << 24
  {}
  lemma LowerHalf(v: bv8, d: bv32, e: bv32, f: bv32, g: bv32, h: bv32)
    requires d == ((v & 0xF0) as bv32) << 24
    requires e == if v & 0x08 != 0 then Xor(d, 0x0800_0000) else d
    requires f == if v & 0x04 != 0 then Xor(e, 0x0400_0000) else e
    requires g == if v & 0x02 != 0 then Xor(f, 0x0200_0000) else f
    requires h == if v & 0x01 != 0 then Xor(g, 0x0100_0000) else g
    ensures h == (v as bv32) << 24
  {}

  function Low24(reg: bv32): bv32 { reg & 0x00FF_FFFF }

  function Left8(reg: bv32): bv32 { reg << 8 }

  function AtTop(v: bv8): bv32 { (v as bv32) << 24 }

  function TopOctet(reg: bv32): bv8 { ((reg >> 24) & 0xFF) as bv8 }

  function Coefficient(index: bv8): bv32 {
    Idle(AtTop(index), 8)
  }

  function Index(reg: bv32, v: bv8): bv8 {
    (((reg >> 24) ^ (v as bv32)) & 0xFF) as bv8
  }

  function Twice(reg: bv32): bv32 { reg << 1 }

  function Twice4(reg: bv32): bv32 { Twice(Twice(Twice(Twice(reg)))) }

  lemma Slide(x: bv32)
    requires x & TOP == 0
    ensures Clock(x) == Twice(x)
  {}

  lemma Slide4(x: bv32, n: nat)
    requires x & 0xF000_0000 == 0
    ensures Idle(x, n + 4) == Idle(Twice4(x), n)
  {
    NoTops(x);
    Slide(x);
    Slide(Twice(x));
    Slide(Twice(Twice(x)));
    Slide(Twice(Twice(Twice(x))));
    hide Clock, Twice;
    assert Idle(x, n + 4) == Idle(Twice(x), n + 3) == Idle(Twice(Twice(x)), n + 2);
    assert Idle(Twice(Twice(x)), n + 2) == Idle(Twice(Twice(Twice(x))), n + 1);
  }

  lemma NoTops(x: bv32)
    requires x & 0xF000_0000 == 0
    ensures x & TOP == 0 && Twice(x) & TOP == 0 && Twice(Twice(x)) & TOP == 0 && Twice(Twice(Twice(x))) & TOP == 0
  {}

  lemma LowMoves(reg: bv32)
    ensures Low24(reg) & 0xF000_0000 == 0 && Twice4(Low24(reg)) & 0xF000_0000 == 0
    ensures Twice4(Twice4(Low24(reg))) == Left8(reg)
  {}

  lemma IdleLow(reg: bv32)
    ensures Idle(Low24(reg), 8) == Left8(reg)
  {
    LowMoves(reg);
    Slide4(Low24(reg), 4);
    Slide4(Twice4(Low24(reg)), 0);
  }

  lemma SplitRegister(reg: bv32, v: bv8)
    ensures Xor(reg, AtTop(v)) == Xor(Low24(reg), AtTop(Index(reg, v)))
  {}

  /** One table step does the work of eight clocks. */
  lemma TableStep(reg: bv32, b: Byte)
    ensures Shift(reg, BitsOf(b)) == Xor(Left8(reg), Coefficient(Index(reg, b as bv8)))
  {
    BlockIsWord(reg, BitsOf(b));
    OctetWord(b);
    SplitRegister(reg, b as bv8);
    IdleLinear(Low24(reg), AtTop(Index(reg, b as bv8)), 8);
    IdleLow(reg);
  }

  lemma CrcStep(reg: bv32, m: seq<Byte>, k: nat)
    requires k < |m|
    ensures Shift(reg, BitStream(m[..k + 1])) == Shift(Shift(reg, BitStream(m[..k])), BitsOf(m[k]))
  {
    assert m[..k + 1] == m[..k] + [m[k]];
    BitStreamConcat(m[..k], [m[k]]);
    assert [m[k]][1..] == [];
    assert BitStream([m[k]]) == BitsOf(m[k]);
    ShiftConcat(reg, BitStream(m[..k]), BitsOf(m[k]));
  }

  /* ---------- The four octets that bring the register to zero ---------- */

  function LowOctet(reg: bv32): bv8 { (reg & 0xFF) as bv8 }

  function BigEndian(reg: bv32): (c: seq<Byte>)
    ensures |c| == 4
  {
    [LowOctet(reg >> 24) as int, LowOctet(reg >> 16) as int, LowOctet(reg >> 8) as int, LowOctet(reg) as int]
  }

  lemma OctetsFromTheTop(reg: bv32)
    ensures LowOctet(reg >> 24) == TopOctet(reg) && LowOctet(reg >> 16) == TopOctet(reg << 8)
    ensures LowOctet(reg >> 8) == TopOctet(reg << 16) && LowOctet(reg) == TopOctet(reg << 24)
  {}

  lemma ThroughInt(v: bv8)
    ensures (v as int) as bv8 == v
  {}

  lemma OwnIndex(reg: bv32)
    ensures Index(reg, TopOctet(reg)) == 0
  {}

  lemma NoCoefficient()
    ensures Coefficient(0) == 0
  {}

  lemma OwnTopOctet(reg: bv32)
    ensures Shift(reg, BitsOf(TopOctet(reg) as int)) == Left8(reg)
  {
    ThroughInt(TopOctet(reg));
    TableStep(reg, TopOctet(reg) as int);
    OwnIndex(reg);
    NoCoefficient();
    XorNothing(Left8(reg));
  }

  lemma LeftShifts(reg: bv32)
    ensures Left8(reg) == reg << 8 && Left8(reg << 8) == reg << 16 && Left8(reg << 16) == reg << 24
    ensures Left8(reg << 24) == 0
  {}

  lemma NothingShifted(reg: bv32)
    ensures Shift(reg, BitStream([])) == reg
  {}

  lemma OwnOctetsClear(reg: bv32)
    ensures Shift(reg, BitStream(BigEndian(reg))) == 0
  {
    NothingShifted(reg);
    hide Shift, BitStream, BitsOf, Left8, TopOctet, LowOctet;
    var c := BigEndian(reg);
    assert c[..0] == [] && c[..4] == c;
    var r1, r2, r3 := reg << 8, reg << 16, reg << 24;
    LeftShifts(reg);
    OctetsFromTheTop(reg);
    OwnTopOctet(reg);
    CrcStep(reg, c, 0);
    OwnTopOctet(r1);
    CrcStep(reg, c, 1);
    OwnTopOctet(r2);
    CrcStep(reg, c, 2);
    OwnTopOctet(r3);
    CrcStep(reg, c, 3);
  }

  /** A message checks out exactly when its last four octets are the big-endian CRC of the rest. */
  lemma ZeroIffOwnCrc(m: seq<Byte>, tail: seq<Byte>)
    requires |tail| == 4
    ensures Crc(m + tail) == 0 <==> tail == BigEndian(Crc(m))
  {
    BitStreamConcat(m, tail);
    ShiftConcat(PRESET, BitStream(m), BitStream(tail));
    var reg := Crc(m);
    var own := BigEndian(reg);
    OwnOctetsClear(reg);
    if tail != own {
      if BitStream(tail) == BitStream(own) { BitStreamInjective(tail, own); }
      BurstChangesRegister(reg, [], BitStream(tail), BitStream(own), []);
      Alone(BitStream(tail));
      Alone(BitStream(own));
    }
  }

  lemma Alone(bits: seq<bool>)
    ensures [] + bits + [] == bits
  {}

  /* ---------- The register computes a remainder ---------- */

  function Zeros(n: nat): (bits: seq<bool>)
    ensures |bits| == n
  {
    seq(n, _ => false)
  }

  /**
   * Long division: each message bit enters at the low end and the divisor is taken away from whatever leaves at the
   * top.
   */
  function Remainder(partial: bv32, bits: seq<bool>): bv32
    decreases |bits|
  {
    if bits == [] then partial
    else Remainder(if bits[0] then Xor(Clock(partial), 1) else Clock(partial), bits[1..])
  }

  lemma {:induction false} RemainderOfZeros(partial: bv32, n: nat)
    ensures Remainder(partial, Zeros(n)) == Idle(partial, n)
    decreases n
  {
    if n > 0 {
      assert Zeros(n)[1..] == Zeros(n - 1);
      RemainderOfZeros(Clock(partial), n - 1);
    }
  }

  lemma LastStage()
    ensures Stage(31) == 1
  {}

  lemma {:induction false} ShiftIsRemainder(partial: bv32, bits: seq<bool>)
    ensures Shift(Idle(partial, 32), bits) == Remainder(partial, bits + Zeros(32))
    decreases |bits|
  {
    if bits == [] {
      assert bits + Zeros(32) == Zeros(32);
      RemainderOfZeros(partial, 32);
    } else {
      assert (bits + Zeros(32))[1..] == bits[1..] + Zeros(32);
      var next := Clock(partial);
      IdleLast(partial, 32);
      assert Idle(partial, 33) == Idle(next, 32);
      if bits[0] {
        ClockLinear(Idle(partial, 32), TOP);
        LastStage();
        StageReachesTop(31);
        IdleLast(1, 31);
        IdleLinear(next, 1, 32);
        ShiftIsRemainder(Xor(next, 1), bits[1..]);
      } else {
        ShiftIsRemainder(next, bits[1..]);
      }
    }
  }

  /** The register one clock earlier. */
  function Rewind(reg: bv32): bv32 {
    if reg & 1 != 0 then ((reg ^ POLYNOMIAL) >> 1) | TOP else reg >> 1
  }

  function RewindAll(reg: bv32, n: nat): bv32
    decreases n
  {
    if n == 0 then reg else RewindAll(Rewind(reg), n - 1)
  }

  lemma RewindThenClock(reg: bv32)
    ensures Clock(Rewind(reg)) == reg
  {}

  lemma {:induction false} RewindThenIdle(reg: bv32, n: nat)
    ensures Idle(RewindAll(reg, n), n) == reg
    decreases n
  {
    if n > 0 {
      RewindThenIdle(Rewind(reg), n - 1);
      IdleLast(RewindAll(reg, n), n - 1);
      RewindThenClock(reg);
    }
  }

  /** The checksum is the remainder of dividing the message, with 32 zeros appended, by the generator. */
  lemma CrcIsRemainder(m: seq<Byte>)
    ensures Crc(m) == Remainder(RewindAll(PRESET, 32), BitStream(m) + Zeros(32))
  {
    RewindThenIdle(PRESET, 32);
    ShiftIsRemainder(RewindAll(PRESET, 32), BitStream(m));
  }

  /* ---------- The checksum routine with its lazily built table ---------- */

  ghost predicate Built(table: seq<bv32>, n: nat) {
    |table| == 256 && forall i: bv8 | i as int < n :: table[i as int] == Coefficient(i)
  }

  lemma Extended(table: seq<bv32>, coef: nat)
    requires coef < 256 && Built(table, coef) && table[coef] == Coefficient(coef as bv8)
    ensures Built(table, coef + 1)
  {
    forall i: bv8 | i as int < coef + 1 ensures table[i as int] == Coefficient(i) {
      ThroughInt(i);
    }
  }

  lemma StepThroughTable(table: seq<bv32>, m: seq<Byte>, k: nat)
    requires |table| == 256 && Built(table, 256) && k < |m|
    ensures var reg := Shift(PRESET, BitStream(m[..k]));
            Xor(Left8(reg), table[Index(reg, m[k] as bv8) as int]) == Shift(PRESET, BitStream(m[..k + 1]))
  {
    hide Shift, BitStream, Xor, Left8, Index, Coefficient;
    var reg := Shift(PRESET, BitStream(m[..k]));
    CrcStep(PRESET, m, k);
    TableStep(reg, m[k]);
    assert table[Index(reg, m[k] as bv8) as int] == Coefficient(Index(reg, m[k] as bv8));
  }

  class Checksum {
    var table: array<bv32>

    /** Either the table still waits to be built, which a non-zero first entry marks, or it is complete. */
    ghost predicate Valid()
      reads this, table
    {
      && table.Length == 256
      && (table[0] == 0 ==> Built(table[..], 256))
    }

    constructor ()
      ensures Valid() && fresh(table)
    {
      table := new bv32[256](i => if i == 0 then 1 else 0);
    }

    method BuildTable()
      requires table.Length == 256
      modifies table
      ensures Valid() && table[0] == 0
    {
      for coef := 0 to 256
        invariant Built(table[..], coef)
      {
        var coef32 := AtTop(coef as bv8);
        for n := 0 to 8
          invariant Idle(coef32, 8 - n) == Coefficient(coef as bv8)
          invariant Built(table[..], coef)
        {
          ghost var before := coef32;
          if Has(coef32, TOP) {
            coef32 := Xor(coef32 << 1, POLYNOMIAL);
          } else {
            coef32 := coef32 << 1;
          }
          assert coef32 == Clock(before);
        }
        table[coef] := coef32;
        Extended(table[..], coef);
      }
      NoCoefficient();
    }

    /** The loop over the block, once the table is there. */
    method Accumulate(block: seq<Byte>) returns (crc32: bv32)
      requires Valid() && table[0] == 0
      ensures crc32 == Crc(block)
    {
      NothingShifted(PRESET);
      hide Shift, BitStream, Xor, Left8, Index, Coefficient;
      crc32 := PRESET;
      for k := 0 to |block|
        invariant crc32 == Shift(PRESET, BitStream(block[..k]))
      {
        StepThroughTable(table[..], block, k);
        crc32 := Xor(Left8(crc32), table[Index(crc32, block[k] as bv8) as int]);
      }
      assert block[..|block|] == block;
    }

    method WriteChecksum(checksum: array<Byte>, block: seq<Byte>)
      requires Valid() && checksum.Length == 4 && checksum as object != table as object
      modifies table, checksum
      ensures Valid() && table[0] == 0
      ensures checksum[..] == BigEndian(Crc(block))
    {
      hide Crc, Coefficient, LowOctet;
      if table[0] != 0 {
        BuildTable();
      }
      var crc32 := Accumulate(block);
      var octets := BigEndian(crc32);
      checksum[0], checksum[1], checksum[2], checksum[3] := octets[0], octets[1], octets[2], octets[3];
    }
  }
}
