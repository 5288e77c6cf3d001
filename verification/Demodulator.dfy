/**
 * The fixed-point registers of the satellite demodulator: symbol rate, carrier offset, main clock and transport
 * stream clock.
 */
module Demodulator {
  import opened Arithmetic
  import opened Wrappers
  import opened Bytes
  import opened Transponders

  datatype Status = Done | ParamError | NoSupportDemod | NoSupportFunc

  type Registers = r: seq<Byte> | |r| == 256 witness seq(256, _ => 0)

  /* ---------- Symbol rate ---------- */

  /** The register word for a symbol rate in KS/s, in 32-bit arithmetic, cut to two octets. */
  function SymRateWord(rate: nat): (w: nat)
    ensures w < 0x1_0000
  {
    Wrap16(Wrap32(Wrap32(rate * 32768) + 24000) / 48000)
  }

  /** The symbol rate for a register word, in 32-bit arithmetic. */
  function SymRateOf(w: nat): (rate: nat)
    requires w < 0x1_0000
    ensures rate < 0x1_0000
  {
    Wrap32(w * 96000) / 0x1_0000
  }

  /** Programming a symbol rate and decoding the same word gives that rate or one less exactly up to 65536 KS/s. */
  lemma SymRateWithinOne(rate: nat)
    requires rate < 0x1_0000_0000
    ensures SymRateOf(SymRateWord(rate)) == rate || SymRateOf(SymRateWord(rate)) == rate - 1 <==> rate <= 65536
  {
    if rate <= 65536 {
      SymRateNear(rate);
    }
  }

  lemma SymRateNear(rate: nat)
    requires rate <= 65536
    ensures rate - 1 <= SymRateOf(SymRateWord(rate)) <= rate
    ensures SymRateOf(SymRateWord(rate)) == rate <==> rate * 256 % 375 == 0 || rate * 256 % 375 >= 188
  {
    var w := (rate * 32768 + 24000) / 48000;
    var q, r := rate * 256 / 375, rate * 256 % 375;
    assert rate * 32768 == 48000 * q + 128 * r;
    assert w == if r >= 188 then q + 1 else q;
    assert w * 96000 == rate * 65536 + (if r >= 188 then 256 * (375 - r) else -256 * r);
    assert 0 <= w * 96000 < 0x1_0000_0000;
  }

  /* ---------- Carrier offset ---------- */

  /** The register word for a carrier offset in kHz, in 32-bit arithmetic. */
  function CarrierWord(offset: int): (w: int)
    ensures 0 <= w < 0x1_0000
  {
    var t := Truncated(AsS32(AsS32(2 * AsS32(offset * 65536)) + 96000), 192000);
    if t < 0 then t + 65536 else t
  }

  function CarrierOf(w: nat): (offset: int)
    requires w < 0x1_0000
  {
    Truncated(AsS32((if w >= 0x8000 then w - 0x1_0000 else w) * 96000), 65536)
  }

  /** The offset that the 32-bit product stands for. */
  function Folded(offset: int): (r: int)
    ensures -16384 <= r <= 16383
    ensures -16384 <= offset <= 16383 <==> r == offset
    ensures offset - r == 32768 * ((offset - r) / 32768)
  {
    (offset + 16384) % 32768 - 16384
  }

  lemma Wraps(x: int, y: int, k: int)
    requires x == y + 0x1_0000_0000 * k && -0x8000_0000 <= y < 0x8000_0000
    ensures AsS32(x) == y
  {}

  lemma FoldedProduct(offset: int)
    ensures AsS32(AsS32(2 * AsS32(offset * 65536)) + 96000) == 131072 * Folded(offset) + 96000
  {
    var r := Folded(offset);
    var q := (offset - r) / 32768;
    var x := offset * 65536;
    var k := (x + 0x8000_0000) / 0x1_0000_0000;
    assert AsS32(x) == x - 0x1_0000_0000 * k;
    Wraps(2 * AsS32(x), 131072 * r, q - 2 * k);
    Wraps(131072 * r + 96000, 131072 * r + 96000, 0);
  }

  lemma CarrierFolds(offset: int)
    ensures CarrierWord(offset) == CarrierWord(Folded(offset))
  {
    FoldedProduct(offset);
    FoldedProduct(Folded(offset));
  }

  /**
   * In range the word, in two's complement, is the offset in steps of 96 MHz over 65536: to the nearest from zero up,
   * between half a step and one and a half short of it below zero.
   */
  lemma CarrierWordNearest(offset: int)
    requires -16384 <= offset <= 16383
    ensures var w := CarrierWord(offset);
            if offset >= 0 then -96000 <= 131072 * offset - 192000 * w < 96000
            else 96000 <= 192000 * (if w == 0 then 0 else w - 0x1_0000) - 131072 * offset < 288000
  {
    FoldedProduct(offset);
    hide AsS32, Folded;
    var n := 131072 * offset + 96000;
    var steps := Truncated(n, 192000);
    assert CarrierWord(offset) == if steps < 0 then steps + 65536 else steps;
  }

  lemma CarrierNear(offset: int)
    requires -16384 <= offset <= 16383
    ensures var d := CarrierOf(CarrierWord(offset));
            if offset >= 0 then offset - 3 <= d <= offset && 0 <= d else offset <= d <= offset + 3 && d <= 0
  {
    FoldedProduct(offset);
  }

  /**
   * The decoded offset is within 3 kHz exactly where 32-bit arithmetic does not overflow; there it never gains in
   * size or changes sign.
   */
  lemma CarrierWithinThree(offset: int)
    requires -0x8000_0000 <= offset < 0x8000_0000
    ensures -3 <= CarrierOf(CarrierWord(offset)) - offset <= 3 <==> -16384 <= offset <= 16383
    ensures 0 <= offset <= 16383 ==> 0 <= CarrierOf(CarrierWord(offset)) <= offset
    ensures -16384 <= offset <= 0 ==> offset <= CarrierOf(CarrierWord(offset)) <= 0
  {
    hide CarrierOf, CarrierWord;
    var r := Folded(offset);
    CarrierFolds(offset);
    CarrierNear(r);
  }

  /* ---------- Main clock ---------- */

  /** The rates in kHz that the two selector fields, the top bits of registers 0x22 and 0x24, can stand for. */
  function MclkOf(regs: Registers): (rate: Option<nat>) {
    var d, sel := regs[0x22] / 64, regs[0x24] / 64;
    if d == 0 && sel == 1 then Some(144000)
    else if d == 0 && sel == 3 then Some(72000)
    else if d == 1 && sel == 1 then Some(115200)
    else if d == 2 && sel == 1 then Some(96000)
    else if d == 3 && sel == 0 then Some(192000)
    else None
  }

  predicate MclkKnown(rate: nat) {
    rate == 72000 || rate == 96000 || rate == 115200 || rate == 144000 || rate == 192000
  }

  /** A register with its top two bits replaced. */
  function WithTop(reg: Byte, top: nat): (r: Byte)
    requires top < 4
    ensures r / 64 == top && r % 64 == reg % 64
  {
    reg % 64 + 64 * top
  }

  /* ---------- Transport stream clock ---------- */

  datatype TsMode = Serial | Parallel | Common

  function Clamped(ratio: nat): (r: nat)
    ensures 2 <= r <= 128
  {
    if ratio > 128 then 128 else if ratio < 2 then 2 else ratio
  }

  /** The length of the high and the low phase of a divided clock. */
  datatype Phases = Phases(high: nat, low: nat)

  function Halves(ratio: nat): (p: Phases)
    ensures p.high + p.low == ratio && p.high <= p.low <= p.high + 1
  {
    Phases(ratio / 2, ratio / 2 + ratio % 2)
  }

  predicate Packed(demod: Demod) { demod == DS3002B || demod == DS3103 }

  /** The phases that the divider registers hold. */
  function PhasesOf(regs: Registers, demod: Demod, kind: DvbType): (p: Phases) {
    if Packed(demod) then Phases((regs[0xfe] % 16) * 4 + regs[0xea] / 64 + 1, regs[0xea] % 64 + 1)
    else if kind == DvbS2 then Phases(regs[0xfe] / 16, regs[0xfe] % 16)
    else Phases(regs[0xfe] / 8 % 8, regs[0xfe] % 8)
  }

  /** What becomes of a phase length in its register field. */
  function Fitted(v: Byte, demod: Demod, kind: DvbType): (f: nat) {
    if Packed(demod) then (v + 63) % 64 + 1 else if kind == DvbS2 then v % 16 else v % 8
  }

  /** A register with its low four bits replaced. */
  function WithLow(reg: Byte, low: nat): (r: Byte)
    requires low < 16
    ensures r / 16 == reg / 16 && r % 16 == low
  {
    reg / 16 * 16 + low
  }

  /** Two bits above six. */
  function TwoAndSix(two: nat, six: nat): (r: Byte)
    requires two < 4 && six < 64
    ensures r / 64 == two && r % 64 == six
  {
    two * 64 + six
  }

  /** A register with its low six bits replaced by three and three. */
  function WithThrees(reg: Byte, high: nat, low: nat): (r: Byte)
    requires high < 8 && low < 8
    ensures r / 64 == reg / 64 && r / 8 % 8 == high && r % 8 == low
  {
    var above := reg / 64 * 8 + high;
    assert above / 8 == reg / 64 && above % 8 == high;
    var r := above * 8 + low;
    assert r / 8 == above && r / 64 == r / 8 / 8;
    r
  }

  /** One less, in six bits, is how a packed phase length is kept. */
  lemma SixBits(v: Byte)
    ensures Wrap8(v - 1) % 64 == (v + 63) % 64
  {}

  predicate Fits(v: Byte, demod: Demod, kind: DvbType) {
    if Packed(demod) then 1 <= v <= 64 else if kind == DvbS2 then v < 16 else v < 8
  }

  lemma FittedIffFits(v: Byte, demod: Demod, kind: DvbType)
    ensures Fitted(v, demod, kind) == v <==> Fits(v, demod, kind)
  {}

  /** Nothing but the divider fields differs. */
  predicate OnlyDividers(before: Registers, after: Registers, demod: Demod, kind: DvbType) {
    && (forall a | 0 <= a < 256 && a != 0xfe && a != 0xea :: after[a] == before[a])
    && (Packed(demod) ==> after[0xfe] / 16 == before[0xfe] / 16)
    && (!Packed(demod) ==> after[0xea] == before[0xea] && (kind != DvbS2 ==> after[0xfe] / 64 == before[0xfe] / 64))
  }

  datatype Modulation = Qpsk | Psk8 | Apsk16 | Apsk32 | OtherModulation

  datatype CodeRate = R14 | R13 | R25 | R12 | R35 | R23 | R34 | R45 | R56 | R78 | R89 | R910 | OtherRate

  function Bits(modulation: Modulation): (n: nat)
    ensures 2 <= n <= 5
  {
    match modulation
    case Psk8 => 3
    case Apsk16 => 4
    case Apsk32 => 5
    case _ => 2
  }

  /** The data rate in kilobytes a second, rounded down at every step as the driver does. */
  function DataRate(kind: DvbType, modulation: Modulation, code: CodeRate, rate: nat): (r: nat) {
    if kind == DvbS2 then
      var m := rate * Bits(modulation);
      match code
      case R14 => m / 8 / 4
      case R13 => m / 8 / 3
      case R25 => m * 2 / 8 / 5
      case R12 => m / 8 / 2
      case R35 => m * 3 / 8 / 5
      case R34 => m * 3 / 8 / 4
      case R45 => m * 4 / 8 / 5
      case R56 => m * 5 / 8 / 6
      case R89 => m * 8 / 8 / 9
      case R910 => m * 9 / 8 / 10
      case _ => m * 2 / 8 / 3
    else
      var m := rate * 2;
      match code
      case R12 => m / 2 / 8
      case R23 => m * 2 / 3 / 8
      case R56 => m * 5 / 6 / 8
      case R78 => m * 7 / 8 / 8
      case _ => m * 3 / 4 / 8
  }

  datatype Fraction = Fraction(num: nat, den: nat)

  /** The code rate as a fraction; rates that a standard does not have count as 2/3 in DVB-S2 and 3/4 in DVB-S. */
  function CodeFraction(kind: DvbType, code: CodeRate): (f: Fraction)
    ensures f.den > 0 && f.num < f.den
  {
    match code
    case R12 => Fraction(1, 2)
    case R23 => Fraction(2, 3)
    case R34 => Fraction(3, 4)
    case R56 => Fraction(5, 6)
    case R14 => if kind == DvbS2 then Fraction(1, 4) else Fraction(3, 4)
    case R13 => if kind == DvbS2 then Fraction(1, 3) else Fraction(3, 4)
    case R25 => if kind == DvbS2 then Fraction(2, 5) else Fraction(3, 4)
    case R35 => if kind == DvbS2 then Fraction(3, 5) else Fraction(3, 4)
    case R45 => if kind == DvbS2 then Fraction(4, 5) else Fraction(3, 4)
    case R89 => if kind == DvbS2 then Fraction(8, 9) else Fraction(3, 4)
    case R910 => if kind == DvbS2 then Fraction(9, 10) else Fraction(3, 4)
    case R78 => if kind == DvbS2 then Fraction(2, 3) else Fraction(7, 8)
    case OtherRate => if kind == DvbS2 then Fraction(2, 3) else Fraction(3, 4)
  }

  /**
   * However the driver orders its divisions, the result is symbols times bits times code rate over eight, rounded
   * down once.
   */
  lemma DataRateIsFraction(kind: DvbType, modulation: Modulation, code: CodeRate, rate: nat)
    ensures var f, m := CodeFraction(kind, code), rate * (if kind == DvbS2 then Bits(modulation) else 2);
            var r := DataRate(kind, modulation, code, rate);
            8 * f.den * r <= m * f.num < 8 * f.den * (r + 1)
  {
    hide Bits, DataRate, CodeFraction;
    if kind != DvbS2 {
      RateOfDvbS(kind, modulation, code, rate);
    } else if code == R14 || code == R13 || code == R25 || code == R12 || code == R35 || code == R34 {
      LowRateOfDvbS2(kind, modulation, code, rate);
    } else {
      HighRateOfDvbS2(kind, modulation, code, rate);
    }
  }

  lemma RateOfDvbS(kind: DvbType, modulation: Modulation, code: CodeRate, rate: nat)
    requires kind != DvbS2
    ensures var f, m := CodeFraction(kind, code), rate * (if kind == DvbS2 then Bits(modulation) else 2);
            var r := DataRate(kind, modulation, code, rate);
            8 * f.den * r <= m * f.num < 8 * f.den * (r + 1)
  {
    hide Bits;
    var r := DataRate(kind, modulation, code, rate);
    var m := rate * 2;
    match code
    case R12 => assert 16 * r <= m * 1 < 16 * (r + 1);
    case R23 => assert 24 * r <= m * 2 < 24 * (r + 1);
    case R56 => assert 48 * r <= m * 5 < 48 * (r + 1);
    case R78 => assert 64 * r <= m * 7 < 64 * (r + 1);
    case _ => assert 32 * r <= m * 3 < 32 * (r + 1);
  }

  lemma LowRateOfDvbS2(kind: DvbType, modulation: Modulation, code: CodeRate, rate: nat)
    requires kind == DvbS2 && (code == R14 || code == R13 || code == R25 || code == R12 || code == R35 || code == R34)
    ensures var f, m := CodeFraction(kind, code), rate * (if kind == DvbS2 then Bits(modulation) else 2);
            var r := DataRate(kind, modulation, code, rate);
            8 * f.den * r <= m * f.num < 8 * f.den * (r + 1)
  {
    hide Bits;
    var r := DataRate(kind, modulation, code, rate);
    var m := rate * Bits(modulation);
    match code
    case R14 => assert 32 * r <= m * 1 < 32 * (r + 1);
    case R13 => assert 24 * r <= m * 1 < 24 * (r + 1);
    case R25 => assert 40 * r <= m * 2 < 40 * (r + 1);
    case R12 => assert 16 * r <= m * 1 < 16 * (r + 1);
    case R35 => assert 40 * r <= m * 3 < 40 * (r + 1);
    case R34 => assert 32 * r <= m * 3 < 32 * (r + 1);
  }

  lemma HighRateOfDvbS2(kind: DvbType, modulation: Modulation, code: CodeRate, rate: nat)
    requires kind == DvbS2 && !(code == R14 || code == R13 || code == R25 || code == R12 || code == R35 || code == R34)
    ensures var f, m := CodeFraction(kind, code), rate * (if kind == DvbS2 then Bits(modulation) else 2);
            var r := DataRate(kind, modulation, code, rate);
            8 * f.den * r <= m * f.num < 8 * f.den * (r + 1)
  {
    hide Bits;
    var r := DataRate(kind, modulation, code, rate);
    var m := rate * Bits(modulation);
    match code
    case R45 => assert 40 * r <= m * 4 < 40 * (r + 1);
    case R56 => assert 48 * r <= m * 5 < 48 * (r + 1);
    case R89 => assert 72 * r <= m * 8 < 72 * (r + 1);
    case R910 => assert 80 * r <= m * 9 < 80 * (r + 1);
    case R23 => assert 24 * r <= m * 2 < 24 * (r + 1);
    case R78 => assert 24 * r <= m * 2 < 24 * (r + 1);
    case OtherRate => assert 24 * r <= m * 2 < 24 * (r + 1);
    case _ =>
  }

  /** The dividers of 144 MHz for DVB-S2 on the DS300X. */
  function LadderS2(r: nat): (p: Phases) {
    if r < 4800 then Phases(15, 15) else if r < 4966 then Phases(14, 15) else if r < 5143 then Phases(14, 14)
    else if r < 5333 then Phases(13, 14) else if r < 5538 then Phases(13, 13) else if r < 5760 then Phases(12, 13)
    else if r < 6000 then Phases(12, 12) else if r < 6260 then Phases(11, 12) else if r < 6545 then Phases(11, 11)
    else if r < 6857 then Phases(10, 11) else if r < 7200 then Phases(10, 10) else if r < 7578 then Phases(9, 10)
    else if r < 8000 then Phases(9, 9) else if r < 8470 then Phases(8, 9) else if r < 9000 then Phases(8, 8)
    else if r < 9600 then Phases(7, 8) else if r < 10285 then Phases(7, 7) else if r < 12000 then Phases(6, 6)
    else if r < 14400 then Phases(5, 5) else if r < 18000 then Phases(4, 4) else Phases(3, 3)
  }

  /** The dividers of 96 MHz for DVB-S on the DS300X. */
  function LadderS(r: nat): (p: Phases) {
    if r < 6857 then Phases(7, 7) else if r < 8000 then Phases(6, 6) else if r < 9600 then Phases(5, 5)
    else if r < 12000 then Phases(4, 4) else if r < 16000 then Phases(3, 3) else Phases(2, 2)
  }

  function Sum(p: Phases): nat { p.high + p.low }

  /** A divided clock is at least as fast as the rate. */
  predicate Covers(mclk: nat, p: Phases, rate: nat) { rate * Sum(p) <= mclk }

  /** The ratios by which the DS300X can divide its main clock. */
  predicate Rung(kind: DvbType, s: nat) {
    if kind == DvbS2 then s == 6 || s == 8 || s == 10 || s == 12 || 14 <= s <= 30
    else s == 4 || s == 6 || s == 8 || s == 10 || s == 12 || s == 14
  }

  /**
   * The phases divide by one of the ratios, nearly evenly; the next larger one, and any other, would give too slow a
   * clock for a rate of one more. When even the smallest ratio is too large, it is that one.
   */
  ghost predicate SlowestRung(kind: DvbType, mclk: nat, p: Phases, rate: nat) {
    && Rung(kind, Sum(p)) && p.high <= p.low <= p.high + 1
    && (forall s: nat | Rung(kind, s) && s > Sum(p) :: s * (rate + 1) > mclk)
    && (Covers(mclk, p, rate) || forall s: nat | Rung(kind, s) :: Sum(p) <= s)
  }

  lemma LadderS2Slowest(r: nat)
    ensures SlowestRung(DvbS2, 144000, LadderS2(r), r)
  {
    var p := LadderS2(r);
    forall s: nat | Rung(DvbS2, s) && s > Sum(p) ensures s * (r + 1) > 144000 {
      var next: nat := if Sum(p) < 12 then Sum(p) + 2 else if Sum(p) == 12 then 14 else Sum(p) + 1;
      assert next * (r + 1) > 144000;
      Product(next, s, r + 1, r + 1);
    }
  }

  lemma LadderSSlowest(r: nat, kind: DvbType)
    requires kind != DvbS2
    ensures SlowestRung(kind, 96000, LadderS(r), r)
  {
    var p := LadderS(r);
    forall s: nat | Rung(kind, s) && s > Sum(p) ensures s * (r + 1) > 96000 {
      assert (Sum(p) + 2) * (r + 1) > 96000;
      Product(Sum(p) + 2, s, r + 1, r + 1);
    }
  }

  /** Either ladder yields a clock that is fast enough exactly up to 24000, and phases that fit their registers. */
  lemma LaddersCover(r: nat)
    ensures Covers(144000, LadderS2(r), r) <==> r <= 24000
    ensures Covers(96000, LadderS(r), r) <==> r <= 24000
    ensures LadderS2(r).high <= LadderS2(r).low <= LadderS2(r).high + 1 && 3 <= LadderS2(r).high && LadderS2(r).low < 16
    ensures 2 <= LadderS(r).high == LadderS(r).low < 8
  {}

  /** The quotient of the two rates, with the 16-bit cast, brought into range. */
  function FloorRatio(mclk: nat, rate: nat): (r: nat)
    ensures 2 <= r <= 128
  {
    Clamped(if rate != 0 then Wrap16(mclk / rate) else 0xFF)
  }

  /** Dividing down, the clock is fast enough exactly when twice the rate fits into the main clock. */
  lemma FloorRatioCovers(mclk: nat, rate: nat)
    requires MclkKnown(mclk) && rate > 0
    ensures Covers(mclk, Halves(FloorRatio(mclk, rate)), rate) <==> 2 * rate <= mclk
    ensures FloorRatio(mclk, rate) < 128 && 2 * rate <= mclk ==> rate * (FloorRatio(mclk, rate) + 1) > mclk
  {
    QuotientBounds(mclk, rate);
    CastHarmless(mclk, rate);
    ClampedFloor(mclk, rate, mclk / rate);
  }

  lemma ClampedFloor(mclk: nat, rate: nat, q: nat)
    requires q * rate <= mclk < (q + 1) * rate
    ensures rate * Clamped(q) <= mclk <==> 2 * rate <= mclk
    ensures Clamped(q) < 128 && 2 * rate <= mclk ==> rate * (Clamped(q) + 1) > mclk
  {
    if q >= 2 {
      Product(Clamped(q), q, rate, rate);
      Product(2, q, rate, rate);
    } else {
      Product(q + 1, 2, rate, rate);
    }
  }

  lemma RatioInSteps(mclk: nat, rate: nat)
    ensures var q := if rate != 0 then Wrap16(mclk / rate) else 0xFF;
            FloorRatio(mclk, rate) == (if q > 128 then 128 else if q < 2 then 2 else q)
  {}

  /** The 16-bit cast drops nothing that the upper limit of 128 would keep. */
  lemma CastHarmless(mclk: nat, rate: nat)
    requires MclkKnown(mclk) && rate > 0
    ensures 0 <= mclk / rate && Clamped(Wrap16(mclk / rate)) == Clamped(mclk / rate)
  {
    QuotientBounds(mclk, rate);
    if rate > 2 {
      Product(3, rate, mclk / rate, mclk / rate);
    }
    hide Clamped;
    CastLarge(mclk / rate);
  }

  lemma CastLarge(q: nat)
    requires q < 0x1_0000 || q == 72000 || q == 96000 || q == 115200 || q == 144000 || q == 192000
    ensures Clamped(Wrap16(q)) == Clamped(q)
  {}

  /** Rounding the quotient up. */
  function CeilRatio(mclk: nat, clock: nat): (r: nat)
    requires clock > 0
    ensures 2 <= r <= 128
  {
    Clamped((mclk + clock - 1) / clock)
  }

  /** Dividing up, the clock never exceeds the one asked for, exactly when a division by 128 can reach that low. */
  lemma CeilRatioStaysBelow(mclk: nat, clock: nat)
    requires clock > 0 && mclk > 0
    ensures mclk <= clock * Sum(Halves(CeilRatio(mclk, clock))) <==> mclk <= 128 * clock
    ensures 2 < CeilRatio(mclk, clock) <= 128 && mclk <= 128 * clock ==> clock * (CeilRatio(mclk, clock) - 1) < mclk
  {
    hide Clamped, Halves, Sum;
    var q := (mclk + clock - 1) / clock;
    QuotientBounds(mclk + clock - 1, clock);
    ClampedCeil(mclk, clock, q);
    HalvesSum(CeilRatio(mclk, clock));
    assert CeilRatio(mclk, clock) == Clamped(q);
  }

  lemma HalvesSum(r: nat)
    ensures Sum(Halves(r)) == r
  {}

  lemma ClampedCeil(mclk: nat, clock: nat, q: nat)
    requires mclk > 0 && q * clock <= mclk + clock - 1 < (q + 1) * clock
    ensures mclk <= clock * Clamped(q) <==> mclk <= 128 * clock
    ensures 2 < Clamped(q) && mclk <= 128 * clock ==> clock * (Clamped(q) - 1) < mclk
  {
    assert (q + 1) * clock == q * clock + clock;
    if q > 128 {
      Product(129, q, clock, clock);
    } else {
      Product(q, Clamped(q), clock, clock);
      Product(q, 128, clock, clock);
    }
  }

  /** The main clock for serial output: the lowest that carries eight bits an octet with the margin. */
  function SerialClock(kind: DvbType, needed: nat): (m: nat)
    ensures MclkKnown(m)
  {
    if kind == DvbS2 then
      if needed > 115200 then 144000 else if needed > 96000 then 115200 else if needed > 72000 then 96000 else 72000
    else if needed > 72000 then 96000 else 72000
  }

  /** The main clocks that serial output chooses from. */
  predicate SerialRate(kind: DvbType, m: nat) {
    m == 72000 || m == 96000 || (kind == DvbS2 && (m == 115200 || m == 144000))
  }

  /** The lowest clock that carries the rate; the highest there is, which does not, exactly above that. */
  lemma SerialClockCovers(kind: DvbType, needed: nat)
    ensures SerialClock(kind, needed) >= needed <==> needed <= if kind == DvbS2 then 144000 else 96000
    ensures SerialRate(kind, SerialClock(kind, needed))
    ensures forall m: nat | SerialRate(kind, m) && m < SerialClock(kind, needed) :: m < needed
    ensures SerialClock(kind, needed) < needed ==> forall m: nat | SerialRate(kind, m) :: m <= SerialClock(kind, needed)
  {}

  /** Up to 45000 KS/s every DVB-S2 modulation but 32APSK, and all of DVB-S, stays within what the ladders cover. */
  lemma RatesCovered(kind: DvbType, modulation: Modulation, code: CodeRate, rate: nat)
    requires rate <= 45000 && (kind == DvbS2 ==> modulation != Apsk32)
    ensures DataRate(kind, modulation, code, rate) * 115 / 100 <= 24000
  {
    var n := Bits(modulation);
    assert n <= 4 || kind != DvbS2;
    assert kind == DvbS2 ==> rate * n <= 4 * rate;
  }

  /** The fastest 32APSK does not. */
  lemma Apsk32NotCovered()
    ensures DataRate(DvbS2, Apsk32, R910, 45000) * 115 / 100 == 29108
    ensures !Covers(144000, LadderS2(29108), 29108)
  {}

  /* ---------- The registers ---------- */

  /** Nothing but the given registers differs. */
  predicate Only(before: Registers, after: Registers, a: nat, b: nat) {
    forall k | 0 <= k < 256 && k != a && k != b :: after[k] == before[k]
  }

  function Word(regs: Registers, high: Byte, low: Byte): (w: nat)
    ensures w < 0x1_0000
  {
    Pair(regs[high], regs[low])
  }

  lemma TwoOctets(w: nat)
    ensures 256 * (w / 256 % 256) + w % 256 == Wrap16(w)
  {}

  class Demodulator {
    const demod: Demod
    var regs: Registers
    var serialMclk: nat

    constructor (demod: Demod, regs: Registers)
      ensures this.demod == demod && this.regs == regs && serialMclk == 0
    {
      this.demod, this.regs, serialMclk := demod, regs, 0;
    }

    method SetSymRate(rate: nat)
      requires rate < 0x1_0000_0000
      modifies `regs
      ensures Word(regs, 0x62, 0x61) == SymRateWord(rate) && Only(old(regs), regs, 0x61, 0x62)
    {
      var tmp: nat := Wrap32(Wrap32(rate * 32768) + 24000) / 48000;
      var low: Byte := tmp % 256;
      var high: Byte := tmp / 256 % 256;
      TwoOctets(tmp);
      regs := regs[0x61 := low];
      regs := regs[0x62 := high];
    }

    /** The rate that the chip found is in other registers, in the same encoding. */
    method GetSymRate() returns (rate: nat)
      ensures rate == SymRateOf(Word(regs, 0x6e, 0x6d))
    {
      var tmp := Word(regs, 0x6e, 0x6d);
      rate := Wrap32(tmp * 96000) / 65536;
    }

    method SetCarrierOffset(offset: int)
      requires -0x8000_0000 <= offset < 0x8000_0000
      modifies `regs
      ensures Word(regs, 0x5f, 0x5e) == CarrierWord(offset) && Only(old(regs), regs, 0x5f, 0x5e)
      ensures -3 <= CarrierOf(Word(regs, 0x5f, 0x5e)) - offset <= 3 <==> -16384 <= offset <= 16383
    {
      var tmp := AsS32(offset * 65536);
      tmp := Truncated(AsS32(AsS32(2 * tmp) + 96000), 2 * 96000);
      if tmp < 0 {
        tmp := tmp + 65536;
      }
      assert tmp == CarrierWord(offset);
      var high: Byte := tmp / 256;
      var low: Byte := tmp % 256;
      regs := regs[0x5f := high];
      regs := regs[0x5e := low];
      CarrierWithinThree(offset);
    }

    method GetCarrierOffset() returns (offset: int)
      modifies `regs
      ensures offset == CarrierOf(Word(regs, 0x5f, 0x5e))
      ensures regs == old(regs)[0x5d := old(regs)[0x5d] / 8 * 8]
    {
      var tmp: Byte := regs[0x5d] / 8 * 8;
      regs := regs[0x5d := tmp];
      var val: int := Word(regs, 0x5f, 0x5e);
      if val >= 0x8000 {
        val := val - 65536;
      }
      offset := Truncated(AsS32(val * 96000), 65536);
    }

    method GetMclk(kind: DvbType) returns (status: Status, rate: nat)
      ensures demod == DS300X ==> status == Done && rate == if kind == DvbS2 then 144000 else 96000
      ensures Packed(demod) ==> rate == MclkHeld(regs) && (status == Done <==> MclkOf(regs).Some?)
      ensures Packed(demod) && status != Done ==> status == ParamError
      ensures demod == OtherDemod ==> status == NoSupportDemod && rate == 96000
    {
      status, rate := Done, 96000;
      if demod == DS300X {
        rate := if kind == DvbS2 then 144000 else 96000;
      } else if demod == DS3002B || demod == DS3103 {
        var tmp1, tmp2 := regs[0x22] / 64, regs[0x24] / 64;
        if tmp1 == 0 && tmp2 == 1 {
          rate := 144000;
        } else if tmp1 == 0 && tmp2 == 3 {
          rate := 72000;
        } else if tmp1 == 1 && tmp2 == 1 {
          rate := 115200;
        } else if tmp1 == 2 && tmp2 == 1 {
          rate := 96000;
        } else if tmp1 == 3 && tmp2 == 0 {
          rate := 192000;
        } else {
          status := ParamError;
        }
      } else {
        status := NoSupportDemod;
      }
    }

    /**
     * Afterwards the selector fields stand for the rate, or for 96 MHz if there is no such rate; nothing else
     * changes.
     */
    method SetMclk(rate: nat) returns (status: Status)
      modifies `regs
      ensures Packed(demod) ==> status == Done && MclkOf(regs) == Some(if MclkKnown(rate) then rate else 96000)
      ensures Packed(demod) ==> regs[0x22] % 64 == old(regs)[0x22] % 64 && regs[0x24] % 64 == old(regs)[0x24] % 64
      ensures Only(old(regs), regs, 0x22, 0x24)
      ensures !Packed(demod) ==>
               status == (if demod == DS300X then NoSupportFunc else NoSupportDemod) && regs == old(regs)
    {
      if demod == DS3002B || demod == DS3103 {
        var tmp3, tmp4 := regs[0x22], regs[0x24];
        match rate {
          case 192000 => tmp3, tmp4 := WithTop(tmp3, 3), WithTop(tmp4, 0);
          case 144000 => tmp3, tmp4 := WithTop(tmp3, 0), WithTop(tmp4, 1);
          case 115200 => tmp3, tmp4 := WithTop(tmp3, 1), WithTop(tmp4, 1);
          case 72000 => tmp3, tmp4 := WithTop(tmp3, 0), WithTop(tmp4, 3);
          case _ => tmp3, tmp4 := WithTop(tmp3, 2), WithTop(tmp4, 1);
        }
        regs := regs[0x22 := tmp3];
        regs := regs[0x24 := tmp4];
        status := Done;
      } else if demod == DS300X {
        status := NoSupportFunc;
      } else {
        status := NoSupportDemod;
      }
    }

    /** Afterwards the divider fields hold the phases as far as they fit; nothing else changes. */
    method SetTsDivideRatio(kind: DvbType, high: Byte, low: Byte) returns (status: Status)
      modifies `regs
      ensures status == if demod == OtherDemod then NoSupportDemod else Done
      ensures demod == OtherDemod ==> regs == old(regs)
      ensures demod != OtherDemod ==>
               PhasesOf(regs, demod, kind) == Phases(Fitted(high, demod, kind), Fitted(low, demod, kind))
      ensures OnlyDividers(old(regs), regs, demod, kind)
    {
      status := Done;
      if demod == DS3002B || demod == DS3103 {
        var tmp1, tmp2 := Wrap8(high - 1) % 64, Wrap8(low - 1) % 64;
        SixBits(high);
        SixBits(low);
        regs := regs[0xfe := WithLow(regs[0xfe], tmp1 / 4)];
        regs := regs[0xea := TwoAndSix(tmp1 % 4, tmp2)];
      } else if demod == OtherDemod {
        status := NoSupportDemod;
      } else if kind == DvbS2 {
        var val: Byte := high % 16 * 16 + low % 16;
        assert val / 16 == high % 16 && val % 16 == low % 16;
        regs := regs[0xfe := val];
      } else {
        regs := regs[0xfe := WithThrees(regs[0xfe], high % 8, low % 8)];
      }
    }

    /* ---------- After a lock ---------- */

    /** The symbol rate that the chip reports for the signal it locked to. */
    function LockedRate(): nat
      reads `regs
    {
      SymRateOf(Word(regs, 0x6e, 0x6d))
    }

    /** Serial output of a packed chip: the main clock itself. */
    method SetSerialClock(kind: DvbType, dataRate: nat)
      requires Packed(demod)
      modifies `regs, `serialMclk
      ensures serialMclk == SerialClock(kind, dataRate * 46 / 5) == MclkHeld(regs)
      ensures forall k | 0 <= k < 256 && k != 0x06 && k != 0x22 && k != 0x24 :: regs[k] == old(regs)[k]
      ensures regs != old(regs) ==> regs[0x06] == 0x00
    {
      var _, mclk := GetMclk(kind);
      var needed := dataRate * 46 / 5;
      var target := mclk;
      if kind == DvbS2 {
        if needed > 115200 {
          target := 144000;
        } else if needed > 96000 {
          target := 115200;
        } else if needed > 72000 {
          target := 96000;
        } else {
          target := 72000;
        }
      } else if needed > 72000 {
        target := 96000;
      } else {
        target := 72000;
      }
      serialMclk := target;
      if target != mclk {
        regs := regs[0x06 := 0xe0];
        var _ := SetMclk(target);
        regs := regs[0x06 := 0x00];
      }
    }

    /** Splits a ratio into phases and stores them. */
    method SetPhases(kind: DvbType, ratio: nat)
      requires demod != OtherDemod && 2 <= ratio <= 128
      requires (!Packed(demod) ==> ratio < (if kind == DvbS2 then 30 else 14))
      modifies `regs
      ensures PhasesOf(regs, demod, kind) == Halves(ratio) && OnlyDividers(old(regs), regs, demod, kind)
    {
      var tmp1: Byte, tmp2: Byte := ratio / 2, ratio / 2;
      if ratio % 2 != 0 {
        tmp2 := tmp2 + 1;
      }
      FittedIffFits(tmp1, demod, kind);
      FittedIffFits(tmp2, demod, kind);
      var _ := SetTsDivideRatio(kind, tmp1, tmp2);
    }

    /** Parallel output of a packed chip: the main clock divided down. */
    method SetParallelClock(kind: DvbType, dataRate: nat)
      requires Packed(demod)
      modifies `regs, `serialMclk
      ensures serialMclk == SerialClock(kind, dataRate * 46 / 5) && MclkHeld(regs) == old(MclkHeld(regs))
      ensures PhasesOf(regs, demod, kind) == Halves(FloorRatio(MclkHeld(regs), dataRate))
      ensures OnlyDividers(old(regs), regs, demod, kind)
      ensures dataRate > 0 ==>
               (Covers(MclkHeld(regs), PhasesOf(regs, demod, kind), dataRate) <==> 2 * dataRate <= MclkHeld(regs))
      ensures dataRate > 0 && Sum(PhasesOf(regs, demod, kind)) < 128 && 2 * dataRate <= MclkHeld(regs) ==>
               dataRate * (Sum(PhasesOf(regs, demod, kind)) + 1) > MclkHeld(regs)
    {
      hide FloorRatio, PhasesOf, OnlyDividers, Halves;
      var _, mclk := GetMclk(kind);
      serialMclk := dataRate * 46 / 5;
      if kind == DvbS2 && serialMclk > 115200 {
        serialMclk := 144000;
      } else if kind == DvbS2 && serialMclk > 96000 {
        serialMclk := 115200;
      } else if serialMclk > 72000 {
        serialMclk := 96000;
      } else {
        serialMclk := 72000;
      }
      var ratio := if dataRate != 0 then Wrap16(mclk / dataRate) else 0xFF;
      if ratio > 128 {
        ratio := 128;
      }
      if ratio < 2 {
        ratio := 2;
      }
      RatioInSteps(mclk, dataRate);
      SetPhases(kind, ratio);
      if dataRate > 0 {
        FloorRatioCovers(mclk, dataRate);
        HalvesSum(FloorRatio(mclk, dataRate));
      }
    }

    /** Sets the transport stream clock from the symbol rate, modulation and code rate of the signal locked to. */
    method SetClockRatio(kind: DvbType, modulation: Modulation, code: CodeRate, mode: TsMode) returns (status: Status)
      modifies `regs, `serialMclk
      ensures status == if old(LockedRate()) == 0 then ParamError
                        else if demod == OtherDemod then NoSupportDemod else Done
      ensures status != Done || (demod == DS300X && kind == DvbS2 && mode == Serial) ==>
               regs == old(regs) && serialMclk == old(serialMclk)
      ensures status == Done && Packed(demod) && mode == Serial ==>
                serialMclk == SerialClock(kind, DataRate(kind, modulation, code,
                                                         old(LockedRate())) * 46 / 5) == MclkHeld(regs)
      ensures status == Done && Packed(demod) && mode == Serial ==>
                && (forall k | 0 <= k < 256 && k != 0x06 && k != 0x22 && k != 0x24 :: regs[k] == old(regs)[k])
                && (regs != old(regs) ==> regs[0x06] == 0x00)
      ensures status == Done && Packed(demod) && mode != Serial ==>
                var dataRate := DataRate(kind, modulation, code, old(LockedRate()));
                && PhasesOf(regs, demod, kind) == Halves(FloorRatio(MclkHeld(regs), dataRate))
                && MclkHeld(regs) == old(MclkHeld(regs)) && OnlyDividers(old(regs), regs, demod, kind)
                && (dataRate > 0 ==>
                      (Covers(MclkHeld(regs), PhasesOf(regs, demod, kind), dataRate)
                       <==> 2 * dataRate <= MclkHeld(regs)))
                && (dataRate > 0 && Sum(PhasesOf(regs, demod, kind)) < 128 && 2 * dataRate <= MclkHeld(regs) ==>
                      dataRate * (Sum(PhasesOf(regs, demod, kind)) + 1) > MclkHeld(regs))
      ensures status == Done && demod == DS300X && (kind == DvbS2 ==> mode != Serial) ==>
                var needed := DataRate(kind, modulation, code, old(LockedRate())) * 115 / 100;
                && PhasesOf(regs, demod, kind) == (if kind == DvbS2 then LadderS2(needed) else LadderS(needed))
                && SlowestRung(kind, if kind == DvbS2 then 144000 else 96000, PhasesOf(regs, demod, kind), needed)
                && OnlyDividers(old(regs), regs, demod, kind)
                && (Covers(if kind == DvbS2 then 144000 else 96000, PhasesOf(regs, demod, kind), needed)
                    <==> needed <= 24000)
    {
      var locked := GetSymRate();
      if locked == 0 {
        return ParamError;
      }
      var dataRate := DataRate(kind, modulation, code, locked);
      if demod == OtherDemod {
        return NoSupportDemod;
      }
      status := Done;
      if demod == DS300X {
        if kind == DvbS2 && mode == Serial {
          return;
        }
        dataRate := dataRate * 115 / 100;
        var phases := if kind == DvbS2 then LadderS2(dataRate) else LadderS(dataRate);
        LaddersCover(dataRate);
        if kind == DvbS2 {
          LadderS2Slowest(dataRate);
        } else {
          LadderSSlowest(dataRate, kind);
        }
        FittedIffFits(phases.high, demod, kind);
        FittedIffFits(phases.low, demod, kind);
        var _ := SetTsDivideRatio(kind, phases.high, phases.low);
      } else if mode == Serial {
        SetSerialClock(kind, dataRate);
      } else {
        SetParallelClock(kind, dataRate);
      }
    }

    /* ---------- Before a lock ---------- */

    /** The dividers for the wanted clocks; in serial mode there is none to reach, and zeros are stored. */
    method SetClock(rate: nat, kind: DvbType, mode: TsMode, target: nat, tsClk: nat)
      requires demod != OtherDemod
      requires target == TargetMclk(demod, kind, mode, rate) && tsClk == TsClock(kind, mode)
      modifies `regs
      ensures mode != Serial ==>
                PhasesOf(regs, demod, kind) == Halves(CeilRatio(TargetMclk(demod, kind, mode, rate), TsClock(kind,
                                                                                                             mode)))
      ensures mode == Serial ==> PhasesOf(regs, demod, kind) == if Packed(demod) then Phases(64, 64) else Phases(0, 0)
      ensures OnlyDividers(old(regs), regs, demod, kind)
    {
      hide CeilRatio, Halves, OnlyDividers;
      if tsClk != 0 {
        var ratio := Wrap16((target + tsClk - 1) / tsClk);
        RatioSmall(demod, kind, mode, rate);
        if ratio > 128 {
          ratio := 128;
        }
        if ratio < 2 {
          ratio := 2;
        }
        SetPhases(kind, ratio);
      } else {
        var _ := SetTsDivideRatio(kind, 0, 0);
      }
    }

    /** The main clock wanted and the fastest transport stream clock. */
    method ChooseClocks(rate: nat, kind: DvbType, mode: TsMode) returns (target: nat, tsClk: nat)
      requires demod != OtherDemod
      ensures target == TargetMclk(demod, kind, mode, rate) && tsClk == TsClock(kind, mode)
    {
      target, tsClk := 96000, 0;
      if mode == Common {
        tsClk := if kind == DvbS2 then 8471 else 8000;
      } else if mode == Parallel {
        tsClk := 24000;
      }
      if kind == DvbS2 {
        if demod == DS300X {
          target := 144000;
        } else if mode == Parallel || mode == Common {
          if rate > 28000 {
            target := 192000;
          } else if rate > 18000 {
            target := 144000;
          }
        } else if rate > 18000 {
          target := 144000;
        }
      }
    }

    /** The clock part of preparing for a signal of a symbol rate: never faster than the decoder behind can take. */
    method SetDemodClock(rate: nat, kind: DvbType, mode: TsMode) returns (status: Status)
      modifies `regs
      ensures status == if demod == OtherDemod then NoSupportDemod else Done
      ensures status != Done ==> regs == old(regs)
      ensures Packed(demod) ==> MclkOf(regs) == Some(TargetMclk(demod, kind, mode, rate))
      ensures status == Done && mode != Serial ==>
                PhasesOf(regs, demod, kind) == Halves(CeilRatio(TargetMclk(demod, kind, mode, rate), TsClock(kind,
                                                                                                             mode)))
      ensures status == Done && mode != Serial ==>
                FastestWithin(TargetMclk(demod, kind, mode, rate), TsClock(kind, mode), PhasesOf(regs, demod, kind))
      ensures status == Done && mode == Serial ==>
               PhasesOf(regs, demod, kind) == if Packed(demod) then Phases(64, 64) else Phases(0, 0)
    {
      if demod == OtherDemod {
        return NoSupportDemod;
      }
      hide CeilRatio, Halves, FastestWithin;
      var target, tsClk := ChooseClocks(rate, kind, mode);
      hide TargetMclk, TsClock;
      SetClock(rate, kind, mode, target, tsClk);
      if mode != Serial {
        DemodClockNotTooFast(demod, kind, mode, rate);
      }
      ghost var divided := regs;
      var _ := SetMclk(target);
      assert regs[0xfe] == divided[0xfe] && regs[0xea] == divided[0xea];
      status := Done;
    }
  }

  /** What the driver takes the main clock for: 96 MHz when the selector fields stand for no rate. */
  function MclkHeld(regs: Registers): (rate: nat)
    ensures MclkKnown(rate)
  {
    if MclkOf(regs).Some? then MclkOf(regs).value else 96000
  }

  /** The fastest transport stream clock in kHz that the output mode allows; none is asked for in serial mode. */
  function TsClock(kind: DvbType, mode: TsMode): (c: nat) {
    match mode
    case Serial => 0
    case Parallel => 24000
    case Common => if kind == DvbS2 then 8471 else 8000
  }

  /** The main clock that is wanted for a symbol rate. */
  function TargetMclk(demod: Demod, kind: DvbType, mode: TsMode, rate: nat): (m: nat)
    ensures MclkKnown(m)
  {
    if kind != DvbS2 then 96000
    else if demod == DS300X then 144000
    else if !Packed(demod) then 96000
    else if mode != Serial then if rate > 28000 then 192000 else if rate > 18000 then 144000 else 96000
    else if rate > 18000 then 144000 else 96000
  }

  /** For the clocks in use the ratio needs no cast and no limits, and fits the narrow fields of the DS300X. */
  lemma RatioSmall(demod: Demod, kind: DvbType, mode: TsMode, rate: nat)
    requires mode != Serial
    ensures var r := (TargetMclk(demod, kind, mode, rate) + TsClock(kind, mode) - 1) / TsClock(kind, mode);
            2 < r < 30 && (kind != DvbS2 ==> r < 14) && r == CeilRatio(TargetMclk(demod, kind, mode, rate),
                                                                       TsClock(kind, mode))
    ensures TargetMclk(demod, kind, mode, rate) <= 128 * TsClock(kind, mode)
  {}

  /**
   * The divided clock does not exceed another one, but would if its period were one shorter; its phases differ by at
   * most one.
   */
  predicate FastestWithin(mclk: nat, clock: nat, p: Phases) {
    mclk <= clock * Sum(p) && clock * (Sum(p) - 1) < mclk && p.high <= p.low <= p.high + 1
  }

  /** Divided by that ratio the main clock is the fastest one that the mode allows. */
  lemma DemodClockNotTooFast(demod: Demod, kind: DvbType, mode: TsMode, rate: nat)
    requires mode != Serial
    ensures var target, clock := TargetMclk(demod, kind, mode, rate), TsClock(kind, mode);
            FastestWithin(target, clock, Halves(CeilRatio(target, clock)))
  {
    RatioSmall(demod, kind, mode, rate);
    hide TargetMclk, CeilRatio;
    CeilRatioStaysBelow(TargetMclk(demod, kind, mode, rate), TsClock(kind, mode));
  }
}
