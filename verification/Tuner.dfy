/** The M88TS2022 tuner's frequency divider, and the carrier offset that makes up for its coarse steps. */
module Tuner {
  import opened Bytes
  import opened Transponders
  import opened Demodulator

  /** The divider as a 14-bit number: the code skips two ranges. */
  function Code(divN: nat): (n: nat)
    ensures n < 0x1_0000_0000
  {
    if divN < 4095 then Wrap32(divN - 1024) else if divN < 6143 then Wrap32(divN + 1024) else Wrap32(divN + 3072)
  }

  /** The divider for a 14-bit number. */
  function Divider(n: nat): (d: nat) {
    if n < 3072 then n + 1024 else if n < 8192 then n - 1024 else n - 3072
  }

  /** Cutting the code to fourteen bits loses no even divider exactly from 1024 up to 13311. */
  lemma DividerKept(divN: nat)
    requires divN % 2 == 0 && divN < 0x8000_0000
    ensures Divider(Code(divN) % 0x4000) == divN <==> 1024 <= divN < 13312
  {
    if divN < 1024 {
      assert Code(divN) == divN + 0xFFFF_FC00;
      assert Code(divN) % 0x4000 == divN + 0x3C00;
    } else if divN >= 13312 {
      assert Divider(Code(divN) % 0x4000) < 13312;
    }
  }

  /** The local oscillator in kHz for a divider of the 27 MHz crystal. */
  function Oscillator(divN: nat, k: nat, div4: nat): (f: nat) {
    divN * 27000 / (k + 8) / (div4 + 1) / 2
  }

  /** The divider that the driver chooses for a frequency in MHz. */
  function Choice(fPLL: nat): (d: nat)
    ensures d % 2 == 0
  {
    var d := if fPLL < 1103 then fPLL * 14 * 4000 / 27000 else fPLL * 14 * 2000 / 27000;
    d + d % 2
  }

  /**
   * Over the whole band, and the 3 MHz above it that low symbol rates need, the chosen divider survives its code and
   * misses the frequency by less than 966 kHz, half that below 1103 MHz.
   */
  lemma ChoiceClose(fPLL: nat)
    requires 950 <= fPLL <= 2153
    ensures 1024 <= Choice(fPLL) < 4095
    ensures fPLL < 1103 ==> -483 <= Oscillator(Choice(fPLL), 6, 1) - 1000 * fPLL <= 482
    ensures fPLL >= 1103 ==> -965 <= Oscillator(Choice(fPLL), 6, 0) - 1000 * fPLL <= 964
  {
    var divN := Choice(fPLL);
    if fPLL < 1103 {
      assert 56000 * fPLL - 27000 < 27000 * divN <= 56000 * fPLL + 27000;
      Nested(divN * 27000, 2);
    } else {
      assert 28000 * fPLL - 27000 < 27000 * divN <= 28000 * fPLL + 27000;
      Nested(divN * 27000, 1);
    }
  }

  lemma Nested(n: nat, d: nat)
    requires d == 1 || d == 2
    ensures n / 14 / d / 2 == n / (28 * d)
  {}

  lemma OscillatorForSix(divN: nat, div4: nat)
    requires div4 <= 1
    ensures Oscillator(divN, 6, div4) == divN * 27000 / 14 / (div4 + 1) / 2
  {}

  lemma CodeOctets(n: nat)
    ensures 256 * (n / 256 % 64) + n % 256 == n % 0x4000
  {}

  function WithBit7(reg: Byte): (r: Byte)
    ensures r % 0x80 == reg % 0x80 && r >= 0x80
  {
    if reg < 0x80 then reg + 0x80 else reg
  }

  function WithoutBit1(reg: Byte): (r: Byte)
    ensures r / 4 == reg / 4 && r % 4 == (reg % 4) % 2
  {
    if reg / 2 % 2 == 1 then reg - 2 else reg
  }

  class Tuner {
    var reg01: Byte
    var reg02: Byte
    var reg03: Byte
    var reg10: Byte
    var reg11: Byte
    var freqOffset: int

    constructor ()
      ensures freqOffset == 0
    {
      reg01, reg02, reg03, reg10, reg11, freqOffset := 0, 0, 0, 0, 0, 0;
    }

    /** The frequency that the registers make the tuner run at. */
    function Frequency(): nat
      reads `reg01, `reg02, `reg03, `reg10
    {
      Oscillator(Divider(256 * (reg01 as int % 64) + reg02 as int), reg03 as int, reg10 as int / 16 % 2)
    }

    /** Stores the divider for a frequency in MHz. */
    method SetDivider(fPLL: nat) returns (divN: nat, div4: nat)
      requires 950 <= fPLL <= 2153
      modifies `reg01, `reg02, `reg03, `reg10, `reg11
      ensures divN == Choice(fPLL) && div4 == (if fPLL < 1103 then 1 else 0)
      ensures Divider(256 * (reg01 as int % 64) + reg02 as int) == divN && reg03 == 6
      ensures reg10 == (if fPLL < 1103 then 0x1b else 0x0b)
    {
      reg10, reg11 := 0x0b, 0x40;
      div4 := 0;
      if fPLL < 1103 {
        reg10 := 0x1b;
        div4 := 1;
        divN := fPLL * 14 * 4000 / 27000;
      } else {
        divN := fPLL * 14 * 2000 / 27000;
      }
      divN := divN + divN % 2;
      assert divN == Choice(fPLL);
      ChoiceClose(fPLL);
      hide Choice;
      DividerKept(divN);
      var n: nat := Code(divN);
      hide Code, Divider;
      var high: Byte := n / 256 % 64;
      var low: Byte := n % 256;
      CodeOctets(n);
      reg01, reg02, reg03 := high, low, 6;
    }

    /** The two readings of register 0x14 make the driver change settings of the oscillator, but not its divider. */
    method AdjustOscillator(firstReading: Byte, secondReading: Byte)
      requires reg10 == 0x0b || reg10 == 0x1b
      modifies `reg10, `reg11
      ensures reg10 as int / 16 % 2 == old(reg10) as int / 16 % 2
    {
      if firstReading % 128 < 64 {
        reg10 := WithBit7(reg10);
        reg11 := 0x6f;
      }
      if secondReading % 32 > 19 {
        reg10 := WithoutBit1(reg10);
      }
    }

    /** Programs the tuner for a frequency in MHz and returns by how many kHz its oscillator is off. */
    method SetTuner(fPLL: nat, firstReading: Byte, secondReading: Byte) returns (offset: int)
      requires 950 <= fPLL <= 2153
      modifies `reg01, `reg02, `reg03, `reg10, `reg11
      ensures offset == Frequency() - 1000 * fPLL
      ensures -965 <= offset <= 964 && (fPLL < 1103 ==> -483 <= offset <= 482)
    {
      hide Choice, Divider, Oscillator;
      var divN, div4 := SetDivider(fPLL);
      AdjustOscillator(firstReading, secondReading);
      OscillatorForSix(divN, div4);
      ChoiceClose(fPLL);
      offset := divN * 27000 / 14 / (div4 + 1) / 2 - fPLL * 1000;
    }

    /** Tunes to a frequency in kHz; the offset kept is the distance from it. */
    method SetFreq(freq: nat, firstReading: Byte, secondReading: Byte)
      requires 949500 <= freq <= 2153499
      modifies this
      ensures freqOffset == Frequency() - freq && -1464 <= freqOffset <= 1464
      ensures -965 <= Frequency() - (freq + 500) / 1000 * 1000 <= 964
    {
      var freqMHz := (freq + 500) / 1000;
      freqOffset := SetTuner(freqMHz, firstReading, secondReading);
      freqOffset := freqOffset + freqMHz * 1000 - freq;
    }
  }

  lemma WholeMHz(m: nat)
    ensures (m * 1000 + 500) / 1000 * 1000 == m * 1000
  {}

  /**
   * The tuning part of a connection outside unicable mode. Low symbol rates are received 3 MHz off centre. The carrier
   * offset that the demodulator is given is, to within 3 kHz, the distance of the oscillator from the wanted frequency.
   */
  method TuneTo(tuner: Tuner, demodulator: Demodulator, freqMHz: nat, rate: nat, inverted: bool, firstReading: Byte,
                secondReading: Byte)
    requires 950 <= freqMHz <= 2150
    modifies tuner, demodulator`regs
    ensures var d := CarrierOf(Word(demodulator.regs, 0x5f, 0x5e));
            var wanted := tuner.Frequency() - 1000 * freqMHz;
            if inverted && demodulator.demod == DS300X then -3 <= d + wanted <= 3 else -3 <= d - wanted <= 3
    ensures rate < 5000 ==> -965 <= tuner.Frequency() - 1000 * (freqMHz + 3) <= 964
    ensures rate >= 5000 ==> -965 <= tuner.Frequency() - 1000 * freqMHz <= 964
    ensures Only(old(demodulator.regs), demodulator.regs, 0x5f, 0x5e)
  {
    hide CarrierOf, Tuner.Frequency;
    var freq := freqMHz * 1000;
    WholeMHz(freqMHz);
    WholeMHz(freqMHz + 3);
    var lpfOffset := 0;
    if rate < 5000 {
      lpfOffset := 3000;
      freq := freq + 3000;
    }
    tuner.SetFreq(freq, firstReading, secondReading);
    if inverted && demodulator.demod == DS300X {
      demodulator.SetCarrierOffset(-tuner.freqOffset - lpfOffset);
    } else {
      demodulator.SetCarrierOffset(tuner.freqOffset + lpfOffset);
    }
  }
}
