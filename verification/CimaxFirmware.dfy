/**
 * The firmware download of the CIMaX CAM controller: a 16-bit signature over the image, written and read back in
 * packets.
 */
module CimaxFirmware {
  import opened Wrappers
  import opened Bytes

  /* ---------- The signature ---------- */

  /** The bits of the signature register, least significant first. */
  type Sign = s: seq<bool> | |s| == 16 witness seq(16, _ => false)

  const ZERO: Sign := seq(16, _ => false)

  /** The bits of 0x88B7, least significant first. */
  const TAPS: seq<bool> :=
    [true, true, true, false, true, true, false, true, false, false, false, true, false, false, false, true]

  /** Bit k of an octet, least significant first. */
  function Bit(b: Byte, k: nat): bool
    requires k < 8
  {
    BitsOf(b)[7 - k]
  }

  /** The parity of the tapped bits among the lowest n. */
  function Feedback(s: Sign, n: nat): bool
    requires n <= 16
  {
    if n == 0 then false else Feedback(s, n - 1) != (TAPS[n - 1] && s[n - 1])
  }

  /**
   * One octet enters the register: it shifts up by one, the parity comes in below, and the octet is added to the low
   * bits.
   */
  function Step(s: Sign, b: Byte): (t: Sign) {
    seq(16, k requires 0 <= k < 16 =>
      if k == 0 then Bit(b, 0) != Feedback(s, 16)
      else if k < 8 then s[k - 1] != Bit(b, k)
      else s[k - 1])
  }

  function Signature(data: seq<Byte>, s: Sign): (t: Sign) {
    if data == [] then s else Step(Signature(data[..|data| - 1], s), data[|data| - 1])
  }

  method ComputeBistRom(tab: seq<Byte>, size: nat, firmwareSign: Sign) returns (sign: Sign)
    requires size <= |tab|
    ensures sign == Signature(tab[..size], firmwareSign)
  {
    sign := firmwareSign;
    for k := 0 to size
      invariant sign == Signature(tab[..k], firmwareSign)
    {
      var low := Bit(tab[k], 0);
      for i := 0 to 16
        invariant low == (Bit(tab[k], 0) != Feedback(sign, i))
      {
        if TAPS[i] {
          low := low != sign[i];
        }
      }
      var mid := seq(7, j requires 0 <= j < 7 => sign[j] != Bit(tab[k], j + 1));
      var next := [low] + mid + sign[7..15];
      assert next == Step(sign, tab[k]);
      assert tab[..k + 1][..k] == tab[..k];
      sign := next;
    }
  }

  lemma {:induction false} SignatureConcat(a: seq<Byte>, b: seq<Byte>, s: Sign)
    ensures Signature(a + b, s) == Signature(b, Signature(a, s))
  {
    if b == [] {
      assert a + b == a;
    } else {
      var n := |b| - 1;
      assert (a + b)[..|a + b| - 1] == a + b[..n];
      SignatureConcat(a, b[..n], s);
    }
  }

  /** The parity depends on the top bit alone once the others agree. */
  lemma {:induction false} SameFeedback(s: Sign, t: Sign, n: nat)
    requires n <= 15 && forall k | 0 <= k < n :: s[k] == t[k]
    ensures Feedback(s, n) == Feedback(t, n)
  {
    if n > 0 {
      SameFeedback(s, t, n - 1);
    }
  }

  /** No two register states become one: the octet being the same, the state before can be told from the state after. */
  lemma StepInjective(s: Sign, t: Sign, b: Byte)
    requires Step(s, b) == Step(t, b)
    ensures s == t
  {
    var u, v := Step(s, b), Step(t, b);
    forall k | 0 <= k < 15 ensures s[k] == t[k] {
      assert u[k + 1] == v[k + 1];
    }
    SameFeedback(s, t, 15);
    assert u[0] == v[0];
  }

  /** Nor do two octets have the same effect on one state. */
  lemma OctetInjective(s: Sign, a: Byte, b: Byte)
    requires Step(s, a) == Step(s, b)
    ensures a == b
  {
    var u, v := Step(s, a), Step(s, b);
    forall k | 0 <= k < 8 ensures Bit(a, k) == Bit(b, k) {
      assert u[k] == v[k];
    }
    forall k | 0 <= k < 8 ensures BitsOf(a)[k] == BitsOf(b)[k] {
      assert Bit(a, 7 - k) == Bit(b, 7 - k);
    }
    assert BitsOf(a) == BitsOf(b);
    BitsOfInjective(a, b);
  }

  /** What follows a difference neither hides nor creates it. */
  lemma {:induction false} TailKeepsDifference(tail: seq<Byte>, s: Sign, t: Sign)
    ensures Signature(tail, s) == Signature(tail, t) <==> s == t
  {
    if tail != [] {
      var n := |tail| - 1;
      TailKeepsDifference(tail[..n], s, t);
      if Signature(tail, s) == Signature(tail, t) {
        StepInjective(Signature(tail[..n], s), Signature(tail[..n], t), tail[n]);
      }
    }
  }

  /** Changing any one octet of an image of any length changes the signature. */
  lemma SingleOctetChangeDetected(image: seq<Byte>, k: nat, b: Byte, s: Sign)
    requires k < |image| && b != image[k]
    ensures Signature(image[k := b], s) != Signature(image, s)
  {
    var before, after := image[..k], image[k + 1..];
    assert image == before + [image[k]] + after && image[k := b] == before + [b] + after;
    SignatureConcat(before + [image[k]], after, s);
    SignatureConcat(before + [b], after, s);
    var at := Signature(before, s);
    assert (before + [image[k]])[..k] == before && (before + [b])[..k] == before;
    if Step(at, image[k]) == Step(at, b) {
      OctetInjective(at, image[k], b);
    }
    TailKeepsDifference(after, Step(at, image[k]), Step(at, b));
  }

  /** Bit k differs between two octets. */
  predicate Flipped(a: Byte, b: Byte, k: nat)
    requires k < 8
  {
    Bit(a, k) != Bit(b, k)
  }

  /**
   * The second octet undoes what the first one changed: the flips of the first moved up by one, with their parity
   * below.
   */
  predicate Undone(a: Byte, b: Byte, c: Byte, d: Byte) {
    && !Flipped(a, c, 7)
    && Flipped(b, d, 0) ==
       (Flipped(a, c, 0) != (Flipped(a, c, 1) != (Flipped(a, c, 2) != (Flipped(a, c, 4) != Flipped(a, c, 5)))))
    && forall k | 1 <= k < 8 :: Flipped(b, d, k) == Flipped(a, c, k - 1)
  }

  lemma FeedbackOfLow(s: Sign, t: Sign)
    requires forall k | 8 <= k < 16 :: s[k] == t[k]
    ensures (Feedback(s, 16) != Feedback(t, 16))
            == ((s[0] != t[0]) != ((s[1] != t[1]) != ((s[2] != t[2]) != ((s[4] != t[4]) != ((s[5] != t[5]) != (s[7] != t[7]))))))
  {
    LowFeedback(s);
    LowFeedback(t);
    HighFeedback(s, t, 16);
  }

  lemma LowFeedback(s: Sign)
    ensures Feedback(s, 8) == (s[0] != (s[1] != (s[2] != (s[4] != (s[5] != s[7])))))
  {
    assert Feedback(s, 1) == s[0];
    assert Feedback(s, 2) == (s[0] != s[1]);
    assert Feedback(s, 4) == Feedback(s, 3) == (Feedback(s, 2) != s[2]);
    assert Feedback(s, 5) == (Feedback(s, 4) != s[4]);
    assert Feedback(s, 7) == Feedback(s, 6) == (Feedback(s, 5) != s[5]);
    assert Feedback(s, 8) == (Feedback(s, 7) != s[7]);
  }

  lemma {:induction false} HighFeedback(s: Sign, t: Sign, n: nat)
    requires 8 <= n <= 16 && forall k | 8 <= k < 16 :: s[k] == t[k]
    ensures (Feedback(s, n) != Feedback(t, n)) == (Feedback(s, 8) != Feedback(t, 8))
  {
    if n > 8 {
      HighFeedback(s, t, n - 1);
    }
  }

  lemma TwoSteps(s: Sign, a: Byte, b: Byte, c: Byte, d: Byte)
    ensures Step(Step(s, a), b) == Step(Step(s, c), d) <==> Undone(a, b, c, d)
  {
    var x, y := Step(s, a), Step(s, c);
    assert forall k | 0 <= k < 8 :: (x[k] != y[k]) == Flipped(a, c, k);
    FeedbackOfLow(x, y);
    var u, v := Step(x, b), Step(y, d);
    assert forall k | 9 <= k < 16 :: u[k] == v[k];
    assert u[8] == v[8] <==> !Flipped(a, c, 7);
    assert forall k | 1 <= k < 8 :: u[k] == v[k] <==> Flipped(b, d, k) == Flipped(a, c, k - 1);
    SameLow(u, v);
  }

  lemma SameLow(u: Sign, v: Sign)
    requires forall k | 9 <= k < 16 :: u[k] == v[k]
    ensures u == v <==> u[0] == v[0] && u[8] == v[8] && forall k | 1 <= k < 8 :: u[k] == v[k]
  {
    if u[0] == v[0] && u[8] == v[8] && forall k | 1 <= k < 8 :: u[k] == v[k] {
      assert forall k | 0 <= k < 16 :: u[k] == v[k];
    }
  }

  /**
   * A change of two neighbouring octets goes unnoticed exactly when the second undoes the first, wherever it happens.
   */
  lemma NeighbourChangeHiddenIffUndone(head: seq<Byte>, a: Byte, b: Byte, c: Byte, d: Byte, tail: seq<Byte>, s: Sign)
    ensures Signature(head + [a, b] + tail, s) == Signature(head + [c, d] + tail, s) <==> Undone(a, b, c, d)
  {
    var at := Signature(head, s);
    SignatureConcat(head + [a, b], tail, s);
    SignatureConcat(head + [c, d], tail, s);
    SignatureConcat(head, [a, b], s);
    SignatureConcat(head, [c, d], s);
    PairSignature(a, b, at);
    PairSignature(c, d, at);
    TwoSteps(at, a, b, c, d);
    TailKeepsDifference(tail, Signature([a, b], at), Signature([c, d], at));
  }

  /** Two octets 0 read as 1 and 3 are such a change. */
  lemma ZerosAsOneThree()
    ensures Undone(0, 0, 1, 3)
  {
    assert BitsOf(0) == [false, false, false, false, false, false, false, false];
    assert BitsOf(1) == [false, false, false, false, false, false, false, true];
    assert BitsOf(3) == [false, false, false, false, false, false, true, true];
  }

  lemma PairSignature(a: Byte, b: Byte, s: Sign)
    ensures Signature([a, b], s) == Step(Step(s, a), b)
  {
    assert [a, b][..1] == [a] && [a][..0] == [];
    assert Signature([a], s) == Step(s, a);
  }

  /* ---------- The download ---------- */

  datatype Ret = NoError | Error

  /**
   * What happens to a packet: the octets that reach the chip, unless the write is refused, and whether reading them
   * back works.
   */
  datatype Transfer = Transfer(stored: Option<seq<Byte>>, readable: bool)

  /**
   * Packets start at 0x8000, hold 128 octets, and the last of the 160 ends at 0xCFF9; one more holds the vector
   * table.
   */
  function Address(k: nat): (a: nat)
    requires k <= 160
  {
    if k < 160 then 0x8000 + 128 * k else 0xFFFA
  }

  function Size(k: nat): (n: nat)
    requires k <= 160
  {
    if k < 159 then 128 else if k == 159 then 122 else 6
  }

  function Packet(file: seq<Byte>, k: nat): (p: seq<Byte>)
    requires k <= 160 && Address(k) + Size(k) <= |file|
    ensures |p| == Size(k)
  {
    file[Address(k)..Address(k) + Size(k)]
  }

  predicate Faithful(t: Transfer, packet: seq<Byte>) {
    t == Transfer(Some(packet), true)
  }

  function Patched(memory: seq<Byte>, addr: nat, data: seq<Byte>): (m: seq<Byte>)
    requires addr + |data| <= |memory|
    ensures |m| == |memory|
  {
    memory[..addr] + data + memory[addr + |data|..]
  }

  /** The octets that make up the firmware. */
  function Image(file: seq<Byte>): (image: seq<Byte>)
    requires |file| >= 0x1_0000
  {
    file[0x8000..0xCFFA] + file[0xFFFA..0x1_0000]
  }

  /** The packets in order. */
  function Packets(file: seq<Byte>, n: nat): (p: seq<Byte>)
    requires n <= 161 && |file| >= 0x1_0000
  {
    if n == 0 then [] else Packets(file, n - 1) + Packet(file, n - 1)
  }

  lemma {:induction false} ProgramPackets(file: seq<Byte>, n: nat)
    requires 0 < n <= 160 && |file| >= 0x1_0000
    ensures Packets(file, n) == file[0x8000..Address(n - 1) + Size(n - 1)]
  {
    if n > 1 {
      ProgramPackets(file, n - 1);
    } else {
      assert Packets(file, 0) == [];
    }
  }

  /** The packets cover the firmware without gap or overlap, and none is longer than 128 octets. */
  lemma PacketsTile(file: seq<Byte>)
    requires |file| >= 0x1_0000
    ensures Packets(file, 161) == Image(file)
    ensures forall k | 0 <= k <= 160 :: 0 < |Packet(file, k)| <= 128
  {
    ProgramPackets(file, 160);
    assert Packets(file, 161) == Packets(file, 160) + Packet(file, 160);
  }

  class Chip {
    var memory: seq<Byte>

    constructor (content: seq<Byte>)
      requires |content| == 0x1_0000
      ensures memory == content
    {
      memory := content;
    }

    /** Writes a packet, reads it back and compares. */
    method WriteAndCompare(addr: nat, data: seq<Byte>, t: Transfer) returns (ok: bool)
      requires |memory| == 0x1_0000 && addr + |data| <= 0x1_0000
      requires t.stored.Some? ==> |t.stored.value| == |data|
      modifies this
      ensures ok <==> Faithful(t, data)
      ensures memory == if t.stored.Some? then Patched(old(memory), addr, t.stored.value) else old(memory)
    {
      if t.stored.None? {
        return false;
      }
      memory := Patched(memory, addr, t.stored.value);
      if !t.readable {
        return false;
      }
      var back := memory[addr..addr + |data|];
      assert back == t.stored.value;
      ok := back == data;
    }

    /** The packets of the program area, one after the other. */
    method DownloadProgram(file: seq<Byte>, transfers: nat -> Transfer) returns (ok: bool, sign: Sign)
      requires |memory| == 0x1_0000
      requires forall k | 0 <= k <= 160 && transfers(k).stored.Some? :: |transfers(k).stored.value| == Size(k)
      modifies this
      ensures |memory| == 0x1_0000
      ensures ok <==> |file| >= 0xCFFA && forall k | 0 <= k < 160 :: Faithful(transfers(k), Packet(file, k))
      ensures ok ==> memory == Patched(old(memory), 0x8000, file[0x8000..0xCFFA])
      ensures ok ==> sign == Signature(file[0x8000..0xCFFA], ZERO)
    {
      hide Signature, Patched;
      sign := ZERO;
      var currAddr: nat := 0x8000;
      var k: nat := 0;
      while currAddr < 0xCFFA
        invariant k <= 160 && currAddr == (if k < 160 then Address(k) else 0xCFFA)
        invariant k > 0 ==> currAddr <= |file|
        invariant |memory| == 0x1_0000
        invariant if k == 0 then memory == old(memory) && sign == ZERO
                  else memory == Patched(old(memory), 0x8000,
                                         file[0x8000..currAddr]) && sign == Signature(file[0x8000..currAddr], ZERO)
        invariant forall j | 0 <= j < k :: Faithful(transfers(j), Packet(file, j))
        decreases 160 - k
      {
        var packetSize: nat := Wrap8(if currAddr <= 0xCFF9 + 1 - 128 then 128 else 0xCFF9 + 1 - currAddr);
        if |file| < currAddr + packetSize {
          return false, sign;
        }
        var bufferOut := file[currAddr..currAddr + packetSize];
        assert bufferOut == Packet(file, k);
        sign := ComputeBistRom(bufferOut, packetSize, sign);
        assert bufferOut[..packetSize] == bufferOut;
        ok := WriteAndCompare(currAddr, bufferOut, transfers(k));
        if !ok {
          return false, sign;
        }
        Extends(file, old(memory), currAddr, packetSize);
        currAddr := Wrap16(currAddr + packetSize);
        k := k + 1;
      }
      ok := true;
    }

    /**
     * The whole download. The boot status is the chip's answer to its memory and the signature it was sent.
     */
    method DownloadFW(file: Option<seq<Byte>>, transfers: nat -> Transfer, bootStatus: (seq<Byte>, Sign) -> Byte,
                      initialised: bool) returns (r: Ret)
      requires |memory| == 0x1_0000
      requires forall k | 0 <= k <= 160 && transfers(k).stored.Some? :: |transfers(k).stored.value| == Size(k)
      modifies this
      ensures |memory| == 0x1_0000
      ensures r == NoError ==> file.Some? && |file.value| >= 0x1_0000 && Image(memory) == Image(file.value)
      ensures r == NoError ==>
               memory[..0x8000] == old(memory[..0x8000]) && memory[0xCFFA..0xFFFA] == old(memory[0xCFFA..0xFFFA])
      ensures r == NoError <==> Succeeds(old(memory), file, transfers, bootStatus, initialised)
    {
      hide Signature, Patched;
      if file.None? {
        return Error;
      }
      var ok, sign := DownloadProgram(file.value, transfers);
      if !ok || |file.value| < 0x1_0000 {
        return Error;
      }
      var bufferOut := file.value[0xFFFA..0x1_0000];
      assert bufferOut == Packet(file.value, 160);
      sign := ComputeBistRom(bufferOut, 6, sign);
      assert bufferOut[..6] == bufferOut;
      SignatureConcat(file.value[0x8000..0xCFFA], bufferOut, ZERO);
      ok := WriteAndCompare(0xFFFA, bufferOut, transfers(160));
      if !ok {
        return Error;
      }
      assert memory == Loaded(old(memory), file.value);
      LoadedImage(old(memory), file.value);
      if bootStatus(memory, sign) != 0x02 {
        return Error;
      }
      r := if initialised then NoError else Error;
    }
  }

  lemma Extends(file: seq<Byte>, memory: seq<Byte>, addr: nat, size: nat)
    requires |memory| == 0x1_0000 && 0x8000 <= addr && addr + size <= 0xCFFA && addr + size <= |file|
    ensures Patched(Patched(memory, 0x8000, file[0x8000..addr]), addr, file[addr..addr + size])
            == Patched(memory, 0x8000, file[0x8000..addr + size])
    ensures addr == 0x8000 ==>
             Patched(memory, addr, file[addr..addr + size]) == Patched(memory, 0x8000, file[0x8000..addr + size])
    ensures Signature(file[addr..addr + size], Signature(file[0x8000..addr],
                                                         ZERO)) == Signature(file[0x8000..addr + size], ZERO)
    ensures addr == 0x8000 ==> Signature(file[addr..addr + size], ZERO) == Signature(file[0x8000..addr + size], ZERO)
  {
    assert file[0x8000..addr + size] == file[0x8000..addr] + file[addr..addr + size];
    SignatureConcat(file[0x8000..addr], file[addr..addr + size], ZERO);
    PatchedTwice(memory, 0x8000, file[0x8000..addr], file[addr..addr + size]);
  }

  lemma PatchedTwice(memory: seq<Byte>, addr: nat, a: seq<Byte>, b: seq<Byte>)
    requires addr + |a| + |b| <= |memory|
    ensures Patched(Patched(memory, addr, a), addr + |a|, b) == Patched(memory, addr, a + b)
  {}

  /** The memory with both parts of the firmware in place. */
  function Loaded(memory: seq<Byte>, file: seq<Byte>): (m: seq<Byte>)
    requires |memory| == 0x1_0000 && |file| >= 0x1_0000
  {
    Patched(Patched(memory, 0x8000, file[0x8000..0xCFFA]), 0xFFFA, file[0xFFFA..0x1_0000])
  }

  lemma LoadedImage(memory: seq<Byte>, file: seq<Byte>)
    requires |memory| == 0x1_0000 && |file| >= 0x1_0000
    ensures |Loaded(memory, file)| == 0x1_0000 && Image(Loaded(memory, file)) == Image(file)
    ensures Loaded(memory, file)[..0x8000] == memory[..0x8000]
    ensures Loaded(memory, file)[0xCFFA..0xFFFA] == memory[0xCFFA..0xFFFA]
  {
    var m := Loaded(memory, file);
    assert m[0x8000..0xCFFA] == file[0x8000..0xCFFA];
    assert m[0xFFFA..0x1_0000] == file[0xFFFA..0x1_0000];
  }

  /**
   * The file is whole, every packet arrives as sent and can be read back, and the chip is content with the image's
   * own signature.
   */
  predicate Succeeds(memory: seq<Byte>, file: Option<seq<Byte>>, transfers: nat -> Transfer, bootStatus: (seq<Byte>,
                     Sign) -> Byte, initialised: bool)
    requires |memory| == 0x1_0000
  {
    && file.Some? && |file.value| >= 0x1_0000
    && (forall k | 0 <= k <= 160 :: Faithful(transfers(k), Packet(file.value, k)))
    && bootStatus(Loaded(memory, file.value), Signature(Image(file.value), ZERO)) == 0x02
    && initialised
  }

  /**
   * A chip that reports 2 when the signature of its own memory is the one it was sent, and another status otherwise.
   */
  ghost predicate Honest(bootStatus: (seq<Byte>, Sign) -> Byte) {
    forall m: seq<Byte>, s: Sign | |m| == 0x1_0000 :: bootStatus(m, s) == 0x02 <==> Signature(Image(m), ZERO) == s
  }

  /** With such a chip the signature never fails a download whose packets all arrived. */
  lemma HonestChipAccepts(memory: seq<Byte>, file: seq<Byte>, transfers: nat -> Transfer, bootStatus: (seq<Byte>,
                          Sign) -> Byte)
    requires |memory| == 0x1_0000 && |file| >= 0x1_0000 && Honest(bootStatus)
    ensures Succeeds(memory, Some(file), transfers, bootStatus, true)
            <==> forall k | 0 <= k <= 160 :: Faithful(transfers(k), Packet(file, k))
  {
    LoadedImage(memory, file);
  }

  /** And it notices any one octet of the firmware that decayed after the comparison. */
  lemma HonestChipRejectsDecay(file: seq<Byte>, memory: seq<Byte>, k: nat, b: Byte, bootStatus: (seq<Byte>,
                               Sign) -> Byte)
    requires |memory| == 0x1_0000 && |file| >= 0x1_0000 && Honest(bootStatus)
    requires k < |Image(file)| && b != Image(file)[k] && Image(memory) == Image(file)[k := b]
    ensures bootStatus(memory, Signature(Image(file), ZERO)) != 0x02
  {
    SingleOctetChangeDetected(Image(file), k, b, ZERO);
  }
}
