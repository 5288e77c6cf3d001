/** How the CIMaX driver cuts messages to the CAM, and reads from the chip, into transfers on the SPI bus. */
module CimaxSpi {
  import opened Wrappers
  import opened Bytes

  /* ---------- Messages to the CAM ---------- */

  datatype Message = Message(cmd: Byte, payload: seq<Byte>)

  /** Commands to the second slot have their top bit set. */
  function ForSlot(slotId: Byte, cmd: Byte): (c: Byte) {
    if slotId != 0 && cmd < 0x80 then cmd + 0x80 else cmd
  }

  /** A four-octet header, command, packet counter and length, and the payload. */
  function Encode(m: Message): (octets: seq<Byte>)
    requires |m.payload| < 0x1_0000
    ensures |octets| == 4 + |m.payload|
  {
    [m.cmd, 0x01, |m.payload| / 256, |m.payload| % 256] + m.payload
  }

  /** What the chip makes of the octets it is sent: nothing until the announced payload is complete. */
  function Decode(octets: seq<Byte>): (m: Option<Message>) {
    if |octets| < 4 then None
    else
      var n := (octets[2] as int) * 256 + octets[3] as int;
      if |octets| < 4 + n then None else Some(Message(octets[0], octets[4..4 + n]))
  }

  /** How many transfers a message takes. */
  function Transfers(n: nat): (k: nat)
    ensures k > 0
  {
    if n <= 256 then 1 else n / 256 + (if n % 256 > 0 then 1 else 0)
  }

  /** The lengths for which the last transfer carries the rest of the message. */
  predicate Complete(n: nat) {
    n <= 256 || n % 256 != 0
  }

  /**
   * Sends a message; works(k) says whether transfer k does. The message is put together in a buffer for 4096 octets of
   * payload: a longer one is copied past its end, and the model stops there.
   */
  method SendToCam(slotId: Byte, command: Byte, bufferOut: seq<Byte>, numOfBytes: nat, works: nat -> bool)
      returns (ok: bool, inside: bool, sent: seq<seq<Byte>>)
    requires numOfBytes <= |bufferOut| && numOfBytes < 0x1_0000
    ensures inside <==> numOfBytes <= 4096
    ensures ok <==> inside && forall k | 0 <= k < Transfers(numOfBytes) :: works(k)
    ensures forall k | 0 <= k < |sent| :: |sent[k]| <= 260
    ensures var octets := Encode(Message(ForSlot(slotId, command), bufferOut[..numOfBytes]));
            if ok then Flatten(sent) == (if Complete(numOfBytes) then octets else octets[..numOfBytes])
            else Flatten(sent) <= octets
    ensures ok ==>
              (Decode(Flatten(sent)) == Some(Message(ForSlot(slotId, command), bufferOut[..numOfBytes]))
               <==> Complete(numOfBytes))
  {
    hide Decode, Encode;
    sent := [];
    inside := numOfBytes <= 4096;
    if !inside {
      return false, inside, sent;
    }
    var cmd: Byte := command;
    if slotId != 0 {
      cmd := command % 0x80 + 0x80;
    }
    var buf: seq<Byte> := [cmd, 0x01, numOfBytes / 256 % 256, numOfBytes % 256] + bufferOut[..numOfBytes];
    EncodedAs(Message(cmd, bufferOut[..numOfBytes]), buf);
    ok, sent := SendBuffer(buf, numOfBytes, works);
    ReceivedIffComplete(Message(cmd, bufferOut[..numOfBytes]), numOfBytes);
  }

  lemma EncodedAs(m: Message, buf: seq<Byte>)
    requires |m.payload| < 0x1_0000
    requires buf == [m.cmd, 0x01, |m.payload| / 256 % 256, |m.payload| % 256] + m.payload
    ensures Encode(m) == buf
  {}

  /** The transfers of a header and its payload. */
  method SendBuffer(buf: seq<Byte>, numOfBytes: nat, works: nat -> bool) returns (ok: bool, sent: seq<seq<Byte>>)
    requires |buf| == numOfBytes + 4
    ensures ok <==> forall k | 0 <= k < Transfers(numOfBytes) :: works(k)
    ensures forall k | 0 <= k < |sent| :: |sent[k]| <= 260
    ensures if ok then Flatten(sent) == (if Complete(numOfBytes) then buf else buf[..numOfBytes])
            else Flatten(sent) <= buf
  {
    sent := [];
    if numOfBytes > 256 {
      var counter: nat := 0;
      while counter < numOfBytes / 256
        invariant counter <= numOfBytes / 256 && |sent| == counter
        invariant Flatten(sent) == buf[..counter * 256]
        invariant forall k | 0 <= k < |sent| :: |sent[k]| <= 260
        invariant forall k | 0 <= k < counter :: works(k)
      {
        if !works(counter) {
          return false, sent;
        }
        FlattenAppend(sent, buf[counter * 256..(counter + 1) * 256]);
        sent := sent + [buf[counter * 256..(counter + 1) * 256]];
        counter := counter + 1;
      }
      var numOfBytesLeft := numOfBytes - counter * 256;
      if numOfBytesLeft > 0 {
        if !works(counter) {
          return false, sent;
        }
        FlattenAppend(sent, buf[counter * 256..counter * 256 + numOfBytesLeft + 4]);
        sent := sent + [buf[counter * 256..counter * 256 + numOfBytesLeft + 4]];
      }
    } else {
      if !works(0) {
        return false, sent;
      }
      FlattenAppend(sent, buf);
      sent := sent + [buf];
    }
    ok := true;
  }

  lemma DecodeEncode(m: Message, more: seq<Byte>)
    requires |m.payload| < 0x1_0000
    ensures Decode(Encode(m) + more) == Some(m)
  {
    var octets := Encode(m) + more;
    assert (octets[2] as int) * 256 + octets[3] as int == |m.payload|;
    assert octets[4..4 + |m.payload|] == m.payload;
  }

  /** The chip receives the message exactly when its payload is at most 256 octets or not a multiple of 256. */
  lemma ReceivedIffComplete(m: Message, n: nat)
    requires n == |m.payload| < 0x1_0000
    ensures Decode(if Complete(n) then Encode(m) else Encode(m)[..n]) == Some(m) <==> Complete(n)
    ensures !Complete(n) ==> Decode(Encode(m)[..n]) == None
  {
    DecodeEncode(m, []);
    assert Encode(m) + [] == Encode(m);
    if !Complete(n) {
      var cut := Encode(m)[..n];
      assert (cut[2] as int) * 256 + cut[3] as int == n;
    }
  }

  /** Two blocks of 256 octets are never completed: the last four octets stay behind. */
  lemma TwoBlocksLost(cmd: Byte)
    ensures Decode(Encode(Message(cmd, seq(512, _ => 0)))[..512]) == None
  {
    ReceivedIffComplete(Message(cmd, seq(512, _ => 0)), 512);
  }

  /* ---------- Reads ---------- */

  function Total(counts: seq<nat>): nat {
    if counts == [] then 0 else Total(counts[..|counts| - 1]) + counts[|counts| - 1]
  }

  lemma NoneTotal()
    ensures Total([]) == 0
  {}

  lemma TotalAppend(counts: seq<nat>, last: nat)
    ensures Total(counts + [last]) == Total(counts) + last
  {
    assert (counts + [last])[..|counts|] == counts;
  }

  /** One transfer: the next words from the chip go to a place in the buffer. */
  method ReadWords(readBuf: array<nat>, at: nat, count: nat, words: nat -> nat, position: nat)
    requires at + count <= readBuf.Length
    modifies readBuf
    ensures forall i | 0 <= i < readBuf.Length ::
              readBuf[i] == if at <= i < at + count then words(position + (i - at)) else old(readBuf[i])
  {
    for i := 0 to count
      invariant forall j | 0 <= j < readBuf.Length ::
                  readBuf[j] == if at <= j < at + i then words(position + (j - at)) else old(readBuf[j])
    {
      readBuf[at + i] := words(position + i);
    }
  }

  /** The full blocks of a long read. */
  method ReadBlocks(readBuf: array<nat>, words: nat -> nat, works: nat -> bool) returns (ok: bool, counts: seq<nat>)
    modifies readBuf
    ensures ok <==> forall k | 0 <= k < readBuf.Length / 256 :: works(k)
    ensures ok ==>
             Total(counts) == readBuf.Length / 256 * 256 && forall i | 0 <= i < Total(counts) :: readBuf[i] == words(i)
    ensures forall k | 0 <= k < |counts| :: counts[k] <= 256
  {
    hide Total;
    NoneTotal();
    counts := [];
    var counter: nat := 0;
    while counter < readBuf.Length / 256
      invariant counter <= readBuf.Length / 256 && Total(counts) == counter * 256
      invariant forall i | 0 <= i < counter * 256 :: readBuf[i] == words(i)
      invariant forall k | 0 <= k < counter :: works(k)
      invariant forall k | 0 <= k < |counts| :: counts[k] <= 256
    {
      if !works(counter) {
        return false, counts;
      }
      ReadWords(readBuf, counter * 256, 256, words, counter * 256);
      TotalAppend(counts, 256);
      counts := counts + [256];
      counter := counter + 1;
    }
    ok := true;
  }

  /** Every transfer of a read; works(k) says whether transfer k does. */
  method FillBuffer(readBuf: array<nat>, words: nat -> nat, works: nat -> bool) returns (ok: bool, counts: seq<nat>)
    modifies readBuf
    ensures ok <==> forall k | 0 <= k < Transfers(readBuf.Length) :: works(k)
    ensures ok ==> Total(counts) == readBuf.Length && forall i | 0 <= i < readBuf.Length :: readBuf[i] == words(i)
    ensures forall k | 0 <= k < |counts| :: counts[k] <= 256
  {
    hide Total;
    var numOfBytes := readBuf.Length;
    if numOfBytes > 256 {
      ok, counts := ReadBlocks(readBuf, words, works);
      if !ok {
        return;
      }
      var readBytes: nat := numOfBytes / 256 * 256;
      if readBytes < numOfBytes {
        if !works(numOfBytes / 256) {
          return false, counts;
        }
        ReadWords(readBuf, readBytes, numOfBytes - readBytes, words, readBytes);
        TotalAppend(counts, numOfBytes - readBytes);
        counts := counts + [numOfBytes - readBytes];
      }
    } else {
      counts := [];
      NoneTotal();
      if !works(0) {
        return false, counts;
      }
      ReadWords(readBuf, 0, numOfBytes, words, 0);
      TotalAppend(counts, numOfBytes);
      counts := counts + [numOfBytes];
    }
    ok := true;
  }

  /** Reads octets, each in a word of its own; the chip delivers its words in order. */
  method SpiRead(buff: array<Byte>, numOfBytes: nat, words: nat -> nat, works: nat -> bool)
      returns (count: nat, counts: seq<nat>)
    requires numOfBytes <= buff.Length
    modifies buff
    ensures (forall k | 0 <= k < Transfers(numOfBytes) :: works(k)) ==>
              && count == numOfBytes && Total(counts) == numOfBytes
              && (forall i | 0 <= i < numOfBytes :: buff[i] == Wrap8(words(i)))
              && buff[numOfBytes..] == old(buff[numOfBytes..])
    ensures !(forall k | 0 <= k < Transfers(numOfBytes) :: works(k)) ==> count == 0 && buff[..] == old(buff[..])
    ensures forall k | 0 <= k < |counts| :: counts[k] <= 256
  {
    var readBuf := new nat[numOfBytes](_ => 0);
    var ok;
    ok, counts := FillBuffer(readBuf, words, works);
    if !ok {
      return 0, counts;
    }
    CopyOctets(readBuf, buff, numOfBytes);
    count := numOfBytes;
  }

  method CopyOctets(readBuf: array<nat>, buff: array<Byte>, n: nat)
    requires n <= readBuf.Length && n <= buff.Length
    modifies buff
    ensures forall i | 0 <= i < n :: buff[i] == Wrap8(readBuf[i])
    ensures buff[n..] == old(buff[n..])
  {
    for i := 0 to n
      invariant forall j | 0 <= j < i :: buff[j] == Wrap8(readBuf[j])
      invariant buff[n..] == old(buff[n..])
    {
      buff[i] := Wrap8(readBuf[i]);
    }
  }
}
