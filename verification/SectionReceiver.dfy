/** The demultiplexer's section-complete event: framing and the checksum gate. */
module SectionReceiver {
  import opened Wrappers
  import opened Bytes
  import opened Crc32

  datatype HResult = S_OK | E_FAIL

  const SECTION_SIZE_INFO: nat := 3

  /** Time and date sections carry no checksum. */
  const TDT_TABLE_ID: Byte := 0x70

  function LengthField(s: seq<Byte>): (n: nat)
    requires |s| >= SECTION_SIZE_INFO
    ensures n < 4096
  {
    (s[1] as int) % 16 * 256 + s[2]
  }

  /** A whole section: its length field counts exactly what follows the field. */
  predicate Framed(s: seq<Byte>) {
    |s| >= SECTION_SIZE_INFO && |s| == SECTION_SIZE_INFO + LengthField(s)
  }

  predicate Accepted(s: seq<Byte>) {
    s != [] && (s[0] == TDT_TABLE_ID || Crc(s) == 0)
  }

  /** What one event does to the ring buffer, and what it hands to the callback. */
  datatype Reception = Reception(hr: HResult, rest: seq<Byte>, delivered: Option<seq<Byte>>)

  function Receive(ring: seq<Byte>): Reception {
    if ring == [] then Reception(E_FAIL, [], None)
    else if |ring| < SECTION_SIZE_INFO then Reception(S_OK, ring, None)
    else
      var size := SECTION_SIZE_INFO + LengthField(ring);
      if |ring| < size then Reception(E_FAIL, [], None)
      else Reception(S_OK, ring[size..], if Accepted(ring[..size]) then Some(ring[..size]) else None)
  }

  class Receiver {
    /** Octets the hardware filter has written and nobody has read yet. */
    var ring: seq<Byte>
    const crc: Checksum

    ghost predicate Valid()
      reads this, crc, crc.table
    {
      crc.Valid()
    }

    constructor ()
      ensures Valid() && ring == [] && fresh(crc) && fresh(crc.table)
    {
      crc := new Checksum();
      ring := [];
    }

    /** Reads n octets, or fails and reads nothing when fewer are there. */
    method StreamBufRead(n: nat) returns (ok: bool, data: seq<Byte>)
      modifies `ring
      ensures ok == (n <= |old(ring)|)
      ensures if ok then data + ring == old(ring) && |data| == n else ring == old(ring) && data == []
    {
      if n <= |ring| {
        ok, data, ring := true, ring[..n], ring[n..];
      } else {
        ok, data := false, [];
      }
    }

    method SectionReceived() returns (hr: HResult, delivered: Option<seq<Byte>>)
      requires Valid()
      modifies `ring, crc.table
      ensures Valid()
      ensures Reception(hr, ring, delivered) == Receive(old(ring))
    {
      var fullness := |ring|;
      if fullness <= 0 {
        return E_FAIL, None;
      }
      if fullness < SECTION_SIZE_INFO {
        return S_OK, None;
      }
      var ok, buffer := StreamBufRead(SECTION_SIZE_INFO);
      var sectionSize := LengthField(buffer);
      var body;
      ok, body := StreamBufRead(sectionSize);
      if !ok {
        var _, _ := StreamBufRead(|ring|);
        return E_FAIL, None;
      }
      buffer := buffer + body;
      assert old(ring) == buffer + ring;
      var checksum := new Byte[4](_ => 0);
      if buffer[0] != TDT_TABLE_ID {
        crc.WriteChecksum(checksum, buffer);
        ZeroOctets(Crc(buffer));
      }
      hr := S_OK;
      if checksum[..] != [0, 0, 0, 0] {
        delivered := None;
      } else {
        delivered := Some(buffer);
      }
    }
  }

  lemma ZeroOctets(reg: bv32)
    ensures BigEndian(reg) == [0, 0, 0, 0] <==> reg == 0
  {
    OwnOctetsClear(reg);
    OwnOctetsClear(0);
    if BigEndian(reg) == [0, 0, 0, 0] {
      ShiftInjective(reg, 0, BitStream([0, 0, 0, 0]));
    }
  }

  /* ---------- Whole streams ---------- */

  predicate AllFramed(sections: seq<seq<Byte>>) {
    forall k | 0 <= k < |sections| :: Framed(sections[k])
  }

  function Kept(sections: seq<seq<Byte>>): seq<seq<Byte>> {
    if sections == [] then []
    else (if Accepted(sections[0]) then [sections[0]] else []) + Kept(sections[1..])
  }

  /** The sections delivered by n events in a row. */
  function Deliveries(ring: seq<Byte>, n: nat): seq<seq<Byte>>
    decreases n
  {
    if n == 0 then []
    else
      var r := Receive(ring);
      (if r.delivered.Some? then [r.delivered.value] else []) + Deliveries(r.rest, n - 1)
  }

  lemma FirstReceived(s: seq<Byte>, ring: seq<Byte>)
    requires Framed(s)
    ensures Receive(s + ring) == Reception(S_OK, ring, if Accepted(s) then Some(s) else None)
  {
    var whole := s + ring;
    assert LengthField(whole) == LengthField(s);
    assert whole[..|s|] == s && whole[|s|..] == ring;
  }

  /** However sections are packed in the ring, each event peels off one, and the sound ones are delivered in order. */
  lemma {:induction false} StreamDelivered(sections: seq<seq<Byte>>)
    requires AllFramed(sections)
    ensures Deliveries(Flatten(sections), |sections|) == Kept(sections)
  {
    if sections != [] {
      FirstReceived(sections[0], Flatten(sections[1..]));
      StreamDelivered(sections[1..]);
    }
  }

  lemma {:induction false} KeptConcat(a: seq<seq<Byte>>, b: seq<seq<Byte>>)
    ensures Kept(a + b) == Kept(a) + Kept(b)
  {
    hide Accepted;
    if a == [] {
      assert a + b == b;
    } else {
      assert (a + b)[1..] == a[1..] + b;
      KeptConcat(a[1..], b);
    }
  }

  lemma KeptOne(s: seq<Byte>)
    ensures Kept([s]) == if Accepted(s) then [s] else []
  {
    assert [s][1..] == [];
  }

  lemma KeptBetween(earlier: seq<seq<Byte>>, s: seq<Byte>, later: seq<seq<Byte>>)
    requires AllFramed(earlier) && AllFramed(later) && Framed(s)
    ensures Deliveries(Flatten(earlier + [s] + later), |earlier| + 1 + |later|)
         == Kept(earlier) + (if Accepted(s) then [s] else []) + Kept(later)
  {
    hide Accepted, Flatten, Kept, Deliveries;
    StreamDelivered(earlier + [s] + later);
    KeptConcat(earlier + [s], later);
    KeptConcat(earlier, [s]);
    KeptOne(s);
  }

  lemma CorruptedRejected(head: seq<Byte>, good: seq<Byte>, bad: seq<Byte>, tail: seq<Byte>)
    requires |head| >= SECTION_SIZE_INFO && |good| == |bad| <= 4 && good != bad
    requires Framed(head + good + tail) && head[0] != TDT_TABLE_ID && Accepted(head + good + tail)
    ensures Framed(head + bad + tail) && !Accepted(head + bad + tail)
  {
    var x, y := head + good + tail, head + bad + tail;
    assert x[0] == y[0] == head[0] && x[1] == y[1] == head[1] && x[2] == y[2] == head[2];
    FourByteCorruptionDetected(head, good, bad, tail);
  }

  /** Corrupting up to four octets behind one section's header costs that section and no other. */
  lemma CorruptionCostsOneSection(earlier: seq<seq<Byte>>, head: seq<Byte>, good: seq<Byte>, bad: seq<Byte>,
                                  tail: seq<Byte>, later: seq<seq<Byte>>)
    requires |head| >= SECTION_SIZE_INFO && |good| == |bad| <= 4 && good != bad
    requires Framed(head + good + tail) && head[0] != TDT_TABLE_ID && Accepted(head + good + tail)
    requires AllFramed(earlier) && AllFramed(later)
    ensures Deliveries(Flatten(earlier + [head + good + tail] + later), |earlier| + 1 + |later|)
         == Kept(earlier) + [head + good + tail] + Kept(later)
    ensures Deliveries(Flatten(earlier + [head + bad + tail] + later), |earlier| + 1 + |later|)
         == Kept(earlier) + Kept(later)
  {
    hide Accepted, Framed, Flatten, Kept, Deliveries;
    CorruptedRejected(head, good, bad, tail);
    KeptBetween(earlier, head + good + tail, later);
    KeptBetween(earlier, head + bad + tail, later);
  }
}
