/** The PAT, PMT and SDT section parsers, and the encoders they must invert. */
module TableParser {
  import opened Wrappers
  import opened Bytes
  import opened Crc32
  import opened SectionReceiver

  /** The identifier the parser leaves where a program has no such stream. */
  const NO_PID: nat := 65000

  datatype Pmt = Pmt(tableId: nat, prNum: nat, sectionLength: nat, audioPid: nat, videoPid: nat, hasTeletext: bool)

  datatype ServiceInfo = ServiceInfo(serviceId: nat, serviceType: Byte, loopLength: nat, serviceName: seq<Byte>)

  /* ---------- Program map sections ---------- */

  /** One elementary stream; the reserved bits around its two length-carrying fields are free. */
  datatype Stream = Stream(kind: Byte, pid: nat, info: seq<Byte>, spare3: nat, spare4: nat) {
    predicate Valid() {
      pid < 8192 && |info| < 4096 && spare3 < 8 && spare4 < 16
    }
  }

  function EncodeStream(s: Stream): (bytes: seq<Byte>)
    requires s.Valid()
    ensures |bytes| == 5 + |s.info|
  {
    [s.kind, s.spare3 * 32 + s.pid / 256, s.pid % 256, s.spare4 * 16 + |s.info| / 256, |s.info| % 256] + s.info
  }

  predicate AllValid(streams: seq<Stream>) {
    forall k | 0 <= k < |streams| :: streams[k].Valid()
  }

  function EncodeStreams(streams: seq<Stream>): seq<Byte>
    requires AllValid(streams)
  {
    if streams == [] then [] else EncodeStream(streams[0]) + EncodeStreams(streams[1..])
  }

  /** The entry at the front of a loop; its size is that of the fixed part plus the length it states. */
  function EntrySize(bytes: seq<Byte>): (n: nat)
    requires |bytes| >= 5
    ensures n >= 5
  {
    5 + Pair(bytes[3], bytes[4]) % 4096
  }

  function FirstStream(bytes: seq<Byte>): (s: Stream)
    requires |bytes| >= 5 && EntrySize(bytes) <= |bytes|
  {
    Stream(bytes[0], Pair(bytes[1], bytes[2]) % 8192, bytes[5..EntrySize(bytes)],
           (bytes[1] as int) / 32, (bytes[3] as int) / 16)
  }

  /** The stream loop cut into entries, when it can be cut without a remainder. */
  function DecodeStreams(bytes: seq<Byte>): (streams: Option<seq<Stream>>)
    decreases |bytes|
  {
    if bytes == [] then Some([])
    else if |bytes| < 5 || |bytes| < EntrySize(bytes) then None
    else
      match DecodeStreams(bytes[EntrySize(bytes)..])
      case None => None
      case Some(rest) => Some([FirstStream(bytes)] + rest)
  }

  lemma SplitPair(spare: nat, value: nat, unit: nat)
    requires (unit == 8192 && spare < 8) || (unit == 4096 && spare < 16)
    requires value < unit
    ensures spare * (unit / 256) + value / 256 < 256
    ensures Pair(spare * (unit / 256) + value / 256, value % 256) % unit == value
    ensures (spare * (unit / 256) + value / 256) / (unit / 256) == spare
  {
    if unit == 8192 {
      assert Pair(spare * 32 + value / 256, value % 256) == spare * 8192 + value;
    } else {
      assert Pair(spare * 16 + value / 256, value % 256) == spare * 4096 + value;
    }
  }

  lemma EncodedFields(s: Stream)
    requires s.Valid()
    ensures EntrySize(EncodeStream(s)) == |EncodeStream(s)|
    ensures FirstStream(EncodeStream(s)) == s
  {
    SplitPair(s.spare3, s.pid, 8192);
    SplitPair(s.spare4, |s.info|, 4096);
    assert EncodeStream(s)[5..] == s.info;
  }

  lemma FrontDecides(bytes: seq<Byte>, rest: seq<Byte>)
    requires |bytes| >= 5 && EntrySize(bytes) == |bytes|
    ensures EntrySize(bytes + rest) == |bytes| && FirstStream(bytes + rest) == FirstStream(bytes)
    ensures (bytes + rest)[|bytes|..] == rest
  {
    var whole := bytes + rest;
    assert whole[0] == bytes[0] && whole[1] == bytes[1] && whole[2] == bytes[2];
    assert whole[3] == bytes[3] && whole[4] == bytes[4];
    assert EntrySize(whole) == EntrySize(bytes);
    assert whole[5..|bytes|] == bytes[5..|bytes|];
    assert whole[|bytes|..] == rest;
  }

  lemma {:induction false} DecodeEncodeStreams(streams: seq<Stream>)
    requires AllValid(streams)
    ensures DecodeStreams(EncodeStreams(streams)) == Some(streams)
  {
    if streams != [] {
      EncodedFields(streams[0]);
      FrontDecides(EncodeStream(streams[0]), EncodeStreams(streams[1..]));
      DecodeEncodeStreams(streams[1..]);
      assert EncodeStreams(streams) == EncodeStream(streams[0]) + EncodeStreams(streams[1..]);
      assert [streams[0]] + streams[1..] == streams;
    }
  }

  lemma JoinPair13(hi: Byte, lo: Byte)
    ensures var v := Pair(hi, lo) % 8192; v / 256 == (hi as int) % 32 && v % 256 == lo
  {
    var q, r := (hi as int) / 32, (hi as int) % 32;
    assert Pair(hi, lo) == q * 8192 + (r * 256 + lo);
    assert Pair(hi, lo) % 8192 == r * 256 + lo;
  }

  lemma JoinPair12(hi: Byte, lo: Byte)
    ensures var v := Pair(hi, lo) % 4096; v / 256 == (hi as int) % 16 && v % 256 == lo
  {
    var q, r := (hi as int) / 16, (hi as int) % 16;
    assert Pair(hi, lo) == q * 4096 + (r * 256 + lo);
    assert Pair(hi, lo) % 4096 == r * 256 + lo;
  }

  lemma EncodeFirst(bytes: seq<Byte>)
    requires |bytes| >= 5 && EntrySize(bytes) <= |bytes|
    ensures FirstStream(bytes).Valid()
    ensures EncodeStream(FirstStream(bytes)) == bytes[..EntrySize(bytes)]
  {
    JoinPair13(bytes[1], bytes[2]);
    JoinPair12(bytes[3], bytes[4]);
    var e, front := EncodeStream(FirstStream(bytes)), bytes[..EntrySize(bytes)];
    assert e[..5] == front[..5];
    assert e[5..] == front[5..];
    assert e == e[..5] + e[5..];
  }

  lemma {:induction false} EncodeDecodeStreams(bytes: seq<Byte>)
    requires DecodeStreams(bytes).Some?
    ensures AllValid(DecodeStreams(bytes).value)
    ensures EncodeStreams(DecodeStreams(bytes).value) == bytes
    decreases |bytes|
  {
    if bytes != [] {
      var n := EntrySize(bytes);
      EncodeDecodeStreams(bytes[n..]);
      EncodeFirst(bytes);
      assert DecodeStreams(bytes).value[1..] == DecodeStreams(bytes[n..]).value;
      assert bytes == bytes[..n] + bytes[n..];
    }
  }

  predicate IsVideo(kind: Byte) { kind == 1 || kind == 2 }

  predicate IsAudio(kind: Byte) { kind == 3 || kind == 4 }

  /** The first video identifier of a program, or none. */
  function FirstVideo(streams: seq<Stream>): nat {
    if streams == [] then NO_PID
    else if IsVideo(streams[0].kind) then streams[0].pid
    else FirstVideo(streams[1..])
  }

  function FirstAudio(streams: seq<Stream>): nat {
    if streams == [] then NO_PID
    else if IsAudio(streams[0].kind) then streams[0].pid
    else FirstAudio(streams[1..])
  }

  predicate HasTeletext(streams: seq<Stream>) {
    exists k | 0 <= k < |streams| :: streams[k].kind == 6
  }

  function PmtLoop(buffer: seq<Byte>): seq<Byte>
    requires |buffer| >= 3 && 13 <= LengthField(buffer) <= |buffer| - 3
  {
    buffer[12..LengthField(buffer) - 1]
  }

  /** The walk over the loop stays inside the section and ends exactly at the checksum. */
  predicate PmtWalkable(buffer: seq<Byte>) {
    && |buffer| >= 3 && 13 <= LengthField(buffer) <= |buffer| - 3
    && DecodeStreams(PmtLoop(buffer)).Some?
  }

  /** An entry of the program table after a map section for it was parsed. */
  function PmtUpdated(pmt: Pmt, buffer: seq<Byte>): Pmt
    requires PmtWalkable(buffer)
  {
    var streams := DecodeStreams(PmtLoop(buffer)).value;
    pmt.(sectionLength := LengthField(buffer), videoPid := FirstVideo(streams),
         audioPid := FirstAudio(streams), hasTeletext := HasTeletext(streams))
  }

  lemma TeletextStep(streams: seq<Stream>)
    requires streams != []
    ensures HasTeletext(streams) == (streams[0].kind == 6 || HasTeletext(streams[1..]))
  {
    if HasTeletext(streams) && streams[0].kind != 6 {
      var k :| 0 <= k < |streams| && streams[k].kind == 6;
      assert streams[1..][k - 1].kind == 6;
    }
  }

  /** One entry taken into account: only the first of each sort counts. */
  function Noted(pmt: Pmt, s: Stream): Pmt {
    pmt.(videoPid := if IsVideo(s.kind) && pmt.videoPid == NO_PID then s.pid else pmt.videoPid,
         audioPid := if IsAudio(s.kind) && pmt.audioPid == NO_PID then s.pid else pmt.audioPid,
         hasTeletext := pmt.hasTeletext || s.kind == 6)
  }

  function AllNoted(pmt: Pmt, streams: seq<Stream>): Pmt
    decreases |streams|
  {
    if streams == [] then pmt else AllNoted(Noted(pmt, streams[0]), streams[1..])
  }

  lemma {:induction false} AllNotedKeepsFirst(pmt: Pmt, streams: seq<Stream>)
    requires AllValid(streams)
    ensures AllNoted(pmt, streams) == pmt.(
              videoPid := if pmt.videoPid == NO_PID then FirstVideo(streams) else pmt.videoPid,
              audioPid := if pmt.audioPid == NO_PID then FirstAudio(streams) else pmt.audioPid,
              hasTeletext := pmt.hasTeletext || HasTeletext(streams))
    decreases |streams|
  {
    if streams != [] {
      assert streams[0].Valid();
      TeletextStep(streams);
      AllNotedKeepsFirst(Noted(pmt, streams[0]), streams[1..]);
    }
  }

  function Low12(n: nat): (r: nat)
    ensures r < 4096
  {
    n % 4096
  }

  /** From offset p to the checksum the loop holds exactly these entries. */
  ghost predicate Holds(buffer: seq<Byte>, p: nat, end: nat, streams: seq<Stream>) {
    p <= end <= |buffer| && DecodeStreams(buffer[p..end]) == Some(streams)
  }

  /** Advancing over one entry of the loop. */
  lemma WalkStep(buffer: seq<Byte>, p: nat, end: nat, streams: seq<Stream>)
    requires Holds(buffer, p, end, streams) && p < end
    ensures streams != [] && p + 5 <= end
    ensures streams[0].kind == buffer[p] && streams[0].pid == Pair(buffer[p + 1], buffer[p + 2]) % 8192
    ensures Holds(buffer, p + Low12(Pair(buffer[p + 3], buffer[p + 4])) + 5, end, streams[1..])
  {
    var loop := buffer[p..end];
    FrontOfLoop(loop);
    var size := EntrySize(loop);
    assert loop[0] == buffer[p] && loop[1] == buffer[p + 1] && loop[2] == buffer[p + 2];
    assert loop[3] == buffer[p + 3] && loop[4] == buffer[p + 4];
    hide Pair, EntrySize, FirstStream, DecodeStreams;
    assert loop[size..] == buffer[p + size..end];
  }

  /** The first entry of a loop, and the rest. */
  lemma FrontOfLoop(loop: seq<Byte>)
    requires DecodeStreams(loop).Some? && loop != []
    ensures |loop| >= 5 && EntrySize(loop) == 5 + Low12(Pair(loop[3], loop[4])) <= |loop|
    ensures DecodeStreams(loop[EntrySize(loop)..]).Some?
    ensures DecodeStreams(loop).value == [FirstStream(loop)] + DecodeStreams(loop[EntrySize(loop)..]).value
    ensures FirstStream(loop).kind == loop[0] && FirstStream(loop).pid == Pair(loop[1], loop[2]) % 8192
  {}

  /** What the loop body records about the entry at offset p. */
  method NoteEntry(buffer: seq<Byte>, p: nat, pmts: array<Pmt>, j: nat, ghost s: Stream)
    requires j < pmts.Length && p + 5 <= |buffer|
    requires s.kind == buffer[p] && s.pid == Pair(buffer[p + 1], buffer[p + 2]) % 8192
    modifies pmts
    ensures pmts[j] == Noted(old(pmts[j]), s)
    ensures forall k | 0 <= k < pmts.Length && k != j :: pmts[k] == old(pmts[k])
  {
    if (buffer[p] == 2 || buffer[p] == 1) && pmts[j].videoPid == NO_PID {
      pmts[j] := pmts[j].(videoPid := Pair(buffer[p + 1], buffer[p + 2]) % 8192);
    }
    if (buffer[p] == 3 || buffer[p] == 4) && pmts[j].audioPid == NO_PID {
      pmts[j] := pmts[j].(audioPid := Pair(buffer[p + 1], buffer[p + 2]) % 8192);
    }
    if buffer[p] == 6 {
      pmts[j] := pmts[j].(hasTeletext := true);
    }
  }

  /** The walk over the loop from its first entry to the checksum. */
  method WalkStreams(buffer: seq<Byte>, pmts: array<Pmt>, j: nat, length: nat, ghost streams: seq<Stream>)
    requires j < pmts.Length && 13 <= length < 0x1_0000
    requires Holds(buffer, 12, length - 1, streams)
    modifies pmts
    ensures pmts[j] == AllNoted(old(pmts[j]), streams)
    ensures forall k | 0 <= k < pmts.Length && k != j :: pmts[k] == old(pmts[k])
  {
    hide Noted, Pair, DecodeStreams;
    var sl := Wrap16(length - 13);
    var p: nat := 12;
    ghost var rest := streams;
    while sl != 0
      invariant p + sl == length - 1
      invariant Holds(buffer, p, length - 1, rest)
      invariant forall k | 0 <= k < pmts.Length && k != j :: pmts[k] == old(pmts[k])
      invariant AllNoted(pmts[j], rest) == AllNoted(old(pmts[j]), streams)
    {
      WalkStep(buffer, p, length - 1, rest);
      var infoLength := Low12(Pair(buffer[p + 3], buffer[p + 4]));
      NoteEntry(buffer, p, pmts, j, rest[0]);
      sl := Wrap16(sl - infoLength - 5);
      p := p + infoLength + 5;
      rest := rest[1..];
    }
    NothingLeft(buffer, length - 1, rest);
  }

  lemma NothingLeft(buffer: seq<Byte>, end: nat, streams: seq<Stream>)
    requires Holds(buffer, end, end, streams)
    ensures streams == []
  {}

  function Cleared(pmt: Pmt, length: nat): Pmt {
    pmt.(sectionLength := length, videoPid := NO_PID, audioPid := NO_PID, hasTeletext := false)
  }

  lemma UpdatedByNoting(pmt: Pmt, buffer: seq<Byte>)
    requires PmtWalkable(buffer)
    ensures AllNoted(Cleared(pmt, LengthField(buffer)), DecodeStreams(PmtLoop(buffer)).value) == PmtUpdated(pmt, buffer)
  {
    EncodeDecodeStreams(PmtLoop(buffer));
    AllNotedKeepsFirst(Cleared(pmt, LengthField(buffer)), DecodeStreams(PmtLoop(buffer)).value);
  }

  method ParsePmt(buffer: seq<Byte>, pmts: array<Pmt>, j: nat)
    requires j < pmts.Length
    requires PmtWalkable(buffer)
    modifies pmts
    ensures pmts[..] == old(pmts[..])[j := PmtUpdated(old(pmts[j]), buffer)]
  {
    pmts[j] := pmts[j].(sectionLength := LengthField(buffer), videoPid := NO_PID, audioPid := NO_PID,
                        hasTeletext := false);
    UpdatedByNoting(old(pmts[j]), buffer);
    WalkStreams(buffer, pmts, j, LengthField(buffer), DecodeStreams(PmtLoop(buffer)).value);
  }

  /* ---------- Whole map sections ---------- */

  /** A section body completed by its checksum. */
  function Sealed(body: seq<Byte>): seq<Byte> {
    body + BigEndian(Crc(body))
  }

  lemma SealedIsSound(body: seq<Byte>)
    requires |body| >= 3 && LengthField(body) == |body| + 1
    ensures Framed(Sealed(body)) && Accepted(Sealed(body))
    ensures LengthField(Sealed(body)) == LengthField(body)
  {
    ZeroIffOwnCrc(body, BigEndian(Crc(body)));
  }

  datatype PmtSection = PmtSection(programNumber: nat, version: Byte, number: Byte, last: Byte,
                                   pcrPid: nat, programInfo: seq<Byte>, streams: seq<Stream>)
  {
    predicate Valid() {
      && programNumber < 0x1_0000 && pcrPid < 8192 && AllValid(streams)
      && 13 + |programInfo| + |EncodeStreams(streams)| < 4096
    }
  }

  function PmtHead(p: PmtSection): (head: seq<Byte>)
    requires p.Valid()
    ensures |head| == 12
  {
    var length := 13 + |p.programInfo| + |EncodeStreams(p.streams)|;
    [0x02, 0xB0 + length / 256, length % 256, p.programNumber / 256, p.programNumber % 256,
     p.version, p.number, p.last, 0xE0 + p.pcrPid / 256, p.pcrPid % 256,
     0xF0 + |p.programInfo| / 256, |p.programInfo| % 256]
  }

  function EncodePmt(p: PmtSection): seq<Byte>
    requires p.Valid()
  {
    Sealed(PmtHead(p) + p.programInfo + EncodeStreams(p.streams))
  }

  lemma HeadLength(head: seq<Byte>, flags: nat, length: nat)
    requires |head| >= 3 && length < 4096 && flags < 16
    requires head[1] == flags * 16 + length / 256 && head[2] == length % 256
    ensures LengthField(head) == length
  {}

  /** A head stating the right length, any payload and the checksum make up a sound section. */
  lemma SectionShape(head: seq<Byte>, payload: seq<Byte>, flags: nat, length: nat)
    requires |head| >= 5 && 1 + |head| + |payload| == length < 4096 && flags < 16
    requires head[1] == flags * 16 + length / 256 && head[2] == length % 256
    ensures var b := Sealed(head + payload);
            && Framed(b) && Accepted(b) && LengthField(b) == length
            && b[0] == head[0] && b[3] == head[3] && b[4] == head[4]
            && b[|head|..|head| + |payload|] == payload
  {
    var body := head + payload;
    HeadLength(head, flags, length);
    assert body[0] == head[0] && body[1] == head[1] && body[2] == head[2] && body[3] == head[3] && body[4] == head[4];
    SealedIsSound(body);
    assert Sealed(body)[|head|..|body|] == payload;
  }

  lemma PmtSectionShape(p: PmtSection)
    requires p.Valid()
    ensures var b := EncodePmt(p);
            && Framed(b) && Accepted(b) && LengthField(b) == 13 + |p.programInfo| + |EncodeStreams(p.streams)|
            && b[0] == 0x02 && Pair(b[3], b[4]) == p.programNumber
            && PmtLoop(b) == p.programInfo + EncodeStreams(p.streams)
  {
    var head, loop := PmtHead(p), p.programInfo + EncodeStreams(p.streams);
    assert head + p.programInfo + EncodeStreams(p.streams) == head + loop;
    SectionShape(head, loop, 11, 13 + |p.programInfo| + |EncodeStreams(p.streams)|);
  }

  /** Parsing inverts encoding whenever there are no program descriptors. */
  lemma PmtRoundTrip(pmt: Pmt, p: PmtSection)
    requires p.Valid() && p.programInfo == []
    ensures PmtWalkable(EncodePmt(p))
    ensures PmtUpdated(pmt, EncodePmt(p)) == pmt.(
              sectionLength := 13 + |EncodeStreams(p.streams)|, videoPid := FirstVideo(p.streams),
              audioPid := FirstAudio(p.streams), hasTeletext := HasTeletext(p.streams))
  {
    PmtSectionShape(p);
    assert PmtLoop(EncodePmt(p)) == EncodeStreams(p.streams);
    DecodeEncodeStreams(p.streams);
  }

  lemma {:induction false} EncodeStreamsConcat(a: seq<Stream>, b: seq<Stream>)
    requires AllValid(a) && AllValid(b)
    ensures AllValid(a + b) && EncodeStreams(a + b) == EncodeStreams(a) + EncodeStreams(b)
  {
    hide EncodeStream;
    BothValid(a, b);
    if a == [] {
      assert a + b == b;
    } else {
      assert (a + b)[1..] == a[1..] + b && (a + b)[0] == a[0];
      EncodeStreamsConcat(a[1..], b);
    }
  }

  lemma BothValid(a: seq<Stream>, b: seq<Stream>)
    requires AllValid(a) && AllValid(b)
    ensures AllValid(a + b) && (a != [] ==> AllValid(a[1..]))
  {}

  /** Program descriptors are not skipped: when they can be cut into entries, those count as the first streams. */
  lemma ProgramInfoTakenForStreams(pmt: Pmt, p: PmtSection, fake: seq<Stream>)
    requires p.Valid() && AllValid(fake) && p.programInfo == EncodeStreams(fake)
    ensures PmtWalkable(EncodePmt(p))
    ensures PmtUpdated(pmt, EncodePmt(p)).videoPid == FirstVideo(fake + p.streams)
    ensures PmtUpdated(pmt, EncodePmt(p)).audioPid == FirstAudio(fake + p.streams)
    ensures PmtUpdated(pmt, EncodePmt(p)).hasTeletext == HasTeletext(fake + p.streams)
  {
    PmtSectionShape(p);
    EncodeStreamsConcat(fake, p.streams);
    DecodeEncodeStreams(fake + p.streams);
  }

  /** Over all sections: the parser sees the program's own streams exactly when there are no program descriptors. */
  lemma OwnStreamsIffNoProgramInfo(p: PmtSection)
    requires p.Valid()
    ensures |EncodePmt(p)| >= 3 && 13 <= LengthField(EncodePmt(p)) <= |EncodePmt(p)| - 3
    ensures DecodeStreams(PmtLoop(EncodePmt(p))) == Some(p.streams) <==> p.programInfo == []
  {
    var own := EncodeStreams(p.streams);
    PmtSectionShape(p);
    DecodeEncodeStreams(p.streams);
    assert [] + own == own;
    if DecodeStreams(PmtLoop(EncodePmt(p))) == Some(p.streams) {
      EncodeDecodeStreams(PmtLoop(EncodePmt(p)));
      assert |p.programInfo + own| == |own|;
    }
  }

  lemma {:induction false} FirstOfBoth(a: seq<Stream>, b: seq<Stream>)
    requires AllValid(a) && AllValid(b)
    ensures FirstVideo(a + b) == if FirstVideo(a) == NO_PID then FirstVideo(b) else FirstVideo(a)
    ensures FirstAudio(a + b) == if FirstAudio(a) == NO_PID then FirstAudio(b) else FirstAudio(a)
    ensures HasTeletext(a + b) <==> HasTeletext(a) || HasTeletext(b)
  {
    if a == [] {
      assert a + b == b;
    } else {
      FirstOfBoth(a[1..], b);
      assert (a + b)[1..] == a[1..] + b && (a + b)[0] == a[0];
      TeletextStep(a + b);
      TeletextStep(a);
    }
  }

  /**
   * Program descriptors that can be cut into entries do no harm exactly when these bring no other first video or
   * audio and no new teletext.
   */
  lemma HarmlessProgramInfo(pmt: Pmt, p: PmtSection, fake: seq<Stream>)
    requires p.Valid() && AllValid(fake) && p.programInfo == EncodeStreams(fake)
    ensures PmtWalkable(EncodePmt(p))
    ensures PmtUpdated(pmt, EncodePmt(p)).videoPid == FirstVideo(p.streams)
            <==> FirstVideo(fake) == NO_PID || FirstVideo(fake) == FirstVideo(p.streams)
    ensures PmtUpdated(pmt, EncodePmt(p)).audioPid == FirstAudio(p.streams)
            <==> FirstAudio(fake) == NO_PID || FirstAudio(fake) == FirstAudio(p.streams)
    ensures PmtUpdated(pmt, EncodePmt(p)).hasTeletext == HasTeletext(p.streams)
            <==> (HasTeletext(fake) ==> HasTeletext(p.streams))
  {
    ProgramInfoTakenForStreams(pmt, p, fake);
    FirstOfBoth(fake, p.streams);
  }

  /** Over all sections: when the walk ends at the checksum, and when what it records is still right. */
  lemma WalkWithProgramInfo(pmt: Pmt, p: PmtSection)
    requires p.Valid()
    ensures var b, walked := EncodePmt(p), DecodeStreams(p.programInfo + EncodeStreams(p.streams));
            && (PmtWalkable(b) <==> walked.Some?)
            && (walked.Some? ==>
                  && (PmtUpdated(pmt, b).videoPid == FirstVideo(p.streams)
                      <==> FirstVideo(walked.value) == FirstVideo(p.streams))
                  && (PmtUpdated(pmt, b).audioPid == FirstAudio(p.streams)
                      <==> FirstAudio(walked.value) == FirstAudio(p.streams))
                  && (PmtUpdated(pmt, b).hasTeletext == HasTeletext(p.streams)
                      <==> HasTeletext(walked.value) == HasTeletext(p.streams)))
  {
    PmtSectionShape(p);
  }

  /**
   * Other program descriptors make the loop miss the checksum it should end at: here one entry seems to be longer
   * than the section.
   */
  lemma ProgramInfoOverruns()
    ensures var p := PmtSection(1, 0xC1, 0, 0, 0x100, [9, 0, 0, 15, 255], []);
            p.Valid() && !PmtWalkable(EncodePmt(p))
  {
    var p := PmtSection(1, 0xC1, 0, 0, 0x100, [9, 0, 0, 15, 255], []);
    PmtSectionShape(p);
    var loop := PmtLoop(EncodePmt(p));
    assert loop == [9, 0, 0, 15, 255];
    assert Pair(loop[3], loop[4]) == 4095;
    assert DecodeStreams(loop) == None;
  }

  /** So a video stream descriptor at program level hides the program's own video stream. */
  lemma ProgramInfoMisread(pmt: Pmt)
    ensures var p := PmtSection(1, 0xC1, 0, 0, 0x100, [2, 3, 7, 0, 0], [Stream(2, 0x100, [], 7, 15)]);
            && p.Valid() && PmtWalkable(EncodePmt(p))
            && PmtUpdated(pmt, EncodePmt(p)).videoPid == 0x307 != FirstVideo(p.streams)
  {
    var p := PmtSection(1, 0xC1, 0, 0, 0x100, [2, 3, 7, 0, 0], [Stream(2, 0x100, [], 7, 15)]);
    var fake := [Stream(2, 0x307, [], 0, 0)];
    assert EncodeStreams(p.streams) == EncodeStream(p.streams[0]) + [];
    assert EncodeStreams(fake) == EncodeStream(fake[0]) + [] == p.programInfo;
    assert (fake + p.streams)[0] == fake[0];
    ProgramInfoTakenForStreams(pmt, p, fake);
  }

  /* ---------- Service description sections ---------- */

  const SERVICE_DESCRIPTOR: Byte := 0x48

  /** One service, its service descriptor first in the descriptor loop and any others behind it. */
  datatype Service = Service(id: nat, flags: Byte, status: nat, kind: Byte, provider: seq<Byte>,
                             name: seq<Byte>, others: seq<Byte>)
  {
    predicate Valid() {
      && id < 0x1_0000 && status < 16
      && 3 + |provider| + |name| < 256
      && 5 + |provider| + |name| + |others| < 4096
    }
  }

  function LoopLength(s: Service): nat {
    5 + |s.provider| + |s.name| + |s.others|
  }

  function EncodeService(s: Service): (bytes: seq<Byte>)
    requires s.Valid()
    ensures |bytes| == 5 + LoopLength(s)
  {
    [s.id / 256, s.id % 256, s.flags, s.status * 16 + LoopLength(s) / 256, LoopLength(s) % 256,
     SERVICE_DESCRIPTOR, 3 + |s.provider| + |s.name|, s.kind, |s.provider|]
    + s.provider + [|s.name|] + s.name + s.others
  }

  predicate AllValidServices(services: seq<Service>) {
    forall k | 0 <= k < |services| :: services[k].Valid()
  }

  function EncodeServices(services: seq<Service>): seq<Byte>
    requires AllValidServices(services)
  {
    if services == [] then [] else EncodeService(services[0]) + EncodeServices(services[1..])
  }

  /** The record the parser keeps of a service; the name is a C string. */
  function InfoOf(s: Service): ServiceInfo {
    ServiceInfo(s.id, s.kind, LoopLength(s), s.name + [0])
  }

  function InfosOf(services: seq<Service>): seq<ServiceInfo> {
    seq(|services|, k requires 0 <= k < |services| => InfoOf(services[k]))
  }

  /** From offset p to the checksum the section lists exactly these services. */
  ghost predicate Lists(buffer: seq<Byte>, p: nat, end: nat, services: seq<Service>) {
    AllValidServices(services) && p <= end <= |buffer| && buffer[p..end] == EncodeServices(services)
  }

  lemma {:induction false} AtLeastOnePerService(services: seq<Service>)
    requires AllValidServices(services)
    ensures (EncodeServices(services) == []) == (services == [])
  {
    if services != [] {
      assert |EncodeServices(services)| >= |EncodeService(services[0])|;
    }
  }

  lemma ServiceFields(s: Service)
    requires s.Valid()
    ensures var e := EncodeService(s);
            && Pair(e[0], e[1]) == s.id && Low12(Pair(e[3], e[4])) == LoopLength(s)
            && e[7] == s.kind && e[8] == |s.provider| && e[9 + |s.provider|] == |s.name|
            && e[10 + |s.provider|..10 + |s.provider| + |s.name|] == s.name
  {
    SplitPair(s.status, LoopLength(s), 4096);
  }

  /** What the parser reads at offset p, and where the next service starts. */
  lemma ServiceStep(buffer: seq<Byte>, p: nat, end: nat, services: seq<Service>)
    requires Lists(buffer, p, end, services) && p < end
    ensures services != [] && p + 5 + LoopLength(services[0]) <= end
    ensures var s := services[0];
            && Pair(buffer[p], buffer[p + 1]) == s.id && Low12(Pair(buffer[p + 3], buffer[p + 4])) == LoopLength(s)
            && buffer[p + 7] == s.kind && buffer[p + 8] == |s.provider| && buffer[p + 9 + |s.provider|] == |s.name|
            && buffer[p + 10 + |s.provider|..p + 10 + |s.provider| + |s.name|] == s.name
    ensures Lists(buffer, p + 5 + LoopLength(services[0]), end, services[1..])
  {
    AtLeastOnePerService(services);
    var s, loop := services[0], buffer[p..end];
    var e, rest := EncodeService(s), EncodeServices(services[1..]);
    assert loop == e + rest;
    assert buffer[p + |e|..end] == loop[|e|..] == rest;
    forall k | 0 <= k < |e| ensures buffer[p + k] == e[k] {
      assert buffer[p + k] == loop[k];
    }
    ServiceFields(s);
    assert buffer[p + 10 + |s.provider|..p + 10 + |s.provider| + |s.name|]
        == e[10 + |s.provider|..10 + |s.provider| + |s.name|];
  }

  /** A section that lists exactly these services. */
  ghost predicate SdtOf(buffer: seq<Byte>, services: seq<Service>) {
    && |buffer| >= 3 && 12 <= LengthField(buffer) <= |buffer| - 3
    && Lists(buffer, 11, LengthField(buffer) - 1, services)
  }

  /** The service loop; the list has a fixed size, and the first service it has no room for is written behind it. */
  method ParseSdt(buffer: seq<Byte>, count: nat, ghost services: seq<Service>)
      returns (inside: bool, sectionLength: nat, infos: array<ServiceInfo>)
    requires SdtOf(buffer, services)
    ensures inside <==> |services| <= count
    ensures sectionLength == LengthField(buffer)
    ensures fresh(infos) && infos.Length == count
    ensures inside ==> infos[..|services|] == InfosOf(services)
  {
    var j := 0;
    sectionLength := LengthField(buffer);
    var sl := Wrap16(sectionLength - 12);
    var p := 11;
    infos := new ServiceInfo[count];
    ghost var rest := services;
    while sl != 0
      invariant p + sl == sectionLength - 1
      invariant Lists(buffer, p, sectionLength - 1, rest)
      invariant j <= count && j + |rest| == |services| && rest == services[j..]
      invariant forall k | 0 <= k < j :: infos[k] == InfoOf(services[k])
    {
      AtLeastOnePerService(rest);
      if j == count {
        inside := false;
        return;
      }
      infos[j] := ReadService(buffer, p, sectionLength - 1, rest);
      sl := Wrap16(sl - infos[j].loopLength - 5);
      p := p + infos[j].loopLength + 5;
      j := j + 1;
      rest := rest[1..];
    }
    AtLeastOnePerService(rest);
    inside := true;
  }

  /** What the loop body records about the service at offset p. */
  method ReadService(buffer: seq<Byte>, p: nat, end: nat, ghost rest: seq<Service>) returns (info: ServiceInfo)
    requires Lists(buffer, p, end, rest) && p < end
    ensures rest != [] && info == InfoOf(rest[0])
    ensures Lists(buffer, p + info.loopLength + 5, end, rest[1..])
  {
    ServiceStep(buffer, p, end, rest);
    var providerLen := buffer[p + 8] as int;
    var nameLen := buffer[p + 9 + providerLen] as int;
    var name := CopyName(buffer, p + 10 + providerLen, nameLen);
    info := ServiceInfo(Pair(buffer[p], buffer[p + 1]), buffer[p + 7], Low12(Pair(buffer[p + 3], buffer[p + 4])), name);
  }

  /** Copies a name character by character and terminates it. */
  method CopyName(buffer: seq<Byte>, from: nat, length: nat) returns (name: seq<Byte>)
    requires from + length <= |buffer|
    ensures name == buffer[from..from + length] + [0]
  {
    name := [];
    for i := 0 to length
      invariant name == buffer[from..from + i]
    {
      name := name + [buffer[from + i]];
    }
    name := name + [0];
  }

  /** The head of a service description section of the given length. */
  function SdtHead(streamId: nat, version: Byte, networkId: nat, length: nat): (head: seq<Byte>)
    requires streamId < 0x1_0000 && networkId < 0x1_0000 && length < 4096
    ensures |head| == 11
  {
    [0x42, 0xF0 + length / 256, length % 256, streamId / 256, streamId % 256, version, 0, 0,
     networkId / 256, networkId % 256, 0xFF]
  }

  function EncodeSdt(streamId: nat, version: Byte, networkId: nat, services: seq<Service>): seq<Byte>
    requires streamId < 0x1_0000 && networkId < 0x1_0000
    requires AllValidServices(services) && 12 + |EncodeServices(services)| < 4096
  {
    Sealed(SdtHead(streamId, version, networkId, 12 + |EncodeServices(services)|) + EncodeServices(services))
  }

  /** Every encoded section passes the checksum gate and lists just what was encoded. */
  lemma SdtRoundTrip(streamId: nat, version: Byte, networkId: nat, services: seq<Service>)
    requires streamId < 0x1_0000 && networkId < 0x1_0000
    requires AllValidServices(services) && 12 + |EncodeServices(services)| < 4096
    ensures var b := EncodeSdt(streamId, version, networkId, services);
            Framed(b) && Accepted(b) && b[0] == 0x42 && SdtOf(b, services)
  {
    SectionShape(SdtHead(streamId, version, networkId, 12 + |EncodeServices(services)|), EncodeServices(services), 15,
                 12 + |EncodeServices(services)|);
  }

  /* ---------- Program association sections ---------- */

  datatype Association = Association(number: nat, pid: nat)

  function PatEntry(buffer: seq<Byte>, i: nat): Association
    requires 8 + 4 * i + 4 <= |buffer|
  {
    Association(Pair(buffer[8 + 4 * i], buffer[8 + 4 * i + 1]), Pair(buffer[8 + 4 * i + 2],
                                                                     buffer[8 + 4 * i + 3]) % 8192)
  }

  function PatEntries(buffer: seq<Byte>, n: nat): (entries: seq<Association>)
    requires 8 + 4 * n <= |buffer|
    ensures |entries| == n
  {
    seq(n, i requires 0 <= i < n => PatEntry(buffer, i))
  }

  /** The parser looks at the high octet of a program number only. */
  predicate Recorded(a: Association) { a.number >= 256 }

  function Programs(entries: seq<Association>): (programs: seq<Association>)
    ensures |programs| <= |entries|
  {
    if entries == [] then []
    else
      var n := |entries| - 1;
      Programs(entries[..n]) + (if Recorded(entries[n]) then [entries[n]] else [])
  }

  function PatCount(buffer: seq<Byte>): nat
    requires |buffer| >= 3 && LengthField(buffer) >= 13
  {
    (LengthField(buffer) - 9) / 4
  }

  /** A section the parser reads in bounds: whole entries, and few enough for its 8-bit program count. */
  predicate PatReadable(buffer: seq<Byte>) {
    && |buffer| >= 3 && 13 <= LengthField(buffer) <= |buffer| - 3
    && PatCount(buffer) <= 256
  }

  /** The front of the program table carries these numbers and map identifiers. */
  ghost predicate Tabled(pmts: seq<Pmt>, programs: seq<Association>) {
    && |programs| <= |pmts|
    && forall k | 0 <= k < |programs| :: pmts[k].prNum == programs[k].number && pmts[k].tableId == programs[k].pid
  }

  /** Room for one program fewer than there are entries. */
  method ParsePat(buffer: seq<Byte>) returns (sectionLength: nat, pmtCount: nat, pmts: array<Pmt>)
    requires PatReadable(buffer)
    requires |Programs(PatEntries(buffer, PatCount(buffer)))| < PatCount(buffer)
    ensures sectionLength == LengthField(buffer) && pmtCount == PatCount(buffer) - 1
    ensures fresh(pmts) && pmts.Length == pmtCount
    ensures Tabled(pmts[..], Programs(PatEntries(buffer, PatCount(buffer))))
  {
    sectionLength := LengthField(buffer);
    var progCount: nat := Wrap8((sectionLength - 9) / 4 - 1);
    pmtCount := progCount;
    pmts := new Pmt[progCount];
    FillPrograms(buffer, pmts, PatEntries(buffer, PatCount(buffer)));
  }

  /** The loop over all entries, one more than the table has room for. */
  method FillPrograms(buffer: seq<Byte>, pmts: array<Pmt>, ghost all: seq<Association>)
    requires |all| == pmts.Length + 1 && 8 + 4 * |all| <= |buffer|
    requires all == PatEntries(buffer, |all|)
    requires |Programs(all)| < |all|
    modifies pmts
    ensures Tabled(pmts[..], Programs(all))
  {
    var j := 0;
    ghost var programs := [];
    for i := 0 to pmts.Length + 1
      invariant j == |programs| && programs == Programs(all[..i])
      invariant Tabled(pmts[..], programs)
    {
      ProgramsGrow(all, i);
      hide Programs;
      var p := 8 + i * 4;
      assert all[i] == PatEntry(buffer, i);
      if buffer[p] != 0 {
        programs := programs + [all[i]];
        pmts[j] := pmts[j].(prNum := Pair(buffer[p], buffer[p + 1]), tableId := Pair(buffer[p + 2],
                                                                                     buffer[p + 3]) % 8192);
        j := j + 1;
      }
    }
    assert all[..|all|] == all;
  }

  lemma ProgramsGrow(entries: seq<Association>, i: nat)
    requires i < |entries|
    ensures Programs(entries[..i + 1]) == Programs(entries[..i]) + (if Recorded(entries[i]) then [entries[i]] else [])
    ensures |Programs(entries[..i + 1])| <= |Programs(entries)|
    decreases |entries|
  {
    assert entries[..i + 1][..i] == entries[..i];
    if i + 1 < |entries| {
      var shorter := entries[..|entries| - 1];
      assert shorter[..i + 1] == entries[..i + 1];
      ProgramsGrow(shorter, i);
    } else {
      assert entries[..i + 1] == entries;
    }
  }

  predicate ValidAssociation(a: Association) { a.number < 0x1_0000 && a.pid < 8192 }

  predicate AllValidAssociations(entries: seq<Association>) {
    forall k | 0 <= k < |entries| :: ValidAssociation(entries[k])
  }

  function EncodeAssociation(a: Association): (bytes: seq<Byte>)
    requires ValidAssociation(a)
    ensures |bytes| == 4
  {
    [a.number / 256, a.number % 256, 0xE0 + a.pid / 256, a.pid % 256]
  }

  function EncodeAssociations(entries: seq<Association>): (bytes: seq<Byte>)
    requires AllValidAssociations(entries)
    ensures |bytes| == 4 * |entries|
  {
    if entries == [] then []
    else
      var n := |entries| - 1;
      EncodeAssociations(entries[..n]) + EncodeAssociation(entries[n])
  }

  function PatHead(streamId: nat, version: Byte, length: nat): (head: seq<Byte>)
    requires streamId < 0x1_0000 && length < 4096
    ensures |head| == 8 && head[0] == 0x00
    ensures head[1] == 11 * 16 + length / 256 && head[2] == length % 256
  {
    [0x00, 0xB0 + length / 256, length % 256, streamId / 256, streamId % 256, version, 0, 0]
  }

  function EncodePat(streamId: nat, version: Byte, entries: seq<Association>): seq<Byte>
    requires streamId < 0x1_0000 && AllValidAssociations(entries) && |entries| <= 256
  {
    Sealed(PatHead(streamId, version, 9 + 4 * |entries|) + EncodeAssociations(entries))
  }

  lemma AssociationFields(a: Association)
    requires ValidAssociation(a)
    ensures var e := EncodeAssociation(a); Pair(e[0], e[1]) == a.number && Pair(e[2], e[3]) % 8192 == a.pid
  {
    SplitPair(7, a.pid, 8192);
  }

  lemma {:induction false} EntryEncoded(entries: seq<Association>, i: nat)
    requires AllValidAssociations(entries) && i < |entries|
    ensures EncodeAssociations(entries)[4 * i..4 * i + 4] == EncodeAssociation(entries[i])
  {
    var n := |entries| - 1;
    if i < n {
      EntryEncoded(entries[..n], i);
      assert EncodeAssociations(entries)[4 * i..4 * i + 4] == EncodeAssociations(entries[..n])[4 * i..4 * i + 4];
    }
  }

  lemma PatSectionShape(streamId: nat, version: Byte, entries: seq<Association>)
    requires streamId < 0x1_0000 && AllValidAssociations(entries) && |entries| <= 256
    ensures var b := EncodePat(streamId, version, entries);
            && Framed(b) && Accepted(b) && b[0] == 0x00 && LengthField(b) == 9 + 4 * |entries|
            && b[8..8 + 4 * |entries|] == EncodeAssociations(entries)
  {
    SectionShape(PatHead(streamId, version, 9 + 4 * |entries|), EncodeAssociations(entries), 11, 9 + 4 * |entries|);
  }

  lemma EntryRead(b: seq<Byte>, i: nat, a: Association)
    requires ValidAssociation(a) && 8 + 4 * i + 4 <= |b|
    requires b[8 + 4 * i..8 + 4 * i + 4] == EncodeAssociation(a)
    ensures PatEntry(b, i) == a
  {
    var slice := b[8 + 4 * i..8 + 4 * i + 4];
    AssociationFields(a);
    assert slice[0] == b[8 + 4 * i] && slice[1] == b[8 + 4 * i + 1];
    assert slice[2] == b[8 + 4 * i + 2] && slice[3] == b[8 + 4 * i + 3];
  }

  lemma SliceOfSlice(b: seq<Byte>, from: nat, length: nat, i: nat)
    requires from + length <= |b| && i + 4 <= length
    ensures b[from..from + length][i..i + 4] == b[from + i..from + i + 4]
  {
    var x, y := b[from..from + length][i..i + 4], b[from + i..from + i + 4];
    assert forall k | 0 <= k < 4 :: x[k] == y[k];
  }

  /** Parsing an encoded association section sees every entry that went in. */
  lemma PatRoundTrip(streamId: nat, version: Byte, entries: seq<Association>)
    requires streamId < 0x1_0000 && AllValidAssociations(entries) && 1 <= |entries| <= 256
    ensures var b := EncodePat(streamId, version, entries);
            && Framed(b) && Accepted(b) && b[0] == 0x00
            && PatReadable(b) && PatCount(b) == |entries| && PatEntries(b, |entries|) == entries
  {
    PatSectionShape(streamId, version, entries);
    forall i | 0 <= i < |entries| ensures PatEntry(EncodePat(streamId, version, entries), i) == entries[i] {
      EntryEncoded(entries, i);
      SliceOfSlice(EncodePat(streamId, version, entries), 8, 4 * |entries|, 4 * i);
      EntryRead(EncodePat(streamId, version, entries), i, entries[i]);
    }
  }

  /** The entries of programs: number 0 is that of the network. */
  function NonNetwork(entries: seq<Association>): (programs: seq<Association>)
    ensures |programs| <= |entries|
  {
    if entries == [] then []
    else
      var n := |entries| - 1;
      NonNetwork(entries[..n]) + (if entries[n].number != 0 then [entries[n]] else [])
  }

  /** Over all tables: every program is recorded exactly when none has a number from 1 to 255. */
  lemma {:induction false} AllRecordedIffNoLowNumber(entries: seq<Association>)
    ensures |Programs(entries)| <= |NonNetwork(entries)|
    ensures Programs(entries) == NonNetwork(entries)
            <==> forall k | 0 <= k < |entries| :: entries[k].number == 0 || entries[k].number >= 256
  {
    if entries != [] {
      var n := |entries| - 1;
      var most := entries[..n];
      AllRecordedIffNoLowNumber(most);
      assert forall k | 0 <= k < n :: most[k] == entries[k];
      if Programs(entries) == NonNetwork(entries) {
        if entries[n].number == 0 || entries[n].number >= 256 {
          assert Programs(most) == Programs(entries)[..|Programs(most)|];
          assert NonNetwork(most) == NonNetwork(entries)[..|NonNetwork(most)|];
        }
      }
    }
  }

  /** Exactly one entry is not recorded. */
  predicate OneLow(entries: seq<Association>) {
    exists i | 0 <= i < |entries| ::
      !Recorded(entries[i]) && forall j | 0 <= j < |entries| && j != i :: Recorded(entries[j])
  }

  predicate AllRecorded(entries: seq<Association>) {
    forall k | 0 <= k < |entries| :: Recorded(entries[k])
  }

  lemma {:induction false} FullIffAllRecorded(entries: seq<Association>)
    ensures |Programs(entries)| == |entries| <==> AllRecorded(entries)
  {
    if entries != [] {
      var n := |entries| - 1;
      FullIffAllRecorded(entries[..n]);
      assert AllRecorded(entries) <==> AllRecorded(entries[..n]) && Recorded(entries[n]);
    }
  }

  lemma OneLowStep(entries: seq<Association>)
    requires entries != []
    ensures var n := |entries| - 1;
            OneLow(entries) <==> if Recorded(entries[n]) then OneLow(entries[..n]) else AllRecorded(entries[..n])
  {
    var n := |entries| - 1;
    var most := entries[..n];
    if OneLow(most) && Recorded(entries[n]) {
      var i :| 0 <= i < n && !Recorded(most[i]) && forall j | 0 <= j < n && j != i :: Recorded(most[j]);
      assert !Recorded(entries[i]) && forall j | 0 <= j < n && j != i :: Recorded(entries[j]) by {
        assert forall j | 0 <= j < n :: most[j] == entries[j];
      }
    }
    if OneLow(entries) {
      var i :| 0 <= i <= n && !Recorded(entries[i]) && forall j | 0 <= j <= n && j != i :: Recorded(entries[j]);
      if i < n {
        assert !Recorded(most[i]);
      }
    }
    if !Recorded(entries[n]) && AllRecorded(most) {
      forall j | 0 <= j <= n && j != n ensures Recorded(entries[j]) {
        assert Recorded(most[j]);
      }
    }
  }

  /** Writes stay in the table exactly when some program number is below 256, and fill it exactly when one is. */
  lemma {:induction false} RoomIffNetworkEntry(entries: seq<Association>)
    ensures |Programs(entries)| < |entries| <==> exists k | 0 <= k < |entries| :: entries[k].number < 256
    ensures |Programs(entries)| == |entries| - 1 <==> OneLow(entries)
  {
    FullIffAllRecorded(entries);
    if entries != [] {
      var n := |entries| - 1;
      RoomIffNetworkEntry(entries[..n]);
      FullIffAllRecorded(entries[..n]);
      OneLowStep(entries);
      hide OneLow;
    }
  }

  /** A program numbered below 256 is dropped: only the high octet of the number is looked at. */
  lemma LowProgramNumberDropped()
    ensures Programs([Association(0, 16), Association(255, 100), Association(256, 101)]) == [Association(256, 101)]
  {
    var all := [Association(0, 16), Association(255, 100), Association(256, 101)];
    assert all[..2] == [Association(0, 16), Association(255, 100)] && all[..2][..1] == [Association(0, 16)];
    assert all[..1][..0] == [];
    assert Programs(all[..1]) == [] && Programs(all[..2]) == [];
  }
}
