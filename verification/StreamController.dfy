/** The stream thread and the remote-control entry points, over the handle-checked player interface. */
module StreamController {
  import opened Wrappers
  import opened Bytes
  import opened SectionReceiver
  import opened TableParser
  import opened Player
  import opened Zapper

  class Controller {
    const api: PlayerApi
    const receiver: Receiver
    const audioType: nat
    const videoType: nat

    var prCounter: nat
    var playerHandle: nat
    var sourceHandle: nat
    var filterHandle: nat
    var audioStreamHandle: nat
    var videoStreamHandle: nat
    var audioOn: bool
    var videoOn: bool
    var changeFlag: bool
    var nextFlag: bool
    var previousFlag: bool
    var infoFlag: bool
    var listFlag: bool
    var pmtCount: nat
    var pmts: array<Pmt>
    var services: array<ServiceInfo>
    /** The contents of the program table. */
    ghost var table: seq<Pmt>

    /** The streams that are on, by the identifiers they were created for. */
    ghost function Playing(on: bool, handle: nat): Option<nat>
      reads api.engine
    {
      if on && handle in api.engine.pidOf then Some(api.engine.pidOf[handle]) else None
    }

    /** The counter and the requests, apart from what plays. */
    ghost function Requests(): Zap
      reads `table, `prCounter, `changeFlag, `nextFlag, `previousFlag, `infoFlag, `listFlag
    {
      Zap(table, prCounter, changeFlag, nextFlag, previousFlag, infoFlag, listFlag, None, None, 0)
    }

    ghost function Abs(): Zap
      reads `table, `prCounter, `changeFlag, `nextFlag, `previousFlag, `infoFlag, `listFlag,
            `audioOn, `videoOn, `audioStreamHandle, `videoStreamHandle, api`filterPid, api.engine
    {
      Zap(table, prCounter, changeFlag, nextFlag, previousFlag, infoFlag, listFlag,
          Playing(audioOn, audioStreamHandle), Playing(videoOn, videoStreamHandle), api.filterPid)
    }

    /** The saved handles are the player's, nothing has leaked, and a stream is on exactly when its handle is set. */
    ghost predicate Open()
      reads `playerHandle, `sourceHandle, `filterHandle, `audioOn, `videoOn, `audioStreamHandle, `videoStreamHandle,
            `pmtCount, `pmts, `table, pmts, api, api.engine, receiver, receiver.crc, receiver.crc.table
    {
      && api.Valid() && api.Tight()
      && audioType < FIRST_VIDEO_TYPE <= videoType
      && playerHandle == api.hPE != 0
      && sourceHandle == api.hSource != 0
      && filterHandle == api.hFilter != 0
      && (audioOn <==> api.hStreamA != 0)
      && (audioOn ==> audioStreamHandle == api.hStreamA && audioStreamHandle in api.engine.pidOf)
      && (videoOn <==> api.hStreamV != 0)
      && (videoOn ==> videoStreamHandle == api.hStreamV && videoStreamHandle in api.engine.pidOf)
      && Listening()
    }

    /** The receiver is idle, and the program table is the one in the array. */
    ghost predicate Listening()
      reads `pmtCount, `pmts, `table, pmts, receiver, receiver.crc, receiver.crc.table
    {
      && receiver.Valid() && receiver.ring == []
      && pmtCount == pmts.Length && Separate() && pmts[..] == table
    }

    /** What holds at the top of every pass of the stream thread. */
    ghost predicate Running()
      reads `playerHandle, `sourceHandle, `filterHandle, `audioOn, `videoOn, `audioStreamHandle, `videoStreamHandle,
            `pmtCount, `pmts, `table, pmts, api, api.engine, receiver, receiver.crc, receiver.crc.table
    {
      Open() && api.filterTable == 0x02
    }

    constructor (audioType: nat, videoType: nat)
      requires audioType < FIRST_VIDEO_TYPE <= videoType
      ensures Closed() && this.audioType == audioType && this.videoType == videoType
      ensures fresh(api) && fresh(api.engine) && fresh(receiver) && fresh(receiver.crc) && fresh(receiver.crc.table)
      ensures api.engine.obtained == []
    {
      this.audioType, this.videoType := audioType, videoType;
      api := new PlayerApi();
      receiver := new Receiver();
      prCounter, playerHandle, sourceHandle, filterHandle := 0, 0, 0, 0;
      audioStreamHandle, videoStreamHandle, audioOn, videoOn := 0, 0, false, false;
      changeFlag, nextFlag, previousFlag, infoFlag, listFlag := false, false, false, false, false;
      pmtCount, pmts, services := 0, new Pmt[0], new ServiceInfo[0];
      table := [];
    }

    /** Before initialisation: no handle is set and nothing is live. */
    ghost predicate Closed()
      reads `playerHandle, `sourceHandle, `filterHandle, `audioOn, `videoOn, `pmtCount, `pmts, `table, pmts,
            api, api.engine, receiver, receiver.crc, receiver.crc.table
    {
      && api.Valid() && api.Tight()
      && audioType < FIRST_VIDEO_TYPE <= videoType
      && api.hPE == api.hSource == api.hStreamA == api.hStreamV == api.hFilter == 0
      && playerHandle == sourceHandle == filterHandle == 0
      && !audioOn && !videoOn && Listening()
    }

    /** The program table and the checksum table are different arrays. */
    ghost predicate Separate()
      reads `pmts, receiver, receiver.crc
    {
      pmts as object != receiver.crc.table as object
    }

    /* ---------- The demultiplexer callback ---------- */

    /**
     * The map-section branch of the callback. It stays inside its bounds exactly when the program is listed and the
     * loop of the section can be walked; otherwise the original reads on, and the model stops.
     */
    method MapCallback(buffer: seq<Byte>) returns (inside: bool)
      requires buffer != [] && buffer[0] == 0x02
      modifies pmts
      ensures inside <==> Learn(old(pmts[..]), buffer).Some?
      ensures inside ==> Some(pmts[..]) == Learn(old(pmts[..]), buffer)
    {
      if |buffer| < 5 {
        return false;
      }
      var j: nat := 0;
      var prn := Pair(buffer[3], buffer[4]);
      while j < pmts.Length && prn != pmts[j].prNum
        invariant j <= FirstEntry(pmts[..], prn) <= pmts.Length
        decreases pmts.Length - j
      {
        j := j + 1;
      }
      if j == pmts.Length || !PmtWalkable(buffer) {
        return false;
      }
      FoundFirst(pmts[..], prn, j);
      ParsePmt(buffer, pmts, j);
      inside := true;
    }

    lemma FoundFirst(table: seq<Pmt>, prn: nat, j: nat)
      requires j < |table| && table[j].prNum == prn && j <= FirstEntry(table, prn)
      ensures j == FirstEntry(table, prn)
    {}

    /** One event of the receiver with the callback registered. */
    method SectionEvent(ghost next: seq<Byte>, ghost rest: seq<Byte>) returns (inside: bool)
      requires receiver.Valid() && receiver.ring == next + rest && Framed(next) && next[0] == 0x02 && Separate()
      modifies receiver`ring, receiver.crc.table, pmts
      ensures inside <==> Accepted(next) ==> Learn(old(pmts[..]), next).Some?
      ensures inside ==> receiver.Valid() && receiver.ring == rest
      ensures inside ==> Some(pmts[..]) == if Accepted(next) then Learn(old(pmts[..]), next) else Some(old(pmts[..]))
    {
      FirstReceived(next, rest);
      var hr, delivered := receiver.SectionReceived();
      inside := true;
      if delivered.Some? {
        inside := MapCallback(delivered.value);
      }
    }

    /** Sections arrive in the ring and raise one event each. */
    method Listen(sections: seq<seq<Byte>>) returns (inside: bool)
      requires receiver.Valid() && receiver.ring == [] && Separate() && pmts[..] == table && Filtered(sections)
      modifies receiver`ring, receiver.crc.table, pmts, `table
      ensures inside <==> LearnAll(old(table), Kept(sections)).Some?
      ensures inside ==> receiver.Valid() && receiver.ring == [] && pmts[..] == table
      ensures inside ==> Some(table) == LearnAll(old(table), Kept(sections))
    {
      hide LearnAll, Kept, Learn;
      receiver.ring := Flatten(sections);
      assert sections[0..] == sections;
      NothingLearned(table, sections);
      for i := 0 to |sections|
        invariant receiver.Valid() && receiver.ring == Flatten(sections[i..]) && Separate()
        invariant table == old(table) && Some(pmts[..]) == LearnAll(table, Kept(sections[..i]))
      {
        NextInRing(sections, i);
        NextLearned(table, sections, i);
        inside := SectionEvent(sections[i], Flatten(sections[i + 1..]));
        if !inside {
          return;
        }
      }
      assert sections[..|sections|] == sections;
      table := pmts[..];
      inside := true;
    }

    lemma NothingLearned(table: seq<Pmt>, sections: seq<seq<Byte>>)
      ensures LearnAll(table, Kept(sections[..0])) == Some(table)
    {}

    lemma NextInRing(sections: seq<seq<Byte>>, i: nat)
      requires i < |sections| && AllFramed(sections)
      ensures Framed(sections[i]) && Flatten(sections[i..]) == sections[i] + Flatten(sections[i + 1..])
    {
      assert sections[i..][1..] == sections[i + 1..];
    }

    /** The next section is learned on top of the ones before; one that cannot be learned spoils the whole. */
    lemma NextLearned(table: seq<Pmt>, sections: seq<seq<Byte>>, i: nat)
      requires i < |sections| && LearnAll(table, Kept(sections[..i])).Some?
      ensures var now := LearnAll(table, Kept(sections[..i])).value;
              && (Accepted(sections[i]) ==> LearnAll(table, Kept(sections[..i + 1])) == Learn(now, sections[i]))
              && (!Accepted(sections[i]) ==> LearnAll(table, Kept(sections[..i + 1])) == Some(now))
              && (Accepted(sections[i]) && Learn(now, sections[i]) == None ==> LearnAll(table, Kept(sections)) == None)
    {
      hide Learn, Accepted, LearnAll;
      var s, kept := sections[i], Kept(sections[..i]);
      assert sections[..i + 1] == sections[..i] + [s] && sections == sections[..i + 1] + sections[i + 1..];
      KeptConcat(sections[..i], [s]);
      KeptConcat(sections[..i + 1], sections[i + 1..]);
      KeptOne(s);
      if Accepted(s) {
        LearnOne(table, kept, s);
        if LearnAll(table, kept + [s]) == None {
          NoneStays(table, kept + [s], Kept(sections[i + 1..]));
        }
      } else {
        assert kept + [] == kept;
      }
    }

    lemma LearnOne(table: seq<Pmt>, kept: seq<seq<Byte>>, s: seq<Byte>)
      requires LearnAll(table, kept).Some?
      ensures LearnAll(table, kept + [s]) == Learn(LearnAll(table, kept).value, s)
    {
      assert (kept + [s])[..|kept|] == kept;
    }

    lemma {:induction false} NoneStays(table: seq<Pmt>, sections: seq<seq<Byte>>, more: seq<seq<Byte>>)
      requires LearnAll(table, sections) == None
      ensures LearnAll(table, sections + more) == None
      decreases |more|
    {
      if more == [] {
        assert sections + more == sections;
      } else {
        var n := |more| - 1;
        assert (sections + more)[..|sections| + n] == sections + more[..n];
        NoneStays(table, sections, more[..n]);
      }
    }

    /* ---------- Switching programs ---------- */

    method RemoveStreams() returns (error: Error)
      requires Running()
      modifies `audioOn, `videoOn, api`hStreamA, api`hStreamV, api.engine
      ensures error == NO_ERROR && Running() && !audioOn && !videoOn && Requests() == old(Requests())
    {
      hide Listening;
      error := NO_ERROR;
      if audioOn {
        error := api.PlayerStreamRemove(playerHandle, sourceHandle, audioStreamHandle);
        if error != NO_ERROR { return; }
        audioOn := false;
      }
      if videoOn {
        error := api.PlayerStreamRemove(playerHandle, sourceHandle, videoStreamHandle);
        if error != NO_ERROR { return; }
        videoOn := false;
      }
    }

    /** Replaces the section filter by one for a table on a packet identifier. */
    method ChangeFilter(pid: nat, tableId: nat) returns (error: Error)
      requires Open()
      modifies `filterHandle, api`hFilter, api`hBuffer, api`filterTable, api`filterPid, api.engine
      ensures error == NO_ERROR && Open() && Requests() == old(Requests())
      ensures api.filterTable == tableId && api.filterPid == pid
      ensures api.engine.pidOf == old(api.engine.pidOf)
    {
      hide Listening;
      error := api.DemuxFreeFilter(playerHandle, filterHandle);
      if error != NO_ERROR { return; }
      error, filterHandle := api.DemuxSetFilter(playerHandle, pid, tableId);
    }

    method CreateVideo(pid: nat) returns (error: Error)
      requires Open() && !videoOn
      modifies `videoOn, `videoStreamHandle, api`hStreamA, api`hStreamV, api.engine
      ensures error == NO_ERROR && Open() && Requests() == old(Requests())
      ensures Playing(videoOn, videoStreamHandle) == Playable(pid)
      ensures Playing(audioOn, audioStreamHandle) == old(Playing(audioOn, audioStreamHandle))
    {
      error := NO_ERROR;
      if pid != NO_PID {
        error, videoStreamHandle := api.PlayerStreamCreate(playerHandle, sourceHandle, pid, videoType);
        if error != NO_ERROR { return; }
        videoOn := true;
      }
    }

    method CreateAudio(pid: nat) returns (error: Error)
      requires Open() && !audioOn
      modifies `audioOn, `audioStreamHandle, api`hStreamA, api`hStreamV, api.engine
      ensures error == NO_ERROR && Open() && Requests() == old(Requests())
      ensures Playing(audioOn, audioStreamHandle) == Playable(pid)
      ensures Playing(videoOn, videoStreamHandle) == old(Playing(videoOn, videoStreamHandle))
    {
      error := NO_ERROR;
      if pid != NO_PID {
        error, audioStreamHandle := api.PlayerStreamCreate(playerHandle, sourceHandle, pid, audioType);
        if error != NO_ERROR { return; }
        audioOn := true;
      }
    }

    /** The old streams come down and the filter moves to the current program's map table. */
    method TakeDown() returns (error: Error)
      requires Running() && prCounter < |table|
      modifies `audioOn, `videoOn, `filterHandle, api, api.engine
      ensures error == NO_ERROR && Running() && !audioOn && !videoOn && Requests() == old(Requests())
      ensures api.filterPid == table[prCounter].tableId
    {
      error := RemoveStreams();
      if error != NO_ERROR { return; }
      error := ChangeFilter(pmts[prCounter].tableId, 0x02);
    }

    /** The streams of the current program go up, video before audio. */
    method PutUp() returns (error: Error)
      requires Running() && !audioOn && !videoOn && prCounter < |table|
      modifies `audioOn, `videoOn, `audioStreamHandle, `videoStreamHandle, api`hStreamA, api`hStreamV, api.engine
      ensures error == NO_ERROR && Running() && Requests() == old(Requests())
      ensures Playing(videoOn, videoStreamHandle) == Playable(pmts[prCounter].videoPid)
      ensures Playing(audioOn, audioStreamHandle) == Playable(pmts[prCounter].audioPid)
    {
      error := CreateVideo(pmts[prCounter].videoPid);
      if error != NO_ERROR { return; }
      error := CreateAudio(pmts[prCounter].audioPid);
    }

    /** The part the three switches share, from taking the old streams down to putting the new ones up. */
    method Switch(sections: seq<seq<Byte>>) returns (error: Error, inside: bool)
      requires Running() && Heard(sections)
      modifies `audioOn, `videoOn, `audioStreamHandle, `videoStreamHandle, `filterHandle,
               api, api.engine, receiver`ring, receiver.crc.table, pmts, `table
      ensures inside <==> Tuned(old(Abs()), sections).Some?
      ensures inside ==> error == NO_ERROR && Running() && Some(Abs()) == Tuned(old(Abs()), sections)
    {
      hide LearnAll, Kept;
      error, inside := NO_ERROR, false;
      if prCounter >= pmts.Length {
        return;
      }
      error := TakeDown();
      if error != NO_ERROR { return; }
      inside := Listen(sections);
      if !inside { return; }
      error := PutUp();
    }

    /* ---------- The stream thread ---------- */

    /**
     * One pass of the loop: each pending switch is served in turn, then the two display requests. It is a pass of the
     * viewer's machine, and leaves the program table or a section exactly when that does.
     */
    method StreamPass(first: seq<seq<Byte>>, second: seq<seq<Byte>>, third: seq<seq<Byte>>)
        returns (error: Error, inside: bool)
      requires Running() && Heard(first) && Heard(second) && Heard(third)
      modifies `changeFlag, `nextFlag, `previousFlag, `infoFlag, `listFlag, `prCounter,
               `audioOn, `videoOn, `audioStreamHandle, `videoStreamHandle, `filterHandle,
               api, api.engine, receiver`ring, receiver.crc.table, pmts, `table
      ensures inside <==> AfterPass(old(Abs()), first, second, third).Some?
      ensures inside ==> error == NO_ERROR && Running() && AfterPass(old(Abs()), first, second, third) == Some(Abs())
    {
      hide Running, LearnAll, Kept, AfterChange, AfterNext, AfterPrevious, AfterInfo;
      error, inside := ServeChange(first);
      if !inside || error != NO_ERROR { return; }
      error, inside := ServeSteps(second, third);
    }

    method ServeSteps(second: seq<seq<Byte>>, third: seq<seq<Byte>>) returns (error: Error, inside: bool)
      requires Running() && Heard(second) && Heard(third)
      modifies `nextFlag, `previousFlag, `infoFlag, `listFlag, `prCounter,
               `audioOn, `videoOn, `audioStreamHandle, `videoStreamHandle, `filterHandle,
               api, api.engine, receiver`ring, receiver.crc.table, pmts, `table
      ensures var y := Chain(Chain(AfterNext(old(Abs()), second), y => AfterPrevious(y, third)), y => AfterInfo(y));
              (inside <==> y.Some?) && (inside ==> error == NO_ERROR && Running() && y == Some(Abs()))
    {
      hide Running, LearnAll, Kept, AfterChange, AfterNext, AfterPrevious, AfterInfo;
      error, inside := ServeNext(second);
      if !inside || error != NO_ERROR { return; }
      error, inside := ServePrevious(third);
      if !inside || error != NO_ERROR { return; }
      inside := ServeDisplay();
    }

    method ServeDisplay() returns (inside: bool)
      requires Running()
      modifies `infoFlag, `listFlag
      ensures inside <==> AfterInfo(old(Abs())).Some?
      ensures inside ==> AfterInfo(old(Abs())) == Some(Abs())
    {
      inside := !infoFlag || prCounter < pmts.Length;
      if infoFlag { infoFlag := false; }
      if listFlag { listFlag := false; }
    }

    method ServeChange(sections: seq<seq<Byte>>) returns (error: Error, inside: bool)
      requires Running() && Heard(sections)
      modifies `changeFlag, `audioOn, `videoOn, `audioStreamHandle, `videoStreamHandle, `filterHandle,
               api, api.engine, receiver`ring, receiver.crc.table, pmts, `table
      ensures inside <==> AfterChange(old(Abs()), sections).Some?
      ensures inside ==> error == NO_ERROR && Running() && AfterChange(old(Abs()), sections) == Some(Abs())
    {
      hide LearnAll, Kept, Tuned;
      error, inside := NO_ERROR, true;
      if changeFlag {
        error, inside := Switch(sections);
        if !inside || error != NO_ERROR { return; }
        ClearChange();
      }
    }

    method ClearChange()
      modifies `changeFlag
      ensures Abs() == old(Abs()).(change := false)
    {
      changeFlag := false;
    }

    method ClearNext()
      modifies `nextFlag
      ensures Abs() == old(Abs()).(next := false)
    {
      nextFlag := false;
    }

    method ClearPrevious()
      modifies `previousFlag
      ensures Abs() == old(Abs()).(previous := false)
    {
      previousFlag := false;
    }

    method SwitchTo(counter: nat, sections: seq<seq<Byte>>) returns (error: Error, inside: bool)
      requires Running() && Heard(sections)
      modifies `prCounter, `audioOn, `videoOn, `audioStreamHandle, `videoStreamHandle, `filterHandle,
               api, api.engine, receiver`ring, receiver.crc.table, pmts, `table
      ensures inside <==> Tuned(old(Abs()).(counter := counter), sections).Some?
      ensures inside ==>
               error == NO_ERROR && Running() && Some(Abs()) == Tuned(old(Abs()).(counter := counter), sections)
    {
      hide LearnAll, Kept, Tuned;
      prCounter := counter;
      error, inside := Switch(sections);
    }

    method ServeNext(sections: seq<seq<Byte>>) returns (error: Error, inside: bool)
      requires Running() && Heard(sections)
      modifies `nextFlag, `prCounter, `audioOn, `videoOn, `audioStreamHandle, `videoStreamHandle, `filterHandle,
               api, api.engine, receiver`ring, receiver.crc.table, pmts, `table
      ensures inside <==> AfterNext(old(Abs()), sections).Some?
      ensures inside ==> error == NO_ERROR && Running() && AfterNext(old(Abs()), sections) == Some(Abs())
    {
      hide LearnAll, Kept, Tuned;
      error, inside := NO_ERROR, true;
      if nextFlag {
        error, inside := SwitchTo(if prCounter + 1 == pmtCount then 0 else prCounter + 1, sections);
        if !inside || error != NO_ERROR { return; }
        ClearNext();
      }
    }

    method ServePrevious(sections: seq<seq<Byte>>) returns (error: Error, inside: bool)
      requires Running() && Heard(sections)
      modifies `previousFlag, `prCounter, `audioOn, `videoOn, `audioStreamHandle, `videoStreamHandle, `filterHandle,
               api, api.engine, receiver`ring, receiver.crc.table, pmts, `table
      ensures inside <==> AfterPrevious(old(Abs()), sections).Some?
      ensures inside ==> error == NO_ERROR && Running() && AfterPrevious(old(Abs()), sections) == Some(Abs())
    {
      hide LearnAll, Kept, Tuned;
      error, inside := NO_ERROR, true;
      if previousFlag {
        if pmtCount == 0 {
          inside := false;
          return;
        }
        error, inside := SwitchTo(if prCounter == 0 then pmtCount - 1 else prCounter - 1, sections);
        if !inside || error != NO_ERROR { return; }
        ClearPrevious();
      }
    }

    /* ---------- Remote-control requests ---------- */

    /** A request for the program already current only refreshes the display, which reads the table. */
    method ChangeProgram(program: nat) returns (inside: bool)
      requires pmts.Length == |table|
      modifies `changeFlag, `prCounter
      ensures inside <==> AfterPress(old(Abs()), Program(program)).Some?
      ensures inside ==> AfterPress(old(Abs()), Program(program)) == Some(Abs())
    {
      inside := true;
      if program != prCounter {
        changeFlag := true;
        prCounter := program;
      } else {
        inside := prCounter < pmts.Length;
      }
    }

    method Request(key: Key)
      requires !key.Program?
      modifies `nextFlag, `previousFlag, `infoFlag, `listFlag
      ensures AfterPress(old(Abs()), key) == Some(Abs())
    {
      match key
      case Next => nextFlag := true;
      case Previous => previousFlag := true;
      case Info => infoFlag := true;
      case List => listFlag := true;
    }

    /* ---------- Bringing the stream up and down ---------- */

    /** Waits for one section that gets past the checksum gate. */
    method AwaitSection(section: seq<Byte>) returns (buffer: seq<Byte>)
      requires receiver.Valid() && receiver.ring == [] && Framed(section) && Accepted(section)
      modifies receiver`ring, receiver.crc.table
      ensures receiver.Valid() && receiver.ring == [] && buffer == section
    {
      receiver.ring := section;
      FirstReceived(section, []);
      assert section + [] == section;
      var hr, delivered := receiver.SectionReceived();
      buffer := delivered.value;
    }

    /** Player, source and the first filter; every handle check in it passes. */
    method OpenPlayer() returns (error: Error)
      requires Closed()
      modifies `playerHandle, `sourceHandle, `filterHandle, api, api.engine
      ensures error == NO_ERROR && Open() && !audioOn && !videoOn && api.filterPid == api.filterTable == 0
    {
      hide Listening;
      error, playerHandle := api.PlayerInit();
      if error != NO_ERROR { return; }
      error, sourceHandle := api.PlayerSourceOpen(playerHandle);
      if error != NO_ERROR { return; }
      error, filterHandle := api.DemuxSetFilter(playerHandle, 0x0000, 0x00);
    }

    /** The program table, from the first association section; there is no room for it when no number is below 256. */
    method LoadPrograms(pat: seq<Byte>) returns (inside: bool)
      requires Open() && Framed(pat) && Accepted(pat) && PatReadable(pat)
      modifies `pmtCount, `pmts, `table, receiver`ring, receiver.crc.table
      ensures inside <==> PatUsable(pat)
      ensures Open()
      ensures inside ==>
               fresh(pmts) && |table| == PatCount(pat) - 1 && Tabled(table, Programs(PatEntries(pat, PatCount(pat))))
    {
      hide Programs, Accepted;
      var buffer := AwaitSection(pat);
      inside := PatUsable(buffer);
      if inside {
        var length;
        length, pmtCount, pmts := ParsePat(buffer);
        table := pmts[..];
      }
    }

    /** The service list, from a description section; there is room for as many services as there are table entries. */
    method LoadServices(sdt: seq<Byte>, ghost listed: seq<Service>) returns (inside: bool)
      requires Open() && Framed(sdt) && Accepted(sdt) && SdtOf(sdt, listed)
      modifies `services, receiver`ring, receiver.crc.table
      ensures Open() && (inside <==> |listed| <= |table|)
      ensures inside ==> services.Length == |table| && services[..|listed|] == InfosOf(listed)
    {
      var buffer := AwaitSection(sdt);
      var length;
      inside, length, services := ParseSdt(buffer, pmtCount, listed);
    }

    /**
     * Initialisation: the configured identifiers have to match what is broadcast, except that a missing video stream is
     * tolerated. Loaded is the program table before any map section was heard.
     */
    method StreamInit(config: Config, locked: bool, pat: seq<Byte>, sdt: seq<Byte>, ghost listed: seq<Service>,
                      sections: seq<seq<Byte>>) returns (error: Error, inside: bool, ghost loaded: seq<Pmt>)
      requires Closed()
      requires locked ==> Broadcasts(pat, sdt, listed, sections)
      modifies `changeFlag, `nextFlag, `previousFlag, `infoFlag, `prCounter,
               `playerHandle, `sourceHandle, `filterHandle, `pmtCount, `pmts, `table, `services,
               `audioOn, `videoOn, `audioStreamHandle, `videoStreamHandle,
               api, api.engine, receiver`ring, receiver.crc.table
      ensures !locked ==> inside && error == ERROR && Closed()
      ensures locked ==> (inside <==> Starts(config, pat, listed, loaded, sections))
      ensures locked && inside ==> Tabled(loaded, Programs(PatEntries(pat, PatCount(pat))))
      ensures locked && inside ==> Running() && fresh(pmts) && Some(table) == LearnAll(loaded, Kept(sections))
      ensures locked && inside ==> 1 <= config.programNumber <= |loaded| == |table|
      ensures locked && inside ==>
               Requests() == Zap(table, config.programNumber - 1, false, false, false, false, listFlag, None, None, 0)
      ensures locked && inside && config.programNumber <= |Programs(PatEntries(pat, PatCount(pat)))| ==>
               table[config.programNumber - 1].prNum
               == Programs(PatEntries(pat, PatCount(pat)))[config.programNumber - 1].number
      ensures locked && inside ==> api.filterPid == table[config.programNumber - 1].tableId
      ensures inside ==> (error == NO_ERROR <==> locked && Matches(config, table[config.programNumber - 1]))
      ensures inside && error == NO_ERROR ==>
               && PlaysTable(Abs())
               && Playing(videoOn, videoStreamHandle) == Playable(table[config.programNumber - 1].videoPid)
               && Playing(audioOn, audioStreamHandle) == Playable(table[config.programNumber - 1].audioPid)
    {
      hide Programs, Accepted, LearnAll, Kept, Listening, PlayerApi.Valid, PlayerApi.Tight;
      ResetRequests(Wrap32(config.programNumber - 1));
      loaded := [];
      if !locked {
        error, inside := ERROR, true;
        return;
      }
      error, inside, loaded := StartUp(config, pat, sdt, listed, sections);
    }

    /** Initialisation once the tuner has locked. */
    method StartUp(config: Config, pat: seq<Byte>, sdt: seq<Byte>, ghost listed: seq<Service>,
                   sections: seq<seq<Byte>>) returns (error: Error, inside: bool, ghost loaded: seq<Pmt>)
      requires Closed() && prCounter == Wrap32(config.programNumber - 1)
      requires Broadcasts(pat, sdt, listed, sections)
      modifies `playerHandle, `sourceHandle, `filterHandle, `pmtCount, `pmts, `table, `services,
               `audioOn, `videoOn, `audioStreamHandle, `videoStreamHandle,
               api, api.engine, receiver`ring, receiver.crc.table
      ensures inside <==> Starts(config, pat, listed, loaded, sections)
      ensures inside ==> Tabled(loaded, Programs(PatEntries(pat, PatCount(pat))))
      ensures inside ==>
               && Running() && fresh(pmts) && Some(table) == LearnAll(loaded, Kept(sections))
               && prCounter < |table| && api.filterPid == table[prCounter].tableId
      ensures inside ==> (error == NO_ERROR <==> Matches(config, table[prCounter]))
      ensures inside && error == NO_ERROR ==> Playing(videoOn, videoStreamHandle) == Playable(table[prCounter].videoPid)
      ensures inside && error == NO_ERROR ==> Playing(audioOn, audioStreamHandle) == Playable(table[prCounter].audioPid)
    {
      hide Programs, Accepted, LearnAll, Kept, SdtOf;
      error := OpenPlayer();
      loaded := [];
      inside := true;
      if error != NO_ERROR { return; }
      error, inside, loaded := LoadTables(pat, sdt, listed, sections);
      if !inside || error != NO_ERROR { return; }
      error := StartStreams(config);
    }

    method ResetRequests(counter: nat)
      modifies `audioOn, `videoOn, `nextFlag, `previousFlag, `changeFlag, `infoFlag, `prCounter
      ensures prCounter == counter && !audioOn && !videoOn && !nextFlag && !previousFlag && !changeFlag && !infoFlag
    {
      audioOn, videoOn := false, false;
      nextFlag, previousFlag, changeFlag, infoFlag := false, false, false, false;
      prCounter := counter;
    }

    /** The three filters and waits: programs, services, and the map of the configured program. */
    method LoadTables(pat: seq<Byte>, sdt: seq<Byte>, ghost listed: seq<Service>, sections: seq<seq<Byte>>)
        returns (error: Error, inside: bool, ghost loaded: seq<Pmt>)
      requires Open() && !audioOn && !videoOn && Broadcasts(pat, sdt, listed, sections)
      modifies `filterHandle, `pmtCount, `pmts, `table, `services,
               api`hFilter, api`hBuffer, api`filterTable, api`filterPid, api.engine, receiver`ring, receiver.crc.table
      ensures inside <==>
                && PatUsable(pat) && |loaded| == PatCount(pat) - 1 && |listed| <= |loaded|
                && prCounter < |loaded| && LearnAll(loaded, Kept(sections)).Some?
      ensures inside ==> Tabled(loaded, Programs(PatEntries(pat, PatCount(pat))))
      ensures inside ==>
               && error == NO_ERROR && Running() && fresh(pmts) && Some(table) == LearnAll(loaded, Kept(sections))
               && api.filterPid == table[prCounter].tableId
    {
      hide LearnAll, Kept, Accepted, Programs, SdtOf;
      error := NO_ERROR;
      inside := LoadPrograms(pat);
      loaded := table;
      if !inside { return; }
      error, inside := FetchServices(sdt, listed);
      if !inside || error != NO_ERROR { return; }
      inside := prCounter < pmts.Length;
      if !inside { return; }
      error, inside := FetchMaps(sections);
    }

    method FetchServices(sdt: seq<Byte>, ghost listed: seq<Service>) returns (error: Error, inside: bool)
      requires Open() && Framed(sdt) && Accepted(sdt) && SdtOf(sdt, listed)
      modifies `filterHandle, `services, api`hFilter, api`hBuffer, api`filterTable, api`filterPid, api.engine,
               receiver`ring, receiver.crc.table
      ensures error == NO_ERROR && Open() && (inside <==> |listed| <= |table|)
      ensures inside ==> services.Length == |table| && services[..|listed|] == InfosOf(listed)
      ensures api.filterPid == 0x11 && api.filterTable == 0x42
    {
      hide Accepted, SdtOf;
      inside := false;
      error := ChangeFilter(0x11, 0x42);
      if error != NO_ERROR { return; }
      inside := LoadServices(sdt, listed);
    }

    method FetchMaps(sections: seq<seq<Byte>>) returns (error: Error, inside: bool)
      requires Open() && prCounter < |table| && Heard(sections)
      modifies `filterHandle, api`hFilter, api`hBuffer, api`filterTable, api`filterPid, api.engine, receiver`ring,
               receiver.crc.table, pmts, `table
      ensures inside <==> LearnAll(old(table), Kept(sections)).Some?
      ensures inside ==> error == NO_ERROR && Running() && Some(table) == LearnAll(old(table), Kept(sections))
      ensures api.filterPid == old(table[prCounter]).tableId
    {
      hide LearnAll, Kept;
      inside := false;
      error := ChangeFilter(pmts[prCounter].tableId, 0x02);
      if error != NO_ERROR { return; }
      inside := Listen(sections);
    }

    /** The configured identifiers are checked before anything is played. */
    method StartStreams(config: Config) returns (error: Error)
      requires Running() && !audioOn && !videoOn && prCounter < |table|
      modifies `audioOn, `videoOn, `audioStreamHandle, `videoStreamHandle, api`hStreamA, api`hStreamV, api.engine
      ensures Running() && Requests() == old(Requests())
      ensures error == NO_ERROR <==> Matches(config, table[prCounter])
      ensures error == NO_ERROR ==> Playing(videoOn, videoStreamHandle) == Playable(table[prCounter].videoPid)
      ensures error == NO_ERROR ==> Playing(audioOn, audioStreamHandle) == Playable(table[prCounter].audioPid)
    {
      if config.audioPid != pmts[prCounter].audioPid {
        return ERROR;
      }
      if config.videoPid != pmts[prCounter].videoPid && pmts[prCounter].videoPid != NO_PID {
        return ERROR;
      }
      error := CreateAudio(pmts[prCounter].audioPid);
      if error != NO_ERROR { return; }
      error := CreateVideo(pmts[prCounter].videoPid);
    }

    /** Everything that was obtained is given back. */
    method StreamDeinit() returns (error: Error)
      requires Open() || Closed()
      modifies `audioOn, `videoOn, api, api.engine
      ensures error == NO_ERROR <==> old(Open())
      ensures api.engine.live == {} && multiset(api.engine.released) == multiset(api.engine.obtained)
    {
      hide Listening;
      if audioOn {
        error := api.PlayerStreamRemove(playerHandle, sourceHandle, audioStreamHandle);
        if error != NO_ERROR { return; }
        audioOn := false;
      }
      if videoOn {
        error := api.PlayerStreamRemove(playerHandle, sourceHandle, videoStreamHandle);
        if error != NO_ERROR { return; }
        videoOn := false;
      }
      error := api.DemuxFreeFilter(playerHandle, filterHandle);
      if error != NO_ERROR {
        api.NothingLive();
        return;
      }
      error := api.PlayerSourceClose(playerHandle, sourceHandle);
      if error != NO_ERROR { return; }
      error := api.PlayerDeinit(playerHandle);
    }

    /* ---------- Whole sessions ---------- */

    method Handle(e: Event) returns (error: Error, inside: bool)
      requires Running() && EventHeard(e)
      modifies `changeFlag, `nextFlag, `previousFlag, `infoFlag, `listFlag, `prCounter,
               `audioOn, `videoOn, `audioStreamHandle, `videoStreamHandle, `filterHandle,
               api, api.engine, receiver`ring, receiver.crc.table, pmts, `table
      ensures inside <==> Step(old(Abs()), e).Some?
      ensures inside ==> error == NO_ERROR && Running() && Step(old(Abs()), e) == Some(Abs())
    {
      hide AfterPass, AfterPress, AfterBroadcast, LearnAll, Kept;
      error := NO_ERROR;
      match e
      case Press(key) => inside := HandlePress(key);
      case Pass(a, b, c) => error, inside := StreamPass(a, b, c);
      case Broadcast(s) => inside := HandleBroadcast(s);
    }

    method HandlePress(key: Key) returns (inside: bool)
      requires Running()
      modifies `changeFlag, `nextFlag, `previousFlag, `infoFlag, `listFlag, `prCounter
      ensures inside <==> AfterPress(old(Abs()), key).Some?
      ensures inside ==> Running() && AfterPress(old(Abs()), key) == Some(Abs())
    {
      hide AfterPress;
      inside := true;
      if key.Program? {
        inside := ChangeProgram(key.number);
      } else {
        Request(key);
      }
    }

    method HandleBroadcast(s: seq<seq<Byte>>) returns (inside: bool)
      requires Running() && Filtered(s)
      modifies receiver`ring, receiver.crc.table, pmts, `table
      ensures inside <==> AfterBroadcast(old(Abs()), s).Some?
      ensures inside ==> Running() && AfterBroadcast(old(Abs()), s) == Some(Abs())
    {
      hide LearnAll, Kept;
      inside := Listen(s);
    }

    /**
     * Any sequence of key presses, stream-thread passes and broadcasts follows the viewer's machine, keeps the
     * invariant and fails no handle check as long as that stays inside its bounds, and leaves them exactly when that
     * does.
     */
    method HandleAll(events: seq<Event>) returns (error: Error, inside: bool)
      requires Running() && forall k | 0 <= k < |events| :: EventHeard(events[k])
      modifies `changeFlag, `nextFlag, `previousFlag, `infoFlag, `listFlag, `prCounter,
               `audioOn, `videoOn, `audioStreamHandle, `videoStreamHandle, `filterHandle,
               api, api.engine, receiver`ring, receiver.crc.table, pmts, `table
      ensures inside <==> Run(old(Abs()), events).Some?
      ensures inside ==> error == NO_ERROR && Running() && Run(old(Abs()), events) == Some(Abs())
    {
      hide Running, Step;
      error, inside := NO_ERROR, true;
      for i := 0 to |events|
        invariant error == NO_ERROR && inside && Running()
        invariant Run(old(Abs()), events[..i]) == Some(Abs())
      {
        assert events[..i + 1][..i] == events[..i];
        error, inside := Handle(events[i]);
        if !inside {
          RunEnds(old(Abs()), events, i + 1);
          return;
        }
        if error != NO_ERROR { return; }
      }
      assert events[..|events|] == events;
    }

    lemma {:induction false} RunEnds(z: Zap, events: seq<Event>, i: nat)
      requires i <= |events| && Run(z, events[..i]) == None
      ensures Run(z, events) == None
      decreases |events|
    {
      hide Step;
      if i == |events| {
        assert events[..i] == events;
      } else {
        var n := |events| - 1;
        assert events[..n][..i] == events[..i];
        RunEnds(z, events[..n], i);
      }
    }

    /**
     * A whole session: initialise, run, shut down. As long as it stays inside its bounds, everything obtained is
     * released, and it succeeds exactly when the tuner locks and the configuration matches the broadcast.
     */
    method Session(config: Config, locked: bool, pat: seq<Byte>, sdt: seq<Byte>, ghost listed: seq<Service>,
                   sections: seq<seq<Byte>>, events: seq<Event>)
        returns (error: Error, inside: bool, ghost loaded: seq<Pmt>, ghost start: Zap, ghost end: Zap)
      requires Closed()
      requires locked ==> Broadcasts(pat, sdt, listed, sections)
      requires forall k | 0 <= k < |events| :: EventHeard(events[k])
      modifies this, api, api.engine, receiver`ring, receiver.crc.table
      ensures inside ==> api.engine.live == {} && multiset(api.engine.released) == multiset(api.engine.obtained)
      ensures locked && Starts(config, pat, listed, loaded, sections) ==>
                && Tabled(loaded, Programs(PatEntries(pat, PatCount(pat))))
                && Some(start.table) == LearnAll(loaded, Kept(sections))
                && |start.table| == |loaded| && start.counter + 1 == config.programNumber <= |loaded|
                && (config.programNumber <= |Programs(PatEntries(pat, PatCount(pat)))| ==>
                      start.table[start.counter].prNum
                      == Programs(PatEntries(pat, PatCount(pat)))[config.programNumber - 1].number)
      ensures inside <==> !locked || (Starts(config, pat, listed, loaded, sections)
                                      && (Matches(config, start.table[start.counter]) ==> Run(start, events).Some?))
      ensures inside ==> (error == NO_ERROR <==> locked && Matches(config, start.table[start.counter]))
      ensures inside && error == NO_ERROR ==>
                && PlaysTable(start) && Run(start, events) == Some(end)
                && (Pending(end) || PlaysSince(start, events, end))
    {
      hide LearnAll, Kept, Programs, Running, PlaysTable;
      error, inside, loaded := StreamInit(config, locked, pat, sdt, listed, sections);
      start, end := Abs(), Abs();
      if !inside { return; }
      if error == NO_ERROR {
        error, inside := HandleAll(events);
        end := Abs();
        if !inside { return; }
        PlaysCurrentProgram(start, events);
      }
      StillOpen();
      var closing := StreamDeinit();
      if error == NO_ERROR {
        error := closing;
      }
    }

    lemma StillOpen()
      ensures Running() ==> Open()
    {}
  }

  datatype Config = Config(programNumber: Byte, audioPid: nat, videoPid: nat)

  /** Whether a configuration agrees with a program's streams. */
  predicate Matches(config: Config, program: Pmt) {
    && config.audioPid == program.audioPid
    && (config.videoPid == program.videoPid || program.videoPid == NO_PID)
  }

  /** An association section with some entry numbered below 256. */
  predicate PatUsable(pat: seq<Byte>) {
    && PatReadable(pat)
    && |Programs(PatEntries(pat, PatCount(pat)))| < PatCount(pat)
  }

  /**
   * Initialisation stays inside its bounds: the program table has room, so has the service list, the configured
   * program is in the table, and the map sections are those of listed programs.
   */
  predicate Starts(config: Config, pat: seq<Byte>, listed: seq<Service>, loaded: seq<Pmt>, sections: seq<seq<Byte>>) {
    && PatUsable(pat) && |loaded| == PatCount(pat) - 1 && |listed| <= |loaded|
    && 1 <= config.programNumber <= |loaded| && LearnAll(loaded, Kept(sections)).Some?
  }

  /**
   * A sound broadcast of one program and two services: initialisation writes behind the service list, whatever
   * follows.
   */
  lemma ServicesOverrun(config: Config, loaded: seq<Pmt>, sections: seq<seq<Byte>>)
    ensures var pat := EncodePat(1, 0xC1, [Association(0, 16), Association(256, 100)]);
            var listed := [Service(256, 0xFC, 0, 1, [], [], []), Service(257, 0xFC, 0, 1, [], [], [])];
            var sdt := EncodeSdt(1, 0xC1, 1, listed);
            && (Heard(sections) ==> Broadcasts(pat, sdt, listed, sections))
            && PatUsable(pat) && !Starts(config, pat, listed, loaded, sections)
  {
    var entries := [Association(0, 16), Association(256, 100)];
    var listed := [Service(256, 0xFC, 0, 1, [], [], []), Service(257, 0xFC, 0, 1, [], [], [])];
    PatRoundTrip(1, 0xC1, entries);
    assert !Recorded(entries[0]);
    RoomIffNetworkEntry(entries);
    TwoServicesFit(listed);
    SdtRoundTrip(1, 0xC1, 1, listed);
  }

  lemma TwoServicesFit(listed: seq<Service>)
    requires |listed| == 2 && AllValidServices(listed) && LoopLength(listed[0]) < 1000 && LoopLength(listed[1]) < 1000
    ensures |EncodeServices(listed)| < 2100
  {
    assert EncodeServices(listed[1..][1..]) == [];
  }

  /** What the section filter for map sections lets through. */
  predicate Filtered(sections: seq<seq<Byte>>) {
    AllFramed(sections) && forall k | 0 <= k < |sections| :: sections[k] != [] && sections[k][0] == 0x02
  }

  /** A wait ends only when a section has got past the checksum gate. */
  predicate Heard(sections: seq<seq<Byte>>) {
    Filtered(sections) && Kept(sections) != []
  }

  /** What the tuner is expected to deliver at the three waits of initialisation. */
  ghost predicate Broadcasts(pat: seq<Byte>, sdt: seq<Byte>, listed: seq<Service>, sections: seq<seq<Byte>>) {
    && Framed(pat) && Accepted(pat) && pat[0] == 0x00 && PatReadable(pat)
    && Framed(sdt) && Accepted(sdt) && sdt[0] == 0x42 && SdtOf(sdt, listed)
    && Heard(sections)
  }

  /**
   * What it is expected to deliver afterwards: map sections of whatever programs, at least one of them sound at every
   * wait.
   */
  predicate EventHeard(e: Event) {
    match e
    case Press(_) => true
    case Pass(a, b, c) => Heard(a) && Heard(b) && Heard(c)
    case Broadcast(s) => Filtered(s)
  }
}
