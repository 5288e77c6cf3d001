# Verified model of a DVB zapper and its drivers

A Dafny model of a digital television "zapper" for set-top boxes: the pipeline that receives and parses the program
tables, the stream thread that switches programs over a handle-checked player interface, the blind scan and the
fixed-point registers of a satellite receiver, the firmware download of a CAM controller, and the signal-quality figures
of a terrestrial demodulator. All files verify together with `dafny verify dfyconfig.toml`.

| file | models |
|---|---|
| `Wrappers.dfy`, `Arithmetic.dfy`, `Bytes.dfy` | missing results; products and quotients; octets, their bits, 8-, 16- and 32-bit wrap-around, C division |
| `Crc32.dfy` | the section checksum: bitwise decoder model (annex A of ISO/IEC 13818-1), table, long division |
| `SectionReceiver.dfy` | sections out of the demultiplexer's ring buffer, behind the checksum gate |
| `TableParser.dfy` | program association, program map (sections 2.4.4.3 and 2.4.4.8 of ISO/IEC 13818-1) and service description (section 5.2.3 of ETSI EN 300 468) |
| `Player.dfy` | the player and demultiplexer interface over a back end that hands out resources |
| `Zapper.dfy` | the viewer's machine: what keys, passes of the stream thread and broadcasts do |
| `StreamController.dfy` | the stream thread and the remote-control entry points, proved to be the viewer's machine |
| `Transponders.dfy`, `BlindScan.dfy` | the transponder list, locking, and the two sweeps of the blind scan |
| `Demodulator.dfy`, `Tuner.dfy` | symbol rate, carrier offset, clocks and dividers of the satellite front end |
| `CimaxFirmware.dfy`, `CimaxSpi.dfy` | firmware signature and download, message framing on the SPI bus |
| `SonyMath.dfy`, `SignalQuality.dfy` | integer logarithms and the quality percentages built on them |

Objects that the program updates in place are classes; arrays it works on in place are arrays; each such method is proved
against a function or relation of the old state, and the properties are proved about those. What devices answer
(register readings, lock results, transfers that fail, sections that arrive) is a parameter of a method and arbitrary
unless a contract says otherwise.

Places where the code does not do what its documentation, or the standard, promises:

- `table_parser.c:17` tells the network entry of a program association section from the others by the high octet of the
  program number alone, so programs below 256 are dropped too (`LowProgramNumberDropped`, exactly when:
  `AllRecordedIffNoLowNumber`), and without such an entry the table is one entry short (`RoomIffNetworkEntry`).
- `stream_controller.c:94-96` searches the program table for the program of a map section without an end: sections of
  unlisted programs, among them all below 256, make it run past the table (`LowProgramRunsPastTable`, exactly when:
  `BroadcastSafeIff`, over whole runs `RunSafeIff`).
- `table_parser.c:40-46` skips the program_info_length field but not the descriptors it announces
  (`ProgramInfoMisread`, `ProgramInfoOverruns`, exactly when: `OwnStreamsIffNoProgramInfo`, `HarmlessProgramInfo`).
- The last step of a blind scan counts in eight bits, while the program's own lists have room for 1000 findings. With 255
  findings it goes in front of the array if some failed, and never ends if none did; with more the search in front of
  it never ends (`TwoHundredFiftyFiveStay`, `OneFailureLeaves`, exactly when: `SeparationOutcome`, `SearchEndsIff`).
- A transponder array without a spare slot is written and read behind its end once the list is full (`SaveScannedTp`,
  `NextToCompare`, `RemoveUnlocked`); a capacity of 65535 lets the count wrap to 0, and the next finding is written in
  front of it. In lists of more than 32768 entries no duplicate is found (`LockedTwiceIffTooLong`).
- `table_parser.c:69-89` writes one entry per listed service into a list of one per program (`ServicesOverrun`, exactly
  when: `ParseSdt`).
- `Player_Deinit` closes the source before it removes a filter that is still set, and hands the removal a source handle
  that is 0 by then (`tdp_api/tdp_api.c:992-1008`).
- The remote control offers seven programs whatever the table holds (`SafeIffProgramForEveryKey`).
- A new stream, source, filter or player in an occupied slot leaks the old one (`Player`, "nothing leaks if and only if").
- A carrier offset beyond 16 MHz, a symbol rate above 65536 KS/s, and quality inputs far outside any real range wrap
  (`CarrierWithinThree`, `SymRateWithinOne`, `DvbTMonotoneIffNoWrap`, `PartRisesIffFits`).
- The fastest 32APSK signals outrun the transport stream clock of the DS300X (`Apsk32NotCovered`).
- CAM messages whose payload is a larger multiple of 256 octets lose their last four octets (`ReceivedIffComplete`), and
  those above 4096 octets overrun the buffer they are put together in (`SendToCam`).
- The firmware signature misses some changes of two neighbouring octets (`NeighbourChangeHiddenIffUndone`).
- `stream_init` ends without a return statement when it succeeds; the model takes that for NO_ERROR.

## Model

| member | source | states |
|---|---|---|
| `Crc32.TableStep` | tdp_api/tdp_api.c:642-647 | one step through the table (shift by an octet, look up, combine) moves the register exactly as clocking the octet's eight bits through the bitwise decoder does, for every register and octet |
| `Crc32.Checksum.BuildTable` | tdp_api/tdp_api.c:620-641 | fills the table so that entry i is eight clocks of the register holding i in its top octet |
| `Crc32.Checksum.WriteChecksum` | tdp_api/tdp_api.c:618-651 | on every call, whether or not the table is there yet, the four octets written are the big-endian bitwise CRC of the whole block |
| `Crc32.CrcIsRemainder` | tdp_api/tdp_api.c:618-651 | the checksum is the remainder of long division by the generator 0x04C11DB7 (a preset of ones amounts to a fixed prefix) |
| `Crc32.ShiftInjective` | tdp_api/tdp_api.c:642-647 | whatever bits are clocked in, no two register states become the same one |
| `Crc32.BurstChangesRegister` | tdp_api/tdp_api.c:642-647 | replacing up to 32 consecutive bits by others always ends in another register state |
| `Crc32.FourByteCorruptionDetected` | tdp_api/tdp_api.c:618-651 | a message with checksum zero never keeps checksum zero when four consecutive octets are corrupted |
| `Crc32.ZeroIffOwnCrc` | tdp_api/tdp_api.c:618-651 | the checksum of a message with four more octets is zero if and only if those octets are the big-endian checksum of the message |
| `SectionReceiver.Receiver.SectionReceived` | tdp_api/tdp_api.c:503-602 | one event takes exactly what the specification function Receive takes from the ring, and delivers what it delivers: nothing on a short header or body, nothing on a bad checksum except for table 0x70 |
| `SectionReceiver.StreamDelivered` | tdp_api/tdp_api.c:503-602 | any sequence of sections packed into the ring is taken out one per event, and the acceptable ones are delivered, unchanged and in order |
| `SectionReceiver.CorruptedRejected` | tdp_api/tdp_api.c:565-598 | changing up to four consecutive octets behind the header of an accepted section (table id other than 0x70) makes it rejected, and its framing stays |
| `SectionReceiver.CorruptionCostsOneSection` | tdp_api/tdp_api.c:503-602 | so in a whole stream such a corruption loses that one section and no other |
| `TableParser.DecodeEncodeStreams` | table_parser.c:46-58 | the stream loop of a map section decodes to the streams that were encoded |
| `TableParser.EncodeDecodeStreams` | table_parser.c:46-58 | and every loop that can be cut into entries is the encoding of what it decodes to |
| `TableParser.WalkStep` | table_parser.c:46-58 | advancing the pointer by ES_info_length + 5 lands on the next entry and never outside the section |
| `TableParser.AllNotedKeepsFirst` | table_parser.c:48-55 | noting the entries one by one records the first video (1, 2), the first audio (3, 4) and any teletext (6) entry |
| `TableParser.ParsePmt` | table_parser.c:33-60 | updates its table entry to section length, first video, first audio or 65000, and teletext flag of the section, and no other entry; the loop stays inside the section |
| `TableParser.PmtRoundTrip` | table_parser.c:33-60 | every encoded map section without program descriptors passes the checksum gate and parses to what was encoded |
| `TableParser.OwnStreamsIffNoProgramInfo` | table_parser.c:40-58 | for every valid map section, the walk sees the program's own streams if and only if there are no program descriptors |
| `TableParser.ProgramInfoTakenForStreams` | table_parser.c:40-46 | program descriptors are not skipped: when they can be cut into entries, those count before the real streams |
| `TableParser.HarmlessProgramInfo` | table_parser.c:40-55 | for such descriptors each recorded field is still right if and only if they bring no other first video, no other first audio, no new teletext entry |
| `TableParser.WalkWithProgramInfo` | table_parser.c:40-58 | for every valid map section: the walk ends at the checksum if and only if descriptors and streams together can be cut into entries, and each recorded field is right if and only if those entries agree with the streams on it |
| `TableParser.ProgramInfoOverruns` | table_parser.c:40-58 | descriptors that cannot be cut: a concrete valid section whose walk does not end at its checksum |
| `TableParser.ProgramInfoMisread` | table_parser.c:40-46 | a concrete section with a program descriptor whose video stream is misread |
| `TableParser.ServiceStep` | table_parser.c:71-89 | at each service the fixed offsets hit its id, type and name when the service descriptor comes first, and the next service starts where the loop goes on |
| `TableParser.ParseSdt` | table_parser.c:62-91 | stays inside the allocated list if and only if the section lists no more services than it has room for; then it records every service, in order, with id, type, loop length and terminated name |
| `TableParser.SdtRoundTrip` | table_parser.c:62-91 | every encoded description section passes the checksum gate and lists the services encoded |
| `TableParser.ParsePat` | table_parser.c:5-31 | records the programs with numbers from 256 up, in order, in a table with one entry fewer than the section has, provided at least one entry is not recorded |
| `TableParser.PatRoundTrip` | table_parser.c:5-31 | parsing an encoded association section sees every entry that went in |
| `TableParser.RoomIffNetworkEntry` | table_parser.c:11-28 | writes stay in the program table if and only if some entry is numbered below 256, and fill it if and only if exactly one is |
| `TableParser.AllRecordedIffNoLowNumber` | table_parser.c:14-28 | for every table, all programs (entries not numbered 0) are recorded, in order, if and only if none is numbered 1 to 255 |
| `TableParser.LowProgramNumberDropped` | table_parser.c:17-17 | a program numbered 255 is dropped, since only the high octet of the number is looked at |
| `Player.PlaybackEngine.Acquire` | tdp_api/tdp_api.c:907-943 | a handle obtained is non-zero and live for nothing else; the log of obtained handles grows by it |
| `Player.PlayerApi.PlayerInit` | tdp_api/tdp_api.c:907-943 | yields the engine handle; nothing leaks if and only if there was none |
| `Player.PlayerApi.PlayerSourceOpen` | tdp_api/tdp_api.c:1036-1079 | succeeds if and only if the player handle is the current one; nothing leaks if and only if no source was open |
| `Player.PlayerApi.PlayerSourceClose` | tdp_api/tdp_api.c:1095-1142 | succeeds if and only if both handles are the current ones, and then releases the source |
| `Player.PlayerApi.PlayerStreamCreate` | tdp_api/tdp_api.c:1158-1221 | succeeds if and only if both handles are current; the stream type selects the audio or the video slot, the other slot stays; a stream already in the slot leaks, and only then does anything leak |
| `Player.PlayerApi.PlayerStreamRemove` | tdp_api/tdp_api.c:1237-1300 | succeeds if and only if all handles are current and the stream is one of the two; clears exactly its slot |
| `Player.PlayerApi.DemuxSetFilter` | tdp_api/tdp_api.c:1476-1528 | succeeds if and only if the player handle is current, and the filter is for the given packet identifier and table; nothing leaks if and only if no filter was set |
| `Player.PlayerApi.DemuxFreeFilter` | tdp_api/tdp_api.c:1544-1587 | succeeds if and only if both handles are current; filter and buffer are both released |
| `Player.PlayerApi.PlayerDeinit` | tdp_api/tdp_api.c:959-1020 | with the right handle everything still held is given back: if nothing leaked before, the handles released are exactly those obtained, each as often |
| `Zapper.LearnsIffMaps` | stream_controller.c:90-97 | sections can be learned one after the other if and only if each is a walkable map section of a listed program |
| `Zapper.RunSafeIff` | stream_controller.c:78-318 | over every run of key presses, passes and broadcasts: program table and sections are read inside their bounds if and only if every section consulted is a map section of a listed program and the counter has a program whenever it is used; both judged by the requests alone |
| `Zapper.RunInRange` | stream_controller.c:105-318 | so runs whose program keys have a program and whose sections are those of listed programs keep the counter inside the table |
| `Zapper.BroadcastSafeIff` | stream_controller.c:90-97 | a single map section is survived if and only if its program is listed and its loop can be walked |
| `Zapper.LowProgramRunsPastTable` | stream_controller.c:94-96 | the map section of a program below 256, which is never listed, makes the search run past the table |
| `Zapper.SafeIffProgramForEveryKey` | main.c:18-60 | while only map sections of listed programs are broadcast, no run of the remote control (its keys ask for programs 0 to 6) reads outside the program table if and only if there are at least seven programs |
| `Zapper.PassTunesToCounter` | stream_controller.c:111-297 | after a pass that served any switch and stayed in bounds, what plays is what the table says of the current program, streams only for identifiers other than 65000, the section filter is on that program's map identifier, and no request is pending |
| `Zapper.IdlePassKeepsPlaying` | stream_controller.c:105-318 | a pass without a switch request leaves table, counter and streams alone |
| `Zapper.NextAndPreviousCancel` | stream_controller.c:170-297 | next and previous requested together leave the program counter where it was |
| `Zapper.NextCycles` | stream_controller.c:170-232 | however often one steps forward while listed programs are broadcast, the counter goes round the programs: start plus steps is whole rounds plus the counter |
| `Zapper.PlaysCurrentProgram` | stream_controller.c:105-318 | over every run that stays in bounds, unless a request is pending, what plays and what the section filter is set for belong to the current program, as the table had it when the streams were created |
| `Zapper.ChangePlaysBroadcast` | stream_controller.c:78-169 | from octets to streams: after a program change, whatever sections of listed programs came before, what plays is the first video and audio stream of the map section last broadcast for the program |
| `StreamController.Controller.MapCallback` | stream_controller.c:90-97 | for every map section: it stays in bounds if and only if its program is listed and its loop can be walked, and then updates the first entry with its number and no other |
| `StreamController.Controller.Listen` | stream_controller.c:78-103 | any map sections arriving through the receiver change the program table exactly as the accepted ones do, one after the other, and leave the bounds exactly when one of those does |
| `StreamController.Controller.ServeChange` | stream_controller.c:111-169 | serving a change request refines the viewer's machine, out-of-bounds reads included: every handle check passes, old streams go, the filter is replaced, sections are heard, new streams are created |
| `StreamController.Controller.ServeNext` | stream_controller.c:170-233 | the same for a step forward, with the counter wrapping at the end of the table |
| `StreamController.Controller.ServePrevious` | stream_controller.c:234-297 | the same for a step back, with the counter wrapping at the start of the table |
| `StreamController.Controller.StreamPass` | stream_controller.c:107-318 | for whatever map sections are heard, one iteration of the stream thread is one pass of the viewer's machine and leaves the bounds exactly when that does; otherwise it keeps the invariant (saved handles current, one filter and buffer, a stream on exactly when its handle is the player's) |
| `StreamController.Controller.ChangeProgram` | stream_controller.c:529-552 | a program key sets counter and request, or only refreshes the display when the program is current |
| `StreamController.Controller.StreamInit` | stream_controller.c:320-463 | stays in bounds if and only if the program table has room, so has the service list, the configured program number is from 1 to the size of the table, and the map sections are those of listed programs; then it succeeds if and only if the tuner locks and the configured identifiers match those of the table entry one below that number (a missing video stream is tolerated); that entry carries the number of the association of that place when as many are recorded, its video and audio play, and the filter is on its map identifier |
| `StreamController.ServicesOverrun` | table_parser.c:69-89 | a sound broadcast of one program and two services: the service list is overrun whatever follows |
| `StreamController.Controller.StreamDeinit` | stream_controller.c:465-527 | everything obtained is released exactly once, after a full or a failed start |
| `StreamController.Controller.HandleAll` | stream_controller.c:105-318 | any sequence of key presses, passes and broadcasts of map sections follows the viewer's machine step by step, keeps the invariant and fails no handle check, and leaves the bounds exactly when the machine does |
| `StreamController.Controller.Session` | stream_controller.c:105-571 | over every session, started, run and shut down: it stays in bounds exactly when start and run do; the run begins with the configured program number less one as counter, at the entry of that association; every stream, filter, buffer, source and player handle obtained is released exactly once, it succeeds if and only if the tuner locks and the configuration matches, the run is one of the viewer's machine, and at its end what plays belongs to the current program unless a request is pending |
| `Transponders.InsertKeepsSorted` | tdp_api/M88TS2022_adapt/mt_fe_dmd_ds3000.c:4525-4587 | insertion before the first entry of greater or equal frequency keeps a sorted list sorted |
| `Transponders.InsertKeepsAll` | tdp_api/M88TS2022_adapt/mt_fe_dmd_ds3000.c:4525-4587 | and adds the new entry and nothing else |
| `Transponders.TpList.ShiftUp` | tdp_api/M88TS2022_adapt/mt_fe_dmd_ds3000.c:4556-4576 | everything from a slot to the end of the list, with the leftover behind it, moves up by one |
| `Transponders.TpList.SaveScannedTp` | tdp_api/M88TS2022_adapt/mt_fe_dmd_ds3000.c:4500-4592 | refuses exactly when over capacity; appends in the first mode; the sorted mode is functional insertion whatever the leftover slot holds, and would write behind a full array exactly when the place is not the last; in single-cable mode it merges instead exactly when an entry up to that place is near |
| `Transponders.TpList.FindBoundary` | tdp_api/M88TS2022_adapt/mt_fe_dmd_ds3000.c:4622-4638 | finds the first entry at or above a frequency, or the end, if its 8-bit counter gets there, which is up to 255 |
| `Transponders.TpList.RemoveUnlocked` | tdp_api/M88TS2022_adapt/mt_fe_dmd_ds3000.c:4614-4674 | completes, leaves the array or never ends as boundary, array length and failures say; completed, it is an in-place stable partition of the slots up to the boundary: entries that did not fail come first in their old order, failed ones follow, frequency, rate and kind are kept as a multiset, slots behind are untouched |
| `Transponders.SearchEndsIff` | tdp_api/M88TS2022_adapt/mt_fe_dmd_ds3000.c:4622-4632 | for every list, the search with its 8-bit counter reaches the boundary after finitely many steps if and only if that is at most 255 |
| `Transponders.SeparationOutcome` | tdp_api/M88TS2022_adapt/mt_fe_dmd_ds3000.c:4641-4671 | for every array and boundary, the three loops, step by step on counter, failed entries and slots: some step ends them, some step leaves the array, or neither ever happens, exactly as expected; with two slots behind it they end if and only if the boundary is at most 254; from 255 on, in an array of 256 or more, they leave it in front if and only if some but not all of its first 256 slots failed, and go on for ever otherwise |
| `Transponders.RunCompletes` | tdp_api/M88TS2022_adapt/mt_fe_dmd_ds3000.c:4641-4671 | steps that end have separated the slots |
| `Transponders.TwoHundredFiftyFiveStay` | tdp_api/M88TS2022_adapt/mt_fe_dmd_ds3000.c:4616-4671 | a list of 255 findings, whatever they are, is never separated; the loops leave the array if and only if it is mixed |
| `Transponders.OneFailureLeaves` | tdp_api/M88TS2022_adapt/mt_fe_dmd_ds3000.c:4647-4667 | with one failed entry among 255 and an unused slot behind them the loops go in front of the array |
| `BlindScan.RetunedClose` | tdp_api/M88TS2022_adapt/mt_fe_dmd_ds3000.c:6129-6164 | single-cable tuning lowers a frequency by at most 3999 kHz and never raises it, and the tuner's own frequency is then on its 4 MHz grid; no other frequency does both |
| `BlindScan.GrownSound` | tdp_api/M88TS2022_adapt/mt_fe_dmd_ds3000.c:4525-4587 | a new untried entry anywhere in the list keeps the bookkeeping: locked count and distinctness |
| `BlindScan.LockedTwiceIffTooLong` | tdp_api/M88TS2022_adapt/mt_fe_dmd_ds3000.c:6062-6090 | for every list, a broadcast already in it is locked again if and only if the list has more than 32768 entries, where the signed 16-bit search starts below zero; then the list holds it twice |
| `BlindScan.ConnectedFair` | tdp_api/M88TS2022_adapt/mt_fe_dmd_ds3000.c:5601-6127 | for every list of frequencies below 9999 MHz and whatever is received: each entry not tried before is locked with the values read back if and only if every entry of that mode, earlier ones as they are by then, differs in rate by at least 50 KS/s or in frequency by at least half that entry's rate (or the list has more than 32768 entries), and is marked otherwise; the attempt in DVB-S2 decides exactly when the one in DVB-S found no carrier or did not lock |
| `BlindScan.ApartAllLocked` | tdp_api/M88TS2022_adapt/mt_fe_dmd_ds3000.c:5601-6127 | in lists of at most 32768 entries, broadcasts that are that far apart from each other and from all entries tried before are all locked, each with its own values |
| `BlindScan.Scanner.IsDuplicate` | tdp_api/M88TS2022_adapt/mt_fe_dmd_ds3000.c:6062-6090 | says yes if and only if the list has at most 32768 entries and some entry of the same mode differs by less than 50 KS/s in rate and by less than half that entry's rate in frequency |
| `BlindScan.Scanner.TryEntry` | tdp_api/M88TS2022_adapt/mt_fe_dmd_ds3000.c:5640-6123 | an untried entry ends locked with the values read back if and only if the deciding attempt got them and every entry of its mode is apart in rate or frequency, and marked as failed otherwise; DVB-S2 decides exactly after a carrier failure or no lock in DVB-S; no other entry changes |
| `BlindScan.Scanner.Connect` | tdp_api/M88TS2022_adapt/mt_fe_dmd_ds3000.c:5601-6127 | every untried entry is tried in list order, and locked exactly when all entries of its mode are apart by then; locked entries stay; the locked count stays the number of locked entries, and no two locked entries are alike in lists of at most 32768 entries |
| `BlindScan.Scanner.NextToCompare` | tdp_api/M88TS2022_adapt/mt_fe_dmd_ds3000.c:4960-4981 | moves strictly forward to the next entry that is not untried, or reports the end of the list; it looks behind the array exactly when that is full and all later entries are untried |
| `BlindScan.Scanner.CompareDeal` | tdp_api/M88TS2022_adapt/mt_fe_dmd_ds3000.c:4700-5004 | terminates; adds at most one entry, appended, at its place by frequency, or merged exactly when single-cable operation finds one near; drops a finding that is out of band or rate, and one before the first inside a mirrored window; in a first or only pass drops no other; in a later pass drops one if and only if the comparison gets to an entry that stands for it: never when every locked entry's band is disjoint from its own or its centre more than 7000 kHz away, and every other entry more than 1000 kHz or 400 KS/s off; always when it gets to a locked entry whose centre is within 1000 kHz and whose band holds the finding's centre, or to another one within 500 kHz and 100 KS/s; the next comparison starts at the entry that stands for it, in front of the one it lies below, or at the last; refuses one only for want of a place |
| `BlindScan.Scanner.SkippedIff` | tdp_api/M88TS2022_adapt/mt_fe_dmd_ds3000.c:4876-4956 | the comparison in wrapping arithmetic comes to the distances of centres and rates, the same on both sides: a locked entry stands for a finding exactly when their distance leaves half of the finding's band (a third up to 6000 KS/s) inside and is within 1000 to 7000 kHz by rate, another one exactly when rate and centre agree to within limits that grow with the rate |
| `BlindScan.Scanner.ClearFindingAdded` | tdp_api/M88TS2022_adapt/mt_fe_dmd_ds3000.c:4809-5003 | whatever the pass, a finding that is compared and clear of every entry enters the list |
| `BlindScan.Scanner.EndedComparesOne` | tdp_api/M88TS2022_adapt/mt_fe_dmd_ds3000.c:4958-5000 | once the end of the list was reached in a window, a finding is compared with a single entry, so it is dropped if and only if that one stands for it |
| `BlindScan.Scanner.CollectedKeepsLocked` | tdp_api/M88TS2022_adapt/mt_fe_dmd_ds3000.c:5030-5112 | outside single-cable mode, dealing with any number of findings neither loses nor moves a locked entry |
| `BlindScan.Scanner.ProcessWindow` | tdp_api/M88TS2022_adapt/mt_fe_dmd_ds3000.c:5030-5112 | every finding of a window is dealt with in order, up to the end or to one that is refused |
| `BlindScan.Scanner.PassA` | tdp_api/M88TS2022_adapt/mt_fe_dmd_ds3000.c:5159-5343 | a pass collects its findings, tries new ones, and its next frequency is strictly higher, for every register reading, by the step its readings give; where the spectrum is mirrored, by that of the broadcast locked last, or of the first finding well inside the window |
| `BlindScan.Scanner.SweepA` | tdp_api/M88TS2022_adapt/mt_fe_dmd_ds3000.c:5139-5346 | the sweep terminates for every register reading; frequencies rise strictly from the start, none at or above the end, each at the step from the one before that its readings allow, mirrored spectrum included, until the successor is not below the end or the pass at 2149 MHz is done; at the end every finding has been tried; or it did all that up to a finding that is refused |
| `BlindScan.Scanner.PassB` | tdp_api/M88TS2022_adapt/mt_fe_dmd_ds3000.c:5394-5568 | the same for a pass that only collects |
| `BlindScan.Scanner.SweepB` | tdp_api/M88TS2022_adapt/mt_fe_dmd_ds3000.c:5374-5574 | the same for the sweep that tries all findings at its end |
| `BlindScan.LockedLead` | tdp_api/M88TS2022_adapt/mt_fe_dmd_ds3000.c:4614-4674 | separating a fully tried list puts exactly the locked entries first, in list order |
| `BlindScan.Scanner.BlindScan` | tdp_api/M88TS2022_adapt/mt_fe_dmd_ds3000.c:2221-2279 | for every capacity: refused without one; otherwise the given number of full sweeps from an empty list, each finding dealt with and each entry tried as `ClearFindingAdded` and `ConnectedFair` say, or all of that up to a finding that is refused; the last step completes, leaves the array or never ends as the findings say; completed, the list begins with exactly tp_num entries, the locked ones in list order, no two of them alike |
| `Demodulator.SymRateWithinOne` | tdp_api/M88TS2022_adapt/mt_fe_dmd_ds3000.c:3471-3530 | in 32-bit arithmetic, programming a symbol rate and decoding the same word gives that rate or one less if and only if the rate is at most 65536 KS/s |
| `Demodulator.SymRateNear` | tdp_api/M88TS2022_adapt/mt_fe_dmd_ds3000.c:3471-3530 | and exactly that rate if and only if 256 times the rate leaves remainder 0 or at least 188 on division by 375 |
| `Demodulator.CarrierWithinThree` | tdp_api/M88TS2022_adapt/mt_fe_dmd_ds3000.c:3551-3614 | in 32-bit arithmetic, a programmed carrier offset decodes to within 3 kHz if and only if it lies from -16384 to 16383; there it never gains in size or changes sign |
| `Demodulator.CarrierWordNearest` | tdp_api/M88TS2022_adapt/mt_fe_dmd_ds3000.c:3551-3579 | in that range the word is the offset in steps of 96 MHz over 65536: rounded to the nearest from zero up, and half a step to one and a half short of it below zero |
| `Demodulator.CarrierFolds` | tdp_api/M88TS2022_adapt/mt_fe_dmd_ds3000.c:3551-3575 | outside that range the word is that of the offset folded into it |
| `Demodulator.Demodulator.SetSymRate` | tdp_api/M88TS2022_adapt/mt_fe_dmd_ds3000.c:3471-3486 | the word goes to registers 0x61 and 0x62 and no other register changes |
| `Demodulator.Demodulator.GetSymRate` | tdp_api/M88TS2022_adapt/mt_fe_dmd_ds3000.c:3509-3530 | the rate found is decoded from registers 0x6d and 0x6e |
| `Demodulator.Demodulator.SetCarrierOffset` | tdp_api/M88TS2022_adapt/mt_fe_dmd_ds3000.c:3551-3575 | the word goes to registers 0x5e and 0x5f, decodes to within 3 kHz exactly in the range above, and no other register changes |
| `Demodulator.Demodulator.GetCarrierOffset` | tdp_api/M88TS2022_adapt/mt_fe_dmd_ds3000.c:3592-3614 | decodes the word and clears the low three bits of register 0x5d |
| `Demodulator.Demodulator.GetMclk` | tdp_api/M88TS2022_adapt/mt_fe_dmd_ds3000.c:2282-2342 | the main clock that the selector fields stand for; a parameter error, and 96 MHz, if and only if they stand for none |
| `Demodulator.Demodulator.SetMclk` | tdp_api/M88TS2022_adapt/mt_fe_dmd_ds3000.c:2359-2418 | afterwards the selector fields stand for the rate asked for, or for 96 MHz when there is no such rate; all other bits stay |
| `Demodulator.FittedIffFits` | tdp_api/M88TS2022_adapt/mt_fe_dmd_ds3000.c:2442-2522 | a phase length survives its register field if and only if it is 1 to 64 (DS3002B, DS3103), below 16 (DS300X, DVB-S2) or below 8 (DS300X, DVB-S) |
| `Demodulator.Demodulator.SetTsDivideRatio` | tdp_api/M88TS2022_adapt/mt_fe_dmd_ds3000.c:2442-2522 | afterwards the packed registers decode to the two phase lengths as far as they fit; all other bits stay |
| `Demodulator.LaddersCover` | tdp_api/M88TS2022_adapt/mt_fe_dmd_ds3000.c:2610-2757 | the divider ladders of the DS300X give a clock at least as fast as the rate if and only if the rate is at most 24000, with phases that fit and differ by at most one |
| `Demodulator.LadderS2Slowest` | tdp_api/M88TS2022_adapt/mt_fe_dmd_ds3000.c:2610-2633 | for every rate, every ratio of the DVB-S2 ladder larger than the chosen one gives a clock too slow for one kilobyte more, and a ratio that is not fast enough is the smallest |
| `Demodulator.LadderSSlowest` | tdp_api/M88TS2022_adapt/mt_fe_dmd_ds3000.c:2746-2757 | the same for DVB-S |
| `Demodulator.DataRateIsFraction` | tdp_api/M88TS2022_adapt/mt_fe_dmd_ds3000.c:2577-2607 | for every modulation, code rate and order of divisions the data rate is symbols times bits times code rate over eight, rounded down once; unknown code rates count as 2/3, in DVB-S as 3/4 |
| `Demodulator.RatesCovered` | tdp_api/M88TS2022_adapt/mt_fe_dmd_ds3000.c:2577-2610 | up to 45000 KS/s every modulation but 32APSK stays within what the ladders cover, margin included |
| `Demodulator.Apsk32NotCovered` | tdp_api/M88TS2022_adapt/mt_fe_dmd_ds3000.c:2577-2633 | the fastest 32APSK signal gets a clock that is too slow |
| `Demodulator.FloorRatioCovers` | tdp_api/M88TS2022_adapt/mt_fe_dmd_ds3000.c:2704-2723 | dividing down, the clock is fast enough if and only if twice the rate fits into the main clock, and one more would be too slow |
| `Demodulator.CastHarmless` | tdp_api/M88TS2022_adapt/mt_fe_dmd_ds3000.c:2704-2716 | the cast of the quotient to 16 bits never changes the ratio |
| `Demodulator.CeilRatioStaysBelow` | tdp_api/M88TS2022_adapt/mt_fe_dmd_ds3000.c:3342-3363 | dividing up, the clock never exceeds the one asked for if and only if a division by 128 can reach that low, and one less would exceed it |
| `Demodulator.SerialClockCovers` | tdp_api/M88TS2022_adapt/mt_fe_dmd_ds3000.c:2646-2680 | the main clock picked for serial output is the lowest that carries the data rate with its margin, and does so if and only if the fastest choice does |
| `Demodulator.Demodulator.SetClockRatio` | tdp_api/M88TS2022_adapt/mt_fe_dmd_ds3000.c:2539-2844 | per chip, type and output mode: errors, what stays, and the divider phases or main clock left in the registers: on the DS300X the slowest of its clocks that covers the data rate with its margin, on the others the slowest division in parallel, the lowest main clock in serial output; and when that clock covers the data rate of the signal locked to |
| `Demodulator.Demodulator.SetDemodClock` | tdp_api/M88TS2022_adapt/mt_fe_dmd_ds3000.c:3162-3371 | leaves the wanted main clock and the fastest divided clock not above the limit of the output mode in the registers |
| `Tuner.DividerKept` | tdp_api/M88TS2022_adapt/mt_fe_tn_montage_ts2022.c:284-303 | an even divider survives its 14-bit code if and only if it lies from 1024 to 13311 |
| `Tuner.ChoiceClose` | tdp_api/M88TS2022_adapt/mt_fe_tn_montage_ts2022.c:271-310 | over 950 to 2150 MHz, and the 3 MHz above that low rates need, the chosen divider is even, fits, and misses the frequency by -965 to 964 kHz, below 1103 MHz by -483 to 482 |
| `Tuner.Tuner.SetTuner` | tdp_api/M88TS2022_adapt/mt_fe_tn_montage_ts2022.c:260-396 | the offset returned is the distance of the frequency that the registers stand for from the one asked for, within those bounds |
| `Tuner.Tuner.SetFreq` | tdp_api/M88TS2022_adapt/mt_fe_tn_montage_ts2022.c:842-853 | the offset kept is the distance from the frequency in kHz, rounding to MHz included |
| `Tuner.TuneTo` | tdp_api/M88TS2022_adapt/mt_fe_dmd_ds3000.c:926-963 | the oscillator is left within 965 kHz of the wanted frequency, or of 3 MHz above it for rates below 5000 KS/s; the carrier offset left in the demodulator decodes to within 3 kHz of the distance between oscillator and wanted frequency, negated when mirrored; nothing overflows |
| `CimaxFirmware.ComputeBistRom` | tdp_api/cimaxspi/cimax.c:2076-2095 | the loop over octets and taps computes the signature function |
| `CimaxFirmware.SignatureConcat` | tdp_api/cimaxspi/cimax.c:2076-2095 | the signature of two parts is that of the second from that of the first |
| `CimaxFirmware.StepInjective` | tdp_api/cimaxspi/cimax.c:2082-2092 | for a given octet a step is one-to-one on register states |
| `CimaxFirmware.SingleOctetChangeDetected` | tdp_api/cimaxspi/cimax.c:2076-2095 | changing any one octet of an image of any length changes the signature |
| `CimaxFirmware.NeighbourChangeHiddenIffUndone` | tdp_api/cimaxspi/cimax.c:2076-2095 | a change of two neighbouring octets keeps the signature if and only if the flips of the second are those of the first moved up by one, with their parity below |
| `CimaxFirmware.ZerosAsOneThree` | tdp_api/cimaxspi/cimax.c:2076-2095 | two zero octets read as 1 and 3 are such a change |
| `CimaxFirmware.PacketsTile` | tdp_api/cimaxspi/cimax.c:1805-1864 | the packets cover 0x8000 to 0xCFF9 and 0xFFFA to 0xFFFF without gap or overlap, none longer than 128 octets |
| `CimaxFirmware.Chip.WriteAndCompare` | tdp_api/cimaxspi/cimax.c:1823-1842 | succeeds if and only if the packet arrived as sent and can be read back |
| `CimaxFirmware.Chip.DownloadProgram` | tdp_api/cimaxspi/cimax.c:1811-1847 | succeeds if and only if the file is long enough and every packet does; then the program area holds the file and the signature accumulated is that of one pass over it |
| `CimaxFirmware.Chip.DownloadFW` | tdp_api/cimaxspi/cimax.c:1784-1911 | succeeds if and only if file, packets, boot status and start do; then the firmware areas hold the image and all other memory is as before |
| `CimaxFirmware.HonestChipAccepts` | tdp_api/cimaxspi/cimax.c:1898-1902 | a chip that computes the same signature over its own memory accepts every download whose packets arrived |
| `CimaxFirmware.HonestChipRejectsDecay` | tdp_api/cimaxspi/cimax.c:2108-2139 | and refuses one with any single octet changed since |
| `CimaxSpi.SendToCam` | tdp_api/cimaxspi/cimax.c:2156-2232 | for every length: payloads above 4096 octets are copied past the buffer; otherwise the transfers together are header and payload, or for longer payloads that are a multiple of 256 all but the last four octets; failed transfers leave a prefix; the receiver decodes the message in the first case only |
| `CimaxSpi.ReceivedIffComplete` | tdp_api/cimaxspi/cimax.c:2168-2232 | the message arrives if and only if its payload is at most 256 octets or not a multiple of 256 |
| `CimaxSpi.TwoBlocksLost` | tdp_api/cimaxspi/cimax.c:2186-2213 | a payload of 512 octets does not arrive |
| `CimaxSpi.SpiRead` | tdp_api/cimaxspi/cimax_spi_pio.c:199-321 | the reads tile the length in blocks of at most 256; every octet is the low octet of the chip's next word; a failed transfer returns 0 and leaves the buffer alone |
| `SonyMath.Log2` | tdp_api/Sony_Demod/SRC/sony_dvb_math.c:56-83 | the shift loop and the masked index compute the logarithm function, at most 3198 |
| `SonyMath.Log2Range` | tdp_api/Sony_Demod/SRC/sony_dvb_math.c:56-83 | from 100 to 100 + 98 hundredths within every power of two |
| `SonyMath.Log2Doubles` | tdp_api/Sony_Demod/SRC/sony_dvb_math.c:56-83 | doubling adds exactly 100 |
| `SonyMath.Log2Rises` | tdp_api/Sony_Demod/SRC/sony_dvb_math.c:56-83 | never falls as its argument rises |
| `SonyMath.Log2Close` | tdp_api/Sony_Demod/SRC/sony_dvb_math.c:33-83 | less than one hundredth above and less than five hundredths below the true logarithm, for every argument |
| `SonyMath.OtherBasesRise` | tdp_api/Sony_Demod/SRC/sony_dvb_math.c:85-96 | the logarithms to base 10 and e never fall either |
| `SonyMath.Log10Close` | tdp_api/Sony_Demod/SRC/sony_dvb_math.c:85-96 | for every argument the logarithm to base 10 is less than 2 hundredths above and less than 3 hundredths below the true one |
| `SignalQuality.MonitorTQuality` | tdp_api/Sony_Demod/SRC/sony_dvb_demod_monitor.c:265-356 | per failed reading its error, reserved parameters an error, otherwise the DVB-T quality, at most 100 |
| `SignalQuality.ShareFollowsLog10` | tdp_api/Sony_Demod/SRC/sony_dvb_demod_monitor.c:333-345 | for every bit error rate the share that is left is 100 percent less 2 percent for every tenth of the decimal logarithm, which is taken as closely as `Log10Close` says |
| `SignalQuality.ShareAtDecade` | tdp_api/Sony_Demod/SRC/sony_dvb_demod_monitor.c:333-345 | every factor of ten in the bit error rate takes 20 percent off the share, to within 0.4 of a percent, until next to nothing is left at one error in a hundred |
| `SignalQuality.QualityTIsNordig` | tdp_api/Sony_Demod/SRC/sony_dvb_demod_monitor.c:344-347 | within 0.59 of a percent of the formula (C/N distance - 3) / 10 + 1 times the bit-error share |
| `SignalQuality.DvbTQualityMonotone` | tdp_api/Sony_Demod/SRC/sony_dvb_demod_monitor.c:324-353 | from 0 to 100, never lower for a higher C/N or for fewer bit errors |
| `SignalQuality.DvbTMonotoneIffNoWrap` | tdp_api/Sony_Demod/SRC/sony_dvb_demod_monitor.c:324-328 | a C/N reading is rated no higher than all better ones if and only if subtracting the required C/N does not wrap or bit errors round the quality to zero |
| `SignalQuality.MonitorT2Quality` | tdp_api/Sony_Demod/SRC/sony_dvb_demod_monitor.c:358-453 | zero when frames are lost, per failed reading its error, otherwise the DVB-T2 quality |
| `SignalQuality.PartIsPercentage` | tdp_api/Sony_Demod/SRC/sony_dvb_demod_monitor.c:422-443 | where nothing wraps, the part is 0 up to a limit, 100 from the other on, and the rounded-down percentage between |
| `SignalQuality.DvbT2QualityMonotone` | tdp_api/Sony_Demod/SRC/sony_dvb_demod_monitor.c:422-450 | never lower for a higher MER or SNR, where nothing wraps |
| `SignalQuality.PartRisesIffFits` | tdp_api/Sony_Demod/SRC/sony_dvb_demod_monitor.c:422-443 | over any range of readings around the two limits the part never falls if and only if both ends are within 21474836 of the lower limit |

## Left out

- Graphics, remote-control input, volume, configuration files: no logic that other parts depend on.
- Threads and locks: the stream thread holds its mutex for a whole pass, so requests are served between passes; sections arrive between passes and while a pass waits. Lost wake-ups, waits that never end and passes ended by a failing back end are not modelled.
- The player's back end (`MV_PE_*`): every call succeeds and every handle is fresh and non-zero; there is no error path of the back end itself.
- `Player.PlayerApi.PlayerDeinit`: the source argument of a filter's removal, which is 0 there, is not modelled: the back end releases by the filter's own handle.
- Tuner control in `stream_init`: only whether the tuner locks.
- `StreamController.Controller.StreamInit`: the filter delivers sections of the table it was set for, and association sections have 1 to 256 entries. Entries of the program table behind the recorded ones are left over from before and arbitrary.
- `StreamController.Controller.Listen`: what a read past the program table or a section finds is not modelled; the model stops there and says so, and with it the pass, the run and the session.
- The service list is released with the count of the program table, and sections for tables 0x00 and 0x42 that arrive again after start-up are not modelled.
- `TableParser.ParseSdt`: sections whose service loops start with another descriptor than the service descriptor are not modelled; their fields are read from wrong offsets.
- Table 0x70 (time) reaches the callback unchecked, and the callback ignores it.
- `BlindScan.Scanner.BlindScan`: cancelling a scan, notifications and the pauses are not modelled. In single-cable mode the claims about the final list hold while no finding was merged into an entry near it (`merged`): a merged finding is counted although it has no entry of its own, and a leftover slot comes into the list with whatever frequency it holds.
- `BlindScan.Scanner.ProcessWindow`: the original ignores that a finding was refused, or went outside the array, and goes on counting; the model stops there and reports what was done so far.
- `BlindScan.Scanner.CompareDeal`: the slots behind the list are not of the untried kind, as in the zeroed arrays that the program passes.
- `BlindScan.Scanner.TryEntry`: how the demodulator is polled until it locks, times out or fails is an input. What it is compared with is stated in frequencies and rates for lists of frequencies below 9999 MHz, as every list is outside single-cable mode; a list with a frequency 2^31 kHz off would wrap.
- `BlindScan.Scanner.SweepA`: where the spectrum is mirrored, the step after a window with findings is exact per pass (`PassA`), and known by its range over the whole sweep.
- `Transponders.TpList.RemoveUnlocked`: what the slots hold when the loops leave the array or do not end is not modelled.
- Register writes that neither feed these computations nor depend on them (filters, gain, equaliser, interference detection, resets, tables of default registers) and the M88TS2020 branch of the tuner.
- Tuner frequencies outside 950 to 2150 MHz, and carrier offsets in single-cable mode.
- The received-status half of the CAM exchange and the register writes of `checkBistRom`: the chip's boot status is an input.
- `CimaxFirmware.Chip.DownloadFW`: a refused write leaves the memory as it was, and reads return what the memory holds.
- `CimaxSpi.SendToCam`: what a payload copied past the buffer does to the program is not modelled.
- `SonyMath.OtherBasesRise`: how close the natural logarithm comes to the true one is not stated; nothing modelled uses it.
- Filtered MER, DVB-C quality and the V2 entry points, which only choose between the functions modelled.
