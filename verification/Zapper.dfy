/** The zapper as a viewer sees it: a program table, a program counter and what is playing. */
module Zapper {
  import opened Wrappers
  import opened Bytes
  import opened SectionReceiver
  import opened TableParser

  /**
   * Remote-control requests are flags; a request made twice before it is served counts once. The filter is the packet
   * identifier that map sections are taken from.
   */
  datatype Zap = Zap(table: seq<Pmt>, counter: nat, change: bool, next: bool, previous: bool,
                     info: bool, list: bool, audio: Option<nat>, video: Option<nat>, filter: nat)

  datatype Key = Program(number: nat) | Next | Previous | Info | List

  /** A key press, one pass of the stream thread with what it hears at its three waits, or sections heard in between. */
  datatype Event =
    | Press(key: Key)
    | Pass(first: seq<seq<Byte>>, second: seq<seq<Byte>>, third: seq<seq<Byte>>)
    | Broadcast(sections: seq<seq<Byte>>)

  /** The program keys on the remote control ask for indices 0 to 6. */
  const LAST_KEY: nat := 6

  function Playable(pid: nat): Option<nat> {
    if pid == NO_PID then None else Some(pid)
  }

  /* ---------- Learning from map sections ---------- */

  /** The first table entry for a program number; the table's length when there is none. */
  function FirstEntry(table: seq<Pmt>, number: nat): (j: nat)
    ensures j <= |table|
    ensures j < |table| ==> table[j].prNum == number
    ensures forall k | 0 <= k < j :: table[k].prNum != number
  {
    if table == [] then 0
    else if table[0].prNum == number then 0
    else 1 + FirstEntry(table[1..], number)
  }

  /** A map section the callback can process: it walks to its end, and its program is in the table. */
  predicate MapSection(table: seq<Pmt>, b: seq<Byte>) {
    && PmtWalkable(b) && b[0] == 0x02
    && FirstEntry(table, Pair(b[3], b[4])) < |table|
  }

  /** Two tables of the same programs, with map sections under the same packet identifiers. */
  predicate SamePrograms(a: seq<Pmt>, b: seq<Pmt>) {
    |a| == |b| && forall k | 0 <= k < |a| :: a[k].prNum == b[k].prNum && a[k].tableId == b[k].tableId
  }

  /** The table after a map section; none when the search runs past the table or the walk past the section. */
  function Learn(table: seq<Pmt>, b: seq<Byte>): (r: Option<seq<Pmt>>)
    ensures r.Some? <==> MapSection(table, b)
    ensures r.Some? ==> SamePrograms(r.value, table)
  {
    if MapSection(table, b) then
      var j := FirstEntry(table, Pair(b[3], b[4]));
      Some(table[j := PmtUpdated(table[j], b)])
    else None
  }

  function LearnAll(table: seq<Pmt>, sections: seq<seq<Byte>>): (r: Option<seq<Pmt>>)
    ensures r.Some? ==> SamePrograms(r.value, table)
    decreases |sections|
  {
    if sections == [] then Some(table)
    else
      match LearnAll(table, sections[..|sections| - 1])
      case None => None
      case Some(t) => Learn(t, sections[|sections| - 1])
  }

  predicate Maps(table: seq<Pmt>, sections: seq<seq<Byte>>) {
    forall k | 0 <= k < |sections| :: MapSection(table, sections[k])
  }

  lemma {:induction false} SameNumbersSameEntry(a: seq<Pmt>, b: seq<Pmt>, number: nat)
    requires SamePrograms(a, b)
    ensures FirstEntry(a, number) == FirstEntry(b, number)
  {
    if a != [] && a[0].prNum != number {
      SameNumbersSameEntry(a[1..], b[1..], number);
    }
  }

  lemma SameProgramsSameSection(a: seq<Pmt>, b: seq<Pmt>, s: seq<Byte>)
    requires SamePrograms(a, b)
    ensures MapSection(a, s) <==> MapSection(b, s)
  {
    if PmtWalkable(s) && s[0] == 0x02 {
      SameNumbersSameEntry(a, b, Pair(s[3], s[4]));
    }
  }

  lemma SameProgramsSameMaps(a: seq<Pmt>, b: seq<Pmt>, sections: seq<seq<Byte>>)
    requires SamePrograms(a, b)
    ensures Maps(a, sections) <==> Maps(b, sections)
  {
    hide MapSection;
    forall k | 0 <= k < |sections| ensures MapSection(a, sections[k]) <==> MapSection(b, sections[k]) {
      SameProgramsSameSection(a, b, sections[k]);
    }
  }

  /** All sections can be learned, one after the other, exactly when each is a map section for a listed program. */
  lemma {:induction false} LearnsIffMaps(table: seq<Pmt>, sections: seq<seq<Byte>>)
    ensures LearnAll(table, sections).Some? <==> Maps(table, sections)
    decreases |sections|
  {
    hide MapSection;
    if sections != [] {
      var n := |sections| - 1;
      LearnsIffMaps(table, sections[..n]);
      assert Maps(table, sections) <==> Maps(table, sections[..n]) && MapSection(table, sections[n]) by {
        assert forall k | 0 <= k < n :: sections[..n][k] == sections[k];
      }
      if LearnAll(table, sections[..n]).Some? {
        SameProgramsSameSection(table, LearnAll(table, sections[..n]).value, sections[n]);
      }
    }
  }

  /* ---------- One pass of the stream thread ---------- */

  /**
   * The filter goes to the current program's map sections; after sections were heard, so do the streams of the current
   * program. None when a table or section is left.
   */
  function Tuned(z: Zap, sections: seq<seq<Byte>>): Option<Zap> {
    match LearnAll(z.table, Kept(sections))
    case None => None
    case Some(t) =>
      if z.counter < |t| then
        Some(z.(table := t, audio := Playable(t[z.counter].audioPid), video := Playable(t[z.counter].videoPid),
                filter := z.table[z.counter].tableId))
      else None
  }

  function AfterChange(z: Zap, sections: seq<seq<Byte>>): Option<Zap> {
    if !z.change then Some(z) else Chain(Tuned(z, sections), (y: Zap) => Some(y.(change := false)))
  }

  function Following(counter: nat, count: nat): nat {
    if counter + 1 == count then 0 else counter + 1
  }

  function Preceding(counter: nat, count: nat): nat
    requires count > 0
  {
    if counter == 0 then count - 1 else counter - 1
  }

  function AfterNext(z: Zap, sections: seq<seq<Byte>>): Option<Zap> {
    if !z.next then Some(z)
    else Chain(Tuned(z.(counter := Following(z.counter, |z.table|)), sections), (y: Zap) => Some(y.(next := false)))
  }

  function AfterPrevious(z: Zap, sections: seq<seq<Byte>>): Option<Zap> {
    if !z.previous then Some(z)
    else if z.table == [] then None
    else Chain(Tuned(z.(counter := Preceding(z.counter, |z.table|)), sections), (y: Zap) => Some(y.(previous := false)))
  }

  function AfterInfo(z: Zap): Option<Zap> {
    if !z.info then Some(z.(list := false))
    else if z.counter < |z.table| then Some(z.(info := false, list := false))
    else None
  }

  function Chain(z: Option<Zap>, f: Zap -> Option<Zap>): Option<Zap> {
    match z case None => None case Some(v) => f(v)
  }

  function AfterPass(z: Zap, a: seq<seq<Byte>>, b: seq<seq<Byte>>, c: seq<seq<Byte>>): Option<Zap> {
    Chain(Chain(Chain(AfterChange(z, a), y => AfterNext(y, b)), y => AfterPrevious(y, c)), y => AfterInfo(y))
  }

  function AfterPress(z: Zap, key: Key): Option<Zap> {
    match key
    case Program(p) =>
      if p != z.counter then Some(z.(change := true, counter := p))
      else if z.counter < |z.table| then Some(z)
      else None
    case Next => Some(z.(next := true))
    case Previous => Some(z.(previous := true))
    case Info => Some(z.(info := true))
    case List => Some(z.(list := true))
  }

  function AfterBroadcast(z: Zap, sections: seq<seq<Byte>>): Option<Zap> {
    match LearnAll(z.table, Kept(sections))
    case None => None
    case Some(t) => Some(z.(table := t))
  }

  /** The state after an event; none when the program table or a section would be read outside its bounds. */
  function Step(z: Zap, e: Event): Option<Zap> {
    match e
    case Press(key) => AfterPress(z, key)
    case Pass(a, b, c) => AfterPass(z, a, b, c)
    case Broadcast(s) => AfterBroadcast(z, s)
  }

  function Run(z: Zap, events: seq<Event>): Option<Zap>
    decreases |events|
  {
    if events == [] then Some(z)
    else
      match Run(z, events[..|events| - 1])
      case None => None
      case Some(y) => Step(y, events[|events| - 1])
  }

  /* ---------- Safety over whole runs ---------- */

  /** The counter and the requests that concern it, which go their way whatever is broadcast. */
  datatype Asked = Asked(counter: nat, change: bool, next: bool, previous: bool)

  function AskedIn(z: Zap): Asked { Asked(z.counter, z.change, z.next, z.previous) }

  function Ask(r: Asked, e: Event, count: nat): Asked
    requires count > 0
  {
    match e
    case Press(Program(p)) => if p == r.counter then r else r.(counter := p, change := true)
    case Press(Next) => r.(next := true)
    case Press(Previous) => r.(previous := true)
    case Pass(_, _, _) =>
      var forward := if r.next then Following(r.counter, count) else r.counter;
      Asked(if r.previous then Preceding(forward, count) else forward, false, false, false)
    case _ => r
  }

  function AskedAfter(r: Asked, events: seq<Event>, count: nat): Asked
    requires count > 0
    decreases |events|
  {
    if events == [] then r else Ask(AskedAfter(r, events[..|events| - 1], count), events[|events| - 1], count)
  }

  /**
   * What an event needs of the table: a program for the counter where it is used, and sections of listed programs where
   * they are consulted, that is between passes, and in a pass for every switch that was asked for.
   */
  predicate Fine(table: seq<Pmt>, r: Asked, e: Event) {
    match e
    case Press(Program(p)) => p == r.counter ==> p < |table|
    case Pass(a, b, c) =>
      && r.counter < |table| && (r.change ==> Maps(table, Kept(a)))
      && (r.next ==> Maps(table, Kept(b))) && (r.previous ==> Maps(table, Kept(c)))
    case Broadcast(s) => Maps(table, Kept(s))
    case _ => true
  }

  /** A counter without a program is on its way to be consulted. */
  predicate Heading(z: Zap) { z.counter < |z.table| || z.change }

  lemma TunedIff(z: Zap, s: seq<seq<Byte>>, table: seq<Pmt>)
    requires SamePrograms(z.table, table)
    ensures Tuned(z, s).Some? <==> z.counter < |table| && Maps(table, Kept(s))
    ensures Tuned(z, s).Some? ==> SamePrograms(Tuned(z, s).value.table, table) && PlaysTable(Tuned(z, s).value)
    ensures Tuned(z, s).Some? ==>
             Tuned(z, s).value == z.(table := Tuned(z, s).value.table, audio := Tuned(z, s).value.audio,
                                     video := Tuned(z, s).value.video, filter := Tuned(z, s).value.filter)
  {
    hide Maps, Kept, LearnAll;
    LearnsIffMaps(z.table, Kept(s));
    SameProgramsSameMaps(z.table, table, Kept(s));
  }

  /**
   * Each part of a pass clears its request; having served it, or not having had any to serve, it leaves the current
   * program playing.
   */
  lemma SwitchesPlay(z: Zap, s: seq<seq<Byte>>, table: seq<Pmt>)
    requires SamePrograms(z.table, table) && table != []
    ensures var y := AfterChange(z, s);
            && (y.Some? <==> (z.change ==> z.counter < |table| && Maps(table, Kept(s))))
            && (y.Some? ==> SamePrograms(y.value.table, table) && AskedIn(y.value) == AskedIn(z).(change := false)
                            && (z.change || PlaysTable(z) ==> PlaysTable(y.value)))
    ensures var y := AfterNext(z, s);
            && (z.counter < |table| ==> (y.Some? <==> (z.next ==> Maps(table, Kept(s)))))
            && (y.Some? ==> SamePrograms(y.value.table, table)
                            && AskedIn(y.value) == AskedIn(z).(
                                 next := false, counter := if z.next then Following(z.counter, |table|) else z.counter)
                            && (z.next || PlaysTable(z) ==> PlaysTable(y.value)))
    ensures var y := AfterPrevious(z, s);
            && (z.counter < |table| ==> (y.Some? <==> (z.previous ==> Maps(table, Kept(s)))))
            && (y.Some? ==> SamePrograms(y.value.table, table)
                            && AskedIn(y.value) == AskedIn(z).(
                                 previous := false,
                                 counter := if z.previous then Preceding(z.counter, |table|) else z.counter)
                            && (z.previous || PlaysTable(z) ==> PlaysTable(y.value)))
  {
    hide Tuned, Maps, Kept;
    TunedIff(z, s, table);
    TunedIff(z.(counter := Following(z.counter, |z.table|)), s, table);
    TunedIff(z.(counter := Preceding(z.counter, |z.table|)), s, table);
  }

  lemma PassIff(z: Zap, a: seq<seq<Byte>>, b: seq<seq<Byte>>, c: seq<seq<Byte>>, table: seq<Pmt>)
    requires SamePrograms(z.table, table) && table != [] && Heading(z)
    ensures var y := AfterPass(z, a, b, c);
            && (y.Some? <==> Fine(table, AskedIn(z), Pass(a, b, c)))
            && (y.Some? ==> SamePrograms(y.value.table, table) && AskedIn(y.value) == Ask(AskedIn(z), Pass(a, b, c),
                                                                                          |table|)
                            && y.value.counter < |table| && !y.value.info && !y.value.list
                            && (Pending(z) || PlaysTable(z) ==> PlaysTable(y.value)))
  {
    hide Maps, Kept, AfterChange, AfterNext, AfterPrevious;
    SwitchesPlay(z, a, table);
    var x := AfterChange(z, a);
    if x.Some? {
      SwitchesPlay(x.value, b, table);
      var w := AfterNext(x.value, b);
      if w.Some? {
        SwitchesPlay(w.value, c, table);
      }
    }
  }

  lemma StepIff(z: Zap, e: Event, table: seq<Pmt>)
    requires SamePrograms(z.table, table) && table != [] && Heading(z)
    ensures Step(z, e).Some? <==> Fine(table, AskedIn(z), e)
    ensures Step(z, e).Some? ==>
              && SamePrograms(Step(z, e).value.table, table) && Heading(Step(z, e).value)
              && AskedIn(Step(z, e).value) == Ask(AskedIn(z), e, |table|)
  {
    hide Maps, Kept, AfterPass, LearnAll;
    match e
    case Press(_) =>
    case Pass(a, b, c) => PassIff(z, a, b, c, table);
    case Broadcast(s) =>
      LearnsIffMaps(z.table, Kept(s));
      SameProgramsSameMaps(z.table, table, Kept(s));
  }

  lemma {:induction false} RunFollowsRequests(z: Zap, events: seq<Event>)
    requires z.counter < |z.table|
    ensures Run(z, events).Some? <==> AllFine(z, events)
    ensures Run(z, events).Some? ==>
              var y := Run(z, events).value;
              SamePrograms(y.table, z.table) && Heading(y) && AskedIn(y) == AskedAfter(AskedIn(z), events, |z.table|)
    decreases |events|
  {
    hide Fine, Step, Ask;
    if events != [] {
      var n := |events| - 1;
      RunFollowsRequests(z, events[..n]);
      AllFineStep(z, events);
      if Run(z, events[..n]).Some? {
        StepIff(Run(z, events[..n]).value, events[n], z.table);
      }
    }
  }

  /** Every event of a run finds what it needs, judged by the requests alone. */
  predicate AllFine(z: Zap, events: seq<Event>)
    requires z.counter < |z.table|
  {
    forall i | 0 <= i < |events| :: Fine(z.table, AskedAfter(AskedIn(z), events[..i], |z.table|), events[i])
  }

  lemma AllFineStep(z: Zap, events: seq<Event>)
    requires z.counter < |z.table| && events != []
    ensures var n := |events| - 1;
            AllFine(z, events) <==> AllFine(z, events[..n]) && Fine(z.table, AskedAfter(AskedIn(z), events[..n],
                                                                                        |z.table|), events[n])
  {
    hide Fine, AskedAfter;
    var n := |events| - 1;
    assert forall i | 0 <= i < n :: events[..n][..i] == events[..i] && events[..n][i] == events[i];
  }

  /**
   * Over every run: it stays inside the table and its sections exactly when every section consulted is a map section of
   * a listed program and the counter has a program whenever it is used.
   */
  lemma RunSafeIff(z: Zap, events: seq<Event>)
    requires z.counter < |z.table|
    ensures Run(z, events).Some? <==>
              forall i | 0 <= i < |events| :: Fine(z.table, AskedAfter(AskedIn(z), events[..i], |z.table|), events[i])
  {
    RunFollowsRequests(z, events);
  }

  predicate OnRemote(events: seq<Event>) {
    forall k | 0 <= k < |events| :: events[k].Press? && events[k].key.Program? ==> events[k].key.number <= LAST_KEY
  }

  /** Only program keys can leave the table's range. */
  predicate KeysInRange(events: seq<Event>, count: nat) {
    forall k | 0 <= k < |events| :: events[k].Press? && events[k].key.Program? ==> events[k].key.number < count
  }

  /** Whatever is broadcast is a map section of a listed program. */
  predicate Listed(table: seq<Pmt>, e: Event) {
    match e
    case Press(_) => true
    case Pass(a, b, c) => Maps(table, Kept(a)) && Maps(table, Kept(b)) && Maps(table, Kept(c))
    case Broadcast(s) => Maps(table, Kept(s))
  }

  predicate AllListed(table: seq<Pmt>, events: seq<Event>) {
    forall k | 0 <= k < |events| :: Listed(table, events[k])
  }

  /** Then program keys in range keep every run inside the table. */
  lemma {:induction false} RunInRange(z: Zap, events: seq<Event>)
    requires z.counter < |z.table| && KeysInRange(events, |z.table|) && AllListed(z.table, events)
    ensures Run(z, events).Some? && SamePrograms(Run(z, events).value.table, z.table)
    ensures Run(z, events).value.counter < |z.table|
    decreases |events|
  {
    hide Maps, Kept, Step;
    if events != [] {
      var n := |events| - 1;
      RunInRange(z, events[..n]);
      var y := Run(z, events[..n]).value;
      assert Listed(z.table, events[n]);
      StepIff(y, events[n], z.table);
    }
  }

  lemma KeyPastTable(z: Zap, a: seq<seq<Byte>>)
    requires z.counter < |z.table| <= LAST_KEY
    ensures Run(z, [Press(Program(LAST_KEY)), Pass(a, a, a)]) == None
  {
    var events := [Press(Program(LAST_KEY)), Pass(a, a, a)];
    assert events[..1] == [events[0]] && events[..1][..0] == [];
    assert Run(z, events[..1]) == Step(z, events[0]);
    var y := Step(z, events[0]).value;
    LearnsIffMaps(y.table, Kept(a));
  }

  /**
   * As long as only map sections of listed programs are broadcast, no run reads outside the table exactly when there
   * is a program for every key.
   */
  lemma SafeIffProgramForEveryKey(z: Zap)
    requires z.counter < |z.table|
    ensures (forall events | OnRemote(events) && AllListed(z.table, events) :: Run(z, events).Some?)
            <==> LAST_KEY < |z.table|
  {
    hide Run, Maps, Kept;
    if LAST_KEY < |z.table| {
      forall events | OnRemote(events) && AllListed(z.table, events) ensures Run(z, events).Some? {
        RunInRange(z, events);
      }
    } else {
      KeyPastTable(z, []);
      NothingKept(z.table);
      assert OnRemote([Press(Program(LAST_KEY)), Pass([], [], [])]) && AllListed(z.table, [Press(Program(LAST_KEY)),
                                                                                           Pass([], [], [])]);
    }
  }

  lemma NothingKept(table: seq<Pmt>)
    ensures Maps(table, Kept([]))
  {}

  /**
   * A single map section, whoever sent it, is survived exactly when its program is listed and its loop can be walked.
   */
  lemma BroadcastSafeIff(z: Zap, p: PmtSection)
    requires p.Valid()
    ensures Run(z, [Broadcast([EncodePmt(p)])]).Some?
            <==> FirstEntry(z.table, p.programNumber) < |z.table| && PmtWalkable(EncodePmt(p))
  {
    var b := EncodePmt(p);
    PmtSectionShape(p);
    KeptOne(b);
    LearnsIffMaps(z.table, [b]);
    var events := [Broadcast([b])];
    assert events[..0] == [];
    assert Run(z, events) == Step(z, events[0]);
    assert Maps(z.table, [b]) <==> MapSection(z.table, b) by {
      assert [b][0] == b;
    }
  }

  /** A map section of a program below 256, which the program table never lists, makes the search run past the table. */
  lemma LowProgramRunsPastTable(z: Zap, p: PmtSection)
    requires p.Valid() && p.programNumber < 256 && forall k | 0 <= k < |z.table| :: z.table[k].prNum >= 256
    ensures Run(z, [Broadcast([EncodePmt(p)])]) == None
  {
    BroadcastSafeIff(z, p);
  }

  /* ---------- What a pass achieves ---------- */

  predicate Pending(z: Zap) { z.change || z.next || z.previous }

  predicate PlaysTable(z: Zap) {
    && z.counter < |z.table|
    && z.audio == Playable(z.table[z.counter].audioPid) && z.video == Playable(z.table[z.counter].videoPid)
    && z.filter == z.table[z.counter].tableId
  }

  /**
   * After a pass that served any switch, what plays is what the table says of the current program, and nothing is
   * pending.
   */
  lemma PassTunesToCounter(z: Zap, a: seq<seq<Byte>>, b: seq<seq<Byte>>, c: seq<seq<Byte>>)
    requires Pending(z) && Heading(z) && AfterPass(z, a, b, c).Some?
    ensures var y := AfterPass(z, a, b, c).value; PlaysTable(y) && !Pending(y) && !y.info && !y.list
  {
    NonemptyPass(z, a, b, c);
    PassIff(z, a, b, c, z.table);
    hide AfterPass;
  }

  lemma NonemptyPass(z: Zap, a: seq<seq<Byte>>, b: seq<seq<Byte>>, c: seq<seq<Byte>>)
    requires Heading(z) && AfterPass(z, a, b, c).Some?
    ensures z.table != []
  {
    if z.table == [] {
      TunedIff(z, a, z.table);
    }
  }

  /** With no switch pending a pass leaves the streams alone. */
  lemma IdlePassKeepsPlaying(z: Zap, a: seq<seq<Byte>>, b: seq<seq<Byte>>, c: seq<seq<Byte>>)
    requires z.counter < |z.table| && !Pending(z)
    ensures AfterPass(z, a, b, c) == Some(z.(info := false, list := false))
  {}

  /** Next and previous requested together cancel out. */
  lemma NextAndPreviousCancel(z: Zap, a: seq<seq<Byte>>, b: seq<seq<Byte>>, c: seq<seq<Byte>>)
    requires z.counter < |z.table| && z.next && z.previous && AfterPass(z, a, b, c).Some?
    ensures AfterPass(z, a, b, c).value.counter == z.counter
  {
    PassIff(z, a, b, c, z.table);
    hide AfterPass;
  }

  function NextPasses(heard: seq<seq<seq<Byte>>>): seq<Event>
    decreases |heard|
  {
    if heard == [] then []
    else NextPasses(heard[..|heard| - 1]) + [Press(Next), Pass([], heard[|heard| - 1], [])]
  }

  lemma RunTwo(z: Zap, events: seq<Event>, e: Event, f: Event)
    ensures Run(z, events + [e, f]) == Chain(Chain(Run(z, events), y => Step(y, e)), y => Step(y, f))
  {
    hide Step;
    var all := events + [e, f];
    assert all[..|all| - 1] == events + [e];
    assert (events + [e])[..|events|] == events;
  }

  lemma NextPassAdvances(z: Zap, heard: seq<seq<Byte>>)
    requires z.counter < |z.table| && !Pending(z) && Maps(z.table, Kept(heard))
    ensures var y := Chain(AfterPress(z, Next), x => AfterPass(x, [], heard, []));
            && y.Some? && SamePrograms(y.value.table, z.table)
            && y.value.counter == Following(z.counter, |z.table|) && !Pending(y.value)
  {
    PassIff(z.(next := true), [], heard, [], z.table);
    hide AfterPass;
  }

  /** Stepping forward goes round the programs in turn, however often, while listed programs' sections are heard. */
  lemma {:induction false} NextCycles(z: Zap, heard: seq<seq<seq<Byte>>>) returns (rounds: nat)
    requires z.counter < |z.table| && !Pending(z) && forall k | 0 <= k < |heard| :: Maps(z.table, Kept(heard[k]))
    ensures var y := Run(z, NextPasses(heard));
            && y.Some? && SamePrograms(y.value.table, z.table) && y.value.counter < |z.table| && !Pending(y.value)
            && z.counter + |heard| == rounds * |z.table| + y.value.counter
    decreases |heard|
  {
    hide Maps, Kept, AfterPass;
    if heard == [] {
      rounds := 0;
    } else {
      var n := |heard| - 1;
      rounds := NextCycles(z, heard[..n]);
      RunTwo(z, NextPasses(heard[..n]), Press(Next), Pass([], heard[n], []));
      var x := Run(z, NextPasses(heard[..n])).value;
      SameProgramsSameMaps(x.table, z.table, Kept(heard[n]));
      NextPassAdvances(x, heard[n]);
      if x.counter + 1 == |x.table| {
        assert (rounds + 1) * |z.table| == rounds * |z.table| + |z.table|;
        rounds := rounds + 1;
      }
    }
  }

  /* ---------- What plays, over whole runs ---------- */

  /** What plays in y is what the table said of y's program at some moment of the run. */
  ghost predicate PlaysSince(z: Zap, events: seq<Event>, y: Zap) {
    exists k | 0 <= k <= |events| :: PlayedAt(Run(z, events[..k]), y)
  }

  predicate PlayedAt(x: Option<Zap>, y: Zap) {
    && x.Some? && PlaysTable(x.value)
    && x.value.counter == y.counter && x.value.audio == y.audio && x.value.video == y.video
    && x.value.filter == y.filter
  }

  /**
   * Over every run: unless a request is pending, what plays belongs to the current program, as the table had it when
   * the streams were created.
   */
  lemma {:induction false} PlaysCurrentProgram(z: Zap, events: seq<Event>)
    requires PlaysTable(z) && Run(z, events).Some?
    ensures Pending(Run(z, events).value) || PlaysSince(z, events, Run(z, events).value)
    decreases |events|
  {
    hide Step, AskedAfter, Fine, PlaysTable;
    if events == [] {
      assert events[..0] == [];
      assert PlayedAt(Run(z, events[..0]), z);
    } else {
      var n := |events| - 1;
      var x, y := Run(z, events[..n]).value, Run(z, events).value;
      CounterInRange(z);
      RunFollowsRequests(z, events[..n]);
      PlaysCurrentProgram(z, events[..n]);
      StepPlays(x, events[n]);
      assert events[..n + 1] == events;
      if PlaysTable(y) {
        assert PlayedAt(Run(z, events[..n + 1]), y);
      } else if !Pending(y) {
        StillPlaying(z, events, n, x, y);
      }
    }
  }

  lemma CounterInRange(z: Zap)
    requires PlaysTable(z)
    ensures z.counter < |z.table|
  {}

  /**
   * A step leaves a request pending, or the current program playing as the table has it, or everything about it as it
   * was.
   */
  lemma StepPlays(x: Zap, e: Event)
    requires Heading(x) && Step(x, e).Some?
    ensures var y := Step(x, e).value;
            || Pending(y) || PlaysTable(y)
            || (!Pending(x) && x.counter == y.counter && x.audio == y.audio && x.video == y.video
                && x.filter == y.filter)
  {
    hide AfterPass, Kept, LearnAll;
    if e.Pass? {
      if Pending(x) {
        PassTunesToCounter(x, e.first, e.second, e.third);
      } else {
        IdlePassKeepsPlaying(x, e.first, e.second, e.third);
      }
    }
  }

  lemma StillPlaying(z: Zap, events: seq<Event>, n: nat, x: Zap, y: Zap)
    requires n < |events| && PlaysSince(z, events[..n], x)
    requires x.counter == y.counter && x.audio == y.audio && x.video == y.video && x.filter == y.filter
    ensures PlaysSince(z, events, y)
  {
    var k :| 0 <= k <= n && PlayedAt(Run(z, events[..n][..k]), x);
    assert events[..n][..k] == events[..k];
    assert PlayedAt(Run(z, events[..k]), y);
  }

  /* ---------- From the broadcast to the streams ---------- */

  lemma {:induction false} KeptLast(sections: seq<seq<Byte>>, last: seq<Byte>)
    requires Accepted(last)
    ensures Kept(sections + [last]) == Kept(sections) + [last]
  {
    KeptConcat(sections, [last]);
    KeptOne(last);
  }

  /** A program change ends up playing the first video and audio stream the program's latest map section lists. */
  lemma ChangePlaysBroadcast(z: Zap, earlier: seq<seq<Byte>>, p: PmtSection)
    requires z.counter < |z.table| && z.change && !z.next && !z.previous
    requires p.Valid() && p.programInfo == [] && Maps(z.table, Kept(earlier))
    requires FirstEntry(z.table, p.programNumber) == z.counter
    ensures var y := AfterPass(z, earlier + [EncodePmt(p)], [], []);
            && y.Some?
            && y.value.filter == z.table[z.counter].tableId
            && y.value.video == Playable(FirstVideo(p.streams))
            && y.value.audio == Playable(FirstAudio(p.streams))
            && y.value.table[z.counter].hasTeletext == HasTeletext(p.streams)
  {
    hide Kept, Maps, LearnAll, FirstEntry;
    LastLearned(z.table, earlier, p);
    ChangeOnly(z, earlier + [EncodePmt(p)]);
  }

  /** After sections of listed programs, an encoded map section without program descriptors sets its program's entry. */
  lemma LastLearned(table: seq<Pmt>, earlier: seq<seq<Byte>>, p: PmtSection)
    requires p.Valid() && p.programInfo == [] && Maps(table, Kept(earlier))
    requires FirstEntry(table, p.programNumber) < |table|
    ensures var t := LearnAll(table, Kept(earlier + [EncodePmt(p)]));
            && t.Some? && |t.value| == |table|
            && var j := FirstEntry(table, p.programNumber);
               t.value[j].videoPid == FirstVideo(p.streams) && t.value[j].audioPid == FirstAudio(p.streams)
               && t.value[j].hasTeletext == HasTeletext(p.streams)
  {
    hide Maps, FirstEntry, PmtUpdated, PmtWalkable;
    var b := EncodePmt(p);
    PmtSectionShape(p);
    KeptLast(earlier, b);
    LearnsIffMaps(table, Kept(earlier));
    var before := LearnAll(table, Kept(earlier)).value;
    SameNumbersSameEntry(table, before, p.programNumber);
    PmtRoundTrip(before[FirstEntry(table, p.programNumber)], p);
    var kept := Kept(earlier) + [b];
    hide EncodePmt, Kept;
    assert kept[..|kept| - 1] == Kept(earlier);
    assert LearnAll(table, kept) == Learn(before, b);
  }

  lemma ChangeOnly(z: Zap, sections: seq<seq<Byte>>)
    requires z.change && !z.next && !z.previous && Tuned(z, sections).Some?
    ensures AfterPass(z, sections, [], []) == Some(Tuned(z, sections).value.(change := false, info := false,
                                                                             list := false))
  {
    hide LearnAll, Kept;
  }
}
