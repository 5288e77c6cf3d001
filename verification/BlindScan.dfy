/** The satellite blind scan: sweeping the band, collecting findings, trying to lock each of them. */
module BlindScan {
  import opened Bytes
  import opened Transponders

  const FIRST_PASS: nat := 0
  const THIRD_PASS: nat := 2
  const WINDOW_WIDTH: nat := 60000

  /** One finding as read from the demodulator: four octets. */
  datatype Peak = Peak(r1: Byte, r2: Byte, r3: Byte, r4: Byte)

  /** The symbol rate a finding suggests, in KSs: a width in bins of the 512-point spectrum of the 96 MHz clock. */
  function PeakRate(p: Peak): nat {
    ((p.r4 as int) % 4 * 256 + p.r3) * 96000 / 512
  }

  /** The signed bin of a finding. */
  function PeakOffset(p: Peak): int {
    var v := (p.r2 as int) % 4 * 256 + p.r1;
    if v >= 512 then v - 1024 else v
  }

  /** The rate is stored a little smaller than measured. */
  function StoredRate(rate: nat): nat
    requires rate > 2000
  {
    if rate > 45000 then 45000 else rate - 400
  }

  /* ---------- What locking keeps ---------- */

  predicate IsLocked(tp: Tp) { tp.kind == DvbS || tp.kind == DvbS2 }

  function LockedOnly(list: seq<Tp>): (r: seq<Tp>)
    ensures |r| <= |list|
  {
    if list == [] then []
    else
      var n := |list| - 1;
      LockedOnly(list[..n]) + (if IsLocked(list[n]) then [list[n]] else [])
  }

  function Distance(a: nat, b: nat): nat { if a > b then a - b else b - a }

  function Lesser(a: nat, b: nat): nat { if a < b then a else b }

  /** The same broadcast twice: one mode, nearly one rate, and closer than half the smaller rate. */
  predicate Alike(a: Tp, b: Tp) {
    && a.kind == b.kind && Distance(a.symRate, b.symRate) < 50
    && Distance(a.freq, b.freq) < Lesser(a.symRate, b.symRate) / 2
  }

  predicate AllDistinct(list: seq<Tp>) {
    forall i, j | 0 <= i < j < |list| && IsLocked(list[i]) && IsLocked(list[j]) :: !Alike(list[i], list[j])
  }

  predicate AllTried(list: seq<Tp>) {
    forall k | 0 <= k < |list| :: list[k].kind != Unknown
  }

  /** Above any frequency a scan deals with. */
  const FREQ_MAX: nat := 9999000

  /** As long a list as the signed 16-bit index of the search for duplicates can go through. */
  const SEARCHED: nat := 0x8000

  /** No broadcast is locked twice, unless the list is too long for the search. */
  predicate DistinctIfSearched(list: seq<Tp>) {
    |list| <= SEARCHED ==> AllDistinct(list)
  }

  /**
   * A list of findings, each untried, locked or marked, with as many locked as counted and no broadcast locked twice.
   */
  ghost predicate Sound(list: seq<Tp>, locked: nat) {
    && locked == |LockedOnly(list)| && DistinctIfSearched(list)
    && forall k | 0 <= k < |list| :: list[k].kind != Undef && list[k].freq < FREQ_MAX
  }

  predicate FreqsBounded(list: seq<Tp>) {
    forall k | 0 <= k < |list| :: list[k].freq < FREQ_MAX
  }

  /** Entries that locked once stay as they are. */
  predicate LockedStay(before: seq<Tp>, after: seq<Tp>) {
    |before| == |after| && forall k | 0 <= k < |before| && IsLocked(before[k]) :: after[k] == before[k]
  }

  lemma {:induction false} LockedOnlyUpdate(list: seq<Tp>, i: nat, tp: Tp)
    requires i < |list| && !IsLocked(list[i])
    ensures |LockedOnly(list[i := tp])| == |LockedOnly(list)| + (if IsLocked(tp) then 1 else 0)
  {
    var n := |list| - 1;
    if i == n {
      assert list[i := tp][..n] == list[..n];
    } else {
      assert list[i := tp][..n] == list[..n][i := tp];
      LockedOnlyUpdate(list[..n], i, tp);
    }
  }

  lemma {:induction false} LockedOnlyConcat(a: seq<Tp>, b: seq<Tp>)
    ensures LockedOnly(a + b) == LockedOnly(a) + LockedOnly(b)
    decreases |b|
  {
    if b == [] {
      assert a + b == a;
    } else {
      var n := |b| - 1;
      assert (a + b)[..|a| + n] == a + b[..n];
      LockedOnlyConcat(a, b[..n]);
    }
  }

  lemma UnlockedAlone(tp: Tp)
    requires !IsLocked(tp)
    ensures LockedOnly([tp]) == []
  {
    assert [tp][..0] == [];
  }

  lemma GrownLocked(list: seq<Tp>, i: nat, tp: Tp)
    requires i <= |list| && !IsLocked(tp)
    ensures LockedOnly(list[..i] + [tp] + list[i..]) == LockedOnly(list)
  {
    assert list == list[..i] + list[i..];
    LockedOnlyConcat(list[..i], list[i..]);
    LockedOnlyConcat(list[..i] + [tp], list[i..]);
    LockedOnlyConcat(list[..i], [tp]);
    UnlockedAlone(tp);
  }

  lemma GrownDistinct(list: seq<Tp>, i: nat, tp: Tp)
    requires i <= |list| && AllDistinct(list) && !IsLocked(tp)
    ensures AllDistinct(list[..i] + [tp] + list[i..])
  {
    var grown := list[..i] + [tp] + list[i..];
    forall a, b | 0 <= a < b < |grown| && IsLocked(grown[a]) && IsLocked(grown[b]) ensures !Alike(grown[a], grown[b]) {
      var x, y := if a < i then a else a - 1, if b < i then b else b - 1;
      assert grown[a] == list[x] && grown[b] == list[y];
    }
  }

  /** A new finding anywhere in the list leaves the bookkeeping right. */
  lemma GrownSound(list: seq<Tp>, i: nat, tp: Tp, locked: nat)
    requires i <= |list| && Sound(list, locked)
    requires tp.kind == Unknown && tp.freq < FREQ_MAX
    ensures Sound(list[..i] + [tp] + list[i..], locked)
  {
    GrownLocked(list, i, tp);
    if |list| <= SEARCHED {
      GrownDistinct(list, i, tp);
    }
  }

  /** What became of one attempt to lock a finding in one mode. */
  datatype Attempt =
    | CciUnlocked
    | TimedOut
    | TimingFailed
    | CarrierFailed
    | Acquired(freq: nat, symRate: nat, codeRate: nat)
    | NotLocked

  /** Rates read back from the demodulator fit 16 bits; frequencies lie below the scan's upper limit. */
  predicate AttemptValid(a: Attempt) {
    a.Acquired? ==> a.symRate < 0x1_0000 && a.freq < FREQ_MAX
  }

  /** A broadcast and an entry are far apart: in rate, or in frequency by half the entry's rate. */
  predicate Apart(tp: Tp, freq: nat, symRate: nat) {
    || symRate >= tp.symRate + 50 || tp.symRate >= symRate + 50
    || freq >= tp.freq + tp.symRate / 2 || tp.freq >= freq + tp.symRate / 2
  }

  /** The test a newly locked broadcast has to pass against one entry of the list. */
  predicate TakenFor(tp: Tp, a: Attempt, mode: DvbType)
    requires a.Acquired?
  {
    && Distance(tp.symRate, a.symRate) < 50
    && AsS32(Distance(tp.freq, a.freq)) < tp.symRate / 2
    && tp.kind == mode
  }

  lemma TakenForIff(tp: Tp, a: Attempt, mode: DvbType)
    requires a.Acquired? && a.freq < FREQ_MAX && tp.freq < FREQ_MAX
    ensures TakenFor(tp, a, mode) <==> tp.kind == mode && !Apart(tp, a.freq, a.symRate)
  {}

  /** The search goes down from the last entry with a signed 16-bit index: in longer lists it ends at once. */
  predicate Duplicate(list: seq<Tp>, a: Attempt, mode: DvbType)
    requires a.Acquired?
  {
    |list| <= SEARCHED && exists k | 0 <= k < |list| :: TakenFor(list[k], a, mode)
  }

  /** In frequencies and rates: some entry of the mode is not apart. */
  lemma DuplicateIff(list: seq<Tp>, a: Attempt, mode: DvbType)
    requires a.Acquired? && AttemptValid(a) && FreqsBounded(list)
    ensures Duplicate(list, a, mode) <==>
              |list| <= 32768
              && exists k | 0 <= k < |list| :: list[k].kind == mode && !Apart(list[k], a.freq, a.symRate)
  {
    hide Apart, TakenFor;
    forall k | 0 <= k < |list|
      ensures TakenFor(list[k], a, mode) <==> list[k].kind == mode && !Apart(list[k], a.freq, a.symRate)
    {
      TakenForIff(list[k], a, mode);
    }
  }

  /** The entry an attempt in one mode settles on, or none when the other mode is still to be tried. */
  function Settled(list: seq<Tp>, entry: Tp, a: Attempt, mode: DvbType): Tp {
    if a.Acquired? && !Duplicate(list, a, mode) then
      Tp(a.freq, a.symRate, mode, a.codeRate)
    else entry.(kind := Checked)
  }

  /**
   * For every list and every broadcast taken for one already in it: it is locked again exactly when the list is too
   * long.
   */
  lemma LockedTwiceIffTooLong(list: seq<Tp>, i: nat, k: nat, a: Attempt, mode: DvbType)
    requires i < |list| && k < |list| && i != k && list[i].kind == Unknown && (mode == DvbS || mode == DvbS2)
    requires a == Acquired(list[k].freq, list[k].symRate, list[k].codeRate) && list[k].kind == mode
    requires list[k].symRate >= 2
    ensures IsLocked(Settled(list, list[i], a, mode)) <==> |list| > SEARCHED
    ensures |list| > SEARCHED ==> !AllDistinct(list[i := Settled(list, list[i], a, mode)])
  {
    assert TakenFor(list[k], a, mode);
    if |list| > SEARCHED {
      var after := list[i := Settled(list, list[i], a, mode)];
      assert after[k] == list[k] && Alike(after[i], after[k]) && Alike(after[k], after[i]);
    }
  }

  /** DVB-S first; DVB-S2 only after a carrier failure or no lock. */
  function Verdict(list: seq<Tp>, entry: Tp, trial: DvbType -> Attempt): Tp {
    if trial(DvbS).CarrierFailed? || trial(DvbS).NotLocked? then Settled(list, entry, trial(DvbS2), DvbS2)
    else Settled(list, entry, trial(DvbS), DvbS)
  }

  /** The list after the first n entries had their turn. */
  function Connected(list: seq<Tp>, n: nat, trials: nat -> DvbType -> Attempt): (r: seq<Tp>)
    requires n <= |list|
    ensures |r| == |list| && r[n..] == list[n..]
    decreases n
  {
    if n == 0 then list
    else
      var r := Connected(list, n - 1, trials);
      assert r[n - 1..][1..] == r[n..] && list[n - 1..][1..] == list[n..];
      if r[n - 1].kind == Unknown then r[n - 1 := Verdict(r, r[n - 1], trials(n - 1))] else r
  }

  /** A broadcast is locked exactly when all entries of its mode are apart, or the list is too long to go through. */
  predicate LocksIfApart(list: seq<Tp>, entry: Tp, a: Attempt, mode: DvbType) {
    a.Acquired? ==>
      (entry == Tp(a.freq, a.symRate, mode, a.codeRate)
       <==> |list| > 32768 || forall k | 0 <= k < |list| && list[k].kind == mode :: Apart(list[k], a.freq, a.symRate))
  }

  /**
   * The attempt in DVB-S decides, unless the carrier was not found or did not lock: then the one in DVB-S2 does. An
   * entry whose deciding attempt fails is marked.
   */
  predicate FairTurn(list: seq<Tp>, before: Tp, after: Tp, trial: DvbType -> Attempt) {
    && LocksIfApart(list, after, trial(DvbS), DvbS)
    && (trial(DvbS).CarrierFailed? || trial(DvbS).NotLocked? ==>
          && LocksIfApart(list, after, trial(DvbS2), DvbS2)
          && (!trial(DvbS2).Acquired? ==> after == before.(kind := Checked)))
    && (trial(DvbS).CciUnlocked? || trial(DvbS).TimedOut? || trial(DvbS).TimingFailed? ==>
          after == before.(kind := Checked))
    && (after.kind == DvbS || after.kind == DvbS2 || after == before.(kind := Checked))
  }

  /** Every entry that was untried had its turn, among the entries before it as they are now and those behind it. */
  predicate FairTurns(before: seq<Tp>, after: seq<Tp>, trials: nat -> DvbType -> Attempt) {
    && |after| == |before|
    && forall i | 0 <= i < |before| ::
         if before[i].kind == Unknown then FairTurn(after[..i] + before[i..], before[i], after[i], trials(i))
         else after[i] == before[i]
  }

  lemma VerdictFair(list: seq<Tp>, entry: Tp, trial: DvbType -> Attempt)
    requires entry.kind == Unknown && FreqsBounded(list)
    requires AttemptValid(trial(DvbS)) && AttemptValid(trial(DvbS2))
    ensures FairTurn(list, entry, Verdict(list, entry, trial), trial)
  {
    hide Apart, Duplicate;
    forall mode | trial(mode).Acquired? && AttemptValid(trial(mode))
      ensures Duplicate(list, trial(mode), mode) <==>
                |list| <= 32768 && exists k | 0 <= k < |list| ::
                  list[k].kind == mode && !Apart(list[k], trial(mode).freq, trial(mode).symRate)
    {
      DuplicateIff(list, trial(mode), mode);
    }
  }

  /** What is received lies below the limit. */
  ghost predicate AllValid(trials: nat -> DvbType -> Attempt) {
    forall k, mode :: AttemptValid(trials(k)(mode))
  }

  lemma {:induction false} ConnectedBounded(list: seq<Tp>, n: nat, trials: nat -> DvbType -> Attempt)
    requires n <= |list| && FreqsBounded(list) && AllValid(trials)
    ensures FreqsBounded(Connected(list, n, trials))
    decreases n
  {
    hide Duplicate;
    if n > 0 {
      ConnectedBounded(list, n - 1, trials);
    }
  }

  lemma {:induction false} ConnectedKeeps(list: seq<Tp>, i: nat, n: nat, trials: nat -> DvbType -> Attempt)
    requires i <= n <= |list|
    ensures Connected(list, n, trials)[..i] == Connected(list, i, trials)[..i]
    decreases n
  {
    if i < n {
      ConnectedKeeps(list, i, n - 1, trials);
    }
  }

  lemma ConnectedStep(list: seq<Tp>, i: nat, trials: nat -> DvbType -> Attempt)
    requires i < |list|
    ensures var now, next := Connected(list, i, trials), Connected(list, i + 1, trials);
            now[i] == list[i]
            && next[i] == if list[i].kind == Unknown then Verdict(now, list[i], trials(i)) else list[i]
  {
    hide Verdict;
    assert Connected(list, i, trials)[i..][0] == list[i..][0];
  }

  /** What is found when an entry has its turn, and what is left there. */
  lemma ConnectedAt(list: seq<Tp>, i: nat, trials: nat -> DvbType -> Attempt)
    requires i < |list|
    ensures var now, after := Connected(list, i, trials), Connected(list, |list|, trials);
            && now == after[..i] + list[i..]
            && after[i] == if list[i].kind == Unknown then Verdict(now, list[i], trials(i)) else list[i]
  {
    hide Verdict, Connected;
    var now, next, after := Connected(list, i, trials), Connected(list, i + 1, trials),
      Connected(list, |list|, trials);
    ConnectedStep(list, i, trials);
    ConnectedKeeps(list, i, |list|, trials);
    ConnectedKeeps(list, i + 1, |list|, trials);
    assert now == now[..i] + now[i..];
    assert after[i] == after[..i + 1][i] && next[i] == next[..i + 1][i];
  }

  /**
   * For every list and whatever is received: each entry is locked or marked by comparing it with the entries of its
   * mode, in frequency and rate.
   */
  lemma ConnectedFair(list: seq<Tp>, trials: nat -> DvbType -> Attempt)
    requires FreqsBounded(list) && AllValid(trials)
    ensures FairTurns(list, Connected(list, |list|, trials), trials)
  {
    hide FairTurn, Verdict, Connected;
    var after := Connected(list, |list|, trials);
    forall i | 0 <= i < |list|
      ensures if list[i].kind == Unknown then FairTurn(after[..i] + list[i..], list[i], after[i], trials(i))
              else after[i] == list[i]
    {
      ConnectedAt(list, i, trials);
      ConnectedBounded(list, i, trials);
      if list[i].kind == Unknown {
        VerdictFair(after[..i] + list[i..], list[i], trials(i));
      }
    }
  }

  /** The mode whose attempt decides. */
  function Deciding(trial: DvbType -> Attempt): (mode: DvbType)
    ensures mode == DvbS || mode == DvbS2
  {
    if trial(DvbS).CarrierFailed? || trial(DvbS).NotLocked? then DvbS2 else DvbS
  }

  function Received(trial: DvbType -> Attempt): (tp: Tp)
    requires trial(Deciding(trial)).Acquired?
  {
    var a := trial(Deciding(trial));
    Tp(a.freq, a.symRate, Deciding(trial), a.codeRate)
  }

  predicate AllReceived(list: seq<Tp>, trials: nat -> DvbType -> Attempt) {
    forall i | 0 <= i < |list| && list[i].kind == Unknown :: trials(i)(Deciding(trials(i))).Acquired?
  }

  /** The broadcasts received are apart from each other and from all entries that were tried before. */
  predicate AllApart(list: seq<Tp>, trials: nat -> DvbType -> Attempt)
    requires AllReceived(list, trials)
  {
    && (forall i, k | 0 <= i < |list| && 0 <= k < |list| && list[i].kind == Unknown && list[k].kind != Unknown
          && list[k].kind == Deciding(trials(i)) ::
          Apart(list[k], Received(trials(i)).freq, Received(trials(i)).symRate))
    && (forall i, k | 0 <= k < i < |list| && list[i].kind == Unknown && list[k].kind == Unknown
          && Deciding(trials(k)) == Deciding(trials(i)) ::
          Apart(Received(trials(k)), Received(trials(i)).freq, Received(trials(i)).symRate))
  }

  /** Broadcasts far enough apart are all locked, each as it was received. */
  lemma ApartAllLocked(list: seq<Tp>, trials: nat -> DvbType -> Attempt)
    requires |list| <= 32768 && FreqsBounded(list) && AllValid(trials)
    requires AllReceived(list, trials) && AllApart(list, trials)
    ensures var after := Connected(list, |list|, trials);
            forall i | 0 <= i < |list| && list[i].kind == Unknown :: after[i] == Received(trials(i))
  {
    hide AllApart, FairTurns, Connected;
    ConnectedFair(list, trials);
    var after := Connected(list, |list|, trials);
    for n := 0 to |list|
      invariant forall i | 0 <= i < n && list[i].kind == Unknown :: after[i] == Received(trials(i))
    {
      if list[n].kind == Unknown {
        OneMoreLocked(list, after, n, trials);
      }
    }
  }

  lemma OneMoreLocked(list: seq<Tp>, after: seq<Tp>, n: nat, trials: nat -> DvbType -> Attempt)
    requires n < |list| <= 32768 && list[n].kind == Unknown
    requires AllReceived(list, trials) && AllApart(list, trials)
    requires FairTurns(list, after, trials)
    requires forall i | 0 <= i < n && list[i].kind == Unknown :: after[i] == Received(trials(i))
    ensures after[n] == Received(trials(n))
  {
    hide Apart;
    var now, tp := after[..n] + list[n..], Received(trials(n));
    assert FairTurn(now, list[n], after[n], trials(n));
    forall k | 0 <= k < |now| && now[k].kind == tp.kind ensures Apart(now[k], tp.freq, tp.symRate) {
      if k < n {
        assert now[k] == after[k];
      } else {
        assert now[k] == list[k];
      }
    }
  }

  /** What one pass of a sweep reads from the demodulator, and how its findings fare. */
  datatype Window = Window(peaks: seq<Peak>, r95: Byte, r96: Byte, r91: Byte, r9a: Byte,
                           trials: nat -> DvbType -> Attempt)

  ghost predicate WindowValid(w: Window) { AllValid(w.trials) }

  /** The last window of a sweep is tuned here. */
  const LAST_FREQ: nat := 2149000

  /** The bin the demodulator found a notch at. */
  function Notch(w: Window): nat {
    (w.r95 as int) / 64 * 256 + w.r96
  }

  /** How far a plain window moves on; single-cable tuning needs at least its 4 MHz grid. */
  function PlainStep(w: Window, unicable: bool): nat {
    var raw := Notch(w) * 96000 / 512;
    var step := if raw > 96000 then 10000 else raw;
    if step == 0 then 36000
    else if unicable && step < 4000 then 4000
    else step
  }

  function FlatThreshold(w: Window): nat {
    12 * [4, 8, 16, 32][(w.r91 as int) / 32 % 4]
  }

  /** How far a mirrored window without findings moves on. */
  function EmptyStep(w: Window): nat {
    var step := if Notch(w) >= FlatThreshold(w) then FlatThreshold(w) * 96000 / 512 - 1000 else Notch(w) * 96000 / 512;
    if step < 8000 then 8000 else if step > 24000 then 24000 else step
  }

  /** The frequency single-cable tuning really reaches: the grid point at or below. */
  function Retuned(freq: nat, ub: nat): nat {
    Wrap32(Wrap32(Wrap32(freq / 1000 + ub) / 4 * 4 - ub) * 1000)
  }

  /** It is the only frequency less than 4 MHz below at which the tuner's own is a multiple of 4 MHz. */
  lemma RetunedClose(freq: nat, ub: nat)
    requires 950000 <= freq <= 2300000 && ub < 0x8000_0000
    ensures freq - 3999 <= Retuned(freq, ub) <= freq && (Retuned(freq, ub) + 1000 * ub) % 4000 == 0
  {
    var m := freq / 1000 + ub;
    assert m - 3 <= m / 4 * 4 <= m;
    assert Wrap32(m) == m;
  }

  /** The frequencies of a sweep in the order they are tuned. */
  ghost predicate Rising(tuned: seq<nat>) {
    && (forall i, j | 0 <= i < j < |tuned| :: tuned[i] < tuned[j])
    && forall i | 0 <= i < |tuned| :: tuned[i] <= LAST_FREQ
  }

  /** The finding or broadcast that the next step of a mirrored sweep goes by. */
  datatype Spot = Spot(freq: nat, rate: nat, locked: bool)

  /** An entry that was untried before and is locked now. */
  predicate NewAt(before: seq<Tp>, after: seq<Tp>, k: nat)
    requires k < |before| && k < |after|
  {
    before[k].kind == Unknown && IsLocked(after[k])
  }

  /** The last of the first n entries that is newly locked, or what was there before. */
  function NewestOf(before: seq<Tp>, after: seq<Tp>, n: nat, spot: Spot): Spot
    requires n <= |before| && n <= |after|
  {
    if n == 0 then spot
    else if NewAt(before, after, n - 1) then Spot(after[n - 1].freq, after[n - 1].symRate, true)
    else NewestOf(before, after, n - 1, spot)
  }

  lemma {:induction false} NewestOfFront(before: seq<Tp>, a: seq<Tp>, b: seq<Tp>, n: nat, spot: Spot)
    requires n <= |before| && n <= |a| && n <= |b| && forall k | 0 <= k < n :: a[k] == b[k]
    ensures NewestOf(before, a, n, spot) == NewestOf(before, b, n, spot)
  {
    if n > 0 {
      NewestOfFront(before, a, b, n - 1, spot);
    }
  }

  class Scanner {
    const list: TpList
    const demod: Demod
    const inverted: bool
    const unicable: bool
    const timesTotal: nat
    var lockedCount: nat
    var tpNum: nat
    var tpIndex: nat
    var lastTpA: bool
    var firstFound: bool
    var firstLocked: bool
    var firstFreq: nat
    var firstSymRate: nat
    var windowCenter: nat
    /** A finding was merged into an entry near it, though counted; single-cable operation only. */
    ghost var merged: bool

    constructor (list: TpList, demod: Demod, inverted: bool, unicable: bool, timesTotal: nat)
      ensures this.list == list && this.demod == demod && this.inverted == inverted
      ensures this.unicable == unicable && this.timesTotal == timesTotal
    {
      this.list, this.demod, this.inverted := list, demod, inverted;
      this.unicable, this.timesTotal := unicable, timesTotal;
      lockedCount, tpNum, tpIndex, lastTpA := 0, 0, 0, false;
      firstFound, firstLocked, firstFreq, firstSymRate, windowCenter, merged := false, false, 0, 0, 0, false;
    }

    /** The findings counted so far. */
    ghost function Findings(): seq<Tp>
      reads list, list.tps
      requires list.count <= list.tps.Length
    {
      list.tps[..list.count]
    }

    function Remembered(): Spot
      reads `firstFreq, `firstSymRate, `firstLocked
    {
      Spot(firstFreq, firstSymRate, firstLocked)
    }

    /** The bookkeeping that holds throughout a scan. */
    ghost predicate Booked()
      reads this, list, list.tps
    {
      && list.count <= list.tps.Length && list.count < 0x1_0000
      && (merged ==> unicable)
      && (!merged ==> Sound(Findings(), lockedCount) && tpNum == lockedCount)
    }

    /** Whether a locked broadcast is in the list already. */
    method IsDuplicate(a: Attempt, mode: DvbType) returns (same: bool)
      requires a.Acquired? && AttemptValid(a) && list.count <= list.tps.Length && list.count < 0x1_0000
      ensures same <==> Duplicate(Findings(), a, mode)
      ensures FreqsBounded(Findings()) ==>
                (same <==> list.count <= 32768 && exists k | 0 <= k < list.count ::
                    Findings()[k].kind == mode && !Apart(Findings()[k], a.freq, a.symRate))
    {
      hide Apart, AsS32, TakenFor;
      ghost var findings := Findings();
      if FreqsBounded(findings) { DuplicateIff(findings, a, mode); }
      var i := AsS16(list.count - 1);
      while i >= 0
        invariant list.count <= SEARCHED ==> -1 <= i < list.count
        invariant list.count > SEARCHED ==> i < 0
        invariant list.count <= SEARCHED ==> forall k | i < k < list.count :: !TakenFor(findings[k], a, mode)
      {
        var tp := list.tps[i];
        var deltaFreq := AsS32(if tp.freq > a.freq then tp.freq - a.freq else a.freq - tp.freq);
        var deltaRate := if tp.symRate > a.symRate then tp.symRate - a.symRate else a.symRate - tp.symRate;
        TakenForSteps(tp, a, mode, deltaFreq, deltaRate);
        assert tp == findings[i];
        if deltaRate < 50 && deltaFreq < tp.symRate / 2 && tp.kind == mode {
          return true;
        }
        i := i - 1;
      }
      return false;
    }

    static lemma TakenForSteps(tp: Tp, a: Attempt, mode: DvbType, deltaFreq: int, deltaRate: int)
      requires a.Acquired?
      requires deltaFreq == AsS32(if tp.freq > a.freq then tp.freq - a.freq else a.freq - tp.freq)
      requires deltaRate == if tp.symRate > a.symRate then tp.symRate - a.symRate else a.symRate - tp.symRate
      ensures TakenFor(tp, a, mode) <==> deltaRate < 50 && deltaFreq < tp.symRate / 2 && tp.kind == mode
    {
      hide AsS32;
    }

    /** One entry is tried in both modes; at the end it is locked or marked. */
    method TryEntry(index: nat, trial: DvbType -> Attempt)
      requires Booked() && index < list.count && list.tps[index].kind == Unknown
      requires AttemptValid(trial(DvbS)) && AttemptValid(trial(DvbS2))
      modifies list.tps, `lockedCount, `tpNum, `firstLocked, `firstFreq, `firstSymRate
      ensures Booked()
      ensures list.tps[index] == Verdict(old(Findings()), old(list.tps[index]), trial)
      ensures FreqsBounded(old(Findings())) ==>
                FairTurn(old(Findings()), old(list.tps[index]), list.tps[index], trial)
      ensures Remembered() == if inverted && IsLocked(list.tps[index])
                              then Spot(list.tps[index].freq, list.tps[index].symRate, true) else old(Remembered())
      ensures list.tps[..] == old(list.tps[..])[index := list.tps[index]]
    {
      hide FairTurn;
      if FreqsBounded(Findings()) { VerdictFair(Findings(), list.tps[index], trial); }
      for j := 0 to 2
        invariant j < 2 && list.tps[..] == old(list.tps[..]) && Booked()
        invariant j == 1 ==> trial(DvbS).CarrierFailed? || trial(DvbS).NotLocked?
      {
        var mode := if j == 0 then DvbS else DvbS2;
        var a := trial(mode);
        match a
        case CciUnlocked => Mark(index); return;
        case TimedOut => Mark(index); return;
        case TimingFailed => Mark(index); return;
        case CarrierFailed =>
          if mode == DvbS2 {
            Mark(index);
            return;
          }
        case Acquired(freq, symRate, codeRate) =>
          var same := IsDuplicate(a, mode);
          if same {
            Mark(index);
          } else {
            Lock(index, a, mode);
          }
          return;
        case NotLocked =>
          if mode == DvbS2 {
            Mark(index);
            return;
          }
      }
      assert false;
    }

    method Mark(index: nat)
      requires Booked() && index < list.count && list.tps[index].kind == Unknown
      modifies list.tps
      ensures Booked() && list.tps[..] == old(list.tps[..])[index := old(list.tps[index]).(kind := Checked)]
    {
      list.tps[index] := list.tps[index].(kind := Checked);
      if !merged { Marked(old(Findings()), Findings(), index); }
    }

    lemma Marked(before: seq<Tp>, after: seq<Tp>, index: nat)
      requires index < |before| && before[index].kind == Unknown && DistinctIfSearched(before)
      requires after == before[index := before[index].(kind := Checked)]
      ensures |LockedOnly(after)| == |LockedOnly(before)| && DistinctIfSearched(after)
    {
      LockedOnlyUpdate(before, index, after[index]);
    }

    method Lock(index: nat, a: Attempt, mode: DvbType)
      requires Booked() && index < list.count && list.tps[index].kind == Unknown
      requires a.Acquired? && AttemptValid(a) && (mode == DvbS || mode == DvbS2)
      requires !Duplicate(Findings(), a, mode)
      modifies list.tps, `lockedCount, `tpNum, `firstLocked, `firstFreq, `firstSymRate
      ensures Booked() && list.tps[index] == Tp(a.freq, a.symRate, mode, a.codeRate)
      ensures list.tps[..] == old(list.tps[..])[index := list.tps[index]]
      ensures lockedCount == old(lockedCount) + 1
      ensures Remembered() == if inverted then Spot(a.freq, a.symRate, true) else old(Remembered())
    {
      lockedCount := lockedCount + 1;
      list.tps[index] := Tp(a.freq, Wrap16(a.symRate), mode, a.codeRate);
      tpNum := lockedCount;
      if inverted {
        firstLocked, firstFreq, firstSymRate := true, a.freq, a.symRate;
      }
      assert Findings() == old(Findings())[index := Tp(a.freq, a.symRate, mode, a.codeRate)];
      if !merged { NewlyLocked(old(Findings()), Findings(), index, a, mode); }
    }

    lemma NewlyLocked(before: seq<Tp>, after: seq<Tp>, index: nat, a: Attempt, mode: DvbType)
      requires index < |before| && before[index].kind == Unknown && DistinctIfSearched(before)
      requires a.Acquired? && AttemptValid(a) && (mode == DvbS || mode == DvbS2)
      requires !Duplicate(before, a, mode)
      requires after == before[index := Tp(a.freq, a.symRate, mode, a.codeRate)]
      ensures |LockedOnly(after)| == |LockedOnly(before)| + 1 && DistinctIfSearched(after)
    {
      LockedOnlyUpdate(before, index, after[index]);
      forall i, j | 0 <= i < j < |after| <= SEARCHED && IsLocked(after[i]) && IsLocked(after[j])
        ensures !Alike(after[i], after[j])
      {
        if i == index {
          assert !TakenFor(before[j], a, mode);
        } else if j == index {
          assert !TakenFor(before[i], a, mode);
        }
      }
    }

    /** Every finding not tried yet is tried, in list order. */
    method Connect(trials: nat -> DvbType -> Attempt)
      requires Booked()
      requires AllValid(trials)
      modifies list.tps, `lockedCount, `tpNum, `firstLocked, `firstFreq, `firstSymRate
      ensures Booked() && AllTried(Findings()) && LockedStay(old(Findings()), Findings())
      ensures Findings() == Connected(old(Findings()), list.count, trials)
      ensures FreqsBounded(old(Findings())) ==> FairTurns(old(Findings()), Findings(), trials)
      ensures list.tps[list.count..] == old(list.tps[list.count..])
      ensures Remembered() == Newest(old(Findings()), Findings(), list.count, old(Remembered()))
    {
      assert list.count <= list.tps.Length;
      hide FairTurns, FreqsBounded, Booked, Connected, Newest, AllTried, LockedStay;
      ghost var start, spot := Findings(), Remembered();
      if FreqsBounded(start) { ConnectedFair(start, trials); }
      NoTurns(start, trials, spot);
      for index := 0 to list.count
        invariant list.count <= list.tps.Length && Booked()
        invariant AllTried(Findings()[..index]) && LockedStay(start, Findings())
        invariant Findings() == Connected(start, index, trials)
        invariant list.tps[list.count..] == old(list.tps[list.count..])
        invariant Remembered() == Newest(start, Findings(), index, spot)
      {
        ghost var now := Findings();
        TakeTurn(index, trials(index));
        NextTurn(start, now, Findings(), index, trials, spot);
      }
      assert Findings()[..list.count] == Findings();
    }

    /** An entry has its turn unless it was tried before. */
    method TakeTurn(index: nat, trial: DvbType -> Attempt)
      requires Booked() && index < list.count
      requires AttemptValid(trial(DvbS)) && AttemptValid(trial(DvbS2))
      modifies list.tps, `lockedCount, `tpNum, `firstLocked, `firstFreq, `firstSymRate
      ensures Booked() && list.tps[list.count..] == old(list.tps[list.count..])
      ensures Findings() == old(Findings())[index := list.tps[index]]
      ensures list.tps[index] == if old(list.tps[index].kind) == Unknown
                                 then Verdict(old(Findings()), old(list.tps[index]), trial) else old(list.tps[index])
      ensures Remembered() == if inverted && NewAt(old(Findings()), Findings(), index)
                              then Spot(list.tps[index].freq, list.tps[index].symRate, true) else old(Remembered())
    {
      hide Sound, Verdict, FreqsBounded, FairTurn;
      if list.tps[index].kind == Unknown {
        TryEntry(index, trial);
      }
    }

    lemma NoTurns(start: seq<Tp>, trials: nat -> DvbType -> Attempt, spot: Spot)
      ensures Connected(start, 0, trials) == start && Newest(start, start, 0, spot) == spot
      ensures AllTried(start[..0]) && LockedStay(start, start)
    {}

    lemma NextTurn(start: seq<Tp>, now: seq<Tp>, after: seq<Tp>, index: nat, trials: nat -> DvbType -> Attempt,
                   spot: Spot)
      requires index < |start| && now == Connected(start, index, trials)
      requires LockedStay(start, now) && AllTried(now[..index])
      requires after == now[index := if now[index].kind == Unknown then Verdict(now, now[index], trials(index))
                                     else now[index]]
      ensures after == Connected(start, index + 1, trials) && now[index] == start[index]
      ensures LockedStay(start, after) && AllTried(after[..index + 1])
      ensures Newest(start, after, index + 1, spot) ==
                if inverted && NewAt(now, after, index) then Spot(after[index].freq, after[index].symRate, true)
                else Newest(start, now, index, spot)
    {
      hide FreqsBounded;
      ConnectedStep(start, index, trials);
      NewestOfFront(start, now, after, index, spot);
      VerdictTried(now, now[index], trials(index));
      hide Verdict, Duplicate;
      assert forall k | 0 <= k < index :: after[..index + 1][k] == now[..index][k];
    }

    lemma VerdictTried(list: seq<Tp>, entry: Tp, trial: DvbType -> Attempt)
      ensures Verdict(list, entry, trial).kind != Unknown
    {
      hide Duplicate;
    }

    /** What a mirrored sweep goes by after entries had their turn. */
    function Newest(before: seq<Tp>, after: seq<Tp>, n: nat, spot: Spot): Spot
      requires n <= |before| && n <= |after|
    {
      if inverted then NewestOf(before, after, n, spot) else spot
    }

    /* ---------- Comparing a finding with the list ---------- */

    predicate Mirrored() { inverted && demod == DS300X }

    predicate Appending(times: nat) {
      (times == FIRST_PASS || timesTotal == 1) && (!inverted || demod == DS3002B || demod == DS3103)
    }

    function Center(p: Peak, cur: nat): nat {
      Wrap32(cur + (if Mirrored() then -PeakOffset(p) else PeakOffset(p)) * 187)
    }

    /** Findings outside the band or outside the rates a pass looks for are dropped at once. */
    predicate Considered(p: Peak, cur: nat, times: nat) {
      var freq, rate := Center(p, cur), PeakRate(p);
      && freq >= 950000 && 2000 < rate <= 50000
      && !(rate < 10000 && times == FIRST_PASS && timesTotal > 1)
      && !(rate > 15000 && times == THIRD_PASS)
    }

    /** A mirrored window counts its first finding only when it lies well inside. */
    static predicate InsideWindow(freq: nat, rate: nat, center: nat) {
      && Wrap32(freq + rate / 2) <= Wrap32(center + WINDOW_WIDTH / 2 - 4000)
      && freq <= Wrap32(center + 7000)
    }

    /** The first finding of a mirrored window is one that is considered and lies well inside. */
    predicate First(p: Peak, cur: nat, times: nat) {
      Mirrored() && Considered(p, cur, times) && InsideWindow(Center(p, cur), StoredRate(PeakRate(p)), cur)
    }

    predicate AnyFirst(peaks: seq<Peak>, cur: nat, times: nat) {
      exists k | 0 <= k < |peaks| :: First(peaks[k], cur, times)
    }

    function Sighted(p: Peak, cur: nat, locked: bool): Spot
      requires PeakRate(p) > 2000
    {
      Spot(Center(p, cur), StoredRate(PeakRate(p)), locked)
    }

    /** The first finding of a mirrored window that lies well inside, if there is any. */
    function FirstOf(peaks: seq<Peak>, cur: nat, times: nat, locked: bool): Spot {
      if peaks == [] then Spot(0, 0, locked)
      else
        var n := |peaks| - 1;
        if !AnyFirst(peaks[..n], cur, times) && First(peaks[n], cur, times) then Sighted(peaks[n], cur, locked)
        else FirstOf(peaks[..n], cur, times, locked)
    }

    /** Every leftover slot behind the list is of some other kind than untried. */
    ghost predicate TailTried()
      reads list, list.tps
    {
      list.count <= list.tps.Length && forall k | list.count <= k < list.tps.Length :: list.tps[k].kind != Unknown
    }

    /** The list is within the stated capacity, and that within the array. */
    ghost predicate Roomy()
      reads list
    {
      list.count <= list.maxNum <= list.tps.Length && list.maxNum < 0x1_0000
    }

    /** How a finding went into the list. */
    ghost predicate Added(before: seq<Tp>, after: seq<Tp>, count: nat, tp: Tp, times: nat) {
      && 1 <= count <= |before| == |after|
      && if Appending(times) then after == before[..count - 1] + [tp] + before[count..]
         else Inserted(before, after, count, tp)
    }

    /** In single-cable operation a finding goes into an entry near it, and the count grows all the same. */
    predicate Merges(before: seq<Tp>, count: nat, freq: nat, rate: nat, times: nat)
      requires count <= |before|
    {
      unicable && !Appending(times) && TpList.NearFirst(before[..count], freq, rate)
    }

    /** What storing a finding does to the slots. */
    ghost predicate Stored(before: seq<Tp>, after: seq<Tp>, count: nat, freq: nat, rate: nat, times: nat) {
      && 1 <= count <= |before| == |after|
      && if Merges(before, count, freq, rate, times) then TpList.MergedInto(before, after, count, freq, rate)
         else Added(before, after, count, Found(freq, rate), times)
    }

    /**
     * Storing one more finding is refused, or goes outside the array: the list is at capacity, or the finding belongs
     * in front of an entry and the slot that entry would move to is not there.
     */
    predicate NoPlace(slots: seq<Tp>, n: nat, freq: nat, rate: nat, times: nat) {
      || n == list.maxNum
      || (n + 1 == list.maxNum == |slots| && !Appending(times) && Boundary(slots, freq) < |slots|
          && !(unicable && TpList.NearFirst(slots, freq, rate)))
    }

    /** Counts and stores a finding; once over capacity the 16-bit count has grown and nothing is stored. */
    method Add(freq: nat, rate: nat, times: nat) returns (ret: Ret)
      requires Roomy()
      modifies list`count, list.tps, `merged
      ensures list.count == Wrap16(old(list.count) + 1)
      ensures ret == NoMemory <==> list.count > list.maxNum
      ensures ret != Ok <==> NoPlace(old(list.tps[..]), old(list.count), freq, rate, times)
      ensures ret != Ok ==> list.tps[..] == old(list.tps[..])
      ensures ret == Ok ==> list.count == old(list.count) + 1 <= list.maxNum
      ensures ret == Ok ==> Stored(old(list.tps[..]), list.tps[..], list.count, freq, rate, times)
      ensures ret == Ok ==> (merged <==> old(merged) || Merges(old(list.tps[..]), list.count, freq, rate, times))
      ensures ret == Ok && old(TailTried()) ==> TailTried()
      ensures merged ==> old(merged) || unicable
    {
      list.count := Wrap16(list.count + 1);
      ghost var before := list.tps[..];
      assert list.count == list.tps.Length ==> list.tps[..list.count] == before;
      var append := (times == FIRST_PASS || timesTotal == 1) && (!inverted || demod == DS3002B || demod == DS3103);
      ret := list.SaveScannedTp(freq, rate, append, unicable);
      if ret == Ok {
        merged := merged || Merges(before, list.count, freq, rate, times);
        TailKept(before, list.tps[..], list.count);
        if Merges(before, list.count, freq, rate, times) {
          TailMerged(before, list.tps[..], list.count, freq, rate);
        }
      }
    }

    lemma TailMerged(before: seq<Tp>, after: seq<Tp>, count: nat, freq: nat, rate: nat)
      requires TpList.MergedInto(before, after, count, freq, rate)
      ensures |after| == |before| && after[count..] == before[count..]
    {}

    lemma AddedSound(before: seq<Tp>, after: seq<Tp>, count: nat, tp: Tp, times: nat, locked: nat)
      requires Added(before, after, count, tp, times) && Sound(before[..count - 1], locked)
      requires tp.kind == Unknown && tp.freq < FREQ_MAX
      ensures Sound(after[..count], locked)
    {
      hide Sound, Insert;
      var list := before[..count - 1];
      if Appending(times) {
        assert after[..count] == list + [tp];
        assert list[..count - 1] + [tp] + list[count - 1..] == list + [tp];
        GrownSound(list, count - 1, tp, locked);
      } else {
        var i := InsertPlace(list, tp);
        GrownSound(list, i, tp, locked);
      }
    }

    lemma TailKept(before: seq<Tp>, after: seq<Tp>, count: nat)
      requires 1 <= count <= |before| == |after|
      ensures (after[count..] == before[count..]
               || (count < |before| && after[count..] == [before[count - 1]] + before[count + 1..]))
              && (forall k | count - 1 <= k < |before| :: before[k].kind != Unknown)
              ==> forall k | count <= k < |after| :: after[k].kind != Unknown
    {
      forall k | count <= k < |after| ensures after[k] == after[count..][k - count] {}
    }

    /** A finding that overlaps a locked entry. */
    static predicate Overlaps(tp: Tp, freq: nat, rate: nat) {
      var covered := if rate > 6000 then 2 else 3;
      var reach := if rate > 25000 then 7000 else if rate > 10000 then 4000 else if rate > 5000 then 3000
                   else if rate > 3000 then 2000 else 1000;
      if freq >= tp.freq then
        && AsS32((tp.freq + tp.symRate / 2) - (freq - rate / 2)) >= rate / covered
        && AsS32(freq - tp.freq) <= reach
      else
        && AsS32((freq + rate / 2) - (tp.freq - tp.symRate / 2)) >= rate / covered
        && AsS32(tp.freq - freq) <= reach
    }

    /** A finding that looks like an entry already there. */
    static predicate Similar(tp: Tp, freq: nat, rate: nat) {
      var freqOffset := if rate > 25000 then 1000 else if rate > 10000 then 800 else 500;
      var rateOffset := if rate > 25000 then 400 else if rate > 10000 then 250 else if rate > 3000 then 200 else 100;
      AsS32(Distance(rate, tp.symRate)) <= rateOffset && AsS32(Distance(freq, tp.freq)) <= freqOffset
    }

    static predicate Skipped(tp: Tp, freq: nat, rate: nat) {
      if IsLocked(tp) then Overlaps(tp, freq, rate) else Similar(tp, freq, rate)
    }

    static predicate InRange(tp: Tp) { tp.freq < FREQ_MAX && tp.symRate < 0x1_0000 }

    /**
     * Of a finding's band all but a half lies on an entry's side of the entry's edge, a third up to 6000 KS/s, and
     * the centres are near, the nearer the lower the finding's rate.
     */
    static predicate Covered(tp: Tp, freq: nat, rate: nat) {
      var d := Distance(freq, tp.freq);
      && d + (if rate > 6000 then rate / 2 else rate / 3) <= tp.symRate / 2 + rate / 2
      && (d <= 1000 || (d <= 2000 && rate > 3000) || (d <= 3000 && rate > 5000) || (d <= 4000 && rate > 10000)
          || (d <= 7000 && rate > 25000))
    }

    /** Rate and centre nearly agree, the more nearly the lower the finding's rate. */
    static predicate Resembles(tp: Tp, freq: nat, rate: nat) {
      var d, e := Distance(freq, tp.freq), Distance(rate, tp.symRate);
      && (d <= 500 || (d <= 800 && rate > 10000) || (d <= 1000 && rate > 25000))
      && (e <= 100 || (e <= 200 && rate > 3000) || (e <= 250 && rate > 10000) || (e <= 400 && rate > 25000))
    }

    /** For entries in range the wrapping comparisons come to distances of centres and rates, the same on both sides. */
    static lemma SkippedIff(tp: Tp, freq: nat, rate: nat)
      requires InRange(tp) && freq < FREQ_MAX && 1600 <= rate <= 45000
      ensures Skipped(tp, freq, rate) <==> if IsLocked(tp) then Covered(tp, freq, rate) else Resembles(tp, freq, rate)
    {
      hide AsS32;
    }

    /** A locked entry's band or its centre is apart from the finding's; any other differs clearly in either respect. */
    static predicate Clear(tp: Tp, freq: nat, rate: nat) {
      if IsLocked(tp) then Distance(freq, tp.freq) > 7000 || Distance(freq, tp.freq) >= tp.symRate / 2 + rate / 2
      else Distance(freq, tp.freq) > 1000 || Distance(rate, tp.symRate) > 400
    }

    /** A finding's centre is near a locked entry's, and within its band; or it hardly differs from an entry. */
    static predicate Known(tp: Tp, freq: nat, rate: nat) {
      if IsLocked(tp) then Distance(freq, tp.freq) <= 1000 && Distance(freq, tp.freq) <= tp.symRate / 2
      else Distance(freq, tp.freq) <= 500 && Distance(rate, tp.symRate) <= 100
    }

    static lemma ClearOrKnown(tp: Tp, freq: nat, rate: nat)
      requires InRange(tp) && freq < FREQ_MAX && 1600 <= rate <= 45000
      ensures Clear(tp, freq, rate) ==> !Skipped(tp, freq, rate)
      ensures Known(tp, freq, rate) ==> Skipped(tp, freq, rate)
    {
      SkippedIff(tp, freq, rate);
      hide Skipped;
    }

    /** A finding lies wholly below an entry. */
    static predicate Below(tp: Tp, freq: nat, rate: nat) {
      Wrap32(freq + rate / 2) <= Wrap32(tp.freq - tp.symRate / 2)
    }

    /**
     * The slots a comparison stops at: the one it starts at, those of the list that were tried, and the one behind it
     * when none was tried at its end. Once the end was reached in a window, there is only the first.
     */
    static predicate Stop(slots: seq<Tp>, n: nat, from: nat, ended: bool, k: nat) {
      && from <= k < |slots|
      && (k == from
          || (!ended && (if k < n then slots[k].kind != Unknown
                         else k == n && from + 1 < n && slots[n - 1].kind == Unknown)))
    }

    /** The comparison gets to a slot unless the finding lies below an earlier one. */
    static ghost predicate Reached(slots: seq<Tp>, n: nat, from: nat, ended: bool, k: nat, freq: nat, rate: nat) {
      && Stop(slots, n, from, ended, k)
      && forall j | from <= j <= k :: Stop(slots, n, from, ended, j) ==> !Below(slots[j], freq, rate)
    }

    /** Some slot that the comparison gets to stands for the finding. */
    static ghost predicate Standing(slots: seq<Tp>, n: nat, from: nat, ended: bool, freq: nat, rate: nat) {
      exists k: nat :: Reached(slots, n, from, ended, k, freq, rate) && Skipped(slots[k], freq, rate)
    }

    /**
     * Once the end of the list was reached in a window, a finding is compared with a single slot, so one that repeats
     * any other entry is not recognised.
     */
    static lemma EndedComparesOne(slots: seq<Tp>, n: nat, from: nat, freq: nat, rate: nat)
      requires from < |slots|
      ensures Standing(slots, n, from, true, freq, rate) <==>
                !Below(slots[from], freq, rate) && Skipped(slots[from], freq, rate)
    {
      hide Below, Skipped;
      if !Below(slots[from], freq, rate) && Skipped(slots[from], freq, rate) {
        assert Reached(slots, n, from, true, from, freq, rate);
      }
    }

    /** So far the comparison found no entry that stands for the finding, nor one that it lies below. */
    static ghost predicate Passed(slots: seq<Tp>, n: nat, from: nat, ended: bool, i: nat, freq: nat, rate: nat) {
      && Stop(slots, n, from, ended, i)
      && forall j | from <= j < i :: Stop(slots, n, from, ended, j) ==>
           !Below(slots[j], freq, rate) && !Skipped(slots[j], freq, rate)
    }

    static lemma Decided(slots: seq<Tp>, n: nat, from: nat, ended: bool, i: nat, freq: nat, rate: nat)
      requires Passed(slots, n, from, ended, i, freq, rate)
      ensures Below(slots[i], freq, rate) ==> !Standing(slots, n, from, ended, freq, rate)
      ensures !Below(slots[i], freq, rate) && Skipped(slots[i], freq, rate) ==>
                Standing(slots, n, from, ended, freq, rate)
    {
      hide Below, Skipped;
      if !Below(slots[i], freq, rate) && Skipped(slots[i], freq, rate) {
        assert Reached(slots, n, from, ended, i, freq, rate);
      }
    }

    static lemma PassedOn(slots: seq<Tp>, n: nat, from: nat, i: nat, k: nat, freq: nat, rate: nat)
      requires Passed(slots, n, from, false, i, freq, rate) && i + 1 < n && i < k <= n && k < |slots|
      requires !Below(slots[i], freq, rate) && !Skipped(slots[i], freq, rate)
      requires slots[k].kind != Unknown && forall j | i < j < k :: slots[j].kind == Unknown
      ensures Passed(slots, n, from, false, k, freq, rate)
    {
      hide Below, Skipped;
    }

    static lemma PassedAll(slots: seq<Tp>, n: nat, from: nat, ended: bool, i: nat, freq: nat, rate: nat)
      requires Passed(slots, n, from, ended, i, freq, rate) && (ended ==> i == from)
      requires !Below(slots[i], freq, rate) && !Skipped(slots[i], freq, rate)
      requires ended || n <= i + 1 || (n == |slots| && forall j | i < j < n :: slots[j].kind == Unknown)
      ensures !Standing(slots, n, from, ended, freq, rate) && forall j: nat | i < j :: !Stop(slots, n, from, ended, j)
    {
      hide Below, Skipped;
    }

    /** Whether an entry stands for a finding. */
    static method StandsFor(tpA: Tp, freq: nat, rate: nat) returns (stands: bool)
      ensures stands <==> Skipped(tpA, freq, rate)
    {
      hide AsS32, Overlaps, Similar;
      if tpA.kind == DvbS || tpA.kind == DvbS2 {
        stands := OverlapsEntry(tpA, freq, rate);
      } else {
        stands := LooksLikeEntry(tpA, freq, rate);
      }
    }

    static method OverlapsEntry(tpA: Tp, freq: nat, rate: nat) returns (skip: bool)
      ensures skip <==> Overlaps(tpA, freq, rate)
    {
      hide AsS32;
      var coveredRatio := 3;
      if rate > 6000 {
        coveredRatio := 2;
      }
      var freqDelta := 1000;
      if rate > 25000 {
        freqDelta := 7000;
      } else if rate > 10000 {
        freqDelta := 4000;
      } else if rate > 5000 {
        freqDelta := 3000;
      } else if rate > 3000 {
        freqDelta := 2000;
      }
      var deltaFreq, shared: int;
      if freq >= tpA.freq {
        deltaFreq := AsS32(freq - tpA.freq);
        shared := AsS32((tpA.freq + tpA.symRate / 2) - (freq - rate / 2));
      } else {
        deltaFreq := AsS32(tpA.freq - freq);
        shared := AsS32((freq + rate / 2) - (tpA.freq - tpA.symRate / 2));
      }
      skip := shared >= rate / coveredRatio && deltaFreq <= freqDelta;
    }

    static method LooksLikeEntry(tpA: Tp, freq: nat, rate: nat) returns (skip: bool)
      ensures skip <==> Similar(tpA, freq, rate)
    {
      hide AsS32;
      var freqOffset, rateOffset := 500, 100;
      if rate > 25000 {
        freqOffset, rateOffset := 1000, 400;
      } else if rate > 10000 {
        freqOffset, rateOffset := 800, 250;
      } else if rate > 3000 {
        rateOffset := 200;
      }
      var deltaRate := AsS32(if rate >= tpA.symRate then rate - tpA.symRate else tpA.symRate - rate);
      var deltaFreq := AsS32(if freq >= tpA.freq then freq - tpA.freq else tpA.freq - freq);
      skip := deltaRate <= rateOffset && deltaFreq <= freqOffset;
    }

    /**
     * The next entry to compare with, if the list has one; the search may go on to the slot behind the list, or
     * behind the array.
     */
    method NextToCompare() returns (inside: bool)
      requires Roomy() && TailTried() && tpIndex <= list.count
      modifies `tpIndex, `lastTpA
      ensures inside <==> !(old(tpIndex) + 1 < list.count == list.tps.Length
                            && forall k | old(tpIndex) < k < list.count :: list.tps[k].kind == Unknown)
      ensures old(tpIndex) + 1 >= list.count ==> lastTpA && tpIndex == old(tpIndex)
      ensures inside && old(tpIndex) + 1 < list.count ==>
                && lastTpA == old(lastTpA) && old(tpIndex) < tpIndex <= list.count && tpIndex < list.tps.Length
                && list.tps[tpIndex].kind != Unknown
                && forall k | old(tpIndex) < k < tpIndex :: list.tps[k].kind == Unknown
    {
      var lastCheckIndex := tpIndex;
      tpIndex := tpIndex + 1;
      var i := tpIndex;
      while true
        invariant tpIndex == lastCheckIndex + 1 <= i
        invariant tpIndex < list.count ==> i <= list.count
        invariant lastTpA == old(lastTpA)
        invariant i > tpIndex ==> tpIndex < list.count
        invariant forall k | tpIndex <= k < i :: list.tps[k].kind == Unknown
        decreases list.count + 2 - i
      {
        if tpIndex >= list.count {
          lastTpA := true;
          tpIndex := lastCheckIndex;
          return true;
        }
        if i == list.tps.Length {
          return false;
        }
        if list.tps[i].kind != Unknown {
          tpIndex := i;
          return true;
        }
        i := i + 1;
      }
    }

    /** After an insertion the index is moved to the first entry of the frequency it stood at. */
    method Reindex(freqA: nat)
      requires list.count <= list.tps.Length
      modifies `tpIndex
      ensures Reindexed(list.tps[..], list.count, freqA, old(tpIndex), tpIndex)
      ensures tpIndex <= list.count || tpIndex == old(tpIndex)
    {
      for i := 0 to list.count
        invariant tpIndex == old(tpIndex)
        invariant forall k | 0 <= k < i :: list.tps[k].freq != freqA
      {
        if list.tps[i].freq == freqA {
          tpIndex := i;
          return;
        }
      }
    }

    /** Findings that go on to be compared: considered, and not before the first inside a mirrored window. */
    predicate Judged(p: Peak, cur: nat, times: nat, found: bool) {
      Considered(p, cur, times) && (Mirrored() && !found ==> First(p, cur, times))
    }

    /** The finding and the slots it may be compared with are within their bounds. */
    predicate AllInRange(slots: seq<Tp>, n: nat, p: Peak, cur: nat) {
      Center(p, cur) < FREQ_MAX && forall k | 0 <= k <= n && k < |slots| :: InRange(slots[k])
    }

    /** No entry is near a finding. */
    predicate AllClear(slots: seq<Tp>, n: nat, p: Peak, cur: nat)
      requires PeakRate(p) > 2000
    {
      forall k | 0 <= k <= n && k < |slots| :: Clear(slots[k], Center(p, cur), StoredRate(PeakRate(p)))
    }

    /** The comparison gets to an entry that the finding hardly differs from. */
    ghost predicate GetsToKnown(slots: seq<Tp>, n: nat, from: nat, ended: bool, p: Peak, cur: nat)
      requires PeakRate(p) > 2000
    {
      exists k: nat ::
        && Reached(slots, n, from, ended, k, Center(p, cur), StoredRate(PeakRate(p)))
        && Known(slots[k], Center(p, cur), StoredRate(PeakRate(p)))
    }

    /**
     * Which of the findings that are compared are dropped: none that is clear of every entry, and in later passes
     * those that are known and all others that an entry stands for.
     */
    ghost predicate FairlyDropped(slots: seq<Tp>, n: nat, from: nat, ended: bool, p: Peak, cur: nat, times: nat,
                                  found: bool, dropped: bool) {
      Judged(p, cur, times, found) ==>
        && (AllInRange(slots, n, p, cur) && AllClear(slots, n, p, cur) ==> !dropped)
        && (times == FIRST_PASS || timesTotal == 1 ==> !dropped)
        && (times != FIRST_PASS && timesTotal != 1 ==>
              && (AllInRange(slots, n, p, cur) && GetsToKnown(slots, n, from, ended, p, cur) ==> dropped)
              && (dropped <==> Standing(slots, n, from, ended, Center(p, cur), StoredRate(PeakRate(p)))))
    }

    lemma FairlyDroppedIff(slots: seq<Tp>, n: nat, from: nat, ended: bool, p: Peak, cur: nat, times: nat, found: bool,
                           dropped: bool)
      requires from <= n && Judged(p, cur, times, found)
      requires dropped <==> times != FIRST_PASS && timesTotal != 1
                            && Standing(slots, n, from, ended, Center(p, cur), StoredRate(PeakRate(p)))
      ensures FairlyDropped(slots, n, from, ended, p, cur, times, found, dropped)
    {
      hide Clear, Known, Skipped, InRange, Center, StoredRate, Below, PeakRate, First;
      RateStored(PeakRate(p));
      var freq, rate := Center(p, cur), StoredRate(PeakRate(p));
      if AllInRange(slots, n, p, cur) {
        forall k | 0 <= k <= n && k < |slots|
          ensures Clear(slots[k], freq, rate) ==> !Skipped(slots[k], freq, rate)
          ensures Known(slots[k], freq, rate) ==> Skipped(slots[k], freq, rate)
        {
          ClearOrKnown(slots[k], freq, rate);
        }
      }
    }

    static lemma RateStored(rate: nat)
      requires 2000 < rate <= 50000
      ensures 1600 <= StoredRate(rate) <= 45000
    {}

    /** A finding that is compared and clear of every entry enters the list, whatever the pass. */
    lemma ClearFindingAdded(before: seq<Tp>, n: nat, after: seq<Tp>, m: nat, p: Peak, cur: nat, times: nat,
                            found: bool)
      requires Dealt(before, n, after, m, p, cur, times, found) && Judged(p, cur, times, found)
      requires AllInRange(before, n, p, cur) && AllClear(before, n, p, cur)
      ensures m == n + 1 && Stored(before, after, m, Center(p, cur), StoredRate(PeakRate(p)), times)
    {
      hide Clear, Skipped, InRange, Center, First, Stored;
      if m == n {
        var freq, rate := Center(p, cur), StoredRate(PeakRate(p));
        var k :| 0 <= k <= n && k < |before| && Skipped(before[k], freq, rate);
        ClearOrKnown(before[k], freq, rate);
        assert false;
      }
    }

    /**
     * How one finding changes the slots and the count. It is added behind the list or at its place by frequency, or
     * it is dropped: because it is not considered, because no finding of a mirrored window was inside yet and neither
     * is this one, or, in later passes, because an entry stands for it already.
     */
    ghost predicate Dealt(before: seq<Tp>, n: nat, after: seq<Tp>, m: nat, p: Peak, cur: nat, times: nat, found: bool) {
      && n <= |before| == |after| && (m == n || m == n + 1)
      && (m == n + 1 ==> Judged(p, cur, times, found))
      && (m == n + 1 ==> Stored(before, after, m, Center(p, cur), StoredRate(PeakRate(p)), times))
      && (m == n ==> after == before)
      && (m == n && Judged(p, cur, times, found) ==>
            && times != FIRST_PASS && timesTotal != 1
            && exists k | 0 <= k <= n && k < |before| :: Skipped(before[k], Center(p, cur), StoredRate(PeakRate(p))))
    }

    /**
     * A finding that cannot be dealt with: there is no place for it, or the comparison would look behind a full
     * array.
     */
    predicate Refused(slots: seq<Tp>, n: nat, p: Peak, cur: nat, times: nat) {
      || n == list.maxNum == |slots|
      || (Considered(p, cur, times) && NoPlace(slots, n, Center(p, cur), StoredRate(PeakRate(p)), times))
    }

    /** Compares one finding with the list and adds it unless some entry stands for it already. */
    method CompareDeal(p: Peak, cur: nat, times: nat) returns (ret: Ret, ghost halt: nat)
      requires Roomy() && TailTried() && tpIndex <= list.count && windowCenter == cur
      modifies list`count, list.tps, `tpIndex, `lastTpA, `firstFound, `firstFreq, `firstSymRate, `merged
      ensures ret == Ok ==>
                Dealt(old(list.tps[..]), old(list.count), list.tps[..], list.count, p, cur, times, old(firstFound))
      ensures ret == Ok ==> (firstFound <==> old(firstFound) || First(p, cur, times))
      ensures ret == Ok ==>
                Remembered() == if !old(firstFound) && First(p, cur, times) then Sighted(p, cur, firstLocked)
                                else old(Remembered())
      ensures ret == Ok ==>
                (merged <==> old(merged) || Merging(old(list.tps[..]), old(list.count), list.count, p, cur, times))
      ensures ret == Ok ==> list.count <= list.maxNum && TailTried() && tpIndex <= list.count
      ensures ret != Ok ==> Refused(old(list.tps[..]), old(list.count), p, cur, times)
      ensures FairlyDropped(old(list.tps[..]), old(list.count), old(tpIndex), old(lastTpA), p, cur, times,
                            old(firstFound), ret == Ok && list.count == old(list.count))
      ensures ret == Ok && Judged(p, cur, times, old(firstFound)) && times != FIRST_PASS && timesTotal != 1 ==>
                Resumes(old(list.tps[..]), old(list.count), old(tpIndex), old(lastTpA), halt, Center(p, cur),
                        StoredRate(PeakRate(p)), list.tps[..], list.count, tpIndex, lastTpA)
      ensures !Judged(p, cur, times, old(firstFound)) || times == FIRST_PASS || timesTotal == 1 ==>
                tpIndex == old(tpIndex) && lastTpA == old(lastTpA)
      ensures ret == NoMemory ==> list.count == list.maxNum + 1 && Considered(p, cur, times)
      ensures ret != Ok ==> list.tps[..] == old(list.tps[..])
      ensures merged ==> old(merged) || unicable
    {
      hide Merges, Added, TpList.MergedInto, NoPlace, Considered, Center, PeakRate, StoredRate, Wrap32, Standing,
        Stored, Skipped, FairlyDropped, TailTried, Resumes;
      ghost var slots, n, from, ended, found := list.tps[..], list.count, tpIndex, lastTpA, firstFound;
      halt := 0;
      if tpIndex == list.tps.Length {
        NothingStands(slots, n, from, ended, p, cur, times, found);
        return OutOfBounds, 0;
      }
      var considered, freq, rate := ReadFinding(p, cur, times);
      if !considered {
        NotJudged(slots, n, from, ended, p, cur, times, found);
        return Ok, 0;
      }
      if inverted && demod == DS300X && !firstFound {
        if Wrap32(freq + rate / 2) <= Wrap32(windowCenter + WINDOW_WIDTH / 2 - 4000)
           && freq <= Wrap32(windowCenter + 7000) {
          firstFound, firstFreq, firstSymRate := true, freq, rate;
        } else {
          NotJudged(slots, n, from, ended, p, cur, times, found);
          return Ok, 0;
        }
      }
      if times == FIRST_PASS || timesTotal == 1 {
        ret := Add(freq, rate, times);
        FairlyDroppedIff(slots, n, from, ended, p, cur, times, found, false);
        return;
      }
      if Standing(slots, n, from, ended, freq, rate) {
        StandingSkips(slots, n, from, ended, freq, rate);
      }
      ret, halt := CompareOn(freq, rate, times);
      FairlyDroppedIff(slots, n, from, ended, p, cur, times, found, ret == Ok && list.count == n);
    }

    lemma NotJudged(slots: seq<Tp>, n: nat, from: nat, ended: bool, p: Peak, cur: nat, times: nat, found: bool)
      requires !Judged(p, cur, times, found)
      ensures FairlyDropped(slots, n, from, ended, p, cur, times, found, true)
    {}

    static lemma StandingSkips(slots: seq<Tp>, n: nat, from: nat, ended: bool, freq: nat, rate: nat)
      requires from <= n && Standing(slots, n, from, ended, freq, rate)
      ensures exists k | 0 <= k <= n && k < |slots| :: Skipped(slots[k], freq, rate)
    {
      hide Skipped, Below;
    }

    /** Reads a finding from its four octets; most that cannot be broadcasts are dropped at once. */
    method ReadFinding(p: Peak, cur: nat, times: nat) returns (considered: bool, freq: nat, rate: nat)
      ensures considered <==> Considered(p, cur, times)
      ensures considered ==>
                2000 < PeakRate(p) <= 50000 && freq == Center(p, cur) && rate == StoredRate(PeakRate(p))
    {
      rate := (256 * (p.r4 as int % 4) + p.r3) * 96000 / 512;
      var bin := 256 * (p.r2 as int % 4) + p.r1;
      if bin >= 512 {
        bin := bin - 1024;
      }
      if inverted && demod == DS300X {
        bin := -bin;
      }
      freq := Wrap32(cur + bin * (96000 / 512));
      if freq < 950000 || rate > 50000 || rate <= 2000 {
        return false, 0, 0;
      }
      if rate < 10000 && times == FIRST_PASS && timesTotal > 1 {
        return false, 0, 0;
      }
      if rate > 15000 && times == THIRD_PASS {
        return false, 0, 0;
      }
      if rate > 45000 {
        rate := 45000;
      } else {
        rate := rate - 400;
      }
      considered := true;
    }

    lemma NothingStands(slots: seq<Tp>, n: nat, from: nat, ended: bool, p: Peak, cur: nat, times: nat, found: bool)
      requires from == |slots| && from <= n
      ensures FairlyDropped(slots, n, from, ended, p, cur, times, found, false)
    {
      if Judged(p, cur, times, found) {
        FairlyDroppedIff(slots, n, from, ended, p, cur, times, found, false);
      }
    }

    /** Adds a finding that lies below the current entry, and goes back to the entry in front of that one. */
    method AddBelow(freq: nat, rate: nat, times: nat) returns (ret: Ret)
      requires Roomy() && TailTried() && tpIndex <= list.count && tpIndex < list.tps.Length
      modifies list`count, list.tps, `tpIndex, `merged
      ensures ret == NoMemory ==> list.count == list.maxNum + 1
      ensures ret != Ok ==> NoPlace(old(list.tps[..]), old(list.count), freq, rate, times)
      ensures ret != Ok ==> list.tps[..] == old(list.tps[..])
      ensures ret == Ok ==> list.count == old(list.count) + 1 <= list.maxNum && TailTried() && tpIndex <= list.count
      ensures ret == Ok ==> Stored(old(list.tps[..]), list.tps[..], list.count, freq, rate, times)
      ensures ret == Ok ==> (merged <==> old(merged) || Merges(old(list.tps[..]), list.count, freq, rate, times))
      ensures ret == Ok ==>
                Reindexed(list.tps[..], list.count, old(list.tps[Before(tpIndex)]).freq, Before(old(tpIndex)), tpIndex)
      ensures merged ==> old(merged) || unicable
    {
      hide Stored, Merges, NoPlace, TailTried, Reindexed;
      tpIndex := if tpIndex > 0 then tpIndex - 1 else 0;
      var freqA := list.tps[tpIndex].freq;
      ret := Add(freq, rate, times);
      if ret == Ok {
        Reindex(freqA);
      }
    }

    /** The loop over the entries to compare with. */
    method CompareOn(freq: nat, rate: nat, times: nat) returns (ret: Ret, ghost halt: nat)
      requires Roomy() && TailTried() && tpIndex <= list.count && tpIndex < list.tps.Length
      modifies list`count, list.tps, `tpIndex, `lastTpA, `merged
      ensures ret == Ok ==> list.count <= list.maxNum && TailTried() && tpIndex <= list.count
      ensures ret == Ok ==> list.count == old(list.count) || list.count == old(list.count) + 1
      ensures ret == Ok && list.count == old(list.count) + 1 ==>
                && Stored(old(list.tps[..]), list.tps[..], list.count, freq, rate, times)
                && (merged <==> old(merged) || Merges(old(list.tps[..]), list.count, freq, rate, times))
      ensures ret == Ok && list.count == old(list.count) ==>
               list.tps[..] == old(list.tps[..]) && merged == old(merged)
      ensures ret == Ok && list.count == old(list.count) <==>
                Standing(old(list.tps[..]), old(list.count), old(tpIndex), old(lastTpA), freq, rate)
      ensures ret == Ok ==>
                Resumes(old(list.tps[..]), old(list.count), old(tpIndex), old(lastTpA), halt, freq, rate,
                        list.tps[..], list.count, tpIndex, lastTpA)
      ensures ret == NoMemory ==> list.count == list.maxNum + 1
      ensures ret != Ok ==>
                || old(list.count) == list.maxNum == list.tps.Length
                || NoPlace(old(list.tps[..]), old(list.count), freq, rate, times)
      ensures ret != Ok ==> list.tps[..] == old(list.tps[..])
      ensures merged ==> old(merged) || unicable
    {
      hide Stored, Merges, Skipped, NoPlace, Passed, Standing, Wrap32, TailTried, Stop, Reindexed;
      ghost var slots, n, from, ended := list.tps[..], list.count, tpIndex, lastTpA;
      StartPassed(slots, n, from, ended, freq, rate);
      halt := from;
      while true
        invariant list.count == n && list.tps[..] == slots && merged == old(merged)
        invariant Roomy() && TailTried() && from <= tpIndex <= list.count && tpIndex < list.tps.Length
        invariant Passed(slots, n, from, ended, tpIndex, freq, rate) && lastTpA == ended && (ended ==> tpIndex == from)
        decreases list.count - tpIndex
      {
        var tpA := list.tps[tpIndex];
        halt := tpIndex;
        Decided(slots, n, from, ended, halt, freq, rate);
        if Wrap32(freq + rate / 2) <= Wrap32(tpA.freq - tpA.symRate / 2) {
          ret := AddBelow(freq, rate, times);
          return;
        }
        var stands := StandsFor(tpA, freq, rate);
        if stands {
          return Ok, halt;
        }
        var lastCheckIndex := tpIndex;
        var inside := NextToCompare();
        if !inside {
          PassedAll(slots, n, from, ended, halt, freq, rate);
          return OutOfBounds, halt;
        }
        if lastTpA {
          PassedAll(slots, n, from, ended, halt, freq, rate);
          tpIndex := lastCheckIndex;
          ret := Add(freq, rate, times);
          return;
        }
        PassedOn(slots, n, from, halt, tpIndex, freq, rate);
      }
    }

    /** The first entry of a frequency, if the list has one. */
    static ghost predicate Reindexed(slots: seq<Tp>, n: nat, freq: nat, before: nat, index: nat)
      requires n <= |slots|
    {
      if exists k | 0 <= k < n :: slots[k].freq == freq
      then index < n && slots[index].freq == freq && forall k | 0 <= k < index :: slots[k].freq != freq
      else index == before
    }

    /** Where the entry before a slot is. */
    static function Before(k: nat): nat { if k > 0 then k - 1 else 0 }

    /**
     * Where the next finding's comparison starts: at the entry that stands for this one, in front of the one it lies
     * below, wherever that is after the insertion, or at the last stop, and then the end was reached.
     */
    static ghost predicate Resumes(slots: seq<Tp>, n: nat, from: nat, ended: bool, k: nat, freq: nat, rate: nat,
                                   after: seq<Tp>, m: nat, index: nat, last: bool)
      requires m <= |after|
    {
      && Passed(slots, n, from, ended, k, freq, rate)
      && if Below(slots[k], freq, rate)
         then last == ended && Before(k) < |slots| && Reindexed(after, m, slots[Before(k)].freq, Before(k), index)
         else if Skipped(slots[k], freq, rate) then last == ended && index == k
         else last && index == k && forall j: nat | k < j :: !Stop(slots, n, from, ended, j)
    }

    static lemma StartPassed(slots: seq<Tp>, n: nat, from: nat, ended: bool, freq: nat, rate: nat)
      requires from < |slots|
      ensures Passed(slots, n, from, ended, from, freq, rate)
    {}

    /** Dealing with a finding means merging it. */
    ghost predicate Merging(before: seq<Tp>, n: nat, m: nat, p: Peak, cur: nat, times: nat)
      requires m == n + 1 ==> m <= |before|
    {
      m == n + 1 && Considered(p, cur, times) && Merges(before, m, Center(p, cur), StoredRate(PeakRate(p)), times)
    }

    /* ---------- Sweeping the band ---------- */

    /** The findings of a window are dealt with one after the other. */
    ghost predicate Collected(before: seq<Tp>, n: nat, after: seq<Tp>, m: nat, peaks: seq<Peak>, cur: nat, times: nat)
      decreases |peaks|
    {
      if peaks == [] then after == before && m == n
      else
        var k := |peaks| - 1;
        exists mid: seq<Tp>, i: nat ::
          && Collected(before, n, mid, i, peaks[..k], cur, times)
          && Dealt(mid, i, after, m, peaks[k], cur, times, AnyFirst(peaks[..k], cur, times))
    }

    lemma CollectedStep(before: seq<Tp>, n: nat, mid: seq<Tp>, i: nat, after: seq<Tp>, m: nat, peaks: seq<Peak>,
                        k: nat, cur: nat, times: nat)
      requires k < |peaks| && Collected(before, n, mid, i, peaks[..k], cur, times)
      requires Dealt(mid, i, after, m, peaks[k], cur, times, AnyFirst(peaks[..k], cur, times))
      ensures Collected(before, n, after, m, peaks[..k + 1], cur, times)
    {
      hide Dealt;
      assert peaks[..k + 1][..k] == peaks[..k];
    }

    /** Collecting neither loses nor moves a locked entry. */
    lemma {:induction false} CollectedKeepsLocked(before: seq<Tp>, n: nat, after: seq<Tp>, m: nat, peaks: seq<Peak>,
                                                  cur: nat, times: nat)
      requires !unicable && n <= |before| && Collected(before, n, after, m, peaks, cur, times)
      ensures n <= m <= |after| == |before| && LockedOnly(after[..m]) == LockedOnly(before[..n])
      decreases |peaks|
    {
      if peaks != [] {
        var k := |peaks| - 1;
        var mid: seq<Tp>, i: nat :|
          && Collected(before, n, mid, i, peaks[..k], cur, times)
          && Dealt(mid, i, after, m, peaks[k], cur, times, AnyFirst(peaks[..k], cur, times));
        CollectedKeepsLocked(before, n, mid, i, peaks[..k], cur, times);
        if m == i + 1 {
          AddedKeepsLocked(mid, after, m, Found(Center(peaks[k], cur), StoredRate(PeakRate(peaks[k]))), times);
        }
      }
    }

    lemma AddedKeepsLocked(before: seq<Tp>, after: seq<Tp>, count: nat, tp: Tp, times: nat)
      requires Added(before, after, count, tp, times) && !IsLocked(tp)
      ensures LockedOnly(after[..count]) == LockedOnly(before[..count - 1])
    {
      hide LockedOnly, Insert;
      var list := before[..count - 1];
      if Appending(times) {
        assert after[..count] == list + [tp];
        assert list[..count - 1] + [tp] + list[count - 1..] == list + [tp];
        GrownLocked(list, count - 1, tp);
      } else {
        var i := InsertPlace(list, tp);
        GrownLocked(list, i, tp);
      }
    }

    /** A window is cut short: its findings are dealt with up to one that is refused. */
    ghost predicate CutWindow(before: seq<Tp>, n: nat, after: seq<Tp>, peaks: seq<Peak>, cur: nat, times: nat) {
      exists k: nat, i: nat ::
        k < |peaks| && Collected(before, n, after, i, peaks[..k], cur, times) && Refused(after, i, peaks[k], cur, times)
    }

    /** All findings of one window are compared with the list; false means that one of them was refused. */
    method ProcessWindow(peaks: seq<Peak>, cur: nat, times: nat) returns (fits: bool)
      requires Roomy() && TailTried() && Booked() && 946000 <= cur <= 2300000 && windowCenter == cur
      modifies list`count, list.tps, `tpIndex, `lastTpA, `firstFound, `firstFreq, `firstSymRate, `merged
      ensures fits ==> Roomy() && TailTried() && Booked()
      ensures fits ==> Collected(old(list.tps[..]), old(list.count), list.tps[..], list.count, peaks, cur, times)
      ensures fits ==> list.count >= old(list.count)
      ensures fits && list.count == old(list.count) ==> list.tps[..] == old(list.tps[..])
      ensures fits ==> Remembered() == FirstOf(peaks, cur, times, firstLocked)
      ensures !fits ==> CutWindow(old(list.tps[..]), old(list.count), list.tps[..], peaks, cur, times)
      ensures merged ==> unicable
    {
      hide Collected, Sound, Added, Merges, Center, First, Refused, FirstOf, AnyFirst;
      firstFound, firstSymRate, firstFreq := false, 0, 0;
      tpIndex, lastTpA := 0, false;
      NothingCollected(list.tps[..], list.count, peaks, cur, times);
      NothingFound(peaks, cur, times, firstLocked);
      for k := 0 to |peaks|
        invariant Roomy() && TailTried() && Booked() && tpIndex <= list.count
        invariant firstFound <==> AnyFirst(peaks[..k], cur, times)
        invariant Remembered() == FirstOf(peaks[..k], cur, times, firstLocked)
        invariant list.count >= old(list.count)
        invariant list.count == old(list.count) ==> list.tps[..] == old(list.tps[..])
        invariant Collected(old(list.tps[..]), old(list.count), list.tps[..], list.count, peaks[..k], cur, times)
      {
        ghost var before := list.tps[..];
        var n := list.count;
        var ret, _ := CompareDeal(peaks[k], cur, times);
        if ret != Ok {
          assert Collected(old(list.tps[..]), old(list.count), list.tps[..], n, peaks[..k], cur, times);
          return false;
        }
        AnyFirstGrows(peaks, k, cur, times);
        FirstOfGrows(peaks, k, cur, times, firstLocked);
        CollectedStep(old(list.tps[..]), old(list.count), before, n, list.tps[..], list.count, peaks, k, cur, times);
        if !merged && list.count > n {
          CenterInRange(peaks[k], cur);
          AddedSound(before, list.tps[..], list.count, Found(Center(peaks[k], cur), StoredRate(PeakRate(peaks[k]))),
                     times, lockedCount);
        }
      }
      assert peaks[..|peaks|] == peaks;
      fits := true;
    }

    lemma AnyFirstGrows(peaks: seq<Peak>, k: nat, cur: nat, times: nat)
      requires k < |peaks|
      ensures AnyFirst(peaks[..k + 1], cur, times) <==> AnyFirst(peaks[..k], cur, times) || First(peaks[k], cur, times)
    {
      hide First;
      var less, more := peaks[..k], peaks[..k + 1];
      assert more[k] == peaks[k] && forall j | 0 <= j < k :: more[j] == less[j];
    }

    lemma NothingFound(peaks: seq<Peak>, cur: nat, times: nat, locked: bool)
      ensures FirstOf(peaks[..0], cur, times, locked) == Spot(0, 0, locked) && !AnyFirst(peaks[..0], cur, times)
    {}

    lemma FirstOfGrows(peaks: seq<Peak>, k: nat, cur: nat, times: nat, locked: bool)
      requires k < |peaks|
      ensures FirstOf(peaks[..k + 1], cur, times, locked) ==
                if !AnyFirst(peaks[..k], cur, times) && First(peaks[k], cur, times)
                then Sighted(peaks[k], cur, locked) else FirstOf(peaks[..k], cur, times, locked)
    {
      hide First, AnyFirst;
      assert peaks[..k + 1][..k] == peaks[..k];
    }

    lemma NothingCollected(slots: seq<Tp>, n: nat, peaks: seq<Peak>, cur: nat, times: nat)
      ensures Collected(slots, n, slots, n, peaks[..0], cur, times)
    {}

    lemma CenterInRange(p: Peak, cur: nat)
      requires 946000 <= cur <= 2300000
      ensures Center(p, cur) < FREQ_MAX
    {}

    function Clamped(delta: int, most: int): (step: nat)
      ensures 4000 <= step
      ensures most >= 8000 ==> step <= most - 4000
    {
      var capped := if delta > most then most else delta;
      (if capped < 8000 then 8000 else capped) - 4000
    }

    /** How far the first finding's upper edge lies above the window's lower edge. */
    function Reach(): int
      reads `firstFreq, `firstSymRate, `windowCenter
    {
      AsS32(firstFreq + firstSymRate / 2 - (windowCenter - WINDOW_WIDTH / 2))
    }

    /** How far a mirrored window with findings moves on, when each window is tried at once. */
    function SlideA(): (step: nat)
      reads `firstLocked, `firstFreq, `firstSymRate, `windowCenter
      ensures 4000 <= step <= 20000
    {
      if firstLocked then Clamped(Reach(), 24000)
      else if firstFreq != 0 && firstSymRate != 0 then Clamped(Reach(), 20000)
      else Clamped(8000, 20000)
    }

    /** The same when locking waits for the end of the sweep. */
    function SlideB(): (step: nat)
      reads `firstFreq, `firstSymRate, `windowCenter
      ensures 4000 <= step <= 16000
    {
      if firstFreq != 0 && firstSymRate != 0 then Clamped(if Reach() > 24000 then Reach() - 12000 else Reach(), 20000)
      else Clamped(8000, 20000)
    }

    /** Where the tuner really goes. */
    function Entered(freq: nat, ub: nat): nat {
      if unicable then Retuned(freq, ub) else freq
    }

    /** Tunes to a window and remembers where it is. */
    method EnterWindow(freq: nat, ub: nat) returns (center: nat)
      requires 950000 <= freq <= 2300000 && ub < 0x8000_0000
      modifies `firstFreq, `firstSymRate, `firstLocked, `windowCenter
      ensures center == Entered(freq, ub) && windowCenter == center
      ensures freq - 3999 <= center <= freq && (!unicable ==> center == freq) && !firstLocked
    {
      RetunedClose(freq, ub);
      center := freq;
      if unicable {
        var grid := Wrap32(freq / 1000 + ub) / 4 * 4;
        center := Wrap32(Wrap32(grid - ub) * 1000);
      }
      firstFreq, firstSymRate, firstLocked := center, 40000, false;
      windowCenter := center;
    }

    /** The step to the next window of sweep A. */
    function StepA(w: Window): (step: nat)
      reads `firstLocked, `firstFreq, `firstSymRate, `windowCenter
    {
      if !Mirrored() then PlainStep(w, unicable) else if w.r9a % 32 == 0 then EmptyStep(w) else SlideA()
    }

    /** The step to the next window of sweep B. */
    function StepB(w: Window): (step: nat)
      reads `firstFreq, `firstSymRate, `windowCenter
    {
      if !Mirrored() then PlainStep(w, unicable) else if w.r9a % 32 == 0 then Lesser(EmptyStep(w), 20000) else SlideB()
    }

    method MovePlain(w: Window) returns (step: nat)
      ensures step == PlainStep(w, unicable) && (unicable ==> step >= 4000) && 0 < step <= 96000
    {
      step := ((w.r95 as int) / 64 * 256 + w.r96) * 96000 / 512;
      if step > 96000 {
        step := 10000;
      }
      if unicable && step < 4000 && step != 0 {
        step := 4000;
      }
      if step == 0 {
        step := 36000;
      }
    }

    method MoveEmpty(w: Window) returns (step: nat)
      ensures step == EmptyStep(w) && 8000 <= step <= 24000
    {
      var val := (w.r95 as int) / 64 * 256 + w.r96;
      var shift := (w.r91 as int) / 32 % 4;
      var threshold := if shift == 0 then 48 else if shift == 1 then 96 else if shift == 2 then 192 else 384;
      if val >= threshold {
        step := threshold * 96000 / 512;
        step := step - 1000;
      } else {
        step := val * 96000 / 512;
      }
      if step < 8000 {
        step := 8000;
      } else if step > 24000 {
        step := 24000;
      }
    }

    /** The step that does not wait for what locks; there is none after findings in a mirrored window. */
    method MoveOn(w: Window) returns (found: bool, step: nat)
      ensures found <==> Mirrored() && w.r9a % 32 != 0
      ensures if found then step == 0
              else step == (if Mirrored() then EmptyStep(w) else PlainStep(w, unicable))
                   && 0 < step <= 96000 && (unicable ==> step >= 4000)
    {
      hide EmptyStep, PlainStep;
      found, step := false, 0;
      if inverted && demod == DS300X {
        if w.r9a % 32 == 0 {
          step := MoveEmpty(w);
        } else {
          found := true;
        }
      } else {
        step := MovePlain(w);
      }
    }

    method MoveFoundA() returns (step: nat)
      ensures step == SlideA()
    {
      hide AsS32;
      var delta: int := 8000;
      if firstLocked {
        delta := AsS32(firstFreq + firstSymRate / 2 - (windowCenter - WINDOW_WIDTH / 2));
        if delta > 24000 {
          delta := 24000;
        }
      } else if firstFreq != 0 && firstSymRate != 0 {
        delta := AsS32(firstFreq + firstSymRate / 2 - (windowCenter - WINDOW_WIDTH / 2));
        if delta > 20000 {
          delta := 20000;
        }
      }
      if delta < 8000 {
        delta := 8000;
      }
      step := delta - 4000;
    }

    method MoveFoundB() returns (step: nat)
      ensures step == SlideB()
    {
      hide AsS32;
      var delta: int := 8000;
      if firstFreq != 0 && firstSymRate != 0 {
        delta := AsS32(firstFreq + firstSymRate / 2 - (windowCenter - WINDOW_WIDTH / 2));
        if delta > 24000 {
          delta := delta - 12000;
        }
        if delta > 20000 {
          delta := 20000;
        }
      }
      if delta < 8000 {
        delta := 8000;
      }
      step := delta - 4000;
    }

    /**
     * One pass of sweep A: the findings are collected, and once there is any beyond those seen before, all untried
     * ones are tried.
     */
    ghost predicate PassedA(before: seq<Tp>, n: nat, after: seq<Tp>, m: nat, seen: nat, nowSeen: nat, w: Window,
                            center: nat, times: nat) {
      exists mid :: Collected(before, n, mid, m, w.peaks, center, times) && |mid| == |after| && m <= |mid|
        && nowSeen == (if seen < m then m else seen)
        && after == if seen < m then Connected(mid[..m], m, w.trials) + mid[m..] else mid
    }

    /** Once there is any finding beyond those seen before, all untried ones are tried. */
    method TryNew(scanned: nat, w: Window) returns (nowScanned: nat)
      requires Booked() && TailTried() && WindowValid(w)
      modifies list.tps, `lockedCount, `tpNum, `firstLocked, `firstFreq, `firstSymRate
      ensures Booked() && TailTried() && nowScanned == if scanned < list.count then list.count else scanned
      ensures list.tps[..] == if scanned < list.count
                              then Connected(old(Findings()), list.count, w.trials) + old(list.tps[list.count..])
                              else old(list.tps[..])
      ensures scanned < list.count ==> AllTried(Findings())
      ensures Remembered() == if scanned < list.count
                              then Newest(old(Findings()), Findings(), list.count, old(Remembered()))
                              else old(Remembered())
    {
      hide Connected, Sound, FairTurns, FreqsBounded, NewestOf;
      nowScanned := scanned;
      if nowScanned < list.count {
        nowScanned := list.count;
        Connect(w.trials);
        assert list.tps[..] == list.tps[..list.count] + list.tps[list.count..];
        ghost var behind := old(list.tps[list.count..]);
        assert list.tps[list.count..] == behind;
        assert forall k | list.count <= k < list.tps.Length :: list.tps[k] == behind[k - list.count];
      }
    }

    /** One pass that tries new findings at once. The next frequency is higher, whatever the registers say. */
    method PassA(freq: nat, times: nat, ub: nat, w: Window, scanned: nat)
        returns (fits: bool, next: nat, nowScanned: nat, ghost mid: seq<Tp>)
      requires Roomy() && TailTried() && Booked() && WindowValid(w)
      requires AllTried(Findings()) && scanned <= list.count
      requires 950000 <= freq <= LAST_FREQ && ub < 0x8000_0000
      modifies list`count, list.tps, `tpIndex, `lastTpA, `firstFound, `firstFreq, `firstSymRate, `firstLocked, `merged,
               `windowCenter, `lockedCount, `tpNum
      ensures fits ==> Roomy() && TailTried() && Booked() && AllTried(Findings()) && nowScanned <= list.count
      ensures fits ==>
               PassedA(old(list.tps[..]), old(list.count), list.tps[..], list.count, scanned, nowScanned, w,
                       Entered(freq, ub), times)
      ensures fits ==> next == Entered(freq, ub) + StepA(w) && StepFits(w, next - Entered(freq, ub), AlgorithmA)
      ensures fits ==> windowCenter == Entered(freq, ub)
      ensures fits ==>
               && Collected(old(list.tps[..]), old(list.count), mid, list.count, w.peaks, Entered(freq, ub), times)
               && (scanned >= list.count ==> Remembered() == FirstOf(w.peaks, Entered(freq, ub), times, false))
               && (scanned < list.count <= |mid| ==>
                     Remembered() == Newest(mid[..list.count], Findings(), list.count,
                                            FirstOf(w.peaks, Entered(freq, ub), times, false)))
      ensures !fits ==> CutWindow(old(list.tps[..]), old(list.count), list.tps[..], w.peaks, Entered(freq, ub), times)
      ensures merged ==> unicable
      ensures freq < next <= freq + 96000
    {
      hide Collected, Connected, Dealt, FairTurns, FreqsBounded, Entered, EmptyStep, PlainStep, Sound, FirstOf,
        NewestOf;
      mid := [];
      var center := EnterWindow(freq, ub);
      nowScanned := scanned;
      fits := ProcessWindow(w.peaks, center, times);
      if !fits {
        next := freq + 1;
        return;
      }
      mid := list.tps[..];
      var found, step := MoveOn(w);
      next := center + step;
      nowScanned := TryNew(scanned, w);
      if found {
        step := MoveFoundA();
        next := next + step;
      }
      assert Collected(old(list.tps[..]), old(list.count), mid, list.count, w.peaks, center, times);
    }

    /**
     * A step that the readings of a window allow: with findings in a mirrored spectrum it also depends on the first
     * of them.
     */
    predicate StepFits(w: Window, step: nat, algorithm: Algorithm) {
      if !Mirrored() then step == PlainStep(w, unicable)
      else if w.r9a % 32 == 0 then step == if algorithm == AlgorithmA then EmptyStep(w) else Lesser(EmptyStep(w), 20000)
      else 4000 <= step <= if algorithm == AlgorithmA then 20000 else 16000
    }

    /** The passes of sweep A over the windows at the given frequencies. */
    ghost predicate SweptA(before: seq<Tp>, n: nat, after: seq<Tp>, m: nat, seen: nat, tuned: seq<nat>, ub: nat,
                           windows: nat -> Window, times: nat)
      decreases |tuned|
    {
      if tuned == [] then after == before && m == n && seen == 0
      else
        var k := |tuned| - 1;
        exists mid: seq<Tp>, i: nat, s: nat :: SweptA(before, n, mid, i, s, tuned[..k], ub, windows, times)
          && PassedA(mid, i, after, m, s, seen, windows(k), Entered(tuned[k], ub), times)
    }

    lemma SweptAStep(before: seq<Tp>, n: nat, mid: seq<Tp>, i: nat, s: nat, after: seq<Tp>, m: nat, seen: nat,
                     tuned: seq<nat>, freq: nat, ub: nat, windows: nat -> Window, times: nat)
      requires SweptA(before, n, mid, i, s, tuned, ub, windows, times)
      requires PassedA(mid, i, after, m, s, seen, windows(|tuned|), Entered(freq, ub), times)
      ensures SweptA(before, n, after, m, seen, tuned + [freq], ub, windows, times)
    {
      hide PassedA;
      assert (tuned + [freq])[..|tuned|] == tuned;
    }

    /**
     * A sweep from one frequency towards another: the windows are tuned in rising order, none beyond the end, each at
     * the step from the one before that its readings allow, and the last is at 2149 MHz or its successor is not below
     * the end.
     */
    ghost predicate Covers(tuned: seq<nat>, steps: seq<nat>, start: nat, end: nat, algorithm: Algorithm, ub: nat,
                           windows: nat -> Window) {
      && Rising(tuned) && |steps| == |tuned| && (start < end ==> tuned != []) && (tuned != [] ==> tuned[0] == start)
      && (forall k | 0 <= k < |tuned| :: tuned[k] < end)
      && (forall k: nat | k < |steps| :: StepFits(windows(k), steps[k], algorithm))
      && Steps(tuned, steps, ub)
      && (tuned != [] ==> var k := |tuned| - 1; tuned[k] == LAST_FREQ || end <= After(tuned[k], steps[k], ub))
    }

    /** The window a step after one at the given frequency. */
    function After(freq: nat, step: nat, ub: nat): nat {
      Lesser(Entered(freq, ub) + step, LAST_FREQ)
    }

    ghost predicate Steps(freqs: seq<nat>, steps: seq<nat>, ub: nat) {
      forall k: nat | k < |steps| && k + 1 < |freqs| :: freqs[k + 1] == After(freqs[k], steps[k], ub)
    }

    /** So far: every window but the next. */
    ghost predicate Underway(tuned: seq<nat>, steps: seq<nat>, next: nat, start: nat, end: nat, algorithm: Algorithm,
                             ub: nat, windows: nat -> Window) {
      && Rising(tuned) && |steps| == |tuned|
      && (if tuned == [] then next == start else tuned[0] == start && tuned[|tuned| - 1] < next)
      && (forall k | 0 <= k < |tuned| :: tuned[k] < end)
      && (forall k: nat | k < |steps| :: StepFits(windows(k), steps[k], algorithm))
      && Steps(tuned + [next], steps, ub)
    }

    lemma UnderwayStep(tuned: seq<nat>, steps: seq<nat>, freq: nat, step: nat, start: nat, end: nat,
                       algorithm: Algorithm, ub: nat, windows: nat -> Window)
      requires Underway(tuned, steps, freq, start, end, algorithm, ub, windows) && freq < end && freq < LAST_FREQ
      requires freq < Entered(freq, ub) + step && StepFits(windows(|tuned|), step, algorithm)
      ensures Underway(tuned + [freq], steps + [step], After(freq, step, ub), start, end, algorithm, ub, windows)
    {
      assert freq < After(freq, step, ub);
      hide After, StepFits;
      var now, later := tuned + [freq], tuned + [freq] + [After(freq, step, ub)];
      forall k: nat | k < |steps + [step]| ensures later[k + 1] == After(later[k], (steps + [step])[k], ub) {
        if k < |steps| {
          assert now[k + 1] == After(now[k], steps[k], ub);
        }
      }
    }

    lemma UnderwayEnds(tuned: seq<nat>, steps: seq<nat>, next: nat, start: nat, end: nat, algorithm: Algorithm,
                       ub: nat, windows: nat -> Window)
      requires Underway(tuned, steps, next, start, end, algorithm, ub, windows) && end <= next
      ensures Covers(tuned, steps, start, end, algorithm, ub, windows)
    {
      hide After, StepFits;
      var now := tuned + [next];
      forall k: nat | k < |steps| ensures now[k + 1] == After(tuned[k], steps[k], ub) {
        assert now[k + 1] == After(now[k], steps[k], ub);
      }
      forall k: nat | k + 1 < |tuned| ensures tuned[k + 1] == After(tuned[k], steps[k], ub) {
        assert now[k + 1] == tuned[k + 1];
      }
    }

    lemma UnderwayAtLast(tuned: seq<nat>, steps: seq<nat>, step: nat, start: nat, end: nat, algorithm: Algorithm,
                         ub: nat, windows: nat -> Window)
      requires Underway(tuned, steps, LAST_FREQ, start, end, algorithm, ub, windows) && LAST_FREQ < end
      requires StepFits(windows(|tuned|), step, algorithm)
      ensures Covers(tuned + [LAST_FREQ], steps + [step], start, end, algorithm, ub, windows)
    {
      hide After, StepFits;
      var now, later := tuned + [LAST_FREQ], steps + [step];
      forall k: nat | k < |later| && k + 1 < |now| ensures now[k + 1] == After(now[k], later[k], ub) {
        assert now[k + 1] == After(now[k], steps[k], ub);
      }
    }

    /** A sweep is cut short: windows are gone over up to one that is cut short. */
    ghost predicate CutSweep(before: seq<Tp>, n: nat, after: seq<Tp>, start: nat, end: nat, algorithm: Algorithm,
                             ub: nat, windows: nat -> Window, times: nat) {
      exists mid: seq<Tp>, i: nat, seen: nat, tuned: seq<nat>, steps: seq<nat>, at: nat ::
        && GoneOver(before, n, mid, i, seen, tuned, algorithm, ub, windows, times)
        && Underway(tuned, steps, at, start, end, algorithm, ub, windows) && at < end
        && CutWindow(mid, i, after, windows(|tuned|).peaks, Entered(at, ub), times)
    }

    /** Windows are gone over in the way of either sweep. */
    ghost predicate GoneOver(before: seq<Tp>, n: nat, after: seq<Tp>, m: nat, seen: nat, tuned: seq<nat>,
                             algorithm: Algorithm, ub: nat, windows: nat -> Window, times: nat) {
      if algorithm == AlgorithmA then SweptA(before, n, after, m, seen, tuned, ub, windows, times)
      else GatheredB(before, n, after, m, tuned, ub, windows, times)
    }

    lemma CutA(before: seq<Tp>, n: nat, mid: seq<Tp>, i: nat, after: seq<Tp>, seen: nat, tuned: seq<nat>,
               steps: seq<nat>,
               at: nat, start: nat, end: nat, ub: nat, windows: nat -> Window, times: nat)
      requires SweptA(before, n, mid, i, seen, tuned, ub, windows, times)
      requires Underway(tuned, steps, at, start, end, AlgorithmA, ub, windows) && at < end
      requires CutWindow(mid, i, after, windows(|tuned|).peaks, Entered(at, ub), times)
      ensures CutSweep(before, n, after, start, end, AlgorithmA, ub, windows, times)
    {
      hide SweptA, GatheredB, Underway, CutWindow;
      assert GoneOver(before, n, mid, i, seen, tuned, AlgorithmA, ub, windows, times);
    }

    lemma CutB(before: seq<Tp>, n: nat, mid: seq<Tp>, i: nat, after: seq<Tp>, tuned: seq<nat>, steps: seq<nat>,
               at: nat, start: nat, end: nat, ub: nat, windows: nat -> Window, times: nat)
      requires GatheredB(before, n, mid, i, tuned, ub, windows, times)
      requires Underway(tuned, steps, at, start, end, AlgorithmB, ub, windows) && at < end
      requires CutWindow(mid, i, after, windows(|tuned|).peaks, Entered(at, ub), times)
      ensures CutSweep(before, n, after, start, end, AlgorithmB, ub, windows, times)
    {
      hide SweptA, GatheredB, Underway, CutWindow;
      assert GoneOver(before, n, mid, i, 0, tuned, AlgorithmB, ub, windows, times);
    }

    method SweepA(start: nat, end: nat, times: nat, ub: nat, windows: nat -> Window)
        returns (fits: bool, freq: nat, ghost tuned: seq<nat>, ghost steps: seq<nat>, ghost seen: nat)
      requires Roomy() && TailTried() && Booked() && AllTried(Findings())
      requires forall k :: WindowValid(windows(k))
      requires 950000 <= start < LAST_FREQ && ub < 0x8000_0000
      modifies list`count, list.tps, `tpIndex, `lastTpA, `firstFound, `firstFreq, `firstSymRate, `firstLocked, `merged,
               `windowCenter, `lockedCount, `tpNum
      ensures fits ==> Roomy() && TailTried() && Booked() && AllTried(Findings())
      ensures fits ==> Covers(tuned, steps, start, end, AlgorithmA, ub, windows)
      ensures fits ==>
               SweptA(old(list.tps[..]), old(list.count), list.tps[..], list.count, seen, tuned, ub, windows, times)
      ensures !fits ==>
                CutSweep(old(list.tps[..]), old(list.count), list.tps[..], start, end, AlgorithmA, ub, windows, times)
      ensures merged ==> unicable
    {
      hide SweptA, PassedA, Underway, Covers, Sound, AllTried, CutWindow, CutSweep;
      freq, tuned, steps, fits, seen := start, [], [], true, 0;
      var scanned: nat := 0;
      var endFlag := false;
      var pass: nat := 0;
      ghost var covered := false;
      NothingSwept(list.tps[..], list.count, start, end, AlgorithmA, ub, windows, times);
      while freq < end
        invariant fits && Roomy() && TailTried() && Booked() && AllTried(Findings()) && scanned <= list.count
        invariant 950000 <= freq <= LAST_FREQ && (endFlag <==> freq == LAST_FREQ)
        invariant !covered && pass == |tuned| && seen == scanned
        invariant Underway(tuned, steps, freq, start, end, AlgorithmA, ub, windows)
        invariant SweptA(old(list.tps[..]), old(list.count), list.tps[..], list.count, scanned, tuned, ub, windows,
                         times)
        decreases LAST_FREQ - freq
      {
        ghost var mid, i, s, at, collected := list.tps[..], list.count, scanned, freq, [];
        fits, freq, scanned, collected := PassA(freq, times, ub, windows(pass), scanned);
        if !fits {
          CutA(old(list.tps[..]), old(list.count), mid, i, list.tps[..], s, tuned, steps, at, start, end, ub, windows,
               times);
          return;
        }
        SweptAStep(old(list.tps[..]), old(list.count), mid, i, s, list.tps[..], list.count, scanned, tuned, at, ub,
                   windows, times);
        pass, seen := pass + 1, scanned;
        if endFlag {
          UnderwayAtLast(tuned, steps, freq - Entered(at, ub), start, end, AlgorithmA, ub, windows);
          tuned, steps, covered := tuned + [at], steps + [freq - Entered(at, ub)], true;
          break;
        }
        ghost var step: nat := freq - Entered(at, ub);
        UnderwayStep(tuned, steps, at, step, start, end, AlgorithmA, ub, windows);
        tuned, steps := tuned + [at], steps + [step];
        if freq >= LAST_FREQ {
          freq, endFlag := LAST_FREQ, true;
        }
      }
      if !covered {
        UnderwayEnds(tuned, steps, freq, start, end, AlgorithmA, ub, windows);
      }
    }

    lemma NothingSwept(slots: seq<Tp>, n: nat, start: nat, end: nat, algorithm: Algorithm, ub: nat,
                       windows: nat -> Window, times: nat)
      ensures SweptA(slots, n, slots, n, 0, [], ub, windows, times)
      ensures GatheredB(slots, n, slots, n, [], ub, windows, times)
      ensures Underway([], [], start, start, end, algorithm, ub, windows)
    {}

    /** One pass that only collects findings. */
    method PassB(freq: nat, times: nat, ub: nat, w: Window) returns (fits: bool, next: nat)
      requires Roomy() && TailTried() && Booked()
      requires 950000 <= freq <= LAST_FREQ && ub < 0x8000_0000
      modifies list`count, list.tps, `tpIndex, `lastTpA, `firstFound, `firstFreq, `firstSymRate, `firstLocked,
               `windowCenter, `merged
      ensures fits ==> Roomy() && TailTried() && Booked()
      ensures fits ==>
               Collected(old(list.tps[..]), old(list.count), list.tps[..], list.count, w.peaks, Entered(freq, ub),
                         times)
      ensures fits ==> next == Entered(freq, ub) + StepB(w) && StepFits(w, next - Entered(freq, ub), AlgorithmB)
      ensures fits ==>
               windowCenter == Entered(freq, ub) && Remembered() == FirstOf(w.peaks, Entered(freq, ub), times, false)
      ensures !fits ==> CutWindow(old(list.tps[..]), old(list.count), list.tps[..], w.peaks, Entered(freq, ub), times)
      ensures merged ==> unicable
      ensures freq < next <= freq + 96000
    {
      hide Collected;
      var center := EnterWindow(freq, ub);
      fits := ProcessWindow(w.peaks, center, times);
      if !fits {
        next := freq + 1;
        return;
      }
      var step;
      if inverted && demod == DS300X {
        if w.r9a % 32 == 0 {
          step := MoveEmpty(w);
          if step > 20000 {
            step := 20000;
          }
        } else {
          step := MoveFoundB();
        }
      } else {
        step := MovePlain(w);
      }
      next := center + step;
    }

    /** The passes of sweep B over the windows at the given frequencies: findings are only collected. */
    ghost predicate GatheredB(before: seq<Tp>, n: nat, after: seq<Tp>, m: nat, tuned: seq<nat>, ub: nat,
                              windows: nat -> Window, times: nat)
      decreases |tuned|
    {
      if tuned == [] then after == before && m == n
      else
        var k := |tuned| - 1;
        exists mid: seq<Tp>, i: nat :: GatheredB(before, n, mid, i, tuned[..k], ub, windows, times)
          && Collected(mid, i, after, m, windows(k).peaks, Entered(tuned[k], ub), times)
    }

    lemma GatheredBStep(before: seq<Tp>, n: nat, mid: seq<Tp>, i: nat, after: seq<Tp>, m: nat,
                        tuned: seq<nat>, freq: nat, ub: nat, windows: nat -> Window, times: nat)
      requires GatheredB(before, n, mid, i, tuned, ub, windows, times)
      requires Collected(mid, i, after, m, windows(|tuned|).peaks, Entered(freq, ub), times)
      ensures GatheredB(before, n, after, m, tuned + [freq], ub, windows, times)
    {
      hide Collected;
      assert (tuned + [freq])[..|tuned|] == tuned;
    }

    /** Sweep B: all windows are gone over, then all untried findings are tried. */
    ghost predicate SweptB(before: seq<Tp>, n: nat, after: seq<Tp>, m: nat, tuned: seq<nat>, ub: nat,
                           windows: nat -> Window, times: nat) {
      exists mid :: GatheredB(before, n, mid, m, tuned, ub, windows, times) && |mid| == |after| && m <= |mid|
        && after == Connected(mid[..m], m, windows(|tuned|).trials) + mid[m..]
    }

    method SweepB(start: nat, end: nat, times: nat, ub: nat, windows: nat -> Window)
        returns (fits: bool, freq: nat, ghost tuned: seq<nat>, ghost steps: seq<nat>)
      requires Roomy() && TailTried() && Booked()
      requires forall k :: WindowValid(windows(k))
      requires 950000 <= start < LAST_FREQ && ub < 0x8000_0000
      modifies list`count, list.tps, `tpIndex, `lastTpA, `firstFound, `firstFreq, `firstSymRate, `firstLocked, `merged,
               `windowCenter, `lockedCount, `tpNum
      ensures fits ==> Roomy() && TailTried() && Booked() && AllTried(Findings())
      ensures fits ==> Covers(tuned, steps, start, end, AlgorithmB, ub, windows)
      ensures fits ==> SweptB(old(list.tps[..]), old(list.count), list.tps[..], list.count, tuned, ub, windows, times)
      ensures !fits ==>
                CutSweep(old(list.tps[..]), old(list.count), list.tps[..], start, end, AlgorithmB, ub, windows, times)
      ensures merged ==> unicable
    {
      hide GatheredB, Connected, Collected, Underway, Covers, Sound, AllTried, CutSweep;
      var pass: nat;
      fits, freq, pass, tuned, steps := GatherB(start, end, times, ub, windows);
      if !fits {
        return;
      }
      ghost var mid := list.tps[..];
      Connect(windows(pass).trials);
      assert list.tps[..] == list.tps[..list.count] + list.tps[list.count..];
      assert GatheredB(old(list.tps[..]), old(list.count), mid, list.count, tuned, ub, windows, times);
    }

    /** The loop of sweep B. */
    method GatherB(start: nat, end: nat, times: nat, ub: nat, windows: nat -> Window)
        returns (fits: bool, freq: nat, pass: nat, ghost tuned: seq<nat>, ghost steps: seq<nat>)
      requires Roomy() && TailTried() && Booked()
      requires 950000 <= start < LAST_FREQ && ub < 0x8000_0000
      modifies list`count, list.tps, `tpIndex, `lastTpA, `firstFound, `firstFreq, `firstSymRate, `firstLocked,
               `windowCenter, `merged
      ensures fits ==>
               Roomy() && TailTried() && Booked() && pass == |tuned| && Covers(tuned, steps, start, end, AlgorithmB,
                                                                               ub, windows)
      ensures fits ==>
               GatheredB(old(list.tps[..]), old(list.count), list.tps[..], list.count, tuned, ub, windows, times)
      ensures !fits ==>
                CutSweep(old(list.tps[..]), old(list.count), list.tps[..], start, end, AlgorithmB, ub, windows, times)
      ensures merged ==> unicable
    {
      hide GatheredB, Collected, Underway, Covers, Sound, CutWindow, CutSweep;
      freq, tuned, steps, fits, pass := start, [], [], true, 0;
      var endFlag := false;
      ghost var covered := false;
      NothingSwept(list.tps[..], list.count, start, end, AlgorithmB, ub, windows, times);
      while freq < end
        invariant fits && Roomy() && TailTried() && Booked()
        invariant 950000 <= freq <= LAST_FREQ && (endFlag <==> freq == LAST_FREQ)
        invariant !covered && pass == |tuned| && Underway(tuned, steps, freq, start, end, AlgorithmB, ub, windows)
        invariant GatheredB(old(list.tps[..]), old(list.count), list.tps[..], list.count, tuned, ub, windows, times)
        decreases LAST_FREQ - freq
      {
        ghost var mid, i, at := list.tps[..], list.count, freq;
        fits, freq := PassB(freq, times, ub, windows(pass));
        if !fits {
          CutB(old(list.tps[..]), old(list.count), mid, i, list.tps[..], tuned, steps, at, start, end, ub, windows,
               times);
          return;
        }
        GatheredBStep(old(list.tps[..]), old(list.count), mid, i, list.tps[..], list.count, tuned, at, ub, windows,
                      times);
        pass := pass + 1;
        if endFlag {
          UnderwayAtLast(tuned, steps, freq - Entered(at, ub), start, end, AlgorithmB, ub, windows);
          tuned, steps, covered := tuned + [at], steps + [freq - Entered(at, ub)], true;
          break;
        }
        ghost var step: nat := freq - Entered(at, ub);
        UnderwayStep(tuned, steps, at, step, start, end, AlgorithmB, ub, windows);
        tuned, steps := tuned + [at], steps + [step];
        if freq >= LAST_FREQ {
          freq, endFlag := LAST_FREQ, true;
        }
      }
      if !covered {
        UnderwayEnds(tuned, steps, freq, start, end, AlgorithmB, ub, windows);
      }
    }

    /* ---------- The whole scan ---------- */

    /** The sweeps done so far, each over the whole band, from an empty list on. */
    ghost predicate Scanned(initial: seq<Tp>, slots: seq<Tp>, m: nat, times: nat, start: nat, end: nat,
                            algorithm: Algorithm,
                            ub: nat, windows: nat -> nat -> Window)
      decreases times
    {
      if times == 0 then slots == initial && m == 0
      else
        var t: nat := times - 1;
        exists mid: seq<Tp>, i: nat, seen: nat, tuned: seq<nat>, steps: seq<nat> ::
          && Scanned(initial, mid, i, t, start, end, algorithm, ub, windows)
          && Swept(mid, i, slots, m, seen, tuned, steps, start, end, algorithm, ub, windows(t), t)
    }

    ghost predicate Swept(before: seq<Tp>, n: nat, after: seq<Tp>, m: nat, seen: nat, tuned: seq<nat>,
                          steps: seq<nat>, start: nat, end: nat,
                          algorithm: Algorithm, ub: nat, windows: nat -> Window, times: nat) {
      && Covers(tuned, steps, start, end, algorithm, ub, windows)
      && if algorithm == AlgorithmA then SweptA(before, n, after, m, seen, tuned, ub, windows, times)
         else SweptB(before, n, after, m, tuned, ub, windows, times)
    }

    /** A scan is cut short: sweeps are done up to one that is cut short. */
    ghost predicate CutScan(initial: seq<Tp>, after: seq<Tp>, start: nat, end: nat, algorithm: Algorithm,
                            ub: nat, windows: nat -> nat -> Window) {
      exists mid: seq<Tp>, i: nat, t: nat ::
        && t < timesTotal && Scanned(initial, mid, i, t, start, end, algorithm, ub, windows)
        && CutSweep(mid, i, after, start, end, algorithm, ub, windows(t), t)
    }

    /**
     * Every pass over the band, then the entries that did not lock are moved behind the others. Slots and tried are the
     * slots and the list before that. That last step works up to 254 findings with two slots behind them; what it comes
     * to otherwise is part of the outcome. A finding that is refused cuts the scan short.
     */
    method BlindScan(start: nat, end: nat, algorithm: Algorithm, ub: nat, windows: nat -> nat -> Window)
        returns (outcome: Outcome, ghost slots: seq<Tp>, ghost tried: seq<Tp>)
      requires list.maxNum <= list.tps.Length && list.maxNum < 0x1_0000
      requires forall k | 0 <= k < list.tps.Length :: list.tps[k].kind != Unknown
      requires forall times, k :: WindowValid(windows(times)(k))
      requires 950000 <= start < LAST_FREQ && ub < 0x8000_0000
      modifies list`count, list.tps, `tpIndex, `lastTpA, `firstFound, `firstFreq, `firstSymRate, `firstLocked, `merged,
               `windowCenter, `lockedCount, `tpNum
      ensures outcome == BadParameter <==> list.maxNum == 0
      ensures outcome == CutShort ==> CutScan(old(list.tps[..]), list.tps[..], start, end, algorithm, ub, windows)
      ensures outcome.AllSwept? ==> list.count == |tried| <= |slots| == list.tps.Length && tried == slots[..|tried|]
      ensures outcome.AllSwept? ==>
               Scanned(old(list.tps[..]), slots, list.count, timesTotal, start, end, algorithm, ub, windows)
      ensures outcome.AllSwept? ==> AllTried(tried)
      ensures outcome.AllSwept? && !merged ==> outcome.separation == Fate(slots, list.count)
      ensures outcome.AllSwept? && !merged ==> Sound(tried, lockedCount) && tpNum == lockedCount <= list.count
      ensures outcome == AllSwept(Completed) && !merged ==>
               list.tps[..tpNum] == LockedOnly(tried) && AllDistinct(list.tps[..tpNum])
      ensures merged ==> unicable
    {
      hide Scanned, LockedOnly, Sound, Fate, CutScan;
      slots, tried, merged := list.tps[..], [], false;
      if list.maxNum == 0 {
        outcome := BadParameter;
        return;
      }
      list.count, lockedCount, tpNum := 0, 0, 0;
      NoneLocked();
      var fits := Sweeps(start, end, algorithm, ub, windows);
      if !fits {
        outcome := CutShort;
        return;
      }
      slots := list.tps[..];
      tried := Findings();
      outcome := LockedFirst();
    }

    lemma NoneLocked()
      ensures Sound([], 0)
    {}

    /** The last step of a scan: the list is separated at a frequency above all others. */
    method LockedFirst() returns (outcome: Outcome)
      requires Roomy() && Booked() && AllTried(Findings())
      modifies list.tps
      ensures outcome.AllSwept?
      ensures (!merged ==> outcome.separation == Fate(old(list.tps[..]), list.count) && lockedCount <= list.count)
      ensures outcome == AllSwept(Completed) && !merged ==>
                list.tps[..lockedCount] == LockedOnly(old(Findings())) && AllDistinct(list.tps[..lockedCount])
    {
      ghost var slots := list.tps[..];
      if !merged {
        CountBoundary(Findings());
      }
      BoundaryAtMost(list.tps[..list.count], FREQ_MAX);
      var separation := list.RemoveUnlocked(FREQ_MAX);
      if !merged && separation == Completed {
        LockedLead(slots, list.tps[..], list.count, lockedCount);
      }
      outcome := AllSwept(separation);
    }

    method Sweeps(start: nat, end: nat, algorithm: Algorithm, ub: nat, windows: nat -> nat -> Window)
        returns (fits: bool)
      requires list.count == 0 && Roomy() && TailTried() && Booked()
      requires forall times, k :: WindowValid(windows(times)(k))
      requires 950000 <= start < LAST_FREQ && ub < 0x8000_0000
      modifies list`count, list.tps, `tpIndex, `lastTpA, `firstFound, `firstFreq, `firstSymRate, `firstLocked, `merged,
               `windowCenter, `lockedCount, `tpNum
      ensures fits ==> Roomy() && Booked() && AllTried(Findings())
      ensures fits ==>
               Scanned(old(list.tps[..]), list.tps[..], list.count, timesTotal, start, end, algorithm, ub, windows)
      ensures !fits ==> CutScan(old(list.tps[..]), list.tps[..], start, end, algorithm, ub, windows)
      ensures merged ==> unicable
    {
      hide Swept, Scanned, Sound, CutSweep;
      fits := true;
      NothingScanned(list.tps[..], start, end, algorithm, ub, windows);
      for times := 0 to timesTotal
        invariant fits && Roomy() && TailTried() && Booked() && AllTried(Findings())
        invariant Scanned(old(list.tps[..]), list.tps[..], list.count, times, start, end, algorithm, ub, windows)
      {
        ghost var mid, i := list.tps[..], list.count;
        fits := Sweep(start, end, times, algorithm, ub, windows(times));
        if !fits {
          return;
        }
        ghost var seen: nat, tuned: seq<nat>, steps: seq<nat> :|
          Swept(mid, i, list.tps[..], list.count, seen, tuned, steps, start, end, algorithm, ub, windows(times), times);
        ScannedStep(old(list.tps[..]), mid, i, list.tps[..], list.count, seen, tuned, steps, times, start, end,
                    algorithm, ub, windows);
      }
    }

    lemma NothingScanned(slots: seq<Tp>, start: nat, end: nat, algorithm: Algorithm, ub: nat,
                         windows: nat -> nat -> Window)
      ensures Scanned(slots, slots, 0, 0, start, end, algorithm, ub, windows)
    {}

    lemma ScannedStep(initial: seq<Tp>, mid: seq<Tp>, i: nat, after: seq<Tp>, m: nat, seen: nat, tuned: seq<nat>,
                      steps: seq<nat>, times: nat,
                      start: nat, end: nat, algorithm: Algorithm, ub: nat, windows: nat -> nat -> Window)
      requires Scanned(initial, mid, i, times, start, end, algorithm, ub, windows)
      requires Swept(mid, i, after, m, seen, tuned, steps, start, end, algorithm, ub, windows(times), times)
      ensures Scanned(initial, after, m, times + 1, start, end, algorithm, ub, windows)
    {
      hide Swept;
      assert times + 1 - 1 == times;
    }

    method Sweep(start: nat, end: nat, times: nat, algorithm: Algorithm, ub: nat, windows: nat -> Window)
        returns (fits: bool)
      requires Roomy() && TailTried() && Booked() && AllTried(Findings())
      requires forall k :: WindowValid(windows(k))
      requires 950000 <= start < LAST_FREQ && ub < 0x8000_0000
      modifies list`count, list.tps, `tpIndex, `lastTpA, `firstFound, `firstFreq, `firstSymRate, `firstLocked, `merged,
               `windowCenter, `lockedCount, `tpNum
      ensures fits ==> Roomy() && TailTried() && Booked() && AllTried(Findings())
      ensures fits ==> exists seen: nat, tuned: seq<nat>, steps: seq<nat> ::
                Swept(old(list.tps[..]), old(list.count), list.tps[..], list.count, seen, tuned, steps, start, end,
                      algorithm, ub, windows, times)
      ensures !fits ==>
                CutSweep(old(list.tps[..]), old(list.count), list.tps[..], start, end, algorithm, ub, windows, times)
      ensures merged ==> unicable
    {
      hide SweptA, SweptB, Covers, Sound, CutSweep;
      var freq;
      ghost var tuned, steps, seen := [], [], 0;
      if algorithm == AlgorithmA {
        fits, freq, tuned, steps, seen := SweepA(start, end, times, ub, windows);
      } else {
        fits, freq, tuned, steps := SweepB(start, end, times, ub, windows);
      }
      assert fits ==>
              Swept(old(list.tps[..]), old(list.count), list.tps[..], list.count, seen, tuned, steps, start, end,
                    algorithm, ub, windows, times);
    }
  }

  /** How a scan ends: refused, cut short by a refused finding, or swept, with what came of the separation. */
  datatype Outcome = BadParameter | CutShort | AllSwept(separation: Separation)

  datatype Algorithm = AlgorithmA | AlgorithmB

  lemma BoundaryAtMost(list: seq<Tp>, freq: nat)
    ensures Boundary(list, freq) <= |list|
  {}

  lemma {:induction false} CountBoundary(list: seq<Tp>)
    requires forall k | 0 <= k < |list| :: list[k].freq < FREQ_MAX
    ensures Boundary(list, FREQ_MAX) == |list|
  {
    if list != [] {
      CountBoundary(list[1..]);
    }
  }

  lemma {:induction false} UncheckedIsLocked(list: seq<Tp>)
    requires forall k | 0 <= k < |list| :: list[k].kind != Undef && list[k].kind != Unknown
    ensures Unchecked(list) == LockedOnly(list)
  {
    if list != [] {
      UncheckedIsLocked(list[..|list| - 1]);
    }
  }

  lemma {:induction false} LockedOnlyDistinct(list: seq<Tp>)
    requires AllDistinct(list)
    ensures AllDistinct(LockedOnly(list))
    ensures forall x | x in LockedOnly(list) :: x in list && IsLocked(x)
  {
    if list != [] {
      var n := |list| - 1;
      assert forall i | 0 <= i < n :: list[..n][i] == list[i];
      LockedOnlyDistinct(list[..n]);
      forall i, j | 0 <= i < j < |LockedOnly(list)| ensures !Alike(LockedOnly(list)[i], LockedOnly(list)[j]) {
        var kept := LockedOnly(list[..n]);
        if j == |kept| {
          assert kept[i] in kept;
          var k :| 0 <= k < n && list[k] == kept[i];
          assert !Alike(list[k], list[n]);
        } else {
          assert IsLocked(kept[i]) && IsLocked(kept[j]);
        }
      }
    }
  }

  /** Separating a fully tried list, whatever the slot behind it holds, puts exactly the locked entries first. */
  lemma LockedLead(before: seq<Tp>, after: seq<Tp>, count: nat, locked: nat)
    requires count < |before| && Separated(before, after, count + 1)
    requires count <= SEARCHED && Sound(before[..count], locked) && AllTried(before[..count])
    ensures locked <= count && after[..locked] == LockedOnly(before[..count]) && AllDistinct(after[..locked])
  {
    var list := before[..count];
    UncheckedGrows(before, count);
    UncheckedIsLocked(list);
    LockedOnlyDistinct(list);
    assert after[..locked] == after[..|Unchecked(before[..count + 1])|][..locked];
  }
}
