/** The transponder list of a blind scan: an array with a count, kept by insertion and cleaned up by swapping. */
module Transponders {
  import opened Wrappers
  import opened Bytes

  datatype DvbType = Undef | DvbS | DvbS2 | Unknown | Checked

  /** Code rate 0 stands for an undefined one. */
  datatype Tp = Tp(freq: nat, symRate: nat, kind: DvbType, codeRate: nat)

  datatype Demod = DS300X | DS3002B | DS3103 | OtherDemod

  /** The last one stands for an access behind the end of the array. */
  datatype Ret = Ok | NoMemory | OutOfBounds

  function Found(freq: nat, symRate: nat): Tp {
    Tp(freq, Wrap16(symRate), Unknown, 0)
  }

  /* ---------- Sorted insertion ---------- */

  /** Insertion before the first entry whose frequency is not lower. */
  function Insert(list: seq<Tp>, tp: Tp): (r: seq<Tp>)
    ensures |r| == |list| + 1
  {
    if list == [] then [tp]
    else if tp.freq <= list[0].freq then [tp] + list
    else [list[0]] + Insert(list[1..], tp)
  }

  predicate Sorted(list: seq<Tp>) {
    forall i, j | 0 <= i < j < |list| :: list[i].freq <= list[j].freq
  }

  lemma {:induction false} InsertAt(list: seq<Tp>, tp: Tp, i: nat)
    requires i <= |list|
    requires forall k | 0 <= k < i :: list[k].freq < tp.freq
    requires i < |list| ==> tp.freq <= list[i].freq
    ensures Insert(list, tp) == list[..i] + [tp] + list[i..]
  {
    if list == [] || i == 0 {
    } else {
      InsertAt(list[1..], tp, i - 1);
      assert list[..i] == [list[0]] + list[1..][..i - 1];
      assert list[i..] == list[1..][i - 1..];
    }
  }

  /** Where an insertion goes. */
  lemma {:induction false} InsertPlace(list: seq<Tp>, tp: Tp) returns (i: nat)
    ensures i <= |list| && Insert(list, tp) == list[..i] + [tp] + list[i..]
  {
    if list == [] || tp.freq <= list[0].freq {
      i := 0;
    } else {
      var rest := InsertPlace(list[1..], tp);
      i := rest + 1;
      assert list[..i] == [list[0]] + list[1..][..rest];
      assert list[i..] == list[1..][rest..];
    }
  }

  lemma {:induction false} InsertKeepsAll(list: seq<Tp>, tp: Tp)
    ensures multiset(Insert(list, tp)) == multiset(list) + multiset{tp}
  {
    if list == [] {
    } else if tp.freq <= list[0].freq {
    } else {
      assert list == [list[0]] + list[1..];
      InsertKeepsAll(list[1..], tp);
    }
  }

  lemma {:induction false} InsertBounded(list: seq<Tp>, tp: Tp, low: nat)
    requires low <= tp.freq && forall k | 0 <= k < |list| :: low <= list[k].freq
    ensures forall k | 0 <= k <= |list| :: low <= Insert(list, tp)[k].freq
  {
    if list != [] && list[0].freq < tp.freq {
      InsertBounded(list[1..], tp, low);
    }
  }

  /** A sorted list stays sorted. */
  lemma {:induction false} InsertKeepsSorted(list: seq<Tp>, tp: Tp)
    requires Sorted(list)
    ensures Sorted(Insert(list, tp))
  {
    if list != [] && list[0].freq < tp.freq {
      InsertKeepsSorted(list[1..], tp);
      InsertBounded(list[1..], tp, list[0].freq);
    }
  }

  /* ---------- Separating the entries that did not lock ---------- */

  function Unchecked(list: seq<Tp>): (r: seq<Tp>)
    ensures |r| <= |list|
    ensures forall k | 0 <= k < |r| :: r[k].kind != Checked
  {
    if list == [] then []
    else
      var n := |list| - 1;
      Unchecked(list[..n]) + (if list[n].kind == Checked then [] else [list[n]])
  }

  lemma UncheckedGrows(list: seq<Tp>, i: nat)
    requires i < |list|
    ensures Unchecked(list[..i + 1]) == Unchecked(list[..i]) + (if list[i].kind == Checked then [] else [list[i]])
  {
    assert list[..i + 1][..i] == list[..i];
  }

  /** An entry without its code rate. */
  datatype Key = Key(freq: nat, symRate: nat, kind: DvbType)

  function KeyOf(tp: Tp): Key { Key(tp.freq, tp.symRate, tp.kind) }

  function Keys(list: seq<Tp>): seq<Key> {
    seq(|list|, k requires 0 <= k < |list| => KeyOf(list[k]))
  }

  /** The first entry at or above a frequency, or the end of the list. */
  function Boundary(list: seq<Tp>, freq: nat): (i: nat)
    ensures i <= |list|
  {
    if list == [] || list[0].freq >= freq then 0 else 1 + Boundary(list[1..], freq)
  }

  class TpList {
    /** Capacity as the caller states it; the array holds the entries, and slots past the count hold leftovers. */
    const maxNum: nat
    const tps: array<Tp>
    var count: nat

    constructor (maxNum: nat, slots: nat)
      ensures this.maxNum == maxNum && tps.Length == slots && fresh(tps) && count == 0
    {
      this.maxNum := maxNum;
      tps := new Tp[slots](_ => Tp(0, 0, Undef, 0));
      count := 0;
    }

    /** Makes room at slot i by moving everything from there to the slot past the list up by one. */
    method ShiftUp(i: nat)
      requires i < count < tps.Length
      modifies tps
      ensures tps[..] == old(tps[..i]) + [old(tps[i])] + old(tps[i..count]) + old(tps[count + 1..])
    {
      var j := count;
      while j > i
        invariant i <= j <= count
        invariant tps[..] == old(tps[..j]) + [old(tps[j])] + old(tps[j..count]) + old(tps[count + 1..])
      {
        tps[j] := tps[j - 1];
        j := j - 1;
      }
    }

    /** Two findings that single-cable operation takes for the same transponder. */
    static predicate Near(tp: Tp, freq: nat, symRate: nat) {
      -1000 < AsS32(freq - tp.freq) < 1000 && -1000 < AsS32(symRate - tp.symRate) < 1000
    }

    /** What a near finding changes in the entry already there. */
    static function Merged(tp: Tp, freq: nat, symRate: nat): Tp {
      var delta := AsS32(symRate - tp.symRate);
      if tp.kind == Unknown then tp.(freq := freq, symRate := if delta > 0 then Wrap16(symRate) else tp.symRate)
      else if tp.kind == Checked && delta > 0 then tp.(freq := freq, symRate := Wrap16(symRate), kind := Unknown)
      else tp
    }

    /** In single-cable operation some entry up to the place of a finding is near it. */
    static predicate NearFirst(list: seq<Tp>, freq: nat, symRate: nat) {
      exists k | 0 <= k < |list| :: k <= Boundary(list, freq) && Near(list[k], freq, symRate)
    }

    /** A finding changed the first entry near it, and nothing else. */
    static ghost predicate MergedInto(before: seq<Tp>, after: seq<Tp>, count: nat, freq: nat, symRate: nat) {
      count <= |before| && exists k | 0 <= k < count ::
        && k <= Boundary(before[..count], freq) && Near(before[k], freq, symRate)
        && (forall j | 0 <= j < k :: !Near(before[j], freq, symRate))
        && after == before[k := Merged(before[k], freq, symRate)]
    }

    /** Storing a finding at its place needs the slot behind the list, which a full array does not have. */
    predicate Spills(freq: nat, symRate: nat, append: bool, unicable: bool)
      reads this, tps
      requires count <= tps.Length
    {
      && count == tps.Length && !append && Boundary(tps[..count], freq) < count
      && !(unicable && NearFirst(tps[..count], freq, symRate))
    }

    /**
     * The caller has already counted the new entry, so the last counted slot holds a leftover. A count that wrapped
     * around to 0 makes the code write in front of the array.
     */
    method SaveScannedTp(freq: nat, symRate: nat, append: bool, unicable: bool) returns (ret: Ret)
      requires maxNum <= tps.Length
      modifies tps
      ensures ret == NoMemory <==> count > maxNum
      ensures ret == OutOfBounds <==> count <= maxNum && (count == 0 || old(Spills(freq, symRate, append, unicable)))
      ensures ret != Ok ==> tps[..] == old(tps[..])
      ensures ret == Ok && append ==>
                tps[..] == old(tps[..count - 1]) + [Found(freq, symRate)] + old(tps[count..])
      ensures ret == Ok && !append && !(unicable && NearFirst(old(tps[..count]), freq, symRate)) ==>
                Inserted(old(tps[..]), tps[..], count, Found(freq, symRate))
      ensures ret == Ok && !append && unicable && NearFirst(old(tps[..count]), freq, symRate) ==>
                MergedInto(old(tps[..]), tps[..], count, freq, symRate)
    {
      hide NearFirst, Near, Merged, Boundary, Inserted;
      if count > maxNum {
        return NoMemory;
      }
      if count == 0 {
        return OutOfBounds;
      }
      ret := Ok;
      var found := Tp(freq, Wrap16(symRate), Unknown, 0);
      if append {
        tps[count - 1] := found;
        return;
      }
      var i, near := FindPlace(freq, symRate, unicable);
      if near {
        MergeAt(i, freq, symRate);
      } else if i < count && count == tps.Length {
        ret := OutOfBounds;
      } else {
        StoreAt(i, found);
      }
    }

    /** Brings an entry up to date with a near finding: an untried one, or a marked one whose rate was too low. */
    method MergeAt(i: nat, freq: nat, symRate: nat)
      requires i < tps.Length
      modifies tps
      ensures tps[..] == old(tps[..])[i := Merged(old(tps[i]), freq, symRate)]
    {
      hide AsS32;
      var tp := tps[i];
      var deltaSymRate := AsS32(symRate - tp.symRate);
      if tp.kind == Unknown {
        tp := tp.(freq := freq);
        if deltaSymRate > 0 {
          tp := tp.(symRate := Wrap16(symRate));
        }
      } else if tp.kind == Checked {
        if deltaSymRate > 0 {
          tp := tp.(freq := freq, symRate := Wrap16(symRate), kind := Unknown);
        }
      }
      tps[i] := tp;
    }

    /** Stores an entry in front of slot i, or in the last counted slot when i is the count. */
    method StoreAt(i: nat, tp: Tp)
      requires 1 <= count <= tps.Length && i <= count && (i < count ==> count < tps.Length)
      requires forall k | 0 <= k < i :: tps[k].freq < tp.freq
      requires i < count ==> tp.freq <= tps[i].freq
      modifies tps
      ensures Inserted(old(tps[..]), tps[..], count, tp)
    {
      hide Inserted;
      ghost var before := tps[..];
      if i == count {
        tps[count - 1] := tp;
        InsertedLast(before, count, tp);
        assert tps[..] == before[count - 1 := tp];
      } else {
        ShiftUp(i);
        tps[i] := tp;
        InsertedAt(before, tps[..], count, i, tp);
      }
    }

    /** Where the loop over the list stops: at a near entry, at the place of the finding, or at the end. */
    method FindPlace(freq: nat, symRate: nat, unicable: bool) returns (i: nat, near: bool)
      requires count <= tps.Length
      ensures near <==> unicable && NearFirst(tps[..count], freq, symRate)
      ensures near ==> i < count && i <= Boundary(tps[..count], freq) && Near(tps[i], freq, symRate)
      ensures near ==> forall k | 0 <= k < i :: !Near(tps[k], freq, symRate)
      ensures !near ==> i == Boundary(tps[..count], freq) && i <= count
      ensures !near ==> (forall k | 0 <= k < i :: tps[k].freq < freq) && (i < count ==> freq <= tps[i].freq)
    {
      ghost var list := tps[..count];
      i := 0;
      while i < count
        invariant i <= count
        invariant forall k | 0 <= k < i :: list[k].freq < freq && !(unicable && Near(list[k], freq, symRate))
      {
        BoundaryAtLeast(list, freq, i);
        if unicable {
          var deltaFreq, deltaSymRate := AsS32(freq - tps[i].freq), AsS32(symRate - tps[i].symRate);
          if deltaFreq < 1000 && deltaFreq > -1000 && deltaSymRate < 1000 && deltaSymRate > -1000 {
            assert Near(list[i], freq, symRate);
            return i, true;
          }
        }
        if freq <= tps[i].freq {
          break;
        }
        i := i + 1;
      }
      BoundaryIs(list, freq, i);
      near := false;
    }

    /** Where the search for the compared frequency stops, if its 8-bit counter gets there. */
    method FindBoundary(compareFreq: nat) returns (ends: bool, index: nat)
      requires count <= tps.Length
      ensures ends <==> Boundary(tps[..count], compareFreq) <= 255
      ensures ends ==> index == Boundary(tps[..count], compareFreq)
      ensures ends <==> SearchEnds(tps[..count], compareFreq)
    {
      SearchEndsIff(tps[..count], compareFreq);
      var i: nat := 0;
      index := 0;
      while i < count
        invariant i <= Boundary(tps[..count], compareFreq) && i <= 255
        invariant Boundary(tps[..count], compareFreq) == i + Boundary(tps[..count][i..], compareFreq)
        decreases 255 - i
      {
        BoundaryStep(tps[..count][i..], compareFreq);
        assert tps[..count][i..][1..] == tps[..count][i + 1..];
        if tps[i].freq >= compareFreq {
          return true, i;
        }
        if i == 255 {
          return false, 0;
        }
        i := Wrap8(i + 1);
      }
      return true, count;
    }

    /**
     * Moves the entries that did not lock behind the others, by swapping, up to and including the boundary slot. The
     * loops may look at two slots behind the list; where their 8-bit counter cannot pass the boundary they never end or
     * go on in front of the array, and the model only says which.
     */
    method RemoveUnlocked(compareFreq: nat) returns (outcome: Separation)
      requires count <= tps.Length
      modifies tps
      ensures outcome == Fate(old(tps[..]), old(Boundary(tps[..count], compareFreq)))
      ensures outcome == Completed ==> Separated(old(tps[..]), tps[..], old(Boundary(tps[..count], compareFreq)) + 1)
    {
      hide PartRun, Good, Separated;
      var ends, index := FindBoundary(compareFreq);
      if !ends {
        return Endless;
      }
      if index == 255 && index < tps.Length {
        var mixed := FirstSlotsMixed();
        return if mixed then Outside else Endless;
      }
      var i: Byte := 0;
      var moveSteps: nat := 0;
      ghost var slots, n: nat := tps[..], 0;
      RunBegins(slots, index);
      while i <= index
        invariant i <= index + 1 && i <= tps.Length == |slots| && index <= 255 && NoWrap(slots, index)
        invariant PartRun(Start(slots), index, n) == Some(Part(Outer, i, moveSteps, tps[..]))
        decreases index + 1 - i
      {
        if i == tps.Length {
          return Outside;
        }
        RunIsGood(slots, index, n);
        n := RunStep(slots, index, n);
        if tps[i].kind != Checked {
          i := Wrap8(i + 1);
          continue;
        }
        n, i, moveSteps := SkipChecked(slots, n, i, moveSteps, index);
        if i == tps.Length {
          RunOutside(slots, index, n);
          return Outside;
        }
        n := RunStep(slots, index, n);
        n, i := MoveDown(slots, n, i, moveSteps, index);
        if i == tps.Length {
          RunOutside(slots, index, n);
          return Outside;
        }
        n := RunStep(slots, index, n);
      }
      RunCompletes(slots, index, n);
      outcome := Completed;
    }

    /** Whether some, but not all, of the slots that an 8-bit counter can name did not lock. */
    method FirstSlotsMixed() returns (mixed: bool)
      requires tps.Length >= 256
      ensures mixed <==> Mixed(tps[..])
    {
      var checked, other := false, false;
      for i := 0 to 256
        invariant checked <==> AnyChecked(tps[..i])
        invariant other <==> AnyOther(tps[..i])
      {
        AnyGrows(tps[..], i);
        if tps[i].kind == Checked {
          checked := true;
        } else {
          other := true;
        }
      }
      mixed := checked && other;
    }

    /** Counts a run of entries that did not lock. */
    method SkipChecked(ghost slots: seq<Tp>, ghost before: nat, from: Byte, steps: nat, index: nat)
        returns (ghost n: nat, i: Byte, moveSteps: nat)
      requires PartRun(Start(slots), index, before) == Some(Part(Skipping, from, steps, tps[..]))
      requires NoWrap(slots, index) && |slots| == tps.Length && from <= index && from < tps.Length
      requires tps[from].kind == Checked
      ensures PartRun(Start(slots), index, n) == Some(Part(Skipping, i, moveSteps, tps[..]))
      ensures from < i <= index + 1 && i <= tps.Length && (i < tps.Length && i <= index ==> tps[i].kind != Checked)
    {
      hide PartRun;
      n, i, moveSteps := before, from, steps;
      while i < tps.Length && tps[i].kind == Checked && i <= index
        invariant from <= i <= index + 1 && i <= tps.Length && (i == from ==> tps[i].kind == Checked)
        invariant PartRun(Start(slots), index, n) == Some(Part(Skipping, i, moveSteps, tps[..]))
        decreases index + 1 - i
      {
        n := RunStep(slots, index, n);
        moveSteps := Wrap16(moveSteps + 1);
        i := Wrap8(i + 1);
      }
    }

    /** Swaps a run of other entries down past the ones that did not lock. */
    method MoveDown(ghost slots: seq<Tp>, ghost before: nat, from: Byte, moveSteps: nat, index: nat)
        returns (ghost n: nat, i: Byte)
      requires PartRun(Start(slots), index, before) == Some(Part(Moving, from, moveSteps, tps[..]))
      requires NoWrap(slots, index) && |slots| == tps.Length && from <= index + 1 && from < tps.Length
      modifies tps
      ensures PartRun(Start(slots), index, n) == Some(Part(Moving, i, moveSteps, tps[..]))
      ensures from <= i <= index + 1 && i <= tps.Length && (i < tps.Length && i <= index ==> tps[i].kind == Checked)
    {
      hide PartRun;
      n, i := before, from;
      while i < tps.Length && tps[i].kind != Checked && i <= index
        invariant from <= i <= index + 1 && i <= tps.Length
        invariant PartRun(Start(slots), index, n) == Some(Part(Moving, i, moveSteps, tps[..]))
        decreases index + 1 - i
      {
        RunIsGood(slots, index, n);
        n := RunStep(slots, index, n);
        var freq, symRate := tps[i - moveSteps].freq, tps[i - moveSteps].symRate;
        tps[i - moveSteps] := tps[i];
        tps[i] := Tp(freq, symRate, Checked, 0);
        i := Wrap8(i + 1);
      }
    }
  }

  /* ---------- The two loops, step by step ---------- */

  /** What becomes of a separation. */
  datatype Separation = Completed | Outside | Endless

  datatype Loop = Outer | Skipping | Moving

  /** The variables of the separating loops, and which of them is running. */
  datatype Part = Part(loop: Loop, i: Byte, m: nat, slots: seq<Tp>)

  function Start(slots: seq<Tp>): Part { Part(Outer, 0, 0, slots) }

  /** One test and what it leads to; none when it looks outside the array. An ended run stays where it is. */
  function PartStep(s: Part, index: nat): (t: Option<Part>) {
    if s.loop == Outer && s.i > index then Some(s)
    else if s.i >= |s.slots| then None
    else
      var checked := s.slots[s.i].kind == Checked;
      match s.loop
      case Outer => Some(if checked then s.(loop := Skipping) else s.(i := Wrap8(s.i + 1)))
      case Skipping =>
        Some(if checked && s.i <= index then s.(i := Wrap8(s.i + 1), m := Wrap16(s.m + 1)) else s.(loop := Moving))
      case Moving =>
        if checked || s.i > index then Some(s.(loop := Outer))
        else if s.m > s.i then None
        else
          var to := s.slots[s.i - s.m];
          Some(s.(i := Wrap8(s.i + 1), slots := s.slots[s.i - s.m := s.slots[s.i]][s.i := Tp(to.freq, to.symRate,
                                                                                             Checked, 0)]))
  }

  function PartRun(s: Part, index: nat, n: nat): (t: Option<Part>) {
    if n == 0 then Some(s)
    else
      match PartRun(s, index, n - 1)
      case None => None
      case Some(t) => PartStep(t, index)
  }

  /** The counter runs into the boundary or the end of the array before it wraps around. */
  predicate NoWrap(slots: seq<Tp>, index: nat) {
    index <= 254 || |slots| <= 255
  }

  predicate Ended(s: Option<Part>, index: nat) {
    s.Some? && s.value.loop == Outer && s.value.i > index
  }

  predicate AnyChecked(slots: seq<Tp>) {
    exists k | 0 <= k < |slots| :: slots[k].kind == Checked
  }

  predicate AnyOther(slots: seq<Tp>) {
    exists k | 0 <= k < |slots| :: slots[k].kind != Checked
  }

  lemma AnyGrows(slots: seq<Tp>, i: nat)
    requires i < |slots|
    ensures AnyChecked(slots[..i + 1]) <==> AnyChecked(slots[..i]) || slots[i].kind == Checked
    ensures AnyOther(slots[..i + 1]) <==> AnyOther(slots[..i]) || slots[i].kind != Checked
  {
    var less, more := slots[..i], slots[..i + 1];
    assert more[i] == slots[i] && forall k | 0 <= k < i :: more[k] == less[k];
  }

  /** Some, but not all, of the slots that an 8-bit counter can name did not lock. */
  predicate Mixed(slots: seq<Tp>)
    requires |slots| >= 256
  {
    AnyChecked(slots[..256]) && AnyOther(slots[..256])
  }

  /**
   * What the boundary and the array let come of the loops; Outside is behind the array, or in front of it when mixed.
   */
  function Expected(slots: seq<Tp>, index: nat): Separation {
    if index >= 255 && |slots| >= 256 then if Mixed(slots) then Outside else Endless
    else if index >= |slots| then Outside
    else if index + 1 == |slots| && AnyChecked(slots) then Outside
    else Completed
  }

  /** The same with the search in front, which does not find a boundary above 255. */
  function Fate(slots: seq<Tp>, boundary: nat): Separation {
    if boundary > 255 then Endless else Expected(slots, boundary)
  }

  /** What holds all along while the counter does not wrap around. */
  ghost predicate Good(before: seq<Tp>, s: Part, index: nat) {
    && s.i <= index + 1 && Parted(before, s.slots, s.i, s.m)
    && match s.loop
       case Outer => s.m > 0 ==> s.i < |s.slots| && (s.i <= index ==> s.slots[s.i].kind == Checked)
       case Skipping => s.m > 0 || (s.i <= index && s.i < |s.slots| && s.slots[s.i].kind == Checked)
       case Moving => s.m > 0
  }

  lemma StepIsGood(before: seq<Tp>, s: Part, index: nat)
    requires Good(before, s, index) && PartStep(s, index).Some?
    requires NoWrap(before, index) || s.i < 255 || PartStep(s, index).value.i == s.i
    ensures Good(before, PartStep(s, index).value, index)
  {
    hide Parted;
    PartedBounds(before, s.slots, s.i, s.m);
    if s.i <= index && s.i < |s.slots| {
      if s.slots[s.i].kind == Checked {
        Skipped(before, s.slots, s.i, s.m);
      } else if s.m == 0 {
        Passed(before, s.slots, s.i);
      } else if s.loop == Moving {
        Swapped(before, s.slots, PartStep(s, index).value.slots, s.i, s.m);
      }
    }
  }

  lemma PartedBounds(before: seq<Tp>, now: seq<Tp>, i: nat, m: nat)
    requires Parted(before, now, i, m)
    ensures m <= i <= |now| == |before|
  {}

  lemma {:induction false} RunIsGood(slots: seq<Tp>, index: nat, n: nat)
    requires NoWrap(slots, index) && PartRun(Start(slots), index, n).Some?
    ensures Good(slots, PartRun(Start(slots), index, n).value, index)
    ensures var s := PartRun(Start(slots), index, n).value; s.m <= s.i <= |slots| == |s.slots|
  {
    if n == 0 {
      assert slots[..0] == [];
    } else {
      RunIsGood(slots, index, n - 1);
      StepIsGood(slots, PartRun(Start(slots), index, n - 1).value, index);
    }
  }

  lemma RunBegins(slots: seq<Tp>, index: nat)
    ensures PartRun(Start(slots), index, 0) == Some(Start(slots))
  {}

  lemma RunStep(slots: seq<Tp>, index: nat, n: nat) returns (next: nat)
    requires PartRun(Start(slots), index, n).Some?
    ensures PartRun(Start(slots), index, next) == PartStep(PartRun(Start(slots), index, n).value, index)
  {
    next := n + 1;
  }

  /** A run that still counts failed entries at the end of the array is about to look behind it. */
  lemma RunOutside(slots: seq<Tp>, index: nat, n: nat)
    requires index <= 255 && NoWrap(slots, index) && PartRun(Start(slots), index, n).Some?
    requires var s := PartRun(Start(slots), index, n).value; s.loop != Outer && s.i == |slots|
    ensures Expected(slots, index) == Outside
  {
    RunIsGood(slots, index, n);
    var s := PartRun(Start(slots), index, n).value;
    FailedBehind(slots, s.slots, s.i, s.m);
    assert slots[..s.i] == slots;
  }

  lemma FailedBehind(before: seq<Tp>, now: seq<Tp>, i: nat, m: nat)
    requires Parted(before, now, i, m)
    ensures m > 0 <==> AnyChecked(before[..i])
  {
    AllUnchecked(before[..i]);
  }

  lemma {:induction false} AllUnchecked(list: seq<Tp>)
    ensures |Unchecked(list)| < |list| <==> AnyChecked(list)
  {
    if list != [] {
      var n := |list| - 1;
      AllUnchecked(list[..n]);
      if AnyChecked(list) {
        var k :| 0 <= k < |list| && list[k].kind == Checked;
        assert k < n ==> list[..n][k].kind == Checked;
      }
      if AnyChecked(list[..n]) {
        var k :| 0 <= k < n && list[..n][k].kind == Checked;
        assert list[k].kind == Checked;
      }
    }
  }

  /** A run that ends has separated the slots, and neither array nor counter was in its way. */
  lemma RunCompletes(slots: seq<Tp>, index: nat, n: nat)
    requires NoWrap(slots, index) && Ended(PartRun(Start(slots), index, n), index)
    ensures Expected(slots, index) == Completed
    ensures Separated(slots, PartRun(Start(slots), index, n).value.slots, index + 1)
  {
    hide PartRun;
    RunIsGood(slots, index, n);
    var s := PartRun(Start(slots), index, n).value;
    hide Parted, Separated;
    PartedBounds(slots, s.slots, s.i, s.m);
    FailedBehind(slots, s.slots, s.i, s.m);
    PartedIsSeparated(slots, s.slots, s.i, s.m);
    if index + 1 == |slots| {
      assert slots[..s.i] == slots;
    }
  }

  lemma PartedIsSeparated(before: seq<Tp>, now: seq<Tp>, i: nat, m: nat)
    requires Parted(before, now, i, m)
    ensures Separated(before, now, i)
  {}

  /** From any good state on, steps lead to the end or behind the array. */
  lemma RunGoesOn(slots: seq<Tp>, index: nat, n: nat) returns (last: nat)
    requires NoWrap(slots, index) && PartRun(Start(slots), index, n).Some?
    ensures PartRun(Start(slots), index, last) == None || Ended(PartRun(Start(slots), index, last), index)
    decreases Left(PartRun(Start(slots), index, n).value, index), Rank(PartRun(Start(slots), index, n).value, index)
  {
    hide Good;
    RunIsGood(slots, index, n);
    var next := n + 1;
    if Ended(PartRun(Start(slots), index, n), index) {
      last := n;
    } else if PartRun(Start(slots), index, next) == None {
      last := next;
    } else {
      last := RunGoesOn(slots, index, next);
    }
  }

  function Left(s: Part, index: nat): nat {
    if s.i <= index + 1 then index + 1 - s.i else 0
  }

  /** Tests until the counter moves or the run ends. */
  function Rank(s: Part, index: nat): nat {
    var checked := s.i < |s.slots| && s.slots[s.i].kind == Checked;
    match s.loop
    case Outer => if checked && s.i <= index then 1 else 0
    case Skipping => if checked && s.i <= index then 0 else 2
    case Moving => if checked && s.i <= index then 2 else 1
  }

  /** The first round of the counter, up to its last slot. */
  lemma FirstRound(slots: seq<Tp>, index: nat, n: nat) returns (last: nat)
    requires index >= 255 && |slots| >= 256
    requires PartRun(Start(slots), index, n).Some? && Good(slots, PartRun(Start(slots), index, n).value, index)
    ensures PartRun(Start(slots), index, last).Some?
    ensures var t := PartRun(Start(slots), index, last).value; t.i == 255 && Good(slots, t, index)
    decreases 255 - PartRun(Start(slots), index, n).value.i, Rank(PartRun(Start(slots), index, n).value, index)
  {
    hide PartStep, Good, Rank;
    var s := PartRun(Start(slots), index, n).value;
    if s.i == 255 {
      last := n;
    } else {
      StepProceeds(slots, s, index);
      StepIsGood(slots, s, index);
      var next := RunStep(slots, index, n);
      last := FirstRound(slots, index, next);
    }
  }

  /** A step inside the array moves the counter, or brings it nearer to moving. */
  lemma StepProceeds(before: seq<Tp>, s: Part, index: nat)
    requires index >= 255 && |before| >= 256 && Good(before, s, index)
    ensures PartStep(s, index).Some?
    ensures var t := PartStep(s, index).value; t.i == Wrap8(s.i + 1) || (t.i == s.i && Rank(t, index) < Rank(s, index))
  {
    hide Parted;
    PartedBounds(before, s.slots, s.i, s.m);
  }

  /** The step that wraps the counter around in a mixed array has failed entries behind it and another in front. */
  lemma WrapIsMixed(before: seq<Tp>, s: Part, index: nat)
    requires index >= 255 && |before| >= 256 && Mixed(before) && Good(before, s, index) && s.i == 255
    requires PartStep(s, index).Some? && PartStep(s, index).value.i != 255
    ensures var t := PartStep(s, index).value;
            t.i == 0 && t.m > 0 && t.loop != Outer && t.slots != [] && t.slots[0].kind != Checked
  {
    PartedBounds(before, s.slots, s.i, s.m);
    FrontDidNotFail(before, s.slots, 255, s.m);
    AnyGrows(before, 255);
    hide Parted, Mixed;
    assert before[..256] == before[..255 + 1];
  }

  /** Once the counter is back at a first slot that did not fail, the next move goes in front of the array. */
  lemma WrapsOut(slots: seq<Tp>, index: nat, n: nat)
    requires PartRun(Start(slots), index, n).Some?
    requires var t := PartRun(Start(slots), index, n).value;
             t.i == 0 && t.m > 0 && t.loop != Outer && t.slots != [] && t.slots[0].kind != Checked
    ensures PartRun(Start(slots), index, n + 2) == None
  {
    assert PartRun(Start(slots), index, n + 1) == PartStep(PartRun(Start(slots), index, n).value, index);
  }

  lemma FrontDidNotFail(before: seq<Tp>, now: seq<Tp>, i: nat, m: nat)
    requires Parted(before, now, i, m) && i < |now|
    ensures now[i] == before[i] && (m < i ==> now[0].kind != Checked)
    ensures m == i ==> !AnyOther(before[..i])
    ensures m == 0 ==> !AnyChecked(before[..i])
  {
    assert now[i] == now[i..][0] == before[i..][0] == before[i];
    AllUnchecked(before[..i]);
    if m < i {
      assert now[..i - m][0] == Unchecked(before[..i])[0];
    }
    if m == i {
      NoneUnchecked(before[..i]);
    }
  }

  lemma {:induction false} NoneUnchecked(list: seq<Tp>)
    requires Unchecked(list) == []
    ensures !AnyOther(list)
  {
    if list != [] {
      var n := |list| - 1;
      NoneUnchecked(list[..n]);
      assert list[..n + 1] == list;
      AnyGrows(list, n);
    }
  }

  /** From the last slot of the first round, a mixed array leads in front of itself. */
  lemma MixedLeaves(slots: seq<Tp>, index: nat, n: nat) returns (last: nat)
    requires index >= 255 && |slots| >= 256 && Mixed(slots) && PartRun(Start(slots), index, n).Some?
    requires var s := PartRun(Start(slots), index, n).value; s.i == 255 && Good(slots, s, index)
    ensures PartRun(Start(slots), index, last) == None
    decreases Rank(PartRun(Start(slots), index, n).value, index)
  {
    hide PartStep, Good, Rank, Mixed;
    var s := PartRun(Start(slots), index, n).value;
    StepProceeds(slots, s, index);
    var next := RunStep(slots, index, n);
    if PartStep(s, index).value.i == 255 {
      StepIsGood(slots, s, index);
      last := MixedLeaves(slots, index, next);
    } else {
      WrapIsMixed(slots, s, index);
      WrapsOut(slots, index, next);
      last := next + 2;
    }
  }

  lemma {:induction false} NothingMoves(slots: seq<Tp>, index: nat, n: nat)
    requires index >= 255 && |slots| >= 256 && !AnyChecked(slots[..256])
    ensures PartRun(Start(slots), index, n).Some?
    ensures var s := PartRun(Start(slots), index, n).value; s.loop == Outer && s.slots == slots
  {
    if n > 0 {
      NothingMoves(slots, index, n - 1);
      var s := PartRun(Start(slots), index, n - 1).value;
      assert slots[..256][s.i] == slots[s.i];
    }
  }

  lemma {:induction false} EverythingIsSkipped(slots: seq<Tp>, index: nat, n: nat)
    requires index >= 255 && |slots| >= 256 && !AnyOther(slots[..256])
    ensures PartRun(Start(slots), index, n).Some?
    ensures var s := PartRun(Start(slots), index, n).value;
            s.slots == slots && (s.loop == Skipping || (s.loop == Outer && s.i == 0))
  {
    if n > 0 {
      EverythingIsSkipped(slots, index, n - 1);
      var s := PartRun(Start(slots), index, n - 1).value;
      assert slots[..256][s.i] == slots[s.i];
    }
  }

  ghost predicate Ends(slots: seq<Tp>, index: nat) {
    exists n: nat :: Ended(PartRun(Start(slots), index, n), index)
  }

  ghost predicate Leaves(slots: seq<Tp>, index: nat) {
    exists n: nat :: PartRun(Start(slots), index, n) == None
  }

  /** After n steps the loops are inside the array and have not ended. */
  predicate GoesOn(slots: seq<Tp>, index: nat, n: nat) {
    PartRun(Start(slots), index, n).Some? && !Ended(PartRun(Start(slots), index, n), index)
  }

  /**
   * For every array and boundary: the loops end, leave the array, or go on for ever inside it, exactly as expected.
   * With two slots behind the boundary they end exactly up to 254; from 255 on they leave the array exactly when it
   * is mixed.
   */
  lemma SeparationOutcome(slots: seq<Tp>, index: nat)
    ensures Ends(slots, index) <==> Expected(slots, index) == Completed
    ensures Leaves(slots, index) <==> Expected(slots, index) == Outside
    ensures (forall n: nat :: GoesOn(slots, index, n)) <==> Expected(slots, index) == Endless
    ensures index + 2 <= |slots| ==> (Ends(slots, index) <==> index <= 254)
  {
    match Expected(slots, index)
    case Completed =>
      OutcomeCompleted(slots, index);
      var n: nat :| Ended(PartRun(Start(slots), index, n), index);
      assert !GoesOn(slots, index, n);
    case Outside =>
      OutcomeOutside(slots, index);
      var n: nat :| PartRun(Start(slots), index, n) == None;
      assert !GoesOn(slots, index, n);
    case Endless =>
      OutcomeEndless(slots, index);
  }

  lemma OutcomeCompleted(slots: seq<Tp>, index: nat)
    requires Expected(slots, index) == Completed
    ensures Ends(slots, index) && !Leaves(slots, index)
  {
    var last := RunGoesOn(slots, index, 0);
    forall n: nat ensures PartRun(Start(slots), index, n).Some? {
      NeverOutside(slots, index, n);
    }
    assert Ended(PartRun(Start(slots), index, last), index);
  }

  lemma OutcomeOutside(slots: seq<Tp>, index: nat)
    requires Expected(slots, index) == Outside
    ensures !Ends(slots, index) && Leaves(slots, index)
  {
    if Ends(slots, index) {
      var n: nat :| Ended(PartRun(Start(slots), index, n), index);
      RunCompletes(slots, index, n);
    }
    var last;
    if index >= 255 && |slots| >= 256 {
      RunBegins(slots, index);
      StartIsGood(slots, index);
      last := FirstRound(slots, index, 0);
      last := MixedLeaves(slots, index, last);
    } else {
      last := RunGoesOn(slots, index, 0);
    }
    assert PartRun(Start(slots), index, last) == None;
  }

  lemma StartIsGood(slots: seq<Tp>, index: nat)
    ensures Good(slots, Start(slots), index)
  {
    assert slots[..0] == [];
  }

  lemma OutcomeEndless(slots: seq<Tp>, index: nat)
    requires Expected(slots, index) == Endless
    ensures !Ends(slots, index) && !Leaves(slots, index)
    ensures forall n: nat :: GoesOn(slots, index, n)
  {
    forall n: nat ensures GoesOn(slots, index, n) {
      if AnyChecked(slots[..256]) {
        EverythingIsSkipped(slots, index, n);
      } else {
        NothingMoves(slots, index, n);
      }
    }
    assert forall n: nat :: GoesOn(slots, index, n) ==> PartRun(Start(slots), index, n).Some?;
  }

  lemma {:induction false} NeverOutside(slots: seq<Tp>, index: nat, n: nat)
    requires Expected(slots, index) == Completed
    ensures PartRun(Start(slots), index, n).Some?
  {
    if n > 0 {
      NeverOutside(slots, index, n - 1);
      RunIsGood(slots, index, n - 1);
      var s := PartRun(Start(slots), index, n - 1).value;
      FailedBehind(slots, s.slots, s.i, s.m);
      if s.i == |slots| {
        assert slots[..s.i] == slots;
      }
    }
  }

  /* ---------- The search for the boundary ---------- */

  /** The counter of the search after n steps; it stands still once it is at the boundary. */
  function Searched(list: seq<Tp>, freq: nat, n: nat): Byte {
    if n == 0 then 0
    else
      var i := Searched(list, freq, n - 1);
      if i < |list| && list[i].freq < freq then Wrap8(i + 1) else i
  }

  ghost predicate SearchEnds(list: seq<Tp>, freq: nat) {
    exists n: nat :: Searched(list, freq, n) == Boundary(list, freq)
  }

  lemma {:induction false} SearchedSoFar(list: seq<Tp>, freq: nat, n: nat)
    ensures n <= 255 && n <= Boundary(list, freq) ==> Searched(list, freq, n) == n
    ensures Boundary(list, freq) <= 255 && n >= Boundary(list, freq) ==> Searched(list, freq, n) == Boundary(list, freq)
  {
    if n > 0 {
      SearchedSoFar(list, freq, n - 1);
      BoundaryHolds(list, freq);
    }
  }

  /** Whatever the list: an 8-bit counter finds the boundary exactly when it is at most 255. */
  lemma SearchEndsIff(list: seq<Tp>, freq: nat)
    ensures SearchEnds(list, freq) <==> Boundary(list, freq) <= 255
  {
    if Boundary(list, freq) <= 255 {
      SearchedSoFar(list, freq, Boundary(list, freq));
    }
  }

  /** A list of 255 findings below the compared frequency, whatever they are, is never separated. */
  lemma TwoHundredFiftyFiveStay(list: seq<Tp>, slots: seq<Tp>, freq: nat)
    requires |list| == 255 && (forall k | 0 <= k < 255 :: list[k].freq < freq) && |slots| >= 256 && slots[..255] == list
    ensures Boundary(list, freq) == 255
    ensures Fate(slots, Boundary(list, freq)) == if Mixed(slots) then Outside else Endless
    ensures Leaves(slots, 255) <==> Mixed(slots)
  {
    BoundaryIs(list, freq, 255);
    SeparationOutcome(slots, 255);
  }

  /** With one failure among them, and a slot behind that never held a finding, the loops go in front of the array. */
  lemma OneFailureLeaves(slots: seq<Tp>, k: nat)
    requires k < 255 && |slots| >= 256 && slots[k].kind == Checked && slots[255].kind == Undef
    ensures Leaves(slots, 255)
  {
    assert slots[..256][k].kind == Checked && slots[..256][255].kind != Checked;
    SeparationOutcome(slots, 255);
  }

  lemma {:induction false} BoundaryHolds(list: seq<Tp>, freq: nat)
    ensures forall k | 0 <= k < Boundary(list, freq) :: list[k].freq < freq
    ensures Boundary(list, freq) < |list| ==> list[Boundary(list, freq)].freq >= freq
  {
    if list != [] && list[0].freq < freq {
      BoundaryHolds(list[1..], freq);
      forall k | 0 <= k < Boundary(list, freq) ensures list[k].freq < freq {
        if k > 0 {
          assert list[k] == list[1..][k - 1];
        }
      }
    }
  }

  lemma BoundaryAtLeast(list: seq<Tp>, freq: nat, i: nat)
    requires i <= |list| && forall k | 0 <= k < i :: list[k].freq < freq
    ensures Boundary(list, freq) >= i
  {
    BoundaryHolds(list, freq);
  }

  lemma BoundaryIs(list: seq<Tp>, freq: nat, i: nat)
    requires i <= |list| && forall k | 0 <= k < i :: list[k].freq < freq
    requires i < |list| ==> list[i].freq >= freq
    ensures Boundary(list, freq) == i
  {
    BoundaryHolds(list, freq);
  }

  lemma BoundaryStep(list: seq<Tp>, freq: nat)
    requires list != []
    ensures Boundary(list, freq) == if list[0].freq >= freq then 0 else 1 + Boundary(list[1..], freq)
  {}

  /**
   * Halfway: of the first i entries those that locked or were not tried lead in order, the last m did not lock, and
   * the rest is untouched.
   */
  ghost predicate Parted(before: seq<Tp>, now: seq<Tp>, i: nat, m: nat) {
    && |before| == |now| && m <= i <= |now|
    && now[..i - m] == Unchecked(before[..i])
    && (forall k | i - m <= k < i :: now[k].kind == Checked)
    && now[i..] == before[i..]
    && multiset(Keys(now[..i])) == multiset(Keys(before[..i]))
  }

  lemma KeysGrow(list: seq<Tp>, i: nat)
    requires i < |list|
    ensures Keys(list[..i + 1]) == Keys(list[..i]) + [KeyOf(list[i])]
  {}

  lemma Passed(before: seq<Tp>, now: seq<Tp>, i: nat)
    requires Parted(before, now, i, 0) && i < |now| && now[i].kind != Checked
    ensures Parted(before, now, i + 1, 0)
  {
    assert now[i] == now[i..][0] == before[i..][0] == before[i];
    UncheckedGrows(before, i);
    KeysGrow(before, i);
    KeysGrow(now, i);
  }

  lemma Skipped(before: seq<Tp>, now: seq<Tp>, i: nat, m: nat)
    requires Parted(before, now, i, m) && i < |now| && now[i].kind == Checked
    ensures Parted(before, now, i + 1, m + 1)
  {
    assert now[i] == now[i..][0] == before[i..][0] == before[i];
    UncheckedGrows(before, i);
    KeysGrow(before, i);
    KeysGrow(now, i);
  }

  lemma Swapped(before: seq<Tp>, now: seq<Tp>, after: seq<Tp>, i: nat, m: nat)
    requires Parted(before, now, i, m) && 0 < m && i < |now| && now[i].kind != Checked
    requires after == now[i - m := now[i]][i := Tp(now[i - m].freq, now[i - m].symRate, Checked, 0)]
    ensures Parted(before, after, i + 1, m)
  {
    assert now[i] == now[i..][0] == before[i..][0] == before[i];
    UncheckedGrows(before, i);
    KeysGrow(before, i);
    assert after[..i + 1 - m] == now[..i - m] + [now[i]];
    SwapKeys(now, after, i, m);
  }

  lemma SwapKeys(now: seq<Tp>, after: seq<Tp>, i: nat, m: nat)
    requires 0 < m <= i < |now| && now[i - m].kind == Checked
    requires after == now[i - m := now[i]][i := Tp(now[i - m].freq, now[i - m].symRate, Checked, 0)]
    ensures multiset(Keys(after[..i + 1])) == multiset(Keys(now[..i])) + multiset{KeyOf(now[i])}
  {
    var a, b := Keys(now[..i + 1]), Keys(after[..i + 1]);
    KeysGrow(now, i);
    assert b == a[i - m := a[i]][i := a[i - m]];
    assert multiset(b) == multiset(a);
  }

  /**
   * Of the first n slots, those that locked or were not tried come first in their old order; the others follow; no
   * entry is lost.
   */
  ghost predicate Separated(before: seq<Tp>, after: seq<Tp>, n: nat) {
    && |before| == |after| && n <= |before|
    && (var kept := Unchecked(before[..n]);
        && after[..|kept|] == kept
        && forall k | |kept| <= k < n :: after[k].kind == Checked)
    && multiset(Keys(after[..n])) == multiset(Keys(before[..n]))
    && after[n..] == before[n..]
  }

  /** The list in the array grew by insertion; behind it the leftovers are as before, or moved up by one. */
  ghost predicate Inserted(before: seq<Tp>, after: seq<Tp>, count: nat, tp: Tp) {
    && 1 <= count <= |before| == |after|
    && after[..count] == Insert(before[..count - 1], tp)
    && (after[count..] == before[count..]
        || (count < |before| && after[count..] == [before[count - 1]] + before[count + 1..]))
  }

  lemma InsertedLast(before: seq<Tp>, count: nat, tp: Tp)
    requires 1 <= count <= |before| && forall k | 0 <= k < count :: before[k].freq < tp.freq
    ensures Inserted(before, before[count - 1 := tp], count, tp)
  {
    var after := before[count - 1 := tp];
    InsertAt(before[..count - 1], tp, count - 1);
    assert after[..count] == before[..count - 1] + [tp];
    assert after[count..] == before[count..];
  }

  lemma InsertedAt(before: seq<Tp>, after: seq<Tp>, count: nat, i: nat, tp: Tp)
    requires i < count < |before|
    requires forall k | 0 <= k < i :: before[k].freq < tp.freq
    requires tp.freq <= before[i].freq
    requires after == before[..i] + [tp] + before[i..count] + before[count + 1..]
    ensures Inserted(before, after, count, tp)
  {
    var list := before[..count - 1];
    InsertAt(list, tp, i);
    var grown, rest := list[..i] + [tp] + list[i..], [before[count - 1]] + before[count + 1..];
    assert before[i..count] == list[i..] + [before[count - 1]];
    assert before[..i] == list[..i];
    assert after == grown + rest && |grown| == count;
    assert after[..count] == grown;
    assert after[count..] == rest;
  }
}
