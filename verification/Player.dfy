/** The handle-checked player and demultiplexer interface, and the engine behind it. */
module Player {

  datatype Error = NO_ERROR | ERROR

  datatype Kind = Engine | Source | Stream | Filter | Buffer

  datatype Resource = Resource(kind: Kind, handle: nat)

  /** Stream types from here on are video types. */
  const FIRST_VIDEO_TYPE: nat := 39

  lemma {:induction false} FreshHandle(kind: Kind, used: set<Resource>)
    ensures exists h: nat :: h != 0 && Resource(kind, h) !in used
  {
    var bound := Bound(used);
    assert Resource(kind, bound + 1) !in used;
  }

  lemma {:induction false} Bound(used: set<Resource>) returns (bound: nat)
    ensures forall r | r in used :: r.handle <= bound
    decreases used
  {
    if used == {} {
      bound := 0;
    } else {
      var r :| r in used;
      var rest := Bound(used - {r});
      bound := if r.handle > rest then r.handle else rest;
    }
  }

  /** The playback engine: every request succeeds, with a non-zero handle no live resource of its kind has. */
  class PlaybackEngine {
    var live: set<Resource>
    var obtained: seq<Resource>
    var released: seq<Resource>
    /** The packet identifier each stream handle was last created for. */
    var pidOf: map<nat, nat>

    /** What was obtained is what was released and what is still live. */
    ghost predicate Conserved()
      reads this
    {
      multiset(obtained) == multiset(released) + multiset(live)
    }

    constructor ()
      ensures live == {} && obtained == [] && released == [] && Conserved()
    {
      live, obtained, released, pidOf := {}, [], [], map[];
    }

    method Acquire(kind: Kind) returns (h: nat)
      requires Conserved()
      modifies this
      ensures h != 0 && Resource(kind, h) !in old(live)
      ensures forall r :: r in live <==> r in old(live) || r == Resource(kind, h)
      ensures obtained == old(obtained) + [Resource(kind, h)] && released == old(released) && pidOf == old(pidOf)
      ensures Conserved()
    {
      FreshHandle(kind, live);
      h :| h != 0 && Resource(kind, h) !in live;
      live := live + {Resource(kind, h)};
      obtained := obtained + [Resource(kind, h)];
    }

    /** Only what is live may be given back: a second release is a caller's error. */
    method Release(kind: Kind, h: nat)
      requires Conserved() && Resource(kind, h) in live
      modifies this
      ensures forall r :: r in live <==> r in old(live) && r != Resource(kind, h)
      ensures released == old(released) + [Resource(kind, h)] && obtained == old(obtained) && pidOf == old(pidOf)
      ensures Conserved()
    {
      released := released + [Resource(kind, h)];
      live := live - {Resource(kind, h)};
    }

    method CreateStream(pid: nat) returns (h: nat)
      requires Conserved()
      modifies this
      ensures h != 0 && Resource(Stream, h) !in old(live)
      ensures forall r :: r in live <==> r in old(live) || r == Resource(Stream, h)
      ensures obtained == old(obtained) + [Resource(Stream, h)] && released == old(released)
      ensures pidOf == old(pidOf)[h := pid]
      ensures Conserved()
    {
      h := Acquire(Stream);
      pidOf := pidOf[h := pid];
    }
  }

  class PlayerApi {
    const engine: PlaybackEngine
    var hPE: nat
    var hSource: nat
    var hStreamA: nat
    var hStreamV: nat
    var hFilter: nat
    var hBuffer: nat
    /** The table id the current section filter lets through. */
    var filterTable: nat
    var filterPid: nat

    /** Every handle that is set names a live resource: nothing dangles. */
    ghost predicate Valid()
      reads this, engine
    {
      && engine.Conserved()
      && (hPE != 0 ==> Resource(Engine, hPE) in engine.live)
      && (hSource != 0 ==> Resource(Source, hSource) in engine.live)
      && (hStreamA != 0 ==> Resource(Stream, hStreamA) in engine.live && hStreamA != hStreamV)
      && (hStreamV != 0 ==> Resource(Stream, hStreamV) in engine.live)
      && (hFilter != 0 ==> Resource(Filter, hFilter) in engine.live)
      && (hBuffer != 0 ==> Resource(Buffer, hBuffer) in engine.live)
      && (hFilter != 0 <==> hBuffer != 0)
    }

    /** Every live resource is named by a handle: nothing has leaked. */
    ghost predicate Tight()
      reads this, engine
    {
      && (forall h | Resource(Engine, h) in engine.live :: h == hPE != 0)
      && (forall h | Resource(Source, h) in engine.live :: h == hSource != 0)
      && (forall h | Resource(Stream, h) in engine.live :: h != 0 && (h == hStreamA || h == hStreamV))
      && (forall h | Resource(Filter, h) in engine.live :: h == hFilter != 0)
      && (forall h | Resource(Buffer, h) in engine.live :: h == hBuffer != 0)
    }

    constructor ()
      ensures Valid() && Tight() && fresh(engine)
      ensures hPE == hSource == hStreamA == hStreamV == hFilter == hBuffer == 0
      ensures engine.obtained == []
    {
      engine := new PlaybackEngine();
      hPE, hSource, hStreamA, hStreamV, hFilter, hBuffer, filterTable, filterPid := 0, 0, 0, 0, 0, 0, 0, 0;
    }

    method PlayerInit() returns (error: Error, playerHandle: nat)
      requires Valid()
      modifies `hPE, engine
      ensures Valid() && error == NO_ERROR
      ensures old(Tight()) ==> (Tight() <==> old(hPE) == 0)
      ensures playerHandle == hPE != 0
      ensures engine.pidOf == old(engine.pidOf)
    {
      hPE := engine.Acquire(Engine);
      error, playerHandle := NO_ERROR, hPE;
    }

    method PlayerSourceOpen(playerHandle: nat) returns (error: Error, sourceHandle: nat)
      requires Valid()
      modifies `hSource, engine
      ensures Valid() && engine.pidOf == old(engine.pidOf)
      ensures old(Tight()) ==> (Tight() <==> error == ERROR || old(hSource) == 0)
      ensures error == NO_ERROR <==> playerHandle == hPE != 0
      ensures error == NO_ERROR ==> sourceHandle == hSource != 0
      ensures error == ERROR ==> hSource == old(hSource)
    {
      if playerHandle != hPE || hPE == 0 {
        return ERROR, 0;
      }
      hSource := engine.Acquire(Source);
      error, sourceHandle := NO_ERROR, hSource;
    }

    method PlayerSourceClose(playerHandle: nat, sourceHandle: nat) returns (error: Error)
      requires Valid()
      modifies `hSource, engine
      ensures Valid() && engine.pidOf == old(engine.pidOf)
      ensures old(Tight()) ==> Tight()
      ensures error == NO_ERROR <==> playerHandle == hPE != 0 && sourceHandle == old(hSource) != 0
      ensures hSource == if error == NO_ERROR then 0 else old(hSource)
    {
      hide PlaybackEngine.Conserved;
      if playerHandle != hPE || sourceHandle != hSource || hSource == 0 || hPE == 0 {
        return ERROR;
      }
      engine.Release(Source, hSource);
      hSource := 0;
      error := NO_ERROR;
    }

    /** A stream already in the slot the type selects is forgotten, still live. */
    method PlayerStreamCreate(playerHandle: nat, sourceHandle: nat, pid: nat, streamType: nat)
        returns (error: Error, streamHandle: nat)
      requires Valid()
      modifies `hStreamA, `hStreamV, engine
      ensures Valid()
      ensures old(Tight()) ==>
                (Tight() <==> error == ERROR || (if streamType >= FIRST_VIDEO_TYPE then old(hStreamV) else old(hStreamA)) == 0)
      ensures error == NO_ERROR <==> playerHandle == hPE != 0 && sourceHandle == hSource != 0
      ensures error == NO_ERROR ==>
                && streamHandle != 0 && engine.pidOf == old(engine.pidOf)[streamHandle := pid]
                && streamHandle != old(hStreamA) && streamHandle != old(hStreamV)
                && (if streamType >= FIRST_VIDEO_TYPE then hStreamV == streamHandle && hStreamA == old(hStreamA)
                    else hStreamA == streamHandle && hStreamV == old(hStreamV))
      ensures error == ERROR ==>
               hStreamA == old(hStreamA) && hStreamV == old(hStreamV) && engine.pidOf == old(engine.pidOf)
    {
      if playerHandle != hPE || sourceHandle != hSource || hPE == 0 || hSource == 0 {
        return ERROR, 0;
      }
      assert hStreamA != 0 ==> Resource(Stream, hStreamA) in engine.live;
      assert hStreamV != 0 ==> Resource(Stream, hStreamV) in engine.live;
      var h := engine.CreateStream(pid);
      if streamType >= FIRST_VIDEO_TYPE {
        hStreamV := h;
      } else {
        hStreamA := h;
      }
      error, streamHandle := NO_ERROR, if streamType >= FIRST_VIDEO_TYPE then hStreamV else hStreamA;
    }

    method PlayerStreamRemove(playerHandle: nat, sourceHandle: nat, streamHandle: nat) returns (error: Error)
      requires Valid()
      modifies `hStreamA, `hStreamV, engine
      ensures Valid() && engine.pidOf == old(engine.pidOf)
      ensures old(Tight()) ==> Tight()
      ensures error == NO_ERROR <==>
                && playerHandle == hPE != 0 && sourceHandle == hSource != 0
                && streamHandle != 0 && (streamHandle == old(hStreamA) || streamHandle == old(hStreamV))
      ensures hStreamA == if error == NO_ERROR && streamHandle == old(hStreamA) then 0 else old(hStreamA)
      ensures hStreamV == if error == NO_ERROR && streamHandle == old(hStreamV) then 0 else old(hStreamV)
    {
      hide PlaybackEngine.Conserved;
      if playerHandle != hPE || sourceHandle != hSource {
        return ERROR;
      }
      if streamHandle != hStreamA && streamHandle != hStreamV {
        return ERROR;
      }
      if streamHandle == 0 || hPE == 0 || hSource == 0 {
        return ERROR;
      }
      if streamHandle == hStreamA {
        engine.Release(Stream, hStreamA);
        hStreamA := 0;
      } else {
        engine.Release(Stream, hStreamV);
        hStreamV := 0;
      }
      error := NO_ERROR;
    }

    method DemuxSetFilter(playerHandle: nat, pid: nat, tableId: nat) returns (error: Error, filterHandle: nat)
      requires Valid()
      modifies `hFilter, `hBuffer, `filterTable, `filterPid, engine
      ensures Valid() && engine.pidOf == old(engine.pidOf)
      ensures error == NO_ERROR <==> playerHandle == hPE != 0
      ensures error == NO_ERROR ==> filterHandle == hFilter != 0 && filterTable == tableId && filterPid == pid
      ensures old(Tight()) ==> (Tight() <==> error == ERROR || old(hFilter) == 0)
      ensures error == ERROR ==>
               hFilter == old(hFilter) && filterTable == old(filterTable) && filterPid == old(filterPid)
    {
      hide PlaybackEngine.Conserved;
      if playerHandle != hPE || hPE == 0 {
        return ERROR, 0;
      }
      hBuffer := engine.Acquire(Buffer);
      hFilter := engine.Acquire(Filter);
      filterTable, filterPid := tableId, pid;
      error, filterHandle := NO_ERROR, hFilter;
    }

    method DemuxFreeFilter(playerHandle: nat, filterHandle: nat) returns (error: Error)
      requires Valid()
      modifies `hFilter, `hBuffer, engine
      ensures Valid() && engine.pidOf == old(engine.pidOf)
      ensures old(Tight()) ==> Tight()
      ensures error == NO_ERROR <==> playerHandle == hPE != 0 && filterHandle == old(hFilter) != 0
      ensures hFilter == if error == NO_ERROR then 0 else old(hFilter)
    {
      hide PlaybackEngine.Conserved;
      if playerHandle != hPE || filterHandle != hFilter || hPE == 0 || hFilter == 0 {
        return ERROR;
      }
      engine.Release(Filter, hFilter);
      engine.Release(Buffer, hBuffer);
      hBuffer, hFilter := 0, 0;
      error := NO_ERROR;
    }

    method DropStreams()
      requires Valid()
      modifies `hStreamA, `hStreamV, engine
      ensures Valid() && hStreamA == hStreamV == 0 && engine.pidOf == old(engine.pidOf)
      ensures old(Tight()) ==> Tight()
    {
      hide PlaybackEngine.Conserved;
      if hStreamV != 0 {
        engine.Release(Stream, hStreamV);
        hStreamV := 0;
      }
      if hStreamA != 0 {
        engine.Release(Stream, hStreamA);
        hStreamA := 0;
      }
    }

    method DropSource()
      requires Valid()
      modifies `hSource, engine
      ensures Valid() && hSource == 0 && engine.pidOf == old(engine.pidOf)
      ensures old(Tight()) ==> Tight()
    {
      hide PlaybackEngine.Conserved;
      if hSource != 0 {
        engine.Release(Source, hSource);
        hSource := 0;
      }
    }

    method DropFilter()
      requires Valid()
      modifies `hBuffer, `hFilter, engine
      ensures Valid() && hBuffer == hFilter == 0 && engine.pidOf == old(engine.pidOf)
      ensures old(Tight()) ==> Tight()
    {
      hide PlaybackEngine.Conserved;
      if hBuffer != 0 {
        engine.Release(Buffer, hBuffer);
        hBuffer := 0;
      }
      if hFilter != 0 {
        engine.Release(Filter, hFilter);
        hFilter := 0;
      }
    }

    /** Gives back whatever is still held. */
    method PlayerDeinit(playerHandle: nat) returns (error: Error)
      requires Valid()
      modifies this, engine
      ensures Valid() && engine.pidOf == old(engine.pidOf)
      ensures error == NO_ERROR <==> playerHandle == old(hPE) != 0
      ensures error == NO_ERROR ==> hPE == hSource == hStreamA == hStreamV == hFilter == hBuffer == 0
      ensures error == NO_ERROR && old(Tight()) ==>
               engine.live == {} && multiset(engine.released) == multiset(engine.obtained)
      ensures error == ERROR ==> unchanged(this) && unchanged(engine)
    {
      hide PlaybackEngine.Conserved;
      if playerHandle != hPE || hPE == 0 {
        return ERROR;
      }
      DropStreams();
      DropSource();
      DropFilter();
      engine.Release(Engine, hPE);
      hPE := 0;
      if Tight() { NothingLive(); }
      error := NO_ERROR;
    }

    lemma NothingLive()
      requires Valid() && Tight() && hPE == hSource == hStreamA == hStreamV == hFilter == hBuffer == 0
      ensures engine.live == {} && multiset(engine.released) == multiset(engine.obtained)
    {
      forall r: Resource ensures r !in engine.live {
        assert r == Resource(r.kind, r.handle);
        match r.kind case Engine => case Source => case Stream => case Filter => case Buffer =>
      }
    }
  }
}
