/**
  Nothing compiled without an app cache is lost: with driver creates succeeding, the pipelines of
  every finished batch that brought no cache stay in the device's master or in a queued scratch
  cache, unless that batch found the merge queue full or its device without a table row. Scratch
  caches wait in the queue only while some batch holds the master.
 */
module Retention {
  import opened PipelineCache
  import opened ScratchConservation
  import opened MasterExclusion

  /** What row i can still bring to disk: the master's contents and those of the queued caches. */
  ghost function Kept(s: State, i: nat): set<Pipeline>
    requires i < |s.dc|
  {
    (if s.dc[i].pc in s.store then s.store[s.dc[i].pc] else {}) + Held(s.store, s.dc[i].pending)
  }

  ghost predicate RowRetains(s: State, i: nat)
    requires i < |s.dc|
  {
    && s.dc[i].pc != NULL
    && s.dc[i].dev in s.earned
    && s.earned[s.dc[i].dev] <= Kept(s, i)
  }

  ghost predicate RetainInv(s: State) {
    && (forall i :: 0 <= i < |s.dc| && s.dc[i].dev != NULL ==> RowRetains(s, i))
    && (forall i :: 0 <= i < |s.dc| && s.dc[i].pending != [] ==> s.dc[i].masterInUse)
    && ScratchesMade(s)
  }

  /** Every compiling batch that neither owns a master nor brought a cache has a scratch cache. */
  ghost predicate ScratchesMade(s: State) {
    forall b :: b in s.batches && s.batches[b].phase.Compiling? && !s.batches[b].ownMaster && s.batches[b].app == NULL ==>
      s.batches[b].scratch != NULL
  }

  /** Store contents of the handles in q only grow from s to t. */
  ghost predicate Grows(s: State, t: State, q: seq<Handle>) {
    forall h :: h in q && h in s.store ==> h in t.store && s.store[h] <= t.store[h]
  }

  lemma HeldGrows(s: State, t: State, q: seq<Handle>)
    requires Grows(s, t, q)
    ensures Held(s.store, q) <= Held(t.store, q)
  {
  }

  lemma RowCarry(s: State, t: State, i: nat)
    requires i < |s.dc| == |t.dc| && RowRetains(s, i)
    requires t.dc[i].dev == s.dc[i].dev && t.dc[i].pc == s.dc[i].pc && t.dc[i].pending == s.dc[i].pending
    requires s.dc[i].dev in t.earned && t.earned[s.dc[i].dev] == s.earned[s.dc[i].dev]
    requires Grows(s, t, [s.dc[i].pc] + s.dc[i].pending)
    ensures RowRetains(t, i)
  {
    assert s.dc[i].pc in [s.dc[i].pc] + s.dc[i].pending;
    assert forall h :: h in s.dc[i].pending ==> h in [s.dc[i].pc] + s.dc[i].pending;
    HeldGrows(s, t, s.dc[i].pending);
  }

  /** Rows may be wiped, flags set, and contents grow; nothing else a row relies on changes. */
  lemma CarryRetain(s: State, t: State)
    requires RetainInv(s) && |t.dc| == |s.dc|
    requires forall i :: 0 <= i < |s.dc| ==> t.dc[i] == EMPTY_SLOT || t.dc[i] == s.dc[i] || t.dc[i] == s.dc[i].(masterInUse := true)
    requires forall i :: 0 <= i < |s.dc| && t.dc[i].dev != NULL ==>
               t.dc[i].dev in s.earned && t.dc[i].dev in t.earned && t.earned[t.dc[i].dev] == s.earned[t.dc[i].dev]
               && Grows(s, t, [s.dc[i].pc] + s.dc[i].pending)
    requires ScratchesMade(t)
    ensures RetainInv(t)
  {
    forall i | 0 <= i < |t.dc| && t.dc[i].dev != NULL
      ensures RowRetains(t, i)
    {
      RowCarry(s, t, i);
    }
  }

  // ---- the steps -------------------------------------------------------------

  lemma EnsureRetain(s: State, dev: Device, primed: set<Pipeline>, t: State)
    requires ExclInv(s) && RetainInv(s) && dev != NULL && t == Ensure(s, dev, true, primed)
    ensures RetainInv(t)
  {
    EnsureFrame(s, dev, true, primed, t);
    forall i | 0 <= i < |t.dc| && t.dc[i].dev != NULL
      ensures RowRetains(t, i)
    {
      if s.dc[i].dev != NULL {
        EnsureOldRow(s, dev, primed, t, i);
      } else {
        EnsureNewRow(s, dev, primed, t, i);
      }
    }
  }

  lemma EnsureOldRow(s: State, dev: Device, primed: set<Pipeline>, t: State, i: nat)
    requires Shape(s) && dev != NULL && t == Ensure(s, dev, true, primed)
    requires i < |s.dc| && s.dc[i].dev != NULL && RowRetains(s, i) && s.next !in s.store
    ensures |t.dc| == |s.dc| && t.dc[i] == s.dc[i] && RowRetains(t, i)
    ensures s.dc[i].dev in t.earned && t.earned[s.dc[i].dev] == s.earned[s.dc[i].dev]
  {
    EnsureRow(s, dev, true, primed, t, i);
    assert Lookup(s.dc, dev) == |s.dc| ==> s.dc[i].dev != dev;
    RowCarry(s, t, i);
  }

  lemma EnsureNewRow(s: State, dev: Device, primed: set<Pipeline>, t: State, i: nat)
    requires Shape(s) && dev != NULL && t == Ensure(s, dev, true, primed) && i < |s.dc| == |t.dc|
    requires s.dc[i].dev == NULL && t.dc[i].dev != NULL
    ensures RowRetains(t, i) && t.dc[i].dev == dev
  {
    assert i == Lookup(s.dc, NULL);
    assert Claim(s.dc, dev) == (s.dc[i := DevCache(dev, NULL, false, [])], i);
    assert t.dc[i].pc == s.next && t.earned == s.earned[dev := {}];
  }

  lemma BeginRetain(s: State, b: BatchId, dev: Device, app: Handle, primed: set<Pipeline>, t: State)
    requires ExclInv(s) && RetainInv(s) && dev != NULL && b !in s.batches && t == Begin(s, b, dev, app, true, primed)
    ensures RetainInv(t)
  {
    var s1 := Ensure(s, dev, true, primed);
    EnsureFrame(s, dev, true, primed, s1);
    EnsureRetain(s, dev, primed, s1);
    BeginFrame(s, b, dev, app, true, primed, s1, t);
    assert t.batches[b].phase.Opened? by {
      assert t == Begin(s, b, dev, app, true, primed);
    }
    FlagRetain(s1, t, b);
  }

  lemma FlagRetain(s: State, t: State, b: BatchId)
    requires RetainInv(s) && |t.dc| == |s.dc|
    requires forall i :: 0 <= i < |s.dc| ==> t.dc[i] == s.dc[i] || t.dc[i] == s.dc[i].(masterInUse := true)
    requires t.store == s.store && t.earned == s.earned
    requires b in t.batches && t.batches == s.batches[b := t.batches[b]] && t.batches[b].phase.Opened?
    ensures RetainInv(t)
  {
    forall i | 0 <= i < |t.dc| && t.dc[i].dev != NULL
      ensures RowRetains(t, i)
    {
      assert RowRetains(s, i);
    }
  }

  /** The queue's contents move into the master. */
  lemma DrainRetain(s: State, i: nat, t: State)
    requires ExclInv(s) && i < |s.dc| && t == Drain(s, i) && s.dc[i].pc != NULL
    requires forall j :: 0 <= j < |s.dc| && s.dc[j].dev != NULL ==> RowRetains(s, j)
    requires forall j :: 0 <= j < |s.dc| && j != i && s.dc[j].pending != [] ==> s.dc[j].masterInUse
    requires ScratchesMade(s)
    ensures RetainInv(t)
  {
    hide ExclInv, Drain, RowRetains, Kept;
    DrainFrame(s, i, t);
    DrainStore(s, i, t);
    forall j | 0 <= j < |t.dc| && t.dc[j].dev != NULL
      ensures RowRetains(t, j)
    {
      DrainedRow(s, i, t, j);
    }
  }

  lemma DrainedRow(s: State, i: nat, t: State, j: nat)
    requires ExclInv(s) && Drained(s, i, t) && j < |s.dc| && s.dc[i].pc != NULL && RowRetains(s, j)
    requires s.dc[i].pc in t.store && t.store[s.dc[i].pc] == Kept(s, i)
    requires forall h :: h in s.store && h !in s.dc[i].pending && h != s.dc[i].pc ==> h in t.store && t.store[h] == s.store[h]
    ensures RowRetains(t, j)
  {
    if j != i {
      QueuedHere(s, i);
      QueuedHere(s, j);
      OtherRow(s, i, j);
      hide ExclInv, At;
      RowCarry(s, t, j);
    }
  }

  /** Two rows share neither a master nor a queued cache. */
  lemma OtherRow(s: State, i: nat, j: nat)
    requires ExclInv(s) && i < |s.dc| && j < |s.dc| && i != j && s.dc[i].pc != NULL
    requires forall h :: h in s.dc[i].pending ==> At(s, h, Queued(i))
    requires forall h :: h in s.dc[j].pending ==> At(s, h, Queued(j))
    ensures s.dc[j].pc != NULL ==> s.dc[j].pc != s.dc[i].pc && s.dc[j].pc !in s.dc[i].pending
    ensures forall h :: h in s.dc[j].pending ==> h !in s.dc[i].pending && h != s.dc[i].pc
  {
    hide HoldersAgree, PlaceHolds, OwnersOk, RolesOk;
  }

  lemma DrainStore(s: State, i: nat, t: State)
    requires ExclInv(s) && i < |s.dc| && t == Drain(s, i) && s.dc[i].pc != NULL
    ensures s.dc[i].pc in s.store && s.dc[i].pc in t.store && t.store[s.dc[i].pc] == Kept(s, i)
    ensures forall h :: h in s.store && h !in s.dc[i].pending && h != s.dc[i].pc ==> h in t.store && t.store[h] == s.store[h]
  {
    QueuedHere(s, i);
    assert s.dc[i].pending == [] ==> Held(s.store, s.dc[i].pending) == {};
  }

  /** A batch that adds its pipelines to a cache no row loses. */
  lemma CompiledGrows(s: State, b: BatchId, made: set<Pipeline>, q: seq<Handle>)
    requires b in s.batches
    ensures Grows(s, Compiled(s, b, made), q)
    ensures s.batches[b].into in s.store ==>
              s.batches[b].into in Compiled(s, b, made).store && made <= Compiled(s, b, made).store[s.batches[b].into]
  {
  }

  lemma FinishOwnerRetain(s: State, b: BatchId, made: set<Pipeline>, save: bool)
    requires ExclInv(s) && RetainInv(s) && b in s.batches && s.batches[b].ownMaster && s.touched == {}
    ensures RetainInv(FinishOwner(s, b, made, save))
  {
    var i := Lookup(s.dc, s.batches[b].dev);
    OwnerRow(s, b, i);
    var s1 := Compiled(s, b, made).(batches := s.batches - {b});
    var s2 := Earn(s1.(dc := s1.dc[i := s1.dc[i].(masterInUse := false)]), i, made);
    ReleaseExcl(s, s2, b, i);
    assert RowRetains(s, i) && s2.earned == s.earned[s.dc[i].dev := s.earned[s.dc[i].dev] + made];
    OwnerEarns(s, b, made, i, s2);
    hide ExclInv, RowRetains, Drain, Save, Compiled;
    DrainSaveRetain(s2, i, save);
  }

  lemma DrainSaveRetain(s: State, i: nat, save: bool)
    requires ExclInv(s) && i < |s.dc| && s.dc[i].pc != NULL
    requires forall j :: 0 <= j < |s.dc| && s.dc[j].dev != NULL ==> RowRetains(s, j)
    requires forall j :: 0 <= j < |s.dc| && j != i && s.dc[j].pending != [] ==> s.dc[j].masterInUse
    requires ScratchesMade(s)
    ensures |Drain(s, i).dc| == |s.dc| && RetainInv(Save(Drain(s, i), i, save))
  {
    hide ExclInv, RetainInv, Save;
    DrainRetain(s, i, Drain(s, i));
    DrainFrame(s, i, Drain(s, i));
    hide Drain;
    SaveRetain(Drain(s, i), i, save);
  }

  lemma OwnerEarns(s: State, b: BatchId, made: set<Pipeline>, i: nat, t: State)
    requires ExclInv(s) && RetainInv(s) && Holds(s.dc, s.batches, b, i)
    requires t.dc == s.dc[i := s.dc[i].(masterInUse := false)] && t.store == Compiled(s, b, made).store
    requires s.dc[i].dev in s.earned && t.earned == s.earned[s.dc[i].dev := s.earned[s.dc[i].dev] + made]
    ensures forall j :: 0 <= j < |t.dc| && t.dc[j].dev != NULL ==> RowRetains(t, j)
  {
    forall j | 0 <= j < |t.dc| && t.dc[j].dev != NULL
      ensures RowRetains(t, j)
    {
      assert RowRetains(s, j);
      CompiledGrows(s, b, made, [s.dc[j].pc] + s.dc[j].pending);
      if j != i {
        RowCarry(s, t, j);
      } else {
        CompiledGrows(s, b, made, s.dc[i].pending);
        HeldGrows(s, Compiled(s, b, made), s.dc[i].pending);
      }
    }
  }

  lemma SaveRetain(s: State, i: nat, save: bool)
    requires RetainInv(s) && i < |s.dc|
    ensures RetainInv(Save(s, i, save))
  {
    var t := Save(s, i, save);
    assert forall j :: 0 <= j < |s.dc| && RowRetains(s, j) ==> RowRetains(t, j);
  }

  lemma MergeRetain(s: State, dst: Handle, srcs: seq<Handle>)
    requires RetainInv(s)
    ensures RetainInv(Merge(s, dst, srcs))
  {
    var t := Merge(s, dst, srcs);
    forall i | 0 <= i < |s.dc|
      ensures Grows(s, t, [s.dc[i].pc] + s.dc[i].pending)
    {
    }
    assert forall i :: 0 <= i < |s.dc| && s.dc[i].dev != NULL ==> RowRetains(s, i);
    CarryRetain(s, t);
  }

  /** The batch's contents and the queue's end up in the idle master. */
  lemma FoldRetain(s: State, i: nat, src: Handle, save: bool)
    requires ExclInv(s) && RetainInv(s) && s.touched == {} && i < |s.dc| && !s.dc[i].masterInUse && s.dc[i].pc != NULL && Idle(s, src)
    ensures RetainInv(Save(Drain(Merge(s, s.dc[i].pc, [src]), i), i, save))
  {
    IdleRow(s, i);
    MergeExcl(s, s.dc[i].pc, [src]);
    MergeRetain(s, s.dc[i].pc, [src]);
    hide ExclInv, Drain, Save, RowRetains;
    DrainSaveRetain(Merge(s, s.dc[i].pc, [src]), i, save);
  }

  lemma FinishAppRetain(s: State, b: BatchId, made: set<Pipeline>, harvest: bool, save: bool)
    requires ExclInv(s) && RetainInv(s) && b in s.batches && s.batches[b].app != NULL && s.touched == {}
    ensures RetainInv(FinishApp(s, b, made, harvest, save))
  {
    var bt := s.batches[b];
    var i := Lookup(s.dc, bt.dev);
    var app1 := if bt.tracked then Unref(s.app, bt.app).0 else s.app;
    var s1 := Compiled(s, b, made).(batches := s.batches - {b}, app := app1);
    AppDone(s, b, made, s1);
    if i < |s.dc| && !s.dc[i].masterInUse && s.dc[i].pc != NULL {
      FoldRetain(s1, i, bt.app, save);
    }
  }

  lemma AppDone(s: State, b: BatchId, made: set<Pipeline>, t: State)
    requires ExclInv(s) && RetainInv(s) && b in s.batches && s.batches[b].app != NULL
    requires t.dc == s.dc && t.batches == s.batches - {b} && t.role == s.role && t.destroyed == s.destroyed
    requires t.next == s.next && t.earned == s.earned && t.store == Compiled(s, b, made).store
    ensures ExclInv(t) && RetainInv(t) && Idle(t, s.batches[b].app)
  {
    AppDoneExcl(s, b, t);
    hide ExclInv, Idle;
    forall i | 0 <= i < |s.dc| && s.dc[i].dev != NULL
      ensures s.dc[i].dev in s.earned && Grows(s, t, [s.dc[i].pc] + s.dc[i].pending)
    {
      assert RowRetains(s, i);
      CompiledGrows(s, b, made, [s.dc[i].pc] + s.dc[i].pending);
    }
    CarryRetain(s, t);
  }

  lemma FinishScratchRetain(s: State, b: BatchId, made: set<Pipeline>, save: bool)
    requires ExclInv(s) && RetainInv(s) && b in s.batches && s.batches[b].phase.Compiling? && s.touched == {}
    requires !s.batches[b].ownMaster && s.batches[b].app == NULL && s.batches[b].scratch != NULL
    ensures RetainInv(FinishScratch(s, b, made, save))
  {
    var bt := s.batches[b];
    assert BatchShape(bt) && At(s, bt.scratch, InBatch(b)) && PlaceHolds(s, bt.scratch, InBatch(b));
    var i := Lookup(s.dc, bt.dev);
    var leave := Compiled(s, b, made).(batches := s.batches[b := bt.(phase := Leaving)]);
    LeaveSetUp(s, b, made, leave);
    if i < |s.dc| && !s.dc[i].masterInUse && s.dc[i].pc != NULL {
      FoldEarns(leave, i, bt.scratch, made, save);
    } else if i < |s.dc| && |s.dc[i].pending| < PENDING_MAX {
      QueueEarns(leave, i, bt.scratch, made, FinishScratch(s, b, made, save));
    }
  }

  lemma LeaveSetUp(s: State, b: BatchId, made: set<Pipeline>, t: State)
    requires ExclInv(s) && RetainInv(s) && b in s.batches && s.batches[b].scratch != NULL
    requires t.batches == s.batches[b := s.batches[b].(phase := Leaving)] && t.dc == s.dc && t.role == s.role
    requires t.destroyed == s.destroyed && t.next == s.next && t.store == Compiled(s, b, made).store && t.earned == s.earned
    ensures ExclInv(t) && RetainInv(t) && Idle(t, s.batches[b].scratch)
    ensures s.batches[b].scratch in t.store && made <= t.store[s.batches[b].scratch]
  {
    StartLeaving(s, b, 0, t);
    assert BatchShape(s.batches[b]) && At(s, s.batches[b].scratch, InBatch(b)) && PlaceHolds(s, s.batches[b].scratch, InBatch(b));
    forall i | 0 <= i < |s.dc| && s.dc[i].dev != NULL
      ensures s.dc[i].dev in s.earned && Grows(s, t, [s.dc[i].pc] + s.dc[i].pending)
    {
      assert RowRetains(s, i);
      CompiledGrows(s, b, made, [s.dc[i].pc] + s.dc[i].pending);
    }
    CarryRetain(s, t);
  }

  lemma FoldEarns(s: State, i: nat, src: Handle, made: set<Pipeline>, save: bool)
    requires ExclInv(s) && RetainInv(s) && s.touched == {} && i < |s.dc| && !s.dc[i].masterInUse && s.dc[i].pc != NULL && Idle(s, src)
    requires src in s.store && made <= s.store[src] && s.dc[i].dev != NULL
    ensures RetainInv(Save(Drain(Merge(Earn(s, i, made), s.dc[i].pc, [src]), i), i, save))
  {
    var m := Merge(s, s.dc[i].pc, [src]);
    var e := Merge(Earn(s, i, made), s.dc[i].pc, [src]);
    MergedEarns(s, i, src, made, m, e);
    hide ExclInv, RetainInv, Merge, Earn, Drain, Save, Kept;
    IdleRow(s, i);
    MergeExcl(s, s.dc[i].pc, [src]);
    MergeRetain(s, s.dc[i].pc, [src]);
    EarnedExcl(m, i, made, e);
    EarnRetain(m, i, made);
    DrainSaveRetain(e, i, save);
  }

  lemma MergedEarns(s: State, i: nat, src: Handle, made: set<Pipeline>, m: State, e: State)
    requires ExclInv(s) && i < |s.dc| && s.dc[i].pc != NULL && src in s.store && made <= s.store[src]
    requires m == Merge(s, s.dc[i].pc, [src]) && e == Merge(Earn(s, i, made), s.dc[i].pc, [src])
    ensures e == Earn(m, i, made) && m.dc == s.dc && made <= Kept(m, i) && RowsDistinct(m.dc)
    ensures e.dc == m.dc && e.touched == m.touched && m.batches == s.batches && e.batches == s.batches
  {
    assert src in [src] && made <= Held(s.store, [src]);
    hide ScratchInv, OwnersOk;
  }

  lemma EarnedExcl(m: State, i: nat, made: set<Pipeline>, e: State)
    requires ExclInv(m) && i < |m.dc| && e == Earn(m, i, made) && forall h :: h in m.touched ==> Idle(m, h)
    ensures ExclInv(e) && forall h :: h in e.touched ==> Idle(e, h)
  {
    Alike(m, e);
    hide ScratchInv;
  }

  /** Pipelines already kept by a row may be credited to it. */
  lemma EarnRetain(s: State, i: nat, made: set<Pipeline>)
    requires RetainInv(s) && i < |s.dc| && s.dc[i].dev != NULL && made <= Kept(s, i) && RowsDistinct(s.dc)
    ensures RetainInv(Earn(s, i, made))
  {
    var t := Earn(s, i, made);
    forall j | 0 <= j < |t.dc| && t.dc[j].dev != NULL
      ensures RowRetains(t, j)
    {
      assert RowRetains(s, i) && RowRetains(s, j);
    }
  }

  lemma QueueEarns(s: State, i: nat, src: Handle, made: set<Pipeline>, t: State)
    requires RetainInv(s) && RowsDistinct(s.dc) && i < |s.dc| && s.dc[i].masterInUse && s.dc[i].dev != NULL
    requires src in s.store && made <= s.store[src]
    requires t.dc == s.dc[i := s.dc[i].(pending := s.dc[i].pending + [src])] && t.store == s.store
    requires t.batches.Keys <= s.batches.Keys && (forall b :: b in t.batches ==> t.batches[b] == s.batches[b])
    requires t.earned == Earn(s, i, made).earned
    ensures RetainInv(t)
  {
    var q := s.dc[i].pending;
    assert forall h :: h in q + [src] <==> h in q || h == src;
    forall j | 0 <= j < |t.dc| && t.dc[j].dev != NULL
      ensures RowRetains(t, j)
    {
      assert RowRetains(s, j) && RowRetains(s, i);
      if j == i {
        assert Held(t.store, q + [src]) == Held(s.store, q) + s.store[src];
      }
    }
  }

  lemma ResetRetain(s: State, t: State)
    requires RetainInv(s) && t == s.(touched := {})
    ensures RetainInv(t)
  {
    assert forall i :: 0 <= i < |s.dc| && RowRetains(s, i) ==> RowRetains(t, i);
  }

  lemma StepRetain(s: State, e: Event)
    requires ExclInv(s) && RetainInv(s) && Enabled(s, e) && Calm(s, e) && CreatesSucceed(e)
    ensures RetainInv(Step(s, e))
  {
    var s0 := s.(touched := {});
    ResetExcl(s, s0);
    ResetRetain(s, s0);
    hide ExclInv, RetainInv, Finish, Begin, MakeScratch, Leave;
    if e.BatchFinish? {
      FinishRetain(s0, e.b, e.made, e.harvest, e.save);
    } else if e.DeviceDestroy? || e.DeviceCreate? {
      DeviceRetain(s, e, s0);
    } else if e.BatchBegin? {
      BeginRetain(s0, e.b, e.dev, e.app, e.primed, Step(s, e));
    } else if e.BatchScratch? {
      MakeScratchRetain(s0, e.b, Step(s, e));
    } else {
      OtherRetain(s, e, s0);
    }
  }

  lemma OtherRetain(s: State, e: Event, s0: State)
    requires ExclInv(s0) && RetainInv(s0) && s0 == s.(touched := {}) && Enabled(s, e) && CreatesSucceed(e)
    requires e.AppCreate? || e.AppMerge? || e.AppSerialise? || e.AppDestroy? || e.BatchLeave?
    ensures RetainInv(Step(s, e))
  {
    match e
    case AppCreate(dev, primeOn, ok, primed, initial) =>
      NewAppExcl(s0, initial);
      NewAppRetain(s0, initial);
      if primeOn {
        PrimeRetain(NewApp(s0, initial), s.next, dev, primed);
      }
    case AppMerge(dst, srcs) => MergeRetain(s0, dst, srcs);
    case AppDestroy(h) => RemoveRetain(s0, h, Step(s, e));
    case AppSerialise(h) =>
      assert forall i :: 0 <= i < |s.dc| && RowRetains(s0, i) ==> RowRetains(Step(s, e), i);
    case BatchLeave(b) =>
      assert BatchShape(s.batches[b]) && At(s0, s.batches[b].scratch, InBatch(b));
      RemoveRetain(s0, s.batches[b].scratch, Step(s, e));
  }

  lemma FinishRetain(s: State, b: BatchId, made: set<Pipeline>, harvest: bool, save: bool)
    requires ExclInv(s) && RetainInv(s) && b in s.batches && s.batches[b].phase.Compiling? && s.touched == {}
    ensures RetainInv(Finish(s, b, made, harvest, save))
  {
    var bt := s.batches[b];
    if bt.ownMaster {
      FinishOwnerRetain(s, b, made, save);
    } else if bt.app != NULL {
      FinishAppRetain(s, b, made, harvest, save);
    } else {
      FinishScratchRetain(s, b, made, save);
    }
  }

  lemma MakeScratchRetain(s: State, b: BatchId, t: State)
    requires ExclInv(s) && RetainInv(s) && b in s.batches && t == MakeScratch(s, b, true)
    ensures RetainInv(t)
  {
    assert BatchShape(s.batches[b]);
    forall i | 0 <= i < |s.dc| && s.dc[i].dev != NULL
      ensures s.dc[i].dev in s.earned && Grows(s, t, [s.dc[i].pc] + s.dc[i].pending)
    {
      assert RowRetains(s, i);
    }
    CarryRetain(s, t);
  }

  lemma NewAppRetain(s: State, initial: set<Pipeline>)
    requires ExclInv(s) && RetainInv(s)
    ensures RetainInv(NewApp(s, initial))
  {
    var t := NewApp(s, initial);
    forall i | 0 <= i < |s.dc| && s.dc[i].dev != NULL
      ensures s.dc[i].dev in s.earned && Grows(s, t, [s.dc[i].pc] + s.dc[i].pending)
    {
      assert RowRetains(s, i);
    }
    CarryRetain(s, t);
  }

  lemma PrimeRetain(s: State, h: Handle, dev: Device, primed: set<Pipeline>)
    requires ExclInv(s) && RetainInv(s) && dev != NULL
    ensures RetainInv(Prime(s, h, dev, true, primed))
  {
    var t := Ensure(s, dev, true, primed);
    EnsureRetain(s, dev, primed, t);
    var i := Lookup(t.dc, dev);
    if i < |t.dc| {
      MergeRetain(t, h, [t.dc[i].pc]);
    }
  }

  /** Destroying an app cache, or the scratch cache a leaving batch holds, takes nothing from a row. */
  lemma RemoveRetain(s: State, h: Handle, t: State)
    requires ExclInv(s) && RetainInv(s) && h in s.role
    requires s.role[h].AppMade? || (s.role[h].Scratch? && s.role[h].place.InBatch?)
    requires t.dc == s.dc && t.store == s.store - {h} && t.earned == s.earned
    requires forall b :: b in t.batches ==> b in s.batches && t.batches[b] == s.batches[b]
    ensures RetainInv(t)
  {
    forall i | 0 <= i < |s.dc| && s.dc[i].dev != NULL
      ensures s.dc[i].dev in s.earned && Grows(s, t, [s.dc[i].pc] + s.dc[i].pending)
    {
      assert RowRetains(s, i);
      QueuedHere(s, i);
    }
    CarryRetain(s, t);
  }

  lemma DeviceRetain(s: State, e: Event, s0: State)
    requires ExclInv(s0) && RetainInv(s0) && s0 == s.(touched := {}) && (e.DeviceDestroy? || e.DeviceCreate?) && Calm(s, e)
    requires e.dev != NULL
    ensures RetainInv(Step(s, e))
  {
    var i := Lookup(s.dc, e.dev);
    if i < |s.dc| {
      assert RowRetains(s0, i);
      CalmRow(s0, i);
      if e.DeviceDestroy? {
        DropRetain(s0, i, e.save);
      } else {
        WipeRetain(s0, i, AbandonRow(s0, i));
      }
    }
  }

  lemma DropRetain(s: State, i: nat, save: bool)
    requires ExclInv(s) && RetainInv(s) && i < |s.dc| && !s.dc[i].masterInUse && s.dc[i].dev != NULL && s.touched == {}
    ensures RetainInv(Drop(s, i, save))
  {
    assert RowRetains(s, i);
    var d := Drain(s, i);
    DrainFrame(s, i, d);
    DrainRetain(s, i, d);
    DrainExcl(s, i, d);
    SaveExcl(d, i, save);
    SaveRetain(d, i, save);
    WipeRetain(Save(d, i, save), i, Drop(s, i, save));
  }

  lemma WipeRetain(s: State, i: nat, t: State)
    requires ExclInv(s) && RetainInv(s) && i < |s.dc| && s.dc[i].dev != NULL
    requires t.dc == s.dc[i := EMPTY_SLOT] && t.batches == s.batches && t.earned == s.earned - {s.dc[i].dev}
    requires t.store == s.store || t.store == s.store - {s.dc[i].pc}
    ensures RetainInv(t)
  {
    forall j | 0 <= j < |s.dc| && t.dc[j].dev != NULL
      ensures s.dc[j].dev in s.earned && s.dc[j].dev in t.earned && Grows(s, t, [s.dc[j].pc] + s.dc[j].pending)
    {
      assert RowRetains(s, j) && RowRetains(s, i);
      QueuedHere(s, j);
    }
    CarryRetain(s, t);
  }

  lemma {:induction false} RunRetains(tr: seq<State>, es: seq<Event>, k: nat)
    requires IsRun(tr, es) && k < |tr|
    requires forall j :: 0 <= j < |es| ==> Calm(tr[j], es[j]) && CreatesSucceed(es[j])
    ensures ExclInv(tr[k]) && RetainInv(tr[k])
  {
    RunExcl(tr, es, k);
    if k > 0 {
      RunRetains(tr, es, k - 1);
      assert Next(tr[k - 1], es[k - 1], tr[k]);
      StepRetain(tr[k - 1], es[k - 1]);
    }
  }

  // ---- credit given to a device is never taken back ---------------------------

  ghost predicate Credited(s: State, dev: Device, ps: set<Pipeline>) {
    dev != NULL && Lookup(s.dc, dev) < |s.dc| && dev in s.earned && ps <= s.earned[dev]
  }

  lemma EnsureCredit(s: State, d: Device, ok: bool, primed: set<Pipeline>, dev: Device, ps: set<Pipeline>)
    requires Credited(s, dev, ps) && d != NULL
    ensures Credited(Ensure(s, d, ok, primed), dev, ps)
  {
    var t := Ensure(s, d, ok, primed);
    var i := Lookup(s.dc, dev);
    assert |t.dc| == |s.dc| && t.dc[i].dev == dev;
  }

  lemma DrainCredit(s: State, i: nat, dev: Device, ps: set<Pipeline>)
    requires Credited(s, dev, ps) && i < |s.dc|
    ensures Credited(Drain(s, i), dev, ps) && |Drain(s, i).dc| == |s.dc|
  {
    var k := Lookup(s.dc, dev);
    DrainFrame(s, i, Drain(s, i));
    assert Drain(s, i).dc[k].dev == dev;
  }

  lemma RowsCredit(s: State, t: State, dev: Device, ps: set<Pipeline>)
    requires Credited(s, dev, ps) && |t.dc| == |s.dc| && (forall i :: 0 <= i < |s.dc| ==> t.dc[i].dev == s.dc[i].dev)
    requires dev in t.earned && s.earned[dev] <= t.earned[dev]
    ensures Credited(t, dev, ps)
  {
    assert t.dc[Lookup(s.dc, dev)].dev == dev;
  }

  lemma FinishOwnerCredit(s: State, b: BatchId, made: set<Pipeline>, save: bool, dev: Device, ps: set<Pipeline>)
    requires Credited(s, dev, ps) && b in s.batches
    ensures Credited(FinishOwner(s, b, made, save), dev, ps)
  {
    var i := Lookup(s.dc, s.batches[b].dev);
    if i < |s.dc| {
      var s1 := Compiled(s, b, made).(batches := s.batches - {b});
      var s2 := Earn(s1.(dc := s1.dc[i := s1.dc[i].(masterInUse := false)]), i, made);
      RowsCredit(s, s2, dev, ps);
      DrainCredit(s2, i, dev, ps);
    }
  }

  lemma FinishAppCredit(s: State, b: BatchId, made: set<Pipeline>, harvest: bool, save: bool, dev: Device, ps: set<Pipeline>)
    requires Credited(s, dev, ps) && b in s.batches
    ensures Credited(FinishApp(s, b, made, harvest, save), dev, ps)
  {
    var bt := s.batches[b];
    var i := Lookup(s.dc, bt.dev);
    if i < |s.dc| {
      var s1 := Compiled(s, b, made).(batches := s.batches - {b}, app := if bt.tracked then Unref(s.app, bt.app).0 else s.app);
      DrainCredit(Merge(s1, s.dc[i].pc, [bt.app]), i, dev, ps);
    }
  }

  lemma FinishScratchCredit(s: State, b: BatchId, made: set<Pipeline>, save: bool, dev: Device, ps: set<Pipeline>)
    requires Credited(s, dev, ps) && b in s.batches
    ensures Credited(FinishScratch(s, b, made, save), dev, ps)
  {
    var bt := s.batches[b];
    var i := Lookup(s.dc, bt.dev);
    hide Drain, Held;
    if i < |s.dc| && !s.dc[i].masterInUse && s.dc[i].pc != NULL {
      var leave := Compiled(s, b, made).(batches := s.batches[b := bt.(phase := Leaving)]);
      var m := Merge(Earn(leave, i, made), s.dc[i].pc, [bt.scratch]);
      RowsCredit(s, m, dev, ps);
      DrainCredit(m, i, dev, ps);
    } else {
      SetAsideCredit(s, b, made, save, dev, ps);
    }
  }

  lemma SetAsideCredit(s: State, b: BatchId, made: set<Pipeline>, save: bool, dev: Device, ps: set<Pipeline>)
    requires Credited(s, dev, ps) && b in s.batches
    requires var i := Lookup(s.dc, s.batches[b].dev); i < |s.dc| ==> s.dc[i].masterInUse || s.dc[i].pc == NULL
    ensures Credited(FinishScratch(s, b, made, save), dev, ps)
  {
    hide Mark;
    RowsCredit(s, FinishScratch(s, b, made, save), dev, ps);
  }

  lemma DeviceCredit(s: State, e: Event, dev: Device, ps: set<Pipeline>)
    requires Credited(s, dev, ps) && (e.DeviceDestroy? || e.DeviceCreate?) && e.dev != dev
    ensures Credited(Step(s, e), dev, ps)
  {
    var s0 := s.(touched := {});
    var i := Lookup(s.dc, e.dev);
    hide Drop, AbandonRow;
    if i < |s.dc| && e.DeviceDestroy? {
      DropCredit(s0, i, e.save, dev, ps);
    } else if i < |s.dc| {
      AbandonCredit(s0, i, dev, ps);
    }
  }

  lemma DropCredit(s: State, i: nat, save: bool, dev: Device, ps: set<Pipeline>)
    requires Credited(s, dev, ps) && i < |s.dc| && s.dc[i].dev != dev
    ensures Credited(Drop(s, i, save), dev, ps)
  {
    var k := Lookup(s.dc, dev);
    DrainFrame(s, i, Drain(s, i));
    hide Drain;
    assert k != i && Drop(s, i, save).dc[k].dev == dev;
  }

  lemma AbandonCredit(s: State, i: nat, dev: Device, ps: set<Pipeline>)
    requires Credited(s, dev, ps) && i < |s.dc| && s.dc[i].dev != dev
    ensures Credited(AbandonRow(s, i), dev, ps)
  {
    var k := Lookup(s.dc, dev);
    hide Mark, Elems;
    assert k != i && AbandonRow(s, i).dc[k].dev == dev;
  }

  lemma BeginCredit(s: State, b: BatchId, d: Device, app: Handle, ok: bool, primed: set<Pipeline>, dev: Device, ps: set<Pipeline>)
    requires Credited(s, dev, ps) && d != NULL
    ensures Credited(Begin(s, b, d, app, ok, primed), dev, ps)
  {
    EnsureCredit(s, d, ok, primed, dev, ps);
    RowsCredit(Ensure(s, d, ok, primed), Begin(s, b, d, app, ok, primed), dev, ps);
  }

  lemma PrimeCredit(s: State, h: Handle, d: Device, ok: bool, primed: set<Pipeline>, dev: Device, ps: set<Pipeline>)
    requires Credited(s, dev, ps) && d != NULL
    ensures Credited(Prime(s, h, d, ok, primed), dev, ps)
  {
    EnsureCredit(s, d, ok, primed, dev, ps);
  }

  lemma FinishCredit(s: State, b: BatchId, made: set<Pipeline>, harvest: bool, save: bool, dev: Device, ps: set<Pipeline>)
    requires Credited(s, dev, ps) && b in s.batches
    ensures Credited(Finish(s, b, made, harvest, save), dev, ps)
  {
    FinishOwnerCredit(s, b, made, save, dev, ps);
    FinishAppCredit(s, b, made, harvest, save, dev, ps);
    FinishScratchCredit(s, b, made, save, dev, ps);
  }

  lemma StepCredit(s: State, e: Event, dev: Device, ps: set<Pipeline>)
    requires Credited(s, dev, ps) && Enabled(s, e) && !((e.DeviceDestroy? || e.DeviceCreate?) && e.dev == dev)
    ensures Credited(Step(s, e), dev, ps)
  {
    var s0 := s.(touched := {});
    match e
    case BatchBegin(b, d, app, ok, primed) => BeginCredit(s0, b, d, app, ok, primed, dev, ps);
    case BatchFinish(b, made, harvest, save) => FinishCredit(s0, b, made, harvest, save, dev, ps);
    case AppCreate(d, primeOn, ok, primed, initial) => PrimeCredit(NewApp(s0, initial), s.next, d, ok, primed, dev, ps);
    case DeviceDestroy(d, save) => DeviceCredit(s, e, dev, ps);
    case DeviceCreate(d) => DeviceCredit(s, e, dev, ps);
    case BatchScratch(b, ok) => RowsCredit(s, MakeScratch(s0, b, ok), dev, ps);
    case BatchLeave(b) => RowsCredit(s, Leave(s0, b), dev, ps);
    case AppMerge(dst, srcs) => RowsCredit(s, Merge(s0, dst, srcs), dev, ps);
    case AppSerialise(h) =>
    case AppDestroy(h) =>
  }

  lemma {:induction false} RunCredit(tr: seq<State>, es: seq<Event>, k: nat, j: nat, dev: Device, ps: set<Pipeline>)
    requires IsRun(tr, es) && k <= j < |tr| && Credited(tr[k], dev, ps)
    requires forall m :: k <= m < j ==> !((es[m].DeviceDestroy? || es[m].DeviceCreate?) && es[m].dev == dev)
    ensures Credited(tr[j], dev, ps)
  {
    hide Credited, Next;
    if k < j {
      RunCredit(tr, es, k, j - 1, dev, ps);
      assert Next(tr[j - 1], es[j - 1], tr[j]);
      NextCredit(tr[j - 1], es[j - 1], tr[j], dev, ps);
    }
  }

  lemma NextCredit(s: State, e: Event, t: State, dev: Device, ps: set<Pipeline>)
    requires Credited(s, dev, ps) && Next(s, e, t) && !((e.DeviceDestroy? || e.DeviceCreate?) && e.dev == dev)
    ensures Credited(t, dev, ps)
  {
    hide Credited, Step;
    StepCredit(s, e, dev, ps);
  }

  /** The two ways a batch's work is given up: no row for its device, or the queue full and the master busy. */
  ghost predicate GivenUp(s: State, bt: Batch) {
    var i := Lookup(s.dc, bt.dev);
    i == |s.dc| || (!bt.ownMaster && s.dc[i].masterInUse && |s.dc[i].pending| >= 8)
  }

  lemma FinishEarns(s: State, b: BatchId, made: set<Pipeline>, harvest: bool, save: bool)
    requires ExclInv(s) && RetainInv(s) && b in s.batches && s.batches[b].phase.Compiling? && s.batches[b].app == NULL
    requires !GivenUp(s, s.batches[b])
    ensures Credited(Finish(s, b, made, harvest, save), s.batches[b].dev, made)
  {
    var bt := s.batches[b];
    assert BatchShape(bt) && RowRetains(s, Lookup(s.dc, bt.dev));
    assert !bt.ownMaster ==> bt.scratch != NULL;
    hide ExclInv, RetainInv, RowRetains, FinishOwner, FinishScratch;
    if bt.ownMaster {
      OwnerCredited(s, b, made, save);
    } else {
      ScratchCredited(s, b, made, save);
    }
  }

  lemma OwnerCredited(s: State, b: BatchId, made: set<Pipeline>, save: bool)
    requires b in s.batches && s.batches[b].dev != NULL && Lookup(s.dc, s.batches[b].dev) < |s.dc|
    ensures Credited(FinishOwner(s, b, made, save), s.batches[b].dev, made)
  {
    var bt := s.batches[b];
    var i := Lookup(s.dc, bt.dev);
    var s1 := Compiled(s, b, made).(batches := s.batches - {b});
    var s2 := Earn(s1.(dc := s1.dc[i := s1.dc[i].(masterInUse := false)]), i, made);
    assert s2.dc[i].dev == bt.dev;
    hide Drain;
    DrainCredit(s2, i, bt.dev, made);
  }

  lemma ScratchCredited(s: State, b: BatchId, made: set<Pipeline>, save: bool)
    requires b in s.batches && s.batches[b].dev != NULL && !GivenUp(s, s.batches[b]) && !s.batches[b].ownMaster
    requires var i := Lookup(s.dc, s.batches[b].dev); i < |s.dc| ==> s.dc[i].pc != NULL
    ensures Credited(FinishScratch(s, b, made, save), s.batches[b].dev, made)
  {
    var bt := s.batches[b];
    var i := Lookup(s.dc, bt.dev);
    hide Drain;
    if s.dc[i].masterInUse {
      assert FinishScratch(s, b, made, save).dc[i].dev == bt.dev;
    } else {
      var leave := Compiled(s, b, made).(batches := s.batches[b := bt.(phase := Leaving)]);
      DrainCredit(Merge(Earn(leave, i, made), s.dc[i].pc, [bt.scratch]), i, bt.dev, made);
    }
  }

  /**
    The pipelines of a batch that passed no cache, finished at step k and was not given up, are in
    its device's master or in a queued cache at every later moment until that device goes away.
   */
  lemma PipelinesAreKept(tr: seq<State>, es: seq<Event>, k: nat, j: nat)
    requires IsRun(tr, es) && k < j < |tr| && es[k].BatchFinish?
    requires forall m :: 0 <= m < |es| ==> Calm(tr[m], es[m]) && CreatesSucceed(es[m])
    requires es[k].b in tr[k].batches
    requires var bt := tr[k].batches[es[k].b];
             && bt.app == NULL && !GivenUp(tr[k], bt)
             && forall m :: k <= m < j ==> !((es[m].DeviceDestroy? || es[m].DeviceCreate?) && es[m].dev == bt.dev)
    ensures var i := Lookup(tr[j].dc, tr[k].batches[es[k].b].dev);
            i < |tr[j].dc| && es[k].made <= Kept(tr[j], i)
  {
    var bt := tr[k].batches[es[k].b];
    hide ExclInv, RetainInv, Credited, GivenUp, Calm, CreatesSucceed;
    RunRetains(tr, es, k);
    assert Next(tr[k], es[k], tr[k + 1]);
    EarnsNext(tr[k], es[k], tr[k + 1]);
    RunCredit(tr, es, k + 1, j, bt.dev, es[k].made);
    RunRetains(tr, es, j);
    CreditIsKept(tr[j], bt.dev, es[k].made);
  }

  lemma EarnsNext(s: State, e: Event, t: State)
    requires ExclInv(s) && RetainInv(s) && Next(s, e, t) && e.BatchFinish? && s.batches[e.b].app == NULL && !GivenUp(s, s.batches[e.b])
    ensures Credited(t, s.batches[e.b].dev, e.made)
  {
    var s0 := s.(touched := {});
    hide ExclInv, RetainInv, Credited, Finish;
    ResetExcl(s, s0);
    ResetRetain(s, s0);
    FinishEarns(s0, e.b, e.made, e.harvest, e.save);
  }

  lemma CreditIsKept(s: State, dev: Device, ps: set<Pipeline>)
    requires RetainInv(s) && Credited(s, dev, ps)
    ensures var i := Lookup(s.dc, dev); i < |s.dc| && ps <= Kept(s, i)
  {
    assert RowRetains(s, Lookup(s.dc, dev));
  }

  /** A scratch cache waits in a queue only while some batch holds that device's master. */
  lemma QueueOnlyWhileBusy(tr: seq<State>, es: seq<Event>, k: nat, i: nat)
    requires IsRun(tr, es) && k < |tr| && i < |tr[k].dc| && tr[k].dc[i].pending != []
    requires forall m :: 0 <= m < |es| ==> Calm(tr[m], es[m]) && CreatesSucceed(es[m])
    ensures exists b :: Uses(tr[k], b, tr[k].dc[i].pc) && tr[k].batches[b].dev == tr[k].dc[i].dev
  {
    RunRetains(tr, es, k);
    var s := tr[k];
    var b :| Holds(s.dc, s.batches, b, i);
    assert BatchShape(s.batches[b]);
    assert Uses(s, b, s.dc[i].pc);
  }
}
