/**
  One batch at a time compiles with a device's master cache, and nothing merges into it, merges
  from it, serialises it or destroys it meanwhile, although no lock is held across the compile.

  This is the external-synchronisation rule for pipelineCache in the "Threading Behavior" section
  of the Vulkan 1.0 specification. It needs only that no device is destroyed, and no device handle
  recycled, under a batch that is still compiling on it (Calm).
 */
module MasterExclusion {
  import opened PipelineCache
  import opened ScratchConservation

  /** Rows belong to different devices and hold different masters. */
  ghost predicate RowsDistinct(dc: seq<DevCache>) {
    && (forall i, j :: 0 <= i < j < |dc| && dc[i].dev != NULL ==> dc[i].dev != dc[j].dev)
    && (forall i, j :: 0 <= i < j < |dc| && dc[i].pc != NULL ==> dc[i].pc != dc[j].pc)
  }

  /** Row i is held by batch b. */
  ghost predicate Holds(dc: seq<DevCache>, bs: map<BatchId, Batch>, b: BatchId, i: nat) {
    b in bs && bs[b].ownMaster && i < |dc| && dc[i].dev == bs[b].dev && dc[i].masterInUse && dc[i].pc == bs[b].into
  }

  /** Every owner holds a row. */
  ghost predicate OwnersHold(dc: seq<DevCache>, bs: map<BatchId, Batch>) {
    forall b :: b in bs && bs[b].ownMaster ==> bs[b].into != NULL && exists i :: Holds(dc, bs, b, i)
  }

  /** Every busy row is held. */
  ghost predicate FlagsHeld(dc: seq<DevCache>, bs: map<BatchId, Batch>) {
    forall i :: 0 <= i < |dc| && dc[i].masterInUse ==> exists b :: Holds(dc, bs, b, i)
  }

  /** A device has one owner at most. */
  ghost predicate OneOwner(bs: map<BatchId, Batch>) {
    forall b, c :: b in bs && c in bs && bs[b].ownMaster && bs[c].ownMaster && bs[b].dev == bs[c].dev ==> b == c
  }

  /** The busy flag of a row is set exactly while one batch owns its master. */
  ghost predicate OwnersOk(dc: seq<DevCache>, bs: map<BatchId, Batch>) {
    OwnersHold(dc, bs) && FlagsHeld(dc, bs) && OneOwner(bs)
  }

  ghost predicate RolesOk(s: State) {
    && (forall b :: b in s.batches && s.batches[b].app != NULL ==>
          s.batches[b].app in s.role && s.role[s.batches[b].app].AppMade?)
    && (forall i :: 0 <= i < |s.dc| && s.dc[i].pc != NULL ==> s.dc[i].pc in s.store)
  }

  ghost predicate ExclInv(s: State) {
    ScratchInv(s) && RowsDistinct(s.dc) && OwnersOk(s.dc, s.batches) && RolesOk(s)
  }

  ghost predicate IsAppCache(s: State, h: Handle) {
    h in s.role && s.role[h].AppMade?
  }

  /** No object the step touched is one that a batch has handed to the driver, app caches aside. */
  ghost predicate Undisturbed(s: State) {
    forall h, b :: h in s.touched && Uses(s, b, h) ==> IsAppCache(s, h)
  }

  /** Only queues differ between the tables, and no owner differs between the batches. */
  lemma OwnersCarry(dc: seq<DevCache>, bs: map<BatchId, Batch>, dc': seq<DevCache>, bs': map<BatchId, Batch>)
    requires OwnersOk(dc, bs) && RowsDistinct(dc) && |dc'| == |dc|
    requires forall i :: 0 <= i < |dc| ==> dc'[i] == dc[i].(pending := dc'[i].pending)
    requires forall b :: (b in bs && bs[b].ownMaster) || (b in bs' && bs'[b].ownMaster) ==>
                b in bs && b in bs' && bs'[b] == bs[b].(phase := bs'[b].phase)
    ensures OwnersOk(dc', bs') && RowsDistinct(dc')
  {
    forall b | b in bs' && bs'[b].ownMaster
      ensures exists i :: Holds(dc', bs', b, i)
    {
      var i :| Holds(dc, bs, b, i);
      assert Holds(dc', bs', b, i);
    }
    forall i | 0 <= i < |dc'| && dc'[i].masterInUse
      ensures exists b :: Holds(dc', bs', b, i)
    {
      assert dc[i].masterInUse;
      var b :| Holds(dc, bs, b, i);
      assert Holds(dc', bs', b, i);
    }
  }

  lemma RolesCarry(s: State, t: State)
    requires RolesOk(s) && |t.dc| == |s.dc|
    requires forall i :: 0 <= i < |s.dc| ==> t.dc[i].pc == s.dc[i].pc || t.dc[i].pc == NULL
    requires forall i :: 0 <= i < |t.dc| && t.dc[i].pc != NULL && t.dc[i].pc in s.store ==> t.dc[i].pc in t.store
    requires forall h :: h in s.role && s.role[h].AppMade? ==> h in t.role && t.role[h].AppMade?
    requires forall b :: b in t.batches ==> t.batches[b].app == NULL || (b in s.batches && t.batches[b].app == s.batches[b].app)
    ensures RolesOk(t)
  {
  }

  /** A handle a batch uses is a master it owns, its own scratch cache, or an app cache. */
  lemma UsesWhat(s: State, b: BatchId, h: Handle)
    requires ExclInv(s) && Uses(s, b, h)
    ensures h in s.role
    ensures s.role[h].Master? ==> s.batches[b].ownMaster && exists i: nat :: Holds(s.dc, s.batches, b, i) && s.dc[i].pc == h
    ensures s.role[h].Scratch? ==> At(s, h, InBatch(b)) && s.batches[b].scratch == h
  {
    if s.batches[b].ownMaster {
      var i :| Holds(s.dc, s.batches, b, i);
    }
  }

  /** Safe to touch: an app cache, a scratch cache no batch is compiling into, an idle master. */
  ghost predicate Idle(s: State, h: Handle) {
    && h in s.role
    && (s.role[h].Scratch? ==> !(s.role[h].place.InBatch? && s.role[h].place.b in s.batches
                                 && !s.batches[s.role[h].place.b].phase.Leaving?))
    && (s.role[h].Master? ==> forall j :: 0 <= j < |s.dc| && s.dc[j].pc == h ==> !s.dc[j].masterInUse)
  }

  lemma TouchedIdle(t: State)
    requires ExclInv(t) && forall h :: h in t.touched ==> Idle(t, h)
    ensures Undisturbed(t)
  {
    forall h, b | h in t.touched && Uses(t, b, h)
      ensures IsAppCache(t, h)
    {
      UsesWhat(t, b, h);
    }
  }

  // ---- the steps -------------------------------------------------------------

  lemma EnsureExcl(s: State, dev: Device, ok: bool, primed: set<Pipeline>, t: State)
    requires ExclInv(s) && dev != NULL && t == Ensure(s, dev, ok, primed)
    ensures ExclInv(t) && t.touched == s.touched
  {
    EnsureKeeps(s, dev, ok, primed);
    EnsureFrame(s, dev, ok, primed, t);
    EnsureDistinct(s, dev, ok, primed, t);
    EnsureOwners(s, dev, ok, primed, t);
    hide OwnersOk, RowsDistinct, Ensure;
  }

  lemma EnsureOwners(s: State, dev: Device, ok: bool, primed: set<Pipeline>, t: State)
    requires Shape(s) && OwnersOk(s.dc, s.batches) && dev != NULL && t == Ensure(s, dev, ok, primed)
    ensures OwnersOk(t.dc, t.batches)
  {
    EnsureFrame(s, dev, ok, primed, t);
    hide Ensure;
    forall b | b in t.batches && t.batches[b].ownMaster
      ensures exists i :: Holds(t.dc, t.batches, b, i)
    {
      var i :| Holds(s.dc, s.batches, b, i);
      EnsureRow(s, dev, ok, primed, t, i);
      assert Holds(t.dc, t.batches, b, i);
    }
    forall i | 0 <= i < |t.dc| && t.dc[i].masterInUse
      ensures exists b :: Holds(t.dc, t.batches, b, i)
    {
      assert s.dc[i].masterInUse;
      var b :| Holds(s.dc, s.batches, b, i);
      EnsureRow(s, dev, ok, primed, t, i);
      assert Holds(t.dc, t.batches, b, i);
    }
  }

  /** A row whose master exists is left as it is. */
  lemma EnsureRow(s: State, dev: Device, ok: bool, primed: set<Pipeline>, t: State, i: nat)
    requires Shape(s) && dev != NULL && t == Ensure(s, dev, ok, primed) && i < |s.dc| && s.dc[i].pc != NULL
    ensures |t.dc| == |s.dc| && t.dc[i] == s.dc[i]
  {
    EnsureFrame(s, dev, ok, primed, t);
    var j := Lookup(s.dc, dev);
    if j < |s.dc| {
      assert t.dc[j] == s.dc[j] || s.dc[j].pc == NULL;
    }
  }

  lemma EnsureDistinct(s: State, dev: Device, ok: bool, primed: set<Pipeline>, t: State)
    requires Shape(s) && RowsDistinct(s.dc) && dev != NULL && t == Ensure(s, dev, ok, primed)
    ensures RowsDistinct(t.dc)
  {
    var (dc1, i) := Claim(s.dc, dev);
    assert t.dc == dc1 || (i < |dc1| && t.dc == dc1[i := dc1[i].(pc := s.next)]);
    assert RowsDistinct(dc1);
  }

  lemma BeginExcl(s: State, b: BatchId, dev: Device, app: Handle, ok: bool, primed: set<Pipeline>)
    requires ExclInv(s) && b !in s.batches && dev != NULL && s.touched == {}
    requires app == NULL || AppHolds(s, app)
    ensures ExclInv(Begin(s, b, dev, app, ok, primed)) && Begin(s, b, dev, app, ok, primed).touched == {}
  {
    var s1 := Ensure(s, dev, ok, primed);
    var t := Begin(s, b, dev, app, ok, primed);
    hide Begin, Ensure, OwnersOk, RowsDistinct;
    EnsureExcl(s, dev, ok, primed, s1);
    EnsureFrame(s, dev, ok, primed, s1);
    BeginKeeps(s, b, dev, app, ok, primed);
    BeginFrame(s, b, dev, app, ok, primed, s1, t);
    BeginOwners(s1, b, dev, app, t, s, ok, primed);
    BeginRoles(s1, t, b);
  }

  lemma BeginRoles(s: State, t: State, b: BatchId)
    requires RolesOk(s) && t.role == s.role && t.store == s.store && |t.dc| == |s.dc|
    requires forall i :: 0 <= i < |s.dc| ==> t.dc[i].pc == s.dc[i].pc
    requires b in t.batches && t.batches == s.batches[b := t.batches[b]]
    requires t.batches[b].app == NULL || (t.batches[b].app in s.role && s.role[t.batches[b].app].AppMade?)
    ensures RolesOk(t)
  {
  }

  lemma BeginOwners(s1: State, b: BatchId, dev: Device, app: Handle, t: State, s: State, ok: bool, primed: set<Pipeline>)
    requires ExclInv(s1) && s1 == Ensure(s, dev, ok, primed) && t == Begin(s, b, dev, app, ok, primed)
    requires b !in s1.batches && dev != NULL
    ensures OwnersOk(t.dc, t.batches) && RowsDistinct(t.dc)
    ensures b in t.batches && (t.batches[b].app == NULL || t.batches[b].app == app)
  {
    if t.batches[b].ownMaster {
      TakeMaster(s1, t, b);
    } else {
      assert t.dc == s1.dc;
      OwnersCarry(s1.dc, s1.batches, t.dc, t.batches);
    }
  }

  /** The batch that finds the flag clear sets it and is the only owner. */
  lemma TakeMaster(s: State, t: State, b: BatchId)
    requires RowsDistinct(s.dc) && OwnersOk(s.dc, s.batches) && b !in s.batches && b in t.batches && t.batches[b].dev != NULL
    requires t.batches == s.batches[b := t.batches[b]] && t.batches[b].ownMaster
    requires var i := Lookup(s.dc, t.batches[b].dev);
             && i < |s.dc| && s.dc[i].pc != NULL && !s.dc[i].masterInUse && t.batches[b].into == s.dc[i].pc
             && t.dc == s.dc[i := s.dc[i].(masterInUse := true)]
    ensures OwnersOk(t.dc, t.batches) && RowsDistinct(t.dc)
  {
    var i := Lookup(s.dc, t.batches[b].dev);
    assert Holds(t.dc, t.batches, b, i);
    forall c | c in t.batches && t.batches[c].ownMaster && c != b
      ensures t.batches[c].dev != t.batches[b].dev && exists j :: Holds(t.dc, t.batches, c, j)
    {
      var j :| Holds(s.dc, s.batches, c, j);
      assert Holds(t.dc, t.batches, c, j);
    }
    forall j | 0 <= j < |t.dc| && t.dc[j].masterInUse
      ensures exists c :: Holds(t.dc, t.batches, c, j)
    {
      if j != i {
        assert s.dc[j].masterInUse;
        var c :| Holds(s.dc, s.batches, c, j);
        assert Holds(t.dc, t.batches, c, j);
      }
    }
  }

  lemma MakeScratchExcl(s: State, b: BatchId, ok: bool)
    requires ExclInv(s) && b in s.batches && s.batches[b].phase.Opened? && s.touched == {}
    ensures ExclInv(MakeScratch(s, b, ok)) && MakeScratch(s, b, ok).touched == {}
  {
    var t := MakeScratch(s, b, ok);
    assert s.next !in s.role;
    hide MakeScratch, ScratchInv, OwnersOk, RowsDistinct, RolesOk;
    MakeScratchKeeps(s, b, ok);
    MakeScratchFrame(s, b, ok, t);
    OwnersCarry(s.dc, s.batches, t.dc, t.batches);
    RolesCarry(s, t);
  }

  lemma MakeScratchFrame(s: State, b: BatchId, ok: bool, t: State)
    requires b in s.batches && s.next !in s.role && t == MakeScratch(s, b, ok)
    ensures t.dc == s.dc && t.touched == s.touched
    ensures b in t.batches && t.batches == s.batches[b := t.batches[b]]
    ensures t.batches[b].app == s.batches[b].app && t.batches[b].ownMaster == s.batches[b].ownMaster
    ensures s.batches[b].ownMaster ==> t.batches[b] == s.batches[b].(phase := Compiling)
    ensures forall h :: h in s.role ==> h in t.role && t.role[h] == s.role[h]
    ensures forall h :: h in s.store ==> h in t.store
  {
  }

  /** Draining an idle row touches its master and its queued caches only. */
  lemma DrainExcl(s: State, i: nat, t: State)
    requires ExclInv(s) && i < |s.dc| && !s.dc[i].masterInUse && t == Drain(s, i)
    requires forall h :: h in s.touched ==> Idle(s, h)
    ensures ExclInv(t) && forall h :: h in t.touched ==> Idle(t, h)
    ensures t.dc == s.dc[i := s.dc[i].(pending := [])] && t.batches == s.batches
  {
    DrainKeeps(s, i);
    DrainFrame(s, i, t);
    DrainedExcl(s, i, t);
  }

  lemma DrainedExcl(s: State, i: nat, t: State)
    requires ExclInv(s) && Drained(s, i, t) && ScratchInv(t) && !s.dc[i].masterInUse
    requires forall h :: h in s.touched ==> Idle(s, h)
    ensures ExclInv(t) && forall h :: h in t.touched ==> Idle(t, h)
  {
    QueuedHere(s, i);
    DrainedIdle(s, i, t);
    hide Idle, ScratchInv;
    assert OwnersOk(t.dc, t.batches) && RowsDistinct(t.dc) by {
      OwnersCarry(s.dc, s.batches, t.dc, t.batches);
    }
    assert RolesOk(t) by {
      DrainedRoles(s, i, t);
    }
  }

  lemma DrainedRoles(s: State, i: nat, t: State)
    requires ExclInv(s) && Drained(s, i, t) && forall h :: h in s.dc[i].pending ==> At(s, h, Queued(i))
    ensures RolesOk(t)
  {
    hide OwnersOk, RowsDistinct, HoldersAgree, PlaceHolds;
    RolesCarry(s, t);
  }

  lemma DrainedIdle(s: State, i: nat, t: State)
    requires ExclInv(s) && Drained(s, i, t) && !s.dc[i].masterInUse
    requires forall h :: h in s.touched ==> Idle(s, h)
    requires forall h :: h in s.dc[i].pending ==> At(s, h, Queued(i))
    ensures forall h :: h in t.touched ==> Idle(t, h)
  {
    if s.dc[i].pc != NULL {
      IdleRow(s, i);
    }
    hide ExclInv;
  }

  lemma SaveExcl(s: State, i: nat, save: bool)
    requires ExclInv(s) && i < |s.dc| && !s.dc[i].masterInUse && forall h :: h in s.touched ==> Idle(s, h)
    ensures ExclInv(Save(s, i, save)) && forall h :: h in Save(s, i, save).touched ==> Idle(Save(s, i, save), h)
  {
    SaveKeeps(s, i, save);
  }

  lemma FinishOwnerExcl(s: State, b: BatchId, made: set<Pipeline>, save: bool)
    requires ExclInv(s) && b in s.batches && s.batches[b].ownMaster && s.touched == {}
    ensures ExclInv(FinishOwner(s, b, made, save)) && Undisturbed(FinishOwner(s, b, made, save))
  {
    var i := Lookup(s.dc, s.batches[b].dev);
    OwnerRow(s, b, i);
    var s1 := Compiled(s, b, made).(batches := s.batches - {b});
    var s2 := Earn(s1.(dc := s1.dc[i := s1.dc[i].(masterInUse := false)]), i, made);
    ReleaseExcl(s, s2, b, i);
    hide ExclInv, Undisturbed, Drain, Save;
    DrainSaveExcl(s2, i, save);
  }

  lemma DrainSaveExcl(s: State, i: nat, save: bool)
    requires ExclInv(s) && i < |s.dc| && !s.dc[i].masterInUse && forall h :: h in s.touched ==> Idle(s, h)
    ensures |Drain(s, i).dc| == |s.dc|
    ensures ExclInv(Save(Drain(s, i), i, save)) && Undisturbed(Save(Drain(s, i), i, save))
  {
    hide ExclInv, Undisturbed;
    DrainExcl(s, i, Drain(s, i));
    hide Drain;
    SaveExcl(Drain(s, i), i, save);
    hide Save;
    TouchedIdle(Save(Drain(s, i), i, save));
  }

  lemma ReleaseExcl(s: State, t: State, b: BatchId, i: nat)
    requires ExclInv(s) && Holds(s.dc, s.batches, b, i)
    requires t.batches == s.batches - {b} && t.dc == s.dc[i := s.dc[i].(masterInUse := false)]
    requires t.role == s.role && t.next == s.next && t.destroyed == s.destroyed && t.store.Keys == s.store.Keys
    ensures ExclInv(t)
  {
    ShapeOf(s, b);
    Alike(s, t);
    ReleaseMaster(s, t, b, i);
    RolesCarry(s, t);
  }

  lemma OwnerRow(s: State, b: BatchId, i: nat)
    requires ExclInv(s) && b in s.batches && s.batches[b].ownMaster && i == Lookup(s.dc, s.batches[b].dev)
    ensures Holds(s.dc, s.batches, b, i)
  {
    var j :| Holds(s.dc, s.batches, b, j);
    assert BatchShape(s.batches[b]);
  }

  lemma ReleaseMaster(s: State, t: State, b: BatchId, i: nat)
    requires ExclInv(s) && Holds(s.dc, s.batches, b, i)
    requires t.batches == s.batches - {b} && t.dc == s.dc[i := s.dc[i].(masterInUse := false)]
    ensures OwnersOk(t.dc, t.batches) && RowsDistinct(t.dc)
  {
    forall c | c in t.batches && t.batches[c].ownMaster
      ensures exists j :: Holds(t.dc, t.batches, c, j)
    {
      var j :| Holds(s.dc, s.batches, c, j);
      assert Holds(t.dc, t.batches, c, j);
    }
    forall j | 0 <= j < |t.dc| && t.dc[j].masterInUse
      ensures exists c :: Holds(t.dc, t.batches, c, j)
    {
      assert s.dc[j].masterInUse;
      var c :| Holds(s.dc, s.batches, c, j);
      assert Holds(t.dc, t.batches, c, j);
    }
  }

  lemma FinishAppExcl(s: State, b: BatchId, made: set<Pipeline>, harvest: bool, save: bool)
    requires ExclInv(s) && b in s.batches && s.batches[b].app != NULL && s.touched == {}
    ensures ExclInv(FinishApp(s, b, made, harvest, save)) && Undisturbed(FinishApp(s, b, made, harvest, save))
  {
    var bt := s.batches[b];
    var i := Lookup(s.dc, bt.dev);
    var app1 := if bt.tracked then Unref(s.app, bt.app).0 else s.app;
    var s1 := Compiled(s, b, made).(batches := s.batches - {b}, app := app1);
    AppDoneExcl(s, b, s1);
    hide ExclInv, Undisturbed, Drain, Save, Merge, Unref;
    if i < |s.dc| && !s.dc[i].masterInUse && s.dc[i].pc != NULL {
      FoldExcl(s1, i, bt.app, save);
    }
  }

  lemma AppDoneExcl(s: State, b: BatchId, t: State)
    requires ExclInv(s) && b in s.batches && s.batches[b].app != NULL
    requires t.dc == s.dc && t.batches == s.batches - {b} && t.role == s.role && t.destroyed == s.destroyed
    requires t.next == s.next && t.store.Keys == s.store.Keys
    ensures ExclInv(t) && Idle(t, s.batches[b].app) && (t.touched == {} ==> Undisturbed(t))
  {
    ShapeOf(s, b);
    Alike(s, t);
    OwnersCarry(s.dc, s.batches, t.dc, t.batches);
    RolesCarry(s, t);
  }

  /** Merging one idle cache into an idle master, then draining and saving. */
  lemma FoldExcl(s: State, i: nat, src: Handle, save: bool)
    requires ExclInv(s) && s.touched == {} && i < |s.dc| && !s.dc[i].masterInUse && s.dc[i].pc != NULL && Idle(s, src)
    ensures |Drain(Merge(s, s.dc[i].pc, [src]), i).dc| == |s.dc|
    ensures var t := Save(Drain(Merge(s, s.dc[i].pc, [src]), i), i, save);
            ExclInv(t) && Undisturbed(t)
  {
    IdleRow(s, i);
    MergeExcl(s, s.dc[i].pc, [src]);
    hide ExclInv, Undisturbed, Drain, Save;
    DrainSaveExcl(Merge(s, s.dc[i].pc, [src]), i, save);
  }

  lemma IdleRow(s: State, i: nat)
    requires ExclInv(s) && i < |s.dc| && !s.dc[i].masterInUse && s.dc[i].pc != NULL
    ensures Idle(s, s.dc[i].pc)
  {
  }

  lemma MergeExcl(s: State, dst: Handle, srcs: seq<Handle>)
    requires ExclInv(s) && (forall h :: h in s.touched ==> Idle(s, h))
    requires Idle(s, dst) && forall h :: h in srcs ==> Idle(s, h)
    ensures ExclInv(Merge(s, dst, srcs)) && forall h :: h in Merge(s, dst, srcs).touched ==> Idle(Merge(s, dst, srcs), h)
  {
    MergeKeeps(s, dst, srcs);
  }

  lemma FinishScratchExcl(s: State, b: BatchId, made: set<Pipeline>, save: bool)
    requires ExclInv(s) && b in s.batches && s.batches[b].scratch != NULL && s.batches[b].phase.Compiling? && s.touched == {}
    ensures ExclInv(FinishScratch(s, b, made, save)) && Undisturbed(FinishScratch(s, b, made, save))
  {
    ShapeOf(s, b);
    var i := Lookup(s.dc, s.batches[b].dev);
    if i < |s.dc| && !s.dc[i].masterInUse && s.dc[i].pc != NULL {
      FoldScratchExcl(s, b, made, save, i);
    } else {
      FinishScratchKeeps(s, b, made, save);
      SetAsideFrame(s, b, made, save, FinishScratch(s, b, made, save));
      hide FinishScratch;
      SetAsideExcl(s, b, FinishScratch(s, b, made, save));
    }
  }

  lemma FoldScratchExcl(s: State, b: BatchId, made: set<Pipeline>, save: bool, i: nat)
    requires ExclInv(s) && b in s.batches && s.batches[b].scratch != NULL && s.touched == {}
    requires i == Lookup(s.dc, s.batches[b].dev) < |s.dc| && !s.dc[i].masterInUse && s.dc[i].pc != NULL
    ensures ExclInv(FinishScratch(s, b, made, save)) && Undisturbed(FinishScratch(s, b, made, save))
  {
    hide ExclInv, Undisturbed, Drain, Save, Merge;
    var bt := s.batches[b];
    var s1 := Earn(Compiled(s, b, made).(batches := s.batches[b := bt.(phase := Leaving)]), i, made);
    StartLeaving(s, b, i, s1);
    FoldExcl(s1, i, bt.scratch, save);
  }

  lemma SetAsideExcl(s: State, b: BatchId, t: State)
    requires ExclInv(s) && b in s.batches && !s.batches[b].ownMaster && ScratchInv(t)
    requires t.touched == {} && |t.dc| == |s.dc| && t.store.Keys == s.store.Keys
    requires forall i :: 0 <= i < |s.dc| ==> t.dc[i] == s.dc[i].(pending := t.dc[i].pending)
    requires t.batches == s.batches - {b} || t.batches == s.batches[b := s.batches[b].(phase := Leaving)]
    requires forall h :: h in s.role && !s.role[h].Scratch? ==> h in t.role && t.role[h] == s.role[h]
    ensures ExclInv(t) && Undisturbed(t)
  {
    OwnersCarry(s.dc, s.batches, t.dc, t.batches);
    RolesCarry(s, t);
  }

  /** Queueing or dropping the scratch cache touches nothing and changes no row but for its queue. */
  lemma SetAsideFrame(s: State, b: BatchId, made: set<Pipeline>, save: bool, t: State)
    requires b in s.batches && t == FinishScratch(s, b, made, save) && At(s, s.batches[b].scratch, InBatch(b))
    requires var i := Lookup(s.dc, s.batches[b].dev); i < |s.dc| ==> s.dc[i].masterInUse || s.dc[i].pc == NULL
    ensures t.touched == s.touched && |t.dc| == |s.dc| && t.store.Keys == s.store.Keys
    ensures forall i :: 0 <= i < |s.dc| ==> t.dc[i] == s.dc[i].(pending := t.dc[i].pending)
    ensures t.batches == s.batches - {b} || t.batches == s.batches[b := s.batches[b].(phase := Leaving)]
    ensures forall h :: h in s.role && !s.role[h].Scratch? ==> h in t.role && t.role[h] == s.role[h]
  {
  }

  lemma StartLeaving(s: State, b: BatchId, i: nat, t: State)
    requires ExclInv(s) && b in s.batches && s.batches[b].scratch != NULL
    requires t.batches == s.batches[b := s.batches[b].(phase := Leaving)] && t.dc == s.dc && t.role == s.role
    requires t.destroyed == s.destroyed && t.next == s.next && t.store.Keys == s.store.Keys
    ensures ExclInv(t) && Idle(t, s.batches[b].scratch)
  {
    ShapeOf(s, b);
    Alike(s, t);
    OwnersCarry(s.dc, s.batches, t.dc, t.batches);
    RolesCarry(s, t);
  }

  lemma LeaveExcl(s: State, b: BatchId)
    requires ExclInv(s) && b in s.batches && s.batches[b].phase.Leaving?
    ensures ExclInv(Leave(s, b)) && Undisturbed(Leave(s, b))
  {
    var t := Leave(s, b);
    assert BatchShape(s.batches[b]) && At(s, s.batches[b].scratch, InBatch(b));
    LeaveKeeps(s, b);
    OwnersCarry(s.dc, s.batches, t.dc, t.batches);
    RolesCarry(s, t);
    TouchedIdle(t);
  }

  lemma NewAppExcl(s: State, initial: set<Pipeline>)
    requires ExclInv(s)
    ensures ExclInv(NewApp(s, initial)) && (s.touched == {} ==> Undisturbed(NewApp(s, initial)))
  {
    NewAppKeeps(s, initial);
    RolesCarry(s, NewApp(s, initial));
  }

  lemma PrimeExcl(s: State, h: Handle, dev: Device, ok: bool, primed: set<Pipeline>)
    requires ExclInv(s) && dev != NULL && s.touched == {} && AppHolds(s, h)
    ensures ExclInv(Prime(s, h, dev, ok, primed)) && Undisturbed(Prime(s, h, dev, ok, primed))
  {
    var t := Ensure(s, dev, ok, primed);
    EnsureExcl(s, dev, ok, primed, t);
    EnsureFrame(s, dev, ok, primed, t);
    var i := Lookup(t.dc, dev);
    if i < |t.dc| && t.dc[i].pc != NULL && !t.dc[i].masterInUse {
      IdleRow(t, i);
      MergeExcl(t, h, [t.dc[i].pc]);
      TouchedIdle(Merge(t, h, [t.dc[i].pc]));
    }
  }

  lemma DropExcl(s: State, i: nat, save: bool)
    requires ExclInv(s) && i < |s.dc| && s.touched == {} && !s.dc[i].masterInUse
    ensures ExclInv(Drop(s, i, save)) && Undisturbed(Drop(s, i, save))
  {
    DropKeeps(s, i, save);
    hide ExclInv, Undisturbed, ScratchInv;
    var d := Drain(s, i);
    DrainExcl(s, i, d);
    hide Drain;
    SaveExcl(d, i, save);
    WipeExcl(Save(d, i, save), i, Drop(s, i, save));
  }

  lemma WipeExcl(s: State, i: nat, t: State)
    requires ExclInv(s) && i < |s.dc| && !s.dc[i].masterInUse && forall h :: h in s.touched ==> Idle(s, h)
    requires ScratchInv(t) && t.dc == s.dc[i := EMPTY_SLOT] && t.batches == s.batches && t.role == s.role
    requires t.store == s.store - {s.dc[i].pc}
    requires forall h :: h in t.touched ==> h in s.touched || h == s.dc[i].pc != NULL
    ensures ExclInv(t) && Undisturbed(t)
  {
    WipeOwners(s, i, t);
    RolesCarry(s, t);
    TouchedIdle(t);
  }

  lemma WipeOwners(s: State, i: nat, t: State)
    requires ExclInv(s) && i < |s.dc| && !s.dc[i].masterInUse
    requires t.dc == s.dc[i := EMPTY_SLOT] && t.batches == s.batches
    ensures OwnersOk(t.dc, t.batches) && RowsDistinct(t.dc)
  {
    forall c | c in t.batches && t.batches[c].ownMaster
      ensures exists j :: Holds(t.dc, t.batches, c, j)
    {
      var j :| Holds(s.dc, s.batches, c, j);
      assert Holds(t.dc, t.batches, c, j);
    }
    forall j | 0 <= j < |t.dc| && t.dc[j].masterInUse
      ensures exists c :: Holds(t.dc, t.batches, c, j)
    {
      assert s.dc[j].masterInUse;
      var c :| Holds(s.dc, s.batches, c, j);
      assert Holds(t.dc, t.batches, c, j);
    }
  }

  lemma AbandonExcl(s: State, i: nat)
    requires ExclInv(s) && i < |s.dc| && s.touched == {} && !s.dc[i].masterInUse
    ensures ExclInv(AbandonRow(s, i)) && Undisturbed(AbandonRow(s, i))
  {
    AbandonKeeps(s, i);
    QueuedHere(s, i);
    WipeOwners(s, i, AbandonRow(s, i));
    RolesCarry(s, AbandonRow(s, i));
  }

  /** A device with no batch in flight has its flag clear. */
  lemma CalmRow(s: State, i: nat)
    requires ExclInv(s) && i < |s.dc|
    requires forall b :: b in s.batches && s.batches[b].dev == s.dc[i].dev ==> s.batches[b].phase.Leaving?
    ensures !s.dc[i].masterInUse
  {
  }

  lemma ResetExcl(s: State, t: State)
    requires ExclInv(s) && t == s.(touched := {})
    ensures ExclInv(t) && |t.dc| == |s.dc| && Undisturbed(t)
  {
    Alike(s, t);
  }

  lemma StepExcl(s: State, e: Event)
    requires ExclInv(s) && Enabled(s, e) && Calm(s, e)
    ensures ExclInv(Step(s, e)) && Undisturbed(Step(s, e))
  {
    var s0 := s.(touched := {});
    ResetExcl(s, s0);
    hide ExclInv, Undisturbed, Begin, MakeScratch, Finish, Leave, Drop, AbandonRow;
    if e.BatchFinish? {
      FinishExcl(s0, e.b, e.made, e.harvest, e.save);
    } else if e.DeviceDestroy? || e.DeviceCreate? {
      var i := Lookup(s.dc, e.dev);
      if i < |s.dc| {
        CalmRow(s0, i);
        if e.DeviceDestroy? {
          DropExcl(s0, i, e.save);
        } else {
          AbandonExcl(s0, i);
        }
      }
    } else if e.AppMerge? || e.AppSerialise? || e.AppDestroy? || e.AppCreate? {
      AppStepExcl(s, e, s0);
    } else {
      match e
      case BatchBegin(b, dev, app, ok, primed) => BeginExcl(s0, b, dev, app, ok, primed);
      case BatchScratch(b, ok) => MakeScratchExcl(s0, b, ok);
      case BatchLeave(b) => LeaveExcl(s0, b);
    }
  }

  lemma FinishExcl(s: State, b: BatchId, made: set<Pipeline>, harvest: bool, save: bool)
    requires ExclInv(s) && b in s.batches && s.batches[b].phase.Compiling? && s.touched == {}
    ensures ExclInv(Finish(s, b, made, harvest, save)) && Undisturbed(Finish(s, b, made, harvest, save))
  {
    hide FinishOwner, FinishApp, FinishScratch;
    var bt := s.batches[b];
    if bt.ownMaster {
      FinishOwnerExcl(s, b, made, save);
    } else if bt.app != NULL {
      FinishAppExcl(s, b, made, harvest, save);
    } else if bt.scratch != NULL {
      FinishScratchExcl(s, b, made, save);
    } else {
      var t := s.(batches := s.batches - {b});
      Alike(s, t);
      OwnersCarry(s.dc, s.batches, t.dc, t.batches);
    }
  }

  lemma AppStepExcl(s: State, e: Event, s0: State)
    requires ExclInv(s0) && Enabled(s, e) && s0 == s.(touched := {})
    requires e.AppMerge? || e.AppSerialise? || e.AppDestroy? || e.AppCreate?
    ensures ExclInv(Step(s, e)) && Undisturbed(Step(s, e))
  {
    hide ExclInv, Undisturbed, Prime, Forget;
    match e
    case AppCreate(dev, primeOn, ok, primed, initial) =>
      NewAppExcl(s0, initial);
      if primeOn {
        PrimeExcl(NewApp(s0, initial), s.next, dev, ok, primed);
      }
    case AppMerge(dst, srcs) =>
      MergeExcl(s0, dst, srcs);
      TouchedIdle(Merge(s0, dst, srcs));
    case AppSerialise(h) => AppTouchExcl(s0, h, s.(touched := {h}));
    case AppDestroy(h) => AppTouchExcl(s0, h, s.(app := Forget(s.app, h), store := s.store - {h}, touched := {h}));
  }

  lemma AppTouchExcl(s: State, h: Handle, t: State)
    requires ExclInv(s) && AppHolds(s, h) && (t.store == s.store || t.store == s.store - {h}) && t.touched == {h}
    requires t.dc == s.dc && t.batches == s.batches && t.role == s.role && t.destroyed == s.destroyed && t.next == s.next
    ensures ExclInv(t) && Undisturbed(t)
  {
    Carry(s, t);
    RolesCarry(s, t);
    TouchedIdle(t);
  }

  lemma {:induction false} RunExcl(tr: seq<State>, es: seq<Event>, k: nat)
    requires IsRun(tr, es) && k < |tr| && forall j :: 0 <= j < |es| ==> Calm(tr[j], es[j])
    ensures ExclInv(tr[k]) && Undisturbed(tr[k])
  {
    if k > 0 {
      RunExcl(tr, es, k - 1);
      assert Next(tr[k - 1], es[k - 1], tr[k]);
      StepExcl(tr[k - 1], es[k - 1]);
    }
  }

  /**
    In every run in which no device goes away under a compiling batch: no two batches compile with
    the same master, and no step merges, serialises or destroys a master, or a batch's scratch
    cache, while a batch is compiling with it.
   */
  lemma MasterIsExclusive(tr: seq<State>, es: seq<Event>, k: nat)
    requires IsRun(tr, es) && k < |tr| && forall j :: 0 <= j < |es| ==> Calm(tr[j], es[j])
    ensures forall b, c, h :: Uses(tr[k], b, h) && Uses(tr[k], c, h) && !IsAppCache(tr[k], h) ==> b == c
    ensures forall b, h :: Uses(tr[k], b, h) && h in tr[k].touched ==> IsAppCache(tr[k], h)
  {
    RunExcl(tr, es, k);
    var s := tr[k];
    forall b, c, h | Uses(s, b, h) && Uses(s, c, h) && !IsAppCache(s, h)
      ensures b == c
    {
      UsesWhat(s, b, h);
      UsesWhat(s, c, h);
      if s.role[h].Master? {
        var i: nat :| Holds(s.dc, s.batches, b, i) && s.dc[i].pc == h;
        var j: nat :| Holds(s.dc, s.batches, c, j) && s.dc[j].pc == h;
      }
    }
  }
}
