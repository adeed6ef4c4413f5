/**
  App-supplied caches are harvested, that is read by a merge, only when no batch is compiling into
  them. The 16-entry table counts the tracked batches of each cache exactly; what it cannot see is
  a batch it refused to track, and that is the one way a harvest can meet a compile.
 */
module AppCaches {
  import opened PipelineCache
  import opened ScratchConservation
  import opened MasterExclusion

  /** The in-flight batches on app cache h that the table counts. */
  ghost function TrackedOn(bs: map<BatchId, Batch>, h: Handle): set<BatchId> {
    set b | b in bs && bs[b].tracked && bs[b].app == h
  }

  /** Entries are distinct, and each counts the tracked batches on its cache. */
  ghost predicate CountsExact(t: seq<AppEntry>, bs: map<BatchId, Batch>) {
    && |t| == APP_CACHE_MAX
    && (forall i, j :: 0 <= i < j < |t| && t[i].pc != NULL ==> t[i].pc != t[j].pc)
    && (forall i :: 0 <= i < |t| && t[i].pc != NULL ==> t[i].n == |TrackedOn(bs, t[i].pc)| && t[i].n > 0)
    && (forall b :: b in bs && bs[b].tracked ==> bs[b].app != NULL && HasEntry(t, bs[b].app))
  }

  ghost predicate HasEntry(t: seq<AppEntry>, pc: Handle) {
    exists i :: 0 <= i < |t| && t[i].pc == pc
  }

  /** An entry for the batch's cache gains one use. */
  lemma JoinEntry(t: seq<AppEntry>, bs: map<BatchId, Batch>, b: BatchId, bt: Batch, i: nat, t': seq<AppEntry>)
    requires CountsExact(t, bs) && b !in bs && bt.app != NULL && bt.tracked && i < |t|
    requires t[i].pc == bt.app || (t[i].pc == NULL && !HasEntry(t, bt.app))
    requires t' == t[i := AppEntry(bt.app, if t[i].pc == bt.app then t[i].n + 1 else 1)]
    ensures CountsExact(t', bs[b := bt])
  {
    var bs' := bs[b := bt];
    assert TrackedOn(bs', bt.app) == TrackedOn(bs, bt.app) + {b};
    assert forall h :: h != bt.app ==> TrackedOn(bs', h) == TrackedOn(bs, h);
    if t[i].pc == NULL {
      NoneTracked(t, bs, bt.app);
    }
    forall c | c in bs' && bs'[c].tracked
      ensures bs'[c].app != NULL && HasEntry(t', bs'[c].app)
    {
      if c != b {
        var j :| 0 <= j < |t| && t[j].pc == bs[c].app;
        assert t'[j].pc == bs[c].app;
      } else {
        assert t'[i].pc == bt.app;
      }
    }
  }

  lemma RefCounts(t: seq<AppEntry>, bs: map<BatchId, Batch>, b: BatchId, bt: Batch)
    requires CountsExact(t, bs) && b !in bs && bt.app != NULL && bt.tracked == Ref(t, bt.app).1
    ensures CountsExact(Ref(t, bt.app).0, bs[b := bt])
  {
    var i, j := LookupApp(t, bt.app), LookupApp(t, NULL);
    hide CountsExact;
    if i < |t| {
      JoinEntry(t, bs, b, bt, i, Ref(t, bt.app).0);
    } else if j < |t| {
      JoinEntry(t, bs, b, bt, j, Ref(t, bt.app).0);
    } else {
      SameCounts(t, bs, bs[b := bt]);
    }
  }

  lemma NoneTracked(t: seq<AppEntry>, bs: map<BatchId, Batch>, h: Handle)
    requires CountsExact(t, bs) && !HasEntry(t, h)
    ensures TrackedOn(bs, h) == {}
  {
    assert forall b :: b in bs && bs[b].tracked ==> bs[b].app != h;
  }

  lemma UnrefCounts(t: seq<AppEntry>, bs: map<BatchId, Batch>, b: BatchId)
    requires CountsExact(t, bs) && b in bs && bs[b].tracked
    ensures CountsExact(Unref(t, bs[b].app).0, bs - {b})
    ensures Unref(t, bs[b].app).1 <==> TrackedOn(bs, bs[b].app) == {b}
  {
    var h := bs[b].app;
    var t' := Unref(t, h).0;
    var i := LookupApp(t, h);
    var bs' := bs - {b};
    assert t[i].n == |TrackedOn(bs, h)|;
    forall x
      ensures TrackedOn(bs', x) == if x == h then TrackedOn(bs, x) - {b} else TrackedOn(bs, x)
    {
    }
    assert b in TrackedOn(bs, h) && |TrackedOn(bs', h)| == |TrackedOn(bs, h)| - 1;
    if t[i].n <= 1 {
      assert |TrackedOn(bs', h)| == 0;
    }
    forall c | c in bs' && bs'[c].tracked
      ensures HasEntry(t', bs'[c].app)
    {
      var j :| 0 <= j < |t| && t[j].pc == bs[c].app;
      if j == i {
        assert c in TrackedOn(bs', h);
      }
      assert t'[j].pc == bs[c].app;
    }
  }

  /** Steps that leave the table alone and touch no tracked batch. */
  lemma SameCounts(t: seq<AppEntry>, bs: map<BatchId, Batch>, bs': map<BatchId, Batch>)
    requires CountsExact(t, bs)
    requires forall b :: (b in bs && bs[b].tracked) || (b in bs' && bs'[b].tracked) ==>
               b in bs && b in bs' && bs'[b].tracked && bs[b].tracked && bs'[b].app == bs[b].app
    ensures CountsExact(t, bs')
  {
    forall h
      ensures TrackedOn(bs', h) == TrackedOn(bs, h)
    {
    }
  }

  lemma BeginCounts(s: State, b: BatchId, dev: Device, app: Handle, ok: bool, primed: set<Pipeline>)
    requires CountsExact(s.app, s.batches) && b !in s.batches && Shape(s) && dev != NULL
    ensures CountsExact(Begin(s, b, dev, app, ok, primed).app, Begin(s, b, dev, app, ok, primed).batches)
  {
    var s1 := Ensure(s, dev, ok, primed);
    hide Ensure, Ref, CountsExact;
    EnsureFrame(s, dev, ok, primed, s1);
    hide Shape;
    var t := Begin(s, b, dev, app, ok, primed);
    var bt := t.batches[b];
    assert t.batches == s.batches[b := bt];
    if app == NULL {
      SameCounts(s.app, s.batches, t.batches);
    } else {
      RefCounts(s.app, s.batches, b, bt);
    }
  }

  lemma FinishCounts(s: State, b: BatchId, made: set<Pipeline>, harvest: bool, save: bool, t: State)
    requires CountsExact(s.app, s.batches) && ScratchInv(s) && b in s.batches && t == Finish(s, b, made, harvest, save)
    ensures CountsExact(t.app, t.batches)
  {
    ShapeOf(s, b);
    FinishTables(s, b, made, harvest, save, t);
    hide Finish, ScratchInv;
    if s.batches[b].tracked {
      UnrefCounts(s.app, s.batches, b);
    } else {
      SameCounts(s.app, s.batches, t.batches);
    }
  }

  lemma FinishTables(s: State, b: BatchId, made: set<Pipeline>, harvest: bool, save: bool, t: State)
    requires b in s.batches && t == Finish(s, b, made, harvest, save) && BatchShape(s.batches[b])
    requires s.batches[b].tracked ==> s.batches[b].app != NULL
    ensures t.batches == s.batches - {b} || (!s.batches[b].tracked && t.batches == s.batches[b := s.batches[b].(phase := Leaving)])
    ensures t.app == if s.batches[b].tracked then Unref(s.app, s.batches[b].app).0 else s.app
  {
    hide Unref, FinishOwner, FinishApp, FinishScratch;
    if s.batches[b].ownMaster {
      OwnerTables(s, b, made, save);
    } else if s.batches[b].app != NULL {
      AppTables(s, b, made, harvest, save);
    } else {
      ScratchTables(s, b, made, save);
    }
  }

  lemma OwnerTables(s: State, b: BatchId, made: set<Pipeline>, save: bool)
    requires b in s.batches
    ensures FinishOwner(s, b, made, save).app == s.app && FinishOwner(s, b, made, save).batches == s.batches - {b}
  {
    hide Drain, Save;
    var i := Lookup(s.dc, s.batches[b].dev);
    if i < |s.dc| {
      var s1 := Compiled(s, b, made).(batches := s.batches - {b});
      DrainTables(Earn(s1.(dc := s1.dc[i := s1.dc[i].(masterInUse := false)]), i, made), i, save);
    }
  }

  lemma AppTables(s: State, b: BatchId, made: set<Pipeline>, harvest: bool, save: bool)
    requires b in s.batches
    ensures FinishApp(s, b, made, harvest, save).app == if s.batches[b].tracked then Unref(s.app, s.batches[b].app).0 else s.app
    ensures FinishApp(s, b, made, harvest, save).batches == s.batches - {b}
  {
    hide Drain, Save, Unref;
    var bt := s.batches[b];
    var i := Lookup(s.dc, bt.dev);
    if i < |s.dc| {
      var s1 := Compiled(s, b, made).(batches := s.batches - {b}, app := if bt.tracked then Unref(s.app, bt.app).0 else s.app);
      DrainTables(Merge(s1, s.dc[i].pc, [bt.app]), i, save);
    }
  }

  lemma ScratchTables(s: State, b: BatchId, made: set<Pipeline>, save: bool)
    requires b in s.batches
    ensures var t := FinishScratch(s, b, made, save);
            t.app == s.app && (t.batches == s.batches - {b} || t.batches == s.batches[b := s.batches[b].(phase := Leaving)])
  {
    hide Drain, Save;
    var bt := s.batches[b];
    var i := Lookup(s.dc, bt.dev);
    if i < |s.dc| {
      var leave := Compiled(s, b, made).(batches := s.batches[b := bt.(phase := Leaving)]);
      DrainTables(Merge(Earn(leave, i, made), s.dc[i].pc, [bt.scratch]), i, save);
    }
  }

  lemma DrainTables(s: State, i: nat, save: bool)
    requires i < |s.dc|
    ensures |Drain(s, i).dc| == |s.dc|
    ensures Save(Drain(s, i), i, save).app == s.app && Save(Drain(s, i), i, save).batches == s.batches
  {
    DrainFrame(s, i, Drain(s, i));
  }

  lemma StepCounts(s: State, e: Event)
    requires ExclInv(s) && CountsExact(s.app, s.batches) && Enabled(s, e) && Polite(s, e)
    ensures CountsExact(Step(s, e).app, Step(s, e).batches)
  {
    var s0 := s.(touched := {});
    ResetExcl(s, s0);
    if e.BatchBegin? {
      hide Begin;
      BeginCounts(s0, e.b, e.dev, e.app, e.createOk, e.primed);
    } else if e.BatchFinish? {
      hide Finish;
      FinishCounts(s0, e.b, e.made, e.harvest, e.save, Finish(s0, e.b, e.made, e.harvest, e.save));
    } else {
      OtherCounts(s, e, s0);
    }
  }

  lemma OtherCounts(s: State, e: Event, s0: State)
    requires ExclInv(s0) && CountsExact(s.app, s.batches) && s0 == s.(touched := {})
    requires Enabled(s, e) && Polite(s, e) && !e.BatchBegin? && !e.BatchFinish?
    ensures CountsExact(Step(s, e).app, Step(s, e).batches)
  {
    hide ExclInv, Drop;
    match e
    case BatchScratch(b, ok) => SameCounts(s.app, s.batches, MakeScratch(s0, b, ok).batches);
    case BatchLeave(b) =>
      NotTracked(s0, b);
      SameCounts(s.app, s.batches, s.batches - {b});
    case AppCreate(dev, primeOn, ok, primed, initial) => PrimeTables(NewApp(s0, initial), s.next, dev, ok, primed);
    case AppDestroy(h) =>
      NotNull(s0, h);
      UnusedEntry(s0, h);
    case DeviceDestroy(dev, save) =>
      if Lookup(s.dc, dev) < |s.dc| {
        DropTables(s0, Lookup(s.dc, dev), save);
      }
    case _ =>
  }

  lemma NotNull(s: State, h: Handle)
    requires ExclInv(s) && AppHolds(s, h)
    ensures h != NULL
  {
  }

  lemma NotTracked(s: State, b: BatchId)
    requires ExclInv(s) && CountsExact(s.app, s.batches) && b in s.batches && s.batches[b].phase.Leaving?
    ensures !s.batches[b].tracked
  {
    ShapeOf(s, b);
    hide ExclInv;
  }

  lemma PrimeTables(s: State, h: Handle, dev: Device, ok: bool, primed: set<Pipeline>)
    ensures Prime(s, h, dev, ok, primed).app == s.app && Prime(s, h, dev, ok, primed).batches == s.batches
  {
  }

  lemma DropTables(s: State, i: nat, save: bool)
    requires i < |s.dc|
    ensures Drop(s, i, save).app == s.app && Drop(s, i, save).batches == s.batches
  {
    DrainTables(s, i, save);
    hide Drain;
  }

  /** A cache no batch is using has no entry, so forgetting it changes nothing. */
  lemma UnusedEntry(s: State, h: Handle)
    requires ExclInv(s) && CountsExact(s.app, s.batches) && !AppBusy(s, h) && h != NULL
    ensures LookupApp(s.app, h) == |s.app|
  {
    if TrackedOn(s.batches, h) != {} {
      BusyIfTracked(s, h);
    }
  }

  lemma BusyIfTracked(s: State, h: Handle)
    requires ExclInv(s) && CountsExact(s.app, s.batches) && TrackedOn(s.batches, h) != {}
    ensures AppBusy(s, h)
  {
    var c :| c in TrackedOn(s.batches, h);
    ShapeOf(s, c);
  }

  lemma {:induction false} RunCounts(tr: seq<State>, es: seq<Event>, k: nat)
    requires IsRun(tr, es) && k < |tr|
    requires forall j :: 0 <= j < |es| ==> Calm(tr[j], es[j]) && Polite(tr[j], es[j])
    ensures ExclInv(tr[k]) && CountsExact(tr[k].app, tr[k].batches)
  {
    RunExcl(tr, es, k);
    if k > 0 {
      RunCounts(tr, es, k - 1);
      assert Next(tr[k - 1], es[k - 1], tr[k]);
      StepCounts(tr[k - 1], es[k - 1]);
    }
  }

  // ---- the theorems ----------------------------------------------------------

  /**
    In every run in which the app leaves its caches alone while they are in use, and in which every
    app batch now in flight is tracked: entries are distinct, each count is the number of in-flight
    batches on that cache, and the last step touched no cache, of any kind, that a batch is using.
   */
  lemma HarvestReadsQuietCaches(tr: seq<State>, es: seq<Event>, k: nat)
    requires IsRun(tr, es) && k < |tr|
    requires forall j :: 0 <= j < |es| ==> Calm(tr[j], es[j]) && Polite(tr[j], es[j])
    requires forall b :: b in tr[k].batches && tr[k].batches[b].app != NULL ==> tr[k].batches[b].tracked
    ensures forall i, j :: 0 <= i < j < |tr[k].app| && tr[k].app[i].pc != NULL ==> tr[k].app[i].pc != tr[k].app[j].pc
    ensures forall i :: 0 <= i < |tr[k].app| && tr[k].app[i].pc != NULL ==>
              tr[k].app[i].n == |set b | b in tr[k].batches && tr[k].batches[b].app == tr[k].app[i].pc|
    ensures forall b, h :: Uses(tr[k], b, h) ==> h !in tr[k].touched
  {
    RunCounts(tr, es, k);
    var s := tr[k];
    forall i | 0 <= i < |s.app| && s.app[i].pc != NULL
      ensures s.app[i].n == |set b | b in s.batches && s.batches[b].app == s.app[i].pc|
    {
      assert TrackedOn(s.batches, s.app[i].pc) == set b | b in s.batches && s.batches[b].app == s.app[i].pc;
    }
    if k > 0 {
      assert Next(tr[k - 1], es[k - 1], tr[k]);
      RunCounts(tr, es, k - 1);
      StepQuiet(tr[k - 1], es[k - 1]);
    }
  }

  /** A step disturbs a batch only if the table refused to track that batch. */
  lemma StepQuiet(s: State, e: Event)
    requires ExclInv(s) && CountsExact(s.app, s.batches) && Enabled(s, e) && Calm(s, e) && Polite(s, e)
    ensures forall b, h :: Uses(Step(s, e), b, h) && h in Step(s, e).touched ==>
              Step(s, e).batches[b].app == h && !Step(s, e).batches[b].tracked
  {
    var t := Step(s, e);
    StepExcl(s, e);
    ResetExcl(s, s.(touched := {}));
    FinishOnly(s, e, t);
    hide ExclInv, Step, CountsExact;
    forall b, h | Uses(t, b, h) && h in t.touched
      ensures t.batches[b].app == h && !t.batches[b].tracked
    {
      UsesApp(t, b, h);
      if e.BatchFinish? {
        HarvestLast(s.(touched := {}), e.b, e.made, e.harvest, e.save, t, h, b);
      } else {
        OtherTouch(s, e, t, h, b);
      }
    }
  }

  lemma FinishOnly(s: State, e: Event, t: State)
    requires Enabled(s, e) && t == Step(s, e)
    ensures e.BatchFinish? ==> t == Finish(s.(touched := {}), e.b, e.made, e.harvest, e.save)
  {
    hide Finish;
  }

  lemma UsesApp(s: State, b: BatchId, h: Handle)
    requires ExclInv(s) && Uses(s, b, h) && IsAppCache(s, h)
    ensures s.batches[b].app == h
  {
    UsesWhat(s, b, h);
    ShapeOf(s, b);
  }

  lemma DrainTouches(s: State, i: nat, save: bool, h: Handle)
    requires i < |s.dc|
    ensures |Drain(s, i).dc| == |s.dc|
    ensures h in Save(Drain(s, i), i, save).touched ==> h in s.touched || h == s.dc[i].pc || h in s.dc[i].pending
  {
    DrainFrame(s, i, Drain(s, i));
    hide Drain;
  }

  /** When a finishing batch reads an app cache, it is its own, and it was the last tracked user. */
  lemma HarvestLast(s: State, b: BatchId, made: set<Pipeline>, harvest: bool, save: bool, t: State, h: Handle, c: BatchId)
    requires ExclInv(s) && CountsExact(s.app, s.batches) && b in s.batches && s.batches[b].phase.Compiling? && s.touched == {}
    requires t == Finish(s, b, made, harvest, save) && h in t.touched && h != NULL
    requires c in t.batches && t.batches[c].app == h
    ensures !t.batches[c].tracked
  {
    ShapeOf(s, b);
    FinishTables(s, b, made, harvest, save, t);
    assert c in s.batches && s.batches[c].app == h;
    FinishTouches(s, b, made, harvest, save, t, h);
    if s.batches[b].tracked {
      UnrefCounts(s.app, s.batches, b);
      hide ExclInv, Finish;
      assert c in s.batches && c != b && (t.batches[c].tracked ==> c in TrackedOn(s.batches, h));
    }
  }

  lemma FinishTouches(s: State, b: BatchId, made: set<Pipeline>, harvest: bool, save: bool, t: State, h: Handle)
    requires ExclInv(s) && b in s.batches && BatchShape(s.batches[b]) && s.touched == {} && h != NULL
    requires t == Finish(s, b, made, harvest, save) && h in t.touched
    requires h in s.role && s.role[h].AppMade?
    ensures h == s.batches[b].app && s.batches[b].tracked && Unref(s.app, h).1 && harvest && IdleMaster(s, s.batches[b].dev)
  {
    var bt := s.batches[b];
    var i := Lookup(s.dc, bt.dev);
    if i < |s.dc| {
      QueuedHere(s, i);
    }
    ShapeOf(s, b);
    assert i < |s.dc| ==> h != s.dc[i].pc && h !in s.dc[i].pending;
    assert h != bt.scratch;
    hide ExclInv, FinishOwner, FinishApp, FinishScratch, Unref;
    if bt.ownMaster {
      OwnerTouches(s, b, made, save, h);
    } else if bt.app != NULL {
      AppTouches(s, b, made, harvest, save, h);
    } else {
      ScratchTouches(s, b, made, save, h);
    }
  }

  /** The device has a row whose master exists and is in no batch's hands. */
  predicate IdleMaster(s: State, dev: Device) {
    var i := Lookup(s.dc, dev);
    i < |s.dc| && !s.dc[i].masterInUse && s.dc[i].pc != NULL
  }

  lemma OwnerTouches(s: State, b: BatchId, made: set<Pipeline>, save: bool, h: Handle)
    requires b in s.batches && s.touched == {} && h in FinishOwner(s, b, made, save).touched
    ensures var i := Lookup(s.dc, s.batches[b].dev); i < |s.dc| && (h == s.dc[i].pc || h in s.dc[i].pending)
  {
    hide Drain, Save;
    var i := Lookup(s.dc, s.batches[b].dev);
    var s1 := Compiled(s, b, made).(batches := s.batches - {b});
    if i < |s.dc| {
      DrainTouches(Earn(s1.(dc := s1.dc[i := s1.dc[i].(masterInUse := false)]), i, made), i, save, h);
    }
  }

  lemma AppTouches(s: State, b: BatchId, made: set<Pipeline>, harvest: bool, save: bool, h: Handle)
    requires b in s.batches && s.touched == {} && h in FinishApp(s, b, made, harvest, save).touched
    ensures var i := Lookup(s.dc, s.batches[b].dev);
            && i < |s.dc|
            && (h == s.dc[i].pc || h in s.dc[i].pending
                || (h == s.batches[b].app && s.batches[b].tracked && Unref(s.app, h).1 && harvest && IdleMaster(s, s.batches[b].dev)))
  {
    hide Drain, Save, Unref;
    var bt := s.batches[b];
    var i := Lookup(s.dc, bt.dev);
    var s1 := Compiled(s, b, made).(batches := s.batches - {b}, app := if bt.tracked then Unref(s.app, bt.app).0 else s.app);
    if i < |s.dc| {
      DrainTouches(Merge(s1, s.dc[i].pc, [bt.app]), i, save, h);
    }
  }

  lemma ScratchTouches(s: State, b: BatchId, made: set<Pipeline>, save: bool, h: Handle)
    requires b in s.batches && s.touched == {} && h in FinishScratch(s, b, made, save).touched
    ensures var i := Lookup(s.dc, s.batches[b].dev);
            && i < |s.dc|
            && (h == s.dc[i].pc || h in s.dc[i].pending || h == s.batches[b].scratch)
  {
    hide Drain, Save;
    var bt := s.batches[b];
    var i := Lookup(s.dc, bt.dev);
    var leave := Compiled(s, b, made).(batches := s.batches[b := bt.(phase := Leaving)]);
    if i < |s.dc| {
      DrainTouches(Merge(Earn(leave, i, made), s.dc[i].pc, [bt.scratch]), i, save, h);
    }
  }

  /** Outside BatchFinish no step touches an app cache that a batch is using. */
  lemma OtherTouch(s: State, e: Event, t: State, h: Handle, b: BatchId)
    requires ExclInv(s) && Enabled(s, e) && Calm(s, e) && Polite(s, e) && !e.BatchFinish? && t == Step(s, e)
    requires Uses(t, b, h) && t.batches[b].app == h
    ensures h !in t.touched
  {
    var s0 := s.(touched := {});
    ResetExcl(s, s0);
    hide ExclInv;
    if e.BatchBegin? {
      hide Begin;
      BeginExcl(s0, e.b, e.dev, e.app, e.createOk, e.primed);
    } else if e.BatchScratch? {
      hide MakeScratch;
      MakeScratchExcl(s0, e.b, e.createOk);
    } else if e.DeviceDestroy? || e.DeviceCreate? {
      DeviceTouch(s, e, s0, h, b);
    } else if e.AppCreate? {
      CreateTouch(s, e, s0, h, b);
    } else if e.BatchLeave? {
      ScratchRole(s, e.b);
      AppRole(s, b);
    } else {
      assert b in s.batches && AppBusy(s, h);
    }
  }

  lemma DeviceTouch(s: State, e: Event, s0: State, h: Handle, b: BatchId)
    requires ExclInv(s0) && s0 == s.(touched := {}) && (e.DeviceDestroy? || e.DeviceCreate?)
    requires Uses(Step(s, e), b, h) && Step(s, e).batches[b].app == h
    ensures h !in Step(s, e).touched
  {
    hide ExclInv, Drop;
    var i := Lookup(s.dc, e.dev);
    if e.DeviceDestroy? && i < |s.dc| {
      DropTables(s0, i, e.save);
      AppRole(s0, b);
      RowRoles(s0, i);
      DropTouches(s0, i, e.save, h);
    }
  }

  lemma CreateTouch(s: State, e: Event, s0: State, h: Handle, b: BatchId)
    requires ExclInv(s0) && s0 == s.(touched := {}) && e.AppCreate? && e.dev != NULL
    requires Uses(Step(s, e), b, h) && Step(s, e).batches[b].app == h
    ensures h !in Step(s, e).touched
  {
    hide ExclInv, Prime;
    NewAppExcl(s0, e.initial);
    if e.primeOn {
      PrimeTouches(NewApp(s0, e.initial), s.next, e.dev, e.createOk, e.primed, h);
    }
    AppRole(s0, b);
  }

  lemma AppRole(s: State, b: BatchId)
    requires ExclInv(s) && b in s.batches && s.batches[b].app != NULL
    ensures s.batches[b].app in s.role && s.role[s.batches[b].app].AppMade? && s.next !in s.role
  {
  }

  lemma ScratchRole(s: State, b: BatchId)
    requires ExclInv(s) && b in s.batches && s.batches[b].phase.Leaving?
    ensures s.batches[b].scratch in s.role && s.role[s.batches[b].scratch].Scratch?
  {
    ShapeOf(s, b);
  }

  lemma RowRoles(s: State, i: nat)
    requires ExclInv(s) && i < |s.dc|
    ensures forall h :: h == s.dc[i].pc != NULL || h in s.dc[i].pending ==> h in s.role && !s.role[h].AppMade?
  {
    QueuedHere(s, i);
  }

  lemma DropTouches(s: State, i: nat, save: bool, h: Handle)
    requires i < |s.dc| && s.touched == {}
    ensures h in Drop(s, i, save).touched ==> h == s.dc[i].pc || h in s.dc[i].pending
  {
    DrainTouches(s, i, save, h);
    hide Drain;
  }

  lemma PrimeTouches(s: State, h: Handle, dev: Device, ok: bool, primed: set<Pipeline>, x: Handle)
    requires ExclInv(s) && s.touched == {} && dev != NULL
    ensures x in Prime(s, h, dev, ok, primed).touched && x != h ==> x !in s.role || s.role[x].Master?
    ensures Prime(s, h, dev, ok, primed).batches == s.batches
  {
    var t := Ensure(s, dev, ok, primed);
    hide Ensure;
    EnsureExcl(s, dev, ok, primed, t);
    EnsureFrame(s, dev, ok, primed, t);
    hide HoldersAgree, PlaceHolds, OwnersOk, RowsDistinct, RolesOk, Held;
  }

  // ---- when the table is full ------------------------------------------------

  /** A cache is refused exactly when it has no entry and no entry is free. */
  lemma RefusedIff(t: seq<AppEntry>, pc: Handle)
    requires pc != NULL
    ensures !Ref(t, pc).1 <==> forall i :: 0 <= i < |t| ==> t[i].pc != pc && t[i].pc != NULL
    ensures !Ref(t, pc).1 ==> Ref(t, pc).0 == t
  {
  }

  /** The step reads an app cache: the last tracked user finishes, harvesting is on and the master is idle. */
  ghost predicate Harvests(s: State, e: Event) {
    && e.BatchFinish? && e.b in s.batches && s.batches[e.b].tracked && e.harvest
    && TrackedOn(s.batches, s.batches[e.b].app) == {e.b} && IdleMaster(s, s.batches[e.b].dev)
  }

  /** Another batch is on that cache, and the table refused it. */
  ghost predicate RefusedBeside(s: State, b: BatchId) {
    exists c :: c in s.batches && b in s.batches && c != b && s.batches[c].app == s.batches[b].app && !s.batches[c].tracked
  }

  ghost predicate Disturbs(t: State) { exists c, h :: Uses(t, c, h) && h in t.touched }

  /**
    In every run in which the app leaves its caches alone while they are in use: a step touches a cache
    that some batch is using if and only if it is a harvest and the table refused another batch on the
    cache harvested.
   */
  lemma HarvestMeetsCompileIff(tr: seq<State>, es: seq<Event>, k: nat)
    requires IsRun(tr, es) && k < |es|
    requires forall j :: 0 <= j < |es| ==> Calm(tr[j], es[j]) && Polite(tr[j], es[j])
    ensures Disturbs(tr[k + 1]) <==> Harvests(tr[k], es[k]) && RefusedBeside(tr[k], es[k].b)
  {
    RunCounts(tr, es, k);
    assert Next(tr[k], es[k], tr[k + 1]);
    hide ExclInv, CountsExact, Disturbs, Harvests, RefusedBeside, Next;
    DisturbsIff(tr[k], es[k], tr[k + 1]);
  }

  lemma DisturbsIff(s: State, e: Event, t: State)
    requires ExclInv(s) && CountsExact(s.app, s.batches) && Next(s, e, t) && Calm(s, e) && Polite(s, e)
    ensures Disturbs(t) <==> Harvests(s, e) && RefusedBeside(s, e.b)
  {
    FinishOnly(s, e, t);
    ResetExcl(s, s.(touched := {}));
    StepExcl(s, e);
    hide ExclInv, CountsExact, Step;
    if c, h :| Uses(t, c, h) && h in t.touched {
      DisturbedBy(s, e, t, c, h);
    }
    if Harvests(s, e) && RefusedBeside(s, e.b) {
      HarvestMeets(s.(touched := {}), e.b, e.made, e.save);
    }
  }

  lemma DisturbedBy(s: State, e: Event, t: State, c: BatchId, h: Handle)
    requires ExclInv(s) && CountsExact(s.app, s.batches) && Enabled(s, e) && t == Step(s, e) && Calm(s, e) && Polite(s, e)
    requires ExclInv(t) && Undisturbed(t) && Uses(t, c, h) && h in t.touched
    ensures Harvests(s, e) && RefusedBeside(s, e.b)
  {
    UsesApp(t, c, h);
    if !e.BatchFinish? {
      OtherTouch(s, e, t, h, c);
    } else {
      var s0 := s.(touched := {});
      FinishOnly(s, e, t);
      ResetExcl(s, s0);
      hide Step, ExclInv;
      HarvestLast(s0, e.b, e.made, e.harvest, e.save, t, h, c);
      StillThere(s0, e.b, e.made, e.harvest, e.save, t, c);
      HarvestWhose(s0, e.b, e.made, e.harvest, e.save, t, h, c);
      UnrefCounts(s.app, s.batches, e.b);
      assert s.batches[c].app == h && c != e.b;
    }
  }

  /** A batch still in flight after another finishes was there before, with the same cache and tracking. */
  lemma StillThere(s: State, b: BatchId, made: set<Pipeline>, harvest: bool, save: bool, t: State, c: BatchId)
    requires ExclInv(s) && CountsExact(s.app, s.batches) && b in s.batches && t == Finish(s, b, made, harvest, save) && c in t.batches
    ensures c in s.batches && s.batches[c].app == t.batches[c].app && s.batches[c].tracked == t.batches[c].tracked
    ensures c == b ==> !s.batches[b].tracked
  {
    ShapeOf(s, b);
    hide ExclInv, Finish, Unref;
    FinishTables(s, b, made, harvest, save, t);
  }

  /** What a finishing batch touches of the app's is its own cache. */
  lemma HarvestWhose(s: State, b: BatchId, made: set<Pipeline>, harvest: bool, save: bool, t: State, h: Handle, c: BatchId)
    requires ExclInv(s) && b in s.batches && s.batches[b].phase.Compiling? && s.touched == {}
    requires t == Finish(s, b, made, harvest, save) && h in t.touched && h != NULL && c in s.batches && s.batches[c].app == h
    ensures h == s.batches[b].app && s.batches[b].tracked && Unref(s.app, h).1 && harvest && IdleMaster(s, s.batches[b].dev)
  {
    ShapeOf(s, b);
    hide ExclInv, Finish, Unref, IdleMaster, BatchShape;
    AppRole(s, c);
    FinishTouches(s, b, made, harvest, save, t, h);
  }

  /** A harvest beside a refused batch reads the cache that batch is compiling into. */
  lemma HarvestMeets(s: State, b: BatchId, made: set<Pipeline>, save: bool)
    requires ExclInv(s) && CountsExact(s.app, s.batches) && b in s.batches && s.batches[b].phase.Compiling?
    requires s.batches[b].tracked && TrackedOn(s.batches, s.batches[b].app) == {b} && IdleMaster(s, s.batches[b].dev)
    requires RefusedBeside(s, b)
    ensures Disturbs(Finish(s, b, made, true, save))
  {
    var t := Finish(s, b, made, true, save);
    ShapeOf(s, b);
    UnrefCounts(s.app, s.batches, b);
    HarvestTouches(s, b, made, save);
    FinishTables(s, b, made, true, save, t);
    hide Finish, CountsExact;
    var c :| c in s.batches && c != b && s.batches[c].app == s.batches[b].app && !s.batches[c].tracked;
    ShapeOf(s, c);
    assert Uses(t, c, s.batches[b].app);
  }

  lemma HarvestTouches(s: State, b: BatchId, made: set<Pipeline>, save: bool)
    requires b in s.batches && s.batches[b].tracked && !s.batches[b].ownMaster && s.batches[b].app != NULL && Unref(s.app, s.batches[b].app).1
    requires IdleMaster(s, s.batches[b].dev)
    ensures s.batches[b].app in Finish(s, b, made, true, save).touched
  {
    hide Unref;
  }
}
