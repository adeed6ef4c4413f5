/**
  What the caches hold, over every run: an app's new cache starts with what its device's master
  holds, a batch opens on the master whenever it can, a harvest brings the app's pipelines to the
  master and not the other way, a destroyed device frees all it had, and a recycled handle costs
  nothing. All of it is said of the driver's objects before and after one step.
 */
module CacheContents {
  import opened PipelineCache
  import opened ScratchConservation
  import opened MasterExclusion
  import opened AppCaches
  import Retention

  // ---- the tables, in every run ----------------------------------------------

  /** A device has one row at most, and no queue is longer than 8. */
  ghost predicate RowsOk(dc: seq<DevCache>) {
    && |dc| == 4
    && (forall i, j :: 0 <= i < j < |dc| && dc[i].dev != NULL ==> dc[i].dev != dc[j].dev)
    && (forall i :: 0 <= i < |dc| ==> |dc[i].pending| <= 8)
  }

  /** A cache has one entry at most. */
  ghost predicate EntriesOk(t: seq<AppEntry>) {
    |t| == 16 && forall i, j :: 0 <= i < j < |t| && t[i].pc != NULL ==> t[i].pc != t[j].pc
  }

  /** Rows are wiped, or keep their device and master while their queue stays within bounds. */
  ghost predicate RowsCarried(dc: seq<DevCache>, dc': seq<DevCache>) {
    |dc'| == |dc| && forall i :: 0 <= i < |dc| ==>
      dc'[i] == EMPTY_SLOT
      || (dc'[i].dev == dc[i].dev && dc'[i].pc == dc[i].pc && (|dc'[i].pending| <= |dc[i].pending| || |dc'[i].pending| <= 8))
  }

  lemma CarriedOk(dc: seq<DevCache>, dc': seq<DevCache>)
    requires RowsOk(dc) && RowsCarried(dc, dc')
    ensures RowsOk(dc')
  {
  }

  lemma EnsureRowsOk(s: State, dev: Device, ok: bool, primed: set<Pipeline>, t: State)
    requires RowsOk(s.dc) && dev != NULL && t == Ensure(s, dev, ok, primed)
    ensures RowsOk(t.dc)
  {
    var (dc1, i) := Claim(s.dc, dev);
    assert RowsOk(dc1);
    assert t.dc == dc1 || (i < |dc1| && t.dc == dc1[i := dc1[i].(pc := s.next)]);
  }

  lemma BeginRowsOk(s: State, b: BatchId, dev: Device, app: Handle, ok: bool, primed: set<Pipeline>)
    requires RowsOk(s.dc) && dev != NULL
    ensures RowsOk(Begin(s, b, dev, app, ok, primed).dc)
  {
    var s1 := Ensure(s, dev, ok, primed);
    EnsureRowsOk(s, dev, ok, primed, s1);
    hide Ensure, Ref;
    CarriedOk(s1.dc, Begin(s, b, dev, app, ok, primed).dc);
  }

  lemma PrimeRowsOk(s: State, h: Handle, dev: Device, ok: bool, primed: set<Pipeline>)
    requires RowsOk(s.dc) && dev != NULL
    ensures RowsOk(Prime(s, h, dev, ok, primed).dc)
  {
    EnsureRowsOk(s, dev, ok, primed, Ensure(s, dev, ok, primed));
    hide Ensure;
  }

  /** Folding a row's queue in leaves the other rows, and this row's device and master. */
  lemma FoldRows(s: State, i: nat, save: bool)
    requires i < |s.dc|
    ensures |Drain(s, i).dc| == |s.dc|
    ensures Save(Drain(s, i), i, save).dc == s.dc[i := s.dc[i].(pending := [])]
  {
    DrainFrame(s, i, Drain(s, i));
  }

  lemma OwnerRows(s: State, b: BatchId, made: set<Pipeline>, save: bool)
    requires b in s.batches
    ensures RowsCarried(s.dc, FinishOwner(s, b, made, save).dc)
  {
    hide Drain, Save;
    var i := Lookup(s.dc, s.batches[b].dev);
    if i < |s.dc| {
      var s1 := Compiled(s, b, made).(batches := s.batches - {b});
      FoldRows(Earn(s1.(dc := s1.dc[i := s1.dc[i].(masterInUse := false)]), i, made), i, save);
    }
  }

  lemma AppRows(s: State, b: BatchId, made: set<Pipeline>, harvest: bool, save: bool)
    requires b in s.batches
    ensures RowsCarried(s.dc, FinishApp(s, b, made, harvest, save).dc)
  {
    hide Drain, Save, Unref;
    var bt := s.batches[b];
    var i := Lookup(s.dc, bt.dev);
    if i < |s.dc| {
      var s1 := Compiled(s, b, made).(batches := s.batches - {b}, app := if bt.tracked then Unref(s.app, bt.app).0 else s.app);
      FoldRows(Merge(s1, s.dc[i].pc, [bt.app]), i, save);
    }
  }

  lemma ScratchRows(s: State, b: BatchId, made: set<Pipeline>, save: bool)
    requires b in s.batches
    ensures RowsCarried(s.dc, FinishScratch(s, b, made, save).dc)
  {
    hide Drain, Save;
    var bt := s.batches[b];
    var i := Lookup(s.dc, bt.dev);
    if i < |s.dc| {
      var leave := Compiled(s, b, made).(batches := s.batches[b := bt.(phase := Leaving)]);
      FoldRows(Merge(Earn(leave, i, made), s.dc[i].pc, [bt.scratch]), i, save);
    }
  }

  lemma FinishRows(s: State, b: BatchId, made: set<Pipeline>, harvest: bool, save: bool)
    requires b in s.batches
    ensures RowsCarried(s.dc, Finish(s, b, made, harvest, save).dc)
  {
    hide FinishOwner, FinishApp, FinishScratch;
    OwnerRows(s, b, made, save);
    AppRows(s, b, made, harvest, save);
    ScratchRows(s, b, made, save);
  }

  lemma DropRows(s: State, i: nat, save: bool)
    requires i < |s.dc|
    ensures Drop(s, i, save).dc == s.dc[i := EMPTY_SLOT]
  {
    FoldRows(s, i, save);
    hide Drain, Save;
  }

  lemma StepRowsOk(s: State, e: Event)
    requires RowsOk(s.dc) && Enabled(s, e)
    ensures RowsOk(Step(s, e).dc)
  {
    var s0 := s.(touched := {});
    hide Begin, Finish, Prime, Drop, RowsOk;
    match e
    case BatchBegin(b, dev, app, ok, primed) => BeginRowsOk(s0, b, dev, app, ok, primed);
    case BatchFinish(b, made, harvest, save) =>
      FinishRows(s0, b, made, harvest, save);
      CarriedOk(s.dc, Finish(s0, b, made, harvest, save).dc);
    case AppCreate(dev, primeOn, ok, primed, initial) => PrimeRowsOk(NewApp(s0, initial), s.next, dev, ok, primed);
    case DeviceDestroy(dev, save) =>
      var i := Lookup(s.dc, dev);
      if i < |s.dc| {
        DropRows(s0, i, save);
        CarriedOk(s.dc, s.dc[i := EMPTY_SLOT]);
      }
    case DeviceCreate(dev) =>
      var i := Lookup(s.dc, dev);
      if i < |s.dc| {
        CarriedOk(s.dc, s.dc[i := EMPTY_SLOT]);
      }
    case _ =>
  }

  lemma TableOpsOk(t: seq<AppEntry>, pc: Handle)
    requires EntriesOk(t)
    ensures EntriesOk(Ref(t, pc).0) && EntriesOk(Unref(t, pc).0) && EntriesOk(Forget(t, pc))
  {
  }

  lemma BeginEntriesOk(s: State, b: BatchId, dev: Device, app: Handle, ok: bool, primed: set<Pipeline>)
    requires EntriesOk(s.app)
    ensures EntriesOk(Begin(s, b, dev, app, ok, primed).app)
  {
    EnsureObjects(s, dev, ok, primed, Ensure(s, dev, ok, primed));
    TableOpsOk(s.app, app);
    hide Ensure, Ref, EntriesOk;
  }

  lemma FinishEntriesOk(s: State, b: BatchId, made: set<Pipeline>, harvest: bool, save: bool)
    requires EntriesOk(s.app) && b in s.batches
    ensures EntriesOk(Finish(s, b, made, harvest, save).app)
  {
    hide FinishOwner, FinishApp, FinishScratch, Unref, EntriesOk;
    OwnerTables(s, b, made, save);
    AppTables(s, b, made, harvest, save);
    ScratchTables(s, b, made, save);
    TableOpsOk(s.app, s.batches[b].app);
  }

  lemma StepEntriesOk(s: State, e: Event)
    requires EntriesOk(s.app) && Enabled(s, e)
    ensures EntriesOk(Step(s, e).app)
  {
    var s0 := s.(touched := {});
    hide Begin, Finish, Prime, Drop, EntriesOk, Forget;
    match e
    case BatchBegin(b, dev, app, ok, primed) => BeginEntriesOk(s0, b, dev, app, ok, primed);
    case BatchFinish(b, made, harvest, save) => FinishEntriesOk(s0, b, made, harvest, save);
    case AppCreate(dev, primeOn, ok, primed, initial) => PrimeTables(NewApp(s0, initial), s.next, dev, ok, primed);
    case AppDestroy(h) => TableOpsOk(s.app, h);
    case DeviceDestroy(dev, save) =>
      if Lookup(s.dc, dev) < |s.dc| {
        DropTables(s0, Lookup(s.dc, dev), save);
      }
    case _ =>
  }

  /** At every moment of every run the tables have their sizes, and rows and entries are distinct. */
  lemma {:induction false} TablesInBounds(tr: seq<State>, es: seq<Event>, k: nat)
    requires IsRun(tr, es) && k < |tr|
    ensures RowsOk(tr[k].dc) && EntriesOk(tr[k].app)
  {
    if k > 0 {
      TablesInBounds(tr, es, k - 1);
      assert Next(tr[k - 1], es[k - 1], tr[k]);
      StepRowsOk(tr[k - 1], es[k - 1]);
      StepEntriesOk(tr[k - 1], es[k - 1]);
    }
  }

  // ---- what a step leaves in the caches ---------------------------------------

  ghost function Contents(s: State, h: Handle): set<Pipeline> {
    if h in s.store then s.store[h] else {}
  }

  ghost predicate RowOf(s: State, dev: Device, i: nat) { i < |s.dc| && s.dc[i].dev == dev }

  ghost predicate NoRow(s: State, dev: Device) { forall i :: 0 <= i < |s.dc| ==> s.dc[i].dev != dev }

  /** The device has a master in row i that no batch holds. */
  ghost predicate Ready(s: State, dev: Device, i: nat) {
    RowOf(s, dev, i) && s.dc[i].pc != NULL && !s.dc[i].masterInUse
  }

  /** The device has no master, and there is a row for one. */
  ghost predicate RoomForMaster(s: State, dev: Device) {
    || (exists i: nat :: RowOf(s, dev, i) && s.dc[i].pc == NULL && !s.dc[i].masterInUse)
    || (NoRow(s, dev) && exists i: nat :: RowOf(s, NULL, i))
  }

  /** A cache of row i in t that s did not have, holding what was read from disk. */
  ghost predicate NewMaster(s: State, t: State, dev: Device, i: nat, primed: set<Pipeline>) {
    RowOf(t, dev, i) && t.dc[i].pc !in s.store && t.dc[i].pc in t.store && t.store[t.dc[i].pc] == primed
  }

  /** Every cache that existed is still there and holds what it held. */
  ghost predicate Untouched(s: State, t: State) {
    forall x :: x in s.store ==> x in t.store && t.store[x] == s.store[x]
  }

  lemma RowIs(s: State, dev: Device, i: nat)
    requires RowsOk(s.dc) && dev != NULL && RowOf(s, dev, i)
    ensures Lookup(s.dc, dev) == i
  {
  }

  lemma NoRowIs(s: State, dev: Device)
    ensures NoRow(s, dev) <==> Lookup(s.dc, dev) == |s.dc|
  {
  }

  /** From s to t the device's idle master stays, and a missing one is made if it can be; caches keep their contents. */
  ghost predicate MasterKept(s: State, dev: Device, ok: bool, primed: set<Pipeline>, t: State) {
    && Untouched(s, t)
    && (forall i: nat :: Ready(s, dev, i) ==> Ready(t, dev, i) && t.dc[i].pc == s.dc[i].pc && t.store == s.store)
    && (RoomForMaster(s, dev) && ok ==> exists i: nat :: Ready(t, dev, i) && NewMaster(s, t, dev, i, primed))
    && ((exists i: nat :: Ready(t, dev, i)) ==> (exists i: nat :: Ready(s, dev, i)) || (RoomForMaster(s, dev) && ok))
  }

  lemma EnsureMakes(s: State, dev: Device, ok: bool, primed: set<Pipeline>, t: State)
    requires RowsOk(s.dc) && dev != NULL && Shape(s) && t == Ensure(s, dev, ok, primed)
    ensures RowsOk(t.dc) && MasterKept(s, dev, ok, primed, t)
  {
    EnsureRowsOk(s, dev, ok, primed, t);
    if Lookup(s.dc, dev) < |s.dc| {
      EnsureKnown(s, dev, ok, primed, t, Lookup(s.dc, dev));
    } else {
      EnsureUnknown(s, dev, ok, primed, t);
    }
  }

  lemma EnsureKnown(s: State, dev: Device, ok: bool, primed: set<Pipeline>, t: State, j: nat)
    requires RowsOk(s.dc) && dev != NULL && Shape(s) && t == Ensure(s, dev, ok, primed) && j == Lookup(s.dc, dev) < |s.dc|
    ensures MasterKept(s, dev, ok, primed, t)
  {
    assert RowOf(s, dev, j) && s.next !in s.store && s.next != NULL;
    assert forall i: nat :: RowOf(s, dev, i) ==> i == j;
    hide MasterKept, Shape, RowsOk;
    if s.dc[j].pc == NULL && ok {
      assert t.dc == s.dc[j := s.dc[j].(pc := s.next)] && t.store == s.store[s.next := primed];
      hide Ensure;
      NewMasterKept(s, dev, primed, t, j);
    } else {
      assert t.dc == s.dc && t.store == s.store;
      hide Ensure;
      SameMasterKept(s, dev, ok, primed, t);
    }
  }

  lemma EnsureUnknown(s: State, dev: Device, ok: bool, primed: set<Pipeline>, t: State)
    requires dev != NULL && Shape(s) && t == Ensure(s, dev, ok, primed) && Lookup(s.dc, dev) == |s.dc|
    ensures MasterKept(s, dev, ok, primed, t)
  {
    var j := Lookup(s.dc, NULL);
    assert NoRow(s, dev) && s.next !in s.store && s.next != NULL && (j < |s.dc| ==> s.dc[j] == EMPTY_SLOT);
    hide MasterKept, Shape;
    if j == |s.dc| {
      assert t.dc == s.dc && t.store == s.store;
      hide Ensure;
      assert forall i: nat :: !RowOf(s, NULL, i);
      SameMasterKept(s, dev, ok, primed, t);
    } else if ok {
      assert t.dc == s.dc[j := DevCache(dev, s.next, false, [])] && t.store == s.store[s.next := primed];
      hide Ensure;
      NewMasterKept(s, dev, primed, t, j);
    } else {
      assert t.dc == s.dc[j := DevCache(dev, NULL, false, [])] && t.store == s.store;
      hide Ensure;
      SameMasterKept(s, dev, ok, primed, t);
    }
  }

  /** No master is made, and none could be. */
  lemma SameMasterKept(s: State, dev: Device, ok: bool, primed: set<Pipeline>, t: State)
    requires t.store == s.store && |t.dc| == |s.dc| && !(RoomForMaster(s, dev) && ok)
    requires forall i :: 0 <= i < |s.dc| ==> t.dc[i] == s.dc[i] || (s.dc[i].dev != dev && t.dc[i].pc == NULL)
    ensures MasterKept(s, dev, ok, primed, t)
  {
    assert forall i: nat :: Ready(t, dev, i) <==> Ready(s, dev, i);
  }

  /** A master is made in row j, the device's own or one that was free. */
  lemma NewMasterKept(s: State, dev: Device, primed: set<Pipeline>, t: State, j: nat)
    requires j < |s.dc| && s.next != NULL && s.next !in s.store && t.store == s.store[s.next := primed]
    requires (RowOf(s, dev, j) && s.dc[j].pc == NULL) || (s.dc[j] == EMPTY_SLOT && NoRow(s, dev))
    requires t.dc == s.dc[j := s.dc[j].(dev := dev, pc := s.next)] && forall i: nat :: RowOf(s, dev, i) ==> i == j
    ensures MasterKept(s, dev, true, primed, t)
  {
    assert forall i: nat :: RowOf(t, dev, i) && i != j ==> RowOf(s, dev, i);
    assert NewMaster(s, t, dev, j, primed) && (s.dc[j] == EMPTY_SLOT ==> RowOf(s, NULL, j));
    assert Ready(t, dev, j) <==> !s.dc[j].masterInUse;
  }

  /** What an app's new cache starts with: the app's initial data, and all the device's master holds, be it new from disk. */
  ghost predicate StartsRight(s: State, e: Event, t: State)
    requires e.AppCreate?
  {
    && s.next !in s.store && AppHolds(t, s.next) && Untouched(s, t)
    && (forall i: nat :: Ready(s, e.dev, i) && e.primeOn ==> Contents(t, s.next) == e.initial + Contents(s, s.dc[i].pc))
    && (RoomForMaster(s, e.dev) && e.createOk && e.primeOn ==>
          Contents(t, s.next) == e.initial + e.primed && exists i: nat :: NewMaster(s, t, e.dev, i, e.primed) && t.dc[i].pc != s.next)
    && (!e.primeOn || !((exists i: nat :: Ready(s, e.dev, i)) || (RoomForMaster(s, e.dev) && e.createOk)) ==>
          Contents(t, s.next) == e.initial)
  }

  /**
    At every moment of every run, whatever is compiling: an app that creates a cache gets one that
    holds, beside the initial data it passed, what the device's idle master holds, or what was read
    from disk if the master had yet to be made, and nothing more in all other cases; every cache there
    was, the master included, is unchanged.
   */
  lemma CreatedHolds(tr: seq<State>, es: seq<Event>, k: nat)
    requires IsRun(tr, es) && k < |es| && es[k].AppCreate?
    ensures StartsRight(tr[k], es[k], tr[k + 1])
  {
    var s, e, t := tr[k], es[k], tr[k + 1];
    TablesInBounds(tr, es, k);
    RunKeeps(tr, es, k);
    assert Next(s, e, t);
    assert Shape(s);
    hide ScratchInv, Shape, RowsOk, StartsRight, Next, IsRun;
    CreateStarts(s, e, t);
  }

  lemma CreateStarts(s: State, e: Event, t: State)
    requires Shape(s) && RowsOk(s.dc) && Next(s, e, t) && e.AppCreate?
    ensures StartsRight(s, e, t)
  {
    var s0 := NewApp(s.(touched := {}), e.initial);
    assert s.next !in s.role && s.next !in s.store;
    NewAppShape(s, e.initial, s0);
    hide Shape, RowsOk;
    if e.primeOn {
      hide StartsRight;
      assert t == Prime(s0, s.next, e.dev, e.createOk, e.primed);
      PrimeHolds(s, e, s0, t);
    } else {
      assert t == s0;
    }
  }

  lemma NewAppShape(s: State, initial: set<Pipeline>, t: State)
    requires Shape(s) && t == NewApp(s.(touched := {}), initial)
    ensures Shape(t)
  {
  }

  lemma PrimeHolds(s: State, e: Event, s0: State, t: State)
    requires e.AppCreate? && e.primeOn && e.dev != NULL && RowsOk(s.dc) && s.next !in s.store && s0 == NewApp(s.(touched := {}), e.initial)
    requires Shape(s0) && t == Prime(s0, s.next, e.dev, e.createOk, e.primed)
    ensures StartsRight(s, e, t)
  {
    var s1 := Ensure(s0, e.dev, e.createOk, e.primed);
    hide StartsRight, MasterKept, RowsOk, NewApp;
    EnsureMakes(s0, e.dev, e.createOk, e.primed, s1);
    EnsureFrame(s0, e.dev, e.createOk, e.primed, s1);
    MadeByApp(s, e.initial, s0, s1);
    var i := Lookup(s1.dc, e.dev);
    hide Ensure, Shape, Merge;
    if i < |s1.dc| && Ready(s1, e.dev, i) {
      MastersApart(s1, i, s.next);
      MergeOne(s1, s.next, s1.dc[i].pc, t);
      PrimedRight(s, e, s0, s1, i, t);
    } else {
      NotPrimed(s, e, s0, s1);
    }
  }

  lemma MadeByApp(s: State, initial: set<Pipeline>, s0: State, s1: State)
    requires s0 == NewApp(s.(touched := {}), initial) && Untouched(s0, s1)
    requires s1.role == s0.role || s1.role == s0.role[s0.next := Master]
    ensures AppHolds(s1, s.next) && Contents(s1, s.next) == initial && s.next in s1.store
  {
    assert s.next in s0.store;
  }

  lemma NotPrimed(s: State, e: Event, s0: State, s1: State)
    requires e.AppCreate? && e.primeOn && e.dev != NULL && s.next !in s.store && s0 == NewApp(s.(touched := {}), e.initial)
    requires RowsOk(s1.dc) && MasterKept(s0, e.dev, e.createOk, e.primed, s1) && AppHolds(s1, s.next) && Contents(s1, s.next) == e.initial
    requires !(Lookup(s1.dc, e.dev) < |s1.dc| && Ready(s1, e.dev, Lookup(s1.dc, e.dev)))
    ensures StartsRight(s, e, s1)
  {
    assert forall j: nat :: RowOf(s1, e.dev, j) ==> j == Lookup(s1.dc, e.dev);
    assert forall j: nat, d :: RowOf(s, d, j) <==> RowOf(s0, d, j);
    assert forall j: nat :: Ready(s, e.dev, j) <==> Ready(s0, e.dev, j);
    assert RoomForMaster(s, e.dev) ==> RoomForMaster(s0, e.dev);
  }

  lemma MastersApart(s: State, i: nat, h: Handle)
    requires Shape(s) && i < |s.dc| && s.dc[i].pc != NULL && h in s.role && s.role[h].AppMade?
    ensures s.dc[i].pc != h
  {
  }

  lemma MergeOne(s: State, dst: Handle, src: Handle, t: State)
    requires t == Merge(s, dst, [src]) && dst in s.store
    ensures t.store == s.store[dst := s.store[dst] + Contents(s, src)] && t.role == s.role && t.dc == s.dc
  {
    assert Held(s.store, [src]) == Contents(s, src);
  }

  /** The merge of an idle master into the new cache. */
  lemma PrimedRight(s: State, e: Event, s0: State, s1: State, i: nat, t: State)
    requires e.AppCreate? && e.primeOn && e.dev != NULL && s.next !in s.store && s0 == NewApp(s.(touched := {}), e.initial)
    requires RowsOk(s1.dc) && MasterKept(s0, e.dev, e.createOk, e.primed, s1) && Ready(s1, e.dev, i) && s1.dc[i].pc != s.next
    requires t.store == s1.store[s.next := Contents(s1, s.next) + Contents(s1, s1.dc[i].pc)] && t.dc == s1.dc && AppHolds(t, s.next)
    ensures StartsRight(s, e, t)
  {
    assert forall j: nat :: Ready(s, e.dev, j) <==> Ready(s0, e.dev, j);
    assert forall j: nat, d :: RowOf(s, d, j) <==> RowOf(s0, d, j);
    assert RoomForMaster(s, e.dev) ==> RoomForMaster(s0, e.dev);
    assert forall j: nat :: RowOf(s1, e.dev, j) ==> j == i;
    assert s.next in s0.store && s1.store[s.next] == e.initial;
  }

  /** How a batch opens: on its own cache, on the device's master, or on nothing yet. */
  ghost predicate OpensRight(s: State, e: Event, t: State)
    requires e.BatchBegin?
  {
    && e.b in t.batches && t.batches[e.b].dev == e.dev && t.batches[e.b].phase.Opened? && t.batches[e.b].app == e.app
    && t.batches[e.b].scratch == NULL && Untouched(s, t)
    && (t.batches[e.b].ownMaster <==>
          e.app == NULL && ((exists i: nat :: Ready(s, e.dev, i)) || (RoomForMaster(s, e.dev) && e.createOk)))
    && (!t.batches[e.b].ownMaster ==> t.batches[e.b].into == e.app)
    && (t.batches[e.b].ownMaster ==> exists i: nat :: RowOf(t, e.dev, i) && t.dc[i].masterInUse && t.dc[i].pc == t.batches[e.b].into)
    && (forall i: nat :: Ready(s, e.dev, i) && e.app == NULL ==> t.batches[e.b].into == s.dc[i].pc)
    && (RoomForMaster(s, e.dev) && e.createOk ==> exists i: nat :: NewMaster(s, t, e.dev, i, e.primed))
    && (t.batches[e.b].tracked <==> e.app != NULL && exists i :: 0 <= i < |s.app| && (s.app[i].pc == e.app || s.app[i].pc == NULL))
  }

  /**
    At every moment of every run: a batch that brings no cache compiles into the device's master if that
    is there and idle, or could be made with what the disk held, and only then; and a batch that brings
    one is counted exactly when the table has an entry for it or a free one.
   */
  lemma BeginTakes(tr: seq<State>, es: seq<Event>, k: nat)
    requires IsRun(tr, es) && k < |es| && es[k].BatchBegin?
    ensures OpensRight(tr[k], es[k], tr[k + 1])
  {
    var s, e, t := tr[k], es[k], tr[k + 1];
    TablesInBounds(tr, es, k);
    RunKeeps(tr, es, k);
    assert Next(s, e, t);
    assert Shape(s);
    hide ScratchInv, OpensRight, Begin;
    var s0 := s.(touched := {});
    assert t == Begin(s0, e.b, e.dev, e.app, e.createOk, e.primed);
    assert Shape(s0);
    hide Step, Shape;
    BeginOpens(s0, e, t);
    OpensFrom(s, s0, e, t);
  }

  lemma OpensFrom(s: State, s0: State, e: Event, t: State)
    requires s0 == s.(touched := {}) && e.BatchBegin? && OpensRight(s0, e, t)
    ensures OpensRight(s, e, t)
  {
    assert forall j: nat, d :: RowOf(s, d, j) <==> RowOf(s0, d, j);
    assert forall j: nat :: Ready(s, e.dev, j) <==> Ready(s0, e.dev, j);
    assert RoomForMaster(s, e.dev) <==> RoomForMaster(s0, e.dev);
    assert forall j: nat :: NewMaster(s0, t, e.dev, j, e.primed) ==> NewMaster(s, t, e.dev, j, e.primed);
  }

  lemma BeginOpens(s: State, e: Event, t: State)
    requires e.BatchBegin? && e.dev != NULL && RowsOk(s.dc) && Shape(s) && t == Begin(s, e.b, e.dev, e.app, e.createOk, e.primed)
    ensures OpensRight(s, e, t)
  {
    var s1 := Ensure(s, e.dev, e.createOk, e.primed);
    hide MasterKept, RowsOk, OpensRight;
    EnsureMakes(s, e.dev, e.createOk, e.primed, s1);
    EnsureFrame(s, e.dev, e.createOk, e.primed, s1);
    hide Ensure, Shape;
    if e.app != NULL {
      RefusedIff(s.app, e.app);
    }
    hide Ref;
    var i := Lookup(s1.dc, e.dev);
    if e.app == NULL && i < |s1.dc| && Ready(s1, e.dev, i) {
      TakesMaster(s, e, s1, i, t);
    } else {
      TakesNone(s, e, s1, t);
    }
  }

  lemma TakesMaster(s: State, e: Event, s1: State, i: nat, t: State)
    requires e.BatchBegin? && e.app == NULL && e.dev != NULL && RowsOk(s1.dc) && Ready(s1, e.dev, i)
    requires MasterKept(s, e.dev, e.createOk, e.primed, s1) && t.store == s1.store
    requires t.dc == s1.dc[i := s1.dc[i].(masterInUse := true)]
    requires e.b in t.batches && t.batches[e.b] == Batch(e.dev, NULL, true, false, s1.dc[i].pc, NULL, Opened)
    ensures OpensRight(s, e, t)
  {
    assert RowOf(t, e.dev, i) && t.dc[i].masterInUse;
    assert forall j: nat :: RowOf(s1, e.dev, j) ==> j == i;
    assert NewMaster(s, s1, e.dev, i, e.primed) ==> NewMaster(s, t, e.dev, i, e.primed);
  }

  lemma TakesNone(s: State, e: Event, s1: State, t: State)
    requires e.BatchBegin? && e.dev != NULL && RowsOk(s1.dc) && MasterKept(s, e.dev, e.createOk, e.primed, s1)
    requires e.app == NULL ==> !(Lookup(s1.dc, e.dev) < |s1.dc| && Ready(s1, e.dev, Lookup(s1.dc, e.dev)))
    requires t.store == s1.store && t.dc == s1.dc && e.b in t.batches
    requires t.batches[e.b] == Batch(e.dev, e.app, false, t.batches[e.b].tracked, e.app, NULL, Opened)
    requires t.batches[e.b].tracked <==> e.app != NULL && exists i :: 0 <= i < |s.app| && (s.app[i].pc == e.app || s.app[i].pc == NULL)
    ensures OpensRight(s, e, t)
  {
    assert forall j: nat :: RowOf(s1, e.dev, j) ==> j == Lookup(s1.dc, e.dev);
    assert forall j: nat :: NewMaster(s, s1, e.dev, j, e.primed) ==> NewMaster(s, t, e.dev, j, e.primed);
  }

  // ---- what a finishing batch leaves ------------------------------------------

  /** What cache x holds when batch b's compile has returned with the pipelines made. */
  ghost function After(s: State, b: BatchId, made: set<Pipeline>, x: Handle): set<Pipeline>
    requires b in s.batches
  {
    Contents(s, x) + (if x == s.batches[b].into && x in s.store then made else {})
  }

  /** Row i's master takes in the queue when b finishes: b owned it, or it is idle and b has a cache to add. */
  ghost predicate Folds(s: State, e: Event, i: nat)
    requires e.BatchFinish? && e.b in s.batches
  {
    var bt := s.batches[e.b];
    && RowOf(s, bt.dev, i) && s.dc[i].pc != NULL
    && (bt.ownMaster || (bt.app == NULL && bt.scratch != NULL && !s.dc[i].masterInUse) || Harvests(s, e))
  }

  /** From s to t row i's master took in cache src and the queue, the queued caches went, and the rest stayed. */
  ghost predicate FoldedInto(s: State, i: nat, src: Handle, t: State)
    requires i < |s.dc|
  {
    && s.dc[i].pc in t.store
    && t.store[s.dc[i].pc] == Contents(s, s.dc[i].pc) + Contents(s, src) + Held(s.store, s.dc[i].pending)
    && (forall x :: x in s.dc[i].pending ==> x !in t.store)
    && (forall x :: x in s.store && x != s.dc[i].pc && x !in s.dc[i].pending ==> x in t.store && t.store[x] == s.store[x])
  }

  lemma DrainFolds(s: State, i: nat, save: bool)
    requires ExclInv(s) && i < |s.dc| && s.dc[i].pc != NULL
    ensures |Drain(s, i).dc| == |s.dc|
    ensures FoldedInto(s, i, s.dc[i].pc, Save(Drain(s, i), i, save))
  {
    var t := Drain(s, i);
    QueuedGone(s, i, t);
    Retention.DrainStore(s, i, t);
    DrainFrame(s, i, t);
    hide Drain, ExclInv;
  }

  lemma QueuedGone(s: State, i: nat, t: State)
    requires i < |s.dc| && t == Drain(s, i)
    ensures forall x :: x in s.dc[i].pending ==> x !in t.store
  {
    if s.dc[i].pending != [] {
      DrainParts(s, i, t);
      hide Drain;
      assert forall x :: x in s.dc[i].pending ==> x !in t.store.Keys;
    }
  }

  lemma MergeFolds(s: State, i: nat, src: Handle, save: bool)
    requires ExclInv(s) && i < |s.dc| && s.dc[i].pc != NULL && !s.dc[i].masterInUse && s.touched == {} && Idle(s, src)
    ensures |Drain(Merge(s, s.dc[i].pc, [src]), i).dc| == |s.dc|
    ensures FoldedInto(s, i, src, Save(Drain(Merge(s, s.dc[i].pc, [src]), i), i, save))
  {
    var pc := s.dc[i].pc;
    var m := Merge(s, pc, [src]);
    IdleRow(s, i);
    MergeExcl(s, pc, [src]);
    MasterQueue(s, i);
    hide ExclInv;
    MergeOne(s, pc, src, m);
    hide Merge, Drain, Save, FoldedInto, Idle;
    DrainFolds(m, i, save);
    FoldedMerged(s, i, src, m, Save(Drain(m, i), i, save));
  }

  lemma FoldedMerged(s: State, i: nat, src: Handle, m: State, t: State)
    requires i < |s.dc| && s.dc[i].pc in s.store && s.dc[i].pc !in s.dc[i].pending && m.dc == s.dc
    requires m.store == s.store[s.dc[i].pc := s.store[s.dc[i].pc] + Contents(s, src)] && FoldedInto(m, i, s.dc[i].pc, t)
    ensures FoldedInto(s, i, src, t)
  {
    HeldSame(s.store, m.store, s.dc[i].pending);
    hide Held;
  }

  lemma MasterQueue(s: State, i: nat)
    requires ExclInv(s) && i < |s.dc| && s.dc[i].pc != NULL
    ensures s.dc[i].pc in s.store && s.dc[i].pc !in s.dc[i].pending
  {
    QueuedHere(s, i);
  }

  lemma HeldSame(m: map<Handle, set<Pipeline>>, m': map<Handle, set<Pipeline>>, q: seq<Handle>)
    requires forall h :: h in q ==> (h in m <==> h in m') && (h in m ==> m'[h] == m[h])
    ensures Held(m, q) == Held(m', q)
  {
  }

  /** The cache a batch compiles into is in no queue. */
  lemma IntoNotQueued(s: State, b: BatchId, i: nat)
    requires ExclInv(s) && b in s.batches && i < |s.dc|
    ensures s.batches[b].into !in s.dc[i].pending
  {
    QueuedHere(s, i);
    ShapeOf(s, b);
    if s.batches[b].ownMaster {
      OwnerRow(s, b, Lookup(s.dc, s.batches[b].dev));
    }
  }

  /** What every cache holds after a batch finishes. */
  ghost predicate FinishesRight(s: State, e: Event, t: State)
    requires e.BatchFinish? && e.b in s.batches
  {
    && (forall i: nat :: Folds(s, e, i) ==> FoldedFrom(s, e, i, t))
    && ((forall i: nat :: !Folds(s, e, i)) ==> forall x :: x in s.store ==> x in t.store && t.store[x] == After(s, e.b, e.made, x))
  }

  /** The master has its own, what the batch compiled into and the queue; queued caches are gone; the rest holds what it should. */
  ghost predicate FoldedFrom(s: State, e: Event, i: nat, t: State)
    requires e.BatchFinish? && e.b in s.batches && i < |s.dc|
  {
    var pc, q := s.dc[i].pc, s.dc[i].pending;
    && pc in t.store
    && t.store[pc] == After(s, e.b, e.made, pc) + After(s, e.b, e.made, s.batches[e.b].into) + Held(s.store, q)
    && (forall x :: x in q ==> x !in t.store)
    && (forall x :: x in s.store && x != pc && x !in q ==> x in t.store && t.store[x] == After(s, e.b, e.made, x))
  }

  /**
    In every calm run in which the app leaves its busy caches alone, a finishing batch leaves its pipelines
    in the cache it compiled into, and nowhere else unless it folds: then the master holds, beside its own,
    exactly what the batch's cache and the queued caches held, and the queued ones are gone. Neither the
    app's cache nor any other gains anything from the master.
   */
  lemma FinishHolds(tr: seq<State>, es: seq<Event>, k: nat)
    requires IsRun(tr, es) && k < |es| && es[k].BatchFinish? && es[k].b in tr[k].batches
    requires forall j :: 0 <= j < |es| ==> Calm(tr[j], es[j]) && Polite(tr[j], es[j])
    ensures FinishesRight(tr[k], es[k], tr[k + 1])
  {
    var s, e, t := tr[k], es[k], tr[k + 1];
    RunCounts(tr, es, k);
    TablesInBounds(tr, es, k);
    assert Next(s, e, t);
    var s0 := s.(touched := {});
    ResetExcl(s, s0);
    FinishOnly(s, e, t);
    hide ExclInv, CountsExact, Step, Finish, FinishesRight, RowsOk;
    FinishLeaves(s0, e, t);
    FinishFrom(s, s0, e, t);
  }

  lemma FinishFrom(s: State, s0: State, e: Event, t: State)
    requires s0 == s.(touched := {}) && e.BatchFinish? && e.b in s.batches && FinishesRight(s0, e, t)
    ensures FinishesRight(s, e, t)
  {
    assert forall i: nat :: Folds(s, e, i) <==> Folds(s0, e, i);
    assert forall x :: After(s, e.b, e.made, x) == After(s0, e.b, e.made, x);
  }

  lemma FinishLeaves(s: State, e: Event, t: State)
    requires ExclInv(s) && CountsExact(s.app, s.batches) && RowsOk(s.dc) && s.touched == {}
    requires e.BatchFinish? && e.b in s.batches && s.batches[e.b].phase.Compiling?
    requires t == Finish(s, e.b, e.made, e.harvest, e.save)
    ensures FinishesRight(s, e, t)
  {
    var bt := s.batches[e.b];
    ShapeOf(s, e.b);
    hide ExclInv, CountsExact, FinishOwner, FinishApp, FinishScratch, FinishesRight, RowsOk;
    if bt.ownMaster {
      OwnerLeaves(s, e, t);
    } else if bt.app != NULL {
      AppLeaves(s, e, t);
    } else if bt.scratch != NULL {
      ScratchLeaves(s, e, t);
    } else {
      NothingLeft(s, e, t);
    }
  }

  /** s1 is s with the compile's result in: a finish that folds nothing. */
  lemma NoFold(s: State, e: Event, t: State)
    requires e.BatchFinish? && e.b in s.batches && t.store == Compiled(s, e.b, e.made).store && forall i: nat :: !Folds(s, e, i)
    ensures FinishesRight(s, e, t)
  {
  }

  lemma OneFold(s: State, e: Event, s1: State, i: nat, src: Handle, t: State)
    requires ExclInv(s) && RowsOk(s.dc) && e.BatchFinish? && e.b in s.batches && Folds(s, e, i) && s.batches[e.b].dev != NULL
    requires s1.store == Compiled(s, e.b, e.made).store && |s1.dc| == |s.dc|
    requires s1.dc[i].pc == s.dc[i].pc && s1.dc[i].pending == s.dc[i].pending
    requires FoldedInto(s1, i, src, t) && src == s.batches[e.b].into
    ensures FinishesRight(s, e, t)
  {
    IntoNotQueued(s, e.b, i);
    HeldSame(s.store, s1.store, s.dc[i].pending);
    hide ExclInv, FoldedInto, FoldedFrom, Harvests, Held, RowsOk;
    FoldedRight(s, e, s1, i, t);
    assert forall j: nat :: RowOf(s, s.batches[e.b].dev, j) ==> j == i by {
      forall j: nat | RowOf(s, s.batches[e.b].dev, j) ensures j == i {
        RowIs(s, s.batches[e.b].dev, j);
        RowIs(s, s.batches[e.b].dev, i);
      }
    }
  }

  lemma FoldedRight(s: State, e: Event, s1: State, i: nat, t: State)
    requires e.BatchFinish? && e.b in s.batches && i < |s.dc| == |s1.dc| && s1.store == Compiled(s, e.b, e.made).store
    requires s1.dc[i].pc == s.dc[i].pc && s1.dc[i].pending == s.dc[i].pending
    requires Held(s1.store, s.dc[i].pending) == Held(s.store, s.dc[i].pending) && FoldedInto(s1, i, s.batches[e.b].into, t)
    ensures FoldedFrom(s, e, i, t)
  {
    hide Held;
    assert forall x :: Contents(s1, x) == After(s, e.b, e.made, x);
  }

  lemma NothingLeft(s: State, e: Event, t: State)
    requires ExclInv(s) && CountsExact(s.app, s.batches) && e.BatchFinish? && e.b in s.batches
    requires BatchShape(s.batches[e.b]) && s.batches[e.b].scratch == NULL && s.batches[e.b].app == NULL && !s.batches[e.b].ownMaster
    requires t.store == s.store
    ensures FinishesRight(s, e, t)
  {
    assert NULL !in s.store && !s.batches[e.b].tracked;
    NoFold(s, e, t);
  }

  lemma OwnerLeaves(s: State, e: Event, t: State)
    requires ExclInv(s) && RowsOk(s.dc) && e.BatchFinish? && e.b in s.batches && s.batches[e.b].ownMaster && BatchShape(s.batches[e.b])
    requires t == FinishOwner(s, e.b, e.made, e.save)
    ensures FinishesRight(s, e, t)
  {
    var i := Lookup(s.dc, s.batches[e.b].dev);
    OwnerRow(s, e.b, i);
    OwnerInto(s, e.b, i);
    var s1 := Compiled(s, e.b, e.made).(batches := s.batches - {e.b});
    var s2 := Earn(s1.(dc := s1.dc[i := s1.dc[i].(masterInUse := false)]), i, e.made);
    ReleaseExcl(s, s2, e.b, i);
    hide ExclInv, Drain, Save, FinishesRight, RowsOk;
    DrainFolds(s2, i, e.save);
    OneFold(s, e, s2, i, s.dc[i].pc, t);
  }

  lemma OwnerInto(s: State, b: BatchId, i: nat)
    requires ExclInv(s) && Holds(s.dc, s.batches, b, i)
    ensures s.dc[i].pc != NULL && s.dc[i].pc == s.batches[b].into
  {
  }

  lemma AppLeaves(s: State, e: Event, t: State)
    requires ExclInv(s) && CountsExact(s.app, s.batches) && RowsOk(s.dc) && s.touched == {}
    requires e.BatchFinish? && e.b in s.batches && s.batches[e.b].app != NULL && !s.batches[e.b].ownMaster && BatchShape(s.batches[e.b])
    requires t == FinishApp(s, e.b, e.made, e.harvest, e.save)
    ensures FinishesRight(s, e, t)
  {
    LastMeans(s, e);
    FoldsIfHarvests(s, e, Lookup(s.dc, s.batches[e.b].dev));
    hide ExclInv, CountsExact, FinishesRight, RowsOk, Folds;
    if Harvests(s, e) {
      HarvestLeaves(s, e, t, Lookup(s.dc, s.batches[e.b].dev));
    } else {
      NoFold(s, e, t) by {
        hide Save, Drain, Merge, Unref;
      }
    }
  }

  lemma LastMeans(s: State, e: Event)
    requires CountsExact(s.app, s.batches) && e.BatchFinish? && e.b in s.batches
    ensures Harvests(s, e) <==> s.batches[e.b].tracked && Unref(s.app, s.batches[e.b].app).1 && e.harvest && IdleMaster(s, s.batches[e.b].dev)
  {
    if s.batches[e.b].tracked {
      UnrefCounts(s.app, s.batches, e.b);
    }
  }

  lemma HarvestLeaves(s: State, e: Event, t: State, i: nat)
    requires ExclInv(s) && RowsOk(s.dc) && s.touched == {} && e.BatchFinish? && e.b in s.batches && BatchShape(s.batches[e.b])
    requires s.batches[e.b].app != NULL && !s.batches[e.b].ownMaster && i == Lookup(s.dc, s.batches[e.b].dev) < |s.dc| && Folds(s, e, i)
    requires s.batches[e.b].tracked && Unref(s.app, s.batches[e.b].app).1 && e.harvest && IdleMaster(s, s.batches[e.b].dev)
    requires t == FinishApp(s, e.b, e.made, e.harvest, e.save)
    ensures FinishesRight(s, e, t)
  {
    var bt := s.batches[e.b];
    var s1 := Compiled(s, e.b, e.made).(batches := s.batches - {e.b}, app := Unref(s.app, bt.app).0);
    hide Unref, FinishesRight, Folds, RowsOk;
    AppDoneExcl(s, e.b, s1);
    hide ExclInv, Drain, Save, Merge, FoldedInto, Idle;
    assert t == Save(Drain(Merge(s1, s.dc[i].pc, [bt.app]), i), i, e.save);
    MergeFolds(s1, i, bt.app, e.save);
    OneFold(s, e, s1, i, bt.app, t);
  }

  lemma FoldsIfHarvests(s: State, e: Event, i: nat)
    requires e.BatchFinish? && e.b in s.batches && s.batches[e.b].app != NULL && !s.batches[e.b].ownMaster
    requires i == Lookup(s.dc, s.batches[e.b].dev)
    ensures Harvests(s, e) ==> i < |s.dc| && Folds(s, e, i)
    ensures !Harvests(s, e) ==> forall j: nat :: !Folds(s, e, j)
  {
    hide TrackedOn;
  }

  lemma ScratchLeaves(s: State, e: Event, t: State)
    requires ExclInv(s) && CountsExact(s.app, s.batches) && RowsOk(s.dc) && s.touched == {}
    requires e.BatchFinish? && e.b in s.batches && BatchShape(s.batches[e.b])
    requires s.batches[e.b].app == NULL && !s.batches[e.b].ownMaster && s.batches[e.b].scratch != NULL
    requires t == FinishScratch(s, e.b, e.made, e.save)
    ensures FinishesRight(s, e, t)
  {
    var bt := s.batches[e.b];
    var i := Lookup(s.dc, bt.dev);
    assert !bt.tracked;
    hide CountsExact, FinishesRight;
    if i < |s.dc| && !s.dc[i].masterInUse && s.dc[i].pc != NULL {
      ScratchFolds(s, e, t, i);
    } else {
      hide ExclInv, Drain, Save, Merge;
      assert forall j: nat :: RowOf(s, bt.dev, j) ==> j == i;
      assert forall j: nat :: !Folds(s, e, j);
      NoFold(s, e, t);
    }
  }

  lemma ScratchFolds(s: State, e: Event, t: State, i: nat)
    requires ExclInv(s) && RowsOk(s.dc) && s.touched == {} && e.BatchFinish? && e.b in s.batches && BatchShape(s.batches[e.b])
    requires s.batches[e.b].app == NULL && !s.batches[e.b].ownMaster && s.batches[e.b].scratch != NULL
    requires i == Lookup(s.dc, s.batches[e.b].dev) < |s.dc| && !s.dc[i].masterInUse && s.dc[i].pc != NULL
    requires t == FinishScratch(s, e.b, e.made, e.save)
    ensures FinishesRight(s, e, t)
  {
    var bt := s.batches[e.b];
    var s1 := Earn(Compiled(s, e.b, e.made).(batches := s.batches[e.b := bt.(phase := Leaving)]), i, e.made);
    hide FinishesRight, RowsOk;
    StartLeaving(s, e.b, i, s1);
    hide ExclInv, Drain, Save, Merge, FoldedInto, Idle;
    MergeFolds(s1, i, bt.scratch, e.save);
    OneFold(s, e, s1, i, bt.scratch, t);
  }

  // ---- the app's own calls and the device's life -------------------------------

  /** An app merge adds to the destination what the sources held, and leaves every other cache alone. */
  lemma AppMergeHolds(tr: seq<State>, es: seq<Event>, k: nat, x: Handle)
    requires IsRun(tr, es) && k < |es| && es[k].AppMerge?
    ensures x in tr[k + 1].store <==> x in tr[k].store
    ensures forall p :: p in Contents(tr[k + 1], x) <==>
              p in Contents(tr[k], x) || (x == es[k].dst && exists h :: h in es[k].srcs && p in Contents(tr[k], h))
  {
    assert Next(tr[k], es[k], tr[k + 1]);
    var s, dst, srcs := tr[k], es[k].dst, es[k].srcs;
    assert dst in s.store && tr[k + 1].store == s.store[dst := s.store[dst] + Held(s.store, srcs)];
    HeldIs(s, srcs);
    hide Held;
  }

  lemma HeldIs(s: State, q: seq<Handle>)
    ensures forall p :: p in Held(s.store, q) <==> exists h :: h in q && p in Contents(s, h)
  {
    forall p | p in Held(s.store, q)
      ensures exists h :: h in q && p in Contents(s, h)
    {
      var h :| h in q && h in s.store && p in s.store[h];
      assert p in Contents(s, h);
    }
  }

  /** A cache the app destroys is gone, and the table has no entry for it, whoever was using it. */
  lemma EntryDropped(tr: seq<State>, es: seq<Event>, k: nat)
    requires IsRun(tr, es) && k < |es| && es[k].AppDestroy?
    ensures es[k].h !in tr[k + 1].store && !HasEntry(tr[k + 1].app, es[k].h)
    ensures forall x :: x in tr[k].store && x != es[k].h ==> x in tr[k + 1].store && tr[k + 1].store[x] == tr[k].store[x]
  {
    assert Next(tr[k], es[k], tr[k + 1]);
    TablesInBounds(tr, es, k);
    RunKeeps(tr, es, k);
    assert es[k].h != NULL;
    hide ScratchInv;
    assert tr[k + 1].app == Forget(tr[k].app, es[k].h);
  }

  /** A batch whose cache lost its entry, because the app destroyed it meanwhile, reads no cache and changes no row. */
  lemma NoEntryNoHarvest(tr: seq<State>, es: seq<Event>, k: nat)
    requires IsRun(tr, es) && k < |es| && es[k].BatchFinish? && es[k].b in tr[k].batches
    requires var bt := tr[k].batches[es[k].b]; bt.app != NULL && !HasEntry(tr[k].app, bt.app)
    ensures tr[k + 1].touched == {} && tr[k + 1].dc == tr[k].dc && tr[k + 1].destroyed == tr[k].destroyed
  {
    assert Next(tr[k], es[k], tr[k + 1]);
    RunKeeps(tr, es, k);
    ShapeOf(tr[k], es[k].b);
    hide ScratchInv, Save, Drain, Merge;
    assert LookupApp(tr[k].app, tr[k].batches[es[k].b].app) == |tr[k].app|;
  }

  /**
    A destroyed device leaves no row, and its master and queued caches are freed; every other cache
    holds what it held. It needs nothing of the batches still in flight.
   */
  lemma DestroyFrees(tr: seq<State>, es: seq<Event>, k: nat, i: nat)
    requires IsRun(tr, es) && k < |es| && es[k].DeviceDestroy? && RowOf(tr[k], es[k].dev, i)
    ensures RowFreed(tr[k], es[k].dev, i, tr[k + 1])
  {
    var s, e, t := tr[k], es[k], tr[k + 1];
    assert Next(s, e, t);
    TablesInBounds(tr, es, k);
    RunKeeps(tr, es, k);
    RunKeeps(tr, es, k + 1);
    hide ScratchInv, RowsOk, RowFreed, Next, IsRun, Drop;
    DropStep(s, e, t, i);
    DropFrees(s, e.dev, i, e.save, t);
  }

  lemma DropFrees(s: State, dev: Device, i: nat, save: bool, t: State)
    requires ScratchInv(s) && ScratchInv(t) && RowsOk(s.dc) && RowOf(s, dev, i) && dev != NULL && t == Drop(s.(touched := {}), i, save)
    ensures RowFreed(s, dev, i, t)
  {
    hide ScratchInv, RowsOk, RowFreed, Drop;
    var s0 := s.(touched := {});
    DropRows(s0, i, save);
    DropStore(s0, i, save);
    FreedOnce(s, s0, i, save, t);
    WipedRow(s, dev, i, t);
  }

  /** From s to t row i is gone, its master and its queued caches are freed, and the other caches stay. */
  ghost predicate RowFreed(s: State, dev: Device, i: nat, t: State)
    requires i < |s.dc|
  {
    && NoRow(t, dev) && s.dc[i].pc !in t.store
    && (forall x :: x in s.dc[i].pending ==> x !in t.store && t.destroyed[x] == 1)
    && (forall x :: x in s.store && x != s.dc[i].pc && x !in s.dc[i].pending ==> x in t.store && t.store[x] == s.store[x])
  }

  lemma DropStep(s: State, e: Event, t: State, i: nat)
    requires Next(s, e, t) && e.DeviceDestroy? && RowsOk(s.dc) && RowOf(s, e.dev, i)
    ensures t == Drop(s.(touched := {}), i, e.save) && e.dev != NULL
  {
    RowIs(s, e.dev, i);
    hide Drop, RowsOk;
  }

  lemma WipedRow(s: State, dev: Device, i: nat, t: State)
    requires RowsOk(s.dc) && RowOf(s, dev, i) && dev != NULL && t.dc == s.dc[i := EMPTY_SLOT]
    requires s.dc[i].pc !in t.store && forall x :: x in s.dc[i].pending ==> x !in t.store && t.destroyed[x] == 1
    requires forall x :: x in s.store && x != s.dc[i].pc && x !in s.dc[i].pending ==> x in t.store && t.store[x] == s.store[x]
    ensures RowFreed(s, dev, i, t)
  {
  }

  lemma FreedOnce(s: State, s0: State, i: nat, save: bool, t: State)
    requires ScratchInv(s) && ScratchInv(t) && i < |s.dc| && s0 == s.(touched := {}) && t == Drop(s0, i, save)
    ensures forall x :: x in s.dc[i].pending ==> t.destroyed[x] == 1
  {
    QueuedHere(s, i);
    DropRoles(s0, i, save, t);
    hide Drop, Shape, HoldersAgree;
    forall x | x in s.dc[i].pending
      ensures t.destroyed[x] == 1
    {
      assert At(s, x, Queued(i)) && PlaceHolds(t, x, t.role[x].place);
    }
  }

  lemma DropRoles(s: State, i: nat, save: bool, t: State)
    requires i < |s.dc| && t == Drop(s, i, save)
    ensures forall x :: x in s.dc[i].pending && x in s.role ==> x in t.role && t.role[x] == Scratch(Destroyed)
  {
    DrainFrame(s, i, Drain(s, i));
    hide Drain;
  }

  lemma DropStore(s: State, i: nat, save: bool)
    requires i < |s.dc|
    ensures s.dc[i].pc !in Drop(s, i, save).store
    ensures forall x :: x in s.dc[i].pending ==> x !in Drop(s, i, save).store
    ensures forall x :: x in s.store && x != s.dc[i].pc && x !in s.dc[i].pending ==>
              x in Drop(s, i, save).store && Drop(s, i, save).store[x] == s.store[x]
  {
    var d := Drain(s, i);
    QueuedGone(s, i, d);
    DrainFrame(s, i, d);
  }

  /** A device created under a recycled handle starts without a row, and no cache is freed, read or changed. */
  lemma RecycleTouchesNothing(tr: seq<State>, es: seq<Event>, k: nat)
    requires IsRun(tr, es) && k < |es| && es[k].DeviceCreate?
    ensures NoRow(tr[k + 1], es[k].dev) && tr[k + 1].store == tr[k].store
    ensures tr[k + 1].destroyed == tr[k].destroyed && tr[k + 1].touched == {}
    ensures forall i :: 0 <= i < |tr[k].dc| && tr[k].dc[i].dev != es[k].dev ==> tr[k + 1].dc[i] == tr[k].dc[i]
  {
    assert Next(tr[k], es[k], tr[k + 1]);
    TablesInBounds(tr, es, k);
    TablesInBounds(tr, es, k + 1);
    hide Mark;
  }

  // ---- the touched set is complete ---------------------------------------------

  /** What t does not list as touched it neither removed nor changed. */
  ghost predicate Accounted(s: State, t: State) {
    s.touched <= t.touched && forall x :: x in s.store && x !in t.touched ==> x in t.store && t.store[x] == s.store[x]
  }

  lemma AccountedTwice(s: State, m: State, t: State)
    requires Accounted(s, m) && Accounted(m, t)
    ensures Accounted(s, t)
  {
  }

  lemma MergeAccounted(s: State, dst: Handle, srcs: seq<Handle>)
    ensures Accounted(s, Merge(s, dst, srcs))
  {
  }

  lemma FoldAccounted(s: State, i: nat, save: bool)
    requires i < |s.dc|
    ensures |Drain(s, i).dc| == |s.dc| && Accounted(s, Save(Drain(s, i), i, save))
  {
    FoldRows(s, i, save);
    DrainAccounted(s, i);
    hide Drain;
  }

  lemma DrainAccounted(s: State, i: nat)
    requires i < |s.dc|
    ensures Accounted(s, Drain(s, i))
  {
    hide Held, Mark;
  }

  lemma MergeFoldAccounted(s: State, i: nat, src: Handle, save: bool)
    requires i < |s.dc|
    ensures |Drain(Merge(s, s.dc[i].pc, [src]), i).dc| == |s.dc|
    ensures Accounted(s, Save(Drain(Merge(s, s.dc[i].pc, [src]), i), i, save))
  {
    var m := Merge(s, s.dc[i].pc, [src]);
    MergeAccounted(s, s.dc[i].pc, [src]);
    FoldAccounted(m, i, save);
    hide Accounted, Drain, Save;
    AccountedTwice(s, m, Save(Drain(m, i), i, save));
  }

  lemma FinishAccounted(s: State, b: BatchId, made: set<Pipeline>, harvest: bool, save: bool)
    requires b in s.batches && NULL !in s.store && BatchShape(s.batches[b])
    ensures Accounted(Compiled(s, b, made), Finish(s, b, made, harvest, save))
  {
    hide Drain, Save, Merge, Unref;
    var bt, c := s.batches[b], Compiled(s, b, made);
    var i := Lookup(s.dc, bt.dev);
    if i < |s.dc| {
      if bt.ownMaster {
        FoldAccounted(Earn(c.(batches := s.batches - {b}, dc := s.dc[i := s.dc[i].(masterInUse := false)]), i, made), i, save);
      } else if bt.app != NULL {
        MergeFoldAccounted(c.(batches := s.batches - {b}, app := if bt.tracked then Unref(s.app, bt.app).0 else s.app), i, bt.app, save);
      } else if bt.scratch != NULL {
        MergeFoldAccounted(Earn(c.(batches := s.batches[b := bt.(phase := Leaving)]), i, made), i, bt.scratch, save);
      }
    }
  }

  lemma DropAccounted(s: State, i: nat, save: bool)
    requires i < |s.dc| && NULL !in s.store
    ensures Accounted(s, Drop(s, i, save))
  {
    FoldRows(s, i, save);
    FoldAccounted(s, i, save);
    hide Drain, Save;
  }

  /** The state the step starts from: touched is cleared, and a compile that returns has filled its cache. */
  ghost function Before(s: State, e: Event): State {
    if e.BatchFinish? && e.b in s.batches then Compiled(s.(touched := {}), e.b, e.made) else s.(touched := {})
  }

  /**
    The touched set leaves nothing out, in every run: a cache that a step does not list is still there and
    holds what it held, except that the cache a finishing batch compiled into has gained its pipelines.
   */
  lemma TouchedIsComplete(tr: seq<State>, es: seq<Event>, k: nat, x: Handle)
    requires IsRun(tr, es) && k < |es| && x in tr[k].store && x !in tr[k + 1].touched
    ensures x in tr[k + 1].store
    ensures tr[k + 1].store[x] == tr[k].store[x]
         || (es[k].BatchFinish? && es[k].b in tr[k].batches && x == tr[k].batches[es[k].b].into
             && tr[k + 1].store[x] == tr[k].store[x] + es[k].made)
  {
    RunKeeps(tr, es, k);
    assert Next(tr[k], es[k], tr[k + 1]);
    hide ScratchInv, Accounted, Next;
    StepAccounted(tr[k], es[k], tr[k + 1]);
    assert x in Before(tr[k], es[k]).store;
    assert x in tr[k + 1].store && tr[k + 1].store[x] == Before(tr[k], es[k]).store[x] by {
      assert Accounted(Before(tr[k], es[k]), tr[k + 1]);
    }
  }

  lemma StepAccounted(s: State, e: Event, t: State)
    requires ScratchInv(s) && Next(s, e, t)
    ensures Accounted(Before(s, e), t)
  {
    var s0 := s.(touched := {});
    assert NULL !in s.store && s.next !in s.store;
    if e.BatchFinish? {
      ShapeOf(s, e.b);
      hide ScratchInv, Finish, Accounted;
      FinishAccounted(s0, e.b, e.made, e.harvest, e.save);
    } else if e.DeviceDestroy? {
      hide ScratchInv, Drop, Accounted;
      DroppedAccounted(s, e, t, s0);
    } else if e.AppCreate? {
      hide ScratchInv, Prime;
      CreateAccounted(s, e, t, s0);
    } else {
      hide ScratchInv, Finish, Prime, Drop;
      OtherAccounted(s, e, t, s0);
    }
  }

  lemma DroppedAccounted(s: State, e: Event, t: State, s0: State)
    requires Next(s, e, t) && e.DeviceDestroy? && s0 == s.(touched := {}) && NULL !in s.store
    ensures Accounted(s0, t)
  {
    var i := Lookup(s.dc, e.dev);
    hide Drop;
    if i < |s.dc| {
      DropAccounted(s0, i, e.save);
    }
  }

  lemma CreateAccounted(s: State, e: Event, t: State, s0: State)
    requires Next(s, e, t) && e.AppCreate? && s0 == s.(touched := {}) && Shape(s)
    ensures Accounted(s0, t)
  {
    var n := NewApp(s0, e.initial);
    assert s.next !in s.store && n.next !in n.store;
    assert Accounted(s0, n);
    hide Shape, Prime, Accounted;
    if e.primeOn {
      PrimeAccounted(n, s.next, e.dev, e.createOk, e.primed);
      hide NewApp;
      AccountedTwice(s0, n, Prime(n, s.next, e.dev, e.createOk, e.primed));
    }
  }

  lemma PrimeAccounted(s: State, h: Handle, dev: Device, ok: bool, primed: set<Pipeline>)
    requires s.next !in s.store
    ensures Accounted(s, Prime(s, h, dev, ok, primed))
  {
    var m := Ensure(s, dev, ok, primed);
    EnsureObjects(s, dev, ok, primed, m);
    assert Accounted(s, m);
    var i := Lookup(m.dc, dev);
    hide Ensure, Merge, Accounted;
    if i < |m.dc| {
      MergeAccounted(m, h, [m.dc[i].pc]);
      AccountedTwice(s, m, Merge(m, h, [m.dc[i].pc]));
    }
  }

  lemma OtherAccounted(s: State, e: Event, t: State, s0: State)
    requires Next(s, e, t) && !e.BatchFinish? && !e.DeviceDestroy? && !e.AppCreate? && s0 == s.(touched := {}) && s.next !in s.store
    ensures Accounted(s0, t)
  {
    if e.BatchBegin? {
      EnsureObjects(s0, e.dev, e.createOk, e.primed, Ensure(s0, e.dev, e.createOk, e.primed));
      hide Ensure, Ref;
    } else if e.AppMerge? {
      MergeAccounted(s0, e.dst, e.srcs);
    } else {
      hide Mark, Forget;
    }
  }
}
