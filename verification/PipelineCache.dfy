/**
  The pipeline-cache protocol of the Vulkan shim, as a state machine whose steps are the
  sections that run under cache_mu (and the few driver calls made outside it).

  A batch is two locked sections, BatchBegin and BatchFinish, with an unlocked compile between
  them, so every interleaving of the steps below is an interleaving of the real threads.
 */
module PipelineCache {
  type Handle = nat
  type Device = nat
  type Pipeline = nat
  type BatchId = nat

  const NULL: nat := 0
  const PENDING_MAX: nat := 8
  const DEV_CACHE_MAX: nat := 4
  const APP_CACHE_MAX: nat := 16

  /** One row of the per-device table: the master cache, its busy flag and the merge queue. */
  datatype DevCache = DevCache(dev: Device, pc: Handle, masterInUse: bool, pending: seq<Handle>)

  /** One row of the table of app-supplied caches that some batch is compiling into. */
  datatype AppEntry = AppEntry(pc: Handle, n: nat)

  const EMPTY_SLOT := DevCache(NULL, NULL, false, [])
  const EMPTY_ENTRY := AppEntry(NULL, 0)

  datatype Phase =
    | Opened     // first locked section done, no scratch cache yet
    | Compiling  // the driver is compiling into `into`, no lock held
    | Leaving    // second locked section done, a scratch cache still to be freed

  datatype Batch = Batch(dev: Device, app: Handle, ownMaster: bool, tracked: bool,
                         into: Handle, scratch: Handle, phase: Phase)

  datatype Place = InBatch(b: BatchId) | Queued(i: nat) | Destroyed | Abandoned

  /** What a cache object was created as; for a scratch cache, also where it is now. */
  datatype Role = Master | AppMade | Scratch(place: Place)

  /**
    The shim's two tables and the in-flight batches, together with the driver's side: the live
    cache objects and what they hold (store). role, destroyed, touched and earned are history:
    what each object was made as, how often each was passed to vkDestroyPipelineCache, which
    objects the last step merged, serialised or destroyed, and which pipelines each device's
    table row owes to its finished batches.
   */
  datatype State = State(dc: seq<DevCache>, app: seq<AppEntry>, store: map<Handle, set<Pipeline>>,
                         next: Handle, role: map<Handle, Role>, batches: map<BatchId, Batch>,
                         destroyed: multiset<Handle>, touched: set<Handle>,
                         earned: map<Device, set<Pipeline>>)

  function Init(): State {
    State(seq(DEV_CACHE_MAX, i => EMPTY_SLOT), seq(APP_CACHE_MAX, i => EMPTY_ENTRY),
          map[], 1, map[], map[], multiset{}, {}, map[])
  }

  // ---- the two tables --------------------------------------------------------

  /** Index of the first row at or after `from` that belongs to dev; |t| when there is none. */
  function Lookup(t: seq<DevCache>, dev: Device, from: nat := 0): (i: nat)
    requires from <= |t|
    ensures from <= i <= |t|
    ensures i < |t| ==> t[i].dev == dev
    ensures forall k :: from <= k < i ==> t[k].dev != dev
    decreases |t| - from
  {
    if from == |t| || t[from].dev == dev then from else Lookup(t, dev, from + 1)
  }

  /** Index of the first entry at or after `from` that names pc; |t| when there is none. */
  function LookupApp(t: seq<AppEntry>, pc: Handle, from: nat := 0): (i: nat)
    requires from <= |t|
    ensures from <= i <= |t|
    ensures i < |t| ==> t[i].pc == pc
    ensures forall k :: from <= k < i ==> t[k].pc != pc
    decreases |t| - from
  {
    if from == |t| || t[from].pc == pc then from else LookupApp(t, pc, from + 1)
  }

  /** Find the device's row, or give it the first free one; |t| when the table is full. */
  function Claim(t: seq<DevCache>, dev: Device): (r: (seq<DevCache>, nat))
  {
    var i := Lookup(t, dev);
    if i < |t| then (t, i) else
    var j := Lookup(t, NULL);
    if j < |t| then (t[j := DevCache(dev, NULL, false, [])], j) else (t, |t|)
  }

  function Ref(t: seq<AppEntry>, pc: Handle): (r: (seq<AppEntry>, bool))
  {
    var i := LookupApp(t, pc);
    if i < |t| then (t[i := AppEntry(pc, t[i].n + 1)], true) else
    var j := LookupApp(t, NULL);
    if j < |t| then (t[j := AppEntry(pc, 1)], true) else (t, false)
  }

  /** Drops one use of pc; the flag says that this was its last user. */
  function Unref(t: seq<AppEntry>, pc: Handle): (r: (seq<AppEntry>, bool))
  {
    var i := LookupApp(t, pc);
    if i == |t| then (t, false)
    else if t[i].n <= 1 then (t[i := EMPTY_ENTRY], true)
    else (t[i := AppEntry(pc, t[i].n - 1)], false)
  }

  function Forget(t: seq<AppEntry>, pc: Handle): (r: seq<AppEntry>)
  {
    var i := LookupApp(t, pc);
    if i < |t| then t[i := EMPTY_ENTRY] else t
  }

  // ---- driver operations -----------------------------------------------------

  function Elems(q: seq<Handle>): set<Handle> {
    set h | h in q
  }

  /** Everything held by the caches in q. */
  function Held(store: map<Handle, set<Pipeline>>, q: seq<Handle>): set<Pipeline> {
    set h, p | h in q && h in store && p in store[h] :: p
  }

  function Mark(role: map<Handle, Role>, hs: set<Handle>, p: Place): (r: map<Handle, Role>)
    ensures r.Keys == role.Keys
  {
    map h | h in role :: if h in hs then Scratch(p) else role[h]
  }

  /** vkMergePipelineCaches: reads srcs, writes dst. */
  function Merge(s: State, dst: Handle, srcs: seq<Handle>): State {
    s.(store := if dst in s.store then s.store[dst := s.store[dst] + Held(s.store, srcs)] else s.store,
       touched := s.touched + {dst} + Elems(srcs))
  }

  /** save_disk_cache: whether it serialises depends on the clock, the size and the file system. */
  function Save(s: State, i: nat, save: bool): State
    requires i < |s.dc|
  {
    if save && s.dc[i].pc != NULL then s.(touched := s.touched + {s.dc[i].pc}) else s
  }

  /** drain_pending: fold the queue into the master and free the queued caches. */
  function Drain(s: State, i: nat): State
    requires i < |s.dc|
  {
    var c := s.dc[i];
    var q := c.pending;
    if q == [] then s else
    var m := if c.pc != NULL then Merge(s, c.pc, q) else s;
    m.(dc := s.dc[i := c.(pending := [])],
       store := m.store - Elems(q),
       role := Mark(s.role, Elems(q), Destroyed),
       destroyed := s.destroyed + multiset(q),
       touched := m.touched + Elems(q))
  }

  /** ensure_disk_cache: claim a row and create the master, primed from disk, if it has none. */
  function Ensure(s: State, dev: Device, ok: bool, primed: set<Pipeline>): State
  {
    var (dc1, i) := Claim(s.dc, dev);
    var s1 := s.(dc := dc1, earned := if Lookup(s.dc, dev) == |s.dc| then s.earned[dev := {}] else s.earned);
    if i == |dc1| || dc1[i].pc != NULL || !ok then s1 else
    s1.(dc := dc1[i := dc1[i].(pc := s.next)], store := s.store[s.next := primed],
        role := s.role[s.next := Master], next := s.next + 1)
  }

  // ---- the steps -------------------------------------------------------------

  datatype Event =
    | BatchBegin(b: BatchId, dev: Device, app: Handle, createOk: bool, primed: set<Pipeline>)
    | BatchScratch(b: BatchId, createOk: bool)
    | BatchFinish(b: BatchId, made: set<Pipeline>, harvest: bool, save: bool)
    | BatchLeave(b: BatchId)
    | AppCreate(dev: Device, primeOn: bool, createOk: bool, primed: set<Pipeline>, initial: set<Pipeline>)
    | AppMerge(dst: Handle, srcs: seq<Handle>)
    | AppSerialise(h: Handle)
    | AppDestroy(h: Handle)
    | DeviceDestroy(dev: Device, save: bool)
    | DeviceCreate(dev: Device)

  function Begin(s: State, b: BatchId, dev: Device, app: Handle, ok: bool, primed: set<Pipeline>): State
  {
    var s1 := Ensure(s, dev, ok, primed);
    var i := Lookup(s1.dc, dev);
    var (app1, tracked) := if app != NULL then Ref(s1.app, app) else (s1.app, false);
    if app == NULL && i < |s1.dc| && s1.dc[i].pc != NULL && !s1.dc[i].masterInUse then
      s1.(dc := s1.dc[i := s1.dc[i].(masterInUse := true)],
          batches := s1.batches[b := Batch(dev, NULL, true, false, s1.dc[i].pc, NULL, Opened)])
    else
      s1.(app := app1, batches := s1.batches[b := Batch(dev, app, false, tracked, app, NULL, Opened)])
  }

  function MakeScratch(s: State, b: BatchId, ok: bool): State
    requires b in s.batches
  {
    var bt := s.batches[b];
    if !bt.ownMaster && bt.app == NULL && ok then
      s.(batches := s.batches[b := bt.(into := s.next, scratch := s.next, phase := Compiling)],
         store := s.store[s.next := {}], role := s.role[s.next := Scratch(InBatch(b))], next := s.next + 1)
    else
      s.(batches := s.batches[b := bt.(phase := Compiling)])
  }

  /** The compile returns: its pipelines are in the cache it was given, if that still exists. */
  function Compiled(s: State, b: BatchId, made: set<Pipeline>): State
    requires b in s.batches
  {
    var h := s.batches[b].into;
    s.(store := if h in s.store then s.store[h := s.store[h] + made] else s.store)
  }

  function Earn(s: State, i: nat, made: set<Pipeline>): State
    requires i < |s.dc|
  {
    var d := s.dc[i].dev;
    s.(earned := s.earned[d := (if d in s.earned then s.earned[d] else {}) + made])
  }

  function FinishOwner(s: State, b: BatchId, made: set<Pipeline>, save: bool): State
    requires b in s.batches
  {
    var s0 := Compiled(s, b, made).(batches := s.batches - {b});
    var i := Lookup(s.dc, s.batches[b].dev);
    if i == |s.dc| then s0 else
    var s1 := s0.(dc := s0.dc[i := s0.dc[i].(masterInUse := false)]);
    Save(Drain(Earn(s1, i, made), i), i, save)
  }

  function FinishApp(s: State, b: BatchId, made: set<Pipeline>, harvest: bool, save: bool): State
    requires b in s.batches
  {
    var bt := s.batches[b];
    var (app1, last) := if bt.tracked then Unref(s.app, bt.app) else (s.app, false);
    var s0 := Compiled(s, b, made).(batches := s.batches - {b}, app := app1);
    var i := Lookup(s.dc, bt.dev);
    if last && harvest && i < |s.dc| && !s.dc[i].masterInUse && s.dc[i].pc != NULL then
      Save(Drain(Merge(s0, s.dc[i].pc, [bt.app]), i), i, save)
    else s0
  }

  function FinishScratch(s: State, b: BatchId, made: set<Pipeline>, save: bool): State
    requires b in s.batches
  {
    var bt := s.batches[b];
    var s0 := Compiled(s, b, made);
    var i := Lookup(s.dc, bt.dev);
    var leave := s0.(batches := s.batches[b := bt.(phase := Leaving)]);
    if i < |s.dc| && !s.dc[i].masterInUse && s.dc[i].pc != NULL then
      Save(Drain(Merge(Earn(leave, i, made), s.dc[i].pc, [bt.scratch]), i), i, save)
    else if i < |s.dc| && |s.dc[i].pending| < PENDING_MAX then
      Earn(s0.(dc := s.dc[i := s.dc[i].(pending := s.dc[i].pending + [bt.scratch])],
               role := Mark(s.role, {bt.scratch}, Queued(i)),
               batches := s.batches - {b}), i, made)
    else leave
  }

  function Finish(s: State, b: BatchId, made: set<Pipeline>, harvest: bool, save: bool): State
    requires b in s.batches
  {
    var bt := s.batches[b];
    if bt.ownMaster then FinishOwner(s, b, made, save)
    else if bt.app != NULL then FinishApp(s, b, made, harvest, save)
    else if bt.scratch != NULL then FinishScratch(s, b, made, save)
    else s.(batches := s.batches - {b})
  }

  function Leave(s: State, b: BatchId): State
    requires b in s.batches
  {
    var h := s.batches[b].scratch;
    s.(batches := s.batches - {b}, store := s.store - {h}, role := Mark(s.role, {h}, Destroyed),
       destroyed := s.destroyed + multiset{h}, touched := {h})
  }

  /** The driver creates the app's cache, with the initial data the app passes. */
  function NewApp(s: State, initial: set<Pipeline>): State {
    s.(store := s.store[s.next := initial], role := s.role[s.next := AppMade], next := s.next + 1)
  }

  /** vkCreatePipelineCache: the app's new cache h is given what the master holds. */
  function Prime(s: State, h: Handle, dev: Device, ok: bool, primed: set<Pipeline>): State
  {
    var s1 := Ensure(s, dev, ok, primed);
    var i := Lookup(s1.dc, dev);
    if i < |s1.dc| && s1.dc[i].pc != NULL && !s1.dc[i].masterInUse then Merge(s1, h, [s1.dc[i].pc]) else s1
  }

  /** drop_disk_cache on a live device: drain, save, free the master, wipe the row. */
  function Drop(s: State, i: nat, save: bool): State
    requires i < |s.dc|
  {
    var s1 := Save(Drain(s, i), i, save);
    var m := s.dc[i].pc;
    s1.(dc := s1.dc[i := EMPTY_SLOT], store := s1.store - {m}, earned := s1.earned - {s.dc[i].dev},
        touched := s1.touched + (if m != NULL then {m} else {}))
  }

  /** drop_disk_cache on a recycled handle: the row is wiped and its caches are never touched. */
  function AbandonRow(s: State, i: nat): State
    requires i < |s.dc|
  {
    s.(dc := s.dc[i := EMPTY_SLOT], role := Mark(s.role, Elems(s.dc[i].pending), Abandoned),
       earned := s.earned - {s.dc[i].dev})
  }

  function Step(s: State, e: Event): State
    requires e.BatchScratch? || e.BatchFinish? || e.BatchLeave? ==> e.b in s.batches
  {
    var s := s.(touched := {});
    match e
    case BatchBegin(b, dev, app, ok, primed) => Begin(s, b, dev, app, ok, primed)
    case BatchScratch(b, ok) => MakeScratch(s, b, ok)
    case BatchFinish(b, made, harvest, save) => Finish(s, b, made, harvest, save)
    case BatchLeave(b) => Leave(s, b)
    case AppCreate(dev, primeOn, ok, primed, initial) =>
      if primeOn then Prime(NewApp(s, initial), s.next, dev, ok, primed) else NewApp(s, initial)
    case AppMerge(dst, srcs) => Merge(s, dst, srcs)
    case AppSerialise(h) => s.(touched := {h})
    case AppDestroy(h) =>
      s.(app := Forget(s.app, h), store := s.store - {h}, touched := {h})
    case DeviceDestroy(dev, save) =>
      var i := Lookup(s.dc, dev); if i < |s.dc| then Drop(s, i, save) else s
    case DeviceCreate(dev) =>
      var i := Lookup(s.dc, dev); if i < |s.dc| then AbandonRow(s, i) else s
  }

  /** A cache the app made and has not destroyed: the only kind it can name in a call. */
  predicate AppHolds(s: State, h: Handle) {
    h in s.role && s.role[h].AppMade? && h in s.store
  }

  predicate AllHeld(s: State, hs: seq<Handle>) {
    forall h :: h in hs ==> AppHolds(s, h)
  }

  /** What the callers guarantee: call order within a batch, and handles that are theirs to pass. */
  predicate Enabled(s: State, e: Event) {
    match e
    case BatchBegin(b, dev, app, _, _) => b !in s.batches && dev != NULL && (app == NULL || AppHolds(s, app))
    case BatchScratch(b, _) => b in s.batches && s.batches[b].phase.Opened?
    case BatchFinish(b, _, _, _) => b in s.batches && s.batches[b].phase.Compiling?
    case BatchLeave(b) => b in s.batches && s.batches[b].phase.Leaving?
    case AppCreate(dev, _, _, _, _) => dev != NULL
    case AppMerge(dst, srcs) => AppHolds(s, dst) && AllHeld(s, srcs)
    case AppSerialise(h) => AppHolds(s, h)
    case AppDestroy(h) => AppHolds(s, h)
    case DeviceDestroy(dev, _) => dev != NULL
    case DeviceCreate(dev) => dev != NULL
  }

  /** No device is destroyed, and no handle recycled, under a batch that is still compiling on it. */
  predicate Calm(s: State, e: Event) {
    e.DeviceDestroy? || e.DeviceCreate? ==>
      forall b :: b in s.batches && s.batches[b].dev == e.dev ==> s.batches[b].phase.Leaving?
  }

  /** The app does not merge, serialise or destroy a cache of its own that one of its batches is using. */
  predicate Polite(s: State, e: Event) {
    match e
    case AppMerge(dst, srcs) => !AppBusy(s, dst) && NoneBusy(s, srcs)
    case AppSerialise(h) => !AppBusy(s, h)
    case AppDestroy(h) => !AppBusy(s, h)
    case _ => true
  }

  /** Every cache the driver is asked to create is created. */
  predicate CreatesSucceed(e: Event) {
    e.BatchBegin? || e.BatchScratch? || e.AppCreate? ==> e.createOk
  }

  predicate AppBusy(s: State, h: Handle) {
    exists b :: b in s.batches && s.batches[b].app == h && !s.batches[b].phase.Leaving?
  }

  predicate NoneBusy(s: State, hs: seq<Handle>) {
    forall h :: h in hs ==> !AppBusy(s, h)
  }

  /** Batch b has handed cache h to the driver, or is about to, and has not come back. */
  predicate Uses(s: State, b: BatchId, h: Handle) {
    b in s.batches && !s.batches[b].phase.Leaving? && h != NULL && s.batches[b].into == h
  }

  predicate Next(s: State, e: Event, t: State) {
    Enabled(s, e) && t == Step(s, e)
  }

  /** A run: states joined by enabled steps, from the empty tables. */
  ghost predicate IsRun(tr: seq<State>, es: seq<Event>) {
    && |tr| == |es| + 1
    && tr[0] == Init()
    && forall k :: 0 <= k < |es| ==> Next(tr[k], es[k], tr[k + 1])
  }
}
