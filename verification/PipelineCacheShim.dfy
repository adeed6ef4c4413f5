/**
  The shim's own code for the pipeline-cache protocol: two fixed tables scanned and updated in
  place, and the driver calls made around them. Each method is one section under cache_mu (or one
  driver call outside it) and is proved to take exactly the step of the state machine.
 */
module PipelineCacheShim {
  import opened PipelineCache

  class Shim {
    const devCaches: array<DevCache>
    const appInflight: array<AppEntry>
    var batches: map<BatchId, Batch>  // the locals of each compile_batch call in flight
    var next: Handle                  // the driver's next handle
    ghost var store: map<Handle, set<Pipeline>>
    ghost var role: map<Handle, Role>
    ghost var destroyed: multiset<Handle>
    ghost var touched: set<Handle>
    ghost var earned: map<Device, set<Pipeline>>

    ghost predicate Valid()
      reads this
    {
      devCaches.Length == DEV_CACHE_MAX && appInflight.Length == APP_CACHE_MAX
    }

    ghost function Abs(): State
      reads this, devCaches, appInflight
    {
      State(devCaches[..], appInflight[..], store, next, role, batches, destroyed, touched, earned)
    }

    constructor ()
      ensures Valid() && fresh(devCaches) && fresh(appInflight)
      ensures Abs() == Init()
    {
      devCaches := new DevCache[DEV_CACHE_MAX](i => EMPTY_SLOT);
      appInflight := new AppEntry[APP_CACHE_MAX](i => EMPTY_ENTRY);
      store, next, role, batches := map[], 1, map[], map[];
      destroyed, touched, earned := multiset{}, {}, map[];
      new;
      assert devCaches[..] == Init().dc && appInflight[..] == Init().app;
    }

    /** cache_lookup: the row that belongs to dev, or the table's length. */
    method CacheLookup(dev: Device) returns (i: nat)
      requires Valid()
      ensures i == Lookup(devCaches[..], dev)
    {
      i := 0;
      while i < devCaches.Length && devCaches[i].dev != dev
        invariant i <= devCaches.Length
        invariant Lookup(devCaches[..], dev) == Lookup(devCaches[..], dev, i)
      {
        i := i + 1;
      }
    }

    /** cache_claim: find or take a row; the newest device goes without when the table is full. */
    method CacheClaim(dev: Device) returns (i: nat)
      requires Valid()
      modifies this`earned, devCaches
      ensures (devCaches[..], i) == Claim(old(devCaches[..]), dev)
      ensures earned == if Lookup(old(devCaches[..]), dev) == DEV_CACHE_MAX then old(earned)[dev := {}] else old(earned)
    {
      i := CacheLookup(dev);
      if i == devCaches.Length {
        earned := earned[dev := {}];
        i := CacheLookup(NULL);
        if i < devCaches.Length {
          devCaches[i] := DevCache(dev, NULL, false, []);
        }
      }
    }

    /** app_cache_ref: false when the table has no room, in which case the cache must not be harvested. */
    method AppCacheRef(pc: Handle) returns (tracked: bool)
      requires Valid()
      modifies appInflight
      ensures (appInflight[..], tracked) == Ref(old(appInflight[..]), pc)
    {
      var i := AppLookup(pc);
      if i < appInflight.Length {
        appInflight[i] := AppEntry(pc, appInflight[i].n + 1);
        return true;
      }
      i := AppLookup(NULL);
      if i < appInflight.Length {
        appInflight[i] := AppEntry(pc, 1);
        return true;
      }
      tracked := false;
    }

    /** app_cache_unref: true when this was the last in-flight user, that is when reading pc is safe. */
    method AppCacheUnref(pc: Handle) returns (last: bool)
      requires Valid()
      modifies appInflight
      ensures (appInflight[..], last) == Unref(old(appInflight[..]), pc)
    {
      var i := AppLookup(pc);
      if i == appInflight.Length {
        return false;
      }
      last := appInflight[i].n <= 1;
      appInflight[i] := if last then EMPTY_ENTRY else AppEntry(pc, appInflight[i].n - 1);
    }

    method AppLookup(pc: Handle) returns (i: nat)
      requires Valid()
      ensures i == LookupApp(appInflight[..], pc)
    {
      i := 0;
      while i < appInflight.Length && appInflight[i].pc != pc
        invariant i <= appInflight.Length
        invariant LookupApp(appInflight[..], pc) == LookupApp(appInflight[..], pc, i)
      {
        i := i + 1;
      }
    }

    /** vkMergePipelineCaches. */
    method MergeCaches(dst: Handle, srcs: seq<Handle>)
      modifies this`store, this`touched
      ensures Abs() == Merge(old(Abs()), dst, srcs)
    {
      if dst in store {
        store := store[dst := store[dst] + Held(store, srcs)];
      }
      touched := touched + {dst} + Elems(srcs);
    }

    /** drain_pending: one merge of the whole queue, then one destroy per queued cache. */
    method DrainPending(i: nat)
      requires Valid() && i < devCaches.Length
      modifies this`store, this`touched, this`role, this`destroyed, devCaches
      ensures Abs() == Drain(old(Abs()), i)
    {
      var c := devCaches[i];
      if c.pending == [] {
        return;
      }
      if c.pc != NULL {
        MergeCaches(c.pc, c.pending);
      }
      DestroyAll(c.pending);
      devCaches[i] := c.(pending := []);
    }

    /** vkDestroyPipelineCache on each cache of q in turn. */
    method DestroyAll(q: seq<Handle>)
      modifies this`store, this`touched, this`role, this`destroyed
      ensures store == old(store) - Elems(q) && role == Mark(old(role), Elems(q), Destroyed)
      ensures destroyed == old(destroyed) + multiset(q) && touched == old(touched) + Elems(q)
    {
      var k := 0;
      while k < |q|
        invariant k <= |q| && store == old(store) - Elems(q[..k])
        invariant role == Mark(old(role), Elems(q[..k]), Destroyed)
        invariant destroyed == old(destroyed) + multiset(q[..k]) && touched == old(touched) + Elems(q[..k])
      {
        assert q[..k + 1] == q[..k] + [q[k]];
        assert Elems(q[..k + 1]) == Elems(q[..k]) + {q[k]};
        MarkTwice(old(role), Elems(q[..k]), {q[k]}, Destroyed);
        store := store - {q[k]};
        role := Mark(role, {q[k]}, Destroyed);
        destroyed := destroyed + multiset{q[k]};
        touched := touched + {q[k]};
        k := k + 1;
      }
      assert q[..|q|] == q;
    }

    method SaveDiskCache(i: nat, save: bool)
      requires Valid() && i < devCaches.Length
      modifies this`touched
      ensures Abs() == Save(old(Abs()), i, save)
    {
      if save && devCaches[i].pc != NULL {
        touched := touched + {devCaches[i].pc};
      }
    }

    /** ensure_disk_cache. */
    method EnsureDiskCache(dev: Device, ok: bool, primed: set<Pipeline>)
      requires Valid()
      modifies this`store, this`role, this`next, this`earned, devCaches
      ensures Abs() == Ensure(old(Abs()), dev, ok, primed)
    {
      var i := CacheClaim(dev);
      if i < devCaches.Length && devCaches[i].pc == NULL && ok {
        devCaches[i] := devCaches[i].(pc := next);
        store := store[next := primed];
        role := role[next := Master];
        next := next + 1;
      }
    }

    /** compile_batch, first locked section. */
    method BatchBegin(b: BatchId, dev: Device, app: Handle, ok: bool, primed: set<Pipeline>)
      requires Valid() && Enabled(Abs(), Event.BatchBegin(b, dev, app, ok, primed))
      modifies this, devCaches, appInflight
      ensures Abs() == Step(old(Abs()), Event.BatchBegin(b, dev, app, ok, primed))
    {
      touched := {};
      EnsureDiskCache(dev, ok, primed);
      var i := CacheLookup(dev);
      var tracked := false;
      if app != NULL {
        tracked := AppCacheRef(app);
      }
      if app == NULL && i < devCaches.Length && devCaches[i].pc != NULL && !devCaches[i].masterInUse {
        batches := batches[b := Batch(dev, NULL, true, false, devCaches[i].pc, NULL, Opened)];
        devCaches[i] := devCaches[i].(masterInUse := true);
      } else {
        batches := batches[b := Batch(dev, app, false, tracked, app, NULL, Opened)];
      }
    }

    /** compile_batch, second locked section, for a batch that owns the master. */
    method FinishAsOwner(b: BatchId, made: set<Pipeline>, save: bool)
      requires Valid() && b in batches
      modifies this, devCaches
      ensures Abs() == FinishOwner(old(Abs()), b, made, save)
    {
      var i := CacheLookup(batches[b].dev);
      CompileReturns(b, made);
      batches := batches - {b};
      if i < devCaches.Length {
        devCaches[i] := devCaches[i].(masterInUse := false);
        Credit(i, made);
        DrainPending(i);
        SaveDiskCache(i, save);
      }
    }

    /** compile_batch, second locked section, for a batch that brought an app cache. */
    method FinishWithApp(b: BatchId, made: set<Pipeline>, harvest: bool, save: bool)
      requires Valid() && b in batches
      modifies this, devCaches, appInflight
      ensures Abs() == FinishApp(old(Abs()), b, made, harvest, save)
    {
      var bt := batches[b];
      var i := CacheLookup(bt.dev);
      CompileReturns(b, made);
      batches := batches - {b};
      var last := false;
      if bt.tracked {
        last := AppCacheUnref(bt.app);
      }
      if last && harvest && i < devCaches.Length && !devCaches[i].masterInUse && devCaches[i].pc != NULL {
        MergeCaches(devCaches[i].pc, [bt.app]);
        DrainPending(i);
        SaveDiskCache(i, save);
      }
    }

    /** compile_batch, second locked section, for a batch that compiled into a scratch cache. */
    method FinishWithScratch(b: BatchId, made: set<Pipeline>, save: bool)
      requires Valid() && b in batches
      modifies this, devCaches
      ensures Abs() == FinishScratch(old(Abs()), b, made, save)
    {
      var bt := batches[b];
      var i := CacheLookup(bt.dev);
      CompileReturns(b, made);
      if i < devCaches.Length && !devCaches[i].masterInUse && devCaches[i].pc != NULL {
        batches := batches[b := bt.(phase := Leaving)];
        Credit(i, made);
        MergeCaches(devCaches[i].pc, [bt.scratch]);
        DrainPending(i);
        SaveDiskCache(i, save);
      } else if i < devCaches.Length && |devCaches[i].pending| < PENDING_MAX {
        devCaches[i] := devCaches[i].(pending := devCaches[i].pending + [bt.scratch]);
        role := Mark(role, {bt.scratch}, Queued(i));
        batches := batches - {b};
        Credit(i, made);
      } else {
        batches := batches[b := bt.(phase := Leaving)];
      }
    }

    method CompileReturns(b: BatchId, made: set<Pipeline>)
      requires b in batches
      modifies this`store
      ensures Abs() == Compiled(old(Abs()), b, made)
    {
      var h := batches[b].into;
      if h in store {
        store := store[h := store[h] + made];
      }
    }

    method Credit(i: nat, made: set<Pipeline>)
      requires Valid() && i < devCaches.Length
      modifies this`earned
      ensures Abs() == Earn(old(Abs()), i, made)
    {
      var d := devCaches[i].dev;
      earned := earned[d := (if d in earned then earned[d] else {}) + made];
    }

    method BatchFinish(b: BatchId, made: set<Pipeline>, harvest: bool, save: bool)
      requires Valid() && Enabled(Abs(), Event.BatchFinish(b, made, harvest, save))
      modifies this, devCaches, appInflight
      ensures Abs() == Step(old(Abs()), Event.BatchFinish(b, made, harvest, save))
    {
      touched := {};
      if batches[b].ownMaster {
        FinishAsOwner(b, made, save);
      } else if batches[b].app != NULL {
        FinishWithApp(b, made, harvest, save);
      } else if batches[b].scratch != NULL {
        FinishWithScratch(b, made, save);
      } else {
        batches := batches - {b};
      }
    }

    /** compile_batch between its locked sections: a private cache for a batch that has none. */
    method BatchScratch(b: BatchId, ok: bool)
      requires Valid() && b in batches
      modifies this
      ensures Abs() == Step(old(Abs()), Event.BatchScratch(b, ok))
    {
      touched := {};
      var bt := batches[b];
      if !bt.ownMaster && bt.app == NULL && ok {
        store, role := store[next := {}], role[next := Scratch(InBatch(b))];
        bt := bt.(into := next, scratch := next);
        next := next + 1;
      }
      batches := batches[b := bt.(phase := Compiling)];
    }

    /** compile_batch after its last locked section: a scratch cache nobody took over is destroyed. */
    method BatchLeave(b: BatchId)
      requires Valid() && b in batches
      modifies this
      ensures Abs() == Step(old(Abs()), Event.BatchLeave(b))
    {
      var h := batches[b].scratch;
      touched := {};
      DestroyAll([h]);
      batches := batches - {b};
    }

    /** vkCreateDevice, the part under cache_mu: a row left under a recycled handle is wiped, nothing in it freed. */
    method CreateDevice(dev: Device)
      requires Valid()
      modifies this, devCaches
      ensures Abs() == Step(old(Abs()), Event.DeviceCreate(dev))
    {
      touched := {};
      var i := CacheLookup(dev);
      if i < devCaches.Length {
        role := Mark(role, Elems(devCaches[i].pending), Abandoned);
        earned := earned - {devCaches[i].dev};
        devCaches[i] := EMPTY_SLOT;
      }
    }

    /** vkCreatePipelineCache, priming the app's cache from the master unless a batch holds it. */
    method CreatePipelineCache(dev: Device, primeOn: bool, ok: bool, primed: set<Pipeline>, initial: set<Pipeline>)
      requires Valid()
      modifies this, devCaches
      ensures Abs() == Step(old(Abs()), Event.AppCreate(dev, primeOn, ok, primed, initial))
    {
      hide Prime;
      touched := {};
      var h := next;
      store, role, next := store[h := initial], role[h := AppMade], h + 1;
      assert Abs() == NewApp(old(Abs()).(touched := {}), initial);
      if primeOn {
        PrimeFromMaster(h, dev, ok, primed);
      }
    }

    method PrimeFromMaster(h: Handle, dev: Device, ok: bool, primed: set<Pipeline>)
      requires Valid()
      modifies this, devCaches
      ensures Abs() == Prime(old(Abs()), h, dev, ok, primed)
    {
      EnsureDiskCache(dev, ok, primed);
      hide Ensure, Merge;
      var i := CacheLookup(dev);
      if i < devCaches.Length && devCaches[i].pc != NULL && !devCaches[i].masterInUse {
        MergeCaches(h, [devCaches[i].pc]);
      }
    }

    /** vkDestroyPipelineCache: drop the tracking entry before the handle dies. */
    method DestroyPipelineCache(h: Handle)
      requires Valid()
      modifies this`store, this`touched, appInflight
      ensures Abs() == Step(old(Abs()), Event.AppDestroy(h))
    {
      var i := AppLookup(h);
      if i < appInflight.Length {
        appInflight[i] := EMPTY_ENTRY;
      }
      store, touched := store - {h}, {h};
    }

    /** drop_disk_cache on a live device. */
    method DropDiskCache(i: nat, save: bool)
      requires Valid() && i < devCaches.Length
      modifies this, devCaches
      ensures Abs() == Drop(old(Abs()), i, save)
    {
      var c := devCaches[i];
      DrainPending(i);
      hide Drain;
      SaveDiskCache(i, save);
      store := store - {c.pc};
      if c.pc != NULL {
        touched := touched + {c.pc};
      }
      earned := earned - {c.dev};
      devCaches[i] := EMPTY_SLOT;
    }

    /** vkDestroyDevice, the part under cache_mu. */
    method DestroyDevice(dev: Device, save: bool)
      requires Valid()
      modifies this, devCaches
      ensures Abs() == Step(old(Abs()), Event.DeviceDestroy(dev, save))
    {
      hide Drop;
      touched := {};
      var i := CacheLookup(dev);
      if i < devCaches.Length {
        DropDiskCache(i, save);
      }
    }
  }

  lemma MarkTwice(role: map<Handle, Role>, a: set<Handle>, b: set<Handle>, p: Place)
    ensures Mark(Mark(role, a, p), b, p) == Mark(role, a + b, p)
  {
  }
}
