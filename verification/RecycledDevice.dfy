/**
  What the exclusion of MasterExclusion rests on: a batch that owned a device's master and finishes
  after the device handle was recycled clears the busy flag of the handle's new row.
 */
module RecycledDevice {
  import opened PipelineCache
  import opened ScratchConservation
  import opened MasterExclusion

  const DEV: Device := 7

  /** The step clears the flag of a row that another batch holds. */
  ghost predicate ClearsAnothers(s: State, b: BatchId, t: State) {
    exists c, i :: c != b && 0 <= i < |s.dc| == |t.dc| && Holds(s.dc, s.batches, c, i) && !t.dc[i].masterInUse
  }

  /** The row its device has now is held by another batch. */
  ghost predicate RowIsAnothers(s: State, b: BatchId)
    requires b in s.batches
  {
    exists c :: c != b && Holds(s.dc, s.batches, c, Lookup(s.dc, s.batches[b].dev))
  }

  /** In every run, an owner that finishes clears another batch's flag exactly when that batch holds the row its device now has. */
  lemma ClearsAnothersIff(tr: seq<State>, es: seq<Event>, k: nat)
    requires IsRun(tr, es) && k < |es| && es[k].BatchFinish? && es[k].b in tr[k].batches && tr[k].batches[es[k].b].ownMaster
    ensures ClearsAnothers(tr[k], es[k].b, tr[k + 1]) <==> RowIsAnothers(tr[k], es[k].b)
  {
    assert Next(tr[k], es[k], tr[k + 1]);
    var s, b, t := tr[k], es[k].b, tr[k + 1];
    OwnerRows(s, es[k], t);
    hide Step;
    if c :| c != b && Holds(s.dc, s.batches, c, Lookup(s.dc, s.batches[b].dev)) {
      assert !t.dc[Lookup(s.dc, s.batches[b].dev)].masterInUse;
    }
  }

  /** A finishing owner clears the flag of its device's row and leaves every other row alone. */
  lemma OwnerRows(s: State, e: Event, t: State)
    requires Next(s, e, t) && e.BatchFinish? && s.batches[e.b].ownMaster
    ensures var i := Lookup(s.dc, s.batches[e.b].dev);
            |t.dc| == |s.dc| && (i < |s.dc| ==> !t.dc[i].masterInUse) && forall j :: 0 <= j < |s.dc| && j != i ==> t.dc[j] == s.dc[j]
  {
    hide Merge, Mark, Elems;
  }

  // ---- the run ---------------------------------------------------------------

  ghost predicate EndsIn(tr: seq<State>, es: seq<Event>, s: State) { IsRun(tr, es) && tr[|tr| - 1] == s }

  lemma Extend(tr: seq<State>, es: seq<Event>, s: State, e: Event) returns (tr': seq<State>, es': seq<Event>)
    requires EndsIn(tr, es, s) && Enabled(s, e)
    ensures EndsIn(tr', es', Step(s, e))
  {
    var t := Step(s, e);
    tr', es' := tr + [t], es + [e];
    hide Step;
    forall k | 0 <= k < |es'|
      ensures Next(tr'[k], es'[k], tr'[k + 1])
    {
      if k < |es| {
        assert Next(tr[k], es[k], tr[k + 1]);
      } else {
        assert Next(s, e, t);
      }
    }
  }

  /** Row 0 is as given and the others are free. */
  ghost predicate OneRow(s: State, row: DevCache) {
    |s.dc| == DEV_CACHE_MAX && s.dc[0] == row && forall i :: 1 <= i < |s.dc| ==> s.dc[i] == EMPTY_SLOT
  }

  function Owner(pc: Handle): Batch { Batch(DEV, NULL, true, false, pc, NULL, Opened) }

  /** A batch on a device without a row claims one, creates its master and holds it. */
  lemma BeginNew(s: State, b: BatchId)
    requires OneRow(s, EMPTY_SLOT) && s.next != NULL
    ensures var t := Step(s, BatchBegin(b, DEV, NULL, true, {}));
            && OneRow(t, DevCache(DEV, s.next, true, [])) && t.batches == s.batches[b := Owner(s.next)] && t.next == s.next + 1
            && t.role == s.role[s.next := Master]
  {
    var s1 := Ensure(s.(touched := {}), DEV, true, {});
    assert Lookup(s.dc, DEV) == |s.dc| && Lookup(s.dc, NULL) == 0;
    assert s1.dc == s.dc[0 := DevCache(DEV, s.next, false, [])] && Lookup(s1.dc, DEV) == 0;
  }

  /** A batch that finds an idle master holds it. */
  lemma BeginIdle(s: State, b: BatchId, pc: Handle)
    requires OneRow(s, DevCache(DEV, pc, false, [])) && pc != NULL
    ensures var t := Step(s, BatchBegin(b, DEV, NULL, true, {}));
            t.batches == s.batches[b := Owner(pc)] && t.role == s.role
  {
    assert Lookup(s.dc, DEV) == 0;
  }

  lemma Wiped(s: State, t: State)
    requires OneRow(s, DevCache(DEV, 1, true, [])) && t == Step(s, DeviceCreate(DEV))
    ensures OneRow(t, EMPTY_SLOT) && t.next == s.next && t.batches == s.batches
  {
    assert Lookup(s.dc, DEV) == 0;
  }

  /** Batch 1 holds master 1 of a device whose handle is then recycled, and batch 2 holds master 2 of the new one. */
  lemma Recycled() returns (tr: seq<State>, es: seq<Event>, s: State)
    ensures EndsIn(tr, es, s) && OneRow(s, DevCache(DEV, 2, true, [])) && s.batches == map[1 := Owner(1), 2 := Owner(2)]
    ensures 2 in s.role && s.role[2] == Master
  {
    s := Init();
    tr, es := [s], [];
    assert EndsIn(tr, es, s) && OneRow(s, EMPTY_SLOT);
    hide EndsIn;
    BeginNew(s, 1);
    tr, es := Extend(tr, es, s, BatchBegin(1, DEV, NULL, true, {}));
    s := Step(s, BatchBegin(1, DEV, NULL, true, {}));
    hide Step;
    Wiped(s, Step(s, DeviceCreate(DEV)));
    tr, es := Extend(tr, es, s, DeviceCreate(DEV));
    s := Step(s, DeviceCreate(DEV));
    BeginNew(s, 2);
    tr, es := Extend(tr, es, s, BatchBegin(2, DEV, NULL, true, {}));
    s := Step(s, BatchBegin(2, DEV, NULL, true, {}));
  }

  lemma CompileFirst(s: State, t: State)
    requires s.batches == map[1 := Owner(1), 2 := Owner(2)] && t == Step(s, BatchScratch(1, true))
    ensures t.batches == map[1 := Owner(1).(phase := Compiling), 2 := Owner(2)] && t.dc == s.dc && t.role == s.role
  {
  }

  lemma FinishFirst(s: State, t: State)
    requires OneRow(s, DevCache(DEV, 2, true, [])) && s.batches == map[1 := Owner(1).(phase := Compiling), 2 := Owner(2)]
    requires t == Step(s, BatchFinish(1, {}, false, false))
    ensures OneRow(t, DevCache(DEV, 2, false, [])) && t.batches == map[2 := Owner(2)] && t.role == s.role
  {
    assert Lookup(s.dc, DEV) == 0;
    assert s.batches - {1} == map[2 := Owner(2)];
  }

  /** Batch 1 finishes, batch 3 finds the flag clear, and batches 2 and 3 compile with one master. */
  lemma TwoOwners() returns (tr: seq<State>, es: seq<Event>, s: State)
    ensures EndsIn(tr, es, s) && Uses(s, 2, 2) && Uses(s, 3, 2) && 2 in s.role && s.role[2] == Master
  {
    tr, es, s := Recycled();
    hide EndsIn;
    hide Step;
    CompileFirst(s, Step(s, BatchScratch(1, true)));
    tr, es := Extend(tr, es, s, BatchScratch(1, true));
    s := Step(s, BatchScratch(1, true));
    tr, es := Extend(tr, es, s, BatchFinish(1, {}, false, false));
    FinishFirst(s, Step(s, BatchFinish(1, {}, false, false)));
    s := Step(s, BatchFinish(1, {}, false, false));
    BeginIdle(s, 3, 2);
    tr, es := Extend(tr, es, s, BatchBegin(3, DEV, NULL, true, {}));
    s := Step(s, BatchBegin(3, DEV, NULL, true, {}));
  }
}
