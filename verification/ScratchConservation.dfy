/**
  Every scratch cache is in exactly one place, and is destroyed at most once, in every run:
  whatever the driver refuses, and even when devices are destroyed or their handles recycled
  under batches that are still compiling.
 */
module ScratchConservation {
  import opened PipelineCache

  /** A batch holds a scratch cache only on the path that creates one, and until it leaves. */
  predicate BatchShape(bt: Batch) {
    && bt.dev != NULL
    && (bt.phase.Opened? || bt.ownMaster || bt.app != NULL ==> bt.scratch == NULL)
    && (bt.phase.Leaving? ==> bt.scratch != NULL)
    && (bt.scratch != NULL ==> bt.into == bt.scratch)
    && (bt.ownMaster ==> bt.app == NULL)
    && (!bt.ownMaster && bt.app != NULL ==> bt.into == bt.app)
    && (!bt.ownMaster && bt.app == NULL ==> bt.into == bt.scratch)
  }

  ghost predicate Shape(s: State) {
    && |s.dc| == DEV_CACHE_MAX
    && 0 < s.next
    && (forall h :: h in s.role ==> 0 < h < s.next)
    && (forall i :: 0 <= i < |s.dc| && s.dc[i].dev == NULL ==> s.dc[i] == EMPTY_SLOT)
    && (forall i :: 0 <= i < |s.dc| && s.dc[i].pc != NULL ==> s.dc[i].pc in s.role && s.role[s.dc[i].pc].Master?)
    && (forall b :: b in s.batches ==> BatchShape(s.batches[b]))
    && (forall h :: h in s.destroyed || h in s.store ==> h in s.role)
  }

  ghost predicate At(s: State, h: Handle, p: Place) {
    h in s.role && s.role[h] == Scratch(p)
  }

  /** What the batches and queues hold is where the history says it is. */
  ghost predicate HoldersAgree(s: State) {
    && (forall b :: b in s.batches && s.batches[b].scratch != NULL ==> At(s, s.batches[b].scratch, InBatch(b)))
    && (forall i, k :: 0 <= i < |s.dc| && 0 <= k < |s.dc[i].pending| ==> At(s, s.dc[i].pending[k], Queued(i)))
    && (forall i, k, l :: 0 <= i < |s.dc| && 0 <= k < l < |s.dc[i].pending| ==>
          s.dc[i].pending[k] != s.dc[i].pending[l])
  }

  ghost predicate PlaceHolds(s: State, h: Handle, p: Place) {
    && (p.InBatch? ==> p.b in s.batches && s.batches[p.b].scratch == h)
    && (p.Queued? ==> p.i < |s.dc| && h in s.dc[p.i].pending)
    && s.destroyed[h] == (if p.Destroyed? then 1 else 0)
    && (!p.Destroyed? ==> h in s.store)
  }

  ghost predicate ScratchInv(s: State) {
    Shape(s) && HoldersAgree(s) && forall h :: h in s.role && s.role[h].Scratch? ==> PlaceHolds(s, h, s.role[h].place)
  }

  /** Rows stay well formed when one of them gets an owner or a new master. */
  lemma RowShape(s: State, t: State)
    requires Shape(s) && |t.dc| == |s.dc| && s.next <= t.next && t.batches == s.batches && t.destroyed == s.destroyed
    requires (t.role == s.role && t.store.Keys == s.store.Keys && t.next == s.next)
          || (t.role == s.role[s.next := Master] && t.store.Keys == s.store.Keys + {s.next} && t.next == s.next + 1)
    requires forall i :: 0 <= i < |s.dc| ==>
               t.dc[i] == s.dc[i] || (t.dc[i].dev != NULL && (t.dc[i].pc in {NULL, s.dc[i].pc} || (t.dc[i].pc == s.next && t.next == s.next + 1)))
    ensures Shape(t)
  {
  }

  /** ensure_disk_cache changes one row at most, and never its queue or its busy flag. */
  lemma EnsureRows(s: State, dev: Device, ok: bool, primed: set<Pipeline>, t: State)
    requires |s.dc| == DEV_CACHE_MAX && dev != NULL && t == Ensure(s, dev, ok, primed)
    requires forall i :: 0 <= i < |s.dc| && s.dc[i].dev == NULL ==> s.dc[i] == EMPTY_SLOT
    ensures |t.dc| == |s.dc| && forall i :: 0 <= i < |s.dc| && i != Lookup(t.dc, dev) ==> t.dc[i] == s.dc[i]
    ensures var i := Lookup(t.dc, dev); i < |s.dc| ==> && t.dc[i].dev == dev && t.dc[i].pending == s.dc[i].pending
                                                       && t.dc[i].masterInUse == s.dc[i].masterInUse
                                                       && (t.dc[i].pc == s.dc[i].pc || (s.dc[i].pc == NULL && t.dc[i].pc == s.next && t.next == s.next + 1))
  {
    var (dc1, i) := Claim(s.dc, dev);
    if i < |dc1| {
      assert Lookup(dc1, dev) == i;
      assert t.dc == dc1 || t.dc == dc1[i := dc1[i].(pc := s.next)];
      assert t.dc[i].dev == dev && forall k :: 0 <= k < i ==> t.dc[k].dev == dc1[k].dev;
      assert Lookup(t.dc, dev) == i;
    }
  }

  lemma EnsureObjects(s: State, dev: Device, ok: bool, primed: set<Pipeline>, t: State)
    requires t == Ensure(s, dev, ok, primed)
    ensures t.batches == s.batches && t.destroyed == s.destroyed && t.app == s.app && t.touched == s.touched
    ensures (t.role == s.role && t.store == s.store && t.next == s.next) ||
            (t.role == s.role[s.next := Master] && t.store == s.store[s.next := primed] && t.next == s.next + 1)
  {
    hide Claim, Lookup;
  }

  lemma EnsureFrame(s: State, dev: Device, ok: bool, primed: set<Pipeline>, t: State)
    requires Shape(s) && dev != NULL && t == Ensure(s, dev, ok, primed)
    ensures |t.dc| == |s.dc|
    ensures forall i :: 0 <= i < |s.dc| ==>
              t.dc[i].pending == s.dc[i].pending && t.dc[i].masterInUse == s.dc[i].masterInUse
    ensures forall i :: 0 <= i < |s.dc| && i != Lookup(t.dc, dev) ==> t.dc[i] == s.dc[i]
    ensures t.batches == s.batches && t.destroyed == s.destroyed && t.app == s.app && t.touched == s.touched
    ensures (t.role == s.role && t.store == s.store && t.next == s.next) ||
            (t.role == s.role[s.next := Master] && t.store == s.store[s.next := primed] && t.next == s.next + 1)
    ensures Shape(t)
  {
    EnsureRows(s, dev, ok, primed, t);
    EnsureObjects(s, dev, ok, primed, t);
    hide Ensure, Shape, Lookup;
    RowShape(s, t);
  }

  lemma EnsureKeeps(s: State, dev: Device, ok: bool, primed: set<Pipeline>)
    requires ScratchInv(s) && dev != NULL
    ensures ScratchInv(Ensure(s, dev, ok, primed))
  {
    var t := Ensure(s, dev, ok, primed);
    EnsureFrame(s, dev, ok, primed, t);
    Carry(s, t);
  }

  /** Nothing that concerns a scratch cache differs between s and t. */
  lemma Carry(s: State, t: State)
    requires ScratchInv(s) && Shape(t)
    requires forall i :: 0 <= i < |s.dc| ==> t.dc[i].pending == s.dc[i].pending
    requires t.destroyed == s.destroyed
    requires forall b :: (b in t.batches && t.batches[b].scratch != NULL) || (b in s.batches && s.batches[b].scratch != NULL)
                         ==> b in s.batches && b in t.batches && t.batches[b].scratch == s.batches[b].scratch
    requires forall h :: h in s.role && s.role[h].Scratch? ==> h in t.role && t.role[h] == s.role[h] && (h in s.store ==> h in t.store)
    requires forall h :: h in t.role && t.role[h].Scratch? ==> h in s.role && s.role[h] == t.role[h]
    ensures ScratchInv(t)
  {
    assert forall h, p :: At(s, h, p) ==> At(t, h, p);
    forall h | h in t.role && t.role[h].Scratch?
      ensures PlaceHolds(t, h, t.role[h].place)
    {
      assert PlaceHolds(s, h, s.role[h].place);
    }
  }

  lemma ShapeOf(s: State, b: BatchId)
    requires ScratchInv(s) && b in s.batches
    ensures BatchShape(s.batches[b])
    ensures s.batches[b].scratch != NULL ==>
              At(s, s.batches[b].scratch, InBatch(b)) && PlaceHolds(s, s.batches[b].scratch, InBatch(b))
  {
  }

  /** Tables alike but for busy flags, objects alike but for contents, batches alike but for phases. */
  lemma Alike(s: State, t: State)
    requires ScratchInv(s)
    requires t.role == s.role && t.next == s.next && t.destroyed == s.destroyed && t.store.Keys == s.store.Keys
    requires |t.dc| == |s.dc| && forall i :: 0 <= i < |s.dc| ==>
               t.dc[i] == s.dc[i] || (s.dc[i].dev != NULL && t.dc[i] == s.dc[i].(masterInUse := t.dc[i].masterInUse))
    requires forall b :: b in t.batches ==>
               b in s.batches && (t.batches[b] == s.batches[b] || (BatchShape(t.batches[b]) && t.batches[b].scratch == s.batches[b].scratch))
    requires forall b :: b in s.batches && b !in t.batches ==> s.batches[b].scratch == NULL
    ensures ScratchInv(t)
  {
    Carry(s, t);
  }

  lemma MergeKeeps(s: State, dst: Handle, srcs: seq<Handle>)
    requires ScratchInv(s)
    ensures ScratchInv(Merge(s, dst, srcs))
  {
    hide ScratchInv;
    Alike(s, Merge(s, dst, srcs));
  }

  /** t is s after row i's queue was folded in and freed. */
  ghost predicate Drained(s: State, i: nat, t: State) {
    && i < |s.dc|
    && t.dc == s.dc[i := s.dc[i].(pending := [])] && t.batches == s.batches && t.app == s.app
    && t.earned == s.earned && t.next == s.next && t.destroyed == s.destroyed + multiset(s.dc[i].pending)
    && t.store.Keys <= s.store.Keys
    && t.role.Keys == s.role.Keys
    && (forall h :: h in t.touched ==> h in s.touched || h == s.dc[i].pc != NULL || h in s.dc[i].pending)
    && (forall h :: h in s.role ==> t.role[h] == if h in s.dc[i].pending then Scratch(Destroyed) else s.role[h])
    && (forall h :: h in s.store && h !in s.dc[i].pending ==> h in t.store)
  }

  lemma DrainFrame(s: State, i: nat, t: State)
    requires i < |s.dc| && t == Drain(s, i)
    ensures Drained(s, i, t)
  {
    if s.dc[i].pending == [] {
      assert s.dc[i := s.dc[i].(pending := [])] == s.dc;
      assert t == s;
      hide Drain;
    } else {
      DrainParts(s, i, t);
      hide Drain;
      MarkMeans(s.role, s.dc[i].pending, t.role);
      assert forall h :: h in t.store <==> h in t.store.Keys;
    }
  }

  lemma DrainParts(s: State, i: nat, t: State)
    requires i < |s.dc| && t == Drain(s, i) && s.dc[i].pending != []
    ensures t.dc == s.dc[i := s.dc[i].(pending := [])] && t.batches == s.batches && t.app == s.app && t.earned == s.earned && t.next == s.next
    ensures t.destroyed == s.destroyed + multiset(s.dc[i].pending) && t.role == Mark(s.role, Elems(s.dc[i].pending), Destroyed)
    ensures t.store.Keys == s.store.Keys - Elems(s.dc[i].pending)
    ensures forall h :: h in t.touched ==> h in s.touched || h == s.dc[i].pc != NULL || h in s.dc[i].pending
  {
    var c := s.dc[i];
    var m := if c.pc != NULL then Merge(s, c.pc, c.pending) else s;
    assert m.store.Keys == s.store.Keys && t.store == m.store - Elems(c.pending);
    hide Held, Mark;
  }

  lemma MarkMeans(role: map<Handle, Role>, q: seq<Handle>, marked: map<Handle, Role>)
    requires marked == Mark(role, Elems(q), Destroyed)
    ensures marked.Keys == role.Keys && forall h :: h in role ==> marked[h] == if h in q then Scratch(Destroyed) else role[h]
  {
  }

  lemma QueuedHere(s: State, i: nat)
    requires ScratchInv(s) && i < |s.dc|
    ensures forall h :: h in s.dc[i].pending ==> At(s, h, Queued(i))
  {
    var q := s.dc[i].pending;
    forall h | h in q
      ensures At(s, h, Queued(i))
    {
      var k :| 0 <= k < |q| && q[k] == h;
      assert At(s, s.dc[i].pending[k], Queued(i));
    }
  }

  lemma DrainKeeps(s: State, i: nat)
    requires ScratchInv(s) && i < |s.dc|
    ensures ScratchInv(Drain(s, i))
  {
    var t := Drain(s, i);
    DrainFrame(s, i, t);
    hide Drain;
    DrainedPlaces(s, i, t);
    DrainedShape(s, i, t);
    DrainedHolders(s, i, t);
  }

  lemma DrainedPlaces(s: State, i: nat, t: State)
    requires ScratchInv(s) && Drained(s, i, t)
    ensures forall h :: h in t.role && t.role[h].Scratch? ==> PlaceHolds(t, h, t.role[h].place)
  {
    var q := s.dc[i].pending;
    QueuedHere(s, i);
    forall h | h in t.role && t.role[h].Scratch?
      ensures PlaceHolds(t, h, t.role[h].place)
    {
      NoRepeat(q, h);
      if h !in q {
        assert PlaceHolds(s, h, s.role[h].place);
      }
    }
  }

  lemma DrainedShape(s: State, i: nat, t: State)
    requires ScratchInv(s) && Drained(s, i, t)
    ensures Shape(t)
  {
    QueuedHere(s, i);
    DrainedMasters(s, i, t);
    DrainedKnown(s, i, t);
    hide HoldersAgree, PlaceHolds, At;
  }

  lemma DrainedMasters(s: State, i: nat, t: State)
    requires Shape(s) && Drained(s, i, t) && forall h :: h in s.dc[i].pending ==> h in s.role && s.role[h].Scratch?
    ensures forall j :: 0 <= j < |t.dc| && t.dc[j].pc != NULL ==> t.dc[j].pc in t.role && t.role[t.dc[j].pc].Master?
  {
    forall j | 0 <= j < |t.dc| && t.dc[j].pc != NULL
      ensures t.dc[j].pc in t.role && t.role[t.dc[j].pc].Master?
    {
      assert t.dc[j].pc == s.dc[j].pc && s.role[s.dc[j].pc].Master?;
    }
  }

  lemma DrainedKnown(s: State, i: nat, t: State)
    requires Shape(s) && Drained(s, i, t) && forall h :: h in s.dc[i].pending ==> h in s.role
    ensures forall h :: h in t.destroyed || h in t.store ==> h in t.role
  {
    assert forall h :: h in t.role <==> h in s.role.Keys;
    forall h | h in t.destroyed
      ensures h in t.role
    {
      assert h in s.destroyed || h in multiset(s.dc[i].pending);
    }
    forall h | h in t.store
      ensures h in t.role
    {
      assert h in t.store.Keys;
    }
  }

  lemma DrainedHolders(s: State, i: nat, t: State)
    requires ScratchInv(s) && Drained(s, i, t)
    ensures HoldersAgree(t)
  {
    QueuedHere(s, i);
    hide Shape, PlaceHolds;
    forall j, k | 0 <= j < |t.dc| && 0 <= k < |t.dc[j].pending|
      ensures At(t, t.dc[j].pending[k], Queued(j))
    {
      assert At(s, s.dc[j].pending[k], Queued(j));
    }
    forall b | b in t.batches && t.batches[b].scratch != NULL
      ensures At(t, t.batches[b].scratch, InBatch(b))
    {
      assert At(s, s.batches[b].scratch, InBatch(b));
    }
  }

  lemma {:induction false} NoRepeat(q: seq<Handle>, h: Handle)
    requires forall k, l :: 0 <= k < l < |q| ==> q[k] != q[l]
    ensures multiset(q)[h] == if h in q then 1 else 0
  {
    if q != [] {
      var t := q[..|q| - 1];
      assert q == t + [q[|q| - 1]];
      NoRepeat(t, h);
    }
  }

  // ---- the steps -------------------------------------------------------------

  lemma BeginKeeps(s: State, b: BatchId, dev: Device, app: Handle, ok: bool, primed: set<Pipeline>)
    requires ScratchInv(s) && dev != NULL && b !in s.batches
    ensures ScratchInv(Begin(s, b, dev, app, ok, primed))
  {
    var s1 := Ensure(s, dev, ok, primed);
    hide Begin, Ensure;
    EnsureFrame(s, dev, ok, primed, s1);
    EnsureKeeps(s, dev, ok, primed);
    BeginFrame(s, b, dev, app, ok, primed, s1, Begin(s, b, dev, app, ok, primed));
    hide Shape, PlaceHolds, HoldersAgree, At;
    Carry(s1, Begin(s, b, dev, app, ok, primed));
  }

  lemma BeginFrame(s: State, b: BatchId, dev: Device, app: Handle, ok: bool, primed: set<Pipeline>, s1: State, t: State)
    requires s1 == Ensure(s, dev, ok, primed) && t == Begin(s, b, dev, app, ok, primed) && Shape(s1) && dev != NULL
    ensures t.role == s1.role && t.store == s1.store && t.next == s1.next && t.destroyed == s1.destroyed
    ensures |t.dc| == |s1.dc| && t.touched == s1.touched && t.earned == s1.earned
    ensures forall i :: 0 <= i < |s1.dc| ==> t.dc[i] == s1.dc[i] || t.dc[i] == s1.dc[i].(masterInUse := true)
    ensures b in t.batches && t.batches == s1.batches[b := t.batches[b]]
    ensures t.batches[b].scratch == NULL && BatchShape(t.batches[b])
    ensures Shape(t)
  {
    BeginParts(s, b, dev, app, ok, primed, s1, t);
    hide Begin, Ensure;
    FlagShape(s1, t, b);
  }

  lemma BeginParts(s: State, b: BatchId, dev: Device, app: Handle, ok: bool, primed: set<Pipeline>, s1: State, t: State)
    requires s1 == Ensure(s, dev, ok, primed) && t == Begin(s, b, dev, app, ok, primed) && dev != NULL
    ensures t.role == s1.role && t.store == s1.store && t.next == s1.next && t.destroyed == s1.destroyed
    ensures |t.dc| == |s1.dc| && t.touched == s1.touched && t.earned == s1.earned
    ensures forall i :: 0 <= i < |s1.dc| ==> t.dc[i] == s1.dc[i] || (s1.dc[i].dev == dev && t.dc[i] == s1.dc[i].(masterInUse := true))
    ensures b in t.batches && t.batches == s1.batches[b := t.batches[b]]
    ensures t.batches[b].scratch == NULL && BatchShape(t.batches[b])
  {
    hide Ensure, Ref;
  }

  lemma FlagShape(s: State, t: State, b: BatchId)
    requires Shape(s) && t.role == s.role && t.store == s.store && t.next == s.next && t.destroyed == s.destroyed && |t.dc| == |s.dc|
    requires forall i :: 0 <= i < |s.dc| ==> t.dc[i] == s.dc[i] || (s.dc[i].dev != NULL && t.dc[i] == s.dc[i].(masterInUse := true))
    requires b in t.batches && t.batches == s.batches[b := t.batches[b]] && BatchShape(t.batches[b])
    ensures Shape(t)
  {
    hide BatchShape;
  }

  lemma MakeScratchKeeps(s: State, b: BatchId, ok: bool)
    requires ScratchInv(s) && b in s.batches && s.batches[b].phase.Opened?
    ensures ScratchInv(MakeScratch(s, b, ok))
  {
    var t := MakeScratch(s, b, ok);
    ShapeOf(s, b);
    if t.next == s.next {
      Alike(s, t);
    } else {
      NewScratch(s, b, t);
    }
  }

  lemma NewScratch(s: State, b: BatchId, t: State)
    requires ScratchInv(s) && b in s.batches && s.batches[b].scratch == NULL && b in t.batches
    requires t.batches == s.batches[b := t.batches[b]] && t.batches[b].scratch == s.next && BatchShape(t.batches[b])
    requires t.dc == s.dc && t.store == s.store[s.next := {}] && t.destroyed == s.destroyed
    requires t.role == s.role[s.next := Scratch(InBatch(b))] && t.next == s.next + 1
    ensures ScratchInv(t)
  {
    assert forall h, p :: At(s, h, p) ==> At(t, h, p);
    assert At(t, s.next, InBatch(b));
    forall h | h in t.role && t.role[h].Scratch?
      ensures PlaceHolds(t, h, t.role[h].place)
    {
      if h != s.next {
        assert PlaceHolds(s, h, s.role[h].place);
      }
    }
  }

  lemma FinishOwnerKeeps(s: State, b: BatchId, made: set<Pipeline>, save: bool)
    requires ScratchInv(s) && b in s.batches && s.batches[b].ownMaster
    ensures ScratchInv(FinishOwner(s, b, made, save))
  {
    ShapeOf(s, b);
    hide ScratchInv, Drain, Save;
    var i := Lookup(s.dc, s.batches[b].dev);
    var s1 := Compiled(s, b, made).(batches := s.batches - {b});
    if i < |s.dc| {
      var s2 := Earn(s1.(dc := s1.dc[i := s1.dc[i].(masterInUse := false)]), i, made);
      Alike(s, s2);
      DrainKeeps(s2, i);
      DrainFrame(s2, i, Drain(s2, i));
      SaveKeeps(Drain(s2, i), i, save);
    } else {
      Alike(s, s1);
    }
  }

  lemma SaveKeeps(s: State, i: nat, save: bool)
    requires ScratchInv(s) && i < |s.dc|
    ensures ScratchInv(Save(s, i, save))
  {
    hide ScratchInv;
    Alike(s, Save(s, i, save));
  }

  lemma FinishAppKeeps(s: State, b: BatchId, made: set<Pipeline>, harvest: bool, save: bool)
    requires ScratchInv(s) && b in s.batches && s.batches[b].app != NULL
    ensures ScratchInv(FinishApp(s, b, made, harvest, save))
  {
    ShapeOf(s, b);
    hide ScratchInv, Drain, Save, Unref;
    var bt := s.batches[b];
    var i := Lookup(s.dc, bt.dev);
    var app1 := if bt.tracked then Unref(s.app, bt.app).0 else s.app;
    var s1 := Compiled(s, b, made).(batches := s.batches - {b}, app := app1);
    Alike(s, s1);
    if i < |s.dc| {
      FoldKeeps(s1, i, s.dc[i].pc, bt.app, save);
    }
  }

  lemma FoldKeeps(s: State, i: nat, dst: Handle, src: Handle, save: bool)
    requires ScratchInv(s) && i < |s.dc|
    ensures |Drain(Merge(s, dst, [src]), i).dc| == |s.dc|
    ensures ScratchInv(Save(Drain(Merge(s, dst, [src]), i), i, save))
  {
    hide ScratchInv, Save;
    var m := Merge(s, dst, [src]);
    MergeKeeps(s, dst, [src]);
    DrainKeeps(m, i);
    DrainFrame(m, i, Drain(m, i));
    hide Drain;
    SaveKeeps(Drain(m, i), i, save);
  }

  lemma FinishScratchKeeps(s: State, b: BatchId, made: set<Pipeline>, save: bool)
    requires ScratchInv(s) && b in s.batches && s.batches[b].phase.Compiling?
    requires !s.batches[b].ownMaster && s.batches[b].app == NULL && s.batches[b].scratch != NULL
    ensures ScratchInv(FinishScratch(s, b, made, save))
  {
    var bt := s.batches[b];
    var i := Lookup(s.dc, bt.dev);
    if i < |s.dc| && !s.dc[i].masterInUse && s.dc[i].pc != NULL {
      FoldScratchKeeps(s, b, made, save, i);
    } else if i < |s.dc| && |s.dc[i].pending| < PENDING_MAX {
      EnqueueKeeps(s, b, made, save, i);
    } else {
      ShapeOf(s, b);
      Alike(s, FinishScratch(s, b, made, save));
    }
  }

  lemma FoldScratchKeeps(s: State, b: BatchId, made: set<Pipeline>, save: bool, i: nat)
    requires ScratchInv(s) && b in s.batches && s.batches[b].scratch != NULL && i == Lookup(s.dc, s.batches[b].dev) < |s.dc|
    requires !s.dc[i].masterInUse && s.dc[i].pc != NULL
    ensures ScratchInv(FinishScratch(s, b, made, save))
  {
    var bt := s.batches[b];
    ShapeOf(s, b);
    hide ScratchInv, Drain, Save;
    var s1 := Earn(Compiled(s, b, made).(batches := s.batches[b := bt.(phase := Leaving)]), i, made);
    Alike(s, s1);
    FoldKeeps(s1, i, s.dc[i].pc, bt.scratch, save);
  }

  /** The scratch cache moves from its batch to the end of the device's queue. */
  lemma EnqueueKeeps(s: State, b: BatchId, made: set<Pipeline>, save: bool, i: nat)
    requires ScratchInv(s) && b in s.batches && s.batches[b].scratch != NULL && i == Lookup(s.dc, s.batches[b].dev) < |s.dc|
    requires s.dc[i].masterInUse || s.dc[i].pc == NULL
    requires |s.dc[i].pending| < PENDING_MAX && s.dc[i].dev != NULL
    ensures ScratchInv(FinishScratch(s, b, made, save))
  {
    var x := s.batches[b].scratch;
    var t := FinishScratch(s, b, made, save);
    assert At(s, x, InBatch(b));
    assert t.role == Mark(s.role, {x}, Queued(i)) && t.batches == s.batches - {b};
    assert t.destroyed == s.destroyed && t.store.Keys == s.store.Keys && t.next == s.next;
    MoveToQueue(s, b, i, t);
  }

  lemma MoveToQueue(s: State, b: BatchId, i: nat, t: State)
    requires ScratchInv(s) && Moved(s, b, i, t)
    ensures ScratchInv(t)
  {
    MovedShape(s, b, i, t);
    MovedHolders(s, b, i, t);
    MovedPlaces(s, b, i, t);
    hide Shape, HoldersAgree, PlaceHolds, At, Mark;
  }

  /** t is s after batch b's scratch cache went to the end of row i's queue. */
  ghost predicate Moved(s: State, b: BatchId, i: nat, t: State) {
    && b in s.batches && i < |s.dc| && s.dc[i].dev != NULL && At(s, s.batches[b].scratch, InBatch(b))
    && t.dc == s.dc[i := s.dc[i].(pending := s.dc[i].pending + [s.batches[b].scratch])]
    && t.role == Mark(s.role, {s.batches[b].scratch}, Queued(i)) && t.batches == s.batches - {b}
    && t.destroyed == s.destroyed && t.store.Keys == s.store.Keys && t.next == s.next
  }

  lemma MovedShape(s: State, b: BatchId, i: nat, t: State)
    requires Shape(s) && Moved(s, b, i, t)
    ensures Shape(t)
  {
    assert forall h :: h in t.role <==> h in s.role.Keys;
    assert forall h :: h in t.store <==> h in s.store.Keys;
    forall j | 0 <= j < |t.dc| && t.dc[j].pc != NULL
      ensures t.dc[j].pc in t.role && t.role[t.dc[j].pc].Master?
    {
      assert t.dc[j].pc == s.dc[j].pc;
    }
    hide BatchShape;
  }

  lemma MovedPlaces(s: State, b: BatchId, i: nat, t: State)
    requires ScratchInv(s) && Moved(s, b, i, t)
    ensures forall h :: h in t.role && t.role[h].Scratch? ==> PlaceHolds(t, h, t.role[h].place)
  {
    var x := s.batches[b].scratch;
    assert t.dc[i].pending[|s.dc[i].pending|] == x;
    assert forall h :: h in t.store <==> h in s.store.Keys;
    hide Shape;
    forall h | h in t.role && t.role[h].Scratch?
      ensures PlaceHolds(t, h, t.role[h].place)
    {
      assert PlaceHolds(s, h, s.role[h].place);
    }
  }

  lemma MovedHolders(s: State, b: BatchId, i: nat, t: State)
    requires HoldersAgree(s) && Moved(s, b, i, t)
    ensures HoldersAgree(t)
  {
    var x := s.batches[b].scratch;
    assert forall h, p :: At(s, h, p) && h != x ==> At(t, h, p);
    assert At(t, x, Queued(i));
    forall j, k | 0 <= j < |t.dc| && 0 <= k < |t.dc[j].pending|
      ensures At(t, t.dc[j].pending[k], Queued(j))
    {
      if j != i || k < |s.dc[i].pending| {
        assert At(s, s.dc[j].pending[k], Queued(j));
      }
    }
    forall j, k, l | 0 <= j < |t.dc| && 0 <= k < l < |t.dc[j].pending|
      ensures t.dc[j].pending[k] != t.dc[j].pending[l]
    {
      assert At(s, s.dc[j].pending[k], Queued(j));
    }
  }

  lemma LeaveKeeps(s: State, b: BatchId)
    requires ScratchInv(s) && b in s.batches && s.batches[b].phase.Leaving?
    ensures ScratchInv(Leave(s, b))
  {
    var x := s.batches[b].scratch;
    var t := Leave(s, b);
    assert At(s, x, InBatch(b));
    assert forall h, p :: At(s, h, p) && h != x ==> At(t, h, p);
    forall h | h in t.role && t.role[h].Scratch?
      ensures PlaceHolds(t, h, t.role[h].place)
    {
      assert PlaceHolds(s, h, s.role[h].place);
    }
  }

  lemma NewAppKeeps(s: State, initial: set<Pipeline>)
    requires ScratchInv(s)
    ensures ScratchInv(NewApp(s, initial))
  {
    Carry(s, NewApp(s, initial));
  }

  lemma PrimeKeeps(s: State, h: Handle, dev: Device, ok: bool, primed: set<Pipeline>)
    requires ScratchInv(s) && dev != NULL
    ensures ScratchInv(Prime(s, h, dev, ok, primed))
  {
    EnsureKeeps(s, dev, ok, primed);
    var t := Ensure(s, dev, ok, primed);
    var i := Lookup(t.dc, dev);
    if i < |t.dc| {
      MergeKeeps(t, h, [t.dc[i].pc]);
    }
  }

  lemma DropKeeps(s: State, i: nat, save: bool)
    requires ScratchInv(s) && i < |s.dc|
    ensures ScratchInv(Drop(s, i, save))
  {
    DrainKeeps(s, i);
    var d := Drain(s, i);
    assert d.dc == s.dc[i := s.dc[i].(pending := [])];
    SaveKeeps(d, i, save);
    WipeKeeps(Save(d, i, save), i, Drop(s, i, save));
  }

  lemma WipeKeeps(s: State, i: nat, t: State)
    requires ScratchInv(s) && i < |s.dc| && s.dc[i].pending == []
    requires t.dc == s.dc[i := EMPTY_SLOT] && t.store == s.store - {s.dc[i].pc} && t.role == s.role
    requires t.batches == s.batches && t.destroyed == s.destroyed && t.next == s.next
    ensures ScratchInv(t)
  {
    Carry(s, t);
  }

  lemma AbandonKeeps(s: State, i: nat)
    requires ScratchInv(s) && i < |s.dc|
    ensures ScratchInv(AbandonRow(s, i))
  {
    var t := AbandonRow(s, i);
    QueuedHere(s, i);
    AbandonedShape(s, i, t);
    AbandonedRest(s, i, t);
    hide AbandonRow, Shape, At;
  }

  lemma AbandonedShape(s: State, i: nat, t: State)
    requires Shape(s) && i < |s.dc| && t == AbandonRow(s, i) && forall h :: h in s.dc[i].pending ==> At(s, h, Queued(i))
    ensures Shape(t)
  {
    assert forall h :: h in t.role <==> h in s.role.Keys;
    forall j | 0 <= j < |t.dc| && t.dc[j].pc != NULL
      ensures t.dc[j].pc in t.role && t.role[t.dc[j].pc].Master?
    {
      assert t.dc[j] == s.dc[j];
    }
    hide BatchShape;
  }

  lemma AbandonedRest(s: State, i: nat, t: State)
    requires ScratchInv(s) && i < |s.dc| && t == AbandonRow(s, i) && forall h :: h in s.dc[i].pending ==> At(s, h, Queued(i))
    ensures HoldersAgree(t) && forall h :: h in t.role && t.role[h].Scratch? ==> PlaceHolds(t, h, t.role[h].place)
  {
    hide Shape;
    assert forall h, p :: At(s, h, p) && h !in s.dc[i].pending ==> At(t, h, p);
    forall h | h in t.role && t.role[h].Scratch?
      ensures PlaceHolds(t, h, t.role[h].place)
    {
      assert PlaceHolds(s, h, s.role[h].place);
    }
  }

  lemma StepKeeps(s: State, e: Event)
    requires ScratchInv(s) && Enabled(s, e)
    ensures ScratchInv(Step(s, e))
  {
    hide ScratchInv, Begin, MakeScratch, Finish, Leave;
    var s0 := s.(touched := {});
    Alike(s, s0);
    if e.BatchFinish? {
      FinishKeeps(s0, e.b, e.made, e.harvest, e.save);
    } else if e.DeviceDestroy? || e.DeviceCreate? {
      DeviceStepKeeps(s, e, s0);
    } else if e.AppMerge? || e.AppSerialise? || e.AppDestroy? || e.AppCreate? {
      AppStepKeeps(s, e, s0);
    } else {
      match e
      case BatchBegin(b, dev, app, ok, primed) => BeginKeeps(s0, b, dev, app, ok, primed);
      case BatchScratch(b, ok) => MakeScratchKeeps(s0, b, ok);
      case BatchLeave(b) => LeaveKeeps(s0, b);
    }
  }

  lemma FinishKeeps(s: State, b: BatchId, made: set<Pipeline>, harvest: bool, save: bool)
    requires ScratchInv(s) && b in s.batches && s.batches[b].phase.Compiling?
    ensures ScratchInv(Finish(s, b, made, harvest, save))
  {
    ShapeOf(s, b);
    hide ScratchInv, FinishOwner, FinishApp, FinishScratch;
    var bt := s.batches[b];
    if bt.ownMaster {
      FinishOwnerKeeps(s, b, made, save);
    } else if bt.app != NULL {
      FinishAppKeeps(s, b, made, harvest, save);
    } else if bt.scratch != NULL {
      FinishScratchKeeps(s, b, made, save);
    } else {
      Alike(s, s.(batches := s.batches - {b}));
    }
  }

  lemma AppStepKeeps(s: State, e: Event, s0: State)
    requires ScratchInv(s0) && Enabled(s, e) && s0 == s.(touched := {})
    requires e.AppMerge? || e.AppSerialise? || e.AppDestroy? || e.AppCreate?
    ensures ScratchInv(Step(s, e))
  {
    hide ScratchInv, Prime, Forget;
    match e
    case AppCreate(dev, primeOn, ok, primed, initial) =>
      NewAppKeeps(s0, initial);
      if primeOn {
        PrimeKeeps(NewApp(s0, initial), s.next, dev, ok, primed);
      }
    case AppMerge(dst, srcs) => MergeKeeps(s0, dst, srcs);
    case AppSerialise(h) => Alike(s0, s.(touched := {h}));
    case AppDestroy(h) => AppDestroyKeeps(s0, h, s.(app := Forget(s.app, h), store := s.store - {h}, touched := {h}));
  }

  lemma AppDestroyKeeps(s: State, h: Handle, t: State)
    requires ScratchInv(s) && AppHolds(s, h) && t.store == s.store - {h}
    requires t.dc == s.dc && t.batches == s.batches && t.role == s.role && t.destroyed == s.destroyed && t.next == s.next
    ensures ScratchInv(t)
  {
    Carry(s, t);
  }

  lemma DeviceStepKeeps(s: State, e: Event, s0: State)
    requires ScratchInv(s0) && s0 == s.(touched := {})
    requires e.DeviceDestroy? || e.DeviceCreate?
    ensures ScratchInv(Step(s, e))
  {
    hide ScratchInv, Drop, AbandonRow;
    var i := Lookup(s.dc, e.dev);
    if i < |s.dc| {
      if e.DeviceDestroy? {
        DropKeeps(s0, i, e.save);
      } else {
        AbandonKeeps(s0, i);
      }
    }
  }

  lemma {:induction false} RunKeeps(tr: seq<State>, es: seq<Event>, k: nat)
    requires IsRun(tr, es) && k < |tr|
    ensures ScratchInv(tr[k])
  {
    if k > 0 {
      RunKeeps(tr, es, k - 1);
      assert Next(tr[k - 1], es[k - 1], tr[k]);
      StepKeeps(tr[k - 1], es[k - 1]);
    }
  }

  // ---- the theorem, in terms of the shim's own structures ---------------------

  ghost function BatchesHolding(s: State, h: Handle): set<BatchId> {
    set b | b in s.batches && s.batches[b].scratch == h
  }

  ghost function QueuePositions(s: State, h: Handle): set<(int, int)> {
    set i, k | 0 <= i < |s.dc| && 0 <= k < |s.dc[i].pending| && s.dc[i].pending[k] == h :: (i, k)
  }

  /**
    At every moment of every run each scratch cache ever created is counted exactly once among:
    the batch that made it, one position of one device's queue, the calls that destroyed it,
    and the rows abandoned with a recycled device handle. So none leaks and none is freed twice.
   */
  lemma ExactlyOnePlace(tr: seq<State>, es: seq<Event>, k: nat, h: Handle)
    requires IsRun(tr, es) && k < |tr|
    requires h in tr[k].role && tr[k].role[h].Scratch?
    ensures var s := tr[k];
            |BatchesHolding(s, h)| + |QueuePositions(s, h)| + s.destroyed[h]
            + (if s.role[h] == Scratch(Abandoned) then 1 else 0) == 1
  {
    RunKeeps(tr, es, k);
    var s := tr[k];
    var p := s.role[h].place;
    assert PlaceHolds(s, h, p);
    assert h != NULL;
    if p.InBatch? {
      assert BatchesHolding(s, h) == {p.b};
    } else {
      assert BatchesHolding(s, h) == {};
    }
    if p.Queued? {
      var l :| 0 <= l < |s.dc[p.i].pending| && s.dc[p.i].pending[l] == h;
      forall i, j | (i, j) in QueuePositions(s, h) ensures (i, j) == (p.i, l) {
        assert At(s, s.dc[i].pending[j], Queued(i));
      }
      assert QueuePositions(s, h) == {(p.i as int, l)};
    } else {
      forall i, j | 0 <= i < |s.dc| && 0 <= j < |s.dc[i].pending| ensures s.dc[i].pending[j] != h {
        assert At(s, s.dc[i].pending[j], Queued(i));
      }
      assert QueuePositions(s, h) == {};
    }
  }
}
