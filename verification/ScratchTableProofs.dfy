/** Every scratch image has exactly one place and one end, over every run of the hooks. */
module ScratchTableProofs {
  import opened ScratchTable
  import opened ScratchTableShim
  import opened Common

  /** How many times the slot holds image o. */
  function HeldBy(slot: Slot, o: Image): nat { ImagesOf(slot.dev, slot.pairs)[o] }

  /** How many times the first n slots hold image o. */
  function Held(t: seq<Slot>, n: nat, o: Image): nat
    requires n <= |t|
  {
    if n == 0 then 0 else Held(t, n - 1, o) + HeldBy(t[n - 1], o)
  }

  ghost predicate SlotOk(s: State, slot: Slot) {
    && |slot.pairs| <= slot.cap
    && (slot.cb == NULL ==> slot == FREE)
    && (slot.cb != NULL ==> && slot.dev == s.device != NULL && slot.pool != NULL
                            && slot.cb in s.buffers && s.buffers[slot.cb] == slot.pool)
  }

  ghost predicate Shape(s: State) {
    && |s.table| == CB_TABLE_MAX && Distinct(s.table) && NULL !in s.buffers && (s.device == NULL ==> s.buffers == map[])
    && (forall i :: 0 <= i < |s.table| ==> SlotOk(s, s.table[i]))
    && (forall cb :: cb in s.buffers ==> s.buffers[cb] != NULL)
  }

  /** Each image ever created is held by one slot or was destroyed by one call, and not both. */
  ghost predicate Balanced(s: State)
    requires |s.table| == CB_TABLE_MAX
  {
    forall o :: Held(s.table, CB_TABLE_MAX, o) + s.destroyed[o] == if o in s.created then 1 else 0
  }

  ghost predicate Inv(s: State) { Shape(s) && Balanced(s) }

  lemma {:induction false} HeldUpdate(t: seq<Slot>, i: nat, x: Slot, n: nat, o: Image)
    requires i < |t| && n <= |t|
    ensures Held(t[i := x], n, o) == Held(t, n, o) + if i < n then HeldBy(x, o) - HeldBy(t[i], o) else 0
  {
    hide HeldBy;
    if n > 0 {
      HeldUpdate(t, i, x, n - 1, o);
    }
  }

  /** A release frees exactly what leaves the table. */
  lemma {:induction false} HeldSwept(t: seq<Slot>, sw: Sweep, dev: Handle, forget: bool, n: nat, o: Image)
    requires n <= |t|
    requires forall i :: 0 <= i < |t| && Hit(sw, t[i]) ==> Freed(dev, t[i])[o] == HeldBy(t[i], o)
    ensures Held(SweptTable(t, sw, forget), n, o) + SweptImages(t, sw, dev, n)[o] == Held(t, n, o)
  {
    hide HeldBy, Freed, Hit, Emptied;
    if n > 0 {
      HeldSwept(t, sw, dev, forget, n - 1, o);
      EmptiedHolds(t[n - 1], forget, o);
      var freed := if Hit(sw, t[n - 1]) then Freed(dev, t[n - 1]) else multiset{};
      assert SweptImages(t, sw, dev, n)[o] == SweptImages(t, sw, dev, n - 1)[o] + freed[o];
    }
  }

  lemma EmptiedHolds(slot: Slot, forget: bool, o: Image)
    ensures HeldBy(Emptied(slot, forget), o) == 0
  {
  }

  lemma PairHeld(slot: Slot, x: Slot, pair: Pair, o: Image)
    requires x.dev == slot.dev && x.pairs == slot.pairs + [pair] && pair.src != pair.dst
    ensures HeldBy(x, o) == HeldBy(slot, o) + Bit(o.dev == slot.dev && o.img in {pair.src, pair.dst})
  {
    assert x.pairs[..|x.pairs| - 1] == slot.pairs;
  }

  lemma SweptShape(s: State, sw: Sweep, dev: Handle, forget: bool)
    requires Inv(s) && (dev == NULL || dev == s.device)
    ensures var t := Swept(s, sw, dev, forget);
            Balanced(t) && Distinct(t.table) && forall i :: 0 <= i < CB_TABLE_MAX ==> SlotOk(s, t.table[i])
  {
    var t := Swept(s, sw, dev, forget);
    forall o
      ensures Held(t.table, CB_TABLE_MAX, o) + t.destroyed[o] == if o in s.created then 1 else 0
    {
      forall i | 0 <= i < |s.table| && Hit(sw, s.table[i])
        ensures Freed(dev, s.table[i])[o] == HeldBy(s.table[i], o)
      {
        assert SlotOk(s, s.table[i]);
      }
      HeldSwept(s.table, sw, dev, forget, CB_TABLE_MAX, o);
    }
    SweptDistinct(s.table, sw, forget);
    hide Held, SweptImages, HeldBy, Freed, Distinct;
    forall i | 0 <= i < CB_TABLE_MAX
      ensures SlotOk(s, SweptTable(s.table, sw, forget)[i])
    {
      assert SlotOk(s, s.table[i]);
    }
  }

  lemma SweepKeeps(s: State, e: Event)
    requires Inv(s) && Enabled(s, e) && !e.CreateDevice? && !e.Allocate? && !e.Blit?
    ensures Inv(Step(s, e))
  {
    var u, t := Swept(s, SweepOf(e), DevOf(s, e), Forgets(e)), Step(s, e);
    StepIsSweep(s, e);
    hide Step, Enabled, Balanced, Distinct, SlotOk, Swept;
    SweptShape(s, SweepOf(e), DevOf(s, e), Forgets(e));
    BalancedCopy(u, t);
    forall i | 0 <= i < CB_TABLE_MAX
      ensures SlotOk(t, t.table[i])
    {
      SweptSlot(s, e, i);
    }
    SweptBuffers(s, e);
  }

  lemma StepIsSweep(s: State, e: Event)
    requires !e.CreateDevice? && !e.Allocate? && !e.Blit?
    ensures var u, t := Swept(s, SweepOf(e), DevOf(s, e), Forgets(e)), Step(s, e);
            t.table == u.table && t.destroyed == u.destroyed && t.created == u.created && |u.table| == |s.table|
  {
    hide SweptImages;
  }

  lemma SweptBuffers(s: State, e: Event)
    requires Shape(s) && Enabled(s, e) && !e.CreateDevice? && !e.Allocate? && !e.Blit?
    ensures var t := Step(s, e);
            && NULL !in t.buffers && (t.device == NULL ==> t.buffers == map[])
            && forall cb :: cb in t.buffers ==> t.buffers[cb] != NULL
  {
    hide SweptImages, SweptTable, Distinct, SlotOk;
  }

  /** A slot the release passes by names a buffer that stays alive. */
  lemma SweptSlot(s: State, e: Event, i: nat)
    requires Shape(s) && Enabled(s, e) && !e.CreateDevice? && !e.Allocate? && !e.Blit? && i < |s.table|
    ensures SlotOk(Step(s, e), Step(s, e).table[i])
  {
    assert SlotOk(s, s.table[i]);
    var t := Step(s, e);
    assert t.table[i] == if Hit(SweepOf(e), s.table[i]) then Emptied(s.table[i], Forgets(e)) else s.table[i];
    hide SweptImages, Distinct, SweptTable;
  }

  lemma BalancedCopy(s: State, t: State)
    requires |s.table| == CB_TABLE_MAX && Balanced(s) && t.table == s.table && t.destroyed == s.destroyed && t.created == s.created
    ensures Balanced(t)
  {
  }

  function SweepOf(e: Event): Sweep
    requires !e.CreateDevice? && !e.Allocate? && !e.Blit?
  {
    match e
    case Begin(cb) => ByCb(cb)
    case Reset(cb) => ByCb(cb)
    case Free(cb) => ByCb(cb)
    case ResetPool(pool) => ByPool(pool)
    case DestroyPool(pool) => ByPool(pool)
    case DestroyDevice => All
  }

  function DevOf(s: State, e: Event): Handle { if e.Begin? || e.Reset? then NULL else s.device }
  predicate Forgets(e: Event) { e.Free? || e.DestroyPool? || e.DestroyDevice? }

  /** What the search returns. */
  lemma {:induction false} FindMeans(t: seq<Slot>, cb: Handle, i: nat, free: nat)
    requires i <= |t| && cb != NULL && (free < |t| ==> t[free].cb == NULL) && free <= |t|
    ensures var k := FindFrom(t, cb, i, free);
            && k <= |t|
            && (k < |t| ==> t[k].cb == cb || t[k].cb == NULL)
            && (k == |t| || t[k].cb != cb ==> forall j :: i <= j < |t| ==> t[j].cb != cb)
            && (k == |t| ==> free == |t| && forall j :: i <= j < |t| ==> t[j].cb != NULL)
    decreases |t| - i
  {
    if i < |t| && t[i].cb != cb {
      FindMeans(t, cb, i + 1, if free == |t| && t[i].cb == NULL then i else free);
    }
  }

  lemma AllocateKeeps(s: State, e: Event)
    requires Inv(s) && Enabled(s, e) && e.Allocate?
    ensures Inv(Step(s, e))
  {
    FindMeans(s.table, e.cb, 0, |s.table|);
    var t, i := Step(s, e), Find(s.table, e.cb);
    if i < |s.table| {
      assert SlotOk(s, s.table[i]);
      assert t.table == s.table[i := t.table[i]];
      forall o
        ensures Held(t.table, CB_TABLE_MAX, o) == Held(s.table, CB_TABLE_MAX, o)
      {
        HeldUpdate(s.table, i, t.table[i], CB_TABLE_MAX, o);
      }
    }
    hide Held, Find, Remembered;
    forall j | 0 <= j < CB_TABLE_MAX
      ensures SlotOk(t, t.table[j])
    {
      assert SlotOk(s, s.table[j]);
    }
  }

  /** A blit changes at most one slot, and only its list of pairs. */
  lemma BlitSlot(s: State, e: Event)
    requires Inv(s) && Enabled(s, e) && e.Blit?
    ensures var i := Find(s.table, e.cb);
            DeviceOf(s.table, e.cb, |s.table|) != NULL ==> i < |s.table| && s.table[i].cb == e.cb && s.table[i].dev == s.device
    ensures DeviceOf(s.table, e.cb, |s.table|) in {NULL, s.device}
  {
    if DeviceOf(s.table, e.cb, |s.table|) != NULL {
      Known(s.table, e.cb, |s.table|);
      FindsKnown(s.table, e.cb, 0, |s.table|);
      assert SlotOk(s, s.table[Find(s.table, e.cb)]);
    }
    DeviceMeans(s, e.cb, |s.table|);
  }

  lemma {:induction false} DeviceMeans(s: State, cb: Handle, n: nat)
    requires Inv(s) && cb != NULL && n <= |s.table|
    ensures DeviceOf(s.table, cb, n) == if exists i :: 0 <= i < n && s.table[i].cb == cb then s.device else NULL
  {
    if n > 0 {
      DeviceMeans(s, cb, n - 1);
      assert SlotOk(s, s.table[n - 1]);
    }
  }

  /** A blit changes one slot's list and nothing else about it. */
  lemma PairFrame(s: State, dev: Handle, i: nat, e: Event)
    requires e.Blit? && i < |s.table|
    ensures var t := WithPair(s, dev, i, e);
            && |t.table| == |s.table| && t.table == s.table[i := t.table[i]] && t.device == s.device && t.buffers == s.buffers
            && t.table[i].dev == s.table[i].dev && t.table[i].cb == s.table[i].cb && t.table[i].pool == s.table[i].pool
            && s.table[i].pairs <= t.table[i].pairs && (|s.table[i].pairs| <= s.table[i].cap ==> |t.table[i].pairs| <= t.table[i].cap)
            && (t.table[i].pairs != s.table[i].pairs ==> |t.table[i].pairs| == |s.table[i].pairs| + 1)
  {
  }

  lemma BlitKeeps(s: State, e: Event)
    requires Inv(s) && Enabled(s, e) && e.Blit? && MemorySucceeds(e)
    ensures Inv(Step(s, e))
  {
    var t, i, dev := Step(s, e), Find(s.table, e.cb), DeviceOf(s.table, e.cb, |s.table|);
    BlitSlot(s, e);
    hide Find, DeviceOf, Balanced, WithPair, ImagesOf, Distinct;
    if dev != NULL {
      PairBalance(s, dev, i, e);
      PairFrame(s, dev, i, e);
      assert SlotOk(s, s.table[i]);
      BlitShape(s, t, i);
    }
  }

  lemma BlitShape(s: State, t: State, i: nat)
    requires Shape(s) && i < |s.table| == |t.table| && t.table == s.table[i := t.table[i]]
    requires t.device == s.device && t.buffers == s.buffers && SlotOk(t, t.table[i]) && t.table[i].cb == s.table[i].cb
    ensures Shape(t)
  {
    forall j | 0 <= j < CB_TABLE_MAX
      ensures SlotOk(t, t.table[j])
    {
      assert SlotOk(s, s.table[j]);
    }
  }

  /** What a blit creates goes into the slot or is destroyed at once. */
  lemma PairWorld(s: State, dev: Handle, i: nat, e: Event, o: Image)
    requires Enabled(s, e) && e.Blit? && MemorySucceeds(e) && i < |s.table| && s.table[i].dev == dev
    ensures var t := WithPair(s, dev, i, e);
            && i < |t.table| && t.table == s.table[i := t.table[i]]
            && HeldBy(t.table[i], o) - HeldBy(s.table[i], o) + t.destroyed[o] - s.destroyed[o] == Bit(o in t.created) - Bit(o in s.created)
  {
    var t := WithPair(s, dev, i, e);
    var slot, x := s.table[i], t.table[i];
    PairFrame(s, dev, i, e);
    PairCounts(s, dev, i, e, o);
    hide WithPair, HeldBy;
    if x.pairs == slot.pairs {
      SameHeld(slot, x, o);
    } else {
      PairHeld(slot, x, e.pair, o);
    }
  }

  /** The images created and the destroy calls made, beside the pair that was added or not. */
  lemma PairCounts(s: State, dev: Handle, i: nat, e: Event, o: Image)
    requires Enabled(s, e) && e.Blit? && MemorySucceeds(e) && i < |s.table|
    ensures var t := WithPair(s, dev, i, e);
            var added := t.table[i].pairs != s.table[i].pairs;
            && (added ==> t.table[i].pairs == s.table[i].pairs + [e.pair])
            && Bit(added && o.dev == dev && o.img in {e.pair.src, e.pair.dst}) + t.destroyed[o] - s.destroyed[o] == Bit(o in t.created) - Bit(o in s.created)
  {
  }

  lemma SameHeld(a: Slot, b: Slot, o: Image)
    requires a.dev == b.dev && a.pairs == b.pairs
    ensures HeldBy(a, o) == HeldBy(b, o)
  {
  }

  lemma PairBalance(s: State, dev: Handle, i: nat, e: Event)
    requires Inv(s) && Enabled(s, e) && e.Blit? && MemorySucceeds(e) && i < |s.table| && s.table[i].dev == dev
    ensures |WithPair(s, dev, i, e).table| == CB_TABLE_MAX && Balanced(WithPair(s, dev, i, e))
  {
    var t := WithPair(s, dev, i, e);
    PairFrame(s, dev, i, e);
    hide WithPair, Held, HeldBy, Distinct, SlotOk;
    forall o
      ensures Held(t.table, CB_TABLE_MAX, o) + t.destroyed[o] == if o in t.created then 1 else 0
    {
      PairWorld(s, dev, i, e, o);
      HeldUpdate(s.table, i, t.table[i], CB_TABLE_MAX, o);
    }
  }

  lemma StepKeeps(s: State, e: Event)
    requires Inv(s) && Enabled(s, e) && MemorySucceeds(e)
    ensures Inv(Step(s, e))
  {
    match e
    case CreateDevice(dev) =>
      forall i | 0 <= i < CB_TABLE_MAX
        ensures SlotOk(Step(s, e), s.table[i])
      {
        assert SlotOk(s, s.table[i]);
      }
    case Allocate(_, _) => AllocateKeeps(s, e);
    case Blit(_, _, _, _, _) => BlitKeeps(s, e);
    case _ => SweepKeeps(s, e);
  }

  lemma {:induction false} NothingHeld(t: seq<Slot>, n: nat, o: Image)
    requires n <= |t| && NoneTaken(t)
    ensures Held(t, n, o) == 0
  {
    if n > 0 {
      NothingHeld(t, n - 1, o);
    }
  }

  lemma {:induction false} RunInv(tr: seq<State>, es: seq<Event>, k: nat)
    requires IsRun(tr, es) && k < |tr|
    ensures Inv(tr[k])
  {
    if k == 0 {
      forall o
        ensures Held(tr[0].table, CB_TABLE_MAX, o) == 0
      {
        NothingHeld(tr[0].table, CB_TABLE_MAX, o);
      }
    } else {
      RunInv(tr, es, k - 1);
      assert Next(tr[k - 1], es[k - 1], tr[k]);
      hide Inv;
      StepKeeps(tr[k - 1], es[k - 1]);
    }
  }

  // ---- one place, one end ----------------------------------------------------

  /** Buffer cb's slot holds image o. */
  ghost predicate Owns(s: State, cb: Handle, o: Image) {
    exists i :: 0 <= i < |s.table| && s.table[i].cb == cb && HeldBy(s.table[i], o) > 0
  }

  /** The API events that end what buffer cb has recorded. */
  predicate Releases(s: State, e: Event, cb: Handle) {
    match e
    case Begin(c) => c == cb
    case Reset(c) => c == cb
    case Free(c) => c == cb
    case ResetPool(pool) => cb in s.buffers && s.buffers[cb] == pool
    case DestroyPool(pool) => cb in s.buffers && s.buffers[cb] == pool
    case DestroyDevice => true
    case _ => false
  }

  lemma {:induction false} HeldAtLeast(t: seq<Slot>, i: nat, n: nat, o: Image)
    requires i < n <= |t|
    ensures Held(t, n, o) >= HeldBy(t[i], o)
  {
    if i < n - 1 {
      HeldAtLeast(t, i, n - 1, o);
    }
  }

  /** An image in the table is alive: no destroy call has named it. */
  lemma OwnedIsAlive(s: State, cb: Handle, o: Image)
    requires Inv(s) && Owns(s, cb, o)
    ensures o in s.created && s.destroyed[o] == 0
  {
    var i :| 0 <= i < |s.table| && s.table[i].cb == cb && HeldBy(s.table[i], o) > 0;
    HeldAtLeast(s.table, i, CB_TABLE_MAX, o);
  }

  lemma {:induction false} SweptAtLeast(t: seq<Slot>, sw: Sweep, dev: Handle, i: nat, n: nat, o: Image)
    requires i < n <= |t| && Hit(sw, t[i])
    ensures SweptImages(t, sw, dev, n)[o] >= Freed(dev, t[i])[o]
  {
    hide Freed, Hit;
    if i < n - 1 {
      SweptAtLeast(t, sw, dev, i, n - 1, o);
    }
  }

  lemma ReleaseHits(s: State, e: Event, cb: Handle, i: nat, o: Image)
    requires Shape(s) && Enabled(s, e) && Releases(s, e, cb) && i < |s.table| && s.table[i].cb == cb && HeldBy(s.table[i], o) > 0
    ensures !e.CreateDevice? && !e.Allocate? && !e.Blit?
    ensures Hit(SweepOf(e), s.table[i]) && Freed(DevOf(s, e), s.table[i])[o] == HeldBy(s.table[i], o)
    ensures Step(s, e).destroyed == s.destroyed + SweptImages(s.table, SweepOf(e), DevOf(s, e), CB_TABLE_MAX)
    ensures Step(s, e).created == s.created
  {
    assert SlotOk(s, s.table[i]);
    hide SweptImages, SweptTable, Distinct;
  }

  /** The step that releases cb destroys each of its images, exactly once. */
  lemma ReleaseDestroys(s: State, e: Event, cb: Handle, o: Image)
    requires Inv(s) && Enabled(s, e) && Releases(s, e, cb) && Owns(s, cb, o)
    ensures Step(s, e).destroyed[o] == 1 && o in Step(s, e).created
  {
    OwnedIsAlive(s, cb, o);
    var i :| 0 <= i < |s.table| && s.table[i].cb == cb && HeldBy(s.table[i], o) > 0;
    ReleaseHits(s, e, cb, i, o);
    hide Step, Enabled, Releases, SweptImages, Freed, HeldBy, Hit, Held, SlotOk;
    StepKeeps(s, e);
    SweptAtLeast(s.table, SweepOf(e), DevOf(s, e), i, CB_TABLE_MAX, o);
  }

  lemma SlotStays(s: State, e: Event, cb: Handle, i: nat)
    requires Shape(s) && Enabled(s, e) && !Releases(s, e, cb) && cb != NULL && i < |s.table| && s.table[i].cb == cb && !e.Blit?
    ensures i < |Step(s, e).table| && Step(s, e).table[i] == s.table[i]
  {
    assert SlotOk(s, s.table[i]);
    if e.Allocate? {
      FindMeans(s.table, e.cb, 0, |s.table|);
    }
    hide Find, SweptImages, Distinct;
  }

  /** Every other step leaves cb its images. */
  lemma OthersKeep(s: State, e: Event, cb: Handle, o: Image)
    requires Inv(s) && Enabled(s, e) && MemorySucceeds(e) && !Releases(s, e, cb) && Owns(s, cb, o) && cb != NULL
    ensures Owns(Step(s, e), cb, o)
  {
    var i :| 0 <= i < |s.table| && s.table[i].cb == cb && HeldBy(s.table[i], o) > 0;
    hide Step, Enabled, Releases, HeldBy, Balanced, Shape;
    if e.Blit? {
      BlitGrows(s, e, i, o);
    } else {
      SlotStays(s, e, cb, i);
    }
  }

  lemma BlitGrows(s: State, e: Event, i: nat, o: Image)
    requires Inv(s) && Enabled(s, e) && MemorySucceeds(e) && e.Blit? && i < |s.table|
    ensures var t := Step(s, e);
            i < |t.table| && t.table[i].cb == s.table[i].cb && HeldBy(t.table[i], o) >= HeldBy(s.table[i], o)
  {
    var dev, k := DeviceOf(s.table, e.cb, |s.table|), Find(s.table, e.cb);
    BlitSlot(s, e);
    assert Step(s, e) == if dev == NULL then s else WithPair(s, dev, k, e);
    hide Step, Enabled, WithPair, DeviceOf, Find, Inv, HeldBy, MemorySucceeds;
    if dev != NULL {
      PairFrame(s, dev, k, e);
      HeldGrows(s.table[k], WithPair(s, dev, k, e).table[k], o);
    }
  }

  lemma HeldGrows(slot: Slot, x: Slot, o: Image)
    requires x.dev == slot.dev && slot.pairs <= x.pairs && |x.pairs| <= |slot.pairs| + 1
    ensures HeldBy(x, o) >= HeldBy(slot, o)
  {
    if x.pairs != slot.pairs {
      assert x.pairs[..|x.pairs| - 1] == slot.pairs;
    } else {
      SameHeld(slot, x, o);
    }
  }

  lemma NeverUndestroyed(s: State, e: Event, o: Image)
    requires Enabled(s, e)
    ensures Step(s, e).destroyed[o] >= s.destroyed[o] && s.created <= Step(s, e).created
  {
    hide SweptImages, SweptTable, Find, DeviceOf;
  }

  /**
    Over any run with scratch memory available, an image that buffer cb owns at step i is, at any
    later step j, alive and still cb's if cb was not released in between, and otherwise destroyed by
    exactly one call.
   */
  lemma {:induction false} OneEnd(tr: seq<State>, es: seq<Event>, i: nat, j: nat, cb: Handle, o: Image)
    requires IsRun(tr, es) && i <= j < |tr| && cb != NULL && Owns(tr[i], cb, o)
    ensures o in tr[j].created
    ensures (forall k :: i <= k < j ==> !Releases(tr[k], es[k], cb)) ==> Owns(tr[j], cb, o) && tr[j].destroyed[o] == 0
    ensures (exists k :: i <= k < j && Releases(tr[k], es[k], cb)) ==> tr[j].destroyed[o] == 1
    decreases j - i
  {
    hide Inv, Owns, Releases, Next, Init;
    if i == j {
      RunInv(tr, es, j);
      OwnedIsAlive(tr[j], cb, o);
    } else {
      OneEnd(tr, es, i, j - 1, cb, o);
      RunInv(tr, es, j - 1);
      assert Next(tr[j - 1], es[j - 1], tr[j]);
      EndStep(tr[j - 1], es[j - 1], tr[j], cb, o);
    }
  }

  lemma EndStep(s: State, e: Event, t: State, cb: Handle, o: Image)
    requires Inv(s) && Next(s, e, t) && cb != NULL && o in s.created
    ensures o in t.created
    ensures s.destroyed[o] == 1 ==> t.destroyed[o] == 1
    ensures Owns(s, cb, o) ==> t.destroyed[o] == if Releases(s, e, cb) then 1 else 0
    ensures Owns(s, cb, o) && !Releases(s, e, cb) ==> Owns(t, cb, o)
  {
    NeverUndestroyed(s, e, o);
    hide Step, Enabled, Releases, Shape, Held, Owns;
    StepKeeps(s, e);
    assert Held(t.table, CB_TABLE_MAX, o) + t.destroyed[o] == if o in t.created then 1 else 0;
    if Owns(s, cb, o) {
      if Releases(s, e, cb) {
        ReleaseDestroys(s, e, cb, o);
      } else {
        OthersKeep(s, e, cb, o);
        OwnedIsAlive(t, cb, o);
      }
    }
  }

  /** At every moment each image ever created has one place: one entry of one slot, or one destroy call. */
  lemma OnePlace(tr: seq<State>, es: seq<Event>, k: nat, o: Image)
    requires IsRun(tr, es) && k < |tr|
    ensures |tr[k].table| == 256
    ensures Held(tr[k].table, 256, o) + tr[k].destroyed[o] == if o in tr[k].created then 1 else 0
  {
    RunInv(tr, es, k);
  }

  /**
    A blit on a tracked buffer, with room in its list or memory to grow it and both images created,
    leaves the buffer owning both; if anything of this fails it owns nothing new.
   */
  lemma BlitOwnsIff(tr: seq<State>, es: seq<Event>, k: nat, cb: Handle)
    requires IsRun(tr, es) && k < |es| && es[k].Blit? && es[k].cb == cb
    ensures var e, s := es[k], tr[k];
            var both := Image(s.device, e.pair.src) in tr[k + 1].created && Owns(tr[k + 1], cb, Image(s.device, e.pair.src))
                        && Owns(tr[k + 1], cb, Image(s.device, e.pair.dst));
            both <==> exists i :: && 0 <= i < |s.table| && s.table[i].cb == cb
                                  && e.src.Created? && e.dst.Created? && (|s.table[i].pairs| < s.table[i].cap || e.grows)
  {
    RunInv(tr, es, k);
    assert Next(tr[k], es[k], tr[k + 1]);
    hide Inv, Next;
    BlitOwnsStep(tr[k], es[k], tr[k + 1]);
  }

  predicate CanAdd(slot: Slot, e: Event)
    requires e.Blit?
  {
    e.src.Created? && e.dst.Created? && (|slot.pairs| < slot.cap || e.grows)
  }

  lemma PairAddedIff(s: State, dev: Handle, i: nat, e: Event)
    requires e.Blit? && i < |s.table| && |s.table[i].pairs| <= s.table[i].cap
    ensures var t := WithPair(s, dev, i, e);
            && |t.table| == |s.table|
            && t.table[i].pairs == (if CanAdd(s.table[i], e) then s.table[i].pairs + [e.pair] else s.table[i].pairs)
            && (CanAdd(s.table[i], e) ==> Image(dev, e.pair.src) in t.created && Image(dev, e.pair.dst) in t.created)
  {
  }

  lemma NotHeldYet(s: State, o: Image, i: nat)
    requires Inv(s) && o !in s.created && i < |s.table|
    ensures HeldBy(s.table[i], o) == 0
  {
    HeldAtLeast(s.table, i, CB_TABLE_MAX, o);
  }

  lemma BlitOwnsStep(s: State, e: Event, t: State)
    requires Inv(s) && Next(s, e, t) && e.Blit?
    ensures var src, dst := Image(s.device, e.pair.src), Image(s.device, e.pair.dst);
            (src in t.created && Owns(t, e.cb, src) && Owns(t, e.cb, dst))
            <==> (exists i :: 0 <= i < |s.table| && s.table[i].cb == e.cb && CanAdd(s.table[i], e))
  {
    var src, dst := Image(s.device, e.pair.src), Image(s.device, e.pair.dst);
    var dev, k := DeviceOf(s.table, e.cb, |s.table|), Find(s.table, e.cb);
    BlitSlot(s, e);
    DeviceMeans(s, e.cb, |s.table|);
    assert t == if dev == NULL then s else WithPair(s, dev, k, e);
    assert src !in s.created && e.cb != NULL;
    hide Step, Enabled, WithPair, DeviceOf, Find, HeldBy;
    if dev == NULL {
      forall i | 0 <= i < |s.table|
        ensures HeldBy(s.table[i], src) == 0
      {
        NotHeldYet(s, src, i);
      }
    } else {
      BlitOwnsAt(s, e, t, k, src, dst);
    }
  }

  lemma BlitOwnsAt(s: State, e: Event, t: State, k: nat, src: Image, dst: Image)
    requires Inv(s) && Enabled(s, e) && e.Blit? && k < |s.table| && s.table[k].cb == e.cb && s.table[k].dev == s.device && e.cb != NULL
    requires t == WithPair(s, s.device, k, e) && src == Image(s.device, e.pair.src) && dst == Image(s.device, e.pair.dst)
    ensures (src in t.created && Owns(t, e.cb, src) && Owns(t, e.cb, dst))
            <==> (exists i :: 0 <= i < |s.table| && s.table[i].cb == e.cb && CanAdd(s.table[i], e))
  {
    assert SlotOk(s, s.table[k]) && forall i :: 0 <= i < |s.table| && s.table[i].cb == e.cb ==> i == k;
    PairFrame(s, s.device, k, e);
    PairAddedIff(s, s.device, k, e);
    assert src !in s.created;
    hide WithPair, HeldBy, Inv;
    if CanAdd(s.table[k], e) {
      PairHeld(s.table[k], t.table[k], e.pair, src);
      PairHeld(s.table[k], t.table[k], e.pair, dst);
      assert HeldBy(t.table[k], src) > 0 && HeldBy(t.table[k], dst) > 0;
    } else {
      forall i | 0 <= i < |t.table|
        ensures HeldBy(t.table[i], src) == 0
      {
        NotHeldYet(s, src, i);
        if i == k {
          SameHeld(s.table[k], t.table[k], src);
        }
      }
    }
  }

  /** What a release frees is gone whole: a buffer that survives it has no pairs and no list left. */
  lemma ReleaseEmpties(tr: seq<State>, es: seq<Event>, k: nat, cb: Handle, i: nat)
    requires IsRun(tr, es) && k < |es| && cb != NULL && Releases(tr[k], es[k], cb)
    requires i < |tr[k + 1].table| && tr[k + 1].table[i].cb == cb
    ensures tr[k + 1].table[i].pairs == [] && tr[k + 1].table[i].cap == 0
  {
    RunInv(tr, es, k);
    assert Next(tr[k], es[k], tr[k + 1]);
    ReleasedSlot(tr[k], es[k], cb, i);
  }

  lemma ReleasedSlot(s: State, e: Event, cb: Handle, i: nat)
    requires Shape(s) && Enabled(s, e) && cb != NULL && Releases(s, e, cb)
    requires i < |Step(s, e).table| && Step(s, e).table[i].cb == cb
    ensures Step(s, e).table[i].pairs == [] && Step(s, e).table[i].cap == 0
  {
    assert i < |s.table| && SlotOk(s, s.table[i]) && s.table[i].cb == cb;
  }

  predicate NoneTaken(t: seq<Slot>) { forall i :: 0 <= i < |t| ==> t[i] == FREE }

  /** With its device go all slots, and every image ever created has then been destroyed exactly once. */
  lemma DeviceTakesAll(tr: seq<State>, es: seq<Event>, k: nat, o: Image)
    requires IsRun(tr, es) && k < |es| && es[k].DestroyDevice?
    ensures tr[k + 1].device == NULL && tr[k + 1].buffers == map[] && NoneTaken(tr[k + 1].table)
    ensures tr[k + 1].destroyed[o] == if o in tr[k + 1].created then 1 else 0
  {
    RunInv(tr, es, k);
    OnePlace(tr, es, k + 1, o);
    assert Next(tr[k], es[k], tr[k + 1]);
    hide NoneTaken, Inv, Held;
    AllTaken(tr[k], es[k], tr[k + 1]);
    AllFree(tr[k + 1].table, 256, o);
  }

  lemma AllTaken(s: State, e: Event, t: State)
    requires Inv(s) && Next(s, e, t) && e.DestroyDevice?
    ensures t.device == NULL && t.buffers == map[] && NoneTaken(t.table)
  {
    hide Balanced, SweptImages;
    assert forall i :: 0 <= i < |s.table| ==> SlotOk(s, s.table[i]);
  }

  lemma {:induction false} AllFree(t: seq<Slot>, n: nat, o: Image)
    requires n <= |t| && NoneTaken(t)
    ensures Held(t, n, o) == 0
  {
    if n > 0 {
      AllFree(t, n - 1, o);
    }
  }

  // ---- the device mapping ----------------------------------------------------

  ghost predicate Tracked(s: State, cb: Handle) { exists i :: 0 <= i < |s.table| && s.table[i].cb == cb }

  /** The events after which buffer cb no longer exists. */
  predicate Ends(s: State, e: Event, cb: Handle) {
    e == Free(cb) || e == DestroyDevice || (e.DestroyPool? && cb in s.buffers && s.buffers[cb] == e.pool)
  }

  lemma TrackedStep(s: State, e: Event, cb: Handle)
    requires Inv(s) && Enabled(s, e) && MemorySucceeds(e) && Tracked(s, cb) && cb != NULL && !Ends(s, e, cb)
    ensures Tracked(Step(s, e), cb) && Step(s, e).device == s.device
  {
    var i :| 0 <= i < |s.table| && s.table[i].cb == cb;
    hide Balanced;
    SlotNamed(s, e, cb, i);
  }

  /** A step that does not end buffer cb leaves its slot named after it. */
  lemma SlotNamed(s: State, e: Event, cb: Handle, i: nat)
    requires Inv(s) && Enabled(s, e) && MemorySucceeds(e) && cb != NULL && !Ends(s, e, cb) && i < |s.table| && s.table[i].cb == cb
    ensures i < |Step(s, e).table| && Step(s, e).table[i].cb == cb && Step(s, e).device == s.device
  {
    assert SlotOk(s, s.table[i]);
    if e.Blit? {
      BlitGrows(s, e, i, Image(NULL, NULL));
      BlitDevice(s, e);
    } else if e.Allocate? {
      FindMeans(s.table, e.cb, 0, |s.table|);
    }
    hide Find, DeviceOf, HeldBy, SweptImages, Balanced, Blitted;
  }

  lemma BlitDevice(s: State, e: Event)
    requires e.Blit?
    ensures Step(s, e).device == s.device
  {
    hide Find, DeviceOf;
  }

  /** A tracked buffer maps to the live device until it ceases to exist, over any begins and resets. */
  lemma {:induction false} MappingKept(tr: seq<State>, es: seq<Event>, i: nat, j: nat, cb: Handle)
    requires IsRun(tr, es) && i <= j < |tr| && cb != NULL && Tracked(tr[i], cb)
    requires forall k :: i <= k < j ==> !Ends(tr[k], es[k], cb)
    ensures Tracked(tr[j], cb) && tr[j].device == tr[i].device != NULL
    ensures |tr[j].table| == CB_TABLE_MAX && DeviceOf(tr[j].table, cb, CB_TABLE_MAX) == tr[i].device
    decreases j - i
  {
    hide Inv, Tracked, Next, Init, Ends, DeviceOf;
    RunInv(tr, es, j);
    if i < j {
      MappingKept(tr, es, i, j - 1, cb);
      RunInv(tr, es, j - 1);
      assert Next(tr[j - 1], es[j - 1], tr[j]);
      TrackedNext(tr[j - 1], es[j - 1], tr[j], cb);
    }
    TrackedMaps(tr[j], cb);
  }

  lemma TrackedNext(s: State, e: Event, t: State, cb: Handle)
    requires Inv(s) && Next(s, e, t) && Tracked(s, cb) && cb != NULL && !Ends(s, e, cb)
    ensures Tracked(t, cb) && t.device == s.device
  {
    TrackedStep(s, e, cb);
  }

  lemma TrackedMaps(s: State, cb: Handle)
    requires Inv(s) && Tracked(s, cb) && cb != NULL
    ensures |s.table| == CB_TABLE_MAX && s.device != NULL && DeviceOf(s.table, cb, CB_TABLE_MAX) == s.device
  {
    DeviceMeans(s, cb, CB_TABLE_MAX);
    var k :| 0 <= k < |s.table| && s.table[k].cb == cb;
    assert SlotOk(s, s.table[k]);
    hide Balanced, DeviceOf;
  }

  /** A newly allocated buffer is tracked exactly when the table has a free slot for it. */
  lemma TrackedIffRoom(s: State, e: Event)
    requires Inv(s) && Enabled(s, e) && e.Allocate?
    ensures Tracked(Step(s, e), e.cb) <==> exists i :: 0 <= i < |s.table| && s.table[i] == FREE
  {
    FindMeans(s.table, e.cb, 0, |s.table|);
    var k := Find(s.table, e.cb);
    hide Find, FindFrom;
    assert forall i :: 0 <= i < |s.table| ==> SlotOk(s, s.table[i]);
    if k < |s.table| {
      assert Step(s, e).table[k].cb == e.cb;
      assert s.table[k] == FREE;
    } else {
      assert Step(s, e).table == s.table;
    }
  }

  // ---- where memory allocation fails -----------------------------------------

  /** The blit gets as far as creating images. */
  predicate Reaches(s: State, e: Event)
    requires e.Blit?
  {
    var i := Find(s.table, e.cb);
    DeviceOf(s.table, e.cb, |s.table|) != NULL && i < |s.table| && (|s.table[i].pairs| != s.table[i].cap || e.grows)
  }

  /** Some image is destroyed more than once exactly when memory for an image just created is refused. */
  lemma DoubleDestroyIff(s: State, e: Event)
    requires Inv(s) && Enabled(s, e) && e.Blit?
    ensures (exists o :: Step(s, e).destroyed[o] > 1)
            <==> Reaches(s, e) && (e.src.NoMemory? || (e.src.Created? && e.dst.NoMemory?))
  {
    var t := Step(s, e);
    var dev := DeviceOf(s.table, e.cb, |s.table|);
    var src, dst := Image(dev, e.pair.src), Image(dev, e.pair.dst);
    assert forall o :: s.destroyed[o] <= 1;
    hide Balanced, Held, Shape, Find, DeviceOf;
    assert s.destroyed[src] == 0 && s.destroyed[dst] == 0 by { NotYet(s, src); NotYet(s, dst); }
    if Reaches(s, e) && e.src.NoMemory? {
      assert t.destroyed[src] == 2;
    } else if Reaches(s, e) && e.src.Created? && e.dst.NoMemory? {
      assert t.destroyed[dst] == 2;
    }
  }

  /** Whatever fails, the images recorded as created are those the driver made, and none of a failed pair is left alive. */
  lemma FailureLeaksNothing(s: State, e: Event)
    requires e.Blit? && Reaches(s, e)
    ensures var t, dev := Step(s, e), DeviceOf(s.table, e.cb, |s.table|);
            && t.created == s.created + (if e.src.NoImage? then {} else {Image(dev, e.pair.src)})
                          + (if e.src.Created? && !e.dst.NoImage? then {Image(dev, e.pair.dst)} else {})
            && (!(e.src.Created? && e.dst.Created?) ==> forall o :: o in t.created && o !in s.created ==> t.destroyed[o] > 0)
  {
    hide Find, DeviceOf;
  }

  lemma NotYet(s: State, o: Image)
    requires Inv(s) && o !in s.created
    ensures s.destroyed[o] == 0
  {
  }

  /** The shortest such run: a device, a buffer, and one blit whose first image gets no memory. */
  lemma DoubleDestroyRun()
    ensures var s1 := Step(Init(), CreateDevice(1)); var s2 := Step(s1, Allocate(2, 3));
            var e := Blit(2, Pair(4, 5), true, NoMemory, Created);
            && Enabled(Init(), CreateDevice(1)) && Enabled(s1, Allocate(2, 3)) && Enabled(s2, e)
            && Step(s2, e).destroyed[Image(1, 4)] == 2
  {
    var s1 := Step(Init(), CreateDevice(1));
    var s2 := Step(s1, Allocate(2, 3));
    assert s1.table[0] == FREE && Find(s1.table, 2) == 0 by { FirstFree(s1.table, 2); }
    hide Find;
    assert s2.table == s1.table[0 := Slot(1, 2, 3, [], 0)];
    FirstHit(s2.table, 2, |s2.table|);
    hide DeviceOf;
  }

  lemma {:induction false} FreeFrom(t: seq<Slot>, cb: Handle, i: nat)
    requires 0 < i <= |t| && cb != NULL && forall j :: 0 <= j < |t| ==> t[j] == FREE
    ensures FindFrom(t, cb, i, 0) == 0
    decreases |t| - i
  {
    if i < |t| {
      FreeFrom(t, cb, i + 1);
    }
  }

  lemma FirstFree(t: seq<Slot>, cb: Handle)
    requires |t| > 0 && cb != NULL && forall j :: 0 <= j < |t| ==> t[j] == FREE
    ensures Find(t, cb) == 0
  {
    FreeFrom(t, cb, 1);
  }

  lemma {:induction false} FirstHit(t: seq<Slot>, cb: Handle, n: nat)
    requires 0 < n <= |t| && cb != NULL && t[0].cb == cb && forall j :: 0 < j < |t| ==> t[j] == FREE
    ensures DeviceOf(t, cb, n) == t[0].dev && Find(t, cb) == 0
  {
    if n > 1 {
      FirstHit(t, cb, n - 1);
    }
  }
}
