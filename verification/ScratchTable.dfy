/**
  The table of command buffers and the scratch images they own. Every hook is one critical section
  under scratch_mu, so a run is a sequence of whole steps.
 */
module ScratchTable {
  type Handle = nat
  const NULL: Handle := 0
  const CB_TABLE_MAX: nat := 256

  datatype Pair = Pair(src: Handle, dst: Handle)
  datatype Slot = Slot(dev: Handle, cb: Handle, pool: Handle, pairs: seq<Pair>, cap: nat)
  const FREE: Slot := Slot(NULL, NULL, NULL, [], 0)

  /** An image together with the device it lives on. */
  datatype Image = Image(dev: Handle, img: Handle)

  /** How one call of alloc_scratch_image ended. */
  datatype Outcome = Created | NoImage | NoMemory

  /**
    table is the shim's; the rest is the world it acts on: the live device, the live command buffers
    with the pool each came from, every scratch image ever created, and each destroy call made.
   */
  datatype State = State(table: seq<Slot>, device: Handle, buffers: map<Handle, Handle>,
                         created: set<Image>, destroyed: multiset<Image>)

  datatype Event =
    | CreateDevice(dev: Handle)
    | Allocate(cb: Handle, pool: Handle)      // remember_pool, once per allocated buffer
    | Begin(cb: Handle)                       // recycle_cb
    | Reset(cb: Handle)                       // recycle_cb
    | Free(cb: Handle)                        // clear_cb
    | ResetPool(pool: Handle)                 // recycle_pool
    | DestroyPool(pool: Handle)               // clear_pool
    | DestroyDevice
    | Blit(cb: Handle, pair: Pair, grows: bool, src: Outcome, dst: Outcome)  // cb_to_device, get_scratch_pair

  /** Which slots a release walks over. */
  datatype Sweep = ByCb(cb: Handle) | ByPool(pool: Handle) | All

  predicate Hit(sw: Sweep, slot: Slot) {
    match sw
    case ByCb(cb) => slot.cb == cb
    case ByPool(pool) => slot.pool == pool
    case All => slot.cb != NULL
  }

  function ImagesOf(dev: Handle, pairs: seq<Pair>): multiset<Image> {
    if pairs == [] then multiset{} else
    var p := pairs[|pairs| - 1];
    ImagesOf(dev, pairs[..|pairs| - 1]) + multiset{Image(dev, p.src), Image(dev, p.dst)}
  }

  /** free_cb_scratch_images destroys through the device it is given, or else through the slot's own. */
  function Freed(dev: Handle, slot: Slot): multiset<Image> {
    var d := if dev != NULL then dev else slot.dev;
    if d != NULL then ImagesOf(d, slot.pairs) else multiset{}
  }

  function Emptied(slot: Slot, forget: bool): Slot {
    if forget then FREE else slot.(pairs := [], cap := 0)
  }

  function SweptTable(t: seq<Slot>, sw: Sweep, forget: bool): seq<Slot> {
    seq(|t|, i requires 0 <= i < |t| => if Hit(sw, t[i]) then Emptied(t[i], forget) else t[i])
  }

  function SweptImages(t: seq<Slot>, sw: Sweep, dev: Handle, n: nat): multiset<Image>
    requires n <= |t|
  {
    if n == 0 then multiset{} else
    SweptImages(t, sw, dev, n - 1) + if Hit(sw, t[n - 1]) then Freed(dev, t[n - 1]) else multiset{}
  }

  function Swept(s: State, sw: Sweep, dev: Handle, forget: bool): State {
    s.(table := SweptTable(s.table, sw, forget), destroyed := s.destroyed + SweptImages(s.table, sw, dev, |s.table|))
  }

  /** The slot of cb, or else the first free one, among the first n; n when there is neither. */
  function FindFrom(t: seq<Slot>, cb: Handle, i: nat, free: nat): nat
    requires i <= |t|
    decreases |t| - i
  {
    if i == |t| then free
    else if t[i].cb == cb then i
    else FindFrom(t, cb, i + 1, if free == |t| && t[i].cb == NULL then i else free)
  }

  function Find(t: seq<Slot>, cb: Handle): nat { FindFrom(t, cb, 0, |t|) }

  function Remembered(t: seq<Slot>, dev: Handle, cb: Handle, pool: Handle): seq<Slot> {
    var i := Find(t, cb);
    if i >= |t| then t
    else if t[i].cb != cb then t[i := Slot(dev, cb, pool, [], 0)]
    else t[i := t[i].(dev := dev, pool := pool)]
  }

  /** The device of the last slot that names cb, or NULL. */
  function DeviceOf(t: seq<Slot>, cb: Handle, n: nat): Handle
    requires n <= |t|
  {
    if n == 0 then NULL else if t[n - 1].cb == cb then t[n - 1].dev else DeviceOf(t, cb, n - 1)
  }

  function Grown(slot: Slot): Slot {
    if |slot.pairs| != slot.cap then slot else slot.(cap := if slot.cap == 0 then 4 else slot.cap * 2)
  }

  /** get_scratch_pair, including its two destroy calls for an image whose memory could not be had. */
  function WithPair(s: State, dev: Handle, i: nat, e: Event): State
    requires i < |s.table| && e.Blit?
  {
    var slot := s.table[i];
    if |slot.pairs| == slot.cap && !e.grows then s
    else
      var big := s.(table := s.table[i := Grown(slot)]);
      var src, dst := Image(dev, e.pair.src), Image(dev, e.pair.dst);
      if e.src.NoImage? then big
      else if e.src.NoMemory? then big.(created := s.created + {src}, destroyed := s.destroyed + multiset{src, src})
      else if e.dst.NoImage? then big.(created := s.created + {src}, destroyed := s.destroyed + multiset{src})
      else if e.dst.NoMemory? then big.(created := s.created + {src, dst}, destroyed := s.destroyed + multiset{dst, src, dst})
      else s.(table := s.table[i := Grown(slot).(pairs := slot.pairs + [e.pair])], created := s.created + {src, dst})
  }

  /** A blit is dropped when the buffer's device is unknown; otherwise the buffer has a slot. */
  function Blitted(s: State, e: Event): State
    requires e.Blit?
  {
    var dev, i := DeviceOf(s.table, e.cb, |s.table|), Find(s.table, e.cb);
    if dev == NULL || i >= |s.table| then s else WithPair(s, dev, i, e)
  }

  function Step(s: State, e: Event): State {
    match e
    case CreateDevice(dev) => s.(device := dev)
    case Allocate(cb, pool) =>
      s.(table := Remembered(s.table, s.device, cb, pool), buffers := s.buffers[cb := pool])
    case Begin(cb) => Swept(s, ByCb(cb), NULL, false)
    case Reset(cb) => Swept(s, ByCb(cb), NULL, false)
    case Free(cb) => Swept(s, ByCb(cb), s.device, true).(buffers := s.buffers - {cb})
    case ResetPool(pool) => Swept(s, ByPool(pool), s.device, false)
    case DestroyPool(pool) =>
      Swept(s, ByPool(pool), s.device, true).(buffers := map cb | cb in s.buffers && s.buffers[cb] != pool :: s.buffers[cb])
    case DestroyDevice => Swept(s, All, s.device, true).(device := NULL, buffers := map[])
    case Blit(_, _, _, _, _) => Blitted(s, e)
  }

  /** The API's rules: one live device and real handles. An image gets a handle no scratch image had before. */
  predicate Enabled(s: State, e: Event) {
    match e
    case CreateDevice(dev) => s.device == NULL && dev != NULL
    case Allocate(cb, pool) => s.device != NULL && cb != NULL && pool != NULL && cb !in s.buffers
    case Begin(cb) => cb in s.buffers
    case Reset(cb) => cb in s.buffers
    case Free(cb) => cb in s.buffers
    case ResetPool(pool) => s.device != NULL && pool != NULL
    case DestroyPool(pool) => s.device != NULL && pool != NULL
    case DestroyDevice => s.device != NULL
    case Blit(cb, pair, _, _, _) =>
      cb in s.buffers && pair.src != pair.dst && forall o :: o in s.created ==> o.img != pair.src && o.img != pair.dst
  }

  /** Scratch memory allocation succeeds. */
  predicate MemorySucceeds(e: Event) { e.Blit? ==> !e.src.NoMemory? && !e.dst.NoMemory? }

  predicate Next(s: State, e: Event, t: State) { Enabled(s, e) && MemorySucceeds(e) && t == Step(s, e) }

  function Init(): State {
    State(seq(CB_TABLE_MAX, i => FREE), NULL, map[], {}, multiset{})
  }

  predicate IsRun(tr: seq<State>, es: seq<Event>) {
    && |tr| == |es| + 1 && tr[0] == Init()
    && forall k :: 0 <= k < |es| ==> Next(tr[k], es[k], tr[k + 1])
  }
}

/** The table as the shim keeps it: an array walked by loops. */
module ScratchTableShim {
  import opened ScratchTable

  ghost predicate Distinct(t: seq<Slot>) {
    forall i, j :: 0 <= i < j < |t| && t[i].cb != NULL ==> t[i].cb != t[j].cb
  }

  lemma {:induction false} NoHit(t: seq<Slot>, cb: Handle, dev: Handle, k: nat, n: nat)
    requires k < |t| && n <= |t| && Distinct(t) && cb != NULL && t[k].cb == cb
    ensures SweptImages(t, ByCb(cb), dev, n) == if k < n then Freed(dev, t[k]) else multiset{}
  {
    hide Freed;
    if n > 0 {
      NoHit(t, cb, dev, k, n - 1);
    }
  }

  lemma {:induction false} NoneHit(t: seq<Slot>, sw: Sweep, dev: Handle, n: nat)
    requires n <= |t| && forall i :: 0 <= i < n ==> !Hit(sw, t[i])
    ensures SweptImages(t, sw, dev, n) == multiset{}
  {
    if n > 0 {
      NoneHit(t, sw, dev, n - 1);
    }
  }

  /** The first i slots are swept, the others untouched. */
  ghost predicate HalfSwept(t: seq<Slot>, sw: Sweep, forget: bool, now: seq<Slot>, i: nat) {
    && |now| == |t| && i <= |t|
    && (forall j :: 0 <= j < i ==> now[j] == SweptTable(t, sw, forget)[j])
    && (forall j :: i <= j < |t| ==> now[j] == t[j])
  }

  lemma SweepOne(t: seq<Slot>, sw: Sweep, forget: bool, now: seq<Slot>, i: nat)
    requires i < |t| && HalfSwept(t, sw, forget, now, i)
    ensures |now| == |t| && now[i] == t[i]
    ensures HalfSwept(t, sw, forget, if Hit(sw, t[i]) then now[i := Emptied(t[i], forget)] else now, i + 1)
  {
    hide Hit, Emptied;
  }

  lemma SweepEnds(t: seq<Slot>, sw: Sweep, forget: bool, now: seq<Slot>)
    ensures HalfSwept(t, sw, forget, t, 0)
    ensures HalfSwept(t, sw, forget, now, |t|) ==> now == SweptTable(t, sw, forget)
  {
    hide Hit, Emptied;
  }

  lemma SweptDistinct(t: seq<Slot>, sw: Sweep, forget: bool)
    requires Distinct(t)
    ensures Distinct(SweptTable(t, sw, forget))
  {
  }

  class CbTable {
    const slots: array<Slot>
    var destroyed: multiset<Image>

    ghost predicate Valid() reads this, slots {
      slots.Length == CB_TABLE_MAX && Distinct(slots[..])
    }

    constructor ()
      ensures Valid() && slots[..] == Init().table && destroyed == multiset{} && fresh(slots)
    {
      slots := new Slot[CB_TABLE_MAX](i => FREE);
      destroyed := multiset{};
      new;
      assert slots[..] == seq(CB_TABLE_MAX, i => FREE);
    }

    /** free_scratch_pair over the slot's pairs, then the list itself. */
    method FreeImages(dev: Handle, i: nat)
      requires i < slots.Length
      modifies this, slots
      ensures slots[..] == old(slots[..])[i := Emptied(old(slots[i]), false)]
      ensures destroyed == old(destroyed) + Freed(dev, old(slots[i]))
    {
      var slot := slots[i];
      var d := if dev != NULL then dev else slot.dev;
      if d != NULL {
        DestroyPairs(d, slot.pairs);
      }
      slots[i] := slot.(pairs := [], cap := 0);
    }

    method DestroyPairs(d: Handle, pairs: seq<Pair>)
      modifies this`destroyed
      ensures destroyed == old(destroyed) + ImagesOf(d, pairs)
    {
      for j := 0 to |pairs|
        invariant destroyed == old(destroyed) + ImagesOf(d, pairs[..j])
      {
        assert pairs[..j + 1][..j] == pairs[..j];
        destroyed := destroyed + multiset{Image(d, pairs[j].src), Image(d, pairs[j].dst)};
      }
      assert pairs[..|pairs|] == pairs;
    }

    method ReleaseAt(dev: Handle, i: nat, forget: bool)
      requires i < slots.Length
      modifies this, slots
      ensures slots[..] == old(slots[..])[i := Emptied(old(slots[i]), forget)]
      ensures destroyed == old(destroyed) + Freed(dev, old(slots[i]))
    {
      FreeImages(dev, i);
      if forget {
        slots[i] := slots[i].(dev := NULL, cb := NULL, pool := NULL);
      }
    }

    /** recycle_cb, and clear_cb when forget is set. */
    method ReleaseCb(dev: Handle, cb: Handle, forget: bool)
      requires Valid() && cb != NULL
      modifies this, slots
      ensures Valid() && slots[..] == SweptTable(old(slots[..]), ByCb(cb), forget)
      ensures destroyed == old(destroyed) + SweptImages(old(slots[..]), ByCb(cb), dev, CB_TABLE_MAX)
    {
      ghost var t := slots[..];
      var i := 0;
      while i < CB_TABLE_MAX
        invariant i <= CB_TABLE_MAX && slots[..] == t && destroyed == old(destroyed)
        invariant forall j :: 0 <= j < i ==> t[j].cb != cb
      {
        if slots[i].cb == cb {
          NoHit(t, cb, dev, i, |t|);
          ReleaseAt(dev, i, forget);
          assert SweptTable(t, ByCb(cb), forget) == t[i := Emptied(t[i], forget)];
          return;
        }
        i := i + 1;
      }
      NoneHit(t, ByCb(cb), dev, |t|);
      assert SweptTable(t, ByCb(cb), forget) == t;
    }

    /** recycle_pool, clear_pool and the walk of vkDestroyDevice. */
    method ReleaseAll(dev: Handle, sw: Sweep, forget: bool)
      requires Valid()
      modifies this, slots
      ensures Valid() && slots[..] == SweptTable(old(slots[..]), sw, forget)
      ensures destroyed == old(destroyed) + SweptImages(old(slots[..]), sw, dev, CB_TABLE_MAX)
    {
      hide Freed, Emptied, Hit, Distinct, SweptTable, HalfSwept;
      ghost var t := slots[..];
      SweptDistinct(t, sw, forget);
      SweepEnds(t, sw, forget, t);
      for i := 0 to CB_TABLE_MAX
        invariant HalfSwept(t, sw, forget, slots[..], i)
        invariant destroyed == old(destroyed) + SweptImages(t, sw, dev, i)
      {
        SweepOne(t, sw, forget, slots[..], i);
        if Hit(sw, slots[i]) {
          ReleaseAt(dev, i, forget);
        }
      }
      SweepEnds(t, sw, forget, slots[..]);
    }

    /** The slot of cb, or else the first free slot, or else none. */
    method FindSlot(cb: Handle) returns (k: nat)
      requires Valid()
      ensures k == Find(slots[..], cb)
    {
      k := CB_TABLE_MAX;
      var i := 0;
      while i < CB_TABLE_MAX
        invariant i <= CB_TABLE_MAX && Find(slots[..], cb) == FindFrom(slots[..], cb, i, k)
      {
        if slots[i].cb == cb {
          return i;
        }
        if k == CB_TABLE_MAX && slots[i].cb == NULL {
          k := i;
        }
        i := i + 1;
      }
    }

    method RememberPool(dev: Handle, cb: Handle, pool: Handle)
      requires Valid() && cb != NULL
      modifies slots
      ensures slots[..] == Remembered(old(slots[..]), dev, cb, pool)
    {
      var k := FindSlot(cb);
      if k < CB_TABLE_MAX {
        if slots[k].cb != cb {
          slots[k] := slots[k].(pairs := [], cap := 0);
        }
        slots[k] := slots[k].(cb := cb, dev := dev, pool := pool);
      }
    }

    method CbToDevice(cb: Handle) returns (dev: Handle)
      requires Valid()
      ensures dev == DeviceOf(slots[..], cb, CB_TABLE_MAX)
    {
      dev := NULL;
      for i := 0 to CB_TABLE_MAX
        invariant dev == DeviceOf(slots[..], cb, i)
      {
        if slots[i].cb == cb {
          dev := slots[i].dev;
        }
      }
    }

    /** The rest of get_scratch_pair once the slot is found: room in the list, then the two images. */
    method AllocPair(dev: Handle, k: nat, e: Event, ghost s: State) returns (ok: bool)
      requires e.Blit? && k < slots.Length && s.table == slots[..] && s.destroyed == destroyed
      modifies this, slots
      ensures slots[..] == WithPair(s, dev, k, e).table && destroyed == WithPair(s, dev, k, e).destroyed
      ensures ok ==> slots[k].cb == old(slots[k].cb) && e.pair in slots[k].pairs
    {
      ok := false;
      if |slots[k].pairs| == slots[k].cap {
        if !e.grows {
          return;
        }
        slots[k] := slots[k].(cap := if slots[k].cap == 0 then 4 else slots[k].cap * 2);
      }
      assert slots[..] == s.table[k := Grown(s.table[k])];
      var src, dst := Image(dev, e.pair.src), Image(dev, e.pair.dst);
      if e.src.Created? && e.dst.Created? {
        slots[k] := slots[k].(pairs := slots[k].pairs + [e.pair]);
        ok := true;
        return;
      }
      DestroyFailed(src, dst, e);
    }

    /** alloc_scratch_image's own clean-up, then free_scratch_pair over the half-built pair. */
    method DestroyFailed(src: Image, dst: Image, e: Event)
      requires e.Blit? && !(e.src.Created? && e.dst.Created?)
      modifies this
      ensures destroyed == old(destroyed) + if e.src.NoImage? then multiset{} else if e.src.NoMemory? then multiset{src, src}
                           else if e.dst.NoImage? then multiset{src} else multiset{dst, src, dst}
    {
      var pairSrc, pairDst := !e.src.NoImage?, e.src.Created? && !e.dst.NoImage?;
      if e.src.NoMemory? {
        destroyed := destroyed + multiset{src};
      } else if pairDst {
        destroyed := destroyed + multiset{dst};
      }
      if pairSrc {
        destroyed := destroyed + multiset{src};
      }
      if pairDst {
        destroyed := destroyed + multiset{dst};
      }
    }

    /** The blit's way to its scratch pair; ok says whether it has one to record with. */
    method ScratchForBlit(e: Event, ghost s: State) returns (ok: bool)
      requires Valid() && e.Blit? && e.cb != NULL && s.table == slots[..] && s.destroyed == destroyed
      modifies this, slots
      ensures slots[..] == Blitted(s, e).table && destroyed == Blitted(s, e).destroyed
      ensures ok ==> exists i :: 0 <= i < CB_TABLE_MAX && slots[i].cb == e.cb && e.pair in slots[i].pairs
    {
      hide WithPair;
      var dev := CbToDevice(e.cb);
      var k := FindSlot(e.cb);
      ok := false;
      if dev != NULL && k < CB_TABLE_MAX {
        Known(slots[..], e.cb, CB_TABLE_MAX);
        FindsKnown(slots[..], e.cb, 0, CB_TABLE_MAX);
        ok := AllocPair(dev, k, e, s);
      }
    }
  }

  lemma {:induction false} Known(t: seq<Slot>, cb: Handle, n: nat)
    requires n <= |t| && DeviceOf(t, cb, n) != NULL
    ensures exists i :: 0 <= i < n && t[i].cb == cb
  {
    if t[n - 1].cb != cb {
      Known(t, cb, n - 1);
    }
  }

  lemma {:induction false} FindsKnown(t: seq<Slot>, cb: Handle, i: nat, free: nat)
    requires i <= |t| && exists j :: i <= j < |t| && t[j].cb == cb
    ensures FindFrom(t, cb, i, free) < |t| && t[FindFrom(t, cb, i, free)].cb == cb
    decreases |t| - i
  {
    if t[i].cb != cb {
      FindsKnown(t, cb, i + 1, if free == |t| && t[i].cb == NULL then i else free);
    }
  }
}
