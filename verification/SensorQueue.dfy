/**
  The ring buffer between one sub-HAL's polling thread and the readers. The writer obtains a region
  under the lock, fills it outside the lock while readers dequeue, and then marks what it wrote.
 */
module SensorQueue {
  import opened Common

  /** A sensors_event_t: its sensor handle, and for a meta-data event the handle it reports on. */
  datatype Event = Event(metaData: bool, sensor: int, metaSensor: int, payload: int)

  /** The writer: about to ask for a region, blocked on the space condition, or filling cells first .. first+len. */
  datatype Writer = Idle | Blocked | Filling(first: nat, len: nat, batch: seq<Event>)

  /** committed and taken are histories: everything marked as written, and everything dequeued. */
  datatype State = State(data: seq<Event>, start: nat, size: nat, writer: Writer, committed: seq<Event>, taken: seq<Event>)

  predicate Shaped(data: seq<Event>, start: nat, size: nat) {
    |data| > 0 && start < |data| && size <= |data|
  }

  /** The array index i places after start; the code writes (start + i) % cap. */
  function Cell(cap: nat, start: nat, i: nat): nat
    requires start < cap && i <= cap
  {
    if start + i < cap then start + i else start + i - cap
  }

  lemma CellIsModulo(cap: nat, start: nat, i: nat)
    requires start < cap && i <= cap
    ensures Cell(cap, start, i) == (start + i) % cap < cap
  {
    Modulo(start + i, cap, (start + i) / cap, (start + i) % cap);
  }

  lemma Modulo(x: nat, cap: nat, q: int, r: int)
    requires x < 2 * cap && x == q * cap + r && 0 <= r < cap
    ensures r == if x < cap then x else x - cap
  {
    assert (q - 2) * cap == q * cap - 2 * cap && (q + 1) * cap == q * cap + cap;
    assert (q >= 2 ==> (q - 2) * cap >= 0) && (q < 0 ==> (q + 1) * cap <= 0);
  }

  /** The readable events, oldest first. */
  function Contents(data: seq<Event>, start: nat, size: nat): seq<Event>
    requires Shaped(data, start, size)
  {
    seq(size, i requires 0 <= i < size => data[Cell(|data|, start, i)])
  }

  function First(cap: nat, start: nat, size: nat): nat
    requires start < cap && size <= cap
  {
    Cell(cap, start, size)
  }

  /** As much as was asked for, bounded by the end of the array and by the free cells. */
  function RegionLength(cap: nat, start: nat, size: nat, requested: int): nat
    requires start < cap && size <= cap
  {
    if size == cap || requested <= 0 then 0
    else Min(requested, Min(cap - First(cap, start, size), cap - size))
  }

  datatype Step =
    | Ask(requested: int)     // writer: wait for space, then getWritableRegion, in one critical section
    | Put(event: Event)       // writer: the sub-HAL writes the next cell, outside the lock
    | Mark(count: nat)        // writer: markAsWritten
    | GiveUp                  // writer: the sub-HAL returned no events
    | Dequeue                 // a reader

  predicate Enabled(s: State, e: Step) {
    && Shaped(s.data, s.start, s.size)
    && match e
       case Ask(_) => s.writer.Idle?
       case Put(_) => s.writer.Filling? && |s.writer.batch| < s.writer.len && s.writer.first + s.writer.len <= |s.data|
       case Mark(count) => s.writer.Filling? && 0 < count <= |s.writer.batch|
       case GiveUp => s.writer.Filling?
       case Dequeue => true
  }

  function Apply(s: State, e: Step): State
    requires Enabled(s, e)
  {
    match e
    case Ask(requested) =>
      if s.size == |s.data| then s.(writer := Blocked)
      else s.(writer := Filling(First(|s.data|, s.start, s.size), RegionLength(|s.data|, s.start, s.size, requested), []))
    case Put(event) =>
      s.(data := s.data[s.writer.first + |s.writer.batch| := event], writer := s.writer.(batch := s.writer.batch + [event]))
    case Mark(count) =>
      s.(size := s.size + count, writer := Idle, committed := s.committed + s.writer.batch[..count])
    case GiveUp => s.(writer := Idle)
    case Dequeue =>
      if s.size == 0 then s
      else s.(size := s.size - 1, start := Cell(|s.data|, s.start, 1), taken := s.taken + [s.data[s.start]],
              writer := if s.size == |s.data| && s.writer.Blocked? then Idle else s.writer)
  }

  predicate Next(s: State, e: Step, t: State) { Enabled(s, e) && t == Apply(s, e) }

  predicate IsRun(tr: seq<State>, es: seq<Step>) {
    && |tr| == |es| + 1 && |tr[0].data| > 0 && tr[0] == State(tr[0].data, 0, 0, Idle, [], [])
    && forall k :: 0 <= k < |es| ==> Next(tr[k], es[k], tr[k + 1])
  }

  // ---- the invariant ---------------------------------------------------------

  /** The writer's region is in bounds, starts at the first free cell, fits the free cells and holds its batch. */
  predicate RegionOk(s: State) {
    s.writer.Filling? ==>
      && Shaped(s.data, s.start, s.size)
      && s.writer.first == First(|s.data|, s.start, s.size)
      && s.writer.first + s.writer.len <= |s.data| && s.size + s.writer.len <= |s.data| && |s.writer.batch| <= s.writer.len
      && forall i :: 0 <= i < |s.writer.batch| ==> s.data[s.writer.first + i] == s.writer.batch[i]
  }

  predicate Inv(s: State) {
    && Shaped(s.data, s.start, s.size) && RegionOk(s)
    && (s.writer.Blocked? ==> s.size == |s.data|)
    && s.committed == s.taken + Contents(s.data, s.start, s.size)
  }

  /** No cell of the region is readable. */
  lemma Disjoint(cap: nat, start: nat, size: nat, len: nat)
    requires start < cap && size + len <= cap && First(cap, start, size) + len <= cap
    ensures var first := First(cap, start, size); forall i :: 0 <= i < size ==> !(first <= Cell(cap, start, i) < first + len)
  {
  }

  lemma RegionFits(cap: nat, start: nat, size: nat, requested: int)
    requires start < cap && size <= cap
    ensures var n := RegionLength(cap, start, size, requested);
            && First(cap, start, size) + n <= cap && size + n <= cap
            && (n == 0 <==> size == cap || requested <= 0) && (requested > 0 ==> n <= requested)
  {
  }

  /** No longer region would do: one cell more runs past the array's end or into a readable event. */
  lemma RegionIsLargest(cap: nat, start: nat, size: nat, requested: int, m: nat)
    requires start < cap && size < cap && RegionLength(cap, start, size, requested) < m <= requested
    ensures First(cap, start, size) + m > cap
         || exists i :: 0 <= i < size && First(cap, start, size) <= Cell(cap, start, i) < First(cap, start, size) + m
  {
    if First(cap, start, size) + m <= cap {
      assert Cell(cap, start, 0) == start;
    }
  }

  lemma ContentsPut(data: seq<Event>, start: nat, size: nat, i: nat, e: Event)
    requires Shaped(data, start, size) && i < |data| && forall k :: 0 <= k < size ==> Cell(|data|, start, k) != i
    ensures Contents(data[i := e], start, size) == Contents(data, start, size)
  {
  }

  lemma PutKeeps(s: State, event: Event)
    requires Inv(s) && Enabled(s, Put(event))
    ensures Inv(Apply(s, Put(event)))
  {
    var t := Apply(s, Put(event));
    Disjoint(|s.data|, s.start, s.size, s.writer.len);
    assert Contents(t.data, t.start, t.size) == Contents(s.data, s.start, s.size);
  }

  lemma MarkKeeps(s: State, count: nat)
    requires Inv(s) && Enabled(s, Mark(count))
    ensures Inv(Apply(s, Mark(count)))
    ensures Contents(s.data, s.start, s.size + count) == Contents(s.data, s.start, s.size) + s.writer.batch[..count]
  {
    forall i | s.size <= i < s.size + count
      ensures s.data[Cell(|s.data|, s.start, i)] == s.writer.batch[i - s.size]
    {
      assert s.data[s.writer.first + (i - s.size)] == s.writer.batch[i - s.size];
    }
    assert Contents(s.data, s.start, s.size + count) == Contents(s.data, s.start, s.size) + s.writer.batch[..count];
  }

  lemma ContentsTail(data: seq<Event>, start: nat, size: nat)
    requires Shaped(data, start, size) && size > 0
    ensures var c, next := Contents(data, start, size), Cell(|data|, start, 1);
            next < |data| && c[0] == data[start] && Contents(data, next, size - 1) == c[1..]
  {
    var c, next := Contents(data, start, size), Cell(|data|, start, 1);
    forall i | 0 <= i < size - 1
      ensures Cell(|data|, next, i) == Cell(|data|, start, i + 1)
    {
    }
  }

  lemma DequeueKeeps(s: State)
    requires Inv(s)
    ensures Inv(Apply(s, Dequeue))
  {
    if s.size > 0 {
      ContentsTail(s.data, s.start, s.size);
      hide Contents;
      var c := Contents(s.data, s.start, s.size);
      assert s.taken + c == (s.taken + [c[0]]) + c[1..];
    }
  }

  lemma StepKeeps(s: State, e: Step)
    requires Inv(s) && Enabled(s, e)
    ensures Inv(Apply(s, e))
  {
    match e
    case Ask(requested) => RegionFits(|s.data|, s.start, s.size, requested);
    case Put(event) => PutKeeps(s, event);
    case Mark(count) => MarkKeeps(s, count);
    case GiveUp =>
    case Dequeue => DequeueKeeps(s);
  }

  lemma {:induction false} RunInv(tr: seq<State>, es: seq<Step>, k: nat)
    requires IsRun(tr, es) && k < |tr|
    ensures Inv(tr[k])
  {
    if k > 0 {
      RunInv(tr, es, k - 1);
      assert Next(tr[k - 1], es[k - 1], tr[k]);
      hide Inv;
      StepKeeps(tr[k - 1], es[k - 1]);
    }
  }

  /**
    However dequeues interleave with a fill, everything ever marked as written is, in order, what was
    dequeued followed by what is readable; and a region that is being filled touches no readable cell.
   */
  lemma QueueIsFifo(tr: seq<State>, es: seq<Step>, k: nat)
    requires IsRun(tr, es) && k < |tr|
    ensures var s := tr[k];
            && Shaped(s.data, s.start, s.size) && s.committed == s.taken + Contents(s.data, s.start, s.size)
            && (s.writer.Filling? ==> s.writer.first + s.writer.len <= |s.data| && Clear(s, s.writer.first, s.writer.len))
  {
    RunInv(tr, es, k);
    var s := tr[k];
    if s.writer.Filling? {
      Disjoint(|s.data|, s.start, s.size, s.writer.len);
    }
  }

  /** No readable event lies in the given cells. */
  predicate Clear(s: State, first: nat, len: nat)
    requires Shaped(s.data, s.start, s.size)
  {
    forall i :: 0 <= i < s.size ==> !(first <= Cell(|s.data|, s.start, i) < first + len)
  }

  /** A fill that nobody else can commit, however many dequeues run beside it, appends exactly the events it put. */
  lemma {:induction false} FillAppendsItsBatch(tr: seq<State>, es: seq<Step>, i: nat, j: nat)
    requires IsRun(tr, es) && i < j < |es| && es[i].Ask? && tr[i].size < |tr[i].data|
    requires es[j].Mark? && forall k :: i < k < j ==> es[k].Put? || es[k].Dequeue?
    ensures es[j].count <= |PutsIn(es[i + 1..j])|
    ensures tr[j + 1].committed == tr[i].committed + PutsIn(es[i + 1..j])[..es[j].count]
  {
    FillSoFar(tr, es, i, j);
    assert Next(tr[j], es[j], tr[j + 1]);
  }

  function PutsIn(es: seq<Step>): seq<Event> {
    if es == [] then [] else
    PutsIn(es[..|es| - 1]) + match es[|es| - 1] case Put(event) => [event] case _ => []
  }

  lemma {:induction false} FillSoFar(tr: seq<State>, es: seq<Step>, i: nat, j: nat)
    requires IsRun(tr, es) && i < j < |tr| && es[i].Ask? && tr[i].size < |tr[i].data|
    requires forall k :: i < k < j ==> es[k].Put? || es[k].Dequeue?
    ensures tr[j].writer.Filling? && tr[j].writer.batch == PutsIn(es[i + 1..j]) && tr[j].committed == tr[i].committed
    decreases j - i
  {
    assert Next(tr[j - 1], es[j - 1], tr[j]);
    if j - 1 > i {
      FillSoFar(tr, es, i, j - 1);
      assert es[i + 1..j][..j - 1 - (i + 1)] == es[i + 1..j - 1];
    }
  }

  /** A blocked writer always has a full queue before it: the wake-up of a dequeue is never missed. */
  lemma BlockedOnlyWhenFull(tr: seq<State>, es: seq<Step>, k: nat)
    requires IsRun(tr, es) && k < |tr| && tr[k].writer.Blocked?
    ensures tr[k].size == |tr[k].data|
  {
    RunInv(tr, es, k);
  }

  /** SensorEventQueue as written: one array, two counters. */
  class SensorEventQueue {
    const data: array<Event>
    var start: nat
    var size: nat

    ghost predicate Valid() reads this, data { Shaped(data[..], start, size) }

    ghost function Readable(): seq<Event> requires Valid() reads this, data { Contents(data[..], start, size) }

    constructor (capacity: nat)
      requires capacity > 0
      ensures Valid() && fresh(data) && data.Length == capacity && start == 0 && Readable() == []
    {
      data := new Event[capacity];
      start, size := 0, 0;
    }

    /** first is meaningful only when len is positive. */
    method GetWritableRegion(requested: int) returns (first: nat, len: nat)
      requires Valid()
      ensures len == RegionLength(data.Length, start, size, requested)
      ensures len > 0 ==> first == First(data.Length, start, size) && first + len <= data.Length
      ensures len == 0 <==> size == data.Length || requested <= 0
      ensures len > 0 ==> len <= requested && (len == requested || first + len == data.Length || (size > 0 && first + len == start))
      ensures forall i :: 0 <= i < size ==> !(first <= Cell(data.Length, start, i) < first + len)
    {
      if size == data.Length || requested <= 0 {
        return 0, 0;
      }
      first := (start + size) % data.Length;
      CellIsModulo(data.Length, start, size);
      var last := first + requested - 1;
      if last > data.Length - 1 {
        last := data.Length - 1;
      }
      if first < start && last >= start {
        last := start - 1;
      }
      len := last - first + 1;
      Disjoint(data.Length, start, size, len);
    }

    /** Appends the k events that were put at the first free cells. */
    method MarkAsWritten(k: nat, ghost batch: seq<Event>)
      requires Valid() && size + k <= data.Length && First(data.Length, start, size) + k <= data.Length && |batch| == k
      requires forall i :: 0 <= i < k ==> data[First(data.Length, start, size) + i] == batch[i]
      modifies this
      ensures Valid() && start == old(start) && Readable() == old(Readable()) + batch
    {
      if k > 0 {
        ghost var s := State(data[..], start, size, Filling(First(data.Length, start, size), k, batch), Readable(), []);
        MarkKeeps(s, k);
        assert batch[..k] == batch;
      }
      size := size + k;
    }

    /** One event of the writer, put into a region and marked; readers may run between the three calls. */
    method Receive(e: Event)
      requires Valid() && size < data.Length
      modifies this, data
      ensures Valid() && Readable() == old(Readable()) + [e]
    {
      var first, len := GetWritableRegion(1);
      ContentsPut(data[..], start, size, first, e);
      data[first] := e;
      MarkAsWritten(1, [e]);
    }

    method Peek() returns (found: bool, e: Event)
      requires Valid()
      ensures found <==> Readable() != []
      ensures found ==> e == Readable()[0]
    {
      e := data[start];
      found := size != 0;
    }

    /** Drops the oldest event; wakes says whether waiting writers were signalled. */
    method Dequeue() returns (wakes: bool)
      requires Valid()
      modifies this
      ensures Valid() && Readable() == if old(size) == 0 then [] else old(Readable())[1..]
      ensures wakes <==> old(size) == data.Length
    {
      wakes := false;
      if size == 0 {
        return;
      }
      ContentsTail(data[..], start, size);
      CellIsModulo(data.Length, start, 1);
      wakes := size == data.Length;
      size := size - 1;
      start := (start + 1) % data.Length;
    }
  }
}
