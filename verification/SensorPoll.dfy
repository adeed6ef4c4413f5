/** The multi-HAL's handle maps and its round-robin poll over the sub-HALs' queues. */
module SensorPoll {
  import opened SensorQueue

  /** A sensor by module index and the handle its module gave it. */
  datatype Full = Full(moduleIndex: int, localHandle: int)

  // ---- handles ---------------------------------------------------------------

  /** The handle map after a history of assignments: the last one of a sensor counts, and -1 means unknown. */
  function GlobalOf(known: seq<Full>, f: Full): int {
    if known == [] then -1
    else if known[|known| - 1] == f then |known|
    else GlobalOf(known[..|known| - 1], f)
  }

  function FullOf(known: seq<Full>, global: int): Full {
    if 1 <= global <= |known| then known[global - 1] else Full(-1, -1)
  }

  class HandleTable {
    var globalToFull: map<int, Full>
    var fullToGlobal: map<Full, int>
    var nextGlobal: int
    ghost var known: seq<Full>

    ghost predicate Valid() reads this {
      && nextGlobal == |known| + 1
      && (forall g :: g in globalToFull <==> 1 <= g <= |known|)
      && (forall g :: g in globalToFull ==> globalToFull[g] == FullOf(known, g))
      && (forall f :: f in fullToGlobal <==> GlobalOf(known, f) != -1)
      && (forall f :: f in fullToGlobal ==> fullToGlobal[f] == GlobalOf(known, f))
    }

    constructor ()
      ensures Valid() && known == []
    {
      globalToFull, fullToGlobal, nextGlobal, known := map[], map[], 1, [];
    }

    method AssignGlobalHandle(moduleIndex: int, localHandle: int) returns (g: int)
      requires Valid()
      modifies this
      ensures Valid() && known == old(known) + [Full(moduleIndex, localHandle)] && g == |known|
    {
      g := nextGlobal;
      nextGlobal := nextGlobal + 1;
      var f := Full(moduleIndex, localHandle);
      fullToGlobal := fullToGlobal[f := g];
      globalToFull := globalToFull[g := f];
      assert (known + [f])[..|known|] == known;
      known := known + [f];
    }

    method GetLocalHandle(g: int) returns (h: int)
      requires Valid()
      ensures h == FullOf(known, g).localHandle
    {
      h := if g in globalToFull then globalToFull[g].localHandle else -1;
    }

    method GetModuleIndex(g: int) returns (m: int)
      requires Valid()
      ensures m == FullOf(known, g).moduleIndex
    {
      m := if g in globalToFull then globalToFull[g].moduleIndex else -1;
    }

    method GetGlobalHandle(f: Full) returns (g: int)
      requires Valid()
      ensures g == GlobalOf(known, f)
    {
      g := if f in fullToGlobal then fullToGlobal[f] else -1;
    }
  }

  /** A known sensor's global handle always leads back to it. */
  lemma {:induction false} GlobalThenFull(known: seq<Full>, f: Full)
    ensures GlobalOf(known, f) == -1 <==> f !in known
    ensures f in known ==> 1 <= GlobalOf(known, f) <= |known| && FullOf(known, GlobalOf(known, f)) == f
  {
    if known != [] {
      var before := known[..|known| - 1];
      assert known == before + [known[|known| - 1]];
      GlobalThenFull(before, f);
    }
  }

  /** A global handle leads back to itself exactly when its sensor was not assigned again later. */
  lemma {:induction false} FullThenGlobalIff(known: seq<Full>, g: int)
    requires 1 <= g <= |known|
    ensures GlobalOf(known, FullOf(known, g)) == g <==> forall k :: g <= k < |known| ==> known[k] != known[g - 1]
  {
    var f := known[g - 1];
    if g < |known| {
      var before := known[..|known| - 1];
      FullThenGlobalIff(before, g);
      if known[|known| - 1] != f {
        assert forall k :: g <= k < |before| ==> before[k] == known[k];
      }
    }
  }

  // ---- events ----------------------------------------------------------------

  /** copy_event_remap_handle. */
  function Remap(known: seq<Full>, index: int, e: Event): Event {
    if e.metaData then e.(metaSensor := GlobalOf(known, Full(index, e.metaSensor)))
    else e.(sensor := GlobalOf(known, Full(index, e.sensor)))
  }

  /** One event read from queue index. */
  datatype Read = Read(index: int, event: Event)

  /** What the caller receives for a log of reads: every event remapped, minus those whose sensor field becomes -1. */
  function Delivered(known: seq<Full>, log: seq<Read>): seq<Event> {
    if log == [] then [] else
    var e := Remap(known, log[|log| - 1].index, log[|log| - 1].event);
    Delivered(known, log[..|log| - 1]) + if e.sensor == -1 then [] else [e]
  }

  /** The events read from one queue, in order. */
  function FromQueue(log: seq<Read>, q: int): seq<Event> {
    if log == [] then [] else
    FromQueue(log[..|log| - 1], q) + if log[|log| - 1].index == q then [log[|log| - 1].event] else []
  }

  /** An event is dropped exactly when it is a plain event of a sensor that was never assigned, or a meta-data event marked -1. */
  lemma DroppedIff(known: seq<Full>, index: int, e: Event)
    ensures Remap(known, index, e).sensor == -1
       <==> if e.metaData then e.sensor == -1 else Full(index, e.sensor) !in known
  {
    GlobalThenFull(known, Full(index, e.sensor));
  }

  /** g is the handle last given to sensor f, or -1 exactly if f never got one. */
  ghost predicate NamesLatest(known: seq<Full>, f: Full, g: int) {
    if f in known then 1 <= g <= |known| && known[g - 1] == f && forall k :: g <= k < |known| ==> known[k] != f
    else g == -1
  }

  /** What an event becomes on its way up: the one handle it carries is translated, and nothing else changes. */
  ghost predicate Translated(known: seq<Full>, index: int, e: Event, out: Event) {
    && out.metaData == e.metaData && out.payload == e.payload
    && (e.metaData ==> out.sensor == e.sensor && NamesLatest(known, Full(index, e.metaSensor), out.metaSensor))
    && (!e.metaData ==> out.metaSensor == e.metaSensor && NamesLatest(known, Full(index, e.sensor), out.sensor))
  }

  /** Nothing can be delivered for it: a plain event of an unknown sensor, or a meta-data event marked -1. */
  predicate Undeliverable(known: seq<Full>, index: int, e: Event) {
    if e.metaData then e.sensor == -1 else Full(index, e.sensor) !in known
  }

  /** data is, in order, the translation of every deliverable event of the log. */
  ghost predicate DeliveredFrom(known: seq<Full>, log: seq<Read>, data: seq<Event>) {
    if log == [] then data == [] else
    var r, before := log[|log| - 1], log[..|log| - 1];
    if Undeliverable(known, r.index, r.event) then DeliveredFrom(known, before, data)
    else data != [] && Translated(known, r.index, r.event, data[|data| - 1]) && DeliveredFrom(known, before, data[..|data| - 1])
  }

  lemma {:induction false} GlobalIsLatest(known: seq<Full>, f: Full)
    ensures NamesLatest(known, f, GlobalOf(known, f))
  {
    if known != [] {
      var before := known[..|known| - 1];
      assert known == before + [known[|known| - 1]];
      GlobalIsLatest(before, f);
    }
  }

  lemma RemapTranslates(known: seq<Full>, index: int, e: Event)
    ensures Translated(known, index, e, Remap(known, index, e))
    ensures Remap(known, index, e).sensor == -1 <==> Undeliverable(known, index, e)
  {
    GlobalIsLatest(known, Full(index, e.sensor));
    GlobalIsLatest(known, Full(index, e.metaSensor));
  }

  lemma {:induction false} DeliveredRight(known: seq<Full>, log: seq<Read>)
    ensures DeliveredFrom(known, log, Delivered(known, log))
  {
    if log != [] {
      var r, before := log[|log| - 1], log[..|log| - 1];
      DeliveredRight(known, before);
      RemapTranslates(known, r.index, r.event);
      hide Remap, Translated, Undeliverable;
      assert Delivered(known, before) + [] == Delivered(known, before);
      assert (Delivered(known, before) + [Remap(known, r.index, r.event)])[..|Delivered(known, before)|] == Delivered(known, before);
    }
  }

  function Total(queues: seq<seq<Event>>): nat {
    if queues == [] then 0 else Total(queues[..|queues| - 1]) + |queues[|queues| - 1]|
  }

  lemma {:induction false} TotalDrops(queues: seq<seq<Event>>, q: nat)
    requires q < |queues| && queues[q] != []
    ensures Total(queues[q := queues[q][1..]]) == Total(queues) - 1
  {
    var n := |queues| - 1;
    var after := queues[q := queues[q][1..]];
    if q < n {
      TotalDrops(queues[..n], q);
      assert after[..n] == queues[..n][q := queues[q][1..]];
    } else {
      assert after[..n] == queues[..n];
    }
  }

  /** How far queue q lies ahead of the index the scan started from. */
  function Offset(n: nat, start: nat, q: nat): nat
    requires start < n && q < n
  {
    if q >= start then q - start else q - start + n
  }

  /** Everything a queue held is what was read from it followed by what it still holds. */
  predicate Conserved(was: seq<seq<Event>>, log: seq<Read>, queues: seq<seq<Event>>) {
    |queues| == |was| && forall q :: 0 <= q < |was| ==> was[q] == FromQueue(log, q) + queues[q]
  }

  /**
    After rounds full turns and part of another, a queue has been read at most once per visit, and
    exactly once per visit if it still has events.
   */
  predicate Fair(log: seq<Read>, queues: seq<seq<Event>>, start: nat, rounds: nat, part: nat)
    requires |queues| == 0 || start < |queues|
  {
    forall q :: 0 <= q < |queues| ==>
      var visits := rounds + if Offset(|queues|, start, q) < part then 1 else 0;
      |FromQueue(log, q)| <= visits && (queues[q] != [] ==> |FromQueue(log, q)| == visits)
  }

  /** The queues behind the next index, as many as were just found empty. */
  predicate EmptyBehind(queues: seq<seq<Event>>, next: nat, empties: nat)
    requires |queues| == 0 || next < |queues|
  {
    forall j :: 0 <= j < |queues| && |queues| - empties <= j ==> queues[Cell(|queues|, next, j)] == []
  }

  lemma AllEmpty(queues: seq<seq<Event>>, next: nat)
    requires |queues| == 0 || next < |queues|
    requires EmptyBehind(queues, next, |queues|)
    ensures forall q :: 0 <= q < |queues| ==> queues[q] == []
  {
    forall q | 0 <= q < |queues|
      ensures queues[q] == []
    {
      var j := Offset(|queues|, next, q);
      assert Cell(|queues|, next, j) == q;
    }
  }

  lemma ReadOne(log: seq<Read>, r: Read, q: int)
    ensures FromQueue(log + [r], q) == FromQueue(log, q) + if r.index == q then [r.event] else []
  {
    assert (log + [r])[..|log|] == log;
  }

  lemma DeliverOne(known: seq<Full>, log: seq<Read>, r: Read)
    ensures var e := Remap(known, r.index, r.event);
            Delivered(known, log + [r]) == Delivered(known, log) + if e.sensor == -1 then [] else [e]
  {
    assert (log + [r])[..|log|] == log;
  }

  /** One visit of the scan, at offset part of the current turn. */
  lemma Visited(was: seq<seq<Event>>, log: seq<Read>, queues: seq<seq<Event>>, start: nat, rounds: nat, part: nat)
    requires start < |queues| && part < |queues| && Conserved(was, log, queues) && Fair(log, queues, start, rounds, part)
    ensures var n, at := |queues|, Cell(|queues|, start, part);
            var r, p := if part + 1 == n then rounds + 1 else rounds, if part + 1 == n then 0 else part + 1;
            && (queues[at] == [] ==> Fair(log, queues, start, r, p))
            && (queues[at] != [] ==> var l, qs := log + [Read(at, queues[at][0])], queues[at := queues[at][1..]];
                                     Conserved(was, l, qs) && Fair(l, qs, start, r, p))
            && Cell(n, start, p) == if at + 1 == n then 0 else at + 1
  {
    var at := Cell(|queues|, start, part);
    assert Offset(|queues|, start, at) == part;
    if queues[at] != [] {
      var r := Read(at, queues[at][0]);
      forall q | 0 <= q < |queues|
        ensures FromQueue(log + [r], q) == FromQueue(log, q) + if q == at then [r.event] else []
      {
        ReadOne(log, r, q);
      }
      hide FromQueue;
    }
  }

  class PollContext {
    const handles: HandleTable
    const queues: seq<SensorEventQueue>
    var nextReadIndex: nat
    ghost var view: seq<seq<Event>>  // what each queue holds

    /** The queues are separate ring buffers that hold what view says. */
    ghost predicate QueuesOk() reads this`view, queues, set q | q in queues :: q.data {
      && |view| == |queues|
      && (forall i, j :: 0 <= i < j < |queues| ==> queues[i] != queues[j] && queues[i].data != queues[j].data)
      && (forall i :: 0 <= i < |queues| ==> queues[i].Valid() && queues[i].Readable() == view[i])
    }

    ghost predicate Valid() reads this, handles, queues, set q | q in queues :: q.data {
      handles.Valid() && |view| == |queues| && QueuesOk() && (queues == [] || nextReadIndex < |queues|)
    }

    /** One queue per sub-HAL device, all empty. */
    constructor (queues: seq<SensorEventQueue>)
      requires forall i :: 0 <= i < |queues| ==> queues[i].Valid() && queues[i].Readable() == []
      requires forall i, j :: 0 <= i < j < |queues| ==> queues[i] != queues[j] && queues[i].data != queues[j].data
      ensures Valid() && fresh(handles) && this.queues == queues && view == seq(|queues|, i => [])
    {
      handles := new HandleTable();
      this.queues := queues;
      nextReadIndex := 0;
      view := seq(|queues|, i => []);
    }

    method CopyRemapped(e: Event, index: int) returns (c: Event)
      requires handles.Valid()
      ensures c == Remap(handles.known, index, e) && Translated(handles.known, index, e, c)
    {
      RemapTranslates(handles.known, index, e);
      c := e;
      if c.metaData {
        var g := handles.GetGlobalHandle(Full(index, c.metaSensor));
        c := c.(metaSensor := g);
      } else {
        var g := handles.GetGlobalHandle(Full(index, c.sensor));
        c := c.(sensor := g);
      }
    }

    method Advance(count: nat)
      requires nextReadIndex < count
      modifies this`nextReadIndex
      ensures nextReadIndex == if old(nextReadIndex) + 1 == count then 0 else old(nextReadIndex) + 1
    {
      NextIndex(count, nextReadIndex);
      nextReadIndex := (nextReadIndex + 1) % count;
    }

    /** One visit: the oldest event of the queue, remapped and dequeued, if it has any. */
    method ReadFrom(at: nat) returns (found: bool, e: Event)
      requires handles.Valid() && QueuesOk() && at < |queues|
      modifies this`view, queues
      ensures handles.Valid() && handles.known == old(handles.known) && QueuesOk() && (found <==> old(view)[at] != [])
      ensures found ==> e == Remap(handles.known, at, old(view)[at][0]) && view == old(view)[at := old(view)[at][1..]]
      ensures !found ==> view == old(view)
    {
      found, e := queues[at].Peek();
      if found {
        e := CopyRemapped(e, at);
        var wakes := queues[at].Dequeue();
        view := view[at := view[at][1..]];
      }
    }

    /** The inner loop of poll, run with the lock held: nothing arrives while it runs. */
    method Scan(maxReads: nat) returns (data: seq<Event>, ghost scan: ScanLog)
      requires Valid()
      modifies this, queues
      ensures Valid() && |data| <= maxReads && data == Delivered(handles.known, scan.log) && (maxReads == 0 ==> scan.log == [])
      ensures Conserved(old(view), scan.log, view)
      ensures |data| < maxReads ==> AllDrained(view)
      ensures FairScan(scan) && scan.start == old(nextReadIndex) && scan.left == view
    {
      hide Progress, Total, Delivered, Remap, Conserved, Fair, AllDrained, QueuesOk;
      var empties, count := 0, |queues|;
      ghost var log: seq<Read>, rounds: nat, part: nat := [], 0, 0;
      ghost var was, start := view, nextReadIndex;
      data := [];
      Started(view, nextReadIndex, handles.known);
      while empties < count && |data| < maxReads
        invariant Valid() && |view| == count && empties <= count && |data| <= maxReads && data == Delivered(handles.known, log)
        invariant Progress(was, start, log, view, nextReadIndex, rounds, part, empties)
        invariant maxReads == 0 ==> log == []
        decreases Total(view), count - empties
      {
        var at := nextReadIndex;
        ghost var before := view;
        var found, e := ReadFrom(at);
        Visit(handles.known, was, start, log, before, at, rounds, part, empties);
        empties := if found then 0 else empties + 1;
        if found && e.sensor != -1 {
          data := data + [e];
        }
        log := if found then log + [Read(at, before[at][0])] else log;
        Advance(count);
        rounds, part := if part + 1 == count then rounds + 1 else rounds, if part + 1 == count then 0 else part + 1;
      }
      Finished(was, start, log, view, nextReadIndex, rounds, part, empties);
      scan := ScanLog(log, start, rounds, part, view);
    }

    /** What the writers append to one queue while poll waits. */
    method ArriveAt(q: nat, batch: seq<Event>)
      requires QueuesOk() && q < |queues| && |view[q]| + |batch| <= queues[q].data.Length
      modifies this`view, queues[q], queues[q].data
      ensures QueuesOk() && view == old(view)[q := old(view)[q] + batch]
    {
      ghost var was := view;
      assert was[q] + batch[..0] == was[q];
      for i := 0 to |batch|
        invariant QueuesOk() && view == was[q := was[q] + batch[..i]]
      {
        assert |queues[q].Readable()| == queues[q].size;
        assert was[q] + batch[..i + 1] == (was[q] + batch[..i]) + [batch[i]];
        queues[q].Receive(batch[i]);
        view := view[q := view[q] + [batch[i]]];
      }
      assert batch[..|batch|] == batch;
    }

    method Arrive(batches: seq<seq<Event>>)
      requires QueuesOk() && |batches| == |queues|
      requires forall q :: 0 <= q < |queues| ==> |view[q]| + |batches[q]| <= queues[q].data.Length
      modifies this`view, queues, set q | q in queues :: q.data
      ensures QueuesOk() && view == Appended(old(view), batches)
    {
      ghost var was := view;
      for q := 0 to |queues|
        invariant QueuesOk() && (forall j :: 0 <= j < q ==> view[j] == was[j] + batches[j])
        invariant forall j :: q <= j < |queues| ==> view[j] == was[j]
      {
        ArriveAt(q, batches[q]);
      }
    }

    /** How many events each ring can hold. */
    ghost function Room(): seq<nat> { seq(|queues|, q requires 0 <= q < |queues| => queues[q].data.Length) }

    /**
      poll. Each time it waits, the next entry of wakes says what the writers had appended to each
      queue by the time it resumed, possibly nothing; done is false if it is still waiting when they
      run out. scans has one entry per stretch between waits.
     */
    method Poll(maxReads: nat, wakes: seq<seq<seq<Event>>>) returns (done: bool, data: seq<Event>, ghost scans: seq<ScanLog>)
      requires Valid() && (forall k :: 0 <= k < |wakes| ==> |wakes[k]| == |queues|) && RoomFor(maxReads, view, wakes, Room())
      modifies this, queues, set q | q in queues :: q.data
      ensures Valid() && 1 <= |scans| <= |wakes| + 1 && forall k :: 0 <= k < |scans| ==> FairScan(scans[k])
      ensures Conserved(WithArrivals(old(view), wakes[..|scans| - 1]), Joined(scans), view)
      ensures data == Delivered(handles.known, Joined(scans)) && DeliveredFrom(handles.known, Joined(scans), data) && |data| <= maxReads
      ensures done ==> data != [] && (|data| < maxReads ==> AllDrained(view))
      ensures !done ==> data == [] && |scans| == |wakes| + 1 && (maxReads > 0 ==> AllDrained(view))
    {
      hide FairScan, Polled, WithArrivals, Delivered, Conserved, Fair, RoomFor, AllDrained, Appended, Joined, QueuesOk, DeliveredFrom;
      ghost var was, scan := view, *;
      done := true;
      data, scan := Scan(maxReads);
      scans := [scan];
      PolledFirst(handles.known, was, wakes, scan, view, data);
      var next := 0;
      while data == []
        invariant Valid() && next + 1 == |scans| <= |wakes| + 1 && |data| <= maxReads
        invariant Polled(handles.known, was, wakes, scans, view, data)
        invariant |data| < maxReads ==> AllDrained(view)
        invariant maxReads == 0 ==> view == WithArrivals(was, wakes[..next])
        decreases |wakes| - next, |data| == 0
      {
        if next == |wakes| {
          done := false;
          break;
        }
        ghost var before := view;
        FitsNow(maxReads, was, wakes, Room(), view, next);
        data, scan := Resume(maxReads, wakes[next]);
        PolledNext(handles.known, was, wakes, scans, before, Appended(before, wakes[next]), scan, view, data);
        scans := scans + [scan];
        next := next + 1;
      }
      PolledMeans(handles.known, was, wakes, scans, view, data);
      DeliveredRight(handles.known, Joined(scans));
    }

    /** A wait, what arrives during it, and the scan after it. */
    method Resume(maxReads: nat, batches: seq<seq<Event>>) returns (data: seq<Event>, ghost scan: ScanLog)
      requires Valid() && |batches| == |queues| && forall q :: 0 <= q < |queues| ==> |view[q]| + |batches[q]| <= Room()[q]
      modifies this, queues, set q | q in queues :: q.data
      ensures Valid() && |data| <= maxReads && data == Delivered(handles.known, scan.log) && (maxReads == 0 ==> scan.log == [])
      ensures Conserved(Appended(old(view), batches), scan.log, view) && FairScan(scan) && scan.left == view
      ensures |data| < maxReads ==> AllDrained(view)
    {
      hide FairScan, Delivered, Conserved, AllDrained, QueuesOk;
      Arrive(batches);
      data, scan := Scan(maxReads);
    }
  }

  /** One stretch of the poll between waits: what it read, where it started, how far it went round and what it left. */
  datatype ScanLog = ScanLog(log: seq<Read>, start: nat, rounds: nat, part: nat, left: seq<seq<Event>>)

  ghost predicate FairScan(s: ScanLog) {
    (s.left == [] || s.start < |s.left|) && Fair(s.log, s.left, s.start, s.rounds, s.part)
  }

  function Joined(scans: seq<ScanLog>): seq<Read> {
    if scans == [] then [] else Joined(scans[..|scans| - 1]) + scans[|scans| - 1].log
  }

  /** What poll has established after some scans. */
  ghost predicate Polled(known: seq<Full>, was: seq<seq<Event>>, wakes: seq<seq<seq<Event>>>, scans: seq<ScanLog>,
                         view: seq<seq<Event>>, data: seq<Event>)
    requires forall k :: 0 <= k < |wakes| ==> |wakes[k]| == |was|
  {
    && 1 <= |scans| <= |wakes| + 1 && (forall k :: 0 <= k < |scans| ==> FairScan(scans[k]))
    && Conserved(WithArrivals(was, wakes[..|scans| - 1]), Joined(scans), view) && data == Delivered(known, Joined(scans))
  }

  lemma PolledFirst(known: seq<Full>, was: seq<seq<Event>>, wakes: seq<seq<seq<Event>>>, scan: ScanLog, view: seq<seq<Event>>, data: seq<Event>)
    requires forall k :: 0 <= k < |wakes| ==> |wakes[k]| == |was|
    requires FairScan(scan) && Conserved(was, scan.log, view) && data == Delivered(known, scan.log)
    ensures Polled(known, was, wakes, [scan], view, data) && WithArrivals(was, wakes[..0]) == was
    ensures scan.log == [] ==> view == was
  {
    assert [scan][..0] == [] && Joined([scan]) == scan.log;
    hide FairScan, Delivered;
    if scan.log == [] {
      assert forall q :: 0 <= q < |was| ==> was[q] == view[q];
    }
  }

  lemma PolledNext(known: seq<Full>, was: seq<seq<Event>>, wakes: seq<seq<seq<Event>>>, scans: seq<ScanLog>, before: seq<seq<Event>>,
                   mid: seq<seq<Event>>, scan: ScanLog, view: seq<seq<Event>>, data: seq<Event>)
    requires forall k :: 0 <= k < |wakes| ==> |wakes[k]| == |was|
    requires Polled(known, was, wakes, scans, before, []) && |before| == |was| && |scans| <= |wakes|
    requires mid == Appended(before, wakes[|scans| - 1]) && Conserved(mid, scan.log, view) && FairScan(scan) && data == Delivered(known, scan.log)
    ensures Polled(known, was, wakes, scans + [scan], view, data)
    ensures scan.log == [] && before == WithArrivals(was, wakes[..|scans| - 1]) ==> view == WithArrivals(was, wakes[..|scans|])
  {
    hide WithArrivals, Delivered, FairScan, Conserved, Appended;
    Resumed(known, was, wakes, |scans| - 1, Joined(scans), before, mid, scan.log, view);
    assert (scans + [scan])[..|scans|] == scans;
    if scan.log == [] && before == WithArrivals(was, wakes[..|scans| - 1]) {
      NothingTaken(mid, view);
      OneWakeMore(was, wakes, |scans| - 1);
    }
  }

  lemma NothingTaken(was: seq<seq<Event>>, view: seq<seq<Event>>)
    requires Conserved(was, [], view)
    ensures view == was
  {
    assert forall q :: 0 <= q < |was| ==> was[q] == view[q];
  }

  lemma OneWakeMore(was: seq<seq<Event>>, wakes: seq<seq<seq<Event>>>, k: nat)
    requires k < |wakes| && forall j :: 0 <= j < |wakes| ==> |wakes[j]| == |was|
    ensures WithArrivals(was, wakes[..k + 1]) == Appended(WithArrivals(was, wakes[..k]), wakes[k])
  {
    assert wakes[..k + 1][..k] == wakes[..k];
  }

  lemma PolledMeans(known: seq<Full>, was: seq<seq<Event>>, wakes: seq<seq<seq<Event>>>, scans: seq<ScanLog>, view: seq<seq<Event>>, data: seq<Event>)
    requires forall k :: 0 <= k < |wakes| ==> |wakes[k]| == |was|
    requires Polled(known, was, wakes, scans, view, data)
    ensures 1 <= |scans| <= |wakes| + 1 && (forall k :: 0 <= k < |scans| ==> FairScan(scans[k]))
    ensures Conserved(WithArrivals(was, wakes[..|scans| - 1]), Joined(scans), view) && data == Delivered(known, Joined(scans))
  {
  }

  /** Each arrival fits: into the empty rings that a waiting poll leaves, or in all if it may read nothing. */
  ghost predicate RoomFor(maxReads: nat, was: seq<seq<Event>>, wakes: seq<seq<seq<Event>>>, room: seq<nat>)
    requires |room| == |was| && forall k :: 0 <= k < |wakes| ==> |wakes[k]| == |was|
  {
    if maxReads > 0 then forall k, q :: 0 <= k < |wakes| && 0 <= q < |was| ==> |wakes[k][q]| <= room[q]
    else forall q :: 0 <= q < |was| ==> |WithArrivals(was, wakes)[q]| <= room[q]
  }

  lemma FitsNow(maxReads: nat, was: seq<seq<Event>>, wakes: seq<seq<seq<Event>>>, room: seq<nat>, view: seq<seq<Event>>, next: nat)
    requires |room| == |was| == |view| && (forall k :: 0 <= k < |wakes| ==> |wakes[k]| == |was|) && next < |wakes|
    requires RoomFor(maxReads, was, wakes, room)
    requires maxReads > 0 ==> AllDrained(view)
    requires maxReads == 0 ==> view == WithArrivals(was, wakes[..next])
    ensures forall q :: 0 <= q < |view| ==> |view[q]| + |wakes[next][q]| <= room[q]
  {
    ArrivalsGrow(was, wakes, next);
    hide WithArrivals;
  }

  /** Arrivals only add to what the queues would hold. */
  lemma {:induction false} ArrivalsGrow(was: seq<seq<Event>>, wakes: seq<seq<seq<Event>>>, k: nat)
    requires k <= |wakes| && forall j :: 0 <= j < |wakes| ==> |wakes[j]| == |was|
    ensures forall q :: 0 <= q < |was| ==> |WithArrivals(was, wakes[..k])[q]| + (if k < |wakes| then |wakes[k][q]| else 0) <= |WithArrivals(was, wakes)[q]|
    decreases |wakes| - k
  {
    if k == |wakes| {
      assert wakes[..k] == wakes;
    } else {
      ArrivalsGrow(was, wakes, k + 1);
      assert wakes[..k + 1][..k] == wakes[..k] && wakes[..k + 1][k] == wakes[k];
    }
  }

  function Appended(queues: seq<seq<Event>>, more: seq<seq<Event>>): seq<seq<Event>>
    requires |more| == |queues|
  {
    seq(|queues|, q requires 0 <= q < |queues| => queues[q] + more[q])
  }

  /** What the queues would hold if nothing had been read. */
  function WithArrivals(queues: seq<seq<Event>>, wakes: seq<seq<seq<Event>>>): (r: seq<seq<Event>>)
    requires forall k :: 0 <= k < |wakes| ==> |wakes[k]| == |queues|
    ensures |r| == |queues|
    decreases |wakes|
  {
    if wakes == [] then queues else Appended(WithArrivals(queues, wakes[..|wakes| - 1]), wakes[|wakes| - 1])
  }

  lemma {:induction false} FromQueueAppend(a: seq<Read>, b: seq<Read>, q: int)
    ensures FromQueue(a + b, q) == FromQueue(a, q) + FromQueue(b, q)
    decreases |b|
  {
    if b == [] {
      assert a + b == a;
    } else {
      FromQueueAppend(a, b[..|b| - 1], q);
      assert (a + b)[..|a + b| - 1] == a + b[..|b| - 1];
    }
  }

  lemma {:induction false} DeliveredAppend(known: seq<Full>, a: seq<Read>, b: seq<Read>)
    ensures Delivered(known, a + b) == Delivered(known, a) + Delivered(known, b)
    decreases |b|
  {
    if b == [] {
      assert a + b == a;
    } else {
      DeliveredAppend(known, a, b[..|b| - 1]);
      assert (a + b)[..|a + b| - 1] == a + b[..|b| - 1];
    }
  }

  /** A scan after a wake-up continues the log of the ones before it. */
  lemma Resumed(known: seq<Full>, was: seq<seq<Event>>, wakes: seq<seq<seq<Event>>>, used: nat, log: seq<Read>,
                before: seq<seq<Event>>, mid: seq<seq<Event>>, more: seq<Read>, queues: seq<seq<Event>>)
    requires used < |wakes| && forall k :: 0 <= k < |wakes| ==> |wakes[k]| == |was|
    requires |before| == |was| && mid == Appended(before, wakes[used])
    requires Conserved(WithArrivals(was, wakes[..used]), log, before) && Conserved(mid, more, queues)
    ensures Conserved(WithArrivals(was, wakes[..used + 1]), log + more, queues)
    ensures Delivered(known, log + more) == Delivered(known, log) + Delivered(known, more)
  {
    DeliveredAppend(known, log, more);
    var w := WithArrivals(was, wakes[..used]);
    OneWakeMore(was, wakes, used);
    hide WithArrivals, Delivered, FromQueue;
    forall q | 0 <= q < |was|
      ensures Appended(w, wakes[used])[q] == FromQueue(log + more, q) + queues[q]
    {
      FromQueueAppend(log, more, q);
      assert mid[q] == before[q] + wakes[used][q];
      Glue(w[q], before[q], wakes[used][q], FromQueue(log, q), FromQueue(more, q), queues[q]);
    }
  }

  lemma Glue(w: seq<Event>, b: seq<Event>, a: seq<Event>, f: seq<Event>, m: seq<Event>, rest: seq<Event>)
    requires w == f + b && b + a == m + rest
    ensures w + a == (f + m) + rest
  {
    assert (f + b) + a == f + (b + a);
    assert f + (m + rest) == (f + m) + rest;
  }

  /** Between waits, a queue that still has events was read at most once less often than any other queue. */
  lemma NoQueueStarves(log: seq<Read>, queues: seq<seq<Event>>, start: nat, rounds: nat, part: nat, a: nat, b: nat)
    requires a < |queues| && b < |queues| && start < |queues| && queues[a] != [] && Fair(log, queues, start, rounds, part)
    ensures |FromQueue(log, b)| <= |FromQueue(log, a)| + 1
    ensures queues[b] != [] ==> |FromQueue(log, a)| <= |FromQueue(log, b)| + 1
  {
    hide FromQueue;
  }

  /** Every queue is empty. */
  ghost predicate AllDrained(queues: seq<seq<Event>>) { forall q :: 0 <= q < |queues| ==> queues[q] == [] }

  /** What the scan has established after some visits. */
  ghost predicate Progress(was: seq<seq<Event>>, start: nat, log: seq<Read>, queues: seq<seq<Event>>, next: nat,
                           rounds: nat, part: nat, empties: nat)
  {
    && |queues| == |was| && empties <= |queues|
    && (|queues| > 0 ==> start < |queues| && part < |queues| && next == Cell(|queues|, start, part))
    && Conserved(was, log, queues) && Fair(log, queues, start, rounds, part) && EmptyBehind(queues, next, empties)
  }

  lemma Started(queues: seq<seq<Event>>, start: nat, known: seq<Full>)
    requires |queues| == 0 || start < |queues|
    ensures Progress(queues, start, [], queues, start, 0, 0, 0) && Delivered(known, []) == []
  {
  }

  lemma FoundEmpty(was: seq<seq<Event>>, start: nat, log: seq<Read>, queues: seq<seq<Event>>, at: nat, rounds: nat, part: nat, empties: nat)
    requires Progress(was, start, log, queues, at, rounds, part, empties) && at < |queues| && empties < |queues| && queues[at] == []
    ensures var n := |queues|;
            Progress(was, start, log, queues, if at + 1 == n then 0 else at + 1,
                     if part + 1 == n then rounds + 1 else rounds, if part + 1 == n then 0 else part + 1, empties + 1)
  {
    Visited(was, log, queues, start, rounds, part);
    EmptyMoves(queues, queues, at, empties + 1);
    hide Conserved, Fair, EmptyBehind;
  }

  lemma Took(was: seq<seq<Event>>, start: nat, log: seq<Read>, queues: seq<seq<Event>>, at: nat, rounds: nat, part: nat, empties: nat)
    requires Progress(was, start, log, queues, at, rounds, part, empties) && at < |queues| && queues[at] != []
    ensures var n, after := |queues|, queues[at := queues[at][1..]];
            && Total(after) < Total(queues)
            && Progress(was, start, log + [Read(at, queues[at][0])], after, if at + 1 == n then 0 else at + 1,
                        if part + 1 == n then rounds + 1 else rounds, if part + 1 == n then 0 else part + 1, 0)
  {
    Visited(was, log, queues, start, rounds, part);
    TotalDrops(queues, at);
    EmptyMoves(queues, queues[at := queues[at][1..]], at, 0);
    hide Conserved, Fair, EmptyBehind, Total;
  }

  /** One visit of the scan, whether or not it found an event. */
  lemma Visit(known: seq<Full>, was: seq<seq<Event>>, start: nat, log: seq<Read>, queues: seq<seq<Event>>, at: nat, rounds: nat, part: nat, empties: nat)
    requires Progress(was, start, log, queues, at, rounds, part, empties) && at < |queues| && empties < |queues|
    ensures var n, found := |queues|, queues[at] != [];
            var after := if found then queues[at := queues[at][1..]] else queues;
            var longer := if found then log + [Read(at, queues[at][0])] else log;
            && (found ==> Total(after) < Total(queues))
            && Progress(was, start, longer, after, if at + 1 == n then 0 else at + 1, if part + 1 == n then rounds + 1 else rounds,
                        if part + 1 == n then 0 else part + 1, if found then 0 else empties + 1)
            && (found ==> var e := Remap(known, at, queues[at][0]);
                          Delivered(known, longer) == Delivered(known, log) + if e.sensor == -1 then [] else [e])
  {
    hide Progress, Total, Delivered, Remap;
    if queues[at] == [] {
      FoundEmpty(was, start, log, queues, at, rounds, part, empties);
    } else {
      Took(was, start, log, queues, at, rounds, part, empties);
      DeliverOne(known, log, Read(at, queues[at][0]));
    }
  }

  lemma Finished(was: seq<seq<Event>>, start: nat, log: seq<Read>, queues: seq<seq<Event>>, next: nat, rounds: nat, part: nat, empties: nat)
    requires Progress(was, start, log, queues, next, rounds, part, empties)
    ensures Conserved(was, log, queues) && (|queues| == 0 || start < |queues|) && Fair(log, queues, start, rounds, part)
    ensures empties == |queues| ==> AllDrained(queues)
  {
    if empties == |queues| {
      AllEmpty(queues, next);
    }
  }

  lemma EmptyMoves(before: seq<seq<Event>>, queues: seq<seq<Event>>, at: nat, empties: nat)
    requires at < |before| == |queues|
    requires empties > 0 ==> queues == before && queues[at] == [] && EmptyBehind(before, at, empties - 1)
    ensures EmptyBehind(queues, if at + 1 == |queues| then 0 else at + 1, empties)
  {
    var n, next := |queues|, if at + 1 == |queues| then 0 else at + 1;
    forall j | 0 <= j < n && n - empties <= j
      ensures queues[Cell(n, next, j)] == []
    {
      if j < n - 1 {
        assert Cell(n, next, j) == Cell(n, at, j + 1);
      } else {
        assert Cell(n, next, j) == at;
      }
    }
  }

  lemma NextIndex(n: nat, at: nat)
    requires at < n
    ensures (at + 1) % n == if at + 1 == n then 0 else at + 1
  {
    CellIsModulo(n, at, 1);
  }

}
