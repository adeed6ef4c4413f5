/**
  The lock-free suppression table: 16 slots claimed and released by compare-and-swap, a hint and a
  counter, which together remove null-framebuffer render passes from a command stream.

  A state holds one recorder per command buffer. Each recorder is a program counter inside supp_set,
  supp_active or supp_clear, and Tick performs its next atomic operation, so a run interleaves the
  atomic operations of all buffers in any order.
 */
module Suppression {
  type Cb = nat
  const NULL: Cb := 0
  const SUPP_MAX: nat := 16

  /** The hooked commands. Other stands for next-subpass, the four draws and clear-attachments. */
  datatype Cmd = Begin(nullFramebuffer: bool) | End | Other(id: nat)

  datatype Pass = Outside | Real | Suppressed

  datatype Pc =
    | Idle               // between two API calls
    | SetScan(i: nat)    // supp_set: about to compare-and-swap slot i
    | SetHint            // supp_set: slot claimed, about to store the hint
    | SetCount           // supp_set: about to increment the counter
    | Query              // supp_active: about to load the counter
    | QueryHint          // supp_active: about to load the hint
    | QueryScan(i: nat)  // supp_active: about to load slot i
    | ClearScan(i: nat)  // supp_clear: about to compare-and-swap slot i
    | ClearHint          // supp_clear: slot released, about to retire the hint
    | ClearCount         // supp_clear: about to decrement the counter

  /**
    One command buffer: its recorder, what the app recorded into it since it was last reset, and what
    the driver received of that. lost and stale are history: the null-framebuffer Begins whose scan
    found no slot, by their index in issued, and the slots the buffer already held at its last reset.
   */
  datatype Buf = Buf(pc: Pc, issued: seq<Cmd>, sent: seq<Cmd>, lost: set<nat>, stale: nat)

  datatype State = State(slots: seq<Cb>, hint: Cb, n: int, bufs: map<Cb, Buf>)

  /** Where a stream leaves its buffer: outside any pass, in a real one or in a suppressed one. */
  function PassAfter(cmds: seq<Cmd>): Pass {
    if cmds == [] then Outside else
    match cmds[|cmds| - 1]
    case Begin(nullFramebuffer) => if nullFramebuffer then Suppressed else Real
    case End => Outside
    case Other(_) => PassAfter(cmds[..|cmds| - 1])
  }

  /** The stream minus each null-framebuffer pass, from its Begin through its End. */
  function Expected(cmds: seq<Cmd>): seq<Cmd> {
    if cmds == [] then [] else
    var before := cmds[..|cmds| - 1];
    var c := cmds[|cmds| - 1];
    if c == Begin(true) || PassAfter(before).Suppressed? then Expected(before) else Expected(before) + [c]
  }

  /** Passes do not nest. */
  predicate Bracketed(cmds: seq<Cmd>) {
    forall k :: 0 <= k < |cmds| && cmds[k].Begin? ==> PassAfter(cmds[..k]).Outside?
  }

  /** How many slots name cb. */
  function Owned(slots: seq<Cb>, cb: Cb): nat { multiset(slots)[cb] }

  /**
    The slots a buffer holds after its commands: a null-framebuffer Begin takes one unless its scan
    was lost, and an End that finds one gives it back.
   */
  function HeldAfter(cmds: seq<Cmd>, lost: set<nat>, stale: nat): nat {
    if cmds == [] then stale else
    var before := HeldAfter(cmds[..|cmds| - 1], lost, stale);
    match cmds[|cmds| - 1]
    case Begin(nullFramebuffer) => if nullFramebuffer && |cmds| - 1 !in lost then before + 1 else before
    case End => if before > 0 then before - 1 else 0
    case Other(_) => before
  }

  /** What the driver receives: no null-framebuffer Begin, and nothing else but Begins while a slot is held. */
  function SentFor(cmds: seq<Cmd>, lost: set<nat>, stale: nat): seq<Cmd> {
    if cmds == [] then [] else
    var before := cmds[..|cmds| - 1];
    var c := cmds[|cmds| - 1];
    SentFor(before, lost, stale)
    + if c == Begin(true) || (!c.Begin? && HeldAfter(before, lost, stale) > 0) then [] else [c]
  }

  function Issue(s: State, cb: Cb, cmd: Cmd): State
    requires cb in s.bufs
  {
    var b := s.bufs[cb].(issued := s.bufs[cb].issued + [cmd]);
    s.(bufs := s.bufs[cb :=
      match cmd
      case Begin(nullFramebuffer) => if nullFramebuffer then b.(pc := SetScan(0)) else b.(sent := b.sent + [cmd])
      case _ => b.(pc := Query)])
  }

  /** The buffer is reset, or freed and allocated again: no code of the table runs. */
  function Recycle(s: State, cb: Cb): State
    requires cb in s.bufs
  {
    s.(bufs := s.bufs[cb := Buf(Idle, [], [], {}, Owned(s.slots, cb))])
  }

  function Goto(s: State, cb: Cb, pc: Pc): State
    requires cb in s.bufs
  {
    s.(bufs := s.bufs[cb := s.bufs[cb].(pc := pc)])
  }

  /** supp_active answered no: the command goes to the driver. */
  function Forward(s: State, cb: Cb): State
    requires cb in s.bufs && s.bufs[cb].issued != []
  {
    var b := s.bufs[cb];
    s.(bufs := s.bufs[cb := b.(pc := Idle, sent := b.sent + [b.issued[|b.issued| - 1]])])
  }

  /** supp_active answered yes: the command is dropped, and an End releases the slot. */
  function Swallow(s: State, cb: Cb): State
    requires cb in s.bufs && s.bufs[cb].issued != []
  {
    var b := s.bufs[cb];
    Goto(s, cb, if b.issued[|b.issued| - 1] == End then ClearScan(0) else Idle)
  }

  /** supp_set ran off the table: the pass stays unsuppressed. */
  function Overflow(s: State, cb: Cb): State
    requires cb in s.bufs && s.bufs[cb].issued != []
  {
    var b := s.bufs[cb];
    s.(bufs := s.bufs[cb := b.(pc := Idle, lost := b.lost + {|b.issued| - 1})])
  }

  /** The next atomic operation of cb's recorder. */
  function Tick(s: State, cb: Cb): State
    requires cb in s.bufs && s.bufs[cb].issued != [] && |s.slots| == SUPP_MAX
  {
    match s.bufs[cb].pc
    case Idle => s
    case SetScan(i) =>
      if i >= SUPP_MAX then Overflow(s, cb)
      else if s.slots[i] == NULL then Goto(s.(slots := s.slots[i := cb]), cb, SetHint)
      else Goto(s, cb, SetScan(i + 1))
    case SetHint => Goto(s.(hint := cb), cb, SetCount)
    case SetCount => Goto(s.(n := s.n + 1), cb, Idle)
    case Query => if s.n == 0 then Forward(s, cb) else Goto(s, cb, QueryHint)
    case QueryHint => if s.hint == cb then Swallow(s, cb) else Goto(s, cb, QueryScan(0))
    case QueryScan(i) =>
      if i >= SUPP_MAX then Forward(s, cb)
      else if s.slots[i] == cb then Swallow(s, cb)
      else Goto(s, cb, QueryScan(i + 1))
    case ClearScan(i) =>
      if i >= SUPP_MAX then Goto(s, cb, Idle)
      else if s.slots[i] == cb then Goto(s.(slots := s.slots[i := NULL]), cb, ClearHint)
      else Goto(s, cb, ClearScan(i + 1))
    case ClearHint => Goto(if s.hint == cb then s.(hint := NULL) else s, cb, ClearCount)
    case ClearCount => Goto(s.(n := s.n - 1), cb, Idle)
  }

  datatype Event = Call(cb: Cb, cmd: Cmd) | Atomic(cb: Cb) | Reset(cb: Cb)

  /** One recorder at a time per buffer. */
  predicate Enabled(s: State, e: Event) {
    && e.cb in s.bufs
    && |s.slots| == SUPP_MAX
    && (e.Call? || e.Reset? ==> s.bufs[e.cb].pc.Idle?)
    && (e.Atomic? ==> !s.bufs[e.cb].pc.Idle? && s.bufs[e.cb].issued != [])
  }

  predicate Next(s: State, e: Event, t: State) {
    && Enabled(s, e)
    && t == match e case Call(cb, cmd) => Issue(s, cb, cmd) case Atomic(cb) => Tick(s, cb) case Reset(cb) => Recycle(s, cb)
  }

  /** The table empty and every buffer new. */
  predicate Initial(s: State) {
    && s.slots == seq(SUPP_MAX, i => NULL) && s.hint == NULL && s.n == 0 && NULL !in s.bufs
    && forall cb :: cb in s.bufs ==> s.bufs[cb] == Buf(Idle, [], [], {}, 0)
  }

  ghost predicate IsRun(tr: seq<State>, es: seq<Event>) {
    && |tr| == |es| + 1
    && Initial(tr[0])
    && forall k :: 0 <= k < |es| ==> Next(tr[k], es[k], tr[k + 1])
  }

  /** How many slots from slot j on are taken. */
  function Used(slots: seq<Cb>, j: nat): nat
    decreases |slots| - j
  {
    if j >= |slots| then 0 else (if slots[j] == NULL then 0 else 1) + Used(slots, j + 1)
  }

  /** Buffers opening a suppression whose scan is at slot j or later. */
  ghost function Scanners(s: State, j: nat): set<Cb> {
    set cb | cb in s.bufs && s.bufs[cb].pc.SetScan? && s.bufs[cb].pc.i >= j
  }

  /** The claims on slots from j on: those taken, and the buffers still scanning there. */
  ghost function Load(s: State, j: nat): nat { Used(s.slots, j) + |Scanners(s, j)| }

  /** No more than 16 suppressions are ever being opened or held at once. */
  ghost predicate Fits(tr: seq<State>) { forall k :: 0 <= k < |tr| ==> Load(tr[k], 0) <= 16 }
}

module SuppressionProofs {
  import opened Suppression
  import opened Common

  function Last(cmds: seq<Cmd>): Cmd requires cmds != [] { cmds[|cmds| - 1] }

  function Before(cmds: seq<Cmd>): seq<Cmd> requires cmds != [] { cmds[..|cmds| - 1] }

  // ---- the history functions -------------------------------------------------

  /** Only indices of the stream itself matter to it. */
  lemma {:induction false} LostBeyond(cmds: seq<Cmd>, a: set<nat>, b: set<nat>, stale: nat)
    requires forall i: nat :: i < |cmds| ==> (i in a <==> i in b)
    ensures HeldAfter(cmds, a, stale) == HeldAfter(cmds, b, stale) && SentFor(cmds, a, stale) == SentFor(cmds, b, stale)
  {
    if cmds != [] {
      LostBeyond(Before(cmds), a, b, stale);
    }
  }

  /** The slots held, and the commands sent, before the buffer's current command. */
  ghost function HeldBefore(b: Buf): nat requires b.issued != [] { HeldAfter(Before(b.issued), b.lost, b.stale) }
  ghost predicate SentBefore(b: Buf) {
    b.issued != [] && b.sent == SentFor(Before(b.issued), b.lost, b.stale) && forall i :: i in b.lost ==> i < |b.issued| - 1 && b.issued[i] == Begin(true)
  }

  /** A finished command leaves the record as the history functions say. */
  ghost predicate Settled(b: Buf, owned: nat) {
    && b.sent == SentFor(b.issued, b.lost, b.stale) && owned == HeldAfter(b.issued, b.lost, b.stale)
    && forall i :: i in b.lost ==> i < |b.issued| && b.issued[i] == Begin(true)
  }

  /** Buffer cb's slots and sent commands are what the history functions say, adjusted for the operation in progress. */
  ghost predicate BufOk(s: State, cb: Cb)
    requires cb in s.bufs
  {
    var b := s.bufs[cb];
    var owned := Owned(s.slots, cb);
    match b.pc
    case Idle => Settled(b, owned)
    case SetScan(_) => SentBefore(b) && Last(b.issued) == Begin(true) && owned == HeldBefore(b)
    case SetHint => SentBefore(b) && Last(b.issued) == Begin(true) && owned == HeldBefore(b) + 1
    case SetCount => SentBefore(b) && Last(b.issued) == Begin(true) && owned == HeldBefore(b) + 1
    case Query => SentBefore(b) && !Last(b.issued).Begin? && owned == HeldBefore(b)
    case QueryHint => SentBefore(b) && !Last(b.issued).Begin? && owned == HeldBefore(b)
    case QueryScan(i) => SentBefore(b) && !Last(b.issued).Begin? && owned == HeldBefore(b) && cb !in s.slots[..Min(i, |s.slots|)]
    case ClearScan(i) =>
      SentBefore(b) && Last(b.issued) == End && owned == HeldBefore(b) && owned > 0 && cb !in s.slots[..Min(i, |s.slots|)]
    case ClearHint => SentBefore(b) && Last(b.issued) == End && owned + 1 == HeldBefore(b)
    case ClearCount => SentBefore(b) && Last(b.issued) == End && owned + 1 == HeldBefore(b)
  }

  predicate IsSetting(pc: Pc) { pc.SetHint? || pc.SetCount? }
  predicate IsClearing(pc: Pc) { pc.ClearHint? || pc.ClearCount? }

  /** Buffers whose slot is claimed and not yet counted, and those whose slot is released and still counted. */
  ghost function Setting(s: State): set<Cb> { set cb | cb in s.bufs && IsSetting(s.bufs[cb].pc) }
  ghost function Clearing(s: State): set<Cb> { set cb | cb in s.bufs && IsClearing(s.bufs[cb].pc) }

  ghost predicate TableOk(s: State) {
    && |s.slots| == SUPP_MAX
    && NULL !in s.bufs
    && (forall k :: 0 <= k < |s.slots| && s.slots[k] != NULL ==> s.slots[k] in s.bufs)
    && (s.hint != NULL ==> s.hint in s.bufs && HintOk(s, s.hint))
  }

  ghost predicate HintOk(s: State, cb: Cb)
    requires cb in s.bufs
  {
    s.hint == cb ==> cb in s.slots || s.bufs[cb].pc.ClearHint?
  }

  ghost predicate CountOk(s: State) { s.n == Used(s.slots, 0) + |Clearing(s)| - |Setting(s)| }

  ghost predicate Inv(s: State) {
    TableOk(s) && CountOk(s) && forall cb :: cb in s.bufs ==> BufOk(s, cb)
  }

  // ---- slots -----------------------------------------------------------------

  lemma {:induction false} UsedUpdate(slots: seq<Cb>, i: nat, x: Cb, j: nat)
    requires i < |slots|
    ensures Used(slots[i := x], j) == Used(slots, j) + if i < j then 0 else Taken(x) - Taken(slots[i])
    decreases |slots| - j
  {
    if j < |slots| {
      UsedUpdate(slots, i, x, j + 1);
    }
  }

  function Taken(x: Cb): nat { if x == NULL then 0 else 1 }

  lemma OwnedUpdate(slots: seq<Cb>, i: nat, x: Cb, cb: Cb)
    requires i < |slots|
    ensures Owned(slots[i := x], cb) == Owned(slots, cb) + (if x == cb then 1 else 0) - (if slots[i] == cb then 1 else 0)
    ensures cb in slots <==> Owned(slots, cb) > 0
  {
  }

  /** What a step of cb may do to the slots: nothing, claim a free one, or release one of its own. */
  ghost predicate SlotMove(a: seq<Cb>, b: seq<Cb>, cb: Cb) {
    || b == a
    || (exists i :: 0 <= i < |a| && Claims(a, b, cb, i))
    || (exists i :: 0 <= i < |a| && Frees(a, b, cb, i))
  }

  predicate Claims(a: seq<Cb>, b: seq<Cb>, cb: Cb, i: nat) { i < |a| && a[i] == NULL && b == a[i := cb] }
  predicate Frees(a: seq<Cb>, b: seq<Cb>, cb: Cb, i: nat) { i < |a| && a[i] == cb && b == a[i := NULL] }

  /** What a step of cb may change: cb's own record, slots from or to cb, the hint from or to cb. */
  ghost predicate OnlyBy(s: State, t: State, cb: Cb) {
    && cb in s.bufs && cb in t.bufs && t.bufs == s.bufs[cb := t.bufs[cb]] && SlotMove(s.slots, t.slots, cb)
    && (t.hint != s.hint ==> t.hint == cb || (s.hint == cb && t.hint == NULL))
  }

  lemma TickOnlyBy(s: State, cb: Cb)
    requires cb in s.bufs && s.bufs[cb].issued != [] && |s.slots| == SUPP_MAX
    ensures OnlyBy(s, Tick(s, cb), cb)
  {
    var t := Tick(s, cb);
    match s.bufs[cb].pc
    case SetScan(i) =>
      if i < SUPP_MAX && s.slots[i] == NULL {
        assert Claims(s.slots, t.slots, cb, i);
      }
    case ClearScan(i) =>
      if i < SUPP_MAX && s.slots[i] == cb {
        assert Frees(s.slots, t.slots, cb, i);
      }
    case _ =>
  }

  /** A step of cb moves no slot of another buffer. */
  lemma OtherSlots(a: seq<Cb>, b: seq<Cb>, cb: Cb, c: Cb)
    requires SlotMove(a, b, cb) && c != cb && c != NULL && cb != NULL
    ensures |b| == |a| && Owned(b, c) == Owned(a, c) && (c in b <==> c in a)
    ensures forall i: nat :: i <= |a| ==> (c in b[..i] <==> c in a[..i])
  {
    if i :| 0 <= i < |a| && (Claims(a, b, cb, i) || Frees(a, b, cb, i)) {
      OwnedUpdate(a, i, b[i], c);
      assert forall k :: 0 <= k < |a| ==> (b[k] == c <==> a[k] == c);
    }
  }

  lemma Others(s: State, t: State, cb: Cb, c: Cb)
    requires OnlyBy(s, t, cb) && c != cb && c in s.bufs && cb != NULL && c != NULL && BufOk(s, c)
    ensures c in t.bufs && t.bufs[c] == s.bufs[c] && BufOk(t, c)
  {
    OtherSlots(s.slots, t.slots, cb, c);
    hide SlotMove, SentBefore, Settled, Owned;
  }

  // ---- the counter -----------------------------------------------------------

  lemma SettingStep(s: State, t: State, cb: Cb)
    requires cb in s.bufs && cb in t.bufs && t.bufs == s.bufs[cb := t.bufs[cb]]
    ensures |Setting(t)| == |Setting(s)| - Bit(IsSetting(s.bufs[cb].pc)) + Bit(IsSetting(t.bufs[cb].pc))
  {
    assert Setting(t) == if IsSetting(t.bufs[cb].pc) then Setting(s) + {cb} else Setting(s) - {cb};
    assert cb in Setting(s) <==> IsSetting(s.bufs[cb].pc);
    hide IsSetting, Setting;
    Card(Setting(s), cb);
  }

  lemma ClearingStep(s: State, t: State, cb: Cb)
    requires cb in s.bufs && cb in t.bufs && t.bufs == s.bufs[cb := t.bufs[cb]]
    ensures |Clearing(t)| == |Clearing(s)| - Bit(IsClearing(s.bufs[cb].pc)) + Bit(IsClearing(t.bufs[cb].pc))
  {
    assert Clearing(t) == if IsClearing(t.bufs[cb].pc) then Clearing(s) + {cb} else Clearing(s) - {cb};
    assert cb in Clearing(s) <==> IsClearing(s.bufs[cb].pc);
    hide IsClearing, Clearing;
    Card(Clearing(s), cb);
  }

  /** Distinct buffers that each hold a slot are no more than the slots taken. */
  lemma {:induction false} HoldersFit(slots: seq<Cb>, j: nat, cs: set<Cb>)
    requires j <= |slots| && NULL !in cs && forall c :: c in cs ==> c in slots[j..]
    ensures |cs| <= Used(slots, j)
    decreases |slots| - j
  {
    if j == |slots| {
      assert cs == {};
    } else {
      var c := slots[j];
      assert slots[j..] == [c] + slots[j + 1..];
      HoldersFit(slots, j + 1, cs - {c});
      if c !in cs {
        assert cs - {c} == cs;
      }
    }
  }

  /** With the counter at zero a buffer between its own set and clear holds nothing. */
  lemma ZeroMeansNone(s: State, cb: Cb)
    requires Inv(s) && cb in s.bufs && s.n <= 0 && !IsSetting(s.bufs[cb].pc)
    ensures cb !in s.slots
  {
    if cb in s.slots {
      var cs := Setting(s) + {cb};
      forall c | c in cs
        ensures c in s.slots[0..]
      {
        assert s.slots[0..] == s.slots && BufOk(s, c);
        OwnedUpdate(s.slots, 0, NULL, c);
      }
      HoldersFit(s.slots, 0, cs);
    }
  }

  // ---- one atomic operation --------------------------------------------------

  /** What one step of cb guarantees about cb itself. */
  ghost predicate StepRight(s: State, t: State, cb: Cb) {
    && OnlyBy(s, t, cb) && BufOk(t, cb) && HintOk(t, cb)
    && t.n - s.n == Used(t.slots, 0) - Used(s.slots, 0)
                    + Bit(IsClearing(t.bufs[cb].pc)) - Bit(IsClearing(s.bufs[cb].pc))
                    - Bit(IsSetting(t.bufs[cb].pc)) + Bit(IsSetting(s.bufs[cb].pc))
  }

  /** The history functions at the end of the current command. */
  lemma HistoryStep(b: Buf)
    requires SentBefore(b)
    ensures var c := Last(b.issued);
            && SentFor(b.issued, b.lost, b.stale)
               == (if c == Begin(true) || (!c.Begin? && HeldBefore(b) > 0) then b.sent else b.sent + [c])
            && HeldAfter(b.issued, b.lost, b.stale)
               == (if c == Begin(true) then HeldBefore(b) + 1 else if c == End && HeldBefore(b) > 0 then HeldBefore(b) - 1 else HeldBefore(b))
  {
  }

  lemma OverflowRight(s: State, cb: Cb)
    requires Enabled(s, Atomic(cb)) && BufOk(s, cb) && HintOk(s, cb) && cb != NULL && s.bufs[cb].pc.SetScan? && s.bufs[cb].pc.i >= SUPP_MAX
    ensures StepRight(s, Tick(s, cb), cb)
  {
    var b := s.bufs[cb];
    var d := b.(pc := Idle, lost := b.lost + {|b.issued| - 1});
    LostBeyond(Before(b.issued), b.lost, d.lost, b.stale);
    TickOnlyBy(s, cb);
    assert Tick(s, cb).bufs[cb] == d && Tick(s, cb).slots == s.slots;
    assert Settled(d, Owned(s.slots, cb));
    hide SlotMove, Owned, SentFor, HeldAfter;
  }

  /** Steps of cb that move no slot. */
  lemma NoSlotMoves(s: State, t: State, cb: Cb)
    requires cb in s.bufs && cb in t.bufs && t.bufs == s.bufs[cb := t.bufs[cb]] && t.slots == s.slots
    requires (t.hint != s.hint ==> t.hint == cb || (s.hint == cb && t.hint == NULL)) && BufOk(t, cb) && HintOk(t, cb)
    requires t.n - s.n == Bit(IsClearing(t.bufs[cb].pc)) - Bit(IsClearing(s.bufs[cb].pc))
                          - Bit(IsSetting(t.bufs[cb].pc)) + Bit(IsSetting(s.bufs[cb].pc))
    ensures StepRight(s, t, cb)
  {
    hide BufOk, Used;
  }

  lemma ScanRight(s: State, cb: Cb, i: nat)
    requires Enabled(s, Atomic(cb)) && BufOk(s, cb) && HintOk(s, cb) && cb != NULL && s.bufs[cb].pc == SetScan(i) && i < SUPP_MAX
    ensures StepRight(s, Tick(s, cb), cb)
  {
    var t := Tick(s, cb);
    hide Owned, SentBefore, HeldBefore, StepRight;
    if s.slots[i] == NULL {
      ClaimRight(s, cb, i);
    } else {
      assert BufOk(t, cb) && HintOk(t, cb);
      NoSlotMoves(s, t, cb);
    }
  }

  lemma ClaimRight(s: State, cb: Cb, i: nat)
    requires Enabled(s, Atomic(cb)) && s.bufs[cb].pc == SetScan(i) && i < SUPP_MAX && s.slots[i] == NULL && cb != NULL && BufOk(s, cb)
    ensures StepRight(s, Tick(s, cb), cb)
  {
    var t := Tick(s, cb);
    OwnedUpdate(s.slots, i, cb, cb);
    UsedUpdate(s.slots, i, cb, 0);
    assert Claims(s.slots, t.slots, cb, i) && t.slots[i] == cb;
    hide Owned, Used, SentBefore, HeldBefore, Claims, Frees;
  }

  lemma ClaimedRight(s: State, cb: Cb)
    requires Enabled(s, Atomic(cb)) && BufOk(s, cb) && HintOk(s, cb) && cb != NULL && (s.bufs[cb].pc.SetHint? || s.bufs[cb].pc.SetCount?)
    ensures StepRight(s, Tick(s, cb), cb)
  {
    var b, t := s.bufs[cb], Tick(s, cb);
    HistoryStep(b);
    assert cb in s.slots <==> Owned(s.slots, cb) > 0;
    hide Owned, SentFor, HeldAfter;
    assert t.bufs[cb] == b.(pc := if b.pc.SetHint? then SetCount else Idle);
    assert BufOk(t, cb) && HintOk(t, cb);
    NoSlotMoves(s, t, cb);
    hide StepRight;
  }

  /** Dropping when a slot is held, and forwarding when none is, is what the history functions say. */
  lemma AnswerRight(s: State, cb: Cb)
    requires cb in s.bufs && BufOk(s, cb) && s.bufs[cb].issued != [] && HintOk(s, cb)
    requires s.bufs[cb].pc.Query? || s.bufs[cb].pc.QueryHint? || s.bufs[cb].pc.QueryScan?
    ensures StepRight(s, if cb in s.slots then Swallow(s, cb) else Forward(s, cb), cb)
  {
    HistoryStep(s.bufs[cb]);
    assert cb in s.slots <==> Owned(s.slots, cb) > 0;
    assert s.slots[..0] == [];
    hide Owned, Used, SentFor, HeldAfter;
  }

  lemma KeepAsking(s: State, cb: Cb)
    requires Enabled(s, Atomic(cb)) && BufOk(s, cb) && HintOk(s, cb)
    requires Asks(s, cb)
    ensures StepRight(s, Tick(s, cb), cb)
  {
    var pc := s.bufs[cb].pc;
    if pc.QueryScan? {
      assert s.slots[..pc.i + 1] == s.slots[..pc.i] + [s.slots[pc.i]];
    }
    assert s.slots[..0] == [];
    hide Owned, Used, SentFor, HeldAfter, SentBefore;
  }

  /** The query is not answered yet. */
  predicate Asks(s: State, cb: Cb)
    requires cb in s.bufs && |s.slots| == SUPP_MAX
  {
    var pc := s.bufs[cb].pc;
    (pc.Query? && s.n != 0) || (pc.QueryHint? && s.hint != cb) || (pc.QueryScan? && pc.i < SUPP_MAX && s.slots[pc.i] != cb)
  }

  /** The counter and hint fast paths answer as the full scan would: no false hit and no miss. */
  lemma QueryRight(s: State, cb: Cb)
    requires Inv(s) && Enabled(s, Atomic(cb)) && (s.bufs[cb].pc.Query? || s.bufs[cb].pc.QueryHint? || s.bufs[cb].pc.QueryScan?)
    ensures StepRight(s, Tick(s, cb), cb)
    ensures !Asks(s, cb) ==> Tick(s, cb) == if cb in s.slots then Swallow(s, cb) else Forward(s, cb)
  {
    assert BufOk(s, cb) && HintOk(s, cb) by { HintFor(s, cb); }
    if Asks(s, cb) {
      KeepAsking(s, cb);
    } else {
      AnswerRight(s, cb);
      Answered(s, cb);
    }
    hide StepRight, Inv, Tick;
  }

  lemma HintFor(s: State, cb: Cb)
    requires Inv(s) && cb in s.bufs
    ensures BufOk(s, cb) && HintOk(s, cb) && cb != NULL
  {
  }

  lemma Answered(s: State, cb: Cb)
    requires Inv(s) && Enabled(s, Atomic(cb)) && !Asks(s, cb)
    requires s.bufs[cb].pc.Query? || s.bufs[cb].pc.QueryHint? || s.bufs[cb].pc.QueryScan?
    ensures Tick(s, cb) == if cb in s.slots then Swallow(s, cb) else Forward(s, cb)
  {
    var pc := s.bufs[cb].pc;
    HintFor(s, cb);
    if pc.Query? {
      ZeroMeansNone(s, cb);
    } else if pc.QueryScan? && pc.i >= SUPP_MAX {
      assert s.slots[..SUPP_MAX] == s.slots;
    }
    hide Inv, Owned;
  }

  lemma ClearRight(s: State, cb: Cb)
    requires Enabled(s, Atomic(cb)) && BufOk(s, cb) && HintOk(s, cb) && cb != NULL && (s.bufs[cb].pc.ClearScan? || s.bufs[cb].pc.ClearHint? || s.bufs[cb].pc.ClearCount?)
    ensures StepRight(s, Tick(s, cb), cb)
  {
    var b, t := s.bufs[cb], Tick(s, cb);
    if b.pc.ClearScan? {
      ClearInRange(s, cb, b.pc.i);
      TickOnlyBy(s, cb);
      Release(s, cb, b.pc.i);
    } else {
      ClearedRight(s, cb);
    }
    hide StepRight, Tick;
  }

  lemma ClearedRight(s: State, cb: Cb)
    requires Enabled(s, Atomic(cb)) && BufOk(s, cb) && HintOk(s, cb) && cb != NULL && (s.bufs[cb].pc.ClearHint? || s.bufs[cb].pc.ClearCount?)
    ensures StepRight(s, Tick(s, cb), cb)
  {
    var b, t := s.bufs[cb], Tick(s, cb);
    HistoryStep(b);
    hide Owned, SentFor, HeldAfter;
    assert t.bufs[cb] == b.(pc := if b.pc.ClearHint? then ClearCount else Idle);
    assert BufOk(t, cb) && HintOk(t, cb);
    NoSlotMoves(s, t, cb);
    hide StepRight;
  }

  lemma ClearInRange(s: State, cb: Cb, i: nat)
    requires |s.slots| == SUPP_MAX && cb in s.bufs && s.bufs[cb].pc == ClearScan(i) && BufOk(s, cb)
    ensures i < SUPP_MAX
  {
    assert s.slots[..SUPP_MAX] == s.slots;
    assert cb in s.slots <==> Owned(s.slots, cb) > 0;
  }

  lemma Release(s: State, cb: Cb, i: nat)
    requires i < SUPP_MAX && |s.slots| == SUPP_MAX && Enabled(s, Atomic(cb)) && s.bufs[cb].pc == ClearScan(i) && BufOk(s, cb) && HintOk(s, cb)
    requires OnlyBy(s, Tick(s, cb), cb) && cb != NULL
    ensures StepRight(s, Tick(s, cb), cb)
  {
    OwnedUpdate(s.slots, 0, NULL, cb);
    assert s.slots[..i + 1] == s.slots[..i] + [s.slots[i]];
    OwnedUpdate(s.slots, i, NULL, cb);
    UsedUpdate(s.slots, i, NULL, 0);
    hide Owned, Used, SlotMove, SentFor, HeldAfter, SentBefore;
  }

  lemma TickRight(s: State, cb: Cb)
    requires Inv(s) && Enabled(s, Atomic(cb))
    ensures StepRight(s, Tick(s, cb), cb)
  {
    HintFor(s, cb);
    hide Inv, StepRight, Tick;
    match s.bufs[cb].pc
    case SetScan(i) => if i >= SUPP_MAX { OverflowRight(s, cb); } else { ScanRight(s, cb, i); }
    case SetHint => ClaimedRight(s, cb);
    case SetCount => ClaimedRight(s, cb);
    case Query => QueryRight(s, cb);
    case QueryHint => QueryRight(s, cb);
    case QueryScan(_) => QueryRight(s, cb);
    case _ => ClearRight(s, cb);
  }

  lemma SlotsKnown(s: State, t: State, cb: Cb)
    requires TableOk(s) && cb in s.bufs && OnlyBy(s, t, cb) && HintOk(t, cb)
    ensures TableOk(t)
  {
    if t.hint != NULL && t.hint != cb {
      OtherSlots(s.slots, t.slots, cb, t.hint);
    }
  }

  // ---- an API call, a reset --------------------------------------------------

  lemma IssueRight(s: State, cb: Cb, cmd: Cmd)
    requires Enabled(s, Call(cb, cmd)) && BufOk(s, cb) && HintOk(s, cb) && cb != NULL
    ensures StepRight(s, Issue(s, cb, cmd), cb)
  {
    var b, t := s.bufs[cb], Issue(s, cb, cmd);
    assert Before(b.issued + [cmd]) == b.issued && Last(b.issued + [cmd]) == cmd;
    hide Owned;
    if cmd == Begin(false) {
      HistoryStep(b.(issued := b.issued + [cmd]));
    }
    hide SentFor, HeldAfter;
    assert BufOk(t, cb) && HintOk(t, cb);
    NoSlotMoves(s, t, cb);
    hide StepRight;
  }

  lemma RecycleRight(s: State, cb: Cb)
    requires Enabled(s, Reset(cb)) && BufOk(s, cb) && HintOk(s, cb) && cb != NULL
    ensures StepRight(s, Recycle(s, cb), cb)
  {
  }

  /** Every step is right about its own buffer. */
  lemma StepIsRight(s: State, e: Event, t: State)
    requires Inv(s) && Next(s, e, t)
    ensures StepRight(s, t, e.cb)
  {
    HintFor(s, e.cb);
    hide Inv, StepRight, Issue, Tick, Recycle;
    match e
    case Call(cb, cmd) => IssueRight(s, cb, cmd);
    case Atomic(cb) => TickRight(s, cb);
    case Reset(cb) => RecycleRight(s, cb);
  }

  /** And so about the whole table. */
  lemma StepKeeps(s: State, e: Event, t: State)
    requires Inv(s) && Next(s, e, t)
    ensures Inv(t)
  {
    var cb := e.cb;
    StepIsRight(s, e, t);
    hide Next, BufOk, Used, SlotMove;
    SettingStep(s, t, cb);
    ClearingStep(s, t, cb);
    hide Setting, Clearing;
    forall c | c in t.bufs
      ensures BufOk(t, c)
    {
      if c != cb {
        Others(s, t, cb, c);
      }
    }
    SlotsKnown(s, t, cb);
  }

  lemma InitialInv(s: State)
    requires Initial(s)
    ensures Inv(s)
  {
    assert Setting(s) == {} && Clearing(s) == {};
    NoneUsed(s.slots, 0);
    forall cb | cb in s.bufs
      ensures BufOk(s, cb)
    {
      assert cb !in s.slots;
    }
  }

  lemma {:induction false} NoneUsed(slots: seq<Cb>, j: nat)
    requires forall k :: 0 <= k < |slots| ==> slots[k] == NULL
    ensures Used(slots, j) == 0
    decreases |slots| - j
  {
    if j < |slots| {
      NoneUsed(slots, j + 1);
    }
  }

  lemma {:induction false} RunInv(tr: seq<State>, es: seq<Event>, k: nat)
    requires IsRun(tr, es) && k < |tr|
    ensures Inv(tr[k])
  {
    hide Inv, Next, Initial;
    if k == 0 {
      InitialInv(tr[0]);
    } else {
      RunInv(tr, es, k - 1);
      assert Next(tr[k - 1], es[k - 1], tr[k]);
      StepKeeps(tr[k - 1], es[k - 1], tr[k]);
    }
  }

  /** n operations of cb's recorder with nobody else running. */
  ghost function Alone(s: State, cb: Cb, n: nat): State
    requires cb in s.bufs && s.bufs[cb].issued != [] && |s.slots| == SUPP_MAX
    decreases n
  {
    if n == 0 then s else
    var t := Tick(s, cb);
    TickOnlyBy(s, cb);
    Alone(t, cb, n - 1)
  }
}
