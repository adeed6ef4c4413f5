/**
  Over every run: the bound that makes each scan find a slot, and what the driver receives of each
  command buffer's stream.
 */
module SuppressionTheorems {
  import opened Common
  import opened Suppression
  import opened SuppressionProofs

  // ---- the bound -------------------------------------------------------------

  /** At most 16 - j claims are ever at or past slot j. */
  ghost predicate ScansFit(s: State) {
    forall j: nat :: j <= SUPP_MAX ==> Load(s, j) <= SUPP_MAX - j
  }

  lemma Smaller(a: set<Cb>, b: set<Cb>)
    requires a <= b
    ensures |a| <= |b|
  {
    assert b == a + (b - a);
  }

  /** A scan never falls off the end: no claim is at or past slot 16. */
  lemma ScanInRange(s: State, cb: Cb)
    requires ScansFit(s) && cb in s.bufs && s.bufs[cb].pc.SetScan?
    ensures s.bufs[cb].pc.i < SUPP_MAX
  {
    assert Load(s, SUPP_MAX) <= 0;
    if s.bufs[cb].pc.i >= SUPP_MAX {
      Smaller({cb}, Scanners(s, SUPP_MAX));
    }
  }

  /** A buffer that moves past slot i leaves the slot's holder behind. */
  lemma PastHolder(s: State, t: State, cb: Cb, i: nat)
    requires ScansFit(s) && cb in s.bufs && s.bufs[cb].pc == SetScan(i) && i < SUPP_MAX == |s.slots| && s.slots[i] != NULL
    requires t == Goto(s, cb, SetScan(i + 1))
    ensures Load(t, i + 1) <= SUPP_MAX - (i + 1)
  {
    assert Load(s, i) <= SUPP_MAX - i;
    Smaller(Scanners(t, i + 1), Scanners(s, i));
    assert Used(s.slots, i) == 1 + Used(s.slots, i + 1);
  }

  /** Every other atomic operation leaves the claims from j on as many or fewer. */
  lemma LoadFalls(s: State, t: State, cb: Cb, j: nat)
    requires Enabled(s, Atomic(cb)) && t == Tick(s, cb) && cb != NULL
    requires !(s.bufs[cb].pc.SetScan? && t.bufs[cb].pc.SetScan? && j == s.bufs[cb].pc.i + 1)
    ensures Load(t, j) <= Load(s, j)
  {
    var pc := s.bufs[cb].pc;
    if pc.SetScan? && pc.i < SUPP_MAX && s.slots[pc.i] == NULL {
      UsedUpdate(s.slots, pc.i, cb, j);
      assert Scanners(t, j) == Scanners(s, j) - {cb};
      assert cb in Scanners(s, j) <==> pc.i >= j;
      hide Scanners, Used;
      Card(Scanners(s, j), cb);
    } else {
      if pc.ClearScan? && pc.i < SUPP_MAX {
        UsedUpdate(s.slots, pc.i, NULL, j);
      }
      assert Scanners(t, j) <= Scanners(s, j);
      Smaller(Scanners(t, j), Scanners(s, j));
      hide Scanners, Used;
    }
  }

  lemma TickFits(s: State, cb: Cb)
    requires ScansFit(s) && Enabled(s, Atomic(cb)) && cb != NULL
    ensures ScansFit(Tick(s, cb))
  {
    var t, pc := Tick(s, cb), s.bufs[cb].pc;
    forall j: nat | j <= SUPP_MAX
      ensures Load(t, j) <= SUPP_MAX - j
    {
      if pc.SetScan? && t.bufs[cb].pc.SetScan? && j == pc.i + 1 {
        PastHolder(s, t, cb, pc.i);
      } else {
        LoadFalls(s, t, cb, j);
      }
    }
  }

  /** A call or a reset changes no claim past slot 0. */
  lemma CallFits(s: State, e: Event, t: State)
    requires ScansFit(s) && Next(s, e, t) && !e.Atomic? && Load(t, 0) <= SUPP_MAX
    ensures ScansFit(t)
  {
    forall j: nat | j <= SUPP_MAX
      ensures Load(t, j) <= SUPP_MAX - j
    {
      if j > 0 {
        assert Load(s, j) <= SUPP_MAX - j;
        assert t.slots == s.slots && Scanners(t, j) == Scanners(s, j);
      }
    }
  }

  lemma InitialFits(s: State)
    requires Initial(s)
    ensures ScansFit(s)
  {
    forall j: nat | j <= SUPP_MAX
      ensures Load(s, j) <= SUPP_MAX - j
    {
      NoneUsed(s.slots, j);
      assert Scanners(s, j) == {};
    }
  }

  lemma {:induction false} RunFits(tr: seq<State>, es: seq<Event>, k: nat)
    requires IsRun(tr, es) && Fits(tr) && k < |tr|
    ensures ScansFit(tr[k])
  {
    hide ScansFit, Next, Initial, Load;
    if k == 0 {
      InitialFits(tr[0]);
    } else {
      RunFits(tr, es, k - 1);
      RunInv(tr, es, k - 1);
      var s, e, t := tr[k - 1], es[k - 1], tr[k];
      assert Next(s, e, t);
      FitsNext(s, e, t);
    }
  }

  lemma FitsNext(s: State, e: Event, t: State)
    requires Inv(s) && ScansFit(s) && Next(s, e, t) && Load(t, 0) <= SUPP_MAX
    ensures ScansFit(t)
  {
    hide ScansFit, Load, Tick, BufOk, Issue;
    if e.Atomic? {
      TickFits(s, e.cb);
    } else {
      CallFits(s, e, t);
    }
  }

  /** An atomic operation touches no other buffer, and of its own keeps the stream, the stale slots and, unless it overflows, the losses. */
  lemma TickHistory(s: State, cb: Cb)
    requires Enabled(s, Atomic(cb))
    ensures var b, t := s.bufs[cb], Tick(s, cb);
            && t.bufs.Keys == s.bufs.Keys && (forall c :: c in s.bufs && c != cb ==> t.bufs[c] == s.bufs[c])
            && t.bufs[cb].issued == b.issued && t.bufs[cb].stale == b.stale
            && t.bufs[cb].lost == if b.pc.SetScan? && b.pc.i >= SUPP_MAX then b.lost + {|b.issued| - 1} else b.lost
  {
  }

  lemma CallHistory(s: State, e: Event, t: State)
    requires Next(s, e, t) && !e.Atomic?
    ensures t.bufs.Keys == s.bufs.Keys && forall c :: c in s.bufs && c != e.cb ==> t.bufs[c] == s.bufs[c]
    ensures e.Call? ==> t.bufs[e.cb].issued == s.bufs[e.cb].issued + [e.cmd]
                        && t.bufs[e.cb].lost == s.bufs[e.cb].lost && t.bufs[e.cb].stale == s.bufs[e.cb].stale
    ensures e.Reset? ==> t.bufs[e.cb] == Buf(Idle, [], [], {}, Owned(s.slots, e.cb))
  {
  }

  lemma LostStep(s: State, e: Event, t: State, cb: Cb)
    requires Inv(s) && ScansFit(s) && Next(s, e, t) && cb in s.bufs && s.bufs[cb].lost == {}
    ensures cb in t.bufs && t.bufs[cb].lost == {}
  {
    if e.Atomic? {
      if s.bufs[e.cb].pc.SetScan? {
        ScanInRange(s, e.cb);
      }
      TickHistory(s, e.cb);
    } else {
      CallHistory(s, e, t);
    }
    hide ScansFit, Inv, Tick, Issue, Recycle;
  }

  /** With no more than 16 at once, no Begin is ever lost. */
  lemma {:induction false} NothingLost(tr: seq<State>, es: seq<Event>, k: nat, cb: Cb)
    requires IsRun(tr, es) && Fits(tr) && k < |tr| && cb in tr[0].bufs
    ensures cb in tr[k].bufs && tr[k].bufs[cb].lost == {}
  {
    hide Inv, ScansFit, Next, Fits;
    if k > 0 {
      NothingLost(tr, es, k - 1, cb);
      RunInv(tr, es, k - 1);
      RunFits(tr, es, k - 1);
      assert Next(tr[k - 1], es[k - 1], tr[k]);
      LostStep(tr[k - 1], es[k - 1], tr[k], cb);
    }
  }

  // ---- the theorems ----------------------------------------------------------

  /**
    In every run at all, whatever overflows and resets it holds: between calls the driver has received
    exactly what SentFor says of the buffer's commands, and the buffer's slots are as many as HeldAfter says.
   */
  lemma ExactStream(tr: seq<State>, es: seq<Event>, k: nat, cb: Cb)
    requires IsRun(tr, es) && k < |tr| && cb in tr[k].bufs && tr[k].bufs[cb].pc.Idle?
    ensures var b := tr[k].bufs[cb];
            b.sent == SentFor(b.issued, b.lost, b.stale) && Owned(tr[k].slots, cb) == HeldAfter(b.issued, b.lost, b.stale)
  {
    RunInv(tr, es, k);
    assert BufOk(tr[k], cb);
  }

  /**
    If no more than 16 suppressions are ever being opened or held, supp_set's first-free scan always
    finds a slot, however clears and other scans interleave with it.
   */
  lemma ScanAlwaysClaims(tr: seq<State>, es: seq<Event>, k: nat, cb: Cb)
    requires IsRun(tr, es) && Fits(tr) && k < |tr| && cb in tr[k].bufs && tr[k].bufs[cb].pc.SetScan?
    ensures tr[k].bufs[cb].pc.i < SUPP_MAX
    ensures forall j: nat :: j <= SUPP_MAX ==> Load(tr[k], j) <= SUPP_MAX - j
  {
    RunFits(tr, es, k);
    ScanInRange(tr[k], cb);
  }

  /** Where every buffer holds one slot at most, and a scanner none, the claims are the buffers opening or holding. */
  lemma LoadIsBuffers(s: State)
    requires TableOk(s) && forall cb :: cb in s.bufs ==> Owned(s.slots, cb) <= if s.bufs[cb].pc.SetScan? then 0 else 1
    ensures Load(s, 0) == |set cb | cb in s.bufs && (s.bufs[cb].pc.SetScan? || cb in s.slots)|
  {
    var holders := Holders(s);
    OneSlotEach(s);
    assert s.slots[0..] == s.slots;
    assert forall c :: c in holders <==> c != NULL && c in s.slots;
    HoldersExact(s.slots, 0, holders);
    hide Owned, TableOk, Used;
    assert (set cb | cb in s.bufs && (s.bufs[cb].pc.SetScan? || cb in s.slots)) == holders + Scanners(s, 0);
    assert holders !! Scanners(s, 0);
  }

  ghost function Holders(s: State): set<Cb> { set cb | cb in s.bufs && cb in s.slots }

  lemma OneSlotEach(s: State)
    requires TableOk(s) && forall cb :: cb in s.bufs ==> Owned(s.slots, cb) <= if s.bufs[cb].pc.SetScan? then 0 else 1
    ensures forall i, j :: 0 <= i < j < |s.slots| && s.slots[i] != NULL ==> s.slots[i] != s.slots[j]
    ensures forall cb :: cb in s.bufs && s.bufs[cb].pc.SetScan? ==> cb !in s.slots
  {
    forall i, j | 0 <= i < j < |s.slots| && s.slots[i] != NULL
      ensures s.slots[i] != s.slots[j]
    {
      if s.slots[i] == s.slots[j] {
        Twice(s.slots, i, j);
      }
    }
  }

  lemma Twice(slots: seq<Cb>, i: nat, j: nat)
    requires i < j < |slots| && slots[i] == slots[j]
    ensures Owned(slots, slots[i]) >= 2
  {
    assert slots == slots[..j] + slots[j..];
    assert slots[..j][i] == slots[i] && slots[j..][0] == slots[i];
  }

  lemma {:induction false} HoldersExact(slots: seq<Cb>, j: nat, cs: set<Cb>)
    requires j <= |slots| && forall c :: c in cs <==> c != NULL && c in slots[j..]
    requires forall a, b :: 0 <= a < b < |slots| && slots[a] != NULL ==> slots[a] != slots[b]
    ensures |cs| == Used(slots, j)
    decreases |slots| - j
  {
    if j == |slots| {
      assert cs == {};
    } else {
      var c := slots[j];
      assert slots[j..] == [c] + slots[j + 1..];
      HoldersExact(slots, j + 1, cs - {c});
      if c == NULL {
        assert cs - {c} == cs;
      }
    }
  }

  /** Passes do not nest, and the buffer is not reset inside a suppressed one. */
  ghost predicate Proper(tr: seq<State>, es: seq<Event>, cb: Cb) {
    && |tr| == |es| + 1
    && forall k :: 0 <= k < |es| && es[k].cb == cb && cb in tr[k].bufs ==>
         && (es[k].Call? && es[k].cmd.Begin? ==> PassAfter(tr[k].bufs[cb].issued).Outside?)
         && (es[k].Reset? ==> !PassAfter(tr[k].bufs[cb].issued).Suppressed?)
  }

  lemma BracketedNext(cmds: seq<Cmd>, c: Cmd)
    requires Bracketed(cmds) && (c.Begin? ==> PassAfter(cmds).Outside?)
    ensures Bracketed(cmds + [c])
  {
    forall k | 0 <= k < |cmds + [c]| && (cmds + [c])[k].Begin?
      ensures PassAfter((cmds + [c])[..k]).Outside?
    {
      assert (cmds + [c])[..k] == cmds[..k];
      if k == |cmds| {
        assert cmds[..k] == cmds;
      }
    }
  }

  lemma BracketedBefore(cmds: seq<Cmd>)
    requires cmds != [] && Bracketed(cmds)
    ensures Bracketed(Before(cmds)) && (Last(cmds).Begin? ==> PassAfter(Before(cmds)).Outside?)
  {
    forall k | 0 <= k < |Before(cmds)| && Before(cmds)[k].Begin?
      ensures PassAfter(Before(cmds)[..k]).Outside?
    {
      assert Before(cmds)[..k] == cmds[..k];
    }
    assert cmds[..|cmds| - 1] == Before(cmds);
  }

  /** With nothing lost or stale, the history functions are the pass structure of the stream. */
  lemma {:induction false} CleanStream(cmds: seq<Cmd>)
    requires Bracketed(cmds)
    ensures SentFor(cmds, {}, 0) == Expected(cmds) && HeldAfter(cmds, {}, 0) == Bit(PassAfter(cmds).Suppressed?)
  {
    if cmds != [] {
      BracketedBefore(cmds);
      CleanStream(Before(cmds));
    }
  }

  lemma {:induction false} ProperClean(tr: seq<State>, es: seq<Event>, k: nat, cb: Cb)
    requires IsRun(tr, es) && Fits(tr) && Proper(tr, es, cb) && k < |tr| && cb in tr[0].bufs
    ensures cb in tr[k].bufs && tr[k].bufs[cb].stale == 0 && tr[k].bufs[cb].lost == {} && Bracketed(tr[k].bufs[cb].issued)
  {
    NothingLost(tr, es, k, cb);
    hide Inv, Next, Bracketed, PassAfter;
    if k == 0 {
      NothingRecorded();
    } else {
      ProperClean(tr, es, k - 1, cb);
      RunInv(tr, es, k - 1);
      assert Next(tr[k - 1], es[k - 1], tr[k]);
      CleanNext(tr[k - 1], es[k - 1], tr[k], cb);
    }
  }

  lemma CleanNext(s: State, e: Event, t: State, cb: Cb)
    requires Inv(s) && Next(s, e, t) && cb in s.bufs && s.bufs[cb].stale == 0 && s.bufs[cb].lost == {} && Bracketed(s.bufs[cb].issued)
    requires e.cb == cb ==> && (e.Call? && e.cmd.Begin? ==> PassAfter(s.bufs[cb].issued).Outside?)
                            && (e.Reset? ==> !PassAfter(s.bufs[cb].issued).Suppressed?)
    ensures cb in t.bufs && t.bufs[cb].stale == 0 && Bracketed(t.bufs[cb].issued)
  {
    hide Inv, Bracketed, PassAfter, HeldAfter, SentFor, Owned, Tick, Issue, Recycle;
    if e.Atomic? {
      TickHistory(s, e.cb);
    } else {
      CallHistory(s, e, t);
      if e.cb == cb && e.Call? {
        BracketedNext(s.bufs[cb].issued, e.cmd);
      } else if e.cb == cb {
        HintFor(s, cb);
        CleanStream(s.bufs[cb].issued);
        NothingRecorded();
      }
    }
  }

  lemma NothingRecorded()
    ensures Bracketed([])
  {
  }

  /**
    With no more than 16 at once, a buffer whose passes do not nest and that is not reset inside a
    suppressed one: between calls the driver has received exactly the commands recorded into it minus
    each null-framebuffer pass from its Begin through its End.
   */
  lemma DriverSeesStreamMinusPasses(tr: seq<State>, es: seq<Event>, k: nat, cb: Cb)
    requires IsRun(tr, es) && Fits(tr) && Proper(tr, es, cb) && k < |tr| && cb in tr[0].bufs && cb in tr[k].bufs && tr[k].bufs[cb].pc.Idle?
    ensures tr[k].bufs[cb].sent == Expected(tr[k].bufs[cb].issued)
    ensures Owned(tr[k].slots, cb) == Bit(PassAfter(tr[k].bufs[cb].issued).Suppressed?)
  {
    ExactStream(tr, es, k, cb);
    ProperClean(tr, es, k, cb);
    CleanStream(tr[k].bufs[cb].issued);
  }

  // ---- what Expected means ---------------------------------------------------

  /** Command i lies in a null-framebuffer pass: such a Begin is at or before it and no End lies between. */
  ghost predicate InNullPass(cmds: seq<Cmd>, i: nat)
    requires i < |cmds|
  {
    exists j :: 0 <= j <= i && cmds[j] == Begin(true) && forall k :: j <= k < i ==> cmds[k] != End
  }

  /** On streams whose passes do not nest, command i is dropped exactly when it lies in a null-framebuffer pass. */
  lemma {:induction false} DroppedIffInNullPass(cmds: seq<Cmd>, i: nat)
    requires i < |cmds| && Bracketed(cmds)
    ensures cmds[i] == Begin(true) || PassAfter(cmds[..i]).Suppressed? <==> InNullPass(cmds, i)
    ensures Expected(cmds[..i + 1]) == if InNullPass(cmds, i) then Expected(cmds[..i]) else Expected(cmds[..i]) + [cmds[i]]
  {
    assert cmds[..i + 1][..i] == cmds[..i];
    if i > 0 {
      DroppedIffInNullPass(cmds, i - 1);
      assert cmds[..i][..i - 1] == cmds[..i - 1];
      if cmds[i] != Begin(true) && cmds[i - 1].Begin? && !cmds[i - 1].nullFramebuffer {
        assert !InNullPass(cmds, i - 1);
      }
      if InNullPass(cmds, i) && cmds[i] != Begin(true) {
        var j :| 0 <= j <= i && cmds[j] == Begin(true) && forall k :: j <= k < i ==> cmds[k] != End;
        assert InNullPass(cmds, i - 1);
      }
      if InNullPass(cmds, i - 1) && cmds[i - 1] != End {
        var j :| 0 <= j <= i - 1 && cmds[j] == Begin(true) && forall k :: j <= k < i - 1 ==> cmds[k] != End;
        assert InNullPass(cmds, i);
      }
    }
  }
}
