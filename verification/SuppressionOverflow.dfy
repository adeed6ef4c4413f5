/**
  Beyond the bound and beyond proper use: exactly when the driver still receives the stream minus its
  null-framebuffer passes, and a run in which it does not.
 */
module SuppressionOverflow {
  import opened Common
  import opened Suppression
  import opened SuppressionProofs
  import opened SuppressionTheorems
  import opened SuppressionTable

  // ---- lost Begins -----------------------------------------------------------

  /** Some lost Begin is followed by another command. */
  predicate Early(cmds: seq<Cmd>, lost: set<nat>) { exists i :: i in lost && i + 1 < |cmds| }

  predicate LostBegins(cmds: seq<Cmd>, lost: set<nat>) { forall i :: i in lost && i < |cmds| ==> cmds[i] == Begin(true) }

  lemma {:induction false} LossGap(cmds: seq<Cmd>, lost: set<nat>)
    requires Bracketed(cmds) && LostBegins(cmds, lost)
    ensures HeldAfter(cmds, lost, 0) <= Bit(PassAfter(cmds).Suppressed?)
    ensures !Early(cmds, lost) ==> SentFor(cmds, lost, 0) == Expected(cmds)
                                   && HeldAfter(cmds, lost, 0) == Bit(PassAfter(cmds).Suppressed? && |cmds| - 1 !in lost)
    ensures Early(cmds, lost) ==> |SentFor(cmds, lost, 0)| > |Expected(cmds)|
  {
    if cmds != [] {
      var before := Before(cmds);
      BracketedBefore(cmds);
      LossGap(before, lost);
      assert Early(cmds, lost) <==> Early(before, lost) || (before != [] && |before| - 1 in lost);
      if before != [] && |before| - 1 in lost {
        assert Last(before) == Begin(true);
      }
      hide Early, Bracketed;
    }
  }

  /**
    In every run, for a buffer whose passes do not nest and that holds nothing stale: the driver has
    the stream minus its null-framebuffer passes exactly as long as no Begin that found the table full
    has been followed by another command.
   */
  lemma OverflowIff(tr: seq<State>, es: seq<Event>, k: nat, cb: Cb)
    requires IsRun(tr, es) && k < |tr| && cb in tr[k].bufs && tr[k].bufs[cb].pc.Idle?
    requires Bracketed(tr[k].bufs[cb].issued) && tr[k].bufs[cb].stale == 0
    ensures var b := tr[k].bufs[cb]; b.sent == Expected(b.issued) <==> forall i :: i in b.lost ==> i + 1 == |b.issued|
  {
    RunInv(tr, es, k);
    HintFor(tr[k], cb);
    var b := tr[k].bufs[cb];
    LossGap(b.issued, b.lost);
    hide Inv, SentFor, HeldAfter, Expected, Bracketed;
  }

  // ---- stale slots -----------------------------------------------------------

  /** Nothing but Begins has been recorded outside null-framebuffer passes. */
  predicate Quiet(cmds: seq<Cmd>) {
    forall i :: 0 <= i < |cmds| && !cmds[i].Begin? ==> PassAfter(cmds[..i]).Suppressed?
  }

  lemma QuietNext(cmds: seq<Cmd>)
    requires cmds != []
    ensures Quiet(cmds) <==> Quiet(Before(cmds)) && (Last(cmds).Begin? || PassAfter(Before(cmds)).Suppressed?)
  {
    assert cmds[..|cmds| - 1] == Before(cmds);
    assert forall i :: 0 <= i < |cmds| - 1 ==> Before(cmds)[..i] == cmds[..i];
  }

  lemma {:induction false} StaleGap(cmds: seq<Cmd>, stale: nat)
    requires Bracketed(cmds) && stale > 0
    ensures HeldAfter(cmds, {}, stale) >= Bit(PassAfter(cmds).Suppressed?)
    ensures Quiet(cmds) ==> SentFor(cmds, {}, stale) == Expected(cmds)
                            && HeldAfter(cmds, {}, stale) == stale + Bit(PassAfter(cmds).Suppressed?)
    ensures !Quiet(cmds) ==> |SentFor(cmds, {}, stale)| < |Expected(cmds)|
  {
    if cmds != [] {
      BracketedBefore(cmds);
      StaleGap(Before(cmds), stale);
      QuietNext(cmds);
      hide Quiet, Bracketed;
    }
  }

  /**
    With nothing lost, a buffer that carries stale slots gets the right stream exactly until it records
    a draw or an End of a real pass: the first such command is swallowed.
   */
  lemma StaleIff(tr: seq<State>, es: seq<Event>, k: nat, cb: Cb)
    requires IsRun(tr, es) && k < |tr| && cb in tr[k].bufs && tr[k].bufs[cb].pc.Idle?
    requires Bracketed(tr[k].bufs[cb].issued) && tr[k].bufs[cb].lost == {}
    ensures var b := tr[k].bufs[cb]; b.sent == Expected(b.issued) <==> b.stale == 0 || Quiet(b.issued)
  {
    ExactStream(tr, es, k, cb);
    var b := tr[k].bufs[cb];
    if b.stale == 0 {
      CleanStream(b.issued);
    } else {
      StaleGap(b.issued, b.stale);
    }
    hide SentFor, HeldAfter, Expected, Bracketed, Quiet;
  }

  /** A reset of a clean buffer leaves a stale slot exactly when it falls inside a suppressed pass. */
  lemma ResetStaleIff(tr: seq<State>, es: seq<Event>, k: nat, cb: Cb)
    requires IsRun(tr, es) && k < |es| && es[k] == Reset(cb) && cb in tr[k].bufs
    requires var b := tr[k].bufs[cb]; b.lost == {} && b.stale == 0 && Bracketed(b.issued)
    ensures cb in tr[k + 1].bufs && tr[k + 1].bufs[cb].stale == Bit(PassAfter(tr[k].bufs[cb].issued).Suppressed?)
  {
    assert Next(tr[k], es[k], tr[k + 1]);
    ExactStream(tr, es, k, cb);
    CleanStream(tr[k].bufs[cb].issued);
    CallHistory(tr[k], es[k], tr[k + 1]);
  }

  // ---- supp_set alone --------------------------------------------------------

  lemma {:induction false} SkipTaken(s: State, cb: Cb, i: nat)
    requires cb in s.bufs && s.bufs[cb].issued != [] && |s.slots| == SUPP_MAX && s.bufs[cb].pc == SetScan(0) && i <= SUPP_MAX
    requires forall k :: 0 <= k < i ==> s.slots[k] != NULL
    ensures Alone(s, cb, i) == Goto(s, cb, SetScan(i))
  {
    hide Alone;
    if i == 0 {
      AloneZero(s, cb);
    } else {
      SkipTaken(s, cb, i - 1);
      OneGoto(s, cb, i - 1, s, SetScan(i - 1), Goto(s, cb, SetScan(i)));
    }
  }

  /** Left to run alone, supp_set takes a slot exactly when one is free; otherwise it returns with the pass lost. */
  lemma SetAloneIff(s: State, cb: Cb) returns (n: nat)
    requires cb in s.bufs && s.bufs[cb].issued != [] && |s.slots| == SUPP_MAX && s.bufs[cb].pc == SetScan(0) && cb != NULL
    ensures var t := Alone(s, cb, n);
            && cb in t.bufs && t.bufs[cb].pc.Idle?
            && (Owned(t.slots, cb) == Owned(s.slots, cb) + 1 <==> exists k :: 0 <= k < SUPP_MAX && s.slots[k] == NULL)
            && ((forall k :: 0 <= k < SUPP_MAX ==> s.slots[k] != NULL) ==> t == Overflow(s, cb))
  {
    hide Alone;
    var i := FirstFree(s.slots, 0);
    SkipTaken(s, cb, i);
    if i < SUPP_MAX {
      ClaimTail(s, cb, i);
      OwnedUpdate(s.slots, i, cb, cb);
      n := i + 3;
    } else {
      OneGoto(s, cb, i, s, SetScan(i), Overflow(s, cb));
      n := i + 1;
    }
  }

  function FirstFree(slots: seq<Cb>, i: nat): (k: nat)
    requires i <= |slots|
    ensures i <= k <= |slots| && (k < |slots| ==> slots[k] == NULL) && forall j :: i <= j < k ==> slots[j] != NULL
    decreases |slots| - i
  {
    if i == |slots| || slots[i] == NULL then i else FirstFree(slots, i + 1)
  }

  // ---- what follows a lost Begin ---------------------------------------------

  lemma {:induction false} AskAll(s: State, cb: Cb, i: nat)
    requires cb in s.bufs && s.bufs[cb].issued != [] && |s.slots| == SUPP_MAX && s.bufs[cb].pc == Query && i <= SUPP_MAX
    requires s.n != 0 && s.hint != cb && cb !in s.slots
    ensures Alone(s, cb, i + 2) == Goto(s, cb, QueryScan(i))
  {
    hide Alone;
    if i == 0 {
      AloneZero(s, cb);
      AskStep(s, cb, 0, Query);
      AskStep(s, cb, 1, QueryHint);
    } else {
      AskAll(s, cb, i - 1);
      AskStep(s, cb, i + 1, QueryScan(i - 1));
    }
  }

  /** The buffer after a command was recorded into it and passed on. */
  function PassedOn(s: State, cb: Cb, cmd: Cmd): State
    requires cb in s.bufs
  {
    var b := s.bufs[cb];
    s.(bufs := s.bufs[cb := b.(pc := Idle, issued := b.issued + [cmd], sent := b.sent + [cmd])])
  }

  /** A buffer that holds no slot passes every later command of its pass on to the driver. */
  lemma Unsuppressed(s: State, cb: Cb, cmd: Cmd) returns (n: nat)
    requires cb in s.bufs && s.bufs[cb].pc.Idle? && |s.slots| == SUPP_MAX && s.hint != cb && cb !in s.slots && !cmd.Begin?
    ensures Alone(Issue(s, cb, cmd), cb, n) == PassedOn(s, cb, cmd)
  {
    var q := Issue(s, cb, cmd);
    assert Forward(q, cb) == PassedOn(s, cb, cmd);
    hide Alone, Forward, PassedOn;
    if s.n == 0 {
      AloneZero(q, cb);
      AskStep(q, cb, 0, Query);
      n := 1;
    } else {
      AskAll(q, cb, SUPP_MAX);
      AskStep(q, cb, SUPP_MAX + 2, QueryScan(SUPP_MAX));
      n := SUPP_MAX + 3;
    }
  }

  // ---- a run -----------------------------------------------------------------

  ghost predicate EndsIn(tr: seq<State>, es: seq<Event>, s: State) { IsRun(tr, es) && tr[|tr| - 1] == s }

  lemma Extend(tr: seq<State>, es: seq<Event>, s: State, e: Event, t: State) returns (tr': seq<State>, es': seq<Event>)
    requires EndsIn(tr, es, s) && Next(s, e, t)
    ensures EndsIn(tr', es', t)
  {
    tr', es' := tr + [t], es + [e];
    forall k | 0 <= k < |es'|
      ensures Next(tr'[k], es'[k], tr'[k + 1])
    {
      if k < |es| {
        assert Next(tr[k], es[k], tr[k + 1]);
      }
    }
  }

  /** A buffer left to run alone is a stretch of a run. */
  lemma {:induction false} RunAlone(tr: seq<State>, es: seq<Event>, s: State, cb: Cb, n: nat) returns (tr': seq<State>, es': seq<Event>)
    requires EndsIn(tr, es, s) && cb in s.bufs && s.bufs[cb].issued != [] && |s.slots| == SUPP_MAX
    ensures EndsIn(tr', es', Alone(s, cb, n))
    decreases n
  {
    tr', es' := tr, es;
    if n > 0 {
      var t := Tick(s, cb);
      TickOnlyBy(s, cb);
      TickIssued(s, cb);
      if s.bufs[cb].pc.Idle? {
        assert t == s;
      } else {
        tr', es' := Extend(tr, es, s, Atomic(cb), t);
      }
      hide EndsIn, Tick;
      tr', es' := RunAlone(tr', es', t, cb, n - 1);
    }
  }

  /** One whole API call with nobody else running. */
  lemma RunCall(tr: seq<State>, es: seq<Event>, s: State, cb: Cb, cmd: Cmd, n: nat) returns (tr': seq<State>, es': seq<Event>)
    requires EndsIn(tr, es, s) && cb in s.bufs && s.bufs[cb].pc.Idle? && |s.slots| == SUPP_MAX
    ensures EndsIn(tr', es', Alone(Issue(s, cb, cmd), cb, n))
  {
    tr', es' := Extend(tr, es, s, Call(cb, cmd), Issue(s, cb, cmd));
    hide EndsIn, Alone;
    tr', es' := RunAlone(tr', es', Issue(s, cb, cmd), cb, n);
  }

  const NEW: Buf := Buf(Idle, [], [], {}, 0)

  predicate InPlay(c: nat) { 1 <= c <= SUPP_MAX + 1 }

  /** The first m of 17 buffers have each opened a null-framebuffer pass. */
  ghost predicate Opened(s: State, m: nat) {
    && m <= SUPP_MAX && |s.slots| == SUPP_MAX && s.hint <= m && (forall c :: c in s.bufs <==> InPlay(c))
    && (forall k :: 0 <= k < m ==> s.slots[k] == k + 1)
    && (forall k :: m <= k < SUPP_MAX ==> s.slots[k] == NULL)
    && (forall c :: c in s.bufs && c > m ==> s.bufs[c] == NEW)
  }

  lemma {:induction false} OpenMany(m: nat) returns (tr: seq<State>, es: seq<Event>, s: State)
    requires m <= SUPP_MAX
    ensures EndsIn(tr, es, s) && Opened(s, m)
  {
    if m == 0 {
      s := State(seq(SUPP_MAX, i => NULL), NULL, 0, map c: nat | c <= SUPP_MAX + 1 && InPlay(c) :: NEW);
      tr, es := [s], [];
      assert Initial(s);
    } else {
      tr, es, s := OpenMany(m - 1);
      assert m in s.bufs && s.bufs[m] == NEW;
      var q := Issue(s, m, Begin(true));
      SkipTaken(q, m, m - 1);
      ClaimTail(q, m, m - 1);
      hide EndsIn, Alone;
      tr, es := RunCall(tr, es, s, m, Begin(true), m + 2);
      s := Goto(State(q.slots[m - 1 := m], m, q.n + 1, q.bufs), m, Idle);
    }
  }

  /**
    Seventeen buffers each open a null-framebuffer pass, and the seventeenth then draws and ends its
    pass: the driver receives that draw and that End, but no Begin.
   */
  lemma OverflowRun() returns (tr: seq<State>, es: seq<Event>, s: State)
    ensures EndsIn(tr, es, s)
    ensures var cb := SUPP_MAX + 1;
            && cb in s.bufs && s.bufs[cb].pc.Idle? && s.bufs[cb].issued == [Begin(true), Other(0), End]
            && s.bufs[cb].sent == [Other(0), End] && Expected(s.bufs[cb].issued) == []
  {
    var cb := SUPP_MAX + 1;
    tr, es, s := OpenMany(SUPP_MAX);
    assert cb in s.bufs && s.bufs[cb] == NEW;
    var q := Issue(s, cb, Begin(true));
    assert cb !in s.slots && s.hint != cb;
    assert forall k :: 0 <= k < SUPP_MAX ==> q.slots[k] != NULL;
    var n := SetAloneIff(q, cb);
    hide EndsIn, Alone, Opened;
    tr, es := RunCall(tr, es, s, cb, Begin(true), n);
    s := Overflow(q, cb);
    n := Unsuppressed(s, cb, Other(0));
    tr, es := RunCall(tr, es, s, cb, Other(0), n);
    s := PassedOn(s, cb, Other(0));
    n := Unsuppressed(s, cb, End);
    tr, es := RunCall(tr, es, s, cb, End, n);
    s := PassedOn(s, cb, End);
    NothingExpected();
  }

  lemma NothingExpected()
    ensures Expected([Begin(true), Other(0), End]) == []
  {
    assert [Begin(true), Other(0), End][..2] == [Begin(true), Other(0)];
    assert [Begin(true), Other(0)][..1] == [Begin(true)];
    assert [Begin(true)][..0] == [];
  }
}
