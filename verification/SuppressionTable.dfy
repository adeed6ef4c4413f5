/**
  supp_set, supp_active and supp_clear as the shim runs them, with their scanning loops, and the
  command hooks built on them. Each call, run without interference, performs exactly the atomic
  operations of the state machine in Suppression, in order; k is how many.
 */
module SuppressionTable {
  import opened Suppression
  import opened SuppressionProofs

  lemma {:induction false} AloneAdd(s: State, cb: Cb, m: nat, n: nat)
    requires cb in s.bufs && s.bufs[cb].issued != [] && |s.slots| == SUPP_MAX
    ensures var t := Alone(s, cb, m);
            && cb in t.bufs && t.bufs[cb].issued != [] && |t.slots| == SUPP_MAX
            && Alone(s, cb, m + n) == Alone(t, cb, n)
    decreases m
  {
    if m > 0 {
      TickOnlyBy(s, cb);
      TickIssued(s, cb);
      AloneAdd(Tick(s, cb), cb, m - 1, n);
    }
  }

  lemma TickIssued(s: State, cb: Cb)
    requires cb in s.bufs && s.bufs[cb].issued != [] && |s.slots| == SUPP_MAX
    ensures Tick(s, cb).bufs[cb].issued == s.bufs[cb].issued && |Tick(s, cb).slots| == SUPP_MAX
  {
  }

  lemma OneMore(s: State, cb: Cb, m: nat, t: State)
    requires cb in s.bufs && s.bufs[cb].issued != [] && |s.slots| == SUPP_MAX && Alone(s, cb, m) == t
    ensures cb in t.bufs && t.bufs[cb].issued != [] && |t.slots| == SUPP_MAX && Alone(s, cb, m + 1) == Tick(t, cb)
  {
    AloneAdd(s, cb, m, 1);
    assert Alone(t, cb, 1) == Alone(Tick(t, cb), cb, 0);
  }

  lemma OneGoto(s: State, cb: Cb, m: nat, r: State, pc: Pc, t: State)
    requires cb in s.bufs && s.bufs[cb].issued != [] && |s.slots| == SUPP_MAX
    requires r.bufs == s.bufs && |r.slots| == SUPP_MAX
    requires Alone(s, cb, m) == Goto(r, cb, pc) && t == Tick(Goto(r, cb, pc), cb)
    ensures Alone(s, cb, m + 1) == t
  {
    OneMore(s, cb, m, Goto(r, cb, pc));
  }

  lemma AloneZero(s: State, cb: Cb)
    requires cb in s.bufs && s.bufs[cb].issued != [] && |s.slots| == SUPP_MAX
    ensures Alone(s, cb, 0) == s
  {
  }

  /** supp_set from the slot it claims to its return: the slot, the hint and the counter. */
  lemma ClaimTail(s: State, cb: Cb, i: nat)
    requires cb in s.bufs && s.bufs[cb].issued != [] && |s.slots| == SUPP_MAX && i < SUPP_MAX && s.slots[i] == NULL
    requires Alone(s, cb, i) == Goto(s, cb, SetScan(i))
    ensures Alone(s, cb, i + 3) == Goto(State(s.slots[i := cb], cb, s.n + 1, s.bufs), cb, Idle)
  {
    var r := s.(slots := s.slots[i := cb]);
    hide Alone;
    OneGoto(s, cb, i, s, SetScan(i), Goto(r, cb, SetHint));
    OneGoto(s, cb, i + 1, r, SetHint, Goto(r.(hint := cb), cb, SetCount));
    OneGoto(s, cb, i + 2, r.(hint := cb), SetCount, Goto(r.(hint := cb, n := s.n + 1), cb, Idle));
  }

  /** supp_clear from the slot it releases to its return. */
  lemma ReleaseTail(s: State, cb: Cb, i: nat)
    requires cb in s.bufs && s.bufs[cb].issued != [] && |s.slots| == SUPP_MAX && i < SUPP_MAX && s.slots[i] == cb
    requires Alone(s, cb, i) == Goto(s, cb, ClearScan(i))
    ensures Alone(s, cb, i + 3)
         == Goto(State(s.slots[i := NULL], if s.hint == cb then NULL else s.hint, s.n - 1, s.bufs), cb, Idle)
  {
    var r := s.(slots := s.slots[i := NULL]);
    var q := r.(hint := if s.hint == cb then NULL else s.hint);
    hide Alone;
    OneGoto(s, cb, i, s, ClearScan(i), Goto(r, cb, ClearHint));
    OneGoto(s, cb, i + 1, r, ClearHint, Goto(q, cb, ClearCount));
    OneGoto(s, cb, i + 2, q, ClearCount, Goto(q.(n := s.n - 1), cb, Idle));
  }

  /** One operation of supp_active: the next question, or the answer. */
  ghost function Asked(s: State, cb: Cb, pc: Pc): State
    requires cb in s.bufs && s.bufs[cb].issued != [] && |s.slots| == SUPP_MAX && (pc.Query? || pc.QueryHint? || pc.QueryScan?)
  {
    match pc
    case Query => if s.n == 0 then Forward(s, cb) else Goto(s, cb, QueryHint)
    case QueryHint => if s.hint == cb then Swallow(s, cb) else Goto(s, cb, QueryScan(0))
    case QueryScan(i) =>
      if i >= SUPP_MAX then Forward(s, cb) else if s.slots[i] == cb then Swallow(s, cb) else Goto(s, cb, QueryScan(i + 1))
  }

  lemma AskStep(s: State, cb: Cb, m: nat, pc: Pc)
    requires cb in s.bufs && s.bufs[cb].issued != [] && |s.slots| == SUPP_MAX && (pc.Query? || pc.QueryHint? || pc.QueryScan?)
    requires Alone(s, cb, m) == (if m == 0 then s else Goto(s, cb, pc)) && (m == 0 ==> s.bufs[cb].pc == pc)
    ensures Alone(s, cb, m + 1) == Asked(s, cb, pc)
  {
    hide Alone;
    var t := Goto(s, cb, pc);
    assert m == 0 ==> t == s;
    OneMore(s, cb, m, t);
    assert Forward(t, cb) == Forward(s, cb) && Swallow(t, cb) == Swallow(s, cb);
  }

  class Table {
    const suppCb: array<Cb>
    var suppLast: Cb
    var suppN: int
    ghost var bufs: map<Cb, Buf>  // where each recorder is, and its history

    ghost predicate Valid()
      reads this
    {
      suppCb.Length == SUPP_MAX && NULL !in bufs
    }

    ghost function Abs(): State
      reads this, suppCb
    {
      State(suppCb[..], suppLast, suppN, bufs)
    }

    constructor (cbs: set<Cb>)
      requires NULL !in cbs
      ensures Valid() && fresh(suppCb) && Initial(Abs()) && bufs.Keys == cbs
    {
      suppCb := new Cb[SUPP_MAX](i => NULL);
      suppLast, suppN := NULL, 0;
      bufs := map cb | cb in cbs :: Buf(Idle, [], [], {}, 0);
      new;
      assert suppCb[..] == seq(SUPP_MAX, i => NULL);
    }

    method SuppSet(cb: Cb) returns (ghost k: nat)
      requires Valid() && cb in bufs && bufs[cb].pc == SetScan(0) && bufs[cb].issued != []
      modifies this, suppCb
      ensures Valid() && Abs() == Alone(old(Abs()), cb, k)
      ensures cb in bufs && bufs[cb].pc.Idle?
    {
      hide Alone;
      ghost var s := Abs();
      var i := 0;
      k := 0;
      AloneZero(s, cb);
      assert s == Goto(s, cb, SetScan(0));
      while i < SUPP_MAX
        invariant i <= SUPP_MAX && Abs() == s && Alone(s, cb, i) == Goto(s, cb, SetScan(i))
      {
        if suppCb[i] == NULL {
          ClaimTail(s, cb, i);
          suppCb[i] := cb;
          suppLast := cb;
          suppN := suppN + 1;
          bufs := bufs[cb := bufs[cb].(pc := Idle)];
          k := i + 3;
          assert Abs() == Goto(State(s.slots[i := cb], cb, s.n + 1, s.bufs), cb, Idle);
          return;
        }
        OneGoto(s, cb, i, s, SetScan(i), Goto(s, cb, SetScan(i + 1)));
        i := i + 1;
      }
      OneGoto(s, cb, i, s, SetScan(i), Overflow(s, cb));
      bufs := Overflow(s, cb).bufs;
      k := i + 1;
    }

    /** True exactly when some suppression is counted and either the hint or a slot names cb. */
    method SuppActive(cb: Cb) returns (active: bool, ghost k: nat)
      requires Valid() && cb in bufs && bufs[cb].pc == Query && bufs[cb].issued != []
      ensures active <==> suppN != 0 && (suppLast == cb || cb in suppCb[..])
      ensures Alone(Abs(), cb, k) == if active then Swallow(Abs(), cb) else Forward(Abs(), cb)
    {
      hide Alone, Tick, Goto, Forward, Swallow;
      ghost var s := Abs();
      AloneZero(s, cb);
      AskStep(s, cb, 0, Query);
      if suppN == 0 {
        assert |suppCb[..]| == SUPP_MAX;
        return false, 1;
      }
      AskStep(s, cb, 1, QueryHint);
      if suppLast == cb {
        return true, 2;
      }
      var i := 0;
      while i < SUPP_MAX
        invariant i <= SUPP_MAX && Alone(s, cb, i + 2) == Goto(s, cb, QueryScan(i))
        invariant cb !in suppCb[..i]
      {
        AskStep(s, cb, i + 2, QueryScan(i));
        if suppCb[i] == cb {
          return true, i + 3;
        }
        i := i + 1;
      }
      AskStep(s, cb, i + 2, QueryScan(i));
      assert suppCb[..i] == suppCb[..];
      active, k := false, i + 3;
    }

    method SuppClear(cb: Cb) returns (ghost k: nat)
      requires Valid() && cb in bufs && bufs[cb].pc == ClearScan(0) && bufs[cb].issued != []
      modifies this, suppCb
      ensures Valid() && Abs() == Alone(old(Abs()), cb, k)
      ensures cb in bufs && bufs[cb].pc.Idle?
    {
      hide Alone;
      ghost var s := Abs();
      var i := 0;
      k := 0;
      AloneZero(s, cb);
      assert s == Goto(s, cb, ClearScan(0));
      while i < SUPP_MAX
        invariant i <= SUPP_MAX && Abs() == s && Alone(s, cb, i) == Goto(s, cb, ClearScan(i))
      {
        if suppCb[i] == cb {
          ReleaseTail(s, cb, i);
          suppCb[i] := NULL;
          if suppLast == cb {
            suppLast := NULL;
          }
          suppN := suppN - 1;
          bufs := bufs[cb := bufs[cb].(pc := Idle)];
          k := i + 3;
          assert Abs() == Goto(State(s.slots[i := NULL], if s.hint == cb then NULL else s.hint, s.n - 1, s.bufs), cb, Idle);
          return;
        }
        OneGoto(s, cb, i, s, ClearScan(i), Goto(s, cb, ClearScan(i + 1)));
        i := i + 1;
      }
      OneGoto(s, cb, i, s, ClearScan(i), Goto(s, cb, Idle));
      bufs := bufs[cb := bufs[cb].(pc := Idle)];
      k := i + 1;
    }

    /** The hooks of the pass commands: one API call is its Issue step and then its atomic operations. */
    method Hook(cb: Cb, cmd: Cmd) returns (ghost k: nat)
      requires Valid() && cb in bufs && Enabled(Abs(), Call(cb, cmd))
      modifies this, suppCb
      ensures Valid() && Abs() == Alone(Issue(old(Abs()), cb, cmd), cb, k)
      ensures cb in bufs && bufs[cb].pc.Idle?
    {
      ghost var b := bufs[cb].(issued := bufs[cb].issued + [cmd]);
      k := 0;
      if cmd.Begin? {
        if cmd.nullFramebuffer {
          bufs := bufs[cb := b.(pc := SetScan(0))];
          k := SuppSet(cb);
        } else {
          bufs := bufs[cb := b.(sent := b.sent + [cmd])];
        }
        return;
      }
      bufs := bufs[cb := b.(pc := Query)];
      ghost var s := Abs();
      var active: bool;
      active, k := SuppActive(cb);
      if !active {
        bufs := bufs[cb := b.(pc := Idle, sent := b.sent + [cmd])];
      } else if cmd != End {
        bufs := bufs[cb := b.(pc := Idle)];
      } else {
        bufs := bufs[cb := b.(pc := ClearScan(0))];
        ghost var m := SuppClear(cb);
        AloneAdd(s, cb, k, m);
        k := k + m;
      }
    }
  }
}
