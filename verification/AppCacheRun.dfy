/**
  A run from the empty tables in which a harvest reads an app cache that a batch is compiling into:
  the app uses seventeen caches at once, so the seventeenth is refused; one of the others finishes, a
  second batch on the seventeenth is tracked in its place, and that one harvests.
 */
module AppCacheRun {
  import opened PipelineCache
  import opened AppCaches

  const DEV: Device := 7
  const LAST: Handle := 17

  /** A run that ends in s, in which no device goes away under a batch and the app leaves busy caches alone. */
  ghost predicate EndsIn(tr: seq<State>, es: seq<Event>, s: State) {
    && IsRun(tr, es) && tr[|tr| - 1] == s
    && forall k :: 0 <= k < |es| ==> Calm(tr[k], es[k]) && Polite(tr[k], es[k])
  }

  lemma Extend(tr: seq<State>, es: seq<Event>, s: State, e: Event) returns (tr': seq<State>, es': seq<Event>)
    requires EndsIn(tr, es, s) && Enabled(s, e) && Calm(s, e) && Polite(s, e)
    ensures EndsIn(tr', es', Step(s, e)) && es' == es + [e] && |tr'| == |tr| + 1 && tr'[|tr| - 1] == s
  {
    var t := Step(s, e);
    tr', es' := tr + [t], es + [e];
    hide Step;
    forall k | 0 <= k < |es'|
      ensures Next(tr'[k], es'[k], tr'[k + 1]) && Calm(tr'[k], es'[k]) && Polite(tr'[k], es'[k])
    {
      if k < |es| {
        assert Next(tr[k], es[k], tr[k + 1]) && Calm(tr[k], es[k]) && Polite(tr[k], es[k]);
      } else {
        assert Next(s, e, t);
      }
    }
  }

  // ---- the steps of the run --------------------------------------------------

  ghost predicate Holding(s: State, n: nat) { forall h :: 1 <= h <= n ==> AppHolds(s, h) }

  lemma HoldingKept(s: State, t: State, n: nat)
    requires Holding(s, n) && s.store.Keys <= t.store.Keys && forall h :: h in s.role ==> h in t.role && t.role[h] == s.role[h]
    ensures Holding(t, n)
  {
    forall h | 1 <= h <= n
      ensures AppHolds(t, h)
    {
      assert AppHolds(s, h);
    }
  }

  ghost predicate HasRow(s: State) { |s.dc| > 0 && s.dc[0].dev == DEV && s.dc[0].pc != NULL && !s.dc[0].masterInUse }

  lemma BeginAt(s: State, b: BatchId, app: Handle)
    requires HasRow(s) && app != NULL
    ensures var t := Step(s, BatchBegin(b, DEV, app, true, {}));
            && t.dc == s.dc && t.role == s.role && t.store == s.store && t.app == Ref(s.app, app).0
            && t.batches == s.batches[b := Batch(DEV, app, false, Ref(s.app, app).1, app, NULL, Opened)]
  {
    hide Ref;
    assert Lookup(s.dc, DEV) == 0;
  }

  lemma ScratchAt(s: State, b: BatchId)
    requires b in s.batches && s.batches[b].app != NULL
    ensures var t := Step(s, BatchScratch(b, true));
            && t.dc == s.dc && t.role == s.role && t.store == s.store && t.app == s.app
            && t.batches == s.batches[b := s.batches[b].(phase := Compiling)]
  {
  }

  lemma FinishAt(s: State, b: BatchId)
    requires b in s.batches && s.batches[b].app != NULL && s.batches[b].tracked && !s.batches[b].ownMaster
    ensures var t := Step(s, BatchFinish(b, {}, false, false));
            && t.dc == s.dc && t.role == s.role && t.store.Keys == s.store.Keys
            && t.app == Unref(s.app, s.batches[b].app).0 && t.batches == s.batches - {b}
  {
    hide Unref, Drain, Merge, Save;
  }

  /** A table whose first m entries are taken, and none of them by pc. */
  lemma RefAt(t: seq<AppEntry>, pc: Handle, m: nat)
    requires pc != NULL && m <= |t| && (m < |t| ==> t[m].pc == NULL)
    requires forall i :: 0 <= i < m ==> t[i].pc != NULL
    requires forall i :: 0 <= i < |t| ==> t[i].pc != pc
    ensures Ref(t, pc) == if m < |t| then (t[m := AppEntry(pc, 1)], true) else (t, false)
  {
    assert LookupApp(t, pc) == |t| && LookupApp(t, NULL) == m;
  }

  // ---- seventeen caches, sixteen entries -------------------------------------

  ghost predicate Created(s: State, n: nat) {
    s.dc == Init().dc && s.app == Init().app && s.batches == map[] && s.next == n + 1 && Holding(s, n)
  }

  lemma {:induction false} CreateMany(n: nat) returns (tr: seq<State>, es: seq<Event>, s: State)
    ensures EndsIn(tr, es, s) && Created(s, n)
  {
    if n == 0 {
      s := Init();
      tr, es := [s], [];
    } else {
      tr, es, s := CreateMany(n - 1);
      var e := AppCreate(DEV, false, true, {}, {});
      var t := Step(s, e);
      assert t.role == s.role[n := AppMade] && t.store == s.store[n := {}];
      forall h | 1 <= h <= n
        ensures AppHolds(t, h)
      {
        assert h < n ==> AppHolds(s, h);
      }
      hide EndsIn, Step;
      tr, es := Extend(tr, es, s, e);
      s := t;
    }
  }

  /** Batches 1 to m each compile with the cache of the same number, and each has its entry. */
  ghost predicate Began(s: State, m: nat) {
    && HasRow(s) && m <= |s.app| == APP_CACHE_MAX && Holding(s, LAST)
    && (forall i :: 0 <= i < m ==> s.app[i] == AppEntry(i + 1, 1))
    && (forall i :: m <= i < APP_CACHE_MAX ==> s.app[i] == EMPTY_ENTRY)
    && (forall b :: b in s.batches <==> 1 <= b <= m)
    && (forall b :: b in s.batches ==> s.batches[b] == Batch(DEV, b, false, true, b, NULL, Opened))
  }

  /** The first batch also claims the device's row and creates its master. */
  lemma FirstBegin(s: State)
    requires Created(s, LAST)
    ensures Began(Step(s, BatchBegin(1, DEV, 1, true, {})), 1)
  {
    var s0 := s.(touched := {});
    assert Lookup(s.dc, DEV) == |s.dc| && Lookup(s.dc, NULL) == 0;
    var s1 := Ensure(s0, DEV, true, {});
    assert s1.dc == s.dc[0 := DevCache(DEV, s.next, false, [])] && Lookup(s1.dc, DEV) == 0;
    RefAt(s.app, 1, 0);
    assert s.next !in s.role || s.next > LAST;
    var t := Step(s, BatchBegin(1, DEV, 1, true, {}));
    hide Ref, Ensure, Lookup;
    forall h | 1 <= h <= LAST
      ensures AppHolds(t, h)
    {
      assert AppHolds(s, h);
    }
  }

  lemma {:induction false} BeginMany(m: nat) returns (tr: seq<State>, es: seq<Event>, s: State)
    requires 1 <= m <= APP_CACHE_MAX
    ensures EndsIn(tr, es, s) && Began(s, m)
  {
    if m == 1 {
      tr, es, s := CreateMany(LAST);
      FirstBegin(s);
      assert AppHolds(s, 1);
      hide EndsIn, Step;
      tr, es := Extend(tr, es, s, BatchBegin(1, DEV, 1, true, {}));
      s := Step(s, BatchBegin(1, DEV, 1, true, {}));
    } else {
      tr, es, s := BeginMany(m - 1);
      assert AppHolds(s, m);
      BeginAt(s, m, m);
      RefAt(s.app, m, m - 1);
      hide EndsIn, Step, Ref;
      tr, es := Extend(tr, es, s, BatchBegin(m, DEV, m, true, {}));
      HoldingKept(s, Step(s, BatchBegin(m, DEV, m, true, {})), LAST);
      s := Step(s, BatchBegin(m, DEV, m, true, {}));
    }
  }

  // ---- the refused batch and the harvest -------------------------------------

  /** Batch 17 is refused: the table is full and does not know its cache. */
  lemma RefuseOne() returns (tr: seq<State>, es: seq<Event>, s: State, was: State)
    ensures EndsIn(tr, es, s) && Began(was, APP_CACHE_MAX) && s.dc == was.dc && s.app == was.app && Holding(s, LAST)
    ensures s.batches == was.batches[LAST := Batch(DEV, LAST, false, false, LAST, NULL, Opened)]
  {
    tr, es, was := BeginMany(APP_CACHE_MAX);
    assert AppHolds(was, LAST);
    BeginAt(was, LAST, LAST);
    RefAt(was.app, LAST, APP_CACHE_MAX);
    hide EndsIn, Step, Ref;
    tr, es := Extend(tr, es, was, BatchBegin(LAST, DEV, LAST, true, {}));
    s := Step(was, BatchBegin(LAST, DEV, LAST, true, {}));
    HoldingKept(was, s, LAST);
  }

  /** Batch 1 finishes, and its entry is free again. */
  lemma FinishOne() returns (tr: seq<State>, es: seq<Event>, s: State)
    ensures EndsIn(tr, es, s) && HasRow(s) && Holding(s, LAST) && |s.app| == APP_CACHE_MAX && s.app[0].pc == NULL
    ensures forall i :: 0 <= i < APP_CACHE_MAX ==> s.app[i].pc != LAST
    ensures forall b :: b in s.batches ==> 2 <= b <= LAST && (b != LAST ==> s.batches[b].app != LAST)
    ensures LAST in s.batches && s.batches[LAST] == Batch(DEV, LAST, false, false, LAST, NULL, Opened)
  {
    var was;
    tr, es, s, was := RefuseOne();
    ScratchAt(s, 1);
    hide EndsIn, Step;
    tr, es := Extend(tr, es, s, BatchScratch(1, true));
    HoldingKept(s, Step(s, BatchScratch(1, true)), LAST);
    s := Step(s, BatchScratch(1, true));
    FinishAt(s, 1);
    assert LookupApp(s.app, 1) == 0;
    tr, es := Extend(tr, es, s, BatchFinish(1, {}, false, false));
    var t := Step(s, BatchFinish(1, {}, false, false));
    HoldingKept(s, t, LAST);
    s := t;
  }

  /** Both batches on the seventeenth cache are compiling; the table knows only the second. */
  lemma BothCompile() returns (tr: seq<State>, es: seq<Event>, s: State)
    ensures EndsIn(tr, es, s) && HasRow(s) && 18 in s.batches && LAST in s.batches
    ensures s.batches[18] == Batch(DEV, LAST, false, true, LAST, NULL, Compiling)
    ensures s.batches[LAST] == Batch(DEV, LAST, false, false, LAST, NULL, Compiling)
    ensures TrackedOn(s.batches, LAST) == {18}
  {
    tr, es, s := FinishOne();
    assert AppHolds(s, LAST);
    BeginAt(s, 18, LAST);
    RefAt(s.app, LAST, 0);
    hide EndsIn, Step, Ref;
    tr, es := Extend(tr, es, s, BatchBegin(18, DEV, LAST, true, {}));
    s := Step(s, BatchBegin(18, DEV, LAST, true, {}));
    ScratchAt(s, LAST);
    tr, es := Extend(tr, es, s, BatchScratch(LAST, true));
    s := Step(s, BatchScratch(LAST, true));
    ScratchAt(s, 18);
    tr, es := Extend(tr, es, s, BatchScratch(18, true));
    s := Step(s, BatchScratch(18, true));
  }

  /** The harvest meets the compile: the last step of this run touches a cache that a batch is using. */
  lemma HarvestMeetsCompile() returns (tr: seq<State>, es: seq<Event>)
    ensures IsRun(tr, es) && |es| > 0 && es[|es| - 1].BatchFinish?
    ensures forall k :: 0 <= k < |es| ==> Calm(tr[k], es[k]) && Polite(tr[k], es[k])
    ensures Disturbs(tr[|tr| - 1])
  {
    var s;
    tr, es, s := BothCompile();
    var e := BatchFinish(18, {}, true, false);
    assert Lookup(s.dc, DEV) == 0;
    assert Harvests(s, e) && RefusedBeside(s, 18);
    hide Step, Harvests, RefusedBeside, Disturbs;
    tr, es := Extend(tr, es, s, e);
    HarvestMeetsCompileIff(tr, es, |es| - 1);
  }
}
