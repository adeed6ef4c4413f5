/** Which amplifier is on for a live output, however the calls that choose it interleave. */
module AudioAmplifiers {
  import opened Common
  import opened AudioRouting
  import opened AudioStreams

  /** The devices a step hands to the routing functions, if it hands any. */
  function Handed(s: State, e: Event): Option<Devices>
    requires Enabled(s, e)
  {
    match e
    case OutRoute(_) => Some(s.out.value.devices)
    case Retarget(thread) => Some(s.routing[thread])
    case _ => None
  }

  function Latest(carried: Option<Devices>, handed: Option<Devices>): Option<Devices> {
    if handed.Some? then handed else carried
  }

  /** The devices the last OutRoute or Retarget before moment k carried. */
  function Carried(tr: seq<State>, es: seq<Event>, k: nat): Option<Devices>
    requires IsRun(tr, es) && k < |tr|
  {
    if k == 0 then None else
    assert Next(tr[k - 1], es[k - 1], tr[k]);
    Latest(Carried(tr, es, k - 1), Handed(tr[k - 1], es[k - 1]))
  }

  /** The live amplifier is the one the last carried devices call for. */
  predicate AmpIs(s: State, carried: Option<Devices>) {
    s.dev.outRefs > 0 ==> carried.Some? && s.dev.outAmp == Some(AmpFor(carried.value))
  }

  lemma AmpStep(s: State, e: Event, carried: Option<Devices>)
    requires Inv(s) && AmpIs(s, carried) && Enabled(s, e) && Served(s, e)
    ensures AmpIs(Step(s, e), Latest(carried, Handed(s, e)))
  {
    if e.OpenIn? || e.InRoute? || e.InOpened? || e.InClose? || e.CloseIn? {
      InLeavesOut(s, e);
    }
    hide RoutedIns;
  }

  lemma AmpNext(s: State, e: Event, t: State, carried: Option<Devices>)
    requires Inv(s) && AmpIs(s, carried) && Next(s, e, t) && Served(s, e)
    ensures AmpIs(t, Latest(carried, Handed(s, e)))
  {
    AmpStep(s, e, carried);
  }

  lemma {:induction false} AmpRun(tr: seq<State>, es: seq<Event>, k: nat)
    requires IsRun(tr, es) && AllServed(tr, es, k) && k < |tr|
    ensures AmpIs(tr[k], Carried(tr, es, k))
  {
    if k > 0 {
      AmpRun(tr, es, k - 1);
      RunInv(tr, es, k - 1);
      assert Next(tr[k - 1], es[k - 1], tr[k]) && Served(tr[k - 1], es[k - 1]);
      hide Inv;
      AmpNext(tr[k - 1], es[k - 1], tr[k], Carried(tr, es, k - 1));
    }
  }

  lemma LiveAmp(s: State, carried: Option<Devices>)
    requires Inv(s) && AmpIs(s, carried) && RoutedOuts(s) == 1
    ensures carried.Some? && s.dev.on == {AmpFor(carried.value)}
  {
  }

  /**
    However routing calls overlap: the one amplifier that is on for a routed output is that of the last
    devices carried, so it matches the stream's devices exactly when those call for the same amplifier.
   */
  lemma AmpMatchesIff(tr: seq<State>, es: seq<Event>, k: nat)
    requires IsRun(tr, es) && AllServed(tr, es, k) && k < |tr| && RoutedOuts(tr[k]) == 1
    ensures Carried(tr, es, k).Some? && tr[k].dev.on == {AmpFor(Carried(tr, es, k).value)}
    ensures tr[k].dev.on == {AmpFor(tr[k].out.value.devices)}
       <==> AmpFor(Carried(tr, es, k).value) == AmpFor(tr[k].out.value.devices)
  {
    RunInv(tr, es, k);
    AmpRun(tr, es, k);
    hide Carried, Inv, AmpIs;
    LiveAmp(tr[k], Carried(tr, es, k));
  }

  /** A call in progress carries the stream's present devices, and with none in progress a routed output's were the last carried. */
  predicate Following(s: State, carried: Option<Devices>) {
    && (forall t :: t in s.routing ==> s.out.Some? && s.routing[t] == s.out.value.devices)
    && (RoutedOuts(s) == 1 && s.routing == map[] ==> carried == Some(s.out.value.devices))
    && |s.routing| <= 1
  }

  lemma FollowNext(s: State, e: Event, t: State, carried: Option<Devices>)
    requires Following(s, carried) && Next(s, e, t) && (e.SetRouting? ==> s.routing == map[])
    requires s.out.Some? ==> var o := s.out.value; StreamOk(o.pcm, o.routed, o.standby, o.opening)
    ensures Following(t, Latest(carried, Handed(s, e)))
  {
    if e.Retarget? {
      RetargetLast(s, e.thread);
      FollowRetarget(s, e, t, carried);
    } else if e.SetRouting? {
      FollowSet(s, e, t, carried);
    } else {
      FollowOther(s, e, t, carried);
    }
    hide Following, Next;
  }

  lemma FollowRetarget(s: State, e: Event, t: State, carried: Option<Devices>)
    requires Following(s, carried) && Next(s, e, t) && e.Retarget? && s.routing - {e.thread} == map[]
    ensures Following(t, Latest(carried, Handed(s, e)))
  {
    assert s.routing[e.thread] == s.out.value.devices;
    assert t.routing == map[] && t.out == s.out;
  }

  lemma FollowSet(s: State, e: Event, t: State, carried: Option<Devices>)
    requires Following(s, carried) && Next(s, e, t) && e.SetRouting? && s.routing == map[]
    ensures Following(t, Latest(carried, Handed(s, e)))
  {
    assert s.routing[e.thread := e.devices] == map[e.thread := e.devices];
    assert |map[e.thread := e.devices]| == 1;
  }

  lemma FollowOther(s: State, e: Event, t: State, carried: Option<Devices>)
    requires Following(s, carried) && Next(s, e, t) && !e.SetRouting? && !e.Retarget?
    requires s.out.Some? ==> var o := s.out.value; StreamOk(o.pcm, o.routed, o.standby, o.opening)
    ensures Following(t, Latest(carried, Handed(s, e)))
  {
    assert t.routing == s.routing;
    if e.OpenIn? || e.InRoute? || e.InOpened? || e.InClose? || e.CloseIn? {
      InLeavesOut(s, e);
    }
  }

  lemma RetargetLast(s: State, thread: nat)
    requires thread in s.routing && |s.routing| <= 1
    ensures s.routing - {thread} == map[]
  {
    Card(s.routing.Keys, thread);
    assert s.routing.Keys - {thread} == {};
    assert (s.routing - {thread}).Keys == {};
  }

  lemma {:induction false} FollowRun(tr: seq<State>, es: seq<Event>, k: nat)
    requires IsRun(tr, es) && AllServed(tr, es, k) && NoOverlap(tr, es) && k < |tr|
    ensures Following(tr[k], Carried(tr, es, k))
  {
    if k > 0 {
      FollowRun(tr, es, k - 1);
      RunInv(tr, es, k - 1);
      assert Next(tr[k - 1], es[k - 1], tr[k]);
      OutOk(tr[k - 1]);
      hide Inv, Following, Next;
      FollowNext(tr[k - 1], es[k - 1], tr[k], Carried(tr, es, k - 1));
    }
  }

  lemma OutOk(s: State)
    requires Inv(s)
    ensures s.out.Some? ==> var o := s.out.value; StreamOk(o.pcm, o.routed, o.standby, o.opening)
  {
  }

  /** If routing calls do not overlap, the last carried devices are the present ones, so a live output's amplifier matches them. */
  lemma AmpFollowsDevices(tr: seq<State>, es: seq<Event>, k: nat)
    requires IsRun(tr, es) && AllServed(tr, es, k) && NoOverlap(tr, es) && k < |tr| && RoutedOuts(tr[k]) == 1 && tr[k].routing == map[]
    ensures tr[k].dev.on == {AmpFor(tr[k].out.value.devices)}
  {
    AmpMatchesIff(tr, es, k);
    FollowRun(tr, es, k);
    hide Carried;
  }

  /** Two calls that overlap and finish in the other order leave the amplifier of the first behind the devices of the second. */
  lemma OverlapMismatch(s: State, a: nat, b: nat, d1: Devices, d2: Devices)
    requires Inv(s) && s.routing == map[] && s.out.Some? && s.out.value.pcm && a != b && AmpFor(d1) != AmpFor(d2)
    ensures var s1 := Step(s, SetRouting(a, d1)); var s2 := Step(s1, SetRouting(b, d2));
            var s3 := Step(s2, Retarget(b)); var s4 := Step(s3, Retarget(a));
            s4.routing == map[] && s4.out.value.devices == d2 && s4.dev.outAmp == Some(AmpFor(d1))
  {
    var s1 := Step(s, SetRouting(a, d1));
    var s2 := Step(s1, SetRouting(b, d2));
    assert s2.routing == map[a := d1, b := d2];
    var s3 := Step(s2, Retarget(b));
    assert s3.routing == map[a := d1];
  }
}
