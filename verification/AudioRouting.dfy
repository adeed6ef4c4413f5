/**
  Playback and capture routing: reference counts, the three exclusive amplifier switches and the
  streams that hold routes. A step is one critical section of the device lock, or of a stream lock
  around it; set_parameters takes the two locks one after the other, with a gap between.
 */
module AudioRouting {
  import opened Common

  datatype Amp = SpeakerAmp | HeadphoneAmp | BothAmp
  datatype Devices = Devices(speaker: bool, headset: bool, headphone: bool)

  function AmpFor(d: Devices): Amp {
    if (d.headset || d.headphone) && d.speaker then BothAmp
    else if d.headset || d.headphone then HeadphoneAmp
    else SpeakerAmp
  }

  datatype Transducer = Loudspeaker | Headphones

  /** What each amplifier control drives: the speaker control adds the external amplifier, the others do not. */
  function Drives(a: Amp): set<Transducer> {
    match a
    case SpeakerAmp => {Loudspeaker}
    case HeadphoneAmp => {Headphones}
    case BothAmp => {Loudspeaker, Headphones}
  }

  /** The amplifier drives exactly what was asked for, and the speaker when nothing it knows was. */
  lemma AmpDrivesRequested(d: Devices)
    ensures Headphones in Drives(AmpFor(d)) <==> d.headset || d.headphone
    ensures Loudspeaker in Drives(AmpFor(d)) <==> d.speaker || !(d.headset || d.headphone)
  {
  }

  /** on is the set of amplifier switches that are on, capture whether the ADC is. */
  datatype Device = Device(mixer: bool, outRefs: int, inRefs: int, outAmp: Option<Amp>, on: set<Amp>, capture: bool)

  /** adev_mixer_locked; opens is what mixer_open would do. */
  function Tried(d: Device, opens: bool): Device { d.(mixer := d.mixer || opens) }

  function OutEnabled(d: Device, devices: Devices, opens: bool): Device {
    var m := Tried(d, opens);
    if !m.mixer then m
    else if d.outRefs > 0 then m.(outRefs := d.outRefs + 1)
    else m.(outRefs := d.outRefs + 1, outAmp := Some(AmpFor(devices)), on := d.on + {AmpFor(devices)})
  }

  function OutRetargeted(d: Device, devices: Devices, opens: bool): Device {
    if d.outRefs <= 0 || d.outAmp == Some(AmpFor(devices)) then d
    else
      var m := Tried(d, opens);
      if !m.mixer then m
      else m.(outAmp := Some(AmpFor(devices)), on := d.on - Named(d.outAmp) + {AmpFor(devices)})
  }

  function Named(a: Option<Amp>): set<Amp> { if a.Some? then {a.value} else {} }

  function OutDisabled(d: Device, opens: bool): Device {
    if d.outRefs <= 0 then d
    else if d.outRefs > 1 then d.(outRefs := d.outRefs - 1)
    else
      var m := Tried(d.(outRefs := 0), opens);
      if !m.mixer then m
      else m.(outAmp := None, on := d.on - {if d.outAmp.Some? then d.outAmp.value else SpeakerAmp})
  }

  function InEnabled(d: Device, opens: bool): Device {
    var m := Tried(d, opens);
    if !m.mixer then m else m.(inRefs := d.inRefs + 1, capture := d.inRefs <= 0 || d.capture)
  }

  function InDisabled(d: Device, opens: bool): Device {
    if d.inRefs <= 0 then d
    else if d.inRefs > 1 then d.(inRefs := d.inRefs - 1)
    else
      var m := Tried(d.(inRefs := 0), opens);
      if !m.mixer then m else m.(capture := false)
  }

  /**
    Every release undoes one request: a nested one restores the device, the outermost one leaves the path
    off and the count at zero, and a release without a request changes nothing.
   */
  lemma OutRequestUndone(d: Device, devices: Devices, opens: bool, later: bool)
    requires Sound(d) && (d.mixer || opens)
    ensures var t := OutDisabled(OutEnabled(d, devices, opens), later);
            t == d.(mixer := true, outAmp := if d.outRefs > 0 then d.outAmp else None)
    ensures d.outRefs == 0 ==> OutDisabled(d, later) == d && OutEnabled(d, devices, opens).on == {AmpFor(devices)}
  {
  }

  lemma InRequestUndone(d: Device, opens: bool, later: bool)
    requires Sound(d) && (d.mixer || opens)
    ensures InDisabled(InEnabled(d, opens), later) == d.(mixer := true)
    ensures InEnabled(d, opens).capture && (d.inRefs == 0 ==> InDisabled(d, later) == d)
  {
  }

  /** The device in place, with the amplifier state after every single mixer write. */
  class AudioDevice {
    var mixer: bool
    var outRefs: int
    var inRefs: int
    var outAmp: Option<Amp>
    var on: set<Amp>
    var capture: bool
    ghost var writes: seq<set<Amp>>

    ghost function Abs(): Device reads this { Device(mixer, outRefs, inRefs, outAmp, on, capture) }

    /** The live path's amplifier is the only one on. */
    ghost predicate Valid() reads this { Sound(Abs()) && forall k :: 0 <= k < |writes| ==> AtMostOne(writes[k]) }

    constructor ()
      ensures Valid() && Abs() == Device(false, 0, 0, None, {}, false) && writes == []
    {
      mixer, outRefs, inRefs, outAmp, on, capture, writes := false, 0, 0, None, {}, false, [];
    }

    method SetAmp(a: Amp, value: bool)
      modifies this`on, this`writes
      ensures on == (if value then old(on) + {a} else old(on) - {a}) && writes == old(writes) + [on]
    {
      on := if value then on + {a} else on - {a};
      writes := writes + [on];
    }

    method RouteOutEnable(devices: Devices, opens: bool) returns (ok: bool)
      requires Valid()
      modifies this
      ensures Valid() && Abs() == OutEnabled(old(Abs()), devices, opens) && (ok <==> old(mixer) || opens)
    {
      mixer := mixer || opens;
      if !mixer {
        return false;
      }
      outRefs := outRefs + 1;
      if outRefs - 1 > 0 {
        return true;
      }
      outAmp := Some(AmpFor(devices));
      SetAmp(AmpFor(devices), true);
      ok := true;
    }

    /** Off first, then on: at no moment are two amplifiers on. */
    method RouteOutRetarget(devices: Devices, opens: bool)
      requires Valid()
      modifies this
      ensures Valid() && Abs() == OutRetargeted(old(Abs()), devices, opens)
    {
      if outRefs <= 0 || outAmp == Some(AmpFor(devices)) {
        return;
      }
      mixer := mixer || opens;
      if mixer {
        SetAmp(outAmp.value, false);
        SetAmp(AmpFor(devices), true);
        outAmp := Some(AmpFor(devices));
      }
    }

    method RouteOutDisable(opens: bool)
      requires Valid()
      modifies this
      ensures Valid() && Abs() == OutDisabled(old(Abs()), opens)
    {
      if outRefs <= 0 {
        return;
      }
      outRefs := outRefs - 1;
      if outRefs > 0 {
        return;
      }
      mixer := mixer || opens;
      if mixer {
        SetAmp(if outAmp.Some? then outAmp.value else SpeakerAmp, false);
        outAmp := None;
      }
    }

    method RouteInEnable(opens: bool) returns (ok: bool)
      requires Valid()
      modifies this
      ensures Valid() && Abs() == InEnabled(old(Abs()), opens) && (ok <==> old(mixer) || opens)
    {
      mixer := mixer || opens;
      if !mixer {
        return false;
      }
      inRefs := inRefs + 1;
      if inRefs - 1 <= 0 {
        capture := true;
      }
      ok := true;
    }

    method RouteInDisable(opens: bool)
      requires Valid()
      modifies this
      ensures Valid() && Abs() == InDisabled(old(Abs()), opens)
    {
      if inRefs <= 0 {
        return;
      }
      inRefs := inRefs - 1;
      if inRefs > 0 {
        return;
      }
      mixer := mixer || opens;
      if mixer {
        capture := false;
      }
    }
  }

  predicate AtMostOne(on: set<Amp>) { forall a, b :: a in on && b in on ==> a == b }

  /** A live path has an open mixer and exactly its own amplifier on; an idle one has none. */
  predicate Sound(d: Device) {
    && d.outRefs >= 0 && d.inRefs >= 0 && (d.outRefs > 0 || d.inRefs > 0 ==> d.mixer)
    && (d.outRefs > 0 <==> d.outAmp.Some?) && d.on == Named(d.outAmp)
    && (d.capture <==> d.inRefs > 0)
  }
}

/** Streams over the device, and every interleaving of their calls. */
module AudioStreams {
  import opened Common
  import opened AudioRouting

  /** opening is set while the stream lock is held across pcm_open. */
  datatype Out = Out(devices: Devices, pcm: bool, routed: bool, standby: bool, opening: bool)
  datatype In = In(pcm: bool, routed: bool, standby: bool, opening: bool)

  /** routing holds the set_parameters calls between their two critical sections, by thread. */
  datatype State = State(dev: Device, out: Option<Out>, ins: map<nat, In>, routing: map<nat, Devices>)

  datatype Event =
    | OpenOut(devices: Devices)
    | OutRoute(opens: bool)                    // out_write finds no PCM: route, then pcm_open
    | OutOpened(ok: bool)                      // pcm_open returned
    | OutClose                                 // standby, or a failed pcm_write
    | CloseOut                                 // adev_close_output_stream
    | SetRouting(thread: nat, devices: Devices)  // out_set_parameters, stream lock
    | Retarget(thread: nat)                    // out_set_parameters, device lock
    | OpenIn(id: nat)
    | InRoute(id: nat, opens: bool)
    | InOpened(id: nat, ok: bool)
    | InClose(id: nat)
    | CloseIn(id: nat)

  predicate Enabled(s: State, e: Event) {
    match e
    case OpenOut(_) => s.out.None? && s.routing == map[]
    case OutRoute(_) => s.out.Some? && !s.out.value.opening && !s.out.value.pcm
    case OutOpened(_) => s.out.Some? && s.out.value.opening
    case OutClose => s.out.Some? && !s.out.value.opening
    case CloseOut => s.out.Some? && !s.out.value.opening && s.routing == map[]
    case SetRouting(thread, _) => s.out.Some? && !s.out.value.opening && thread !in s.routing
    case Retarget(thread) => thread in s.routing
    case OpenIn(id) => id !in s.ins
    case InRoute(id, _) => id in s.ins && !s.ins[id].opening && !s.ins[id].pcm
    case InOpened(id, _) => id in s.ins && s.ins[id].opening
    case InClose(id) => id in s.ins && !s.ins[id].opening
    case CloseIn(id) => id in s.ins && !s.ins[id].opening
  }

  /** out_close_pcm_locked. */
  function ClosedOut(s: State): State
    requires s.out.Some?
  {
    var o := s.out.value;
    s.(dev := if o.routed then OutDisabled(s.dev, true) else s.dev, out := Some(o.(pcm := false, routed := false, standby := true)))
  }

  /** in_close_pcm_locked. */
  function ClosedIn(s: State, id: nat): State
    requires id in s.ins
  {
    var i := s.ins[id];
    s.(dev := if i.routed then InDisabled(s.dev, true) else s.dev,
       ins := s.ins[id := i.(pcm := false, routed := false, standby := true)])
  }

  function Step(s: State, e: Event): State
    requires Enabled(s, e)
  {
    match e
    case OpenOut(devices) => s.(out := Some(Out(devices, false, false, true, false)))
    case OutRoute(opens) =>
      s.(dev := OutEnabled(s.dev, s.out.value.devices, opens), out := Some(s.out.value.(routed := true, opening := true)))
    case OutOpened(ok) =>
      if ok then s.(out := Some(s.out.value.(pcm := true, standby := false, opening := false)))
      else s.(dev := OutDisabled(s.dev, true), out := Some(s.out.value.(routed := false, opening := false)))
    case OutClose => if s.out.value.standby then s else ClosedOut(s)
    case CloseOut => ClosedOut(s).(out := None)
    case SetRouting(thread, devices) =>
      s.(out := Some(s.out.value.(devices := devices)),
         routing := if s.out.value.routed then s.routing[thread := devices] else s.routing)
    case Retarget(thread) => s.(dev := OutRetargeted(s.dev, s.routing[thread], true), routing := s.routing - {thread})
    case OpenIn(id) => s.(ins := s.ins[id := In(false, false, true, false)])
    case InRoute(id, opens) =>
      s.(dev := InEnabled(s.dev, opens), ins := s.ins[id := s.ins[id].(routed := true, opening := true)])
    case InOpened(id, ok) =>
      if ok then s.(ins := s.ins[id := s.ins[id].(pcm := true, standby := false, opening := false)])
      else s.(dev := InDisabled(s.dev, true), ins := s.ins[id := s.ins[id].(routed := false, opening := false)])
    case InClose(id) => if s.ins[id].standby then s else ClosedIn(s, id)
    case CloseIn(id) => ClosedIn(s, id).(ins := s.ins - {id})
  }

  /** A stream that asks for a route finds the mixer open, or it opens now. */
  predicate Served(s: State, e: Event) { (e.OutRoute? ==> s.dev.mixer || e.opens) && (e.InRoute? ==> s.dev.mixer || e.opens) }

  predicate Next(s: State, e: Event, t: State) { Enabled(s, e) && t == Step(s, e) }

  predicate Initial(s: State) { s == State(Device(false, 0, 0, None, {}, false), None, map[], map[]) }

  predicate IsRun(tr: seq<State>, es: seq<Event>) {
    |tr| == |es| + 1 && Initial(tr[0]) && forall k :: 0 <= k < |es| ==> Next(tr[k], es[k], tr[k + 1])
  }

  /** Every route request of the run up to step n was served. */
  predicate AllServed(tr: seq<State>, es: seq<Event>, n: nat) {
    n <= |es| < |tr| && forall k :: 0 <= k < n ==> Served(tr[k], es[k])
  }

  /** No set_parameters call starts while another is between its critical sections. */
  predicate NoOverlap(tr: seq<State>, es: seq<Event>) {
    |tr| == |es| + 1 && forall k :: 0 <= k < |es| && es[k].SetRouting? ==> tr[k].routing == map[]
  }

  function RoutedIns(s: State): set<nat> { set id | id in s.ins && s.ins[id].routed }
  function RoutedOuts(s: State): nat { if s.out.Some? && s.out.value.routed then 1 else 0 }

  predicate StreamOk(pcm: bool, routed: bool, standby: bool, opening: bool) {
    (standby <==> !pcm) && (routed <==> pcm || opening) && !(pcm && opening)
  }

  predicate Inv(s: State) {
    && Sound(s.dev) && s.dev.outRefs == RoutedOuts(s) && s.dev.inRefs == |RoutedIns(s)|
    && (s.out.Some? ==> var o := s.out.value; StreamOk(o.pcm, o.routed, o.standby, o.opening))
    && (forall id :: id in s.ins ==> var i := s.ins[id]; StreamOk(i.pcm, i.routed, i.standby, i.opening))
    && (s.out.None? ==> s.routing == map[])
  }

  lemma OutKeeps(s: State, e: Event)
    requires Inv(s) && Enabled(s, e) && Served(s, e) && !e.OpenIn? && !e.InRoute? && !e.InOpened? && !e.InClose? && !e.CloseIn?
    ensures Inv(Step(s, e))
  {
    assert RoutedIns(Step(s, e)) == RoutedIns(s);
  }

  lemma RoutedInsUpdate(s: State, t: State, id: nat, i: In)
    requires t.ins == s.ins[id := i]
    ensures RoutedIns(t) == if i.routed then RoutedIns(s) + {id} else RoutedIns(s) - {id}
  {
  }

  predicate WasRouted(s: State, id: nat) { id in s.ins && s.ins[id].routed }

  /** One input stream changes, and the count of routed inputs with it. */
  lemma InUpdate(s: State, t: State, id: nat, i: In)
    requires Inv(s) && t.ins == s.ins[id := i] && t.out == s.out && t.routing == s.routing
    requires Sound(t.dev) && t.dev.outRefs == s.dev.outRefs && StreamOk(i.pcm, i.routed, i.standby, i.opening)
    requires t.dev.inRefs == s.dev.inRefs + Bit(i.routed) - Bit(WasRouted(s, id))
    ensures Inv(t)
  {
    RoutedInsUpdate(s, t, id, i);
    assert id in RoutedIns(s) <==> WasRouted(s, id);
    hide RoutedIns, StreamOk, Sound, WasRouted;
    Card(RoutedIns(s), id);
  }

  lemma HasRoutes(s: State, id: nat)
    requires Inv(s) && WasRouted(s, id)
    ensures s.dev.inRefs > 0
  {
    assert id in RoutedIns(s);
  }

  lemma InDev(s: State, e: Event)
    requires Inv(s) && Enabled(s, e) && Served(s, e) && (e.OpenIn? || e.InRoute? || e.InOpened? || e.InClose?)
    ensures var t := Step(s, e);
            && e.id in t.ins && t.ins == s.ins[e.id := t.ins[e.id]] && t.out == s.out && t.routing == s.routing
            && Sound(t.dev) && t.dev.outRefs == s.dev.outRefs
            && t.dev.inRefs == s.dev.inRefs + Bit(t.ins[e.id].routed) - Bit(WasRouted(s, e.id))
            && var i := t.ins[e.id]; StreamOk(i.pcm, i.routed, i.standby, i.opening)
  {
    if WasRouted(s, e.id) {
      HasRoutes(s, e.id);
    }
    hide RoutedIns;
    assert e.InClose? && s.ins[e.id].standby ==> s.ins[e.id := s.ins[e.id]] == s.ins;
  }

  lemma InKeeps(s: State, e: Event)
    requires Inv(s) && Enabled(s, e) && Served(s, e) && (e.OpenIn? || e.InRoute? || e.InOpened? || e.InClose?)
    ensures Inv(Step(s, e))
  {
    InDev(s, e);
    hide Step, Enabled, Inv;
    InUpdate(s, Step(s, e), e.id, Step(s, e).ins[e.id]);
  }

  lemma CloseInKeeps(s: State, id: nat)
    requires Inv(s) && Enabled(s, CloseIn(id))
    ensures Inv(Step(s, CloseIn(id)))
  {
    var c, t := ClosedIn(s, id), Step(s, CloseIn(id));
    if WasRouted(s, id) {
      HasRoutes(s, id);
    }
    assert Inv(c) by {
      hide RoutedIns;
      InUpdate(s, c, id, c.ins[id]);
    }
    assert RoutedIns(t) == RoutedIns(c);
    hide ClosedIn, RoutedIns, Sound;
    assert t.dev == c.dev && t.out == c.out && t.routing == c.routing;
  }

  lemma StepKeeps(s: State, e: Event)
    requires Inv(s) && Enabled(s, e) && Served(s, e)
    ensures Inv(Step(s, e))
  {
    hide Inv, Step, Enabled;
    if e.CloseIn? {
      CloseInKeeps(s, e.id);
    } else if e.OpenIn? || e.InRoute? || e.InOpened? || e.InClose? {
      InKeeps(s, e);
    } else {
      OutKeeps(s, e);
    }
  }

  lemma {:induction false} RunInv(tr: seq<State>, es: seq<Event>, k: nat)
    requires IsRun(tr, es) && k < |tr| && AllServed(tr, es, k)
    ensures Inv(tr[k])
  {
    hide Inv, Next;
    if k == 0 {
      StartInv(tr[0]);
    } else {
      RunInv(tr, es, k - 1);
      assert Next(tr[k - 1], es[k - 1], tr[k]) && Served(tr[k - 1], es[k - 1]);
      NextKeeps(tr[k - 1], es[k - 1], tr[k]);
    }
  }

  lemma StartInv(s: State)
    requires Initial(s)
    ensures Inv(s)
  {
    assert RoutedIns(s) == {};
  }

  lemma NextKeeps(s: State, e: Event, t: State)
    requires Inv(s) && Next(s, e, t) && Served(s, e)
    ensures Inv(t)
  {
    StepKeeps(s, e);
  }

  predicate CountsRight(s: State) { s.dev.outRefs == RoutedOuts(s) && s.dev.inRefs == |RoutedIns(s)| }

  /** With every request served, the counts are the numbers of routed streams, and the only amplifier on is the live path's. */
  lemma CountsAreRoutes(tr: seq<State>, es: seq<Event>, k: nat)
    requires IsRun(tr, es) && k < |tr| && AllServed(tr, es, k)
    ensures CountsRight(tr[k])
    ensures AtMostOne(tr[k].dev.on) && (tr[k].dev.on == {} <==> RoutedOuts(tr[k]) == 0)
    ensures tr[k].dev.capture <==> RoutedIns(tr[k]) != {}
  {
    RunInv(tr, es, k);
    assert |RoutedIns(tr[k])| == 0 <==> RoutedIns(tr[k]) == {};
  }

  /** A call that opens the output ends with the PCM open, one amplifier on and the count at one. */
  lemma OutputPlays(tr: seq<State>, es: seq<Event>, k: nat)
    requires IsRun(tr, es) && k < |es| && AllServed(tr, es, k) && es[k] == OutOpened(true)
    ensures tr[k + 1].out.Some? && tr[k + 1].out.value.pcm && !tr[k + 1].out.value.standby
    ensures tr[k + 1].dev.outRefs == 1 && |tr[k + 1].dev.on| == 1 && tr[k + 1].dev.on == tr[k].dev.on
  {
    RunInv(tr, es, k);
    assert Next(tr[k], es[k], tr[k + 1]);
  }

  /** A failed open, a standby or a failed write, and closing the stream end with the PCM closed and no amplifier on. */
  lemma OutputRests(tr: seq<State>, es: seq<Event>, k: nat)
    requires IsRun(tr, es) && k < |es| && AllServed(tr, es, k) && (es[k] == OutOpened(false) || es[k].OutClose? || es[k].CloseOut?)
    ensures tr[k + 1].dev.outRefs == 0 && tr[k + 1].dev.on == {} && (es[k].CloseOut? <==> tr[k + 1].out.None?)
    ensures tr[k + 1].out.Some? ==> !tr[k + 1].out.value.pcm && tr[k + 1].out.value.standby
  {
    RunInv(tr, es, k);
    assert Next(tr[k], es[k], tr[k + 1]);
  }

  /** The same of an input, whose route goes only with the last input that uses it. */
  lemma InputRests(tr: seq<State>, es: seq<Event>, k: nat, id: nat)
    requires IsRun(tr, es) && k < |es| && AllServed(tr, es, k) && (es[k] == InOpened(id, false) || es[k] == InClose(id) || es[k] == CloseIn(id))
    ensures id in tr[k + 1].ins ==> !tr[k + 1].ins[id].pcm && !tr[k + 1].ins[id].routed && tr[k + 1].ins[id].standby
    ensures (es[k] == CloseIn(id) <==> id !in tr[k + 1].ins) && RoutedIns(tr[k + 1]) == RoutedIns(tr[k]) - {id}
  {
    RunInv(tr, es, k);
    assert Next(tr[k], es[k], tr[k + 1]);
    hide Sound;
  }

  // ---- when the mixer cannot be opened ---------------------------------------

  /** A request that is not served leaves its stream routed and the count behind. */
  lemma UnservedMiscounts(s: State, e: Event)
    requires Inv(s) && Enabled(s, e) && !Served(s, e)
    ensures !CountsRight(Step(s, e))
  {
    var t := Step(s, e);
    if e.InRoute? {
      RoutedInsUpdate(s, t, e.id, t.ins[e.id]);
      assert e.id !in RoutedIns(s);
      Card(RoutedIns(s), e.id);
    }
  }

  /** In every run, the counts have been right at every moment so far exactly when every route request so far was served. */
  lemma {:induction false} CountsRightIff(tr: seq<State>, es: seq<Event>, k: nat)
    requires IsRun(tr, es) && k < |tr|
    ensures (forall j :: 0 <= j <= k ==> CountsRight(tr[j])) <==> AllServed(tr, es, k)
  {
    hide CountsRight, Inv, Next, Served;
    if k == 0 {
      RunInv(tr, es, 0);
      InvCounts(tr[0]);
    } else {
      CountsRightIff(tr, es, k - 1);
      assert Next(tr[k - 1], es[k - 1], tr[k]);
      if AllServed(tr, es, k - 1) {
        RunInv(tr, es, k - 1);
        if Served(tr[k - 1], es[k - 1]) {
          RunInv(tr, es, k);
          InvCounts(tr[k]);
        } else {
          NextMiscounts(tr[k - 1], es[k - 1], tr[k]);
        }
      }
    }
  }

  lemma InvCounts(s: State)
    requires Inv(s)
    ensures CountsRight(s)
  {
  }

  lemma NextMiscounts(s: State, e: Event, t: State)
    requires Inv(s) && Next(s, e, t) && !Served(s, e)
    ensures !CountsRight(t)
  {
    UnservedMiscounts(s, e);
  }

  /** Whether the output's last route request, if any, was served. */
  predicate OutServed(tr: seq<State>, es: seq<Event>, k: nat)
    requires k <= |es| < |tr|
  {
    k == 0 || if es[k - 1].OutRoute? then Served(tr[k - 1], es[k - 1]) else OutServed(tr, es, k - 1)
  }

  lemma InLeavesOut(s: State, e: Event)
    requires Enabled(s, e) && (e.OpenIn? || e.InRoute? || e.InOpened? || e.InClose? || e.CloseIn?)
    ensures var t := Step(s, e);
            t.out == s.out && t.routing == s.routing && t.dev.outRefs == s.dev.outRefs && t.dev.outAmp == s.dev.outAmp
  {
  }

  predicate OutLaw(s: State, served: bool) {
    && s.dev.outRefs == Bit(served && RoutedOuts(s) == 1)
    && (s.out.Some? ==> var o := s.out.value; StreamOk(o.pcm, o.routed, o.standby, o.opening))
  }

  lemma OutLawStep(s: State, e: Event, t: State, served: bool)
    requires OutLaw(s, served) && Next(s, e, t)
    ensures OutLaw(t, if e.OutRoute? then Served(s, e) else served)
  {
    if e.OpenIn? || e.InRoute? || e.InOpened? || e.InClose? || e.CloseIn? {
      InLeavesOut(s, e);
    }
  }

  /** In every run and at every moment, locked or not, the output count is right exactly if no output is routed or its request was served. */
  lemma {:induction false} OutCountIff(tr: seq<State>, es: seq<Event>, k: nat)
    requires IsRun(tr, es) && k < |tr|
    ensures OutLaw(tr[k], OutServed(tr, es, k))
    ensures tr[k].dev.outRefs == RoutedOuts(tr[k]) <==> RoutedOuts(tr[k]) == 0 || OutServed(tr, es, k)
  {
    if k > 0 {
      OutCountIff(tr, es, k - 1);
      assert Next(tr[k - 1], es[k - 1], tr[k]);
      OutLawStep(tr[k - 1], es[k - 1], tr[k], OutServed(tr, es, k - 1));
      hide Next;
    }
  }

  ghost predicate EndsIn(tr: seq<State>, es: seq<Event>, s: State) { IsRun(tr, es) && tr[|tr| - 1] == s }

  lemma Extend(tr: seq<State>, es: seq<Event>, s: State, e: Event) returns (longer: seq<State>)
    requires EndsIn(tr, es, s) && Enabled(s, e)
    ensures EndsIn(longer, es + [e], Step(s, e))
  {
    var t := Step(s, e);
    longer := tr + [t];
    forall k | 0 <= k < |es + [e]|
      ensures Next(longer[k], (es + [e])[k], longer[k + 1])
    {
      if k < |es| {
        assert Next(tr[k], es[k], tr[k + 1]);
      }
    }
  }

  /** No output, and inputs 0 and 1. */
  function Inputs(d: Device, a: In, b: In): State { State(d, None, map[0 := a, 1 := b], map[]) }

  const IDLE: In := In(false, false, true, false)
  const ROUTING: In := In(false, true, true, true)
  const LIVE: In := In(true, true, false, false)

  lemma OpenTwo() returns (tr: seq<State>, d: Device)
    ensures d == Device(false, 0, 0, None, {}, false) && EndsIn(tr, [OpenIn(0), OpenIn(1)], Inputs(d, IDLE, IDLE))
  {
    d := Device(false, 0, 0, None, {}, false);
    var s := State(d, None, map[], map[]);
    tr := Extend([s], [], s, OpenIn(0));
    var t := Step(s, OpenIn(0));
    hide EndsIn;
    tr := Extend(tr, [] + [OpenIn(0)], t, OpenIn(1));
    assert Step(t, OpenIn(1)) == Inputs(d, IDLE, IDLE);
  }

  /** Input 0 asks while the mixer cannot be opened, input 1 once it can. */
  lemma RouteTwo(d: Device)
    requires d == Device(false, 0, 0, None, {}, false)
    ensures Enabled(Inputs(d, IDLE, IDLE), InRoute(0, false))
    ensures Step(Inputs(d, IDLE, IDLE), InRoute(0, false)) == Inputs(d, ROUTING, IDLE)
    ensures Enabled(Inputs(d, ROUTING, IDLE), InRoute(1, true))
    ensures Step(Inputs(d, ROUTING, IDLE), InRoute(1, true)) == Inputs(d.(mixer := true, inRefs := 1, capture := true), ROUTING, ROUTING)
  {
  }

  lemma OpenedTwo(d: Device)
    requires d == Device(true, 0, 1, None, {}, true)
    ensures Enabled(Inputs(d, ROUTING, ROUTING), InOpened(1, true))
    ensures Step(Inputs(d, ROUTING, ROUTING), InOpened(1, true)) == Inputs(d, ROUTING, LIVE)
    ensures Enabled(Inputs(d, ROUTING, LIVE), InOpened(0, false))
    ensures Step(Inputs(d, ROUTING, LIVE), InOpened(0, false)) == Inputs(d.(inRefs := 0, capture := false), IDLE, LIVE)
  {
  }

  /**
    An input routed without the mixer, whose PCM then fails to open, takes away the route of another
    input that is still using it: a run from the start, with no stream lock held at its end.
   */
  lemma StolenRoute() returns (tr: seq<State>, s: State)
    ensures EndsIn(tr, [OpenIn(0), OpenIn(1), InRoute(0, false), InRoute(1, true), InOpened(1, true), InOpened(0, false)], s)
    ensures Stolen(s)
  {
    hide EndsIn, Step, Enabled, Inputs;
    var d;
    tr, d := OpenTwo();
    RouteTwo(d);
    tr := Extend(tr, [OpenIn(0), OpenIn(1)], Inputs(d, IDLE, IDLE), InRoute(0, false));
    tr := Extend(tr, [OpenIn(0), OpenIn(1)] + [InRoute(0, false)], Inputs(d, ROUTING, IDLE), InRoute(1, true));
    var served := [OpenIn(0), OpenIn(1), InRoute(0, false), InRoute(1, true)];
    assert [OpenIn(0), OpenIn(1)] + [InRoute(0, false)] + [InRoute(1, true)] == served;
    d := d.(mixer := true, inRefs := 1, capture := true);
    OpenedTwo(d);
    tr := Extend(tr, served, Inputs(d, ROUTING, ROUTING), InOpened(1, true));
    tr := Extend(tr, served + [InOpened(1, true)], Inputs(d, ROUTING, LIVE), InOpened(0, false));
    assert served + [InOpened(1, true)] + [InOpened(0, false)]
        == [OpenIn(0), OpenIn(1), InRoute(0, false), InRoute(1, true), InOpened(1, true), InOpened(0, false)];
    s := Inputs(d.(inRefs := 0, capture := false), IDLE, LIVE);
    assert Stolen(s) by { StolenEnd(s, d.(inRefs := 0, capture := false)); }
  }

  lemma StolenEnd(s: State, d: Device)
    requires s == Inputs(d, IDLE, LIVE) && d.inRefs == 0 && !d.capture
    ensures Stolen(s)
  {
    assert s.ins.Keys == {0, 1};
  }

  /** Input 1 is open and routed, but nothing is counted and the capture path is off; nobody holds a stream lock. */
  predicate Stolen(s: State) {
    && s.out.None? && s.ins.Keys == {0, 1} && !s.ins[0].opening && !s.ins[1].opening
    && s.ins[1].pcm && s.ins[1].routed && s.dev.inRefs == 0 && !s.dev.capture
  }
}
