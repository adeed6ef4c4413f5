/**
  The HDMI daemon's sleep timer. It reads the screen-power property, acts under the lock it shares
  with the main loop's helper runs, and then waits for the property's serial to move on. The property
  may be written at any moment.
 */
module HdmiTimer {
  import opened Common

  datatype Holder = Nobody | Main | Timer

  datatype Pc =
    | Find          // the property does not exist yet
    | ReadPower
    | ReadMinutes   // asleep
    | TimedWait     // asleep with a timeout set
    | WantOff       // about to take the lock, to switch off
    | CheckOff      // lock held: asleep still, and the output up?
    | RunOff        // lock held: hdmictl disable is running
    | WantOn        // about to take the lock, awake
    | CheckOn       // lock held: did the timer switch the output off?
    | RunOn         // lock held: hdmictl power 1, enable are running
    | FinalWait     // waiting for a serial other than the one last returned

  /**
    version is the property's serial, 0 while it does not exist; serial is the timer's own copy and
    seen the power value it last read; off says the timer has switched the output off and not back on.
   */
  datatype State = State(power: int, version: nat, pc: Pc, serial: nat, seen: int, torn: bool, off: bool,
                         lock: Holder, mainRuns: bool)

  /** What a step of the timer learns from outside, besides the power property. */
  datatype Outcome =
    | Nothing                  // it asks nothing
    | Minutes(n: int)          // the sleep property, -1 when unset
    | Waited(changed: bool)    // the timed wait: the property's serial moved on, or the time ran out
    | Output(active: bool)     // the HDMI attribute

  datatype Event =
    | Write(value: int)        // SurfaceFlinger publishes the power state
    | MainLock                 // run_tweaks: lock, fork
    | MainUnlock               // run_tweaks: child ended, unlock
    | Tick(outcome: Outcome)   // the timer's next step

  predicate Enabled(s: State, e: Event) {
    match e
    case Write(_) => true
    case MainLock => s.lock.Nobody?
    case MainUnlock => s.lock.Main?
    case Tick(outcome) =>
      match s.pc
      case ReadMinutes => outcome.Minutes?
      case TimedWait => outcome.Waited? && (outcome.changed ==> s.serial != s.version)
      case CheckOff => outcome.Output?
      case Find => outcome.Nothing? && s.version > 0
      case WantOff => outcome.Nothing? && s.lock.Nobody?
      case WantOn => outcome.Nothing? && s.lock.Nobody?
      case FinalWait => outcome.Nothing? && s.serial != s.version
      case _ => outcome.Nothing?
  }

  function Step(s: State, e: Event): State
    requires Enabled(s, e)
  {
    match e
    case Write(value) => s.(power := value, version := s.version + 1)
    case MainLock => s.(lock := Main, mainRuns := true)
    case MainUnlock => s.(lock := Nobody, mainRuns := false)
    case Tick(outcome) => TimerStep(s, outcome)
  }

  function TimerStep(s: State, o: Outcome): State
    requires Enabled(s, Tick(o))
  {
    match s.pc
    case Find => s.(serial := 0, pc := ReadPower)
    case ReadPower => s.(seen := s.power, pc := if s.power == 0 then ReadMinutes else if s.power == 1 then WantOn else FinalWait)
    case ReadMinutes => s.(pc := if o.n > 0 then TimedWait else FinalWait)
    case TimedWait => if o.changed then s.(serial := s.version, pc := ReadPower) else s.(pc := WantOff)
    case WantOff => s.(lock := Timer, pc := CheckOff)
    case CheckOff => if s.power == 0 && o.active then s.(off := true, pc := RunOff) else s.(lock := Nobody, pc := FinalWait)
    case RunOff => s.(torn := true, lock := Nobody, pc := FinalWait)
    case WantOn => s.(lock := Timer, pc := CheckOn)
    case CheckOn => if s.torn then s.(torn := false, pc := RunOn) else s.(lock := Nobody, pc := FinalWait)
    case RunOn => s.(off := false, lock := Nobody, pc := FinalWait)
    case FinalWait => s.(serial := s.version, pc := ReadPower)
  }

  predicate Next(s: State, e: Event, t: State) { Enabled(s, e) && t == Step(s, e) }

  predicate Initial(s: State) {
    s.version == 0 && s.pc.Find? && s.serial == 0 && !s.torn && !s.off && s.lock.Nobody? && !s.mainRuns
  }

  predicate IsRun(tr: seq<State>, es: seq<Event>) {
    |tr| == |es| + 1 && Initial(tr[0]) && forall k :: 0 <= k < |es| ==> Next(tr[k], es[k], tr[k + 1])
  }

  predicate TimerLocked(pc: Pc) { pc.CheckOff? || pc.RunOff? || pc.CheckOn? || pc.RunOn? }
  predicate TimerRuns(s: State) { s.pc.RunOff? || s.pc.RunOn? }

  /** The timer sleeps until the property changes again. */
  predicate Blocks(s: State) { (s.pc.Find? && s.version == 0) || (s.pc.FinalWait? && s.serial == s.version) }

  predicate Inv(s: State) {
    && s.serial <= s.version && (s.version == 0 ==> s.pc.Find?)
    && (s.pc.Find? ==> !s.off && !s.torn)
    && (!s.pc.Find? && !s.pc.ReadPower? && s.serial == s.version ==> s.seen == s.power)
    && (s.off ==> s.torn || TimerRuns(s))
    && (s.pc.FinalWait? && s.seen == 1 ==> !s.torn)
    && (s.pc.RunOn? ==> !s.torn)
    && (s.pc.ReadMinutes? || s.pc.TimedWait? || s.pc.WantOff? || s.pc.CheckOff? || s.pc.RunOff? ==> s.seen == 0)
    && (s.lock.Timer? <==> TimerLocked(s.pc)) && (s.mainRuns <==> s.lock.Main?)
  }

  lemma StepKeeps(s: State, e: Event)
    requires Inv(s) && Enabled(s, e)
    ensures Inv(Step(s, e))
  {
  }

  lemma {:induction false} RunInv(tr: seq<State>, es: seq<Event>, k: nat)
    requires IsRun(tr, es) && k < |tr|
    ensures Inv(tr[k])
  {
    if k > 0 {
      RunInv(tr, es, k - 1);
      assert Next(tr[k - 1], es[k - 1], tr[k]);
      StepKeeps(tr[k - 1], es[k - 1]);
    }
  }

  /** No change is lost between read and wait: when the timer blocks with the screen awake, nothing it switched off is still off. */
  lemma AwakeMeansBackOn(tr: seq<State>, es: seq<Event>, k: nat)
    requires IsRun(tr, es) && k < |tr| && Blocks(tr[k]) && tr[k].power == 1
    ensures !tr[k].off
  {
    RunInv(tr, es, k);
  }

  /** When the timer blocks, the value it acted on is the property's current one. */
  lemma BlocksOnCurrent(tr: seq<State>, es: seq<Event>, k: nat)
    requires IsRun(tr, es) && k < |tr| && Blocks(tr[k]) && tr[k].version > 0
    ensures tr[k].seen == tr[k].power
  {
    RunInv(tr, es, k);
  }

  /** Helper runs of the timer and of the main loop never overlap. */
  lemma HelpersExclude(tr: seq<State>, es: seq<Event>, k: nat)
    requires IsRun(tr, es) && k < |tr|
    ensures !(tr[k].mainRuns && TimerRuns(tr[k]))
  {
    RunInv(tr, es, k);
  }

  // ---- when the output is switched off ---------------------------------------

  /** Step i reads the power property and finds the screen asleep. */
  predicate FoundAsleep(tr: seq<State>, es: seq<Event>, i: nat)
    requires |tr| == |es| + 1 && i < |es|
  {
    es[i].Tick? && tr[i].pc.ReadPower? && tr[i].power == 0
  }

  /** Step i reads a positive number of minutes. */
  predicate FoundTimeout(tr: seq<State>, es: seq<Event>, i: nat)
    requires |tr| == |es| + 1 && i < |es|
  {
    es[i].Tick? && es[i].outcome.Minutes? && es[i].outcome.n > 0
  }

  /** At step i the timed wait runs out with the property unchanged, as far as the wait could see. */
  predicate RanOut(tr: seq<State>, es: seq<Event>, i: nat)
    requires |tr| == |es| + 1 && i < |es|
  {
    es[i] == Tick(Waited(false))
  }

  /** The power property is not read again after step i and before moment k. */
  predicate NotReread(tr: seq<State>, i: nat, k: nat)
    requires k < |tr|
  {
    forall m :: i < m <= k ==> !tr[m].pc.ReadPower?
  }

  /** Asleep, minutes, time out, in this order, since the last read of the power property. */
  ghost predicate AsleepSince(tr: seq<State>, es: seq<Event>, k: nat)
    requires |tr| == |es| + 1 && k < |tr|
  {
    exists i :: 0 <= i < k && FoundAsleep(tr, es, i) && NotReread(tr, i, k)
  }

  ghost predicate TimeoutSince(tr: seq<State>, es: seq<Event>, k: nat)
    requires |tr| == |es| + 1 && k < |tr|
  {
    exists i :: 0 <= i < k && FoundTimeout(tr, es, i) && NotReread(tr, i, k) && AsleepSince(tr, es, i)
  }

  ghost predicate RanOutSince(tr: seq<State>, es: seq<Event>, k: nat)
    requires |tr| == |es| + 1 && k < |tr|
  {
    exists i :: 0 <= i < k && RanOut(tr, es, i) && NotReread(tr, i, k) && TimeoutSince(tr, es, i)
  }

  /** What the timer's place in its loop says about how it came there. */
  ghost predicate Trail(tr: seq<State>, es: seq<Event>, k: nat)
    requires |tr| == |es| + 1 && k < |tr|
  {
    && (tr[k].pc.ReadMinutes? ==> AsleepSince(tr, es, k))
    && (tr[k].pc.TimedWait? ==> TimeoutSince(tr, es, k))
    && (tr[k].pc.WantOff? || tr[k].pc.CheckOff? || tr[k].pc.RunOff? ==> RanOutSince(tr, es, k))
  }

  lemma NotRereadLonger(tr: seq<State>, i: nat, k: nat)
    requires k + 1 < |tr| && NotReread(tr, i, k) && !tr[k + 1].pc.ReadPower?
    ensures NotReread(tr, i, k + 1)
  {
  }

  /** A step that does not lead to a new read keeps what lies behind. */
  lemma TrailKept(tr: seq<State>, es: seq<Event>, k: nat)
    requires |tr| == |es| + 1 && k < |es| && !tr[k + 1].pc.ReadPower?
    ensures AsleepSince(tr, es, k) ==> AsleepSince(tr, es, k + 1)
    ensures TimeoutSince(tr, es, k) ==> TimeoutSince(tr, es, k + 1)
    ensures RanOutSince(tr, es, k) ==> RanOutSince(tr, es, k + 1)
  {
    if AsleepSince(tr, es, k) {
      var i :| 0 <= i < k && FoundAsleep(tr, es, i) && NotReread(tr, i, k);
      NotRereadLonger(tr, i, k);
    }
    if TimeoutSince(tr, es, k) {
      var i :| 0 <= i < k && FoundTimeout(tr, es, i) && NotReread(tr, i, k) && AsleepSince(tr, es, i);
      NotRereadLonger(tr, i, k);
    }
    if RanOutSince(tr, es, k) {
      var i :| 0 <= i < k && RanOut(tr, es, i) && NotReread(tr, i, k) && TimeoutSince(tr, es, i);
      NotRereadLonger(tr, i, k);
    }
  }

  /** A step that moves on adds its own mark. */
  lemma TrailGrows(tr: seq<State>, es: seq<Event>, k: nat)
    requires |tr| == |es| + 1 && k < |es| && Next(tr[k], es[k], tr[k + 1]) && Trail(tr, es, k) && es[k].Tick?
    ensures Trail(tr, es, k + 1)
  {
    if !tr[k + 1].pc.ReadPower? {
      TrailKept(tr, es, k);
      assert NotReread(tr, k, k + 1);
      assert tr[k].pc.ReadPower? && tr[k].power == 0 ==> FoundAsleep(tr, es, k);
      assert tr[k].pc.ReadMinutes? && es[k].outcome.n > 0 ==> FoundTimeout(tr, es, k);
      assert tr[k].pc.TimedWait? && !es[k].outcome.changed ==> RanOut(tr, es, k);
    }
    hide NotReread, FoundAsleep, FoundTimeout, RanOut;
  }

  lemma {:induction false} RunTrail(tr: seq<State>, es: seq<Event>, k: nat)
    requires IsRun(tr, es) && k < |tr|
    ensures Trail(tr, es, k)
  {
    if k > 0 {
      RunTrail(tr, es, k - 1);
      assert Next(tr[k - 1], es[k - 1], tr[k]);
      if es[k - 1].Tick? {
        TrailGrows(tr, es, k - 1);
      } else if !tr[k].pc.ReadPower? {
        TrailKept(tr, es, k - 1);
      }
    }
  }

  /**
    Whenever the output is switched off: the lock is held, the screen is asleep at that moment, and
    since the power property was last read, it was found asleep, the minutes were found positive, and
    the timed wait ran out.
   */
  lemma OffOnlyAfterTimeout(tr: seq<State>, es: seq<Event>, k: nat)
    requires IsRun(tr, es) && k < |es| && !tr[k].off && tr[k + 1].off
    ensures tr[k].power == 0 && tr[k].lock.Timer? && es[k] == Tick(Output(true)) && RanOutSince(tr, es, k)
  {
    RunInv(tr, es, k);
    RunTrail(tr, es, k);
    assert Next(tr[k], es[k], tr[k + 1]);
    hide RanOutSince, TimeoutSince, AsleepSince;
  }

  /** The steps of the timer alone. */
  function Ticks(s: State, os: seq<Outcome>): Option<State>
    decreases |os|
  {
    if os == [] then Some(s)
    else if !Enabled(s, Tick(os[0])) then None
    else Ticks(Step(s, Tick(os[0])), os[1..])
  }

  /** Asleep, a timeout that runs out undisturbed, and an active output: the timer switches it off. */
  lemma TimeoutSwitchesOff(s: State, n: int)
    requires s.pc.ReadPower? && s.power == 0 && s.lock.Nobody? && n > 0
    ensures var t := Ticks(s, [Nothing, Minutes(n), Waited(false), Nothing, Output(true), Nothing]);
            t.Some? && t.value.off && t.value.torn && t.value.lock.Nobody? && t.value.pc.FinalWait?
  {
    var a := Step(s, Tick(Nothing));
    var b := Step(a, Tick(Minutes(n)));
    var c := Step(b, Tick(Waited(false)));
    var d := Step(c, Tick(Nothing));
    var e := Step(d, Tick(Output(true)));
    assert Ticks(s, [Nothing, Minutes(n), Waited(false), Nothing, Output(true), Nothing])
        == Ticks(a, [Minutes(n), Waited(false), Nothing, Output(true), Nothing]);
    assert Ticks(b, [Waited(false), Nothing, Output(true), Nothing]) == Ticks(c, [Nothing, Output(true), Nothing]);
    assert Ticks(d, [Output(true), Nothing]) == Ticks(e, [Nothing]) == Ticks(Step(e, Tick(Nothing)), []);
  }

  /** Without a timeout set the timer leaves the output as it is and waits for the next change. */
  lemma NoTimeoutLeavesOn(s: State, n: int)
    requires s.pc.ReadPower? && s.power == 0 && n <= 0
    ensures var t := Ticks(s, [Nothing, Minutes(n)]); t.Some? && t.value.off == s.off && t.value.pc.FinalWait?
  {
    var a := Step(s, Tick(Nothing));
    assert Ticks(s, [Nothing, Minutes(n)]) == Ticks(a, [Minutes(n)]) == Ticks(Step(a, Tick(Minutes(n))), []);
  }

  /** The property appears: the timer's next two steps find it and read it. */
  lemma FirstLook(s: State)
    requires s.pc.Find? && s.version > 0
    ensures var t := Ticks(s, [Nothing, Nothing]); t.Some? && t.value.seen == s.power
  {
    var a := Step(s, Tick(Nothing));
    assert Ticks(s, [Nothing, Nothing]) == Ticks(a, [Nothing]) == Ticks(Step(a, Tick(Nothing)), []);
  }

  /**
    The screen wakes while the timer waits, with or without a time limit, at any moment of any run: left
    to itself it reads the change, switches back on what it switched off, and only then blocks again.
   */
  lemma WakeSwitchesOn(tr: seq<State>, es: seq<Event>, k: nat)
    requires IsRun(tr, es) && k < |tr| && tr[k].power == 1 && tr[k].lock.Nobody? && tr[k].serial != tr[k].version
    requires tr[k].pc.FinalWait? || tr[k].pc.TimedWait?
    ensures exists os: seq<Outcome> ::
              Ticks(tr[k], os).Some? && Blocks(Ticks(tr[k], os).value) && !Ticks(tr[k], os).value.off && Ticks(tr[k], os).value.seen == 1
  {
    RunInv(tr, es, k);
    var s := tr[k];
    var first := if s.pc.TimedWait? then Waited(true) else Nothing;
    var a := Step(s, Tick(first));
    WakeOn(a);
    var os := if s.torn then [Nothing, Nothing, Nothing, Nothing] else [Nothing, Nothing, Nothing];
    assert ([first] + os)[1..] == os;
    assert Ticks(s, [first] + os) == Ticks(a, os);
  }

  lemma WakeOn(s: State)
    requires s.pc.ReadPower? && s.power == 1 && s.lock.Nobody? && s.serial == s.version && (s.off ==> s.torn)
    ensures var t := Ticks(s, if s.torn then [Nothing, Nothing, Nothing, Nothing] else [Nothing, Nothing, Nothing]);
            t.Some? && Blocks(t.value) && !t.value.off && t.value.seen == 1
  {
    var a := Step(s, Tick(Nothing));
    var b := Step(a, Tick(Nothing));
    var c := Step(b, Tick(Nothing));
    if s.torn {
      assert Ticks(s, [Nothing, Nothing, Nothing, Nothing]) == Ticks(a, [Nothing, Nothing, Nothing]) == Ticks(b, [Nothing, Nothing]);
      assert Ticks(b, [Nothing, Nothing]) == Ticks(c, [Nothing]) == Ticks(Step(c, Tick(Nothing)), []);
    } else {
      assert Ticks(s, [Nothing, Nothing, Nothing]) == Ticks(a, [Nothing, Nothing]) == Ticks(b, [Nothing]) == Ticks(c, []);
    }
  }
}
