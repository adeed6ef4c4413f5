/**
  The HDMI daemon's main loop: it receives switch events, drains the rest of a burst, re-reads the
  attribute and runs hdmi_up or hdmi_down. The kernel changes the attribute and announces the change
  in two steps, at any time, including while a helper runs.
 */
module HdmiLoop {
  type Text = seq<char>
  const NUL: char := '\0'

  // ---- uevent records --------------------------------------------------------

  /** A record starts at i: at the front of the buffer or behind a terminator. */
  predicate StartsAt(buf: Text, i: nat) { i == 0 || (i <= |buf| && buf[i - 1] == NUL) }

  predicate RecordAt(buf: Text, i: nat, text: Text) {
    StartsAt(buf, i) && i + |text| < |buf| && buf[i..i + |text|] == text && buf[i + |text|] == NUL
  }

  predicate HasRecord(buf: Text, text: Text) { exists i: nat :: i < |buf| && RecordAt(buf, i, text) }

  /** strnlen: the distance to the next terminator, or to the end. */
  method StringLength(buf: Text, i: nat) returns (n: nat)
    requires i <= |buf|
    ensures i + n <= |buf| && (i + n < |buf| ==> buf[i + n] == NUL) && forall k :: i <= k < i + n ==> buf[k] != NUL
  {
    n := 0;
    while i + n < |buf| && buf[i + n] != NUL
      invariant i + n <= |buf| && forall k :: i <= k < i + n ==> buf[k] != NUL
    {
      n := n + 1;
    }
  }

  lemma TextInside(buf: Text, i: nat, text: Text)
    requires i + |text| <= |buf| && buf[i..i + |text|] == text
    ensures forall k :: i <= k < i + |text| ==> buf[k] == text[k - i]
  {
    assert forall k :: i <= k < i + |text| ==> buf[k] == buf[i..i + |text|][k - i];
  }

  /** The walk of is_hdmi_switch_event and has_state_zero: every record of a terminated message is compared. */
  method FindRecord(buf: Text, text: Text) returns (found: bool)
    requires (buf != [] ==> buf[|buf| - 1] == NUL) && forall k :: 0 <= k < |text| ==> text[k] != NUL
    ensures found <==> HasRecord(buf, text)
  {
    var i := 0;
    while i < |buf|
      invariant StartsAt(buf, i)
      invariant forall j: nat :: j < i && j < |buf| ==> !RecordAt(buf, j, text)
    {
      var n := StringLength(buf, i);
      if n == |text| && buf[i..i + n] == text {
        assert RecordAt(buf, i, text);
        return true;
      }
      if RecordAt(buf, i, text) {
        TextInside(buf, i, text);
      }
      i := i + n + 1;
    }
    return false;
  }

  // ---- the loop as a state machine -------------------------------------------

  /** A received uevent: whether it names the hdmi switch, and whether it carries state 0. */
  datatype Uevent = Uevent(hdmi: bool, zero: bool)

  function Parsed(buf: Text): Uevent { Uevent(HasRecord(buf, "SWITCH_NAME=hdmi"), HasRecord(buf, "SWITCH_STATE=0")) }

  datatype Action = Nothing | Up | Down
  datatype Pc = Boot | Idle | Draining(bounced: bool) | Running(action: Action)

  /**
    attr is the switch attribute and unannounced whether its last change still has to be queued;
    lastAction is the last helper begun, and rebuilt whether an hdmi_up has begun since the last
    plug-out event was received.
   */
  datatype State = State(pc: Pc, last: int, attr: int, unannounced: bool, queue: seq<Uevent>, lastAction: Action, rebuilt: bool)

  datatype Event =
    | Change(value: int)      // kernel: the attribute
    | Announce                // kernel: the switch event for it
    | Noise(event: Uevent)    // kernel: an event of another device
    | BootRead                // daemon: the state at start
    | Receive                 // daemon: one event, while idle or while draining
    | Settle                  // daemon: the burst is over; read the attribute and decide
    | Finish                  // daemon: the helper has ended

  /** What a decided burst leads to. */
  function Decide(last: int, state: int, bounced: bool): Action {
    if state == 1 && (last != 1 || bounced) then Up else if state == 0 && last != 0 then Down else Nothing
  }

  function Begin(s: State, a: Action): State {
    if a.Nothing? then s.(pc := Idle) else s.(pc := Running(a), lastAction := a, rebuilt := a.Up?)
  }

  predicate Enabled(s: State, e: Event) {
    match e
    case Change(value) => !s.unannounced && (value == 0 || value == 1)
    case Announce => s.unannounced
    case Noise(event) => !event.hdmi
    case BootRead => s.pc.Boot?
    case Receive => (s.pc.Idle? || s.pc.Draining?) && s.queue != []
    case Settle => s.pc.Draining?
    case Finish => s.pc.Running?
  }

  function Step(s: State, e: Event): State
    requires Enabled(s, e)
  {
    match e
    case Change(value) => if value == s.attr then s else s.(attr := value, unannounced := true)
    case Announce => s.(unannounced := false, queue := s.queue + [Uevent(true, s.attr == 0)])
    case Noise(event) => s.(queue := s.queue + [event])
    case BootRead => Begin(s.(last := s.attr), if s.attr == 1 then Up else Nothing)
    case Receive =>
      var u := s.queue[0];
      var t := s.(queue := s.queue[1..], rebuilt := s.rebuilt && !(u.hdmi && u.zero));
      if s.pc.Draining? then t.(pc := Draining(s.pc.bounced || (u.hdmi && u.zero)))
      else if u.hdmi then t.(pc := Draining(u.zero))
      else t
    case Settle => Begin(s.(last := s.attr), Decide(s.last, s.attr, s.pc.bounced))
    case Finish => s.(pc := Idle)
  }

  predicate Next(s: State, e: Event, t: State) { Enabled(s, e) && t == Step(s, e) }

  predicate Initial(s: State) {
    s.pc.Boot? && !s.unannounced && s.queue == [] && s.lastAction.Nothing? && !s.rebuilt && (s.attr == 0 || s.attr == 1)
  }

  predicate IsRun(tr: seq<State>, es: seq<Event>) {
    |tr| == |es| + 1 && Initial(tr[0]) && forall k :: 0 <= k < |es| ==> Next(tr[k], es[k], tr[k + 1])
  }

  predicate SwitchQueued(queue: seq<Uevent>) { exists i :: 0 <= i < |queue| && queue[i].hdmi }

  predicate Inv(s: State) {
    && (s.attr == 0 || s.attr == 1)
    && (s.pc.Boot? ==> s.lastAction.Nothing? && !s.rebuilt)
    && (!s.pc.Boot? ==>
          && (s.last == 0 || s.last == 1)
          && (s.last == 1 ==> s.lastAction.Up? && (s.rebuilt <==> !(s.pc.Draining? && s.pc.bounced)))
          && (s.last == 0 ==> !s.lastAction.Up? && !s.rebuilt)
          && (s.attr != s.last ==> s.unannounced || SwitchQueued(s.queue) || s.pc.Draining?))
  }

  lemma QueueGrows(queue: seq<Uevent>, u: Uevent)
    ensures SwitchQueued(queue) || u.hdmi ==> SwitchQueued(queue + [u])
  {
    if SwitchQueued(queue) {
      var i :| 0 <= i < |queue| && queue[i].hdmi;
      assert (queue + [u])[i].hdmi;
    } else if u.hdmi {
      assert (queue + [u])[|queue|].hdmi;
    }
  }

  lemma QueueShrinks(queue: seq<Uevent>)
    requires queue != [] && SwitchQueued(queue) && !queue[0].hdmi
    ensures SwitchQueued(queue[1..])
  {
    var i :| 0 <= i < |queue| && queue[i].hdmi;
    assert queue[1..][i - 1].hdmi;
  }

  lemma StepKeeps(s: State, e: Event)
    requires Inv(s) && Enabled(s, e)
    ensures Inv(Step(s, e))
  {
    match e
    case Announce => QueueGrows(s.queue, Uevent(true, s.attr == 0));
    case Noise(event) => QueueGrows(s.queue, event);
    case Receive =>
      if SwitchQueued(s.queue) && !s.queue[0].hdmi {
        QueueShrinks(s.queue);
      }
    case _ =>
  }

  lemma {:induction false} RunInv(tr: seq<State>, es: seq<Event>, k: nat)
    requires IsRun(tr, es) && k < |tr|
    ensures Inv(tr[k])
  {
    if k > 0 {
      RunInv(tr, es, k - 1);
      assert Next(tr[k - 1], es[k - 1], tr[k]);
      StepKeeps(tr[k - 1], es[k - 1]);
    }
  }

  /** The attribute after k steps: the value last changed to. */
  function AttrAfter(es: seq<Event>, first: int, k: nat): int
    requires k <= |es|
  {
    if k == 0 then first else if es[k - 1].Change? then es[k - 1].value else AttrAfter(es, first, k - 1)
  }

  /** The events sent to the daemon in k steps, each switch event with the attribute of its moment. */
  function SentBy(es: seq<Event>, first: int, k: nat): seq<Uevent>
    requires k <= |es|
  {
    if k == 0 then [] else
    var sent := SentBy(es, first, k - 1);
    match es[k - 1]
    case Announce => sent + [Uevent(true, AttrAfter(es, first, k - 1) == 0)]
    case Noise(event) => sent + [event]
    case _ => sent
  }

  function ReceivedBy(es: seq<Event>, k: nat): nat
    requires k <= |es|
  {
    if k == 0 then 0 else ReceivedBy(es, k - 1) + if es[k - 1].Receive? then 1 else 0
  }

  /** Every event is received once, in the order sent, and the attribute is the value last changed to. */
  lemma {:induction false} EveryEventOnce(tr: seq<State>, es: seq<Event>, k: nat)
    requires IsRun(tr, es) && k < |tr|
    ensures tr[k].attr == AttrAfter(es, tr[0].attr, k)
    ensures ReceivedBy(es, k) <= |SentBy(es, tr[0].attr, k)| && tr[k].queue == SentBy(es, tr[0].attr, k)[ReceivedBy(es, k)..]
  {
    if k > 0 {
      EveryEventOnce(tr, es, k - 1);
      assert Next(tr[k - 1], es[k - 1], tr[k]);
    }
  }

  /**
    Whenever the daemon is idle, the kernel has announced its last change and no switch event waits:
    attribute 1 means an hdmi_up began after the last plug-out event was received, and attribute 0
    means the last helper begun, if any, was not hdmi_up. The burst may end at any point.
   */
  lemma SettledRight(tr: seq<State>, es: seq<Event>, k: nat)
    requires IsRun(tr, es) && k < |tr| && tr[k].pc.Idle? && !tr[k].unannounced && !SwitchQueued(tr[k].queue)
    ensures tr[k].attr == tr[k].last
    ensures tr[k].attr == 1 ==> tr[k].rebuilt
    ensures tr[k].attr == 0 ==> !tr[k].lastAction.Up?
  {
    RunInv(tr, es, k);
  }

  /**
    A helper never runs without cause: hdmi_up begins only with the attribute at 1 and none begun since
    the last plug-out was received, and hdmi_down only with the attribute at 0 and an hdmi_up before it.
   */
  lemma HelperHasCause(tr: seq<State>, es: seq<Event>, k: nat)
    requires IsRun(tr, es) && k < |es| && !tr[k].pc.Running? && tr[k + 1].pc.Running?
    ensures tr[k + 1].pc.action.Up? ==> tr[k].attr == 1 && !tr[k].rebuilt
    ensures tr[k + 1].pc.action.Down? ==> tr[k].attr == 0 && tr[k].lastAction.Up?
    ensures !tr[k + 1].pc.action.Nothing?
  {
    RunInv(tr, es, k);
    assert Next(tr[k], es[k], tr[k + 1]);
  }

  /** What rebuilt stands for: an hdmi_up began at some step, and no plug-out event was received after that step. */
  ghost predicate UpSince(tr: seq<State>, es: seq<Event>, k: nat)
    requires |tr| == |es| + 1 && k < |tr|
  {
    exists i :: 0 <= i < k && BeginsUp(tr, i) && NoPlugOut(tr, es, i, k)
  }

  ghost predicate NoPlugOut(tr: seq<State>, es: seq<Event>, i: nat, k: nat)
    requires |tr| == |es| + 1 && k < |tr|
  {
    forall j :: i < j < k ==> !PlugOutReceived(tr[j], es[j])
  }

  predicate BeginsUp(tr: seq<State>, i: nat)
    requires i + 1 < |tr|
  {
    !tr[i].pc.Running? && tr[i + 1].pc == Running(Up)
  }

  predicate PlugOutReceived(s: State, e: Event) { e.Receive? && s.queue != [] && s.queue[0].hdmi && s.queue[0].zero }

  lemma {:induction false} RebuiltMeans(tr: seq<State>, es: seq<Event>, k: nat)
    requires IsRun(tr, es) && k < |tr| && tr[k].rebuilt
    ensures UpSince(tr, es, k)
  {
    hide Next;
    if k > 0 {
      assert Next(tr[k - 1], es[k - 1], tr[k]);
      if BeginsUp(tr, k - 1) {
        assert NoPlugOut(tr, es, k - 1, k);
      } else {
        RebuiltBefore(tr[k - 1], es[k - 1], tr[k]);
        RebuiltMeans(tr, es, k - 1);
        var i :| 0 <= i < k - 1 && BeginsUp(tr, i) && NoPlugOut(tr, es, i, k - 1);
        assert NoPlugOut(tr, es, i, k);
      }
    }
  }

  /** And the flag is set whenever that is so. */
  lemma {:induction false} MeansRebuilt(tr: seq<State>, es: seq<Event>, k: nat, i: nat)
    requires IsRun(tr, es) && i < k < |tr| && BeginsUp(tr, i) && NoPlugOut(tr, es, i, k)
    requires forall j :: i < j <= k ==> tr[j].lastAction.Up?
    ensures tr[k].rebuilt
    decreases k
  {
    hide Next;
    assert Next(tr[k - 1], es[k - 1], tr[k]);
    if k - 1 == i {
      BeganUp(tr[i], es[i], tr[k]);
    } else {
      assert NoPlugOut(tr, es, i, k - 1);
      MeansRebuilt(tr, es, k - 1, i);
      StaysRebuilt(tr[k - 1], es[k - 1], tr[k]);
    }
  }

  lemma BeganUp(s: State, e: Event, t: State)
    requires Next(s, e, t) && !s.pc.Running? && t.pc == Running(Up)
    ensures t.rebuilt && t.lastAction.Up?
  {
  }

  lemma StaysRebuilt(s: State, e: Event, t: State)
    requires Next(s, e, t) && s.rebuilt && !PlugOutReceived(s, e) && t.lastAction.Up?
    ensures t.rebuilt
  {
  }

  lemma RebuiltBefore(s: State, e: Event, t: State)
    requires Next(s, e, t) && t.rebuilt && (s.pc.Running? || t.pc != Running(Up))
    ensures s.rebuilt && !PlugOutReceived(s, e)
  {
  }

  /** The loop body with its own variables: what one received message and the burst behind it lead to. */
  class Daemon {
    var lastState: int

    constructor (state: int)
      ensures lastState == state
    {
      lastState := state;
    }

    /** messages is the burst, first the one that woke the loop; state is the attribute read after it, negative if unreadable. */
    method HandleBurst(messages: seq<Text>, state: int) returns (action: Action)
      requires messages != [] && forall i :: 0 <= i < |messages| ==> messages[i] != [] && messages[i][|messages[i]| - 1] == NUL
      modifies this
      ensures !Parsed(messages[0]).hdmi || state < 0 ==> action == Nothing && lastState == old(lastState)
      ensures Parsed(messages[0]).hdmi && state >= 0 ==>
                lastState == state && action == Decide(old(lastState), state, Bounced(messages))
    {
      action := Nothing;
      var ours := FindRecord(messages[0], "SWITCH_NAME=hdmi");
      if !ours {
        return;
      }
      var bounced := FindRecord(messages[0], "SWITCH_STATE=0");
      BouncedNext(messages, 0);
      for i := 1 to |messages|
        invariant lastState == old(lastState) && (bounced <==> Bounced(messages[..i]))
      {
        BouncedNext(messages, i);
        var hdmi := FindRecord(messages[i], "SWITCH_NAME=hdmi");
        var zero := FindRecord(messages[i], "SWITCH_STATE=0");
        if hdmi && zero {
          bounced := true;
        }
      }
      assert messages[..|messages|] == messages;
      if state < 0 {
        return;
      }
      if state == lastState {
        if state == 1 && bounced {
          action := Up;
        }
        return;
      }
      lastState := state;
      action := if state == 1 then Up else if state == 0 then Down else Nothing;
    }
  }

  /** Some message of the burst is a plug-out of the hdmi switch. */
  predicate Bounced(messages: seq<Text>) { exists i :: 0 <= i < |messages| && Parsed(messages[i]) == Uevent(true, true) }

  lemma BouncedNext(messages: seq<Text>, i: nat)
    requires i < |messages|
    ensures Bounced(messages[..i + 1]) <==> Bounced(messages[..i]) || Parsed(messages[i]) == Uevent(true, true)
  {
    if Bounced(messages[..i + 1]) {
      var k :| 0 <= k < i + 1 && Parsed(messages[..i + 1][k]) == Uevent(true, true);
      if k < i {
        assert Parsed(messages[..i][k]) == Uevent(true, true);
      }
    }
    if Bounced(messages[..i]) {
      var k :| 0 <= k < i && Parsed(messages[..i][k]) == Uevent(true, true);
      assert Parsed(messages[..i + 1][k]) == Uevent(true, true);
    }
    if Parsed(messages[i]) == Uevent(true, true) {
      assert Parsed(messages[..i + 1][i]) == Uevent(true, true);
    }
  }
}
