/**
  Presentation position over standby cycles. Within one open of the PCM the kernel keeps how many
  frames it was given and how many it has consumed; the driver reports the free space of its buffer.
 */
module AudioPosition {
  const KERNEL_BUFFER: nat := 960 * 4
  const FRAME_SIZE: nat := 4

  /** given and consumed belong to the present open; consumed may run past given when playback underruns. */
  datatype State = State(pcm: bool, standby: bool, written: nat, given: nat, consumed: nat)

  datatype Event =
    | Write(frames: nat, opens: bool, accepts: bool, plays: nat)  // plays frames are consumed while it blocks
    | Play(frames: nat)                                          // the kernel consumes
    | Standby
    | Query(stamped: bool)                                       // stamped: pcm_get_htimestamp succeeds

  function Init(): State { State(false, true, 0, 0, 0) }

  function Opened(s: State): State { if s.pcm then s else s.(pcm := true, standby := false, given := 0, consumed := 0) }

  /** A write that the kernel accepts leaves no more in its buffer than fits. */
  predicate Enabled(s: State, e: Event) {
    match e
    case Write(frames, opens, accepts, plays) =>
      (s.pcm || opens) && accepts ==> Opened(s).given + frames - (Opened(s).consumed + plays) <= KERNEL_BUFFER
    case _ => true
  }

  function Step(s: State, e: Event): State {
    match e
    case Write(frames, opens, accepts, plays) =>
      if !s.pcm && !opens then s
      else
        var o := Opened(s);
        if accepts then o.(written := s.written + frames, given := o.given + frames, consumed := o.consumed + plays)
        else o.(pcm := false, standby := true)
    case Play(frames) => if s.pcm then s.(consumed := s.consumed + frames) else s
    case Standby => s.(pcm := false, standby := true)
    case Query(_) => s
  }

  /** snd_pcm_avail: may exceed the buffer after an underrun. */
  function Avail(s: State): int { KERNEL_BUFFER - (s.given - s.consumed) }

  /** What out_get_presentation_position answers, or -1 when it has no answer. */
  function Reported(s: State, stamped: bool): int {
    if s.pcm && stamped then
      var queued := if Avail(s) < KERNEL_BUFFER then KERNEL_BUFFER - Avail(s) else 0;
      if s.written > queued then s.written - queued else 0
    else if s.standby then s.written
    else -1
  }

  /** The frames that have left the device: those written, less those still in the kernel's buffer. */
  function Presented(s: State): int { s.written - if s.pcm && s.given > s.consumed then s.given - s.consumed else 0 }

  predicate Inv(s: State) {
    && (s.standby <==> !s.pcm) && (s.pcm ==> s.given <= s.written && s.given - s.consumed <= KERNEL_BUFFER)
  }

  predicate Next(s: State, e: Event, t: State) { Enabled(s, e) && t == Step(s, e) }

  predicate IsRun(tr: seq<State>, es: seq<Event>) {
    |tr| == |es| + 1 && tr[0] == Init() && forall k :: 0 <= k < |es| ==> Next(tr[k], es[k], tr[k + 1])
  }

  /** Every step keeps the invariant and never moves the presented count back. */
  lemma StepKeeps(s: State, e: Event)
    requires Inv(s) && Enabled(s, e)
    ensures Inv(Step(s, e)) && Presented(s) <= Presented(Step(s, e)) && s.written <= Step(s, e).written
  {
  }

  lemma {:induction false} RunKeeps(tr: seq<State>, es: seq<Event>, i: nat, j: nat)
    requires IsRun(tr, es) && i <= j < |tr|
    ensures Inv(tr[i]) && Inv(tr[j]) && Presented(tr[i]) <= Presented(tr[j])
    decreases j
  {
    if j > 0 {
      var before := j - 1;
      RunKeeps(tr, es, if i < j then i else before, before);
      assert Next(tr[before], es[before], tr[j]);
      StepKeeps(tr[before], es[before]);
    }
  }

  /** The clamped arithmetic of the answer computes the presented count. */
  lemma ReportIsPresented(s: State, stamped: bool)
    requires Inv(s)
    ensures Reported(s, stamped) == if s.pcm && !stamped then -1 else Presented(s)
    ensures 0 <= Presented(s) <= s.written
  {
  }

  // ---- the same, from the calls alone ----------------------------------------

  /** Whether the PCM is open after the first k calls: an accepted write leaves it open, a failed one or a standby closes it. */
  predicate OpenAfter(es: seq<Event>, k: nat)
    requires k <= |es|
  {
    k > 0 &&
    match es[k - 1]
    case Write(_, opens, accepts, _) => (OpenAfter(es, k - 1) || opens) && accepts
    case Standby => false
    case _ => OpenAfter(es, k - 1)
  }

  /** Call k is a write whose frames the kernel takes. */
  predicate Accepted(es: seq<Event>, k: nat)
    requires k < |es|
  {
    es[k].Write? && es[k].accepts && (OpenAfter(es, k) || es[k].opens)
  }

  /** The frames of all accepted writes among the first k calls. */
  function FramesAccepted(es: seq<Event>, k: nat): nat
    requires k <= |es|
  {
    if k == 0 then 0 else FramesAccepted(es, k - 1) + if Accepted(es, k - 1) then es[k - 1].frames else 0
  }

  /** The call with which the present open began: everything from there on was accepted or let pass. */
  function OpenSince(es: seq<Event>, k: nat): nat
    requires k <= |es|
  {
    if k == 0 || !OpenAfter(es, k) then k else if OpenAfter(es, k - 1) then OpenSince(es, k - 1) else k - 1
  }

  /** The frames the kernel has consumed in calls from to k: while a write blocks, and on its own while the PCM is open. */
  function FramesPlayed(es: seq<Event>, from: nat, k: nat): nat
    requires from <= k <= |es|
  {
    if k == from then 0 else
    FramesPlayed(es, from, k - 1) +
    match es[k - 1]
    case Write(_, _, _, plays) => if Accepted(es, k - 1) then plays else 0
    case Play(frames) => frames
    case _ => 0
  }

  lemma OpenSinceBound(es: seq<Event>, k: nat)
    requires k <= |es|
    ensures OpenSince(es, k) <= k
  {
  }

  /** The stream's counters are what the calls alone say. */
  lemma {:induction false} CountersExact(tr: seq<State>, es: seq<Event>, k: nat)
    requires IsRun(tr, es) && k < |tr|
    ensures tr[k].pcm == OpenAfter(es, k) && tr[k].written == FramesAccepted(es, k) && OpenSince(es, k) <= k
    ensures tr[k].pcm ==> tr[k].given == FramesAccepted(es, k) - FramesAccepted(es, OpenSince(es, k))
                          && tr[k].consumed == FramesPlayed(es, OpenSince(es, k), k)
  {
    OpenSinceBound(es, k);
    if k > 0 {
      CountersExact(tr, es, k - 1);
      assert Next(tr[k - 1], es[k - 1], tr[k]);
      if OpenAfter(es, k) && !OpenAfter(es, k - 1) {
        assert OpenSince(es, k) == k - 1 && FramesPlayed(es, k - 1, k - 1) == 0;
      }
    }
  }

  /**
    The exact answer, in terms of the calls: the frames of all accepted writes, less those of the
    present open that the kernel has not consumed yet; while the PCM is closed, all of them.
   */
  lemma AnswerExact(tr: seq<State>, es: seq<Event>, k: nat, stamped: bool)
    requires IsRun(tr, es) && k < |tr| && (OpenAfter(es, k) ==> stamped)
    ensures OpenSince(es, k) <= k
    ensures var since := OpenSince(es, k);
            var inBuffer := FramesAccepted(es, k) - FramesAccepted(es, since) - FramesPlayed(es, since, k);
            Reported(tr[k], stamped) == FramesAccepted(es, k) - if OpenAfter(es, k) && inBuffer > 0 then inBuffer else 0
  {
    CountersExact(tr, es, k);
    RunKeeps(tr, es, k, k);
    ReportIsPresented(tr[k], stamped);
  }

  /** Over any run of writes, failures, standbys and reopens, no answer exceeds the frames accepted or falls behind an earlier one. */
  lemma PositionNeverGoesBack(tr: seq<State>, es: seq<Event>, i: nat, j: nat)
    requires IsRun(tr, es) && i <= j < |es| && es[i].Query? && es[j].Query?
    requires Reported(tr[i], es[i].stamped) != -1 && Reported(tr[j], es[j].stamped) != -1
    ensures 0 <= Reported(tr[i], es[i].stamped) <= Reported(tr[j], es[j].stamped) <= FramesAccepted(es, j)
  {
    RunKeeps(tr, es, i, j);
    CountersExact(tr, es, j);
    ReportIsPresented(tr[i], es[i].stamped);
    ReportIsPresented(tr[j], es[j].stamped);
  }

  /** The stream as written, beside the kernel's two counters. */
  class OutStream {
    var pcm: bool
    var standby: bool
    var framesWritten: nat
    var given: nat
    var consumed: nat

    ghost function Abs(): State reads this { State(pcm, standby, framesWritten, given, consumed) }

    constructor ()
      ensures Abs() == Init()
    {
      pcm, standby, framesWritten, given, consumed := false, true, 0, 0, 0;
    }

    method ClosePcm()
      modifies this
      ensures Abs() == old(Abs()).(pcm := false, standby := true)
    {
      pcm := false;
      standby := true;
    }

    /** bytes is always consumed from the caller's point of view; opens, accepts and plays are the kernel's part. */
    method Write(bytes: nat, opens: bool, accepts: bool, plays: nat) returns (result: nat)
      modifies this
      ensures result == bytes && Abs() == Step(old(Abs()), Event.Write(bytes / FRAME_SIZE, opens, accepts, plays))
      ensures framesWritten == old(framesWritten) + if (old(pcm) || opens) && accepts then bytes / 4 else 0
      ensures pcm <==> (old(pcm) || opens) && accepts
    {
      result := bytes;
      if !pcm {
        if !opens {
          return;
        }
        pcm, standby, given, consumed := true, false, 0, 0;
      }
      if !accepts {
        ClosePcm();
        return;
      }
      given, consumed := given + bytes / FRAME_SIZE, consumed + plays;
      framesWritten := framesWritten + bytes / FRAME_SIZE;
    }

    method StandBy()
      modifies this
      ensures old(Inv(Abs())) ==> Abs() == Step(old(Abs()), Standby)
    {
      if !standby {
        ClosePcm();
      }
    }

    method GetPresentationPosition(stamped: bool) returns (ok: bool, frames: nat)
      requires Inv(Abs())
      ensures ok <==> Reported(Abs(), stamped) != -1
      ensures ok ==> frames == Reported(Abs(), stamped)
    {
      ok, frames := false, 0;
      if pcm && stamped {
        var avail := KERNEL_BUFFER - (given - consumed);
        var queued := if avail < KERNEL_BUFFER then KERNEL_BUFFER - avail else 0;
        ok, frames := true, if framesWritten > queued then framesWritten - queued else 0;
      } else if standby {
        ok, frames := true, framesWritten;
      }
    }
  }
}
