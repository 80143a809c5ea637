/**
 When the server's acknowledgements are true: a data reply for a sequence is sent only after its
 handler succeeded. The gate is RUDPPacketProcessor's CanProcessPacket check, which reads
 nowInReleaseThread; DoDisconnect first moves the state to RELEASING and only then, and only if it
 made that move itself, sets the flag.
 */
module AckSoundness {
  import opened Common
  import opened Sequences
  import opened ReceiveWindow
  import opened ReceivePath
  import opened ReceiveLockstep

  datatype Link = Link(
    intake: Intake,
    releasing: bool,  // the state machine is in RELEASING
    flagged: bool,    // nowInReleaseThread
    lateFailure: bool)  // history: a handler failed after some other thread had made the transition

  // One dispatched packet, at a position counted from the start sequence; or one half of a
  // DoDisconnect that another thread runs.
  datatype Event = Dispatch(position: nat, payload: Payload) | TransitionElsewhere | FlagElsewhere

  predicate Enabled(st: Link, event: Event) {
    match event
    case Dispatch(q, _) => -HALF <= q - |st.intake.calls| < HALF
    case TransitionElsewhere => !st.releasing
    case FlagElsewhere => st.releasing
  }

  function Apply(st: Link, event: Event, start: Sequence, handler: Handler): Link {
    match event
    case Dispatch(q, p) =>
      if st.flagged then st
      else
        var r := OnRecvPacket(st.intake, Advance(start, q), p, handler);
        if r.ok then st.(intake := r.state)
        else Link(r.state, true, !st.releasing, st.lateFailure || st.releasing)
    case TransitionElsewhere => st.(releasing := true)
    case FlagElsewhere => st.(flagged := true)
  }

  // Every reply answers the position its sequence stands for, one whose handler has run.
  ghost predicate Answers(st: Intake, start: Sequence) {
    && st.next == Advance(start, |st.calls|)
    && (forall r :: r in st.replies ==> 0 <= r.position < |st.calls| && r.sequence == Advance(start, r.position))
  }

  ghost predicate Sound(st: Intake) {
    forall r :: r in st.replies ==> 0 <= r.position < |st.calls| && st.calls[r.position].handled
  }

  // What handler runs and their replies keep.
  ghost predicate AnswersMore(st: Intake, after: Intake, start: Sequence) {
    Answers(after, start) && st.calls <= after.calls && (Sound(after) <==> Sound(st))
  }

  lemma NextBehind(s: Sequence)
    ensures Distance(s, Next(s)) == -1
  {
  }

  lemma ProcessAnswers(st: Intake, start: Sequence, p: Payload, handler: Handler)
    requires Answers(st, start)
    ensures AnswersMore(st, ProcessAndAdvance(st, st.next, p, handler).state, start)
  {
    hide Distance, Mark;
    var n := |st.calls|;
    var r := ProcessAndAdvance(st, st.next, p, handler);
    NextBehind(st.next);
    assert Advance(start, n + 1) == Next(Advance(start, n));
    if r.ok {
      var last := r.state.replies[|st.replies|];
      assert r.state.replies == st.replies + [last] && last.position == n && last.sequence == st.next;
      forall q | q in st.replies ensures q in r.state.replies {}
    }
  }

  lemma {:induction false} DrainAnswers(st: Intake, start: Sequence, handler: Handler)
    requires Answers(st, start)
    ensures AnswersMore(st, ProcessHoldingPacket(st, handler).state, start)
    decreases |st.held|
  {
    hide ProcessAndAdvance, Distance, Advance;
    if st.next in st.held {
      var taken := st.(held := st.held - {st.next});
      RemoveShrinks(st.held, st.next);
      RemoveShrinks(taken.held, st.next);
      ProcessAnswers(taken, start, st.held[st.next], handler);
      var step := ProcessAndAdvance(taken, st.next, st.held[st.next], handler);
      if step.ok { DrainAnswers(step.state, start, handler); }
    }
  }

  lemma NewAnswers(st: Intake, start: Sequence, s: Sequence, p: Payload, capacity: nat, handler: Handler)
    requires Answers(st, start)
    ensures AnswersMore(st, OnReceive(st, s, p, capacity, handler).state, start)
  {
    hide ProcessAndAdvance, ProcessHoldingPacket, Distance, Advance;
    DistanceZero(s, st.next);
    if s == st.next {
      ProcessAnswers(st, start, p, handler);
      var first := ProcessAndAdvance(st, s, p, handler);
      if first.ok { DrainAnswers(first.state, start, handler); }
    }
  }

  // An acknowledgement of a position whose handler ran and failed.
  predicate AcksFailure(st: Link, event: Event) {
    event.Dispatch? && !st.flagged && event.position < |st.intake.calls| && !st.intake.calls[event.position].handled
  }

  // One dispatch keeps the acknowledgements true exactly when it is not a packet whose handler
  // failed before, let in because the flag is not yet set.
  lemma DispatchExactly(st: Link, event: Event, start: Sequence, handler: Handler)
    requires Enabled(st, event) && Answers(st.intake, start)
    ensures var after := Apply(st, event, start, handler);
            && Answers(after.intake, start)
            && (Sound(after.intake) <==> Sound(st.intake) && !AcksFailure(st, event))
  {
    hide ProcessAndAdvance, ProcessHoldingPacket, OnReceive, Distance, Advance;
    if event.Dispatch? && !st.flagged {
      var q, n := event.position, |st.intake.calls|;
      var s := Advance(start, q);
      DistanceOfAdvance(start, q, n);
      if q < n {
        var after := SendReply(st.intake, s);
        assert after.replies[|st.intake.replies|].position == q;
        assert after.replies[|st.intake.replies|] in after.replies;
        forall r | r in st.intake.replies ensures r in after.replies {}
      } else if Accepts(st.intake.windowStart, |st.intake.flags|, s) {
        NewAnswers(st.intake, start, s, event.payload, |st.intake.flags|, handler);
        assert OnReceive(st.intake, s, event.payload, |st.intake.flags|, handler).result != DUPLICATED_RECV by {
          ResultOfNew(st.intake, s, event.payload, |st.intake.flags|, handler);
        }
      }
    }
  }

  lemma ResultOfNew(st: Intake, s: Sequence, p: Payload, capacity: nat, handler: Handler)
    requires Distance(s, st.next) >= 0
    ensures OnReceive(st, s, p, capacity, handler).result != DUPLICATED_RECV
  {
  }

  // --- Runs ---

  predicate Run(st: Link, events: seq<Event>, start: Sequence, handler: Handler)
    decreases |events|
  {
    events == [] || (Enabled(st, events[0]) && Run(Apply(st, events[0], start, handler), events[1..], start, handler))
  }

  function StateAfter(st: Link, events: seq<Event>, start: Sequence, handler: Handler): Link
    decreases |events|
  {
    if events == [] then st else StateAfter(Apply(st, events[0], start, handler), events[1..], start, handler)
  }

  predicate NeverAcksFailure(st: Link, events: seq<Event>, start: Sequence, handler: Handler)
    decreases |events|
  {
    events == [] || (!AcksFailure(st, events[0]) &&
          NeverAcksFailure(Apply(st, events[0], start, handler), events[1..], start, handler))
  }

  lemma {:induction false} RunExactly(st: Link, events: seq<Event>, start: Sequence, handler: Handler)
    requires Run(st, events, start, handler) && Answers(st.intake, start)
    ensures var end := StateAfter(st, events, start, handler);
            Answers(end.intake, start) && (Sound(end.intake) <==>
                  Sound(st.intake) && NeverAcksFailure(st, events, start, handler))
    decreases |events|
  {
    hide Answers, Sound, AcksFailure, Apply, Enabled;
    if events != [] {
      DispatchExactly(st, events[0], start, handler);
      RunExactly(Apply(st, events[0], start, handler), events[1..], start, handler);
    }
  }

  function Connected(start: Sequence, size: nat): Link {
    Link(Started(start, size), false, false, false)
  }

  // Every reply of a run answers a sequence whose handler succeeded, unless and only unless some
  // dispatch of the run let in a packet whose handler had failed.
  lemma AcksTrueExactly(start: Sequence, size: nat, events: seq<Event>, handler: Handler)
    requires Run(Connected(start, size), events, start, handler)
    ensures Sound(StateAfter(Connected(start, size), events, start, handler).intake) <==>
            NeverAcksFailure(Connected(start, size), events, start, handler)
  {
    RunExactly(Connected(start, size), events, start, handler);
  }

  // While no failure met a transition made elsewhere, a failure has closed the gate.
  ghost predicate GateClosed(st: Link, start: Sequence) {
    && Settled(st.intake, start) && FullyAdvertised(st.intake)
    && (!st.lateFailure && !AllHandled(st.intake.calls) ==> st.flagged)
  }

  lemma GateKeeps(st: Link, event: Event, start: Sequence, handler: Handler)
    requires GateClosed(st, start)
    ensures GateClosed(Apply(st, event, start, handler), start)
  {
    hide Settled, FullyAdvertised, OnRecvPacket, FirstFailure, Advance;
    if event.Dispatch? && !st.flagged {
      var s := Advance(start, event.position);
      ReceiveKeeps(st.intake, start, s, event.payload, handler);
      var r := OnRecvPacket(st.intake, s, event.payload, handler);
      if r.ok { OkKeepsHandled(st.intake, start, s, event.payload, handler); }
    }
  }

  lemma {:induction false} DrainHandles(st: Intake, handler: Handler)
    requires AllHandled(st.calls)
    ensures var r := ProcessHoldingPacket(st, handler); r.ok ==> AllHandled(r.state.calls)
    decreases |st.held|
  {
    hide ProcessAndAdvance, FirstFailure;
    if st.next in st.held {
      var taken := st.(held := st.held - {st.next});
      var step := ProcessAndAdvance(taken, st.next, st.held[st.next], handler);
      FirstFailureAppend(st.calls, Call(st.next, st.held[st.next], step.ok));
      RemoveShrinks(st.held, st.next);
      RemoveShrinks(taken.held, st.next);
      if step.ok { DrainHandles(step.state, handler); }
    }
  }

  lemma OkKeepsHandled(st: Intake, start: Sequence, s: Sequence, p: Payload, handler: Handler)
    ensures var r := OnRecvPacket(st, s, p, handler);
            r.ok && AllHandled(st.calls) ==> AllHandled(r.state.calls)
  {
    hide ProcessAndAdvance, ProcessHoldingPacket, FirstFailure;
    DistanceZero(s, st.next);
    if s == st.next && AllHandled(st.calls) {
      var first := ProcessAndAdvance(st, s, p, handler);
      FirstFailureAppend(st.calls, Call(s, p, first.ok));
      if first.ok { DrainHandles(first.state, handler); }
    }
  }

  lemma {:induction false} GateInRun(st: Link, events: seq<Event>, start: Sequence, handler: Handler)
    requires Run(st, events, start, handler) && GateClosed(st, start)
    ensures var end := StateAfter(st, events, start, handler);
            (st.lateFailure ==> end.lateFailure) && (!end.lateFailure ==> NeverAcksFailure(st, events, start, handler))
    decreases |events|
  {
    hide Settled, FullyAdvertised, OnRecvPacket;
    if events != [] {
      GateKeeps(st, events[0], start, handler);
      GateInRun(Apply(st, events[0], start, handler), events[1..], start, handler);
      if AcksFailure(st, events[0]) { assert !AllHandled(st.intake.calls); }
    }
  }

  // A caller can rule the failing family out: as long as no handler failure comes after another
  // thread's transition to RELEASING, every acknowledgement is true.
  lemma AcksTrueUnlessLate(start: Sequence, size: nat, events: seq<Event>, handler: Handler)
    requires size < 256 && Run(Connected(start, size), events, start, handler)
    ensures !StateAfter(Connected(start, size), events, start, handler).lateFailure ==>
              Sound(StateAfter(Connected(start, size), events, start, handler).intake)
  {
    StartedSettled(start, size);
    GateInRun(Connected(start, size), events, start, handler);
    AcksTrueExactly(start, size, events, handler);
  }

  function Never(calls: seq<Call>, p: Payload): bool { false }

  const LATE_FAILURE: seq<Event> := [TransitionElsewhere, Dispatch(0, []), Dispatch(0, [])]

  // A concrete run that acknowledges a packet whose handler failed.
  lemma LateFailureAcked()
    ensures Run(Connected(1, 8), LATE_FAILURE, 1, Never)
    ensures !Sound(StateAfter(Connected(1, 8), LATE_FAILURE, 1, Never).intake)
  {
    var first := Link(Started(1, 8), true, false, false);
    assert Apply(Connected(1, 8), TransitionElsewhere, 1, Never) == first;
    var second := Apply(first, Dispatch(0, []), 1, Never);
    assert Advance(1, 0) == 1;
    assert second.intake.calls == [Call(1, [], false)] && !second.flagged;
    var later, last := LATE_FAILURE[1..], LATE_FAILURE[1..][1..];
    assert later == [Dispatch(0, []), Dispatch(0, [])] && last == [Dispatch(0, [])] && last[1..] == [];
    assert AcksFailure(second, Dispatch(0, []));
    assert !NeverAcksFailure(second, last, 1, Never);
    assert !NeverAcksFailure(first, later, 1, Never);
    assert Run(second, last, 1, Never);
    assert Run(first, later, 1, Never);
    AcksTrueExactly(1, 8, LATE_FAILURE, Never);
  }
}
