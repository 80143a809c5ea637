/**
 How a packet of the client can get lost: the server acknowledges it although its handler failed.
 */
module ClientLoss {
  import opened Common
  import opened Sequences
  import opened ReceiveWindow
  import opened ReceivePath
  import ReceiveLockstep
  import opened ClientSend
  import opened ClientToServer
  import opened ClientToServerRuns
  import opened ClientStall

  // A sequence in no place of the client whose handler has not succeeded.
  ghost predicate Loses(st: State) {
    exists s :: 1 <= s <= |st.client.sent| && !Accounted(st, s)
  }

  // No datagram reaches the server, and no allocation fails.
  predicate Closing(step: Step) {
    !step.Deliver? && !step.LoseAllocation? && !step.FlushLoseAllocation?
  }

  ghost predicate CanLoseClosed(st: State, handler: Handler) {
    exists steps, end ::
      Run(st, steps, end, handler) && (forall i :: 0 <= i < |steps| ==> Closing(steps[i])) && Loses(end)
  }

  lemma {:induction false} ClosedKeeps(st: State, steps: seq<Step>, end: State, handler: Handler)
    requires Inv(st) && Run(st, steps, end, handler) && forall i :: 0 <= i < |steps| ==> Closing(steps[i])
    ensures Inv(end) && end.dropped == st.dropped && end.falseAck == st.falseAck
    decreases |steps|
  {
    hide Inv;
    if steps != [] {
      Keeps(st, steps[0], handler);
      ClosedStep(st, steps[0], handler);
      hide Enabled, Apply;
      ClosedKeeps(Apply(st, steps[0], handler), steps[1..], end, handler);
    }
  }

  lemma ClosedStep(st: State, step: Step, handler: Handler)
    requires Enabled(st, step) && Closing(step)
    ensures Apply(st, step, handler).dropped == st.dropped && Apply(st, step, handler).falseAck == st.falseAck
  {
    hide OnRecvPacket, Register, Outstanding, Least;
    match step
    case Assign(_) =>
    case ReadWindow(_) =>
    case CountOutstanding(_) =>
    case PushPending(_) =>
    case Insert(_) =>
    case Ack(_) =>
    case FlushPop =>
    case FlushInsert =>
    case FlushStop =>
    case Transmit(_) =>
    case GiveUp =>
    case Reply(_) =>
    case ServerTransition =>
    case ServerFlag =>
  }

  // --- From a false acknowledgement to the loss ---

  ghost predicate ClosedTo(st: State, end: State, handler: Handler) {
    exists steps :: Run(st, steps, end, handler) && forall i :: 0 <= i < |steps| ==> Closing(steps[i])
  }

  lemma ClosedNone(st: State, handler: Handler)
    ensures ClosedTo(st, st, handler)
  {
    assert Run(st, [], st, handler);
  }

  lemma ClosedThen(st: State, mid: State, step: Step, handler: Handler)
    requires ClosedTo(st, mid, handler) && Enabled(mid, step) && Closing(step)
    ensures ClosedTo(st, Apply(mid, step, handler), handler)
  {
    hide Enabled, Apply;
    var steps :| Run(st, steps, mid, handler) && forall i :: 0 <= i < |steps| ==> Closing(steps[i]);
    RunAppend(st, steps, mid, step, handler);
    var more := steps + [step];
    assert forall i :: 0 <= i < |more| ==> Closing(more[i]);
  }

  // The flush comes to its end; the server does not change.
  lemma {:induction false} FlushEnds(start: State, st: State, handler: Handler) returns (end: State)
    requires ClosedTo(start, st, handler) && Inv(st) && Unsent(st)
    ensures ClosedTo(start, end, handler) && Inv(end) && Unsent(end) && end.flush.Idle?
    ensures end.intake == st.intake && end.client.sent == st.client.sent
    decreases if st.flush.Idle? then 0 else 1, |st.client.pending|, if st.flush.Registering? then 1 else 0
  {
    hide ClosedTo, Inv, Unsent;
    if st.flush.Idle? { return st; }
    var step := FlushStep(st);
    ClosedThen(start, st, step, handler);
    Keeps(st, step, handler);
    UnsentKeeps(st, step, handler);
    var next := Apply(st, step, handler);
    FlushShrinks(st, handler);
    end := FlushEnds(start, next, handler);
  }

  // What the flush does next.
  ghost function FlushStep(st: State): (step: Step)
    requires !st.flush.Idle?
    ensures Enabled(st, step) && Closing(step)
  {
    if st.flush.Registering? then FlushInsert
    else if st.client.pending == map[] || Outstanding(st.client) >= st.flush.window then FlushStop
    else FlushPop
  }

  lemma FlushShrinks(st: State, handler: Handler)
    requires !st.flush.Idle?
    ensures var next := Apply(st, FlushStep(st), handler);
            && next.intake == st.intake && next.client.sent == st.client.sent
            && (next.flush.Idle? || |next.client.pending| < |st.client.pending|
                || (|next.client.pending| == |st.client.pending| && st.flush.Registering? && !next.flush.Registering?))
  {
    if st.flush.Registering? {
    } else if FlushStep(st).FlushPop? {
      hide IsLeast;
      HasKey(st.client.pending);
      var s := Least(st.client.pending.Keys);
      assert (st.client.pending - {s}).Keys == st.client.pending.Keys - {s};
    }
  }

  // The client takes the false acknowledgement.
  lemma TakesFalseAck(start: State, st: State, handler: Handler)
    requires ClosedTo(start, st, handler) && Inv(st) && Unsent(st) && st.flush.Idle? && !AcksTrue(st.intake)
    ensures CanLoseClosed(start, handler)
  {
    hide ClosedTo, Original, NothingLost, Gate;
    var r :| r in st.intake.replies && 1 <= r.sequence <= |st.intake.calls|
             && !st.intake.calls[r.sequence - 1].handled;
    var ack := Acknowledgement(r.sequence, r.advertised);
    ClosedThen(start, st, Step.Reply(r), handler);
    var replied := Apply(st, Step.Reply(r), handler);
    SameUnsent(st, replied);
    ClosedThen(start, replied, Ack(ack), handler);
    AckUnsent(replied, ack);
    var end := TakeAck(replied, ack);
    assert !Waiting(end, r.sequence) by { hide Serves; }
    assert !Accounted(end, r.sequence);
    LosesNow(start, end, handler);
  }

  lemma LosesNow(start: State, end: State, handler: Handler)
    requires ClosedTo(start, end, handler) && Loses(end)
    ensures CanLoseClosed(start, handler)
  {
  }

  // From a state in which the client has dropped nothing, a packet can get lost without anything more
  // reaching the server if and only if the server has acknowledged a packet whose handler failed.
  lemma LossExactly(size: nat, steps: seq<Step>, st: State, handler: Handler)
    requires Run(Initial(size), steps, st, handler) && !st.dropped
    ensures CanLoseClosed(st, handler) <==> st.falseAck
  {
    hide Run, Unsent, Initial;
    InitialInv(size);
    RunKeeps(Initial(size), steps, st, handler);
    if st.falseAck {
      InitialUnsent(size);
      RunUnsent(Initial(size), steps, st, handler);
      ClosedNone(st, handler);
      hide Inv;
      var end := FlushEnds(st, st, handler);
      assert !AcksTrue(end.intake) by { FalselyAcked(st); }
      TakesFalseAck(st, end, handler);
    } else if CanLoseClosed(st, handler) {
      var more, end :|
        Run(st, more, end, handler) && (forall i :: 0 <= i < |more| ==> Closing(more[i])) && Loses(end);
      ClosedKeeps(st, more, end, handler);
      NothingLostYet(end);
    }
  }

  lemma FalselyAcked(st: State)
    requires Inv(st) && st.falseAck
    ensures !AcksTrue(st.intake)
  {
  }

  lemma NothingLostYet(st: State)
    requires Inv(st) && !st.dropped && !st.falseAck
    ensures !Loses(st)
  {
  }

  // --- A concrete run ---

  function Never(calls: seq<Call>, p: Payload): bool { false }

  // The server, with a window of one packet, after the handler of sequence 1 has failed, and after a
  // repetition of that packet.
  const FAILED := Intake(2, map[], 1, [false], [Call(1, P, false)], [])
  const ANSWERED := FAILED.(replies := [ReceivePath.Reply(1, 1, 0)])

  lemma FailsThenAnswers()
    ensures OnRecvPacket(BEFORE, 1, P, Never) == Outcome(FAILED, false)
    ensures OnRecvPacket(FAILED, 1, P, Never) == Outcome(ANSWERED, true)
  {
    assert ProcessAndAdvance(BEFORE, 1, P, Never) == Outcome(FAILED, false);
    assert Count([false]) == 0;
  }

  lemma ReachesSent()
    ensures Reaches(Initial(1), First(map[1 := P], [], {Item(1, P)}), Never)
  {
    hide Reaches, OnRecvPacket;
    var start, one := Initial(1), Item(1, P);
    assert Falses(1) == [false];
    NoSteps(start, Never);
    ThenTo(start, start, Assign(P), First(map[], [Hand(one, Numbered)], {}), Never);
    ThenTo(start, First(map[], [Hand(one, Numbered)], {}), ReadWindow(0),
           First(map[], [Hand(one, Windowed(1))], {}), Never);
    ThenTo(start, First(map[], [Hand(one, Windowed(1))], {}), CountOutstanding(0),
           First(map[], [Hand(one, ToRegister)], {}), Never);
    ThenTo(start, First(map[], [Hand(one, ToRegister)], {}), Insert(0), First(map[1 := P], [], {one}), Never);
  }

  // Another thread has moved the session to RELEASING when the handler fails; the flag is not set yet
  // when the packet comes again.
  lemma LateFailureLosesPacket()
    ensures exists steps, end ::
              && Run(Initial(1), steps, end, Never) && !end.dropped && !end.flagged
              && |end.client.sent| == 1 && !Accounted(end, 1)
  {
    hide Reaches, OnRecvPacket;
    var start, one := Initial(1), Item(1, P);
    FailsLate();
    FailsThenAnswers();
    var b := First(map[1 := P], [], {one}).(intake := FAILED, releasing := true, lateFailure := true);
    var c := b.(intake := ANSWERED, falseAck := true);
    var d := c.(acks := {Acknowledgement(1, 1)});
    ThenTo(start, b, Deliver(one), c, Never);
    ThenTo(start, c, Step.Reply(ANSWERED.replies[0]), d, Never);
    Forgets(d);
  }

  lemma FailsLate()
    ensures Reaches(Initial(1), First(map[1 := P], [], {Item(1, P)}).(
                                  intake := FAILED, releasing := true, lateFailure := true), Never)
  {
    hide Reaches, OnRecvPacket;
    ReachesSent();
    FailsThenAnswers();
    var a := First(map[1 := P], [], {Item(1, P)});
    ThenTo(Initial(1), a, ServerTransition, a.(releasing := true), Never);
    ThenTo(Initial(1), a.(releasing := true), Deliver(Item(1, P)),
           a.(intake := FAILED, releasing := true, lateFailure := true), Never);
  }

  lemma Forgets(d: State)
    requires Reaches(Initial(1), d, Never)
    requires d == First(map[1 := P], [], {Item(1, P)}).(
                    intake := ANSWERED, releasing := true, lateFailure := true, falseAck := true,
                    acks := {Acknowledgement(1, 1)})
    ensures exists steps, end ::
              && Run(Initial(1), steps, end, Never) && !end.dropped && !end.flagged
              && |end.client.sent| == 1 && !Accounted(end, 1)
  {
    hide Reaches, OnRecvPacket;
    var end := d.(client := Client([P], map[], map[], 1), flush := Flushing(1));
    ThenTo(Initial(1), d, Ack(Acknowledgement(1, 1)), end, Never);
    NowhereLeft(end);
  }

  lemma NowhereLeft(end: State)
    requires Reaches(Initial(1), end, Never) && end.client == Client([P], map[], map[], 1) && end.intake == ANSWERED
    requires end.hands == [] && end.flush == Flushing(1)
    ensures !Accounted(end, 1) && exists steps :: Run(Initial(1), steps, end, Never)
  {
  }
}
