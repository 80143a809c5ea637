/**
 What one call on the server's receive path does to the orderer, the receive window and the
 session. What the application's handler answers is a parameter.
 */
module ReceivePath {
  import opened Common
  import opened Sequences
  import opened ReceiveWindow

  // History: one run of a handler, and one acknowledgement sent. `position` counts sequences from
  // the start of the session without wrapping.
  datatype Call = Call(sequence: Sequence, payload: Payload, handled: bool)
  datatype Reply = Reply(sequence: Sequence, advertised: nat, position: int)

  datatype Intake = Intake(
    next: Sequence,                // nextRecvPacketSequence
    held: map<Sequence, Payload>,  // recvHoldingPackets
    windowStart: Sequence,
    flags: seq<bool>,              // receivedFlags in sequence order
    calls: seq<Call>,
    replies: seq<Reply>)

  // Whether the handler for a packet succeeds, given every handler run so far.
  type Handler = (seq<Call>, Payload) -> bool

  datatype OnRecvResult = PROCESSED | DUPLICATED_RECV | PACKET_HELD | ERROR_OCCURED

  // RUDPSession::ProcessPacket and the orderer's inner steps report success as a bool.
  datatype Outcome = Outcome(state: Intake, ok: bool)
  datatype Received = Received(state: Intake, result: OnRecvResult)

  function Mark(st: Intake, s: Sequence): (r: Intake)
    ensures r == st.(windowStart := r.windowStart, flags := r.flags)
  {
    if !Accepts(st.windowStart, |st.flags|, s) then st
    else
      var marked := st.flags[Distance(s, st.windowStart) := true];
      var n := LeadingRun(marked);
      st.(windowStart := Advance(st.windowStart, n), flags := Slide(marked, n))
  }

  function SendReply(st: Intake, s: Sequence): Intake {
    st.(replies := st.replies + [Reply(s, |st.flags| - Count(st.flags), |st.calls| + Distance(s, st.next))])
  }

  function ProcessPacket(st: Intake, s: Sequence, p: Payload, handler: Handler): (r: Outcome)
    ensures r.state.next == st.next && r.state.held == st.held && r.state.calls == st.calls + [Call(s, p, r.ok)]
  {
    var ok := handler(st.calls, p);
    var called := st.(calls := st.calls + [Call(s, p, ok)]);
    if ok then Outcome(SendReply(Mark(called, s), s), true) else Outcome(called, false)
  }

  function ProcessAndAdvance(st: Intake, s: Sequence, p: Payload, handler: Handler): (r: Outcome)
    ensures r.state.next == Next(st.next) && r.state.calls == st.calls + [Call(s, p, r.ok)]
    ensures r.state.held == if r.ok then st.held - {s} else st.held
  {
    var done := ProcessPacket(st.(next := Next(st.next)), s, p, handler);
    if done.ok then Outcome(done.state.(held := done.state.held - {s}), true) else done
  }

  lemma RemoveShrinks(m: map<Sequence, Payload>, k: Sequence)
    ensures |m - {k}| <= |m|
    ensures k in m ==> |m - {k}| < |m|
  {
    assert (m - {k}).Keys == m.Keys - {k};
    if k !in m {
      assert m - {k} == m;
    } else {
      assert m.Keys == (m - {k}).Keys + {k};
    }
  }

  function ProcessHoldingPacket(st: Intake, handler: Handler): Outcome
    decreases |st.held|
  {
    if st.next !in st.held then Outcome(st, true)
    else
      var taken := st.(held := st.held - {st.next});
      var step := ProcessAndAdvance(taken, st.next, st.held[st.next], handler);
      RemoveShrinks(st.held, st.next);
      RemoveShrinks(taken.held, st.next);
      if step.ok then ProcessHoldingPacket(step.state, handler) else step
  }

  // One turn of the drain.
  lemma DrainStep(st: Intake, handler: Handler)
    ensures st.next !in st.held ==> ProcessHoldingPacket(st, handler) == Outcome(st, true)
    ensures st.next in st.held ==>
              var taken := st.(held := st.held - {st.next});
              var step := ProcessAndAdvance(taken, st.next, st.held[st.next], handler);
              ProcessHoldingPacket(st, handler)
              == if step.ok then ProcessHoldingPacket(step.state, handler) else Outcome(step.state, false)
  {
  }

  function OnReceive(st: Intake, s: Sequence, p: Payload, capacity: nat, handler: Handler): Received {
    var diff := Distance(s, st.next);
    if diff < 0 then Received(st, DUPLICATED_RECV)
    else if diff == 0 then
      var first := ProcessAndAdvance(st, s, p, handler);
      if !first.ok then Received(first.state, ERROR_OCCURED)
      else
        var rest := ProcessHoldingPacket(first.state, handler);
        Received(rest.state, if rest.ok then PROCESSED else ERROR_OCCURED)
    else if s in st.held then Received(st, PACKET_HELD)
    else if |st.held| >= capacity then Received(st, ERROR_OCCURED)
    else Received(st.(held := st.held[s := p]), PACKET_HELD)
  }

  // RUDPSession::OnRecvPacket; the orderer's capacity is the window size.
  function OnRecvPacket(st: Intake, s: Sequence, p: Payload, handler: Handler): Outcome {
    if Distance(s, st.next) < 0 then Outcome(SendReply(st, s), true)
    else if !Accepts(st.windowStart, |st.flags|, s) then Outcome(st, true)
    else
      var r := OnReceive(st, s, p, |st.flags|, handler);
      match r.result
      case DUPLICATED_RECV => Outcome(SendReply(r.state, s), true)
      case PROCESSED => Outcome(r.state, true)
      case PACKET_HELD => Outcome(r.state, true)
      case ERROR_OCCURED => Outcome(r.state, false)
  }
}
