/** SessionPacketOrderer and the receiving half of RUDPSession, as objects updated in place. */
module SessionReceive {
  import opened Common
  import opened Sequences
  import opened ReceiveWindow
  import opened ReceivePath

  class SessionPacketOrderer {
    var nextRecvPacketSequence: Sequence
    var recvHoldingPackets: map<Sequence, Payload>
    var maxHoldingQueueSize: nat

    constructor (inMaxHoldingQueueSize: nat)
      ensures nextRecvPacketSequence == 0 && recvHoldingPackets == map[] && maxHoldingQueueSize == inMaxHoldingQueueSize
    {
      nextRecvPacketSequence := 0;
      recvHoldingPackets := map[];
      maxHoldingQueueSize := inMaxHoldingQueueSize;
    }

    method Reset(startSequence: Sequence)
      modifies this
      ensures nextRecvPacketSequence == startSequence && recvHoldingPackets == map[]
      ensures maxHoldingQueueSize == old(maxHoldingQueueSize)
    {
      nextRecvPacketSequence := startSequence;
      recvHoldingPackets := map[];
    }

    // `session` is what the callback has captured.
    method OnReceive(sequence: Sequence, buffer: Payload, session: RUDPSession) returns (result: OnRecvResult)
      requires session.Valid() && session.sessionPacketOrderer == this
      modifies this, session, session.receiveWindow, session.receiveWindow.receivedFlags
      ensures session.Valid()
      ensures maxHoldingQueueSize == old(maxHoldingQueueSize)
      ensures var r :=
                ReceivePath.OnReceive(old(session.View()), sequence, buffer, maxHoldingQueueSize, session.handler);
              session.View() == r.state && result == r.result
    {
      var expected := nextRecvPacketSequence;
      var sequenceDiff := Distance(sequence, expected);
      if sequenceDiff < 0 {
        return DUPLICATED_RECV;
      }
      if sequenceDiff == 0 {
        var ok := ProcessAndAdvance(buffer, sequence, session);
        if !ok { return ERROR_OCCURED; }
        ok := ProcessHoldingPacket(session);
        if !ok { return ERROR_OCCURED; }
        return PROCESSED;
      }
      if sequence !in recvHoldingPackets {
        if |recvHoldingPackets| >= maxHoldingQueueSize {
          return ERROR_OCCURED;
        }
        recvHoldingPackets := recvHoldingPackets[sequence := buffer];
      }
      return PACKET_HELD;
    }

    method ProcessAndAdvance(buffer: Payload, sequence: Sequence, session: RUDPSession) returns (ok: bool)
      requires session.Valid() && session.sessionPacketOrderer == this
      modifies this, session, session.receiveWindow, session.receiveWindow.receivedFlags
      ensures session.Valid()
      ensures maxHoldingQueueSize == old(maxHoldingQueueSize)
      ensures var r := ReceivePath.ProcessAndAdvance(old(session.View()), sequence, buffer, session.handler);
              session.View() == r.state && ok == r.ok
    {
      nextRecvPacketSequence := Next(nextRecvPacketSequence);
      ok := session.ProcessPacket(buffer, sequence);
      if !ok { return; }
      recvHoldingPackets := recvHoldingPackets - {sequence};
    }

    method ProcessHoldingPacket(session: RUDPSession) returns (ok: bool)
      requires session.Valid() && session.sessionPacketOrderer == this
      modifies this, session, session.receiveWindow, session.receiveWindow.receivedFlags
      ensures session.Valid()
      ensures maxHoldingQueueSize == old(maxHoldingQueueSize)
      ensures var r := ReceivePath.ProcessHoldingPacket(old(session.View()), session.handler);
              session.View() == r.state && ok == r.ok
    {
      while true
        invariant session.Valid()
        invariant maxHoldingQueueSize == old(maxHoldingQueueSize)
        invariant ReceivePath.ProcessHoldingPacket(session.View(), session.handler)
               == ReceivePath.ProcessHoldingPacket(old(session.View()), session.handler)
        decreases |recvHoldingPackets|
      {
        hide ReceivePath.ProcessAndAdvance, ReceivePath.ProcessHoldingPacket;
        var expected := nextRecvPacketSequence;
        DrainStep(session.View(), session.handler);
        if expected !in recvHoldingPackets { break; }
        var storedBuffer := recvHoldingPackets[expected];
        RemoveShrinks(recvHoldingPackets, expected);
        recvHoldingPackets := recvHoldingPackets - {expected};
        RemoveShrinks(recvHoldingPackets, expected);
        ok := ProcessAndAdvance(storedBuffer, expected, session);
        if !ok { return; }
      }
      ok := true;
    }
  }

  class RUDPSession {
    const sessionPacketOrderer: SessionPacketOrderer
    const receiveWindow: RUDPReceiveWindow
    const handler: Handler
    var calls: seq<Call>
    var replies: seq<Reply>

    ghost predicate Valid()
      reads this, sessionPacketOrderer, receiveWindow, receiveWindow.receivedFlags
    {
      receiveWindow.Valid() && sessionPacketOrderer.maxHoldingQueueSize == receiveWindow.windowSize
    }

    ghost function View(): Intake
      requires Valid()
      reads this, sessionPacketOrderer, receiveWindow, receiveWindow.receivedFlags
    {
      Intake(sessionPacketOrderer.nextRecvPacketSequence, sessionPacketOrderer.recvHoldingPackets,
             receiveWindow.windowStart, receiveWindow.Flags(), calls, replies)
    }

    constructor (maximumHoldingPacketQueueSize: nat, h: Handler)
      requires maximumHoldingPacketQueueSize < 256
      ensures Valid() && fresh(sessionPacketOrderer) && fresh(receiveWindow) && fresh(receiveWindow.receivedFlags)
      ensures View() == Intake(0, map[], 0, Falses(maximumHoldingPacketQueueSize), [], []) && handler == h
    {
      sessionPacketOrderer := new SessionPacketOrderer(maximumHoldingPacketQueueSize);
      receiveWindow := new RUDPReceiveWindow(maximumHoldingPacketQueueSize);
      handler := h;
      calls := [];
      replies := [];
    }

    // The part of TryConnect that starts the data phase; a new life has no history.
    method StartReceiving(startSequence: Sequence)
      requires Valid()
      modifies this, sessionPacketOrderer, receiveWindow, receiveWindow.receivedFlags
      ensures Valid()
      ensures View() == Intake(startSequence, map[], startSequence, Falses(receiveWindow.windowSize), [], [])
    {
      sessionPacketOrderer.Reset(startSequence);
      receiveWindow.Reset(startSequence);
      calls := [];
      replies := [];
    }

    method SendReplyToClient(recvPacketSequence: Sequence)
      requires Valid()
      modifies this
      ensures Valid() && View() == SendReply(old(View()), recvPacketSequence)
    {
      var advertiseWindow := receiveWindow.GetAdvertiseWindow();
      replies := replies + [Reply(recvPacketSequence, advertiseWindow,
                                  |calls| + Distance(recvPacketSequence, sessionPacketOrderer.nextRecvPacketSequence))];
    }

    method ProcessPacket(recvPacket: Payload, recvPacketSequence: Sequence) returns (ok: bool)
      requires Valid()
      modifies this, receiveWindow, receiveWindow.receivedFlags
      ensures Valid()
      ensures var r := ReceivePath.ProcessPacket(old(View()), recvPacketSequence, recvPacket, handler);
              View() == r.state && ok == r.ok
    {
      ok := handler(calls, recvPacket);
      calls := calls + [Call(recvPacketSequence, recvPacket, ok)];
      if !ok { return; }
      receiveWindow.MarkReceived(recvPacketSequence);
      SendReplyToClient(recvPacketSequence);
    }

    method OnRecvPacket(packetSequence: Sequence, recvPacket: Payload) returns (ok: bool)
      requires Valid()
      modifies this, sessionPacketOrderer, receiveWindow, receiveWindow.receivedFlags
      ensures Valid()
      ensures var r := ReceivePath.OnRecvPacket(old(View()), packetSequence, recvPacket, handler);
              View() == r.state && ok == r.ok
    {
      var nextExpectedSequence := sessionPacketOrderer.nextRecvPacketSequence;
      if Distance(packetSequence, nextExpectedSequence) < 0 {
        SendReplyToClient(packetSequence);
        return true;
      }
      var accept := receiveWindow.CanReceive(packetSequence);
      if !accept {
        return true;
      }
      var packetProcessResult := sessionPacketOrderer.OnReceive(packetSequence, recvPacket, this);
      match packetProcessResult {
        case DUPLICATED_RECV =>
          SendReplyToClient(packetSequence);
          return true;
        case PROCESSED =>
          return true;
        case PACKET_HELD =>
          return true;
        case ERROR_OCCURED =>
          return false;
      }
    }
  }
}
