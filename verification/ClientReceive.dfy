/** The client's receive queue: stored in arrival order, read in sequence order. */
module ClientReceive {
  import opened Common

  datatype Kind = SEND_TYPE | HEARTBEAT_TYPE
  datatype Packet = Packet(kind: Kind, payload: Payload)
  datatype Entry = Entry(sequence: nat, packet: Packet)  // RecvPacketInfo

  // What one GetReceivedPacket call may do to the queue and nextRecvPacketSequence: it drops
  // packets already seen, skips heartbeats, and returns the first application packet that is due.
  ghost predicate Gets(queue: multiset<Entry>, next: nat, queue': multiset<Entry>, next': nat,
        result: Option<Payload>) {
    var skipped := if result.Some? then next' - 1 else next';
    && next <= skipped && queue' <= queue
    && (forall e :: e in queue - queue' ==> e.sequence < next')
    && (forall e :: e in queue' ==> e.sequence >= skipped)
    && (forall s :: next <= s < skipped ==> HasHeartbeat(queue, s))
    && (match result
        case Some(p) => Entry(skipped, Packet(SEND_TYPE, p)) in queue
        case None => forall e :: e in queue' ==> e.sequence > next')
  }

  ghost predicate HasHeartbeat(queue: multiset<Entry>, s: nat) {
    exists p :: Entry(s, Packet(HEARTBEAT_TYPE, p)) in queue
  }

  // The top of the priority queue: any entry with the least sequence.
  ghost predicate IsTop(queue: multiset<Entry>, top: Entry) {
    top in queue && forall e :: e in queue ==> top.sequence <= e.sequence
  }

  lemma {:induction false} TopExists(queue: multiset<Entry>)
    requires queue != multiset{}
    ensures exists top :: IsTop(queue, top)
    decreases |queue|
  {
    var e :| e in queue;
    var rest := queue - multiset{e};
    if rest == multiset{} {
      assert forall x :: x in queue ==> x in rest || x == e;
      assert IsTop(queue, e);
    } else {
      TopExists(rest);
      var top :| IsTop(rest, top);
      assert forall x :: x in queue ==> x in rest || x == e;
      assert IsTop(queue, if e.sequence < top.sequence then e else top);
    }
  }

  // The loop of GetReceivedPacket so far: only stale packets and heartbeats were taken out.
  ghost predicate Partway(queue: multiset<Entry>, next: nat, rest: multiset<Entry>, now: nat) {
    && next <= now && rest <= queue
    && (forall e :: e in queue - rest ==> e.sequence < now)
    && (forall s :: next <= s < now ==> HasHeartbeat(queue, s))
  }

  lemma TakeTop(queue: multiset<Entry>, next: nat, rest: multiset<Entry>, now: nat, top: Entry)
    requires Partway(queue, next, rest, now) && IsTop(rest, top) && top.sequence <= now
    ensures rest - multiset{top} <= queue
    ensures forall e :: e in queue - (rest - multiset{top}) ==> e.sequence <= now && (e.sequence < now || e == top)
  {
    forall e | e in queue - (rest - multiset{top}) ensures e.sequence < now || e == top {
      assert e in queue - rest || e == top;
    }
  }

  lemma PassTop(queue: multiset<Entry>, next: nat, rest: multiset<Entry>, now: nat, top: Entry)
    requires Partway(queue, next, rest, now) && IsTop(rest, top)
    ensures top.sequence < now ==> Partway(queue, next, rest - multiset{top}, now)
    ensures top.sequence == now && top.packet.kind == HEARTBEAT_TYPE ==>
              Partway(queue, next, rest - multiset{top}, now + 1)
    ensures top.sequence == now && top.packet.kind == SEND_TYPE ==>
              Gets(queue, next, rest - multiset{top}, now + 1, Some(top.packet.payload))
    ensures top.sequence > now ==> Gets(queue, next, rest, now, None)
  {
    if top.sequence <= now {
      TakeTop(queue, next, rest, now, top);
      if top.sequence == now {
        assert top == Entry(now, Packet(top.packet.kind, top.packet.payload));
      }
    }
  }

  class RUDPClientReceiver {
    var recvPacketHoldingQueue: multiset<Entry>
    var nextRecvPacketSequence: nat

    constructor ()
      ensures recvPacketHoldingQueue == multiset{} && nextRecvPacketSequence == 1
    {
      recvPacketHoldingQueue := multiset{};
      nextRecvPacketSequence := 1;
    }

    // The data branch of ProcessRecvPacket: no check for a duplicate, and the acknowledgement does
    // not wait for the application. `wantsReply` is what ShouldSendReplyToServer answers.
    method ProcessRecvPacket(packetSequence: nat, packet: Packet, wantsReply: bool) returns (replied: Option<nat>)
      modifies this
      ensures recvPacketHoldingQueue == old(recvPacketHoldingQueue) + multiset{Entry(packetSequence, packet)}
      ensures nextRecvPacketSequence == old(nextRecvPacketSequence)
      ensures replied == if wantsReply then Some(packetSequence) else None
    {
      recvPacketHoldingQueue := recvPacketHoldingQueue + multiset{Entry(packetSequence, packet)};
      replied := if wantsReply then Some(packetSequence) else None;
    }

    method Top() returns (top: Entry)
      requires recvPacketHoldingQueue != multiset{}
      ensures IsTop(recvPacketHoldingQueue, top)
    {
      TopExists(recvPacketHoldingQueue);
      ghost var some :| IsTop(recvPacketHoldingQueue, some);
      var rest := recvPacketHoldingQueue;
      top :| top in rest;
      while rest != multiset{}
        invariant rest <= recvPacketHoldingQueue
        invariant top in recvPacketHoldingQueue
        invariant forall e :: e in recvPacketHoldingQueue - rest ==> top.sequence <= e.sequence
        decreases |rest|
      {
        var e :| e in rest;
        if e.sequence < top.sequence { top := e; }
        rest := rest - multiset{e};
      }
    }

    method GetReceivedPacket() returns (result: Option<Payload>)
      modifies this
      ensures Gets(old(recvPacketHoldingQueue), old(nextRecvPacketSequence),
                   recvPacketHoldingQueue, nextRecvPacketSequence, result)
    {
      ghost var queue, next := recvPacketHoldingQueue, nextRecvPacketSequence;
      while recvPacketHoldingQueue != multiset{}
        invariant Partway(queue, next, recvPacketHoldingQueue, nextRecvPacketSequence)
        decreases |recvPacketHoldingQueue|
      {
        hide Partway, Gets;
        var top := Top();
        PassTop(queue, next, recvPacketHoldingQueue, nextRecvPacketSequence, top);
        if top.sequence < nextRecvPacketSequence {
          recvPacketHoldingQueue := recvPacketHoldingQueue - multiset{top};
          continue;
        }
        if top.sequence != nextRecvPacketSequence {
          return None;
        }
        nextRecvPacketSequence := nextRecvPacketSequence + 1;
        recvPacketHoldingQueue := recvPacketHoldingQueue - multiset{top};
        if top.packet.kind == HEARTBEAT_TYPE {
          continue;
        }
        return Some(top.packet.payload);
      }
      return None;
    }
  }

  // --- What the application sees ---

  // The application payloads of a sequence of packets.
  function Payloads(packets: seq<Packet>): seq<Payload> {
    if packets == [] then []
    else
      var last := packets[|packets| - 1];
      Payloads(packets[..|packets| - 1]) + if last.kind == SEND_TYPE then [last.payload] else []
  }

  // Every stored packet is the one the peer numbered with its sequence.
  ghost predicate Genuine(queue: multiset<Entry>, sent: seq<Packet>) {
    forall e :: e in queue ==> 1 <= e.sequence <= |sent| && e.packet == sent[e.sequence - 1]
  }

  lemma {:induction false} SkipHeartbeats(sent: seq<Packet>, lo: nat, hi: nat)
    requires lo <= hi <= |sent| && forall i :: lo <= i < hi ==> sent[i].kind == HEARTBEAT_TYPE
    ensures Payloads(sent[..hi]) == Payloads(sent[..lo])
    decreases hi
  {
    if lo < hi {
      assert sent[..hi][..hi - 1] == sent[..hi - 1];
      SkipHeartbeats(sent, lo, hi - 1);
    }
  }

  predicate HeartbeatSent(sent: seq<Packet>, s: nat) {
    1 <= s <= |sent| && sent[s - 1].kind == HEARTBEAT_TYPE
  }

  // However packets were duplicated and reordered on the way in, each call returns the next
  // application packet after those returned before, and one that returns nothing has read
  // everything stored up to the first missing sequence.
  lemma GetsInOrder(sent: seq<Packet>, queue: multiset<Entry>, next: nat, queue': multiset<Entry>, next': nat,
        result: Option<Payload>)
    requires Genuine(queue, sent) && 1 <= next <= |sent| + 1 && Gets(queue, next, queue', next', result)
    ensures next <= next' <= |sent| + 1
    ensures Payloads(sent[..next' - 1]) == Payloads(sent[..next - 1]) + (if result.Some? then [result.value] else [])
    ensures result.None? ==> forall e :: e in queue ==> e.sequence != next'
  {
    var skipped := if result.Some? then next' - 1 else next';
    forall i | next <= i < skipped ensures HeartbeatSent(sent, i) {
      assert HasHeartbeat(queue, i);
      var p :| Entry(i, Packet(HEARTBEAT_TYPE, p)) in queue;
    }
    if skipped > next { assert HeartbeatSent(sent, skipped - 1); }
    forall i | next - 1 <= i < skipped - 1 ensures sent[i].kind == HEARTBEAT_TYPE {
      assert HeartbeatSent(sent, i + 1);
    }
    SkipHeartbeats(sent, next - 1, skipped - 1);
    if result.Some? {
      assert Entry(skipped, Packet(SEND_TYPE, result.value)) in queue;
      assert sent[..next' - 1][..skipped - 1] == sent[..skipped - 1];
    }
  }
}
