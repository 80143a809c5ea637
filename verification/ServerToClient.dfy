/**
 Packets from the server to the client over a network that loses, duplicates and reorders: the
 sending session, every datagram and acknowledgement ever sent, and the client's receive queue, as
 one step per lock scope. Losing a datagram is never delivering it.
 */
module ServerToClient {
  import opened Common
  import opened ClientReceive
  import opened ServerSend

  // A running SendPacket or flush: the sequence is taken, SendPacketImmediate has been entered, or it
  // has erased the packet again because the send failed and its caller will disconnect the session.
  datatype Stage = Assigned | Immediate | Failed
  datatype Hand = Hand(item: Item, stage: Stage)

  datatype State = State(
    sender: Sender,
    capacity: nat,            // of the pending queue
    hands: seq<Hand>,
    flushing: bool,           // TryFlushPendingQueue is running after an acknowledgement
    data: set<Item>,          // history: every datagram put on the network
    acks: set<nat>,           // history: every acknowledgement put on the network
    queue: multiset<Entry>,   // the client's recvPacketHoldingQueue
    next: nat,                // the client's nextRecvPacketSequence
    passed: seq<Payload>,     // history: what GetReceivedPacket has returned
    broken: bool)             // the server session has been disconnected

  datatype Step =
    | Assign(packet: Packet)
    | Decide(hand: nat)
    | Insert(hand: nat)
    | SendFails(sequence: nat)
    | Fail(hand: nat)
    | Disconnect
    | Transmit(sequence: nat)
    | Deliver(item: Item, replies: bool)
    | Read(queue: multiset<Entry>, next: nat, result: Option<Payload>)
    | Ack(sequence: nat)
    | FlushOne
    | FlushStop
    | Timeout

  function Initial(capacity: nat): State {
    State(Sender([], [], map[], Flow(INITIAL_CWND, 0, false)), capacity, [], false, {}, {}, multiset{}, 1, [], false)
  }

  predicate InStage(st: State, hand: nat, stage: Stage) {
    hand < |st.hands| && st.hands[hand].stage == stage
  }

  ghost predicate Enabled(st: State, step: Step) {
    match step
    case Assign(_) => true
    case Decide(i) => InStage(st, i, Assigned)
    case Insert(i) => InStage(st, i, Immediate)
    case SendFails(s) => s in st.sender.unacked
    case Fail(i) => InStage(st, i, Immediate) || InStage(st, i, Failed)
    case Disconnect => true
    case Transmit(s) => s in st.sender.unacked
    case Deliver(item, _) => item in st.data
    case Read(queue', next', result) => Gets(st.queue, st.next, queue', next', result)
    case Ack(s) => s in st.acks && !st.flushing
    case FlushOne => st.flushing && CanFlush(st.sender)
    case FlushStop => st.flushing && !CanFlush(st.sender)
    case Timeout => true
  }

  function DecideHand(st: State, hand: nat): State
    requires hand < |st.hands|
  {
    var item := st.hands[hand].item;
    if !MustQueue(st.sender, item.sequence) then
      st.(hands := st.hands[hand := Hand(item, Immediate)])
    else if |st.sender.pending| < st.capacity then
      st.(sender := st.sender.(pending := st.sender.pending + [item]), hands := Without(st.hands, hand))
    else
      st.(broken := true, hands := Without(st.hands, hand))
  }

  function Apply(st: State, step: Step): State
    requires Enabled(st, step)
  {
    match step
    case Assign(p) =>
      st.(sender := ServerSend.Assign(st.sender, p),
            hands := st.hands + [Hand(Item(|st.sender.sent| + 1, p), Assigned)])
    case Decide(i) => DecideHand(st, i)
    case Insert(i) => st.(sender := Register(st.sender, st.hands[i].item), hands := Without(st.hands, i))
    case SendFails(s) =>
      st.(sender := st.sender.(unacked := st.sender.unacked - {s}),
            hands := st.hands + [Hand(Item(s, st.sender.unacked[s]), Failed)])
    case Fail(i) => st.(broken := true, hands := Without(st.hands, i))
    case Disconnect => st.(broken := true)
    case Transmit(s) => st.(data := st.data + {Item(s, st.sender.unacked[s])})
    case Deliver(item, replies) =>
      st.(queue := st.queue + multiset{Entry(item.sequence, item.packet)},
          acks := if replies then st.acks + {item.sequence} else st.acks)
    case Read(queue', next', result) =>
      st.(queue := queue', next := next', passed := if result.Some? then st.passed + [result.value] else st.passed)
    case Ack(s) =>
      if Awaited(st.sender, s) then st.(sender := Acknowledge(st.sender, s), flushing := true) else st
    case FlushOne =>
      st.(sender := st.sender.(pending := st.sender.pending[1..]),
            hands := st.hands + [Hand(st.sender.pending[0], Immediate)])
    case FlushStop => st.(flushing := false)
    case Timeout => st.(sender := st.sender.(flow := Congested(st.sender.flow)))
  }

  // --- Where a sequence can be ---

  predicate SentAs(sent: seq<Packet>, item: Item) {
    1 <= item.sequence <= |sent| && item.packet == sent[item.sequence - 1]
  }

  predicate Received(st: State, s: nat) {
    1 <= s <= |st.sender.sent| && (s < st.next || Entry(s, st.sender.sent[s - 1]) in st.queue)
  }

  predicate InHand(st: State, s: nat) {
    exists h :: h in st.hands && h.item.sequence == s
  }

  predicate InPending(st: State, s: nat) {
    exists item :: item in st.sender.pending && item.sequence == s
  }

  // Received by the client, and covered by the highest acknowledgement processed.
  predicate Acknowledged(st: State, s: nat) {
    Received(st, s) && s <= st.sender.flow.lastReply
  }

  predicate Accounted(st: State, s: nat) {
    s in st.sender.unacked || InPending(st, s) || InHand(st, s) || Acknowledged(st, s)
  }

  // Every copy of a packet, anywhere, is the packet its sequence was assigned to.
  ghost predicate Original(st: State) {
    var sent := st.sender.sent;
    && (forall item :: item in st.sender.pending ==> SentAs(sent, item))
    && (forall s :: s in st.sender.unacked ==> SentAs(sent, Item(s, st.sender.unacked[s])))
    && (forall h :: h in st.hands ==> SentAs(sent, h.item))
    && (forall item :: item in st.data ==> SentAs(sent, item))
    && Genuine(st.queue, sent)
  }

  ghost predicate AcksReceived(st: State) {
    forall s :: s in st.acks ==> Received(st, s)
  }

  ghost predicate PassedPrefix(st: State) {
    1 <= st.next <= |st.sender.sent| + 1 && st.passed == Payloads(st.sender.sent[..st.next - 1])
  }

  ghost predicate NothingLost(st: State) {
    !st.broken ==> forall s :: 1 <= s <= |st.sender.sent| ==> Accounted(st, s)
  }

  ghost predicate Inv(st: State) {
    Original(st) && AcksReceived(st) && PassedPrefix(st) && NothingLost(st)
  }

  // --- Each step keeps it ---

  // What is received stays received, and what is acknowledged stays acknowledged.
  ghost predicate ReceivesOn(st: State, after: State) {
    && (forall s {:trigger Received(after, s)} :: Received(st, s) ==> Received(after, s))
    && st.sender.flow.lastReply <= after.sender.flow.lastReply
  }

  // A packet of a hand or of the pending queue stays there, unless it is the one moved.
  lemma Stays(st: State, after: State, moved: Item)
    requires NothingLost(st) && ReceivesOn(st, after)
    requires st.broken == after.broken && after.sender.sent == st.sender.sent
    requires forall h :: h in st.hands && h.item != moved ==> InHand(after, h.item.sequence)
    requires forall item :: item in st.sender.pending && item != moved ==> InPending(after, item.sequence)
    requires forall s :: s in st.sender.unacked ==> s in after.sender.unacked || Acknowledged(after, s)
    requires Accounted(after, moved.sequence)
    ensures NothingLost(after)
  {
    forall s | !st.broken && 1 <= s <= |st.sender.sent| ensures Accounted(after, s) {
      assert Accounted(st, s);
      if InHand(st, s) {
        var h :| h in st.hands && h.item.sequence == s;
        if h.item == moved { assert s == moved.sequence; }
      } else if InPending(st, s) {
        var item :| item in st.sender.pending && item.sequence == s;
        if item == moved { assert s == moved.sequence; }
      }
    }
  }

  lemma AssignKeeps(st: State, p: Packet)
    requires Inv(st)
    ensures Inv(Apply(st, Assign(p)))
  {
    var after := Apply(st, Assign(p));
    var s := |st.sender.sent| + 1;
    var mine := Hand(Item(s, p), Assigned);
    assert mine in after.hands;
    assert after.sender.sent[..st.next - 1] == st.sender.sent[..st.next - 1];
    forall q | !st.broken && 1 <= q <= s ensures Accounted(after, q) {
      if q == s {
        assert mine.item.sequence == q;
      } else {
        assert Accounted(st, q);
        if InHand(st, q) {
          var h :| h in st.hands && h.item.sequence == q;
          assert h in after.hands;
        } else if InPending(st, q) {
          var item :| item in st.sender.pending && item.sequence == q;
          assert item in after.sender.pending;
        }
      }
    }
  }

  lemma EnterKeeps(st: State, i: nat)
    requires Inv(st) && Enabled(st, Decide(i)) && !MustQueue(st.sender, st.hands[i].item.sequence)
    ensures Inv(Apply(st, Decide(i)))
  {
    hide Gets, Payloads, MustQueue;
    var after := Apply(st, Decide(i));
    var item := st.hands[i].item;
    var mine := Hand(item, Immediate);
    assert after.hands[i] == mine && mine in after.hands;
    assert InHand(after, item.sequence);
    forall h | h in st.hands && h.item != item ensures InHand(after, h.item.sequence) {
      var j :| 0 <= j < |st.hands| && st.hands[j] == h;
      assert after.hands[j] == h;
    }
    forall x | x in st.sender.pending && x != item ensures InPending(after, x.sequence) {
      assert x in after.sender.pending;
    }
    Stays(st, after, item);
  }

  lemma EnqueueKeeps(st: State, i: nat)
    requires Inv(st) && Enabled(st, Decide(i)) && MustQueue(st.sender, st.hands[i].item.sequence)
    ensures Inv(Apply(st, Decide(i)))
  {
    hide Gets, Payloads, MustQueue;
    var after := Apply(st, Decide(i));
    var item := st.hands[i].item;
    WithoutKeeps(st.hands, i);
    if |st.sender.pending| < st.capacity {
      assert item in after.sender.pending;
      forall h | h in st.hands && h.item != item ensures InHand(after, h.item.sequence) { assert h in after.hands; }
      forall x | x in st.sender.pending && x != item ensures InPending(after, x.sequence) {
        assert x in after.sender.pending;
      }
      assert InPending(after, item.sequence);
      Stays(st, after, item);
    }
  }

  lemma InsertKeeps(st: State, i: nat)
    requires Inv(st) && Enabled(st, Insert(i))
    ensures Inv(Apply(st, Insert(i)))
  {
    hide Gets, Payloads;
    var after := Apply(st, Insert(i));
    var item := st.hands[i].item;
    WithoutKeeps(st.hands, i);
    forall h | h in st.hands && h.item != item ensures InHand(after, h.item.sequence) { assert h in after.hands; }
    forall x | x in st.sender.pending && x != item ensures InPending(after, x.sequence) {
      assert x in after.sender.pending;
    }
    Stays(st, after, item);
  }

  lemma FlushKeeps(st: State)
    requires Inv(st) && Enabled(st, FlushOne)
    ensures Inv(Apply(st, FlushOne))
  {
    hide Gets, Payloads;
    var after := Apply(st, FlushOne);
    var item := st.sender.pending[0];
    var mine := Hand(item, Immediate);
    assert mine in after.hands;
    assert InHand(after, item.sequence);
    assert st.sender.pending == [item] + after.sender.pending;
    forall h | h in st.hands && h.item != item ensures InHand(after, h.item.sequence) { assert h in after.hands; }
    forall x | x in st.sender.pending && x != item ensures InPending(after, x.sequence) {
      assert x in after.sender.pending;
    }
    Stays(st, after, item);
  }

  lemma SendFailsKeeps(st: State, s: nat)
    requires Inv(st) && Enabled(st, SendFails(s))
    ensures Inv(Apply(st, SendFails(s)))
  {
    hide Gets, Payloads;
    var after := Apply(st, SendFails(s));
    var mine := Hand(Item(s, st.sender.unacked[s]), Failed);
    assert mine in after.hands;
    assert InHand(after, s);
    forall q | !st.broken && 1 <= q <= |st.sender.sent| ensures Accounted(after, q) {
      assert Accounted(st, q);
      if Acknowledged(st, q) {
        assert Received(after, q);
      } else if InHand(st, q) {
        var h :| h in st.hands && h.item.sequence == q;
        assert h in after.hands;
      } else if InPending(st, q) {
        var x :| x in st.sender.pending && x.sequence == q;
        assert x in after.sender.pending;
      }
    }
  }

  // Steps that leave hands and pending queue alone.
  lemma SameHolders(st: State, after: State)
    requires NothingLost(st) && ReceivesOn(st, after) && after.sender.sent == st.sender.sent
    requires after.hands == st.hands && after.sender.pending == st.sender.pending && (st.broken ==> after.broken)
    requires forall s :: s in st.sender.unacked ==> s in after.sender.unacked || Acknowledged(after, s)
    ensures NothingLost(after)
  {
    forall s | !after.broken && 1 <= s <= |st.sender.sent| ensures Accounted(after, s) {
      assert Accounted(st, s);
      if InHand(st, s) {
        var h :| h in st.hands && h.item.sequence == s;
        assert h in after.hands;
      } else if InPending(st, s) {
        var item :| item in st.sender.pending && item.sequence == s;
        assert item in after.sender.pending;
      }
    }
  }

  lemma FailKeeps(st: State, i: nat)
    requires Inv(st) && Enabled(st, Fail(i))
    ensures Inv(Apply(st, Fail(i)))
  {
    hide Gets, Payloads;
    WithoutKeeps(st.hands, i);
  }

  lemma AckKeeps(st: State, s: nat)
    requires Inv(st) && Enabled(st, Ack(s))
    ensures Inv(Apply(st, Ack(s)))
  {
    hide Gets, Payloads;
    var after := Apply(st, Ack(s));
    assert Received(st, s);
    assert Received(after, s);
    SameHolders(st, after);
  }

  lemma DeliverKeeps(st: State, item: Item, replies: bool)
    requires Inv(st) && Enabled(st, Deliver(item, replies))
    ensures Inv(Apply(st, Deliver(item, replies)))
  {
    hide Gets, Payloads;
    var after := Apply(st, Deliver(item, replies));
    assert Entry(item.sequence, item.packet) in after.queue;
    assert Received(after, item.sequence);
    SameHolders(st, after);
  }

  lemma ReadKeeps(st: State, queue': multiset<Entry>, next': nat, result: Option<Payload>)
    requires Inv(st) && Enabled(st, Read(queue', next', result))
    ensures Inv(Apply(st, Read(queue', next', result)))
  {
    hide Payloads;
    var after := Apply(st, Read(queue', next', result));
    GetsInOrder(st.sender.sent, st.queue, st.next, queue', next', result);
    forall s: nat | Received(st, s) ensures Received(after, s) {
      var e := Entry(s, st.sender.sent[s - 1]);
      if s >= next' { assert e in queue' || e in st.queue - queue'; }
    }
    SameHolders(st, after);
  }

  lemma Keeps(st: State, step: Step)
    requires Inv(st) && Enabled(st, step)
    ensures Inv(Apply(st, step))
  {
    hide Gets, Payloads, Accounted;
    match step
    case Assign(p) => AssignKeeps(st, p);
    case Decide(i) =>
      if MustQueue(st.sender, st.hands[i].item.sequence) { EnqueueKeeps(st, i); } else { EnterKeeps(st, i); }
    case Insert(i) => InsertKeeps(st, i);
    case SendFails(s) => SendFailsKeeps(st, s);
    case Fail(i) => FailKeeps(st, i);
    case Disconnect => SameHolders(st, Apply(st, step));
    case Transmit(s) => SameHolders(st, Apply(st, step));
    case Deliver(item, replies) => DeliverKeeps(st, item, replies);
    case Read(queue', next', result) => ReadKeeps(st, queue', next', result);
    case Ack(s) => AckKeeps(st, s);
    case FlushOne => FlushKeeps(st);
    case FlushStop => SameHolders(st, Apply(st, step));
    case Timeout => SameHolders(st, Apply(st, step));
  }
}
