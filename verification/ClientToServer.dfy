/**
 Packets from the client to the server over a network that loses, duplicates and reorders: the
 client's sender, every datagram and acknowledgement ever sent, and the server's receive path, as one
 step per lock scope. The data phase starts when the connection is acknowledged; sequences start at 1
 and stay below 2^63. The server takes packets in until nowInReleaseThread is set, which DoDisconnect
 does only after the state has moved to RELEASING, and only in the thread that moved it.
 */
module ClientToServer {
  import opened Common
  import opened Sequences
  import opened ReceivePath
  import opened ClientSend

  datatype Item = Item(sequence: nat, payload: Payload)

  // A running SendPacket: the sequence is taken; the window was read; it must go to the pending
  // queue; it goes to RegisterSendPacketInfo.
  datatype Stage = Numbered | Windowed(window: nat) | ToPending | ToRegister
  datatype Hand = Hand(item: Item, stage: Stage)

  // The client's receive thread: between packets, or in TryFlushPendingQueue, which holds the
  // pending queue's lock.
  datatype Flush = Idle | Flushing(window: nat) | Registering(window: nat, item: Item)

  datatype Acknowledgement = Acknowledgement(sequence: nat, window: nat)

  datatype State = State(
    client: Client,
    hands: seq<Hand>,
    flush: Flush,
    data: set<Item>,             // history: every datagram handed to the send thread, which never stops
    acks: set<Acknowledgement>,  // history: every acknowledgement put on the network
    intake: Intake,              // the server
    dropped: bool,      // the client failed to allocate, and dropped a packet without telling
    stopped: bool,      // the client gave up retransmitting
    releasing: bool,    // the server session is in RELEASING
    flagged: bool,      // its nowInReleaseThread
    lateFailure: bool,  // history: a handler failed after another thread had made the transition
    falseAck: bool)     // history: a packet whose handler had failed was acknowledged

  datatype Step =
    | Assign(payload: Payload)
    | ReadWindow(hand: nat)
    | CountOutstanding(hand: nat)
    | PushPending(hand: nat)
    | Insert(hand: nat)
    | LoseAllocation(hand: nat)
    | Ack(ack: Acknowledgement)
    | FlushPop
    | FlushInsert
    | FlushLoseAllocation
    | FlushStop
    | Transmit(sequence: nat)
    | GiveUp
    | Deliver(item: Item)
    | Reply(reply: ReceivePath.Reply)
    | ServerTransition
    | ServerFlag

  ghost predicate Enabled(st: State, step: Step) {
    match step
    case Assign(_) => |st.client.sent| + 1 < HALF
    case ReadWindow(i) => i < |st.hands| && st.hands[i].stage == Numbered
    case CountOutstanding(i) => i < |st.hands| && st.hands[i].stage.Windowed?
    case PushPending(i) => i < |st.hands| && st.hands[i].stage == ToPending && st.flush.Idle?
    case Insert(i) => i < |st.hands| && st.hands[i].stage == ToRegister
    case LoseAllocation(i) => i < |st.hands| && st.hands[i].stage == ToRegister
    case Ack(a) => a in st.acks && st.flush.Idle?
    case FlushPop => st.flush.Flushing? && st.client.pending != map[] && Outstanding(st.client) < st.flush.window
    case FlushInsert => st.flush.Registering?
    case FlushLoseAllocation => st.flush.Registering?
    case FlushStop => st.flush.Flushing? && (st.client.pending == map[] || Outstanding(st.client) >= st.flush.window)
    case Transmit(s) => s in st.client.unacked && !st.stopped
    case GiveUp => true
    case Deliver(item) => item in st.data && item.sequence < HALF && !st.flagged
    case Reply(r) => r in st.intake.replies
    case ServerTransition => !st.releasing
    case ServerFlag => st.releasing
  }

  // A packet whose handler ran and failed; the server answers it as an old one.
  predicate RepeatsFailure(st: Intake, s: nat) {
    1 <= s <= |st.calls| && !st.calls[s - 1].handled
  }

  function SetStage(st: State, hand: nat, stage: Stage): State
    requires hand < |st.hands|
  {
    st.(hands := st.hands[hand := st.hands[hand].(stage := stage)])
  }

  // OnSendReply up to the flush
  function TakeAck(st: State, a: Acknowledgement): (r: State)
    ensures r == st.(client := r.client, flush := r.flush)
  {
    if |st.client.sent| < a.sequence then st
    else
      st.(client := Acknowledge(st.client, a.sequence, a.window),
          flush := if a.window == 0 then Idle else Flushing(a.window))
  }

  ghost function Apply(st: State, step: Step, handler: Handler): State
    requires Enabled(st, step)
  {
    match step
    case Assign(p) =>
      st.(client := st.client.(sent := st.client.sent + [p]),
          hands := st.hands + [Hand(Item(|st.client.sent| + 1, p), Numbered)])
    case ReadWindow(i) => SetStage(st, i, if st.client.window == 0 then ToPending else Windowed(st.client.window))
    case CountOutstanding(i) =>
      SetStage(st, i, if Outstanding(st.client) >= st.hands[i].stage.window then ToPending else ToRegister)
    case PushPending(i) =>
      var item := st.hands[i].item;
      st.(client := st.client.(pending := st.client.pending[item.sequence := item.payload]),
          hands := Without(st.hands, i))
    case Insert(i) =>
      var item := st.hands[i].item;
      st.(client := Register(st.client, item.sequence, item.payload), hands := Without(st.hands, i),
          data := st.data + {item})
    case LoseAllocation(i) => st.(hands := Without(st.hands, i), dropped := true)
    case Ack(a) => TakeAck(st, a)
    case FlushPop =>
      HasKey(st.client.pending);
      var s := Least(st.client.pending.Keys);
      st.(client := st.client.(pending := st.client.pending - {s}),
          flush := Registering(st.flush.window, Item(s, st.client.pending[s])))
    case FlushInsert =>
      st.(client := Register(st.client, st.flush.item.sequence, st.flush.item.payload),
          flush := Flushing(st.flush.window), data := st.data + {st.flush.item})
    case FlushLoseAllocation => st.(flush := Flushing(st.flush.window), dropped := true)
    case FlushStop => st.(flush := Idle)
    case Transmit(s) => st.(data := st.data + {Item(s, st.client.unacked[s])})
    case GiveUp => st.(stopped := true)
    case Deliver(item) =>
      var r := OnRecvPacket(st.intake, item.sequence, item.payload, handler);
      st.(intake := r.state, releasing := st.releasing || !r.ok, flagged := !r.ok && !st.releasing,
          lateFailure := st.lateFailure || (!r.ok && st.releasing),
          falseAck := st.falseAck || RepeatsFailure(st.intake, item.sequence))
    case Reply(r) => st.(acks := st.acks + {Acknowledgement(r.sequence, r.advertised)})
    case ServerTransition => st.(releasing := true)
    case ServerFlag => st.(flagged := true)
  }

  // --- What the server keeps ---

  ghost predicate AllHandled(st: Intake) {
    forall i :: 0 <= i < |st.calls| ==> st.calls[i].handled
  }

  // Handlers have run for sequences 1, 2, ... in turn, each with the packet sent under it; every
  // packet held is the one sent under its sequence; every reply answers a handler that has run.
  ghost predicate Serves(st: Intake, sent: seq<Payload>) {
    && |st.calls| <= |sent| < HALF && st.next == 1 + |st.calls|
    && (forall i :: 0 <= i < |st.calls| ==> st.calls[i].payload == sent[i])
    && (forall k :: k in st.held ==> 1 <= k <= |sent| && st.held[k] == sent[k - 1])
    && (forall r :: r in st.replies ==> 1 <= r.sequence <= |st.calls|)
  }

  // ... and one that has succeeded.
  ghost predicate AcksTrue(st: Intake) {
    forall r :: r in st.replies && 1 <= r.sequence <= |st.calls| ==> st.calls[r.sequence - 1].handled
  }

  ghost predicate ServesOn(st: Intake, after: Intake, ok: bool, sent: seq<Payload>) {
    && Serves(after, sent) && st.calls <= after.calls && (AcksTrue(after) <==> AcksTrue(st))
    && (ok && AllHandled(st) ==> AllHandled(after))
  }

  lemma ProcessServes(st: Intake, sent: seq<Payload>, handler: Handler)
    requires Serves(st, sent) && |st.calls| < |sent|
    ensures var r := ProcessAndAdvance(st, st.next, sent[st.next - 1], handler);
            ServesOn(st, r.state, r.ok, sent)
  {
    hide Mark;
    var r := ProcessAndAdvance(st, st.next, sent[st.next - 1], handler);
    assert r.state.calls == st.calls + [Call(st.next, sent[st.next - 1], r.ok)];
    if r.ok {
      var last := r.state.replies[|st.replies|];
      assert r.state.replies == st.replies + [last] && last.sequence == st.next;
      forall x | x in st.replies ensures x in r.state.replies {}
    }
  }

  lemma {:induction false} DrainServes(st: Intake, sent: seq<Payload>, handler: Handler)
    requires Serves(st, sent)
    ensures var r := ProcessHoldingPacket(st, handler);
            ServesOn(st, r.state, r.ok, sent)
    decreases |st.held|
  {
    hide ProcessAndAdvance, AcksTrue, AllHandled;
    if st.next in st.held {
      var taken := st.(held := st.held - {st.next});
      RemoveShrinks(st.held, st.next);
      RemoveShrinks(taken.held, st.next);
      ProcessServes(taken, sent, handler);
      SameHistory(st, taken);
      var step := ProcessAndAdvance(taken, st.next, sent[st.next - 1], handler);
      if step.ok { DrainServes(step.state, sent, handler); }
    }
  }

  lemma SameHistory(st: Intake, after: Intake)
    requires after.calls == st.calls && after.replies == st.replies
    ensures AllHandled(after) <==> AllHandled(st)
    ensures AcksTrue(after) <==> AcksTrue(st)
  {
  }

  // One receive handles the packets of the next sequences, and adds a false acknowledgement exactly
  // when it repeats a packet whose handler failed.
  lemma ReceiveServes(st: Intake, sent: seq<Payload>, s: nat, handler: Handler)
    requires Serves(st, sent) && 1 <= s <= |sent|
    ensures var r := OnRecvPacket(st, s, sent[s - 1], handler);
            && Serves(r.state, sent) && st.calls <= r.state.calls
            && (AcksTrue(r.state) <==> AcksTrue(st) && !RepeatsFailure(st, s))
            && (r.ok && AllHandled(st) ==> AllHandled(r.state))
  {
    hide ProcessAndAdvance, ProcessHoldingPacket;
    assert Distance(s, st.next) == s - st.next;
    if s < st.next {
      OldAnswered(st, s);
    } else if s == st.next {
      ProcessServes(st, sent, handler);
      var first := ProcessAndAdvance(st, s, sent[s - 1], handler);
      if first.ok { DrainServes(first.state, sent, handler); }
    }
  }

  lemma OldAnswered(st: Intake, s: nat)
    requires 1 <= s <= |st.calls| && s < HALF
    ensures AcksTrue(SendReply(st, s)) <==> AcksTrue(st) && !RepeatsFailure(st, s)
  {
    var after := SendReply(st, s);
    var last := after.replies[|st.replies|];
    assert after.replies == st.replies + [last] && last.sequence == s && last in after.replies;
    forall r | r in st.replies ensures r in after.replies {}
  }

  // --- Where a sequence can be ---

  predicate SentAs(sent: seq<Payload>, item: Item) {
    1 <= item.sequence <= |sent| && item.payload == sent[item.sequence - 1]
  }

  predicate Handled(st: State, s: nat) {
    1 <= s <= |st.intake.calls| && st.intake.calls[s - 1].handled
  }

  predicate InHand(st: State, s: nat) {
    (exists h :: h in st.hands && h.item.sequence == s) || (st.flush.Registering? && st.flush.item.sequence == s)
  }

  predicate Accounted(st: State, s: nat) {
    s in st.client.unacked || s in st.client.pending || InHand(st, s) || Handled(st, s)
  }

  ghost predicate Original(st: State) {
    var sent := st.client.sent;
    && (forall s :: s in st.client.pending ==> SentAs(sent, Item(s, st.client.pending[s])))
    && (forall s :: s in st.client.unacked ==> SentAs(sent, Item(s, st.client.unacked[s])))
    && (forall h :: h in st.hands ==> SentAs(sent, h.item))
    && (st.flush.Registering? ==> SentAs(sent, st.flush.item))
    && (forall item :: item in st.data ==> SentAs(sent, item))
  }

  ghost predicate AcksHandled(st: State) {
    forall a :: a in st.acks ==> 1 <= a.sequence <= |st.intake.calls| && (!st.falseAck ==> Handled(st, a.sequence))
  }

  ghost predicate NothingLost(st: State) {
    !st.dropped && !st.falseAck ==> forall s :: 1 <= s <= |st.client.sent| ==> Accounted(st, s)
  }

  // Until a handler fails after another thread's transition, a failure sets the flag, and no failed
  // packet is acknowledged.
  ghost predicate Gate(st: State) {
    && (st.flagged ==> st.releasing)
    && (!st.flagged && !st.lateFailure ==> AllHandled(st.intake))
    && (!st.lateFailure ==> !st.falseAck)
    && (!st.falseAck <==> AcksTrue(st.intake))
  }

  ghost predicate Inv(st: State) {
    && Original(st) && AcksHandled(st) && NothingLost(st)
    && Serves(st.intake, st.client.sent) && Gate(st)
  }

  // --- Each step keeps it ---

  // Only `moved` leaves the place where it was, and it is accounted for afterwards.
  lemma Stays(st: State, after: State, moved: nat)
    requires NothingLost(st) && after.client.sent == st.client.sent && (st.dropped ==> after.dropped)
    requires st.falseAck ==> after.falseAck
    requires forall h :: h in st.hands && h.item.sequence != moved ==> InHand(after, h.item.sequence)
    requires st.flush.Registering? && st.flush.item.sequence != moved ==> InHand(after, st.flush.item.sequence)
    requires forall s :: s in st.client.pending && s != moved ==> s in after.client.pending
    requires forall s :: s in st.client.unacked && s != moved ==> s in after.client.unacked
    requires st.intake.calls <= after.intake.calls
    requires after.dropped || after.falseAck || Accounted(after, moved) || !(1 <= moved <= |st.client.sent|)
    ensures NothingLost(after)
  {
    forall s | !after.dropped && !after.falseAck && 1 <= s <= |st.client.sent| ensures Accounted(after, s) {
      assert Accounted(st, s);
      if s != moved && InHand(st, s) && !(st.flush.Registering? && st.flush.item.sequence == s) {
        var h :| h in st.hands && h.item.sequence == s;
      }
    }
  }

  lemma SameHands(st: State, after: State)
    requires after.hands == st.hands && after.flush == st.flush
    ensures forall h :: h in st.hands ==> InHand(after, h.item.sequence)
    ensures st.flush.Registering? ==> InHand(after, st.flush.item.sequence)
  {
    forall h | h in st.hands ensures InHand(after, h.item.sequence) { assert h in after.hands; }
  }

  lemma AssignKeeps(st: State, p: Payload)
    requires Inv(st) && Enabled(st, Assign(p))
    ensures forall handler :: Inv(Apply(st, Assign(p), handler))
  {
    hide OnRecvPacket, AcksTrue, AllHandled;
    forall handler ensures Inv(Apply(st, Assign(p), handler)) {
      var after := Apply(st, Assign(p), handler);
      var n := |st.client.sent| + 1;
      assert Hand(Item(n, p), Numbered) in after.hands;
      forall s | !st.dropped && !st.falseAck && 1 <= s <= n ensures Accounted(after, s) {
        if s == n {
          assert Hand(Item(n, p), Numbered).item.sequence == s;
        } else {
          assert Accounted(st, s);
          if InHand(st, s) && !(st.flush.Registering? && st.flush.item.sequence == s) {
            var h :| h in st.hands && h.item.sequence == s;
            assert h in after.hands;
          }
        }
      }
    }
  }

  lemma StageKeeps(st: State, i: nat, stage: Stage)
    requires Inv(st) && i < |st.hands|
    ensures Inv(SetStage(st, i, stage))
  {
    var after := SetStage(st, i, stage);
    assert forall h :: h in after.hands ==>
          exists j :: 0 <= j < |st.hands| && st.hands[j] in st.hands && st.hands[j].item == h.item;
    forall h | h in st.hands ensures InHand(after, h.item.sequence) {
      var j :| 0 <= j < |st.hands| && st.hands[j] == h;
      assert after.hands[j] in after.hands && after.hands[j].item == h.item;
    }
    Stays(st, after, 0);
  }

  // A hand's packet moves into the pending queue or the map, or is dropped.
  lemma LetGoKeeps(st: State, i: nat, after: State)
    requires Inv(st) && i < |st.hands|
    requires var item := st.hands[i].item;
             || after == st.(client := st.client.(pending := st.client.pending[item.sequence := item.payload]),
                             hands := Without(st.hands, i))
             || after == st.(client := Register(st.client, item.sequence, item.payload), hands := Without(st.hands, i),
                             data := st.data + {item})
             || after == st.(hands := Without(st.hands, i), dropped := true)
    ensures Inv(after)
  {
    WithoutKeeps(st.hands, i);
    assert st.hands[i] in st.hands;
    forall h | h in st.hands && h.item.sequence != st.hands[i].item.sequence ensures InHand(after, h.item.sequence) {
      assert h in after.hands;
    }
    Stays(st, after, st.hands[i].item.sequence);
  }

  lemma SameHandsStay(st: State, after: State)
    requires after.hands == st.hands
    ensures forall h :: h in st.hands ==> InHand(after, h.item.sequence)
  {
    forall h | h in st.hands ensures InHand(after, h.item.sequence) { assert h in after.hands; }
  }

  lemma FlushPopKeeps(st: State, handler: Handler)
    requires Inv(st) && Enabled(st, FlushPop)
    ensures Inv(Apply(st, FlushPop, handler))
  {
    hide Serves, AllHandled, AcksTrue;
    var after := Apply(st, FlushPop, handler);
    SameHandsStay(st, after);
    HasKey(st.client.pending);
    Stays(st, after, Least(st.client.pending.Keys));
  }

  lemma FlushKeeps(st: State, step: Step, handler: Handler)
    requires Inv(st) && Enabled(st, step)
    requires step.FlushInsert? || step.FlushLoseAllocation? || step.FlushStop?
    ensures Inv(Apply(st, step, handler))
  {
    hide Serves, AllHandled, AcksTrue;
    var after := Apply(st, step, handler);
    SameHandsStay(st, after);
    Stays(st, after, if step.FlushStop? then 0 else st.flush.item.sequence);
  }

  lemma AckKeeps(st: State, a: Acknowledgement)
    requires Inv(st) && Enabled(st, Ack(a))
    ensures Inv(TakeAck(st, a))
  {
    hide Serves, AllHandled, AcksTrue;
    var after := TakeAck(st, a);
    SameHandsStay(st, after);
    assert !st.falseAck ==> Handled(after, a.sequence);
    assert NothingLost(after) by {
      hide Original, Gate;
      Stays(st, after, a.sequence);
    }
    assert Original(after) by { hide NothingLost, AcksHandled, Gate; }
  }

  lemma DeliverKeeps(st: State, item: Item, handler: Handler)
    requires Inv(st) && Enabled(st, Deliver(item))
    ensures Inv(Apply(st, Deliver(item), handler))
  {
    hide OnRecvPacket;
    var after := Apply(st, Deliver(item), handler);
    ReceiveServes(st.intake, st.client.sent, item.sequence, handler);
    SameHands(st, after);
    assert forall s {:trigger Handled(after, s)} :: Handled(st, s) ==> Handled(after, s);
    Stays(st, after, 0);
  }

  lemma OtherKeeps(st: State, step: Step, handler: Handler)
    requires Inv(st) && Enabled(st, step)
    requires step.Transmit? || step.GiveUp? || step.Reply? || step.ServerTransition? || step.ServerFlag?
    ensures Inv(Apply(st, step, handler))
  {
    var after := Apply(st, step, handler);
    SameHands(st, after);
    Stays(st, after, 0);
  }

  lemma Keeps(st: State, step: Step, handler: Handler)
    requires Inv(st) && Enabled(st, step)
    ensures Inv(Apply(st, step, handler))
  {
    hide Inv;
    match step
    case Assign(p) => AssignKeeps(st, p);
    case ReadWindow(i) => StageKeeps(st, i, if st.client.window == 0 then ToPending else Windowed(st.client.window));
    case CountOutstanding(i) =>
      StageKeeps(st, i, if Outstanding(st.client) >= st.hands[i].stage.window then ToPending else ToRegister);
    case PushPending(i) => LetGoKeeps(st, i, Apply(st, step, handler));
    case Insert(i) => LetGoKeeps(st, i, Apply(st, step, handler));
    case LoseAllocation(i) => LetGoKeeps(st, i, Apply(st, step, handler));
    case Ack(a) => AckKeeps(st, a);
    case Deliver(item) => DeliverKeeps(st, item, handler);
    case FlushPop => FlushPopKeeps(st, handler);
    case FlushInsert => FlushKeeps(st, step, handler);
    case FlushLoseAllocation => FlushKeeps(st, step, handler);
    case FlushStop => FlushKeeps(st, step, handler);
    case Transmit(_) => OtherKeeps(st, step, handler);
    case GiveUp => OtherKeeps(st, step, handler);
    case Reply(_) => OtherKeeps(st, step, handler);
    case ServerTransition => OtherKeeps(st, step, handler);
    case ServerFlag => OtherKeeps(st, step, handler);
  }
}
