/**
 Head-of-line blocking in the client: SendPacket does not look at the pending queue, so later packets
 can fill the window while the one the server waits for is still pending. Exactly when that is final.
 */
module ClientStall {
  import opened Common
  import opened Sequences
  import opened ReceiveWindow
  import opened ReceivePath
  import ReceiveLockstep
  import opened ClientSend
  import opened ClientToServer
  import opened ClientToServerRuns

  // --- Packets that have not been sent yet ---

  predicate Waiting(st: State, x: nat) {
    x in st.client.pending || InHand(st, x)
  }

  predicate Unseen(st: Intake, x: nat) {
    x > |st.calls| && (x < HALF ==> x !in st.held)
  }

  // No copy of a waiting packet is anywhere else.
  ghost predicate Untouched(st: State) {
    forall x {:trigger Waiting(st, x)} :: Waiting(st, x) ==>
      x !in st.client.unacked && (forall item :: item in st.data ==> item.sequence != x) && Unseen(st.intake, x)
  }

  // Each waiting packet waits in one place.
  ghost predicate Apart(st: State) {
    && (forall i, j :: 0 <= i < j < |st.hands| ==> st.hands[i].item.sequence != st.hands[j].item.sequence)
    && (forall h :: h in st.hands ==> h.item.sequence !in st.client.pending)
    && (st.flush.Registering? ==>
          && st.flush.item.sequence !in st.client.pending
          && forall h :: h in st.hands ==> h.item.sequence != st.flush.item.sequence)
  }

  ghost predicate Unsent(st: State) {
    Untouched(st) && Apart(st)
  }

  lemma ProcessUnseen(st: Intake, x: nat, p: Payload, handler: Handler)
    requires Unseen(st, x) && st.next == 1 + |st.calls| && x != st.next && x < HALF
    ensures var r := ProcessAndAdvance(st, st.next, p, handler);
            Unseen(r.state, x) && r.state.next == 1 + |r.state.calls|
  {
    hide ProcessAndAdvance;
    var r := ProcessAndAdvance(st, st.next, p, handler);
  }

  lemma {:induction false} DrainUnseen(st: Intake, x: nat, handler: Handler)
    requires Unseen(st, x) && st.next == 1 + |st.calls| && x < HALF
    ensures Unseen(ProcessHoldingPacket(st, handler).state, x)
    decreases |st.held|
  {
    hide ProcessAndAdvance;
    if st.next in st.held {
      var taken := st.(held := st.held - {st.next});
      RemoveShrinks(st.held, st.next);
      RemoveShrinks(taken.held, st.next);
      ProcessUnseen(taken, x, st.held[st.next], handler);
      var step := ProcessAndAdvance(taken, st.next, st.held[st.next], handler);
      if step.ok { DrainUnseen(step.state, x, handler); }
    }
  }

  // Receiving another packet leaves an unseen one unseen.
  lemma ReceiveUnseen(st: Intake, x: nat, s: Sequence, p: Payload, handler: Handler)
    requires Unseen(st, x) && st.next == 1 + |st.calls| && x < HALF && x != s
    ensures Unseen(OnRecvPacket(st, s, p, handler).state, x)
  {
    hide ProcessAndAdvance, ProcessHoldingPacket, Distance;
    DistanceZero(s, st.next);
    if s == st.next {
      ProcessUnseen(st, x, p, handler);
      var first := ProcessAndAdvance(st, s, p, handler);
      if first.ok { DrainUnseen(first.state, x, handler); }
    }
  }

  // Steps after which nothing more is waiting, and nothing that waits is sent or seen.
  lemma FewerWaiting(st: State, after: State)
    requires Untouched(st) && after.intake == st.intake
    requires forall item :: item in after.data ==> item in st.data || !Waiting(after, item.sequence)
    requires forall x {:trigger Waiting(after, x)} :: Waiting(after, x) ==> Waiting(st, x) && x !in after.client.unacked
    ensures Untouched(after)
  {
  }

  lemma AssignUnsent(st: State, p: Payload, handler: Handler)
    requires Inv(st) && Unsent(st) && Enabled(st, Assign(p))
    ensures Unsent(Apply(st, Assign(p), handler))
  {
    hide NothingLost, AcksHandled;
    var after := Apply(st, Assign(p), handler);
    forall x | Waiting(after, x) ensures x == |after.client.sent| || Waiting(st, x) {
      if InHand(after, x) && !(after.flush.Registering? && after.flush.item.sequence == x) {
        var h :| h in after.hands && h.item.sequence == x;
        if h.item.sequence != |after.client.sent| { assert h in st.hands; }
      }
    }
  }

  lemma StageUnsent(st: State, i: nat, stage: Stage)
    requires Unsent(st) && i < |st.hands|
    ensures Unsent(SetStage(st, i, stage))
  {
    var after := SetStage(st, i, stage);
    forall h | h in after.hands ensures exists g :: g in st.hands && g.item == h.item {
      var j :| 0 <= j < |after.hands| && after.hands[j] == h;
      assert st.hands[j] in st.hands && st.hands[j].item == h.item;
    }
    forall x | Waiting(after, x) ensures Waiting(st, x) {
      if InHand(after, x) && !(after.flush.Registering? && after.flush.item.sequence == x) {
        var h :| h in after.hands && h.item.sequence == x;
        var g :| g in st.hands && g.item == h.item;
      }
    }
    FewerWaiting(st, after);
  }

  lemma OthersApart(hands: seq<Hand>, i: nat)
    requires i < |hands| && forall j, k :: 0 <= j < k < |hands| ==> hands[j].item.sequence != hands[k].item.sequence
    ensures var rest := Without(hands, i);
            && (forall h :: h in rest ==> h in hands && h.item.sequence != hands[i].item.sequence)
            && (forall j, k :: 0 <= j < k < |rest| ==> rest[j].item.sequence != rest[k].item.sequence)
  {
    var rest := Without(hands, i);
    assert forall j :: 0 <= j < |rest| ==> rest[j] == hands[if j < i then j else j + 1];
  }

  // A hand hands its packet over.
  lemma LetGoUnsent(st: State, i: nat, after: State)
    requires Unsent(st) && i < |st.hands|
    requires var item := st.hands[i].item;
             || after == st.(client := st.client.(pending := st.client.pending[item.sequence := item.payload]),
                             hands := Without(st.hands, i))
             || after == st.(client := Register(st.client, item.sequence, item.payload), hands := Without(st.hands, i),
                             data := st.data + {item})
             || after == st.(hands := Without(st.hands, i), dropped := true)
    ensures Unsent(after)
  {
    hide Without, Unseen;
    var s := st.hands[i].item.sequence;
    assert st.hands[i] in st.hands && Waiting(st, s);
    OthersApart(st.hands, i);
    forall x | Waiting(after, x) ensures Waiting(st, x) && x !in after.client.unacked {
      if InHand(after, x) && !(after.flush.Registering? && after.flush.item.sequence == x) {
        var h :| h in after.hands && h.item.sequence == x;
        assert h in st.hands && x != s;
      }
      assert Waiting(st, x);
    }
    assert after.client.pending == st.client.pending ==> !Waiting(after, s);
    FewerWaiting(st, after);
  }

  lemma FlushUnsent(st: State, step: Step, handler: Handler)
    requires Unsent(st) && Enabled(st, step)
    requires step.FlushPop? || step.FlushInsert? || step.FlushLoseAllocation? || step.FlushStop?
    ensures Unsent(Apply(st, step, handler))
  {
    var after := Apply(st, step, handler);
    if step.FlushPop? {
      HasKey(st.client.pending);
      assert forall h :: h in st.hands ==> h.item.sequence !in st.client.pending;
    }
    if st.flush.Registering? { assert Waiting(st, st.flush.item.sequence); }
    forall x | Waiting(after, x) ensures Waiting(st, x) && x !in after.client.unacked {
      if InHand(after, x) && !(after.flush.Registering? && after.flush.item.sequence == x) {
        var h :| h in after.hands && h.item.sequence == x;
        assert h in st.hands && InHand(st, x);
      }
      assert Waiting(st, x);
    }
    if step.FlushInsert? { assert !Waiting(after, st.flush.item.sequence); }
    FewerWaiting(st, after);
  }

  lemma AckUnsent(st: State, a: Acknowledgement)
    requires Unsent(st) && Enabled(st, Ack(a))
    ensures Unsent(TakeAck(st, a))
  {
    var after := TakeAck(st, a);
    forall x | Waiting(after, x) ensures Waiting(st, x) {}
    FewerWaiting(st, after);
  }

  lemma TransmitUnsent(st: State, s: nat, handler: Handler)
    requires Unsent(st) && Enabled(st, Transmit(s))
    ensures Unsent(Apply(st, Transmit(s), handler))
  {
    var after := Apply(st, Transmit(s), handler);
    forall x | Waiting(after, x) ensures Waiting(st, x) {}
  }

  lemma DeliverUnsent(st: State, item: Item, handler: Handler)
    requires Inv(st) && Unsent(st) && Enabled(st, Deliver(item))
    ensures Unsent(Apply(st, Deliver(item), handler))
  {
    hide OnRecvPacket, NothingLost, AcksHandled;
    var after := Apply(st, Deliver(item), handler);
    forall x | Waiting(after, x) ensures Waiting(st, x) && Unseen(after.intake, x) {
      assert Waiting(st, x);
      WaitingSmall(st, x);
      ReceiveUnseen(st.intake, x, item.sequence, item.payload, handler);
    }
  }

  lemma WaitingSmall(st: State, x: nat)
    requires Inv(st) && Waiting(st, x)
    ensures 1 <= x <= |st.client.sent| < HALF
  {
    hide NothingLost, AcksHandled;
    if x !in st.client.pending && !(st.flush.Registering? && st.flush.item.sequence == x) {
      var h :| h in st.hands && h.item.sequence == x;
    }
  }

  lemma SameUnsent(st: State, after: State)
    requires Unsent(st) && after.client == st.client && after.hands == st.hands && after.flush == st.flush
    requires after.data == st.data && after.intake == st.intake
    ensures Unsent(after)
  {
    forall x | Waiting(after, x) ensures Waiting(st, x) {}
  }

  lemma UnsentKeeps(st: State, step: Step, handler: Handler)
    requires Inv(st) && Unsent(st) && Enabled(st, step)
    ensures Unsent(Apply(st, step, handler))
  {
    hide Inv, Unsent, OnRecvPacket;
    match step
    case Assign(p) => AssignUnsent(st, p, handler);
    case ReadWindow(i) => StageUnsent(st, i, if st.client.window == 0 then ToPending else Windowed(st.client.window));
    case CountOutstanding(i) =>
      StageUnsent(st, i, if Outstanding(st.client) >= st.hands[i].stage.window then ToPending else ToRegister);
    case PushPending(i) => LetGoUnsent(st, i, Apply(st, step, handler));
    case Insert(i) => LetGoUnsent(st, i, Apply(st, step, handler));
    case LoseAllocation(i) => LetGoUnsent(st, i, Apply(st, step, handler));
    case Ack(a) => AckUnsent(st, a);
    case Deliver(item) => DeliverUnsent(st, item, handler);
    case FlushPop => FlushUnsent(st, step, handler);
    case FlushInsert => FlushUnsent(st, step, handler);
    case FlushLoseAllocation => FlushUnsent(st, step, handler);
    case FlushStop => FlushUnsent(st, step, handler);
    case Transmit(s) => TransmitUnsent(st, s, handler);
    case GiveUp => SameUnsent(st, Apply(st, step, handler));
    case Reply(_) => SameUnsent(st, Apply(st, step, handler));
    case ServerTransition => SameUnsent(st, Apply(st, step, handler));
    case ServerFlag => SameUnsent(st, Apply(st, step, handler));
  }

  // --- Blocked ---

  // The sequence the server waits for.
  function Expected(st: State): nat {
    |st.intake.calls| + 1
  }

  // Packets in the client's map that the server cannot take before the one it waits for.
  function Ahead(st: State): set<nat> {
    set s | s in st.client.unacked && s > Expected(st)
  }

  // The server waits for a pending packet, and packets ahead of it fill the window.
  ghost predicate Blocked(st: State, size: nat) {
    var e := Expected(st);
    && e in st.client.pending && e !in st.client.unacked
    && (forall item :: item in st.data ==> item.sequence != e)
    && (forall h :: h in st.hands ==>
          h.item.sequence != e && (h.stage.Numbered? || h.stage == Windowed(size) || h.stage.ToPending?))
    && (st.flush.Idle? || st.flush == Flushing(size))
    && st.client.window == size && |Ahead(st)| >= size && |st.client.unacked| < 256
    && (forall a :: a in st.acks ==> a.sequence < e && a.window == size)
  }

  // Replies, also those of a server that takes nothing in any more.
  ghost predicate RepliesKnown(st: State, size: nat) {
    forall r :: r in st.intake.replies ==> r.sequence < Expected(st) && r.advertised == size
  }

  ghost predicate BlockedInv(st: State, size: nat) {
    Inv(st) && WindowInv(st, size) && Blocked(st, size) && RepliesKnown(st, size) && !st.lateFailure
  }

  lemma NoRoom(st: State, size: nat)
    requires |Ahead(st)| >= size && |st.client.unacked| < 256
    ensures Outstanding(st.client) >= size
  {
    assert Ahead(st) <= st.client.unacked.Keys;
    SubsetSize(Ahead(st), st.client.unacked.Keys);
  }

  lemma {:induction false} SubsetSize(a: set<nat>, b: set<nat>)
    requires a <= b
    ensures |a| <= |b|
    decreases a
  {
    if a != {} {
      var x :| x in a;
      SubsetSize(a - {x}, b - {x});
    }
  }

  lemma NotDue(st: Intake, sent: seq<Payload>, s: nat, p: Payload, handler: Handler)
    requires Serves(st, sent) && AllHandled(st) && |st.flags| < 256
    requires ReceiveLockstep.Settled(st, 1)
    requires 1 <= s < HALF && s != st.next
    ensures var r := OnRecvPacket(st, s, p, handler);
            r.ok && r.state.calls == st.calls && |r.state.flags| == |st.flags|
  {
    hide ReceiveLockstep.InStep, ProcessAndAdvance, ProcessHoldingPacket;
    assert Distance(s, st.next) == s - st.next;
    if Accepts(st.windowStart, |st.flags|, s) && s !in st.held && s > st.next {
      ReceiveLockstep.NeverFull(st, 1, s);
    }
  }

  lemma RepliesFull(st: Intake)
    requires AllHandled(st) && ReceiveLockstep.FullyAdvertised(st)
    ensures forall r :: r in st.replies ==> r.advertised == |st.flags|
  {
    HandledMeansAll(st);
  }

  lemma BlockedStage(st: State, i: nat, stage: Stage, size: nat)
    requires Blocked(st, size) && i < |st.hands| && (stage.Numbered? || stage == Windowed(size) || stage.ToPending?)
    ensures Blocked(SetStage(st, i, stage), size)
  {
    assert st.hands[i] in st.hands;
    assert Ahead(SetStage(st, i, stage)) == Ahead(st);
  }

  lemma BlockedAssign(st: State, p: Payload, size: nat, handler: Handler)
    requires Inv(st) && Blocked(st, size) && Enabled(st, Assign(p))
    ensures Blocked(Apply(st, Assign(p), handler), size)
  {
    hide NothingLost, AcksHandled, Serves, AllHandled;
    assert Ahead(Apply(st, Assign(p), handler)) == Ahead(st);
  }

  lemma BlockedPush(st: State, i: nat, size: nat, handler: Handler)
    requires Blocked(st, size) && Enabled(st, PushPending(i))
    ensures Blocked(Apply(st, PushPending(i), handler), size)
  {
    assert Ahead(Apply(st, PushPending(i), handler)) == Ahead(st);
    WithoutKeeps(st.hands, i);
  }

  lemma BlockedHands(st: State, step: Step, size: nat, handler: Handler)
    requires Inv(st) && Blocked(st, size) && Enabled(st, step)
    requires step.Assign? || step.ReadWindow? || step.CountOutstanding? || step.PushPending?
    ensures Blocked(Apply(st, step, handler), size)
  {
    hide Inv;
    match step
    case Assign(p) => BlockedAssign(st, p, size, handler);
    case PushPending(i) => BlockedPush(st, i, size, handler);
    case ReadWindow(i) => BlockedStage(st, i, if st.client.window == 0 then ToPending else Windowed(size), size);
    case CountOutstanding(i) =>
      assert st.hands[i] in st.hands;
      NoRoom(st, size);
      BlockedStage(st, i, ToPending, size);
  }

  lemma NoneToRegister(st: State, size: nat, i: nat)
    requires Blocked(st, size) && i < |st.hands|
    ensures !st.hands[i].stage.ToRegister?
  {
    assert st.hands[i] in st.hands;
  }

  lemma BlockedRest(st: State, step: Step, size: nat, handler: Handler)
    requires Blocked(st, size) && RepliesKnown(st, size) && Enabled(st, step)
    requires || step.FlushPop? || step.FlushInsert? || step.FlushLoseAllocation? || step.FlushStop? || step.Transmit?
             || step.GiveUp? || step.Reply? || step.ServerTransition? || step.ServerFlag?
    ensures Blocked(Apply(st, step, handler), size) && RepliesKnown(Apply(st, step, handler), size)
    ensures Apply(st, step, handler).intake.calls == st.intake.calls
  {
    NoRoom(st, size);
    assert Ahead(Apply(st, step, handler)) == Ahead(st);
  }

  lemma BlockedDeliver(st: State, item: Item, size: nat, handler: Handler)
    requires BlockedInv(st, size) && Enabled(st, Deliver(item))
    ensures var after := Apply(st, Deliver(item), handler);
            && Blocked(after, size) && RepliesKnown(after, size) && after.intake.calls == st.intake.calls
            && !after.lateFailure
  {
    hide ReceiveLockstep.Settled, ReceiveLockstep.FullyAdvertised, OnRecvPacket, NothingLost, AcksHandled;
    NotDue(st.intake, st.client.sent, item.sequence, item.payload, handler);
    var after := Apply(st, Deliver(item), handler);
    DeliverKeeps(st, item, handler);
    WindowKeeps(st, Deliver(item), size, handler);
    RepliesFull(after.intake);
    assert Ahead(after) == Ahead(st);
  }

  lemma SameServer(st: State, after: State, size: nat)
    requires RepliesKnown(st, size) && after.intake == st.intake
    ensures RepliesKnown(after, size)
  {
  }

  lemma AckBlocked(st: State, a: Acknowledgement, size: nat)
    requires Blocked(st, size) && RepliesKnown(st, size) && Enabled(st, Ack(a))
    ensures Blocked(TakeAck(st, a), size) && RepliesKnown(TakeAck(st, a), size)
  {
    var after := TakeAck(st, a);
    assert a.sequence < Expected(st) && a.window == size && st.client.window == size;
    SameServer(st, after, size);
    hide Blocked, RepliesKnown, Expected;
    AckedBlocked(st, after, a.sequence, size);
  }

  lemma AckedBlocked(st: State, after: State, s: nat, size: nat)
    requires Blocked(st, size) && s < Expected(st)
    requires after.intake == st.intake && after.hands == st.hands && after.data == st.data && after.acks == st.acks
    requires after.client.pending == st.client.pending && after.client.window == size
    requires after.flush.Idle? || after.flush == Flushing(size)
    requires after.client.unacked == st.client.unacked || after.client.unacked == st.client.unacked - {s}
    ensures Blocked(after, size)
  {
    StillAhead(st, after, s);
    hide Ahead;
  }

  lemma StillAhead(st: State, after: State, s: nat)
    requires after.intake == st.intake && s < Expected(st)
    requires after.client.unacked == st.client.unacked || after.client.unacked == st.client.unacked - {s}
    ensures Ahead(after) == Ahead(st) && |after.client.unacked| <= |st.client.unacked|
  {
    assert after.client.unacked.Keys <= st.client.unacked.Keys;
    SubsetSize(after.client.unacked.Keys, st.client.unacked.Keys);
  }

  lemma BlockedStep(st: State, step: Step, size: nat, handler: Handler)
    requires BlockedInv(st, size) && Enabled(st, step)
    ensures var after := Apply(st, step, handler);
            && Blocked(after, size) && RepliesKnown(after, size) && after.intake.calls == st.intake.calls
            && !after.lateFailure
  {
    hide Blocked, RepliesKnown, Inv, WindowInv, OnRecvPacket;
    match step
    case Deliver(item) => BlockedDeliver(st, item, size, handler);
    case Ack(a) => AckBlocked(st, a, size);
    case Assign(_) => BlockedHands(st, step, size, handler); SameServer(st, Apply(st, step, handler), size);
    case ReadWindow(_) => BlockedHands(st, step, size, handler); SameServer(st, Apply(st, step, handler), size);
    case CountOutstanding(_) => BlockedHands(st, step, size, handler); SameServer(st, Apply(st, step, handler), size);
    case PushPending(_) => BlockedHands(st, step, size, handler); SameServer(st, Apply(st, step, handler), size);
    case Insert(i) => NoneToRegister(st, size, i);
    case LoseAllocation(i) => NoneToRegister(st, size, i);
    case _ => BlockedRest(st, step, size, handler);
  }

  lemma {:induction false} BlockedForever(st: State, steps: seq<Step>, end: State, size: nat, handler: Handler)
    requires BlockedInv(st, size) && Run(st, steps, end, handler)
    ensures end.intake.calls == st.intake.calls
    decreases |steps|
  {
    hide Inv, WindowInv, Blocked, RepliesKnown, Apply, Enabled;
    if steps != [] {
      BlockedStep(st, steps[0], size, handler);
      Keeps(st, steps[0], handler);
      WindowKeeps(st, steps[0], size, handler);
      BlockedForever(Apply(st, steps[0], handler), steps[1..], end, size, handler);
    }
  }

  // --- Progress ---

  // Some run handles another packet.
  ghost predicate CanProgress(st: State, handler: Handler) {
    exists end :: Reaches(st, end, handler) && |end.intake.calls| > |st.intake.calls|
  }

  ghost predicate Good(st: State, size: nat) {
    Inv(st) && WindowInv(st, size) && Unsent(st) && Serving(st) && !st.stopped && size >= 1
  }

  lemma GoodStep(st: State, step: Step, size: nat, handler: Handler)
    requires Good(st, size) && Enabled(st, step) && Serving(Apply(st, step, handler))
    requires !Apply(st, step, handler).stopped
    ensures Good(Apply(st, step, handler), size)
  {
    hide Inv, WindowInv, Unsent, Apply, Enabled;
    Keeps(st, step, handler);
    WindowKeeps(st, step, size, handler);
    UnsentKeeps(st, step, handler);
  }

  // The packet the server waits for gets there when the client retransmits it.
  lemma ExpectedHandled(start: State, st: State, size: nat, handler: Handler)
    requires Good(st, size) && Reaches(start, st, handler) && Expected(st) in st.client.unacked
    ensures exists end :: Reaches(start, end, handler) && |end.intake.calls| > |st.intake.calls|
  {
    hide Reaches, Unsent, OnRecvPacket;
    var e := Expected(st);
    Then(start, st, Transmit(e), handler);
    var sent := Apply(st, Transmit(e), handler);
    var item := Item(e, st.client.unacked[e]);
    Then(start, sent, Deliver(item), handler);
    var end := Apply(sent, Deliver(item), handler);
    DueHandled(st.intake, item.payload, handler);
  }

  lemma {:induction false} DrainGrows(st: Intake, handler: Handler)
    ensures |ProcessHoldingPacket(st, handler).state.calls| >= |st.calls|
    decreases |st.held|
  {
    hide ProcessAndAdvance;
    if st.next in st.held {
      var taken := st.(held := st.held - {st.next});
      RemoveShrinks(st.held, st.next);
      RemoveShrinks(taken.held, st.next);
      var step := ProcessAndAdvance(taken, st.next, st.held[st.next], handler);
      if step.ok { DrainGrows(step.state, handler); }
    }
  }

  lemma DueHandled(st: Intake, p: Payload, handler: Handler)
    requires AllHandled(st) && ReceiveLockstep.Settled(st, 1) && |st.flags| >= 1
    ensures |OnRecvPacket(st, st.next, p, handler).state.calls| > |st.calls|
  {
    hide ProcessAndAdvance, ProcessHoldingPacket;
    HandledMeansAll(st);
    DistanceZero(st.next, st.next);
    DistanceZero(st.windowStart, st.next);
    var first := ProcessAndAdvance(st, st.next, p, handler);
    if first.ok { DrainGrows(first.state, handler); }
  }

  // A packet the server has handled is retransmitted, and acknowledged at last.
  ghost predicate AckedOnce(st: State, after: State, s: nat, size: nat) {
    && after.client == st.client.(unacked := st.client.unacked - {s})
    && after.flush == Flushing(size) && after.hands == st.hands
    && after.intake.calls == st.intake.calls
  }

  lemma OldDelivered(st: State, s: nat, size: nat, handler: Handler)
    requires Good(st, size) && 1 <= s < Expected(st) && s in st.client.unacked
    ensures var sent := Apply(st, Transmit(s), handler);
            var item := Item(s, st.client.unacked[s]);
            && Enabled(sent, Deliver(item))
            && var after := Apply(sent, Deliver(item), handler);
               && Serving(after) && !after.stopped && after.client == st.client && after.hands == st.hands
               && after.flush == st.flush && after.intake.calls == st.intake.calls
               && exists r :: r in after.intake.replies && r.sequence == s
  {
    hide ReceiveLockstep.Settled, ReceiveLockstep.FullyAdvertised, OnReceive, Untouched, Apart;
    assert Distance(s, st.intake.next) == s - st.intake.next;
    var sent := Apply(st, Transmit(s), handler);
    var after := Apply(sent, Deliver(Item(s, st.client.unacked[s])), handler);
    var r := after.intake.replies[|st.intake.replies|];
    assert r in after.intake.replies && r.sequence == s;
  }

  lemma AckOld(start: State, st: State, s: nat, size: nat, handler: Handler) returns (after: State)
    requires Good(st, size) && Reaches(start, st, handler) && st.flush.Idle?
    requires 1 <= s < Expected(st) && s in st.client.unacked
    ensures Good(after, size) && Reaches(start, after, handler) && AckedOnce(st, after, s, size)
  {
    hide Reaches, Inv, WindowInv, Unsent, OnRecvPacket;
    OldDelivered(st, s, size, handler);
    Then(start, st, Transmit(s), handler);
    GoodStep(st, Transmit(s), size, handler);
    var sent := Apply(st, Transmit(s), handler);
    var item := Item(s, st.client.unacked[s]);
    Then(start, sent, Deliver(item), handler);
    GoodStep(sent, Deliver(item), size, handler);
    var delivered := Apply(sent, Deliver(item), handler);
    var r :| r in delivered.intake.replies && r.sequence == s;
    GoodReplies(delivered, size);
    Then(start, delivered, Step.Reply(r), handler);
    GoodStep(delivered, Step.Reply(r), size, handler);
    var replied := Apply(delivered, Step.Reply(r), handler);
    var ack := Acknowledgement(s, size);
    Then(start, replied, Ack(ack), handler);
    GoodStep(replied, Ack(ack), size, handler);
    after := Apply(replied, Ack(ack), handler);
    GoodSent(st, s, size);
  }

  lemma GoodReplies(st: State, size: nat)
    requires Good(st, size)
    ensures forall r :: r in st.intake.replies ==> r.advertised == size
  {
    hide ReceiveLockstep.Settled, ReceiveLockstep.FullyAdvertised, Unsent;
    RepliesFull(st.intake);
  }

  lemma GoodSent(st: State, s: nat, size: nat)
    requires Good(st, size) && s in st.client.unacked
    ensures 1 <= s <= |st.client.sent| && st.client.window == size
  {
  }

  lemma PendingFromExpected(st: State, size: nat)
    requires Good(st, size) && Expected(st) in st.client.pending
    ensures st.client.pending != map[] && st.client.pending.Keys != {} && Least(st.client.pending.Keys) == Expected(st)
  {
    hide Inv, WindowInv;
    HasKey(st.client.pending);
    var least := Least(st.client.pending.Keys);
    assert Waiting(st, least);
  }

  // With room in the window the flush sends the packet the server waits for.
  lemma FlushReaches(start: State, st: State, size: nat, handler: Handler)
    requires Good(st, size) && Reaches(start, st, handler) && st.flush == Flushing(size)
    requires Expected(st) in st.client.pending && Expected(st) !in st.client.unacked && Outstanding(st.client) < size
    ensures exists end :: Reaches(start, end, handler) && |end.intake.calls| > |st.intake.calls|
  {
    hide Reaches, Inv, WindowInv, Unsent;
    PendingFromExpected(st, size);
    Then(start, st, FlushPop, handler);
    GoodStep(st, FlushPop, size, handler);
    var popped := Apply(st, FlushPop, handler);
    Then(start, popped, FlushInsert, handler);
    GoodStep(popped, FlushInsert, size, handler);
    ExpectedHandled(start, Apply(popped, FlushInsert, handler), size, handler);
  }

  lemma SomeOld(st: State, size: nat) returns (s: nat)
    requires Good(st, size) && |Ahead(st)| < |st.client.unacked| && Expected(st) !in st.client.unacked
    ensures s in st.client.unacked && 1 <= s < Expected(st)
  {
    hide WindowInv, Unsent;
    if st.client.unacked.Keys <= Ahead(st) { SubsetSize(st.client.unacked.Keys, Ahead(st)); }
    s :| s in st.client.unacked.Keys && s !in Ahead(st);
  }

  lemma {:induction false} OldAcksMakeRoom(start: State, st: State, size: nat, handler: Handler)
    requires Good(st, size) && Reaches(start, st, handler) && st.flush.Idle?
    requires Expected(st) in st.client.pending && Expected(st) !in st.client.unacked
    requires |Ahead(st)| < size <= |st.client.unacked| < 256
    ensures exists end :: Reaches(start, end, handler) && |end.intake.calls| > |st.intake.calls|
    decreases |st.client.unacked|
  {
    hide Reaches, Good;
    var s := SomeOld(st, size);
    var acked := AckOld(start, st, s, size, handler);
    assert Ahead(acked) == Ahead(st);
    assert acked.client.unacked.Keys == st.client.unacked.Keys - {s};
    if Outstanding(acked.client) < size {
      FlushReaches(start, acked, size, handler);
    } else {
      Then(start, acked, FlushStop, handler);
      var next := Apply(acked, FlushStop, handler);
      StillGood(acked, size, handler);
      OldAcksMakeRoom(start, next, size, handler);
    }
  }

  lemma StillGood(st: State, size: nat, handler: Handler)
    requires Good(st, size) && Enabled(st, FlushStop)
    ensures Good(Apply(st, FlushStop, handler), size)
  {
    hide Inv, WindowInv, Unsent;
    GoodStep(st, FlushStop, size, handler);
  }

  lemma {:induction false} RunUnsent(st: State, steps: seq<Step>, end: State, handler: Handler)
    requires Inv(st) && Unsent(st) && Run(st, steps, end, handler)
    ensures Unsent(end)
    decreases |steps|
  {
    hide Inv, Unsent, Enabled, Apply;
    if steps != [] {
      Keeps(st, steps[0], handler);
      UnsentKeeps(st, steps[0], handler);
      RunUnsent(Apply(st, steps[0], handler), steps[1..], end, handler);
    }
  }

  lemma InitialUnsent(size: nat)
    ensures Unsent(Initial(size))
  {
  }

  lemma QuietBlocked(st: State, size: nat)
    requires Good(st, size) && Expected(st) in st.client.pending && Expected(st) !in st.client.unacked
    requires st.hands == [] && st.flush.Idle? && |Ahead(st)| >= size && |st.client.unacked| < 256
    ensures BlockedInv(st, size)
  {
    assert Waiting(st, Expected(st));
    RepliesFull(st.intake);
  }

  // --- Before any handler has run, only a full window sends packets to the pending queue ---

  ghost predicate Early(st: State, size: nat) {
    && (st.intake.calls == [] ==>
          && st.client.window == size && st.flush.Idle?
          && (forall h :: h in st.hands && h.stage.Windowed? ==> h.stage.window == size)
          && (|st.client.unacked| < size ==>
                st.client.pending == map[] && forall h :: h in st.hands ==> !h.stage.ToPending?))
    && (AllHandled(st.intake) ==> |st.intake.replies| >= |st.intake.calls|)
  }

  lemma ProcessReplies(st: Intake, p: Payload, handler: Handler)
    ensures var r := ProcessAndAdvance(st, st.next, p, handler).state;
            AllHandled(r) && (AllHandled(st) ==> |st.replies| >= |st.calls|) ==> |r.replies| >= |r.calls|
  {
    hide Mark;
    var r := ProcessAndAdvance(st, st.next, p, handler);
    if AllHandled(r.state) {
      assert r.state.calls[|st.calls|].handled;
      forall i | 0 <= i < |st.calls| ensures st.calls[i].handled { assert r.state.calls[i] == st.calls[i]; }
    }
  }

  lemma {:induction false} DrainReplies(st: Intake, handler: Handler)
    requires AllHandled(st) ==> |st.replies| >= |st.calls|
    ensures var r := ProcessHoldingPacket(st, handler).state; AllHandled(r) ==> |r.replies| >= |r.calls|
    decreases |st.held|
  {
    hide ProcessAndAdvance;
    if st.next in st.held {
      var taken := st.(held := st.held - {st.next});
      RemoveShrinks(st.held, st.next);
      RemoveShrinks(taken.held, st.next);
      ProcessReplies(taken, st.held[st.next], handler);
      var step := ProcessAndAdvance(taken, st.next, st.held[st.next], handler);
      if step.ok { DrainReplies(step.state, handler); }
    }
  }

  lemma ReceiveReplies(st: Intake, s: Sequence, p: Payload, handler: Handler)
    requires AllHandled(st) ==> |st.replies| >= |st.calls|
    ensures var r := OnRecvPacket(st, s, p, handler).state; AllHandled(r) ==> |r.replies| >= |r.calls|
  {
    hide ProcessAndAdvance, ProcessHoldingPacket;
    DistanceZero(s, st.next);
    if s == st.next {
      ProcessReplies(st, p, handler);
      var first := ProcessAndAdvance(st, s, p, handler);
      if first.ok { DrainReplies(first.state, handler); }
    }
  }

  lemma EarlyStage(st: State, i: nat, stage: Stage, size: nat)
    requires Early(st, size) && i < |st.hands|
    requires stage.Windowed? && st.intake.calls == [] ==> stage.window == size
    requires stage.ToPending? && st.intake.calls == [] ==> |st.client.unacked| >= size
    ensures Early(SetStage(st, i, stage), size)
  {
  }

  lemma EarlyHands(st: State, step: Step, size: nat, handler: Handler)
    requires Early(st, size) && size >= 1 && Enabled(st, step) && (step.ReadWindow? || step.CountOutstanding?)
    ensures Early(Apply(st, step, handler), size)
  {
    match step
    case ReadWindow(i) => EarlyStage(st, i, Apply(st, step, handler).hands[i].stage, size);
    case CountOutstanding(i) =>
      assert st.hands[i] in st.hands;
      EarlyStage(st, i, Apply(st, step, handler).hands[i].stage, size);
  }

  lemma EarlyLetGo(st: State, i: nat, size: nat, step: Step, handler: Handler)
    requires Early(st, size) && Enabled(st, step)
    requires step == PushPending(i) || step == Insert(i) || step == LoseAllocation(i)
    ensures Early(Apply(st, step, handler), size)
  {
    WithoutKeeps(st.hands, i);
    assert st.hands[i] in st.hands;
    hide Without, AllHandled;
  }

  lemma EarlyRest(st: State, step: Step, size: nat, handler: Handler)
    requires Inv(st) && Early(st, size) && Enabled(st, step)
    requires || step.Assign? || step.Ack? || step.FlushPop? || step.FlushInsert? || step.FlushLoseAllocation?
             || step.FlushStop? || step.Transmit? || step.GiveUp? || step.Reply?
             || step.ServerTransition? || step.ServerFlag?
    ensures Early(Apply(st, step, handler), size)
  {
    hide Original, NothingLost, Gate, Serves, AllHandled;
  }

  lemma EarlyKeeps(st: State, step: Step, size: nat, handler: Handler)
    requires Inv(st) && Early(st, size) && size >= 1 && Enabled(st, step)
    ensures Early(Apply(st, step, handler), size)
  {
    hide Inv, OnRecvPacket;
    match step
    case ReadWindow(_) => EarlyHands(st, step, size, handler);
    case CountOutstanding(_) => EarlyHands(st, step, size, handler);
    case PushPending(i) => EarlyLetGo(st, i, size, step, handler);
    case Insert(i) => EarlyLetGo(st, i, size, step, handler);
    case LoseAllocation(i) => EarlyLetGo(st, i, size, step, handler);
    case Deliver(item) => EarlyDeliver(st, item, size, handler);
    case _ => EarlyRest(st, step, size, handler);
  }

  lemma EarlyDeliver(st: State, item: Item, size: nat, handler: Handler)
    requires Inv(st) && Early(st, size) && Enabled(st, Deliver(item))
    ensures Early(Apply(st, Deliver(item), handler), size)
  {
    hide OnRecvPacket, NothingLost, Gate;
    ReceiveServes(st.intake, st.client.sent, item.sequence, handler);
    ReceiveReplies(st.intake, item.sequence, item.payload, handler);
  }

  lemma {:induction false} RunEarly(st: State, steps: seq<Step>, end: State, size: nat, handler: Handler)
    requires Inv(st) && Early(st, size) && size >= 1 && Run(st, steps, end, handler)
    ensures Early(end, size)
    decreases |steps|
  {
    hide Inv, Early, Enabled, Apply;
    if steps != [] {
      Keeps(st, steps[0], handler);
      EarlyKeeps(st, steps[0], size, handler);
      RunEarly(Apply(st, steps[0], handler), steps[1..], end, size, handler);
    }
  }

  // With room in the window a repeated acknowledgement sets off the flush.
  lemma RoomFlushes(start: State, st: State, size: nat, handler: Handler)
    requires Good(st, size) && Early(st, size) && Reaches(start, st, handler) && st.flush.Idle?
    requires Expected(st) in st.client.pending && Expected(st) !in st.client.unacked
    requires |st.client.unacked| < size < 256
    ensures exists end :: Reaches(start, end, handler) && |end.intake.calls| > |st.intake.calls|
  {
    hide Reaches, Good, Early;
    var acked := RepeatsAck(start, st, size, handler);
    SubsetSize(acked.client.unacked.Keys, st.client.unacked.Keys);
    FlushReaches(start, acked, size, handler);
  }

  lemma RepeatsAck(start: State, st: State, size: nat, handler: Handler) returns (acked: State)
    requires Good(st, size) && Early(st, size) && Reaches(start, st, handler) && st.flush.Idle?
    requires Expected(st) in st.client.pending && Expected(st) !in st.client.unacked
    requires |st.client.unacked| < size < 256
    ensures Good(acked, size) && Reaches(start, acked, handler) && acked.flush == Flushing(size)
    ensures acked.intake == st.intake && acked.client.pending == st.client.pending
    ensures acked.client.unacked.Keys <= st.client.unacked.Keys
  {
    hide Reaches, Unsent, Original, NothingLost, ReceiveLockstep.Settled, ReceiveLockstep.FullyAdvertised;
    var r := st.intake.replies[0];
    assert r in st.intake.replies;
    GoodReplies(st, size);
    Then(start, st, Step.Reply(r), handler);
    GoodStep(st, Step.Reply(r), size, handler);
    var replied := Apply(st, Step.Reply(r), handler);
    var ack := Acknowledgement(r.sequence, size);
    Then(start, replied, Ack(ack), handler);
    GoodStep(replied, Ack(ack), size, handler);
    acked := Apply(replied, Ack(ack), handler);
  }

  // A client at rest that has not given up, with the packet the server waits for still pending:
  // retransmissions and acknowledgements get it through if and only if fewer packets the server
  // cannot take yet are in the map than the window admits. Otherwise no handler ever runs again.
  lemma StallsExactly(size: nat, steps: seq<Step>, st: State, handler: Handler)
    requires 1 <= size < 256 && Run(Initial(size), steps, st, handler)
    requires Serving(st) && !st.stopped && !st.dropped && st.hands == [] && st.flush.Idle?
    requires Expected(st) <= |st.client.sent| && |st.client.unacked| < 256
    ensures CanProgress(st, handler) <==> Expected(st) in st.client.unacked || |Ahead(st)| < size
  {
    hide Run, Blocked, RepliesKnown;
    InitialInv(size);
    InitialWindow(size);
    InitialUnsent(size);
    RunWindow(Initial(size), steps, st, size, handler);
    RunUnsent(Initial(size), steps, st, handler);
    RunEarly(Initial(size), steps, st, size, handler);
    NoLoss(size, steps, st, handler);
    NoSteps(st, handler);
    var e := Expected(st);
    if e in st.client.unacked {
      ExpectedHandled(st, st, size, handler);
    } else {
      assert e in st.client.pending by { assert !InHand(st, e) && !Handled(st, e); }
      PendingProgress(st, size, handler);
    }
  }

  lemma PendingProgress(st: State, size: nat, handler: Handler)
    requires Good(st, size) && Early(st, size) && Reaches(st, st, handler) && size < 256
    requires st.hands == [] && st.flush.Idle? && |st.client.unacked| < 256
    requires Expected(st) in st.client.pending && Expected(st) !in st.client.unacked
    ensures CanProgress(st, handler) <==> |Ahead(st)| < size
  {
    hide Reaches, Good, Early, Blocked, RepliesKnown;
    assert Ahead(st) <= st.client.unacked.Keys;
    SubsetSize(Ahead(st), st.client.unacked.Keys);
    if |st.client.unacked| < size {
      RoomFlushes(st, st, size, handler);
    } else if |Ahead(st)| < size {
      OldAcksMakeRoom(st, st, size, handler);
    } else {
      QuietBlocked(st, size);
      NeverAgain(st, size, handler);
    }
  }

  lemma NeverAgain(st: State, size: nat, handler: Handler)
    requires BlockedInv(st, size)
    ensures !CanProgress(st, handler)
  {
    hide BlockedInv;
    if CanProgress(st, handler) {
      var end :| Reaches(st, end, handler) && |end.intake.calls| > |st.intake.calls|;
      var steps :| Run(st, steps, end, handler);
      BlockedForever(st, steps, end, size, handler);
      assert false;
    }
  }

  // --- One application thread is enough ---

  // The same as Then, naming the state the step leads to.
  lemma ThenTo(start: State, mid: State, step: Step, end: State, handler: Handler)
    requires Reaches(start, mid, handler) && Enabled(mid, step) && Same(Apply(mid, step, handler), end)
    ensures Reaches(start, end, handler)
  {
    hide Reaches;
    Then(start, mid, step, handler);
  }

  predicate Same(a: State, b: State) {
    && a.client.sent == b.client.sent && a.client.pending == b.client.pending && a.client.unacked == b.client.unacked
    && a.client.window == b.client.window && a.hands == b.hands && a.data == b.data && a.acks == b.acks
    && a.intake == b.intake
    && a == b.(client := a.client, hands := a.hands, data := a.data, acks := a.acks, intake := a.intake)
  }

  const P: Payload := []

  function Always(calls: seq<Call>, p: Payload): bool { true }

  // The server, with a window of one packet, before and after it has handled sequence 1.
  const BEFORE := Intake(1, map[], 1, [false], [], [])
  const AFTER := Intake(2, map[], 2, [false], [Call(1, P, true)], [ReceivePath.Reply(1, 1, 0)])

  lemma ServerHandlesFirst()
    ensures OnRecvPacket(BEFORE, 1, P, Always) == Outcome(AFTER, true)
  {
    var marked := [true];
    assert [false][0 := true] == marked;
    assert marked[1..] == [];
    assert LeadingRun(marked) == 1;
    assert Slide(marked, 1) == [false];
    assert Advance(1, 1) == Next(Advance(1, 0));
    assert Count([false]) == 0;
    var called := Intake(2, map[], 1, [false], [Call(1, P, true)], []);
    assert Mark(called, 1) == Intake(2, map[], 2, [false], [Call(1, P, true)], []);
    var done := ProcessAndAdvance(BEFORE, 1, P, Always);
    assert done.ok;
    assert BEFORE.held - {1} == map[];
    assert done.state == AFTER;
    assert ProcessHoldingPacket(AFTER, Always) == Outcome(AFTER, true);
  }

  // The client around sequence 1, before the server sees it ...
  function First(unacked: map<nat, Payload>, hands: seq<Hand>, data: set<Item>): State {
    Initial(1).(client := Client([P], map[], unacked, 1), hands := hands, data := data, intake := BEFORE)
  }

  // ... and after.
  function Later(sent: seq<Payload>, pending: map<nat, Payload>, unacked: map<nat, Payload>, hands: seq<Hand>,
        flush: Flush): State
  {
    Initial(1).(
      client := Client(sent, pending, unacked, 1), hands := hands, flush := flush, data := {Item(1, P)},
      acks := {Acknowledgement(1, 1)}, intake := AFTER)
  }

  lemma ReachesCounted()
    ensures Reaches(Initial(1), First(map[], [Hand(Item(1, P), ToRegister)], {}), Always)
  {
    hide Reaches, OnRecvPacket;
    var start, one := Initial(1), Item(1, P);
    assert Falses(1) == [false];
    NoSteps(start, Always);
    ThenTo(start, start, Assign(P), First(map[], [Hand(one, Numbered)], {}), Always);
    ThenTo(start, First(map[], [Hand(one, Numbered)], {}), ReadWindow(0),
           First(map[], [Hand(one, Windowed(1))], {}), Always);
    ThenTo(start, First(map[], [Hand(one, Windowed(1))], {}), CountOutstanding(0),
           First(map[], [Hand(one, ToRegister)], {}), Always);
  }

  lemma ReachesFirst()
    ensures Reaches(Initial(1), First(map[1 := P], [], {Item(1, P)}), Always)
  {
    hide Reaches, OnRecvPacket;
    var start, one := Initial(1), Item(1, P);
    ReachesCounted();
    ThenTo(start, First(map[], [Hand(one, ToRegister)], {}), Insert(0), First(map[1 := P], [], {one}), Always);
  }

  lemma ReachesHandled()
    ensures Reaches(Initial(1), Later([P], map[], map[1 := P], [], Idle), Always)
  {
    hide Reaches, OnRecvPacket;
    var start, one := Initial(1), Item(1, P);
    ReachesFirst();
    ServerHandlesFirst();
    var handled := First(map[1 := P], [], {one}).(intake := AFTER);
    ThenTo(start, First(map[1 := P], [], {one}), Deliver(one), handled, Always);
    ThenTo(start, handled, Step.Reply(AFTER.replies[0]), Later([P], map[], map[1 := P], [], Idle), Always);
  }

  lemma ReachesPending()
    ensures Reaches(Initial(1), Later([P, P], map[2 := P], map[1 := P], [], Idle), Always)
  {
    hide Reaches, OnRecvPacket;
    var start, two := Initial(1), Item(2, P);
    ReachesHandled();
    ThenTo(start, Later([P], map[], map[1 := P], [], Idle), Assign(P),
           Later([P, P], map[], map[1 := P], [Hand(two, Numbered)], Idle), Always);
    ThenTo(start, Later([P, P], map[], map[1 := P], [Hand(two, Numbered)], Idle), ReadWindow(0),
           Later([P, P], map[], map[1 := P], [Hand(two, Windowed(1))], Idle), Always);
    ThenTo(start, Later([P, P], map[], map[1 := P], [Hand(two, Windowed(1))], Idle), CountOutstanding(0),
           Later([P, P], map[], map[1 := P], [Hand(two, ToPending)], Idle), Always);
    ThenTo(start, Later([P, P], map[], map[1 := P], [Hand(two, ToPending)], Idle), PushPending(0),
           Later([P, P], map[2 := P], map[1 := P], [], Idle), Always);
  }

  lemma ReachesThird()
    ensures Reaches(Initial(1),
                    Later([P, P, P], map[2 := P], map[], [Hand(Item(3, P), Windowed(1))], Flushing(1)), Always)
  {
    hide Reaches, OnRecvPacket;
    var start, three := Initial(1), Item(3, P);
    ReachesPending();
    ThenTo(start, Later([P, P], map[2 := P], map[1 := P], [], Idle), Ack(Acknowledgement(1, 1)),
           Later([P, P], map[2 := P], map[], [], Flushing(1)), Always);
    ThenTo(start, Later([P, P], map[2 := P], map[], [], Flushing(1)), Assign(P),
           Later([P, P, P], map[2 := P], map[], [Hand(three, Numbered)], Flushing(1)), Always);
    ThenTo(start, Later([P, P, P], map[2 := P], map[], [Hand(three, Numbered)], Flushing(1)), ReadWindow(0),
           Later([P, P, P], map[2 := P], map[], [Hand(three, Windowed(1))], Flushing(1)), Always);
  }

  // The acknowledgement of 1 empties the map; before the flush looks at the pending queue the
  // application sends again, and packet 3 takes the place of packet 2.
  lemma OneThreadStalls()
    ensures exists steps, end ::
              && Run(Initial(1), steps, end, Always) && Serving(end) && !end.stopped && !end.dropped
              && |end.client.sent| == 3 && !CanProgress(end, Always)
  {
    hide Reaches, OnRecvPacket, CanProgress;
    var start, three := Initial(1), Item(3, P);
    ReachesThird();
    ThenTo(start, Later([P, P, P], map[2 := P], map[], [Hand(three, Windowed(1))], Flushing(1)), CountOutstanding(0),
           Later([P, P, P], map[2 := P], map[], [Hand(three, ToRegister)], Flushing(1)), Always);
    var stuck := Later([P, P, P], map[2 := P], map[3 := P], [], Idle).(data := {Item(1, P), three});
    ThenTo(start, Later([P, P, P], map[2 := P], map[], [Hand(three, ToRegister)], Flushing(1)), Insert(0),
           stuck.(flush := Flushing(1)), Always);
    ThenTo(start, stuck.(flush := Flushing(1)), FlushStop, stuck, Always);
    StallIsFinal(stuck);
  }

  lemma StallIsFinal(end: State)
    requires Reaches(Initial(1), end, Always)
    requires end == Later([P, P, P], map[2 := P], map[3 := P], [], Idle).(data := {Item(1, P), Item(3, P)})
    ensures !CanProgress(end, Always)
    ensures exists steps :: Run(Initial(1), steps, end, Always)
  {
    hide Run, CanProgress;
    var steps :| Run(Initial(1), steps, end, Always);
    assert Ahead(end) == {3};
    StallsExactly(1, steps, end, Always);
  }
}
