/** What holds in every state that client-to-server traffic can reach. */
module ClientToServerRuns {
  import opened Common
  import opened Sequences
  import opened ReceiveWindow
  import opened ReceivePath
  import ReceiveLockstep
  import opened ClientSend
  import opened ClientToServer

  // The connection has been acknowledged with a window of `size`.
  function Initial(size: nat): State {
    State(
      client := Client([], map[], map[], size), hands := [], flush := Idle, data := {}, acks := {},
      intake := ReceiveLockstep.Started(1, size), dropped := false, stopped := false, releasing := false,
      flagged := false, lateFailure := false, falseAck := false)
  }

  ghost predicate Run(st: State, steps: seq<Step>, end: State, handler: Handler)
    decreases |steps|
  {
    if steps == [] then st == end
    else Enabled(st, steps[0]) && Run(Apply(st, steps[0], handler), steps[1..], end, handler)
  }

  lemma InitialInv(size: nat)
    ensures Inv(Initial(size))
  {
  }

  lemma {:induction false} RunKeeps(st: State, steps: seq<Step>, end: State, handler: Handler)
    requires Inv(st) && Run(st, steps, end, handler)
    ensures Inv(end)
    decreases |steps|
  {
    hide Inv, Enabled, Apply;
    if steps != [] {
      Keeps(st, steps[0], handler);
      RunKeeps(Apply(st, steps[0], handler), steps[1..], end, handler);
    }
  }

  // Every sequence ever taken is in the pending queue, the map or a running function of the client,
  // or its handler has succeeded, unless the client silently dropped a packet it could not allocate,
  // or the server acknowledged a packet whose handler had failed.
  lemma NoLoss(size: nat, steps: seq<Step>, st: State, handler: Handler)
    requires Run(Initial(size), steps, st, handler)
    ensures !st.dropped && !st.falseAck ==>
              forall s :: 1 <= s <= |st.client.sent| ==>
                s in st.client.unacked || s in st.client.pending || InHand(st, s) || Handled(st, s)
  {
    InitialInv(size);
    RunKeeps(Initial(size), steps, st, handler);
    forall s | !st.dropped && !st.falseAck && 1 <= s <= |st.client.sent|
      ensures s in st.client.unacked || s in st.client.pending || InHand(st, s) || Handled(st, s)
    {
      assert Accounted(st, s);
    }
  }

  // The server's acknowledgements are all true if and only if it never repeated a failed packet, and
  // it did not as long as no handler failed after another thread had moved the state to RELEASING.
  lemma FalseAcksExactly(size: nat, steps: seq<Step>, st: State, handler: Handler)
    requires Run(Initial(size), steps, st, handler)
    ensures !st.falseAck <==>
              forall r :: r in st.intake.replies ==>
                1 <= r.sequence <= |st.intake.calls| && st.intake.calls[r.sequence - 1].handled
    ensures !st.lateFailure ==> !st.falseAck
  {
    InitialInv(size);
    RunKeeps(Initial(size), steps, st, handler);
  }

  function PayloadsOf(calls: seq<Call>): (r: seq<Payload>)
    ensures |r| == |calls|
    ensures forall i :: 0 <= i < |calls| ==> r[i] == calls[i].payload
  {
    seq(|calls|, i requires 0 <= i < |calls| => calls[i].payload)
  }

  // The handlers have been run on a prefix of what was sent, each packet once, in order, unchanged.
  lemma ExactlyOnceInOrder(size: nat, steps: seq<Step>, st: State, handler: Handler)
    requires Run(Initial(size), steps, st, handler)
    ensures PayloadsOf(st.intake.calls) <= st.client.sent
  {
    InitialInv(size);
    RunKeeps(Initial(size), steps, st, handler);
  }

  // When the client has nothing pending, unacknowledged or in hand, every handler has succeeded, under
  // the same conditions.
  lemma QuietMeansComplete(size: nat, steps: seq<Step>, st: State, handler: Handler)
    requires Run(Initial(size), steps, st, handler) && !st.dropped && !st.falseAck
    requires st.client.pending == map[] && st.client.unacked == map[] && st.hands == [] && !st.flush.Registering?
    ensures PayloadsOf(st.intake.calls) == st.client.sent
    ensures forall c :: c in st.intake.calls ==> c.handled
  {
    InitialInv(size);
    RunKeeps(Initial(size), steps, st, handler);
    forall s | 1 <= s <= |st.client.sent| ensures Handled(st, s) {
      assert Accounted(st, s);
    }
    if |st.client.sent| > 0 { assert Handled(st, |st.client.sent|); }
    forall i | 0 <= i < |st.intake.calls| ensures st.intake.calls[i].handled {
      assert Handled(st, i + 1);
    }
  }

  // --- The server's window in these runs ---

  lemma HandledMeansAll(st: Intake)
    requires AllHandled(st)
    ensures ReceiveLockstep.AllHandled(st.calls)
  {
    var f := ReceiveLockstep.FirstFailure(st.calls);
  }

  // The server takes packets in, and every handler so far has succeeded.
  predicate Serving(st: State) {
    !st.flagged && !st.lateFailure
  }

  // Meanwhile it and the client agree on a window of `size`.
  ghost predicate WindowInv(st: State, size: nat) {
    && size < 256 && |st.intake.flags| == size
    && ReceiveLockstep.Settled(st.intake, 1) && ReceiveLockstep.FullyAdvertised(st.intake)
    && (Serving(st) ==> st.client.window == size && forall a :: a in st.acks ==> a.window == size)
  }

  lemma WindowKeeps(st: State, step: Step, size: nat, handler: Handler)
    requires Inv(st) && WindowInv(st, size) && Enabled(st, step)
    ensures WindowInv(Apply(st, step, handler), size)
  {
    hide ReceiveLockstep.Settled, ReceiveLockstep.InStep, OnRecvPacket, NothingLost, Original;
    if step.Deliver? {
      ReceiveLockstep.ReceiveKeeps(st.intake, 1, step.item.sequence, step.item.payload, handler);
    } else if step.Reply? && Serving(st) {
      HandledMeansAll(st.intake);
    }
  }

  lemma {:induction false} RunWindow(st: State, steps: seq<Step>, end: State, size: nat, handler: Handler)
    requires Inv(st) && WindowInv(st, size) && Run(st, steps, end, handler)
    ensures Inv(end) && WindowInv(end, size)
    decreases |steps|
  {
    hide Inv, WindowInv, Enabled, Apply;
    if steps != [] {
      Keeps(st, steps[0], handler);
      WindowKeeps(st, steps[0], size, handler);
      RunWindow(Apply(st, steps[0], handler), steps[1..], end, size, handler);
    }
  }

  lemma InitialWindow(size: nat)
    requires size < 256
    ensures WindowInv(Initial(size), size)
  {
    ReceiveLockstep.StartedSettled(1, size);
  }

  // --- Reaching a state step by step ---

  ghost predicate Reaches(st: State, end: State, handler: Handler) {
    exists steps :: Run(st, steps, end, handler)
  }

  lemma {:induction false} RunAppend(st: State, steps: seq<Step>, mid: State, step: Step, handler: Handler)
    requires Run(st, steps, mid, handler) && Enabled(mid, step)
    ensures Run(st, steps + [step], Apply(mid, step, handler), handler)
    decreases |steps|
  {
    hide Enabled, Apply;
    if steps == [] {
      assert [step][1..] == [];
      assert Run(Apply(st, step, handler), [], Apply(mid, step, handler), handler);
    } else {
      assert (steps + [step])[1..] == steps[1..] + [step];
      RunAppend(Apply(st, steps[0], handler), steps[1..], mid, step, handler);
    }
  }

  lemma NoSteps(st: State, handler: Handler)
    ensures Reaches(st, st, handler)
  {
    assert Run(st, [], st, handler);
  }

  // `start` is where the run began.
  lemma Then(start: State, mid: State, step: Step, handler: Handler)
    requires Reaches(start, mid, handler) && Enabled(mid, step)
    ensures Reaches(start, Apply(mid, step, handler), handler)
  {
    hide Enabled, Apply;
    var steps :| Run(start, steps, mid, handler);
    RunAppend(start, steps, mid, step, handler);
  }

  // --- The methods of RUDPClientSender are runs of these steps ---

  // What SendPacket leaves behind.
  function AfterSend(st: State, p: Payload, allocates: bool): State {
    var item := Item(|st.client.sent| + 1, p);
    var numbered := st.client.(sent := st.client.sent + [p]);
    if !HasRoom(numbered) then st.(client := numbered.(pending := numbered.pending[item.sequence := p]))
    else if allocates then st.(client := Register(numbered, item.sequence, p), data := st.data + {item})
    else st.(client := numbered, dropped := true)
  }

  // A SendPacket under way.
  function WithHand(st: State, p: Payload, stage: Stage): State {
    st.(client := st.client.(sent := st.client.sent + [p]),
        hands := st.hands + [Hand(Item(|st.client.sent| + 1, p), stage)])
  }

  function AfterRead(st: State): Stage {
    if st.client.window == 0 then ToPending else Windowed(st.client.window)
  }

  function Decision(st: State): Stage {
    if HasRoom(st.client) then ToRegister else ToPending
  }

  lemma StageSet(st: State, p: Payload, stage: Stage, next: Stage)
    ensures |WithHand(st, p, stage).hands| == |st.hands| + 1 && WithHand(st, p, stage).hands[|st.hands|].stage == stage
    ensures SetStage(WithHand(st, p, stage), |st.hands|, next) == WithHand(st, p, next)
  {
    var item := Item(|st.client.sent| + 1, p);
    assert (st.hands + [Hand(item, stage)])[|st.hands| := Hand(item, next)] == st.hands + [Hand(item, next)];
  }

  lemma ReadsWindow(st: State, p: Payload, handler: Handler)
    ensures var numbered, step := WithHand(st, p, Numbered), ReadWindow(|st.hands|);
            Enabled(numbered, step) && Apply(numbered, step, handler) == WithHand(st, p, AfterRead(st))
  {
    hide OnRecvPacket;
    StageSet(st, p, Numbered, AfterRead(st));
  }

  lemma Counts(st: State, p: Payload, handler: Handler)
    requires st.client.window > 0
    ensures var read, step := WithHand(st, p, AfterRead(st)), CountOutstanding(|st.hands|);
            Enabled(read, step) && Apply(read, step, handler) == WithHand(st, p, Decision(st))
  {
    hide OnRecvPacket;
    StageSet(st, p, AfterRead(st), Decision(st));
  }

  lemma Places(st: State, p: Payload, allocates: bool, handler: Handler)
    requires st.flush.Idle?
    ensures var decided, n := WithHand(st, p, Decision(st)), |st.hands|;
            var step := if !HasRoom(st.client) then PushPending(n)
                        else if allocates then Insert(n) else LoseAllocation(n);
            Enabled(decided, step) && Apply(decided, step, handler) == AfterSend(st, p, allocates)
  {
    hide OnRecvPacket;
    StageSet(st, p, Decision(st), Decision(st));
    assert Without(WithHand(st, p, Decision(st)).hands, |st.hands|) == st.hands;
  }

  lemma SendPacketIsARun(st: State, p: Payload, allocates: bool, handler: Handler)
    requires |st.client.sent| + 1 < HALF && st.flush.Idle?
    ensures Reaches(st, AfterSend(st, p, allocates), handler)
  {
    var n := |st.hands|;
    ReadsWindow(st, p, handler);
    if st.client.window > 0 { Counts(st, p, handler); }
    Places(st, p, allocates, handler);
    NoSteps(st, handler);
    assert Apply(st, Assign(p), handler) == WithHand(st, p, Numbered);
    assert st.client.window == 0 ==> AfterRead(st) == Decision(st);
    hide Reaches, Apply, WithHand, AfterRead, Decision, AfterSend;
    Then(st, st, Assign(p), handler);
    Then(st, WithHand(st, p, Numbered), ReadWindow(n), handler);
    if st.client.window > 0 { Then(st, WithHand(st, p, AfterRead(st)), CountOutstanding(n), handler); }
    Then(st, WithHand(st, p, Decision(st)), if !HasRoom(st.client) then PushPending(n)
                                            else if allocates then Insert(n) else LoseAllocation(n), handler);
  }

  // The flush so far: what has moved is in the map and handed to the send thread, or was dropped.
  function Moved(st: State, moved: seq<nat>, allocates: seq<bool>): State
    requires |moved| <= |allocates|
  {
    st.(client := AfterMoves(st.client, moved, allocates),
        data := st.data + SentItems(st.client.pending, moved, allocates),
        dropped := st.dropped || exists i :: 0 <= i < |moved| && !allocates[i])
  }

  function SentItems(pending: map<nat, Payload>, moved: seq<nat>, allocates: seq<bool>): set<Item>
    requires |moved| <= |allocates|
  {
    set i | 0 <= i < |moved| && allocates[i] && moved[i] in pending :: Item(moved[i], pending[moved[i]])
  }

  lemma SentOneMore(pending: map<nat, Payload>, moved: seq<nat>, allocates: seq<bool>, s: nat)
    requires |moved| < |allocates| && s in pending
    ensures SentItems(pending, moved + [s], allocates)
            == SentItems(pending, moved, allocates) + if allocates[|moved|] then {Item(s, pending[s])} else {}
  {
    var more := moved + [s];
    assert more[..|moved|] == moved && more[|moved|] == s;
    forall x | x in SentItems(pending, moved, allocates) ensures x in SentItems(pending, more, allocates) {
      var i :| 0 <= i < |moved| && allocates[i] && moved[i] in pending && Item(moved[i], pending[moved[i]]) == x;
      assert more[i] == moved[i];
    }
  }

  lemma MovedOneMore(st: State, moved: seq<nat>, allocates: seq<bool>, s: nat)
    requires |moved| < |allocates| && s in st.client.pending && s !in moved
    ensures var now, more := Moved(st, moved, allocates), Moved(st, moved + [s], allocates);
            more == now.(client := MovedOne(now.client, s, allocates[|moved|]),
                         data := now.data + (if allocates[|moved|] then {Item(s, st.client.pending[s])} else {}),
                         dropped := now.dropped || !allocates[|moved|])
  {
    MovedTwice(st.client, moved, allocates, s);
    SentOneMore(st.client.pending, moved, allocates, s);
    hide AfterMoves, SentItems, MovedOne;
    var now, more := Moved(st, moved, allocates), Moved(st, moved + [s], allocates);
    assert more.dropped == (now.dropped || !allocates[|moved|]);
  }

  lemma OneLeast(s: set<nat>, a: nat, b: nat)
    requires IsLeast(s, a) && IsLeast(s, b)
    ensures a == b
  {
  }

  // One turn of the flush: the pop, and the insertion or the lost allocation.
  function Popped(now: State, s: nat): State
    requires s in now.client.pending
  {
    now.(client := now.client.(pending := now.client.pending - {s}),
         flush := Registering(now.client.window, Item(s, now.client.pending[s])))
  }

  lemma Pops(now: State, s: nat, handler: Handler)
    requires now.flush == Flushing(now.client.window) && HasRoom(now.client) && IsLeast(now.client.pending.Keys, s)
    ensures s in now.client.pending && Enabled(now, FlushPop)
    ensures Apply(now, FlushPop, handler) == Popped(now, s)
  {
    hide OnRecvPacket;
    assert s in now.client.pending.Keys;
    HasKey(now.client.pending);
    OneLeast(now.client.pending.Keys, s, Least(now.client.pending.Keys));
  }

  function AfterTurn(now: State, s: nat, allocates: bool): State
    requires s in now.client.pending
  {
    now.(client := MovedOne(now.client, s, allocates),
         data := now.data + (if allocates then {Item(s, now.client.pending[s])} else {}),
         dropped := now.dropped || !allocates)
  }

  lemma Inserts(now: State, s: nat, allocates: bool, handler: Handler)
    requires s in now.client.pending && now.flush == Flushing(now.client.window)
    ensures var step := if allocates then FlushInsert else FlushLoseAllocation;
            Enabled(Popped(now, s), step) && Apply(Popped(now, s), step, handler) == AfterTurn(now, s, allocates)
  {
    hide OnRecvPacket, Register;
  }

  lemma TurnIsARun(start: State, now: State, s: nat, allocates: bool, handler: Handler)
    requires Reaches(start, now, handler)
    requires now.flush == Flushing(now.client.window) && HasRoom(now.client) && IsLeast(now.client.pending.Keys, s)
    ensures s in now.client.pending && Reaches(start, AfterTurn(now, s, allocates), handler)
  {
    hide Reaches, IsLeast, HasRoom, Apply, AfterTurn, Popped;
    Pops(now, s, handler);
    Inserts(now, s, allocates, handler);
    Then(start, now, FlushPop, handler);
    Then(start, Popped(now, s), if allocates then FlushInsert else FlushLoseAllocation, handler);
  }

  lemma NextIsLeast(st: Client, moved: seq<nat>, allocates: seq<bool>, k: nat)
    requires k < |moved| <= |allocates| && LeastFirst(st, moved)
    ensures moved[k] in st.pending && moved[k] !in moved[..k]
    ensures IsLeast(AfterMoves(st, moved[..k], allocates).pending.Keys, moved[k])
  {
    hide Allocated, Entered;
    var rest := AfterMoves(st, moved[..k], allocates).pending;
    assert moved[k] in moved;
    forall j | 0 <= j < k ensures moved[j] in moved[..k] { assert moved[..k][j] == moved[j]; }
    forall x | x in rest.Keys ensures moved[k] <= x {
      if x in moved { var j :| 0 <= j < |moved| && moved[j] == x; }
    }
  }

  lemma NoneMoved(st: State, allocates: seq<bool>)
    ensures Moved(st, [], allocates) == st
  {
    NothingMoved(st.client, allocates, []);
    assert SentItems(st.client.pending, [], allocates) == {};
  }

  lemma {:induction false} MovesAreARun(start: State, st: State, moved: seq<nat>, allocates: seq<bool>, k: nat,
        handler: Handler)
    requires Reaches(start, st, handler) && st.flush == Flushing(st.client.window)
    requires k <= |moved| <= |allocates| && LeastFirst(st.client, moved) && WithRoom(st.client, moved, allocates)
    ensures Reaches(start, Moved(st, moved[..k], allocates), handler)
    decreases k
  {
    hide Reaches, AfterMoves, IsLeast, LeastFirst, HasRoom, Moved;
    if k == 0 {
      NoneMoved(st, allocates);
      assert moved[..k] == [];
    } else {
      MovesAreARun(start, st, moved, allocates, k - 1, handler);
      NextIsLeast(st.client, moved, allocates, k - 1);
      OneMoreTurn(start, st, moved[..k - 1], allocates, moved[k - 1], handler);
      assert moved[..k] == moved[..k - 1] + [moved[k - 1]];
    }
  }

  lemma OneMoreTurn(start: State, st: State, moved: seq<nat>, allocates: seq<bool>, s: nat, handler: Handler)
    requires |moved| < |allocates| && st.flush == Flushing(st.client.window) && s in st.client.pending && s !in moved
    requires Reaches(start, Moved(st, moved, allocates), handler)
    requires var now := AfterMoves(st.client, moved, allocates); HasRoom(now) && IsLeast(now.pending.Keys, s)
    ensures Reaches(start, Moved(st, moved + [s], allocates), handler)
  {
    hide Reaches, IsLeast, MovedOne, SentItems, HasRoom;
    var now := Moved(st, moved, allocates);
    TurnIsARun(start, now, s, allocates[|moved|], handler);
    MovedOneMore(st, moved, allocates, s);
    KeptPayload(st.client, moved, allocates, s);
  }

  lemma KeptPayload(st: Client, moved: seq<nat>, allocates: seq<bool>, s: nat)
    requires |moved| <= |allocates| && s in AfterMoves(st, moved, allocates).pending
    ensures s in st.pending && AfterMoves(st, moved, allocates).pending[s] == st.pending[s]
  {
  }

  // An acknowledgement and the flush that follows it, whatever they move.
  lemma OnSendReplyIsARun(st: State, a: Acknowledgement, moved: seq<nat>, allocates: seq<bool>, handler: Handler)
    requires a in st.acks && st.flush.Idle? && a.sequence <= |st.client.sent|
    requires Flushes(Acknowledge(st.client, a.sequence, a.window), moved, allocates)
    ensures Reaches(st, Moved(st.(client := Acknowledge(st.client, a.sequence, a.window)), moved, allocates), handler)
  {
    var acked := Acknowledge(st.client, a.sequence, a.window);
    if a.window == 0 {
      assert !HasRoom(AfterMoves(acked, moved[..0], allocates));
      NoneMoved(st.(client := acked), allocates);
      assert Moved(st.(client := acked), moved, allocates) == st.(client := acked, flush := Idle);
      NoSteps(st, handler);
      Acknowledges(st, a, handler);
      hide Reaches;
      Then(st, st, Ack(a), handler);
    } else {
      FlushesToTheEnd(st, a, moved, allocates, handler);
    }
  }

  lemma Acknowledges(st: State, a: Acknowledgement, handler: Handler)
    requires a in st.acks && st.flush.Idle? && a.sequence <= |st.client.sent|
    ensures Enabled(st, Ack(a))
    ensures Apply(st, Ack(a), handler) == st.(client := Acknowledge(st.client, a.sequence, a.window),
                                              flush := if a.window == 0 then Idle else Flushing(a.window))
  {
    hide OnRecvPacket;
  }

  lemma FlushesToTheEnd(st: State, a: Acknowledgement, moved: seq<nat>, allocates: seq<bool>, handler: Handler)
    requires a in st.acks && st.flush.Idle? && a.sequence <= |st.client.sent| && a.window > 0
    requires Flushes(Acknowledge(st.client, a.sequence, a.window), moved, allocates)
    ensures Reaches(st, Moved(st.(client := Acknowledge(st.client, a.sequence, a.window)), moved, allocates), handler)
  {
    hide Reaches, AfterMoves, LeastFirst, WithRoom, SentItems;
    var acked := Acknowledge(st.client, a.sequence, a.window);
    var begun := st.(client := acked, flush := Flushing(a.window));
    NoSteps(st, handler);
    Acknowledges(st, a, handler);
    Then(st, st, Ack(a), handler);
    MovesAreARun(st, begun, moved, allocates, |moved|, handler);
    assert moved[..|moved|] == moved;
    var end := Moved(begun, moved, allocates);
    Stops(end, handler);
    Then(st, end, FlushStop, handler);
    assert end.(flush := Idle) == Moved(st.(client := acked), moved, allocates);
  }

  lemma Stops(st: State, handler: Handler)
    requires st.flush == Flushing(st.client.window) && (st.client.pending == map[] || !HasRoom(st.client))
    ensures Enabled(st, FlushStop) && Apply(st, FlushStop, handler) == st.(flush := Idle)
  {
    hide OnRecvPacket;
  }

  // --- Packets wait only for room ---

  predicate Resting(client: Client) {
    client.pending == map[] || !HasRoom(client)
  }

  // Runs in which SendPacket and the flush do not interleave, as when one thread does both.
  predicate Solo(st: State, step: Step) {
    (step.Assign? ==> st.hands == [] && st.flush.Idle?) && (step.Ack? ==> st.hands == [])
  }

  predicate SoloInv(st: State) {
    && |st.hands| <= 1 && (st.hands != [] ==> st.flush.Idle?)
    && (!st.flush.Idle? ==> st.flush.window == st.client.window)
    && (st.flush.Idle? ==>
         if st.hands == [] then Resting(st.client)
         else
           match st.hands[0].stage
           case Numbered => Resting(st.client)
           case Windowed(w) => w == st.client.window && Resting(st.client)
           case ToPending => !HasRoom(st.client)
           case ToRegister => HasRoom(st.client) && Resting(st.client))
  }

  lemma SoloHand(st: State, step: Step, handler: Handler)
    requires SoloInv(st) && Enabled(st, step)
    requires step.ReadWindow? || step.CountOutstanding? || step.PushPending? || step.Insert? || step.LoseAllocation?
    ensures SoloInv(Apply(st, step, handler))
  {
    hide OnRecvPacket;
    assert step.hand == 0 && Without(st.hands, 0) == [];
  }

  lemma SoloFlush(st: State, step: Step, handler: Handler)
    requires SoloInv(st) && Enabled(st, step)
    requires step.FlushPop? || step.FlushInsert? || step.FlushLoseAllocation? || step.FlushStop?
    ensures SoloInv(Apply(st, step, handler))
  {
    hide OnRecvPacket;
  }

  lemma SoloOther(st: State, step: Step, handler: Handler)
    requires SoloInv(st) && Enabled(st, step)
    requires || step.Transmit? || step.GiveUp? || step.Deliver? || step.Reply? || step.ServerTransition?
             || step.ServerFlag?
    ensures SoloInv(Apply(st, step, handler))
  {
    hide OnRecvPacket, HasRoom;
  }

  lemma SoloKeeps(st: State, step: Step, handler: Handler)
    requires SoloInv(st) && Enabled(st, step) && Solo(st, step)
    ensures SoloInv(Apply(st, step, handler))
  {
    hide OnRecvPacket;
    if step.Assign? || step.Ack? {
    } else {
      hide SoloInv, Apply, Enabled;
      match step
      case ReadWindow(_) => SoloHand(st, step, handler);
      case CountOutstanding(_) => SoloHand(st, step, handler);
      case PushPending(_) => SoloHand(st, step, handler);
      case Insert(_) => SoloHand(st, step, handler);
      case LoseAllocation(_) => SoloHand(st, step, handler);
      case FlushPop => SoloFlush(st, step, handler);
      case FlushInsert => SoloFlush(st, step, handler);
      case FlushLoseAllocation => SoloFlush(st, step, handler);
      case FlushStop => SoloFlush(st, step, handler);
      case _ => SoloOther(st, step, handler);
    }
  }

  ghost predicate SoloRun(st: State, steps: seq<Step>, end: State, handler: Handler)
    decreases |steps|
  {
    if steps == [] then st == end
    else
      && Enabled(st, steps[0]) && Solo(st, steps[0])
      && SoloRun(Apply(st, steps[0], handler), steps[1..], end, handler)
  }

  lemma {:induction false} SoloRunKeeps(st: State, steps: seq<Step>, end: State, handler: Handler)
    requires SoloInv(st) && SoloRun(st, steps, end, handler)
    ensures SoloInv(end)
    decreases |steps|
  {
    hide SoloInv, Enabled, Apply, Solo;
    if steps != [] {
      SoloKeeps(st, steps[0], handler);
      SoloRunKeeps(Apply(st, steps[0], handler), steps[1..], end, handler);
    }
  }

  // In such runs, whatever windows are advertised, a packet waits in the pending queue at rest only
  // while the map has no room in the window.
  lemma WaitsOnlyForRoom(size: nat, steps: seq<Step>, st: State, handler: Handler)
    requires SoloRun(Initial(size), steps, st, handler) && st.hands == [] && st.flush.Idle?
    ensures st.client.pending == map[] || Outstanding(st.client) >= st.client.window
  {
    SoloRunKeeps(Initial(size), steps, st, handler);
  }
}
