/** What holds in every state that server-to-client traffic can reach. */
module ServerToClientRuns {
  import opened Common
  import opened ClientReceive
  import opened ServerSend
  import opened ServerToClient

  ghost predicate Run(st: State, steps: seq<Step>, end: State)
    decreases |steps|
  {
    if steps == [] then st == end
    else Enabled(st, steps[0]) && Run(Apply(st, steps[0]), steps[1..], end)
  }

  lemma {:induction false} RunKeeps(st: State, steps: seq<Step>, end: State)
    requires Inv(st) && Run(st, steps, end)
    ensures Inv(end)
    decreases |steps|
  {
    hide Inv, Enabled, Apply;
    if steps != [] {
      Keeps(st, steps[0]);
      RunKeeps(Apply(st, steps[0]), steps[1..], end);
    }
  }

  lemma InitialInv(capacity: nat)
    ensures Inv(Initial(capacity))
  {
  }

  lemma {:induction false} PayloadsPrefix(packets: seq<Packet>, n: nat)
    requires n <= |packets|
    ensures Payloads(packets[..n]) <= Payloads(packets)
  {
    if n < |packets| {
      var front := packets[..|packets| - 1];
      assert front[..n] == packets[..n];
      PayloadsPrefix(front, n);
    } else {
      assert packets[..n] == packets;
    }
  }

  // Until the server session is disconnected, every sequence ever taken is in the pending queue,
  // the unacked map or a running send, or the client has it.
  lemma NoLoss(capacity: nat, steps: seq<Step>, st: State)
    requires Run(Initial(capacity), steps, st)
    ensures !st.broken ==>
              forall s :: 1 <= s <= |st.sender.sent| ==>
                s in st.sender.unacked || InPending(st, s) || InHand(st, s) || Received(st, s)
  {
    InitialInv(capacity);
    RunKeeps(Initial(capacity), steps, st);
    forall s | !st.broken && 1 <= s <= |st.sender.sent|
      ensures s in st.sender.unacked || InPending(st, s) || InHand(st, s) || Received(st, s)
    {
      assert Accounted(st, s);
    }
  }

  // The application receives a prefix of what was sent, each packet once, in order and unchanged,
  // with heartbeats left out; this holds after a disconnect too.
  lemma ExactlyOnceInOrder(capacity: nat, steps: seq<Step>, st: State)
    requires Run(Initial(capacity), steps, st)
    ensures 1 <= st.next <= |st.sender.sent| + 1
    ensures st.passed == Payloads(st.sender.sent[..st.next - 1]) <= Payloads(st.sender.sent)
  {
    InitialInv(capacity);
    RunKeeps(Initial(capacity), steps, st);
    PayloadsPrefix(st.sender.sent, st.next - 1);
  }

  // Once nothing is pending, unacked or in hand, reading until nothing is returned yields everything.
  lemma QuietMeansComplete(capacity: nat, steps: seq<Step>, st: State, queue': multiset<Entry>, next': nat)
    requires Run(Initial(capacity), steps, st) && !st.broken
    requires st.sender.pending == [] && st.sender.unacked == map[] && st.hands == []
    requires Enabled(st, Read(queue', next', None))
    ensures Apply(st, Read(queue', next', None)).passed == Payloads(st.sender.sent)
  {
    InitialInv(capacity);
    RunKeeps(Initial(capacity), steps, st);
    var sent := st.sender.sent;
    GetsInOrder(sent, st.queue, st.next, queue', next', None);
    assert next' == |sent| + 1 by {
      assert next' <= |sent| ==> Accounted(st, next') && Received(st, next');
    }
    assert sent[..|sent|] == sent;
  }

  // --- Progress ---

  // A packet is being sent, or its send has failed and a disconnect follows.
  predicate SendingNow(st: State) {
    exists h :: h in st.hands && h.stage != Assigned
  }

  // Nothing is in flight, nothing will be, and the pending queue is not empty.
  predicate Stuck(st: State) {
    st.sender.pending != [] && st.sender.unacked == map[] && !SendingNow(st) && !st.flushing
  }

  lemma StuckKeeps(st: State, step: Step)
    requires Stuck(st) && Enabled(st, step)
    ensures Stuck(Apply(st, step)) && Apply(st, step).data == st.data
    ensures st.sender.pending <= Apply(st, step).sender.pending
  {
    hide Gets, CanSend, OnReplyReceived;
    assert forall i :: 0 <= i < |st.hands| ==> st.hands[i] in st.hands && st.hands[i].stage == Assigned;
    match step
    case Decide(i) => WithoutKeeps(st.hands, i);
    case _ =>
  }

  // A stuck session never puts another datagram on the network.
  lemma {:induction false} StuckForever(st: State, steps: seq<Step>, end: State)
    requires Stuck(st) && Run(st, steps, end)
    ensures Stuck(end) && end.data == st.data && st.sender.pending <= end.sender.pending
    decreases |steps|
  {
    hide Stuck, Enabled, Apply;
    if steps != [] {
      StuckKeeps(st, steps[0]);
      StuckForever(Apply(st, steps[0]), steps[1..], end);
    }
  }

  // What gets a session stuck: nothing is unacked or being sent, and the congestion window is closed
  // to the packet being placed, or to the first pending one when a flush ends.
  predicate ClosesOnNothing(st: State, step: Step)
    requires step.Decide? ==> step.hand < |st.hands|
  {
    && st.sender.unacked == map[] && !SendingNow(st)
    && match step
       case Decide(i) => !st.flushing && st.sender.pending == [] && !CanSend(st.sender.flow, st.hands[i].item.sequence)
       case FlushStop => st.sender.pending != []
       case _ => false
  }

  // A step gets a session stuck exactly then.
  lemma SticksExactly(st: State, step: Step)
    requires Enabled(st, step) && !Stuck(st) && !Apply(st, step).broken
    ensures Stuck(Apply(st, step)) <==> ClosesOnNothing(st, step)
  {
    hide Gets, CanSend, OnReplyReceived;
    match step
    case Assign(p) => SendingAppend(st.hands, Hand(Item(|st.sender.sent| + 1, p), Assigned));
    case Decide(i) => DecideSticks(st, i);
    case Insert(i) => assert st.hands[i].item.sequence in Apply(st, step).sender.unacked;
    case SendFails(s) => assert Hand(Item(s, st.sender.unacked[s]), Failed) in Apply(st, step).hands;
    case FlushOne => assert Hand(st.sender.pending[0], Immediate) in Apply(st, step).hands;
    case _ =>
  }

  lemma SendingAppend(hands: seq<Hand>, h: Hand)
    ensures (exists x :: x in hands + [h] && x.stage != Assigned) <==>
              (exists x :: x in hands && x.stage != Assigned) || h.stage != Assigned
  {
    assert h in hands + [h];
    forall x | x in hands ensures x in hands + [h] {}
  }

  lemma DecideSticks(st: State, i: nat)
    requires Enabled(st, Decide(i)) && !Stuck(st) && !Apply(st, Decide(i)).broken
    ensures Stuck(Apply(st, Decide(i))) <==> ClosesOnNothing(st, Decide(i))
  {
    hide Gets, CanSend;
    var after := Apply(st, Decide(i));
    WithoutKeeps(st.hands, i);
    if SendingNow(st) {
      var h :| h in st.hands && h.stage != Assigned;
      var j :| 0 <= j < |st.hands| && st.hands[j] == h;
      assert h in after.hands by { if !MustQueue(st.sender, st.hands[i].item.sequence) { assert after.hands[j] == h; } }
    } else if !MustQueue(st.sender, st.hands[i].item.sequence) {
      assert after.hands[i] in after.hands && after.hands[i].stage == Immediate;
    }
  }

  ghost predicate SomeStepCloses(st: State, steps: seq<Step>)
    decreases |steps|
  {
    && steps != [] && Enabled(st, steps[0])
    && (ClosesOnNothing(st, steps[0]) || SomeStepCloses(Apply(st, steps[0]), steps[1..]))
  }

  lemma {:induction false} StaysBroken(st: State, steps: seq<Step>, end: State)
    requires Run(st, steps, end) && st.broken
    ensures end.broken
    decreases |steps|
  {
    if steps != [] { StaysBroken(Apply(st, steps[0]), steps[1..], end); }
  }

  // So until it is disconnected a session is stuck if and only if some step of its run closed on nothing.
  lemma {:induction false} StuckExactly(st: State, steps: seq<Step>, end: State)
    requires Run(st, steps, end) && !end.broken && !Stuck(st)
    ensures Stuck(end) <==> SomeStepCloses(st, steps)
    decreases |steps|
  {
    hide Stuck, Enabled, Apply, ClosesOnNothing;
    if steps != [] {
      var next := Apply(st, steps[0]);
      if next.broken { StaysBroken(next, steps[1..], end); }
      SticksExactly(st, steps[0]);
      if Stuck(next) {
        StuckForever(next, steps[1..], end);
      } else {
        StuckExactly(next, steps[1..], end);
      }
    }
  }

  // Runs in which a sequence is taken and placed before the next is taken.
  ghost predicate OneSender(st: State, step: Step) {
    step.Assign? ==> forall h :: h in st.hands ==> h.stage != Assigned
  }

  ghost predicate OneSenderRun(st: State, steps: seq<Step>, end: State)
    decreases |steps|
  {
    if steps == [] then st == end
    else Enabled(st, steps[0]) && OneSender(st, steps[0]) && OneSenderRun(Apply(st, steps[0]), steps[1..], end)
  }

  ghost predicate Ascending(pending: seq<Item>) {
    forall i, j :: 0 <= i < j < |pending| ==> pending[i].sequence < pending[j].sequence
  }

  // The pending queue is in sequence order, and a sequence not yet placed is the last one taken.
  ghost predicate InOrder(st: State) {
    && st.sender.flow.cwnd >= 1
    && Ascending(st.sender.pending)
    && (forall h :: h in st.hands && h.stage == Assigned ==>
          h.item.sequence == |st.sender.sent| && forall x :: x in st.sender.pending ==> x.sequence < h.item.sequence)
    && (forall i, j :: 0 <= i < j < |st.hands| ==> st.hands[i].stage != Assigned || st.hands[j].stage != Assigned)
  }

  ghost predicate Awake(st: State) {
    !st.broken && st.sender.pending != [] ==> st.flushing || st.sender.unacked != map[] || SendingNow(st)
  }

  lemma DecideOrder(st: State, i: nat)
    requires InOrder(st) && Enabled(st, Decide(i))
    ensures InOrder(Apply(st, Decide(i)))
  {
    hide CanSend;
    WithoutKeeps(st.hands, i);
    assert st.hands[i] in st.hands;
  }

  lemma LetGoOrder(st: State, i: nat)
    requires InOrder(st) && i < |st.hands|
    ensures InOrder(st.(hands := Without(st.hands, i)))
  {
    WithoutKeeps(st.hands, i);
  }

  lemma FlushOrder(st: State)
    requires InOrder(st) && st.sender.pending != []
    ensures InOrder(st.(sender := st.sender.(pending := st.sender.pending[1..]),
                        hands := st.hands + [Hand(st.sender.pending[0], Immediate)]))
  {
    assert forall x :: x in st.sender.pending[1..] ==> x in st.sender.pending;
  }

  lemma AssignOrder(st: State, p: Packet)
    requires Inv(st) && InOrder(st) && OneSender(st, Assign(p))
    ensures InOrder(Apply(st, Assign(p)))
  {
    hide Payloads, Accounted, Received, Genuine;
  }

  lemma OrderKeeps(st: State, step: Step)
    requires Inv(st) && InOrder(st) && Enabled(st, step) && OneSender(st, step)
    ensures InOrder(Apply(st, step))
  {
    hide Gets, CanSend, Inv, Ascending;
    match step
    case Assign(p) => AssignOrder(st, p);
    case Decide(i) => DecideOrder(st, i);
    case Insert(i) => LetGoOrder(st, i);
    case Fail(i) => LetGoOrder(st, i);
    case FlushOne => FlushOrder(st);
    case _ =>
  }

  // Admitted to the unacked map, or on its way there.
  predicate Admitted(st: State, s: nat) {
    s in st.sender.unacked || exists h :: h in st.hands && h.stage != Assigned && h.item.sequence == s
  }

  predicate NotYet(st: State, s: nat) {
    InPending(st, s) || exists h :: h in st.hands && h.stage == Assigned && h.item.sequence == s
  }

  // No packet is admitted while one with a lower sequence waits.
  ghost predicate NoneOvertaken(st: State) {
    forall s, w {:trigger Admitted(st, s), NotYet(st, w)} :: Admitted(st, s) && NotYet(st, w) ==> s < w
  }

  lemma AssignOvertakesNone(st: State, p: Packet)
    requires Inv(st) && NoneOvertaken(st)
    ensures NoneOvertaken(Apply(st, Assign(p)))
  {
    hide Payloads, Accounted, Received, Genuine;
    var after := Apply(st, Assign(p));
    forall s, w {:trigger Admitted(after, s), NotYet(after, w)} | Admitted(after, s) && NotYet(after, w) ensures s < w {
      assert Admitted(st, s);
      if w != |st.sender.sent| + 1 { assert NotYet(st, w); }
    }
  }

  lemma DecideOvertakesNone(st: State, i: nat)
    requires InOrder(st) && NoneOvertaken(st) && Enabled(st, Decide(i))
    ensures NoneOvertaken(Apply(st, Decide(i)))
  {
    hide CanSend;
    var after, item := Apply(st, Decide(i)), st.hands[i].item;
    WithoutKeeps(st.hands, i);
    assert st.hands[i] in st.hands;
    assert NotYet(st, item.sequence);
    forall s, w {:trigger Admitted(after, s), NotYet(after, w)} | Admitted(after, s) && NotYet(after, w) ensures s < w {
      if MustQueue(st.sender, item.sequence) {
        assert Admitted(st, s) && NotYet(st, w);
      } else {
        OneAssigned(st, i, w);
        assert false;
      }
    }
  }

  // Nothing else waits when a packet goes straight out.
  lemma OneAssigned(st: State, i: nat, w: nat)
    requires InOrder(st) && Enabled(st, Decide(i)) && !MustQueue(st.sender, st.hands[i].item.sequence)
    ensures !NotYet(Apply(st, Decide(i)), w)
  {
    hide CanSend, Ascending;
    var after := Apply(st, Decide(i));
    forall h | h in after.hands ensures h.stage != Assigned {
      var j :| 0 <= j < |after.hands| && after.hands[j] == h;
      assert j < i ==> st.hands[j].stage != Assigned;
      assert j > i ==> st.hands[j].stage != Assigned;
    }
  }

  lemma FlushOvertakesNone(st: State)
    requires InOrder(st) && NoneOvertaken(st) && Enabled(st, FlushOne)
    ensures NoneOvertaken(Apply(st, FlushOne))
  {
    hide CanSend;
    var after, front := Apply(st, FlushOne), st.sender.pending[0];
    assert front in st.sender.pending && NotYet(st, front.sequence);
    forall s: nat, w: nat {:trigger Admitted(after, s), NotYet(after, w)} | Admitted(after, s) && NotYet(after, w)
      ensures s < w
    {
      assert s != front.sequence ==> Admitted(st, s);
      assert NotYet(st, w) && w > front.sequence by {
        if InPending(after, w) {
          var x :| x in after.sender.pending && x.sequence == w;
          assert x in st.sender.pending;
        }
      }
    }
  }

  lemma OvertakesNone(st: State, step: Step)
    requires Inv(st) && InOrder(st) && NoneOvertaken(st) && Enabled(st, step) && OneSender(st, step)
    ensures NoneOvertaken(Apply(st, step))
  {
    hide Gets, CanSend, Inv, Ascending, InOrder, OnReplyReceived;
    var after := Apply(st, step);
    match step
    case Assign(p) => AssignOvertakesNone(st, p);
    case Decide(i) => DecideOvertakesNone(st, i);
    case FlushOne => FlushOvertakesNone(st);
    case Insert(i) => WithoutKeeps(st.hands, i); FewerAdmitted(st, after);
    case Fail(i) => WithoutKeeps(st.hands, i); FewerAdmitted(st, after);
    case SendFails(s) => FewerAdmitted(st, after);
    case _ => FewerAdmitted(st, after);
  }

  lemma FewerAdmitted(st: State, after: State)
    requires NoneOvertaken(st) && after.sender.pending == st.sender.pending
    requires forall h :: h in after.hands && h.stage == Assigned ==> h in st.hands
    requires forall s :: s in after.sender.unacked ==> Admitted(st, s)
    requires forall h :: h in after.hands && h.stage != Assigned ==> Admitted(st, h.item.sequence)
    ensures NoneOvertaken(after)
  {
    forall s, w {:trigger Admitted(after, s), NotYet(after, w)} | Admitted(after, s) && NotYet(after, w) ensures s < w {
      assert Admitted(st, s) && NotYet(st, w);
    }
  }

  lemma {:induction false} SendsInOrderFrom(st: State, steps: seq<Step>, end: State)
    requires Inv(st) && InOrder(st) && NoneOvertaken(st) && OneSenderRun(st, steps, end)
    ensures NoneOvertaken(end)
    decreases |steps|
  {
    hide Inv, InOrder, NoneOvertaken, Enabled, Apply, OneSender;
    if steps != [] {
      Keeps(st, steps[0]);
      OrderKeeps(st, steps[0]);
      OvertakesNone(st, steps[0]);
      SendsInOrderFrom(Apply(st, steps[0]), steps[1..], end);
    }
  }

  // With one sending thread packets are admitted in the order of their sequences.
  lemma SendsInOrder(capacity: nat, steps: seq<Step>, st: State, s: nat, w: nat)
    requires OneSenderRun(Initial(capacity), steps, st) && Admitted(st, s) && InPending(st, w)
    ensures s < w
  {
    InitialInv(capacity);
    SendsInOrderFrom(Initial(capacity), steps, st);
    assert NotYet(st, w);
  }

  // When every earlier sequence has been acknowledged the congestion window is open.
  lemma WindowOpens(st: State, s: nat)
    requires NothingLost(st) && !st.broken && st.sender.flow.cwnd >= 1 && 1 <= s <= |st.sender.sent|
    requires s > 1 ==> s - 1 !in st.sender.unacked && !InPending(st, s - 1) && !InHand(st, s - 1)
    ensures CanSend(st.sender.flow, s)
  {
    if s > 1 { assert Accounted(st, s - 1); }
  }

  lemma DecideAwake(st: State, i: nat)
    requires Inv(st) && InOrder(st) && Awake(st) && Enabled(st, Decide(i))
    ensures Awake(Apply(st, Decide(i)))
  {
    hide Payloads, Genuine;
    var after := Apply(st, Decide(i));
    var item := st.hands[i].item;
    WithoutKeeps(st.hands, i);
    assert st.hands[i] in st.hands && SentAs(st.sender.sent, item);
    if SendingNow(st) {
      var h :| h in st.hands && h.stage != Assigned;
      var j :| 0 <= j < |st.hands| && st.hands[j] == h;
      assert h in after.hands by { if !MustQueue(st.sender, item.sequence) { assert after.hands[j] == h; } }
    } else if !MustQueue(st.sender, item.sequence) {
      assert after.hands[i].stage == Immediate;
      assert after.hands[i] in after.hands;
    } else if !after.broken && !st.flushing && st.sender.unacked == map[] && st.sender.pending == [] {
      WindowOpens(st, item.sequence);
      assert false;
    }
  }

  lemma FlushStopAwake(st: State)
    requires Inv(st) && InOrder(st) && Enabled(st, FlushStop)
    ensures Awake(Apply(st, FlushStop))
  {
    hide Payloads, Genuine;
    if !st.broken && st.sender.pending != [] && st.sender.unacked == map[] && !SendingNow(st) {
      var front := st.sender.pending[0];
      assert front in st.sender.pending && SentAs(st.sender.sent, front);
      assert forall x :: x in st.sender.pending ==> x.sequence >= front.sequence;
      assert forall h :: h in st.hands ==> h.item.sequence > front.sequence;
      WindowOpens(st, front.sequence);
      assert false;
    }
  }

  lemma AwakeKeeps(st: State, step: Step)
    requires Inv(st) && InOrder(st) && Awake(st) && Enabled(st, step)
    ensures Awake(Apply(st, step))
  {
    hide Gets, Payloads, Accounted, Received, CanSend, Genuine, Inv, InOrder;
    var after := Apply(st, step);
    match step
    case Assign(p) => if SendingNow(st) { var h :| h in st.hands && h.stage != Assigned; assert h in after.hands; }
    case Decide(i) => DecideAwake(st, i);
    case Insert(i) => assert st.hands[i].item.sequence in after.sender.unacked;
    case SendFails(s) => assert Hand(Item(s, st.sender.unacked[s]), Failed) in after.hands;
    case Fail(_) =>
    case FlushOne => assert Hand(st.sender.pending[0], Immediate) in after.hands;
    case FlushStop => FlushStopAwake(st);
    case _ =>
  }

  lemma {:induction false} OneSenderKeeps(st: State, steps: seq<Step>, end: State)
    requires Inv(st) && InOrder(st) && Awake(st) && OneSenderRun(st, steps, end)
    ensures Inv(end) && InOrder(end) && Awake(end)
    decreases |steps|
  {
    hide Inv, InOrder, Awake, Enabled, Apply, OneSender;
    if steps != [] {
      Keeps(st, steps[0]);
      OrderKeeps(st, steps[0]);
      AwakeKeeps(st, steps[0]);
      OneSenderKeeps(Apply(st, steps[0]), steps[1..], end);
    }
  }

  // With one sending thread the session never gets stuck before it is disconnected: a packet waits
  // in the pending queue only while another is being sent or awaits its acknowledgement.
  lemma OneSenderNeverStuck(capacity: nat, steps: seq<Step>, st: State)
    requires OneSenderRun(Initial(capacity), steps, st) && !st.broken
    ensures !Stuck(st)
  {
    InitialInv(capacity);
    OneSenderKeeps(Initial(capacity), steps, st);
  }

  // --- Reaching a state step by step ---

  ghost predicate Reaches(st: State, end: State) {
    exists steps :: Run(st, steps, end)
  }

  lemma {:induction false} RunAppend(st: State, steps: seq<Step>, mid: State, step: Step)
    requires Run(st, steps, mid) && Enabled(mid, step)
    ensures Run(st, steps + [step], Apply(mid, step))
    decreases |steps|
  {
    hide Enabled, Apply;
    if steps == [] {
      assert [step][1..] == [];
      assert Run(Apply(st, step), [], Apply(mid, step));
    } else {
      assert (steps + [step])[1..] == steps[1..] + [step];
      RunAppend(Apply(st, steps[0]), steps[1..], mid, step);
    }
  }

  lemma Then(st: State, mid: State, step: Step)
    requires Reaches(st, mid) && Enabled(mid, step)
    ensures Reaches(st, Apply(mid, step))
  {
    hide Enabled, Apply;
    var steps :| Run(st, steps, mid);
    RunAppend(st, steps, mid, step);
  }

  // The same, naming the state the step leads to.
  lemma ThenTo(st: State, mid: State, step: Step, end: State)
    requires Reaches(st, mid) && Enabled(mid, step) && Same(Apply(mid, step), end)
    ensures Reaches(st, end)
  {
    hide Reaches;
    Then(st, mid, step);
  }

  predicate Same(a: State, b: State) {
    && a.sender.sent == b.sender.sent && a.sender.pending == b.sender.pending && a.sender.unacked == b.sender.unacked
    && a.sender.flow == b.sender.flow && a.hands == b.hands && a.data == b.data && a.acks == b.acks
    && a.queue == b.queue
    && a == b.(sender := a.sender, hands := a.hands, data := a.data, acks := a.acks, queue := a.queue)
  }

  // --- The methods of RUDPSessionSender are runs of these steps ---

  lemma SendPacketIsARun(st: State, p: Packet)
    requires |st.sender.pending| < st.capacity
    ensures Reaches(st, st.(sender := AfterSend(st.sender, p)))
  {
    hide Reaches, CanSend;
    var item := Item(|st.sender.sent| + 1, p);
    var end := st.(sender := AfterSend(st.sender, p));
    var n := |st.hands|;
    NoSteps(st);
    Then(st, st, Assign(p));
    var numbered := Apply(st, Assign(p));
    assert Without(numbered.hands, n) == st.hands;
    if MustQueue(numbered.sender, item.sequence) {
      ThenTo(st, numbered, Decide(n), end);
    } else {
      Then(st, numbered, Decide(n));
      var decided := Apply(numbered, Decide(n));
      assert Without(decided.hands, n) == st.hands;
      ThenTo(st, decided, Insert(n), end);
    }
  }

  lemma {:induction false} RegisterAllOnly(st: Sender, pending: seq<Item>, items: seq<Item>)
    ensures RegisterAll(st.(pending := pending), items) == RegisterAll(st, items).(pending := pending)
    decreases |items|
  {
    if items != [] { RegisterAllOnly(Register(st, items[0]), pending, items[1..]); }
  }

  lemma FlushedStep(st: Sender)
    requires CanFlush(st)
    ensures Flushed(st) == Flushed(Register(st.(pending := st.pending[1..]), st.pending[0]))
  {
    hide CanSend;
    var n := FlushCount(st.flow, st.pending);
    var rest := st.pending[1..];
    var one := Register(st.(pending := rest), st.pending[0]);
    assert FlushCount(st.flow, rest) == n - 1;
    assert rest[n - 1..] == st.pending[n..] && rest[..n - 1] == st.pending[..n][1..];
    RegisterAllOnly(Register(st, st.pending[0]), st.pending[n..], rest[..n - 1]);
    RegisterAllOnly(Register(st, st.pending[0]), st.pending[n..], st.pending[..n][1..]);
    assert one.(pending := st.pending[n..]) == Register(st.(pending := st.pending[n..]), st.pending[0]);
  }

  lemma {:induction false} FlushIsARun(start: State, st: State)
    requires Reaches(start, st) && st.flushing
    ensures Reaches(start, st.(sender := Flushed(st.sender), flushing := false))
    decreases |st.sender.pending|
  {
    hide Reaches, CanSend, Flushed, RegisterAll;
    var end := st.(sender := Flushed(st.sender), flushing := false);
    if CanFlush(st.sender) {
      var n := |st.hands|;
      FlushedStep(st.sender);
      Then(start, st, FlushOne);
      var taken := Apply(st, FlushOne);
      assert Without(taken.hands, n) == st.hands;
      var inserted := st.(sender := Register(taken.sender, st.sender.pending[0]));
      ThenTo(start, taken, Insert(n), inserted);
      FlushIsARun(start, inserted);
    } else {
      NothingToFlush(st.sender);
      ThenTo(start, st, FlushStop, end);
    }
  }

  lemma NothingToFlush(st: Sender)
    requires !CanFlush(st)
    ensures Flushed(st) == st
  {
    assert FlushCount(st.flow, st.pending) == 0;
    assert st.pending[0..] == st.pending && st.pending[..0] == [];
  }

  lemma OnSendReplyIsARun(st: State, s: nat)
    requires s in st.acks && !st.flushing && Awaited(st.sender, s)
    ensures Reaches(st, st.(sender := Flushed(Acknowledge(st.sender, s))))
  {
    hide Reaches, Flushed, Acknowledge;
    NoSteps(st);
    Then(st, st, Ack(s));
    FlushIsARun(st, Apply(st, Ack(s)));
  }

  // --- Two senders can leave the session stuck ---

  const P := Packet(SEND_TYPE, [])

  // The first packet is sent while two timeouts shrink the window to one, and is acknowledged.
  function FirstSent(flow: Flow, data: set<Item>): State {
    State(Sender([P], [], map[1 := P], flow), 8, [], false, data, {}, multiset{}, 1, [], false)
  }

  function FirstAcked(sent: seq<Packet>, pending: seq<Item>, hands: seq<Hand>, flushing: bool): State {
    State(Sender(sent, pending, map[], Flow(1, 1, false)), 8, hands, flushing, {Item(1, P)}, {1},
          multiset{Entry(1, P)}, 1, [], false)
  }

  lemma ReachesFirstSent()
    ensures Reaches(Initial(8), FirstSent(Flow(4, 0, false), {}))
  {
    hide Reaches;
    var start := Initial(8);
    assert Reaches(start, start) by { NoSteps(start); }
    Then(start, start, Assign(P));
    var numbered := Apply(start, Assign(P));
    Then(start, numbered, Decide(0));
    var decided := Apply(numbered, Decide(0));
    Then(start, decided, Insert(0));
    assert Apply(decided, Insert(0)) == FirstSent(Flow(4, 0, false), {});
  }

  lemma NoSteps(st: State)
    ensures Reaches(st, st)
  {
    assert Run(st, [], st);
  }

  lemma ReachesShrunk()
    ensures Reaches(Initial(8), FirstSent(Flow(1, 0, true), {}))
  {
    hide Reaches;
    var start := Initial(8);
    ReachesFirstSent();
    ThenTo(start, FirstSent(Flow(4, 0, false), {}), Timeout, FirstSent(Flow(2, 0, true), {}));
    ThenTo(start, FirstSent(Flow(2, 0, true), {}), Timeout, FirstSent(Flow(1, 0, true), {}));
  }

  lemma ReachesDelivered()
    ensures Reaches(Initial(8), FirstSent(Flow(1, 0, true), {Item(1, P)}).(acks := {1}, queue := multiset{Entry(1, P)}))
  {
    hide Reaches;
    var start := Initial(8);
    ReachesShrunk();
    var sent := FirstSent(Flow(1, 0, true), {Item(1, P)});
    ThenTo(start, FirstSent(Flow(1, 0, true), {}), Transmit(1), sent);
    ThenTo(start, sent, Deliver(Item(1, P), true), sent.(acks := {1}, queue := multiset{Entry(1, P)}));
  }

  lemma ReachesFirstAcked()
    ensures Reaches(Initial(8), FirstAcked([P], [], [], false))
  {
    hide Reaches;
    var start := Initial(8);
    ReachesDelivered();
    var delivered := FirstSent(Flow(1, 0, true), {Item(1, P)}).(acks := {1}, queue := multiset{Entry(1, P)});
    ThenTo(start, delivered, Ack(1), FirstAcked([P], [], [], true));
    ThenTo(start, FirstAcked([P], [], [], true), FlushStop, FirstAcked([P], [], [], false));
  }

  // Two senders take sequences 2 and 3, and the second reaches the pending queue first.
  lemma TwoSendersGetStuck()
    ensures exists end :: Reaches(Initial(8), end) && !end.broken && Stuck(end)
  {
    hide Reaches;
    var start := Initial(8);
    var two, three := Item(2, P), Item(3, P);
    ReachesFirstAcked();
    var oneTaken := FirstAcked([P, P], [], [Hand(two, Assigned)], false);
    var bothTaken := FirstAcked([P, P, P], [], [Hand(two, Assigned), Hand(three, Assigned)], false);
    var secondPlaced := FirstAcked([P, P, P], [three], [Hand(two, Assigned)], false);
    var end := FirstAcked([P, P, P], [three, two], [], false);
    ThenTo(start, FirstAcked([P], [], [], false), Assign(P), oneTaken);
    ThenTo(start, oneTaken, Assign(P), bothTaken);
    ThenTo(start, bothTaken, Decide(1), secondPlaced);
    ThenTo(start, secondPlaced, Decide(0), end);
    assert Stuck(end);
  }
}
