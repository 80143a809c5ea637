/** What holds in every state a run of the send side can reach. */
module SendOwnershipRuns {
  import opened Common
  import opened SendOwnership
  import opened SendOwnershipSafety
  import opened SendOwnershipTokens
  import opened SendOwnershipRounds
  import opened SendOwnershipRetries

  // Any interleaving of the steps.
  ghost predicate Run(st: State, steps: seq<Step>, end: State, limit: nat)
    decreases |steps|
  {
    if steps == [] then st == end
    else Enabled(st, steps[0]) && Run(Apply(st, steps[0], limit), steps[1..], end, limit)
  }

  // ... in which no send call straddles a re-initialisation, before shutdown.
  ghost predicate OrderlyRun(st: State, steps: seq<Step>, end: State, limit: nat)
    decreases |steps|
  {
    if steps == [] then st == end
    else Orderly(st, steps[0]) && OrderlyRun(Apply(st, steps[0], limit), steps[1..], end, limit)
  }

  lemma {:induction false} RunSafe(st: State, steps: seq<Step>, end: State, limit: nat)
    requires Safe(st) && Run(st, steps, end, limit)
    ensures Safe(end)
    decreases |steps|
  {
    if steps != [] {
      KeepsSafe(st, steps[0], limit);
      RunSafe(Apply(st, steps[0], limit), steps[1..], end, limit);
    }
  }

  lemma {:induction false} RunKeeps(st: State, steps: seq<Step>, end: State, limit: nat)
    requires Safe(st) && Carried(st) && Rounds(st, limit) && Verdicts(st, limit) && SettledErased(st)
    requires Run(st, steps, end, limit)
    ensures Safe(end) && Carried(end) && Rounds(end, limit) && Verdicts(end, limit) && SettledErased(end)
    decreases |steps|
  {
    hide Carried, Rounds, Verdicts, SettledErased, Enabled, Apply;
    if steps != [] {
      KeepsSafe(st, steps[0], limit);
      KeepsCarried(st, steps[0], limit);
      KeepsRounds(st, steps[0], limit);
      KeepsVerdicts(st, steps[0], limit);
      KeepsSettledErased(st, steps[0], limit);
      RunKeeps(Apply(st, steps[0], limit), steps[1..], end, limit);
    }
  }

  lemma {:induction false} OrderlyRunKeeps(st: State, steps: seq<Step>, end: State, limit: nat)
    requires Safe(st) && Single(st) && Rounds(st, limit) && AckedWereSent(st) && OrderlyRun(st, steps, end, limit)
    ensures Safe(end) && Single(end) && Rounds(end, limit) && AckedWereSent(end)
    decreases |steps|
  {
    if steps != [] {
      KeepsSafe(st, steps[0], limit);
      KeepsSingle(st, steps[0], limit);
      KeepsRounds(st, steps[0], limit);
      KeepsAckedWereSent(st, steps[0], limit);
      OrderlyRunKeeps(Apply(st, steps[0], limit), steps[1..], end, limit);
    }
  }

  lemma InitialSafe()
    ensures Safe(INITIAL)
  {
    forall id ensures References(INITIAL, id) == RefCount(INITIAL, id) {
      assert KeysOwnedBy(INITIAL.unacked, id) == {};
    }
  }

  // The count of every object is the number of its references, none is ever invalid, nothing that
  // a map, queue, slot, heap entry or function refers to has been recycled, and every allocation is
  // live or was returned to the pool once.
  lemma RefCountsExact(steps: seq<Step>, st: State, limit: nat)
    requires Run(INITIAL, steps, st, limit)
    ensures !st.fault
    ensures forall id :: id in st.live ==> st.live[id].refCount == References(st, id) >= 1
    ensures forall s :: s in st.unacked ==> st.unacked[s] in st.live
    ensures forall id :: id in st.queue || st.reserved == Some(id) ==> id in st.live
    ensures forall h :: h in st.hands ==> h.id in st.live
    ensures forall e :: e in st.heap ==> e.id in st.live && e.birth == st.live[e.id].birth
    ensures st.births == st.frees + |st.live|
  {
    InitialSafe();
    RunSafe(INITIAL, steps, st, limit);
    forall id | id in st.live ensures st.live[id].refCount == References(st, id) {
      assert References(st, id) == RefCount(st, id);
    }
    forall s | s in st.unacked ensures st.unacked[s] in st.live {
      MappedLive(st, s);
    }
    forall id | id in st.queue || st.reserved == Some(id) ensures id in st.live {
      TransmittableLive(st, id);
    }
    forall i | 0 <= i < |st.hands| ensures st.hands[i].id in st.live {
      HandLive(st, i);
    }
  }

  lemma OrderlyReached(steps: seq<Step>, st: State, limit: nat)
    requires OrderlyRun(INITIAL, steps, st, limit)
    ensures Safe(st) && Single(st) && Rounds(st, limit) && AckedWereSent(st)
  {
    InitialSafe();
    OrderlyRunKeeps(INITIAL, steps, st, limit);
  }

  lemma Reached(steps: seq<Step>, st: State, limit: nat)
    requires Run(INITIAL, steps, st, limit)
    ensures Safe(st) && Carried(st) && Rounds(st, limit) && Verdicts(st, limit) && SettledErased(st)
  {
    InitialSafe();
    RunKeeps(INITIAL, steps, st, limit);
  }

  // --- The duty to transmit ---

  // Over every interleaving no object, erased or not, carries two tokens, and an entry is stale, for
  // its version or otherwise, exactly when its packet was erased.
  lemma OneTokenAtMost(steps: seq<Step>, st: State, limit: nat)
    requires Run(INITIAL, steps, st, limit)
    ensures forall id :: Tokens(st, id) <= 1
    ensures forall i :: 0 <= i < |st.heap| ==>
              st.heap[i].id in st.live && (CanRetry(st, PopStale(i)) <==> st.live[st.heap[i].id].erased)
  {
    Reached(steps, st, limit);
    forall i | 0 <= i < |st.heap|
      ensures st.heap[i].id in st.live && (CanRetry(st, PopStale(i)) <==> st.live[st.heap[i].id].erased)
    {
      assert st.heap[i] in st.heap;
    }
  }

  // In every state of a run, while the session is not releasing, each packet that awaits its ack has
  // exactly one token.
  ghost predicate AlwaysTransmitting(st: State, steps: seq<Step>, limit: nat)
    decreases |steps|
  {
    && Transmitting(st)
    && (steps != [] && Enabled(st, steps[0]) ==> AlwaysTransmitting(Apply(st, steps[0], limit), steps[1..], limit))
  }

  ghost predicate NeverLosesAwaited(st: State, steps: seq<Step>, limit: nat)
    decreases |steps|
  {
    steps != [] && Enabled(st, steps[0]) ==>
      !LosesAwaited(st, steps[0]) && NeverLosesAwaited(Apply(st, steps[0], limit), steps[1..], limit)
  }

  lemma {:induction false} TransmittingFrom(st: State, steps: seq<Step>, end: State, limit: nat)
    requires Safe(st) && Carried(st) && Transmitting(st) && Run(st, steps, end, limit)
    ensures AlwaysTransmitting(st, steps, limit) <==> NeverLosesAwaited(st, steps, limit)
    decreases |steps|
  {
    hide Carried, Transmitting, LosesAwaited, Enabled, Apply;
    if steps != [] {
      if LosesAwaited(st, steps[0]) {
        LossShows(st, steps[0], limit);
        assert !AlwaysTransmitting(Apply(st, steps[0], limit), steps[1..], limit);
      } else {
        KeepsSafe(st, steps[0], limit);
        KeepsCarried(st, steps[0], limit);
        KeepsTransmitting(st, steps[0], limit);
        TransmittingFrom(Apply(st, steps[0], limit), steps[1..], end, limit);
      }
    }
  }

  // Over every interleaving: no packet that awaits its ack in a session that is not releasing is ever
  // without its one token, if and only if no step skips one as a duplicate of its batch or drops its
  // heap entry when the scheduler stops.
  lemma TransmittingExactly(steps: seq<Step>, end: State, limit: nat)
    requires Run(INITIAL, steps, end, limit)
    ensures AlwaysTransmitting(INITIAL, steps, limit) <==> NeverLosesAwaited(INITIAL, steps, limit)
  {
    InitialSafe();
    TransmittingFrom(INITIAL, steps, end, limit);
  }

  // While the session is not releasing, the duty to transmit an unacked packet lies in exactly one
  // place, so the packet is queued, timed, or being worked on.
  lemma OneTransmitToken(steps: seq<Step>, st: State, limit: nat, s: nat)
    requires OrderlyRun(INITIAL, steps, st, limit)
    requires !st.releasing && Awaiting(st, s)
    ensures var id := st.unacked[s];
            multiset(st.queue)[id] + SlotRefs(st.reserved, id) + HeapRefs(st.heap, id)
            + HandRefs(st.hands, id, true) == 1
  {
    OrderlyReached(steps, st, limit);
    assert Tokens(st, st.unacked[s]) == 1;
  }

  // In those runs, in addition, only replies are dropped as duplicates of a batch.
  lemma SpareChecksNeverFire(steps: seq<Step>, st: State, limit: nat)
    requires OrderlyRun(INITIAL, steps, st, limit)
    ensures forall id :: Tokens(st, id) <= 1
    ensures forall i :: 0 <= i < |st.heap| ==>
              st.heap[i].id in st.live && (CanRetry(st, PopStale(i)) <==> st.live[st.heap[i].id].erased)
    ensures forall i: nat {:trigger CanStream(st, SkipDuplicate(i))} ::
              CanStream(st, SkipDuplicate(i)) ==> At(st, st.hands[i].id).isReply
  {
    OrderlyReached(steps, st, limit);
    OrderlyIsRun(INITIAL, steps, st, limit);
    OneTokenAtMost(steps, st, limit);
    forall i: nat | CanStream(st, SkipDuplicate(i)) ensures At(st, st.hands[i].id).isReply {
      HandLive(st, i);
      assert st.hands[i] in st.hands;
    }
  }

  lemma {:induction false} OrderlyIsRun(st: State, steps: seq<Step>, end: State, limit: nat)
    requires OrderlyRun(st, steps, end, limit)
    ensures Run(st, steps, end, limit)
    decreases |steps|
  {
    hide Enabled, Apply;
    if steps != [] { OrderlyIsRun(Apply(st, steps[0], limit), steps[1..], end, limit); }
  }

  // --- Rounds ---

  // Over every interleaving no data packet is put in a stream more than
  // max(1, maxPacketRetransmissionCount) times.
  lemma BoundedTransmission(steps: seq<Step>, st: State, limit: nat, id: Id)
    requires Run(INITIAL, steps, st, limit)
    requires id in st.live && !st.live[id].isReply
    ensures st.live[id].sent <= if limit < 1 then 1 else limit
  {
    Reached(steps, st, limit);
  }

  // Over every interleaving: when a timer is due and the packet still awaits its ack, the session is
  // given up if and only if the packet has been in a stream that many times. Otherwise it goes back
  // to the send queue, unless it belongs to an earlier life or the session is already releasing.
  lemma RetriesExactly(steps: seq<Step>, st: State, limit: nat, hand: nat)
    requires Run(INITIAL, steps, st, limit) && CanRetry(st, CountRetry(hand))
    ensures var id, next := st.hands[hand].id, Apply(st, Retry(CountRetry(hand)), limit);
            && id in st.live && !st.live[id].isReply
            && (CanRetry(next, GiveUp(hand)) <==> st.live[id].sent == StreamBound(limit))
            && (st.live[id].sent < StreamBound(limit) ==>
                 && (CanRetry(next, Resend(hand)) <==> OwnerValid(st, id))
                 && (CanRetry(next, RefuseResend(hand)) <==> !OwnerValid(st, id) || st.releasing)
                 && (OwnerValid(st, id) ==> id in Apply(next, Retry(Resend(hand)), limit).queue))
  {
    hide Run, Safe, Carried, Rounds, Verdicts, SettledErased;
    Reached(steps, st, limit);
    DueRound(st, limit, hand);
    VerdictOfCount(st, limit, hand);
  }

  lemma DueRound(st: State, limit: nat, hand: nat)
    requires Safe(st) && Rounds(st, limit) && Verdicts(st, limit) && CanRetry(st, CountRetry(hand))
    ensures var id := st.hands[hand].id;
            && id in st.live && !st.live[id].isReply
            && st.live[id].sent == st.live[id].retransmissions + 1 <= StreamBound(limit)
  {
    var id := st.hands[hand].id;
    HandLive(st, hand);
    assert st.hands[hand] == Hand(id, Due) && st.hands[hand] in st.hands;
    assert Verdict(st, st.hands[hand], limit);
    assert RoundOf(st, id, limit) && Waiting(st, id);
  }

  lemma VerdictOfCount(st: State, limit: nat, hand: nat)
    requires CanRetry(st, CountRetry(hand)) && st.hands[hand].id in st.live
    ensures var id, next := st.hands[hand].id, Apply(st, Retry(CountRetry(hand)), limit);
            && (CanRetry(next, GiveUp(hand)) <==> st.live[id].retransmissions + 1 >= limit)
            && (st.live[id].retransmissions + 1 < limit ==>
                 && (CanRetry(next, Resend(hand)) <==> OwnerValid(st, id))
                 && (CanRetry(next, RefuseResend(hand)) <==> !OwnerValid(st, id) || st.releasing)
                 && (OwnerValid(st, id) ==> id in Apply(next, Retry(Resend(hand)), limit).queue))
  {
    hide UnrefAll;
  }

  // ... so a session is given up only for a packet that was in a stream as often as allowed, and then
  // it is, if the packet is of this life.
  lemma GivesUpAtLimit(steps: seq<Step>, st: State, limit: nat, hand: nat)
    requires Run(INITIAL, steps, st, limit) && CanRetry(st, GiveUp(hand))
    ensures var id := st.hands[hand].id;
            && id in st.live && !st.live[id].isReply && st.live[id].sent == StreamBound(limit)
            && (OwnerValid(st, id) ==> Apply(st, Retry(GiveUp(hand)), limit).releasing)
  {
    Reached(steps, st, limit);
    assert st.hands[hand] in st.hands;
    assert Verdict(st, st.hands[hand], limit);
    assert RoundOf(st, st.hands[hand].id, limit);
  }

  // No run puts an erased packet in a stream or counts a retransmission of it, as long as it lives.
  lemma {:induction false} ErasedIsDone(st: State, steps: seq<Step>, end: State, limit: nat, id: Id, info: Info)
    requires Safe(st) && Run(st, steps, end, limit) && info.birth < st.births && info.erased
    requires id in st.live && st.live[id].birth == info.birth ==> SameTransmissions(info, st.live[id])
    ensures id in end.live && end.live[id].birth == info.birth ==> SameTransmissions(info, end.live[id])
    decreases |steps|
  {
    hide Safe, Enabled, Apply;
    if steps != [] {
      var next := Apply(st, steps[0], limit);
      KeepsSafe(st, steps[0], limit);
      BirthsGrow(st, steps[0], limit);
      if id in st.live && st.live[id].birth == info.birth {
        if id in next.live { ErasedStays(st, steps[0], limit, id); }
      } else {
        GoneStaysGone(st, steps[0], limit, id, info.birth);
      }
      ErasedIsDone(next, steps[1..], end, limit, id, info);
    }
  }

  // So an acknowledgement ends a packet's transmission.
  lemma AcknowledgedIsDone(steps: seq<Step>, st: State, limit: nat, hand: nat, more: seq<Step>, end: State)
    requires Run(INITIAL, steps, st, limit) && CanSession(st, TakeSample(hand)) && Run(st, more, end, limit)
    ensures var id := st.hands[hand].id;
            && id in st.live && st.live[id].erased
            && (id in end.live && end.live[id].birth == st.live[id].birth ==>
                 SameTransmissions(st.live[id], end.live[id]))
  {
    Reached(steps, st, limit);
    HandLive(st, hand);
    assert st.hands[hand] in st.hands;
    ErasedIsDone(st, more, end, limit, st.hands[hand].id, st.live[st.hands[hand].id]);
  }

  // SendPacketInfo::TryGetRttSample at the current time
  function RttSample(st: State, id: Id): Option<nat> {
    var info := At(st, id);
    if info.isReply || !info.rttUsable || info.lastSend.None? || st.clock <= info.lastSend.value then None
    else Some(st.clock - info.lastSend.value)
  }

  // Over every interleaving a sample comes only from a packet put in a stream at most once and never
  // retransmitted, and, once it has been in one, measures from that moment.
  lemma SampledAtMostOnce(steps: seq<Step>, st: State, limit: nat, id: Id)
    requires Run(INITIAL, steps, st, limit) && id in st.live && RttSample(st, id).Some?
    ensures st.live[id].sent <= 1 && st.live[id].retransmissions == 0
    ensures st.live[id].sent == 1 ==> RttSample(st, id).value == st.clock - st.live[id].firstSend
  {
    Reached(steps, st, limit);
    assert SampleOf(st, id) && RoundOf(st, id, limit);
  }

  // Karn's rule (section 3 of RFC 6298): the samples OnSendReply takes of packets of this life come
  // from packets put in a stream exactly once, and measure from that moment.
  lemma KarnsRule(steps: seq<Step>, st: State, limit: nat, hand: nat)
    requires OrderlyRun(INITIAL, steps, st, limit)
    requires CanSession(st, TakeSample(hand)) && OwnerValid(st, st.hands[hand].id)
    requires RttSample(st, st.hands[hand].id).Some?
    ensures var info := At(st, st.hands[hand].id);
            && info.sent == 1 && info.retransmissions == 0
            && RttSample(st, st.hands[hand].id).value == st.clock - info.firstSend
  {
    OrderlyReached(steps, st, limit);
    var id := st.hands[hand].id;
    HandLive(st, hand);
    assert st.hands[hand] in st.hands && TakenOut(st.hands[hand].place);
    assert SampleOf(st, id) && RoundOf(st, id, limit);
  }

  // Without the discipline the property fails. A send call takes sequence 1, then the session is
  // re-initialised and a second send call takes sequence 1 of the new life; both allocate a packet now.
  // The second's is in the map; the first's is streamed first, so the other is dropped as its
  // duplicate and never timed.
  lemma ReusedSequenceLosesTimer(limit: nat)
    ensures exists steps, st: State ::
              Run(INITIAL, steps, st, limit) && !st.releasing && Awaiting(st, 1) && Tokens(st, st.unacked[1]) == 0
  {
    var p0: seq<Step> := [];
    var p1, s1 := Extend(p0, INITIAL, Send(TakeSequence), limit);
    var p2, s2 := Extend(p1, s1, Session(Disconnect), limit);
    var p3, s3 := Extend(p2, s2, Session(Reinitialise), limit);
    assert s3 == INITIAL.(generation := 1, tickets := {Ticket(1, 0)});
    AllocatesBoth(p3, s3, limit);
  }

  lemma AllocatesBoth(p3: seq<Step>, s3: State, limit: nat)
    requires Run(INITIAL, p3, s3, limit) && s3 == INITIAL.(generation := 1, tickets := {Ticket(1, 0)})
    ensures exists steps, st: State ::
              Run(INITIAL, steps, st, limit) && !st.releasing && Awaiting(st, 1) && Tokens(st, st.unacked[1]) == 0
  {
    hide Run, Awaiting, Tokens;
    var p4, s4 := Extend(p3, s3, Send(TakeSequence), limit);
    var p5, s5 := Extend(p4, s4, Send(Allocate(0, Ticket(1, 1), false)), limit);
    var p6, s6 := Extend(p5, s5, Send(Insert(0)), limit);
    assert s6.hands == [Hand(0, Registered)] && s6.unacked == map[1 := 0] && Ticket(1, 0) in s6.tickets;
    var p7, s7 := Extend(p6, s6, Send(Allocate(1, Ticket(1, 0), false)), limit);
    assert s7.hands == [Hand(0, Registered), Hand(1, Initialised)];
    var p8, s8 := Extend(p7, s7, Send(Insert(1)), limit);
    assert s8.hands == [Hand(0, Registered), Hand(1, Registered)] && s8.unacked == map[1 := 0];
    QueuesBoth(p8, s8, limit);
  }

  predicate SameSequence(st: State, id: Id) {
    && id in st.live && st.live[id].sequence == 1 && !st.live[id].isReply && !st.live[id].erased
    && st.live[id].generation == st.generation && st.live[id].refCount >= 1
  }

  predicate Quiet(st: State) {
    st.unacked == map[1 := 0] && st.reserved == None && !st.releasing && SameSequence(st, 0) && SameSequence(st, 1)
  }

  lemma QueuesBoth(p4: seq<Step>, s4: State, limit: nat)
    requires Run(INITIAL, p4, s4, limit) && Quiet(s4) && s4.heap == [] && s4.batch == Idle
    requires s4.hands == [Hand(0, Registered), Hand(1, Registered)] && s4.queue == []
    ensures exists steps, st: State ::
              Run(INITIAL, steps, st, limit) && !st.releasing && Awaiting(st, 1) && Tokens(st, st.unacked[1]) == 0
  {
    var p5, s5 := Extend(p4, s4, Send(Push(1)), limit);
    assert s5.queue == [1] && s5.hands == [Hand(0, Registered), Hand(1, Pushed)];
    var p6, s6 := Extend(p5, s5, Send(Push(0)), limit);
    assert s6.queue == [1, 0] && s6.hands == [Hand(0, Pushed), Hand(1, Pushed)];
    StartsBatch(p6, s6, limit);
  }

  lemma StartsBatch(p6: seq<Step>, s6: State, limit: nat)
    requires Run(INITIAL, p6, s6, limit) && Quiet(s6) && s6.heap == [] && s6.batch == Idle
    requires s6.hands == [Hand(0, Pushed), Hand(1, Pushed)] && s6.queue == [1, 0]
    ensures exists steps, st: State ::
              Run(INITIAL, steps, st, limit) && !st.releasing && Awaiting(st, 1) && Tokens(st, st.unacked[1]) == 0
  {
    var p7, s7 := Extend(p6, s6, Stream(BeginBatch), limit);
    var p8, s8 := Extend(p7, s7, Stream(TakeReserved), limit);
    assert NoneStreaming(s8);
    var p9, s9 := Extend(p8, s8, Stream(PopFront), limit);
    assert s9.queue == [0] && s9.hands == [Hand(0, Pushed), Hand(1, Pushed), Hand(1, Streaming)];
    CommitsFirst(p9, s9, limit);
  }

  lemma CommitsFirst(p9: seq<Step>, s9: State, limit: nat)
    requires Run(INITIAL, p9, s9, limit) && Quiet(s9) && s9.heap == [] && s9.batch == Building(true, 1, {})
    requires s9.hands == [Hand(0, Pushed), Hand(1, Pushed), Hand(1, Streaming)] && s9.queue == [0]
    ensures exists steps, st: State ::
              Run(INITIAL, steps, st, limit) && !st.releasing && Awaiting(st, 1) && Tokens(st, st.unacked[1]) == 0
  {
    hide Run, Awaiting, Tokens;
    var p10, s10 := Extend(p9, s9, Stream(MarkSent(2)), limit);
    CommitsMarked(p10, s10, limit);
  }

  lemma CommitsMarked(p10: seq<Step>, s10: State, limit: nat)
    requires Run(INITIAL, p10, s10, limit) && Quiet(s10) && s10.heap == [] && s10.batch == Building(true, 1, {})
    requires s10.hands == [Hand(0, Pushed), Hand(1, Pushed), Hand(1, Streaming)] && s10.queue == [0]
    requires s10.live[1].lastSend.Some?
    ensures exists steps, st: State ::
              Run(INITIAL, steps, st, limit) && !st.releasing && Awaiting(st, 1) && Tokens(st, st.unacked[1]) == 0
  {
    hide Run, Awaiting, Tokens;
    var moved := MoveOn(s10, 2, Leaving);
    assert moved.hands == [Hand(0, Pushed), Hand(1, Pushed), Hand(1, Leaving)];
    var p11, s11 := Extend(p10, s10, Stream(Commit(2)), limit);
    CommitPlaces(moved, 1);
    SkipsSecond(p11, s11, limit);
  }

  lemma SkipsSecond(p11: seq<Step>, s11: State, limit: nat)
    requires Run(INITIAL, p11, s11, limit) && Quiet(s11) && s11.batch == Building(true, 1, {Key(false, 1)})
    requires s11.hands == [Hand(0, Pushed), Hand(1, Pushed), Hand(1, Leaving)] && s11.queue == [0]
    requires |s11.heap| == 1 && s11.heap[0].id == 1
    ensures exists steps, st: State ::
              Run(INITIAL, steps, st, limit) && !st.releasing && Awaiting(st, 1) && Tokens(st, st.unacked[1]) == 0
  {
    assert NoneStreaming(s11);
    var p12, s12 := Extend(p11, s11, Stream(PopFront), limit);
    assert s12.hands == [Hand(0, Pushed), Hand(1, Pushed), Hand(1, Leaving), Hand(0, Streaming)];
    var p13, s13 := Extend(p12, s12, Stream(SkipDuplicate(3)), limit);
    assert s13.hands == [Hand(0, Pushed), Hand(1, Pushed), Hand(1, Leaving), Hand(0, Leaving)];
    NoTokenLeft(s13);
    assert Run(INITIAL, p13, s13, limit) && Awaiting(s13, 1);
  }

  lemma NoTokenLeft(st: State)
    requires st.queue == [] && st.reserved == None && |st.heap| == 1 && st.heap[0].id == 1
    requires st.hands == [Hand(0, Pushed), Hand(1, Pushed), Hand(1, Leaving), Hand(0, Leaving)]
    ensures Tokens(st, 0) == 0
  {
    var h := st.hands;
    HandRefsAppend([], h[0], 0, true);
    HandRefsAppend([h[0]], h[1], 0, true);
    HandRefsAppend([h[0], h[1]], h[2], 0, true);
    HandRefsAppend([h[0], h[1], h[2]], h[3], 0, true);
    assert [] + [h[0]] == [h[0]] && [h[0]] + [h[1]] == [h[0], h[1]] && [h[0], h[1]] + [h[2]] == [h[0], h[1], h[2]];
    assert [h[0], h[1], h[2]] + [h[3]] == h;
    HeapRefsAppend([], st.heap[0], 0);
    assert [] + [st.heap[0]] == st.heap;
  }

  // --- Packets that no acknowledgement can reach ---

  // Over every interleaving: a packet that is not erased leaves the unacked map exactly by its
  // acknowledgement, or when a rejected send call erases it by the sequence they share.
  lemma LeavesMap(steps: seq<Step>, st: State, limit: nat, step: Step, s: nat)
    requires Run(INITIAL, steps, st, limit) && Enabled(st, step) && s in st.unacked
    requires var id, after := st.unacked[s], Apply(st, step, limit); id in after.live && !after.live[id].erased
    ensures Leaves(st, Apply(st, step, limit), s) <==> step == Session(Ack(s)) || ErasesAnother(st, step, s)
  {
    hide Run, Safe, Carried, Rounds, Verdicts, SettledErased, Apply;
    Reached(steps, st, limit);
    LeavesMapExactly(st, step, limit, s);
  }

  // Queued in this life, not erased, and not in the map.
  predicate Orphaned(st: State, id: Id) {
    && id in st.queue && id in st.live && !st.live[id].erased && !st.live[id].isReply && OwnerValid(st, id)
    && st.live[id].sequence !in st.unacked && !st.releasing
  }

  // The second happens. A send call has inserted its packet when the session is released and
  // re-initialised; in the next life another takes the same sequence. Then the first call is refused
  // for its generation, and erases what the map holds under its sequence.
  lemma RejectedSendErasesNewer(limit: nat)
    ensures exists steps, st: State :: Run(INITIAL, steps, st, limit) && Orphaned(st, 1)
  {
    hide Orphaned;
    var p1, s1 := Extend([], INITIAL, Send(TakeSequence), limit);
    var p2, s2 := Extend(p1, s1, Send(Allocate(0, Ticket(1, 0), false)), limit);
    var p3, s3 := Extend(p2, s2, Send(Insert(0)), limit);
    assert s3.hands == [Hand(0, Registered)] && s3.unacked == map[1 := 0] && s3.tickets == {};
    ReleasesUnder(p3, s3, limit);
  }

  predicate OldCall(st: State, erased: bool, references: int) {
    && 0 in st.live && st.live[0].sequence == 1 && !st.live[0].isReply && st.live[0].generation == 0
    && st.live[0].erased == erased && st.live[0].refCount == references && 1 !in st.live
    && st.queue == [] && st.reserved == None && st.heap == [] && st.batch == Idle && st.tickets == {}
    && st.hands == [Hand(0, Registered)]
  }

  lemma ReleasesUnder(p: seq<Step>, st: State, limit: nat)
    requires Run(INITIAL, p, st, limit) && OldCall(st, false, 2) && st.unacked == map[1 := 0] && st.generation == 0
    ensures exists steps, end: State :: Run(INITIAL, steps, end, limit) && Orphaned(end, 1)
  {
    hide Orphaned, Run;
    var p1, s1 := Extend(p, st, Session(Disconnect), limit);
    var p2, s2 := Extend(p1, s1, Session(ClearUnacked(1)), limit);
    assert s2.unacked == map[] && OldCall(s2, true, 1);
    var p3, s3 := Extend(p2, s2, Session(Reinitialise), limit);
    assert OldCall(s3, true, 1) && s3.unacked == map[];
    SendsAgain(p3, s3, limit);
  }

  lemma SendsAgain(p: seq<Step>, st: State, limit: nat)
    requires Run(INITIAL, p, st, limit) && OldCall(st, true, 1) && st.unacked == map[]
    requires st.generation == 1 && st.lastSequence == 0 && !st.releasing
    ensures exists steps, end: State :: Run(INITIAL, steps, end, limit) && Orphaned(end, 1)
  {
    hide Orphaned, Run;
    var p1, s1 := Extend(p, st, Send(TakeSequence), limit);
    var p2, s2 := Extend(p1, s1, Send(Allocate(1, Ticket(1, 1), false)), limit);
    assert s2.hands == [Hand(0, Registered), Hand(1, Initialised)];
    var p3, s3 := Extend(p2, s2, Send(Insert(1)), limit);
    assert s3.hands == [Hand(0, Registered), Hand(1, Registered)] && s3.unacked == map[1 := 1];
    var p4, s4 := Extend(p3, s3, Send(Push(1)), limit);
    assert s4.hands == [Hand(0, Registered), Hand(1, Pushed)] && s4.queue == [1];
    RefusesOld(p4, s4, limit);
  }

  lemma RefusesOld(p: seq<Step>, st: State, limit: nat)
    requires Run(INITIAL, p, st, limit) && st.hands == [Hand(0, Registered), Hand(1, Pushed)]
    requires st.queue == [1] && st.unacked == map[1 := 1] && !st.releasing && st.generation == 1
    requires 0 in st.live && st.live[0].sequence == 1 && !st.live[0].isReply && st.live[0].generation == 0
    requires 1 in st.live && st.live[1].sequence == 1 && !st.live[1].isReply && !st.live[1].erased
    requires st.live[1].generation == 1 && st.live[1].refCount == 3
    ensures exists steps, end: State :: Run(INITIAL, steps, end, limit) && Orphaned(end, 1)
  {
    hide Run;
    var p1, s1 := Extend(p, st, Send(Refuse(0)), limit);
    assert s1.hands == [Hand(0, Rejected), Hand(1, Pushed)];
    var p2, s2 := Extend(p1, s1, Send(EraseRejected(0)), limit);
    assert s2.unacked == map[];
    assert Orphaned(s2, 1);
  }

  lemma Extend(steps: seq<Step>, st: State, step: Step, limit: nat) returns (longer: seq<Step>, next: State)
    requires Run(INITIAL, steps, st, limit) && Enabled(st, step)
    ensures longer == steps + [step] && next == Apply(st, step, limit) && Run(INITIAL, longer, next, limit)
  {
    longer, next := steps + [step], Apply(st, step, limit);
    RunAppend(INITIAL, steps, st, step, limit);
  }

  lemma {:induction false} RunAppend(from: State, steps: seq<Step>, st: State, step: Step, limit: nat)
    requires Run(from, steps, st, limit) && Enabled(st, step)
    ensures Run(from, steps + [step], Apply(st, step, limit), limit)
    decreases |steps|
  {
    if steps == [] {
      assert Run(Apply(st, step, limit), [], Apply(st, step, limit), limit);
      assert ([step])[1..] == [];
      assert [] + [step] == [step];
    } else {
      assert (steps + [step])[1..] == steps[1..] + [step];
      RunAppend(Apply(from, steps[0], limit), steps[1..], st, step, limit);
    }
  }
}
