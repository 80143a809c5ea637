/**
 How often a packet is put in a stream, and which packets may give a round-trip sample.
 A packet that waits in the heap was streamed once more than it was retried; one on its way
 to a stream exactly as often.
 */
module SendOwnershipRounds {
  import opened Common
  import opened SendOwnership
  import opened SendOwnershipSafety
  import opened SendOwnershipTokens

  // How often a data packet may be put in a stream.
  function StreamBound(limit: nat): nat {
    if limit < 1 then 1 else limit
  }

  predicate Outgoing(st: State, id: Id) {
    || Transmittable(st, id) || Hand(id, Initialised) in st.hands
    || Hand(id, Registered) in st.hands || Hand(id, Retrying) in st.hands
  }

  predicate Waiting(st: State, id: Id) {
    HeapRefs(st.heap, id) >= 1 || Hand(id, Due) in st.hands
  }

  predicate RoundOf(st: State, id: Id, limit: nat)
    requires id in st.live
  {
    var info := st.live[id];
    && info.sent <= info.retransmissions + 1
    && info.sent <= StreamBound(limit)
    && (Outgoing(st, id) ==> info.sent == info.retransmissions < StreamBound(limit))
    && (Waiting(st, id) ==> info.sent == info.retransmissions + 1 && info.retransmissions < StreamBound(limit))
  }

  predicate SampleOf(st: State, id: Id)
    requires id in st.live
  {
    var info := st.live[id];
    && (info.retransmissions > 0 || Hand(id, Due) in st.hands ==> !info.rttUsable)
    && (info.rttUsable && info.sent >= 1 ==> info.lastSend == Some(info.firstSend) && info.firstSend <= st.clock)
    && (info.lastSend.Some? ==> info.lastSend.value <= st.clock)
  }

  ghost predicate Rounds(st: State, limit: nat) {
    forall id :: id in st.live && !st.live[id].isReply ==> RoundOf(st, id, limit) && SampleOf(st, id)
  }

  // --- Places of one token ---

  lemma {:induction false} HandCounted(hands: seq<Hand>, h: Hand)
    requires h in hands && CarriesToken(h.place)
    ensures HandRefs(hands, h.id, true) >= 1
  {
    var i :| 0 <= i < |hands| && hands[i] == h;
    HandRefsWithout(hands, i, h.id, true);
  }

  lemma TwoHandsCounted(hands: seq<Hand>, g: Hand, h: Hand)
    requires g in hands && h in hands && g != h && g.id == h.id && CarriesToken(g.place) && CarriesToken(h.place)
    ensures HandRefs(hands, h.id, true) >= 2
  {
    var i :| 0 <= i < |hands| && hands[i] == h;
    var j :| 0 <= j < |hands| && hands[j] == g;
    HandRefsWithout(hands, i, h.id, true);
    assert Without(hands, i)[if j < i then j else j - 1] == g;
    HandCounted(Without(hands, i), g);
  }

  // A token is on one side only.
  lemma NotBoth(st: State, id: Id)
    requires Tokens(st, id) <= 1
    ensures !(Outgoing(st, id) && Waiting(st, id))
  {
    if Outgoing(st, id) && Waiting(st, id) {
      if Hand(id, Due) in st.hands {
        HandCounted(st.hands, Hand(id, Due));
        if Hand(id, Initialised) in st.hands { TwoHandsCounted(st.hands, Hand(id, Initialised), Hand(id, Due)); }
        if Hand(id, Registered) in st.hands { TwoHandsCounted(st.hands, Hand(id, Registered), Hand(id, Due)); }
        if Hand(id, Retrying) in st.hands { TwoHandsCounted(st.hands, Hand(id, Retrying), Hand(id, Due)); }
        if Hand(id, Streaming) in st.hands { TwoHandsCounted(st.hands, Hand(id, Streaming), Hand(id, Due)); }
      } else {
        if Hand(id, Initialised) in st.hands { HandCounted(st.hands, Hand(id, Initialised)); }
        if Hand(id, Registered) in st.hands { HandCounted(st.hands, Hand(id, Registered)); }
        if Hand(id, Retrying) in st.hands { HandCounted(st.hands, Hand(id, Retrying)); }
        if Hand(id, Streaming) in st.hands { HandCounted(st.hands, Hand(id, Streaming)); }
      }
    }
  }

  // --- What a step does to the counters of a packet, and where its token came from ---

  predicate SameCounters(before: Info, after: Info) {
    && after.isReply == before.isReply && after.sent == before.sent && after.retransmissions == before.retransmissions
    && after.firstSend == before.firstSend && after.lastSend == before.lastSend && after.rttUsable == before.rttUsable
  }

  predicate CountersKept(st: State, st': State, id: Id) {
    id in st'.live ==> id in st.live && SameCounters(st.live[id], st'.live[id])
  }

  lemma ReleaseCounters(st: State, step: SendStep, id: Id)
    requires CanSend(st, step) && (step.Refuse? || step.SendFailed? || step.EraseRejected? || step.Free?)
    ensures CountersKept(st, DoSend(st, step), id)
  {
  }

  lemma SendCounters(st: State, step: SendStep, id: Id)
    requires CanSend(st, step) && !(step.Allocate? && step.id == id)
    ensures CountersKept(st, DoSend(st, step), id)
  {
    match step
    case TakeSequence =>
    case Allocate(_, _, _) =>
    case Insert(_) =>
    case Push(_) =>
    case Refuse(_) => ReleaseCounters(st, step, id);
    case SendFailed(_) => ReleaseCounters(st, step, id);
    case EraseRejected(_) => ReleaseCounters(st, step, id);
    case Finish(_) =>
    case Free(_) => ReleaseCounters(st, step, id);
  }

  lemma SendOutgoing(st: State, step: SendStep, id: Id)
    requires CanSend(st, step) && !(step.Allocate? && step.id == id)
    ensures Outgoing(DoSend(st, step), id) ==> Outgoing(st, id)
    ensures Hand(id, Due) in DoSend(st, step).hands ==> Hand(id, Due) in st.hands
  {
    match step
    case TakeSequence =>
    case Allocate(x, _, _) =>
    case Insert(i) => MoveOnHands(st, i, Registered); assert st.hands[i] in st.hands;
    case Push(i) => MoveOnHands(st, i, Pushed); assert st.hands[i] in st.hands;
    case Refuse(i) => MoveOnHands(st, i, Rejected);
    case SendFailed(i) => MoveOnHands(st, i, Rejected);
    case EraseRejected(i) => MoveOnHands(st, i, Leaving);
    case Finish(i) => MoveOnHands(st, i, Leaving);
    case Free(i) => WithoutElements(st.hands, i);
  }

  lemma StreamCounters(st: State, step: StreamStep, id: Id)
    requires CanStream(st, step)
    ensures Outgoing(DoStream(st, step), id) ==> Outgoing(st, id)
    ensures Hand(id, Due) in DoStream(st, step).hands ==> Hand(id, Due) in st.hands
    ensures !step.Commit? && !step.MarkSent? ==>
          CountersKept(st, DoStream(st, step), id) && DoStream(st, step).heap == st.heap
  {
    hide HandRefs, HeapRefs;
    if Transmittable(DoStream(st, step), id) { StreamQueues(st, step, id); }
    match step
    case SkipDuplicate(i) => MoveOnHands(st, i, Leaving);
    case SkipErased(i) => MoveOnHands(st, i, Leaving);
    case Oversize(i) => MoveOnHands(st, i, Leaving);
    case Commit(i) => MoveOnHands(st, i, Leaving);
    case Overflow(i) => WithoutElements(st.hands, i);
    case _ =>
  }

  lemma RetryCounters(st: State, step: RetryStep, limit: nat, id: Id)
    requires CanRetry(st, step) && !step.PopDue? && !step.CountRetry?
    ensures CountersKept(st, DoRetry(st, step, limit), id)
    ensures Outgoing(DoRetry(st, step, limit), id) ==> Outgoing(st, id)
    ensures Waiting(DoRetry(st, step, limit), id) ==> Waiting(st, id)
    ensures Hand(id, Due) in DoRetry(st, step, limit).hands ==> Hand(id, Due) in st.hands
  {
    hide HandRefs, HeapRefs;
    match step
    case PopStale(i) => HeapRefsWithout(st.heap, i, id);
    case DrainHeap(i) => HeapRefsWithout(st.heap, i, id);
    case Resend(i) => MoveOnHands(st, i, Leaving); assert st.hands[i] in st.hands;
    case DropDue(i) => MoveOnHands(st, i, Leaving);
    case GiveUp(i) => MoveOnHands(st, i, Leaving);
    case RefuseResend(i) => MoveOnHands(st, i, Leaving);
    case _ => assert false;
  }

  lemma SessionCounters(st: State, step: SessionStep, id: Id)
    requires CanSession(st, step)
    ensures CountersKept(st, DoSession(st, step), id)
    ensures Outgoing(DoSession(st, step), id) ==> Outgoing(st, id)
    ensures Waiting(DoSession(st, step), id) ==> Waiting(st, id)
    ensures Hand(id, Due) in DoSession(st, step).hands ==> Hand(id, Due) in st.hands
    ensures st.clock <= DoSession(st, step).clock
  {
    hide HandRefs, HeapRefs, UnrefAll;
    match step
    case MarkAcked(i) => MoveOnHands(st, i, Sampling);
    case TakeSample(i) => MoveOnHands(st, i, Leaving);
    case Reinitialise =>
      ResetKeepsPlaces(st);
      var ids := (if st.reserved.Some? then [st.reserved.value] else []) + st.queue;
      UnrefAllPlaces(st.(queue := [], reserved := None), ids);
      if id in DoSession(st, step).live { UnrefAllKeepsInfo(st.(queue := [], reserved := None), ids, id); }
      UnrefAllClock(st.(queue := [], reserved := None), ids);
    case _ =>
  }

  lemma {:induction false} UnrefAllClock(st: State, ids: seq<Id>)
    ensures UnrefAll(st, ids).clock == st.clock
    decreases |ids|
  {
    if ids != [] { UnrefAllClock(Unref(st, ids[0]), ids[1..]); }
  }

  // --- The invariant is kept ---

  lemma SendKeepsRounds(st: State, step: SendStep, limit: nat)
    requires Safe(st) && Rounds(st, limit) && CanSend(st, step)
    ensures Rounds(DoSend(st, step), limit)
  {
    var st' := DoSend(st, step);
    SendFrame(st, step);
    forall id | id in st'.live && !st'.live[id].isReply ensures RoundOf(st', id, limit) && SampleOf(st', id) {
      if step.Allocate? && step.id == id {
        NewcomerRound(st, step, limit);
      } else {
        SendCounters(st, step, id);
        SendOutgoing(st, step, id);
        SendClock(st, step);
      }
    }
  }

  lemma SendClock(st: State, step: SendStep)
    requires CanSend(st, step)
    ensures DoSend(st, step).clock == st.clock
  {
  }

  lemma NewcomerRound(st: State, step: SendStep, limit: nat)
    requires Safe(st) && step.Allocate? && CanSend(st, step)
    ensures RoundOf(DoSend(st, step), step.id, limit) && SampleOf(DoSend(st, step), step.id)
  {
    assert References(st, step.id) == RefCount(st, step.id);
    if Hand(step.id, Due) in st.hands { HandCounted(st.hands, Hand(step.id, Due)); }
  }

  lemma StreamKeepsRounds(st: State, step: StreamStep, limit: nat)
    requires Safe(st) && Rounds(st, limit) && CanStream(st, step) && AtMostOne(DoStream(st, step))
    ensures Rounds(DoStream(st, step), limit)
  {
    match step
    case Commit(i) => CommitKeepsRounds(st, i, limit);
    case MarkSent(i) => MarkSentKeepsRounds(st, i, limit);
    case _ => OtherStreamKeepsRounds(st, step, limit);
  }

  lemma OtherStreamKeepsRounds(st: State, step: StreamStep, limit: nat)
    requires Rounds(st, limit) && CanStream(st, step) && !step.Commit? && !step.MarkSent?
    ensures Rounds(DoStream(st, step), limit)
  {
    var st' := DoStream(st, step);
    StreamClock(st, step);
    forall id | id in st'.live && !st'.live[id].isReply ensures RoundOf(st', id, limit) && SampleOf(st', id) {
      StreamCounters(st, step, id);
      assert RoundOf(st, id, limit) && SampleOf(st, id);
    }
  }

  lemma StreamClock(st: State, step: StreamStep)
    requires CanStream(st, step)
    ensures DoStream(st, step).clock == st.clock
  {
  }

  lemma MarkSentKeepsRounds(st: State, i: nat, limit: nat)
    requires Safe(st) && Rounds(st, limit) && CanStream(st, MarkSent(i))
    ensures Rounds(DoStream(st, MarkSent(i)), limit)
  {
    var st' := DoStream(st, MarkSent(i));
    HandLive(st, i);
    assert st.hands[i] in st.hands;
    forall id | id in st'.live && !st'.live[id].isReply ensures RoundOf(st', id, limit) && SampleOf(st', id) {
      assert Outgoing(st', id) == Outgoing(st, id) && Waiting(st', id) == Waiting(st, id);
      assert RoundOf(st, id, limit) && SampleOf(st, id);
    }
  }

  lemma CommitCounters(st: State, id: Id)
    requires id in st.live && st.live[id].refCount > 0
    ensures var st' := CommitInfo(st, id);
            st'.clock == st.clock && st'.live.Keys == st.live.Keys
            && (forall x :: x in st.live && x != id ==> st'.live[x] == st.live[x])
            && SameCounters(Streamed(st.live[id]), st'.live[id])
  {
  }

  lemma CommitKeepsRounds(st: State, i: nat, limit: nat)
    requires Safe(st) && Rounds(st, limit) && CanStream(st, Commit(i))
    requires AtMostOne(DoStream(st, Commit(i)))
    ensures Rounds(DoStream(st, Commit(i)), limit)
  {
    hide HandRefs, HeapRefs, Counted;
    var st' := DoStream(st, Commit(i));
    HandLive(st, i);
    CommitCounters(MoveOn(st, i, Leaving), st.hands[i].id);
    forall id | id in st'.live && !st'.live[id].isReply ensures RoundOf(st', id, limit) && SampleOf(st', id) {
      CommitPlaceOf(st, i, id);
      assert Tokens(st', id) <= 1;
      NotBoth(st', id);
      assert RoundOf(st, id, limit) && SampleOf(st, id);
    }
  }

  // A committed data packet now waits; every other packet is where it was.
  lemma CommitPlaceOf(st: State, i: nat, id: Id)
    requires Safe(st) && CanStream(st, Commit(i)) && id in st.live && !st.live[id].isReply
    ensures var st' := DoStream(st, Commit(i));
            && (Outgoing(st', id) ==> Outgoing(st, id))
            && (Hand(id, Due) in st'.hands ==> Hand(id, Due) in st.hands)
            && (id != st.hands[i].id ==> (Waiting(st', id) ==> Waiting(st, id)))
            && (id == st.hands[i].id ==> Waiting(st', id) && Outgoing(st, id))
  {
    var x := st.hands[i].id;
    HandLive(st, i);
    CommitPlaces(MoveOn(st, i, Leaving), x);
    StreamCounters(st, Commit(i), id);
    HeapRefsAppend(st.heap, Entry(x, st.live[x].version + 1, st.live[x].birth), id);
    assert st.heap + [] == st.heap;
    assert st.hands[i] == Hand(x, Streaming) && st.hands[i] in st.hands;
  }

  lemma RetryKeepsRounds(st: State, step: RetryStep, limit: nat)
    requires Safe(st) && Rounds(st, limit) && CanRetry(st, step) && AtMostOne(DoRetry(st, step, limit))
    ensures Rounds(DoRetry(st, step, limit), limit)
  {
    match step
    case PopDue(i) => PopDueKeepsRounds(st, i, limit);
    case CountRetry(i) => CountRetryKeepsRounds(st, i, limit);
    case _ =>
      var st' := DoRetry(st, step, limit);
      RetryClock(st, step, limit);
      forall id | id in st'.live && !st'.live[id].isReply ensures RoundOf(st', id, limit) && SampleOf(st', id) {
        RetryCounters(st, step, limit, id);
      }
  }

  lemma RetryClock(st: State, step: RetryStep, limit: nat)
    requires CanRetry(st, step)
    ensures DoRetry(st, step, limit).clock == st.clock
  {
  }

  lemma PopDueKeepsRounds(st: State, i: nat, limit: nat)
    requires Safe(st) && Rounds(st, limit) && CanRetry(st, PopDue(i))
    ensures Rounds(DoRetry(st, PopDue(i), limit), limit)
  {
    var st' := DoRetry(st, PopDue(i), limit);
    assert st.heap[i] in st.heap;
    forall id | id in st'.live && !st'.live[id].isReply ensures RoundOf(st', id, limit) && SampleOf(st', id) {
      assert RoundOf(st, id, limit) && SampleOf(st, id);
      HeapRefsWithout(st.heap, i, id);
      assert Outgoing(st', id) ==> Outgoing(st, id);
      assert Waiting(st', id) ==> Waiting(st, id);
    }
  }

  lemma CountRetryKeepsRounds(st: State, i: nat, limit: nat)
    requires Safe(st) && Rounds(st, limit) && CanRetry(st, CountRetry(i))
    requires AtMostOne(DoRetry(st, CountRetry(i), limit))
    ensures Rounds(DoRetry(st, CountRetry(i), limit), limit)
  {
    var st' := DoRetry(st, CountRetry(i), limit);
    var x := st.hands[i].id;
    var place := if At(st, x).retransmissions + 1 >= limit then Exhausted else Retrying;
    HandLive(st, i);
    MoveOnHands(st, i, place);
    assert st.hands[i] == Hand(x, Due) && st.hands[i] in st.hands;
    assert st'.hands[i] == Hand(x, place) && st'.hands[i] in st'.hands;
    forall id | id in st'.live && !st'.live[id].isReply ensures RoundOf(st', id, limit) && SampleOf(st', id) {
      assert RoundOf(st, id, limit) && SampleOf(st, id);
      assert Waiting(st', id) ==> Waiting(st, id);
      assert Tokens(st', id) <= 1;
      if id == x {
        RetriedIsNotWaiting(st', i, place);
        assert Outgoing(st', id) ==> Outgoing(st, id) || place == Retrying;
        assert Tokens(st, id) <= 1 ==> !Outgoing(st, id) by { if Tokens(st, id) <= 1 { NotBoth(st, id); } }
        HandRefsUpdate(st.hands, i, place, id, true);
      } else {
        assert Outgoing(st', id) ==> Outgoing(st, id);
      }
    }
  }

  lemma RetriedIsNotWaiting(st: State, i: nat, place: Place)
    requires i < |st.hands| && st.hands[i].place == place && (place == Exhausted || place == Retrying)
    requires Tokens(st, st.hands[i].id) <= 1
    ensures !Waiting(st, st.hands[i].id)
  {
    var id := st.hands[i].id;
    assert st.hands[i] == Hand(id, place) && st.hands[i] in st.hands;
    HandCounted(st.hands, Hand(id, place));
    if Hand(id, Due) in st.hands { TwoHandsCounted(st.hands, Hand(id, Due), Hand(id, place)); }
  }

  lemma SessionKeepsRounds(st: State, step: SessionStep, limit: nat)
    requires Rounds(st, limit) && CanSession(st, step)
    ensures Rounds(DoSession(st, step), limit)
  {
    var st' := DoSession(st, step);
    forall id | id in st'.live && !st'.live[id].isReply ensures RoundOf(st', id, limit) && SampleOf(st', id) {
      SessionCounters(st, step, id);
    }
  }

  lemma KeepsRounds(st: State, step: Step, limit: nat)
    requires Safe(st) && Carried(st) && Rounds(st, limit) && Enabled(st, step)
    ensures Rounds(Apply(st, step, limit), limit)
  {
    KeepsAtMostOne(st, step, limit);
    match step
    case Send(x) => SendKeepsRounds(st, x, limit);
    case Stream(x) => StreamKeepsRounds(st, x, limit);
    case Retry(x) => RetryKeepsRounds(st, x, limit);
    case Session(x) => SessionKeepsRounds(st, x, limit);
  }

  // --- Acknowledged packets have been sent ---

  predicate TakenOut(place: Place) {
    place == Acked || place == Sampling
  }

  // In ProcessRetransmission.
  predicate TimedOut(place: Place) {
    place == Due || place == Retrying || place == Exhausted
  }

  ghost predicate AckedWereSent(st: State) {
    forall h :: h in st.hands && TakenOut(h.place) && h.id in st.live && st.live[h.id].generation == st.generation ==>
      !st.live[h.id].isReply && st.live[h.id].sent >= 1
  }

  // Nobody but OnSendReply takes a packet out of the map, and none but the retransmission thread times it out.
  lemma SendTakesNone(st: State, step: SendStep, h: Hand)
    requires CanSend(st, step) && h in DoSend(st, step).hands && (TakenOut(h.place) || TimedOut(h.place))
    ensures h in st.hands
  {
    match step
    case TakeSequence =>
    case Allocate(x, _, _) =>
    case Insert(i) => MoveOnHands(st, i, Registered);
    case Push(i) => MoveOnHands(st, i, Pushed);
    case Refuse(i) => MoveOnHands(st, i, Rejected);
    case SendFailed(i) => MoveOnHands(st, i, Rejected);
    case EraseRejected(i) => MoveOnHands(st, i, Leaving);
    case Finish(i) => MoveOnHands(st, i, Leaving);
    case Free(i) => WithoutElements(st.hands, i);
  }

  lemma StreamTakesNone(st: State, step: StreamStep, h: Hand)
    requires CanStream(st, step) && h in DoStream(st, step).hands && (TakenOut(h.place) || TimedOut(h.place))
    ensures h in st.hands
  {
    match step
    case SkipDuplicate(i) => MoveOnHands(st, i, Leaving);
    case SkipErased(i) => MoveOnHands(st, i, Leaving);
    case Oversize(i) => MoveOnHands(st, i, Leaving);
    case Commit(i) => MoveOnHands(st, i, Leaving);
    case Overflow(i) => WithoutElements(st.hands, i);
    case _ =>
  }

  lemma RetryTakesNone(st: State, step: RetryStep, limit: nat, h: Hand)
    requires CanRetry(st, step) && h in DoRetry(st, step, limit).hands && TakenOut(h.place)
    ensures h in st.hands
  {
    match step
    case PopStale(i) =>
    case DrainHeap(i) =>
    case PopDue(i) =>
    case CountRetry(i) => MoveOnHands(st, i, DoRetry(st, step, limit).hands[i].place);
    case _ => MoveOnHands(st, step.hand, Leaving);
  }

  lemma SessionTakes(st: State, step: SessionStep, h: Hand)
    requires CanSession(st, step) && h in DoSession(st, step).hands && TakenOut(h.place)
    ensures Hand(h.id, Acked) in st.hands || h in st.hands || (step.Ack? && h.id == st.unacked[step.sequence])
  {
    match step
    case MarkAcked(i) => MoveOnHands(st, i, Sampling); assert st.hands[i] == Hand(st.hands[i].id, Acked);
    case TakeSample(i) => MoveOnHands(st, i, Leaving);
    case Reinitialise => ResetKeepsPlaces(st);
    case _ =>
  }

  lemma KeepsAckedWereSent(st: State, step: Step, limit: nat)
    requires Safe(st) && Single(st) && AckedWereSent(st) && Orderly(st, step)
    ensures AckedWereSent(Apply(st, step, limit))
  {
    var st' := Apply(st, step, limit);
    forall h | h in st'.hands && TakenOut(h.place) && h.id in st'.live && st'.live[h.id].generation == st'.generation
      ensures !st'.live[h.id].isReply && st'.live[h.id].sent >= 1
    {
      TakenBefore(st, step, limit, h);
      SentBefore(st, step, limit, h);
    }
  }

  lemma TakenBefore(st: State, step: Step, limit: nat, h: Hand)
    requires Enabled(st, step) && h in Apply(st, step, limit).hands && TakenOut(h.place)
    ensures || h in st.hands || Hand(h.id, Acked) in st.hands
            || (step.Session? && step.session.Ack? && h.id == st.unacked[step.session.sequence])
  {
    match step
    case Send(x) => SendTakesNone(st, x, h);
    case Stream(x) => StreamTakesNone(st, x, h);
    case Retry(x) => RetryTakesNone(st, x, limit, h);
    case Session(x) => SessionTakes(st, x, h);
  }

  lemma SentBefore(st: State, step: Step, limit: nat, h: Hand)
    requires Safe(st) && Single(st) && AckedWereSent(st) && Orderly(st, step)
    requires h.id in Apply(st, step, limit).live
    requires Apply(st, step, limit).live[h.id].generation == Apply(st, step, limit).generation
    requires || (h in st.hands && TakenOut(h.place)) || Hand(h.id, Acked) in st.hands
             || (step.Session? && step.session.Ack? && h.id == st.unacked[step.session.sequence])
    ensures !Apply(st, step, limit).live[h.id].isReply && Apply(st, step, limit).live[h.id].sent >= 1
  {
    Evolves(st, step, limit, h.id);
    KeepsLifeMarks(st, step, limit);
    if step.Session? && step.session.Ack? && h.id == st.unacked[step.session.sequence] {
      assert CurrentData(st, h.id);
    } else {
      var g := if h in st.hands && TakenOut(h.place) then h else Hand(h.id, Acked);
      assert g in st.hands && TakenOut(g.place);
      var i :| 0 <= i < |st.hands| && st.hands[i] == g;
      HandLive(st, i);
    }
  }
}
