/**
 What becomes of a packet whose timer is due or that has been acknowledged: it is sent again until it
 has been in a stream as often as allowed, and never again once it is erased.
 */
module SendOwnershipRetries {
  import opened Common
  import opened SendOwnership
  import opened SendOwnershipSafety
  import opened SendOwnershipTokens
  import opened SendOwnershipRounds

  // --- The verdict of ProcessRetransmission ---

  // The count the verdict was given on; only data packets are timed.
  predicate Verdict(st: State, h: Hand, limit: nat) {
    && h.id in st.live && !st.live[h.id].isReply
    && var info := st.live[h.id];
       && (h.place != Due ==> info.retransmissions >= 1)
       && (h.place == Exhausted ==> info.retransmissions >= limit && info.sent >= StreamBound(limit))
  }

  ghost predicate Verdicts(st: State, limit: nat) {
    forall h :: h in st.hands && TimedOut(h.place) ==> Verdict(st, h, limit)
  }

  // Where a hand in ProcessRetransmission was before.
  lemma TimedOutBefore(st: State, step: Step, limit: nat, h: Hand)
    requires Enabled(st, step) && h in Apply(st, step, limit).hands && TimedOut(h.place)
    ensures || h in st.hands
            || (step.Retry? && step.retry.PopDue? && h == Hand(st.heap[step.retry.index].id, Due))
            || (step.Retry? && step.retry.CountRetry? && h.id == st.hands[step.retry.hand].id && h.place != Due
                && (h.place == Exhausted ==> At(st, h.id).retransmissions + 1 >= limit))
  {
    hide DoSend, DoStream, DoSession;
    match step
    case Send(x) => SendTakesNone(st, x, h);
    case Stream(x) => StreamTakesNone(st, x, h);
    case Retry(x) => RetryTimesOut(st, x, limit, h);
    case Session(x) => SessionTimesOutNone(st, x, h);
  }

  lemma RetryTimesOut(st: State, step: RetryStep, limit: nat, h: Hand)
    requires CanRetry(st, step) && h in DoRetry(st, step, limit).hands && TimedOut(h.place)
    ensures || h in st.hands
            || (step.PopDue? && h == Hand(st.heap[step.index].id, Due))
            || (step.CountRetry? && h.id == st.hands[step.hand].id && h.place != Due
                && (h.place == Exhausted ==> At(st, h.id).retransmissions + 1 >= limit))
  {
    match step
    case PopStale(i) =>
    case DrainHeap(i) =>
    case PopDue(i) =>
    case CountRetry(i) => MoveOnHands(st, i, DoRetry(st, step, limit).hands[i].place);
    case _ => MoveOnHands(st, step.hand, Leaving);
  }

  lemma SessionTimesOutNone(st: State, step: SessionStep, h: Hand)
    requires CanSession(st, step) && h in DoSession(st, step).hands && TimedOut(h.place)
    ensures h in st.hands
  {
    match step
    case MarkAcked(i) => MoveOnHands(st, i, Sampling);
    case TakeSample(i) => MoveOnHands(st, i, Leaving);
    case Reinitialise => ResetKeepsPlaces(st);
    case _ =>
  }

  lemma KeepsVerdicts(st: State, step: Step, limit: nat)
    requires Safe(st) && Carried(st) && Rounds(st, limit) && Verdicts(st, limit) && Enabled(st, step)
    ensures Verdicts(Apply(st, step, limit), limit)
  {
    var st' := Apply(st, step, limit);
    KeepsSafe(st, step, limit);
    forall h | h in st'.hands && TimedOut(h.place) ensures Verdict(st', h, limit) {
      HandsLive(st', h);
      Evolves(st, step, limit, h.id);
      TimedOutBefore(st, step, limit, h);
      KeepsVerdict(st, step, limit, h);
    }
  }

  lemma HandsLive(st: State, h: Hand)
    requires Counted(st) && h in st.hands
    ensures h.id in st.live
  {
    var i :| 0 <= i < |st.hands| && st.hands[i] == h;
    HandLive(st, i);
  }

  lemma KeepsVerdict(st: State, step: Step, limit: nat, h: Hand)
    requires Safe(st) && Carried(st) && Rounds(st, limit) && Verdicts(st, limit) && Enabled(st, step)
    requires TimedOut(h.place) && h.id in Apply(st, step, limit).live
    requires || (step.Send? && step.send.Allocate? && step.send.id == h.id) || Evolved(st, Apply(st, step, limit), h.id)
    requires || h in st.hands
             || (step.Retry? && step.retry.PopDue? && h == Hand(st.heap[step.retry.index].id, Due))
             || (step.Retry? && step.retry.CountRetry? && h.id == st.hands[step.retry.hand].id && h.place != Due
                 && (h.place == Exhausted ==> At(st, h.id).retransmissions + 1 >= limit))
    ensures Verdict(Apply(st, step, limit), h, limit)
  {
    if h in st.hands {
      HandsLive(st, h);
    } else if step.retry.PopDue? {
      assert st.heap[step.retry.index] in st.heap;
    } else {
      CountVerdict(st, step.retry.hand, limit, h);
    }
  }

  lemma CountVerdict(st: State, i: nat, limit: nat, h: Hand)
    requires Safe(st) && Rounds(st, limit) && Verdicts(st, limit) && CanRetry(st, CountRetry(i))
    requires TimedOut(h.place) && h.id == st.hands[i].id && h.place != Due
    requires h.place == Exhausted ==> At(st, h.id).retransmissions + 1 >= limit
    ensures Verdict(DoRetry(st, CountRetry(i), limit), h, limit)
  {
    HandLive(st, i);
    assert st.hands[i] == Hand(h.id, Due) && st.hands[i] in st.hands;
    assert Verdict(st, st.hands[i], limit);
    assert RoundOf(st, h.id, limit) && Waiting(st, h.id);
  }

  // --- Packets that are done ---

  // OnSendReply past the mark, and SendPacketImmediate after a refused or failed send.
  predicate Settled(place: Place) {
    place == Sampling || place == Rejected
  }

  // An acknowledged packet is erased before it gives its sample, a rejected one before it leaves the map.
  ghost predicate SettledErased(st: State) {
    forall h :: h in st.hands && Settled(h.place) && h.id in st.live ==> st.live[h.id].erased
  }

  lemma KeepsSettledErased(st: State, step: Step, limit: nat)
    requires Safe(st) && SettledErased(st) && Enabled(st, step)
    ensures SettledErased(Apply(st, step, limit))
  {
    var st' := Apply(st, step, limit);
    KeepsSafe(st, step, limit);
    forall h | h in st'.hands && Settled(h.place) && h.id in st'.live ensures st'.live[h.id].erased {
      SettledBefore(st, step, limit, h);
      Evolves(st, step, limit, h.id);
      if h in st.hands { HandsLive(st, h); }
    }
  }

  lemma SettledBefore(st: State, step: Step, limit: nat, h: Hand)
    requires Safe(st) && Enabled(st, step) && h in Apply(st, step, limit).hands && Settled(h.place)
    requires h.id in Apply(st, step, limit).live
    ensures h in st.hands || Apply(st, step, limit).live[h.id].erased
  {
    hide DoSend, DoStream, DoRetry, DoSession;
    match step
    case Send(x) => SendSettles(st, x, h);
    case Stream(x) => StreamSettlesNone(st, x, h);
    case Retry(x) => RetrySettlesNone(st, x, limit, h);
    case Session(x) => SessionSettles(st, x, h);
  }

  lemma SendSettles(st: State, step: SendStep, h: Hand)
    requires CanSend(st, step) && h in DoSend(st, step).hands && Settled(h.place) && h.id in DoSend(st, step).live
    ensures h in st.hands || DoSend(st, step).live[h.id].erased
  {
    match step
    case TakeSequence =>
    case Allocate(x, _, _) =>
    case Insert(i) => MoveOnHands(st, i, Registered);
    case Push(i) => MoveOnHands(st, i, Pushed);
    case Refuse(i) => MoveOnHands(st, i, Rejected);
    case SendFailed(i) => MoveOnHands(st, i, Rejected);
    case EraseRejected(i) => MoveOnHands(st, i, Leaving);
    case Finish(i) => MoveOnHands(st, i, Leaving);
    case Free(i) => WithoutElements(st.hands, i);
  }

  lemma StreamSettlesNone(st: State, step: StreamStep, h: Hand)
    requires CanStream(st, step) && h in DoStream(st, step).hands && Settled(h.place)
    ensures h in st.hands
  {
    match step
    case SkipDuplicate(i) => MoveOnHands(st, i, Leaving);
    case SkipErased(i) => MoveOnHands(st, i, Leaving);
    case Oversize(i) => MoveOnHands(st, i, Leaving);
    case Commit(i) => MoveOnHands(st, i, Leaving);
    case Overflow(i) => WithoutElements(st.hands, i);
    case _ =>
  }

  lemma RetrySettlesNone(st: State, step: RetryStep, limit: nat, h: Hand)
    requires CanRetry(st, step) && h in DoRetry(st, step, limit).hands && Settled(h.place)
    ensures h in st.hands
  {
    match step
    case PopStale(i) =>
    case DrainHeap(i) =>
    case PopDue(i) =>
    case CountRetry(i) => MoveOnHands(st, i, DoRetry(st, step, limit).hands[i].place);
    case _ => MoveOnHands(st, step.hand, Leaving);
  }

  lemma SessionSettles(st: State, step: SessionStep, h: Hand)
    requires Safe(st) && CanSession(st, step) && h in DoSession(st, step).hands && Settled(h.place)
    requires h.id in DoSession(st, step).live
    ensures h in st.hands || DoSession(st, step).live[h.id].erased
  {
    match step
    case MarkAcked(i) => MoveOnHands(st, i, Sampling);
    case TakeSample(i) => MoveOnHands(st, i, Leaving);
    case Reinitialise => ResetKeepsPlaces(st);
    case _ =>
  }

  // --- Erased packets stay so ---

  predicate SameTransmissions(before: Info, after: Info) {
    after.erased && after.birth == before.birth && after.sent == before.sent
    && after.retransmissions == before.retransmissions
  }

  // No step puts an erased packet in a stream or counts a retransmission of it.
  lemma ErasedStays(st: State, step: Step, limit: nat, id: Id)
    requires Safe(st) && Enabled(st, step) && id in st.live && st.live[id].erased && id in Apply(st, step, limit).live
    ensures SameTransmissions(st.live[id], Apply(st, step, limit).live[id])
  {
    Evolves(st, step, limit, id);
    hide DoSend, DoSession, HandRefs, HeapRefs, References;
    match step
    case Send(x) => SendCounters(st, x, id);
    case Stream(x) => StreamErased(st, x, id);
    case Retry(x) => RetryErased(st, x, limit, id);
    case Session(x) => SessionCounters(st, x, id);
  }

  lemma StreamErased(st: State, step: StreamStep, id: Id)
    requires Safe(st) && CanStream(st, step) && id in st.live && st.live[id].erased && id in DoStream(st, step).live
    ensures DoStream(st, step).live[id].sent == st.live[id].sent
    ensures DoStream(st, step).live[id].retransmissions == st.live[id].retransmissions
  {
    hide HandRefs, HeapRefs, References;
    match step
    case Commit(i) => HandLive(st, i); CommitCounters(MoveOn(st, i, Leaving), st.hands[i].id);
    case MarkSent(i) =>
    case _ => StreamCounters(st, step, id);
  }

  lemma RetryErased(st: State, step: RetryStep, limit: nat, id: Id)
    requires CanRetry(st, step) && id in st.live && st.live[id].erased && id in DoRetry(st, step, limit).live
    ensures DoRetry(st, step, limit).live[id].sent == st.live[id].sent
    ensures DoRetry(st, step, limit).live[id].retransmissions == st.live[id].retransmissions
  {
    hide HandRefs, HeapRefs;
    match step
    case PopDue(i) =>
    case CountRetry(i) =>
    case _ => RetryCounters(st, step, limit, id);
  }

  // An object whose allocation is over does not come back under the same allocation.
  lemma GoneStaysGone(st: State, step: Step, limit: nat, id: Id, birth: nat)
    requires Safe(st) && Enabled(st, step) && birth < st.births
    requires id !in st.live || st.live[id].birth != birth
    ensures birth < Apply(st, step, limit).births
    ensures id !in Apply(st, step, limit).live || Apply(st, step, limit).live[id].birth != birth
  {
    Evolves(st, step, limit, id);
    BirthsGrow(st, step, limit);
  }

  lemma BirthsGrow(st: State, step: Step, limit: nat)
    requires Enabled(st, step)
    ensures st.births <= Apply(st, step, limit).births
  {
    hide DoSend, DoStream, DoRetry, DoSession;
    match step
    case Send(x) => SendBirths(st, x);
    case Stream(x) => StreamBirths(st, x);
    case Retry(x) => RetryBirths(st, x, limit);
    case Session(x) => SessionBirths(st, x);
  }

  lemma SendBirths(st: State, step: SendStep)
    requires CanSend(st, step)
    ensures st.births <= DoSend(st, step).births
  {
  }

  lemma StreamBirths(st: State, step: StreamStep)
    requires CanStream(st, step)
    ensures st.births <= DoStream(st, step).births
  {
  }

  lemma RetryBirths(st: State, step: RetryStep, limit: nat)
    requires CanRetry(st, step)
    ensures st.births <= DoRetry(st, step, limit).births
  {
  }

  lemma SessionBirths(st: State, step: SessionStep)
    requires CanSession(st, step)
    ensures st.births <= DoSession(st, step).births
  {
    if step.Reinitialise? {
      UnrefAllBirths(st.(queue := [], reserved := None),
                     (if st.reserved.Some? then [st.reserved.value] else []) + st.queue);
    }
  }

  lemma {:induction false} UnrefAllBirths(st: State, ids: seq<Id>)
    ensures UnrefAll(st, ids).births == st.births
    decreases |ids|
  {
    if ids != [] { UnrefAllBirths(Unref(st, ids[0]), ids[1..]); }
  }

  // --- How packets leave the unacked map ---

  // A rejected send erases whatever the map holds under its sequence, here another packet.
  predicate ErasesAnother(st: State, step: Step, s: nat)
    requires s in st.unacked
  {
    && step.Send? && step.send.EraseRejected? && InPlace(st, step.send.hand, Rejected)
    && var other := st.hands[step.send.hand].id;
       other != st.unacked[s] && !At(st, other).isReply && At(st, other).sequence == s
  }

  predicate Leaves(st: State, after: State, s: nat)
    requires s in st.unacked
  {
    s in after.unacked ==> after.unacked[s] != st.unacked[s]
  }

  lemma KeptInMap(st: State, step: Step, limit: nat, s: nat)
    requires Enabled(st, step) && s in st.unacked
    requires !(step.Send? && step.send.EraseRejected?)
    requires !(step.Session? && (step.session.Ack? || step.session.ClearUnacked?))
    ensures s in Apply(st, step, limit).unacked && Apply(st, step, limit).unacked[s] == st.unacked[s]
  {
    hide DoStream, DoRetry;
    match step
    case Send(x) =>
    case Stream(x) => StreamKeepsMap(st, x);
    case Retry(x) => RetryKeepsMap(st, x, limit);
    case Session(x) => if x.Reinitialise? { ResetKeepsPlaces(st); }
  }

  lemma StreamKeepsMap(st: State, step: StreamStep)
    requires CanStream(st, step)
    ensures DoStream(st, step).unacked == st.unacked
  {
  }

  lemma RetryKeepsMap(st: State, step: RetryStep, limit: nat)
    requires CanRetry(st, step)
    ensures DoRetry(st, step, limit).unacked == st.unacked
  {
  }

  lemma EraseRejectedLoses(st: State, i: nat, s: nat)
    requires Safe(st) && Carried(st) && SettledErased(st) && CanSend(st, EraseRejected(i)) && s in st.unacked
    requires st.unacked[s] in st.live && !st.live[st.unacked[s]].erased
    ensures Leaves(st, DoSend(st, EraseRejected(i)), s) <==> ErasesAnother(st, Send(EraseRejected(i)), s)
  {
    HandLive(st, i);
    assert st.hands[i] in st.hands;
  }

  // A packet that is not erased leaves the map exactly by its acknowledgement, or because a rejected
  // send of the same sequence erases it in place of itself.
  lemma LeavesMapExactly(st: State, step: Step, limit: nat, s: nat)
    requires Safe(st) && Carried(st) && SettledErased(st) && Enabled(st, step) && s in st.unacked
    requires var id, after := st.unacked[s], Apply(st, step, limit); id in after.live && !after.live[id].erased
    ensures Leaves(st, Apply(st, step, limit), s) <==>
            step == Session(Ack(s)) || ErasesAnother(st, step, s)
  {
    Evolves(st, step, limit, st.unacked[s]);
    MappedLive(st, s);
    if step.Send? && step.send.EraseRejected? {
      EraseRejectedLoses(st, step.send.hand, s);
    } else if step.Session? && (step.session.Ack? || step.session.ClearUnacked?) {
      AckOrClear(st, step.session, s);
    } else {
      hide Safe, Carried, SettledErased, Apply;
      KeptInMap(st, step, limit, s);
    }
  }

  lemma AckOrClear(st: State, step: SessionStep, s: nat)
    requires CanSession(st, step) && (step.Ack? || step.ClearUnacked?) && s in st.unacked && st.unacked[s] in st.live
    ensures Leaves(st, DoSession(st, step), s) <==> step.sequence == s
    ensures step == ClearUnacked(s) && st.unacked[s] in DoSession(st, step).live ==>
          DoSession(st, step).live[st.unacked[s]].erased
  {
  }
}
