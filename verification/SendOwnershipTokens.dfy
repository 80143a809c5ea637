/**
 The duty to transmit a packet is a single token: it is conserved by every step except those that
 may drop it, and in a session that is not releasing those never drop the token of an unacked packet.
 */
module SendOwnershipTokens {
  import opened Common
  import opened SendOwnership
  import opened SendOwnershipSafety

  // --- What a step does to the identity of an object ---

  predicate SameSequences(st: State, st': State) {
    st'.lastSequence == st.lastSequence && st'.tickets == st.tickets && st'.streamed == st.streamed
  }

  predicate SameIdentity(before: Info, after: Info) {
    && after.sequence == before.sequence && after.generation == before.generation
    && after.isReply == before.isReply && after.birth == before.birth
    && (before.erased ==> after.erased) && before.sent <= after.sent
    && before.retransmissions <= after.retransmissions
  }

  predicate Evolved(st: State, st': State, id: Id) {
    id in st'.live ==> id in st.live && SameIdentity(st.live[id], st'.live[id])
  }

  lemma {:induction false} UnrefAllEvolves(st: State, ids: seq<Id>, id: Id)
    ensures Evolved(st, UnrefAll(st, ids), id)
    decreases |ids|
  {
    if ids != [] {
      UnrefAllEvolves(Unref(st, ids[0]), ids[1..], id);
    }
  }

  lemma SendEvolves(st: State, step: SendStep, id: Id)
    requires CanSend(st, step)
    ensures (step.Allocate? && step.id == id) || Evolved(st, DoSend(st, step), id)
  {
  }

  lemma StreamEvolves(st: State, step: StreamStep, id: Id)
    requires CanStream(st, step)
    ensures Evolved(st, DoStream(st, step), id)
  {
    match step
    case BeginBatch =>
    case TakeReserved =>
    case PopFront =>
    case SkipDuplicate(_) =>
    case Oversize(_) =>
    case Overflow(_) =>
    case MarkSent(_) =>
    case SkipErased(_) =>
    case Commit(_) =>
    case EndBatch =>
  }

  lemma RetryEvolves(st: State, step: RetryStep, limit: nat, id: Id)
    requires CanRetry(st, step)
    ensures Evolved(st, DoRetry(st, step, limit), id)
  {
  }

  lemma SessionEvolves(st: State, step: SessionStep, id: Id)
    requires CanSession(st, step)
    ensures Evolved(st, DoSession(st, step), id)
  {
    if step.Reinitialise? {
      UnrefAllEvolves(st.(queue := [], reserved := None),
                      (if st.reserved.Some? then [st.reserved.value] else []) + st.queue, id);
    }
  }

  lemma Evolves(st: State, step: Step, limit: nat, id: Id)
    requires Enabled(st, step)
    ensures (step.Send? && step.send.Allocate? && step.send.id == id) || Evolved(st, Apply(st, step, limit), id)
  {
    match step
    case Send(s) => SendEvolves(st, s, id);
    case Stream(s) => StreamEvolves(st, s, id);
    case Retry(s) => RetryEvolves(st, s, limit, id);
    case Session(s) => SessionEvolves(st, s, id);
  }

  // --- Conservation of tokens ---

  // The object whose token a step may drop.
  function Dropped(st: State, step: Step): Option<Id>
    requires Enabled(st, step)
  {
    match step
    case Send(Refuse(i)) => Some(st.hands[i].id)
    case Stream(SkipDuplicate(i)) => Some(st.hands[i].id)
    case Stream(SkipErased(i)) => Some(st.hands[i].id)
    case Stream(Oversize(i)) => Some(st.hands[i].id)
    case Stream(Commit(i)) => if At(st, st.hands[i].id).isReply then Some(st.hands[i].id) else None
    case Retry(PopStale(i)) => Some(st.heap[i].id)
    case Retry(DrainHeap(i)) => Some(st.heap[i].id)
    case Retry(DropDue(i)) => Some(st.hands[i].id)
    case Retry(GiveUp(i)) => Some(st.hands[i].id)
    case Retry(RefuseResend(i)) => Some(st.hands[i].id)
    case _ => None
  }

  function Gained(step: Step, id: Id): nat {
    if step.Send? && step.send.Allocate? && step.send.id == id then 1 else 0
  }

  lemma TokensMoveOn(st: State, i: nat, place: Place, id: Id)
    requires i < |st.hands|
    ensures Tokens(MoveOn(st, i, place), id) ==
            Tokens(st, id)
            - (if st.hands[i].id == id && CarriesToken(st.hands[i].place) then 1 else 0)
            + (if st.hands[i].id == id && CarriesToken(place) then 1 else 0)
  {
    HandRefsUpdate(st.hands, i, place, id, true);
  }

  lemma TokensTakeUp(st: State, taken: Id, place: Place, id: Id)
    ensures Tokens(TakeUp(st, taken, place), id)
            == Tokens(st, id) + (if taken == id && CarriesToken(place) then 1 else 0)
  {
    HandRefsAppend(st.hands, Hand(taken, place), id, true);
  }

  lemma PlacesKept(st: State, id: Id, info: Info)
    ensures SamePlaces(st, Unref(st, id)) && SamePlaces(st, AddRef(st, id)) && SamePlaces(st, Update(st, id, info))
  {
  }

  lemma PushConserves(st: State, i: nat, id: Id)
    requires CanSend(st, Push(i))
    ensures Tokens(DoSend(st, Push(i)), id) == Tokens(st, id)
  {
    TokensMoveOn(st, i, Pushed, id);
    var moved := MoveOn(st, i, Pushed);
    PlacesKept(moved.(queue := st.queue + [st.hands[i].id]), st.hands[i].id, BLANK);
  }

  lemma ResendConserves(st: State, i: nat, limit: nat, id: Id)
    requires CanRetry(st, Resend(i))
    ensures Tokens(DoRetry(st, Resend(i), limit), id) == Tokens(st, id)
  {
    TokensMoveOn(st, i, Leaving, id);
    var moved := MoveOn(st, i, Leaving);
    PlacesKept(moved.(queue := st.queue + [st.hands[i].id]), st.hands[i].id, BLANK);
  }

  lemma SendConserves(st: State, step: SendStep, id: Id)
    requires CanSend(st, step)
    ensures Tokens(DoSend(st, step), id) ==
            Tokens(st, id) + Gained(Send(step), id) - SlotRefs(Dropped(st, Send(step)), id)
  {
    hide HandRefs, HeapRefs, Unref, AddRef, Update, KeyOf;
    match step
    case TakeSequence =>
    case Allocate(x, _, _) => TokensTakeUp(st, x, Initialised, id);
    case Insert(i) => TokensMoveOn(st, i, Registered, id);
    case Push(i) => PushConserves(st, i, id);
    case Free(i) => FreeConserves(st, i, id);
    case Refuse(i) => TokensMoveOn(st, i, Rejected, id);
    case SendFailed(i) => TokensMoveOn(st, i, Rejected, id);
    case EraseRejected(i) => EraseRejectedConserves(st, i, id);
    case Finish(i) => TokensMoveOn(st, i, Leaving, id);
  }

  lemma FreeConserves(st: State, i: nat, id: Id)
    requires CanSend(st, Free(i))
    ensures Tokens(DoSend(st, Free(i)), id) == Tokens(st, id)
  {
    hide HandRefs, HeapRefs;
    HandRefsWithout(st.hands, i, id, true);
    PlacesKept(LetGo(st, i), st.hands[i].id, BLANK);
  }

  lemma EraseRejectedConserves(st: State, i: nat, id: Id)
    requires CanSend(st, EraseRejected(i))
    ensures Tokens(DoSend(st, EraseRejected(i)), id) == Tokens(st, id)
  {
    TokensMoveOn(st, i, Leaving, id);
    var moved := MoveOn(st, i, Leaving);
    var s := At(st, st.hands[i].id).sequence;
    if s in st.unacked { PlacesKept(moved.(unacked := moved.unacked - {s}), st.unacked[s], BLANK); }
  }

  // What committing a packet to the stream does to the places.
  lemma CommitPlaces(st: State, id: Id)
    requires id in st.live && st.live[id].refCount > 0
    ensures var st' := CommitInfo(st, id);
            && st'.queue == st.queue && st'.reserved == st.reserved && st'.hands == st.hands
            && var entry := Entry(id, st.live[id].version + 1, st.live[id].birth);
               st'.heap == st.heap + (if st.live[id].isReply then [] else [entry])
  {
  }

  lemma CommitTokens(st: State, x: Id, id: Id)
    requires x in st.live && st.live[x].refCount > 0
    ensures Tokens(CommitInfo(st, x), id) == Tokens(st, id) + (if x == id && !st.live[x].isReply then 1 else 0)
  {
    CommitPlaces(st, x);
    hide CommitInfo, HandRefs, HeapRefs;
    var info := st.live[x];
    HeapRefsAppend(st.heap, Entry(x, info.version + 1, info.birth), id);
    assert info.isReply ==> st.heap + [] == st.heap;
  }

  lemma CommitConserves(st: State, i: nat, id: Id)
    requires CanStream(st, Commit(i)) && Safe(st)
    ensures Tokens(DoStream(st, Commit(i)), id) == Tokens(st, id) - SlotRefs(Dropped(st, Stream(Commit(i))), id)
  {
    HandLive(st, i);
    hide HandRefs, HeapRefs, CommitInfo, Counted, Tokens;
    TokensMoveOn(st, i, Leaving, id);
    CommitTokens(MoveOn(st, i, Leaving), st.hands[i].id, id);
  }

  lemma TakeConserves(st: State, step: StreamStep, id: Id)
    requires CanStream(st, step) && (step.TakeReserved? || step.PopFront?)
    ensures Tokens(DoStream(st, step), id) == Tokens(st, id)
  {
    hide HandRefs, HeapRefs;
    if step.PopFront? {
      assert st.queue == [st.queue[0]] + st.queue[1..];
      TokensTakeUp(st.(queue := st.queue[1..]), st.queue[0], Streaming, id);
    } else if st.reserved.Some? {
      TokensTakeUp(st.(reserved := None), st.reserved.value, Streaming, id);
    }
  }

  lemma OverflowConserves(st: State, i: nat, id: Id)
    requires CanStream(st, Overflow(i)) && Safe(st)
    ensures Tokens(DoStream(st, Overflow(i)), id) == Tokens(st, id)
  {
    HandRefsWithout(st.hands, i, id, true);
    hide HandRefs, HeapRefs, Counted;
  }

  lemma MarkSentConserves(st: State, i: nat, id: Id)
    requires CanStream(st, MarkSent(i))
    ensures Tokens(DoStream(st, MarkSent(i)), id) == Tokens(st, id)
  {
    hide HandRefs, HeapRefs;
  }

  lemma StreamConserves(st: State, step: StreamStep, id: Id)
    requires CanStream(st, step) && Safe(st)
    ensures Tokens(DoStream(st, step), id) == Tokens(st, id) - SlotRefs(Dropped(st, Stream(step)), id)
  {
    hide HandRefs, HeapRefs, CommitInfo, Update, Safe;
    match step
    case TakeReserved => TakeConserves(st, step, id);
    case PopFront => TakeConserves(st, step, id);
    case SkipDuplicate(i) => TokensMoveOn(st, i, Leaving, id);
    case SkipErased(i) => TokensMoveOn(st, i, Leaving, id);
    case Oversize(i) => TokensMoveOn(st, i, Leaving, id);
    case Overflow(i) => OverflowConserves(st, i, id);
    case MarkSent(i) => MarkSentConserves(st, i, id);
    case Commit(i) => CommitConserves(st, i, id);
    case BeginBatch =>
    case EndBatch =>
  }

  lemma UnscheduleConserves(st: State, i: nat, id: Id)
    requires i < |st.heap|
    ensures Tokens(Unref(PopHeap(st, i), st.heap[i].id), id) == Tokens(st, id) - SlotRefs(Some(st.heap[i].id), id)
  {
    HeapRefsWithout(st.heap, i, id);
    PlacesKept(PopHeap(st, i), st.heap[i].id, BLANK);
  }

  lemma RetryConserves(st: State, step: RetryStep, limit: nat, id: Id)
    requires CanRetry(st, step)
    ensures Tokens(DoRetry(st, step, limit), id) == Tokens(st, id) - SlotRefs(Dropped(st, Retry(step)), id)
  {
    hide HandRefs, HeapRefs, Unref, AddRef, Update, KeyOf;
    match step
    case PopStale(i) => UnscheduleConserves(st, i, id);
    case DrainHeap(i) => UnscheduleConserves(st, i, id);
    case PopDue(i) => HeapRefsWithout(st.heap, i, id); TokensTakeUp(PopHeap(st, i), st.heap[i].id, Due, id);
    case Resend(i) => ResendConserves(st, i, limit, id);
    case CountRetry(i) =>
      TokensMoveOn(st, i, if At(st, st.hands[i].id).retransmissions + 1 >= limit then Exhausted else Retrying, id);
    case _ => TokensMoveOn(st, step.hand, Leaving, id);
  }

  lemma SessionConserves(st: State, step: SessionStep, id: Id)
    requires CanSession(st, step)
    ensures step.Reinitialise? || Tokens(DoSession(st, step), id) == Tokens(st, id)
    ensures step.Reinitialise? ==> Tokens(DoSession(st, step), id) <= Tokens(st, id)
  {
    match step
    case Ack(s) => TokensTakeUp(st, st.unacked[s], Acked, id);
    case MarkAcked(i) => TokensMoveOn(st, i, Sampling, id);
    case TakeSample(i) => TokensMoveOn(st, i, Leaving, id);
    case Reinitialise => ResetKeepsPlaces(st);
    case _ =>
  }

  lemma ResetKeepsPlaces(st: State)
    ensures var st' := ResetSendContext(st);
            && st'.hands == st.hands && st'.heap == st.heap && st'.unacked == st.unacked
            && st'.queue == [] && st'.reserved == None && SameSequences(st, st')
  {
    UnrefAllPlaces(st.(queue := [], reserved := None),
                   (if st.reserved.Some? then [st.reserved.value] else []) + st.queue);
  }

  lemma {:induction false} UnrefAllPlaces(st: State, ids: seq<Id>)
    ensures SamePlaces(st, UnrefAll(st, ids))
    ensures UnrefAll(st, ids).batch == st.batch && UnrefAll(st, ids).generation == st.generation
    ensures SameSequences(st, UnrefAll(st, ids))
    decreases |ids|
  {
    if ids != [] {
      UnrefAllPlaces(Unref(st, ids[0]), ids[1..]);
    }
  }

  // Every step but re-initialisation conserves the tokens of every object, up to the one it drops.
  lemma TokensConserved(st: State, step: Step, limit: nat, id: Id)
    requires Enabled(st, step) && Safe(st)
    ensures !(step.Session? && step.session.Reinitialise?) ==>
              Tokens(Apply(st, step, limit), id) == Tokens(st, id) + Gained(step, id) - SlotRefs(Dropped(st, step), id)
    ensures step.Session? && step.session.Reinitialise? ==> Tokens(Apply(st, step, limit), id) <= Tokens(st, id)
  {
    match step
    case Send(s) => SendConserves(st, s, id);
    case Stream(s) => StreamConserves(st, s, id);
    case Retry(s) => RetryConserves(st, s, limit, id);
    case Session(s) => SessionConserves(st, s, id);
  }

  // --- The invariant of a session's run ---

  // No send call that took its sequence before a re-initialisation goes on after it, and the
  // schedulers run on.
  predicate Orderly(st: State, step: Step) {
    && Enabled(st, step)
    && (step.Send? && step.send.Allocate? && !step.send.isReply ==> step.send.ticket.generation == st.generation)
    && !(step.Retry? && step.retry.DrainHeap?)
  }

  ghost predicate AtMostOne(st: State) {
    forall id :: Tokens(st, id) <= 1
  }

  ghost predicate MapHoldsData(st: State) {
    forall s :: s in st.unacked ==>
      st.unacked[s] in st.live && st.live[st.unacked[s]].sequence == s && !st.live[st.unacked[s]].isReply
  }

  // A data packet of this life that waits for its ack.
  predicate Awaiting(st: State, s: nat) {
    && s in st.unacked && st.unacked[s] in st.live
    && !st.live[st.unacked[s]].erased && st.live[st.unacked[s]].generation == st.generation
  }

  ghost predicate Transmitting(st: State) {
    !st.releasing ==> forall s :: Awaiting(st, s) ==> Tokens(st, st.unacked[s]) == 1
  }

  ghost predicate VersionsMatch(st: State) {
    forall e :: e in st.heap ==> e.id in st.live && e.version == st.live[e.id].version && !st.live[e.id].isReply
  }

  // In the queue, the reserved slot or the hand of MakeSendStream.
  predicate Transmittable(st: State, id: Id) {
    id in st.queue || st.reserved == Some(id) || Hand(id, Streaming) in st.hands
  }

  ghost predicate QueuedAreCurrent(st: State) {
    forall id :: Transmittable(st, id) ==> id in st.live && st.live[id].generation == st.generation
  }

  predicate StreamingAt(hands: seq<Hand>, i: nat) {
    i < |hands| && hands[i].place == Streaming
  }

  // MakeSendStream works on one packet at a time.
  ghost predicate OneAtATime(st: State) {
    && (forall i :: StreamingAt(st.hands, i) ==> st.batch.Building? && st.batch.tookReserved)
    && (forall i, j :: StreamingAt(st.hands, i) && StreamingAt(st.hands, j) ==> i == j)
  }

  predicate CurrentData(st: State, id: Id) {
    id in st.live && st.live[id].generation == st.generation && !st.live[id].isReply
  }

  // The sequences of this life come from its counter: those of live packets and of send calls still
  // to allocate one differ, and a sequence that was in a stream is that of no other packet.
  ghost predicate SequencesDistinct(st: State) {
    && (forall t :: t in st.tickets ==> t.generation <= st.generation)
    && (forall s :: s in st.streamed ==> s <= st.lastSequence)
    && (forall t :: t in st.tickets && t.generation == st.generation ==>
          t.sequence <= st.lastSequence && t.sequence !in st.streamed)
    && (forall id :: CurrentData(st, id) ==>
          && st.live[id].sequence <= st.lastSequence
          && Ticket(st.live[id].sequence, st.generation) !in st.tickets
          && (st.live[id].sequence in st.streamed ==> st.live[id].sent >= 1))
    && (forall id, other :: CurrentData(st, id) && CurrentData(st, other) && id != other ==>
          st.live[id].sequence != st.live[other].sequence)
  }

  // No data packet still to be popped, or just popped, has a key already in this batch.
  ghost predicate BatchKeysFresh(st: State) {
    st.batch.Building? ==>
      && (!st.batch.tookReserved ==> st.batch.keys == {})
      && st.batch.remaining <= |st.queue|
      && (forall k :: 0 <= k < st.batch.remaining && st.queue[k] in st.live && !st.live[st.queue[k]].isReply ==>
            KeyOf(st.live[st.queue[k]]) !in st.batch.keys)
      && (forall h :: h in st.hands && h.place == Streaming && h.id in st.live && !st.live[h.id].isReply ==>
            KeyOf(st.live[h.id]) !in st.batch.keys)
  }

  ghost predicate NoneFromTheFuture(st: State) {
    forall id :: id in st.live ==> st.live[id].generation <= st.generation
  }

  // What every step keeps.
  ghost predicate Carried(st: State) {
    && AtMostOne(st) && MapHoldsData(st) && VersionsMatch(st)
    && QueuedAreCurrent(st) && OneAtATime(st) && NoneFromTheFuture(st)
  }

  // What every orderly step keeps.
  ghost predicate Single(st: State) {
    Carried(st) && Transmitting(st) && SequencesDistinct(st) && BatchKeysFresh(st)
  }

  lemma HandHoldsToken(st: State, i: nat)
    requires i < |st.hands| && CarriesToken(st.hands[i].place)
    ensures Tokens(st, st.hands[i].id) >= 1
  {
    HandRefsWithout(st.hands, i, st.hands[i].id, true);
  }

  // A function that carries the token of a packet is the only place that does.
  lemma SoleCarrier(st: State, i: nat)
    requires AtMostOne(st) && i < |st.hands| && CarriesToken(st.hands[i].place)
    ensures st.hands[i].id !in st.queue && st.reserved != Some(st.hands[i].id)
    ensures forall e :: e in st.heap ==> e.id != st.hands[i].id
    ensures forall j :: 0 <= j < |st.hands| && j != i && CarriesToken(st.hands[j].place) ==>
              st.hands[j].id != st.hands[i].id
  {
    var id := st.hands[i].id;
    assert Tokens(st, id) <= 1;
    HandRefsWithout(st.hands, i, id, true);
    HeapRefsAbsent(st.heap, id);
    forall j | 0 <= j < |st.hands| && j != i && CarriesToken(st.hands[j].place)
      ensures st.hands[j].id != id
    {
      var k := if j < i then j else j - 1;
      assert Without(st.hands, i)[k] == st.hands[j];
      HandRefsWithout(Without(st.hands, i), k, id, true);
    }
  }

  lemma KeepsAtMostOne(st: State, step: Step, limit: nat)
    requires Safe(st) && Carried(st) && Enabled(st, step)
    ensures AtMostOne(Apply(st, step, limit))
  {
    forall id ensures Tokens(Apply(st, step, limit), id) <= 1 {
      assert Tokens(st, id) <= 1;
      TokensConserved(st, step, limit, id);
      if Gained(step, id) == 1 {
        assert References(st, id) == RefCount(st, id);
      }
    }
  }

  predicate MapsNew(st: State, step: Step, limit: nat, s: nat)
    requires Enabled(st, step) && s in Apply(st, step, limit).unacked
  {
    && step.Send? && step.send.Insert?
    && var id := st.hands[step.send.hand].id;
       Apply(st, step, limit).unacked[s] == id && At(st, id).sequence == s && !At(st, id).isReply
  }

  // What the steps of each component leave alone.
  lemma SendFrame(st: State, step: SendStep)
    requires CanSend(st, step)
    ensures var st' := DoSend(st, step);
            && st'.generation == st.generation && st'.releasing == st.releasing && st'.reserved == st.reserved
            && st'.batch == st.batch && st'.heap == st.heap
            && (!step.Allocate? && !step.TakeSequence? ==> SameSequences(st, st'))
    ensures !step.Insert? ==> DoSend(st, step).unacked.Items <= st.unacked.Items
  {
  }

  lemma InsertFrame(st: State, i: nat, s: nat)
    requires CanSend(st, Insert(i)) && s in DoSend(st, Insert(i)).unacked
    ensures var st' := DoSend(st, Insert(i));
            (s in st.unacked && st'.unacked[s] == st.unacked[s])
            || (&& st'.unacked[s] == st.hands[i].id && At(st, st.hands[i].id).sequence == s
                && !At(st, st.hands[i].id).isReply)
  {
  }

  lemma StreamFrame(st: State, step: StreamStep)
    requires CanStream(st, step)
    ensures var st' := DoStream(st, step);
            && st'.generation == st.generation && (st.releasing ==> st'.releasing) && st'.unacked == st.unacked
            && (!step.Commit? ==> SameSequences(st, st'))
  {
    match step
    case BeginBatch =>
    case TakeReserved =>
    case PopFront =>
    case SkipDuplicate(_) =>
    case Oversize(_) =>
    case Overflow(_) =>
    case MarkSent(_) =>
    case SkipErased(_) =>
    case Commit(_) =>
    case EndBatch =>
  }

  lemma RetryFrame(st: State, step: RetryStep, limit: nat)
    requires CanRetry(st, step)
    ensures var st' := DoRetry(st, step, limit);
            && st'.generation == st.generation && (st.releasing ==> st'.releasing) && SameSequences(st, st')
            && st'.unacked == st.unacked && st'.batch == st.batch && st'.reserved == st.reserved
  {
  }

  lemma SessionFrame(st: State, step: SessionStep)
    requires CanSession(st, step)
    ensures var st' := DoSession(st, step);
            st'.unacked.Items <= st.unacked.Items
            && st'.generation == st.generation + (if step.Reinitialise? then 1 else 0)
            && (!step.Reinitialise? ==> (st.releasing ==> st'.releasing) && SameSequences(st, st'))
            && (step.Reinitialise? ==> st'.tickets == st.tickets && st'.streamed == {})
  {
    if step.Reinitialise? { ResetKeepsPlaces(st); }
  }

  lemma MappedStaysMapped(st: State, step: Step, limit: nat, s: nat)
    requires Enabled(st, step) && s in Apply(st, step, limit).unacked
    ensures (s in st.unacked && Apply(st, step, limit).unacked[s] == st.unacked[s]) || MapsNew(st, step, limit, s)
  {
    var st' := Apply(st, step, limit);
    assert (s, st'.unacked[s]) in st'.unacked.Items;
    match step
    case Send(x) => if x.Insert? { InsertFrame(st, x.hand, s); } else { SendFrame(st, x); }
    case Stream(x) => StreamFrame(st, x);
    case Retry(x) => RetryFrame(st, x, limit);
    case Session(x) => SessionFrame(st, x);
  }

  lemma KeepsMapHoldsData(st: State, step: Step, limit: nat)
    requires Safe(st) && Carried(st) && Enabled(st, step)
    ensures MapHoldsData(Apply(st, step, limit))
  {
    var st' := Apply(st, step, limit);
    KeepsSafe(st, step, limit);
    forall s | s in st'.unacked
      ensures st'.unacked[s] in st'.live && st'.live[st'.unacked[s]].sequence == s && !st'.live[st'.unacked[s]].isReply
    {
      MappedStaysMapped(st, step, limit, s);
      MappedLive(st', s);
      Evolves(st, step, limit, st'.unacked[s]);
    }
  }

  predicate IsReinitialise(step: Step) {
    step.Session? && step.session.Reinitialise?
  }

  // MakeSendStream finds the key of a packet already in the batch, or the scheduler of a stopped
  // server drops its heap entry.
  predicate LosesTimer(st: State, step: Step, id: Id)
    requires Enabled(st, step)
  {
    || (step.Stream? && step.stream.SkipDuplicate? && st.hands[step.stream.hand].id == id)
    || (step.Retry? && step.retry.DrainHeap? && st.heap[step.retry.index].id == id)
  }

  // While the session goes on, a packet that awaits its ack loses its token exactly then.
  lemma TimerLostExactly(st: State, step: Step, limit: nat, s: nat)
    requires Safe(st) && MapHoldsData(st) && VersionsMatch(st)
    requires Enabled(st, step) && !IsReinitialise(step)
    requires Awaiting(st, s) && Awaiting(Apply(st, step, limit), s)
    requires Apply(st, step, limit).unacked[s] == st.unacked[s]
    requires !Apply(st, step, limit).releasing && Tokens(st, st.unacked[s]) == 1
    ensures Tokens(Apply(st, step, limit), st.unacked[s]) == if LosesTimer(st, step, st.unacked[s]) then 0 else 1
  {
    var id := st.unacked[s];
    TokensConserved(st, step, limit, id);
    match step
    case Retry(PopStale(i)) => assert st.heap[i] in st.heap;
    case _ =>
  }

  // ... in a session that is not releasing.
  ghost predicate LosesAwaited(st: State, step: Step)
    requires Enabled(st, step)
  {
    !st.releasing && exists s :: Awaiting(st, s) && LosesTimer(st, step, st.unacked[s])
  }

  lemma KeepsTransmitting(st: State, step: Step, limit: nat)
    requires Safe(st) && Carried(st) && Transmitting(st) && Enabled(st, step) && !LosesAwaited(st, step)
    ensures Transmitting(Apply(st, step, limit))
  {
    var st' := Apply(st, step, limit);
    KeepsSafe(st, step, limit);
    KeepsAtMostOne(st, step, limit);
    if !st'.releasing {
      forall s | Awaiting(st', s) ensures Tokens(st', st'.unacked[s]) == 1 {
        var id := st'.unacked[s];
        MappedStaysMapped(st, step, limit, s);
        Evolves(st, step, limit, id);
        TokensConserved(st, step, limit, id);
        assert Tokens(st', id) <= 1;
        if s in st.unacked && st.unacked[s] == id {
          AwaitedBefore(st, step, limit, s);
          TimerLostExactly(st, step, limit, s);
        } else {
          HandHoldsToken(st, step.send.hand);
        }
      }
    }
  }

  lemma AwaitedBefore(st: State, step: Step, limit: nat, s: nat)
    requires Safe(st) && Carried(st) && Enabled(st, step) && s in st.unacked
    requires Awaiting(Apply(st, step, limit), s) && Apply(st, step, limit).unacked[s] == st.unacked[s]
    requires !Apply(st, step, limit).releasing
    ensures !IsReinitialise(step) && Awaiting(st, s) && !st.releasing
  {
    Evolves(st, step, limit, st.unacked[s]);
    MappedLive(st, s);
    KeepsLifeMarks(st, step, limit);
  }

  // A loss leaves the packet without a token, still waiting in a session that goes on.
  lemma LossShows(st: State, step: Step, limit: nat)
    requires Safe(st) && Carried(st) && Transmitting(st) && Enabled(st, step) && LosesAwaited(st, step)
    ensures !Transmitting(Apply(st, step, limit))
  {
    var s :| Awaiting(st, s) && LosesTimer(st, step, st.unacked[s]);
    var st', id := Apply(st, step, limit), st.unacked[s];
    assert Tokens(st, id) == 1;
    TokensConserved(st, step, limit, id);
    KeepsSafe(st, step, limit);
    LossLeavesAwaiting(st, step, limit, s);
    assert Tokens(st', st'.unacked[s]) == 0;
  }

  lemma LossLeavesAwaiting(st: State, step: Step, limit: nat, s: nat)
    requires Safe(st) && Enabled(st, step) && Awaiting(st, s) && LosesTimer(st, step, st.unacked[s]) && !st.releasing
    ensures var st' := Apply(st, step, limit);
            Awaiting(st', s) && st'.unacked[s] == st.unacked[s] && !st'.releasing
  {
    var st' := Apply(st, step, limit);
    KeepsSafe(st, step, limit);
    MappedLive(st', s);
    Evolves(st, step, limit, st.unacked[s]);
  }

  // In an orderly run no key is in a batch twice but those of replies.
  lemma OrderlyLosesNone(st: State, step: Step)
    requires Safe(st) && Single(st) && Orderly(st, step)
    ensures !LosesAwaited(st, step)
  {
    forall s | Awaiting(st, s) ensures !LosesTimer(st, step, st.unacked[s]) {
      if step.Stream? && step.stream.SkipDuplicate? { assert st.hands[step.stream.hand] in st.hands; }
    }
  }

  predicate NextTicket(st: State, st': State) {
    || (st'.tickets == st.tickets && st'.lastSequence == st.lastSequence)
    || (&& st'.tickets == st.tickets + {Ticket(st.lastSequence + 1, st.generation)}
        && st'.lastSequence == st.lastSequence + 1)
  }

  predicate UsesSequence(step: Step) {
    (step.Send? && step.send.Allocate?) || (step.Stream? && step.stream.Commit?)
  }

  // The generation moves only when the session is re-initialised, and releasing ends only then.
  lemma KeepsLifeMarks(st: State, step: Step, limit: nat)
    requires Enabled(st, step)
    ensures !IsReinitialise(step) && !UsesSequence(step) ==>
              Apply(st, step, limit).streamed == st.streamed && NextTicket(st, Apply(st, step, limit))
    ensures IsReinitialise(step) ==>
              Apply(st, step, limit).tickets == st.tickets && Apply(st, step, limit).streamed == {}
    ensures Apply(st, step, limit).generation == st.generation + (if IsReinitialise(step) then 1 else 0)
    ensures !IsReinitialise(step) && st.releasing ==> Apply(st, step, limit).releasing
  {
    match step
    case Send(x) => SendFrame(st, x);
    case Stream(x) => StreamFrame(st, x);
    case Retry(x) => RetryFrame(st, x, limit);
    case Session(x) => SessionFrame(st, x);
  }

  lemma {:induction false} UnrefAllKeepsInfo(st: State, ids: seq<Id>, id: Id)
    requires id in UnrefAll(st, ids).live
    ensures id in st.live && UnrefAll(st, ids).live[id] == st.live[id].(refCount := UnrefAll(st, ids).live[id].refCount)
    decreases |ids|
  {
    if ids != [] {
      UnrefAllKeepsInfo(Unref(st, ids[0]), ids[1..], id);
    }
  }

  // The heap grows, and versions move, only when a packet is committed to a stream.
  lemma SendVersions(st: State, step: SendStep, id: Id)
    requires CanSend(st, step) && id in st.live && id in DoSend(st, step).live && !(step.Allocate? && step.id == id)
    ensures DoSend(st, step).live[id].version == st.live[id].version && DoSend(st, step).heap == st.heap
  {
    match step
    case TakeSequence =>
    case Allocate(_, _, _) =>
    case Insert(_) =>
    case Push(_) =>
    case Refuse(_) =>
    case SendFailed(_) =>
    case EraseRejected(_) =>
    case Finish(_) =>
    case Free(_) =>
  }

  lemma StreamVersions(st: State, step: StreamStep, id: Id)
    requires CanStream(st, step) && !step.Commit? && id in st.live && id in DoStream(st, step).live
    ensures DoStream(st, step).live[id].version == st.live[id].version && DoStream(st, step).heap == st.heap
  {
  }

  lemma RetryVersions(st: State, step: RetryStep, limit: nat, id: Id)
    requires CanRetry(st, step) && id in st.live && id in DoRetry(st, step, limit).live
    ensures DoRetry(st, step, limit).live[id].version == st.live[id].version
    ensures forall e :: e in DoRetry(st, step, limit).heap ==> e in st.heap
  {
    match step
    case PopStale(i) =>
    case PopDue(i) =>
    case DropDue(_) =>
    case CountRetry(_) =>
    case GiveUp(_) =>
    case Resend(_) =>
    case RefuseResend(_) =>
    case DrainHeap(i) =>
  }

  lemma SessionVersions(st: State, step: SessionStep, id: Id)
    requires CanSession(st, step) && id in st.live && id in DoSession(st, step).live
    ensures DoSession(st, step).live[id].version == st.live[id].version && DoSession(st, step).heap == st.heap
  {
    if step.Reinitialise? {
      ResetKeepsPlaces(st);
      UnrefAllKeepsInfo(st.(queue := [], reserved := None),
                        (if st.reserved.Some? then [st.reserved.value] else []) + st.queue, id);
    }
  }

  lemma KeepsVersionsMatch(st: State, step: Step, limit: nat)
    requires Safe(st) && Carried(st) && Enabled(st, step)
    ensures VersionsMatch(Apply(st, step, limit))
  {
    var st' := Apply(st, step, limit);
    KeepsSafe(st, step, limit);
    if step.Stream? && step.stream.Commit? {
      CommitKeepsVersions(st, step.stream.hand);
    } else {
      forall e | e in st'.heap
        ensures e.id in st'.live && e.version == st'.live[e.id].version && !st'.live[e.id].isReply
      {
        Evolves(st, step, limit, e.id);
        EntryKept(st, step, limit, e);
      }
    }
  }

  lemma EntryKept(st: State, step: Step, limit: nat, e: Entry)
    requires Safe(st) && Carried(st) && Enabled(st, step) && !(step.Stream? && step.stream.Commit?)
    requires e in Apply(st, step, limit).heap && e.id in Apply(st, step, limit).live && Safe(Apply(st, step, limit))
    ensures e in st.heap && e.version == Apply(st, step, limit).live[e.id].version
    ensures !(step.Send? && step.send.Allocate? && step.send.id == e.id)
  {
    match step
    case Send(x) => SendFrame(st, x); SendVersions(st, x, e.id);
    case Stream(x) => StreamHeap(st, x); StreamVersions(st, x, e.id);
    case Retry(x) => RetryHeap(st, x, limit); RetryVersions(st, x, limit, e.id);
    case Session(x) => if x.Reinitialise? { ResetKeepsPlaces(st); } SessionVersions(st, x, e.id);
  }

  lemma StreamHeap(st: State, step: StreamStep)
    requires CanStream(st, step) && !step.Commit?
    ensures DoStream(st, step).heap == st.heap
  {
  }

  lemma RetryHeap(st: State, step: RetryStep, limit: nat)
    requires CanRetry(st, step)
    ensures forall e :: e in DoRetry(st, step, limit).heap ==> e in st.heap
  {
  }

  lemma CommitKeepsVersions(st: State, i: nat)
    requires Safe(st) && Carried(st) && CanStream(st, Commit(i))
    ensures VersionsMatch(DoStream(st, Commit(i)))
  {
    SoleCarrier(st, i);
    HandLive(st, i);
    CommitPlaces(MoveOn(st, i, Leaving), st.hands[i].id);
  }

  lemma KeepsSequencesDistinct(st: State, step: Step, limit: nat)
    requires Safe(st) && Single(st) && Orderly(st, step)
    ensures SequencesDistinct(Apply(st, step, limit))
  {
    var st' := Apply(st, step, limit);
    KeepsLifeMarks(st, step, limit);
    if step.Send? && step.send.Allocate? {
      AllocateKeepsSequences(st, step.send);
    } else if step.Stream? && step.stream.Commit? {
      CommitKeepsSequences(st, step.stream.hand);
    } else {
      forall id ensures Evolved(st, st', id) {
        Evolves(st, step, limit, id);
      }
      EvolvedKeepsSequences(st, st');
    }
  }

  lemma AllocateKeepsSequences(st: State, step: SendStep)
    requires step.Allocate? && SequencesDistinct(st) && CanSend(st, step)
    requires !step.isReply ==> step.ticket.generation == st.generation
    ensures SequencesDistinct(DoSend(st, step))
  {
    hide Tokens;
  }

  lemma CommitKeepsSequences(st: State, i: nat)
    requires Safe(st) && SequencesDistinct(st) && QueuedAreCurrent(st) && CanStream(st, Commit(i))
    ensures SequencesDistinct(DoStream(st, Commit(i)))
  {
    var st', x := DoStream(st, Commit(i)), st.hands[i].id;
    HandLive(st, i);
    assert Transmittable(st, x);
    CommitSequences(MoveOn(st, i, Leaving), x);
    hide SequencesDistinct, Safe, CommitInfo;
    forall id ensures Evolved(st, st', id) {
      StreamEvolves(st, Commit(i), id);
    }
    StreamedKeepsSequences(st, st', x);
  }

  lemma StreamedKeepsSequences(st: State, st': State, x: Id)
    requires SequencesDistinct(st) && (forall id :: Evolved(st, st', id))
    requires x in st.live && x in st'.live && st.live[x].generation == st.generation && st'.live[x].sent >= 1
    requires st'.generation == st.generation && st'.lastSequence == st.lastSequence && st'.tickets == st.tickets
    requires st'.streamed == if st.live[x].isReply then st.streamed else st.streamed + {st.live[x].sequence}
    ensures SequencesDistinct(st')
  {
    forall id | id in st'.live
      ensures CurrentData(st', id) ==>
                && CurrentData(st, id) && st'.live[id].sequence == st.live[id].sequence
                && st'.live[id].sent >= st.live[id].sent
    {
      assert Evolved(st, st', id);
    }
  }

  lemma CommitSequences(st: State, id: Id)
    requires id in st.live && st.live[id].refCount > 0
    ensures var st' := CommitInfo(st, id);
            && st'.generation == st.generation && st'.lastSequence == st.lastSequence && st'.tickets == st.tickets
            && st'.streamed == (if st.live[id].isReply then st.streamed else st.streamed + {st.live[id].sequence})
            && id in st'.live && st'.live[id].sent == st.live[id].sent + 1
  {
  }

  // Live packets only grow older, and the counter only moves on or starts again with a new life.
  lemma EvolvedKeepsSequences(st: State, st': State)
    requires SequencesDistinct(st) && NoneFromTheFuture(st) && (forall id :: Evolved(st, st', id))
    requires || (st'.generation == st.generation && st'.streamed == st.streamed && NextTicket(st, st'))
             || (st'.generation > st.generation && st'.tickets == st.tickets && st'.streamed == {})
    ensures SequencesDistinct(st')
  {
    forall id | id in st'.live
      ensures CurrentData(st', id) ==>
                && CurrentData(st, id) && st'.generation == st.generation
                && st'.live[id].sequence == st.live[id].sequence && st'.live[id].sent >= st.live[id].sent
    {
      assert Evolved(st, st', id);
    }
  }

  // --- Where queued packets come from ---

  lemma MoveOnHands(st: State, i: nat, place: Place)
    requires i < |st.hands|
    ensures forall h :: h in MoveOn(st, i, place).hands ==> h in st.hands || h == Hand(st.hands[i].id, place)
  {
  }

  lemma WithoutElements<T>(s: seq<T>, i: nat)
    requires i < |s|
    ensures forall x :: x in Without(s, i) ==> x in s
  {
  }

  lemma SendQueues(st: State, step: SendStep, id: Id)
    requires CanSend(st, step) && Transmittable(DoSend(st, step), id)
    ensures Transmittable(st, id) || (step.Push? && st.hands[step.hand].id == id)
  {
    match step
    case TakeSequence =>
    case Allocate(x, _, _) =>
    case Insert(i) => MoveOnHands(st, i, Registered);
    case Push(i) => MoveOnHands(st, i, Pushed);
    case Refuse(i) => MoveOnHands(st, i, Rejected);
    case SendFailed(i) => MoveOnHands(st, i, Rejected);
    case EraseRejected(i) => MoveOnHands(st, i, Leaving);
    case Finish(i) => MoveOnHands(st, i, Leaving);
    case Free(i) => WithoutElements(st.hands, i);
  }

  lemma StreamQueues(st: State, step: StreamStep, id: Id)
    requires CanStream(st, step) && Transmittable(DoStream(st, step), id)
    ensures Transmittable(st, id)
  {
    match step
    case SkipDuplicate(i) => MoveOnHands(st, i, Leaving);
    case SkipErased(i) => MoveOnHands(st, i, Leaving);
    case Oversize(i) => MoveOnHands(st, i, Leaving);
    case Commit(i) => MoveOnHands(st, i, Leaving);
    case Overflow(i) => WithoutElements(st.hands, i); assert st.hands[i] in st.hands;
    case _ =>
  }

  lemma RetryQueues(st: State, step: RetryStep, limit: nat, id: Id)
    requires CanRetry(st, step) && Transmittable(DoRetry(st, step, limit), id)
    ensures Transmittable(st, id) || (step.Resend? && st.hands[step.hand].id == id)
  {
    match step
    case PopStale(_) =>
    case DrainHeap(_) =>
    case PopDue(_) =>
    case CountRetry(i) => MoveOnHands(st, i, DoRetry(st, step, limit).hands[i].place);
    case _ => MoveOnHands(st, step.hand, Leaving);
  }

  lemma SessionQueues(st: State, step: SessionStep, id: Id)
    requires OneAtATime(st) && CanSession(st, step) && Transmittable(DoSession(st, step), id)
    ensures Transmittable(st, id) && !step.Reinitialise?
  {
    match step
    case MarkAcked(i) => MoveOnHands(st, i, Sampling);
    case TakeSample(i) => MoveOnHands(st, i, Leaving);
    case Reinitialise => ResetKeepsPlaces(st); NoneStreamingAt(st);
    case _ =>
  }

  // What is to be transmitted after a step was before, or its owner check let it in.
  lemma KeepsQueuedAreCurrent(st: State, step: Step, limit: nat)
    requires Safe(st) && Carried(st) && Enabled(st, step)
    ensures QueuedAreCurrent(Apply(st, step, limit))
  {
    var st' := Apply(st, step, limit);
    KeepsSafe(st, step, limit);
    KeepsLifeMarks(st, step, limit);
    forall id | Transmittable(st', id) ensures id in st'.live && st'.live[id].generation == st'.generation {
      TransmittableLive(st', id);
      TransmittableLive(st, id);
      Evolves(st, step, limit, id);
      match step
      case Send(x) => SendQueues(st, x, id);
      case Stream(x) => StreamQueues(st, x, id);
      case Retry(x) => RetryQueues(st, x, limit, id);
      case Session(x) => SessionQueues(st, x, id);
    }
  }

  lemma TransmittableLive(st: State, id: Id)
    requires Safe(st)
    ensures Transmittable(st, id) ==> id in st.live
  {
    assert References(st, id) == RefCount(st, id);
    if Hand(id, Streaming) in st.hands {
      var i :| 0 <= i < |st.hands| && st.hands[i] == Hand(id, Streaming);
      HandLive(st, i);
    }
  }

  lemma NoneStreamingAt(st: State)
    ensures NoneStreaming(st) <==> forall i :: !StreamingAt(st.hands, i)
  {
    if !NoneStreaming(st) {
      var h :| h in st.hands && h.place == Streaming;
      var i :| 0 <= i < |st.hands| && st.hands[i] == h;
      assert StreamingAt(st.hands, i);
    }
    if NoneStreaming(st) {
      forall i: nat ensures !StreamingAt(st.hands, i) {
        if i < |st.hands| { assert st.hands[i] in st.hands; }
      }
    }
  }

  // Hands that do not start streaming.
  lemma MoveOnOneAtATime(st: State, i: nat, place: Place)
    requires OneAtATime(st) && i < |st.hands| && place != Streaming
    ensures OneAtATime(MoveOn(st, i, place))
  {
    forall k ensures StreamingAt(MoveOn(st, i, place).hands, k) ==> StreamingAt(st.hands, k) {
    }
  }

  lemma TakeUpOneAtATime(st: State, id: Id, place: Place)
    requires OneAtATime(st)
    requires place == Streaming ==> NoneStreaming(st) && st.batch.Building? && st.batch.tookReserved
    ensures OneAtATime(TakeUp(st, id, place))
  {
    NoneStreamingAt(st);
    forall k ensures StreamingAt(TakeUp(st, id, place).hands, k) ==>
          StreamingAt(st.hands, k) || (k == |st.hands| && place == Streaming) {
    }
  }

  lemma LetGoOneAtATime(st: State, i: nat)
    requires OneAtATime(st) && i < |st.hands|
    ensures OneAtATime(LetGo(st, i))
    ensures st.hands[i].place == Streaming ==> NoneStreaming(LetGo(st, i))
  {
    forall k: nat ensures StreamingAt(LetGo(st, i).hands, k) ==> StreamingAt(st.hands, if k < i then k else k + 1) {
    }
    assert StreamingAt(st.hands, i) <==> st.hands[i].place == Streaming;
    NoneStreamingAt(LetGo(st, i));
  }

  lemma SendKeepsOne(st: State, step: SendStep)
    requires OneAtATime(st) && CanSend(st, step)
    ensures OneAtATime(DoSend(st, step))
  {
    match step
    case TakeSequence =>
    case Allocate(x, _, _) => TakeUpOneAtATime(st, x, Initialised);
    case Insert(i) => MoveOnOneAtATime(st, i, Registered);
    case Push(i) => MoveOnOneAtATime(st, i, Pushed);
    case Refuse(i) => MoveOnOneAtATime(st, i, Rejected);
    case SendFailed(i) => MoveOnOneAtATime(st, i, Rejected);
    case EraseRejected(i) => MoveOnOneAtATime(st, i, Leaving);
    case Finish(i) => MoveOnOneAtATime(st, i, Leaving);
    case Free(i) => LetGoOneAtATime(st, i);
  }

  lemma StreamKeepsOne(st: State, step: StreamStep)
    requires OneAtATime(st) && CanStream(st, step)
    ensures OneAtATime(DoStream(st, step))
  {
    NoneStreamingAt(st);
    match step
    case TakeReserved =>
      if st.reserved.Some? {
        TakeUpOneAtATime(st.(batch := st.batch.(tookReserved := true)), st.reserved.value, Streaming);
      }
    case PopFront => TakeUpOneAtATime(st, st.queue[0], Streaming);
    case SkipDuplicate(i) => MoveOnOneAtATime(st, i, Leaving);
    case SkipErased(i) => MoveOnOneAtATime(st, i, Leaving);
    case Oversize(i) => MoveOnOneAtATime(st, i, Leaving);
    case Commit(i) => MoveOnOneAtATime(st, i, Leaving);
    case Overflow(i) => LetGoOneAtATime(st, i); NoneStreamingAt(LetGo(st, i));
    case _ =>
  }

  lemma RetryKeepsOne(st: State, step: RetryStep, limit: nat)
    requires OneAtATime(st) && CanRetry(st, step)
    ensures OneAtATime(DoRetry(st, step, limit))
  {
    match step
    case PopStale(_) =>
    case DrainHeap(_) =>
    case PopDue(i) => TakeUpOneAtATime(PopHeap(st, i), st.heap[i].id, Due);
    case CountRetry(i) => MoveOnOneAtATime(st, i,
          if At(st, st.hands[i].id).retransmissions + 1 >= limit then Exhausted else Retrying);
    case _ => MoveOnOneAtATime(st, step.hand, Leaving);
  }

  lemma SessionKeepsOne(st: State, step: SessionStep)
    requires OneAtATime(st) && CanSession(st, step)
    ensures OneAtATime(DoSession(st, step))
  {
    match step
    case Ack(s) => TakeUpOneAtATime(st, st.unacked[s], Acked);
    case MarkAcked(i) => MoveOnOneAtATime(st, i, Sampling);
    case TakeSample(i) => MoveOnOneAtATime(st, i, Leaving);
    case Reinitialise => ResetKeepsPlaces(st);
    case _ =>
  }

  lemma KeepsOneAtATime(st: State, step: Step, limit: nat)
    requires OneAtATime(st) && Enabled(st, step)
    ensures OneAtATime(Apply(st, step, limit))
  {
    match step
    case Send(x) => SendKeepsOne(st, x);
    case Stream(x) => StreamKeepsOne(st, x);
    case Retry(x) => RetryKeepsOne(st, x, limit);
    case Session(x) => SessionKeepsOne(st, x);
  }

  // --- Keys of a batch ---

  // The queue only grew, streaming hands are old ones, and no object changed its key.
  lemma EvolvedKeepsBatch(st: State, st': State)
    requires BatchKeysFresh(st) && (st'.batch == st.batch || st'.batch.Idle?)
    requires st.queue <= st'.queue
    requires forall h :: h in st'.hands && h.place == Streaming ==> h in st.hands
    requires forall id :: id in st.queue || Hand(id, Streaming) in st.hands ==> Evolved(st, st', id)
    ensures BatchKeysFresh(st')
  {
    if st'.batch.Building? {
      forall k | 0 <= k < st'.batch.remaining && st'.queue[k] in st'.live && !st'.live[st'.queue[k]].isReply
        ensures KeyOf(st'.live[st'.queue[k]]) !in st'.batch.keys
      {
        assert st'.queue[k] == st.queue[k];
        assert Evolved(st, st', st.queue[k]);
      }
      forall h | h in st'.hands && h.place == Streaming && h.id in st'.live && !st'.live[h.id].isReply
        ensures KeyOf(st'.live[h.id]) !in st'.batch.keys
      {
        assert h == Hand(h.id, Streaming);
        assert Evolved(st, st', h.id);
      }
    }
  }

  lemma SendKeepsBatch(st: State, step: SendStep)
    requires Safe(st) && BatchKeysFresh(st) && CanSend(st, step)
    ensures BatchKeysFresh(DoSend(st, step))
  {
    var st' := DoSend(st, step);
    SendFrame(st, step);
    forall id | id in st.queue || Hand(id, Streaming) in st.hands ensures Evolved(st, st', id) {
      TransmittableLive(st, id);
      SendEvolves(st, step, id);
    }
    forall h | h in st'.hands && h.place == Streaming ensures h in st.hands {
      SendHands(st, step, h);
    }
    SendQueueGrows(st, step);
    EvolvedKeepsBatch(st, st');
  }

  lemma SendQueueGrows(st: State, step: SendStep)
    requires CanSend(st, step)
    ensures st.queue <= DoSend(st, step).queue
  {
  }

  lemma SendHands(st: State, step: SendStep, h: Hand)
    requires CanSend(st, step) && h in DoSend(st, step).hands && h.place == Streaming
    ensures h in st.hands
  {
    match step
    case TakeSequence =>
    case Allocate(x, _, _) =>
    case Insert(i) => MoveOnHands(st, i, Registered);
    case Push(i) => MoveOnHands(st, i, Pushed);
    case Refuse(i) => MoveOnHands(st, i, Rejected);
    case SendFailed(i) => MoveOnHands(st, i, Rejected);
    case EraseRejected(i) => MoveOnHands(st, i, Leaving);
    case Finish(i) => MoveOnHands(st, i, Leaving);
    case Free(i) => WithoutElements(st.hands, i);
  }

  lemma RetryKeepsBatch(st: State, step: RetryStep, limit: nat)
    requires Safe(st) && BatchKeysFresh(st) && CanRetry(st, step)
    ensures BatchKeysFresh(DoRetry(st, step, limit))
  {
    var st' := DoRetry(st, step, limit);
    RetryFrame(st, step, limit);
    forall id ensures Evolved(st, st', id) {
      RetryEvolves(st, step, limit, id);
    }
    forall h | h in st'.hands && h.place == Streaming ensures h in st.hands {
      RetryHands(st, step, limit, h);
    }
    RetryQueueGrows(st, step, limit);
    EvolvedKeepsBatch(st, st');
  }

  lemma RetryQueueGrows(st: State, step: RetryStep, limit: nat)
    requires CanRetry(st, step)
    ensures st.queue <= DoRetry(st, step, limit).queue
  {
  }

  lemma RetryHands(st: State, step: RetryStep, limit: nat, h: Hand)
    requires CanRetry(st, step) && h in DoRetry(st, step, limit).hands && h.place == Streaming
    ensures h in st.hands
  {
    match step
    case PopStale(_) =>
    case DrainHeap(_) =>
    case PopDue(_) =>
    case CountRetry(i) => MoveOnHands(st, i, DoRetry(st, step, limit).hands[i].place);
    case _ => MoveOnHands(st, step.hand, Leaving);
  }

  lemma SessionKeepsBatch(st: State, step: SessionStep)
    requires Safe(st) && BatchKeysFresh(st) && CanSession(st, step)
    ensures BatchKeysFresh(DoSession(st, step))
  {
    var st' := DoSession(st, step);
    if step.Reinitialise? {
      ResetKeepsPlaces(st);
      UnrefAllPlaces(st.(queue := [], reserved := None),
                     (if st.reserved.Some? then [st.reserved.value] else []) + st.queue);
    } else {
      forall id ensures Evolved(st, st', id) {
        SessionEvolves(st, step, id);
      }
      if step.MarkAcked? { MoveOnHands(st, step.hand, Sampling); }
      if step.TakeSample? { MoveOnHands(st, step.hand, Leaving); }
      EvolvedKeepsBatch(st, st');
    }
  }

  lemma StreamKeepsBatch(st: State, step: StreamStep)
    requires Safe(st) && Single(st) && CanStream(st, step)
    ensures BatchKeysFresh(DoStream(st, step))
  {
    match step
    case BeginBatch => NoneStreamingAt(st);
    case EndBatch =>
    case Overflow(_) =>
    case TakeReserved =>
    case PopFront => PopFrontKeepsBatch(st);
    case Commit(i) => CommitKeepsBatch(st, i);
    case MarkSent(i) =>
      forall id ensures Evolved(st, DoStream(st, step), id) { StreamEvolves(st, step, id); }
      EvolvedKeepsBatch(st, DoStream(st, step));
    case _ =>
      forall id ensures Evolved(st, DoStream(st, step), id) { StreamEvolves(st, step, id); }
      MoveOnHands(st, step.hand, Leaving);
      EvolvedKeepsBatch(st, DoStream(st, step));
  }

  lemma PopFrontKeepsBatch(st: State)
    requires Safe(st) && Single(st) && CanStream(st, PopFront)
    ensures BatchKeysFresh(DoStream(st, PopFront))
  {
    var st' := DoStream(st, PopFront);
    forall k | 0 <= k < st'.batch.remaining && st'.queue[k] in st'.live && !st'.live[st'.queue[k]].isReply
      ensures KeyOf(st'.live[st'.queue[k]]) !in st'.batch.keys
    {
      assert st'.queue[k] == st.queue[k + 1];
    }
  }

  // Packets of one generation have distinct sequences, so committing one leaves the other keys fresh.
  lemma CommitKeepsBatch(st: State, i: nat)
    requires Safe(st) && Single(st) && CanStream(st, Commit(i))
    ensures BatchKeysFresh(DoStream(st, Commit(i)))
  {
    var st' := DoStream(st, Commit(i));
    var x := st.hands[i].id;
    HandLive(st, i);
    SoleCarrier(st, i);
    CommitPlaces(MoveOn(st, i, Leaving), x);
    MoveOnHands(st, i, Leaving);
    assert StreamingAt(st.hands, i) && st.hands[i] == Hand(x, Streaming) && st.hands[i] in st.hands;
    assert Transmittable(st, x);
    assert st'.batch == st.batch.(keys := st.batch.keys + {KeyOf(st.live[x])});
    forall k | 0 <= k < st'.batch.remaining && st'.queue[k] in st'.live && !st'.live[st'.queue[k]].isReply
      ensures KeyOf(st'.live[st'.queue[k]]) !in st'.batch.keys
    {
      var y := st.queue[k];
      StreamEvolves(st, Commit(i), y);
      assert y in st.queue && Transmittable(st, y);
      assert CurrentData(st, y);
      assert !st.live[x].isReply ==> CurrentData(st, x);
    }
    forall j: nat ensures !StreamingAt(st'.hands, j) {
      assert StreamingAt(st'.hands, j) ==> StreamingAt(st.hands, j) && j != i;
    }
    NoneStreamingAt(st');
  }

  lemma KeepsBatchKeysFresh(st: State, step: Step, limit: nat)
    requires Safe(st) && Single(st) && Orderly(st, step)
    ensures BatchKeysFresh(Apply(st, step, limit))
  {
    match step
    case Send(x) => SendKeepsBatch(st, x);
    case Stream(x) => StreamKeepsBatch(st, x);
    case Retry(x) => RetryKeepsBatch(st, x, limit);
    case Session(x) => SessionKeepsBatch(st, x);
  }

  lemma KeepsNoneFromTheFuture(st: State, step: Step, limit: nat)
    requires NoneFromTheFuture(st) && Enabled(st, step)
    ensures NoneFromTheFuture(Apply(st, step, limit))
  {
    var st' := Apply(st, step, limit);
    KeepsLifeMarks(st, step, limit);
    forall id | id in st'.live ensures st'.live[id].generation <= st'.generation {
      Evolves(st, step, limit, id);
    }
  }

  lemma KeepsCarried(st: State, step: Step, limit: nat)
    requires Safe(st) && Carried(st) && Enabled(st, step)
    ensures Carried(Apply(st, step, limit))
  {
    KeepsAtMostOne(st, step, limit);
    KeepsMapHoldsData(st, step, limit);
    KeepsVersionsMatch(st, step, limit);
    KeepsQueuedAreCurrent(st, step, limit);
    KeepsOneAtATime(st, step, limit);
    KeepsNoneFromTheFuture(st, step, limit);
  }

  lemma KeepsSingle(st: State, step: Step, limit: nat)
    requires Safe(st) && Single(st) && Orderly(st, step)
    ensures Single(Apply(st, step, limit))
  {
    KeepsCarried(st, step, limit);
    OrderlyLosesNone(st, step);
    KeepsTransmitting(st, step, limit);
    KeepsSequencesDistinct(st, step, limit);
    KeepsBatchKeysFresh(st, step, limit);
  }
}
