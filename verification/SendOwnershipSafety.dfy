/** Reference counts are exact in every reachable state, so no object is recycled while referred to. */
module SendOwnershipSafety {
  import opened Common
  import opened SendOwnership

  // --- Counting lemmas ---

  lemma {:induction false} HeapRefsAppend(heap: seq<Entry>, e: Entry, id: Id)
    ensures HeapRefs(heap + [e], id) == HeapRefs(heap, id) + (if e.id == id then 1 else 0)
  {
    if heap != [] {
      assert (heap + [e])[1..] == heap[1..] + [e];
      HeapRefsAppend(heap[1..], e, id);
    }
  }

  lemma {:induction false} HeapRefsWithout(heap: seq<Entry>, index: nat, id: Id)
    requires index < |heap|
    ensures HeapRefs(heap, id) == HeapRefs(Without(heap, index), id) + (if heap[index].id == id then 1 else 0)
  {
    if index == 0 {
      assert Without(heap, 0) == heap[1..];
    } else {
      assert Without(heap, index)[1..] == Without(heap[1..], index - 1);
      HeapRefsWithout(heap[1..], index - 1, id);
    }
  }

  lemma {:induction false} HeapRefsAbsent(heap: seq<Entry>, id: Id)
    requires HeapRefs(heap, id) == 0
    ensures forall e :: e in heap ==> e.id != id
  {
    forall i | 0 <= i < |heap| ensures heap[i].id != id {
      HeapRefsWithout(heap, i, id);
    }
  }

  lemma {:induction false} HandRefsAppend(hands: seq<Hand>, hand: Hand, id: Id, token: bool)
    ensures HandRefs(hands + [hand], id, token) ==
            HandRefs(hands, id, token) + (if hand.id == id && CarriesToken(hand.place) == token then 1 else 0)
  {
    if hands != [] {
      assert (hands + [hand])[1..] == hands[1..] + [hand];
      HandRefsAppend(hands[1..], hand, id, token);
    }
  }

  lemma {:induction false} HandRefsWithout(hands: seq<Hand>, i: nat, id: Id, token: bool)
    requires i < |hands|
    ensures HandRefs(hands, id, token) ==
            HandRefs(Without(hands, i), id, token)
            + (if hands[i].id == id && CarriesToken(hands[i].place) == token then 1 else 0)
  {
    if i == 0 {
      assert Without(hands, 0) == hands[1..];
    } else {
      assert Without(hands, i)[1..] == Without(hands[1..], i - 1);
      HandRefsWithout(hands[1..], i - 1, id, token);
    }
  }

  lemma HandRefsUpdate(hands: seq<Hand>, i: nat, place: Place, id: Id, token: bool)
    requires i < |hands|
    ensures HandRefs(hands[i := hands[i].(place := place)], id, token) ==
            HandRefs(hands, id, token)
            - (if hands[i].id == id && CarriesToken(hands[i].place) == token then 1 else 0)
            + (if hands[i].id == id && CarriesToken(place) == token then 1 else 0)
  {
    var after := hands[i := hands[i].(place := place)];
    assert Without(after, i) == Without(hands, i);
    HandRefsWithout(hands, i, id, token);
    HandRefsWithout(after, i, id, token);
  }

  lemma UnackedRefsAdd(unacked: map<nat, Id>, s: nat, owner: Id, id: Id)
    requires s !in unacked
    ensures UnackedRefs(unacked[s := owner], id) == UnackedRefs(unacked, id) + (if owner == id then 1 else 0)
  {
    if owner == id {
      assert KeysOwnedBy(unacked[s := owner], id) == KeysOwnedBy(unacked, id) + {s};
    } else {
      assert KeysOwnedBy(unacked[s := owner], id) == KeysOwnedBy(unacked, id);
    }
  }

  lemma UnackedRefsRemove(unacked: map<nat, Id>, s: nat, id: Id)
    requires s in unacked
    ensures UnackedRefs(unacked, id) == UnackedRefs(unacked - {s}, id) + (if unacked[s] == id then 1 else 0)
  {
    var m := unacked - {s};
    assert m[s := unacked[s]] == unacked;
    UnackedRefsAdd(m, s, unacked[s], id);
  }

  lemma SizeAfterUpdate(live: map<Id, Info>, id: Id, info: Info)
    ensures |live[id := info]| == |live| + (if id in live then 0 else 1)
  {
    var m := live[id := info];
    assert m.Keys == live.Keys + {id};
    assert |m| == |m.Keys| && |live| == |live.Keys|;
  }

  lemma SizeAfterRemove(live: map<Id, Info>, id: Id)
    requires id in live
    ensures |live - {id}| == |live| - 1
  {
    var m := live - {id};
    assert m.Keys == live.Keys - {id};
    assert |m| == |m.Keys| && |live| == |live.Keys|;
  }

  // --- What one operation does to the counts ---

  // Every count is right, except that the references to id exceed its count by k.
  ghost predicate OffBy(st: State, id: Id, k: int) {
    forall x :: References(st, x) == RefCount(st, x) + (if x == id then k else 0)
  }

  // Two states with the same places have the same references.
  predicate SamePlaces(st: State, st': State) {
    && st'.queue == st.queue && st'.reserved == st.reserved && st'.heap == st.heap
    && st'.unacked == st.unacked && st'.hands == st.hands
  }

  // A hand keeps what it refers to when its function moves on.
  lemma ReferencesMoveOn(st: State, i: nat, place: Place)
    requires i < |st.hands|
    ensures forall x :: References(MoveOn(st, i, place), x) == References(st, x)
  {
    forall x ensures References(MoveOn(st, i, place), x) == References(st, x) {
      HandRefsUpdate(st.hands, i, place, x, true);
      HandRefsUpdate(st.hands, i, place, x, false);
    }
  }

  lemma ReferencesTakeUp(st: State, id: Id, place: Place)
    ensures forall x :: References(TakeUp(st, id, place), x) == References(st, x) + (if x == id then 1 else 0)
  {
    forall x ensures References(TakeUp(st, id, place), x) == References(st, x) + (if x == id then 1 else 0) {
      HandRefsAppend(st.hands, Hand(id, place), x, true);
      HandRefsAppend(st.hands, Hand(id, place), x, false);
    }
  }

  lemma ReferencesLetGo(st: State, i: nat)
    requires i < |st.hands|
    ensures forall x :: References(LetGo(st, i), x) == References(st, x) - (if x == st.hands[i].id then 1 else 0)
  {
    forall x ensures References(LetGo(st, i), x) == References(st, x) - (if x == st.hands[i].id then 1 else 0) {
      HandRefsWithout(st.hands, i, x, true);
      HandRefsWithout(st.hands, i, x, false);
    }
  }

  lemma ReferencesPopHeap(st: State, i: nat)
    requires i < |st.heap|
    ensures forall x :: References(PopHeap(st, i), x) == References(st, x) - (if x == st.heap[i].id then 1 else 0)
  {
    forall x ensures References(PopHeap(st, i), x) == References(st, x) - (if x == st.heap[i].id then 1 else 0) {
      HeapRefsWithout(st.heap, i, x);
    }
  }

  lemma ReferencesUnmap(st: State, s: nat)
    requires s in st.unacked
    ensures forall x ::
              References(st.(unacked := st.unacked - {s}), x)
              == References(st, x) - (if x == st.unacked[s] then 1 else 0)
  {
    forall x
      ensures References(st.(unacked := st.unacked - {s}), x)
              == References(st, x) - (if x == st.unacked[s] then 1 else 0)
    {
      UnackedRefsRemove(st.unacked, s, x);
    }
  }

  lemma MappedLive(st: State, s: nat)
    requires Counted(st) && s in st.unacked
    ensures st.unacked[s] in st.live
  {
    UnackedRefsRemove(st.unacked, s, st.unacked[s]);
    assert References(st, st.unacked[s]) == RefCount(st, st.unacked[s]);
  }

  lemma HandLive(st: State, i: nat)
    requires Counted(st) && i < |st.hands|
    ensures st.hands[i].id in st.live
  {
    HandRefsWithout(st.hands, i, st.hands[i].id, CarriesToken(st.hands[i].place));
    assert References(st, st.hands[i].id) == RefCount(st, st.hands[i].id);
  }

  // A reference moved between places, or a field no count depends on changed.
  lemma MoveSafe(st: State, st': State)
    requires Safe(st) && forall x :: References(st', x) == References(st, x)
    requires st'.live == st.live && st'.births == st.births && st'.frees == st.frees && st'.fault == st.fault
    requires forall e :: e in st'.heap ==> e in st.heap
    requires st'.batch.Building? && st'.batch.tookReserved ==> st'.reserved.None?
    ensures Safe(st')
  {
    forall x ensures References(st', x) == RefCount(st', x) {
      assert References(st', x) == References(st, x) == RefCount(st, x);
    }
  }

  lemma UpdateSafe(st: State, id: Id, info: Info)
    requires Safe(st) && id in st.live
    requires info.refCount == st.live[id].refCount && info.birth == st.live[id].birth
    ensures Safe(Update(st, id, info))
  {
    var st' := Update(st, id, info);
    forall x ensures References(st', x) == RefCount(st', x) {
      assert References(st, x) == RefCount(st, x) == RefCount(st', x);
    }
    SizeAfterUpdate(st.live, id, info);
  }

  lemma AddRefForm(st: State, id: Id)
    requires WellFormed(st) && id in st.live
    ensures WellFormed(AddRef(st, id)) && SamePlaces(st, AddRef(st, id))
    ensures AddRef(st, id).live == st.live[id := st.live[id].(refCount := st.live[id].refCount + 1)]
  {
    SizeAfterUpdate(st.live, id, st.live[id].(refCount := st.live[id].refCount + 1));
  }

  lemma AddRefSafe(st: State, id: Id)
    requires OffBy(st, id, 1) && WellFormed(st) && id in st.live
    ensures Safe(AddRef(st, id))
  {
    var st' := AddRef(st, id);
    AddRefForm(st, id);
    forall x ensures References(st', x) == RefCount(st', x) {
      assert References(st, x) == RefCount(st, x) + (if x == id then 1 else 0);
      assert References(st', x) == References(st, x);
    }
  }

  lemma UnrefForm(st: State, id: Id)
    requires WellFormed(st) && id in st.live
    requires st.live[id].refCount == 1 ==> HeapRefs(st.heap, id) == 0
    ensures WellFormed(Unref(st, id)) && SamePlaces(st, Unref(st, id))
    ensures Unref(st, id).live ==
            if st.live[id].refCount == 1 then st.live - {id}
            else st.live[id := st.live[id].(refCount := st.live[id].refCount - 1)]
  {
    if st.live[id].refCount == 1 {
      SizeAfterRemove(st.live, id);
      HeapRefsAbsent(st.heap, id);
    } else {
      SizeAfterUpdate(st.live, id, st.live[id].(refCount := st.live[id].refCount - 1));
    }
  }

  lemma UnrefSafe(st: State, id: Id)
    requires OffBy(st, id, -1) && WellFormed(st)
    ensures id in st.live && Safe(Unref(st, id))
  {
    assert References(st, id) == RefCount(st, id) - 1;
    var st' := Unref(st, id);
    UnrefForm(st, id);
    forall x ensures References(st', x) == RefCount(st', x) {
      assert References(st, x) == RefCount(st, x) + (if x == id then -1 else 0);
      assert References(st', x) == References(st, x);
    }
  }

  lemma ScheduleForm(st: State, id: Id)
    requires WellFormed(st) && id in st.live
    ensures Schedule(st, id) == st.(
      heap := st.heap + [Entry(id, st.live[id].version + 1, st.live[id].birth)],
      live := st.live[id := st.live[id].(version := st.live[id].version + 1, refCount := st.live[id].refCount + 1)])
  {
  }

  lemma ScheduleSafe(st: State, id: Id)
    requires Safe(st) && id in st.live
    ensures Safe(Schedule(st, id))
  {
    var entry := Entry(id, st.live[id].version + 1, st.live[id].birth);
    var bumped := Update(st, id, At(st, id).(version := At(st, id).version + 1));
    UpdateSafe(st, id, At(st, id).(version := At(st, id).version + 1));
    var pushed := bumped.(heap := st.heap + [entry]);
    forall x ensures References(pushed, x) == RefCount(pushed, x) + (if x == id then 1 else 0) {
      assert References(bumped, x) == RefCount(bumped, x);
      HeapRefsAppend(st.heap, entry, x);
    }
    AddRefSafe(pushed, id);
    ScheduleForm(st, id);
    assert Schedule(st, id) == AddRef(pushed, id);
  }

  // Freeing a list of references, one each.
  lemma {:induction false} UnrefAllSafe(st: State, ids: seq<Id>)
    requires WellFormed(st)
    requires forall x :: References(st, x) + multiset(ids)[x] == RefCount(st, x)
    ensures Safe(UnrefAll(st, ids))
    ensures UnrefAll(st, ids) == st.(live := UnrefAll(st, ids).live, frees := UnrefAll(st, ids).frees)
    decreases |ids|
  {
    if ids == [] {
      forall x ensures References(st, x) == RefCount(st, x) {
        assert References(st, x) + multiset(ids)[x] == RefCount(st, x);
      }
    } else {
      UnrefHead(st, ids);
      UnrefAllSafe(Unref(st, ids[0]), ids[1..]);
    }
  }

  lemma UnrefHead(st: State, ids: seq<Id>)
    requires WellFormed(st) && ids != []
    requires forall x :: References(st, x) + multiset(ids)[x] == RefCount(st, x)
    ensures WellFormed(Unref(st, ids[0])) && SamePlaces(st, Unref(st, ids[0]))
    ensures Unref(st, ids[0]) == st.(live := Unref(st, ids[0]).live, frees := Unref(st, ids[0]).frees)
    ensures forall x :: References(Unref(st, ids[0]), x) + multiset(ids[1..])[x] == RefCount(Unref(st, ids[0]), x)
  {
    var id := ids[0];
    assert ids == [id] + ids[1..];
    assert References(st, id) + multiset(ids)[id] == RefCount(st, id);
    UnrefForm(st, id);
    var st' := Unref(st, id);
    forall x ensures References(st', x) + multiset(ids[1..])[x] == RefCount(st', x) {
      assert References(st, x) + multiset(ids)[x] == RefCount(st, x);
      assert References(st', x) == References(st, x);
    }
  }

  // --- Safe is inductive ---

  lemma AllocateSafe(st: State, id: Id, ticket: Ticket, isReply: bool)
    requires Safe(st) && CanSend(st, Allocate(id, ticket, isReply))
    ensures Safe(DoSend(st, Allocate(id, ticket, isReply)))
  {
    var info := NewInfo(st, ticket.sequence, isReply);
    var st' := DoSend(st, Allocate(id, ticket, isReply));
    assert References(st, id) == RefCount(st, id);
    HeapRefsAbsent(st.heap, id);
    SizeAfterUpdate(st.live, id, info);
    ReferencesTakeUp(st, id, Initialised);
    forall x ensures References(st', x) == RefCount(st', x) {
      assert References(st', x) == References(TakeUp(st, id, Initialised), x);
      assert References(st, x) == RefCount(st, x);
    }
  }

  lemma InsertInfoSafe(st: State, id: Id)
    requires Safe(st) && id in st.live
    ensures Safe(InsertInfo(st, id))
  {
    var info := At(st, id);
    if !(info.isReply || info.sequence in st.unacked) {
      var added := st.(unacked := st.unacked[info.sequence := id]);
      forall x ensures References(added, x) == RefCount(added, x) + (if x == id then 1 else 0) {
        assert References(st, x) == RefCount(st, x);
        UnackedRefsAdd(st.unacked, info.sequence, id, x);
      }
      AddRefSafe(added, id);
    }
  }

  lemma PushInfoSafe(st: State, id: Id)
    requires Safe(st) && id in st.live
    ensures Safe(PushInfo(st, id))
  {
    var added := st.(queue := st.queue + [id]);
    forall x ensures References(added, x) == RefCount(added, x) + (if x == id then 1 else 0) {
      assert References(st, x) == RefCount(st, x);
    }
    AddRefSafe(added, id);
  }

  lemma UnmapSafe(st: State, s: nat)
    requires Safe(st) && s in st.unacked
    ensures Safe(Unref(st.(unacked := st.unacked - {s}), st.unacked[s]))
  {
    var removed := st.(unacked := st.unacked - {s});
    ReferencesUnmap(st, s);
    forall x ensures References(removed, x) == RefCount(removed, x) + (if x == st.unacked[s] then -1 else 0) {
      assert References(st, x) == RefCount(st, x);
    }
    UnrefSafe(removed, st.unacked[s]);
  }

  lemma CommitInfoSafe(st: State, id: Id)
    requires Safe(st) && id in st.live
    ensures Safe(CommitInfo(st, id))
  {
    var info := At(st, id);
    var keyed := Noted(st, info);
    MoveSafe(st, keyed);
    UpdateSafe(keyed, id, Streamed(info));
    if !info.isReply {
      ScheduleSafe(Update(keyed, id, Streamed(info)), id);
    }
  }

  lemma PopHeapSafe(st: State, i: nat)
    requires Safe(st) && i < |st.heap|
    ensures Safe(Unref(PopHeap(st, i), st.heap[i].id))
  {
    var popped := PopHeap(st, i);
    ReferencesPopHeap(st, i);
    forall x ensures References(popped, x) == RefCount(popped, x) + (if x == st.heap[i].id then -1 else 0) {
      assert References(st, x) == RefCount(st, x);
    }
    UnrefSafe(popped, st.heap[i].id);
  }

  lemma ResetSafe(st: State)
    requires Safe(st)
    ensures Safe(ResetSendContext(st))
  {
    var slot := if st.reserved.Some? then [st.reserved.value] else [];
    var ids := slot + st.queue;
    var emptied := st.(queue := [], reserved := None);
    assert multiset(ids) == multiset(slot) + multiset(st.queue);
    forall x ensures References(emptied, x) + multiset(ids)[x] == RefCount(emptied, x) {
      assert References(st, x) == RefCount(st, x);
    }
    UnrefAllSafe(emptied, ids);
  }

  // Steps of a function that already holds the reference at index i.
  lemma HandStepSafe(st: State, i: nat, place: Place)
    requires Safe(st) && i < |st.hands|
    ensures st.hands[i].id in st.live && Safe(MoveOn(st, i, place))
    ensures forall info: Info {:trigger Update(MoveOn(st, i, place), st.hands[i].id, info)} ::
              info.refCount == st.live[st.hands[i].id].refCount && info.birth == st.live[st.hands[i].id].birth
              ==> Safe(Update(MoveOn(st, i, place), st.hands[i].id, info))
  {
    HandLive(st, i);
    ReferencesMoveOn(st, i, place);
    var moved := MoveOn(st, i, place);
    MoveSafe(st, moved);
    var id := st.hands[i].id;
    forall info: Info | info.refCount == st.live[id].refCount && info.birth == st.live[id].birth
      ensures Safe(Update(moved, id, info))
    {
      UpdateSafe(moved, id, info);
    }
  }

  lemma FreeSafe(st: State, i: nat)
    requires Safe(st) && i < |st.hands|
    ensures Safe(Unref(LetGo(st, i), st.hands[i].id))
  {
    var dropped := LetGo(st, i);
    ReferencesLetGo(st, i);
    forall x ensures References(dropped, x) == RefCount(dropped, x) + (if x == st.hands[i].id then -1 else 0) {
      assert References(st, x) == RefCount(st, x);
    }
    UnrefSafe(dropped, st.hands[i].id);
  }

  lemma SendSafe(st: State, step: SendStep)
    requires Safe(st) && CanSend(st, step)
    ensures Safe(DoSend(st, step))
  {
    match step
    case TakeSequence => MoveSafe(st, DoSend(st, step));
    case Allocate(id, ticket, isReply) => AllocateSafe(st, id, ticket, isReply);
    case Insert(i) => HandStepSafe(st, i, Registered); InsertInfoSafe(MoveOn(st, i, Registered), st.hands[i].id);
    case Push(i) => HandStepSafe(st, i, Pushed); PushInfoSafe(MoveOn(st, i, Pushed), st.hands[i].id);
    case EraseRejected(i) =>
      HandStepSafe(st, i, Leaving);
      var info := At(st, st.hands[i].id);
      if !info.isReply && info.sequence in st.unacked { UnmapSafe(MoveOn(st, i, Leaving), info.sequence); }
    case Finish(i) => HandStepSafe(st, i, Leaving);
    case Refuse(i) => HandStepSafe(st, i, Rejected);
    case SendFailed(i) => HandStepSafe(st, i, Rejected);
    case Free(i) => FreeSafe(st, i);
  }

  lemma TakeReservedSafe(st: State)
    requires Safe(st) && CanStream(st, TakeReserved)
    ensures Safe(DoStream(st, TakeReserved))
  {
    var st' := DoStream(st, TakeReserved);
    if st.reserved.Some? { ReferencesTakeUp(st.(reserved := None, batch := st'.batch), st.reserved.value, Streaming); }
    MoveSafe(st, st');
  }

  lemma PopFrontSafe(st: State)
    requires Safe(st) && CanStream(st, PopFront)
    ensures Safe(DoStream(st, PopFront))
  {
    var st' := DoStream(st, PopFront);
    assert st.queue == [st.queue[0]] + st.queue[1..];
    ReferencesTakeUp(st.(queue := st.queue[1..], batch := st'.batch), st.queue[0], Streaming);
    MoveSafe(st, st');
  }

  lemma OverflowSafe(st: State, i: nat)
    requires Safe(st) && CanStream(st, Overflow(i))
    ensures Safe(DoStream(st, Overflow(i)))
  {
    var st' := DoStream(st, Overflow(i));
    ReferencesLetGo(st, i);
    forall x ensures References(st', x) == References(st, x) {
      assert References(LetGo(st, i), x) == References(st, x) - (if x == st.hands[i].id then 1 else 0);
    }
    MoveSafe(st, st');
  }

  lemma StreamSafe(st: State, step: StreamStep)
    requires Safe(st) && CanStream(st, step)
    ensures Safe(DoStream(st, step))
  {
    match step
    case BeginBatch => MoveSafe(st, DoStream(st, step));
    case EndBatch => MoveSafe(st, DoStream(st, step));
    case TakeReserved => TakeReservedSafe(st);
    case PopFront => PopFrontSafe(st);
    case Overflow(i) => OverflowSafe(st, i);
    case SkipDuplicate(i) => HandStepSafe(st, i, Leaving);
    case SkipErased(i) => HandStepSafe(st, i, Leaving);
    case Oversize(i) => HandStepSafe(st, i, Leaving); MoveSafe(MoveOn(st, i, Leaving), DoStream(st, step));
    case Commit(i) => HandStepSafe(st, i, Leaving); CommitInfoSafe(MoveOn(st, i, Leaving), st.hands[i].id);
    case MarkSent(i) =>
      HandLive(st, i);
      UpdateSafe(st, st.hands[i].id, At(st, st.hands[i].id).(lastSend := Some(st.clock)));
  }

  lemma PopDueSafe(st: State, i: nat, limit: nat)
    requires Safe(st) && CanRetry(st, PopDue(i))
    ensures Safe(DoRetry(st, PopDue(i), limit))
  {
    var id := st.heap[i].id;
    ReferencesPopHeap(st, i);
    ReferencesTakeUp(PopHeap(st, i), id, Due);
    MoveSafe(st, TakeUp(PopHeap(st, i), id, Due));
    UpdateSafe(TakeUp(PopHeap(st, i), id, Due), id, At(st, id).(rttUsable := false));
  }

  lemma RetrySafe(st: State, step: RetryStep, limit: nat)
    requires Safe(st) && CanRetry(st, step)
    ensures Safe(DoRetry(st, step, limit))
  {
    match step
    case PopStale(i) => PopHeapSafe(st, i);
    case DrainHeap(i) => PopHeapSafe(st, i);
    case PopDue(i) => PopDueSafe(st, i, limit);
    case DropDue(i) => HandStepSafe(st, i, Leaving);
    case RefuseResend(i) => HandStepSafe(st, i, Leaving);
    case CountRetry(i) =>
      HandStepSafe(st, i, if At(st, st.hands[i].id).retransmissions + 1 >= limit then Exhausted else Retrying);
    case Resend(i) => HandStepSafe(st, i, Leaving); PushInfoSafe(MoveOn(st, i, Leaving), st.hands[i].id);
    case GiveUp(i) => HandStepSafe(st, i, Leaving); MoveSafe(MoveOn(st, i, Leaving), DoRetry(st, step, limit));
  }

  lemma AckSafe(st: State, s: nat)
    requires Safe(st) && CanSession(st, Ack(s))
    ensures Safe(DoSession(st, Ack(s)))
  {
    ReferencesUnmap(st, s);
    ReferencesTakeUp(st.(unacked := st.unacked - {s}), st.unacked[s], Acked);
    MoveSafe(st, DoSession(st, Ack(s)));
  }

  lemma SessionSafe(st: State, step: SessionStep)
    requires Safe(st) && CanSession(st, step)
    ensures Safe(DoSession(st, step))
  {
    match step
    case Ack(s) => AckSafe(st, s);
    case MarkAcked(i) => HandStepSafe(st, i, Sampling);
    case TakeSample(i) => HandStepSafe(st, i, Leaving);
    case ClearUnacked(s) =>
      MappedLive(st, s);
      UpdateSafe(st, st.unacked[s], At(st, st.unacked[s]).(erased := true));
      UnmapSafe(Erase(st, st.unacked[s]), s);
    case Reinitialise => ResetSafe(st); MoveSafe(ResetSendContext(st), DoSession(st, step));
    case Disconnect => MoveSafe(st, DoSession(st, step));
    case Tick => MoveSafe(st, DoSession(st, step));
  }

  lemma KeepsSafe(st: State, step: Step, limit: nat)
    requires Safe(st) && Enabled(st, step)
    ensures Safe(Apply(st, step, limit))
  {
    match step
    case Send(s) => SendSafe(st, s);
    case Stream(s) => StreamSafe(st, s);
    case Retry(s) => RetrySafe(st, s, limit);
    case Session(s) => SessionSafe(st, s);
  }
}
