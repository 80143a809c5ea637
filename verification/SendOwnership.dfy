/**
 Who holds a reference to a pooled SendPacketInfo, as one step per lock scope or atomic operation.

 A reference sits in the unacked map, the send queue, the reserved slot, a retransmission heap
 entry, or a local variable of a running function. The steps are those of
 RUDPSession::SendPacketImmediate, RUDPIOHandler::MakeSendStream, the retransmission thread,
 RUDPSession::OnSendReply and the release thread. `fault` records every event the source logs as
 an invalid reference count, every touch of an object that was already recycled, and a reserved
 slot overwritten while occupied.
 */
module SendOwnership {
  import opened Common

  type Id = nat  // the address of a pooled object; an address may be allocated again

  datatype Info = Info(
    sequence: nat,
    generation: nat,
    isReply: bool,
    erased: bool,
    refCount: int,
    version: nat,          // scheduleVersion
    retransmissions: nat,  // retransmissionCount
    rttUsable: bool,       // canUseRttSample
    lastSend: Option<nat>, // lastSendTime
    birth: nat,            // history: which allocation this is
    sent: nat,             // history: times put in a stream
    firstSend: nat)        // history: lastSend when it was first put in a stream

  datatype Entry = Entry(id: Id, version: nat, birth: nat)

  datatype Key = Key(isReply: bool, sequence: nat)

  // MakeSendStream in progress (the send mode is IO_SENDING), or not.
  datatype Batch = Idle | Building(tookReserved: bool, remaining: nat, keys: set<Key>)

  // Where a running function is with the reference in its hand.
  datatype Place =
    | Initialised  // SendPacketImmediate before the map insert
    | Registered   // ... after it, before the push
    | Pushed       // ... after the push, DoSend running
    | Rejected     // ... marked erased, before the map erase
    | Streaming    // popped by MakeSendStream
    | Due          // popped from the heap into dueList
    | Retrying     // ProcessRetransmission after the count
    | Exhausted    // ... when the count reached the maximum
    | Acked        // OnSendReply after FindAndErase
    | Sampling     // ... after marking it erased, before TryGetRttSample
    | Leaving      // about to be passed to Free

  datatype Hand = Hand(id: Id, place: Place)

  // A send call that has taken its sequence, up to SendPacketImmediate; the packet may wait in the
  // pending queue meanwhile.
  datatype Ticket = Ticket(sequence: nat, generation: nat)

  datatype State = State(
    live: map<Id, Info>,
    unacked: map<nat, Id>,
    queue: seq<Id>,
    reserved: Option<Id>,
    heap: seq<Entry>,
    hands: seq<Hand>,
    batch: Batch,
    generation: nat,
    releasing: bool,
    lastSequence: nat,     // lastSendPacketSequence
    tickets: set<Ticket>,
    streamed: set<nat>,    // history: data sequences put in a stream in this generation
    births: nat,           // history: allocations so far
    frees: nat,            // history: objects returned to the pool so far
    clock: nat,
    fault: bool)

  // The steps of each component; `hand` is the index of the running function that takes the step.
  datatype SendStep =  // RUDPSession::SendPacket and SendPacketImmediate
    | TakeSequence
    | Allocate(id: Id, ticket: Ticket, isReply: bool)
    | Insert(hand: nat)
    | Push(hand: nat)
    | Refuse(hand: nat)
    | SendFailed(hand: nat)
    | EraseRejected(hand: nat)
    | Finish(hand: nat)
    | Free(hand: nat)

  datatype StreamStep =  // RUDPIOHandler::MakeSendStream
    | BeginBatch
    | TakeReserved
    | PopFront
    | SkipDuplicate(hand: nat)
    | Oversize(hand: nat)
    | Overflow(hand: nat)
    | MarkSent(hand: nat)
    | SkipErased(hand: nat)
    | Commit(hand: nat)
    | EndBatch

  datatype RetryStep =  // RunRetransmissionThread and ProcessRetransmission
    | PopStale(index: nat)
    | PopDue(index: nat)
    | DropDue(hand: nat)
    | CountRetry(hand: nat)
    | GiveUp(hand: nat)
    | Resend(hand: nat)
    | RefuseResend(hand: nat)
    | DrainHeap(index: nat)

  datatype SessionStep =  // OnSendReply, disconnecting, and the release thread
    | Ack(sequence: nat)
    | MarkAcked(hand: nat)
    | TakeSample(hand: nat)
    | Disconnect
    | ClearUnacked(sequence: nat)
    | Reinitialise
    | Tick

  datatype Step =
    | Send(send: SendStep)
    | Stream(stream: StreamStep)
    | Retry(retry: RetryStep)
    | Session(session: SessionStep)

  const INITIAL := State(map[], map[], [], None, [], [], Idle, 0, false, 0, {}, {}, 0, 0, 0, false)

  // What a read of a recycled object is taken to see; every such read is also a fault.
  const BLANK := Info(0, 0, true, true, 0, 0, 0, false, None, 0, 0, 0)

  function At(st: State, id: Id): Info {
    if id in st.live then st.live[id] else BLANK
  }

  function KeyOf(info: Info): Key {
    Key(info.isReply, info.sequence)
  }

  // SendPacketInfo::Initialize
  function NewInfo(st: State, sequence: nat, isReply: bool): Info {
    Info(sequence, st.generation, isReply, false, 1, 0, 0, !isReply, None, st.births, 0, 0)
  }

  // A write to a field of a shared object.
  function Update(st: State, id: Id, info: Info): (r: State)
    ensures r == st.(live := r.live, frees := r.frees, fault := r.fault)
  {
    if id in st.live then st.(live := st.live[id := info]) else st.(fault := true)
  }

  function Erase(st: State, id: Id): State {
    Update(st, id, At(st, id).(erased := true))
  }

  // SendPacketInfo::AddRefCount
  function AddRef(st: State, id: Id): (r: State)
    ensures r == st.(live := r.live, frees := r.frees, fault := r.fault)
  {
    var info := At(st, id);
    if info.refCount <= 0 then st.(fault := true)
    else Update(st, id, info.(refCount := info.refCount + 1))
  }

  // SendPacketInfo::Free
  function Unref(st: State, id: Id): (r: State)
    ensures r == st.(live := r.live, frees := r.frees, fault := r.fault)
  {
    var info := At(st, id);
    if info.refCount <= 0 then st.(fault := true)
    else if info.refCount == 1 then st.(live := st.live - {id}, frees := st.frees + 1)
    else Update(st, id, info.(refCount := info.refCount - 1))
  }

  function UnrefAll(st: State, ids: seq<Id>): State
    decreases |ids|
  {
    if ids == [] then st else UnrefAll(Unref(st, ids[0]), ids[1..])
  }

  // A running function takes up a reference, moves on with it, or lets it go.
  function TakeUp(st: State, id: Id, place: Place): State {
    st.(hands := st.hands + [Hand(id, place)])
  }

  function MoveOn(st: State, hand: nat, place: Place): State
    requires hand < |st.hands|
  {
    st.(hands := st.hands[hand := st.hands[hand].(place := place)])
  }

  function LetGo(st: State, hand: nat): State
    requires hand < |st.hands|
  {
    st.(hands := Without(st.hands, hand))
  }

  function PopHeap(st: State, index: nat): State
    requires index < |st.heap|
  {
    st.(heap := Without(st.heap, index))
  }

  // PushRetransmissionSchedule
  function Schedule(st: State, id: Id): State {
    var bumped := Update(st, id, At(st, id).(version := At(st, id).version + 1));
    var counted := AddRef(bumped, id);
    counted.(heap := counted.heap + [Entry(id, At(counted, id).version, At(counted, id).birth)])
  }

  function Streamed(info: Info): Info {
    info.(sent := info.sent + 1,
          firstSend := if info.sent == 0 && info.lastSend.Some? then info.lastSend.value else info.firstSend)
  }

  // SendPacketInfo::IsOwnerValid
  predicate OwnerValid(st: State, id: Id) {
    At(st, id).generation == st.generation
  }

  predicate InPlace(st: State, hand: nat, place: Place) {
    hand < |st.hands| && st.hands[hand].place == place
  }

  predicate NoneStreaming(st: State) {
    forall h :: h in st.hands ==> h.place != Streaming
  }

  predicate CurrentEntry(st: State, index: nat)
    requires index < |st.heap|
  {
    var info := At(st, st.heap[index].id);
    !info.erased && st.heap[index].version == info.version
  }

  // Only a releasing session may have nowInReleaseThread set, and then SendPacket may refuse.
  predicate CanSend(st: State, step: SendStep) {
    match step
    case TakeSequence => true
    case Allocate(id, ticket, isReply) => id !in st.live && (isReply || ticket in st.tickets)
    case Insert(i) => InPlace(st, i, Initialised)
    case Push(i) => InPlace(st, i, Registered) && OwnerValid(st, st.hands[i].id)
    case Refuse(i) => InPlace(st, i, Registered) && (!OwnerValid(st, st.hands[i].id) || st.releasing)
    case SendFailed(i) => InPlace(st, i, Pushed)
    case EraseRejected(i) => InPlace(st, i, Rejected)
    case Finish(i) => InPlace(st, i, Pushed)
    case Free(i) => InPlace(st, i, Leaving)
  }

  function DoSend(st: State, step: SendStep): State
    requires CanSend(st, step)
  {
    match step
    case TakeSequence =>
      st.(lastSequence := st.lastSequence + 1, tickets := st.tickets + {Ticket(st.lastSequence + 1, st.generation)})
    case Allocate(id, ticket, isReply) =>
      TakeUp(st.(live := st.live[id := NewInfo(st, ticket.sequence, isReply)], births := st.births + 1,
                 tickets := if isReply then st.tickets else st.tickets - {ticket}),
             id, Initialised)
    case Insert(i) => InsertInfo(MoveOn(st, i, Registered), st.hands[i].id)
    case Push(i) => PushInfo(MoveOn(st, i, Pushed), st.hands[i].id)
    case Refuse(i) => Erase(MoveOn(st, i, Rejected), st.hands[i].id)
    case SendFailed(i) => Erase(MoveOn(st, i, Rejected), st.hands[i].id)
    case EraseRejected(i) => EraseInfo(MoveOn(st, i, Leaving), st.hands[i].id)
    case Finish(i) => MoveOn(st, i, Leaving)
    case Free(i) => Unref(LetGo(st, i), st.hands[i].id)
  }

  predicate CanStream(st: State, step: StreamStep) {
    match step
    case BeginBatch => st.batch.Idle?
    case TakeReserved => st.batch.Building? && !st.batch.tookReserved
    case PopFront =>
      st.batch.Building? && st.batch.tookReserved && st.batch.remaining > 0 && NoneStreaming(st) && st.queue != []
    case SkipDuplicate(i) =>
      st.batch.Building? && InPlace(st, i, Streaming) && KeyOf(At(st, st.hands[i].id)) in st.batch.keys
    case Oversize(i) => st.batch.Building? && InPlace(st, i, Streaming)
    case Overflow(i) => st.batch.Building? && st.batch.tookReserved && InPlace(st, i, Streaming)
    case MarkSent(i) => InPlace(st, i, Streaming) && !At(st, st.hands[i].id).isReply
    case SkipErased(i) => InPlace(st, i, Streaming) && At(st, st.hands[i].id).erased
    case Commit(i) =>
      st.batch.Building? && InPlace(st, i, Streaming) &&
      var info := At(st, st.hands[i].id); !info.erased && (info.isReply || info.lastSend.Some?)
    case EndBatch => st.batch.Building? && NoneStreaming(st)
  }

  function DoStream(st: State, step: StreamStep): State
    requires CanStream(st, step)
  {
    match step
    case BeginBatch => st.(batch := Building(false, |st.queue|, {}))
    case TakeReserved =>
      var taken := st.(batch := st.batch.(tookReserved := true), reserved := None);
      if st.reserved.None? then taken else TakeUp(taken, st.reserved.value, Streaming)
    case PopFront =>
      TakeUp(st.(batch := st.batch.(remaining := st.batch.remaining - 1), queue := st.queue[1..]),
             st.queue[0], Streaming)
    case SkipDuplicate(i) => MoveOn(st, i, Leaving)
    case Oversize(i) => MoveOn(st, i, Leaving).(releasing := true)
    case Overflow(i) =>
      LetGo(st, i).(batch := Idle, reserved := Some(st.hands[i].id), fault := st.fault || st.reserved.Some?)
    case MarkSent(i) =>
      var id := st.hands[i].id;
      Update(st, id, At(st, id).(lastSend := Some(st.clock)))
    case SkipErased(i) => MoveOn(st, i, Leaving)
    case Commit(i) => CommitInfo(MoveOn(st, i, Leaving), st.hands[i].id)
    case EndBatch => st.(batch := Idle)
  }

  predicate CanRetry(st: State, step: RetryStep) {
    match step
    case PopStale(i) => i < |st.heap| && !CurrentEntry(st, i)
    case PopDue(i) => i < |st.heap| && CurrentEntry(st, i)
    case DropDue(i) => InPlace(st, i, Due) && At(st, st.hands[i].id).erased
    case CountRetry(i) => InPlace(st, i, Due) && !At(st, st.hands[i].id).erased
    case GiveUp(i) => InPlace(st, i, Exhausted)
    case Resend(i) => InPlace(st, i, Retrying) && OwnerValid(st, st.hands[i].id)
    case RefuseResend(i) => InPlace(st, i, Retrying) && (!OwnerValid(st, st.hands[i].id) || st.releasing)
    case DrainHeap(i) => i < |st.heap|
  }

  // `limit` is maxPacketRetransmissionCount.
  function DoRetry(st: State, step: RetryStep, limit: nat): State
    requires CanRetry(st, step)
  {
    match step
    case PopStale(i) => Unref(PopHeap(st, i), st.heap[i].id)
    case PopDue(i) =>
      var id := st.heap[i].id;
      Update(TakeUp(PopHeap(st, i), id, Due), id, At(st, id).(rttUsable := false))
    case DropDue(i) => MoveOn(st, i, Leaving)
    case CountRetry(i) =>
      var id := st.hands[i].id;
      var count := At(st, id).retransmissions + 1;
      Update(MoveOn(st, i, if count >= limit then Exhausted else Retrying), id, At(st, id).(retransmissions := count))
    case GiveUp(i) => MoveOn(st, i, Leaving).(releasing := st.releasing || OwnerValid(st, st.hands[i].id))
    case Resend(i) => PushInfo(MoveOn(st, i, Leaving), st.hands[i].id)
    case RefuseResend(i) => MoveOn(st, i, Leaving)
    case DrainHeap(i) => Unref(PopHeap(st, i), st.heap[i].id)
  }

  // The peer acknowledges only what was sent to it in this life.
  predicate CanSession(st: State, step: SessionStep) {
    match step
    case Ack(s) => s in st.unacked && s in st.streamed
    case MarkAcked(i) => InPlace(st, i, Acked)
    case TakeSample(i) => InPlace(st, i, Sampling)
    case Disconnect => true
    case ClearUnacked(s) => st.releasing && s in st.unacked
    case Reinitialise => st.releasing && st.batch.Idle?
    case Tick => true
  }

  function DoSession(st: State, step: SessionStep): State
    requires CanSession(st, step)
  {
    match step
    case Ack(s) => TakeUp(st.(unacked := st.unacked - {s}), st.unacked[s], Acked)
    case MarkAcked(i) => Erase(MoveOn(st, i, Sampling), st.hands[i].id)
    case TakeSample(i) => MoveOn(st, i, Leaving)
    case Disconnect => st.(releasing := true)
    case ClearUnacked(s) => Unref(Erase(st, st.unacked[s]).(unacked := st.unacked - {s}), st.unacked[s])
    case Reinitialise =>
      ResetSendContext(st).(generation := st.generation + 1, releasing := false, lastSequence := 0, streamed := {})
    case Tick => st.(clock := st.clock + 1)
  }

  predicate Enabled(st: State, step: Step) {
    match step
    case Send(s) => CanSend(st, s)
    case Stream(s) => CanStream(st, s)
    case Retry(s) => CanRetry(st, s)
    case Session(s) => CanSession(st, s)
  }

  function Apply(st: State, step: Step, limit: nat): State
    requires Enabled(st, step)
  {
    match step
    case Send(s) => DoSend(st, s)
    case Stream(s) => DoStream(st, s)
    case Retry(s) => DoRetry(st, s, limit)
    case Session(s) => DoSession(st, s)
  }

  // SessionSendContext::InsertSendPacketInfo, for data packets only
  function InsertInfo(st: State, id: Id): State {
    var info := At(st, id);
    if info.isReply || info.sequence in st.unacked then st
    else AddRef(st.(unacked := st.unacked[info.sequence := id]), id)
  }

  // The owner check and push of MultiSocketRUDPCore::SendPacket
  function PushInfo(st: State, id: Id): State {
    AddRef(st.(queue := st.queue + [id]), id)
  }

  // SessionSendContext::EraseSendPacketInfo, which frees whatever the map holds under the sequence
  function EraseInfo(st: State, id: Id): State {
    var info := At(st, id);
    if info.isReply || info.sequence !in st.unacked then st
    else Unref(st.(unacked := st.unacked - {info.sequence}), st.unacked[info.sequence])
  }

  // The packet's key is in the batch, and its sequence has been in a stream.
  function Noted(st: State, info: Info): (r: State)
    ensures r == st.(batch := r.batch, streamed := r.streamed)
  {
    st.(batch := if st.batch.Building? then st.batch.(keys := st.batch.keys + {KeyOf(info)}) else st.batch,
        streamed := if info.isReply then st.streamed else st.streamed + {info.sequence})
  }

  // The locked part of RefreshRetransmissionSendPacketInfo and the copy into the stream
  function CommitInfo(st: State, id: Id): State {
    var info := At(st, id);
    var counted := Update(Noted(st, info), id, Streamed(info));
    if info.isReply then counted else Schedule(counted, id)
  }

  // The reference-releasing part of SessionSendContext::Reset
  function ResetSendContext(st: State): State {
    UnrefAll(st.(queue := [], reserved := None),
             (if st.reserved.Some? then [st.reserved.value] else []) + st.queue)
  }

  // --- Counting the places a reference can be in ---

  predicate CarriesToken(place: Place) {
    || place == Initialised || place == Registered || place == Streaming
    || place == Due || place == Retrying || place == Exhausted
  }

  function HeapRefs(heap: seq<Entry>, id: Id): nat {
    if heap == [] then 0 else (if heap[0].id == id then 1 else 0) + HeapRefs(heap[1..], id)
  }

  // Running functions whose hand carries, or does not carry, the duty to transmit.
  function HandRefs(hands: seq<Hand>, id: Id, token: bool): nat {
    if hands == [] then 0
    else (if hands[0].id == id && CarriesToken(hands[0].place) == token then 1 else 0) + HandRefs(hands[1..], id, token)
  }

  function SlotRefs(slot: Option<Id>, id: Id): nat {
    if slot == Some(id) then 1 else 0
  }

  ghost function KeysOwnedBy(unacked: map<nat, Id>, id: Id): set<nat> {
    set s | s in unacked && unacked[s] == id
  }

  ghost function UnackedRefs(unacked: map<nat, Id>, id: Id): nat {
    |KeysOwnedBy(unacked, id)|
  }

  // References that carry the duty to transmit: queue, slot, heap and the hands between them.
  function Tokens(st: State, id: Id): nat {
    multiset(st.queue)[id] + SlotRefs(st.reserved, id) + HeapRefs(st.heap, id) + HandRefs(st.hands, id, true)
  }

  ghost function References(st: State, id: Id): nat {
    Tokens(st, id) + HandRefs(st.hands, id, false) + UnackedRefs(st.unacked, id)
  }

  function RefCount(st: State, id: Id): int {
    if id in st.live then st.live[id].refCount else 0
  }

  // Every reference count is the number of places that refer to the object.
  ghost predicate Counted(st: State) {
    forall id :: References(st, id) == RefCount(st, id)
  }

  // Live objects are counted; heap entries name live objects, in the allocation they were pushed
  // for; every object ever allocated is live or went back to the pool once.
  ghost predicate WellFormed(st: State) {
    && !st.fault
    && (forall id :: id in st.live ==> st.live[id].refCount >= 1 && st.live[id].birth < st.births)
    && (forall e :: e in st.heap ==> e.id in st.live && e.birth == st.live[e.id].birth)
    && (st.batch.Building? && st.batch.tookReserved ==> st.reserved.None?)
    && st.births == st.frees + |st.live|
  }

  ghost predicate Safe(st: State) {
    Counted(st) && WellFormed(st)
  }
}
