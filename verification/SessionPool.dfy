/** RUDPSessionManager's pool: which session ids are unused, and how often each life is returned. */
module SessionPool {
  import opened Common

  // History: what happened to an id, with the generation it had then.
  datatype LogEntry = Acquired(generation: nat) | Returned(generation: nat)

  datatype Slot = Slot(
    state: SessionState,
    generation: nat,
    threadId: nat,
    pushes: nat,          // history: how often this life was put in the release list
    log: seq<LogEntry>)

  datatype Pool = Pool(slots: seq<Slot>, unused: seq<nat>, unusedSet: set<nat>, releaseList: seq<nat>)

  function NewSlot(index: nat, workers: nat): Slot
    requires workers > 0
  {
    Slot(DISCONNECTED, 1, index % workers, 0, [])
  }

  // The ids 0, 1, ..., n - 1
  function Ids(n: nat): (ids: seq<nat>)
    ensures |ids| == n && forall i :: 0 <= i < n ==> ids[i] == i
  {
    if n == 0 then [] else Ids(n - 1) + [n - 1]
  }

  function IdSet(n: nat): (ids: set<nat>)
    ensures forall i :: i in ids <==> 0 <= i < n
  {
    if n == 0 then {} else IdSet(n - 1) + {n - 1}
  }

  function Created(size: nat, workers: nat): Pool
    requires workers > 0
  {
    Pool(seq(size, i requires 0 <= i < size => NewSlot(i, workers)), Ids(size), IdSet(size), [])
  }

  function AcquireId(p: Pool): Pool
    requires p.unused != [] && p.unused[0] < |p.slots|
  {
    var id := p.unused[0];
    var slot := p.slots[id];
    p.(slots := p.slots[id := slot.(log := slot.log + [Acquired(slot.generation)])],
       unused := p.unused[1..], unusedSet := p.unusedSet - {id})
  }

  // What ReleaseSession demands; it refuses anything else.
  predicate MayReturn(p: Pool, id: nat) {
    id < |p.slots| && p.slots[id].state == RELEASING && id !in p.unusedSet
  }

  function Return(p: Pool, id: nat): Pool
    requires MayReturn(p, id)
  {
    var slot := p.slots[id];
    var next := slot.generation + 1;
    p.(slots := p.slots[id := Slot(DISCONNECTED, next, slot.threadId, 0, slot.log + [Returned(next)])],
       unused := p.unused + [id], unusedSet := p.unusedSet + {id})
  }

  // --- The methods ---

  class RUDPSessionManager {
    var sessionList: seq<Slot>
    var unusedSessionIdList: seq<nat>
    var unusedSessionIdSet: set<nat>
    ghost var releaseSessionIdList: seq<nat>
    const maxSessionSize: nat
    const numOfWorkerThreads: nat
    var isInitialized: bool

    ghost function View(): Pool
      reads this
    {
      Pool(sessionList, unusedSessionIdList, unusedSessionIdSet, releaseSessionIdList)
    }

    constructor (inMaxSessionSize: nat, workers: nat)
      ensures !isInitialized && maxSessionSize == inMaxSessionSize && numOfWorkerThreads == workers
    {
      sessionList, unusedSessionIdList, unusedSessionIdSet := [], [], {};
      releaseSessionIdList := [];
      maxSessionSize, numOfWorkerThreads := inMaxSessionSize, workers;
      isInitialized := false;
    }

    // `missing` is the first index for which the session factory returns nothing.
    method Initialize(missing: Option<nat>) returns (ok: bool)
      modifies this
      ensures old(isInitialized) ==> ok
      ensures !old(isInitialized) ==>
            ok == (numOfWorkerThreads != 0 && !(missing.Some? && missing.value < maxSessionSize))
      ensures isInitialized == (old(isInitialized) || ok)
      ensures View() == if ok && !old(isInitialized) then Created(maxSessionSize, numOfWorkerThreads) else old(View())
    {
      if isInitialized { return true; }
      if numOfWorkerThreads == 0 { return false; }
      ok := CreateSessionPool(missing);
      if !ok { return false; }
      isInitialized := true;
      return true;
    }

    method CreateSessionPool(missing: Option<nat>) returns (ok: bool)
      requires numOfWorkerThreads > 0
      modifies this
      ensures ok == !(missing.Some? && missing.value < maxSessionSize)
      ensures View() == if ok then Created(maxSessionSize, numOfWorkerThreads) else old(View())
      ensures isInitialized == old(isInitialized)
    {
      var newSessionList: seq<Slot> := [];
      var newUnusedSessionIdList: seq<nat> := [];
      var newUnusedSessionIdSet: set<nat> := {};
      var sessionIndex := 0;
      while sessionIndex < maxSessionSize
        invariant 0 <= sessionIndex <= maxSessionSize
        invariant |newSessionList| == sessionIndex
        invariant forall i :: 0 <= i < sessionIndex ==> newSessionList[i] == NewSlot(i, numOfWorkerThreads)
        invariant newUnusedSessionIdList == Ids(sessionIndex) && newUnusedSessionIdSet == IdSet(sessionIndex)
        invariant missing.Some? ==> sessionIndex <= missing.value
        invariant View() == old(View()) && isInitialized == old(isInitialized)
      {
        if missing == Some(sessionIndex) { return false; }
        newSessionList := newSessionList + [NewSlot(sessionIndex, numOfWorkerThreads)];
        newUnusedSessionIdList := newUnusedSessionIdList + [sessionIndex];
        newUnusedSessionIdSet := newUnusedSessionIdSet + {sessionIndex};
        sessionIndex := sessionIndex + 1;
      }
      sessionList := newSessionList;
      unusedSessionIdList := newUnusedSessionIdList;
      unusedSessionIdSet := newUnusedSessionIdSet;
      releaseSessionIdList := [];
      return true;
    }

    method AcquireSession() returns (id: Option<nat>)
      requires forall u :: u in unusedSessionIdList ==> u < |sessionList|
      modifies this
      ensures isInitialized == old(isInitialized)
      ensures id.None? <==> !old(isInitialized) || old(unusedSessionIdList) == []
      ensures id.None? ==> View() == old(View())
      ensures id.Some? ==>
            id.value == old(unusedSessionIdList)[0] < |old(sessionList)| && View() == AcquireId(old(View()))
    {
      if !isInitialized { return None; }
      if unusedSessionIdList == [] { return None; }
      var sessionId := unusedSessionIdList[0];
      assert sessionId in unusedSessionIdList;
      unusedSessionIdList := unusedSessionIdList[1..];
      unusedSessionIdSet := unusedSessionIdSet - {sessionId};
      var slot := sessionList[sessionId];
      sessionList := sessionList[sessionId := slot.(log := slot.log + [Acquired(slot.generation)])];
      return Some(sessionId);
    }

    method ReleaseSession(sessionId: nat) returns (ok: bool)
      modifies this
      ensures isInitialized == old(isInitialized)
      ensures ok == MayReturn(old(View()), sessionId)
      ensures View() == if ok then Return(old(View()), sessionId) else old(View())
    {
      if sessionId >= |sessionList| { return false; }
      if sessionList[sessionId].state != RELEASING { return false; }
      if sessionId in unusedSessionIdSet { return false; }
      var slot := sessionList[sessionId];
      sessionList := sessionList[sessionId := Slot(DISCONNECTED, slot.generation + 1, slot.threadId, 0,
                                                   slot.log + [Returned(slot.generation + 1)])];
      unusedSessionIdList := unusedSessionIdList + [sessionId];
      unusedSessionIdSet := unusedSessionIdSet + {sessionId};
      return true;
    }
  }

  // --- Runs ---

  datatype Event =
    | Acquire
    | Reserve(id: nat)     // SetReserved by the broker that acquired the id
    | Connect(id: nat)
    | Disconnect(id: nat)  // DoDisconnect or AbortReservedSession: the CAS, and the push it leads to
    | TakeReleaseList
    | Release(id: nat)     // ReleaseSession, for any id at any time

  predicate Enabled(p: Pool, event: Event) {
    match event
    case Acquire => p.unused != [] && p.unused[0] < |p.slots|
    case Reserve(id) => id < |p.slots| && id !in p.unusedSet && p.slots[id].state == DISCONNECTED
    case Connect(id) => id < |p.slots| && p.slots[id].state == RESERVED
    case Disconnect(id) => id < |p.slots| && (p.slots[id].state == RESERVED || p.slots[id].state == CONNECTED)
    case TakeReleaseList => true
    case Release(_) => true
  }

  function Apply(p: Pool, event: Event): Pool
    requires Enabled(p, event)
  {
    match event
    case Acquire => AcquireId(p)
    case Reserve(id) => p.(slots := p.slots[id := p.slots[id].(state := RESERVED)])
    case Connect(id) => p.(slots := p.slots[id := p.slots[id].(state := CONNECTED)])
    case Disconnect(id) =>
      p.(slots := p.slots[id := p.slots[id].(state := RELEASING, pushes := p.slots[id].pushes + 1)],
         releaseList := p.releaseList + [id])
    case TakeReleaseList => p.(releaseList := [])
    case Release(id) => if MayReturn(p, id) then Return(p, id) else p
  }

  // Acquisitions and returns alternate, and the generation goes up by one at each return.
  predicate Alternates(log: seq<LogEntry>) {
    forall i :: 0 <= i < |log| ==> log[i] == if i % 2 == 0 then Acquired(1 + i / 2) else Returned(1 + (i + 1) / 2)
  }

  // Between lives an id is unused and DISCONNECTED; in a life it has one acquisition more than
  // returns; its present life is in the release list once, from the moment it is RELEASING.
  ghost predicate GoodSlot(p: Pool, id: nat)
    requires id < |p.slots|
  {
    var slot := p.slots[id];
    && Alternates(slot.log) && slot.generation == 1 + |slot.log| / 2
    && (|slot.log| % 2 == 0 <==> id in p.unusedSet)
    && slot.pushes == (if slot.state == RELEASING then 1 else 0)
    && (id in p.unusedSet ==> slot.state == DISCONNECTED)
  }

  ghost predicate Partition(p: Pool) {
    && (forall i, j :: 0 <= i < j < |p.unused| ==> p.unused[i] != p.unused[j])
    && (forall id :: id in p.unused <==> id in p.unusedSet)
    && (forall id :: id in p.unusedSet ==> id < |p.slots|)
    && (forall id :: 0 <= id < |p.slots| ==> GoodSlot(p, id))
  }

  lemma CreatedPartition(size: nat, workers: nat)
    requires workers > 0
    ensures Partition(Created(size, workers))
  {
    var p := Created(size, workers);
    forall id ensures id in p.unused <==> id in p.unusedSet {
      if id in p.unusedSet { assert p.unused[id] == id; }
    }
  }

  lemma AppendLog(log: seq<LogEntry>, e: LogEntry)
    requires Alternates(log)
    requires e == if |log| % 2 == 0 then Acquired(1 + |log| / 2) else Returned(1 + (|log| + 1) / 2)
    ensures Alternates(log + [e])
  {
  }

  lemma AcquireKeeps(p: Pool)
    requires Partition(p) && Enabled(p, Acquire)
    ensures Partition(AcquireId(p))
  {
    hide Alternates;
    var id := p.unused[0];
    var after := AcquireId(p);
    assert id in p.unused && GoodSlot(p, id);
    assert p.unused == [id] + p.unused[1..];
    AppendLog(p.slots[id].log, Acquired(p.slots[id].generation));
    forall x | 0 <= x < |after.slots| ensures GoodSlot(after, x) {
      assert GoodSlot(p, x);
    }
  }

  lemma ReturnKeeps(p: Pool, id: nat)
    requires Partition(p) && MayReturn(p, id)
    ensures Partition(Return(p, id))
  {
    hide Alternates;
    var after := Return(p, id);
    assert GoodSlot(p, id);
    AppendLog(p.slots[id].log, Returned(p.slots[id].generation + 1));
    forall x | 0 <= x < |after.slots| ensures GoodSlot(after, x) {
      assert GoodSlot(p, x);
    }
  }

  lemma StateKeeps(p: Pool, event: Event)
    requires Partition(p) && Enabled(p, event) &&
          (event.Reserve? || event.Connect? || event.Disconnect? || event.TakeReleaseList?)
    ensures Partition(Apply(p, event))
  {
    hide Alternates;
    var after := Apply(p, event);
    forall x | 0 <= x < |after.slots| ensures GoodSlot(after, x) {
      assert GoodSlot(p, x);
    }
  }

  lemma Keeps(p: Pool, event: Event)
    requires Partition(p) && Enabled(p, event)
    ensures Partition(Apply(p, event)) && |Apply(p, event).slots| == |p.slots|
  {
    hide Partition;
    match event
    case Acquire => AcquireKeeps(p);
    case Release(id) => if MayReturn(p, id) { ReturnKeeps(p, id); }
    case _ => StateKeeps(p, event);
  }

  ghost predicate Run(p: Pool, events: seq<Event>, end: Pool)
    decreases |events|
  {
    if events == [] then p == end
    else Enabled(p, events[0]) && Run(Apply(p, events[0]), events[1..], end)
  }

  lemma {:induction false} RunKeeps(p: Pool, events: seq<Event>, end: Pool)
    requires Partition(p) && Run(p, events, end)
    ensures Partition(end) && |end.slots| == |p.slots|
    decreases |events|
  {
    hide Partition, Enabled, Apply;
    if events != [] {
      Keeps(p, events[0]);
      RunKeeps(Apply(p, events[0]), events[1..], end);
    }
  }

  // After any run the unused list has no duplicates and is the unused set; every id is either unused
  // or in exactly one life; every acquisition is followed by at most one return, which raises the
  // generation; and a life is put in the release list at most once.
  lemma PoolPartition(size: nat, workers: nat, events: seq<Event>, p: Pool)
    requires workers > 0 && Run(Created(size, workers), events, p)
    ensures |p.slots| == size
    ensures forall i, j :: 0 <= i < j < |p.unused| ==> p.unused[i] != p.unused[j]
    ensures forall id :: id in p.unused <==> id in p.unusedSet
    ensures forall id :: 0 <= id < size ==> GoodSlot(p, id)
  {
    hide Alternates, Created;
    CreatedPartition(size, workers);
    assert |Created(size, workers).slots| == size by { CreatedSize(size, workers); }
    RunKeeps(Created(size, workers), events, p);
  }

  // --- Which sessions are reused, and by which worker ---

  // The ids acquired, and those returned, in turn.
  function AcquiredBy(p: Pool, e: Event): seq<nat>
    requires Enabled(p, e)
  {
    if e.Acquire? then [p.unused[0]] else []
  }

  function ReturnedBy(p: Pool, e: Event): seq<nat> {
    if e.Release? && MayReturn(p, e.id) then [e.id] else []
  }

  function AcquiredIn(p: Pool, events: seq<Event>): seq<nat>
    decreases |events|
  {
    if events == [] || !Enabled(p, events[0]) then []
    else AcquiredBy(p, events[0]) + AcquiredIn(Apply(p, events[0]), events[1..])
  }

  function ReturnedIn(p: Pool, events: seq<Event>): seq<nat>
    decreases |events|
  {
    if events == [] || !Enabled(p, events[0]) then []
    else ReturnedBy(p, events[0]) + ReturnedIn(Apply(p, events[0]), events[1..])
  }

  lemma QueueStep(p: Pool, e: Event)
    requires Enabled(p, e)
    ensures AcquiredBy(p, e) + Apply(p, e).unused == p.unused + ReturnedBy(p, e)
  {
  }

  lemma {:induction false} QueueFrom(p: Pool, events: seq<Event>, end: Pool)
    requires Run(p, events, end)
    ensures AcquiredIn(p, events) + end.unused == p.unused + ReturnedIn(p, events)
    decreases |events|
  {
    hide Apply, Enabled, AcquiredBy, ReturnedBy;
    if events != [] {
      var e, next := events[0], Apply(p, events[0]);
      QueueFrom(next, events[1..], end);
      QueueStep(p, e);
      var acquired, returned := AcquiredIn(next, events[1..]), ReturnedIn(next, events[1..]);
      assert (AcquiredBy(p, e) + acquired) + end.unused == AcquiredBy(p, e) + (acquired + end.unused);
      assert AcquiredBy(p, e) + (next.unused + returned) == (AcquiredBy(p, e) + next.unused) + returned;
      assert p.unused + (ReturnedBy(p, e) + returned) == (p.unused + ReturnedBy(p, e)) + returned;
    }
  }

  // Sessions are acquired in the order in which they became unused: over any run the ids acquired,
  // then the unused list, are the ids at the start, then those returned.
  lemma FirstReturnedFirstAcquired(size: nat, workers: nat, events: seq<Event>, end: Pool)
    requires workers > 0 && Run(Created(size, workers), events, end)
    ensures AcquiredIn(Created(size, workers), events) + end.unused
            == Ids(size) + ReturnedIn(Created(size, workers), events)
  {
    QueueFrom(Created(size, workers), events, end);
  }

  // How many sessions a worker has.
  function LoadOf(slots: seq<Slot>, worker: nat): nat {
    if slots == [] then 0
    else LoadOf(slots[..|slots| - 1], worker) + if slots[|slots| - 1].threadId == worker then 1 else 0
  }

  // As many each, and the first workers one more of what is left over.
  function FairShare(size: nat, workers: nat, worker: nat): nat
    requires workers > 0
  {
    size / workers + if worker < size % workers then 1 else 0
  }

  lemma {:induction false} LoadByThreads(a: seq<Slot>, b: seq<Slot>, worker: nat)
    requires |a| == |b| && forall i :: 0 <= i < |a| ==> a[i].threadId == b[i].threadId
    ensures LoadOf(a, worker) == LoadOf(b, worker)
    decreases |a|
  {
    if a != [] { LoadByThreads(a[..|a| - 1], b[..|b| - 1], worker); }
  }

  lemma {:induction false} LoadCreated(size: nat, workers: nat, worker: nat)
    requires worker < workers
    ensures LoadOf(Created(size, workers).slots, worker) == FairShare(size, workers, worker)
    decreases size
  {
    hide Ids, IdSet, FairShare;
    var slots := Created(size, workers).slots;
    if size > 0 {
      assert slots[..size - 1] == Created(size - 1, workers).slots;
      LoadCreated(size - 1, workers, worker);
      assert slots[size - 1].threadId == (size - 1) % workers;
      LoadStep(slots, worker);
      OneMore(size - 1, workers, worker);
    } else {
      assert slots == [];
      NoneToShare(workers, worker);
    }
  }

  lemma OneMore(size: nat, workers: nat, worker: nat)
    requires worker < workers
    ensures FairShare(size + 1, workers, worker)
            == FairShare(size, workers, worker) + if size % workers == worker then 1 else 0
  {
    DividesOnward(size, workers);
  }

  lemma NoneToShare(workers: nat, worker: nat)
    requires worker < workers
    ensures FairShare(0, workers, worker) == 0
  {
    QuotientIs(0, workers, 0, 0);
  }

  lemma LoadStep(slots: seq<Slot>, worker: nat)
    requires slots != []
    ensures LoadOf(slots, worker)
            == LoadOf(slots[..|slots| - 1], worker) + if slots[|slots| - 1].threadId == worker then 1 else 0
  {
  }

  lemma DividesOnward(n: nat, d: nat)
    requires d > 0
    ensures if n % d == d - 1 then (n + 1) / d == n / d + 1 && (n + 1) % d == 0
            else (n + 1) / d == n / d && (n + 1) % d == n % d + 1
  {
    var q, r := n / d, n % d;
    assert n == q * d + r;
    if r == d - 1 {
      assert n + 1 == (q + 1) * d;
      QuotientIs(n + 1, d, q + 1, 0);
    } else {
      QuotientIs(n + 1, d, q, r + 1);
    }
  }

  lemma QuotientIs(n: nat, d: nat, q: nat, r: nat)
    requires d > 0 && r < d && n == q * d + r
    ensures n / d == q && n % d == r
  {
    var k := n / d;
    assert n == k * d + n % d;
    if k > q {
      ProductAtLeast(k, d, q + 1);
      assert false;
    } else if k < q {
      ProductAtLeast(q, d, k + 1);
      assert false;
    }
  }

  lemma {:induction false} ThreadsStay(p: Pool, events: seq<Event>, end: Pool)
    requires Run(p, events, end)
    ensures |end.slots| == |p.slots| && forall i :: 0 <= i < |p.slots| ==> end.slots[i].threadId == p.slots[i].threadId
    decreases |events|
  {
    if events != [] { ThreadsStay(Apply(p, events[0]), events[1..], end); }
  }

  // After any run the sessions are spread over the workers as evenly as can be, each id staying with
  // its worker.
  lemma EvenLoad(size: nat, workers: nat, events: seq<Event>, end: Pool, worker: nat)
    requires worker < workers && Run(Created(size, workers), events, end)
    ensures LoadOf(end.slots, worker) == FairShare(size, workers, worker)
  {
    ThreadsStay(Created(size, workers), events, end);
    LoadByThreads(end.slots, Created(size, workers).slots, worker);
    LoadCreated(size, workers, worker);
  }

  lemma CreatedSize(size: nat, workers: nat)
    requires workers > 0
    ensures |Created(size, workers).slots| == size
  {
  }
}
