/** The retransmission heap: how due packets are taken from it, and a packet's own counters. */
module RetransmissionSchedule {
  import opened Common

  type Id = nat

  datatype HeapEntry = HeapEntry(deadline: nat, version: nat, id: Id)

  // What the loop reads of a SendPacketInfo; both change only under the scheduler's lock.
  datatype Schedule = Schedule(erased: bool, version: nat)

  predicate Current(e: HeapEntry, infos: map<Id, Schedule>) {
    e.id in infos && !infos[e.id].erased && infos[e.id].version == e.version
  }

  // The top of the heap: any entry with the least deadline.
  ghost predicate IsTop(heap: multiset<HeapEntry>, top: HeapEntry) {
    top in heap && forall e :: e in heap ==> top.deadline <= e.deadline
  }

  lemma {:induction false} TopExists(heap: multiset<HeapEntry>)
    requires heap != multiset{}
    ensures exists top :: IsTop(heap, top)
    decreases |heap|
  {
    var e :| e in heap;
    var rest := heap - multiset{e};
    assert forall x :: x in heap ==> x in rest || x == e;
    if rest == multiset{} {
      assert IsTop(heap, e);
    } else {
      TopExists(rest);
      var top :| IsTop(rest, top);
      assert IsTop(heap, if e.deadline < top.deadline then e else top);
    }
  }

  // What is taken off the heap: stale entries, and current ones that are due, earliest first.
  ghost predicate Taken(due: seq<HeapEntry>, stale: seq<HeapEntry>, infos: map<Id, Schedule>, now: nat) {
    && (forall e :: e in due ==> Current(e, infos) && e.deadline <= now)
    && (forall e :: e in stale ==> !Current(e, infos))
    && (forall i, j :: 0 <= i < j < |due| ==> due[i].deadline <= due[j].deadline)
  }

  // The loop of TakeDue so far.
  ghost predicate Partway(
    all: multiset<HeapEntry>, heap: multiset<HeapEntry>, due: seq<HeapEntry>, stale: seq<HeapEntry>,
    infos: map<Id, Schedule>, now: nat)
  {
    && all == heap + multiset(due) + multiset(stale)
    && Taken(due, stale, infos, now)
    && (forall d, e :: d in due && e in heap ==> d.deadline <= e.deadline)
  }

  // Every current entry that is due is taken as often as it was in the heap.
  ghost predicate DueExactlyOnce(all: multiset<HeapEntry>, due: seq<HeapEntry>, infos: map<Id, Schedule>, now: nat) {
    forall e :: Current(e, infos) && e.deadline <= now ==> multiset(due)[e] == all[e]
  }

  lemma NoneMissed(
    all: multiset<HeapEntry>, heap: multiset<HeapEntry>, due: seq<HeapEntry>, stale: seq<HeapEntry>,
    infos: map<Id, Schedule>, now: nat)
    requires Partway(all, heap, due, stale, infos, now) && forall e :: e in heap ==> e.deadline > now
    ensures DueExactlyOnce(all, due, infos, now)
  {
    forall e | Current(e, infos) && e.deadline <= now ensures multiset(due)[e] == all[e] {
      assert e !in heap && e !in stale;
      assert all[e] == heap[e] + multiset(due)[e] + multiset(stale)[e];
    }
  }

  lemma Fewer(heap: multiset<HeapEntry>, top: HeapEntry)
    requires top in heap
    ensures |heap - multiset{top}| < |heap| && forall e :: e in heap - multiset{top} ==> e in heap
  {
  }

  lemma Recount(heap: multiset<HeapEntry>, top: HeapEntry, taken: seq<HeapEntry>, others: multiset<HeapEntry>)
    requires top in heap
    ensures heap + multiset(taken) + others == (heap - multiset{top}) + multiset(taken + [top]) + others
    ensures heap + others + multiset(taken) == (heap - multiset{top}) + others + multiset(taken + [top])
  {
    assert multiset(taken + [top]) == multiset(taken) + multiset{top};
  }

  lemma FreeTop(
    all: multiset<HeapEntry>, heap: multiset<HeapEntry>, due: seq<HeapEntry>, stale: seq<HeapEntry>,
    infos: map<Id, Schedule>, now: nat, top: HeapEntry)
    requires Partway(all, heap, due, stale, infos, now) && IsTop(heap, top) && !Current(top, infos)
    ensures Partway(all, heap - multiset{top}, due, stale + [top], infos, now)
  {
    Fewer(heap, top);
    Recount(heap, top, stale, multiset(due));
  }

  lemma TakeTop(
    all: multiset<HeapEntry>, heap: multiset<HeapEntry>, due: seq<HeapEntry>, stale: seq<HeapEntry>,
    infos: map<Id, Schedule>, now: nat, top: HeapEntry)
    requires Partway(all, heap, due, stale, infos, now) && IsTop(heap, top)
    requires Current(top, infos) && top.deadline <= now
    ensures Partway(all, heap - multiset{top}, due + [top], stale, infos, now)
  {
    Fewer(heap, top);
    Recount(heap, top, due, multiset(stale));
    var more := due + [top];
    forall i, j | 0 <= i < j < |more| ensures more[i].deadline <= more[j].deadline {
      assert more[i] in due;
    }
  }

  class RetransmissionScheduler {
    var heap: multiset<HeapEntry>

    constructor ()
      ensures heap == multiset{}
    {
      heap := multiset{};
    }

    method Push(e: HeapEntry)
      modifies this
      ensures heap == old(heap) + multiset{e}
    {
      heap := heap + multiset{e};
    }

    method Top() returns (top: HeapEntry)
      requires heap != multiset{}
      ensures IsTop(heap, top)
    {
      var rest := heap;
      top :| top in rest;
      while rest != multiset{}
        invariant rest <= heap && top in heap
        invariant forall e :: e in heap - rest ==> top.deadline <= e.deadline
        decreases |rest|
      {
        var e :| e in rest;
        if e.deadline < top.deadline { top := e; }
        rest := rest - multiset{e};
      }
    }

    // The locked part of a turn of RunRetransmissionThread: the packets due, the references freed
    // because their entries were stale, and the deadline to wait for.
    method TakeDue(infos: map<Id, Schedule>, now: nat)
      returns (dueList: seq<HeapEntry>, freed: seq<HeapEntry>, nextDeadline: Option<nat>)
      modifies this
      ensures Taken(dueList, freed, infos, now)
      ensures old(heap) == heap + multiset(dueList) + multiset(freed)
      ensures forall e :: e in heap ==> e.deadline > now
      ensures DueExactlyOnce(old(heap), dueList, infos, now)
      ensures nextDeadline.None? <==> heap == multiset{}
      ensures nextDeadline.Some? ==>
            exists top :: IsTop(heap, top) && Current(top, infos) && nextDeadline.value == top.deadline
    {
      dueList, freed, nextDeadline := [], [], None;
      while heap != multiset{}
        invariant nextDeadline.None? && Partway(old(heap), heap, dueList, freed, infos, now)
        decreases |heap|
      {
        var top := Top();
        hide Partway, Current;
        Fewer(heap, top);
        if !Current(top, infos) {
          FreeTop(old(heap), heap, dueList, freed, infos, now, top);
          heap := heap - multiset{top};
          freed := freed + [top];
          continue;
        }
        if top.deadline > now {
          nextDeadline := Some(top.deadline);
          break;
        }
        TakeTop(old(heap), heap, dueList, freed, infos, now, top);
        dueList := dueList + [top];
        heap := heap - multiset{top};
      }
      NoneMissed(old(heap), heap, dueList, freed, infos, now);
    }
  }

  // The counters of one packet; lastSendTime 0 means not sent.
  class SendPacketInfo {
    var refCount: int
    var scheduleVersion: nat
    var isErasedPacketInfo: bool
    const isReplyType: bool
    var lastSendTime: nat
    var canUseRttSample: bool

    constructor (inIsReplyType: bool)
      ensures refCount == 1 && scheduleVersion == 0 && !isErasedPacketInfo && lastSendTime == 0
      ensures isReplyType == inIsReplyType && canUseRttSample == !inIsReplyType
    {
      isReplyType := inIsReplyType;
      refCount, scheduleVersion, isErasedPacketInfo, lastSendTime := 1, 0, false, 0;
      canUseRttSample := !inIsReplyType;
    }

    method AddRefCount() returns (wasValid: bool)
      modifies this`refCount
      ensures refCount == old(refCount) + 1 && wasValid == (old(refCount) > 0)
    {
      wasValid := refCount > 0;
      refCount := refCount + 1;
    }

    // `recycled` when this was the last reference.
    method Free() returns (recycled: bool)
      modifies this`refCount
      ensures refCount == old(refCount) - 1 && recycled == (old(refCount) == 1)
    {
      recycled := refCount == 1;
      refCount := refCount - 1;
    }

    // PushRetransmissionSchedule
    method Schedule(id: Id, deadline: nat, scheduler: RetransmissionScheduler)
      modifies this`scheduleVersion, this`refCount, scheduler
      ensures scheduleVersion == old(scheduleVersion) + 1 && refCount == old(refCount) + 1
      ensures scheduler.heap == old(scheduler.heap) + multiset{HeapEntry(deadline, scheduleVersion, id)}
    {
      scheduleVersion := scheduleVersion + 1;
      var _ := AddRefCount();
      scheduler.Push(HeapEntry(deadline, scheduleVersion, id));
    }

    method MarkSentForRttSample(now: nat)
      modifies this`lastSendTime
      ensures lastSendTime == if isReplyType then old(lastSendTime) else now
    {
      if isReplyType { return; }
      lastSendTime := now;
    }

    method InvalidateRttSample()
      modifies this`canUseRttSample
      ensures !canUseRttSample
    {
      canUseRttSample := false;
    }

    method TryGetRttSample(now: nat) returns (sample: Option<nat>)
      ensures sample == if !isReplyType && canUseRttSample && lastSendTime != 0 && now > lastSendTime
                        then Some(now - lastSendTime) else None
    {
      if isReplyType || !canUseRttSample { return None; }
      if lastSendTime == 0 { return None; }
      if now <= lastSendTime { return None; }
      return Some(now - lastSendTime);
    }
  }
}
