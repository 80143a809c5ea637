/** What MakeSendStream's datagrams are, over any run of pushes and calls. */
module StreamBatching {
  import opened Common
  import opened SendStream

  // The packets of a batch that are copied: each key once, and none that has been erased.
  function Kept(taken: seq<Item>): seq<Item> {
    if taken == [] then []
    else
      var before := Kept(taken[..|taken| - 1]);
      var last := taken[|taken| - 1];
      if last.erased || KeyOf(last) in Keys(before) then before else before + [last]
  }

  function Keys(items: seq<Item>): set<Key> {
    set item | item in items :: KeyOf(item)
  }

  function Joined(placed: seq<Placed>): seq<bv8> {
    if placed == [] then [] else Joined(placed[..|placed| - 1]) + placed[|placed| - 1].bytes
  }

  // A packet erased after it was queued, and not a repetition, is counted but not copied; only the
  // reserved packet is checked before it is counted.
  predicate Skipped(taken: seq<Item>, i: nat)
    requires i < |taken|
  {
    taken[i].erased && KeyOf(taken[i]) !in Keys(Kept(taken[..i]))
  }

  predicate LeavesGap(taken: seq<Item>, reserved: nat) {
    exists i :: reserved <= i < |taken| && Skipped(taken, i)
  }

  function ReservedCount(reserved: Option<Item>): nat {
    if reserved.Some? then 1 else 0
  }

  ghost predicate SameBytes(placed: seq<Placed>, items: seq<Item>) {
    |placed| == |items| && forall i :: 0 <= i < |placed| ==> placed[i].bytes == items[i].bytes
  }

  // Without a gap the copies cover the size from 0 on; with one they are shorter than it.
  ghost predicate Covers(b: Build, reserved: nat) {
    && SameBytes(b.placed, Kept(b.taken)) && b.keys == Keys(Kept(b.taken)) && reserved <= |b.taken|
    && (if LeavesGap(b.taken, reserved) then |Joined(b.placed)| < b.size else Contiguous(b.placed, b.size))
  }

  ghost predicate Contiguous(placed: seq<Placed>, size: nat)
    decreases |placed|
  {
    if placed == [] then size == 0
    else
      var last := placed[|placed| - 1];
      last.offset + |last.bytes| == size && Contiguous(placed[..|placed| - 1], last.offset)
  }

  lemma {:induction false} ContiguousLength(placed: seq<Placed>, size: nat)
    requires Contiguous(placed, size)
    ensures |Joined(placed)| == size
    decreases |placed|
  {
    if placed != [] { ContiguousLength(placed[..|placed| - 1], placed[|placed| - 1].offset); }
  }

  lemma FrontHolds(buffer: seq<bv8>, placed: seq<Placed>)
    requires placed != [] && Holds(buffer, placed)
    ensures var last := placed[|placed| - 1];
            && last.offset + |last.bytes| <= |buffer| && buffer[last.offset..last.offset + |last.bytes|] == last.bytes
            && Holds(buffer, placed[..|placed| - 1])
  {
    assert placed[|placed| - 1] in placed;
  }

  lemma {:induction false} JoinedIsBuffer(buffer: seq<bv8>, placed: seq<Placed>, size: nat)
    requires Contiguous(placed, size) && Holds(buffer, placed) && size <= |buffer|
    ensures buffer[..size] == Joined(placed)
    decreases |placed|
  {
    hide Holds;
    if placed != [] {
      var last := placed[|placed| - 1];
      FrontHolds(buffer, placed);
      JoinedIsBuffer(buffer, placed[..|placed| - 1], last.offset);
      assert buffer[..size] == buffer[..last.offset] + buffer[last.offset..size];
    }
  }

  lemma KeptAppend(taken: seq<Item>, item: Item)
    ensures Kept(taken + [item]) ==
            if item.erased || KeyOf(item) in Keys(Kept(taken)) then Kept(taken) else Kept(taken) + [item]
  {
    assert (taken + [item])[..|taken|] == taken;
  }

  lemma GapAppend(taken: seq<Item>, item: Item, reserved: nat)
    requires reserved <= |taken|
    ensures LeavesGap(taken + [item], reserved) <==>
            LeavesGap(taken, reserved) || (item.erased && KeyOf(item) !in Keys(Kept(taken)))
  {
    var more := taken + [item];
    assert more[..|taken|] == taken;
    assert Skipped(more, |taken|) <==> item.erased && KeyOf(item) !in Keys(Kept(taken));
    forall i | 0 <= i < |taken| ensures Skipped(more, i) <==> Skipped(taken, i) {
      assert more[..i] == taken[..i];
    }
    if LeavesGap(taken, reserved) {
      var i :| reserved <= i < |taken| && Skipped(taken, i);
      assert Skipped(more, i);
    }
  }

  lemma JoinedAppend(placed: seq<Placed>, p: Placed)
    ensures Joined(placed + [p]) == Joined(placed) + p.bytes
  {
    assert (placed + [p])[..|placed|] == placed;
  }

  lemma ContiguousAppend(placed: seq<Placed>, size: nat, bytes: seq<bv8>)
    requires Contiguous(placed, size)
    ensures Contiguous(placed + [Placed(size, bytes)], size + |bytes|)
  {
    assert (placed + [Placed(size, bytes)])[..|placed|] == placed;
  }

  lemma NextCovers(b: Build, reserved: nat)
    requires b.result == SUCCESS && Covers(b, reserved)
    ensures PlaceNext(b).result != OCCURED_ERROR ==> Covers(PlaceNext(b), reserved)
  {
    hide Kept, Keys, Joined, Contiguous, LeavesGap;
    if b.queue != [] {
      var item := b.queue[0];
      KeptAppend(b.taken, item);
      GapAppend(b.taken, item, reserved);
      var p := Placed(b.size, item.bytes);
      JoinedAppend(b.placed, p);
      KeysAppend(Kept(b.taken), item);
      if !LeavesGap(b.taken, reserved) {
        ContiguousAppend(b.placed, b.size, item.bytes);
        ContiguousLength(b.placed, b.size);
      }
    }
  }

  lemma KeysAppend(items: seq<Item>, item: Item)
    ensures Keys(items + [item]) == Keys(items) + {KeyOf(item)}
  {
  }

  lemma KeptOne(item: Item)
    ensures Kept([item]) == if item.erased then [] else [item]
    ensures Keys([]) == {} && Keys([item]) == {KeyOf(item)}
  {
    assert Kept([]) == [];
    assert Keys([]) == {};
    KeptAppend([], item);
    assert [] + [item] == [item];
  }

  lemma NoGapBefore(taken: seq<Item>)
    ensures !LeavesGap(taken, |taken|)
  {
  }

  lemma ReservedCovers(queue: seq<Item>, reserved: Option<Item>)
    ensures var b := PlaceReserved(queue, reserved);
            b.result != OCCURED_ERROR ==> Covers(b, ReservedCount(reserved))
  {
    hide Kept, Keys, LeavesGap, Skipped, Contiguous;
    var b := PlaceReserved(queue, reserved);
    NoGapBefore(b.taken);
    EmptyStart();
    if reserved.Some? && b.result == SUCCESS {
      KeptOne(reserved.value);
      OneContiguous(reserved.value.bytes);
    }
  }

  lemma EmptyStart()
    ensures Kept([]) == [] && Keys([]) == {} && Contiguous([], 0)
  {
  }

  lemma OneContiguous(bytes: seq<bv8>)
    ensures Contiguous([Placed(0, bytes)], |bytes|)
  {
    assert [Placed(0, bytes)][..0] == [];
  }

  lemma {:induction false} AllCovers(b: Build, count: nat, reserved: nat)
    requires b.result != OCCURED_ERROR && Covers(b, reserved)
    ensures PlaceAll(b, count).result != OCCURED_ERROR ==> Covers(PlaceAll(b, count), reserved)
    decreases count
  {
    hide Covers;
    if count > 0 && b.result == SUCCESS {
      NextCovers(b, reserved);
      if PlaceNext(b).result != OCCURED_ERROR { AllCovers(PlaceNext(b), count - 1, reserved); }
    }
  }

  lemma {:induction false} AllPacked(b: Build, count: nat)
    requires Packed(b.placed, b.size)
    ensures Packed(PlaceAll(b, count).placed, PlaceAll(b, count).size)
    decreases count
  {
    hide Packed, PlaceNext;
    if count > 0 && b.result == SUCCESS {
      NextPacked(b);
      AllPacked(PlaceNext(b), count - 1);
    }
  }

  // A datagram fits the buffer, and is the concatenation of its packets exactly when no packet that
  // was erased while queued took up room in it.
  lemma ConcatenationExactly(queue: seq<Item>, reserved: Option<Item>, buffer: seq<bv8>)
    requires var b := Made(queue, reserved);
             b.result != OCCURED_ERROR && |buffer| == MAX_SEND_BUFFER_SIZE && Holds(buffer, b.placed)
    ensures var b := Made(queue, reserved);
            && b.size <= MAX_SEND_BUFFER_SIZE
            && SameBytes(b.placed, Kept(b.taken))
            && (buffer[..b.size] == Joined(b.placed) <==> !LeavesGap(b.taken, ReservedCount(reserved)))
  {
    hide PlaceAll, PlaceNext, PlaceReserved, LeavesGap, Joined, Kept, Holds;
    var b := Made(queue, reserved);
    var first := PlaceReserved(queue, reserved);
    ReservedPacked(queue, reserved);
    AllPacked(first, |queue|);
    FirstGoes(queue, reserved);
    ReservedCovers(queue, reserved);
    AllCovers(first, |queue|, ReservedCount(reserved));
    if !LeavesGap(b.taken, ReservedCount(reserved)) {
      JoinedIsBuffer(buffer, b.placed, b.size);
    }
  }

  const ERASED := Item(false, 1, [1], true)
  const GOOD := Item(false, 2, [2], false)

  // A concrete gap: one packet is erased while it is queued before another.
  lemma ErasedPacketLeavesGap()
    ensures var b := Made([ERASED, GOOD], None);
            b.result == SUCCESS && b.size == 2 && b.placed == [Placed(1, [2])] && Joined(b.placed) == [2]
  {
  }

  lemma FirstGoes(queue: seq<Item>, reserved: Option<Item>)
    requires Made(queue, reserved).result != OCCURED_ERROR
    ensures PlaceReserved(queue, reserved).result != OCCURED_ERROR
  {
  }

  // --- Order over runs ---

  datatype Event = Push(item: Item) | Make

  datatype Traffic = Traffic(queue: seq<Item>, reserved: Option<Item>, pushed: seq<Item>, batches: seq<Build>)

  function Apply(t: Traffic, event: Event): Traffic {
    match event
    case Push(item) => t.(queue := t.queue + [item], pushed := t.pushed + [item])
    case Make =>
      var b := Made(t.queue, t.reserved);
      Traffic(b.queue, b.reserved, t.pushed, t.batches + [b])
  }

  function After(t: Traffic, events: seq<Event>): Traffic
    decreases |events|
  {
    if events == [] then t else After(Apply(t, events[0]), events[1..])
  }

  const START := Traffic([], None, [], [])

  function Waiting(reserved: Option<Item>, queue: seq<Item>): seq<Item> {
    (if reserved.Some? then [reserved.value] else []) + queue
  }

  function Consumed(batches: seq<Build>): seq<Item> {
    if batches == [] then [] else Consumed(batches[..|batches| - 1]) + batches[|batches| - 1].taken
  }

  // The queue is taken up from the front, and only an overflow is put back, before the rest.
  ghost predicate Split(b: Build, all: seq<Item>) {
    b.taken + Waiting(b.reserved, b.queue) == all && (b.result == SUCCESS ==> b.reserved.None?)
  }

  lemma NextSplits(b: Build, all: seq<Item>)
    requires Split(b, all) && b.result == SUCCESS
    ensures Split(PlaceNext(b), all)
  {
    if b.queue != [] {
      assert b.queue == [b.queue[0]] + b.queue[1..];
    }
  }

  lemma {:induction false} AllSplits(b: Build, count: nat, all: seq<Item>)
    requires Split(b, all)
    ensures Split(PlaceAll(b, count), all)
    decreases count
  {
    hide Split, PlaceNext;
    if count > 0 && b.result == SUCCESS {
      NextSplits(b, all);
      AllSplits(PlaceNext(b), count - 1, all);
    }
  }

  lemma MadeSplits(queue: seq<Item>, reserved: Option<Item>)
    ensures Split(Made(queue, reserved), Waiting(reserved, queue))
  {
    AllSplits(PlaceReserved(queue, reserved), |queue|, Waiting(reserved, queue));
  }

  ghost predicate InOrder(t: Traffic) {
    Consumed(t.batches) + Waiting(t.reserved, t.queue) == t.pushed
  }

  lemma StepInOrder(t: Traffic, event: Event)
    requires InOrder(t)
    ensures InOrder(Apply(t, event))
  {
    hide Made;
    if event.Make? {
      var b := Made(t.queue, t.reserved);
      MadeSplits(t.queue, t.reserved);
      assert (t.batches + [b])[..|t.batches|] == t.batches;
    } else {
      assert Waiting(t.reserved, t.queue + [event.item]) == Waiting(t.reserved, t.queue) + [event.item];
    }
  }

  lemma {:induction false} RunInOrder(t: Traffic, events: seq<Event>)
    requires InOrder(t)
    ensures InOrder(After(t, events))
    decreases |events|
  {
    hide InOrder, Apply;
    if events != [] {
      StepInOrder(t, events[0]);
      RunInOrder(Apply(t, events[0]), events[1..]);
    }
  }

  // Over any run, the packets taken up by the successive batches, then the overflow, then the queue,
  // are exactly the packets pushed, in order.
  lemma FifoOverRuns(events: seq<Event>)
    ensures var end := After(START, events);
            Consumed(end.batches) + Waiting(end.reserved, end.queue) == end.pushed
  {
    RunInOrder(START, events);
  }

  // An overflow packet is the first of the next batch.
  lemma OverflowLeads(queue: seq<Item>, item: Item)
    ensures var b := Made(queue, Some(item)); b.taken != [] && b.taken[0] == item
  {
    MadeSplits(queue, Some(item));
    TakenGrows(PlaceReserved(queue, Some(item)), |queue|);
  }

  lemma {:induction false} TakenGrows(b: Build, count: nat)
    ensures b.taken <= PlaceAll(b, count).taken
    decreases count
  {
    if count > 0 && b.result == SUCCESS { TakenGrows(PlaceNext(b), count - 1); }
  }

  // Packets pushed while a call is running are simply left for the next one.
  lemma {:induction false} PushesWait(b: Build, count: nat, more: seq<Item>)
    requires count <= |b.queue|
    ensures PlaceAll(b.(queue := b.queue + more), count)
            == PlaceAll(b, count).(queue := PlaceAll(b, count).queue + more)
    decreases count
  {
    if count > 0 && b.result == SUCCESS {
      var longer := b.(queue := b.queue + more);
      assert longer.queue[1..] == b.queue[1..] + more;
      assert PlaceNext(longer) == PlaceNext(b).(queue := PlaceNext(b).queue + more);
      PushesWait(PlaceNext(b), count - 1, more);
    }
  }

  // Where a batch ends: everything that waited was taken up, or a packet that does not fit behind
  // those taken is in the reserved slot.
  predicate EndsRightly(b: Build) {
    match b.result
    case SUCCESS => b.reserved.None?
    case STREAM_IS_FULL =>
      && b.reserved.Some? && 1 <= |b.reserved.value.bytes| <= MAX_SEND_BUFFER_SIZE
      && b.size <= MAX_SEND_BUFFER_SIZE < b.size + |b.reserved.value.bytes|
      && KeyOf(b.reserved.value) !in b.keys
    case OCCURED_ERROR => true
  }

  lemma {:induction false} AllEndRightly(b: Build, count: nat)
    requires EndsRightly(b) && b.size <= MAX_SEND_BUFFER_SIZE && (b.result == SUCCESS ==> |b.queue| == count)
    ensures EndsRightly(PlaceAll(b, count))
    ensures PlaceAll(b, count).result == SUCCESS ==> PlaceAll(b, count).queue == []
    decreases count
  {
    if count > 0 && b.result == SUCCESS { AllEndRightly(PlaceNext(b), count - 1); }
  }

  // A datagram is closed before everything that waited is in it exactly when the next packet, one
  // whose key it does not have yet, does not fit behind what it has; that packet then waits in the slot.
  lemma ClosesOnlyWhenFull(queue: seq<Item>, reserved: Option<Item>)
    ensures var b := Made(queue, reserved);
            && (b.result == SUCCESS ==> b.queue == [] && b.reserved.None? && b.taken == Waiting(reserved, queue))
            && (b.result == STREAM_IS_FULL ==>
                 && b.reserved.Some? && 1 <= |b.reserved.value.bytes| <= MAX_SEND_BUFFER_SIZE
                 && b.size + |b.reserved.value.bytes| > MAX_SEND_BUFFER_SIZE && KeyOf(b.reserved.value) !in b.keys
                 && b.taken + [b.reserved.value] <= Waiting(reserved, queue))
  {
    AllEndRightly(PlaceReserved(queue, reserved), |queue|);
    MadeSplits(queue, reserved);
    hide Made;
    var b := Made(queue, reserved);
    if b.reserved.Some? {
      assert b.taken + Waiting(b.reserved, b.queue) == (b.taken + [b.reserved.value]) + b.queue;
    } else if b.result == SUCCESS {
      assert b.taken + Waiting(b.reserved, b.queue) == b.taken;
    }
  }

  // --- Failures ---

  predicate Fits(item: Item) {
    1 <= |item.bytes| < MAX_SEND_BUFFER_SIZE
  }

  lemma {:induction false} AllFit(b: Build, count: nat)
    requires b.result != OCCURED_ERROR && forall item :: item in b.queue ==> 1 <= |item.bytes| <= MAX_SEND_BUFFER_SIZE
    ensures PlaceAll(b, count).result != OCCURED_ERROR
    decreases count
  {
    if count > 0 && b.result == SUCCESS { AllFit(PlaceNext(b), count - 1); }
  }

  // With packets of 1 to 32768 bytes, a call fails exactly when a packet of 32768 bytes, which alone
  // would have filled a datagram, had to wait in the reserved slot.
  lemma FailsExactly(queue: seq<Item>, reserved: Option<Item>)
    requires forall item :: item in Waiting(reserved, queue) ==> 1 <= |item.bytes| <= MAX_SEND_BUFFER_SIZE
    ensures Made(queue, reserved).result == OCCURED_ERROR <==>
            reserved.Some? && |reserved.value.bytes| == MAX_SEND_BUFFER_SIZE
  {
    var first := PlaceReserved(queue, reserved);
    if reserved.Some? { assert reserved.value in Waiting(reserved, queue); }
    assert forall item :: item in queue ==> item in Waiting(reserved, queue);
    if first.result != OCCURED_ERROR { AllFit(first, |queue|); }
  }

  ghost predicate Fine(t: Traffic) {
    && (forall item :: item in Waiting(t.reserved, t.queue) ==> Fits(item))
    && (forall b :: b in t.batches ==> b.result != OCCURED_ERROR)
  }

  lemma StepFine(t: Traffic, event: Event)
    requires Fine(t) && (event.Push? ==> Fits(event.item))
    ensures Fine(Apply(t, event))
  {
    hide Made;
    if event.Make? {
      var b := Made(t.queue, t.reserved);
      MadeSplits(t.queue, t.reserved);
      FailsExactly(t.queue, t.reserved);
      if t.reserved.Some? { assert t.reserved.value in Waiting(t.reserved, t.queue); }
      assert forall item :: item in Waiting(b.reserved, b.queue) ==> item in b.taken + Waiting(b.reserved, b.queue);
    }
  }

  lemma {:induction false} RunFine(t: Traffic, events: seq<Event>)
    requires Fine(t) && forall e :: e in events && e.Push? ==> Fits(e.item)
    ensures Fine(After(t, events))
    decreases |events|
  {
    hide Fine, Apply;
    if events != [] {
      StepFine(t, events[0]);
      RunFine(Apply(t, events[0]), events[1..]);
    }
  }

  // Packets shorter than the buffer never make a batch fail, and every call that has something
  // waiting takes at least its first packet.
  lemma SmallPacketsAlwaysGo(events: seq<Event>)
    requires forall e :: e in events && e.Push? ==> Fits(e.item)
    ensures var end := After(START, events);
            && (forall b :: b in end.batches ==> b.result != OCCURED_ERROR)
            && (Waiting(end.reserved, end.queue) != [] ==>
                 var b := Made(end.queue, end.reserved);
                 b.taken != [] && b.taken[0] == Waiting(end.reserved, end.queue)[0])
  {
    RunFine(START, events);
    var end := After(START, events);
    if end.reserved.Some? {
      OverflowLeads(end.queue, end.reserved.value);
    } else if end.queue != [] {
      assert Fits(end.queue[0]) by { assert end.queue[0] in Waiting(end.reserved, end.queue); }
      var first := PlaceReserved(end.queue, None);
      var second := PlaceNext(first);
      assert second.taken == [end.queue[0]];
      TakenGrows(second, |end.queue| - 1);
    }
  }
}
