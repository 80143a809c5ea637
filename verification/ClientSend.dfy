/** The client's sending half: the pending priority queue behind the advertised window, and the map of
 unacknowledged packets. Sequences are counted without wrapping. */
module ClientSend {
  import opened Common

  datatype Client = Client(
    sent: seq<Payload>,          // history: sent[s - 1] was numbered s; its length is lastSendPacketSequence
    pending: map<nat, Payload>,  // pendingPacketQueue, least sequence on top
    unacked: map<nat, Payload>,  // sendPacketInfoMap
    window: nat)                 // remoteAdvertisedWindow

  // static_cast<BYTE>(sendPacketInfoMap.size())
  function Outstanding(st: Client): nat {
    |st.unacked| % 256
  }

  predicate IsLeast(s: set<nat>, m: nat) {
    m in s && forall x :: x in s ==> m <= x
  }

  lemma {:induction false} LeastExists(s: set<nat>)
    requires s != {}
    ensures exists m :: IsLeast(s, m)
    decreases |s|
  {
    var e :| e in s;
    var rest := s - {e};
    if rest == {} {
      assert forall x :: x in s ==> x == e || x in rest;
      assert IsLeast(s, e);
    } else {
      LeastExists(rest);
      var m :| IsLeast(rest, m);
      assert forall x :: x in s ==> x == e || x in rest;
      assert IsLeast(s, if m < e then m else e);
    }
  }

  ghost function Least(s: set<nat>): (m: nat)
    requires s != {}
    ensures IsLeast(s, m)
  {
    LeastExists(s);
    var m :| IsLeast(s, m);
    m
  }

  lemma HasKey(m: map<nat, Payload>)
    requires m != map[]
    ensures m.Keys != {}
  {
    assert |m.Keys| == |m|;
  }

  // RegisterSendPacketInfo, when the allocation succeeds
  function Register(st: Client, s: nat, p: Payload): (r: Client)
    ensures r == st.(unacked := r.unacked)
  {
    if s in st.unacked then st else st.(unacked := st.unacked[s := p])
  }

  predicate HasRoom(st: Client) {
    Outstanding(st) < st.window
  }

  // --- What a flush moves ---

  function Allocated(moved: seq<nat>, allocates: seq<bool>): set<nat>
    requires |moved| <= |allocates|
  {
    set i | 0 <= i < |moved| && allocates[i] :: moved[i]
  }

  // The map after a number of insertions of pending packets, which overwrite nothing.
  function Entered(st: Client, sequences: set<nat>): map<nat, Payload> {
    st.unacked + map s | s in sequences && s in st.pending && s !in st.unacked :: st.pending[s]
  }

  function Elements(moved: seq<nat>): set<nat> {
    set s | s in moved
  }

  // The given sequences have left the pending queue for the map, but for those whose allocation
  // failed, which are dropped.
  function AfterMoves(st: Client, moved: seq<nat>, allocates: seq<bool>): (r: Client)
    requires |moved| <= |allocates|
    ensures r == st.(pending := r.pending, unacked := r.unacked)
  {
    st.(pending := st.pending - Elements(moved), unacked := Entered(st, Allocated(moved, allocates)))
  }

  // The payloads of the moved packets that were allocated, in turn.
  function Buffers(st: Client, moved: seq<nat>, allocates: seq<bool>): seq<Payload>
    requires |moved| <= |allocates|
  {
    if moved == [] then []
    else
      var n := |moved| - 1;
      Buffers(st, moved[..n], allocates) + if allocates[n] && moved[n] in st.pending then [st.pending[moved[n]]] else []
  }

  // The least pending sequences, in order, ...
  ghost predicate LeastFirst(st: Client, moved: seq<nat>) {
    && (forall s :: s in moved ==> s in st.pending)
    && (forall i, j :: 0 <= i < j < |moved| ==> moved[i] < moved[j])
    && (forall s, m :: s in st.pending && s !in moved && m in moved ==> m < s)
  }

  // ... each while there was room ...
  ghost predicate WithRoom(st: Client, moved: seq<nat>, allocates: seq<bool>)
    requires |moved| <= |allocates|
  {
    forall i :: 0 <= i < |moved| ==> HasRoom(AfterMoves(st, moved[..i], allocates))
  }

  // ... until there is none or nothing is left.
  ghost predicate Flushes(st: Client, moved: seq<nat>, allocates: seq<bool>) {
    && |moved| <= |allocates| && LeastFirst(st, moved) && WithRoom(st, moved, allocates)
    && var end := AfterMoves(st, moved, allocates); end.pending == map[] || !HasRoom(end)
  }

  // The loop of TryFlushPendingQueue so far; `was` and `queue` are the send queue before and now.
  ghost predicate Partway(
    st: Client, moved: seq<nat>, allocates: seq<bool>, now: Client, was: seq<Payload>, queue: seq<Payload>)
  {
    && |moved| <= |allocates| && LeastFirst(st, moved) && WithRoom(st, moved, allocates)
    && now == AfterMoves(st, moved, allocates) && queue == was + Buffers(st, moved, allocates)
  }

  lemma NothingMoved(st: Client, allocates: seq<bool>, was: seq<Payload>)
    ensures Partway(st, [], allocates, st, was, was)
  {
    var st' := AfterMoves(st, [], allocates);
    assert Allocated([], allocates) == {} && Elements([]) == {};
    assert st'.pending == st.pending && st'.unacked == st.unacked;
    assert was + [] == was;
  }

  lemma MoveLeast(
    st: Client, moved: seq<nat>, allocates: seq<bool>, now: Client, was: seq<Payload>, queue: seq<Payload>, s: nat)
    requires Partway(st, moved, allocates, now, was, queue)
    requires |moved| < |allocates| && HasRoom(now) && IsLeast(now.pending.Keys, s)
    ensures Partway(st, moved + [s], allocates, MovedOne(now, s, allocates[|moved|]), was,
                    queue + if allocates[|moved|] then [now.pending[s]] else [])
  {
    hide AfterMoves, LeastFirst, WithRoom, HasRoom, IsLeast, MovedOne, Buffers;
    LeastIsNext(st, moved, allocates, s);
    MovedTwice(st, moved, allocates, s);
    RoomAgain(st, moved, allocates, s);
    BuffersAppend(st, moved, allocates, s);
    var one := if allocates[|moved|] then [now.pending[s]] else [];
    assert was + Buffers(st, moved, allocates) + one == was + (Buffers(st, moved, allocates) + one);
  }

  lemma BuffersAppend(st: Client, moved: seq<nat>, allocates: seq<bool>, s: nat)
    requires |moved| < |allocates| && s in st.pending
    ensures Buffers(st, moved + [s], allocates)
            == Buffers(st, moved, allocates) + if allocates[|moved|] then [st.pending[s]] else []
  {
    assert (moved + [s])[..|moved|] == moved;
  }

  lemma LeastIsNext(st: Client, moved: seq<nat>, allocates: seq<bool>, s: nat)
    requires |moved| < |allocates| && LeastFirst(st, moved)
    requires IsLeast(AfterMoves(st, moved, allocates).pending.Keys, s)
    ensures LeastFirst(st, moved + [s]) && s !in moved && s in st.pending
    ensures s in AfterMoves(st, moved, allocates).pending
    ensures AfterMoves(st, moved, allocates).pending[s] == st.pending[s]
  {
    hide Allocated, Entered;
    var now, more := AfterMoves(st, moved, allocates), moved + [s];
    assert s in now.pending.Keys;
    assert forall x :: x in more <==> x in moved || x == s;
    assert forall x :: x in st.pending && x !in moved ==> x in now.pending.Keys;
    forall i | 0 <= i < |moved| ensures moved[i] < s { assert moved[i] in moved; }
  }

  lemma RoomAgain(st: Client, moved: seq<nat>, allocates: seq<bool>, s: nat)
    requires |moved| < |allocates| && WithRoom(st, moved, allocates) && HasRoom(AfterMoves(st, moved, allocates))
    ensures WithRoom(st, moved + [s], allocates)
  {
    hide AfterMoves, HasRoom;
    var more := moved + [s];
    forall i | 0 <= i < |more| ensures HasRoom(AfterMoves(st, more[..i], allocates)) {
      assert more[..i] == moved[..i];
    }
    assert more[..|moved|] == moved && moved[..|moved|] == moved;
  }

  function MovedOne(st: Client, s: nat, allocates: bool): Client
    requires s in st.pending
  {
    var popped := st.(pending := st.pending - {s});
    if allocates then Register(popped, s, st.pending[s]) else popped
  }

  lemma MovedTwice(st: Client, moved: seq<nat>, allocates: seq<bool>, s: nat)
    requires |moved| < |allocates| && s in st.pending && s !in moved
    ensures AfterMoves(st, moved + [s], allocates) == MovedOne(AfterMoves(st, moved, allocates), s, allocates[|moved|])
  {
    AllocatedAppend(moved, allocates, s);
    EnteredOne(st, Allocated(moved, allocates), s);
    hide Allocated, Entered;
    assert Elements(moved + [s]) == Elements(moved) + {s};
    assert st.pending - Elements(moved + [s]) == st.pending - Elements(moved) - {s};
  }

  lemma EnteredOne(st: Client, sequences: set<nat>, s: nat)
    requires s in st.pending
    ensures var m := Entered(st, sequences); Entered(st, sequences + {s}) == if s in m then m else m[s := st.pending[s]]
    ensures sequences + {} == sequences
  {
    var m, more := Entered(st, sequences), Entered(st, sequences + {s});
    assert forall x :: x in more <==> x in m || x == s;
  }

  lemma AllocatedAppend(moved: seq<nat>, allocates: seq<bool>, s: nat)
    requires |moved| < |allocates|
    ensures Allocated(moved + [s], allocates) == Allocated(moved, allocates) + (if allocates[|moved|] then {s} else {})
  {
    var more := moved + [s];
    assert more[|moved|] == s;
    forall x | x in Allocated(moved, allocates) ensures x in Allocated(more, allocates) {
      var i :| 0 <= i < |moved| && allocates[i] && moved[i] == x;
      assert more[i] == x;
    }
  }

  // A flush loses only what could not be allocated: everything else that was pending still is, or is
  // in the map with the payload it had.
  lemma FlushLosesNothing(st: Client, moved: seq<nat>, allocates: seq<bool>, s: nat)
    requires |moved| <= |allocates| && LeastFirst(st, moved) && s in st.pending && s !in st.unacked
    ensures var end := AfterMoves(st, moved, allocates);
            || (s in end.pending && end.pending[s] == st.pending[s])
            || (s in end.unacked && end.unacked[s] == st.pending[s])
            || exists i :: 0 <= i < |moved| && moved[i] == s && !allocates[i]
  {
    if s in moved {
      var i :| 0 <= i < |moved| && moved[i] == s;
      if allocates[i] { assert s in Allocated(moved, allocates); }
    }
  }

  // OnSendReply up to the flush
  function Acknowledge(st: Client, s: nat, advertised: nat): Client {
    if |st.sent| < s then st else st.(window := advertised, unacked := st.unacked - {s})
  }

  // When every allocation succeeds the payloads handed to the send thread are those moved, in order.
  lemma {:induction false} BuffersExactly(st: Client, moved: seq<nat>, allocates: seq<bool>)
    requires |moved| <= |allocates| && LeastFirst(st, moved) && forall i :: 0 <= i < |moved| ==> allocates[i]
    ensures |Buffers(st, moved, allocates)| == |moved|
    ensures forall i :: 0 <= i < |moved| ==> Buffers(st, moved, allocates)[i] == st.pending[moved[i]]
    decreases |moved|
  {
    if moved != [] {
      var before := moved[..|moved| - 1];
      assert moved[|moved| - 1] in moved;
      forall s, m | s in st.pending && s !in before && m in before ensures m < s {
        var i :| 0 <= i < |before| && before[i] == m;
        assert moved[i] == m && m in moved;
        if s in moved { assert s == moved[|moved| - 1]; }
      }
      BuffersExactly(st, before, allocates);
    }
  }

  lemma PopShrinks(pending: map<nat, Payload>, s: nat)
    requires s in pending
    ensures |pending - {s}| == |pending| - 1
  {
    assert (pending - {s}).Keys == pending.Keys - {s};
  }

  // The methods as one thread runs them. `allocates` tells which SendPacketInfo allocations succeed.
  class RUDPClientSender {
    ghost var sent: seq<Payload>
    var lastSendPacketSequence: nat
    var pendingPacketQueue: map<nat, Payload>
    var sendPacketInfoMap: map<nat, Payload>
    var remoteAdvertisedWindow: nat
    var sendBufferQueue: seq<Payload>

    ghost predicate Valid()
      reads this
    {
      lastSendPacketSequence == |sent|
    }

    ghost function View(): Client
      reads this
    {
      Client(sent, pendingPacketQueue, sendPacketInfoMap, remoteAdvertisedWindow)
    }

    constructor ()
      ensures Valid() && View() == Client([], map[], map[], 1) && sendBufferQueue == []
    {
      sent := [];
      lastSendPacketSequence := 0;
      pendingPacketQueue := map[];
      sendPacketInfoMap := map[];
      remoteAdvertisedWindow := 1;
      sendBufferQueue := [];
    }

    method RegisterSendPacketInfo(buffer: Payload, sequence: nat, allocates: bool)
      requires Valid()
      modifies this`sendPacketInfoMap, this`sendBufferQueue
      ensures View() == if allocates then Register(old(View()), sequence, buffer) else old(View())
      ensures sendBufferQueue == old(sendBufferQueue) + if allocates then [buffer] else []
    {
      if !allocates { return; }
      if sequence !in sendPacketInfoMap {
        sendPacketInfoMap := sendPacketInfoMap[sequence := buffer];
      }
      sendBufferQueue := sendBufferQueue + [buffer];
    }

    // The pending queue is not consulted: a packet for which there is room goes straight out.
    method SendPacket(buffer: Payload, allocates: bool)
      requires Valid()
      modifies this
      ensures Valid()
      ensures var s, numbered := |old(sent)| + 1, old(View()).(sent := old(sent) + [buffer]);
              && View() == (if !HasRoom(numbered) then numbered.(pending := numbered.pending[s := buffer])
                            else if allocates then Register(numbered, s, buffer)
                            else numbered)
              && sendBufferQueue == old(sendBufferQueue) + if HasRoom(numbered) && allocates then [buffer] else []
    {
      lastSendPacketSequence := lastSendPacketSequence + 1;
      sent := sent + [buffer];
      var window := remoteAdvertisedWindow;
      if window == 0 {
        pendingPacketQueue := pendingPacketQueue[lastSendPacketSequence := buffer];
        return;
      }
      var outstanding := |sendPacketInfoMap| % 256;
      if outstanding >= window {
        pendingPacketQueue := pendingPacketQueue[lastSendPacketSequence := buffer];
        return;
      }
      RegisterSendPacketInfo(buffer, lastSendPacketSequence, allocates);
    }

    method Top() returns (s: nat)
      requires pendingPacketQueue != map[]
      ensures pendingPacketQueue.Keys != {} && s == Least(pendingPacketQueue.Keys)
    {
      HasKey(pendingPacketQueue);
      var rest := pendingPacketQueue.Keys;
      s :| s in rest;
      while rest != {}
        invariant rest <= pendingPacketQueue.Keys && s in pendingPacketQueue.Keys
        invariant forall x :: x in pendingPacketQueue.Keys ==> x in rest || s <= x
        decreases |rest|
      {
        var x :| x in rest;
        if x < s { s := x; }
        rest := rest - {x};
      }
    }

    // `moved` are the sequences taken off the pending queue.
    method TryFlushPendingQueue(allocates: seq<bool>) returns (ghost moved: seq<nat>)
      requires Valid() && |allocates| >= |pendingPacketQueue|
      modifies this
      ensures Valid() && Flushes(old(View()), moved, allocates)
      ensures View() == AfterMoves(old(View()), moved, allocates)
      ensures sendBufferQueue == old(sendBufferQueue) + Buffers(old(View()), moved, allocates)
    {
      moved := [];
      ghost var before := View();
      NothingMoved(before, allocates, sendBufferQueue);
      hide AfterMoves, Buffers, WithRoom, LeastFirst;
      var window := remoteAdvertisedWindow;
      if window == 0 { return; }
      var i := 0;
      while pendingPacketQueue != map[]
        invariant Valid() && remoteAdvertisedWindow == window
        invariant i == |moved| && i + |pendingPacketQueue| <= |allocates|
        invariant Partway(before, moved, allocates, View(), old(sendBufferQueue), sendBufferQueue)
        decreases |pendingPacketQueue|
      {
        var outstanding := |sendPacketInfoMap| % 256;
        if outstanding >= window { break; }
        hide Partway;
        var sequence := Top();
        MoveLeast(before, moved, allocates, View(), old(sendBufferQueue), sendBufferQueue, sequence);
        PopShrinks(pendingPacketQueue, sequence);
        var buffer := pendingPacketQueue[sequence];
        pendingPacketQueue := pendingPacketQueue - {sequence};
        RegisterSendPacketInfo(buffer, sequence, allocates[i]);
        moved := moved + [sequence];
        i := i + 1;
      }
    }

    method OnSendReply(packetSequence: nat, remoteWindow: nat, allocates: seq<bool>) returns (ghost moved: seq<nat>)
      requires Valid() && |allocates| >= |pendingPacketQueue|
      modifies this
      ensures Valid()
      ensures var acknowledged := Acknowledge(old(View()), packetSequence, remoteWindow);
              if packetSequence > |old(sent)| then View() == old(View()) && sendBufferQueue == old(sendBufferQueue)
              else
                && Flushes(acknowledged, moved, allocates)
                && View() == AfterMoves(acknowledged, moved, allocates)
                && sendBufferQueue == old(sendBufferQueue) + Buffers(acknowledged, moved, allocates)
      ensures packetSequence <= |old(sent)| ==>
            && remoteAdvertisedWindow == remoteWindow
            && (forall s :: s in old(sendPacketInfoMap) && s != packetSequence ==>
                 s in sendPacketInfoMap && sendPacketInfoMap[s] == old(sendPacketInfoMap)[s])
            && (packetSequence in sendPacketInfoMap ==> packetSequence in old(pendingPacketQueue))
    {
      if lastSendPacketSequence < packetSequence { return []; }
      remoteAdvertisedWindow := remoteWindow;
      sendPacketInfoMap := sendPacketInfoMap - {packetSequence};
      moved := TryFlushPendingQueue(allocates);
    }
  }
}
