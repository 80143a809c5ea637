/**
 The server's sending half of a session: sequence numbers, the pending queue behind the congestion
 window, and the unacked map. Sequences are counted without wrapping.
 */
module ServerSend {
  import opened ClientReceive

  datatype Item = Item(sequence: nat, packet: Packet)

  // RUDPFlowController
  datatype Flow = Flow(cwnd: nat, lastReply: nat, inRecovery: bool)

  const INITIAL_CWND: nat := 4
  const MAX_CWND: nat := 250
  const GAP_THRESHOLD: nat := 5

  function Max(a: int, b: int): int { if a >= b then a else b }

  predicate CanSend(flow: Flow, s: nat) {
    Max(s - flow.lastReply - 1, 0) < flow.cwnd
  }

  function Congested(flow: Flow): Flow {
    flow.(cwnd := Max(flow.cwnd / 2, 1), inRecovery := true)
  }

  function OnReplyReceived(flow: Flow, s: nat): Flow {
    if s <= flow.lastReply then flow
    else
      var seen := (if s - flow.lastReply - 1 >= GAP_THRESHOLD then Congested(flow) else flow).(lastReply := s);
      if seen.inRecovery then seen.(inRecovery := false)
      else seen.(cwnd := if seen.cwnd + 1 <= MAX_CWND then seen.cwnd + 1 else MAX_CWND)
  }

  datatype Sender = Sender(
    sent: seq<Packet>,          // history: sent[s - 1] was numbered s; its length is lastSendPacketSequence
    pending: seq<Item>,         // pendingPacketQueue
    unacked: map<nat, Packet>,  // sendPacketInfoMap
    flow: Flow)

  // Number a new packet.
  function Assign(st: Sender, p: Packet): Sender {
    st.(sent := st.sent + [p])
  }

  predicate MustQueue(st: Sender, s: nat) {
    st.pending != [] || !CanSend(st.flow, s)
  }

  // InsertSendPacketInfo
  function Register(st: Sender, item: Item): Sender {
    if item.sequence in st.unacked then st else st.(unacked := st.unacked[item.sequence := item.packet])
  }

  predicate Awaited(st: Sender, s: nat) {
    s <= |st.sent| && s in st.unacked
  }

  // An acknowledgement that is awaited.
  function Acknowledge(st: Sender, s: nat): Sender {
    st.(unacked := st.unacked - {s}, flow := OnReplyReceived(st.flow, s))
  }

  predicate CanFlush(st: Sender) {
    st.pending != [] && CanSend(st.flow, st.pending[0].sequence)
  }

  // How many packets one TryFlushPendingQueue takes off the pending queue.
  function FlushCount(flow: Flow, pending: seq<Item>): (n: nat)
    ensures n <= |pending|
    ensures forall i :: 0 <= i < n ==> CanSend(flow, pending[i].sequence)
    ensures n < |pending| ==> !CanSend(flow, pending[n].sequence)
  {
    if pending == [] || !CanSend(flow, pending[0].sequence) then 0 else 1 + FlushCount(flow, pending[1..])
  }

  function RegisterAll(st: Sender, items: seq<Item>): (r: Sender)
    ensures r == st.(unacked := r.unacked)
    decreases |items|
  {
    if items == [] then st else RegisterAll(Register(st, items[0]), items[1..])
  }

  // What SendPacket does to the sender when every allocation succeeds and the queue has room.
  function AfterSend(st: Sender, p: Packet): Sender {
    var numbered := Assign(st, p);
    var item := Item(|numbered.sent|, p);
    if MustQueue(numbered, item.sequence) then numbered.(pending := numbered.pending + [item])
    else Register(numbered, item)
  }

  // What a flush does when every allocation succeeds.
  function Flushed(st: Sender): Sender {
    var n := FlushCount(st.flow, st.pending);
    RegisterAll(st.(pending := st.pending[n..]), st.pending[..n])
  }

  function AllocatedPrefix(allocates: seq<bool>): (n: nat)
    ensures n <= |allocates|
    ensures forall i :: 0 <= i < n ==> allocates[i]
    ensures n < |allocates| ==> !allocates[n]
  {
    if allocates == [] || !allocates[0] then 0 else 1 + AllocatedPrefix(allocates[1..])
  }

  // How many packets a flush registers, given which allocations succeed; a failure ends it.
  function FlushedCount(st: Sender, allocates: seq<bool>): (m: nat)
    requires |allocates| >= |st.pending|
    ensures m <= FlushCount(st.flow, st.pending)
  {
    AllocatedPrefix(allocates[..FlushCount(st.flow, st.pending)])
  }

  // What is left of the packets taken off the queue after a failure is dropped.
  function FlushedWith(st: Sender, allocates: seq<bool>): Sender
    requires |allocates| >= |st.pending|
  {
    RegisterAll(st.(pending := st.pending[FlushCount(st.flow, st.pending)..]),
                st.pending[..FlushedCount(st, allocates)])
  }

  predicate FlushFails(st: Sender, allocates: seq<bool>)
    requires |allocates| >= |st.pending|
  {
    FlushedCount(st, allocates) < FlushCount(st.flow, st.pending)
  }

  lemma FlushedWithAll(st: Sender, allocates: seq<bool>)
    requires |allocates| >= |st.pending| && forall i :: 0 <= i < |allocates| ==> allocates[i]
    ensures FlushedWith(st, allocates) == Flushed(st) && !FlushFails(st, allocates)
  {
  }

  lemma {:induction false} RegisterAllHolds(st: Sender, items: seq<Item>)
    ensures forall s :: s in RegisterAll(st, items).unacked <==>
                        s in st.unacked || exists item :: item in items && item.sequence == s
    ensures forall s :: s in st.unacked ==> RegisterAll(st, items).unacked[s] == st.unacked[s]
    decreases |items|
  {
    if items != [] {
      var next := Register(st, items[0]);
      RegisterAllHolds(next, items[1..]);
      assert items == [items[0]] + items[1..];
      forall s ensures s in RegisterAll(st, items).unacked <==>
                       s in st.unacked || exists item :: item in items && item.sequence == s
      {
        assert s in RegisterAll(next, items[1..]).unacked <==>
               s in next.unacked || exists item :: item in items[1..] && item.sequence == s;
        if s == items[0].sequence { assert items[0] in items; }
        if item :| item in items && item.sequence == s { assert item == items[0] || item in items[1..]; }
      }
    }
  }

  // A flush takes the longest admitted prefix of the pending queue. Those before the first failed
  // allocation are in the map afterwards, the rest of it is lost, and nothing else moves.
  lemma FlushMoves(st: Sender, allocates: seq<bool>)
    requires |allocates| >= |st.pending|
    ensures var n, m, after := FlushCount(st.flow, st.pending), FlushedCount(st, allocates), FlushedWith(st, allocates);
            && m <= n <= |st.pending| && after.pending == st.pending[n..] && after.flow == st.flow
            && (forall i :: 0 <= i < n ==> CanSend(st.flow, st.pending[i].sequence))
            && (n < |st.pending| ==> !CanSend(st.flow, st.pending[n].sequence))
            && (forall i :: 0 <= i < m ==> allocates[i]) && (m < n ==> !allocates[m])
            && (forall i :: 0 <= i < m ==> st.pending[i].sequence in after.unacked)
            && (forall s :: s in after.unacked ==>
                 s in st.unacked || exists i :: 0 <= i < m && st.pending[i].sequence == s)
            && (forall s :: s in st.unacked ==> s in after.unacked && after.unacked[s] == st.unacked[s])
  {
    hide CanSend, RegisterAll;
    var n, m := FlushCount(st.flow, st.pending), FlushedCount(st, allocates);
    var after, taken := FlushedWith(st, allocates), st.pending[..m];
    assert forall i :: 0 <= i < n ==> allocates[..n][i] == allocates[i];
    RegisterAllHolds(st.(pending := st.pending[n..]), taken);
    forall i | 0 <= i < m ensures st.pending[i].sequence in after.unacked {
      assert taken[i] in taken;
    }
    forall s | s in after.unacked && s !in st.unacked ensures exists i :: 0 <= i < m && st.pending[i].sequence == s {
      var item :| item in taken && item.sequence == s;
      var i :| 0 <= i < |taken| && taken[i] == item;
      assert st.pending[i].sequence == s;
    }
  }

  // The methods as one thread runs them. `allocates` tells which SendPacketInfo allocations succeed.
  class RUDPSessionSender {
    ghost var sent: seq<Packet>
    var lastSendPacketSequence: nat
    var pendingPacketQueue: seq<Item>
    const pendingQueueCapacity: nat
    var sendPacketInfoMap: map<nat, Packet>
    var flow: Flow
    var disconnected: bool

    ghost predicate Valid()
      reads this
    {
      lastSendPacketSequence == |sent|
    }

    ghost function View(): Sender
      reads this
    {
      Sender(sent, pendingPacketQueue, sendPacketInfoMap, flow)
    }

    constructor (capacity: nat)
      ensures Valid() && View() == Sender([], [], map[], Flow(INITIAL_CWND, 0, false)) && !disconnected
      ensures pendingQueueCapacity == capacity
    {
      sent := [];
      lastSendPacketSequence := 0;
      pendingPacketQueue := [];
      pendingQueueCapacity := capacity;
      sendPacketInfoMap := map[];
      flow := Flow(INITIAL_CWND, 0, false);
      disconnected := false;
    }

    method SendPacketImmediate(item: Item, allocates: bool) returns (ok: bool)
      requires Valid()
      modifies this`sendPacketInfoMap
      ensures Valid() && ok == allocates
      ensures View() == if allocates then Register(old(View()), item) else old(View())
    {
      if !allocates { return false; }
      if item.sequence !in sendPacketInfoMap {
        sendPacketInfoMap := sendPacketInfoMap[item.sequence := item.packet];
      }
      return true;
    }

    // Both SendPacket overloads, for a data packet; whether the session is connected and a buffer can be
    // allocated is up to the caller's parameters. A packet that cannot go disconnects a connected session.
    method SendPacket(packet: Packet, connected: bool, buffered: bool, allocates: bool) returns (ok: bool)
      requires Valid()
      modifies this
      ensures Valid()
      ensures !connected || !buffered ==> !ok && View() == old(View())
      ensures connected && buffered ==>
              var numbered := Assign(old(View()), packet);
              && ok == (if MustQueue(numbered, |numbered.sent|) then |numbered.pending| < pendingQueueCapacity
                        else allocates)
              && View() == if ok then AfterSend(old(View()), packet) else numbered
      ensures disconnected == (old(disconnected) || (connected && !ok))
    {
      if !connected { return false; }
      if !buffered {
        disconnected := true;
        return false;
      }
      lastSendPacketSequence := lastSendPacketSequence + 1;
      sent := sent + [packet];
      var item := Item(lastSendPacketSequence, packet);
      if pendingPacketQueue != [] || !CanSend(flow, item.sequence) {
        ok := |pendingPacketQueue| < pendingQueueCapacity;
        if ok { pendingPacketQueue := pendingPacketQueue + [item]; }
      } else {
        ok := SendPacketImmediate(item, allocates);
      }
      if !ok { disconnected := true; }
    }

    // The part of TryFlushPendingQueue under the pending queue's lock.
    method TakeSendable() returns (sendBuffers: seq<Item>)
      requires Valid()
      modifies this`pendingPacketQueue
      ensures var n := FlushCount(flow, old(pendingPacketQueue));
              sendBuffers == old(pendingPacketQueue)[..n] && pendingPacketQueue == old(pendingPacketQueue)[n..]
    {
      ghost var was, i := pendingPacketQueue, 0;
      sendBuffers := [];
      while pendingPacketQueue != []
        invariant 0 <= i <= |was|
        invariant sendBuffers == was[..i] && pendingPacketQueue == was[i..]
        invariant FlushCount(flow, was) == i + FlushCount(flow, was[i..])
        decreases |pendingPacketQueue|
      {
        hide CanSend;
        if !CanSend(flow, pendingPacketQueue[0].sequence) { break; }
        sendBuffers := sendBuffers + [pendingPacketQueue[0]];
        pendingPacketQueue := pendingPacketQueue[1..];
        assert was[i..][1..] == was[i + 1..];
        i := i + 1;
      }
      assert FlushCount(flow, was[i..]) == 0;
    }

    // The first allocation that fails ends the flush and the session; what is left is dropped.
    method TryFlushPendingQueue(allocates: seq<bool>)
      requires Valid() && |allocates| >= |pendingPacketQueue|
      modifies this
      ensures Valid()
      ensures View() == FlushedWith(old(View()), allocates)
      ensures disconnected == (old(disconnected) || FlushFails(old(View()), allocates))
    {
      var sendBuffers := TakeSendable();
      ghost var taken := View();
      ghost var n := |sendBuffers|;
      ghost var m := AllocatedPrefix(allocates[..n]);
      assert RegisterAll(taken, []) == taken;
      hide RegisterAll, FlushCount, Register, CanSend, AllocatedPrefix;
      assert sendBuffers[..m] == old(pendingPacketQueue)[..m];
      var bufferIndex := 0;
      while bufferIndex < |sendBuffers|
        invariant 0 <= bufferIndex <= m <= n
        invariant Valid() && View() == RegisterAll(taken, sendBuffers[..bufferIndex])
        invariant disconnected == old(disconnected)
      {
        AllocatedAt(allocates, n, bufferIndex);
        RegisterNext(taken, sendBuffers, bufferIndex);
        var ok := SendPacketImmediate(sendBuffers[bufferIndex], allocates[bufferIndex]);
        if !ok {
          disconnected := true;
          return;
        }
        bufferIndex := bufferIndex + 1;
      }
    }

    method OnSendReply(packetSequence: nat, allocates: seq<bool>)
      requires Valid() && |allocates| >= |pendingPacketQueue|
      modifies this
      ensures Valid()
      ensures !Awaited(old(View()), packetSequence) ==> View() == old(View()) && disconnected == old(disconnected)
      ensures Awaited(old(View()), packetSequence) ==>
                var acknowledged := Acknowledge(old(View()), packetSequence);
                && View() == FlushedWith(acknowledged, allocates)
                && disconnected == (old(disconnected) || FlushFails(acknowledged, allocates))
    {
      if lastSendPacketSequence < packetSequence { return; }
      if packetSequence !in sendPacketInfoMap { return; }
      sendPacketInfoMap := sendPacketInfoMap - {packetSequence};
      flow := OnReplyReceived(flow, packetSequence);
      TryFlushPendingQueue(allocates);
    }
  }

  lemma {:induction false} RegisterAllAppend(st: Sender, items: seq<Item>, item: Item)
    ensures RegisterAll(st, items + [item]) == Register(RegisterAll(st, items), item)
    decreases |items|
  {
    if items == [] {
      assert [item][1..] == [];
    } else {
      assert (items + [item])[1..] == items[1..] + [item];
      RegisterAllAppend(Register(st, items[0]), items[1..], item);
    }
  }

  lemma RegisterNext(st: Sender, items: seq<Item>, i: nat)
    requires i < |items|
    ensures RegisterAll(st, items[..i + 1]) == Register(RegisterAll(st, items[..i]), items[i])
  {
    assert items[..i + 1] == items[..i] + [items[i]];
    RegisterAllAppend(st, items[..i], items[i]);
  }

  lemma AllocatedAt(allocates: seq<bool>, n: nat, i: nat)
    requires n <= |allocates| && i < n && i <= AllocatedPrefix(allocates[..n])
    ensures allocates[i] <==> i < AllocatedPrefix(allocates[..n])
  {
    assert allocates[..n][i] == allocates[i];
  }
}
