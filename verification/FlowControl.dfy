/** RUDPFlowController's congestion window over runs of replies and timeouts. */
module FlowControl {
  import opened ServerSend

  datatype Event = Reply(sequence: nat) | TimedOut

  function OnEvent(flow: Flow, event: Event): Flow {
    match event
    case Reply(s) => OnReplyReceived(flow, s)
    case TimedOut => Congested(flow)
  }

  function After(flow: Flow, events: seq<Event>): Flow
    decreases |events|
  {
    if events == [] then flow else After(OnEvent(flow, events[0]), events[1..])
  }

  lemma {:induction false} AfterJoined(flow: Flow, first: seq<Event>, second: seq<Event>)
    ensures After(flow, first + second) == After(After(flow, first), second)
    decreases |first|
  {
    if first == [] {
      assert first + second == second;
    } else {
      assert (first + second)[1..] == first[1..] + second;
      AfterJoined(OnEvent(flow, first[0]), first[1..], second);
    }
  }

  // The window admits a sequence when it is within cwnd of the highest reply.
  lemma AdmitsExactly(flow: Flow, s: nat)
    requires flow.cwnd >= 1
    ensures CanSend(flow, s) <==> s <= flow.lastReply + flow.cwnd
  {
  }

  function Highest(from: nat, events: seq<Event>): nat
    decreases |events|
  {
    if events == [] then from
    else Highest(if events[0].Reply? && events[0].sequence > from then events[0].sequence else from, events[1..])
  }

  // Whatever happens the window stays between 1 and MAX_CWND, so its 8 bits do not wrap, and it is
  // measured from the highest reply.
  lemma {:induction false} WindowRange(flow: Flow, events: seq<Event>)
    requires 1 <= flow.cwnd <= MAX_CWND
    ensures 1 <= After(flow, events).cwnd <= MAX_CWND
    ensures After(flow, events).lastReply == Highest(flow.lastReply, events)
    decreases |events|
  {
    if events != [] { WindowRange(OnEvent(flow, events[0]), events[1..]); }
  }

  // Replies to sequences already covered change nothing.
  lemma {:induction false} OldRepliesIgnored(flow: Flow, events: seq<Event>)
    requires forall e :: e in events ==> e.Reply? && e.sequence <= flow.lastReply
    ensures After(flow, events) == flow
    decreases |events|
  {
    if events != [] {
      assert events[0] in events;
      OldRepliesIgnored(flow, events[1..]);
    }
  }

  // Each reply is ahead of the one before, by no more than GAP_THRESHOLD.
  predicate Steady(from: nat, replies: seq<nat>)
    decreases |replies|
  {
    replies == [] || (from < replies[0] <= from + GAP_THRESHOLD && Steady(replies[0], replies[1..]))
  }

  function Replies(replies: seq<nat>): seq<Event> {
    seq(|replies|, i requires 0 <= i < |replies| => Reply(replies[i]))
  }

  function Timeouts(k: nat): seq<Event> {
    seq(k, _ => TimedOut)
  }

  // Replies without a gap open the window by one each, but for the one that ends a recovery.
  lemma {:induction false} GrowsByOne(flow: Flow, replies: seq<nat>)
    requires 1 <= flow.cwnd <= MAX_CWND && replies != [] && Steady(flow.lastReply, replies)
    ensures var counted := if flow.inRecovery then |replies| - 1 else |replies|;
            After(flow, Replies(replies))
            == Flow(if flow.cwnd + counted <= MAX_CWND then flow.cwnd + counted else MAX_CWND,
                    replies[|replies| - 1], false)
    decreases |replies|
  {
    var events := Replies(replies);
    var next := OnReplyReceived(flow, replies[0]);
    assert events[1..] == Replies(replies[1..]);
    if |replies| == 1 {
      assert Replies(replies[1..]) == [];
    } else {
      GrowsByOne(next, replies[1..]);
    }
  }

  function Halved(w: nat, k: nat): nat {
    if k == 0 then w else Halved(w, k - 1) / 2
  }

  lemma {:induction false} HalvedFirst(w: nat, k: nat)
    ensures Halved(w / 2, k) == Halved(w, k + 1)
  {
    if k > 0 { HalvedFirst(w, k - 1); }
  }

  lemma {:induction false} HalvedSmall(k: nat)
    ensures Halved(1, k) <= 1 && Halved(0, k) == 0
  {
    if k > 0 { HalvedSmall(k - 1); }
  }

  // Each timeout halves the window, down to one, and nothing else changes but the recovery flag.
  lemma {:induction false} HalvesPerTimeout(flow: Flow, k: nat)
    requires flow.cwnd >= 1
    ensures After(flow, Timeouts(k))
            == flow.(cwnd := Max(Halved(flow.cwnd, k), 1), inRecovery := flow.inRecovery || k > 0)
    decreases k
  {
    if k > 0 {
      assert Timeouts(k)[1..] == Timeouts(k - 1);
      HalvesPerTimeout(Congested(flow), k - 1);
      HalvedFirst(flow.cwnd, k - 1);
      HalvedSmall(k - 1);
      if flow.cwnd == 1 { HalvedSmall(k); }
    }
  }

  // A sawtooth: k timeouts, then replies without a gap.
  lemma SawTooth(flow: Flow, k: nat, replies: seq<nat>)
    requires 1 <= flow.cwnd <= MAX_CWND && k > 0 && replies != [] && Steady(flow.lastReply, replies)
    ensures var low := Max(Halved(flow.cwnd, k), 1);
            After(flow, Timeouts(k) + Replies(replies)).cwnd
            == if low + |replies| - 1 <= MAX_CWND then low + |replies| - 1 else MAX_CWND
  {
    HalvesPerTimeout(flow, k);
    WindowRange(flow, Timeouts(k));
    AfterJoined(flow, Timeouts(k), Replies(replies));
    GrowsByOne(After(flow, Timeouts(k)), replies);
  }

  // A reply that leaves a gap counts as a congestion of its own: the window is halved, and opens again
  // with the next reply.
  lemma GapHalves(flow: Flow, gap: nat, replies: seq<nat>)
    requires 1 <= flow.cwnd <= MAX_CWND && gap > flow.lastReply + GAP_THRESHOLD
    requires replies != [] && Steady(gap, replies)
    ensures var low := Max(Halved(flow.cwnd, 1), 1);
            After(flow, [Reply(gap)] + Replies(replies))
            == Flow(if low + |replies| <= MAX_CWND then low + |replies| else MAX_CWND, replies[|replies| - 1], false)
  {
    var once := After(flow, [Reply(gap)]);
    AfterJoined(flow, [Reply(gap)], Replies(replies));
    assert [Reply(gap)][1..] == [];
    assert Halved(flow.cwnd, 1) == Halved(flow.cwnd, 0) / 2;
    GrowsByOne(once, replies);
  }
}
