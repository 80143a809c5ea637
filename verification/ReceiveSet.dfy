/**
 The whole receive path of a session over any run of arrivals: which packets are kept until their
 turn comes, and which acknowledgements go out.
 */
module ReceiveSet {
  import opened Common
  import opened Sequences
  import opened ReceiveWindow
  import opened ReceivePath
  import opened ReceiveLockstep
  import opened OrdererSet

  // --- What is kept ---

  // The position an arrival stands for, counted from the start of the session.
  function PositionOf(st: Intake, s: Sequence): int {
    |st.calls| + Distance(s, st.next)
  }

  // The first payload to arrive for each position, of those inside the window when they arrived: less
  // than its size ahead of what had been delivered.
  function Kept(st: Intake, accepted: Accepted, arrivals: seq<Arrival>, size: nat, handler: Handler): Accepted
    decreases |arrivals|
  {
    if arrivals == [] then accepted
    else
      var s, p, n := arrivals[0].sequence, arrivals[0].payload, |st.calls|;
      var q := PositionOf(st, s);
      var more := if n <= q < n + size && q !in accepted then accepted[q := p] else accepted;
      Kept(OnRecvPacket(st, s, p, handler).state, more, arrivals[1..], size, handler)
  }

  ghost predicate InTurn(st: Intake, accepted: Accepted, start: Sequence, size: nat) {
    && Settled(st, start) && FullyAdvertised(st) && |st.flags| == size
    && (AllHandled(st.calls) ==> Tracks(st, accepted, start) && |st.calls| !in accepted)
  }

  lemma {:induction false} PrefixHandled(calls: seq<Call>, more: seq<Call>)
    requires calls <= more && AllHandled(more)
    ensures AllHandled(calls)
  {
    var f := FirstFailure(calls);
    assert forall i :: 0 <= i < |calls| ==> calls[i] == more[i];
  }

  lemma ArrivalInTurn(st: Intake, accepted: Accepted, start: Sequence, size: nat, a: Arrival, handler: Handler)
    requires InTurn(st, accepted, start, size)
    ensures var n, q := |st.calls|, PositionOf(st, a.sequence);
            var more := if n <= q < n + size && q !in accepted then accepted[q := a.payload] else accepted;
            InTurn(OnRecvPacket(st, a.sequence, a.payload, handler).state, more, start, size)
  {
    hide InStep, Tracks, ProcessAndAdvance, ProcessHoldingPacket, Distance;
    var s, p := a.sequence, a.payload;
    var r := OnRecvPacket(st, s, p, handler);
    ReceiveKeeps(st, start, s, p, handler);
    if AllHandled(r.state.calls) {
      PrefixHandled(st.calls, r.state.calls);
      Aligned(st, start);
      if Distance(s, st.next) < 0 {
        ReplyTracks(st, accepted, start, s);
      } else if Distance(s, st.next) < size {
        ReceiveTracks(st, accepted, start, s, p, size, handler);
      }
    }
  }

  lemma ReplyTracks(st: Intake, accepted: Accepted, start: Sequence, s: Sequence)
    requires Tracks(st, accepted, start)
    ensures Tracks(SendReply(st, s), accepted, start)
  {
    hide Delivered, Advance, Distance;
    var after := SendReply(st, s);
    forall q: nat {:trigger HeldAhead(after, accepted, start, q)} | q in accepted && q >= |st.calls|
      ensures HeldAhead(after, accepted, start, q)
    {
      assert HeldAhead(st, accepted, start, q);
    }
    forall k {:trigger KeyAccepted(after, accepted, |st.calls|, k)} | k in st.held
      ensures KeyAccepted(after, accepted, |st.calls|, k)
    {
      assert KeyAccepted(st, accepted, |st.calls|, k);
    }
  }

  // Until a handler fails the window starts at the next expected sequence.
  lemma Aligned(st: Intake, start: Sequence)
    requires InStep(st, start) && AllHandled(st.calls)
    ensures st.windowStart == st.next
  {
    LagIs(st, start);
    DistanceZero(st.next, st.windowStart);
  }

  lemma {:induction false} RunInTurn(st: Intake, accepted: Accepted, start: Sequence, size: nat, arrivals: seq<Arrival>,
        handler: Handler)
    requires InTurn(st, accepted, start, size)
    ensures InTurn(AfterAll(st, arrivals, handler), Kept(st, accepted, arrivals, size, handler), start, size)
    decreases |arrivals|
  {
    hide InTurn, OnRecvPacket, PositionOf;
    if arrivals != [] {
      var s, p, n := arrivals[0].sequence, arrivals[0].payload, |st.calls|;
      var q := PositionOf(st, s);
      ArrivalInTurn(st, accepted, start, size, arrivals[0], handler);
      var more := if n <= q < n + size && q !in accepted then accepted[q := p] else accepted;
      RunInTurn(OnRecvPacket(st, s, p, handler).state, more, start, size, arrivals[1..], handler);
    }
  }

  // While no handler fails, the handlers have run on exactly the contiguous block of positions that
  // arrived inside the window, each with the first payload to arrive, up to the first that did not;
  // and exactly the arrivals beyond it are held.
  lemma HandlesContiguousBlock(start: Sequence, size: nat, arrivals: seq<Arrival>, handler: Handler)
    requires size < 256 && AllHandled(AfterAll(Started(start, size), arrivals, handler).calls)
    ensures var end := AfterAll(Started(start, size), arrivals, handler);
            var kept := Kept(Started(start, size), map[], arrivals, size, handler);
            && |end.calls| !in kept
            && Delivered(end.calls, kept, start)
            && Holds(end, kept, start, |end.calls| + 1)
  {
    hide AfterAll, Kept, Delivered, InStep, Distance, Advance, HeldAhead;
    var end := AfterAll(Started(start, size), arrivals, handler);
    var kept := Kept(Started(start, size), map[], arrivals, size, handler);
    StartedSettled(start, size);
    FreshTracks(start, size);
    RunInTurn(Started(start, size), map[], start, size, arrivals, handler);
    forall k {:trigger KeyAccepted(end, kept, |end.calls| + 1, k)} | k in end.held
      ensures KeyAccepted(end, kept, |end.calls| + 1, k)
    {
      assert KeyAccepted(end, kept, |end.calls|, k);
    }
  }

  // In every reachable state, failures or not, an accepted packet that is not due is held with the
  // first payload to arrive, and nothing else changes.
  lemma AcceptedIsHeld(start: Sequence, size: nat, arrivals: seq<Arrival>, handler: Handler, s: Sequence, p: Payload)
    requires size < 256
    requires var st := AfterAll(Started(start, size), arrivals, handler);
             Accepts(st.windowStart, size, s) && Distance(s, st.next) > 0
    ensures var st := AfterAll(Started(start, size), arrivals, handler);
            OnRecvPacket(st, s, p, handler) == Outcome(if s in st.held then st else st.(held := st.held[s := p]), true)
  {
    hide InStep, FullyAdvertised, ProcessAndAdvance, ProcessHoldingPacket, FirstFailure, AfterAll;
    var st := AfterAll(Started(start, size), arrivals, handler);
    StartedSettled(start, size);
    RunKeeps(Started(start, size), start, arrivals, handler);
    if s !in st.held { NeverFull(st, start, s); }
  }

  // --- What is acknowledged ---

  function HandledFrom(calls: seq<Call>, f: nat): nat
    decreases |calls| - f
  {
    if f >= |calls| then 0 else (if calls[f].handled then 1 else 0) + HandledFrom(calls, f + 1)
  }

  // Arrivals of packets whose turn has been.
  function OldArrivals(st: Intake, arrivals: seq<Arrival>, handler: Handler): nat
    decreases |arrivals|
  {
    if arrivals == [] then 0
    else
      var s, p := arrivals[0].sequence, arrivals[0].payload;
      (if Distance(s, st.next) < 0 then 1 else 0)
      + OldArrivals(OnRecvPacket(st, s, p, handler).state, arrivals[1..], handler)
  }

  predicate IsAnswered(st: Intake, i: nat)
    requires i < |st.calls|
  {
    exists r :: r in st.replies && r.position == i && r.sequence == st.calls[i].sequence
  }

  // What the window had left when the first n handlers had run: the successes past the first failure
  // are the ones it still counts.
  predicate AdvertisedAt(r: Reply, calls: seq<Call>, size: nat, n: nat) {
    r.position < n <= |calls| && r.advertised == size - HandledFrom(calls[..n], FirstFailure(calls[..n]))
  }

  // Each success has its acknowledgement, `repeats` of them are repeated, and each advertises what the
  // window had left.
  ghost predicate Acks(st: Intake, size: nat, repeats: nat) {
    && |st.replies| == HandledFrom(st.calls, 0) + repeats
    && (forall i: nat :: i < |st.calls| && st.calls[i].handled ==> IsAnswered(st, i))
    && (forall r :: r in st.replies ==> exists n: nat :: AdvertisedAt(r, st.calls, size, n))
  }

  lemma {:induction false} HandledAppend(calls: seq<Call>, c: Call, f: nat)
    requires f <= |calls|
    ensures HandledFrom(calls + [c], f) == HandledFrom(calls, f) + if c.handled then 1 else 0
    decreases |calls| - f
  {
    if f < |calls| { HandledAppend(calls, c, f + 1); }
  }

  lemma {:induction false} CountFrom(st: Intake, start: Sequence, i: nat)
    requires WindowMatches(st, start) && i <= |st.flags|
    ensures Count(st.flags[i..]) == HandledFrom(st.calls, FirstFailure(st.calls) + i)
    decreases |st.flags| - i
  {
    hide FirstFailure, Distance;
    if i < |st.flags| {
      CountFrom(st, start, i + 1);
      assert st.flags[i..][1..] == st.flags[i + 1..] && st.flags[i] == FlagAt(st.calls, i);
    }
  }

  lemma CountIs(st: Intake, start: Sequence)
    requires WindowMatches(st, start)
    ensures Count(st.flags) == HandledFrom(st.calls, FirstFailure(st.calls))
  {
    CountFrom(st, start, 0);
    assert st.flags[0..] == st.flags;
  }

  // One more reply, by the window as it is afterwards.
  lemma ReplyAcks(st: Intake, after: Intake, start: Sequence, size: nat, repeats: nat, r: Reply)
    requires Acks(st, size, repeats) && WindowMatches(after, start) && |after.flags| == size
    requires st.calls <= after.calls && after.replies == st.replies + [r] && r.position < |after.calls|
    requires r.advertised == size - Count(after.flags)
    ensures forall x :: x in after.replies ==> exists n: nat :: AdvertisedAt(x, after.calls, size, n)
    ensures forall i: nat :: i < |st.calls| && st.calls[i].handled ==> IsAnswered(after, i)
    ensures r in after.replies
  {
    hide FirstFailure;
    forall x | x in after.replies ensures exists n: nat :: AdvertisedAt(x, after.calls, size, n) {
      if x in st.replies {
        var n: nat :| AdvertisedAt(x, st.calls, size, n);
        assert after.calls[..n] == st.calls[..n];
        assert AdvertisedAt(x, after.calls, size, n);
      } else {
        CountIs(after, start);
        assert after.calls[..|after.calls|] == after.calls;
        assert AdvertisedAt(x, after.calls, size, |after.calls|);
      }
    }
    forall i: nat | i < |st.calls| && st.calls[i].handled ensures IsAnswered(after, i) {
      assert IsAnswered(st, i);
      var x :| x in st.replies && x.position == i && x.sequence == st.calls[i].sequence;
      assert x in after.replies;
    }
  }

  lemma OldAcks(st: Intake, start: Sequence, size: nat, repeats: nat, s: Sequence)
    requires Acks(st, size, repeats) && WindowMatches(st, start) && |st.flags| == size && Distance(s, st.next) < 0
    ensures Acks(SendReply(st, s), size, repeats + 1)
  {
    hide FirstFailure, Distance;
    var after := SendReply(st, s);
    ReplyAcks(st, after, start, size, repeats, after.replies[|st.replies|]);
  }

  lemma ProcessAcks(st: Intake, start: Sequence, size: nat, repeats: nat, p: Payload, handler: Handler)
    requires Acks(st, size, repeats) && InStep(st, start) && |st.flags| == size
    requires |st.calls| - FirstFailure(st.calls) < size && (AllHandled(st.calls) ==> st.next !in st.held)
    ensures Acks(ProcessAndAdvance(st, st.next, p, handler).state, size, repeats)
  {
    ProcessKeeps(st, start, p, handler);
    hide Mark, FirstFailure, Count;
    var ok := handler(st.calls, p);
    var after := ProcessAndAdvance(st, st.next, p, handler).state;
    HandledAppend(st.calls, Call(st.next, p, ok), 0);
    if ok {
      DistanceZero(st.next, st.next);
      DistanceNext(st.next, st.next);
      var r := after.replies[|st.replies|];
      assert after.replies == st.replies + [r] && r.position == |st.calls| && r.sequence == st.next;
      ReplyAcks(st, after, start, size, repeats, r);
      assert IsAnswered(after, |st.calls|);
    } else {
      MoreCalls(st, after, size);
    }
  }

  lemma MoreCalls(st: Intake, after: Intake, size: nat)
    requires after.replies == st.replies && st.calls <= after.calls
    ensures forall i: nat :: i < |st.calls| && IsAnswered(st, i) ==> IsAnswered(after, i)
    ensures forall r, n: nat :: AdvertisedAt(r, st.calls, size, n) ==> AdvertisedAt(r, after.calls, size, n)
  {
    forall r: Reply, n: nat | AdvertisedAt(r, st.calls, size, n) ensures AdvertisedAt(r, after.calls, size, n) {
      assert after.calls[..n] == st.calls[..n];
    }
  }

  lemma {:induction false} DrainAcks(st: Intake, start: Sequence, size: nat, repeats: nat, handler: Handler)
    requires Acks(st, size, repeats) && InStep(st, start) && FullyAdvertised(st) && |st.flags| == size
    ensures Acks(ProcessHoldingPacket(st, handler).state, size, repeats)
    decreases |st.held|
  {
    hide InStep, FullyAdvertised, ProcessAndAdvance, FirstFailure, HandledFrom, IsAnswered, AdvertisedAt;
    if st.next in st.held {
      TakeKeeps(st, start);
      var taken := st.(held := st.held - {st.next});
      SameAcks(st, taken, size, repeats);
      hide Acks;
      OneKeeps(taken, start, st.held[st.next], handler);
      ProcessAcks(taken, start, size, repeats, st.held[st.next], handler);
      var step := ProcessAndAdvance(taken, st.next, st.held[st.next], handler);
      if step.ok { DrainAcks(step.state, start, size, repeats, handler); }
    }
  }

  lemma SameAcks(st: Intake, after: Intake, size: nat, repeats: nat)
    requires Acks(st, size, repeats) && after.calls == st.calls && after.replies == st.replies
    ensures Acks(after, size, repeats)
  {
    hide HandledFrom, AdvertisedAt;
    forall i: nat | i < |st.calls| && st.calls[i].handled ensures IsAnswered(after, i) { assert IsAnswered(st, i); }
  }

  lemma ReceiveAcks(st: Intake, start: Sequence, size: nat, repeats: nat, s: Sequence, p: Payload, handler: Handler)
    requires Acks(st, size, repeats) && Settled(st, start) && FullyAdvertised(st) && |st.flags| == size
    ensures Acks(OnRecvPacket(st, s, p, handler).state, size, repeats + if Distance(s, st.next) < 0 then 1 else 0)
  {
    hide Acks, InStep, FullyAdvertised, ProcessAndAdvance, ProcessHoldingPacket, FirstFailure;
    if Distance(s, st.next) < 0 {
      assert WindowMatches(st, start) by { SettledMatches(st, start); }
      OldAcks(st, start, size, repeats, s);
    } else if Accepts(st.windowStart, size, s) {
      DistanceZero(s, st.next);
      if s == st.next {
        DueAcks(st, start, size, repeats, p, handler);
      } else if s !in st.held {
        SameAcks(st, st.(held := st.held[s := p]), size, repeats);
      }
    }
  }

  lemma SettledMatches(st: Intake, start: Sequence)
    requires Settled(st, start)
    ensures WindowMatches(st, start)
  {
  }

  lemma DueAcks(st: Intake, start: Sequence, size: nat, repeats: nat, p: Payload, handler: Handler)
    requires Acks(st, size, repeats) && Settled(st, start) && FullyAdvertised(st) && |st.flags| == size
    requires Accepts(st.windowStart, size, st.next)
    ensures Acks(OnReceive(st, st.next, p, size, handler).state, size, repeats)
  {
    hide Acks, FirstFailure, ProcessAndAdvance, ProcessHoldingPacket;
    LagIs(st, start);
    DistanceZero(st.next, st.next);
    OneKeeps(st, start, p, handler);
    ProcessAcks(st, start, size, repeats, p, handler);
    var first := ProcessAndAdvance(st, st.next, p, handler);
    if first.ok { DrainAcks(first.state, start, size, repeats, handler); }
  }

  lemma {:induction false} RunAcks(st: Intake, start: Sequence, size: nat, repeats: nat, arrivals: seq<Arrival>,
        handler: Handler)
    requires Acks(st, size, repeats) && Settled(st, start) && FullyAdvertised(st) && |st.flags| == size
    ensures Acks(AfterAll(st, arrivals, handler), size, repeats + OldArrivals(st, arrivals, handler))
    decreases |arrivals|
  {
    hide Acks, Settled, FullyAdvertised, OnRecvPacket, Distance;
    if arrivals != [] {
      var s, p := arrivals[0].sequence, arrivals[0].payload;
      ReceiveKeeps(st, start, s, p, handler);
      ReceiveAcks(st, start, size, repeats, s, p, handler);
      RunAcks(OnRecvPacket(st, s, p, handler).state, start, size, repeats + if Distance(s, st.next) < 0 then 1 else 0,
              arrivals[1..], handler);
    }
  }

  // Over every run, failures or not: each handler that succeeded has been acknowledged under its
  // sequence; besides that exactly the old arrivals were answered; and each acknowledgement
  // advertises what the window had left then.
  lemma AcknowledgesExactly(start: Sequence, size: nat, arrivals: seq<Arrival>, handler: Handler)
    requires size < 256
    ensures var end := AfterAll(Started(start, size), arrivals, handler);
            && |end.replies| == HandledFrom(end.calls, 0) + OldArrivals(Started(start, size), arrivals, handler)
            && (forall i: nat :: i < |end.calls| && end.calls[i].handled ==> IsAnswered(end, i))
            && (forall r :: r in end.replies ==> exists n: nat :: AdvertisedAt(r, end.calls, size, n))
  {
    hide AfterAll, OldArrivals, Settled, FullyAdvertised, IsAnswered, AdvertisedAt, HandledFrom;
    StartedSettled(start, size);
    NothingYet(start, size);
    RunAcks(Started(start, size), start, size, 0, arrivals, handler);
  }

  lemma NothingYet(start: Sequence, size: nat)
    ensures Acks(Started(start, size), size, 0)
  {
  }
}
