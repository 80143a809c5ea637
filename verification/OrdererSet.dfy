/**
 The orderer refines a set: what it has delivered is the block of consecutive positions at the front
 of the set of positions it has accepted, in whatever order they arrived.
 */
module OrdererSet {
  import opened Common
  import opened Sequences
  import opened ReceivePath
  import opened ReceiveLockstep

  // Positions count from the start sequence without wrapping.
  type Accepted = map<int, Payload>

  // The first payload to arrive for each position not yet delivered.
  function Accept(accepted: Accepted, delivered: nat, position: int, p: Payload): Accepted {
    if position < delivered || position in accepted then accepted else accepted[position := p]
  }

  datatype Run = Run(state: Intake, accepted: Accepted, errorFree: bool)

  // SessionPacketOrderer::OnReceive on each arrival in turn, until one reports an error.
  function Receive(run: Run, arrivals: seq<Arrival>, capacity: nat, handler: Handler): Run
    decreases |arrivals|
  {
    if arrivals == [] || !run.errorFree then run
    else
      var s, p := arrivals[0].sequence, arrivals[0].payload;
      var r := OnReceive(run.state, s, p, capacity, handler);
      var n := |run.state.calls|;
      Receive(Run(r.state, Accept(run.accepted, n, n + Distance(s, run.state.next), p), r.result != ERROR_OCCURED),
              arrivals[1..], capacity, handler)
  }

  // Every position below n has been accepted and delivered in turn, with the payload accepted.
  ghost predicate Delivered(calls: seq<Call>, accepted: Accepted, start: Sequence) {
    forall i :: 0 <= i < |calls| ==> i in accepted && calls[i] == Call(Advance(start, i), accepted[i], true)
  }

  predicate HeldAhead(st: Intake, accepted: Accepted, start: Sequence, q: nat) {
    q in accepted && q - |st.calls| < HALF && Advance(start, q) in st.held && st.held[Advance(start, q)] == accepted[q]
  }

  predicate KeyAccepted(st: Intake, accepted: Accepted, first: nat, k: Sequence) {
    |st.calls| + Distance(k, st.next) >= first && |st.calls| + Distance(k, st.next) in accepted
  }

  // The holding map is the accepted positions from `first` on, all less than 2^63 ahead.
  ghost predicate Holds(st: Intake, accepted: Accepted, start: Sequence, first: nat) {
    && (forall q: nat {:trigger HeldAhead(st, accepted, start, q)} :: q in accepted && q >= first ==>
          HeldAhead(st, accepted, start, q))
    && (forall k {:trigger KeyAccepted(st, accepted, first, k)} :: k in st.held ==> KeyAccepted(st, accepted, first, k))
  }

  ghost predicate Tracks(st: Intake, accepted: Accepted, start: Sequence) {
    && st.next == Advance(start, |st.calls|)
    && Delivered(st.calls, accepted, start)
    && Holds(st, accepted, start, |st.calls|)
    && (forall q :: q in accepted ==> q >= 0)
  }

  lemma AdvanceStep(s: Sequence, n: nat)
    ensures Advance(s, n + 1) == Next(Advance(s, n))
  {
  }

  lemma HeldAt(st: Intake, start: Sequence, q: nat)
    requires st.next == Advance(start, |st.calls|) && |st.calls| <= q < |st.calls| + HALF
    ensures Distance(Advance(start, q), st.next) == q - |st.calls|
  {
    DistanceOfAdvance(start, q, |st.calls|);
  }

  lemma KeyAt(st: Intake, start: Sequence, k: Sequence)
    requires st.next == Advance(start, |st.calls|) && Distance(k, st.next) >= 0
    ensures Advance(start, |st.calls| + Distance(k, st.next)) == k
    ensures Distance(k, st.next) < HALF
  {
    AdvanceOfDistance(start, |st.calls|, k);
  }

  // The next position, held or just arrived, is delivered.
  lemma DeliverNext(st: Intake, accepted: Accepted, start: Sequence, p: Payload, handler: Handler)
    requires st.next == Advance(start, |st.calls|) && Delivered(st.calls, accepted, start)
    requires |st.calls| in accepted && accepted[|st.calls|] == p && st.next !in st.held
    requires Holds(st, accepted, start, |st.calls| + 1) && forall q :: q in accepted ==> q >= 0
    ensures var r := ProcessAndAdvance(st, st.next, p, handler);
            r.ok ==> Tracks(r.state, accepted, start) && r.state.held == st.held
  {
    hide Distance, Advance, ProcessAndAdvance;
    var r := ProcessAndAdvance(st, st.next, p, handler);
    var n := |st.calls|;
    if r.ok {
      AdvanceStep(start, n);
      assert st.held - {st.next} == st.held;
      forall q: nat {:trigger HeldAhead(r.state, accepted, start, q)} | q in accepted && q >= n + 1
        ensures HeldAhead(r.state, accepted, start, q)
      {
        assert HeldAhead(st, accepted, start, q);
      }
      forall k {:trigger KeyAccepted(r.state, accepted, n + 1, k)} | k in st.held
        ensures KeyAccepted(r.state, accepted, n + 1, k)
      {
        assert KeyAccepted(st, accepted, n + 1, k);
        DistanceNext(k, st.next);
      }
    }
  }

  lemma {:induction false} DrainTracks(st: Intake, accepted: Accepted, start: Sequence, handler: Handler)
    requires Tracks(st, accepted, start)
    ensures var r := ProcessHoldingPacket(st, handler);
            r.ok ==> Tracks(r.state, accepted, start) && |r.state.calls| !in accepted
    decreases |st.held|
  {
    hide Delivered, Holds, ProcessAndAdvance, Distance, Advance;
    if st.next in st.held {
      var p := st.held[st.next];
      var taken := st.(held := st.held - {st.next});
      TakenHolds(st, accepted, start);
      DeliverNext(taken, accepted, start, p, handler);
      RemoveShrinks(st.held, st.next);
      var step := ProcessAndAdvance(taken, st.next, p, handler);
      if step.ok { DrainTracks(step.state, accepted, start, handler); }
    } else {
      NextNotAccepted(st, accepted, start);
    }
  }

  lemma NextNotAccepted(st: Intake, accepted: Accepted, start: Sequence)
    requires Tracks(st, accepted, start) && st.next !in st.held
    ensures |st.calls| !in accepted
  {
    hide Delivered, Distance, Advance;
    var due := HeldAhead(st, accepted, start, |st.calls|);
  }

  lemma TakenHolds(st: Intake, accepted: Accepted, start: Sequence)
    requires Tracks(st, accepted, start) && st.next in st.held
    ensures |st.calls| in accepted && accepted[|st.calls|] == st.held[st.next]
    ensures Holds(st.(held := st.held - {st.next}), accepted, start, |st.calls| + 1)
  {
    hide Distance, Advance, Delivered;
    var n := |st.calls|;
    var taken := st.(held := st.held - {st.next});
    DistanceZero(st.next, st.next);
    assert KeyAccepted(st, accepted, n, st.next);
    assert HeldAhead(st, accepted, start, n);
    forall q: nat {:trigger HeldAhead(taken, accepted, start, q)} | q in accepted && q >= n + 1
      ensures HeldAhead(taken, accepted, start, q)
    {
      assert HeldAhead(st, accepted, start, q);
      HeldAt(st, start, q);
    }
    forall k {:trigger KeyAccepted(taken, accepted, n + 1, k)} | k in taken.held
      ensures KeyAccepted(taken, accepted, n + 1, k)
    {
      assert KeyAccepted(st, accepted, n, k);
      DistanceZero(k, st.next);
    }
  }

  lemma NewHolds(st: Intake, accepted: Accepted, start: Sequence, s: Sequence, p: Payload)
    requires Tracks(st, accepted, start) && Distance(s, st.next) > 0
    ensures s in st.held <==> |st.calls| + Distance(s, st.next) in accepted
    ensures s !in st.held ==>
              Tracks(st.(held := st.held[s := p]), accepted[|st.calls| + Distance(s, st.next) := p], start)
  {
    hide Distance, Advance;
    var n := |st.calls|;
    var q0 := n + Distance(s, st.next);
    KeyAt(st, start, s);
    if q0 in accepted { assert HeldAhead(st, accepted, start, q0); }
    if s in st.held {
      assert KeyAccepted(st, accepted, n, s);
    } else {
      var after, more := st.(held := st.held[s := p]), accepted[q0 := p];
      forall q: nat {:trigger HeldAhead(after, more, start, q)} | q in more && q >= n
        ensures HeldAhead(after, more, start, q)
      {
        if q != q0 { assert HeldAhead(st, accepted, start, q); }
      }
      forall k {:trigger KeyAccepted(after, more, n, k)} | k in after.held ensures KeyAccepted(after, more, n, k) {
        if k != s { assert KeyAccepted(st, accepted, n, k); }
      }
    }
  }

  // The position after the delivered block arrives.
  lemma DueHolds(st: Intake, accepted: Accepted, start: Sequence, p: Payload)
    requires Tracks(st, accepted, start) && |st.calls| !in accepted
    ensures var more := accepted[|st.calls| := p];
            Delivered(st.calls, more, start) && Holds(st, more, start, |st.calls| + 1) && st.next !in st.held
  {
    hide Distance, Advance;
    var n := |st.calls|;
    var more := accepted[n := p];
    DistanceZero(st.next, st.next);
    assert st.next in st.held ==> KeyAccepted(st, accepted, n, st.next);
    forall q: nat {:trigger HeldAhead(st, more, start, q)} | q in more && q >= n + 1
      ensures HeldAhead(st, more, start, q)
    {
      assert HeldAhead(st, accepted, start, q);
    }
    forall k {:trigger KeyAccepted(st, more, n + 1, k)} | k in st.held ensures KeyAccepted(st, more, n + 1, k) {
      assert KeyAccepted(st, accepted, n, k);
      DistanceZero(k, st.next);
    }
  }

  lemma ReceiveTracks(st: Intake, accepted: Accepted, start: Sequence, s: Sequence, p: Payload, capacity: nat,
        handler: Handler)
    requires Tracks(st, accepted, start) && |st.calls| !in accepted
    ensures var r := OnReceive(st, s, p, capacity, handler);
            var more := Accept(accepted, |st.calls|, |st.calls| + Distance(s, st.next), p);
            r.result != ERROR_OCCURED ==> Tracks(r.state, more, start) && |r.state.calls| !in more
  {
    hide Delivered, Distance, Advance, Holds, ProcessAndAdvance, ProcessHoldingPacket;
    DistanceZero(s, st.next);
    var n := |st.calls|;
    if s == st.next {
      var more := accepted[n := p];
      DueHolds(st, accepted, start, p);
      DeliverNext(st, more, start, p, handler);
      var first := ProcessAndAdvance(st, s, p, handler);
      if first.ok { DrainTracks(first.state, more, start, handler); }
    } else if Distance(s, st.next) > 0 {
      NewHolds(st, accepted, start, s, p);
    }
  }

  lemma {:induction false} RunTracks(run: Run, start: Sequence, arrivals: seq<Arrival>, capacity: nat, handler: Handler)
    requires run.errorFree ==> Tracks(run.state, run.accepted, start) && |run.state.calls| !in run.accepted
    ensures var end := Receive(run, arrivals, capacity, handler);
            end.errorFree ==> Tracks(end.state, end.accepted, start) && |end.state.calls| !in end.accepted
    decreases |arrivals|
  {
    hide Tracks, OnReceive, Distance;
    if arrivals != [] && run.errorFree {
      var s, p := arrivals[0].sequence, arrivals[0].payload;
      var n := |run.state.calls|;
      ReceiveTracks(run.state, run.accepted, start, s, p, capacity, handler);
      var r := OnReceive(run.state, s, p, capacity, handler);
      RunTracks(Run(r.state, Accept(run.accepted, n, n + Distance(s, run.state.next), p), r.result != ERROR_OCCURED),
                start, arrivals[1..], capacity, handler);
    }
  }

  function Fresh(start: Sequence, size: nat): Run {
    Run(Started(start, size), map[], true)
  }

  // Main result: without an error, the deliveries are exactly the positions 0, 1, ... up to the
  // first one not accepted, each with the payload accepted for it, and the holding map is exactly
  // the accepted positions beyond it.
  lemma DeliversContiguousBlock(start: Sequence, size: nat, arrivals: seq<Arrival>, capacity: nat, handler: Handler)
    ensures var end := Receive(Fresh(start, size), arrivals, capacity, handler);
            var n := |end.state.calls|;
            end.errorFree ==>
              && n !in end.accepted
              && Delivered(end.state.calls, end.accepted, start)
              && Holds(end.state, end.accepted, start, n + 1)
  {
    hide Receive, Advance, Distance, HeldAhead;
    FreshTracks(start, size);
    RunTracks(Fresh(start, size), start, arrivals, capacity, handler);
    var end := Receive(Fresh(start, size), arrivals, capacity, handler);
    var n := |end.state.calls|;
    if end.errorFree {
      forall k {:trigger KeyAccepted(end.state, end.accepted, n + 1, k)} | k in end.state.held
        ensures KeyAccepted(end.state, end.accepted, n + 1, k)
      {
        assert KeyAccepted(end.state, end.accepted, n, k);
      }
    }
  }

  lemma FreshTracks(start: Sequence, size: nat)
    ensures Tracks(Started(start, size), map[], start)
  {
  }

  // --- Arrivals of a peer's packets ---

  type Content = nat -> Payload

  function OnWire(start: Sequence, positions: seq<nat>, content: Content): seq<Arrival> {
    seq(|positions|, i requires 0 <= i < |positions| => Arrival(Advance(start, positions[i]), content(positions[i])))
  }

  // Each arrival is within half the number space of what has been delivered by then.
  predicate Near(run: Run, start: Sequence, positions: seq<nat>, content: Content, capacity: nat, handler: Handler)
    decreases |positions|
  {
    positions == [] || !run.errorFree ||
    var q := positions[0];
    && -HALF <= q - |run.state.calls| < HALF
    && Near(Receive(run, [Arrival(Advance(start, q), content(q))], capacity, handler),
            start, positions[1..], content, capacity, handler)
  }

  ghost predicate Holding(accepted: Accepted, content: Content) {
    forall q :: q in accepted ==> q >= 0 && accepted[q] == content(q)
  }

  lemma OneArrival(run: Run, a: Arrival, rest: seq<Arrival>, capacity: nat, handler: Handler)
    ensures Receive(run, [a] + rest, capacity, handler)
            == Receive(Receive(run, [a], capacity, handler), rest, capacity, handler)
  {
    assert ([a] + rest)[1..] == rest;
    assert [a][1..] == [];
  }

  lemma {:induction false} AcceptedIsArrived(run: Run, start: Sequence, positions: seq<nat>, content: Content,
        capacity: nat, handler: Handler)
    requires run.errorFree ==> Tracks(run.state, run.accepted, start) && |run.state.calls| !in run.accepted
    requires Holding(run.accepted, content) && Near(run, start, positions, content, capacity, handler)
    ensures var end := Receive(run, OnWire(start, positions, content), capacity, handler);
            end.errorFree ==>
              && Holding(end.accepted, content)
              && (forall q: nat :: q in end.accepted <==> q in run.accepted || q in positions)
    decreases |positions|
  {
    hide OnReceive, Distance, Advance, Holds;
    if positions != [] && run.errorFree {
      var q := positions[0];
      var a := Arrival(Advance(start, q), content(q));
      var n := |run.state.calls|;
      assert OnWire(start, positions, content) == [a] + OnWire(start, positions[1..], content);
      OneArrival(run, a, OnWire(start, positions[1..], content), capacity, handler);
      var next := Receive(run, [a], capacity, handler);
      RunTracks(run, start, [a], capacity, handler);
      DistanceOfAdvance(start, q, n);
      assert [a][1..] == [];
      assert next.accepted == Accept(run.accepted, n, q, content(q));
      AcceptedIsArrived(next, start, positions[1..], content, capacity, handler);
    }
  }

  // Two error-free runs over the same positions, in any order and with any repetitions, deliver the
  // same packets.
  lemma OrderDoesNotMatter(
    start: Sequence, content: Content, capacity: nat, handler: Handler, handler': Handler, size: nat,
    positions: seq<nat>, positions': seq<nat>)
    requires forall q :: q in positions <==> q in positions'
    requires Near(Fresh(start, size), start, positions, content, capacity, handler)
    requires Near(Fresh(start, size), start, positions', content, capacity, handler')
    ensures var end := Receive(Fresh(start, size), OnWire(start, positions, content), capacity, handler);
            var end' := Receive(Fresh(start, size), OnWire(start, positions', content), capacity, handler');
            end.errorFree && end'.errorFree ==> end.state.calls == end'.state.calls
  {
    hide Receive, Near, Advance, OnWire;
    var end := Receive(Fresh(start, size), OnWire(start, positions, content), capacity, handler);
    var end' := Receive(Fresh(start, size), OnWire(start, positions', content), capacity, handler');
    FreshTracks(start, size);
    AcceptedIsArrived(Fresh(start, size), start, positions, content, capacity, handler);
    AcceptedIsArrived(Fresh(start, size), start, positions', content, capacity, handler');
    DeliversContiguousBlock(start, size, OnWire(start, positions, content), capacity, handler);
    DeliversContiguousBlock(start, size, OnWire(start, positions', content), capacity, handler');
    if end.errorFree && end'.errorFree {
      var n, n' := |end.state.calls|, |end'.state.calls|;
      assert n !in positions && n' !in positions;
      assert forall i :: 0 <= i < n ==> i in end.accepted;
      assert n == n';
    }
  }
}
