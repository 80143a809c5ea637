/**
 The receive window and the orderer stay in step over every run of arrivals: what the window's
 flags, its start and the holding map are is determined by the outcomes of the handlers so far.
 */
module ReceiveLockstep {
  import opened Common
  import opened Sequences
  import opened ReceiveWindow
  import opened ReceivePath

  datatype Arrival = Arrival(sequence: Sequence, payload: Payload)

  // The state TryConnect leaves, with a window of `size`.
  function Started(start: Sequence, size: nat): Intake {
    Intake(start, map[], start, Falses(size), [], [])
  }

  // OnRecvPacket on each arrival in turn, whatever it returns.
  function AfterAll(st: Intake, arrivals: seq<Arrival>, handler: Handler): Intake
    decreases |arrivals|
  {
    if arrivals == [] then st
    else AfterAll(OnRecvPacket(st, arrivals[0].sequence, arrivals[0].payload, handler).state, arrivals[1..], handler)
  }

  // How many handlers ran before the first one that failed.
  function FirstFailure(calls: seq<Call>): (n: nat)
    ensures n <= |calls|
    ensures forall i :: 0 <= i < n ==> calls[i].handled
    ensures n < |calls| ==> !calls[n].handled
  {
    if calls == [] then 0
    else
      var f := FirstFailure(calls[..|calls| - 1]);
      if f == |calls| - 1 && calls[f].handled then f + 1 else f
  }

  predicate AllHandled(calls: seq<Call>) {
    FirstFailure(calls) == |calls|
  }

  lemma FirstFailureAppend(calls: seq<Call>, c: Call)
    ensures FirstFailure(calls + [c]) == if AllHandled(calls) && c.handled then |calls| + 1 else FirstFailure(calls)
  {
    assert (calls + [c])[..|calls|] == calls;
  }

  ghost predicate CallsInOrder(calls: seq<Call>, start: Sequence) {
    forall i :: 0 <= i < |calls| ==> calls[i].sequence == Advance(start, i)
  }

  // Which flags must be set once the given handlers have run.
  predicate FlagAt(calls: seq<Call>, i: nat) {
    var f := FirstFailure(calls);
    f + i < |calls| && calls[f + i].handled
  }

  ghost predicate WindowMatches(st: Intake, start: Sequence) {
    var f := FirstFailure(st.calls);
    && st.next == Advance(start, |st.calls|)
    && st.windowStart == Advance(start, f)
    && |st.calls| - f <= |st.flags| < 256
    && (forall i :: 0 <= i < |st.flags| ==> st.flags[i] == FlagAt(st.calls, i))
  }

  ghost predicate HeldInWindow(st: Intake) {
    forall k :: k in st.held ==> 0 <= Distance(k, st.windowStart) < |st.flags|
  }

  ghost predicate InStep(st: Intake, start: Sequence) {
    CallsInOrder(st.calls, start) && WindowMatches(st, start) && HeldInWindow(st)
  }

  // Between receives; nothing held is due unless a handler has failed.
  ghost predicate Settled(st: Intake, start: Sequence) {
    InStep(st, start) && (AllHandled(st.calls) ==> st.next !in st.held)
  }

  ghost predicate FullyAdvertised(st: Intake) {
    AllHandled(st.calls) ==> forall r :: r in st.replies ==> r.advertised == |st.flags|
  }

  lemma {:induction false} NoFlags(flags: seq<bool>)
    requires forall i :: 0 <= i < |flags| ==> !flags[i]
    ensures Count(flags) == 0 && flags == Falses(|flags|)
  {
    CountBound(flags);
  }

  lemma LagIs(st: Intake, start: Sequence)
    requires WindowMatches(st, start)
    ensures Distance(st.next, st.windowStart) == |st.calls| - FirstFailure(st.calls)
  {
    DistanceOfAdvance(start, |st.calls|, FirstFailure(st.calls));
  }

  lemma MarkFirst(flags: seq<bool>)
    requires flags != [] && forall i :: 0 <= i < |flags| ==> !flags[i]
    ensures LeadingRun(flags[0 := true]) == 1
    ensures Slide(flags[0 := true], 1) == Falses(|flags|)
  {
    var marked := flags[0 := true];
    assert marked[0] && marked[1..] == flags[1..];
    assert LeadingRun(flags[1..]) == 0;
  }

  // Marking the sequence whose handler has just succeeded.
  lemma MarkMatches(st: Intake, start: Sequence, p: Payload)
    requires WindowMatches(st, start) && |st.calls| - FirstFailure(st.calls) < |st.flags|
    ensures var called := st.(next := Next(st.next), calls := st.calls + [Call(st.next, p, true)]);
            WindowMatches(Mark(called, st.next), start) &&
            Mark(called, st.next).windowStart == (if AllHandled(st.calls) then Next(st.windowStart) else st.windowStart)
  {
    hide LeadingRun, Slide, FirstFailure, Distance;
    var c := Call(st.next, p, true);
    FirstFailureAppend(st.calls, c);
    LagIs(st, start);
    var f := FirstFailure(st.calls);
    if f == |st.calls| {
      MarkFirst(st.flags);
      assert Advance(st.windowStart, 1) == Next(Advance(st.windowStart, 0));
    } else {
      var marked := st.flags[|st.calls| - f := true];
      assert !marked[0];
      assert LeadingRun(marked) == 0;
      SlideNone(marked);
    }
  }

  lemma SlideNone(flags: seq<bool>)
    ensures Slide(flags, 0) == flags
  {
  }

  lemma ProcessKeeps(st: Intake, start: Sequence, p: Payload, handler: Handler)
    requires InStep(st, start) && |st.calls| - FirstFailure(st.calls) < |st.flags|
    requires AllHandled(st.calls) ==> st.next !in st.held
    ensures var r := ProcessAndAdvance(st, st.next, p, handler);
            InStep(r.state, start) && |r.state.flags| == |st.flags|
    ensures var r := ProcessAndAdvance(st, st.next, p, handler);
            r.state.calls == st.calls + [Call(st.next, p, r.ok)] && (!r.ok ==> !AllHandled(r.state.calls))
    ensures var r := ProcessAndAdvance(st, st.next, p, handler);
            r.state.held == if r.ok then st.held - {st.next} else st.held
  {
    var ok := handler(st.calls, p);
    FirstFailureAppend(st.calls, Call(st.next, p, ok));
    var r := ProcessAndAdvance(st, st.next, p, handler);
    if ok {
      MarkMatches(st, start, p);
      forall k | k in r.state.held ensures 0 <= Distance(k, r.state.windowStart) < |st.flags| {
        DistanceZero(k, st.windowStart);
        DistanceNext(k, st.windowStart);
      }
    }
  }

  lemma ProcessAdvertises(st: Intake, start: Sequence, p: Payload, handler: Handler)
    requires InStep(st, start) && |st.calls| - FirstFailure(st.calls) < |st.flags| && FullyAdvertised(st)
    ensures FullyAdvertised(ProcessAndAdvance(st, st.next, p, handler).state)
  {
    var ok := handler(st.calls, p);
    FirstFailureAppend(st.calls, Call(st.next, p, ok));
    if ok {
      MarkMatches(st, start, p);
      var called := st.(next := Next(st.next), calls := st.calls + [Call(st.next, p, true)]);
      if AllHandled(called.calls) { NoFlags(Mark(called, st.next).flags); }
    }
  }

  // What a number of consecutive handler runs, the last one perhaps a failure, keep.
  ghost predicate Continues(st: Intake, after: Intake, ok: bool) {
    && |after.flags| == |st.flags|
    && st.calls <= after.calls
    && (!ok ==> st.calls < after.calls && !after.calls[|after.calls| - 1].handled && !AllHandled(after.calls))
  }

  lemma OneKeeps(st: Intake, start: Sequence, p: Payload, handler: Handler)
    requires InStep(st, start) && FullyAdvertised(st) && |st.calls| - FirstFailure(st.calls) < |st.flags|
    requires AllHandled(st.calls) ==> st.next !in st.held
    ensures var r := ProcessAndAdvance(st, st.next, p, handler);
            && InStep(r.state, start) && FullyAdvertised(r.state) && Continues(st, r.state, r.ok)
            && |r.state.held| <= |st.held|
  {
    ProcessKeeps(st, start, p, handler);
    ProcessAdvertises(st, start, p, handler);
    RemoveShrinks(st.held, st.next);
  }

  lemma TakeKeeps(st: Intake, start: Sequence)
    requires InStep(st, start) && FullyAdvertised(st) && st.next in st.held
    ensures var taken := st.(held := st.held - {st.next});
            && InStep(taken, start) && FullyAdvertised(taken)
            && |taken.calls| - FirstFailure(taken.calls) < |taken.flags|
            && |taken.held| < |st.held|
  {
    LagIs(st, start);
    RemoveShrinks(st.held, st.next);
  }

  lemma {:induction false} DrainKeeps(st: Intake, start: Sequence, handler: Handler)
    requires InStep(st, start) && FullyAdvertised(st)
    ensures var r := ProcessHoldingPacket(st, handler);
            Settled(r.state, start) && FullyAdvertised(r.state) && Continues(st, r.state, r.ok)
    decreases |st.held|
  {
    hide InStep, FullyAdvertised, ProcessAndAdvance, FirstFailure;
    if st.next in st.held {
      TakeKeeps(st, start);
      var taken := st.(held := st.held - {st.next});
      OneKeeps(taken, start, st.held[st.next], handler);
      var step := ProcessAndAdvance(taken, st.next, st.held[st.next], handler);
      if step.ok { DrainKeeps(step.state, start, handler); }
    }
  }

  function Ahead(keys: set<Sequence>, base: Sequence, hi: int): set<Sequence> {
    set k | k in keys && Distance(k, base) < hi
  }

  // Keys at different distances are different keys.
  lemma {:induction false} KeysWithin(keys: set<Sequence>, base: Sequence, lo: nat, hi: nat)
    requires lo <= hi && forall k :: k in keys ==> lo <= Distance(k, base) < hi
    ensures |keys| <= hi - lo
    decreases hi
  {
    if keys != {} {
      var some :| some in keys;
      assert lo <= Distance(some, base) < hi;
      var rest := Ahead(keys, base, hi - 1);
      KeysWithin(rest, base, lo, hi - 1);
      if rest != keys {
        var last :| last in keys && last !in rest;
        OneAtDistance(keys, base, hi - 1, last);
      }
    }
  }

  lemma OneAtDistance(keys: set<Sequence>, base: Sequence, d: int, last: Sequence)
    requires last in keys && Distance(last, base) == d && forall k :: k in keys ==> Distance(k, base) <= d
    ensures |keys| == |Ahead(keys, base, d)| + 1
  {
    assert forall k :: k in keys ==> k == last || Distance(k, base) < d;
    assert keys == Ahead(keys, base, d) + {last};
  }

  // The holding map never reaches its capacity.
  lemma NeverFull(st: Intake, start: Sequence, s: Sequence)
    requires InStep(st, start) && Accepts(st.windowStart, |st.flags|, s) && s !in st.held
    ensures |st.held| < |st.flags|
  {
    KeysWithin(st.held.Keys + {s}, st.windowStart, 0, |st.flags|);
    assert |st.held.Keys + {s}| == |st.held| + 1;
  }

  lemma DueKeeps(st: Intake, start: Sequence, p: Payload, capacity: nat, handler: Handler)
    requires Settled(st, start) && FullyAdvertised(st) && Accepts(st.windowStart, |st.flags|, st.next)
    ensures var r := OnReceive(st, st.next, p, capacity, handler);
            && Settled(r.state, start) && FullyAdvertised(r.state)
            && r.result in {PROCESSED, ERROR_OCCURED} && Continues(st, r.state, r.result == PROCESSED)
  {
    hide ProcessAndAdvance, ProcessHoldingPacket, FirstFailure, FullyAdvertised;
    LagIs(st, start);
    DistanceZero(st.next, st.next);
    OneKeeps(st, start, p, handler);
    var first := ProcessAndAdvance(st, st.next, p, handler);
    if first.ok { DrainKeeps(first.state, start, handler); }
  }

  lemma HoldKeeps(st: Intake, start: Sequence, s: Sequence, p: Payload)
    requires Settled(st, start) && Accepts(st.windowStart, |st.flags|, s) && s != st.next
    ensures Settled(st.(held := st.held[s := p]), start)
  {
  }

  lemma ReplyKeeps(st: Intake, start: Sequence, s: Sequence)
    requires Settled(st, start) && FullyAdvertised(st)
    ensures Settled(SendReply(st, s), start) && FullyAdvertised(SendReply(st, s))
  {
    if AllHandled(st.calls) { NoFlags(st.flags); }
  }

  lemma ReceiveKeeps(st: Intake, start: Sequence, s: Sequence, p: Payload, handler: Handler)
    requires Settled(st, start) && FullyAdvertised(st)
    ensures var r := OnRecvPacket(st, s, p, handler);
            Settled(r.state, start) && FullyAdvertised(r.state) && Continues(st, r.state, r.ok)
  {
    hide InStep, ProcessAndAdvance, ProcessHoldingPacket, FirstFailure;
    if Distance(s, st.next) < 0 {
      ReplyKeeps(st, start, s);
    } else if Accepts(st.windowStart, |st.flags|, s) {
      DistanceZero(s, st.next);
      if s == st.next {
        DueKeeps(st, start, p, |st.flags|, handler);
      } else if s !in st.held {
        NeverFull(st, start, s);
        HoldKeeps(st, start, s, p);
      }
    }
  }

  lemma {:induction false} RunKeeps(st: Intake, start: Sequence, arrivals: seq<Arrival>, handler: Handler)
    requires Settled(st, start) && FullyAdvertised(st)
    ensures var end := AfterAll(st, arrivals, handler);
            Settled(end, start) && FullyAdvertised(end) && |end.flags| == |st.flags|
    decreases |arrivals|
  {
    if arrivals != [] {
      ReceiveKeeps(st, start, arrivals[0].sequence, arrivals[0].payload, handler);
      RunKeeps(OnRecvPacket(st, arrivals[0].sequence, arrivals[0].payload, handler).state,
               start, arrivals[1..], handler);
    }
  }

  lemma StartedSettled(start: Sequence, size: nat)
    requires size < 256
    ensures Settled(Started(start, size), start) && FullyAdvertised(Started(start, size))
  {
  }

  // The window, the orderer and the holding map after any run of arrivals, in which handlers may
  // fail and the session may go on receiving. Until a handler fails the window starts at the next
  // expected sequence with no flag set, everything held is strictly inside it, and every
  // acknowledgement has advertised the whole window.
  lemma Lockstep(start: Sequence, size: nat, arrivals: seq<Arrival>, handler: Handler)
    requires size < 256
    ensures var end := AfterAll(Started(start, size), arrivals, handler);
            && CallsInOrder(end.calls, start)
            && WindowMatches(end, start)
            && (AllHandled(end.calls) ==>
                 && end.windowStart == end.next
                 && end.flags == Falses(size)
                 && (forall k :: k in end.held ==> 0 < Distance(k, end.next) < size)
                 && |end.held| <= (if size == 0 then 0 else size - 1)
                 && (forall r :: r in end.replies ==> r.advertised == size))
  {
    hide ProcessAndAdvance, ProcessHoldingPacket, OnRecvPacket, OnReceive, AfterAll, Mark;
    var end := AfterAll(Started(start, size), arrivals, handler);
    StartedSettled(start, size);
    RunKeeps(Started(start, size), start, arrivals, handler);
    if AllHandled(end.calls) {
      forall k | k in end.held ensures 0 < Distance(k, end.next) < size {
        DistanceZero(k, end.next);
      }
      if size > 0 {
        KeysWithin(end.held.Keys, end.next, 1, size);
      } else {
        assert end.held.Keys == {};
      }
      NoFlags(end.flags);
    }
  }

  // OnRecvPacket reports an error only when a handler has just failed: in every reachable state the
  // orderer is neither asked about an old sequence nor finds its holding map full.
  lemma OnlyHandlersFail(start: Sequence, size: nat, arrivals: seq<Arrival>, handler: Handler, s: Sequence, p: Payload)
    requires size < 256
    ensures var st := AfterAll(Started(start, size), arrivals, handler);
            var r := OnRecvPacket(st, s, p, handler);
            && (r.ok || (st.calls < r.state.calls && !r.state.calls[|r.state.calls| - 1].handled))
            && (Distance(s, st.next) >= 0 && Accepts(st.windowStart, size, s) ==>
                 && OnReceive(st, s, p, size, handler).result != DUPLICATED_RECV
                 && (s in st.held || s == st.next || |st.held| < size))
  {
    hide InStep, FullyAdvertised, ProcessAndAdvance, ProcessHoldingPacket, FirstFailure, AfterAll;
    var st := AfterAll(Started(start, size), arrivals, handler);
    StartedSettled(start, size);
    RunKeeps(Started(start, size), start, arrivals, handler);
    ReceiveKeeps(st, start, s, p, handler);
    if Accepts(st.windowStart, size, s) && s !in st.held { NeverFull(st, start, s); }
  }
}
