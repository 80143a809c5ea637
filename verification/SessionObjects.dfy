/** The small objects of a session that its threads share: the state machine and the receive buffer. */
module SessionObjects {
  import opened Common

  // One call on the state machine.
  datatype Call = SetReserved | TryTransitionToConnected | TryTransitionToReleasing | TryAbortReserved | SetDisconnected

  predicate Succeeds(state: SessionState, call: Call) {
    match call
    case SetReserved => true
    case TryTransitionToConnected => state == RESERVED
    case TryTransitionToReleasing => state == RESERVED || state == CONNECTED
    case TryAbortReserved => state == RESERVED
    case SetDisconnected => true
  }

  function Target(call: Call): SessionState {
    match call
    case SetReserved => RESERVED
    case TryTransitionToConnected => CONNECTED
    case TryTransitionToReleasing => RELEASING
    case TryAbortReserved => RELEASING
    case SetDisconnected => DISCONNECTED
  }

  function After(state: SessionState, call: Call): SessionState {
    if Succeeds(state, call) then Target(call) else state
  }

  class SessionStateMachine {
    var state: SessionState

    constructor ()
      ensures state == DISCONNECTED
    {
      state := DISCONNECTED;
    }

    method Reserve()
      modifies this
      ensures state == After(old(state), SetReserved)
    {
      state := RESERVED;
    }

    method TransitionToConnected() returns (ok: bool)
      modifies this
      ensures ok == Succeeds(old(state), TryTransitionToConnected) &&
            state == After(old(state), TryTransitionToConnected)
    {
      ok := state == RESERVED;
      if ok { state := CONNECTED; }
    }

    // Two compare-and-swaps, one from each state a session can be in use in.
    method TransitionToReleasing() returns (ok: bool)
      modifies this
      ensures ok == Succeeds(old(state), TryTransitionToReleasing) &&
            state == After(old(state), TryTransitionToReleasing)
    {
      ok := state == RESERVED;
      if ok {
        state := RELEASING;
        return;
      }
      ok := state == CONNECTED;
      if ok { state := RELEASING; }
    }

    method AbortReserved() returns (ok: bool)
      modifies this
      ensures ok == Succeeds(old(state), TryAbortReserved) && state == After(old(state), TryAbortReserved)
    {
      ok := state == RESERVED;
      if ok { state := RELEASING; }
    }

    method Disconnect()
      modifies this
      ensures state == After(old(state), SetDisconnected)
    {
      state := DISCONNECTED;
    }
  }

  // How many calls of a run win the transition to RELEASING.
  function Wins(state: SessionState, calls: seq<Call>): nat
    decreases |calls|
  {
    if calls == [] then 0
    else
      (if Target(calls[0]) == RELEASING && Succeeds(state, calls[0]) then 1 else 0)
      + Wins(After(state, calls[0]), calls[1..])
  }

  function AfterAll(state: SessionState, calls: seq<Call>): SessionState
    decreases |calls|
  {
    if calls == [] then state else AfterAll(After(state, calls[0]), calls[1..])
  }

  // Within a life, whoever disconnects or aborts and however often, exactly one call wins, or none
  // has been made that could.
  lemma {:induction false} OneWinner(state: SessionState, calls: seq<Call>)
    requires state != DISCONNECTED && SetDisconnected !in calls && SetReserved !in calls
    ensures Wins(state, calls) == if state != RELEASING && AfterAll(state, calls) == RELEASING then 1 else 0
    ensures state != RELEASING && TryTransitionToReleasing in calls ==> AfterAll(state, calls) == RELEASING
    ensures state == RELEASING ==> AfterAll(state, calls) == RELEASING
    decreases |calls|
  {
    if calls != [] {
      assert calls == [calls[0]] + calls[1..];
      OneWinner(After(state, calls[0]), calls[1..]);
    }
  }

  // RecvBuffer: receive contexts that are not with the kernel, and the two counters of the drain
  // barrier; taking a counter below zero is what the source asserts against.
  class RecvBuffer {
    var freeRecvContexts: seq<nat>
    var outstandingRecvIo: nat
    var pendingRecvLogic: nat

    constructor (contexts: seq<nat>)
      ensures freeRecvContexts == contexts && outstandingRecvIo == 0 && pendingRecvLogic == 0
    {
      freeRecvContexts := contexts;
      outstandingRecvIo, pendingRecvLogic := 0, 0;
    }

    method AcquireFreeRecvContext() returns (context: Option<nat>)
      modifies this`freeRecvContexts
      ensures context.None? <==> old(freeRecvContexts) == []
      ensures context.Some? ==> [context.value] + freeRecvContexts == old(freeRecvContexts)
      ensures context.None? ==> freeRecvContexts == []
    {
      if freeRecvContexts == [] { return None; }
      context := Some(freeRecvContexts[0]);
      freeRecvContexts := freeRecvContexts[1..];
    }

    method ReleaseRecvContext(context: nat)
      modifies this`freeRecvContexts
      ensures freeRecvContexts == old(freeRecvContexts) + [context]
    {
      freeRecvContexts := freeRecvContexts + [context];
    }

    method BeginRecvIo()
      modifies this`outstandingRecvIo
      ensures outstandingRecvIo == old(outstandingRecvIo) + 1
    {
      outstandingRecvIo := outstandingRecvIo + 1;
    }

    method CompleteRecvIo()
      requires outstandingRecvIo > 0
      modifies this`outstandingRecvIo
      ensures outstandingRecvIo == old(outstandingRecvIo) - 1
    {
      outstandingRecvIo := outstandingRecvIo - 1;
    }

    method BeginRecvLogic()
      modifies this`pendingRecvLogic
      ensures pendingRecvLogic == old(pendingRecvLogic) + 1
    {
      pendingRecvLogic := pendingRecvLogic + 1;
    }

    method CompleteRecvLogic()
      requires pendingRecvLogic > 0
      modifies this`pendingRecvLogic
      ensures pendingRecvLogic == old(pendingRecvLogic) - 1
    {
      pendingRecvLogic := pendingRecvLogic - 1;
    }

    // The loop of RUDPIOHandler::DoRecv; `posts` tells how many calls to RIOReceiveEx succeed. A
    // context whose receive could not be posted goes back to the end of the free queue.
    method PostAll(posts: nat) returns (posted: seq<nat>, ok: bool)
      modifies this
      ensures ok == (posts >= |old(freeRecvContexts)|)
      ensures |posted| == (if ok then |old(freeRecvContexts)| else posts)
      ensures outstandingRecvIo == old(outstandingRecvIo) + |posted| && pendingRecvLogic == old(pendingRecvLogic)
      ensures if ok then posted == old(freeRecvContexts) && freeRecvContexts == []
              else posted == old(freeRecvContexts)[..posts] &&
                   freeRecvContexts == old(freeRecvContexts)[posts + 1..] + [old(freeRecvContexts)[posts]]
    {
      posted := [];
      while true
        invariant |posted| <= posts && |posted| <= |old(freeRecvContexts)|
        invariant posted == old(freeRecvContexts)[..|posted|] && freeRecvContexts == old(freeRecvContexts)[|posted|..]
        invariant outstandingRecvIo == old(outstandingRecvIo) + |posted| && pendingRecvLogic == old(pendingRecvLogic)
        decreases |freeRecvContexts|
      {
        var context := AcquireFreeRecvContext();
        if context.None? { return posted, true; }
        BeginRecvIo();
        if |posted| == posts {
          CompleteRecvIo();
          ReleaseRecvContext(context.value);
          return posted, false;
        }
        posted := posted + [context.value];
      }
    }

    method IsDrained() returns (drained: bool)
      ensures drained <==> outstandingRecvIo == 0 && pendingRecvLogic == 0
    {
      drained := outstandingRecvIo == 0 && pendingRecvLogic == 0;
    }
  }
}
