/** What holds in every state a session's lives can reach. */
module LifecycleRuns {
  import opened Common
  import opened Lifecycle
  import opened LifecycleOwners
  import opened LifecycleProofs

  // Any interleaving of the steps.
  ghost predicate Run(s: Session, steps: seq<Step>, end: Session)
    decreases |steps|
  {
    if steps == [] then s == end
    else Enabled(s, steps[0]) && Run(Apply(s, steps[0]), steps[1..], end)
  }

  lemma {:induction false} RunOwned(s: Session, steps: seq<Step>, end: Session)
    requires Owned(s) && Run(s, steps, end)
    ensures Owned(end)
    decreases |steps|
  {
    hide Owned, Enabled, Apply;
    if steps != [] {
      KeepsOwned(s, steps[0]);
      RunOwned(Apply(s, steps[0]), steps[1..], end);
    }
  }

  ghost predicate OrderlyRun(s: Session, steps: seq<Step>, end: Session)
    decreases |steps|
  {
    if steps == [] then s == end
    else Orderly(s, steps[0]) && OrderlyRun(Apply(s, steps[0]), steps[1..], end)
  }

  lemma {:induction false} OrderlyKeeps(s: Session, steps: seq<Step>, end: Session)
    requires Life(s) && OrderlyRun(s, steps, end)
    ensures Life(end)
    decreases |steps|
  {
    hide Life, Apply;
    if steps != [] {
      LifeKeeps(s, steps[0]);
      OrderlyKeeps(Apply(s, steps[0]), steps[1..], end);
    }
  }

  // --- The send mode ---

  // In every state of a run the send mode is taken exactly while one thread prepares a send, or one
  // send is with the kernel, or its completion is being handled, and never two of these at once.
  ghost predicate AlwaysSingleSender(s: Session, steps: seq<Step>)
    decreases |steps|
  {
    && SingleSender(s)
    && (steps != [] && Enabled(s, steps[0]) ==> AlwaysSingleSender(Apply(s, steps[0]), steps[1..]))
  }

  ghost predicate NeverReturnsUnderSender(s: Session, steps: seq<Step>)
    decreases |steps|
  {
    steps != [] && Enabled(s, steps[0]) ==>
      !ReturnsUnderSender(s, steps[0]) && NeverReturnsUnderSender(Apply(s, steps[0]), steps[1..])
  }

  lemma {:induction false} SingleSenderFrom(s: Session, steps: seq<Step>, end: Session)
    requires Owned(s) && Sends(s) && Run(s, steps, end)
    ensures AlwaysSingleSender(s, steps) <==> NeverReturnsUnderSender(s, steps)
    decreases |steps|
  {
    hide Owned, SingleSender, ReturnsUnderSender, Enabled, Apply;
    if steps != [] {
      if ReturnsUnderSender(s, steps[0]) {
        ReturnShows(s, steps[0]);
        assert !AlwaysSingleSender(Apply(s, steps[0]), steps[1..]);
      } else {
        KeepsOwned(s, steps[0]);
        KeepsSends(s, steps[0]);
        SingleSenderFrom(Apply(s, steps[0]), steps[1..], end);
      }
    }
  }

  // Over every interleaving the send mode has a single holder throughout if and only if no step
  // re-initialises the session between a sender's CAS and its second release check.
  lemma SingleSenderExactly(steps: seq<Step>, end: Session)
    requires Run(INITIAL, steps, end)
    ensures AlwaysSingleSender(INITIAL, steps) <==> NeverReturnsUnderSender(INITIAL, steps)
  {
    InitialOwned();
    InitialSends();
    SingleSenderFrom(INITIAL, steps, end);
  }

  // --- Callbacks ---

  // Over every interleaving OnDisconnected and OnReleased run at most once in a life and never in an
  // aborted one; no packet handler runs from OnDisconnected on. A life that ends otherwise has
  // OnReleased, and OnDisconnected before it if and only if the I/O shutdown was started.
  lemma CallbacksOnce(steps: seq<Step>, s: Session)
    requires Run(INITIAL, steps, s)
    ensures s.onDisconnected <= 1 && s.onReleased <= 1
    ensures s.aborted ==> s.onDisconnected == 0 && s.onReleased == 0
    ensures s.onDisconnected > 0 ==> s.logic != Passed && s.logic != Handling && !s.processing
    ensures s.release == Returning && !s.aborted ==>
              s.onReleased == 1 && (s.onDisconnected == 1 <==> s.ioShutdown)
  {
    InitialOwned();
    RunOwned(INITIAL, steps, s);
  }

  // In orderly runs OnDisconnected is missed only when a receive was posted after the first check had
  // read outstandingRecvIo; that takes a failure too late to disconnect and too early for the flag,
  // or a release that overtook the broker.
  lemma CallbacksComplete(steps: seq<Step>, s: Session)
    requires OrderlyRun(INITIAL, steps, s)
    ensures s.onReleased > 0 && s.onDisconnected == 0 ==> s.postedBehind
    ensures s.onReleased > 0 && !s.lateFailure && !s.overtaken ==> s.onDisconnected == 1
    ensures s.release == Returning && !s.overtaken ==> !s.socketOpen
  {
    InitialLife();
    OrderlyKeeps(INITIAL, steps, s);
  }

  // --- Sessions that nobody finishes releasing ---

  predicate Forgotten(s: Session) {
    s.state == RELEASING && !Remembered(s)
  }

  // Over every interleaving a session in RELEASING has somebody who will finish its release, unless
  // and only unless Disconnect gave up.
  lemma ForgottenExactly(steps: seq<Step>, s: Session)
    requires Run(INITIAL, steps, s)
    ensures Forgotten(s) <==> s.gaveUp
  {
    InitialOwned();
    RunOwned(INITIAL, steps, s);
  }

  // What Disconnect's own CanFinalizeIO can find unfinished: a momentary send mode, or what became of
  // a receive posted after the first CanFinalizeIO had read outstandingRecvIo. Never a packet handler.
  predicate FindsUnfinished(s: Session, n: nat) {
    match n
    case 0 => s.postedBehind && s.outstanding != 0
    case 1 => s.postedBehind && s.pending != 0
    case 2 => s.claimed > 0
    case 3 => s.postedBehind && s.active != 0
    case _ => false
  }

  lemma GivesUpExactly(s: Session, step: Step)
    requires Life(s) && Orderly(s, step) && !s.gaveUp
    ensures Apply(s, step).gaveUp <==>
              step == ByRelease(ReadNext) && s.release.second && FindsUnfinished(s, s.release.n)
  {
    hide DoBroker, DoWork, DoLogic, DoSend, DoBreak, DoRelease;
    if step.ByRelease? { ReleaseGivesUp(s, step.release); } else { KeepsHistory(s, step); }
  }

  lemma ReleaseGivesUp(s: Session, r: ReleaseStep)
    requires Life(s) && CanRelease(s, r) && !s.gaveUp
    ensures DoRelease(s, r).gaveUp <==> r == ReadNext && s.release.second && FindsUnfinished(s, s.release.n)
  {
    hide OneGeneration, AllPosted, SocketDown, OneRelease, RememberedUnlessGivenUp, Stages, Callbacks, Phases;
    match r
    case TakeRelease =>
    case ReadLogic =>
    case ReadProcessing =>
    case CloseSocket =>
    case ReadNext =>
    case Clean =>
    case ReturnToPool =>
  }

  lemma WorkerKeepsHistory(s: Session, w: WorkerStep)
    requires CanWork(s, w)
    ensures DoWork(s, w).gaveUp == s.gaveUp && DoWork(s, w).cleanedEarly == s.cleanedEarly
  {
    match w
    case TakeRecv(g) =>
    case Post =>
    case CheckRecv =>
    case EnqueuePacket =>
    case DropPacket =>
    case FailRecv =>
    case ReleaseContext =>
    case EnterDoRecv =>
    case PostFails =>
    case PostDone =>
    case TakeSend(_) =>
    case CheckSend =>
    case EndSend(_) =>
    case TryTransition =>
    case Leave =>
  }

  lemma BrokerKeepsHistory(s: Session, b: BrokerStep)
    requires CanBroker(s, b)
    ensures DoBroker(s, b).gaveUp == s.gaveUp && DoBroker(s, b).cleanedEarly == s.cleanedEarly
  {
    match b
    case Acquire =>
    case SetReserved =>
    case MakeSocket =>
    case FailSocket =>
    case EnterRecv =>
    case BrokerPost =>
    case BrokerPostFails =>
    case BrokerDone =>
    case Abort =>
  }

  lemma LogicKeepsHistory(s: Session, l: LogicStep)
    requires CanLogic(s, l)
    ensures DoLogic(s, l).gaveUp == s.gaveUp && DoLogic(s, l).cleanedEarly == s.cleanedEarly
  {
    match l
    case TakeLogic =>
    case CheckLogic =>
    case StartHandler =>
    case Connect =>
    case EndHandler =>
    case CompleteLogic =>
  }

  lemma SenderKeepsHistory(s: Session, d: SendStep)
    requires CanSend(s, d)
    ensures DoSend(s, d).gaveUp == s.gaveUp && DoSend(s, d).cleanedEarly == s.cleanedEarly
  {
    match d
    case Enter =>
    case Claim =>
    case Recheck =>
    case NothingSent(_) =>
    case PostSend(_) =>
  }

  lemma BreakerKeepsHistory(s: Session, b: BreakStep)
    requires CanBreak(s, b)
    ensures DoBreak(s, b).gaveUp == s.gaveUp && DoBreak(s, b).cleanedEarly == s.cleanedEarly
  {
    match b
    case Transition(_) =>
    case SetFlag =>
    case Push =>
  }

  lemma KeepsHistory(s: Session, step: Step)
    requires Enabled(s, step) && !step.ByRelease?
    ensures Apply(s, step).gaveUp == s.gaveUp && Apply(s, step).cleanedEarly == s.cleanedEarly
  {
    hide DoBroker, DoWork, DoLogic, DoSend, DoBreak;
    match step
    case ByBroker(b) => BrokerKeepsHistory(s, b);
    case ByWorker(w) => WorkerKeepsHistory(s, w);
    case ByLogic(l) => LogicKeepsHistory(s, l);
    case BySender(d) => SenderKeepsHistory(s, d);
    case ByBreaker(b) => BreakerKeepsHistory(s, b);
  }

  // Without a late failure, and when the broker was done, the momentary send mode is the only way.
  lemma GivesUpOnlyOverSender(steps: seq<Step>, s: Session, step: Step)
    requires OrderlyRun(INITIAL, steps, s) && Orderly(s, step) && !s.gaveUp
    requires !s.aborted && !s.lateFailure && !s.overtaken
    ensures Forgotten(Apply(s, step)) <==>
              step == ByRelease(ReadNext) && s.release == Reading(true, 2) && s.claimed > 0
  {
    InitialLife();
    OrderlyKeeps(INITIAL, steps, s);
    LifeKeeps(s, step);
    GivesUpExactly(s, step);
    hide Counted, OneGeneration, ReleaseHolds, Phases, LogicHolds, Callbacks, Accurate, Apply;
  }

  lemma GivenUpStays(s: Session, step: Step)
    requires Enabled(s, step) && s.gaveUp
    ensures Apply(s, step).gaveUp
  {
    hide DoBroker, DoWork, DoLogic, DoSend, DoBreak, DoRelease;
    if step.ByRelease? { ReleaseStaysGivenUp(s, step.release); } else { KeepsHistory(s, step); }
  }

  lemma ReleaseStaysGivenUp(s: Session, r: ReleaseStep)
    requires CanRelease(s, r) && s.gaveUp
    ensures DoRelease(s, r).gaveUp
  {
    match r
    case TakeRelease =>
    case ReadLogic =>
    case ReadProcessing =>
    case CloseSocket =>
    case ReadNext =>
    case Clean =>
    case ReturnToPool =>
  }

  // A session in RELEASING that nobody is going to release stays so, whatever happens.
  lemma {:induction false} ForgottenForever(s: Session, steps: seq<Step>, end: Session)
    requires Owned(s) && Run(s, steps, end) && Forgotten(s)
    ensures Forgotten(end) && !end.pooled
    decreases |steps|
  {
    hide LogicHolds, Callbacks, Apply, Enabled;
    if steps != [] {
      GivenUpStays(s, steps[0]);
      KeepsOwned(s, steps[0]);
      ForgottenForever(Apply(s, steps[0]), steps[1..], end);
    }
  }

  // --- The drain barrier ---

  // Nothing of the session is under way in any thread or in the kernel.
  predicate Quiet(s: Session) {
    && s.posted == multiset{} && s.outstanding == 0
    && s.queue == [] && s.pending == 0 && s.logic == NoLogic && !s.processing
    && s.sends == multiset{} && !s.sending && s.claimed == 0 && s.building == 0
    && s.worker == Waiting && s.active == 0 && s.broker == NoBroker
  }

  // In orderly runs no counter goes below zero, and no completion of an earlier generation is seen.
  lemma NoFault(steps: seq<Step>, s: Session)
    requires OrderlyRun(INITIAL, steps, s)
    ensures !s.fault
    ensures forall g :: g in s.posted || g in s.queue || g in s.sends ==> g == s.generation
  {
    InitialLife();
    OrderlyKeeps(INITIAL, steps, s);
  }

  // When the release thread is about to start the next generation nothing is under way, except that
  // a sender may have taken the send mode and not made its second release check, or the broker may
  // not be done.
  lemma BarrierExactly(steps: seq<Step>, s: Session)
    requires OrderlyRun(INITIAL, steps, s) && s.release == Returning
    ensures Quiet(s) <==> s.claimed == 0 && s.broker == NoBroker
  {
    InitialLife();
    OrderlyKeeps(INITIAL, steps, s);
    assert |s.posted| == 0 ==> s.posted == multiset{};
    assert |s.sends| == 0 ==> s.sends == multiset{};
  }

  // When Disconnect goes on to clean up, its asserts hold but for such a sender.
  lemma CleansExactly(steps: seq<Step>, s: Session)
    requires OrderlyRun(INITIAL, steps, s) && s.release == Cleaning
    ensures CanFinalizeIO(s) <==> s.claimed == 0
  {
    InitialLife();
    OrderlyKeeps(INITIAL, steps, s);
  }

  predicate CleansUnderSender(s: Session, step: Step) {
    step == ByRelease(Clean) && s.claimed > 0
  }

  ghost predicate NeverCleansUnderSender(s: Session, steps: seq<Step>)
    decreases |steps|
  {
    steps != [] && Enabled(s, steps[0]) ==>
      !CleansUnderSender(s, steps[0]) && NeverCleansUnderSender(Apply(s, steps[0]), steps[1..])
  }

  lemma CleansEarly(s: Session, step: Step)
    requires Life(s) && Orderly(s, step)
    ensures Apply(s, step).cleanedEarly <==> s.cleanedEarly || CleansUnderSender(s, step)
  {
    hide DoBroker, DoWork, DoLogic, DoSend, DoBreak, DoRelease;
    if step.ByRelease? { ReleaseCleansEarly(s, step.release); } else { KeepsHistory(s, step); }
  }

  lemma ReleaseCleansEarly(s: Session, r: ReleaseStep)
    requires Life(s) && CanRelease(s, r)
    ensures DoRelease(s, r).cleanedEarly <==> s.cleanedEarly || CleansUnderSender(s, ByRelease(r))
  {
    hide OneGeneration, AllPosted, SocketDown, OneRelease, RememberedUnlessGivenUp, Stages, Callbacks, Phases;
    match r
    case TakeRelease =>
    case ReadLogic =>
    case ReadProcessing =>
    case CloseSocket =>
    case ReadNext =>
    case Clean =>
    case ReturnToPool =>
  }

  lemma {:induction false} CleansEarlyFrom(s: Session, steps: seq<Step>, end: Session)
    requires Life(s) && OrderlyRun(s, steps, end)
    ensures end.cleanedEarly <==> s.cleanedEarly || !NeverCleansUnderSender(s, steps)
    decreases |steps|
  {
    hide Life, CleansUnderSender, Enabled, Apply;
    if steps != [] {
      CleansEarly(s, steps[0]);
      LifeKeeps(s, steps[0]);
      CleansEarlyFrom(Apply(s, steps[0]), steps[1..], end);
    }
  }

  // Over every orderly run: a cleanup's asserts failed if and only if some cleanup happened between a
  // sender's CAS and its second release check.
  lemma CleansEarlyExactly(steps: seq<Step>, end: Session)
    requires OrderlyRun(INITIAL, steps, end)
    ensures !end.cleanedEarly <==> NeverCleansUnderSender(INITIAL, steps)
  {
    InitialLife();
    CleansEarlyFrom(INITIAL, steps, end);
  }
}
