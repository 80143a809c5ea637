/** The drain barrier, and how far the release thread's two checks can be trusted, over every orderly run. */
module LifecycleProofs {
  import opened Common
  import opened Lifecycle
  import opened LifecycleOwners

  // Disconnect does not read outstandingRecvIo while the broker is posting receives, and a session is
  // re-initialised only when its broker is done with it and no sender is between its CAS and its
  // second release check.
  predicate Orderly(s: Session, step: Step) {
    && Enabled(s, step)
    && (step == ByRelease(ReadNext) && s.release == Reading(true, 0) ==> s.broker != BrokerPosting)
    && (step == ByRelease(ReturnToPool) ==> s.broker == NoBroker && s.claimed == 0)
  }

  predicate HoldsContext(w: Worker) {
    w.RecvEntered? || w.RecvCurrent? || w == RecvDone || w == RecvFailed
  }

  function Held(w: Worker): nat {
    if HoldsContext(w) then 1 else 0
  }

  // The counters count.
  predicate Counted(s: Session) {
    && s.outstanding == |s.posted| + Held(s.worker)
    && s.free + s.outstanding == RECV_OUTSTANDING_COUNT
    && s.active == (if s.worker == Waiting then 0 else 1)
    && !s.fault
  }

  // Everything received belongs to this life.
  ghost predicate OneGeneration(s: Session) {
    && (forall g :: g in s.posted ==> g == s.generation)
    && (forall g :: g in s.queue ==> g == s.generation)
    && (s.worker.RecvEntered? || s.worker.RecvCurrent? ==> s.worker.generation == s.generation)
    && (s.logic.Taken? ==> s.logic.generation == s.generation)
  }

  // Nothing under way but perhaps a sender that has not made its second release check.
  predicate Drained(s: Session) {
    && s.outstanding == 0 && s.pending == 0 && s.active == 0
    && (s.sending ==> s.claimed > 0)
  }

  // The release thread's conditions, once true, stay true.
  predicate Confirmed(s: Session, n: nat) {
    && (n >= 1 ==> s.outstanding == 0)
    && (n >= 2 ==> s.pending == 0)
    && (n >= 3 ==> s.sending ==> s.claimed > 0)
    && (n >= 4 ==> s.active == 0)
  }

  // Disconnect's own CanFinalizeIO has read outstandingRecvIo.
  predicate PastSecondRead(r: Release) {
    (r.Reading? && r.second && r.n >= 1) || r == Cleaning || r == Returning
  }

  predicate ReleaseHolds(s: Session) {
    && (PastFirstCheck(s.release) ==> s.worker != Posting)
    && (PastSecondRead(s.release) ==> s.broker != BrokerPosting)
    && (s.release.Reading? ==> s.release.n <= 4)
    && (s.release.Reading? && s.release.second ==> Confirmed(s, s.release.n))
    && (s.release == Cleaning || s.release == Returning ==> Drained(s))
    && (!s.overtaken && (s.release != Resting || s.ioShutdown) ==> s.broker == NoBroker)
  }

  predicate BeforePosting(b: Broker) {
    b == Acquired || b == Reserved || b == SocketMade
  }

  predicate Unreceiving(s: Session) {
    s.outstanding == 0 && s.pending == 0 && s.worker != RecvReleased && s.worker != Posting
  }

  // Nothing is received outside a life, or before the broker posts receives.
  predicate Phases(s: Session) {
    && (s.pooled ==> s.broker == NoBroker)
    && (s.broker != NoBroker && s.broker != Acquired ==> s.state == RESERVED || s.state == RELEASING)
    && (s.state == DISCONNECTED || BeforePosting(s.broker) ==> Unreceiving(s))
  }

  ghost predicate Inv(s: Session) {
    Owned(s) && Sends(s) && Counted(s) && OneGeneration(s) && ReleaseHolds(s) && Phases(s)
  }

  lemma InitialInv()
    ensures Inv(INITIAL)
  {
    InitialOwned();
    InitialSends();
  }

  // --- The broker ---

  lemma PostOne(s: Session)
    requires Counted(s) && OneGeneration(s) && s.free > 0
    ensures Counted(BeginRecvIo(s)) && OneGeneration(BeginRecvIo(s))
  {
    Inserted(s.posted, s.generation);
  }

  lemma BrokerCounts(s: Session, step: BrokerStep)
    requires Counted(s) && OneGeneration(s) && CanBroker(s, step)
    ensures Counted(DoBroker(s, step)) && OneGeneration(DoBroker(s, step))
  {
    match step
    case BrokerPost => PostOne(s);
    case Acquire =>
    case SetReserved =>
    case MakeSocket =>
    case FailSocket =>
    case EnterRecv =>
    case BrokerPostFails =>
    case BrokerDone =>
    case Abort =>
  }

  lemma BrokerHolds(s: Session, step: BrokerStep)
    requires Inv(s) && CanBroker(s, step)
    ensures ReleaseHolds(DoBroker(s, step)) && Phases(DoBroker(s, step))
  {
    hide OneGeneration, Sends, RememberedUnlessGivenUp, LogicHolds, Callbacks;
    match step
    case Acquire =>
    case SetReserved =>
    case MakeSocket =>
    case FailSocket =>
    case EnterRecv =>
    case BrokerPost =>
    case BrokerPostFails =>
    case BrokerDone =>
    case Abort =>
  }

  // --- The I/O worker ---

  lemma TakePosted(s: Session, g: int)
    requires Counted(s) && OneGeneration(s) && CanWork(s, TakeRecv(g))
    ensures Counted(DoWork(s, TakeRecv(g))) && OneGeneration(DoWork(s, TakeRecv(g)))
  {
    Removed(s.posted, g);
  }

  lemma WorkCounts(s: Session, step: WorkerStep)
    requires Sends(s) && Counted(s) && OneGeneration(s) && CanWork(s, step)
    ensures Counted(DoWork(s, step))
  {
    hide SingleSender;
    match step
    case TakeRecv(g) => TakePosted(s, g);
    case Post => PostOne(s);
    case CheckRecv =>
    case EnqueuePacket =>
    case DropPacket =>
    case FailRecv =>
    case ReleaseContext =>
    case EnterDoRecv =>
    case PostFails =>
    case PostDone =>
    case TakeSend(_) =>
    case CheckSend =>
    case EndSend(_) =>
    case TryTransition =>
    case Leave =>
  }

  lemma WorkGeneration(s: Session, step: WorkerStep)
    requires Counted(s) && OneGeneration(s) && CanWork(s, step)
    ensures OneGeneration(DoWork(s, step))
  {
    match step
    case TakeRecv(g) => TakePosted(s, g);
    case Post => PostOne(s);
    case CheckRecv =>
    case EnqueuePacket =>
    case DropPacket =>
    case FailRecv =>
    case ReleaseContext =>
    case EnterDoRecv =>
    case PostFails =>
    case PostDone =>
    case TakeSend(_) =>
    case CheckSend =>
    case EndSend(_) =>
    case TryTransition =>
    case Leave =>
  }

  lemma WorkPhases(s: Session, step: WorkerStep)
    requires Inv(s) && CanWork(s, step)
    ensures Phases(DoWork(s, step))
  {
    hide ReleaseHolds, OneGeneration, Sends, RememberedUnlessGivenUp, LogicHolds, Callbacks;
    match step
    case TakeRecv(g) => assert |s.posted| > 0;
    case CheckRecv =>
    case EnqueuePacket =>
    case DropPacket =>
    case FailRecv =>
    case ReleaseContext =>
    case EnterDoRecv =>
    case Post =>
    case PostFails =>
    case PostDone =>
    case TakeSend(_) =>
    case CheckSend =>
    case EndSend(_) =>
    case TryTransition =>
    case Leave =>
  }

  lemma WorkRelease(s: Session, step: WorkerStep)
    requires Inv(s) && CanWork(s, step)
    ensures ReleaseHolds(DoWork(s, step))
  {
    hide OneGeneration, Phases, RememberedUnlessGivenUp, Stages, Callbacks, LogicHolds;
    match step
    case TakeRecv(g) => assert |s.posted| > 0;
    case CheckRecv =>
    case EnqueuePacket =>
    case DropPacket =>
    case FailRecv =>
    case ReleaseContext =>
    case EnterDoRecv =>
    case Post =>
    case PostFails =>
    case PostDone =>
    case TakeSend(g) => assert |s.sends| > 0;
    case CheckSend =>
    case EndSend(_) =>
    case TryTransition =>
    case Leave =>
  }

  // --- The other threads ---

  lemma LogicCounts(s: Session, step: LogicStep)
    requires Owned(s) && Counted(s) && OneGeneration(s) && CanLogic(s, step)
    ensures Counted(DoLogic(s, step)) && OneGeneration(DoLogic(s, step))
  {
    hide OneRelease, RememberedUnlessGivenUp, Stages, Callbacks;
    match step
    case TakeLogic => assert s.queue[0] in s.queue && forall g :: g in s.queue[1..] ==> g in s.queue;
    case CheckLogic =>
    case StartHandler =>
    case Connect =>
    case EndHandler =>
    case CompleteLogic =>
  }

  lemma LogicKeeps(s: Session, step: LogicStep)
    requires Inv(s) && CanLogic(s, step)
    ensures ReleaseHolds(DoLogic(s, step)) && Phases(DoLogic(s, step))
  {
    hide Sends, RememberedUnlessGivenUp, Callbacks, Counted, OneGeneration;
    match step
    case TakeLogic =>
    case CheckLogic =>
    case StartHandler =>
    case Connect =>
    case EndHandler =>
    case CompleteLogic =>
  }

  lemma SendKeeps(s: Session, step: SendStep)
    requires Inv(s) && CanSend(s, step)
    ensures var after := DoSend(s, step);
            Counted(after) && OneGeneration(after) && ReleaseHolds(after) && Phases(after)
  {
    hide RememberedUnlessGivenUp, LogicHolds, Callbacks, Stages;
    match step
    case Enter =>
    case Claim =>
    case Recheck =>
    case NothingSent(_) =>
    case PostSend(_) =>
  }

  lemma BreakKeeps(s: Session, step: BreakStep)
    requires Inv(s) && CanBreak(s, step)
    ensures var after := DoBreak(s, step);
            Counted(after) && OneGeneration(after) && ReleaseHolds(after) && Phases(after)
  {
    hide Sends, RememberedUnlessGivenUp, LogicHolds, Callbacks;
    match step
    case Transition(_) =>
    case SetFlag =>
    case Push =>
  }

  // --- The release thread ---

  lemma ReturnKeeps(s: Session)
    requires Inv(s) && Orderly(s, ByRelease(ReturnToPool))
    ensures var after := DoRelease(s, ReturnToPool);
            Counted(after) && OneGeneration(after) && ReleaseHolds(after) && Phases(after)
  {
    NoneLeft(s.posted);
    assert s.queue == [];
  }

  lemma ReleaseCounts(s: Session, step: ReleaseStep)
    requires Inv(s) && CanRelease(s, step) && step != ReturnToPool
    ensures Counted(DoRelease(s, step)) && OneGeneration(DoRelease(s, step)) && Phases(DoRelease(s, step))
  {
    hide Owned, Sends, ReleaseHolds;
    match step
    case TakeRelease =>
    case ReadLogic =>
    case ReadProcessing =>
    case CloseSocket =>
    case ReadNext =>
    case Clean =>
  }

  lemma ReleaseHeld(s: Session, step: ReleaseStep)
    requires Inv(s) && Orderly(s, ByRelease(step)) && step != ReturnToPool
    ensures ReleaseHolds(DoRelease(s, step))
  {
    hide OneGeneration, RememberedUnlessGivenUp, Callbacks;
    match step
    case TakeRelease =>
    case ReadLogic =>
    case ReadProcessing =>
    case CloseSocket =>
    case ReadNext =>
    case Clean =>
  }

  lemma Keeps(s: Session, step: Step)
    requires Inv(s) && Orderly(s, step)
    ensures Inv(Apply(s, step))
  {
    KeepsOwned(s, step);
    KeepsSends(s, step);
    hide Owned, Sends, Counted, OneGeneration, ReleaseHolds, Phases;
    hide DoBroker, DoWork, DoLogic, DoSend, DoBreak, DoRelease;
    match step
    case ByBroker(b) => BrokerCounts(s, b); BrokerHolds(s, b);
    case ByWorker(w) => WorkCounts(s, w); WorkGeneration(s, w); WorkPhases(s, w); WorkRelease(s, w);
    case ByLogic(l) => LogicCounts(s, l); LogicKeeps(s, l);
    case BySender(d) => SendKeeps(s, d);
    case ByBreaker(b) => BreakKeeps(s, b);
    case ByRelease(r) =>
      if r == ReturnToPool { ReturnKeeps(s); } else { ReleaseCounts(s, r); ReleaseHeld(s, r); }
  }

  // --- Whether the first check was right ---

  predicate Started(r: Release) {
    match r
    case Reading(second, _) => second
    case Cleaning => true
    case Returning => true
    case _ => false
  }

  // The first CanFinalizeIO is already right, and Disconnect finds the receive logic idle.
  predicate Accurate(s: Session) {
    && (s.release.Reading? ==> Confirmed(s, s.release.n))
    && (PastFirstCheck(s.release) ==> Drained(s))
    && (Started(s.release) ==> s.ioShutdown)
  }

  // Until the flag is set every context but the one at the worker is posted, so a worker posting
  // receives keeps outstandingRecvIo above zero.
  predicate AllPosted(s: Session) {
    && (!s.flag && s.state != DISCONNECTED && s.broker == NoBroker && s.worker != Failing && s.worker != Breaking ==>
          s.free <= 1 && (s.free == 1 ==> s.worker == RecvReleased || s.worker == Posting))
    && (s.worker == Posting && s.broker == NoBroker ==> s.free <= 1)
    && (s.release.Reading? && s.release.n >= 1 ==> s.worker != Posting)
    && !s.postedBehind
  }

  // After the I/O shutdown the socket stays closed.
  predicate SocketDown(s: Session) {
    && (s.ioShutdown && !s.release.Closing? ==> !s.socketOpen)
    && (s.release == Returning ==> !s.socketOpen)
  }

  ghost predicate Life(s: Session) {
    && Inv(s)
    && (!s.postedBehind ==> Accurate(s))
    && (!s.overtaken ==> SocketDown(s))
    && (!s.aborted && !s.lateFailure && !s.overtaken ==> AllPosted(s))
  }

  lemma InitialLife()
    ensures Life(INITIAL)
  {
    InitialInv();
  }

  lemma BrokerAccurate(s: Session, step: BrokerStep)
    requires Life(s) && CanBroker(s, step)
    ensures !DoBroker(s, step).postedBehind ==> Accurate(DoBroker(s, step))
    ensures !DoBroker(s, step).overtaken ==> SocketDown(DoBroker(s, step))
  {
    hide OneGeneration, Sends, RememberedUnlessGivenUp, LogicHolds, Callbacks, AllPosted, Counted;
    match step
    case Acquire =>
    case SetReserved =>
    case MakeSocket =>
    case FailSocket =>
    case EnterRecv =>
    case BrokerPost =>
    case BrokerPostFails =>
    case BrokerDone =>
    case Abort =>
  }

  lemma BrokerPosted(s: Session, step: BrokerStep)
    requires Life(s) && CanBroker(s, step)
    ensures var after := DoBroker(s, step);
            !after.aborted && !after.lateFailure && !after.overtaken ==> AllPosted(after)
  {
    hide OneGeneration, Sends, RememberedUnlessGivenUp, LogicHolds, Callbacks, Accurate, SocketDown;
    match step
    case Acquire =>
    case SetReserved =>
    case MakeSocket =>
    case FailSocket =>
    case EnterRecv =>
    case BrokerPost =>
    case BrokerPostFails =>
    case BrokerDone =>
    case Abort =>
  }

  lemma WorkAccurate(s: Session, step: WorkerStep)
    requires Life(s) && CanWork(s, step)
    ensures !DoWork(s, step).postedBehind ==> Accurate(DoWork(s, step))
    ensures !DoWork(s, step).overtaken ==> SocketDown(DoWork(s, step))
  {
    hide OneGeneration, AllPosted, RememberedUnlessGivenUp, Stages, Callbacks, Phases;
    match step
    case TakeRecv(g) => assert |s.posted| > 0;
    case CheckRecv =>
    case EnqueuePacket =>
    case DropPacket =>
    case FailRecv =>
    case ReleaseContext =>
    case EnterDoRecv =>
    case Post =>
    case PostFails =>
    case PostDone =>
    case TakeSend(g) => assert |s.sends| > 0;
    case CheckSend =>
    case EndSend(_) =>
    case TryTransition =>
    case Leave =>
  }

  lemma WorkPosted(s: Session, step: WorkerStep)
    requires Life(s) && CanWork(s, step)
    ensures var after := DoWork(s, step);
            !after.aborted && !after.lateFailure && !after.overtaken ==> AllPosted(after)
  {
    hide OneGeneration, Sends, RememberedUnlessGivenUp, LogicHolds, Stages, Accurate, SocketDown;
    match step
    case TakeRecv(_) =>
    case CheckRecv =>
    case EnqueuePacket =>
    case DropPacket =>
    case FailRecv =>
    case ReleaseContext =>
    case EnterDoRecv =>
    case Post =>
    case PostFails =>
    case PostDone =>
    case TakeSend(_) =>
    case CheckSend =>
    case EndSend(_) =>
    case TryTransition =>
    case Leave =>
  }

  ghost predicate LifeRest(s: Session) {
    && (!s.postedBehind ==> Accurate(s))
    && (!s.overtaken ==> SocketDown(s))
    && (!s.aborted && !s.lateFailure && !s.overtaken ==> AllPosted(s))
  }

  lemma LogicLife(s: Session, step: LogicStep)
    requires Life(s) && CanLogic(s, step)
    ensures LifeRest(DoLogic(s, step))
  {
    hide OneGeneration, Sends, RememberedUnlessGivenUp, Callbacks;
    match step
    case TakeLogic =>
    case CheckLogic =>
    case StartHandler =>
    case Connect =>
    case EndHandler =>
    case CompleteLogic =>
  }

  lemma SendLife(s: Session, step: SendStep)
    requires Life(s) && CanSend(s, step)
    ensures LifeRest(DoSend(s, step))
  {
    hide OneGeneration, Counted, RememberedUnlessGivenUp, Callbacks, LogicHolds;
    match step
    case Enter =>
    case Claim =>
    case Recheck =>
    case NothingSent(_) =>
    case PostSend(_) =>
  }

  lemma BreakLife(s: Session, step: BreakStep)
    requires Life(s) && CanBreak(s, step)
    ensures LifeRest(DoBreak(s, step))
  {
    hide OneGeneration, Sends, RememberedUnlessGivenUp, LogicHolds;
    match step
    case Transition(_) =>
    case SetFlag =>
    case Push =>
  }

  lemma ReleaseAccurate(s: Session, step: ReleaseStep)
    requires Life(s) && Orderly(s, ByRelease(step))
    ensures !DoRelease(s, step).postedBehind ==> Accurate(DoRelease(s, step))
    ensures !DoRelease(s, step).overtaken ==> SocketDown(DoRelease(s, step))
  {
    hide OneGeneration, Sends, RememberedUnlessGivenUp, Stages, AllPosted, Phases;
    match step
    case TakeRelease =>
    case ReadLogic =>
    case ReadProcessing =>
    case CloseSocket =>
    case ReadNext =>
    case Clean =>
    case ReturnToPool =>
  }

  lemma ReleasePosted(s: Session, step: ReleaseStep)
    requires Life(s) && Orderly(s, ByRelease(step))
    ensures var after := DoRelease(s, step);
            !after.aborted && !after.lateFailure && !after.overtaken ==> AllPosted(after)
  {
    hide OneGeneration, Sends, RememberedUnlessGivenUp, Stages, LogicHolds, Callbacks, Accurate, SocketDown, Phases;
    match step
    case TakeRelease =>
    case ReadLogic =>
    case ReadProcessing =>
    case CloseSocket =>
    case ReadNext =>
    case Clean =>
    case ReturnToPool =>
  }

  lemma LifeKeeps(s: Session, step: Step)
    requires Life(s) && Orderly(s, step)
    ensures Life(Apply(s, step))
  {
    Keeps(s, step);
    hide Inv, Accurate, AllPosted, SocketDown, DoBroker, DoWork, DoLogic, DoSend, DoBreak, DoRelease;
    match step
    case ByBroker(b) => BrokerAccurate(s, b); BrokerPosted(s, b);
    case ByWorker(w) => WorkAccurate(s, w); WorkPosted(s, w);
    case ByLogic(l) => LogicLife(s, l);
    case BySender(d) => SendLife(s, d);
    case ByBreaker(b) => BreakLife(s, b);
    case ByRelease(r) => ReleaseAccurate(s, r); ReleasePosted(s, r);
  }
}
