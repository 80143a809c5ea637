/**
 What every step of a session keeps, whatever the others do: who is going to release it, which
 callbacks have run, and, but for one step, who holds the send mode.
 */
module LifecycleOwners {
  import opened Common
  import opened Lifecycle

  // --- Who releases the session ---

  // One owner of the release at a time, and the flag set before the release thread sees the session.
  predicate OneRelease(s: Session) {
    var owners := (if s.breaker == NoBreaker then 0 else 1) + s.listed + (if s.release == Resting then 0 else 1);
    && owners <= 1
    && (owners == 1 ==> s.state == RELEASING)
    && (s.flag ==> s.state == RELEASING)
    && (s.ioShutdown ==> s.flag)
    && (s.breaker.Flagged? || s.listed > 0 || s.release != Resting ==> s.flag)
    && (s.breaker.Won? ==> !s.flag)
    && (s.worker == Breaking ==> s.breaker != NoBreaker && s.breaker.byWorker)
    && (s.breaker != NoBreaker && s.breaker.byWorker ==> s.worker == Breaking)
  }

  // Somebody is still going to release the session.
  predicate Remembered(s: Session) {
    s.breaker != NoBreaker || s.listed > 0 || s.release != Resting
  }

  // A session in RELEASING is forgotten exactly when Disconnect gave up.
  predicate RememberedUnlessGivenUp(s: Session) {
    && (s.gaveUp ==> s.state == RELEASING && !Remembered(s))
    && (s.state == RELEASING && !s.gaveUp ==> Remembered(s))
  }

  // Outside a life the session is in the pool or just taken from it.
  predicate Stages(s: Session) {
    && (s.pooled ==> s.state == DISCONNECTED)
    && (s.state == DISCONNECTED ==> s.pooled || s.broker == Acquired)
    && (s.broker == Acquired ==> s.state == DISCONNECTED && !s.pooled)
  }

  // --- Callbacks ---

  predicate HandlerMayRun(l: Logic) {
    l == Passed || l == Handling
  }

  predicate PastFirstCheck(r: Release) {
    match r
    case Resting => false
    case Checking(second) => second
    case SawNoLogic(second) => second
    case Closing(second) => second
    case Reading(second, n) => second || n >= 4
    case Cleaning => true
    case Returning => true
  }

  // The receive logic's counter and flag, and no handler once the logic was found idle under the flag.
  predicate LogicHolds(s: Session) {
    && s.pending == |s.queue| + (if s.logic == NoLogic then 0 else 1)
    && s.processing == (s.logic == Handling)
    && (PastFirstCheck(s.release) || (s.release.Reading? && s.release.n >= 2) ==> !HandlerMayRun(s.logic))
  }

  // OnDisconnected and OnReleased so far, and no packet handler from OnDisconnected on.
  predicate Callbacks(s: Session) {
    && s.onDisconnected == (if s.ioShutdown && !s.aborted then 1 else 0)
    && s.onReleased == (if s.release == Returning && !s.aborted then 1 else 0)
    && (s.ioShutdown || s.release.SawNoLogic? ==> !HandlerMayRun(s.logic))
    && (s.release.Closing? ==> s.ioShutdown) && (s.release.SawNoLogic? ==> !s.ioShutdown)
    && (s.state != RELEASING ==> !s.aborted)
  }

  predicate Owned(s: Session) {
    OneRelease(s) && RememberedUnlessGivenUp(s) && Stages(s) && LogicHolds(s) && Callbacks(s)
  }

  lemma InitialOwned()
    ensures Owned(INITIAL)
  {
  }

  lemma BrokerOwned(s: Session, step: BrokerStep)
    requires Owned(s) && CanBroker(s, step)
    ensures Owned(DoBroker(s, step))
  {
    match step
    case Acquire =>
    case SetReserved =>
    case MakeSocket =>
    case FailSocket =>
    case EnterRecv =>
    case BrokerPost =>
    case BrokerPostFails =>
    case BrokerDone =>
    case Abort =>
  }

  lemma WorkOwned(s: Session, step: WorkerStep)
    requires Owned(s) && CanWork(s, step)
    ensures Owned(DoWork(s, step))
  {
    match step
    case TakeRecv(_) =>
    case CheckRecv =>
    case EnqueuePacket =>
    case DropPacket =>
    case FailRecv =>
    case ReleaseContext =>
    case EnterDoRecv =>
    case Post =>
    case PostFails =>
    case PostDone =>
    case TakeSend(_) =>
    case CheckSend =>
    case EndSend(_) =>
    case TryTransition =>
    case Leave =>
  }

  lemma LogicOwned(s: Session, step: LogicStep)
    requires Owned(s) && CanLogic(s, step)
    ensures Owned(DoLogic(s, step))
  {
    match step
    case TakeLogic =>
    case CheckLogic =>
    case StartHandler =>
    case Connect =>
    case EndHandler =>
    case CompleteLogic =>
  }

  lemma SendOwned(s: Session, step: SendStep)
    requires Owned(s) && CanSend(s, step)
    ensures Owned(DoSend(s, step))
  {
    match step
    case Enter =>
    case Claim =>
    case Recheck =>
    case NothingSent(_) =>
    case PostSend(_) =>
  }

  lemma BreakOwned(s: Session, step: BreakStep)
    requires Owned(s) && CanBreak(s, step)
    ensures Owned(DoBreak(s, step))
  {
    match step
    case Transition(_) =>
    case SetFlag =>
    case Push =>
  }

  lemma ReleaseOwned(s: Session, step: ReleaseStep)
    requires Owned(s) && CanRelease(s, step)
    ensures Owned(DoRelease(s, step))
  {
    match step
    case TakeRelease =>
    case ReadLogic =>
    case ReadProcessing =>
    case CloseSocket =>
    case ReadNext =>
    case Clean =>
    case ReturnToPool =>
  }

  lemma KeepsOwned(s: Session, step: Step)
    requires Owned(s) && Enabled(s, step)
    ensures Owned(Apply(s, step))
  {
    hide Owned, DoBroker, DoWork, DoLogic, DoSend, DoBreak, DoRelease;
    match step
    case ByBroker(b) => BrokerOwned(s, b);
    case ByWorker(w) => WorkOwned(s, w);
    case ByLogic(l) => LogicOwned(s, l);
    case BySender(d) => SendOwned(s, d);
    case ByBreaker(b) => BreakOwned(s, b);
    case ByRelease(r) => ReleaseOwned(s, r);
  }

  // --- The send mode ---

  predicate Completing(w: Worker) {
    w.SendEntered? || w == SendCurrent
  }

  // Who has the send mode: a sender, the kernel, or the completion of the send.
  function Holders(s: Session): nat {
    s.claimed + s.building + |s.sends| + (if Completing(s.worker) then 1 else 0)
  }

  predicate SingleSender(s: Session) {
    Holders(s) == if s.sending then 1 else 0
  }

  // Sends are of this life, and once the send mode was found free under the flag it is only taken to
  // be given back.
  ghost predicate Sends(s: Session) {
    && SingleSender(s)
    && (forall g :: g in s.sends ==> g == s.generation)
    && (s.worker.SendEntered? ==> s.worker.generation == s.generation)
    && (PastFirstCheck(s.release) || (s.release.Reading? && s.release.n >= 3) ==> s.sending ==> s.claimed > 0)
  }

  // The session is re-initialised between a sender's CAS and its second release check.
  predicate ReturnsUnderSender(s: Session, step: Step) {
    step == ByRelease(ReturnToPool) && s.claimed > 0
  }

  lemma InitialSends()
    ensures Sends(INITIAL)
  {
  }

  lemma Removed(m: multiset<int>, g: int)
    requires g in m
    ensures |m[g := m[g] - 1]| == |m| - 1
    ensures forall x :: x in m[g := m[g] - 1] ==> x in m
  {
    assert m[g := m[g] - 1] == m - multiset{g};
  }

  lemma Inserted(m: multiset<int>, g: int)
    ensures |m[g := m[g] + 1]| == |m| + 1
    ensures forall x :: x in m[g := m[g] + 1] ==> x in m || x == g
  {
    assert m[g := m[g] + 1] == m + multiset{g};
  }

  lemma NoneLeft(m: multiset<int>)
    requires |m| == 0
    ensures forall g :: g !in m
  {
    assert m == multiset{};
  }

  lemma BrokerSends(s: Session, step: BrokerStep)
    requires Sends(s) && CanBroker(s, step)
    ensures Sends(DoBroker(s, step))
  {
    match step
    case Acquire =>
    case SetReserved =>
    case MakeSocket =>
    case FailSocket =>
    case EnterRecv =>
    case BrokerPost =>
    case BrokerPostFails =>
    case BrokerDone =>
    case Abort =>
  }

  lemma WorkSends(s: Session, step: WorkerStep)
    requires Sends(s) && CanWork(s, step)
    ensures Sends(DoWork(s, step))
  {
    match step
    case TakeRecv(_) =>
    case CheckRecv =>
    case EnqueuePacket =>
    case DropPacket =>
    case FailRecv =>
    case ReleaseContext =>
    case EnterDoRecv =>
    case Post =>
    case PostFails =>
    case PostDone =>
    case TakeSend(g) => Removed(s.sends, g);
    case CheckSend =>
    case EndSend(_) =>
    case TryTransition =>
    case Leave =>
  }

  lemma LogicSends(s: Session, step: LogicStep)
    requires Sends(s) && CanLogic(s, step)
    ensures Sends(DoLogic(s, step))
  {
    match step
    case TakeLogic =>
    case CheckLogic =>
    case StartHandler =>
    case Connect =>
    case EndHandler =>
    case CompleteLogic =>
  }

  lemma SendSends(s: Session, step: SendStep)
    requires Owned(s) && Sends(s) && CanSend(s, step)
    ensures Sends(DoSend(s, step))
  {
    hide RememberedUnlessGivenUp, Stages, LogicHolds, Callbacks;
    match step
    case Enter =>
    case Claim =>
    case Recheck =>
    case NothingSent(_) =>
    case PostSend(_) => Inserted(s.sends, s.generation);
  }

  lemma BreakSends(s: Session, step: BreakStep)
    requires Owned(s) && Sends(s) && CanBreak(s, step)
    ensures Sends(DoBreak(s, step))
  {
    hide RememberedUnlessGivenUp, Stages, LogicHolds, Callbacks;
    match step
    case Transition(_) =>
    case SetFlag =>
    case Push =>
  }

  lemma ReleaseSends(s: Session, step: ReleaseStep)
    requires Sends(s) && CanRelease(s, step) && !ReturnsUnderSender(s, ByRelease(step))
    ensures Sends(DoRelease(s, step))
  {
    match step
    case TakeRelease =>
    case ReadLogic =>
    case ReadProcessing =>
    case CloseSocket =>
    case ReadNext =>
    case Clean =>
    case ReturnToPool => NoneLeft(s.sends);
  }

  lemma KeepsSends(s: Session, step: Step)
    requires Owned(s) && Sends(s) && Enabled(s, step) && !ReturnsUnderSender(s, step)
    ensures Sends(Apply(s, step))
  {
    hide Owned, Sends, DoBroker, DoWork, DoLogic, DoSend, DoBreak, DoRelease;
    match step
    case ByBroker(b) => BrokerSends(s, b);
    case ByWorker(w) => WorkSends(s, w);
    case ByLogic(l) => LogicSends(s, l);
    case BySender(d) => SendSends(s, d);
    case ByBreaker(b) => BreakSends(s, b);
    case ByRelease(r) => ReleaseSends(s, r);
  }

  // Afterwards the send mode is free and that sender still holds it.
  lemma ReturnShows(s: Session, step: Step)
    requires Enabled(s, step) && ReturnsUnderSender(s, step)
    ensures !SingleSender(Apply(s, step))
  {
  }
}
