/**
 One session's lives, as one step per lock scope or atomic operation of the threads that touch it:
 the broker that reserves it, the I/O worker of its completion queue, its logic worker, senders,
 whoever disconnects it, and the release thread. `fault` records a counter taken below zero and a
 completion of an earlier generation; `cleanedEarly`, a cleanup for which the asserts of
 FinalizeRIOCleanup and SessionRIOContext::Cleanup fail.
 */
module Lifecycle {
  import opened Common

  const RECV_OUTSTANDING_COUNT: nat := 8

  // InitReserveSession
  datatype Broker =
    | NoBroker
    | Acquired       // taken from the pool
    | Reserved       // after SetReserved
    | SocketMade     // after SetSocket and InitializeRIO
    | BrokerPosting  // in DoRecv, past the release check, holding the socket lock
    | BrokerFailed   // about to AbortReservedSession

  // IOCompleted, with the one completion of this session its worker may be in
  datatype Worker =
    | Waiting
    | RecvEntered(generation: int)  // counted by BeginIOCompletion
    | RecvCurrent(generation: int)  // of the current generation
    | RecvDone                      // packet enqueued or dropped, before ReleaseRecvContext
    | RecvFailed                    // before ReleaseRecvContext
    | RecvReleased                  // before DoRecv
    | Posting                       // in DoRecv, past the release check, holding the socket lock
    | SendEntered(generation: int)
    | SendCurrent
    | Failing                       // about to DoDisconnect
    | Breaking                      // in DoDisconnect, having made the transition
    | Leaving                       // before CompleteIOCompletion

  // ProcessRecvIOCompletedContext
  datatype Logic =
    | NoLogic
    | Taken(generation: int)
    | Passed    // TryDispatchRecvPacket's checks passed, nowInProcessingRecvPacket not yet set
    | Handling  // a packet handler may run
    | Finished  // before CompleteRecvLogic

  // DoDisconnect or AbortReservedSession, by the thread that made the transition
  datatype Breaker = NoBreaker | Won(byWorker: bool) | Flagged(byWorker: bool)

  // TryFinalizeSessionRelease; `second` in Disconnect's own checks
  datatype Release =
    | Resting
    | Checking(second: bool)             // in BeginIOShutdown
    | SawNoLogic(second: bool)           // pendingRecvLogic was 0
    | Closing(second: bool)              // ioShutdownStarted taken, OnDisconnected called
    | Reading(second: bool, n: nat)      // in CanFinalizeIO, n conditions held
    | Cleaning                           // past the second CanFinalizeIO
    | Returning                          // OnReleased called, before ReleaseSession

  datatype Session = Session(
    state: SessionState,
    flag: bool,              // nowInReleaseThread
    aborted: bool,           // the reason is BY_ABORT_RESERVED
    generation: int,
    ioShutdown: bool,        // ioShutdownStarted
    socketOpen: bool,        // the socket is open and its request queue valid
    free: nat,               // freeRecvContexts
    posted: multiset<int>,   // receives with the kernel, by generation
    outstanding: int,        // outstandingRecvIo
    queue: seq<int>,         // received packets for the logic worker, by generation
    pending: int,            // pendingRecvLogic
    active: int,             // activeIOCompletions
    processing: bool,        // nowInProcessingRecvPacket
    sending: bool,           // the send mode is IO_SENDING
    sends: multiset<int>,    // sends with the kernel, by generation
    entering: nat,           // threads in DoSend past its first release check, before the CAS
    claimed: nat,            // threads after a successful CAS, before the second release check
    building: nat,           // threads making a stream
    broker: Broker,
    worker: Worker,
    logic: Logic,
    breaker: Breaker,
    listed: nat,             // entries in releaseSessionIdList
    release: Release,
    pooled: bool,
    onDisconnected: nat,     // history: calls in this life
    onReleased: nat,
    lateFailure: bool,       // history: a failure of this life lost the transition while the flag was unset
    overtaken: bool,         // history: the release thread took this session before its broker was done
    postedBehind: bool,      // history: a receive was posted after this attempt to release read outstandingRecvIo
    gaveUp: bool,            // history: Disconnect returned without finishing
    cleanedEarly: bool,
    fault: bool)

  const INITIAL: Session :=
    Session(
      state := DISCONNECTED, flag := false, aborted := false, generation := 1, ioShutdown := false, socketOpen := false,
      free := RECV_OUTSTANDING_COUNT, posted := multiset{}, outstanding := 0, queue := [], pending := 0, active := 0,
      processing := false, sending := false, sends := multiset{}, entering := 0, claimed := 0, building := 0,
      broker := NoBroker, worker := Waiting, logic := NoLogic, breaker := NoBreaker, listed := 0, release := Resting,
      pooled := true, onDisconnected := 0, onReleased := 0, lateFailure := false, overtaken := false,
      postedBehind := false, gaveUp := false, cleanedEarly := false, fault := false)

  datatype BrokerStep =
    | Acquire
    | SetReserved
    | MakeSocket
    | FailSocket
    | EnterRecv
    | BrokerPost
    | BrokerPostFails
    | BrokerDone
    | Abort

  datatype WorkerStep =
    | TakeRecv(generation: int)
    | CheckRecv
    | EnqueuePacket
    | DropPacket
    | FailRecv
    | ReleaseContext
    | EnterDoRecv
    | Post
    | PostFails
    | PostDone
    | TakeSend(generation: int)
    | CheckSend
    | EndSend(failed: bool)
    | TryTransition
    | Leave

  datatype LogicStep = TakeLogic | CheckLogic | StartHandler | Connect | EndHandler | CompleteLogic

  datatype SendStep =
    | Enter
    | Claim
    | Recheck
    | NothingSent(again: bool)  // nothing to send, or a datagram dropped on purpose; `again` tries the CAS once more
    | PostSend(accepted: bool)

  datatype BreakStep = Transition(abort: bool) | SetFlag | Push

  datatype ReleaseStep = TakeRelease | ReadLogic | ReadProcessing | CloseSocket | ReadNext | Clean | ReturnToPool

  datatype Step =
    | ByBroker(broker: BrokerStep)
    | ByWorker(worker: WorkerStep)
    | ByLogic(logic: LogicStep)
    | BySender(send: SendStep)
    | ByBreaker(breaker: BreakStep)
    | ByRelease(release: ReleaseStep)

  // --- RecvBuffer's counters ---

  // An attempt to release the session has read outstandingRecvIo.
  predicate Behind(r: Release) {
    match r
    case Resting => false
    case Checking(second) => second
    case SawNoLogic(second) => second
    case Closing(second) => second
    case Reading(second, n) => second || n >= 1
    case Cleaning => true
    case Returning => true
  }

  function BeginRecvIo(s: Session): (r: Session)
    ensures r == s.(free := r.free, outstanding := r.outstanding, posted := r.posted, postedBehind := r.postedBehind)
  {
    s.(free := if s.free > 0 then s.free - 1 else 0, outstanding := s.outstanding + 1,
       posted := s.posted[s.generation := s.posted[s.generation] + 1],
       postedBehind := s.postedBehind || Behind(s.release))
  }

  function ReleaseRecvContext(s: Session): (r: Session)
    ensures r == s.(free := r.free, outstanding := r.outstanding, fault := r.fault)
  {
    s.(free := s.free + 1, outstanding := s.outstanding - 1, fault := s.fault || s.outstanding <= 0)
  }

  function CompleteRecvLogic(s: Session): (r: Session)
    ensures r == s.(pending := r.pending, fault := r.fault)
  {
    s.(pending := s.pending - 1, fault := s.fault || s.pending <= 0)
  }

  predicate Unreleased(s: Session) {
    s.state == RESERVED || s.state == CONNECTED
  }

  // --- The broker ---

  predicate CanBroker(s: Session, step: BrokerStep) {
    match step
    case Acquire => s.pooled
    case SetReserved => s.broker == Acquired
    case MakeSocket => s.broker == Reserved
    case FailSocket => s.broker == Reserved || s.broker == SocketMade
    case EnterRecv => s.broker == SocketMade
    case BrokerPost => s.broker == BrokerPosting && s.free > 0
    case BrokerPostFails => s.broker == BrokerPosting && s.free > 0
    case BrokerDone => s.broker == BrokerPosting && s.free == 0
    case Abort => s.broker == BrokerFailed
  }

  function DoBroker(s: Session, step: BrokerStep): Session {
    match step
    case Acquire => s.(pooled := false, broker := Acquired)
    case SetReserved => s.(state := RESERVED, broker := Reserved)
    case MakeSocket => s.(socketOpen := true, broker := SocketMade)
    case FailSocket => s.(broker := BrokerFailed)
    case EnterRecv => s.(broker := if s.flag then NoBroker else if s.socketOpen then BrokerPosting else BrokerFailed)
    case BrokerPost => BeginRecvIo(s)
    case BrokerPostFails => s.(broker := BrokerFailed)
    case BrokerDone => s.(broker := NoBroker)
    case Abort =>
      var wins := s.state == RESERVED;
      s.(state := if wins then RELEASING else s.state, aborted := wins || s.aborted,
         breaker := if wins then Won(false) else s.breaker, broker := NoBroker,
         lateFailure := s.lateFailure || !wins)
  }

  // --- The I/O worker ---

  predicate CanWork(s: Session, step: WorkerStep) {
    match step
    case TakeRecv(g) => s.worker == Waiting && g in s.posted
    case CheckRecv => s.worker.RecvEntered?
    case EnqueuePacket => s.worker.RecvCurrent?
    case DropPacket => s.worker.RecvCurrent?
    case FailRecv => s.worker.RecvCurrent?
    case ReleaseContext => s.worker == RecvDone || s.worker == RecvFailed
    case EnterDoRecv => s.worker == RecvReleased
    case Post => s.worker == Posting && s.free > 0
    case PostFails => s.worker == Posting && s.free > 0
    case PostDone => s.worker == Posting && s.free == 0
    case TakeSend(g) => s.worker == Waiting && g in s.sends
    case CheckSend => s.worker.SendEntered?
    case EndSend(_) => s.worker == SendCurrent
    case TryTransition => s.worker == Failing
    case Leave => s.worker == Leaving
  }

  // A failed completion of a session already being released is expected.
  function DoWork(s: Session, step: WorkerStep): Session
    requires CanWork(s, step)
  {
    match step
    case TakeRecv(g) => s.(posted := s.posted[g := s.posted[g] - 1], worker := RecvEntered(g), active := s.active + 1)
    case CheckRecv =>
      var stale := s.worker.generation != s.generation;
      s.(worker := if stale then RecvDone else RecvCurrent(s.worker.generation), fault := s.fault || stale)
    case EnqueuePacket => s.(queue := s.queue + [s.worker.generation], pending := s.pending + 1, worker := RecvDone)
    case DropPacket => s.(worker := RecvDone)
    case FailRecv => s.(worker := RecvFailed)
    case ReleaseContext => ReleaseRecvContext(s).(worker := if s.worker == RecvDone then RecvReleased else Failing)
    case EnterDoRecv => s.(worker := if s.flag then Leaving else if s.socketOpen then Posting else Failing)
    case Post => BeginRecvIo(s)
    case PostFails => s.(worker := Failing)
    case PostDone => s.(worker := Leaving)
    case TakeSend(g) => s.(sends := s.sends[g := s.sends[g] - 1], worker := SendEntered(g), active := s.active + 1)
    case CheckSend =>
      var stale := s.worker.generation != s.generation;
      s.(worker := if stale then Leaving else SendCurrent, fault := s.fault || stale)
    case EndSend(failed) => s.(sending := false, worker := if failed then Failing else Leaving)
    case TryTransition =>
      var wins := Unreleased(s);
      s.(state := if wins then RELEASING else s.state, aborted := !wins && s.aborted,
         breaker := if wins then Won(true) else s.breaker, worker := if wins then Breaking else Leaving,
         lateFailure := s.lateFailure || (!wins && !s.flag))
    case Leave => s.(worker := Waiting, active := s.active - 1, fault := s.fault || s.active <= 0)
  }

  // --- The logic worker ---

  // The client hears of a session only from a broker that is done setting it up.
  predicate CanLogic(s: Session, step: LogicStep) {
    match step
    case TakeLogic => s.logic == NoLogic && s.queue != []
    case CheckLogic => s.logic.Taken?
    case StartHandler => s.logic == Passed
    case Connect => s.logic == Handling && s.broker == NoBroker
    case EndHandler => s.logic == Handling
    case CompleteLogic => s.logic == Finished
  }

  function DoLogic(s: Session, step: LogicStep): Session
    requires CanLogic(s, step)
  {
    match step
    case TakeLogic => s.(logic := Taken(s.queue[0]), queue := s.queue[1..])
    case CheckLogic => s.(logic := if s.logic.generation != s.generation || s.flag then Finished else Passed)
    case StartHandler => s.(processing := true, logic := Handling)
    case Connect => s.(state := if s.state == RESERVED then CONNECTED else s.state)
    case EndHandler => s.(processing := false, logic := Finished)
    case CompleteLogic => CompleteRecvLogic(s).(logic := NoLogic)
  }

  // --- Senders ---

  // A send call begun in an earlier life may get to DoSend in this one, so Enter asks only for the flag.
  predicate CanSend(s: Session, step: SendStep) {
    match step
    case Enter => !s.flag
    case Claim => s.entering > 0
    case Recheck => s.claimed > 0
    case NothingSent(_) => s.building > 0
    case PostSend(_) => s.building > 0
  }

  function DoSend(s: Session, step: SendStep): Session
    requires CanSend(s, step)
  {
    match step
    case Enter => s.(entering := s.entering + 1)
    case Claim =>
      s.(entering := s.entering - 1, sending := true, claimed := if s.sending then s.claimed else s.claimed + 1)
    case Recheck =>
      s.(claimed := s.claimed - 1, sending := s.sending && !s.flag,
         building := if s.flag then s.building else s.building + 1)
    case NothingSent(again) =>
      s.(building := s.building - 1, sending := false, entering := if again then s.entering + 1 else s.entering)
    case PostSend(accepted) =>
      var posted := accepted && s.socketOpen;
      s.(building := s.building - 1, sending := s.sending && posted,
         sends := if posted then s.sends[s.generation := s.sends[s.generation] + 1] else s.sends)
  }

  // --- Disconnecting ---

  predicate CanBreak(s: Session, step: BreakStep) {
    match step
    case Transition(abort) => s.breaker == NoBreaker && (s.state == RESERVED || (!abort && s.state == CONNECTED))
    case SetFlag => s.breaker.Won?
    case Push => s.breaker.Flagged?
  }

  function DoBreak(s: Session, step: BreakStep): Session
    requires CanBreak(s, step)
  {
    match step
    case Transition(abort) => s.(state := RELEASING, aborted := abort, breaker := Won(false))
    case SetFlag => s.(flag := true, breaker := Flagged(s.breaker.byWorker))
    case Push =>
      s.(listed := s.listed + 1, breaker := NoBreaker, worker := if s.breaker.byWorker then Leaving else s.worker)
  }

  // --- The release thread ---

  predicate Unlocked(s: Session) {
    s.worker != Posting && s.broker != BrokerPosting
  }

  predicate CanRelease(s: Session, step: ReleaseStep) {
    match step
    case TakeRelease => s.release == Resting && s.listed > 0
    case ReadLogic => s.release.Checking?
    case ReadProcessing => s.release.SawNoLogic?
    case CloseSocket => s.release.Closing? && Unlocked(s)
    case ReadNext => s.release.Reading?
    case Clean => s.release == Cleaning
    case ReturnToPool => s.release == Returning
  }

  // What CanFinalizeIO reads, in the order it reads them.
  predicate ReadsQuiet(s: Session, n: nat) {
    match n
    case 0 => s.outstanding == 0
    case 1 => s.pending == 0
    case 2 => !s.sending
    case 3 => s.active == 0
    case _ => !s.processing
  }

  predicate CanFinalizeIO(s: Session) {
    ReadsQuiet(s, 0) && ReadsQuiet(s, 1) && ReadsQuiet(s, 2) && ReadsQuiet(s, 3) && ReadsQuiet(s, 4)
  }

  function DoRelease(s: Session, step: ReleaseStep): Session
    requires CanRelease(s, step)
  {
    match step
    case TakeRelease =>
      s.(listed := s.listed - 1, release := if s.flag then Checking(false) else Resting, postedBehind := false,
         overtaken := s.overtaken || s.broker != NoBroker)
    case ReadLogic =>
      var second := s.release.second;
      s.(release := if s.ioShutdown || s.pending != 0 then Reading(second, 0) else SawNoLogic(second))
    case ReadProcessing =>
      var second := s.release.second;
      s.(release := if s.processing then Reading(second, 0) else Closing(second),
         ioShutdown := s.ioShutdown || !s.processing,
         onDisconnected := if s.processing || s.aborted then s.onDisconnected else s.onDisconnected + 1)
    case CloseSocket => s.(release := Reading(s.release.second, 0), socketOpen := false)
    case ReadNext =>
      var second := s.release.second;
      var n := s.release.n;
      var quiet := ReadsQuiet(s, n);
      // the first time the session goes back to the list; Disconnect just returns
      s.(listed := if quiet || second then s.listed else s.listed + 1,
         gaveUp := s.gaveUp || (second && !quiet),
         release := if !quiet then Resting
                    else if n < 4 then Reading(second, n + 1)
                    else if second then Cleaning
                    else Checking(true))
    case Clean =>
      s.(release := Returning, cleanedEarly := s.cleanedEarly || !CanFinalizeIO(s), socketOpen := false,
         onReleased := if s.aborted then s.onReleased else s.onReleased + 1)
    case ReturnToPool =>
      s.(generation := s.generation + 1, flag := false, processing := false, ioShutdown := false,
         fault := s.fault || s.active != 0, active := 0, aborted := false, sending := false,
         state := DISCONNECTED, release := Resting, pooled := true, onDisconnected := 0, onReleased := 0,
         lateFailure := false, overtaken := false, postedBehind := false)
  }

  predicate Enabled(s: Session, step: Step) {
    match step
    case ByBroker(b) => CanBroker(s, b)
    case ByWorker(w) => CanWork(s, w)
    case ByLogic(l) => CanLogic(s, l)
    case BySender(d) => CanSend(s, d)
    case ByBreaker(b) => CanBreak(s, b)
    case ByRelease(r) => CanRelease(s, r)
  }

  function Apply(s: Session, step: Step): Session
    requires Enabled(s, step)
  {
    match step
    case ByBroker(b) => DoBroker(s, b)
    case ByWorker(w) => DoWork(s, w)
    case ByLogic(l) => DoLogic(s, l)
    case BySender(d) => DoSend(s, d)
    case ByBreaker(b) => DoBreak(s, b)
    case ByRelease(r) => DoRelease(s, r)
  }
}
