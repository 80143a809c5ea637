/**
 Concrete runs in which a session is forgotten, misses a callback, or is re-initialised too early. Each
 is put together from stretches that leave the fields they do not name as they are.
 */
module LifecycleExamples {
  import opened Common
  import opened Lifecycle
  import opened LifecycleOwners
  import opened LifecycleProofs
  import opened LifecycleRuns

  // --- Reaching a state step by step ---

  ghost predicate Reaches(end: Session) {
    exists steps :: Run(INITIAL, steps, end)
  }

  lemma {:induction false} RunAppend(s: Session, steps: seq<Step>, mid: Session, step: Step)
    requires Run(s, steps, mid) && Enabled(mid, step)
    ensures Run(s, steps + [step], Apply(mid, step))
    decreases |steps|
  {
    hide Enabled, Apply;
    if steps == [] {
      assert [step][1..] == [];
      assert Run(Apply(s, step), [], Apply(mid, step));
    } else {
      assert (steps + [step])[1..] == steps[1..] + [step];
      RunAppend(Apply(s, steps[0]), steps[1..], mid, step);
    }
  }

  lemma NoSteps()
    ensures Reaches(INITIAL)
  {
    assert Run(INITIAL, [], INITIAL);
  }

  lemma Then(mid: Session, step: Step, end: Session)
    requires Reaches(mid) && Enabled(mid, step) && Apply(mid, step) == end
    ensures Reaches(end)
  {
    hide Enabled, Apply;
    var steps :| Run(INITIAL, steps, mid);
    RunAppend(INITIAL, steps, mid, step);
  }

  lemma BrokerGoes(mid: Session, step: BrokerStep, end: Session)
    requires Reaches(mid) && CanBroker(mid, step) && DoBroker(mid, step) == end
    ensures Reaches(end)
  {
    hide Reaches, DoBroker;
    Then(mid, ByBroker(step), end);
  }

  lemma WorkerGoes(mid: Session, step: WorkerStep, end: Session)
    requires Reaches(mid) && CanWork(mid, step) && DoWork(mid, step) == end
    ensures Reaches(end)
  {
    hide Reaches, DoWork;
    Then(mid, ByWorker(step), end);
  }

  lemma LogicGoes(mid: Session, step: LogicStep, end: Session)
    requires Reaches(mid) && CanLogic(mid, step) && DoLogic(mid, step) == end
    ensures Reaches(end)
  {
    hide Reaches, DoLogic;
    Then(mid, ByLogic(step), end);
  }

  lemma SenderGoes(mid: Session, step: SendStep, end: Session)
    requires Reaches(mid) && CanSend(mid, step) && DoSend(mid, step) == end
    ensures Reaches(end)
  {
    hide Reaches, DoSend;
    Then(mid, BySender(step), end);
  }

  lemma BreakerGoes(mid: Session, step: BreakStep, end: Session)
    requires Reaches(mid) && CanBreak(mid, step) && DoBreak(mid, step) == end
    ensures Reaches(end)
  {
    hide Reaches, DoBreak;
    Then(mid, ByBreaker(step), end);
  }

  lemma ReleaseGoes(mid: Session, step: ReleaseStep, end: Session)
    requires Reaches(mid) && CanRelease(mid, step) && DoRelease(mid, step) == end
    ensures Reaches(end)
  {
    hide Reaches, DoRelease;
    Then(mid, ByRelease(step), end);
  }

  // --- A session in parts ---

  // What I/O worker and logic worker do with receives of this generation.
  datatype Io = Io(
    worker: Worker,
    logic: Logic,
    posted: nat,
    outstanding: nat,
    free: nat,
    queued: bool,  // one packet waits for the logic worker
    late: bool,
    behind: bool)

  // Where the session is on its way from RESERVED to its release.
  datatype Fate = Fate(
    state: SessionState,
    flag: bool,
    aborted: bool,
    broker: Broker,
    ioShutdown: bool,
    socketOpen: bool,
    breaker: Breaker,
    listed: nat,
    release: Release,
    onDisconnected: nat,
    onReleased: nat,
    overtaken: bool,
    gaveUp: bool)

  // What senders do, and whether a cleanup ran too early because of them.
  datatype Senders = Senders(
    sending: bool,
    sends: multiset<int>,
    entering: nat,
    claimed: nat,
    building: nat,
    cleanedEarly: bool)

  function Posted(g: int, count: nat): multiset<int> {
    multiset{}[g := count]
  }

  // A session of generation g that is not in the pool.
  function Make(g: int, io: Io, f: Fate, d: Senders): Session {
    Session(
      state := f.state, flag := f.flag, aborted := f.aborted, generation := g, ioShutdown := f.ioShutdown,
      socketOpen := f.socketOpen, free := io.free, posted := Posted(g, io.posted), outstanding := io.outstanding,
      queue := if io.queued then [g] else [],
      pending := (if io.queued then 1 else 0) + (if io.logic == NoLogic then 0 else 1),
      active := if io.worker == Waiting then 0 else 1, processing := io.logic == Handling, sending := d.sending,
      sends := d.sends, entering := d.entering, claimed := d.claimed, building := d.building, broker := f.broker,
      worker := io.worker, logic := io.logic, breaker := f.breaker, listed := f.listed, release := f.release,
      pooled := false, onDisconnected := f.onDisconnected, onReleased := f.onReleased, lateFailure := io.late,
      overtaken := f.overtaken, postedBehind := io.behind, gaveUp := f.gaveUp, cleanedEarly := d.cleanedEarly,
      fault := false)
  }

  const ALL_POSTED := Io(Waiting, NoLogic, RECV_OUTSTANDING_COUNT, RECV_OUTSTANDING_COUNT, 0, false, false, false)

  const CONNECTED_FATE: Fate :=
    Fate(
      state := CONNECTED, flag := false, aborted := false, broker := NoBroker, ioShutdown := false, socketOpen := true,
      breaker := NoBreaker, listed := 0, release := Resting, onDisconnected := 0, onReleased := 0, overtaken := false,
      gaveUp := false)

  // Nobody sends, but for senders left over from an earlier life, which was cleaned up too early then.
  function LeftOver(claimed: nat): Senders {
    Senders(false, multiset{}, 0, claimed, 0, claimed > 0)
  }

  // --- Steps of the I/O worker ---

  lemma OneLess(g: int, count: nat)
    requires count > 0
    ensures g in Posted(g, count) && Posted(g, count)[g := Posted(g, count)[g] - 1] == Posted(g, count - 1)
  {
  }

  lemma Takes(g: int, io: Io, f: Fate, d: Senders)
    requires io.worker == Waiting && io.posted > 0
    requires Reaches(Make(g, io, f, d))
    ensures Reaches(Make(g, io.(worker := RecvEntered(g), posted := io.posted - 1), f, d))
  {
    OneLess(g, io.posted);
    hide Reaches, Posted;
    WorkerGoes(Make(g, io, f, d), TakeRecv(g), Make(g, io.(worker := RecvEntered(g), posted := io.posted - 1), f, d));
  }

  lemma Checks(g: int, io: Io, f: Fate, d: Senders)
    requires io.worker == RecvEntered(g)
    requires Reaches(Make(g, io, f, d))
    ensures Reaches(Make(g, io.(worker := RecvCurrent(g)), f, d))
  {
    hide Reaches;
    WorkerGoes(Make(g, io, f, d), CheckRecv, Make(g, io.(worker := RecvCurrent(g)), f, d));
  }

  lemma Enqueues(g: int, io: Io, f: Fate, d: Senders)
    requires io.worker == RecvCurrent(g) && !io.queued
    requires Reaches(Make(g, io, f, d))
    ensures Reaches(Make(g, io.(worker := RecvDone, queued := true), f, d))
  {
    hide Reaches;
    WorkerGoes(Make(g, io, f, d), EnqueuePacket, Make(g, io.(worker := RecvDone, queued := true), f, d));
  }

  lemma FailsAtKernel(g: int, io: Io, f: Fate, d: Senders)
    requires io.worker == RecvCurrent(g)
    requires Reaches(Make(g, io, f, d))
    ensures Reaches(Make(g, io.(worker := RecvFailed), f, d))
  {
    hide Reaches;
    WorkerGoes(Make(g, io, f, d), FailRecv, Make(g, io.(worker := RecvFailed), f, d));
  }

  lemma Releases(g: int, io: Io, f: Fate, d: Senders, next: Worker)
    requires io.outstanding > 0
    requires (io.worker == RecvDone && next == RecvReleased) || (io.worker == RecvFailed && next == Failing)
    requires Reaches(Make(g, io, f, d))
    ensures Reaches(Make(g, io.(worker := next, free := io.free + 1, outstanding := io.outstanding - 1), f, d))
  {
    hide Reaches, Posted;
    var s := Make(g, io, f, d);
    ReleasesTo(s, next);
    hide DoWork;
    WorkerGoes(s, ReleaseContext,
               Make(g, io.(worker := next, free := io.free + 1, outstanding := io.outstanding - 1), f, d));
  }

  lemma ReleasesTo(s: Session, next: Worker)
    requires s.outstanding > 0
    requires (s.worker == RecvDone && next == RecvReleased) || (s.worker == RecvFailed && next == Failing)
    ensures DoWork(s, ReleaseContext) == s.(worker := next, free := s.free + 1, outstanding := s.outstanding - 1)
  {
  }

  lemma EntersDoRecv(g: int, io: Io, f: Fate, d: Senders)
    requires io.worker == RecvReleased && (f.flag || f.socketOpen)
    requires Reaches(Make(g, io, f, d))
    ensures Reaches(Make(g, io.(worker := if f.flag then Leaving else Posting), f, d))
  {
    hide Reaches;
    WorkerGoes(Make(g, io, f, d), EnterDoRecv, Make(g, io.(worker := if f.flag then Leaving else Posting), f, d));
  }

  lemma Posts(g: int, io: Io, f: Fate, d: Senders)
    requires io.worker == Posting && io.free > 0
    requires Reaches(Make(g, io, f, d))
    ensures Reaches(Make(g, io.(free := io.free - 1, posted := io.posted + 1, outstanding := io.outstanding + 1,
                                behind := io.behind || Behind(f.release)), f, d))
  {
    hide Reaches;
    assert Posted(g, io.posted)[g := io.posted + 1] == Posted(g, io.posted + 1);
    WorkerGoes(Make(g, io, f, d), Post,
               Make(g, io.(free := io.free - 1, posted := io.posted + 1, outstanding := io.outstanding + 1,
                           behind := io.behind || Behind(f.release)), f, d));
  }

  lemma StopsPosting(g: int, io: Io, f: Fate, d: Senders)
    requires io.worker == Posting && io.free == 0
    requires Reaches(Make(g, io, f, d))
    ensures Reaches(Make(g, io.(worker := Leaving), f, d))
  {
    hide Reaches;
    WorkerGoes(Make(g, io, f, d), PostDone, Make(g, io.(worker := Leaving), f, d));
  }

  lemma LosesTransition(g: int, io: Io, f: Fate, d: Senders)
    requires io.worker == Failing && f.state == RELEASING
    requires Reaches(Make(g, io, f, d))
    ensures Reaches(Make(g, io.(worker := Leaving, late := io.late || !f.flag), f, d))
  {
    hide Reaches;
    WorkerGoes(Make(g, io, f, d), TryTransition, Make(g, io.(worker := Leaving, late := io.late || !f.flag), f, d));
  }

  lemma Leaves(g: int, io: Io, f: Fate, d: Senders)
    requires io.worker == Leaving
    requires Reaches(Make(g, io, f, d))
    ensures Reaches(Make(g, io.(worker := Waiting), f, d))
  {
    hide Reaches;
    WorkerGoes(Make(g, io, f, d), Leave, Make(g, io.(worker := Waiting), f, d));
  }

  // --- Steps of the logic worker ---

  lemma TakesPacket(g: int, io: Io, f: Fate, d: Senders)
    requires io.logic == NoLogic && io.queued
    requires Reaches(Make(g, io, f, d))
    ensures Reaches(Make(g, io.(logic := Taken(g), queued := false), f, d))
  {
    hide Reaches;
    LogicGoes(Make(g, io, f, d), TakeLogic, Make(g, io.(logic := Taken(g), queued := false), f, d));
  }

  lemma ChecksPacket(g: int, io: Io, f: Fate, d: Senders)
    requires io.logic == Taken(g)
    requires Reaches(Make(g, io, f, d))
    ensures Reaches(Make(g, io.(logic := if f.flag then Finished else Passed), f, d))
  {
    hide Reaches;
    LogicGoes(Make(g, io, f, d), CheckLogic, Make(g, io.(logic := if f.flag then Finished else Passed), f, d));
  }

  lemma StartsHandler(g: int, io: Io, f: Fate, d: Senders)
    requires io.logic == Passed
    requires Reaches(Make(g, io, f, d))
    ensures Reaches(Make(g, io.(logic := Handling), f, d))
  {
    hide Reaches;
    LogicGoes(Make(g, io, f, d), StartHandler, Make(g, io.(logic := Handling), f, d));
  }

  lemma HandlerConnects(g: int, io: Io, f: Fate, d: Senders)
    requires io.logic == Handling && f.state == RESERVED && f.broker == NoBroker
    requires Reaches(Make(g, io, f, d))
    ensures Reaches(Make(g, io, f.(state := CONNECTED), d))
  {
    hide Reaches;
    LogicGoes(Make(g, io, f, d), Connect, Make(g, io, f.(state := CONNECTED), d));
  }

  lemma EndsHandler(g: int, io: Io, f: Fate, d: Senders)
    requires io.logic == Handling
    requires Reaches(Make(g, io, f, d))
    ensures Reaches(Make(g, io.(logic := Finished), f, d))
  {
    hide Reaches;
    LogicGoes(Make(g, io, f, d), EndHandler, Make(g, io.(logic := Finished), f, d));
  }

  lemma CompletesPacket(g: int, io: Io, f: Fate, d: Senders)
    requires io.logic == Finished
    requires Reaches(Make(g, io, f, d))
    ensures Reaches(Make(g, io.(logic := NoLogic), f, d))
  {
    hide Reaches;
    LogicGoes(Make(g, io, f, d), CompleteLogic, Make(g, io.(logic := NoLogic), f, d));
  }

  // --- Steps of the release ---

  lemma Transitions(g: int, io: Io, f: Fate, d: Senders)
    requires f.breaker == NoBreaker && f.state == CONNECTED && !f.aborted
    requires Reaches(Make(g, io, f, d))
    ensures Reaches(Make(g, io, f.(state := RELEASING, breaker := Won(false)), d))
  {
    hide Reaches;
    BreakerGoes(Make(g, io, f, d), Transition(false), Make(g, io, f.(state := RELEASING, breaker := Won(false)), d));
  }

  lemma SetsFlag(g: int, io: Io, f: Fate, d: Senders)
    requires f.breaker == Won(false)
    requires Reaches(Make(g, io, f, d))
    ensures Reaches(Make(g, io, f.(flag := true, breaker := Flagged(false)), d))
  {
    hide Reaches;
    BreakerGoes(Make(g, io, f, d), SetFlag, Make(g, io, f.(flag := true, breaker := Flagged(false)), d));
  }

  lemma Lists(g: int, io: Io, f: Fate, d: Senders)
    requires f.breaker == Flagged(false)
    requires Reaches(Make(g, io, f, d))
    ensures Reaches(Make(g, io, f.(breaker := NoBreaker, listed := f.listed + 1), d))
  {
    hide Reaches;
    BreakerGoes(Make(g, io, f, d), Push, Make(g, io, f.(breaker := NoBreaker, listed := f.listed + 1), d));
  }

  lemma TakesSession(g: int, io: Io, f: Fate, d: Senders)
    requires f.release == Resting && f.listed > 0 && f.flag
    requires Reaches(Make(g, io, f, d))
    ensures Reaches(Make(g, io.(behind := false), f.(listed := f.listed - 1, release := Checking(false),
                                                     overtaken := f.overtaken || f.broker != NoBroker), d))
  {
    hide Reaches;
    ReleaseGoes(Make(g, io, f, d), TakeRelease,
                Make(g, io.(behind := false), f.(listed := f.listed - 1, release := Checking(false),
                                                 overtaken := f.overtaken || f.broker != NoBroker), d));
  }

  lemma FindsLogicBusy(g: int, io: Io, f: Fate, d: Senders)
    requires f.release.Checking? && (f.ioShutdown || io.queued)
    requires Reaches(Make(g, io, f, d))
    ensures Reaches(Make(g, io, f.(release := Reading(f.release.second, 0)), d))
  {
    hide Reaches;
    ReleaseGoes(Make(g, io, f, d), ReadLogic, Make(g, io, f.(release := Reading(f.release.second, 0)), d));
  }

  lemma FindsLogicIdle(g: int, io: Io, f: Fate, d: Senders)
    requires f.release.Checking? && !f.ioShutdown && !io.queued && io.logic == NoLogic
    requires Reaches(Make(g, io, f, d))
    ensures Reaches(Make(g, io, f.(release := SawNoLogic(f.release.second)), d))
  {
    hide Reaches;
    ReleaseGoes(Make(g, io, f, d), ReadLogic, Make(g, io, f.(release := SawNoLogic(f.release.second)), d));
  }

  lemma StartsShutdown(g: int, io: Io, f: Fate, d: Senders)
    requires f.release.SawNoLogic? && !f.ioShutdown && io.logic == NoLogic
    requires Reaches(Make(g, io, f, d))
    ensures Reaches(Make(g, io, f.(release := Closing(f.release.second), ioShutdown := true,
                                   onDisconnected := if f.aborted then f.onDisconnected else f.onDisconnected + 1), d))
  {
    hide Reaches;
    ReleaseGoes(Make(g, io, f, d), ReadProcessing,
                Make(g, io, f.(release := Closing(f.release.second), ioShutdown := true,
                               onDisconnected := if f.aborted then f.onDisconnected else f.onDisconnected + 1), d));
  }

  lemma Closes(g: int, io: Io, f: Fate, d: Senders)
    requires f.release.Closing? && io.worker != Posting && f.broker != BrokerPosting
    requires Reaches(Make(g, io, f, d))
    ensures Reaches(Make(g, io, f.(release := Reading(f.release.second, 0), socketOpen := false), d))
  {
    hide Reaches;
    ReleaseGoes(Make(g, io, f, d), CloseSocket,
                Make(g, io, f.(release := Reading(f.release.second, 0), socketOpen := false), d));
  }

  predicate FindsQuiet(io: Io, d: Senders, n: nat) {
    match n
    case 0 => io.outstanding == 0
    case 1 => !io.queued && io.logic == NoLogic
    case 2 => !d.sending
    case 3 => io.worker == Waiting
    case _ => io.logic != Handling
  }

  function AfterRead(second: bool, n: nat): Release {
    if n < 4 then Reading(second, n + 1) else if second then Cleaning else Checking(true)
  }

  lemma ReadsQuietly(g: int, io: Io, f: Fate, d: Senders)
    requires f.release.Reading? && FindsQuiet(io, d, f.release.n)
    requires Reaches(Make(g, io, f, d))
    ensures Reaches(Make(g, io, f.(release := AfterRead(f.release.second, f.release.n)), d))
  {
    hide Reaches;
    ReleaseGoes(Make(g, io, f, d), ReadNext, Make(g, io, f.(release := AfterRead(f.release.second, f.release.n)), d));
  }

  lemma GivesUp(g: int, io: Io, f: Fate, d: Senders)
    requires f.release.Reading? && f.release.second && !FindsQuiet(io, d, f.release.n)
    requires Reaches(Make(g, io, f, d))
    ensures Reaches(Make(g, io, f.(release := Resting, gaveUp := true), d))
  {
    hide Reaches;
    ReleaseGoes(Make(g, io, f, d), ReadNext, Make(g, io, f.(release := Resting, gaveUp := true), d));
  }

  lemma CleansTo(s: Session, early: bool)
    requires s.release == Cleaning && !s.aborted && early == !CanFinalizeIO(s)
    ensures DoRelease(s, Clean) == s.(release := Returning, cleanedEarly := s.cleanedEarly || early,
                                      socketOpen := false, onReleased := s.onReleased + 1)
  {
  }

  lemma Cleans(g: int, io: Io, f: Fate, d: Senders)
    requires f.release == Cleaning && !f.aborted && io.worker == Waiting && io.logic == NoLogic && !io.queued
    requires Reaches(Make(g, io, f, d))
    ensures Reaches(Make(g, io, f.(release := Returning, socketOpen := false, onReleased := f.onReleased + 1),
                         d.(cleanedEarly := d.cleanedEarly || io.outstanding != 0 || d.sending)))
  {
    hide Reaches;
    var s := Make(g, io, f, d);
    var early := s.cleanedEarly || io.outstanding != 0 || s.sending;
    CleansTo(s, io.outstanding != 0 || s.sending);
    hide CanFinalizeIO, Posted, DoRelease;
    ReleaseGoes(s, Clean, Make(g, io, f.(release := Returning, socketOpen := false, onReleased := f.onReleased + 1),
                               d.(cleanedEarly := early)));
  }

  // --- Steps of senders ---

  lemma Enters(g: int, io: Io, f: Fate, d: Senders)
    requires !f.flag
    requires Reaches(Make(g, io, f, d))
    ensures Reaches(Make(g, io, f, d.(entering := d.entering + 1)))
  {
    hide Reaches;
    SenderGoes(Make(g, io, f, d), Enter, Make(g, io, f, d.(entering := d.entering + 1)));
  }

  lemma Claims(g: int, io: Io, f: Fate, d: Senders)
    requires d.entering > 0 && !d.sending
    requires Reaches(Make(g, io, f, d))
    ensures Reaches(Make(g, io, f, d.(entering := d.entering - 1, sending := true, claimed := d.claimed + 1)))
  {
    hide Reaches;
    SenderGoes(Make(g, io, f, d), Claim,
               Make(g, io, f, d.(entering := d.entering - 1, sending := true, claimed := d.claimed + 1)));
  }

  lemma Rechecks(g: int, io: Io, f: Fate, d: Senders)
    requires d.claimed > 0 && !f.flag
    requires Reaches(Make(g, io, f, d))
    ensures Reaches(Make(g, io, f, d.(claimed := d.claimed - 1, building := d.building + 1)))
  {
    hide Reaches;
    SenderGoes(Make(g, io, f, d), Recheck, Make(g, io, f, d.(claimed := d.claimed - 1, building := d.building + 1)));
  }

  lemma SendsNothing(g: int, io: Io, f: Fate, d: Senders)
    requires d.building > 0
    requires Reaches(Make(g, io, f, d))
    ensures Reaches(Make(g, io, f, d.(building := d.building - 1, sending := false)))
  {
    hide Reaches;
    SenderGoes(Make(g, io, f, d), NothingSent(false), Make(g, io, f, d.(building := d.building - 1, sending := false)));
  }

  lemma PostsSend(g: int, io: Io, f: Fate, d: Senders)
    requires d.building > 0 && d.sending && f.socketOpen
    requires Reaches(Make(g, io, f, d))
    ensures Reaches(Make(g, io, f, d.(building := d.building - 1, sends := d.sends[g := d.sends[g] + 1])))
  {
    hide Reaches;
    SenderGoes(Make(g, io, f, d), PostSend(true),
               Make(g, io, f, d.(building := d.building - 1, sends := d.sends[g := d.sends[g] + 1])));
  }

  // --- Stretches ---

  // A packet is received and queued; its context is free again.
  lemma Receives(g: int, io: Io, f: Fate, d: Senders)
    requires io.worker == Waiting && io.posted > 0 && io.outstanding > 0 && !io.queued
    requires Reaches(Make(g, io, f, d))
    ensures Reaches(Make(g, io.(worker := RecvReleased, posted := io.posted - 1, outstanding := io.outstanding - 1,
                                free := io.free + 1, queued := true), f, d))
  {
    hide Reaches, Make;
    Takes(g, io, f, d);
    var a := io.(worker := RecvEntered(g), posted := io.posted - 1);
    Checks(g, a, f, d);
    Enqueues(g, a.(worker := RecvCurrent(g)), f, d);
    Releases(g, a.(worker := RecvDone, queued := true), f, d, RecvReleased);
  }

  // In a session being released a packet is received, its context not posted again, and the packet
  // dropped by the logic worker.
  lemma Absorbs(g: int, io: Io, f: Fate, d: Senders)
    requires io.worker == Waiting && io.logic == NoLogic && io.posted > 0 && io.outstanding > 0 && !io.queued && f.flag
    requires Reaches(Make(g, io, f, d))
    ensures Reaches(Make(g, io.(posted := io.posted - 1, outstanding := io.outstanding - 1, free := io.free + 1), f, d))
  {
    hide Reaches, Make;
    Receives(g, io, f, d);
    var a := io.(posted := io.posted - 1, outstanding := io.outstanding - 1, free := io.free + 1);
    EntersDoRecv(g, a.(worker := RecvReleased, queued := true), f, d);
    Leaves(g, a.(worker := Leaving, queued := true), f, d);
    Drops(g, a.(queued := true), f, d);
  }

  lemma Drops(g: int, io: Io, f: Fate, d: Senders)
    requires io.logic == NoLogic && io.queued && f.flag
    requires Reaches(Make(g, io, f, d))
    ensures Reaches(Make(g, io.(queued := false), f, d))
  {
    hide Reaches, Make;
    TakesPacket(g, io, f, d);
    ChecksPacket(g, io.(queued := false, logic := Taken(g)), f, d);
    CompletesPacket(g, io.(queued := false, logic := Finished), f, d);
  }

  // A receive fails in a session that is RELEASING already.
  lemma Fails(g: int, io: Io, f: Fate, d: Senders)
    requires io.worker == Waiting && io.posted > 0 && io.outstanding > 0 && f.state == RELEASING
    requires Reaches(Make(g, io, f, d))
    ensures Reaches(Make(g, io.(posted := io.posted - 1, outstanding := io.outstanding - 1, free := io.free + 1,
                                late := io.late || !f.flag), f, d))
  {
    hide Reaches, Make;
    Takes(g, io, f, d);
    var a := io.(worker := RecvEntered(g), posted := io.posted - 1);
    Checks(g, a, f, d);
    FailsAtKernel(g, a.(worker := RecvCurrent(g)), f, d);
    Releases(g, a.(worker := RecvFailed), f, d, Failing);
    var b := a.(worker := Failing, free := io.free + 1, outstanding := io.outstanding - 1);
    LosesTransition(g, b, f, d);
    Leaves(g, b.(worker := Leaving, late := io.late || !f.flag), f, d);
  }

  function Lost(io: Io, count: nat, late: bool): Io
    requires count <= io.posted && count <= io.outstanding
  {
    io.(posted := io.posted - count, outstanding := io.outstanding - count, free := io.free + count,
        late := io.late || (late && count > 0))
  }

  lemma {:induction false} FailsMany(g: int, io: Io, f: Fate, d: Senders, count: nat)
    requires io.worker == Waiting && count <= io.posted && count <= io.outstanding && f.state == RELEASING
    requires Reaches(Make(g, io, f, d))
    ensures Reaches(Make(g, Lost(io, count, !f.flag), f, d))
    decreases count
  {
    hide Reaches, Make;
    if count == 0 {
      assert Lost(io, 0, !f.flag) == io;
    } else {
      FailsMany(g, io, f, d, count - 1);
      Fails(g, Lost(io, count - 1, !f.flag), f, d);
    }
  }

  lemma {:induction false} AbsorbsMany(g: int, io: Io, f: Fate, d: Senders, count: nat)
    requires io.worker == Waiting && io.logic == NoLogic && !io.queued && f.flag
    requires count <= io.posted && count <= io.outstanding && Reaches(Make(g, io, f, d))
    ensures Reaches(Make(g, Lost(io, count, false), f, d))
    decreases count
  {
    hide Reaches, Make;
    if count == 0 {
      assert Lost(io, 0, false) == io;
    } else {
      AbsorbsMany(g, io, f, d, count - 1);
      Absorbs(g, Lost(io, count - 1, false), f, d);
    }
  }

  function Reposted(io: Io, count: nat, behind: bool): Io
    requires count <= io.free
  {
    io.(posted := io.posted + count, outstanding := io.outstanding + count, free := io.free - count,
        behind := io.behind || (behind && count > 0))
  }

  lemma {:induction false} PostsMany(g: int, io: Io, f: Fate, d: Senders, count: nat)
    requires io.worker == Posting && count <= io.free && Reaches(Make(g, io, f, d))
    ensures Reaches(Make(g, Reposted(io, count, Behind(f.release)), f, d))
    decreases count
  {
    hide Reaches, Make;
    if count == 0 {
      assert Reposted(io, 0, Behind(f.release)) == io;
    } else {
      PostsMany(g, io, f, d, count - 1);
      Posts(g, Reposted(io, count - 1, Behind(f.release)), f, d);
    }
  }

  // The worker posts every free context and leaves.
  lemma PostsAll(g: int, io: Io, f: Fate, d: Senders)
    requires io.worker == Posting && Reaches(Make(g, io, f, d))
    ensures Reaches(Make(g, Reposted(io, io.free, Behind(f.release)).(worker := Waiting), f, d))
  {
    hide Reaches, Make;
    PostsMany(g, io, f, d, io.free);
    var a := Reposted(io, io.free, Behind(f.release));
    StopsPosting(g, a, f, d);
    Leaves(g, a.(worker := Leaving), f, d);
  }

  // --- From the pool to CONNECTED ---

  // In the pool, with senders left over from an earlier life.
  function Pooled(g: int, claimed: nat): Session {
    INITIAL.(generation := g, claimed := claimed, cleanedEarly := claimed > 0)
  }

  const DRAINED: Io := ALL_POSTED.(posted := 0, outstanding := 0, free := RECV_OUTSTANDING_COUNT)

  // The broker is in DoRecv.
  const SETUP_FATE: Fate := CONNECTED_FATE.(state := RESERVED, broker := BrokerPosting)

  lemma EntersSetup(g: int, claimed: nat)
    requires Reaches(Pooled(g, claimed))
    ensures Reaches(Make(g, DRAINED, SETUP_FATE, LeftOver(claimed)))
  {
    hide Reaches;
    var a := Pooled(g, claimed);
    var b := a.(pooled := false, broker := Acquired);
    var c := b.(state := RESERVED, broker := Reserved);
    var d := c.(socketOpen := true, broker := SocketMade);
    BrokerGoes(a, Acquire, b);
    BrokerGoes(b, SetReserved, c);
    BrokerGoes(c, MakeSocket, d);
    assert Posted(g, 0) == multiset{};
    BrokerGoes(d, EnterRecv, Make(g, DRAINED, SETUP_FATE, LeftOver(claimed)));
  }

  lemma BrokerPosts(g: int, io: Io, f: Fate, d: Senders)
    requires f.broker == BrokerPosting && io.free > 0
    requires Reaches(Make(g, io, f, d))
    ensures Reaches(Make(g, Reposted(io, 1, Behind(f.release)), f, d))
  {
    OneMore(g, io.posted);
    hide Reaches, Posted;
    BrokerGoes(Make(g, io, f, d), BrokerPost, Make(g, Reposted(io, 1, Behind(f.release)), f, d));
  }

  lemma OneMore(g: int, count: nat)
    ensures Posted(g, count)[g := Posted(g, count)[g] + 1] == Posted(g, count + 1)
  {
  }

  lemma {:induction false} BrokerPostsMany(g: int, io: Io, f: Fate, d: Senders, count: nat)
    requires f.broker == BrokerPosting && count <= io.free && Reaches(Make(g, io, f, d))
    ensures Reaches(Make(g, Reposted(io, count, Behind(f.release)), f, d))
    decreases count
  {
    hide Reaches, Make;
    if count == 0 {
      assert Reposted(io, 0, Behind(f.release)) == io;
    } else {
      BrokerPostsMany(g, io, f, d, count - 1);
      BrokerPosts(g, Reposted(io, count - 1, Behind(f.release)), f, d);
    }
  }

  lemma BrokerStops(g: int, io: Io, f: Fate, d: Senders)
    requires f.broker == BrokerPosting
    requires Reaches(Make(g, io, f, d))
    ensures io.free == 0 ==> Reaches(Make(g, io, f.(broker := NoBroker), d))
    ensures io.free > 0 ==> Reaches(Make(g, io, f.(broker := BrokerFailed), d))
  {
    hide Reaches;
    if io.free == 0 {
      BrokerGoes(Make(g, io, f, d), BrokerDone, Make(g, io, f.(broker := NoBroker), d));
    } else {
      BrokerGoes(Make(g, io, f, d), BrokerPostFails, Make(g, io, f.(broker := BrokerFailed), d));
    }
  }

  lemma SetsUp(g: int, claimed: nat)
    requires Reaches(Pooled(g, claimed))
    ensures Reaches(Make(g, ALL_POSTED, CONNECTED_FATE.(state := RESERVED), LeftOver(claimed)))
  {
    EntersSetup(g, claimed);
    hide Reaches, Make;
    BrokerPostsMany(g, DRAINED, SETUP_FATE, LeftOver(claimed), RECV_OUTSTANDING_COUNT);
    BrokerStops(g, ALL_POSTED, SETUP_FATE, LeftOver(claimed));
  }

  // The CONNECT packet arrives, its context is posted again, and its handler connects the session.
  lemma Connects(g: int, claimed: nat)
    requires Reaches(Pooled(g, claimed))
    ensures Reaches(Make(g, ALL_POSTED, CONNECTED_FATE, LeftOver(claimed)))
  {
    SetsUp(g, claimed);
    hide Reaches, Make;
    var f, d := CONNECTED_FATE.(state := RESERVED), LeftOver(claimed);
    Receives(g, ALL_POSTED, f, d);
    var a := ALL_POSTED.(posted := 7, outstanding := 7, free := 1, queued := true);
    EntersDoRecv(g, a.(worker := RecvReleased), f, d);
    PostsAll(g, a.(worker := Posting), f, d);
    HandlesConnect(g, ALL_POSTED, f, d);
  }

  lemma HandlesConnect(g: int, io: Io, f: Fate, d: Senders)
    requires io.logic == NoLogic && f.state == RESERVED && f.broker == NoBroker && !f.flag
    requires Reaches(Make(g, io.(queued := true), f, d))
    ensures Reaches(Make(g, io.(queued := false), f.(state := CONNECTED), d))
  {
    hide Reaches, Make;
    var a := io.(queued := false);
    TakesPacket(g, io.(queued := true), f, d);
    ChecksPacket(g, a.(logic := Taken(g)), f, d);
    StartsHandler(g, a.(logic := Passed), f, d);
    HandlerConnects(g, a.(logic := Handling), f, d);
    EndsHandler(g, a.(logic := Handling), f.(state := CONNECTED), d);
    CompletesPacket(g, a.(logic := Finished), f.(state := CONNECTED), d);
  }

  lemma FirstLife()
    ensures Reaches(Make(1, ALL_POSTED, CONNECTED_FATE, LeftOver(0)))
  {
    NoSteps();
    hide Reaches, Make;
    assert Pooled(1, 0) == INITIAL;
    Connects(1, 0);
  }

  // --- From CONNECTED to the release ---

  // Disconnected, with the release thread at `release`.
  function ReleasingFate(release: Release): Fate {
    CONNECTED_FATE.(state := RELEASING, flag := true, release := release)
  }

  // In addition OnDisconnected has been called and the socket is closed.
  function ClosedFate(release: Release): Fate {
    ReleasingFate(release).(ioShutdown := true, onDisconnected := 1, socketOpen := false)
  }

  // The thread that made the transition goes on, and the release thread takes the session.
  lemma Released(g: int, io: Io, d: Senders)
    requires Reaches(Make(g, io, CONNECTED_FATE.(state := RELEASING, breaker := Won(false)), d))
    ensures Reaches(Make(g, io.(behind := false), ReleasingFate(Checking(false)), d))
  {
    hide Reaches, Make;
    var f := CONNECTED_FATE.(state := RELEASING, breaker := Won(false));
    SetsFlag(g, io, f, d);
    Lists(g, io, f.(flag := true, breaker := Flagged(false)), d);
    TakesSession(g, io, f.(flag := true, breaker := NoBreaker, listed := 1), d);
  }

  lemma ShutsDown(g: int, io: Io, d: Senders, second: bool)
    requires io.logic == NoLogic && !io.queued && io.worker == Waiting
    requires Reaches(Make(g, io, ReleasingFate(Checking(second)), d))
    ensures Reaches(Make(g, io, ClosedFate(Reading(second, 0)), d))
  {
    hide Reaches, Make;
    FindsLogicIdle(g, io, ReleasingFate(Checking(second)), d);
    StartsShutdown(g, io, ReleasingFate(SawNoLogic(second)), d);
    Closes(g, io, ReleasingFate(Closing(second)).(ioShutdown := true, onDisconnected := 1), d);
  }

  predicate Quiescent(io: Io) {
    io.outstanding == 0 && !io.queued && io.logic == NoLogic && io.worker == Waiting
  }

  lemma ReadsOneMore(g: int, io: Io, f: Fate, d: Senders, second: bool, n: nat)
    requires FindsQuiet(io, d, n) && f.release == Reading(second, n)
    requires Reaches(Make(g, io, f, d))
    ensures Reaches(Make(g, io, f.(release := AfterRead(second, n)), d))
  {
    hide Reaches, Make;
    ReadsQuietly(g, io, f, d);
  }

  lemma ReadsUpToSendMode(g: int, io: Io, f: Fate, d: Senders, second: bool)
    requires Quiescent(io) && f.release == Reading(second, 0) && Reaches(Make(g, io, f, d))
    ensures Reaches(Make(g, io, f.(release := Reading(second, 2)), d))
  {
    hide Reaches, Make;
    ReadsOneMore(g, io, f, d, second, 0);
    ReadsOneMore(g, io, f.(release := Reading(second, 1)), d, second, 1);
  }

  lemma ReadsFromSendMode(g: int, io: Io, f: Fate, d: Senders, second: bool)
    requires io.worker == Waiting && io.logic != Handling && !d.sending
    requires f.release == Reading(second, 2) && Reaches(Make(g, io, f, d))
    ensures Reaches(Make(g, io, f.(release := if second then Cleaning else Checking(true)), d))
  {
    hide Reaches, Make;
    ReadsOneMore(g, io, f, d, second, 2);
    ReadsPastSendMode(g, io, f.(release := Reading(second, 3)), d, second);
  }

  lemma ReadsPastSendMode(g: int, io: Io, f: Fate, d: Senders, second: bool)
    requires io.worker == Waiting && io.logic != Handling
    requires f.release == Reading(second, 3) && Reaches(Make(g, io, f, d))
    ensures Reaches(Make(g, io, f.(release := if second then Cleaning else Checking(true)), d))
  {
    hide Reaches, Make;
    ReadsOneMore(g, io, f, d, second, 3);
    ReadsOneMore(g, io, f.(release := Reading(second, 4)), d, second, 4);
  }

  lemma Drains(g: int, d: Senders)
    requires Reaches(Make(g, ALL_POSTED, CONNECTED_FATE, d))
    ensures Reaches(Make(g, DRAINED, ClosedFate(Reading(false, 0)), d))
  {
    hide Reaches, Make;
    Transitions(g, ALL_POSTED, CONNECTED_FATE, d);
    Released(g, ALL_POSTED, d);
    ShutsDown(g, ALL_POSTED, d, false);
    FailsMany(g, ALL_POSTED, ClosedFate(Reading(false, 0)), d, RECV_OUTSTANDING_COUNT);
  }

  // A connected session is disconnected, shut down and drained, and Disconnect's own CanFinalizeIO gets
  // as far as the send mode.
  lemma DrainsUpToSendMode(g: int, d: Senders)
    requires !d.sending && Reaches(Make(g, ALL_POSTED, CONNECTED_FATE, d))
    ensures Reaches(Make(g, DRAINED, ClosedFate(Reading(true, 2)), d))
  {
    hide Reaches, Make;
    Drains(g, d);
    ReadsUpToSendMode(g, DRAINED, ClosedFate(Reading(false, 0)), d, false);
    ReadsFromSendMode(g, DRAINED, ClosedFate(Reading(false, 2)), d, false);
    FindsLogicBusy(g, DRAINED, ClosedFate(Checking(true)), d);
    ReadsUpToSendMode(g, DRAINED, ClosedFate(Reading(true, 0)), d, true);
  }

  // --- A sender makes Disconnect give up ---

  // A send call passes its first release check and stalls. The session is disconnected and drains;
  // the sender takes the send mode just when Disconnect reads it, only to give it back.
  lemma SenderMakesReleaseForget()
    ensures exists s :: Reaches(s) && Forgotten(s) && !s.aborted && !s.lateFailure && s.onReleased == 0
  {
    hide Reaches, Make;
    FirstLife();
    Enters(1, ALL_POSTED, CONNECTED_FATE, LeftOver(0));
    var d := LeftOver(0).(entering := 1);
    DrainsUpToSendMode(1, d);
    Claims(1, DRAINED, ClosedFate(Reading(true, 2)), d);
    var e := LeftOver(0).(claimed := 1, sending := true);
    GivesUp(1, DRAINED, ClosedFate(Reading(true, 2)), e);
    ForgottenAfterGivingUp(DRAINED, ClosedFate(Resting).(gaveUp := true), e);
  }

  lemma ForgottenAfterGivingUp(io: Io, f: Fate, d: Senders)
    requires f.state == RELEASING && f.release == Resting && f.breaker == NoBreaker && f.listed == 0
    ensures Forgotten(Make(1, io, f, d)) && Make(1, io, f, d).aborted == f.aborted
    ensures Make(1, io, f, d).lateFailure == io.late && Make(1, io, f, d).onReleased == f.onReleased
    ensures Make(1, io, f, d).onDisconnected == f.onDisconnected && Make(1, io, f, d).claimed == d.claimed
  {
  }

  // --- Failures too late to disconnect ---

  const ALL_LATE := DRAINED.(late := true)

  // Seven receives fail between a DoDisconnect's transition and its flag. The context of an eighth,
  // received well, is about to be posted again with the others when the flag is set; meanwhile its
  // packet keeps the release thread from starting the I/O shutdown, and outstandingRecvIo reads 0.
  lemma LateFailuresHideReceives()
    ensures Reaches(Make(1, ALL_LATE.(worker := Posting), ReleasingFate(Reading(false, 1)), LeftOver(0)))
  {
    hide Reaches, Make;
    var f, d := CONNECTED_FATE.(state := RELEASING, breaker := Won(false)), LeftOver(0);
    FirstLife();
    Transitions(1, ALL_POSTED, CONNECTED_FATE, d);
    FailsMany(1, ALL_POSTED, f, d, 7);
    Receives(1, ALL_POSTED.(posted := 1, outstanding := 1, free := 7, late := true), f, d);
    var a := ALL_LATE.(queued := true);
    EntersDoRecv(1, a.(worker := RecvReleased), f, d);
    Released(1, a.(worker := Posting), d);
    FindsLogicBusy(1, a.(worker := Posting), ReleasingFate(Checking(false)), d);
    ReadsOneMore(1, a.(worker := Posting), ReleasingFate(Reading(false, 0)), d, false, 0);
    Drops(1, a.(worker := Posting), ReleasingFate(Reading(false, 1)), d);
  }

  const POSTED_BEHIND := ALL_POSTED.(late := true, behind := true)

  // So the first CanFinalizeIO holds with eight receives posted.
  lemma LateFailuresDeceiveRelease()
    ensures Reaches(Make(1, POSTED_BEHIND, ReleasingFate(Checking(true)), LeftOver(0)))
  {
    hide Reaches, Make;
    var a, d := ALL_LATE.(worker := Posting), LeftOver(0);
    LateFailuresHideReceives();
    ReadsOneMore(1, a, ReleasingFate(Reading(false, 1)), d, false, 1);
    ReadsOneMore(1, a, ReleasingFate(Reading(false, 2)), d, false, 2);
    PostsAll(1, a, ReleasingFate(Reading(false, 3)), d);
    ReadsPastSendMode(1, POSTED_BEHIND, ReleasingFate(Reading(false, 3)), d, false);
  }

  // Disconnect calls OnDisconnected, closes the socket, finds the receives outstanding, and returns for good.
  lemma LateFailuresMakeReleaseForget()
    ensures exists s :: Reaches(s) && Forgotten(s) && !s.aborted && s.claimed == 0 &&
                        s.onDisconnected == 1 && s.onReleased == 0
  {
    hide Reaches, Make;
    LateFailuresDeceiveRelease();
    ShutsDown(1, POSTED_BEHIND, LeftOver(0), true);
    GivesUp(1, POSTED_BEHIND, ClosedFate(Reading(true, 0)), LeftOver(0));
    ForgottenAfterGivingUp(POSTED_BEHIND, ClosedFate(Resting).(gaveUp := true), LeftOver(0));
  }

  // Or the receives complete while Disconnect starts: their packets keep it from starting the I/O
  // shutdown once more, then everything drains, and OnReleased is called without OnDisconnected.
  lemma LateFailuresSkipOnDisconnected()
    ensures exists s :: Reaches(s) && s.release == Returning && !s.aborted &&
                        s.onDisconnected == 0 && s.onReleased == 1
  {
    hide Reaches, Make;
    var d := LeftOver(0);
    LateFailuresDeceiveRelease();
    Receives(1, POSTED_BEHIND, ReleasingFate(Checking(true)), d);
    var a := POSTED_BEHIND.(posted := 7, outstanding := 7, free := 1, queued := true, worker := RecvReleased);
    FindsLogicBusy(1, a, ReleasingFate(Checking(true)), d);
    EntersDoRecv(1, a, ReleasingFate(Reading(true, 0)), d);
    Leaves(1, a.(worker := Leaving), ReleasingFate(Reading(true, 0)), d);
    Drops(1, a.(worker := Waiting), ReleasingFate(Reading(true, 0)), d);
    AbsorbsMany(1, a.(worker := Waiting, queued := false), ReleasingFate(Reading(true, 0)), d, 7);
    FinishesWithoutShutdown();
  }

  lemma FinishesWithoutShutdown()
    requires Reaches(Make(1, DRAINED.(late := true, behind := true), ReleasingFate(Reading(true, 0)), LeftOver(0)))
    ensures exists s :: Reaches(s) && s.release == Returning && !s.aborted &&
                        s.onDisconnected == 0 && s.onReleased == 1
  {
    hide Reaches;
    var a, d := DRAINED.(late := true, behind := true), LeftOver(0);
    ReadsUpToSendMode(1, a, ReleasingFate(Reading(true, 0)), d, true);
    ReadsFromSendMode(1, a, ReleasingFate(Reading(true, 2)), d, true);
    Cleans(1, a, ReleasingFate(Cleaning), d);
  }

  // --- A sender between two lives ---

  // A sender takes the send mode just after Disconnect has read it.
  lemma ClaimsBeforeCleanup()
    ensures Reaches(Make(1, DRAINED, ClosedFate(Cleaning), LeftOver(0).(claimed := 1, sending := true)))
    ensures Reaches(Make(1, DRAINED, ClosedFate(Returning).(onReleased := 1), LeftOver(1).(sending := true)))
  {
    hide Reaches, Make;
    FirstLife();
    Enters(1, ALL_POSTED, CONNECTED_FATE, LeftOver(0));
    var d := LeftOver(0).(entering := 1);
    DrainsUpToSendMode(1, d);
    ReadsOneMore(1, DRAINED, ClosedFate(Reading(true, 2)), d, true, 2);
    Claims(1, DRAINED, ClosedFate(Reading(true, 3)), d);
    var e := LeftOver(0).(claimed := 1, sending := true);
    ReadsPastSendMode(1, DRAINED, ClosedFate(Reading(true, 3)), e, true);
    Cleans(1, DRAINED, ClosedFate(Cleaning), e);
  }

  // The cleanup's asserts, which read the send mode again, fail in the life of a connected session.
  lemma SenderMakesCleanupEarly()
    ensures exists s :: Reaches(s) && s.release == Cleaning && !s.aborted && !s.lateFailure && !CanFinalizeIO(s)
    ensures exists s :: Reaches(s) && s.release == Returning && s.onReleased == 1 && s.cleanedEarly
  {
    ClaimsBeforeCleanup();
    hide Reaches;
    var before := Make(1, DRAINED, ClosedFate(Cleaning), LeftOver(0).(claimed := 1, sending := true));
    assert before.release == Cleaning && !CanFinalizeIO(before);
    var after := Make(1, DRAINED, ClosedFate(Returning).(onReleased := 1), LeftOver(1).(sending := true));
    assert after.cleanedEarly;
  }

  // The session is re-initialised before the sender's second release check.
  lemma SenderStraddlesRelease()
    ensures Reaches(Pooled(2, 1))
  {
    ClaimsBeforeCleanup();
    hide Reaches, Make;
    Returns(1, ClosedFate(Returning).(onReleased := 1), LeftOver(1).(sending := true));
  }

  lemma Returns(g: int, f: Fate, d: Senders)
    requires f.release == Returning && f.breaker == NoBreaker && f.listed == 0 && !f.gaveUp && !f.socketOpen
    requires f.broker == NoBroker
    requires Reaches(Make(g, DRAINED, f, d))
    ensures Reaches(INITIAL.(generation := g + 1, sends := d.sends, entering := d.entering, claimed := d.claimed,
                             building := d.building, cleanedEarly := d.cleanedEarly))
  {
    hide Reaches;
    assert Posted(g, 0) == multiset{};
    ReleaseGoes(Make(g, DRAINED, f, d), ReturnToPool,
                INITIAL.(generation := g + 1, sends := d.sends, entering := d.entering, claimed := d.claimed,
                         building := d.building, cleanedEarly := d.cleanedEarly));
  }

  // In the next life its second release check lets it go on, while the send mode is free.
  lemma TwoMakeStreams()
    ensures Reaches(Make(2, ALL_POSTED, CONNECTED_FATE, Senders(true, multiset{}, 0, 0, 2, true)))
  {
    hide Reaches, Make;
    SenderStraddlesRelease();
    Connects(2, 1);
    Rechecks(2, ALL_POSTED, CONNECTED_FATE, LeftOver(1));
    var d := LeftOver(1).(claimed := 0, building := 1);
    Enters(2, ALL_POSTED, CONNECTED_FATE, d);
    Claims(2, ALL_POSTED, CONNECTED_FATE, d.(entering := 1));
    Rechecks(2, ALL_POSTED, CONNECTED_FATE, d.(sending := true, claimed := 1));
  }

  // Two threads make a stream in the same buffer of a connected session.
  lemma StraddlingSenderSharesBuffer()
    ensures exists s :: Reaches(s) && s.state == CONNECTED && s.generation == 2 && s.building == 2
  {
    TwoMakeStreams();
    hide Reaches;
    assert Make(2, ALL_POSTED, CONNECTED_FATE, Senders(true, multiset{}, 0, 0, 2, true)).building == 2;
  }

  // One of them posts its send; the other has nothing to send and frees the send mode under it. The
  // session is released with that send outstanding, and its completion is of an earlier generation.
  lemma StraddlingSenderMakesCompletionStale()
    ensures exists s :: Reaches(s) && s.fault
  {
    hide Reaches, Make;
    TwoMakeStreams();
    PostsSend(2, ALL_POSTED, CONNECTED_FATE, Senders(true, multiset{}, 0, 0, 2, true));
    var sends := multiset{}[2 := 1];
    SendsNothing(2, ALL_POSTED, CONNECTED_FATE, Senders(true, sends, 0, 0, 1, true));
    var d := Senders(false, sends, 0, 0, 0, true);
    DrainsUpToSendMode(2, d);
    ReadsFromSendMode(2, DRAINED, ClosedFate(Reading(true, 2)), d, true);
    Cleans(2, DRAINED, ClosedFate(Cleaning), d);
    Returns(2, ClosedFate(Returning).(onReleased := 1), d);
    StaleCompletion(INITIAL.(generation := 3, sends := sends, cleanedEarly := true));
  }

  lemma StaleCompletion(s: Session)
    requires s == INITIAL.(generation := 3, sends := multiset{}[2 := 1], cleanedEarly := true) && Reaches(s)
    ensures exists r :: Reaches(r) && r.fault
  {
    hide Reaches;
    var a := s.(sends := multiset{}[2 := 1][2 := 0], active := 1, worker := SendEntered(2));
    WorkerGoes(s, TakeSend(2), a);
    WorkerGoes(a, CheckSend, a.(worker := Leaving, fault := true));
  }

  // --- Reservations given up during their setup ---

  // The broker posts one receive and fails at the second. The worker takes that one, queues its packet
  // and is about to post all contexts when the broker aborts; the rest is as with late failures,
  // although there was none.
  lemma AbortedSetupForgotten()
    ensures exists s :: Reaches(s) && Forgotten(s) && s.aborted && s.claimed == 0 && !s.lateFailure && !s.overtaken
  {
    AbortsWhilePosting();
    hide Reaches, Make;
    var a, f, d := DRAINED.(queued := true, worker := Posting), AbortedFate(Checking(false)), LeftOver(0);
    FindsLogicBusy(1, a, f, d);
    ReadsOneMore(1, a, AbortedFate(Reading(false, 0)), d, false, 0);
    Drops(1, a, AbortedFate(Reading(false, 1)), d);
    ReadsOneMore(1, DRAINED.(worker := Posting), AbortedFate(Reading(false, 1)), d, false, 1);
    ReadsOneMore(1, DRAINED.(worker := Posting), AbortedFate(Reading(false, 2)), d, false, 2);
    PostsAll(1, DRAINED.(worker := Posting), AbortedFate(Reading(false, 3)), d);
    ForgetsAborted();
  }

  function AbortedFate(release: Release): Fate {
    ReleasingFate(release).(aborted := true)
  }

  lemma AbortsWhilePosting()
    ensures Reaches(Make(1, DRAINED.(queued := true, worker := Posting), AbortedFate(Checking(false)), LeftOver(0)))
  {
    NoSteps();
    hide Reaches, Make;
    assert Pooled(1, 0) == INITIAL;
    EntersSetup(1, 0);
    var a, d := DRAINED.(posted := 1, outstanding := 1, free := 7), LeftOver(0);
    BrokerPosts(1, DRAINED, SETUP_FATE, d);
    BrokerStops(1, a, SETUP_FATE, d);
    var f := SETUP_FATE.(broker := BrokerFailed);
    Receives(1, a, f, d);
    EntersDoRecv(1, DRAINED.(queued := true, worker := RecvReleased), f, d);
    BrokerAborts(1, DRAINED.(queued := true, worker := Posting), f, d);
  }

  lemma BrokerAborts(g: int, io: Io, f: Fate, d: Senders)
    requires f == SETUP_FATE.(broker := BrokerFailed) && Reaches(Make(g, io, f, d))
    ensures Reaches(Make(g, io.(behind := false), AbortedFate(Checking(false)), d))
  {
    hide Reaches;
    var won := f.(state := RELEASING, aborted := true, broker := NoBroker, breaker := Won(false));
    BrokerGoes(Make(g, io, f, d), Abort, Make(g, io, won, d));
    hide Make;
    SetsFlag(g, io, won, d);
    Lists(g, io, won.(flag := true, breaker := Flagged(false)), d);
    TakesSession(g, io, won.(flag := true, breaker := NoBreaker, listed := 1), d);
  }

  lemma ForgetsAborted()
    requires Reaches(Make(1, ALL_POSTED.(behind := true), AbortedFate(Reading(false, 3)), LeftOver(0)))
    ensures exists s :: Reaches(s) && Forgotten(s) && s.aborted && s.claimed == 0 && !s.lateFailure && !s.overtaken
  {
    hide Reaches;
    var a, d := ALL_POSTED.(behind := true), LeftOver(0);
    ReadsPastSendMode(1, a, AbortedFate(Reading(false, 3)), d, false);
    FindsLogicIdle(1, a, AbortedFate(Checking(true)), d);
    StartsShutdown(1, a, AbortedFate(SawNoLogic(true)), d);
    Closes(1, a, AbortedFate(Closing(true)).(ioShutdown := true), d);
    GivesUp(1, a, AbortedFate(Reading(true, 0)).(ioShutdown := true, socketOpen := false), d);
  }

  // The heartbeat thread gives up the session while the broker posts receives. Each of the two checks
  // reads outstandingRecvIo while the one receive posted so far has completed and its packet keeps the
  // I/O shutdown, which would wait for the broker, from starting; then the broker posts another.
  lemma ReleaseOvertakesPosting()
    ensures exists s :: Reaches(s) && s.release == Cleaning && s.claimed == 0 && s.outstanding != 0
  {
    FirstCheckOvertakes();
    hide Reaches, Make;
    var d, one := LeftOver(0), DRAINED.(posted := 1, outstanding := 1, free := 7, behind := true);
    BrokerPosts(1, DRAINED, OvertakenFate(Checking(true)), d);
    ArrivesUnderFlag(1, one, OvertakenFate(Checking(true)), d);
    var a := DRAINED.(queued := true, behind := true);
    FindsLogicBusy(1, a, OvertakenFate(Checking(true)), d);
    ReadsOneMore(1, a, OvertakenFate(Reading(true, 0)), d, true, 0);
    Drops(1, a, OvertakenFate(Reading(true, 1)), d);
    BrokerPosts(1, DRAINED.(behind := true), OvertakenFate(Reading(true, 1)), d);
    ReadsOneMore(1, one, OvertakenFate(Reading(true, 1)), d, true, 1);
    ReachesCleaning();
  }

  lemma ReachesCleaning()
    requires Reaches(Make(1, DRAINED.(posted := 1, outstanding := 1, free := 7, behind := true),
                          OvertakenFate(Reading(true, 2)), LeftOver(0)))
    ensures exists s :: Reaches(s) && s.release == Cleaning && s.claimed == 0 && s.outstanding != 0
  {
    hide Reaches;
    var one := DRAINED.(posted := 1, outstanding := 1, free := 7, behind := true);
    ReadsFromSendMode(1, one, OvertakenFate(Reading(true, 2)), LeftOver(0), true);
  }

  function OvertakenFate(release: Release): Fate {
    AbortedFate(release).(broker := BrokerPosting, overtaken := true)
  }

  // In a session being released a packet is received and queued, its context not posted again.
  lemma ArrivesUnderFlag(g: int, io: Io, f: Fate, d: Senders)
    requires io.worker == Waiting && io.posted > 0 && io.outstanding > 0 && !io.queued && f.flag
    requires Reaches(Make(g, io, f, d))
    ensures Reaches(Make(g, io.(posted := io.posted - 1, outstanding := io.outstanding - 1, free := io.free + 1,
                                queued := true), f, d))
  {
    hide Reaches, Make;
    Receives(g, io, f, d);
    var a := io.(posted := io.posted - 1, outstanding := io.outstanding - 1, free := io.free + 1, queued := true);
    EntersDoRecv(g, a.(worker := RecvReleased), f, d);
    Leaves(g, a.(worker := Leaving), f, d);
  }

  lemma GivenUpBySomebody(g: int, io: Io, f: Fate, d: Senders)
    requires f == SETUP_FATE && Reaches(Make(g, io, f, d))
    ensures Reaches(Make(g, io, OvertakenFate(Resting).(listed := 1, overtaken := false), d))
  {
    hide Reaches;
    var won := f.(state := RELEASING, aborted := true, breaker := Won(false));
    BreakerGoes(Make(g, io, f, d), Transition(true), Make(g, io, won, d));
    hide Make;
    SetsFlag(g, io, won, d);
    Lists(g, io, won.(flag := true, breaker := Flagged(false)), d);
  }

  lemma FirstCheckOvertakes()
    ensures Reaches(Make(1, DRAINED, OvertakenFate(Checking(true)), LeftOver(0)))
  {
    FirstCheckStarts();
    hide Reaches, Make;
    var a, d := DRAINED.(queued := true), LeftOver(0);
    FindsLogicBusy(1, a, OvertakenFate(Checking(false)), d);
    ReadsOneMore(1, a, OvertakenFate(Reading(false, 0)), d, false, 0);
    Drops(1, a, OvertakenFate(Reading(false, 1)), d);
    ReadsOneMore(1, DRAINED, OvertakenFate(Reading(false, 1)), d, false, 1);
    ReadsFromSendMode(1, DRAINED, OvertakenFate(Reading(false, 2)), d, false);
  }

  lemma FirstCheckStarts()
    ensures Reaches(Make(1, DRAINED.(queued := true), OvertakenFate(Checking(false)), LeftOver(0)))
  {
    NoSteps();
    hide Reaches, Make;
    assert Pooled(1, 0) == INITIAL;
    EntersSetup(1, 0);
    var one, d := DRAINED.(posted := 1, outstanding := 1, free := 7), LeftOver(0);
    BrokerPosts(1, DRAINED, SETUP_FATE, d);
    GivenUpBySomebody(1, one, SETUP_FATE, d);
    var f := OvertakenFate(Resting).(listed := 1, overtaken := false);
    ArrivesUnderFlag(1, one, f, d);
    TakesSession(1, DRAINED.(queued := true), f, d);
  }

  // Aborted while RESERVED and closed, without any I/O, with the release thread at `release`.
  function AbortedAt(release: Release): Session {
    INITIAL.(state := RELEASING, flag := true, aborted := true, ioShutdown := true, pooled := false,
             broker := Reserved, overtaken := true, release := release)
  }

  lemma AbortedReadsAll(second: bool)
    requires Reaches(AbortedAt(Reading(second, 0)))
    ensures Reaches(AbortedAt(if second then Cleaning else Checking(true)))
  {
    hide Reaches;
    ReleaseGoes(AbortedAt(Reading(second, 0)), ReadNext, AbortedAt(Reading(second, 1)));
    ReleaseGoes(AbortedAt(Reading(second, 1)), ReadNext, AbortedAt(Reading(second, 2)));
    ReleaseGoes(AbortedAt(Reading(second, 2)), ReadNext, AbortedAt(Reading(second, 3)));
    ReleaseGoes(AbortedAt(Reading(second, 3)), ReadNext, AbortedAt(Reading(second, 4)));
    ReleaseGoes(AbortedAt(Reading(second, 4)), ReadNext, AbortedAt(if second then Cleaning else Checking(true)));
  }

  lemma ReachesReservedAbort()
    ensures Reaches(INITIAL.(state := RELEASING, flag := true, aborted := true, pooled := false, broker := Reserved,
                             listed := 1))
  {
    NoSteps();
    hide Reaches;
    var a := INITIAL.(pooled := false, broker := Acquired);
    var b := a.(state := RESERVED, broker := Reserved);
    var c := b.(state := RELEASING, aborted := true, breaker := Won(false));
    var d := c.(flag := true, breaker := Flagged(false));
    BrokerGoes(INITIAL, Acquire, a);
    BrokerGoes(a, SetReserved, b);
    BreakerGoes(b, Transition(true), c);
    BreakerGoes(c, SetFlag, d);
    BreakerGoes(d, Push, d.(listed := 1, breaker := NoBreaker));
  }

  lemma ReachesClosed()
    ensures Reaches(AbortedAt(Reading(false, 0)))
  {
    hide Reaches;
    ReachesReservedAbort();
    var a := INITIAL.(state := RELEASING, flag := true, aborted := true, pooled := false, broker := Reserved);
    var b := a.(overtaken := true);
    ReleaseGoes(a.(listed := 1), TakeRelease, b.(release := Checking(false)));
    ReleaseGoes(b.(release := Checking(false)), ReadLogic, b.(release := SawNoLogic(false)));
    ReleaseGoes(b.(release := SawNoLogic(false)), ReadProcessing, AbortedAt(Closing(false)));
    ReleaseGoes(AbortedAt(Closing(false)), CloseSocket, AbortedAt(Reading(false, 0)));
  }

  // The heartbeat thread gives up a session the broker is still setting up; the session goes back to
  // the pool, and then the broker posts a receive on it.
  lemma AbortDuringSetupBreaksBarrier()
    ensures exists s :: Reaches(s) && s.pooled && s.posted == multiset{s.generation}
  {
    hide Reaches;
    ReachesClosed();
    AbortedReadsAll(false);
    ReleaseGoes(AbortedAt(Checking(true)), ReadLogic, AbortedAt(Reading(true, 0)));
    AbortedReadsAll(true);
    ReleaseGoes(AbortedAt(Cleaning), Clean, AbortedAt(Returning));
    ReleaseGoes(AbortedAt(Returning), ReturnToPool, INITIAL.(generation := 2, broker := Reserved));
    BrokerGoesOn();
  }

  lemma BrokerGoesOn()
    requires Reaches(INITIAL.(generation := 2, broker := Reserved))
    ensures exists s :: Reaches(s) && s.pooled && s.posted == multiset{s.generation}
  {
    hide Reaches;
    var a := INITIAL.(generation := 2, broker := SocketMade, socketOpen := true);
    BrokerGoes(INITIAL.(generation := 2, broker := Reserved), MakeSocket, a);
    BrokerGoes(a, EnterRecv, a.(broker := BrokerPosting));
    var b := a.(broker := BrokerPosting, free := 7, outstanding := 1, posted := multiset{2});
    assert multiset{}[2 := 1] == multiset{2};
    BrokerGoes(a.(broker := BrokerPosting), BrokerPost, b);
    assert b.pooled;
  }
}
