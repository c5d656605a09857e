/** The sandbox control service as a state machine: its jobs, their journals, the
    queue that runs them one at a time, and its suspended handlers.  One event is
    the code between two awaits; events carry what was awaited, and whether the
    journal writes of that stretch reached the disk. */
module ControlModel {
  import opened SandboxTypes

  datatype Status = Accepted | Running | CleanupPending | Completed | Failed | Cancelled

  datatype ErrorCode = NoError | RunnerRestarted | CleanupFailed | Cancellation | ExecutionFailed | RestartVerified | FailureVerified

  /** What the workload answers to an execute request. */
  datatype Reply =
    | TransportError
    | HttpError(cleanupFailed: bool)
    | FenceAck(valid: bool)
    | Malformed
    | TerminalCancelled(receiptClean: bool)
    | TerminalFailed(cleanupFailed: bool)
    | TerminalCompleted(complete: bool, receiptClean: bool)

  /** Something the service has verified, in the order it did. */
  datatype Fact =
    | FenceAcked(bundle: Bundle)
    | RepairReceipt(bundle: Bundle)
    | WorkloadReplied(bundle: Bundle, reply: Reply)
    | WorkloadEmpty
    | AppAbsent(slug: string)

  /** History of a terminal job: the positions of its evidence among the facts. */
  datatype Proof =
    | Unproved
    | ByFence(ack: nat)
    | ByReply(reply: nat)
    | ByReplyAnd(reply: nat, empty: nat, absent: nat)
    | ByReplyAbsent(reply: nat, absent: nat)
    | ByRecovery(ack: nat, empty: nat, absent: nat)
    | ByRepair(ack: nat, empty: nat, absent: nat)

  datatype Job = Job(
    bundle: Bundle,
    status: Status,
    updatedAt: int,
    error: ErrorCode,
    repaired: bool,
    settled: bool,
    aborted: bool,
    proof: Proof)

  datatype Journal = Journal(bundle: Bundle, status: Status, updatedAt: int, error: ErrorCode, repaired: bool, proof: Proof)

  /** A job object: one created by this process, or one read back at start-up. */
  datatype JobRef = New(n: nat) | Old(a: AttemptId)

  /** `index` is the job map; the other two hold the job objects. */
  datatype Memory = Memory(created: map<nat, Job>, loaded: map<AttemptId, Job>, index: map<AttemptId, JobRef>)

  /** Where the job being run is suspended. */
  datatype RunPc =
    | Resting
    | AwaitingReply(job: nat, fencing: bool)
    | AwaitingFence(job: nat, reply: Reply, replyAt: nat)
    | Proving(job: nat, reply: Reply, replyAt: nat)

  datatype Queue = Queue(waiting: seq<nat>, run: RunPc)

  datatype Pc =
    | SubmitWaiting(bundle: Bundle)
    | CancelFencing(job: JobRef)
    | CancelSettling(job: JobRef)
    | RepairSettling(job: JobRef)
    | RepairFencing(job: JobRef)
    | RepairEmptying(job: JobRef, ack: nat)
    | RepairClearing(job: JobRef, ack: nat, empty: nat)
    | HealthFencing(fenced: map<AttemptId, nat>, pending: Option<JobRef>)
    | HealthPicking(fenced: map<AttemptId, nat>, empty: nat)
    | HealthClearing(fenced: map<AttemptId, nat>, empty: nat, job: JobRef, wasFailed: bool)

  datatype FenceCommand = FenceCommand(bundle: Bundle, expiresAt: int)

  /** History: verified facts, fences asked for, execute requests sent, attempts
      reaped, and attempts whose last journal write failed. */
  datatype History = History(
    facts: seq<Fact>,
    commands: set<FenceCommand>,
    sent: map<nat, Bundle>,
    reaped: set<AttemptId>,
    dirty: set<AttemptId>)

  datatype State = State(
    now: int,
    memory: Memory,
    disk: map<AttemptId, Journal>,
    queue: Queue,
    handlers: map<nat, Pc>,
    nextJob: nat,
    nextHandler: nat,
    log: History)

  datatype Event =
    | SubmitArrives(bundle: Bundle)
    | SubmitContinues(id: nat, ready: bool, written: bool)
    | RunNext(written: bool)
    | RunReplied(reply: Reply, written: bool)
    | RunFenced(ok: bool, written: bool)
    | RunProved(ok: bool, written: bool)
    | CancelArrives(attemptId: AttemptId, bundle: Bundle, written: bool)
    | CancelFenced(id: nat, acked: bool, written: bool)
    | CancelSettled(id: nat)
    | RepairSettled(id: nat, ok: bool)
    | RepairFenced(id: nat, verified: bool)
    | RepairEmptied(id: nat, ok: bool)
    | RepairCleared(id: nat, ok: bool, written: bool, rewritten: bool)
    | HealthArrives
    | HealthAsks(id: nat, job: JobRef)
    | HealthFenced(id: nat, acked: bool)
    | HealthProbed(id: nat, clean: bool)
    | HealthPicks(id: nat, job: JobRef)
    | HealthCleared(id: nat, absent: bool, written: bool)
    | Reap(attemptId: AttemptId, written: bool)
    | Restart

  datatype Config = Config(jobTtlMs: int)

  function Init(now: int): State {
    State(now, Memory(map[], map[], map[]), map[], Queue([], Resting), map[], 0, 0, History([], {}, map[], {}, {}))
  }

  // ---- jobs and journals --------------------------------------------------

  predicate Has(m: Memory, r: JobRef) {
    match r case New(n) => n in m.created case Old(a) => a in m.loaded
  }

  function Get(m: Memory, r: JobRef): Job
    requires Has(m, r)
  {
    match r case New(n) => m.created[n] case Old(a) => m.loaded[a]
  }

  function Set(m: Memory, r: JobRef, job: Job): Memory {
    match r case New(n) => m.(created := m.created[n := job]) case Old(a) => m.(loaded := m.loaded[a := job])
  }

  function JournalOf(job: Job): Journal {
    Journal(job.bundle, job.status, job.updatedAt, job.error, job.repaired, job.proof)
  }

  /** `persistJob`: the journal is replaced, or the write fails. */
  function Persist(s: State, job: Job, written: bool): State {
    var a := job.bundle.attemptId;
    if written
    then s.(disk := s.disk[a := JournalOf(job)], log := s.log.(dirty := s.log.dirty - {a}))
    else s.(log := s.log.(dirty := s.log.dirty + {a}))
  }

  function Put(s: State, r: JobRef, job: Job, written: bool): State {
    Persist(s.(memory := Set(s.memory, r, job)), job, written)
  }

  predicate Interrupted(status: Status) {
    status in {Accepted, Running, CleanupPending}
  }

  /** What a restart makes of one journal. */
  function Revive(journal: Journal, now: int): Job {
    if Interrupted(journal.status)
    then Job(journal.bundle, CleanupPending, now, RunnerRestarted, journal.repaired, false, false, Unproved)
    else Job(journal.bundle, journal.status, journal.updatedAt, journal.error, journal.repaired, false, false, journal.proof)
  }

  // ---- small steps --------------------------------------------------------

  function Drop(s: State, id: nat): State {
    s.(handlers := s.handlers - {id})
  }

  function Suspend(s: State, id: nat, pc: Pc): State {
    s.(handlers := s.handlers[id := pc])
  }

  function Observe(s: State, fact: Fact): State {
    s.(log := s.log.(facts := s.log.facts + [fact]))
  }

  function Observed(s: State): nat {
    |s.log.facts|
  }

  function FenceExpiry(cfg: Config, bundle: Bundle, now: int): int {
    Max(bundle.expiresAt + CLEANUP_MARGIN_MS, now + cfg.jobTtlMs + CLEANUP_MARGIN_MS)
  }

  /** A cancellation fence is requested from the workload. */
  function AskFence(cfg: Config, s: State, bundle: Bundle): State {
    s.(log := s.log.(commands := s.log.commands + {FenceCommand(bundle, FenceExpiry(cfg, bundle, s.now))}))
  }

  /** Aborting a job whose execute request is under way asks for a fence. */
  function AbortRun(cfg: Config, s: State, r: JobRef, bundle: Bundle): State {
    if s.queue.run.AwaitingReply? && r == New(s.queue.run.job) && !s.queue.run.fencing
    then AskFence(cfg, s, bundle).(queue := s.queue.(run := AwaitingReply(s.queue.run.job, true)))
    else s
  }

  // ---- submit and run -----------------------------------------------------

  function Submit(cfg: Config, s: State, bundle: Bundle): State {
    if cfg.jobTtlMs < bundle.maxRunMs + CLEANUP_MARGIN_MS || bundle.attemptId in s.memory.index then s
    else Suspend(s, s.nextHandler, SubmitWaiting(bundle)).(nextHandler := s.nextHandler + 1)
  }

  function NewJob(bundle: Bundle, now: int, settled: bool): Job {
    Job(bundle, Accepted, now, NoError, false, settled, false, Unproved)
  }

  function ContinueSubmit(s: State, id: nat, bundle: Bundle, ready: bool, written: bool): State {
    var r := Drop(s, id);
    if !ready then r
    else
      var n := s.nextJob;
      var m := r.memory.(index := r.memory.index[bundle.attemptId := New(n)]);
      var t := Put(r.(memory := m, nextJob := n + 1), New(n), NewJob(bundle, s.now, written), written);
      if written then t.(queue := s.queue.(waiting := s.queue.waiting + [n])) else t
  }

  /** The execute request of job `n` leaves. */
  function SendExecute(cfg: Config, s: State, n: nat, job: Job): State {
    var t := s.(queue := s.queue.(run := AwaitingReply(n, job.aborted)), log := s.log.(sent := s.log.sent[n := job.bundle]));
    if job.aborted then AskFence(cfg, t, job.bundle) else t
  }

  /** The head of the queue starts: a cancelled job is skipped, and no execute
      request is sent before the journal says that the job runs. */
  function StartNext(cfg: Config, s: State, written: bool): State
    requires s.queue.waiting != [] && s.queue.waiting[0] in s.memory.created
  {
    var n := s.queue.waiting[0];
    var job := s.memory.created[n];
    var r := s.(queue := s.queue.(waiting := s.queue.waiting[1..]));
    if job.status == Cancelled then r
    else
      var t := Put(r, New(n), job.(status := Running, updatedAt := s.now), written);
      if written then SendExecute(cfg, t, n, job) else t
  }

  datatype Outcome = Done | CleanupConfirmed | CleanupBroken | Errored

  datatype Plan = Conclude(outcome: Outcome) | ProveBoth(otherwise: Outcome) | ProveAbsent

  /** How the executor reads the workload's answer. */
  function PlanFor(reply: Reply): Plan {
    match reply
    case TransportError => Conclude(Errored)
    case HttpError(cleanupFailed) => Conclude(if cleanupFailed then CleanupBroken else Errored)
    case FenceAck(valid) => if valid then ProveBoth(Errored) else Conclude(Errored)
    case Malformed => Conclude(Errored)
    case TerminalCancelled(receiptClean) => Conclude(if receiptClean then CleanupConfirmed else CleanupBroken)
    case TerminalFailed(cleanupFailed) => if cleanupFailed then Conclude(CleanupBroken) else ProveBoth(CleanupBroken)
    case TerminalCompleted(complete, receiptClean) => if complete && receiptClean then ProveAbsent else Conclude(Errored)
  }

  function Concluded(job: Job, outcome: Outcome, proof: Proof, now: int): Job {
    match outcome
    case Done => job.(status := Completed, updatedAt := now, proof := proof)
    case CleanupConfirmed => job.(status := Cancelled, error := Cancellation, updatedAt := now, proof := proof)
    case CleanupBroken => job.(status := Failed, error := CleanupFailed, updatedAt := now)
    case Errored => job.(status := Failed, error := ExecutionFailed, updatedAt := now)
  }

  function FinishRun(s: State, n: nat, outcome: Outcome, proof: Proof, written: bool): State
    requires n in s.memory.created
  {
    Put(s.(queue := s.queue.(run := Resting)), New(n), Concluded(s.memory.created[n], outcome, proof, s.now), written)
  }

  /** After the answer, and the cancel fence if one was asked for. */
  function Consider(s: State, n: nat, reply: Reply, replyAt: nat, written: bool): State
    requires n in s.memory.created
  {
    match PlanFor(reply)
    case Conclude(outcome) => FinishRun(s, n, outcome, ByReply(replyAt), written)
    case _ => s.(queue := s.queue.(run := Proving(n, reply, replyAt)))
  }

  function ReplyToRun(s: State, reply: Reply, written: bool): State
    requires s.queue.run.AwaitingReply? && s.queue.run.job in s.memory.created
  {
    var n := s.queue.run.job;
    if reply.TransportError? then FinishRun(s, n, Errored, Unproved, written)
    else
      var t := Observe(s, WorkloadReplied(s.memory.created[n].bundle, reply));
      if s.queue.run.fencing
      then t.(queue := t.queue.(run := AwaitingFence(n, reply, Observed(s))))
      else Consider(t, n, reply, Observed(s), written)
  }

  function FenceOfRun(s: State, ok: bool, written: bool): State
    requires s.queue.run.AwaitingFence? && s.queue.run.job in s.memory.created
  {
    var pc := s.queue.run;
    if ok
    then Consider(Observe(s, FenceAcked(s.memory.created[pc.job].bundle)), pc.job, pc.reply, pc.replyAt, written)
    else FinishRun(s, pc.job, Errored, Unproved, written)
  }

  /** What the executor verified after the answer, and what it makes of it. */
  function Proved(s: State, ok: bool): (State, Outcome, Proof)
    requires s.queue.run.Proving? && s.queue.run.job in s.memory.created
  {
    var k := s.queue.run.replyAt;
    var slug := s.memory.created[s.queue.run.job].bundle.slug;
    match PlanFor(s.queue.run.reply)
    case Conclude(outcome) => (s, Errored, Unproved)
    case ProveBoth(otherwise) =>
      if ok
      then (Observe(Observe(s, WorkloadEmpty), AppAbsent(slug)), CleanupConfirmed, ByReplyAnd(k, Observed(s), Observed(s) + 1))
      else (s, otherwise, Unproved)
    case ProveAbsent =>
      if ok then (Observe(s, AppAbsent(slug)), Done, ByReplyAbsent(k, Observed(s))) else (s, Errored, Unproved)
  }

  function ProveRun(s: State, ok: bool, written: bool): State
    requires s.queue.run.Proving? && s.queue.run.job in s.memory.created
  {
    var (q, outcome, proof) := Proved(s, ok);
    FinishRun(q, s.queue.run.job, outcome, proof, written)
  }

  // ---- cancel and repair --------------------------------------------------

  predicate Settled(status: Status) {
    status in {Completed, Failed, Cancelled}
  }

  predicate Aborts(status: Status) {
    status != Completed && status != Failed
  }

  /** The job after the tail of the cancel handler. */
  function CancelledJob(job: Job, now: int, proof: Proof): Job {
    var status := if job.status == Accepted then Cancelled else if job.status == Running then CleanupPending else job.status;
    job.(
      status := status,
      updatedAt := now,
      aborted := job.aborted || Aborts(status),
      proof := if job.status == Accepted then proof else job.proof)
  }

  /** The tail of the cancel handler: no await after `proof` was obtained. */
  function CommitCancel(cfg: Config, s: State, id: nat, r: JobRef, proof: Proof, written: bool): State
    requires Has(s.memory, r)
  {
    var job := Get(s.memory, r);
    var cancelled := CancelledJob(job, s.now, proof);
    var t := Put(s, r, cancelled, written);
    var u := if Aborts(cancelled.status) then AbortRun(cfg, t, r, job.bundle) else t;
    if written && cancelled.status == CleanupPending && job.settled then Suspend(u, id, CancelSettling(r)) else Drop(u, id)
  }

  /** A failed cleanup starts a repair; a job that is not over is fenced first. */
  function BeginCancel(cfg: Config, s: State, id: nat, r: JobRef, written: bool): State
    requires Has(s.memory, r)
  {
    var job := Get(s.memory, r);
    if job.status == Failed && job.error == CleanupFailed then Suspend(s, id, RepairSettling(r))
    else if !Settled(job.status) then Suspend(AskFence(cfg, s, job.bundle), id, CancelFencing(r))
    else CommitCancel(cfg, s, id, r, job.proof, written)
  }

  function CancelRequest(cfg: Config, s: State, a: AttemptId, bundle: Bundle, written: bool): State
    requires a in s.memory.index ==> Has(s.memory, s.memory.index[a])
  {
    if a !in s.memory.index || Get(s.memory, s.memory.index[a]).bundle != bundle then s
    else BeginCancel(cfg, s.(nextHandler := s.nextHandler + 1), s.nextHandler, s.memory.index[a], written)
  }

  function FenceOfCancel(cfg: Config, s: State, id: nat, r: JobRef, acked: bool, written: bool): State
    requires Has(s.memory, r)
  {
    if acked
    then CommitCancel(cfg, Observe(s, FenceAcked(Get(s.memory, r).bundle)), id, r, ByFence(Observed(s)), written)
    else Drop(s, id)
  }

  function RepairedJob(job: Job, now: int, proof: Proof): Job {
    job.(status := Cancelled, updatedAt := now, repaired := true, proof := proof)
  }

  /** All repair evidence is in: the repaired copy is journalled first, and only
      then does the job itself change. */
  function CommitRepair(cfg: Config, s: State, id: nat, r: JobRef, ack: nat, empty: nat, written: bool, rewritten: bool): State
    requires Has(s.memory, r)
  {
    var job := Get(s.memory, r);
    var t := Observe(s, AppAbsent(job.bundle.slug));
    var repaired := RepairedJob(job, s.now, ByRepair(ack, empty, Observed(s)));
    if written
    then CommitCancel(cfg, Put(t, r, repaired, true), id, r, repaired.proof, rewritten)
    else Persist(Drop(t, id), job, false)
  }

  // ---- health recovery ----------------------------------------------------

  /** Jobs of an earlier process that health may turn into cancelled ones. */
  predicate Recoverable(job: Job) {
    !job.settled &&
    ((job.status == CleanupPending && job.error == RunnerRestarted) || (job.status == Failed && job.error != CleanupFailed))
  }

  function AskRecovery(cfg: Config, s: State, id: nat, fenced: map<AttemptId, nat>, r: JobRef): State
    requires Has(s.memory, r)
  {
    if Recoverable(Get(s.memory, r))
    then Suspend(AskFence(cfg, s, Get(s.memory, r).bundle), id, HealthFencing(fenced, Some(r)))
    else s
  }

  function FenceOfRecovery(s: State, id: nat, fenced: map<AttemptId, nat>, r: JobRef, acked: bool): State
    requires Has(s.memory, r)
  {
    var bundle := Get(s.memory, r).bundle;
    if acked
    then Suspend(Observe(s, FenceAcked(bundle)), id, HealthFencing(fenced[bundle.attemptId := Observed(s)], None))
    else Suspend(s, id, HealthFencing(fenced, None))
  }

  function Probe(s: State, id: nat, fenced: map<AttemptId, nat>, clean: bool): State {
    if clean then Suspend(Observe(s, WorkloadEmpty), id, HealthPicking(fenced, Observed(s))) else Drop(s, id)
  }

  function Pick(s: State, id: nat, fenced: map<AttemptId, nat>, empty: nat, r: JobRef): State
    requires Has(s.memory, r)
  {
    var job := Get(s.memory, r);
    if Recoverable(job) && job.bundle.attemptId in fenced
    then Suspend(s, id, HealthClearing(fenced, empty, r, job.status == Failed))
    else s
  }

  function RecoveredJob(job: Job, now: int, wasFailed: bool, proof: Proof): Job {
    job.(status := Cancelled, error := if wasFailed then FailureVerified else RestartVerified, updatedAt := now, proof := proof)
  }

  /** A failed write is caught here after the job has changed in memory. */
  function Recover(s: State, id: nat, fenced: map<AttemptId, nat>, empty: nat, r: JobRef, wasFailed: bool, absent: bool, written: bool): State
    requires Has(s.memory, r)
  {
    var job := Get(s.memory, r);
    if !absent || job.bundle.attemptId !in fenced then Suspend(s, id, HealthPicking(fenced, empty))
    else
      var t := Observe(s, AppAbsent(job.bundle.slug));
      var proof := ByRecovery(fenced[job.bundle.attemptId], empty, Observed(s));
      Suspend(Put(t, r, RecoveredJob(job, s.now, wasFailed, proof), written), id, HealthPicking(fenced, empty))
  }

  // ---- the reaper and the restart -----------------------------------------

  predicate Reapable(cfg: Config, job: Job, now: int) {
    !job.repaired && job.status in {Completed, Cancelled} && now - job.updatedAt > cfg.jobTtlMs
  }

  predicate Stale(cfg: Config, job: Job, now: int) {
    job.status in {Running, CleanupPending} && now - job.updatedAt > cfg.jobTtlMs
  }

  function ExpiredJob(job: Job, now: int): Job {
    job.(status := CleanupPending, updatedAt := now, aborted := true)
  }

  /** The body of the reaper's loop for one job. */
  function ReapJob(cfg: Config, s: State, a: AttemptId, r: JobRef, written: bool): State
    requires Has(s.memory, r)
  {
    var job := Get(s.memory, r);
    if Stale(cfg, job, s.now) then
      AbortRun(cfg, Put(s, r, ExpiredJob(job, s.now), written), r, job.bundle)
    else if Reapable(cfg, job, s.now) then
      s.(memory := s.memory.(index := s.memory.index - {a}), disk := s.disk - {a}, log := s.log.(reaped := s.log.reaped + {a}))
    else s
  }

  /** `loadJobJournals`: the journals are all that is left; interrupted ones are
      rewritten as cleanup_pending. */
  function Restarted(s: State): State {
    var loaded := map a | a in s.disk :: Revive(s.disk[a], s.now);
    s.(memory := Memory(map[], loaded, map a | a in s.disk :: Old(a)),
       disk := map a | a in s.disk :: JournalOf(loaded[a]),
       queue := Queue([], Resting),
       handlers := map[],
       log := s.log.(dirty := {}))
  }

  // ---- events -------------------------------------------------------------

  /** The job a suspended handler will still write. */
  function Writes(pc: Pc): Option<JobRef> {
    match pc
    case CancelFencing(r) => Some(r)
    case RepairSettling(r) => Some(r)
    case RepairFencing(r) => Some(r)
    case RepairEmptying(r, _) => Some(r)
    case RepairClearing(r, _, _) => Some(r)
    case HealthFencing(_, r) => r
    case HealthClearing(_, _, r, _) => Some(r)
    case _ => None
  }

  predicate Busy(handlers: map<nat, Pc>, r: JobRef) {
    exists i :: i in handlers && Writes(handlers[i]) == Some(r)
  }

  predicate Enabled(cfg: Config, s: State, e: Event) {
    match e
    case SubmitArrives(_) => true
    case SubmitContinues(id, _, _) => id in s.handlers && s.handlers[id].SubmitWaiting?
    case RunNext(_) => s.queue.run.Resting? && s.queue.waiting != [] && s.queue.waiting[0] in s.memory.created
    case RunReplied(_, _) => s.queue.run.AwaitingReply? && s.queue.run.job in s.memory.created
    case RunFenced(_, _) => s.queue.run.AwaitingFence? && s.queue.run.job in s.memory.created
    case RunProved(_, _) => s.queue.run.Proving? && s.queue.run.job in s.memory.created
    case CancelArrives(a, _, _) => a in s.memory.index ==> Has(s.memory, s.memory.index[a])
    case CancelFenced(id, _, _) => id in s.handlers && s.handlers[id].CancelFencing? && Has(s.memory, s.handlers[id].job)
    case CancelSettled(id) => id in s.handlers && s.handlers[id].CancelSettling?
    case RepairSettled(id, _) => id in s.handlers && s.handlers[id].RepairSettling? && Has(s.memory, s.handlers[id].job)
    case RepairFenced(id, _) => id in s.handlers && s.handlers[id].RepairFencing? && Has(s.memory, s.handlers[id].job)
    case RepairEmptied(id, _) => id in s.handlers && s.handlers[id].RepairEmptying? && Has(s.memory, s.handlers[id].job)
    case RepairCleared(id, _, _, _) => id in s.handlers && s.handlers[id].RepairClearing? && Has(s.memory, s.handlers[id].job)
    case HealthArrives => true
    case HealthAsks(id, r) => id in s.handlers && s.handlers[id].HealthFencing? && s.handlers[id].pending.None? && InIndex(s.memory, r)
    case HealthFenced(id, _) =>
      id in s.handlers && s.handlers[id].HealthFencing? && s.handlers[id].pending.Some? && Has(s.memory, s.handlers[id].pending.value)
    case HealthProbed(id, _) => id in s.handlers && s.handlers[id].HealthFencing? && s.handlers[id].pending.None?
    case HealthPicks(id, r) => id in s.handlers && s.handlers[id].HealthPicking? && InIndex(s.memory, r)
    case HealthCleared(id, _, _) => id in s.handlers && s.handlers[id].HealthClearing? && Has(s.memory, s.handlers[id].job)
    // A request times out before the job's TTL, so the reaper never deletes a job
    // that a suspended handler will still write.
    case Reap(a, _) =>
      && a in s.memory.index && Has(s.memory, s.memory.index[a])
      && (Reapable(cfg, Get(s.memory, s.memory.index[a]), s.now) ==> !Busy(s.handlers, s.memory.index[a]))
    case Restart => true
  }

  /** The jobs a loop over the job map visits. */
  predicate InIndex(m: Memory, r: JobRef) {
    Has(m, r) && Get(m, r).bundle.attemptId in m.index && m.index[Get(m, r).bundle.attemptId] == r
  }

  function React(cfg: Config, s: State, e: Event): State
    requires Enabled(cfg, s, e)
  {
    match e
    case SubmitArrives(bundle) => Submit(cfg, s, bundle)
    case SubmitContinues(id, ready, written) => ContinueSubmit(s, id, s.handlers[id].bundle, ready, written)
    case RunNext(written) => StartNext(cfg, s, written)
    case RunReplied(reply, written) => ReplyToRun(s, reply, written)
    case RunFenced(ok, written) => FenceOfRun(s, ok, written)
    case RunProved(ok, written) => ProveRun(s, ok, written)
    case CancelArrives(a, bundle, written) => CancelRequest(cfg, s, a, bundle, written)
    case CancelFenced(id, acked, written) => FenceOfCancel(cfg, s, id, s.handlers[id].job, acked, written)
    case CancelSettled(id) => Drop(s, id)
    case RepairSettled(id, ok) =>
      var r := s.handlers[id].job;
      if ok then Suspend(AskFence(cfg, s, Get(s.memory, r).bundle), id, RepairFencing(r)) else Drop(s, id)
    case RepairFenced(id, verified) =>
      var r := s.handlers[id].job;
      if verified
      then Suspend(Observe(s, RepairReceipt(Get(s.memory, r).bundle)), id, RepairEmptying(r, Observed(s)))
      else Drop(s, id)
    case RepairEmptied(id, ok) =>
      var pc := s.handlers[id];
      if ok then Suspend(Observe(s, WorkloadEmpty), id, RepairClearing(pc.job, pc.ack, Observed(s))) else Drop(s, id)
    case RepairCleared(id, ok, written, rewritten) =>
      var pc := s.handlers[id];
      if ok then CommitRepair(cfg, s, id, pc.job, pc.ack, pc.empty, written, rewritten) else Drop(s, id)
    case HealthArrives => Suspend(s, s.nextHandler, HealthFencing(map[], None)).(nextHandler := s.nextHandler + 1)
    case HealthAsks(id, r) => AskRecovery(cfg, s, id, s.handlers[id].fenced, r)
    case HealthFenced(id, acked) => FenceOfRecovery(s, id, s.handlers[id].fenced, s.handlers[id].pending.value, acked)
    case HealthProbed(id, clean) => Probe(s, id, s.handlers[id].fenced, clean)
    case HealthPicks(id, r) => Pick(s, id, s.handlers[id].fenced, s.handlers[id].empty, r)
    case HealthCleared(id, absent, written) =>
      var pc := s.handlers[id];
      Recover(s, id, pc.fenced, pc.empty, pc.job, pc.wasFailed, absent, written)
    case Reap(a, written) => ReapJob(cfg, s, a, s.memory.index[a], written)
    case Restart => Restarted(s)
  }

  datatype Timed = Timed(at: int, event: Event)

  ghost predicate CanStep(cfg: Config, s: State, step: Timed) {
    s.now <= step.at && Enabled(cfg, s.(now := step.at), step.event)
  }

  function Step(cfg: Config, s: State, step: Timed): State
    requires CanStep(cfg, s, step)
  {
    React(cfg, s.(now := step.at), step.event)
  }

  ghost predicate CanRun(cfg: Config, s: State, run: seq<Timed>)
    decreases |run|
  {
    run == [] || (CanStep(cfg, s, run[0]) && CanRun(cfg, Step(cfg, s, run[0]), run[1..]))
  }

  ghost function After(cfg: Config, s: State, run: seq<Timed>): State
    requires CanRun(cfg, s, run)
    decreases |run|
  {
    if run == [] then s else After(cfg, Step(cfg, s, run[0]), run[1..])
  }
}
