/** A debt that lasts.  Once a failed cleanup is in the journal, the attempt is unclean in
    memory or on disk, or it was cancelled by a repair whose receipt came after that.  Every
    step of the control service keeps this, whatever other handlers do with the same attempt
    in the meantime and wherever a crash falls. */
module ControlPending {
  import opened SandboxTypes
  import opened ControlModel
  import opened ControlSafety
  import opened ControlRecovery
  import opened ControlHistory
  import opened ControlLimits
  import opened ControlCourse
  import opened ControlOutcome

  /** A job, or its journal: unclean, or cancelled by a repair receipt of position
      `k` or later. */
  ghost predicate NeedsRepair(facts: seq<Fact>, k: nat, b: Bundle, bundle: Bundle, status: Status, error: ErrorCode, proof: Proof) {
    && bundle == b
    && (|| (status == Failed && error == ErrorCode.CleanupFailed)
        || (status == Cancelled && proof.ByRepair? && proof.ack >= k && Shows(facts, proof.ack, RepairReceipt(b))))
  }

  /** A handler that holds a repair receipt of position `k` or later. */
  predicate LateReceipt(pc: Pc, r: JobRef, k: nat) {
    (pc.RepairEmptying? || pc.RepairClearing?) && pc.job == r ==> pc.ack >= k
  }

  /** The verdict on a job, and the evidence for it. */
  predicate SameVerdict(x: Job, y: Job) {
    y.bundle == x.bundle && y.status == x.status && y.error == x.error && y.repaired == x.repaired && y.proof == x.proof
  }

  ghost predicate VerdictStays(s: State, t: State, r: JobRef) {
    Has(s.memory, r) && Has(t.memory, r) && SameVerdict(Get(s.memory, r), Get(t.memory, r))
  }

  lemma {:induction false} CommitCancelVerdict(cfg: Config, s: State, id: nat, q: JobRef, proof: Proof, written: bool, r: JobRef)
    requires Has(s.memory, q) && Has(s.memory, r) && Broken(Get(s.memory, r))
    ensures VerdictStays(s, CommitCancel(cfg, s, id, q, proof, written), r)
  {
    CommitCancelData(cfg, s, id, q, proof, written);
  }

  lemma {:induction false} StillVerdict(s: State, t: State, r: JobRef)
    requires t.memory == s.memory && Has(s.memory, r)
    ensures VerdictStays(s, t, r)
  {
  }

  lemma {:induction false} RequestVerdict(cfg: Config, s: State, a: AttemptId, bundle: Bundle, written: bool, r: JobRef)
    requires a in s.memory.index ==> Has(s.memory, s.memory.index[a])
    requires Has(s.memory, r) && Broken(Get(s.memory, r))
    ensures VerdictStays(s, CancelRequest(cfg, s, a, bundle, written), r)
  {
    if a !in s.memory.index || Get(s.memory, s.memory.index[a]).bundle != bundle {
      CancelIgnored(cfg, s, a, bundle, written);
    } else if Settled(Get(s.memory, s.memory.index[a]).status) && !Unclean(Get(s.memory, s.memory.index[a])) {
      var q := s.memory.index[a];
      CancelCommits(cfg, s, a, bundle, written);
      CommitCancelVerdict(cfg, s.(nextHandler := s.nextHandler + 1), s.nextHandler, q, Get(s.memory, q).proof, written, r);
    } else {
      var _ := CancelWaits(cfg, s, a, bundle, written);
      StillVerdict(s, CancelRequest(cfg, s, a, bundle, written), r);
    }
  }

  lemma {:induction false} FenceVerdict(cfg: Config, s: State, id: nat, q: JobRef, acked: bool, written: bool, r: JobRef)
    requires Has(s.memory, q) && Has(s.memory, r) && Broken(Get(s.memory, r))
    ensures VerdictStays(s, FenceOfCancel(cfg, s, id, q, acked, written), r)
  {
    CommitCancelVerdict(cfg, Observe(s, FenceAcked(Get(s.memory, q).bundle)), id, q, ByFence(Observed(s)), written, r);
  }

  /** A run writes its own job only, which is not over. */
  ghost predicate OnlyJob(m: Memory, k: Memory, j: nat) {
    k == m.(created := k.created) && forall i :: i in m.created && i != j ==> i in k.created && k.created[i] == m.created[i]
  }

  lemma {:induction false} ConsiderOnly(s: State, n: nat, reply: Reply, at: nat, written: bool)
    requires n in s.memory.created
    ensures OnlyJob(s.memory, Consider(s, n, reply, at, written).memory, n)
  {
    match PlanFor(reply) {
      case Conclude(outcome) => FinishRunParts(s, n, outcome, ByReply(at), written);
      case _ =>
    }
  }

  lemma {:induction false} QueueOnly(cfg: Config, s: State, e: Event) returns (j: nat)
    requires Inv(s) && Enabled(cfg, s, e) && RunEvent(e)
    ensures OnlyJob(s.memory, React(cfg, s, e).memory, j)
    ensures (j in s.memory.created && !Broken(s.memory.created[j])) || React(cfg, s, e).memory == s.memory
  {
    RunFacts(s);
    match e {
      case RunNext(written) =>
        j := s.queue.waiting[0];
        StartParts(cfg, s, written);
      case RunReplied(reply, written) =>
        j := s.queue.run.job;
        FinishRunParts(s, j, Errored, Unproved, written);
        ConsiderOnly(Observe(s, WorkloadReplied(s.memory.created[j].bundle, reply)), j, reply, Observed(s), written);
      case RunFenced(ok, written) =>
        var pc := s.queue.run;
        j := pc.job;
        FinishRunParts(s, j, Errored, Unproved, written);
        ConsiderOnly(Observe(s, FenceAcked(s.memory.created[j].bundle)), j, pc.reply, pc.replyAt, written);
      case RunProved(ok, written) =>
        j := s.queue.run.job;
        ProvedParts(s, ok);
        FinishRunParts(Proved(s, ok).0, j, Proved(s, ok).1, Proved(s, ok).2, written);
    }
  }

  lemma {:induction false} QueueVerdict(cfg: Config, s: State, e: Event, r: JobRef)
    requires Inv(s) && Enabled(cfg, s, e) && RunEvent(e) && Has(s.memory, r) && Broken(Get(s.memory, r))
    ensures VerdictStays(s, React(cfg, s, e), r)
  {
    var j := QueueOnly(cfg, s, e);
  }

  lemma {:induction false} RecoverVerdict(s: State, t: State, q: JobRef, wasFailed: bool, proof: Proof, written: bool, r: JobRef)
    requires Has(s.memory, q) && Recovering(Get(s.memory, q)) && Has(s.memory, r) && Broken(Get(s.memory, r))
    requires DataOf(t) == DataOf(s) || DataOf(t) == Rewrite(DataOf(s), q, RecoveredJob(Get(s.memory, q), s.now, wasFailed, proof), written)
    ensures VerdictStays(s, t, r)
  {
  }

  lemma {:induction false} ClearedVerdict(cfg: Config, s: State, e: Event, r: JobRef)
    requires Inv(s) && Enabled(cfg, s, e) && e.HealthCleared? && Has(s.memory, r) && Broken(Get(s.memory, r))
    ensures VerdictStays(s, React(cfg, s, e), r)
  {
    var pc := s.handlers[e.id];
    assert PcOk(s.memory, s.log.facts, pc);
    var a := Get(s.memory, pc.job).bundle.attemptId;
    RecoverData(s, e.id, pc.fenced, pc.empty, pc.job, pc.wasFailed, e.absent, e.written);
    var proof := if a in pc.fenced then ByRecovery(pc.fenced[a], pc.empty, Observed(s)) else Unproved;
    RecoverVerdict(s, React(cfg, s, e), pc.job, pc.wasFailed, proof, e.written, r);
  }

  lemma {:induction false} WaitingVerdict(cfg: Config, s: State, e: Event, r: JobRef)
    requires Enabled(cfg, s, e) && Waiting(e) && Has(s.memory, r)
    ensures VerdictStays(s, React(cfg, s, e), r)
  {
    WaitingMoves(cfg, s, e);
    StillVerdict(s, React(cfg, s, e), r);
  }

  lemma {:induction false} ReapVerdict(cfg: Config, s: State, a: AttemptId, q: JobRef, written: bool, r: JobRef)
    requires Has(s.memory, q) && Has(s.memory, r) && Broken(Get(s.memory, r))
    ensures VerdictStays(s, ReapJob(cfg, s, a, q, written), r)
  {
    ReapData(cfg, s, a, q, written);
  }

  lemma {:induction false} SubmitVerdict(cfg: Config, s: State, e: Event, r: JobRef)
    requires Inv(s) && Enabled(cfg, s, e) && (e.SubmitArrives? || e.SubmitContinues?) && Has(s.memory, r)
    ensures VerdictStays(s, React(cfg, s, e), r)
  {
  }

  /** Only the end of a repair changes the verdict on an unclean or repaired job. */
  lemma {:induction false} OtherVerdict(cfg: Config, s: State, e: Event, r: JobRef)
    requires Inv(s) && Enabled(cfg, s, e) && !e.Restart? && !e.RepairCleared? && Has(s.memory, r) && Broken(Get(s.memory, r))
    ensures VerdictStays(s, React(cfg, s, e), r)
  {
    match e {
      case SubmitArrives(_) => SubmitVerdict(cfg, s, e, r);
      case SubmitContinues(_, _, _) => SubmitVerdict(cfg, s, e, r);
      case RunNext(_) => QueueVerdict(cfg, s, e, r);
      case RunReplied(_, _) => QueueVerdict(cfg, s, e, r);
      case RunFenced(_, _) => QueueVerdict(cfg, s, e, r);
      case RunProved(_, _) => QueueVerdict(cfg, s, e, r);
      case CancelArrives(a, bundle, written) => RequestVerdict(cfg, s, a, bundle, written, r);
      case CancelFenced(id, acked, written) => FenceVerdict(cfg, s, id, s.handlers[id].job, acked, written, r);
      case HealthCleared(_, _, _) => ClearedVerdict(cfg, s, e, r);
      case Reap(a, written) => ReapVerdict(cfg, s, a, s.memory.index[a], written, r);
      case _ => WaitingVerdict(cfg, s, e, r);
    }
  }

  /** The job of a repair that ended is cancelled by the receipt `ack`. */
  ghost predicate RepairedBy(s: State, t: State, r: JobRef, ack: nat)
    requires Has(s.memory, r)
  {
    && Has(t.memory, r)
    && var y := Get(t.memory, r);
    && y.bundle == Get(s.memory, r).bundle && y.status == Cancelled && y.repaired && y.proof.ByRepair? && y.proof.ack == ack
  }

  lemma {:induction false} CommitRepairVerdict(cfg: Config, s: State, id: nat, q: JobRef, ack: nat, empty: nat, written: bool, rewritten: bool, r: JobRef)
    requires Has(s.memory, q) && Has(s.memory, r) && Broken(Get(s.memory, r))
    ensures var t := CommitRepair(cfg, s, id, q, ack, empty, written, rewritten); VerdictStays(s, t, r) || (q == r && RepairedBy(s, t, r, ack))
  {
    if written {
      CommitRepairData(cfg, s, id, q, ack, empty, rewritten);
    }
  }

  /** The end of a repair cancels its job by the receipt the handler holds. */
  lemma {:induction false} RepairVerdict(cfg: Config, s: State, e: Event, r: JobRef)
    requires Inv(s) && Enabled(cfg, s, e) && e.RepairCleared? && Has(s.memory, r) && Broken(Get(s.memory, r))
    ensures var t, pc := React(cfg, s, e), s.handlers[e.id];
      VerdictStays(s, t, r) || (pc.job == r && RepairedBy(s, t, r, pc.ack))
  {
    var pc := s.handlers[e.id];
    if e.ok {
      CommitRepairVerdict(cfg, s, e.id, pc.job, pc.ack, pc.empty, e.written, e.rewritten, r);
    } else {
      StillVerdict(s, Drop(s, e.id), r);
    }
  }

  // ---- the handlers that hold a receipt -----------------------------------

  ghost predicate LateReceipts(handlers: map<nat, Pc>, r: JobRef, k: nat) {
    forall i :: i in handlers ==> LateReceipt(handlers[i], r, k)
  }

  lemma {:induction false} WaitingReceipts(cfg: Config, s: State, e: Event, r: JobRef, k: nat)
    requires Enabled(cfg, s, e) && Waiting(e) && k <= |s.log.facts| && LateReceipts(s.handlers, r, k)
    ensures LateReceipts(React(cfg, s, e).handlers, r, k)
  {
  }

  lemma {:induction false} ConsiderHandlers(s: State, n: nat, reply: Reply, at: nat, written: bool)
    requires n in s.memory.created
    ensures Consider(s, n, reply, at, written).handlers == s.handlers
  {
  }

  lemma {:induction false} QueueHandlers(cfg: Config, s: State, e: Event)
    requires Enabled(cfg, s, e) && RunEvent(e)
    ensures React(cfg, s, e).handlers == s.handlers
  {
    if e.RunNext? {
      StartNextData(cfg, s, e.written);
    } else {
      RunHandlers(cfg, s, e, s.queue.run.job);
    }
  }

  lemma {:induction false} RunHandlers(cfg: Config, s: State, e: Event, n: nat)
    requires Enabled(cfg, s, e) && (e.RunReplied? || e.RunFenced? || e.RunProved?) && n == s.queue.run.job
    ensures React(cfg, s, e).handlers == s.handlers
  {
    match e {
      case RunReplied(reply, written) =>
        FinishRunData(s, n, Errored, Unproved, written);
        ConsiderHandlers(Observe(s, WorkloadReplied(s.memory.created[n].bundle, reply)), n, reply, Observed(s), written);
      case RunFenced(ok, written) =>
        FinishRunData(s, n, Errored, Unproved, written);
        ConsiderHandlers(Observe(s, FenceAcked(s.memory.created[n].bundle)), n, s.queue.run.reply, s.queue.run.replyAt, written);
      case RunProved(ok, written) =>
        ProvedData(s, ok);
        FinishRunData(Proved(s, ok).0, n, Proved(s, ok).1, Proved(s, ok).2, written);
    }
  }

  lemma {:induction false} CancelReceipts(cfg: Config, s: State, e: Event, r: JobRef, k: nat)
    requires Enabled(cfg, s, e) && (e.CancelArrives? || e.CancelFenced?) && LateReceipts(s.handlers, r, k)
    ensures LateReceipts(React(cfg, s, e).handlers, r, k)
  {
    match e {
      case CancelArrives(a, bundle, written) =>
        if a !in s.memory.index || Get(s.memory, s.memory.index[a]).bundle != bundle {
          CancelIgnored(cfg, s, a, bundle, written);
        } else {
          IndexedReceipts(cfg, s, a, bundle, written, r, k);
        }
      case CancelFenced(id, acked, written) =>
        var q := s.handlers[id].job;
        CommitCancelData(cfg, Observe(s, FenceAcked(Get(s.memory, q).bundle)), id, q, ByFence(Observed(s)), written);
    }
  }

  lemma {:induction false} IndexedReceipts(cfg: Config, s: State, a: AttemptId, bundle: Bundle, written: bool, r: JobRef, k: nat)
    requires a in s.memory.index && Has(s.memory, s.memory.index[a]) && Get(s.memory, s.memory.index[a]).bundle == bundle
    requires LateReceipts(s.handlers, r, k)
    ensures LateReceipts(CancelRequest(cfg, s, a, bundle, written).handlers, r, k)
  {
    var q := s.memory.index[a];
    CommitCancelData(cfg, s.(nextHandler := s.nextHandler + 1), s.nextHandler, q, Get(s.memory, q).proof, written);
  }

  lemma {:induction false} RepairReceipts(cfg: Config, s: State, e: Event, r: JobRef, k: nat)
    requires Enabled(cfg, s, e) && e.RepairCleared? && LateReceipts(s.handlers, r, k)
    ensures LateReceipts(React(cfg, s, e).handlers, r, k)
  {
    var pc := s.handlers[e.id];
    if e.ok && e.written {
      CommitRepairData(cfg, s, e.id, pc.job, pc.ack, pc.empty, e.rewritten);
    }
  }

  lemma {:induction false} OtherReceipts(cfg: Config, s: State, e: Event, r: JobRef, k: nat)
    requires Enabled(cfg, s, e) && LateReceipts(s.handlers, r, k)
    requires e.SubmitArrives? || e.SubmitContinues? || e.HealthCleared? || e.Reap?
    ensures LateReceipts(React(cfg, s, e).handlers, r, k)
  {
    match e {
      case HealthCleared(id, absent, written) =>
        var pc := s.handlers[id];
        RecoverData(s, id, pc.fenced, pc.empty, pc.job, pc.wasFailed, absent, written);
      case Reap(a, written) => ReapData(cfg, s, a, s.memory.index[a], written);
      case _ =>
    }
  }

  lemma {:induction false} ReceiptsStay(cfg: Config, s: State, e: Event, r: JobRef, k: nat)
    requires Enabled(cfg, s, e) && !e.Restart? && k <= |s.log.facts| && LateReceipts(s.handlers, r, k)
    ensures LateReceipts(React(cfg, s, e).handlers, r, k)
  {
    if Waiting(e) {
      WaitingReceipts(cfg, s, e, r, k);
    } else if RunEvent(e) {
      QueueHandlers(cfg, s, e);
    } else if e.CancelArrives? || e.CancelFenced? {
      CancelReceipts(cfg, s, e, r, k);
    } else if e.RepairCleared? {
      RepairReceipts(cfg, s, e, r, k);
    } else {
      OtherReceipts(cfg, s, e, r, k);
    }
  }

  // ---- every step, every run ----------------------------------------------

  lemma {:induction false} FactsOnly(cfg: Config, s: State, e: Event)
    requires Enabled(cfg, s, e)
    ensures FactsGrow(s.log.facts, React(cfg, s, e).log.facts)
  {
    ReactLearns(cfg, s, e);
  }

  ghost predicate Needs(s: State, r: JobRef, b: Bundle, k: nat) {
    Has(s.memory, r) && var job := Get(s.memory, r); NeedsRepair(s.log.facts, k, b, job.bundle, job.status, job.error, job.proof)
  }

  lemma {:induction false} SameNeeds(s: State, t: State, r: JobRef, b: Bundle, k: nat)
    requires Needs(s, r, b, k) && VerdictStays(s, t, r) && FactsGrow(s.log.facts, t.log.facts)
    ensures Needs(t, r, b, k)
  {
  }

  lemma {:induction false} RepairedNeeds(t: State, r: JobRef, b: Bundle, k: nat)
    requires Inv(t) && Has(t.memory, r)
    requires var y := Get(t.memory, r); y.bundle == b && y.status == Cancelled && y.proof.ByRepair? && y.proof.ack >= k
    ensures Needs(t, r, b, k)
  {
    assert JobOk(t.log.facts, Get(t.memory, r));
  }

  /** The verdict on the job is still its failed cleanup, or its late repair. */
  lemma {:induction false} NeedsStays(cfg: Config, s: State, e: Event, r: JobRef, b: Bundle, k: nat)
    requires Inv(s) && Enabled(cfg, s, e) && !e.Restart? && Has(s.memory, r) && Broken(Get(s.memory, r))
    requires Inv(React(cfg, s, e)) && LateReceipts(s.handlers, r, k) && Needs(s, r, b, k)
    ensures Needs(React(cfg, s, e), r, b, k)
  {
    var t := React(cfg, s, e);
    FactsOnly(cfg, s, e);
    if !e.RepairCleared? {
      OtherVerdict(cfg, s, e, r);
      SameNeeds(s, t, r, b, k);
    } else {
      RepairVerdict(cfg, s, e, r);
      if VerdictStays(s, t, r) {
        SameNeeds(s, t, r, b, k);
      } else {
        RepairedNeeds(t, r, b, k);
      }
    }
  }

  /** The job of attempt `a`, its journal and its handlers all wait for a repair receipt
      of position `k` or later, or have it. */
  ghost predicate Pends(s: State, a: AttemptId, b: Bundle, k: nat) {
    && k <= |s.log.facts|
    && Holds(s, a, IsUnclean)
    && Needs(s, s.memory.index[a], b, k)
    && NeedsRepair(s.log.facts, k, b, s.disk[a].bundle, s.disk[a].status, s.disk[a].error, s.disk[a].proof)
    && LateReceipts(s.handlers, s.memory.index[a], k)
  }

  lemma {:induction false} PendsReacts(cfg: Config, s: State, e: Event, a: AttemptId, b: Bundle, k: nat)
    requires Orderly(s) && Enabled(cfg, s, e) && Serial(s, e) && !e.Restart? && Pends(s, a, b, k)
    requires var t := React(cfg, s, e); Orderly(t) && Moved(DataOf(s), DataOf(t)) && Holds(t, a, IsUnclean)
    ensures Pends(React(cfg, s, e), a, b, k)
  {
    var t, r := React(cfg, s, e), s.memory.index[a];
    FactsOnly(cfg, s, e);
    NeedsStays(cfg, s, e, r, b, k);
    ReceiptsStay(cfg, s, e, r, k);
    SameIndex(s, t, a);
    JournalNeeds(s, t, a, b, k);
  }

  lemma {:induction false} SameIndex(s: State, t: State, a: AttemptId)
    requires Neat(t) && Moved(DataOf(s), DataOf(t)) && a in s.memory.index && a in t.memory.index
    ensures t.memory.index[a] == s.memory.index[a]
  {
  }

  lemma {:induction false} JournalNeeds(s: State, t: State, a: AttemptId, b: Bundle, k: nat)
    requires Moved(DataOf(s), DataOf(t)) && FactsGrow(s.log.facts, t.log.facts) && a in s.disk && a in t.disk && a in t.memory.index
    requires NeedsRepair(s.log.facts, k, b, s.disk[a].bundle, s.disk[a].status, s.disk[a].error, s.disk[a].proof)
    requires Needs(t, t.memory.index[a], b, k)
    ensures NeedsRepair(t.log.facts, k, b, t.disk[a].bundle, t.disk[a].status, t.disk[a].error, t.disk[a].proof)
  {
    if t.disk[a] != s.disk[a] {
      assert Fresh(DataOf(t), a);
    }
  }

  lemma {:induction false} PendsRestarts(s: State, a: AttemptId, b: Bundle, k: nat)
    requires Pends(s, a, b, k)
    ensures Pends(Restarted(s), a, b, k)
  {
  }

  lemma {:induction false} PendsLater(s: State, at: int, a: AttemptId, b: Bundle, k: nat)
    requires Pends(s, a, b, k)
    ensures Pends(s.(now := at), a, b, k)
  {
  }

  lemma {:induction false} PendsStays(cfg: Config, s: State, step: Timed, a: AttemptId, b: Bundle, k: nat)
    requires Orderly(s) && CanStep(cfg, s, step) && Serial(s, step.event) && Pends(s, a, b, k)
    ensures Orderly(Step(cfg, s, step)) && Pends(Step(cfg, s, step), a, b, k)
  {
    var r := s.(now := step.at);
    StepOrderly(cfg, s, step);
    PendsLater(s, step.at, a, b, k);
    if step.event.Restart? {
      PendsRestarts(r, a, b, k);
    } else {
      LaterOrderly(s, step.at);
      PendsMoves(cfg, r, Step(cfg, s, step), step.event, a, b, k);
    }
  }

  lemma {:induction false} PendsMoves(cfg: Config, s: State, t: State, e: Event, a: AttemptId, b: Bundle, k: nat)
    requires Orderly(s) && Enabled(cfg, s, e) && Serial(s, e) && !e.Restart? && Pends(s, a, b, k)
    requires t == React(cfg, s, e) && Orderly(t) && Moved(DataOf(s), DataOf(t))
    ensures Pends(t, a, b, k)
  {
    HoldsMoves(s, t, a, IsUnclean);
    PendsReacts(cfg, s, e, a, b, k);
  }

  lemma {:induction false} LaterOrderly(s: State, at: int)
    requires Orderly(s)
    ensures Orderly(s.(now := at))
  {
    SelfMoves(s.memory);
    QuietStep(s, s.(now := at));
  }

  lemma {:induction false} PendsLasts(cfg: Config, s: State, run: seq<Timed>, a: AttemptId, b: Bundle, k: nat)
    requires Orderly(s) && SerialRun(cfg, s, run) && Pends(s, a, b, k)
    ensures CanRun(cfg, s, run) && Orderly(After(cfg, s, run)) && Pends(After(cfg, s, run), a, b, k)
    decreases |run|
  {
    if run != [] {
      PendsStays(cfg, s, run[0], a, b, k);
      PendsLasts(cfg, Step(cfg, s, run[0]), run[1..], a, b, k);
    }
  }

  // ---- the end of a run with a failed cleanup ------------------------------

  /** A handler that holds a receipt repairs a job that is over. */
  lemma {:induction false} NoReceiptYet(s: State, n: nat, k: nat)
    requires HandlersOk(s) && n in s.memory.created && s.memory.created[n].status in {Running, CleanupPending}
    ensures LateReceipts(s.handlers, New(n), k)
  {
    forall i | i in s.handlers
      ensures LateReceipt(s.handlers[i], New(n), k)
    {
      assert PcOk(s.memory, s.log.facts, s.handlers[i]);
    }
  }

  lemma {:induction false} EndUnclean(t: State, n: nat, c: Course)
    requires Tracks(t, n, c) && Breaks(c) && n in t.memory.created && n in t.log.sent && !t.memory.created[n].repaired
    ensures Unclean(t.memory.created[n])
  {
    if !IsRun(t, n) {
      assert Left(t.memory.created[n], c);
    }
  }

  lemma {:induction false} UncleanHolds(t: State, n: nat)
    requires Tidy(DataOf(t)) && n in t.memory.created && Unclean(t.memory.created[n])
    requires t.memory.created[n].bundle.attemptId !in t.log.dirty
    ensures var a := t.memory.created[n].bundle.attemptId;
      Holds(t, a, IsUnclean) && t.memory.index[a] == New(n) && t.disk[a] == JournalOf(t.memory.created[n])
  {
    assert CreatedOk(t.memory, t.log.reaped, n, t.memory.created[n]);
  }

  lemma {:induction false} EndPends(s: State, t: State, n: nat, c: Course)
    requires Orderly(s) && Orderly(t) && IsRun(s, n) && Ends(s, t, n, true) && n in t.log.sent
    requires Tracks(t, n, c) && Breaks(c)
    ensures var b := s.memory.created[n].bundle; Pends(t, b.attemptId, b, |t.log.facts|)
  {
    RunFacts(s);
    NoReceiptYet(s, n, |t.log.facts|);
    EndUnclean(t, n, c);
    UncleanHolds(t, n);
  }
}
