/** The evidence that the control service keeps, step by step: what has to stand behind
    every status in memory, behind every journal on disk and behind every suspended
    handler, and that each step, a restart included, keeps all of it.  The handlers are
    taken in the order in which the program has them. */
module ControlSafety {
  import opened SandboxTypes
  import opened ControlModel

  // ---- evidence -----------------------------------------------------------

  ghost predicate Shows(facts: seq<Fact>, k: nat, fact: Fact) {
    k < |facts| && facts[k] == fact
  }

  /** First `k`, then an empty workload, then the App's absence. */
  ghost predicate ThenCleared(facts: seq<Fact>, k: nat, empty: nat, absent: nat, b: Bundle) {
    k < empty < absent && Shows(facts, empty, WorkloadEmpty) && Shows(facts, absent, AppAbsent(b.slug))
  }

  ghost predicate Answered(facts: seq<Fact>, k: nat, b: Bundle) {
    k < |facts| && facts[k].WorkloadReplied? && facts[k].bundle == b
  }

  ghost predicate CancelProof(facts: seq<Fact>, b: Bundle, proof: Proof) {
    match proof
    case ByFence(ack) => Shows(facts, ack, FenceAcked(b))
    case ByReply(k) => Shows(facts, k, WorkloadReplied(b, TerminalCancelled(true)))
    case ByReplyAnd(k, empty, absent) =>
      && (Shows(facts, k, WorkloadReplied(b, FenceAck(true))) || Shows(facts, k, WorkloadReplied(b, TerminalFailed(false))))
      && ThenCleared(facts, k, empty, absent, b)
    case ByRecovery(ack, empty, absent) => Shows(facts, ack, FenceAcked(b)) && ThenCleared(facts, ack, empty, absent, b)
    case ByRepair(ack, empty, absent) => Shows(facts, ack, RepairReceipt(b)) && ThenCleared(facts, ack, empty, absent, b)
    case _ => false
  }

  ghost predicate DoneProof(facts: seq<Fact>, b: Bundle, proof: Proof) {
    && proof.ByReplyAbsent? && proof.reply < proof.absent
    && Shows(facts, proof.reply, WorkloadReplied(b, TerminalCompleted(true, true)))
    && Shows(facts, proof.absent, AppAbsent(b.slug))
  }

  ghost predicate Justified(facts: seq<Fact>, b: Bundle, status: Status, proof: Proof) {
    && (status == Cancelled ==> CancelProof(facts, b, proof))
    && (status == Completed ==> DoneProof(facts, b, proof))
  }

  // ---- invariants ---------------------------------------------------------

  ghost predicate JobOk(facts: seq<Fact>, job: Job) {
    Justified(facts, job.bundle, job.status, job.proof) && RepairOk(job.status, job.repaired, job.proof)
  }

  /** A repaired job is cancelled, by repair evidence. */
  ghost predicate RepairOk(status: Status, repaired: bool, proof: Proof) {
    repaired ==> status == Cancelled && proof.ByRepair?
  }

  /** A job read back at start-up never waits for its run again. */
  ghost predicate LoadedOk(a: AttemptId, job: Job) {
    job.bundle.attemptId == a && !job.settled && job.status !in {Accepted, Running}
  }

  ghost predicate MemoryOk(m: Memory, facts: seq<Fact>, nextJob: nat) {
    && (forall n :: n in m.created ==> n < nextJob && JobOk(facts, m.created[n]))
    && (forall n :: n in m.created && !m.created[n].settled ==> m.created[n].status in {Accepted, Cancelled})
    && (forall a :: a in m.loaded ==> JobOk(facts, m.loaded[a]) && LoadedOk(a, m.loaded[a]))
    && (forall a :: a in m.index ==> Has(m, m.index[a]) && Get(m, m.index[a]).bundle.attemptId == a)
  }

  ghost predicate DiskOk(disk: map<AttemptId, Journal>, facts: seq<Fact>) {
    forall a :: a in disk ==>
      && disk[a].bundle.attemptId == a
      && Justified(facts, disk[a].bundle, disk[a].status, disk[a].proof)
      && RepairOk(disk[a].status, disk[a].repaired, disk[a].proof)
  }

  ghost predicate WaitingOk(m: Memory, waiting: seq<nat>, sent: map<nat, Bundle>) {
    && (forall i, j :: 0 <= i < j < |waiting| ==> waiting[i] != waiting[j])
    && (forall i :: 0 <= i < |waiting| ==>
         && waiting[i] in m.created && waiting[i] !in sent
         && m.created[waiting[i]].settled && m.created[waiting[i]].status in {Accepted, Cancelled})
  }

  ghost predicate RunOk(m: Memory, run: RunPc, facts: seq<Fact>, sent: map<nat, Bundle>) {
    run.Resting? ||
    (&& run.job in m.created && run.job in sent && sent[run.job] == m.created[run.job].bundle
     && m.created[run.job].status in {Running, CleanupPending} && m.created[run.job].settled
     && (run.AwaitingReply? || Shows(facts, run.replyAt, WorkloadReplied(m.created[run.job].bundle, run.reply))))
  }

  ghost predicate SentOk(log: History, nextJob: nat, disk: map<AttemptId, Journal>) {
    forall n :: n in log.sent ==> n < nextJob && (log.sent[n].attemptId in disk || log.sent[n].attemptId in log.reaped)
  }

  ghost predicate FencedOk(m: Memory, facts: seq<Fact>, fenced: map<AttemptId, nat>, below: nat) {
    forall a :: a in fenced && a in m.loaded ==> fenced[a] < below && Shows(facts, fenced[a], FenceAcked(m.loaded[a].bundle))
  }

  ghost predicate PcOk(m: Memory, facts: seq<Fact>, pc: Pc) {
    match pc
    case SubmitWaiting(_) => true
    case CancelFencing(r) => Has(m, r)
    case CancelSettling(_) => true
    case RepairSettling(r) => Has(m, r) && Broken(Get(m, r))
    case RepairFencing(r) => Has(m, r) && Broken(Get(m, r))
    case RepairEmptying(r, ack) => Has(m, r) && Broken(Get(m, r)) && Shows(facts, ack, RepairReceipt(Get(m, r).bundle))
    case RepairClearing(r, ack, empty) =>
      && Has(m, r) && Broken(Get(m, r)) && Shows(facts, ack, RepairReceipt(Get(m, r).bundle))
      && ack < empty && Shows(facts, empty, WorkloadEmpty)
    case HealthFencing(fenced, pending) =>
      FencedOk(m, facts, fenced, |facts|) && (pending.Some? ==> pending.value.Old? && Has(m, pending.value))
    case HealthPicking(fenced, empty) => FencedOk(m, facts, fenced, empty) && Shows(facts, empty, WorkloadEmpty)
    case HealthClearing(fenced, empty, r, _) =>
      && FencedOk(m, facts, fenced, empty) && Shows(facts, empty, WorkloadEmpty)
      && r.Old? && Has(m, r) && Recovering(Get(m, r)) && r.a in fenced
  }

  predicate Unclean(job: Job) {
    job.status == Failed && job.error == ErrorCode.CleanupFailed
  }

  /** A failed cleanup, or its repair by another handler. */
  ghost predicate Broken(job: Job) {
    Unclean(job) || (job.status == Cancelled && job.repaired)
  }

  ghost predicate Recovering(job: Job) {
    && !job.repaired
    && (job.status == CleanupPending || (job.status == Failed && job.error != ErrorCode.CleanupFailed) || job.status == Cancelled)
  }

  /** Everything but the suspended handlers. */
  ghost predicate Core(s: State) {
    && MemoryOk(s.memory, s.log.facts, s.nextJob)
    && DiskOk(s.disk, s.log.facts)
    && WaitingOk(s.memory, s.queue.waiting, s.log.sent)
    && RunOk(s.memory, s.queue.run, s.log.facts, s.log.sent)
    && (s.queue.run.Resting? || s.queue.run.job !in s.queue.waiting)
    && SentOk(s.log, s.nextJob, s.disk)
  }

  ghost predicate HandlersOk(s: State) {
    forall i :: i in s.handlers ==> i < s.nextHandler && PcOk(s.memory, s.log.facts, s.handlers[i])
  }

  ghost predicate Inv(s: State) {
    Core(s) && HandlersOk(s)
  }

  // ---- how a job may change -----------------------------------------------

  /** The moves of a job that a step may make.  Completed and cancelled stay; a
      failed job is at most cancelled, and an unclean one only by repair. */
  ghost predicate JobMoves(r: JobRef, x: Job, y: Job) {
    && y.bundle == x.bundle && y.settled == x.settled
    && (x.repaired ==> y.repaired)
    && (r.Old? && !x.repaired && !Unclean(x) ==> !y.repaired)
    && (x.status == Completed ==> y.status == Completed)
    && (x.status == Cancelled ==> y.status == Cancelled)
    && (x.status == Failed ==> y.status == Cancelled || (y.status == Failed && y.error == x.error))
    && (Unclean(x) && y.status == Cancelled ==> y.repaired)
    && (r.Old? ==> (y.status == x.status && y.error == x.error) || (x.status in {CleanupPending, Failed, Cancelled} && y.status == Cancelled))
  }

  ghost predicate MemoryMoves(m: Memory, k: Memory) {
    && (forall n :: n in m.created ==> n in k.created && JobMoves(New(n), m.created[n], k.created[n]))
    && (forall a :: a in m.loaded <==> a in k.loaded)
    && (forall a :: a in m.loaded ==> JobMoves(Old(a), m.loaded[a], k.loaded[a]))
  }

  ghost predicate FactsGrow(f: seq<Fact>, g: seq<Fact>) {
    |f| <= |g| && forall i :: 0 <= i < |f| ==> g[i] == f[i]
  }

  lemma {:induction false} PcStays(m: Memory, k: Memory, f: seq<Fact>, g: seq<Fact>, pc: Pc)
    requires PcOk(m, f, pc) && MemoryMoves(m, k) && FactsGrow(f, g)
    ensures PcOk(k, g, pc)
  {
  }

  lemma {:induction false} SelfMoves(m: Memory)
    ensures MemoryMoves(m, m)
  {
  }

  lemma {:induction false} ProofStays(f: seq<Fact>, g: seq<Fact>, b: Bundle, status: Status, proof: Proof)
    requires Justified(f, b, status, proof) && FactsGrow(f, g)
    ensures Justified(g, b, status, proof)
  {
  }

  /** What every step but a restart guarantees to whoever is suspended. */
  ghost predicate Moves(s: State, t: State) {
    && MemoryMoves(s.memory, t.memory)
    && FactsGrow(s.log.facts, t.log.facts)
    && s.nextHandler <= t.nextHandler
  }

  lemma {:induction false} HandlersStay(s: State, t: State, id: nat)
    requires HandlersOk(s) && Moves(s, t)
    requires forall i :: i in t.handlers && i != id ==> i in s.handlers && t.handlers[i] == s.handlers[i]
    requires id in t.handlers ==> id < t.nextHandler && PcOk(t.memory, t.log.facts, t.handlers[id])
    ensures HandlersOk(t)
  {
    forall i | i in t.handlers && i != id
      ensures PcOk(t.memory, t.log.facts, t.handlers[i])
    {
      PcStays(s.memory, t.memory, s.log.facts, t.log.facts, t.handlers[i]);
    }
  }

  lemma {:induction false} MemoryStays(m: Memory, f: seq<Fact>, g: seq<Fact>, nextJob: nat)
    requires MemoryOk(m, f, nextJob) && FactsGrow(f, g)
    ensures MemoryOk(m, g, nextJob)
  {
    forall n | n in m.created
      ensures JobOk(g, m.created[n])
    {
      ProofStays(f, g, m.created[n].bundle, m.created[n].status, m.created[n].proof);
    }
    forall a | a in m.loaded
      ensures JobOk(g, m.loaded[a])
    {
      ProofStays(f, g, m.loaded[a].bundle, m.loaded[a].status, m.loaded[a].proof);
    }
  }

  lemma {:induction false} DiskStays(disk: map<AttemptId, Journal>, f: seq<Fact>, g: seq<Fact>)
    requires DiskOk(disk, f) && FactsGrow(f, g)
    ensures DiskOk(disk, g)
  {
  }

  lemma {:induction false} ObserveKeeps(s: State, fact: Fact)
    requires Core(s)
    ensures var t := Observe(s, fact);
      Core(t) && Moves(s, t) && Shows(t.log.facts, Observed(s), fact)
  {
    var f, g := s.log.facts, s.log.facts + [fact];
    assert FactsGrow(f, g);
    MemoryStays(s.memory, f, g, s.nextJob);
    DiskStays(s.disk, f, g);
    SelfMoves(s.memory);
  }

  lemma {:induction false} AskFenceKeeps(cfg: Config, s: State, bundle: Bundle)
    requires Core(s)
    ensures Core(AskFence(cfg, s, bundle)) && Moves(s, AskFence(cfg, s, bundle))
  {
    SelfMoves(s.memory);
  }

  /** `job` may replace the job `r`. */
  ghost predicate Fits(s: State, r: JobRef, job: Job)
    requires Has(s.memory, r)
  {
    && JobMoves(r, Get(s.memory, r), job)
    && JobOk(s.log.facts, job)
    && (r.New? && !job.settled ==> job.status in {Accepted, Cancelled})
    && (r.New? && r.n in s.queue.waiting ==> job.status in {Accepted, Cancelled})
    && (r.New? && !s.queue.run.Resting? && s.queue.run.job == r.n ==> job.status in {Running, CleanupPending})
  }

  lemma {:induction false} PersistKeeps(s: State, job: Job, written: bool)
    requires Core(s) && JobOk(s.log.facts, job)
    ensures Core(Persist(s, job, written))
    ensures var t := Persist(s, job, written);
      t.memory == s.memory && t.log.facts == s.log.facts && t.nextHandler == s.nextHandler && t.handlers == s.handlers
  {
  }

  lemma {:induction false} SetMemory(s: State, r: JobRef, job: Job)
    requires Core(s) && Has(s.memory, r) && Fits(s, r, job)
    ensures MemoryOk(Set(s.memory, r, job), s.log.facts, s.nextJob)
    ensures MemoryMoves(s.memory, Set(s.memory, r, job))
  {
  }

  lemma {:induction false} SetKeeps(s: State, r: JobRef, job: Job)
    requires Core(s) && Has(s.memory, r) && Fits(s, r, job)
    ensures var t := s.(memory := Set(s.memory, r, job)); Core(t) && Moves(s, t)
  {
    SetMemory(s, r, job);
  }

  lemma {:induction false} PutKeeps(s: State, r: JobRef, job: Job, written: bool)
    requires Core(s) && Has(s.memory, r) && Fits(s, r, job)
    ensures Core(Put(s, r, job, written)) && Moves(s, Put(s, r, job, written))
  {
    SetKeeps(s, r, job);
    var t := s.(memory := Set(s.memory, r, job));
    PersistKeeps(t, job, written);
  }

  lemma {:induction false} AbortRunKeeps(cfg: Config, s: State, r: JobRef, bundle: Bundle)
    requires Core(s)
    ensures Core(AbortRun(cfg, s, r, bundle)) && Moves(s, AbortRun(cfg, s, r, bundle))
  {
    SelfMoves(s.memory);
  }

  lemma {:induction false} DropKeeps(s: State, id: nat)
    requires Inv(s)
    ensures Inv(Drop(s, id))
  {
  }

  lemma {:induction false} SuspendKeeps(s: State, id: nat, pc: Pc)
    requires Inv(s) && id < s.nextHandler && PcOk(s.memory, s.log.facts, pc)
    ensures Inv(Suspend(s, id, pc))
  {
  }

  /** A step that leaves the handlers alone. */
  lemma {:induction false} QuietStep(s: State, t: State)
    requires Inv(s) && Core(t) && Moves(s, t) && t.handlers == s.handlers
    ensures Inv(t)
  {
    HandlersStay(s, t, s.nextHandler);
  }

  lemma {:induction false} ObserveStep(s: State, fact: Fact)
    requires Inv(s)
    ensures var t := Observe(s, fact);
      Inv(t) && FactsGrow(s.log.facts, t.log.facts) && Shows(t.log.facts, Observed(s), fact)
  {
    ObserveKeeps(s, fact);
    QuietStep(s, Observe(s, fact));
  }

  lemma {:induction false} PutStep(s: State, r: JobRef, job: Job, written: bool)
    requires Inv(s) && Has(s.memory, r) && Fits(s, r, job)
    ensures Inv(Put(s, r, job, written))
  {
    PutKeeps(s, r, job, written);
    QuietStep(s, Put(s, r, job, written));
  }

  lemma {:induction false} PersistStep(s: State, job: Job, written: bool)
    requires Inv(s) && JobOk(s.log.facts, job)
    ensures Inv(Persist(s, job, written))
  {
    PersistKeeps(s, job, written);
    SelfMoves(s.memory);
    QuietStep(s, Persist(s, job, written));
  }

  lemma {:induction false} AbortRunStep(cfg: Config, s: State, r: JobRef, bundle: Bundle)
    requires Inv(s)
    ensures Inv(AbortRun(cfg, s, r, bundle))
  {
    AbortRunKeeps(cfg, s, r, bundle);
    QuietStep(s, AbortRun(cfg, s, r, bundle));
  }

  lemma {:induction false} SubmitKeeps(cfg: Config, s: State, bundle: Bundle)
    requires Inv(s)
    ensures Inv(Submit(cfg, s, bundle))
  {
    SelfMoves(s.memory);
    HandlersStay(s, Submit(cfg, s, bundle), s.nextHandler);
  }

  function WithJob(m: Memory, n: nat, job: Job): Memory {
    Memory(m.created[n := job], m.loaded, m.index[job.bundle.attemptId := New(n)])
  }

  lemma {:induction false} NewJobMemory(m: Memory, facts: seq<Fact>, n: nat, job: Job)
    requires MemoryOk(m, facts, n) && JobOk(facts, job) && job.status == Accepted
    ensures MemoryOk(WithJob(m, n, job), facts, n + 1) && MemoryMoves(m, WithJob(m, n, job))
  {
  }

  lemma {:induction false} NewJobKeeps(s: State, job: Job)
    requires Inv(s) && JobOk(s.log.facts, job) && job.status == Accepted
    ensures Inv(s.(memory := WithJob(s.memory, s.nextJob, job), nextJob := s.nextJob + 1))
  {
    var t := s.(memory := WithJob(s.memory, s.nextJob, job), nextJob := s.nextJob + 1);
    NewJobMemory(s.memory, s.log.facts, s.nextJob, job);
    QuietStep(s, t);
  }

  lemma {:induction false} EnqueueKeeps(s: State, n: nat)
    requires Inv(s) && n !in s.queue.waiting && n !in s.log.sent && (s.queue.run.Resting? || s.queue.run.job != n)
    requires n in s.memory.created && s.memory.created[n].settled && s.memory.created[n].status == Accepted
    ensures Inv(s.(queue := s.queue.(waiting := s.queue.waiting + [n])))
  {
    SelfMoves(s.memory);
    QuietStep(s, s.(queue := s.queue.(waiting := s.queue.waiting + [n])));
  }

  lemma {:induction false} ContinueSubmitKeeps(s: State, id: nat, bundle: Bundle, ready: bool, written: bool)
    requires Inv(s)
    ensures Inv(ContinueSubmit(s, id, bundle, ready, written))
  {
    var r := Drop(s, id);
    DropKeeps(s, id);
    if ready {
      var n := s.nextJob;
      var job := NewJob(bundle, s.now, written);
      NewJobKeeps(r, job);
      var q := r.(memory := WithJob(r.memory, n, job), nextJob := n + 1);
      PersistStep(q, job, written);
      var t := Persist(q, job, written);
      if written {
        EnqueueKeeps(t, n);
      }
    }
  }

  lemma {:induction false} SendExecuteKeeps(cfg: Config, s: State, n: nat, job: Job)
    requires Inv(s) && s.queue.run.Resting? && n !in s.queue.waiting
    requires n in s.memory.created && s.memory.created[n] == job.(status := Running, updatedAt := s.now)
    requires job.settled && n !in s.log.sent && job.bundle.attemptId in s.disk
    ensures Inv(SendExecute(cfg, s, n, job))
  {
    var t := s.(queue := s.queue.(run := AwaitingReply(n, job.aborted)), log := s.log.(sent := s.log.sent[n := job.bundle]));
    SelfMoves(s.memory);
    QuietStep(s, t);
    if job.aborted {
      AskFenceKeeps(cfg, t, job.bundle);
      QuietStep(t, AskFence(cfg, t, job.bundle));
    }
  }

  lemma {:induction false} StartNextKeeps(cfg: Config, s: State, written: bool)
    requires Inv(s) && Enabled(cfg, s, RunNext(written))
    ensures Inv(StartNext(cfg, s, written))
  {
    var n := s.queue.waiting[0];
    var job := s.memory.created[n];
    var r := s.(queue := s.queue.(waiting := s.queue.waiting[1..]));
    SelfMoves(s.memory);
    assert n !in s.queue.waiting[1..];
    QuietStep(s, r);
    if job.status != Cancelled {
      var running := job.(status := Running, updatedAt := s.now);
      PutStep(r, New(n), running, written);
      if written {
        SendExecuteKeeps(cfg, Put(r, New(n), running, written), n, job);
      }
    }
  }

  /** The proof that goes with an outcome. */
  ghost predicate Supports(facts: seq<Fact>, b: Bundle, outcome: Outcome, proof: Proof) {
    && (outcome == CleanupConfirmed ==> CancelProof(facts, b, proof) && !proof.ByRepair?)
    && (outcome == Done ==> DoneProof(facts, b, proof))
  }

  lemma {:induction false} FinishRunKeeps(s: State, n: nat, outcome: Outcome, proof: Proof, written: bool)
    requires Inv(s) && !s.queue.run.Resting? && s.queue.run.job == n
    requires Supports(s.log.facts, s.memory.created[n].bundle, outcome, proof)
    ensures Inv(FinishRun(s, n, outcome, proof, written))
  {
    var r := s.(queue := s.queue.(run := Resting));
    SelfMoves(s.memory);
    QuietStep(s, r);
    PutStep(r, New(n), Concluded(s.memory.created[n], outcome, proof, s.now), written);
  }

  lemma {:induction false} ConsiderKeeps(s: State, n: nat, reply: Reply, replyAt: nat, written: bool)
    requires Inv(s) && !s.queue.run.Resting? && s.queue.run.job == n
    requires Shows(s.log.facts, replyAt, WorkloadReplied(s.memory.created[n].bundle, reply))
    ensures Inv(Consider(s, n, reply, replyAt, written))
  {
    match PlanFor(reply) {
      case Conclude(outcome) => FinishRunKeeps(s, n, outcome, ByReply(replyAt), written);
      case _ =>
        SelfMoves(s.memory);
        QuietStep(s, Consider(s, n, reply, replyAt, written));
    }
  }

  lemma {:induction false} ReplyToRunKeeps(s: State, reply: Reply, written: bool)
    requires Inv(s) && s.queue.run.AwaitingReply? && s.queue.run.job in s.memory.created
    ensures Inv(ReplyToRun(s, reply, written))
  {
    var n := s.queue.run.job;
    if reply.TransportError? {
      FinishRunKeeps(s, n, Errored, Unproved, written);
    } else {
      var fact := WorkloadReplied(s.memory.created[n].bundle, reply);
      ObserveStep(s, fact);
      var t := Observe(s, fact);
      if s.queue.run.fencing {
        SelfMoves(t.memory);
        QuietStep(t, ReplyToRun(s, reply, written));
      } else {
        ConsiderKeeps(t, n, reply, Observed(s), written);
      }
    }
  }

  lemma {:induction false} FenceOfRunKeeps(s: State, ok: bool, written: bool)
    requires Inv(s) && s.queue.run.AwaitingFence? && s.queue.run.job in s.memory.created
    ensures Inv(FenceOfRun(s, ok, written))
  {
    var pc := s.queue.run;
    if ok {
      var fact := FenceAcked(s.memory.created[pc.job].bundle);
      ObserveStep(s, fact);
      ConsiderKeeps(Observe(s, fact), pc.job, pc.reply, pc.replyAt, written);
    } else {
      FinishRunKeeps(s, pc.job, Errored, Unproved, written);
    }
  }

  lemma {:induction false} BothProve(facts: seq<Fact>, b: Bundle, reply: Reply, k: nat, empty: nat, absent: nat)
    requires PlanFor(reply).ProveBoth? && Shows(facts, k, WorkloadReplied(b, reply)) && ThenCleared(facts, k, empty, absent, b)
    ensures Supports(facts, b, CleanupConfirmed, ByReplyAnd(k, empty, absent))
  {
  }

  /** An empty workload, then the App's absence. */
  lemma {:induction false} ClearedStep(s: State, slug: string) returns (u: State)
    requires Inv(s)
    ensures u == Observe(Observe(s, WorkloadEmpty), AppAbsent(slug)) && Inv(u) && FactsGrow(s.log.facts, u.log.facts)
    ensures Shows(u.log.facts, Observed(s), WorkloadEmpty) && Shows(u.log.facts, Observed(s) + 1, AppAbsent(slug))
  {
    var t := Observe(s, WorkloadEmpty);
    u := Observe(t, AppAbsent(slug));
    ObserveStep(s, WorkloadEmpty);
    ObserveStep(t, AppAbsent(slug));
  }

  lemma {:induction false} ProvedIsSound(s: State, ok: bool)
    requires Inv(s) && s.queue.run.Proving? && s.queue.run.job in s.memory.created
    ensures var p := Proved(s, ok);
      Inv(p.0) && p.0.queue == s.queue && p.0.memory == s.memory
      && Supports(p.0.log.facts, s.memory.created[s.queue.run.job].bundle, p.1, p.2)
  {
    var pc := s.queue.run;
    var b := s.memory.created[pc.job].bundle;
    if ok && PlanFor(pc.reply).ProveBoth? {
      var u := ClearedStep(s, b.slug);
      BothProve(u.log.facts, b, pc.reply, pc.replyAt, Observed(s), Observed(s) + 1);
    } else if ok && PlanFor(pc.reply).ProveAbsent? {
      ObserveStep(s, AppAbsent(b.slug));
    }
  }

  lemma {:induction false} ProveRunKeeps(s: State, ok: bool, written: bool)
    requires Inv(s) && s.queue.run.Proving? && s.queue.run.job in s.memory.created
    ensures Inv(ProveRun(s, ok, written))
  {
    var p := Proved(s, ok);
    ProvedIsSound(s, ok);
    FinishRunKeeps(p.0, s.queue.run.job, p.1, p.2, written);
  }

  // ---- cancel and repair --------------------------------------------------

  lemma {:induction false} CancelledFits(s: State, r: JobRef, proof: Proof)
    requires Core(s) && Has(s.memory, r)
    requires Get(s.memory, r).status == Accepted ==> CancelProof(s.log.facts, Get(s.memory, r).bundle, proof)
    ensures Fits(s, r, CancelledJob(Get(s.memory, r), s.now, proof))
  {
  }

  lemma {:induction false} RepairedFits(s: State, r: JobRef, proof: Proof)
    requires Core(s) && Has(s.memory, r) && Broken(Get(s.memory, r))
    requires CancelProof(s.log.facts, Get(s.memory, r).bundle, proof) && proof.ByRepair?
    ensures Fits(s, r, RepairedJob(Get(s.memory, r), s.now, proof))
  {
  }

  lemma {:induction false} RecoveredFits(s: State, r: JobRef, wasFailed: bool, proof: Proof)
    requires Core(s) && Has(s.memory, r) && r.Old? && Recovering(Get(s.memory, r))
    requires CancelProof(s.log.facts, Get(s.memory, r).bundle, proof)
    ensures Fits(s, r, RecoveredJob(Get(s.memory, r), s.now, wasFailed, proof))
  {
  }

  lemma {:induction false} ExpiredFits(cfg: Config, s: State, r: JobRef)
    requires Core(s) && Has(s.memory, r) && Stale(cfg, Get(s.memory, r), s.now)
    ensures Fits(s, r, ExpiredJob(Get(s.memory, r), s.now))
  {
  }

  lemma {:induction false} CommitCancelKeeps(cfg: Config, s: State, id: nat, r: JobRef, proof: Proof, written: bool)
    requires Inv(s) && Has(s.memory, r) && id < s.nextHandler
    requires Get(s.memory, r).status == Accepted ==> CancelProof(s.log.facts, Get(s.memory, r).bundle, proof)
    ensures Inv(CommitCancel(cfg, s, id, r, proof, written))
  {
    var job := Get(s.memory, r);
    var cancelled := CancelledJob(job, s.now, proof);
    CancelledFits(s, r, proof);
    PutStep(s, r, cancelled, written);
    var t := Put(s, r, cancelled, written);
    AbortRunStep(cfg, t, r, job.bundle);
    var u := if Aborts(cancelled.status) then AbortRun(cfg, t, r, job.bundle) else t;
    DropKeeps(u, id);
    SuspendKeeps(u, id, CancelSettling(r));
  }

  lemma {:induction false} FreshHandlerKeeps(s: State)
    requires Inv(s)
    ensures Inv(s.(nextHandler := s.nextHandler + 1))
  {
  }

  lemma {:induction false} AskThenSuspendKeeps(cfg: Config, s: State, bundle: Bundle, id: nat, pc: Pc)
    requires Inv(s) && id < s.nextHandler && PcOk(s.memory, s.log.facts, pc)
    ensures Inv(Suspend(AskFence(cfg, s, bundle), id, pc))
  {
    AskFenceKeeps(cfg, s, bundle);
    QuietStep(s, AskFence(cfg, s, bundle));
    SuspendKeeps(AskFence(cfg, s, bundle), id, pc);
  }

  lemma {:induction false} CancelRequestKeeps(cfg: Config, s: State, a: AttemptId, bundle: Bundle, written: bool)
    requires Inv(s) && Enabled(cfg, s, CancelArrives(a, bundle, written))
    ensures Inv(CancelRequest(cfg, s, a, bundle, written))
  {
    if a in s.memory.index && Get(s.memory, s.memory.index[a]).bundle == bundle {
      var t := s.(nextHandler := s.nextHandler + 1);
      var r := s.memory.index[a];
      var job := Get(s.memory, r);
      FreshHandlerKeeps(s);
      if job.status == Failed && job.error == ErrorCode.CleanupFailed {
        SuspendKeeps(t, s.nextHandler, RepairSettling(r));
      } else if !Settled(job.status) {
        AskThenSuspendKeeps(cfg, t, bundle, s.nextHandler, CancelFencing(r));
      } else {
        CommitCancelKeeps(cfg, t, s.nextHandler, r, job.proof, written);
      }
    }
  }

  lemma {:induction false} FenceOfCancelKeeps(cfg: Config, s: State, id: nat, r: JobRef, acked: bool, written: bool)
    requires Inv(s) && Has(s.memory, r) && id < s.nextHandler
    ensures Inv(FenceOfCancel(cfg, s, id, r, acked, written))
  {
    if acked {
      var fact := FenceAcked(Get(s.memory, r).bundle);
      ObserveStep(s, fact);
      CommitCancelKeeps(cfg, Observe(s, fact), id, r, ByFence(Observed(s)), written);
    } else {
      DropKeeps(s, id);
    }
  }

  lemma {:induction false} ObserveThenSuspendKeeps(s: State, fact: Fact, id: nat, pc: Pc)
    requires Inv(s) && id < s.nextHandler
    requires FactsGrow(s.log.facts, s.log.facts + [fact]) ==> PcOk(s.memory, s.log.facts + [fact], pc)
    ensures Inv(Suspend(Observe(s, fact), id, pc))
  {
    ObserveStep(s, fact);
    SuspendKeeps(Observe(s, fact), id, pc);
  }

  lemma {:induction false} RepairKeeps(cfg: Config, s: State, e: Event)
    requires Inv(s) && Enabled(cfg, s, e)
    requires e.RepairSettled? || e.RepairFenced? || e.RepairEmptied?
    ensures Inv(React(cfg, s, e))
  {
    var id := e.id;
    var r := s.handlers[id].job;
    var bundle := Get(s.memory, r).bundle;
    DropKeeps(s, id);
    match e {
      case RepairSettled(_, ok) => if ok { AskThenSuspendKeeps(cfg, s, bundle, id, RepairFencing(r)); }
      case RepairFenced(_, verified) =>
        if verified { ObserveThenSuspendKeeps(s, RepairReceipt(bundle), id, RepairEmptying(r, Observed(s))); }
      case RepairEmptied(_, ok) =>
        if ok { ObserveThenSuspendKeeps(s, WorkloadEmpty, id, RepairClearing(r, s.handlers[id].ack, Observed(s))); }
    }
  }

  lemma {:induction false} CommitRepairKeeps(cfg: Config, s: State, id: nat, r: JobRef, ack: nat, empty: nat, written: bool, rewritten: bool)
    requires Inv(s) && id < s.nextHandler && PcOk(s.memory, s.log.facts, RepairClearing(r, ack, empty))
    ensures Inv(CommitRepair(cfg, s, id, r, ack, empty, written, rewritten))
  {
    var job := Get(s.memory, r);
    var fact := AppAbsent(job.bundle.slug);
    ObserveStep(s, fact);
    var t := Observe(s, fact);
    if written {
      var repaired := RepairedJob(job, s.now, ByRepair(ack, empty, Observed(s)));
      RepairedFits(t, r, repaired.proof);
      PutStep(t, r, repaired, true);
      CommitCancelKeeps(cfg, Put(t, r, repaired, true), id, r, repaired.proof, rewritten);
    } else {
      DropKeeps(t, id);
      PersistStep(Drop(t, id), job, false);
    }
  }

  // ---- health recovery ----------------------------------------------------

  /** Only jobs read back at start-up are recovered. */
  lemma {:induction false} OnlyLoadedRecover(m: Memory, facts: seq<Fact>, nextJob: nat, r: JobRef)
    requires MemoryOk(m, facts, nextJob) && Has(m, r) && Recoverable(Get(m, r))
    ensures r.Old? && Recovering(Get(m, r)) && r.a == Get(m, r).bundle.attemptId
  {
  }

  lemma {:induction false} HealthFencedKeeps(s: State, id: nat, fenced: map<AttemptId, nat>, r: JobRef, acked: bool)
    requires Inv(s) && id < s.nextHandler && r.Old? && Has(s.memory, r)
    requires FencedOk(s.memory, s.log.facts, fenced, |s.log.facts|)
    ensures Inv(FenceOfRecovery(s, id, fenced, r, acked))
  {
    var bundle := Get(s.memory, r).bundle;
    if acked {
      ObserveThenSuspendKeeps(s, FenceAcked(bundle), id, HealthFencing(fenced[bundle.attemptId := Observed(s)], None));
    } else {
      SuspendKeeps(s, id, HealthFencing(fenced, None));
    }
  }

  lemma {:induction false} AskRecoveryKeeps(cfg: Config, s: State, id: nat, fenced: map<AttemptId, nat>, r: JobRef)
    requires Inv(s) && id < s.nextHandler && Has(s.memory, r) && FencedOk(s.memory, s.log.facts, fenced, |s.log.facts|)
    ensures Inv(AskRecovery(cfg, s, id, fenced, r))
  {
    if Recoverable(Get(s.memory, r)) {
      OnlyLoadedRecover(s.memory, s.log.facts, s.nextJob, r);
      AskThenSuspendKeeps(cfg, s, Get(s.memory, r).bundle, id, HealthFencing(fenced, Some(r)));
    }
  }

  lemma {:induction false} PickKeeps(s: State, id: nat, fenced: map<AttemptId, nat>, empty: nat, r: JobRef)
    requires Inv(s) && id < s.nextHandler && Has(s.memory, r) && PcOk(s.memory, s.log.facts, HealthPicking(fenced, empty))
    ensures Inv(Pick(s, id, fenced, empty, r))
  {
    if Recoverable(Get(s.memory, r)) && Get(s.memory, r).bundle.attemptId in fenced {
      OnlyLoadedRecover(s.memory, s.log.facts, s.nextJob, r);
      SuspendKeeps(s, id, HealthClearing(fenced, empty, r, Get(s.memory, r).status == Failed));
    }
  }

  lemma {:induction false} HealthKeeps(cfg: Config, s: State, e: Event)
    requires Inv(s) && Enabled(cfg, s, e)
    requires e.HealthArrives? || e.HealthAsks? || e.HealthFenced? || e.HealthProbed? || e.HealthPicks?
    ensures Inv(React(cfg, s, e))
  {
    match e {
      case HealthArrives =>
        FreshHandlerKeeps(s);
        SuspendKeeps(s.(nextHandler := s.nextHandler + 1), s.nextHandler, HealthFencing(map[], None));
      case HealthAsks(id, r) => AskRecoveryKeeps(cfg, s, id, s.handlers[id].fenced, r);
      case HealthFenced(id, acked) =>
        HealthFencedKeeps(s, id, s.handlers[id].fenced, s.handlers[id].pending.value, acked);
      case HealthProbed(id, clean) =>
        if clean {
          ObserveThenSuspendKeeps(s, WorkloadEmpty, id, HealthPicking(s.handlers[id].fenced, Observed(s)));
        } else {
          DropKeeps(s, id);
        }
      case HealthPicks(id, r) => PickKeeps(s, id, s.handlers[id].fenced, s.handlers[id].empty, r);
    }
  }

  lemma {:induction false} RecoverKeeps(s: State, id: nat, absent: bool, written: bool)
    requires Inv(s) && id in s.handlers && s.handlers[id].HealthClearing?
    ensures var pc := s.handlers[id];
      Has(s.memory, pc.job) && Inv(Recover(s, id, pc.fenced, pc.empty, pc.job, pc.wasFailed, absent, written))
  {
    var pc := s.handlers[id];
    assert PcOk(s.memory, s.log.facts, pc);
    var job := Get(s.memory, pc.job);
    if !absent || job.bundle.attemptId !in pc.fenced {
      SuspendKeeps(s, id, HealthPicking(pc.fenced, pc.empty));
    } else {
      var t := Observe(s, AppAbsent(job.bundle.slug));
      ObserveStep(s, AppAbsent(job.bundle.slug));
      var u := RecoverStep(t, id, Observed(s), written);
      SuspendKeeps(u, id, HealthPicking(pc.fenced, pc.empty));
    }
  }

  lemma {:induction false} RecoverStep(s: State, id: nat, absent: nat, written: bool) returns (u: State)
    requires Inv(s) && id in s.handlers && s.handlers[id].HealthClearing? && Has(s.memory, s.handlers[id].job)
    requires var pc := s.handlers[id];
      pc.empty < absent && Shows(s.log.facts, absent, AppAbsent(Get(s.memory, pc.job).bundle.slug))
    ensures var pc := s.handlers[id]; var job := Get(s.memory, pc.job);
      && job.bundle.attemptId in pc.fenced && Inv(u) && u.handlers == s.handlers && u.nextHandler == s.nextHandler
      && u == Put(s, pc.job, RecoveredJob(job, s.now, pc.wasFailed, ByRecovery(pc.fenced[job.bundle.attemptId], pc.empty, absent)), written)
      && PcOk(u.memory, u.log.facts, HealthPicking(pc.fenced, pc.empty))
  {
    var pc := s.handlers[id];
    assert PcOk(s.memory, s.log.facts, pc);
    var job := Get(s.memory, pc.job);
    var proof := ByRecovery(pc.fenced[job.bundle.attemptId], pc.empty, absent);
    RecoveredFits(s, pc.job, pc.wasFailed, proof);
    u := Put(s, pc.job, RecoveredJob(job, s.now, pc.wasFailed, proof), written);
    PutStep(s, pc.job, RecoveredJob(job, s.now, pc.wasFailed, proof), written);
    assert PcOk(u.memory, u.log.facts, pc);
  }

  // ---- the reaper and the restart -----------------------------------------

  lemma {:induction false} ForgetKeeps(s: State, a: AttemptId)
    requires Inv(s)
    ensures Inv(s.(memory := s.memory.(index := s.memory.index - {a}), disk := s.disk - {a}, log := s.log.(reaped := s.log.reaped + {a})))
  {
    var t := s.(memory := s.memory.(index := s.memory.index - {a}), disk := s.disk - {a}, log := s.log.(reaped := s.log.reaped + {a}));
    SelfMoves(s.memory);
    QuietStep(s, t);
  }

  lemma {:induction false} ReapJobKeeps(cfg: Config, s: State, a: AttemptId, r: JobRef, written: bool)
    requires Inv(s) && Has(s.memory, r)
    ensures Inv(ReapJob(cfg, s, a, r, written))
  {
    var job := Get(s.memory, r);
    if Stale(cfg, job, s.now) {
      ExpiredFits(cfg, s, r);
      PutStep(s, r, ExpiredJob(job, s.now), written);
      AbortRunStep(cfg, Put(s, r, ExpiredJob(job, s.now), written), r, job.bundle);
    } else if Reapable(cfg, job, s.now) {
      ForgetKeeps(s, a);
    }
  }

  lemma {:induction false} ReviveOk(facts: seq<Fact>, disk: map<AttemptId, Journal>, a: AttemptId, now: int)
    requires DiskOk(disk, facts) && a in disk
    ensures JobOk(facts, Revive(disk[a], now)) && LoadedOk(a, Revive(disk[a], now))
  {
  }

  lemma {:induction false} RestartedMemory(s: State)
    requires DiskOk(s.disk, s.log.facts)
    ensures MemoryOk(Restarted(s).memory, s.log.facts, s.nextJob)
  {
    forall a | a in s.disk
      ensures JobOk(s.log.facts, Revive(s.disk[a], s.now)) && LoadedOk(a, Revive(s.disk[a], s.now))
    {
      ReviveOk(s.log.facts, s.disk, a, s.now);
    }
  }

  lemma {:induction false} RestartedDisk(s: State)
    requires DiskOk(s.disk, s.log.facts)
    ensures DiskOk(Restarted(s).disk, s.log.facts)
  {
    forall a | a in s.disk
      ensures JobOk(s.log.facts, Revive(s.disk[a], s.now)) && LoadedOk(a, Revive(s.disk[a], s.now))
    {
      ReviveOk(s.log.facts, s.disk, a, s.now);
    }
  }

  lemma {:induction false} RestartedKeeps(s: State)
    requires Inv(s)
    ensures Inv(Restarted(s))
  {
    RestartedMemory(s);
    RestartedDisk(s);
  }

  // ---- every step ---------------------------------------------------------

  lemma {:induction false} ReactKeeps(cfg: Config, s: State, e: Event)
    requires Inv(s) && Enabled(cfg, s, e)
    ensures Inv(React(cfg, s, e))
  {
    match e {
      case SubmitArrives(bundle) => SubmitKeeps(cfg, s, bundle);
      case SubmitContinues(id, ready, written) => ContinueSubmitKeeps(s, id, s.handlers[id].bundle, ready, written);
      case RunNext(written) => StartNextKeeps(cfg, s, written);
      case RunReplied(reply, written) => ReplyToRunKeeps(s, reply, written);
      case RunFenced(ok, written) => FenceOfRunKeeps(s, ok, written);
      case RunProved(ok, written) => ProveRunKeeps(s, ok, written);
      case CancelArrives(a, bundle, written) => CancelRequestKeeps(cfg, s, a, bundle, written);
      case CancelFenced(id, acked, written) => FenceOfCancelKeeps(cfg, s, id, s.handlers[id].job, acked, written);
      case CancelSettled(id) => DropKeeps(s, id);
      case RepairSettled(_, _) => RepairKeeps(cfg, s, e);
      case RepairFenced(_, _) => RepairKeeps(cfg, s, e);
      case RepairEmptied(_, _) => RepairKeeps(cfg, s, e);
      case RepairCleared(id, ok, written, rewritten) =>
        var pc := s.handlers[id];
        DropKeeps(s, id);
        CommitRepairKeeps(cfg, s, id, pc.job, pc.ack, pc.empty, written, rewritten);
      case HealthCleared(id, absent, written) => RecoverKeeps(s, id, absent, written);
      case Reap(a, written) => ReapJobKeeps(cfg, s, a, s.memory.index[a], written);
      case Restart => RestartedKeeps(s);
      case _ => HealthKeeps(cfg, s, e);
    }
  }

  lemma {:induction false} StepKeeps(cfg: Config, s: State, step: Timed)
    requires Inv(s) && CanStep(cfg, s, step)
    ensures Inv(Step(cfg, s, step))
  {
    var t := s.(now := step.at);
    SelfMoves(s.memory);
    QuietStep(s, t);
    ReactKeeps(cfg, t, step.event);
  }
}
