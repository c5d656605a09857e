/** What the control service asks of the workload and learns from it, and where its
    guarantees end: the runs that the assumptions of the theorems exclude.  Every fence
    it asks for outlives its bundle, whatever happens in between. */
module ControlLimits {
  import opened SandboxTypes
  import opened ControlModel
  import opened ControlSafety
  import opened ControlHistory
  import opened ControlRecovery

  // ---- every fence outlives its bundle ------------------------------------

  ghost predicate LongFences(commands: set<FenceCommand>) {
    forall c :: c in commands ==> c.expiresAt >= c.bundle.expiresAt + CLEANUP_MARGIN_MS
  }

  /** What is asked for in one step outlives the bundle by the cleanup margin, and
      the present by the job's lifetime and that margin. */
  ghost predicate AskedNow(cfg: Config, now: int, before: set<FenceCommand>, after: set<FenceCommand>) {
    && before <= after
    && forall c :: c in after && c !in before ==>
      c.expiresAt >= c.bundle.expiresAt + CLEANUP_MARGIN_MS && c.expiresAt >= now + cfg.jobTtlMs + CLEANUP_MARGIN_MS
  }

  lemma {:induction false} CommitCancelAsks(cfg: Config, s: State, id: nat, r: JobRef, proof: Proof, written: bool)
    requires Has(s.memory, r)
    ensures AskedNow(cfg, s.now, s.log.commands, CommitCancel(cfg, s, id, r, proof, written).log.commands)
  {
  }

  lemma {:induction false} CommitRepairAsks(cfg: Config, s: State, id: nat, r: JobRef, ack: nat, empty: nat, written: bool, rewritten: bool)
    requires Has(s.memory, r)
    ensures AskedNow(cfg, s.now, s.log.commands, CommitRepair(cfg, s, id, r, ack, empty, written, rewritten).log.commands)
  {
    if written {
      var job := Get(s.memory, r);
      var t := Observe(s, AppAbsent(job.bundle.slug));
      var repaired := RepairedJob(job, s.now, ByRepair(ack, empty, Observed(s)));
      CommitCancelAsks(cfg, Put(t, r, repaired, true), id, r, repaired.proof, rewritten);
    }
  }

  lemma {:induction false} ConsiderAsks(s: State, n: nat, reply: Reply, replyAt: nat, written: bool)
    requires n in s.memory.created
    ensures Consider(s, n, reply, replyAt, written).log.commands == s.log.commands
  {
  }

  lemma {:induction false} RunAsks(cfg: Config, s: State, e: Event)
    requires Enabled(cfg, s, e) && (e.RunReplied? || e.RunFenced?)
    ensures React(cfg, s, e).log.commands == s.log.commands
  {
    var n := s.queue.run.job;
    var b := s.memory.created[n].bundle;
    if e.RunReplied? {
      ConsiderAsks(Observe(s, WorkloadReplied(b, e.reply)), n, e.reply, Observed(s), e.written);
    } else {
      ConsiderAsks(Observe(s, FenceAcked(b)), n, s.queue.run.reply, s.queue.run.replyAt, e.written);
    }
  }

  lemma {:induction false} ProveRunAsks(s: State, ok: bool, written: bool)
    requires s.queue.run.Proving? && s.queue.run.job in s.memory.created
    ensures ProveRun(s, ok, written).log.commands == s.log.commands
  {
  }

  lemma {:induction false} StartNextAsks(cfg: Config, s: State, written: bool)
    requires s.queue.waiting != [] && s.queue.waiting[0] in s.memory.created
    ensures AskedNow(cfg, s.now, s.log.commands, StartNext(cfg, s, written).log.commands)
  {
  }

  lemma {:induction false} ReapAsks(cfg: Config, s: State, a: AttemptId, r: JobRef, written: bool)
    requires Has(s.memory, r)
    ensures AskedNow(cfg, s.now, s.log.commands, ReapJob(cfg, s, a, r, written).log.commands)
  {
  }

  lemma {:induction false} OtherAsks(cfg: Config, s: State, e: Event)
    requires Enabled(cfg, s, e)
    requires !e.CancelArrives? && !e.CancelFenced? && !e.RepairCleared? && !RunEvent(e) && !e.Reap?
    ensures AskedNow(cfg, s.now, s.log.commands, React(cfg, s, e).log.commands)
  {
  }

  lemma {:induction false} CancelRequestAsks(cfg: Config, s: State, a: AttemptId, bundle: Bundle, written: bool)
    requires a in s.memory.index ==> Has(s.memory, s.memory.index[a])
    ensures AskedNow(cfg, s.now, s.log.commands, CancelRequest(cfg, s, a, bundle, written).log.commands)
  {
    if a in s.memory.index {
      var r := s.memory.index[a];
      CommitCancelAsks(cfg, s.(nextHandler := s.nextHandler + 1), s.nextHandler, r, Get(s.memory, r).proof, written);
    }
  }

  lemma {:induction false} FenceOfCancelAsks(cfg: Config, s: State, id: nat, r: JobRef, acked: bool, written: bool)
    requires Has(s.memory, r)
    ensures AskedNow(cfg, s.now, s.log.commands, FenceOfCancel(cfg, s, id, r, acked, written).log.commands)
  {
    CommitCancelAsks(cfg, Observe(s, FenceAcked(Get(s.memory, r).bundle)), id, r, ByFence(Observed(s)), written);
  }

  lemma {:induction false} ReactAsks(cfg: Config, s: State, e: Event)
    requires Enabled(cfg, s, e)
    ensures AskedNow(cfg, s.now, s.log.commands, React(cfg, s, e).log.commands)
  {
    match e {
      case CancelArrives(a, bundle, written) => CancelRequestAsks(cfg, s, a, bundle, written);
      case CancelFenced(id, acked, written) => FenceOfCancelAsks(cfg, s, id, s.handlers[id].job, acked, written);
      case RepairCleared(id, ok, written, rewritten) =>
        var pc := s.handlers[id];
        CommitRepairAsks(cfg, s, id, pc.job, pc.ack, pc.empty, written, rewritten);
      case RunReplied(_, _) => RunAsks(cfg, s, e);
      case RunFenced(_, _) => RunAsks(cfg, s, e);
      case RunProved(ok, written) => ProveRunAsks(s, ok, written);
      case RunNext(written) => StartNextAsks(cfg, s, written);
      case Reap(a, written) => ReapAsks(cfg, s, a, s.memory.index[a], written);
      case _ => OtherAsks(cfg, s, e);
    }
  }

  lemma {:induction false} FencesOutlive(cfg: Config, s: State, run: seq<Timed>)
    requires CanRun(cfg, s, run) && LongFences(s.log.commands)
    ensures LongFences(After(cfg, s, run).log.commands)
    decreases |run|
  {
    if run != [] {
      ReactAsks(cfg, s.(now := run[0].at), run[0].event);
      FencesOutlive(cfg, Step(cfg, s, run[0]), run[1..]);
    }
  }

  // ---- what a step learns -------------------------------------------------

  /** A fact the service writes down in the step of event `e`. */
  ghost predicate Learns(cfg: Config, s: State, e: Event, fact: Fact)
    requires Enabled(cfg, s, e)
  {
    match e
    case RunReplied(reply, _) => fact == WorkloadReplied(s.memory.created[s.queue.run.job].bundle, reply)
    case RunFenced(ok, _) => ok && fact == FenceAcked(s.memory.created[s.queue.run.job].bundle)
    case CancelFenced(id, acked, _) => acked && fact == FenceAcked(Get(s.memory, s.handlers[id].job).bundle)
    case RepairFenced(id, verified) => verified && fact == RepairReceipt(Get(s.memory, s.handlers[id].job).bundle)
    case HealthFenced(id, acked) => acked && fact == FenceAcked(Get(s.memory, s.handlers[id].pending.value).bundle)
    case _ => fact.WorkloadEmpty? || fact.AppAbsent?
  }

  ghost predicate LearnsOnly(cfg: Config, s: State, e: Event, facts: seq<Fact>)
    requires Enabled(cfg, s, e)
  {
    && FactsGrow(s.log.facts, facts)
    && forall k :: |s.log.facts| <= k < |facts| ==> Learns(cfg, s, e, facts[k])
  }

  lemma {:induction false} CommitCancelFacts(cfg: Config, s: State, id: nat, r: JobRef, proof: Proof, written: bool)
    requires Has(s.memory, r)
    ensures CommitCancel(cfg, s, id, r, proof, written).log.facts == s.log.facts
  {
  }

  lemma {:induction false} FinishRunFacts(s: State, n: nat, outcome: Outcome, proof: Proof, written: bool)
    requires n in s.memory.created
    ensures FinishRun(s, n, outcome, proof, written).log.facts == s.log.facts
  {
  }

  lemma {:induction false} ConsiderFacts(s: State, n: nat, reply: Reply, replyAt: nat, written: bool)
    requires n in s.memory.created
    ensures Consider(s, n, reply, replyAt, written).log.facts == s.log.facts
  {
  }

  lemma {:induction false} RunRepliedLearns(cfg: Config, s: State, e: Event)
    requires Enabled(cfg, s, e) && e.RunReplied?
    ensures LearnsOnly(cfg, s, e, React(cfg, s, e).log.facts)
  {
    var n := s.queue.run.job;
    FinishRunFacts(s, n, Errored, Unproved, e.written);
    ConsiderFacts(Observe(s, WorkloadReplied(s.memory.created[n].bundle, e.reply)), n, e.reply, Observed(s), e.written);
  }

  lemma {:induction false} RunFencedLearns(cfg: Config, s: State, e: Event)
    requires Enabled(cfg, s, e) && e.RunFenced?
    ensures LearnsOnly(cfg, s, e, React(cfg, s, e).log.facts)
  {
    var pc := s.queue.run;
    FinishRunFacts(s, pc.job, Errored, Unproved, e.written);
    ConsiderFacts(Observe(s, FenceAcked(s.memory.created[pc.job].bundle)), pc.job, pc.reply, pc.replyAt, e.written);
  }

  lemma {:induction false} RunProvedLearns(cfg: Config, s: State, e: Event)
    requires Enabled(cfg, s, e) && e.RunProved?
    ensures LearnsOnly(cfg, s, e, React(cfg, s, e).log.facts)
  {
    var p := Proved(s, e.ok);
    FinishRunFacts(p.0, s.queue.run.job, p.1, p.2, e.written);
  }

  lemma {:induction false} CancelLearns(cfg: Config, s: State, e: Event)
    requires Enabled(cfg, s, e) && (e.CancelArrives? || e.CancelFenced? || e.RepairCleared?)
    ensures LearnsOnly(cfg, s, e, React(cfg, s, e).log.facts)
  {
    match e {
      case CancelArrives(a, bundle, written) =>
        if a in s.memory.index {
          var r := s.memory.index[a];
          CommitCancelFacts(cfg, s.(nextHandler := s.nextHandler + 1), s.nextHandler, r, Get(s.memory, r).proof, written);
        }
      case CancelFenced(id, acked, written) =>
        var r := s.handlers[id].job;
        CommitCancelFacts(cfg, Observe(s, FenceAcked(Get(s.memory, r).bundle)), id, r, ByFence(Observed(s)), written);
      case RepairCleared(id, ok, written, rewritten) =>
        var pc := s.handlers[id];
        CommitRepairFacts(cfg, s, id, pc.job, pc.ack, pc.empty, written, rewritten);
    }
  }

  lemma {:induction false} CommitRepairFacts(cfg: Config, s: State, id: nat, r: JobRef, ack: nat, empty: nat, written: bool, rewritten: bool)
    requires Has(s.memory, r)
    ensures CommitRepair(cfg, s, id, r, ack, empty, written, rewritten).log.facts == s.log.facts + [AppAbsent(Get(s.memory, r).bundle.slug)]
  {
    if written {
      var job := Get(s.memory, r);
      var t := Observe(s, AppAbsent(job.bundle.slug));
      var repaired := RepairedJob(job, s.now, ByRepair(ack, empty, Observed(s)));
      CommitCancelFacts(cfg, Put(t, r, repaired, true), id, r, repaired.proof, rewritten);
    }
  }

  lemma {:induction false} SubmitFacts(cfg: Config, s: State, id: nat, bundle: Bundle, ready: bool, written: bool)
    ensures Submit(cfg, s, bundle).log.facts == s.log.facts
    ensures ContinueSubmit(s, id, bundle, ready, written).log.facts == s.log.facts
  {
  }

  lemma {:induction false} StartNextFacts(cfg: Config, s: State, written: bool)
    requires s.queue.waiting != [] && s.queue.waiting[0] in s.memory.created
    ensures StartNext(cfg, s, written).log.facts == s.log.facts
  {
  }

  lemma {:induction false} ReapFacts(cfg: Config, s: State, a: AttemptId, r: JobRef, written: bool)
    requires Has(s.memory, r)
    ensures ReapJob(cfg, s, a, r, written).log.facts == s.log.facts
  {
  }

  lemma {:induction false} RecoverLearns(cfg: Config, s: State, e: Event)
    requires Enabled(cfg, s, e) && e.HealthCleared?
    ensures LearnsOnly(cfg, s, e, React(cfg, s, e).log.facts)
  {
  }

  lemma {:induction false} WaitingLearns(cfg: Config, s: State, e: Event)
    requires Enabled(cfg, s, e) && Waiting(e)
    ensures LearnsOnly(cfg, s, e, React(cfg, s, e).log.facts)
  {
  }

  lemma {:induction false} ReactLearns(cfg: Config, s: State, e: Event)
    requires Enabled(cfg, s, e)
    ensures LearnsOnly(cfg, s, e, React(cfg, s, e).log.facts)
  {
    match e {
      case RunReplied(_, _) => RunRepliedLearns(cfg, s, e);
      case RunFenced(_, _) => RunFencedLearns(cfg, s, e);
      case RunProved(_, _) => RunProvedLearns(cfg, s, e);
      case CancelArrives(_, _, _) => CancelLearns(cfg, s, e);
      case CancelFenced(_, _, _) => CancelLearns(cfg, s, e);
      case RepairCleared(_, _, _, _) => CancelLearns(cfg, s, e);
      case SubmitArrives(bundle) => SubmitFacts(cfg, s, 0, bundle, false, false);
      case SubmitContinues(id, ready, written) => SubmitFacts(cfg, s, id, s.handlers[id].bundle, ready, written);
      case RunNext(written) => StartNextFacts(cfg, s, written);
      case Reap(a, written) => ReapFacts(cfg, s, a, s.memory.index[a], written);
      case HealthCleared(_, _, _) => RecoverLearns(cfg, s, e);
      case Restart =>
      case _ => WaitingLearns(cfg, s, e);
    }
  }

  // ---- a crash in the middle of the start-up scan --------------------------

  /** The journals after the scan has rewritten those of the attempts `done`. */
  function Scanned(disk: map<AttemptId, Journal>, done: set<AttemptId>, now: int): map<AttemptId, Journal> {
    map a | a in disk :: if a in done then JournalOf(Revive(disk[a], now)) else disk[a]
  }

  /** A scan that is cut short by another crash, at any point, changes nothing: the
      next one gives the jobs and journals of a single full scan. */
  lemma {:induction false} ScanRestarts(s: State, done: set<AttemptId>, early: int)
    ensures Restarted(s.(disk := Scanned(s.disk, done, early))) == Restarted(s)
  {
    var t, u := Restarted(s.(disk := Scanned(s.disk, done, early))), Restarted(s);
    forall a | a in s.disk
      ensures Revive(Scanned(s.disk, done, early)[a], s.now) == Revive(s.disk[a], s.now)
    {
    }
    assert t.memory.loaded == u.memory.loaded;
    assert t.memory.index == u.memory.index;
    assert t.disk == u.disk;
  }

  // ---- the limits ---------------------------------------------------------

  ghost predicate Reaches(cfg: Config, s: State, t: State, serial: bool) {
    exists run :: CanRun(cfg, s, run) && (serial ==> SerialRun(cfg, s, run)) && After(cfg, s, run) == t
  }

  lemma {:induction false} ReachesSelf(cfg: Config, s: State, serial: bool)
    ensures Reaches(cfg, s, s, serial)
  {
    assert CanRun(cfg, s, []) && After(cfg, s, []) == s;
    assert SerialRun(cfg, s, []);
  }

  lemma {:induction false} ReachesMore(cfg: Config, s: State, e: Event, t: State, serial: bool)
    requires Enabled(cfg, s, e) && (serial ==> Serial(s, e)) && Reaches(cfg, React(cfg, s, e), t, serial)
    ensures Reaches(cfg, s, t, serial)
  {
    var step := Timed(s.now, e);
    assert s.(now := s.now) == s;
    var rest :| CanRun(cfg, React(cfg, s, e), rest) && (serial ==> SerialRun(cfg, React(cfg, s, e), rest)) && After(cfg, React(cfg, s, e), rest) == t;
    var run := [step] + rest;
    assert run[0] == step && run[1..] == rest;
    assert Step(cfg, s, step) == React(cfg, s, e) && CanStep(cfg, s, step);
    assert CanRun(cfg, s, run) && (serial ==> SerialRun(cfg, s, run)) && After(cfg, s, run) == t;
  }

  const SAMPLE_BUNDLE := Bundle("a", "slug", 1000, 0, "")
  const SAMPLE_CONFIG := Config(CLEANUP_MARGIN_MS)

  /** The sample bundle submitted and journalled as accepted. */
  function Submitted(): State {
    var job := NewJob(SAMPLE_BUNDLE, 0, true);
    State(0, Memory(map[0 := job], map[], map["a" := New(0)]), map["a" := JournalOf(job)],
          Queue([0], Resting), map[], 1, 1, History([], {}, map[], {}, {}))
  }

  lemma {:induction false} SubmitRuns(t: State)
    requires Reaches(SAMPLE_CONFIG, Submitted(), t, true)
    ensures Reaches(SAMPLE_CONFIG, Init(0), t, true)
  {
    var s0 := Init(0);
    var s1 := React(SAMPLE_CONFIG, s0, SubmitArrives(SAMPLE_BUNDLE));
    assert s1 == s0.(handlers := map[0 := SubmitWaiting(SAMPLE_BUNDLE)], nextHandler := 1);
    var s2 := React(SAMPLE_CONFIG, s1, SubmitContinues(0, true, true));
    assert s2 == Submitted();
    ReachesMore(SAMPLE_CONFIG, s1, SubmitContinues(0, true, true), t, true);
    ReachesMore(SAMPLE_CONFIG, s0, SubmitArrives(SAMPLE_BUNDLE), t, true);
  }

  /** A cancellation whose journal write fails. */
  lemma {:induction false} WriteFails() returns (s: State)
    ensures Reaches(SAMPLE_CONFIG, Init(0), s, true)
    ensures InMemory(s, "a", IsCancelled) && "a" in s.disk && s.disk["a"].status == Accepted
  {
    var s0 := Submitted();
    var s1 := React(SAMPLE_CONFIG, s0, CancelArrives("a", SAMPLE_BUNDLE, true));
    assert s1.handlers == map[1 := CancelFencing(New(0))] && s1.memory == s0.memory && s1.disk == s0.disk;
    s := React(SAMPLE_CONFIG, s1, CancelFenced(1, true, false));
    ReachesSelf(SAMPLE_CONFIG, s, true);
    ReachesMore(SAMPLE_CONFIG, s1, CancelFenced(1, true, false), s, true);
    ReachesMore(SAMPLE_CONFIG, s0, CancelArrives("a", SAMPLE_BUNDLE, true), s, true);
    SubmitRuns(s);
  }

  /** The journal write of a cancellation fails: the client may read cancelled, and
      after a crash the same job is cleanup_pending again.  So the condition under which
      a standing is final can fail in a run. */
  lemma {:induction false} FailedWriteReverts() returns (s: State)
    ensures Reaches(SAMPLE_CONFIG, Init(0), s, true)
    ensures InMemory(s, "a", IsCancelled) && !OnDisk(s, "a", IsCancelled) && !Lasts(SAMPLE_CONFIG, s, "a", IsCancelled)
    ensures "a" in Restarted(s).memory.loaded && Restarted(s).memory.loaded["a"].status == CleanupPending
  {
    s := WriteFails();
    ReachedIsOrderly(SAMPLE_CONFIG, s);
    StandingIsExact(SAMPLE_CONFIG, s, "a", IsCancelled);
  }

  lemma {:induction false} ReachedIsOrderly(cfg: Config, s: State)
    requires Reaches(cfg, Init(0), s, true)
    ensures Orderly(s)
  {
    var run :| CanRun(cfg, Init(0), run) && SerialRun(cfg, Init(0), run) && After(cfg, Init(0), run) == s;
    InitOrderly(0);
    RunOrderly(cfg, Init(0), run);
  }

  /** Two submits of the sample bundle, both past their duplicate check. */
  function BothWaiting(): State {
    Init(0).(handlers := map[0 := SubmitWaiting(SAMPLE_BUNDLE), 1 := SubmitWaiting(SAMPLE_BUNDLE)], nextHandler := 2)
  }

  function BothAccepted(): State {
    var job := NewJob(SAMPLE_BUNDLE, 0, true);
    State(0, Memory(map[0 := job, 1 := job], map[], map["a" := New(1)]), map["a" := JournalOf(job)],
          Queue([0, 1], Resting), map[], 2, 2, History([], {}, map[], {}, {}))
  }

  lemma {:induction false} BothAccepts(t: State)
    requires Reaches(SAMPLE_CONFIG, BothAccepted(), t, false)
    ensures Reaches(SAMPLE_CONFIG, BothWaiting(), t, false)
  {
    var job := NewJob(SAMPLE_BUNDLE, 0, true);
    var s0 := BothWaiting();
    var s1 := React(SAMPLE_CONFIG, s0, SubmitContinues(0, true, true));
    assert s1.handlers == map[1 := SubmitWaiting(SAMPLE_BUNDLE)];
    assert s1.memory == Memory(map[0 := job], map[], map["a" := New(0)]) && s1.queue.waiting == [0];
    var s2 := React(SAMPLE_CONFIG, s1, SubmitContinues(1, true, true));
    assert s2.handlers == map[] && s2.memory == BothAccepted().memory && s2.queue == BothAccepted().queue;
    assert s2 == BothAccepted();
    ReachesMore(SAMPLE_CONFIG, s1, SubmitContinues(1, true, true), t, false);
    ReachesMore(SAMPLE_CONFIG, s0, SubmitContinues(0, true, true), t, false);
  }

  lemma {:induction false} BothSubmit(t: State)
    requires Reaches(SAMPLE_CONFIG, BothWaiting(), t, false)
    ensures Reaches(SAMPLE_CONFIG, Init(0), t, false)
  {
    var s0 := Init(0);
    var s1 := React(SAMPLE_CONFIG, s0, SubmitArrives(SAMPLE_BUNDLE));
    assert s1 == s0.(handlers := map[0 := SubmitWaiting(SAMPLE_BUNDLE)], nextHandler := 1);
    var s2 := React(SAMPLE_CONFIG, s1, SubmitArrives(SAMPLE_BUNDLE));
    assert s2 == BothWaiting();
    ReachesMore(SAMPLE_CONFIG, s1, SubmitArrives(SAMPLE_BUNDLE), t, false);
    ReachesMore(SAMPLE_CONFIG, s0, SubmitArrives(SAMPLE_BUNDLE), t, false);
  }

  /** Two submits of one attempt that overlap during the health check are both
      sent to the workload: the duplicate check alone does not make submits of an
      attempt serial. */
  lemma {:induction false} OverlappingSubmitsSendTwice() returns (t: State)
    ensures Reaches(SAMPLE_CONFIG, Init(0), t, false)
    ensures 0 in t.log.sent && 1 in t.log.sent && t.log.sent[0] == t.log.sent[1]
  {
    var s0 := BothAccepted();
    var s1 := React(SAMPLE_CONFIG, s0, RunNext(true));
    assert s1.queue == Queue([1], AwaitingReply(0, false)) && 0 in s1.log.sent;
    var s2 := React(SAMPLE_CONFIG, s1, RunReplied(TransportError, true));
    assert s2.queue == Queue([1], Resting) && 1 in s2.memory.created && s2.memory.created[1] == NewJob(SAMPLE_BUNDLE, 0, true);
    t := React(SAMPLE_CONFIG, s2, RunNext(true));
    ReachesSelf(SAMPLE_CONFIG, t, false);
    ReachesMore(SAMPLE_CONFIG, s2, RunNext(true), t, false);
    ReachesMore(SAMPLE_CONFIG, s1, RunReplied(TransportError, true), t, false);
    ReachesMore(SAMPLE_CONFIG, s0, RunNext(true), t, false);
    BothAccepts(t);
    BothSubmit(t);
  }
}
