/** An observer of the control service.  It writes down what the run of one job hears: the
    reply of the workload, the answer to the fence that a failed run asks for, and the proofs
    that its App is absent and its workload empty.  It reads the events, and of the state only whose run it is.  Along
    every run, crashes included, what it has written down determines where the job's run
    stands and, once that is over, what the job says. */
module ControlCourse {
  import opened SandboxTypes
  import opened ControlModel
  import opened ControlSafety
  import opened ControlRecovery
  import opened ControlHistory
  import opened ControlEvidence

  // ---- what a run hears ---------------------------------------------------

  /** The answers to the run of one job, read off the events: the workload's reply and
      where it was written down, whether the job had been aborted by then, whether the
      cancel fence was acknowledged, and whether the proofs after it held. */
  datatype Course = Course(reply: Option<Reply>, at: nat, aborted: bool, fenced: Option<bool>, proved: Option<bool>)

  const SILENT := Course(None, 0, false, None, None)

  ghost function Hear(c: Course, s: State, e: Event, n: nat): Course
    requires n in s.memory.created
  {
    match e
    case RunReplied(reply, _) => c.(reply := Some(reply), at := |s.log.facts|, aborted := s.memory.created[n].aborted)
    case RunFenced(ok, _) => c.(fenced := Some(ok))
    case RunProved(ok, _) => c.(proved := Some(ok))
    case _ => c
  }

  predicate IsRun(s: State, n: nat) {
    !s.queue.run.Resting? && s.queue.run.job == n && n in s.memory.created
  }

  ghost function Heard(cfg: Config, s: State, run: seq<Timed>, n: nat, c: Course): Course
    requires CanRun(cfg, s, run)
    decreases |run|
  {
    if run == [] then c
    else Heard(cfg, Step(cfg, s, run[0]), run[1..], n, if IsRun(s, n) then Hear(c, s, run[0].event, n) else c)
  }

  // ---- the verdicts -------------------------------------------------------

  /** No cancel fence was needed, or the one needed was acknowledged. */
  predicate FenceHeld(c: Course) {
    c.aborted ==> c.fenced == Some(true)
  }

  /** The replies the service does not take at their word. */
  predicate Doubted(reply: Reply) {
    reply in {FenceAck(true), TerminalFailed(false), TerminalCompleted(true, true)}
  }

  predicate Over(c: Course) {
    c.reply.Some? &&
    (|| c.reply.value.TransportError?
     || (c.aborted && c.fenced == Some(false))
     || (FenceHeld(c) && (Doubted(c.reply.value) ==> c.proved.Some?)))
  }

  /** A complete result with a clean receipt, and the App's absence proved. */
  predicate Succeeds(c: Course) {
    c.reply == Some(TerminalCompleted(true, true)) && FenceHeld(c) && c.proved == Some(true)
  }

  /** The workload's own clean receipt, or a failure or a fence with both proofs. */
  predicate Confirms(c: Course) {
    && FenceHeld(c)
    && (|| c.reply == Some(TerminalCancelled(true))
        || (c.reply in {Some(TerminalFailed(false)), Some(FenceAck(true))} && c.proved == Some(true)))
  }

  /** The workload reports a failed cleanup, or the service cannot rule one out. */
  predicate Breaks(c: Course) {
    && FenceHeld(c)
    && (|| c.reply in {Some(HttpError(true)), Some(TerminalCancelled(false)), Some(TerminalFailed(true))}
        || (c.reply == Some(TerminalFailed(false)) && c.proved == Some(false)))
  }

  // ---- the invariant ------------------------------------------------------

  /** The job under way, against what its run has heard. */
  ghost predicate UnderWayOk(run: RunPc, job: Job, c: Course) {
    && job.status in {Running, CleanupPending} && !job.repaired && job.error == NoError && !Over(c)
    && c.proved.None?
    && match run
       case Resting => false
       case AwaitingReply(_, fencing) => c == SILENT && (fencing <==> job.aborted)
       case AwaitingFence(_, reply, at) => c.reply == Some(reply) && c.at == at && c.aborted && c.fenced.None?
       case Proving(_, reply, at) => c.reply == Some(reply) && c.at == at && FenceHeld(c) && Doubted(reply)
  }

  /** The job of a run that is over. */
  ghost predicate Left(job: Job, c: Course) {
    && Over(c)
    && (job.status == Completed <==> Succeeds(c))
    && (job.status == Cancelled && !job.repaired <==> Confirms(c))
    && (Broken(job) <==> Breaks(c))
    && (job.status == Failed && job.error == ExecutionFailed <==> !Succeeds(c) && !Confirms(c) && !Breaks(c))
    && (Succeeds(c) ==> job.error == NoError)
    && (Confirms(c) ==> job.error == ErrorCode.Cancellation)
    && (Breaks(c) ==> job.error == ErrorCode.CleanupFailed)
  }

  ghost predicate Noted(facts: seq<Fact>, b: Bundle, c: Course) {
    c.reply.Some? && !c.reply.value.TransportError? ==> Shows(facts, c.at, WorkloadReplied(b, c.reply.value))
  }

  ghost predicate Tracks(s: State, n: nat, c: Course) {
    && (n >= s.nextJob ==> c == SILENT)
    && (n in s.memory.created ==>
         var job := s.memory.created[n];
         && Noted(s.log.facts, job.bundle, c)
         && (n !in s.log.sent ==> c == SILENT && job.error == NoError)
         && (n in s.log.sent ==> if IsRun(s, n) then UnderWayOk(s.queue.run, job, c) else Left(job, c)))
  }

  // ---- the steps of the run -----------------------------------------------

  /** `outcome` is what the answers `c` amount to. */
  ghost predicate Amounts(c: Course, outcome: Outcome) {
    && Over(c)
    && (outcome == Done <==> Succeeds(c))
    && (outcome == CleanupConfirmed <==> Confirms(c))
    && (outcome == CleanupBroken <==> Breaks(c))
  }

  lemma {:induction false} Leaves(job: Job, outcome: Outcome, proof: Proof, now: int, c: Course)
    requires !job.repaired && job.error == NoError && Amounts(c, outcome)
    ensures Left(Concluded(job, outcome, proof, now), c) && Concluded(job, outcome, proof, now).bundle == job.bundle
  {
  }

  /** The parts of the state that the run is about. */
  ghost predicate Parts(t: State, run: RunPc, memory: Memory, facts: seq<Fact>, sent: map<nat, Bundle>, nextJob: nat) {
    t.queue.run == run && t.memory == memory && t.log.facts == facts && t.log.sent == sent && t.nextJob == nextJob
  }

  lemma {:induction false} FinishRunParts(s: State, n: nat, outcome: Outcome, proof: Proof, written: bool)
    requires n in s.memory.created
    ensures Parts(FinishRun(s, n, outcome, proof, written), Resting,
                  Set(s.memory, New(n), Concluded(s.memory.created[n], outcome, proof, s.now)), s.log.facts, s.log.sent, s.nextJob)
  {
  }

  lemma {:induction false} FinishTracks(s: State, n: nat, outcome: Outcome, proof: Proof, written: bool, c: Course)
    requires n in s.memory.created && n in s.log.sent && n < s.nextJob
    requires var job := s.memory.created[n];
      !job.repaired && job.error == NoError && Noted(s.log.facts, job.bundle, c) && Amounts(c, outcome)
    ensures Tracks(FinishRun(s, n, outcome, proof, written), n, c)
  {
    FinishRunParts(s, n, outcome, proof, written);
    Leaves(s.memory.created[n], outcome, proof, s.now, c);
  }

  /** A run that is ready for the reply's consequences. */
  ghost predicate Considers(s: State, n: nat, reply: Reply, at: nat, c: Course) {
    && n in s.memory.created && n in s.log.sent && n < s.nextJob
    && !s.queue.run.Resting? && s.queue.run.job == n && !reply.TransportError?
    && var job := s.memory.created[n];
    && job.status in {Running, CleanupPending} && !job.repaired && job.error == NoError
    && Noted(s.log.facts, job.bundle, c)
    && c.reply == Some(reply) && c.at == at && FenceHeld(c) && c.proved.None?
  }

  lemma {:induction false} ConsiderTracks(s: State, n: nat, reply: Reply, at: nat, written: bool, c: Course)
    requires Considers(s, n, reply, at, c)
    ensures Tracks(Consider(s, n, reply, at, written), n, c)
  {
    match PlanFor(reply) {
      case Conclude(outcome) => FinishTracks(s, n, outcome, ByReply(at), written, c);
      case _ =>
        assert Consider(s, n, reply, at, written) == s.(queue := s.queue.(run := Proving(n, reply, at)));
    }
  }

  lemma {:induction false} RepliedTracks(s: State, n: nat, reply: Reply, written: bool, c: Course)
    requires Inv(s) && IsRun(s, n) && s.queue.run.AwaitingReply? && Tracks(s, n, c)
    ensures Tracks(ReplyToRun(s, reply, written), n, Hear(c, s, RunReplied(reply, written), n))
  {
    var d := Hear(c, s, RunReplied(reply, written), n);
    var bundle := s.memory.created[n].bundle;
    if reply.TransportError? {
      FinishTracks(s, n, Errored, Unproved, written, d);
    } else {
      var t := Observe(s, WorkloadReplied(bundle, reply));
      assert t.log.facts[|s.log.facts|] == WorkloadReplied(bundle, reply);
      if s.queue.run.fencing {
        assert ReplyToRun(s, reply, written) == t.(queue := t.queue.(run := AwaitingFence(n, reply, |s.log.facts|)));
      } else {
        ConsiderTracks(t, n, reply, |s.log.facts|, written, d);
      }
    }
  }

  lemma {:induction false} FencedTracks(s: State, n: nat, ok: bool, written: bool, c: Course)
    requires Inv(s) && IsRun(s, n) && s.queue.run.AwaitingFence? && Tracks(s, n, c)
    ensures Tracks(FenceOfRun(s, ok, written), n, Hear(c, s, RunFenced(ok, written), n))
  {
    var d := Hear(c, s, RunFenced(ok, written), n);
    var pc := s.queue.run;
    if ok {
      var t := Observe(s, FenceAcked(s.memory.created[n].bundle));
      ConsiderTracks(t, n, pc.reply, pc.replyAt, written, d);
    } else {
      FinishTracks(s, n, Errored, Unproved, written, d);
    }
  }

  lemma {:induction false} ProvedTracks(s: State, n: nat, ok: bool, written: bool, c: Course)
    requires Inv(s) && IsRun(s, n) && s.queue.run.Proving? && Tracks(s, n, c)
    ensures Tracks(ProveRun(s, ok, written), n, Hear(c, s, RunProved(ok, written), n))
  {
    var d := Hear(c, s, RunProved(ok, written), n);
    var p := Proved(s, ok);
    ProvedParts(s, ok);
    FinishTracks(p.0, n, p.1, p.2, written, d);
  }

  lemma {:induction false} ProvedParts(s: State, ok: bool)
    requires s.queue.run.Proving? && s.queue.run.job in s.memory.created
    ensures var t := Proved(s, ok).0;
      t.memory == s.memory && t.queue == s.queue && t.nextJob == s.nextJob && t.log.sent == s.log.sent && FactsGrow(s.log.facts, t.log.facts)
  {
  }

  lemma {:induction false} RunTracks(cfg: Config, s: State, e: Event, n: nat, c: Course)
    requires Inv(s) && Enabled(cfg, s, e) && IsRun(s, n) && Tracks(s, n, c) && (e.RunReplied? || e.RunFenced? || e.RunProved?)
    ensures Tracks(React(cfg, s, e), n, Hear(c, s, e, n))
  {
    match e {
      case RunReplied(reply, written) => RepliedTracks(s, n, reply, written, c);
      case RunFenced(ok, written) => FencedTracks(s, n, ok, written, c);
      case RunProved(ok, written) => ProvedTracks(s, n, ok, written, c);
    }
  }

  // ---- every other step ---------------------------------------------------

  /** What cancels, repairs and leases do to a job whose request has left. */
  ghost predicate Tended(x: Job, y: Job) {
    && (x.status in {Running, CleanupPending} ==> y.status in {Running, CleanupPending} && y.repaired == x.repaired)
    && (x.status in {Completed, Cancelled} ==> y.status == x.status && y.repaired == x.repaired)
    && (x.status == Failed ==> (y.status == Failed && y.repaired == x.repaired) || (Unclean(x) && y.status == Cancelled && y.repaired))
  }

  /** The run stays where it is; an aborted one asks for its fence. */
  ghost predicate RunStays(s: State, t: State, n: nat)
    requires n in t.memory.created
  {
    if s.queue.run.AwaitingReply? && s.queue.run.job == n
    then t.queue.run == AwaitingReply(n, t.memory.created[n].aborted)
    else t.queue.run == s.queue.run || (!IsRun(s, n) && !IsRun(t, n))
  }

  ghost predicate Carries(s: State, t: State, n: nat) {
    && n in s.memory.created && n in t.memory.created
    && t.memory.created[n].bundle == s.memory.created[n].bundle && t.memory.created[n].error == s.memory.created[n].error
    && (s.memory.created[n].aborted ==> t.memory.created[n].aborted)
    && (s.memory.created[n].status != Accepted ==> Tended(s.memory.created[n], t.memory.created[n]))
    && RunStays(s, t, n)
    && FactsGrow(s.log.facts, t.log.facts)
    && (n in t.log.sent <==> n in s.log.sent)
    && t.nextJob >= s.nextJob
  }

  lemma {:induction false} CarriedTracks(s: State, t: State, n: nat, c: Course)
    requires Inv(s) && Tracks(s, n, c) && Carries(s, t, n)
    ensures Tracks(t, n, c)
  {
  }

  lemma {:induction false} CancelTends(job: Job, now: int, proof: Proof)
    requires job.status != Accepted
    ensures Tended(job, CancelledJob(job, now, proof))
  {
  }

  /** A fence has been asked for exactly if the job under way has been aborted. */
  ghost predicate Synced(s: State, n: nat) {
    && n in s.memory.created
    && (IsRun(s, n) ==> s.memory.created[n].status in {Running, CleanupPending})
    && (IsRun(s, n) && s.queue.run.AwaitingReply? ==> (s.queue.run.fencing <==> s.memory.created[n].aborted))
  }

  lemma {:induction false} TracksSynced(s: State, n: nat, c: Course)
    requires Inv(s) && Tracks(s, n, c) && n in s.memory.created
    ensures Synced(s, n)
  {
  }

  lemma {:induction false} AbortCarries(cfg: Config, s: State, t: State, r: JobRef, job: Job, n: nat)
    requires Has(s.memory, r) && Synced(s, n) && t.memory == Set(s.memory, r, job) && t.queue == s.queue
    requires t.log.facts == s.log.facts && t.log.sent == s.log.sent && t.nextJob == s.nextJob
    requires job.bundle == Get(s.memory, r).bundle && job.error == Get(s.memory, r).error && job.aborted
    requires (Get(s.memory, r).status != Accepted ==> Tended(Get(s.memory, r), job))
    ensures Carries(s, AbortRun(cfg, t, r, job.bundle), n)
  {
  }

  lemma {:induction false} RestCarries(s: State, t: State, r: JobRef, job: Job, n: nat)
    requires Has(s.memory, r) && Synced(s, n) && t.memory == Set(s.memory, r, job) && t.queue == s.queue
    requires FactsGrow(s.log.facts, t.log.facts) && t.log.sent == s.log.sent && t.nextJob == s.nextJob
    requires job.bundle == Get(s.memory, r).bundle && job.error == Get(s.memory, r).error
    requires (Get(s.memory, r).status != Accepted ==> Tended(Get(s.memory, r), job))
    requires r == New(n) ==> job.aborted == Get(s.memory, r).aborted || !IsRun(s, n)
    requires Get(s.memory, r).aborted ==> job.aborted
    ensures Carries(s, t, n)
  {
  }

  lemma {:induction false} CommitCancelCarries(cfg: Config, s: State, id: nat, r: JobRef, proof: Proof, written: bool, n: nat)
    requires Has(s.memory, r) && Synced(s, n)
    ensures Carries(s, CommitCancel(cfg, s, id, r, proof, written), n)
  {
    var job := Get(s.memory, r);
    var cancelled := CancelledJob(job, s.now, proof);
    var t := Put(s, r, cancelled, written);
    if job.status != Accepted {
      CancelTends(job, s.now, proof);
    }
    if Aborts(cancelled.status) {
      AbortCarries(cfg, s, t, r, cancelled, n);
    } else {
      RestCarries(s, t, r, cancelled, n);
    }
  }

  lemma {:induction false} CarriesOn(s: State, t: State, u: State, n: nat)
    requires Carries(s, t, n) && Carries(t, u, n)
    ensures Carries(s, u, n)
  {
  }

  /** A step that leaves jobs, requests and the run alone. */
  lemma {:induction false} StillCarries(s: State, t: State, n: nat)
    requires Synced(s, n) && t.memory.created == s.memory.created && t.queue.run == s.queue.run
    requires FactsGrow(s.log.facts, t.log.facts) && t.log.sent == s.log.sent && t.nextJob == s.nextJob
    ensures Carries(s, t, n) && Synced(t, n)
  {
  }

  lemma {:induction false} CancelCarries(cfg: Config, s: State, a: AttemptId, bundle: Bundle, written: bool, n: nat)
    requires Inv(s) && Enabled(cfg, s, CancelArrives(a, bundle, written)) && Synced(s, n)
    ensures Carries(s, CancelRequest(cfg, s, a, bundle, written), n)
  {
    var t := CancelRequest(cfg, s, a, bundle, written);
    if a !in s.memory.index || Get(s.memory, s.memory.index[a]).bundle != bundle {
      StillCarries(s, t, n);
    } else {
      var r := s.memory.index[a];
      var job := Get(s.memory, r);
      if Settled(job.status) && !Unclean(job) {
        var q := s.(nextHandler := s.nextHandler + 1);
        CancelCommits(cfg, s, a, bundle, written);
        StillCarries(s, q, n);
        CommitCancelCarries(cfg, q, s.nextHandler, r, job.proof, written, n);
        CarriesOn(s, q, t, n);
      } else {
        CancelSuspends(cfg, s, a, bundle, written, n);
      }
    }
  }

  lemma {:induction false} CancelSuspends(cfg: Config, s: State, a: AttemptId, bundle: Bundle, written: bool, n: nat)
    requires a in s.memory.index && Has(s.memory, s.memory.index[a]) && Get(s.memory, s.memory.index[a]).bundle == bundle
    requires var job := Get(s.memory, s.memory.index[a]); !Settled(job.status) || Unclean(job)
    requires Synced(s, n)
    ensures Carries(s, CancelRequest(cfg, s, a, bundle, written), n)
  {
    StillCarries(s, CancelRequest(cfg, s, a, bundle, written), n);
  }

  lemma {:induction false} FenceCarries(cfg: Config, s: State, id: nat, r: JobRef, acked: bool, written: bool, n: nat)
    requires Has(s.memory, r) && Synced(s, n)
    ensures Carries(s, FenceOfCancel(cfg, s, id, r, acked, written), n)
  {
    var t := FenceOfCancel(cfg, s, id, r, acked, written);
    if acked {
      var q := Observe(s, FenceAcked(Get(s.memory, r).bundle));
      StillCarries(s, q, n);
      CommitCancelCarries(cfg, q, id, r, ByFence(Observed(s)), written, n);
      CarriesOn(s, q, t, n);
    } else {
      StillCarries(s, t, n);
    }
  }

  lemma {:induction false} RepairCarries(cfg: Config, s: State, id: nat, r: JobRef, ack: nat, empty: nat, written: bool, rewritten: bool, n: nat)
    requires Has(s.memory, r) && Broken(Get(s.memory, r)) && Synced(s, n)
    ensures Carries(s, CommitRepair(cfg, s, id, r, ack, empty, written, rewritten), n)
  {
    var job := Get(s.memory, r);
    var q := Observe(s, AppAbsent(job.bundle.slug));
    var repaired := RepairedJob(job, s.now, ByRepair(ack, empty, Observed(s)));
    if written {
      var t := Put(q, r, repaired, true);
      RestCarries(s, t, r, repaired, n);
      assert Synced(t, n);
      CommitCancelCarries(cfg, t, id, r, repaired.proof, rewritten, n);
      CarriesOn(s, t, CommitCancel(cfg, t, id, r, repaired.proof, rewritten), n);
    } else {
      StillCarries(s, CommitRepair(cfg, s, id, r, ack, empty, written, rewritten), n);
    }
  }

  lemma {:induction false} RecoverCarries(s: State, id: nat, pc: Pc, absent: bool, written: bool, n: nat)
    requires pc.HealthClearing? && pc.job.Old? && Has(s.memory, pc.job) && Synced(s, n)
    ensures Carries(s, Recover(s, id, pc.fenced, pc.empty, pc.job, pc.wasFailed, absent, written), n)
  {
    StillCarries(s, Recover(s, id, pc.fenced, pc.empty, pc.job, pc.wasFailed, absent, written), n);
  }

  lemma {:induction false} ReapCarries(cfg: Config, s: State, a: AttemptId, r: JobRef, written: bool, n: nat)
    requires Has(s.memory, r) && Synced(s, n)
    ensures Carries(s, ReapJob(cfg, s, a, r, written), n)
  {
    var job := Get(s.memory, r);
    if Stale(cfg, job, s.now) {
      AbortCarries(cfg, s, Put(s, r, ExpiredJob(job, s.now), written), r, ExpiredJob(job, s.now), n);
    } else {
      StillCarries(s, ReapJob(cfg, s, a, r, written), n);
    }
  }

  lemma {:induction false} WaitingCarries(cfg: Config, s: State, e: Event, n: nat)
    requires Enabled(cfg, s, e) && Waiting(e) && Synced(s, n)
    ensures Carries(s, React(cfg, s, e), n)
  {
    StillCarries(s, React(cfg, s, e), n);
  }

  lemma {:induction false} SubmitCarries(cfg: Config, s: State, e: Event, n: nat)
    requires Inv(s) && Enabled(cfg, s, e) && (e.SubmitArrives? || e.SubmitContinues?) && Synced(s, n)
    ensures Carries(s, React(cfg, s, e), n)
  {
  }

  /** The queue moves on, or another job's run does. */
  lemma {:induction false} QueueCarries(cfg: Config, s: State, e: Event, n: nat)
    requires Inv(s) && Enabled(cfg, s, e) && RunEvent(e) && Synced(s, n) && !IsRun(s, n)
    requires e.RunNext? ==> s.queue.waiting[0] != n
    ensures Carries(s, React(cfg, s, e), n)
  {
    match e {
      case RunNext(written) => NextCarries(cfg, s, written, n);
      case RunReplied(reply, written) => OtherReplies(s, reply, written, n);
      case RunFenced(ok, written) => OtherFences(s, ok, written, n);
      case RunProved(ok, written) =>
        ProvedParts(s, ok);
        FinishRunParts(Proved(s, ok).0, s.queue.run.job, Proved(s, ok).1, Proved(s, ok).2, written);
    }
  }

  lemma {:induction false} NextCarries(cfg: Config, s: State, written: bool, n: nat)
    requires Enabled(cfg, s, RunNext(written)) && Synced(s, n) && s.queue.waiting[0] != n
    ensures Carries(s, StartNext(cfg, s, written), n)
  {
    StartParts(cfg, s, written);
  }

  lemma {:induction false} OtherReplies(s: State, reply: Reply, written: bool, n: nat)
    requires s.queue.run.AwaitingReply? && s.queue.run.job in s.memory.created && s.queue.run.job != n && Synced(s, n)
    ensures Carries(s, ReplyToRun(s, reply, written), n)
  {
    var m := s.queue.run.job;
    var t := Observe(s, WorkloadReplied(s.memory.created[m].bundle, reply));
    FinishRunParts(s, m, Errored, Unproved, written);
    OtherConsiders(t, m, reply, Observed(s), written, n);
  }

  lemma {:induction false} OtherConsiders(s: State, m: nat, reply: Reply, at: nat, written: bool, n: nat)
    requires m in s.memory.created && n in s.memory.created && m != n && !IsRun(s, n)
    ensures var t := Consider(s, m, reply, at, written);
      && n in t.memory.created && t.memory.created[n] == s.memory.created[n] && !IsRun(t, n)
      && t.log.facts == s.log.facts && t.log.sent == s.log.sent && t.nextJob == s.nextJob
  {
    match PlanFor(reply) {
      case Conclude(outcome) => FinishRunParts(s, m, outcome, ByReply(at), written);
      case _ =>
    }
  }

  lemma {:induction false} OtherFences(s: State, ok: bool, written: bool, n: nat)
    requires s.queue.run.AwaitingFence? && s.queue.run.job in s.memory.created && s.queue.run.job != n && Synced(s, n)
    ensures Carries(s, FenceOfRun(s, ok, written), n)
  {
    var pc := s.queue.run;
    FinishRunParts(s, pc.job, Errored, Unproved, written);
    OtherConsiders(Observe(s, FenceAcked(s.memory.created[pc.job].bundle)), pc.job, pc.reply, pc.replyAt, written, n);
  }

  /** The head of the queue starts, is skipped, or cannot be journalled. */
  lemma {:induction false} StartTracks(cfg: Config, s: State, written: bool, n: nat, c: Course)
    requires Inv(s) && Enabled(cfg, s, RunNext(written)) && s.queue.waiting[0] == n && Tracks(s, n, c)
    ensures Tracks(StartNext(cfg, s, written), n, c)
  {
    StartParts(cfg, s, written);
    RunFacts(s);
  }

  lemma {:induction false} StartParts(cfg: Config, s: State, written: bool)
    requires s.queue.waiting != [] && s.queue.waiting[0] in s.memory.created
    ensures var t := StartNext(cfg, s, written); var n := s.queue.waiting[0]; var job := s.memory.created[n];
      if job.status == Cancelled then Parts(t, s.queue.run, s.memory, s.log.facts, s.log.sent, s.nextJob)
      else Parts(t, if written then AwaitingReply(n, job.aborted) else s.queue.run,
                 Set(s.memory, New(n), job.(status := Running, updatedAt := s.now)), s.log.facts,
                 if written then s.log.sent[n := job.bundle] else s.log.sent, s.nextJob)
  {
  }

  lemma {:induction false} HandlerCarries(cfg: Config, s: State, e: Event, n: nat)
    requires Inv(s) && Enabled(cfg, s, e) && Synced(s, n) && (e.RepairCleared? || e.HealthCleared?)
    ensures Carries(s, React(cfg, s, e), n)
  {
    var pc := s.handlers[e.id];
    assert PcOk(s.memory, s.log.facts, pc);
    if e.RepairCleared? {
      StillCarries(s, Drop(s, e.id), n);
      RepairCarries(cfg, s, e.id, pc.job, pc.ack, pc.empty, e.written, e.rewritten, n);
    } else {
      RecoverCarries(s, e.id, pc, e.absent, e.written, n);
    }
  }

  lemma {:induction false} OtherCarries(cfg: Config, s: State, e: Event, n: nat)
    requires Inv(s) && Enabled(cfg, s, e) && Synced(s, n) && !RunEvent(e) && !e.Restart?
    ensures Carries(s, React(cfg, s, e), n)
  {
    match e {
      case SubmitArrives(_) => SubmitCarries(cfg, s, e, n);
      case SubmitContinues(_, _, _) => SubmitCarries(cfg, s, e, n);
      case CancelArrives(a, bundle, written) => CancelCarries(cfg, s, a, bundle, written, n);
      case CancelFenced(id, acked, written) => FenceCarries(cfg, s, id, s.handlers[id].job, acked, written, n);
      case RepairCleared(_, _, _, _) => HandlerCarries(cfg, s, e, n);
      case HealthCleared(_, _, _) => HandlerCarries(cfg, s, e, n);
      case Reap(a, written) => ReapCarries(cfg, s, a, s.memory.index[a], written, n);
      case _ => WaitingCarries(cfg, s, e, n);
    }
  }

  lemma {:induction false} OtherTracks(cfg: Config, s: State, e: Event, n: nat, c: Course)
    requires Inv(s) && Enabled(cfg, s, e) && n in s.memory.created && Tracks(s, n, c) && !RunEvent(e) && !e.Restart?
    ensures Tracks(React(cfg, s, e), n, c)
  {
    TracksSynced(s, n, c);
    OtherCarries(cfg, s, e, n);
    CarriedTracks(s, React(cfg, s, e), n, c);
  }

  lemma {:induction false} QueueTracks(cfg: Config, s: State, e: Event, n: nat, c: Course)
    requires Inv(s) && Enabled(cfg, s, e) && n in s.memory.created && Tracks(s, n, c) && RunEvent(e)
    ensures Tracks(React(cfg, s, e), n, if IsRun(s, n) then Hear(c, s, e, n) else c)
  {
    TracksSynced(s, n, c);
    if IsRun(s, n) {
      RunTracks(cfg, s, e, n, c);
    } else if e.RunNext? && s.queue.waiting[0] == n {
      StartTracks(cfg, s, e.written, n, c);
    } else {
      QueueCarries(cfg, s, e, n);
      CarriedTracks(s, React(cfg, s, e), n, c);
    }
  }

  /** No step but a submit adds a job. */
  ghost predicate JobsStay(s: State, t: State) {
    t.memory.created.Keys <= s.memory.created.Keys && t.nextJob == s.nextJob
  }

  lemma {:induction false} CommitCancelJobs(cfg: Config, s: State, id: nat, r: JobRef, proof: Proof, written: bool)
    requires Has(s.memory, r)
    ensures JobsStay(s, CommitCancel(cfg, s, id, r, proof, written))
  {
  }

  lemma {:induction false} CancelJobs(cfg: Config, s: State, e: Event)
    requires Enabled(cfg, s, e) && (e.CancelArrives? || e.CancelFenced? || e.RepairCleared?)
    ensures JobsStay(s, React(cfg, s, e))
  {
    match e {
      case CancelArrives(a, bundle, written) => RequestJobs(cfg, s, a, bundle, written);
      case CancelFenced(id, acked, written) =>
        var r := s.handlers[id].job;
        CommitCancelJobs(cfg, Observe(s, FenceAcked(Get(s.memory, r).bundle)), id, r, ByFence(Observed(s)), written);
      case RepairCleared(id, ok, written, rewritten) =>
        var pc := s.handlers[id];
        RepairJobs(cfg, s, id, pc.job, pc.ack, pc.empty, written, rewritten);
    }
  }

  lemma {:induction false} RequestJobs(cfg: Config, s: State, a: AttemptId, bundle: Bundle, written: bool)
    requires a in s.memory.index ==> Has(s.memory, s.memory.index[a])
    ensures JobsStay(s, CancelRequest(cfg, s, a, bundle, written))
  {
    if a in s.memory.index {
      var r := s.memory.index[a];
      CommitCancelJobs(cfg, s.(nextHandler := s.nextHandler + 1), s.nextHandler, r, Get(s.memory, r).proof, written);
    }
  }

  lemma {:induction false} RepairJobs(cfg: Config, s: State, id: nat, r: JobRef, ack: nat, empty: nat, written: bool, rewritten: bool)
    requires Has(s.memory, r)
    ensures JobsStay(s, CommitRepair(cfg, s, id, r, ack, empty, written, rewritten))
  {
    var job := Get(s.memory, r);
    var repaired := RepairedJob(job, s.now, ByRepair(ack, empty, Observed(s)));
    if written {
      CommitCancelJobs(cfg, Put(Observe(s, AppAbsent(job.bundle.slug)), r, repaired, true), id, r, repaired.proof, rewritten);
    }
  }

  lemma {:induction false} QueueJobs(cfg: Config, s: State, e: Event)
    requires Enabled(cfg, s, e) && RunEvent(e)
    ensures JobsStay(s, React(cfg, s, e))
  {
    match e {
      case RunNext(written) => StartParts(cfg, s, written);
      case RunReplied(reply, written) => ReplyJobs(s, reply, written);
      case RunFenced(ok, written) => FenceJobs(s, ok, written);
      case RunProved(ok, written) =>
        ProvedParts(s, ok);
        FinishRunParts(Proved(s, ok).0, s.queue.run.job, Proved(s, ok).1, Proved(s, ok).2, written);
    }
  }

  lemma {:induction false} RestJobs(cfg: Config, s: State, e: Event)
    requires Inv(s) && Enabled(cfg, s, e) && !RunEvent(e) && !e.SubmitContinues?
    requires !e.CancelArrives? && !e.CancelFenced? && !e.RepairCleared?
    ensures JobsStay(s, React(cfg, s, e))
  {
    if Waiting(e) {
      WaitingMoves(cfg, s, e);
      WaitingJobs(cfg, s, e);
    }
  }

  lemma {:induction false} WaitingJobs(cfg: Config, s: State, e: Event)
    requires Enabled(cfg, s, e) && Waiting(e)
    ensures React(cfg, s, e).nextJob == s.nextJob
  {
  }

  lemma {:induction false} ConsiderJobs(s: State, n: nat, reply: Reply, at: nat, written: bool)
    requires n in s.memory.created
    ensures Consider(s, n, reply, at, written).memory.created.Keys == s.memory.created.Keys
    ensures Consider(s, n, reply, at, written).nextJob == s.nextJob
  {
  }

  lemma {:induction false} ReplyJobs(s: State, reply: Reply, written: bool)
    requires s.queue.run.AwaitingReply? && s.queue.run.job in s.memory.created
    ensures ReplyToRun(s, reply, written).memory.created.Keys == s.memory.created.Keys && ReplyToRun(s, reply, written).nextJob == s.nextJob
  {
    var n := s.queue.run.job;
    FinishRunParts(s, n, Errored, Unproved, written);
    ConsiderJobs(Observe(s, WorkloadReplied(s.memory.created[n].bundle, reply)), n, reply, Observed(s), written);
  }

  lemma {:induction false} FenceJobs(s: State, ok: bool, written: bool)
    requires s.queue.run.AwaitingFence? && s.queue.run.job in s.memory.created
    ensures FenceOfRun(s, ok, written).memory.created.Keys == s.memory.created.Keys && FenceOfRun(s, ok, written).nextJob == s.nextJob
  {
    var pc := s.queue.run;
    FinishRunParts(s, pc.job, Errored, Unproved, written);
    ConsiderJobs(Observe(s, FenceAcked(s.memory.created[pc.job].bundle)), pc.job, pc.reply, pc.replyAt, written);
  }

  lemma {:induction false} NewTracks(cfg: Config, s: State, e: Event, n: nat, c: Course)
    requires Inv(s) && Enabled(cfg, s, e) && n !in s.memory.created && Tracks(s, n, c)
    ensures Tracks(React(cfg, s, e), n, c)
  {
    if RunEvent(e) {
      QueueJobs(cfg, s, e);
    } else if e.CancelArrives? || e.CancelFenced? || e.RepairCleared? {
      CancelJobs(cfg, s, e);
    } else if !e.SubmitContinues? {
      RestJobs(cfg, s, e);
    }
  }

  lemma {:induction false} ReactTracks(cfg: Config, s: State, e: Event, n: nat, c: Course)
    requires Inv(s) && Enabled(cfg, s, e) && Tracks(s, n, c)
    ensures Tracks(React(cfg, s, e), n, if IsRun(s, n) then Hear(c, s, e, n) else c)
  {
    if n !in s.memory.created {
      NewTracks(cfg, s, e, n, c);
    } else if RunEvent(e) {
      QueueTracks(cfg, s, e, n, c);
    } else if !e.Restart? {
      OtherTracks(cfg, s, e, n, c);
    }
  }

  lemma {:induction false} RunKeepsTrack(cfg: Config, s: State, run: seq<Timed>, n: nat, c: Course)
    requires Inv(s) && CanRun(cfg, s, run) && Tracks(s, n, c)
    ensures Inv(After(cfg, s, run)) && Tracks(After(cfg, s, run), n, Heard(cfg, s, run, n, c))
    decreases |run|
  {
    if run != [] {
      var r := s.(now := run[0].at);
      StepKeeps(cfg, s, run[0]);
      SelfMoves(s.memory);
      QuietStep(s, r);
      ReactTracks(cfg, r, run[0].event, n, c);
      RunKeepsTrack(cfg, Step(cfg, s, run[0]), run[1..], n, if IsRun(s, n) then Hear(c, s, run[0].event, n) else c);
    }
  }
}
