/** The control process: mutable maps, and one method for each stretch of code
    between two awaits.  Every method refines events of the state machine. */
module ControlService {
  import opened SandboxTypes
  import opened ControlModel
  import Evidence = ControlEvidence

  /** The job map is sound, and no suspended handler will still write a job that is
      to be deleted. */
  ghost predicate Sweepable(cfg: Config, s: State) {
    forall a :: a in s.memory.index ==> SweepableJob(cfg, s, a, s.memory.index[a])
  }

  ghost predicate SweepableJob(cfg: Config, s: State, a: AttemptId, r: JobRef) {
    && Has(s.memory, r) && Get(s.memory, r).bundle.attemptId == a
    && (Reapable(cfg, Get(s.memory, r), s.now) ==> !Busy(s.handlers, r))
  }

  predicate Due(cfg: Config, job: Job, now: int) {
    Stale(cfg, job, now) || Reapable(cfg, job, now)
  }

  /** Outside `names` nothing has outlived its lease or its retention. */
  ghost predicate Swept(cfg: Config, s: State, names: set<AttemptId>) {
    forall a :: a in s.memory.index && a !in names ==>
      Has(s.memory, s.memory.index[a]) && !Due(cfg, Get(s.memory, s.memory.index[a]), s.now)
  }

  lemma {:induction false} ReapedMemory(cfg: Config, s: State, a: AttemptId, r: JobRef, written: bool)
    requires Has(s.memory, r)
    ensures var t := ReapJob(cfg, s, a, r, written); var job := Get(s.memory, r);
      && t.now == s.now && t.handlers == s.handlers
      && t.memory == if Stale(cfg, job, s.now) then Set(s.memory, r, ExpiredJob(job, s.now))
                     else if Reapable(cfg, job, s.now) then s.memory.(index := s.memory.index - {a}) else s.memory
  {
  }

  lemma {:induction false} ReapedJobs(cfg: Config, s: State, a: AttemptId, written: bool)
    requires Sweepable(cfg, s) && a in s.memory.index
    ensures var t := ReapJob(cfg, s, a, s.memory.index[a], written);
      && t.now == s.now && t.handlers == s.handlers && t.memory.index.Keys <= s.memory.index.Keys
      && forall b :: b in t.memory.index ==>
        && t.memory.index[b] == s.memory.index[b] && Has(t.memory, t.memory.index[b])
        && (b != a ==> Get(t.memory, t.memory.index[b]) == Get(s.memory, s.memory.index[b]))
        && (b == a ==> Get(t.memory, t.memory.index[b]) == Spared(cfg, Get(s.memory, s.memory.index[a]), s.now))
  {
    var r := s.memory.index[a];
    assert SweepableJob(cfg, s, a, r);
    ReapedMemory(cfg, s, a, r, written);
    forall b | b in s.memory.index && b != a
      ensures s.memory.index[b] != r && Has(s.memory, s.memory.index[b])
    {
      assert SweepableJob(cfg, s, b, s.memory.index[b]);
    }
  }

  /** A job that a pass leaves in the map. */
  function Spared(cfg: Config, job: Job, now: int): Job {
    if Stale(cfg, job, now) then ExpiredJob(job, now) else job
  }

  lemma {:induction false} SweptOn(cfg: Config, s: State, t: State, a: AttemptId, names: set<AttemptId>, written: bool)
    requires cfg.jobTtlMs >= 0 && Sweepable(cfg, s) && a in s.memory.index && t == ReapJob(cfg, s, a, s.memory.index[a], written)
    requires Swept(cfg, s, names)
    ensures Sweepable(cfg, t) && Swept(cfg, t, names - {a})
    ensures t.memory.index.Keys <= s.memory.index.Keys && (names <= s.memory.index.Keys ==> names - {a} <= t.memory.index.Keys)
  {
    ReapedJobs(cfg, s, a, written);
    SparedIsNotDue(cfg, s, t, a, written);
  }

  lemma {:induction false} SparedIsNotDue(cfg: Config, s: State, t: State, a: AttemptId, written: bool)
    requires cfg.jobTtlMs >= 0 && Sweepable(cfg, s) && a in s.memory.index && t == ReapJob(cfg, s, a, s.memory.index[a], written)
    ensures var job := Get(s.memory, s.memory.index[a]); var spared := Spared(cfg, job, s.now);
      && (a in t.memory.index ==> !Due(cfg, spared, s.now))
      && spared.bundle == job.bundle && (a in t.memory.index ==> !Reapable(cfg, spared, s.now))
    ensures s.memory.index.Keys - {a} <= t.memory.index.Keys
  {
  }

  lemma {:induction false} SweepOn(cfg: Config, before: State, s: State, steps: seq<Timed>, step: Timed, names: set<AttemptId>)
    requires cfg.jobTtlMs >= 0 && Sweepable(cfg, s) && CanRun(cfg, before, steps) && s == After(cfg, before, steps)
    requires step.at == s.now && step.event.Reap? && step.event.attemptId in s.memory.index && Swept(cfg, s, names)
    requires names <= s.memory.index.Keys
    ensures var a := step.event.attemptId; var t := ReapJob(cfg, s, a, s.memory.index[a], step.event.written);
      && Enabled(cfg, s, step.event)
      && CanRun(cfg, before, steps + [step]) && After(cfg, before, steps + [step]) == t && t.now == s.now
      && Sweepable(cfg, t) && Swept(cfg, t, names - {a}) && names - {a} <= t.memory.index.Keys <= s.memory.index.Keys
  {
    var a := step.event.attemptId;
    assert SweepableJob(cfg, s, a, s.memory.index[a]);
    assert s.(now := s.now) == s;
    assert CanStep(cfg, s, step);
    var t := ReapJob(cfg, s, a, s.memory.index[a], step.event.written);
    Evidence.RunSnoc(cfg, before, steps, step);
    ReapedJobs(cfg, s, a, step.event.written);
    SweptOn(cfg, s, t, a, names, step.event.written);
  }

  /** The jobs read from the journals of `names`. */
  ghost function Revived(disk: map<AttemptId, Journal>, names: set<AttemptId>, now: int): map<AttemptId, Job>
    requires names <= disk.Keys
  {
    map a | a in names :: Revive(disk[a], now)
  }

  ghost function Refs(names: set<AttemptId>): map<AttemptId, JobRef> {
    map a | a in names :: Old(a)
  }

  /** The journals once all but those of `names` have been read. */
  ghost function Journalled(disk: map<AttemptId, Journal>, names: set<AttemptId>, now: int): map<AttemptId, Journal> {
    map a | a in disk :: if a in names then disk[a] else JournalOf(Revive(disk[a], now))
  }

  lemma {:induction false} LoadedMore(disk: map<AttemptId, Journal>, names: set<AttemptId>, name: AttemptId, now: int)
    requires names <= disk.Keys && name in names
    ensures Revived(disk, disk.Keys - (names - {name}), now) == Revived(disk, disk.Keys - names, now)[name := Revive(disk[name], now)]
    ensures Refs(disk.Keys - (names - {name})) == Refs(disk.Keys - names)[name := Old(name)]
    ensures Journalled(disk, names - {name}, now) == Journalled(disk, names, now)[name := JournalOf(Revive(disk[name], now))]
    ensures Journalled(disk, names, now)[name] == disk[name]
  {
  }

  class Control {
    const cfg: Config
    var created: map<nat, Job>
    var loaded: map<AttemptId, Job>
    var jobs: map<AttemptId, JobRef>
    var journals: map<AttemptId, Journal>
    var waiting: seq<nat>
    var run: RunPc
    var handlers: map<nat, Pc>
    var nextJob: nat
    var nextHandler: nat
    ghost var clock: int
    ghost var log: History

    ghost function View(): State
      reads this
    {
      State(clock, Memory(created, loaded, jobs), journals, Queue(waiting, run), handlers, nextJob, nextHandler, log)
    }

    /** A first start over an empty journal directory. */
    constructor (cfg: Config, now: int)
      ensures View() == Init(now) && this.cfg == cfg
    {
      this.cfg := cfg;
      created, loaded, jobs, journals := map[], map[], map[], map[];
      waiting, run, handlers, nextJob, nextHandler := [], Resting, map[], 0, 0;
      clock, log := now, Init(now).log;
    }

    /** A restart after a crash: the memory is gone, then the journals are read. */
    method Restart(now: int)
      requires CanStep(cfg, View(), Timed(now, Event.Restart))
      modifies this
      ensures View() == Step(cfg, old(View()), Timed(now, Event.Restart))
    {
      clock := now;
      ForgetMemory();
      LoadJobJournals(now);
    }

    method ForgetMemory()
      modifies this`created, this`waiting, this`run, this`handlers, this`log
      ensures created == map[] && waiting == [] && run == Resting && handlers == map[]
      ensures log == old(log).(dirty := {})
    {
      created, waiting, run, handlers := map[], [], Resting, map[];
      log := log.(dirty := {});
    }

    /** Rebuilds the job map; an interrupted job is journalled as cleanup_pending. */
    method LoadJobJournals(now: int)
      modifies this`loaded, this`jobs, this`journals
      ensures loaded == map a | a in old(journals) :: Revive(old(journals)[a], now)
      ensures jobs == map a | a in old(journals) :: Old(a)
      ensures journals == map a | a in old(journals) :: JournalOf(Revive(old(journals)[a], now))
    {
      ghost var disk := journals;
      var names := journals.Keys;
      loaded, jobs := map[], map[];
      while names != {}
        invariant names <= disk.Keys
        invariant loaded == Revived(disk, disk.Keys - names, now)
        invariant jobs == Refs(disk.Keys - names)
        invariant journals == Journalled(disk, names, now)
        decreases names
      {
        var name :| name in names;
        LoadedMore(disk, names, name, now);
        LoadOne(name, now);
        names := names - {name};
      }
    }

    method LoadOne(name: AttemptId, now: int)
      requires name in journals
      modifies this`loaded, this`jobs, this`journals
      ensures loaded == old(loaded)[name := Revive(old(journals)[name], now)]
      ensures jobs == old(jobs)[name := Old(name)]
      ensures journals == old(journals)[name := JournalOf(loaded[name])]
    {
      var journal := journals[name];
      loaded := loaded[name := Revive(journal, now)];
      jobs := jobs[name := Old(name)];
      if Interrupted(journal.status) {
        journals := journals[name := JournalOf(loaded[name])];
      }
    }

    /** Replaces a job object and its journal, or fails to. */
    method PutJob(r: JobRef, job: Job, written: bool)
      modifies this`created, this`loaded, this`journals, this`log
      ensures View() == Put(old(View()), r, job, written)
    {
      match r {
        case New(n) => created := created[n := job];
        case Old(a) => loaded := loaded[a := job];
      }
      Journalise(job, written);
    }

    method Journalise(job: Job, written: bool)
      modifies this`journals, this`log
      ensures View() == Persist(old(View()), job, written)
    {
      var a := job.bundle.attemptId;
      if written {
        journals := journals[a := JournalOf(job)];
        log := log.(dirty := log.dirty - {a});
      } else {
        log := log.(dirty := log.dirty + {a});
      }
    }

    method JobOf(r: JobRef) returns (job: Job)
      requires Has(View().memory, r)
      ensures job == Get(View().memory, r)
    {
      match r {
        case New(n) => job := created[n];
        case Old(a) => job := loaded[a];
      }
    }

    method Note(fact: Fact)
      modifies this`log
      ensures View() == Observe(old(View()), fact)
    {
      log := log.(facts := log.facts + [fact]);
    }

    /** The fence request leaves, with the expiry of `cancelFenceExpiry`. */
    method RequestFence(bundle: Bundle, now: int) returns (command: FenceCommand)
      requires now == clock
      modifies this`log
      ensures View() == AskFence(cfg, old(View()), bundle)
      ensures command in log.commands && command.bundle == bundle
      ensures command.expiresAt >= bundle.expiresAt + CLEANUP_MARGIN_MS
      ensures command.expiresAt >= now + cfg.jobTtlMs + CLEANUP_MARGIN_MS
    {
      var expiresAt := bundle.expiresAt + CLEANUP_MARGIN_MS;
      if expiresAt < now + cfg.jobTtlMs + CLEANUP_MARGIN_MS {
        expiresAt := now + cfg.jobTtlMs + CLEANUP_MARGIN_MS;
      }
      command := FenceCommand(bundle, expiresAt);
      log := log.(commands := log.commands + {command});
    }

    method AbortJob(r: JobRef, bundle: Bundle, now: int)
      requires now == clock
      modifies this`run, this`log
      ensures View() == AbortRun(cfg, old(View()), r, bundle)
    {
      if run.AwaitingReply? && r == New(run.job) && !run.fencing {
        var _ := RequestFence(bundle, now);
        run := AwaitingReply(run.job, true);
      }
    }

    // ---- submit and run ---------------------------------------------------

    method SubmitJob(bundle: Bundle, now: int)
      requires CanStep(cfg, View(), Timed(now, SubmitArrives(bundle)))
      modifies this
      ensures View() == Step(cfg, old(View()), Timed(now, SubmitArrives(bundle)))
    {
      clock := now;
      if cfg.jobTtlMs >= bundle.maxRunMs + CLEANUP_MARGIN_MS && bundle.attemptId !in jobs {
        handlers := handlers[nextHandler := SubmitWaiting(bundle)];
        nextHandler := nextHandler + 1;
      }
    }

    method AcceptJob(id: nat, ready: bool, written: bool, now: int)
      requires CanStep(cfg, View(), Timed(now, SubmitContinues(id, ready, written)))
      modifies this
      ensures View() == Step(cfg, old(View()), Timed(now, SubmitContinues(id, ready, written)))
    {
      clock := now;
      var bundle := handlers[id].bundle;
      handlers := handlers - {id};
      if ready {
        var n := nextJob;
        nextJob := n + 1;
        jobs := jobs[bundle.attemptId := New(n)];
        PutJob(New(n), NewJob(bundle, now, written), written);
        if written {
          waiting := waiting + [n];
        }
      }
    }

    /** A cancelled job leaves the queue unrun; any other is journalled as running
        before its execute request leaves. */
    method RunHead(written: bool, now: int)
      requires CanStep(cfg, View(), Timed(now, RunNext(written)))
      modifies this
      ensures View() == Step(cfg, old(View()), Timed(now, RunNext(written)))
    {
      clock := now;
      var n := waiting[0];
      var job := created[n];
      waiting := waiting[1..];
      if job.status != Status.Cancelled {
        PutJob(New(n), job.(status := Running, updatedAt := now), written);
        if written {
          run := AwaitingReply(n, job.aborted);
          log := log.(sent := log.sent[n := job.bundle]);
          if job.aborted {
            var _ := RequestFence(job.bundle, now);
          }
        }
      }
    }

    method Conclude(n: nat, outcome: Outcome, proof: Proof, written: bool, now: int)
      requires n in created && now == clock
      modifies this`created, this`loaded, this`journals, this`log, this`run
      ensures View() == FinishRun(old(View()), n, outcome, proof, written)
    {
      run := Resting;
      PutJob(New(n), Concluded(created[n], outcome, proof, now), written);
    }

    method Judge(n: nat, reply: Reply, replyAt: nat, written: bool, now: int)
      requires n in created && now == clock
      modifies this`created, this`loaded, this`journals, this`log, this`run
      ensures View() == Consider(old(View()), n, reply, replyAt, written)
    {
      match PlanFor(reply) {
        case Conclude(outcome) => Conclude(n, outcome, ByReply(replyAt), written, now);
        case _ => run := Proving(n, reply, replyAt);
      }
    }

    /** `replyAt` names the fact about to be noted: it is history. */
    method Replied(reply: Reply, replyAt: nat, written: bool, now: int)
      requires CanStep(cfg, View(), Timed(now, RunReplied(reply, written))) && replyAt == |log.facts|
      modifies this
      ensures View() == Step(cfg, old(View()), Timed(now, RunReplied(reply, written)))
    {
      clock := now;
      var n := run.job;
      if reply.TransportError? {
        Conclude(n, Errored, Unproved, written, now);
      } else {
        Note(WorkloadReplied(created[n].bundle, reply));
        if run.fencing {
          run := AwaitingFence(n, reply, replyAt);
        } else {
          Judge(n, reply, replyAt, written, now);
        }
      }
    }

    method FenceReplied(ok: bool, written: bool, now: int)
      requires CanStep(cfg, View(), Timed(now, RunFenced(ok, written)))
      modifies this
      ensures View() == Step(cfg, old(View()), Timed(now, RunFenced(ok, written)))
    {
      clock := now;
      var pc := run;
      if ok {
        Note(FenceAcked(created[pc.job].bundle));
        Judge(pc.job, pc.reply, pc.replyAt, written, now);
      } else {
        Conclude(pc.job, Errored, Unproved, written, now);
      }
    }

    /** The workload's emptiness and the App's absence are verified together; a
        completed result needs the absence only. */
    method ProofReplied(ok: bool, provedAt: nat, written: bool, now: int)
      requires CanStep(cfg, View(), Timed(now, RunProved(ok, written))) && provedAt == |log.facts|
      modifies this
      ensures View() == Step(cfg, old(View()), Timed(now, RunProved(ok, written)))
    {
      clock := now;
      var pc := run;
      var slug := created[pc.job].bundle.slug;
      match PlanFor(pc.reply) {
        case Conclude(_) => Conclude(pc.job, Errored, Unproved, written, now);
        case ProveBoth(otherwise) =>
          if ok {
            Note(WorkloadEmpty);
            Note(AppAbsent(slug));
            Conclude(pc.job, CleanupConfirmed, ByReplyAnd(pc.replyAt, provedAt, provedAt + 1), written, now);
          } else {
            Conclude(pc.job, otherwise, Unproved, written, now);
          }
        case ProveAbsent =>
          if ok {
            Note(AppAbsent(slug));
            Conclude(pc.job, Done, ByReplyAbsent(pc.replyAt, provedAt), written, now);
          } else {
            Conclude(pc.job, Errored, Unproved, written, now);
          }
      }
    }

    // ---- cancel and repair ------------------------------------------------

    /** An accepted job is cancelled, a running one awaits its cleanup, and a job
        that is not over is aborted. */
    method Cancelled(job: Job, proof: Proof, now: int) returns (cancelled: Job)
      ensures cancelled == CancelledJob(job, now, proof)
    {
      cancelled := job.(updatedAt := now);
      if job.status == Accepted {
        cancelled := cancelled.(status := Status.Cancelled, proof := proof);
      } else if job.status == Running {
        cancelled := cancelled.(status := CleanupPending);
      }
      if cancelled.status != Completed && cancelled.status != Failed {
        cancelled := cancelled.(aborted := true);
      }
    }

    method PutAndAbort(r: JobRef, job: Job, bundle: Bundle, written: bool, now: int)
      requires Has(View().memory, r) && now == clock
      modifies this`created, this`loaded, this`journals, this`log, this`run
      ensures View() == var put := Put(old(View()), r, job, written); if Aborts(job.status) then AbortRun(cfg, put, r, bundle) else put
    {
      PutJob(r, job, written);
      if Aborts(job.status) {
        AbortJob(r, bundle, now);
      }
    }

    /** The tail of the cancel handler: no await between reading the job's status
        and changing it. */
    method CancelJob(id: nat, r: JobRef, proof: Proof, written: bool, now: int)
      requires Has(View().memory, r) && now == clock
      modifies this`created, this`loaded, this`journals, this`log, this`run, this`handlers
      ensures View() == CommitCancel(cfg, old(View()), id, r, proof, written)
    {
      var job := JobOf(r);
      var cancelled := Cancelled(job, proof, now);
      PutAndAbort(r, cancelled, job.bundle, written, now);
      if written && cancelled.status == CleanupPending && job.settled {
        handlers := handlers[id := CancelSettling(r)];
      } else {
        handlers := handlers - {id};
      }
    }

    method CancelRequested(a: AttemptId, bundle: Bundle, written: bool, now: int)
      requires CanStep(cfg, View(), Timed(now, CancelArrives(a, bundle, written)))
      modifies this
      ensures View() == Step(cfg, old(View()), Timed(now, CancelArrives(a, bundle, written)))
    {
      clock := now;
      FindAndCancel(a, bundle, written, now);
    }

    method FindAndCancel(a: AttemptId, bundle: Bundle, written: bool, now: int)
      requires now == clock && (a in jobs ==> Has(View().memory, jobs[a]))
      modifies this`created, this`loaded, this`journals, this`log, this`run, this`handlers, this`nextHandler
      ensures View() == CancelRequest(cfg, old(View()), a, bundle, written)
    {
      if a in jobs {
        var r := jobs[a];
        var job := JobOf(r);
        if job.bundle == bundle {
          var id := nextHandler;
          nextHandler := id + 1;
          BeginCancel(id, r, job, written, now);
        }
      }
    }

    method BeginCancel(id: nat, r: JobRef, job: Job, written: bool, now: int)
      requires Has(View().memory, r) && Get(View().memory, r) == job && now == clock
      modifies this`created, this`loaded, this`journals, this`log, this`run, this`handlers
      ensures View() == ControlModel.BeginCancel(cfg, old(View()), id, r, written)
    {
      if job.status == Failed && job.error == ErrorCode.CleanupFailed {
        handlers := handlers[id := RepairSettling(r)];
      } else if job.status !in {Completed, Failed, Status.Cancelled} {
        var _ := RequestFence(job.bundle, now);
        handlers := handlers[id := CancelFencing(r)];
      } else {
        CancelJob(id, r, job.proof, written, now);
      }
    }

    method CancelAcknowledged(id: nat, acked: bool, ackAt: nat, written: bool, now: int)
      requires CanStep(cfg, View(), Timed(now, CancelFenced(id, acked, written))) && ackAt == |log.facts|
      modifies this
      ensures View() == Step(cfg, old(View()), Timed(now, CancelFenced(id, acked, written)))
    {
      clock := now;
      var r := handlers[id].job;
      if acked {
        var job := JobOf(r);
        Note(FenceAcked(job.bundle));
        CancelJob(id, r, ByFence(ackAt), written, now);
      } else {
        handlers := handlers - {id};
      }
    }

    method RepairSettles(id: nat, ok: bool, now: int)
      requires CanStep(cfg, View(), Timed(now, RepairSettled(id, ok)))
      modifies this
      ensures View() == Step(cfg, old(View()), Timed(now, RepairSettled(id, ok)))
    {
      clock := now;
      var r := handlers[id].job;
      if ok {
        var job := JobOf(r);
        var _ := RequestFence(job.bundle, now);
        handlers := handlers[id := RepairFencing(r)];
      } else {
        handlers := handlers - {id};
      }
    }

    /** `verified`: a fresh acknowledgement with the exact, clean receipt. */
    method RepairFenceReplied(id: nat, verified: bool, ackAt: nat, now: int)
      requires CanStep(cfg, View(), Timed(now, RepairFenced(id, verified))) && ackAt == |log.facts|
      modifies this
      ensures View() == Step(cfg, old(View()), Timed(now, RepairFenced(id, verified)))
    {
      clock := now;
      var r := handlers[id].job;
      if verified {
        var job := JobOf(r);
        Note(RepairReceipt(job.bundle));
        handlers := handlers[id := RepairEmptying(r, ackAt)];
      } else {
        handlers := handlers - {id};
      }
    }

    method RepairEmptyReplied(id: nat, ok: bool, emptyAt: nat, now: int)
      requires CanStep(cfg, View(), Timed(now, RepairEmptied(id, ok))) && emptyAt == |log.facts|
      modifies this
      ensures View() == Step(cfg, old(View()), Timed(now, RepairEmptied(id, ok)))
    {
      clock := now;
      var pc := handlers[id];
      if ok {
        Note(WorkloadEmpty);
        handlers := handlers[id := RepairClearing(pc.job, pc.ack, emptyAt)];
      } else {
        handlers := handlers - {id};
      }
    }

    /** The repaired copy reaches the disk before the job itself changes. */
    method RepairJob(id: nat, ok: bool, clearedAt: nat, written: bool, rewritten: bool, now: int)
      requires CanStep(cfg, View(), Timed(now, RepairCleared(id, ok, written, rewritten))) && clearedAt == |log.facts|
      modifies this
      ensures View() == Step(cfg, old(View()), Timed(now, RepairCleared(id, ok, written, rewritten)))
    {
      clock := now;
      var pc := handlers[id];
      if !ok {
        handlers := handlers - {id};
        return;
      }
      var job := JobOf(pc.job);
      Note(AppAbsent(job.bundle.slug));
      var repaired := job.(status := Status.Cancelled, updatedAt := now, repaired := true, proof := ByRepair(pc.ack, pc.empty, clearedAt));
      if written {
        PutJob(pc.job, repaired, true);
        CancelJob(id, pc.job, repaired.proof, rewritten, now);
      } else {
        Journalise(job, false);
        handlers := handlers - {id};
      }
    }

    // ---- health recovery --------------------------------------------------

    method HealthBegins(now: int)
      requires CanStep(cfg, View(), Timed(now, HealthArrives))
      modifies this
      ensures View() == Step(cfg, old(View()), Timed(now, HealthArrives))
    {
      clock := now;
      handlers := handlers[nextHandler := HealthFencing(map[], None)];
      nextHandler := nextHandler + 1;
    }

    /** The first loop of the health check, for one job. */
    method HealthAsksFence(id: nat, r: JobRef, now: int)
      requires CanStep(cfg, View(), Timed(now, HealthAsks(id, r)))
      modifies this
      ensures View() == Step(cfg, old(View()), Timed(now, HealthAsks(id, r)))
    {
      clock := now;
      var job := JobOf(r);
      if Recoverable(job) {
        var _ := RequestFence(job.bundle, now);
        handlers := handlers[id := HealthFencing(handlers[id].fenced, Some(r))];
      }
    }

    method HealthFenceReplied(id: nat, acked: bool, ackAt: nat, now: int)
      requires CanStep(cfg, View(), Timed(now, HealthFenced(id, acked))) && ackAt == |log.facts|
      modifies this
      ensures View() == Step(cfg, old(View()), Timed(now, HealthFenced(id, acked)))
    {
      clock := now;
      var pc := handlers[id];
      var job := JobOf(pc.pending.value);
      if acked {
        Note(FenceAcked(job.bundle));
        handlers := handlers[id := HealthFencing(pc.fenced[job.bundle.attemptId := ackAt], None)];
      } else {
        handlers := handlers[id := HealthFencing(pc.fenced, None)];
      }
    }

    method HealthProbeReplied(id: nat, clean: bool, emptyAt: nat, now: int)
      requires CanStep(cfg, View(), Timed(now, HealthProbed(id, clean))) && emptyAt == |log.facts|
      modifies this
      ensures View() == Step(cfg, old(View()), Timed(now, HealthProbed(id, clean)))
    {
      clock := now;
      if clean {
        Note(WorkloadEmpty);
        handlers := handlers[id := HealthPicking(handlers[id].fenced, emptyAt)];
      } else {
        handlers := handlers - {id};
      }
    }

    /** The second loop of the health check, for one job: the same test again, and
        only a job fenced in this very check. */
    method HealthPicksJob(id: nat, r: JobRef, now: int)
      requires CanStep(cfg, View(), Timed(now, HealthPicks(id, r)))
      modifies this
      ensures View() == Step(cfg, old(View()), Timed(now, HealthPicks(id, r)))
    {
      clock := now;
      var pc := handlers[id];
      var job := JobOf(r);
      if Recoverable(job) && job.bundle.attemptId in pc.fenced {
        handlers := handlers[id := HealthClearing(pc.fenced, pc.empty, r, job.status == Failed)];
      }
    }

    /** A failed journal write is swallowed here, after the job has changed. */
    method RecoverJob(id: nat, absent: bool, clearedAt: nat, written: bool, now: int)
      requires CanStep(cfg, View(), Timed(now, HealthCleared(id, absent, written))) && clearedAt == |log.facts|
      modifies this
      ensures View() == Step(cfg, old(View()), Timed(now, HealthCleared(id, absent, written)))
    {
      clock := now;
      var pc := handlers[id];
      var job := JobOf(pc.job);
      if absent && job.bundle.attemptId in pc.fenced {
        Note(AppAbsent(job.bundle.slug));
        var proof := ByRecovery(pc.fenced[job.bundle.attemptId], pc.empty, clearedAt);
        PutJob(pc.job, RecoveredJob(job, now, pc.wasFailed, proof), written);
      }
      handlers := handlers[id := HealthPicking(pc.fenced, pc.empty)];
    }

    // ---- the reaper -------------------------------------------------------

    method ReapOne(a: AttemptId, written: bool, now: int)
      requires now == clock && Enabled(cfg, View(), Reap(a, written))
      modifies this`created, this`loaded, this`jobs, this`journals, this`log, this`run
      ensures View() == ReapJob(cfg, old(View()), a, old(jobs)[a], written)
    {
      var r := jobs[a];
      var job := JobOf(r);
      var age := now - job.updatedAt;
      if (job.status == Running || job.status == CleanupPending) && age > cfg.jobTtlMs {
        PutJob(r, job.(status := CleanupPending, updatedAt := now, aborted := true), written);
        AbortJob(r, job.bundle, now);
      } else if !job.repaired && job.status in {Completed, Status.Cancelled} && age > cfg.jobTtlMs {
        jobs := jobs - {a};
        journals := journals - {a};
        log := log.(reaped := log.reaped + {a});
      }
    }

    /** One pass over the job map.  The first failed write ends it; otherwise nothing
        is left that has outlived its lease or its retention. */
    method Sweep(failing: set<AttemptId>, now: int) returns (ghost steps: seq<Timed>, ok: bool)
      requires now == clock && cfg.jobTtlMs >= 0 && Sweepable(cfg, View())
      modifies this`created, this`loaded, this`jobs, this`journals, this`log, this`run
      ensures CanRun(cfg, old(View()), steps) && View() == After(cfg, old(View()), steps)
      ensures forall i :: 0 <= i < |steps| ==> steps[i].event.Reap?
      ensures Sweepable(cfg, View()) && (ok ==> Swept(cfg, View(), {}))
      ensures old(jobs.Keys) !! failing ==> ok
    {
      ghost var before := View();
      var names := jobs.Keys;
      steps, ok := [], true;
      while names != {} && ok
        invariant CanRun(cfg, before, steps) && View() == After(cfg, before, steps) && clock == now
        invariant forall i :: 0 <= i < |steps| ==> steps[i].event.Reap?
        invariant names <= jobs.Keys <= before.memory.index.Keys && Sweepable(cfg, View())
        invariant ok ==> Swept(cfg, View(), names)
        invariant before.memory.index.Keys !! failing ==> ok
        decreases names, ok
      {
        var a :| a in names;
        ghost var step := Timed(now, Reap(a, a !in failing));
        SweepOn(cfg, before, View(), steps, step, names);
        var stale := IsStale(a, now);
        ReapOne(a, a !in failing, now);
        steps := steps + [step];
        ok := !(stale && a in failing);
        names := names - {a};
      }
    }

    method IsStale(a: AttemptId, now: int) returns (stale: bool)
      requires a in jobs && Has(View().memory, jobs[a])
      ensures stale == Stale(cfg, Get(View().memory, jobs[a]), now)
    {
      var job := JobOf(jobs[a]);
      stale := (job.status == Running || job.status == CleanupPending) && now - job.updatedAt > cfg.jobTtlMs;
    }
  }
}
