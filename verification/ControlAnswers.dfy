/** What each event of the control service changes, case by case: which of its branches it
    takes, in terms of the job, the clock and the awaited result, and all that it writes in
    memory, on disk and in the queue.  The invariants and the theorems over runs are proved
    elsewhere; here is what they do not say, namely that the service does what it is asked to
    whenever it may. */
module ControlAnswers {
  import opened SandboxTypes
  import opened ControlModel

  // ---- what a step writes -------------------------------------------------

  /** Job `r` becomes `y`, and its journal follows exactly if the write held. */
  ghost predicate Wrote(s: State, t: State, r: JobRef, y: Job, written: bool) {
    && t.memory.index == s.memory.index
    && t.memory.created == (if r.New? then s.memory.created[r.n := y] else s.memory.created)
    && t.memory.loaded == (if r.Old? then s.memory.loaded[r.a := y] else s.memory.loaded)
    && t.disk == (if written
                  then s.disk[y.bundle.attemptId := Journal(y.bundle, y.status, y.updatedAt, y.error, y.repaired, y.proof)]
                  else s.disk)
  }

  ghost predicate Untouched(s: State, t: State) {
    t.memory == s.memory && t.disk == s.disk
  }

  /** The fence asked of the workload outlives the bundle and the job by the margin. */
  function FenceFor(cfg: Config, b: Bundle, now: int): FenceCommand {
    FenceCommand(b, if b.expiresAt > now + cfg.jobTtlMs then b.expiresAt + 180_000 else now + cfg.jobTtlMs + 180_000)
  }

  // ---- submit and run -----------------------------------------------------

  /** A submit is refused if the job's lifetime is too short for the bundle, answered from the
      job it names if the attempt is known, and waits for health otherwise. */
  lemma {:induction false} SubmitIsExact(cfg: Config, s: State, b: Bundle)
    ensures var t := React(cfg, s, SubmitArrives(b));
      if b.maxRunMs + 180_000 <= cfg.jobTtlMs && b.attemptId !in s.memory.index
      then t == s.(handlers := s.handlers[s.nextHandler := SubmitWaiting(b)], nextHandler := s.nextHandler + 1)
      else t == s
  {
  }

  /** Once health is known the job is accepted exactly if the service is ready, and queued
      exactly if its journal was written too. */
  lemma {:induction false} AcceptIsExact(cfg: Config, s: State, e: Event)
    requires Enabled(cfg, s, e) && e.SubmitContinues?
    ensures var t := React(cfg, s, e); var b := s.handlers[e.id].bundle; var n := s.nextJob;
      && t.handlers == s.handlers - {e.id} && t.queue.run == s.queue.run && t.log.sent == s.log.sent
      && t.queue.waiting == (if e.ready && e.written then s.queue.waiting + [n] else s.queue.waiting)
      && if e.ready
         then
           && t.memory.index == s.memory.index[b.attemptId := New(n)] && t.memory.loaded == s.memory.loaded
           && t.memory.created == s.memory.created[n := Job(b, Accepted, s.now, NoError, false, e.written, false, Unproved)]
           && t.disk == (if e.written then s.disk[b.attemptId := Journal(b, Accepted, s.now, NoError, false, Unproved)] else s.disk)
         else Untouched(s, t)
  {
  }

  /** The head of the queue is skipped exactly if it was cancelled; otherwise it runs, and its
      execute request leaves exactly if the journal says so, with a fence asked for if the job
      had been aborted. */
  lemma {:induction false} StartIsExact(cfg: Config, s: State, written: bool)
    requires Enabled(cfg, s, RunNext(written))
    ensures var t := React(cfg, s, RunNext(written)); var n := s.queue.waiting[0]; var x := s.memory.created[n];
      && t.queue.waiting == s.queue.waiting[1..] && t.handlers == s.handlers
      && if x.status == Cancelled then Untouched(s, t) && t.queue.run == s.queue.run && t.log == s.log
         else
           && Wrote(s, t, New(n), x.(status := Running, updatedAt := s.now), written)
           && t.log.sent == (if written then s.log.sent[n := x.bundle] else s.log.sent)
           && t.queue.run == (if written then AwaitingReply(n, x.aborted) else s.queue.run)
           && t.log.commands == (if written && x.aborted then s.log.commands + {FenceFor(cfg, x.bundle, s.now)} else s.log.commands)
  {
  }

  // ---- cancel and repair --------------------------------------------------

  /** The tail of a cancel: an accepted job is cancelled, a running one is to be cleaned up, and
      any other keeps its status; a job that is not over is aborted, which asks the workload for
      a fence if its request is out; the handler waits exactly if its run still has to settle. */
  ghost predicate Tail(cfg: Config, s: State, t: State, id: nat, r: JobRef, x: Job, proof: Proof, written: bool) {
    var status := if x.status == Accepted then Cancelled else if x.status == Running then CleanupPending else x.status;
    var over := status == Completed || status == Failed;
    var y := x.(status := status, updatedAt := s.now, aborted := x.aborted || !over, proof := if x.status == Accepted then proof else x.proof);
    var asks := !over && s.queue.run.AwaitingReply? && r == New(s.queue.run.job) && !s.queue.run.fencing;
    && Wrote(s, t, r, y, written)
    && t.log.commands == (if asks then s.log.commands + {FenceFor(cfg, x.bundle, s.now)} else s.log.commands)
    && t.queue == (if asks then s.queue.(run := AwaitingReply(s.queue.run.job, true)) else s.queue)
    && t.handlers == (if written && status == CleanupPending && x.settled then s.handlers[id := CancelSettling(r)] else s.handlers - {id})
  }

  lemma {:induction false} TailIsExact(cfg: Config, s: State, id: nat, r: JobRef, proof: Proof, written: bool)
    requires Has(s.memory, r)
    ensures Tail(cfg, s, CommitCancel(cfg, s, id, r, proof, written), id, r, Get(s.memory, r), proof, written)
  {
    TailAsks(cfg, s, id, r, proof, written);
  }

  lemma {:induction false} TailAsks(cfg: Config, s: State, id: nat, r: JobRef, proof: Proof, written: bool)
    requires Has(s.memory, r)
    ensures var t := CommitCancel(cfg, s, id, r, proof, written); var x := Get(s.memory, r);
      var u := Put(s, r, CancelledJob(x, s.now, proof), written);
      var asks := x.status !in {Completed, Failed} && s.queue.run.AwaitingReply? && r == New(s.queue.run.job) && !s.queue.run.fencing;
      && t.memory == u.memory && t.disk == u.disk
      && t.log.commands == (if asks then s.log.commands + {FenceFor(cfg, x.bundle, s.now)} else s.log.commands)
      && t.queue == (if asks then s.queue.(run := AwaitingReply(s.queue.run.job, true)) else s.queue)
  {
  }

  /** The cancel of job `r` up to its first await. */
  ghost predicate Cancels(cfg: Config, s: State, t: State, r: JobRef, x: Job, written: bool) {
    var id := s.nextHandler;
    if x.status == Failed && x.error == ErrorCode.CleanupFailed
    then Untouched(s, t) && t.handlers == s.handlers[id := RepairSettling(r)] && t.log == s.log
    else if x.status in {Accepted, Running, CleanupPending}
    then
      && Untouched(s, t) && t.handlers == s.handlers[id := CancelFencing(r)]
      && t.log == s.log.(commands := s.log.commands + {FenceFor(cfg, x.bundle, s.now)})
    else Tail(cfg, s, t, id, r, x, x.proof, written)
  }

  /** A cancel of an unknown attempt or of another bundle changes nothing.  A failed cleanup
      starts a repair, which waits for the run; a job that is not over is fenced first; and a
      job that is over takes the tail at once. */
  lemma {:induction false} CancelIsExact(cfg: Config, s: State, t: State, a: AttemptId, b: Bundle, written: bool)
    requires Enabled(cfg, s, CancelArrives(a, b, written)) && t == React(cfg, s, CancelArrives(a, b, written))
    ensures if a in s.memory.index && Get(s.memory, s.memory.index[a]).bundle == b
            then Cancels(cfg, s, t, s.memory.index[a], Get(s.memory, s.memory.index[a]), written)
            else t == s
  {
    RequestIs(cfg, s, a, b, written);
    if a in s.memory.index && Get(s.memory, s.memory.index[a]).bundle == b {
      BeginIsExact(cfg, s, t, s.memory.index[a], written);
    }
  }

  lemma {:induction false} RequestIs(cfg: Config, s: State, a: AttemptId, b: Bundle, written: bool)
    requires a in s.memory.index ==> Has(s.memory, s.memory.index[a])
    ensures CancelRequest(cfg, s, a, b, written) ==
      if a in s.memory.index && Get(s.memory, s.memory.index[a]).bundle == b
      then BeginCancel(cfg, s.(nextHandler := s.nextHandler + 1), s.nextHandler, s.memory.index[a], written) else s
  {
  }

  lemma {:induction false} BeginIsExact(cfg: Config, s: State, t: State, r: JobRef, written: bool)
    requires Has(s.memory, r) && t == BeginCancel(cfg, s.(nextHandler := s.nextHandler + 1), s.nextHandler, r, written)
    ensures Cancels(cfg, s, t, r, Get(s.memory, r), written)
  {
    var q := s.(nextHandler := s.nextHandler + 1);
    var x := Get(s.memory, r);
    if Settled(x.status) && !(x.status == Failed && x.error == ErrorCode.CleanupFailed) {
      TailIsExact(cfg, q, s.nextHandler, r, x.proof, written);
    }
  }

  /** An acknowledged fence is noted and leads to the tail; without one the cancel ends. */
  lemma {:induction false} FenceIsExact(cfg: Config, s: State, e: Event)
    requires Enabled(cfg, s, e) && e.CancelFenced?
    ensures var t := React(cfg, s, e); var r := s.handlers[e.id].job; var x := Get(s.memory, r);
      if e.acked
      then
        && t.log.facts == s.log.facts + [FenceAcked(x.bundle)]
        && Tail(cfg, s, t, e.id, r, x, ByFence(|s.log.facts|), e.written)
      else Untouched(s, t) && t.handlers == s.handlers - {e.id} && t.log == s.log
  {
    var r := s.handlers[e.id].job;
    TailIsExact(cfg, Observe(s, FenceAcked(Get(s.memory, r).bundle)), e.id, r, ByFence(|s.log.facts|), e.written);
  }

  /** A repair goes on, one proof after the other, exactly as long as each of them holds: the
      run has settled, a receipt came with a fresh fence, the workload is empty. */
  lemma {:induction false} RepairGoesOn(cfg: Config, s: State, e: Event)
    requires Enabled(cfg, s, e) && (e.RepairSettled? || e.RepairFenced? || e.RepairEmptied?)
    ensures var t := React(cfg, s, e); var pc := s.handlers[e.id]; var b := Get(s.memory, pc.job).bundle; var k := |s.log.facts|;
      && Untouched(s, t) && t.queue == s.queue
      && match e
         case RepairSettled(id, ok) =>
           && t.handlers == (if ok then s.handlers[id := RepairFencing(pc.job)] else s.handlers - {id})
           && t.log == (if ok then s.log.(commands := s.log.commands + {FenceFor(cfg, b, s.now)}) else s.log)
         case RepairFenced(id, verified) =>
           && t.handlers == (if verified then s.handlers[id := RepairEmptying(pc.job, k)] else s.handlers - {id})
           && t.log == (if verified then s.log.(facts := s.log.facts + [RepairReceipt(b)]) else s.log)
         case RepairEmptied(id, ok) =>
           && t.handlers == (if ok then s.handlers[id := RepairClearing(pc.job, pc.ack, k)] else s.handlers - {id})
           && t.log == (if ok then s.log.(facts := s.log.facts + [WorkloadEmpty]) else s.log)
         case _ => false
  {
  }

  /** When the App is absent too, the job is cancelled as repaired exactly if the repaired copy
      could be journalled; the tail then writes it once more. */
  lemma {:induction false} RepairIsExact(cfg: Config, s: State, e: Event)
    requires Enabled(cfg, s, e) && e.RepairCleared?
    ensures var t := React(cfg, s, e); var pc := s.handlers[e.id]; var x := Get(s.memory, pc.job); var k := |s.log.facts|;
      && (e.ok ==> t.log.facts == s.log.facts + [AppAbsent(x.bundle.slug)])
      && if e.ok && e.written
         then exists u: State ::
           && Wrote(s, u, pc.job, x.(status := Cancelled, updatedAt := s.now, repaired := true, proof := ByRepair(pc.ack, pc.empty, k)), true)
           && u.queue == s.queue && u.handlers == s.handlers && u.log.commands == s.log.commands && u.now == s.now
           && Tail(cfg, u, t, e.id, pc.job,
                   x.(status := Cancelled, updatedAt := s.now, repaired := true, proof := ByRepair(pc.ack, pc.empty, k)),
                   ByRepair(pc.ack, pc.empty, k), e.rewritten)
         else Untouched(s, t) && t.handlers == s.handlers - {e.id} && t.log.commands == s.log.commands
  {
    var pc := s.handlers[e.id];
    var x := Get(s.memory, pc.job);
    if e.ok && e.written {
      var proof := ByRepair(pc.ack, pc.empty, |s.log.facts|);
      var y := x.(status := Cancelled, updatedAt := s.now, repaired := true, proof := proof);
      var u := Put(Observe(s, AppAbsent(x.bundle.slug)), pc.job, y, true);
      TailIsExact(cfg, u, e.id, pc.job, proof, e.rewritten);
      assert Get(u.memory, pc.job) == y;
    }
  }

  // ---- health recovery ----------------------------------------------------

  /** A job of an earlier process that was interrupted, or failed other than in its cleanup. */
  ghost predicate Recovers(x: Job) {
    !x.settled && ((x.status == CleanupPending && x.error == RunnerRestarted) || (x.status == Failed && x.error != ErrorCode.CleanupFailed))
  }

  /** The first loop of a health check asks a fence for each job that may recover and notes each
      that is acknowledged; a clean workload leads to the second loop, which picks the same jobs
      again, if this check has fenced them. */
  lemma {:induction false} HealthIsExact(cfg: Config, s: State, e: Event)
    requires Enabled(cfg, s, e) && (e.HealthAsks? || e.HealthFenced? || e.HealthProbed? || e.HealthPicks?)
    ensures var t := React(cfg, s, e); var pc := s.handlers[e.id]; var k := |s.log.facts|;
      && Untouched(s, t) && t.queue == s.queue
      && match e
         case HealthAsks(id, r) =>
           var x := Get(s.memory, r);
           && t.handlers == (if Recovers(x) then s.handlers[id := HealthFencing(pc.fenced, Some(r))] else s.handlers)
           && t.log == (if Recovers(x) then s.log.(commands := s.log.commands + {FenceFor(cfg, x.bundle, s.now)}) else s.log)
         case HealthFenced(id, acked) =>
           var b := Get(s.memory, pc.pending.value).bundle;
           && t.handlers == s.handlers[id := HealthFencing(if acked then pc.fenced[b.attemptId := k] else pc.fenced, None)]
           && t.log == (if acked then s.log.(facts := s.log.facts + [FenceAcked(b)]) else s.log)
         case HealthProbed(id, clean) =>
           && t.handlers == (if clean then s.handlers[id := HealthPicking(pc.fenced, k)] else s.handlers - {id})
           && t.log == (if clean then s.log.(facts := s.log.facts + [WorkloadEmpty]) else s.log)
         case HealthPicks(id, r) =>
           var x := Get(s.memory, r);
           && t.log == s.log
           && t.handlers == (if Recovers(x) && x.bundle.attemptId in pc.fenced
                             then s.handlers[id := HealthClearing(pc.fenced, pc.empty, r, x.status == Failed)] else s.handlers)
         case _ => false
  {
  }

  /** A health check begins with no job fenced, and a cancel handler that waited for its run
      only leaves. */
  lemma {:induction false} HandlersAreExact(cfg: Config, s: State, e: Event)
    requires Enabled(cfg, s, e) && (e.HealthArrives? || e.CancelSettled?)
    ensures var t := React(cfg, s, e);
      && t == s.(handlers := t.handlers, nextHandler := t.nextHandler)
      && match e
         case HealthArrives => t.handlers == s.handlers[s.nextHandler := HealthFencing(map[], None)] && t.nextHandler > s.nextHandler
         case CancelSettled(id) => t.handlers == s.handlers - {id} && t.nextHandler == s.nextHandler
         case _ => false
  {
  }

  /** Every step leaves the clock at its own time. */
  lemma {:induction false} TimeIsExact(cfg: Config, s: State, step: Timed)
    requires CanStep(cfg, s, step)
    ensures Step(cfg, s, step).now == step.at
  {
    var r := s.(now := step.at);
    var t := React(cfg, r, step.event);
    assert t.now == r.now;
  }

  /** The App's absence cancels the picked job, with the error that says what it had been. */
  lemma {:induction false} RecoveryIsExact(cfg: Config, s: State, e: Event)
    requires Enabled(cfg, s, e) && e.HealthCleared?
    ensures var t := React(cfg, s, e); var pc := s.handlers[e.id]; var x := Get(s.memory, pc.job); var a := x.bundle.attemptId;
      && t.handlers == s.handlers[e.id := HealthPicking(pc.fenced, pc.empty)] && t.queue == s.queue
      && if e.absent && a in pc.fenced
         then
           && t.log.facts == s.log.facts + [AppAbsent(x.bundle.slug)]
           && Wrote(s, t, pc.job, x.(status := Cancelled, error := if pc.wasFailed then FailureVerified else RestartVerified,
                                     updatedAt := s.now, proof := ByRecovery(pc.fenced[a], pc.empty, |s.log.facts|)), e.written)
         else Untouched(s, t) && t.log == s.log
  {
  }

  // ---- the reaper and the restart -----------------------------------------

  ghost predicate Aged(cfg: Config, s: State, x: Job) {
    s.now - x.updatedAt > cfg.jobTtlMs
  }

  /** A lease that has run out: the job is to be cleaned up, and aborted. */
  ghost predicate Expires(cfg: Config, s: State, t: State, r: JobRef, x: Job, written: bool) {
    var asks := s.queue.run.AwaitingReply? && r == New(s.queue.run.job) && !s.queue.run.fencing;
    && Wrote(s, t, r, x.(status := CleanupPending, updatedAt := s.now, aborted := true), written)
    && t.queue == (if asks then s.queue.(run := AwaitingReply(s.queue.run.job, true)) else s.queue)
    && t.log.commands == (if asks then s.log.commands + {FenceFor(cfg, x.bundle, s.now)} else s.log.commands)
  }

  /** A retention that has run out: the attempt goes, map entry and journal. */
  ghost predicate Forgets(s: State, t: State, a: AttemptId) {
    && t.memory.created == s.memory.created && t.memory.loaded == s.memory.loaded && t.queue == s.queue
    && t.memory.index == s.memory.index - {a} && t.disk == s.disk - {a} && t.log.reaped == s.log.reaped + {a}
  }

  /** The reaper's look at one job: a running one, or one to be cleaned up, expires once its
      time is over; a completed or cancelled one is forgotten then, unless it was repaired;
      and every other stays as it is. */
  lemma {:induction false} ReapIsExact(cfg: Config, s: State, a: AttemptId, written: bool)
    requires Enabled(cfg, s, Reap(a, written))
    ensures var t := React(cfg, s, Reap(a, written)); var r := s.memory.index[a]; var x := Get(s.memory, r);
      && t.handlers == s.handlers && t.log.facts == s.log.facts
      && if Aged(cfg, s, x) && x.status in {Running, CleanupPending} then Expires(cfg, s, t, r, x, written)
         else if Aged(cfg, s, x) && x.status in {Completed, Cancelled} && !x.repaired then Forgets(s, t, a)
         else t == s
  {
    var r := s.memory.index[a];
    ExpiryIsExact(cfg, s, a, r, written);
  }

  lemma {:induction false} ExpiryIsExact(cfg: Config, s: State, a: AttemptId, r: JobRef, written: bool)
    requires Has(s.memory, r)
    ensures var t := ReapJob(cfg, s, a, r, written); var x := Get(s.memory, r);
      Stale(cfg, x, s.now) ==> Expires(cfg, s, t, r, x, written) && t.handlers == s.handlers && t.log.facts == s.log.facts
  {
  }

  /** What a restart makes of the journal `j`. */
  ghost predicate ReadsAs(j: Journal, x: Job, now: int) {
    && x.bundle == j.bundle && x.repaired == j.repaired && !x.settled && !x.aborted
    && if j.status in {Completed, Failed, Cancelled}
       then x.status == j.status && x.updatedAt == j.updatedAt && x.error == j.error && x.proof == j.proof
       else x.status == CleanupPending && x.updatedAt == now && x.error == RunnerRestarted
  }

  /** A restart reads every journal back: a job that was over as it was, any other as one to be
      cleaned up after the restart; nothing is queued, run or suspended. */
  lemma {:induction false} RestartIsExact(cfg: Config, s: State, a: AttemptId)
    ensures var t := React(cfg, s, Restart);
      && t.memory.created == map[] && t.queue == Queue([], Resting) && t.handlers == map[]
      && (a in t.memory.loaded <==> a in s.disk) && (a in t.memory.index <==> a in s.disk) && (a in t.disk <==> a in s.disk)
      && (a in s.disk ==>
           && t.memory.index[a] == Old(a) && ReadsAs(s.disk[a], t.memory.loaded[a], s.now)
           && t.disk[a] == JournalOf(t.memory.loaded[a]))
  {
    if a in s.disk {
      RestartReads(s, a);
    }
  }

  lemma {:induction false} RestartReads(s: State, a: AttemptId)
    requires a in s.disk
    ensures var t := Restarted(s);
      && a in t.memory.loaded && t.memory.loaded[a] == Revive(s.disk[a], s.now) && ReadsAs(s.disk[a], t.memory.loaded[a], s.now)
  {
  }

  /** A journal holds what a restart needs of its job. */
  lemma {:induction false} JournalIsExact(x: Job, now: int)
    ensures JournalOf(x) == Journal(x.bundle, x.status, x.updatedAt, x.error, x.repaired, x.proof)
    ensures ReadsAs(JournalOf(x), Revive(JournalOf(x), now), now)
  {
  }
}
