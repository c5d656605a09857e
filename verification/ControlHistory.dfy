/** What survives crashes of the control service, over every run in which submits of one
    attempt are serialised and an attempt identifier is used once. */
module ControlHistory {
  import opened SandboxTypes
  import opened ControlModel
  import opened ControlSafety
  import opened ControlRecovery

  lemma {:induction false} RunOrderly(cfg: Config, s: State, run: seq<Timed>)
    requires Orderly(s) && SerialRun(cfg, s, run)
    ensures CanRun(cfg, s, run) && Orderly(After(cfg, s, run))
    decreases |run|
  {
    if run != [] {
      StepOrderly(cfg, s, run[0]);
      RunOrderly(cfg, Step(cfg, s, run[0]), run[1..]);
    }
  }

  // ---- completed, cancelled and unclean are final -------------------------

  /** A verdict on a job that is meant to last: it completed, it was cancelled, or
      its cleanup failed and was at most repaired since. */
  datatype Standing = IsCompleted | IsCancelled | IsUnclean

  predicate Stands(v: Standing, status: Status, error: ErrorCode, repaired: bool) {
    match v
    case IsCompleted => status == Completed
    case IsCancelled => status == Cancelled
    case IsUnclean => (status == Failed && error == ErrorCode.CleanupFailed) || (status == Cancelled && repaired)
  }

  /** The job of attempt `a` has standing `v`. */
  ghost predicate InMemory(s: State, a: AttemptId, v: Standing) {
    && a in s.memory.index && Has(s.memory, s.memory.index[a])
    && var job := Get(s.memory, s.memory.index[a]);
    Stands(v, job.status, job.error, job.repaired)
  }

  /** Its journal says so. */
  predicate OnDisk(s: State, a: AttemptId, v: Standing) {
    a in s.disk && Stands(v, s.disk[a].status, s.disk[a].error, s.disk[a].repaired)
  }

  ghost predicate Holds(s: State, a: AttemptId, v: Standing) {
    InMemory(s, a, v) && OnDisk(s, a, v)
  }

  lemma {:induction false} StandsOn(r: JobRef, x: Job, y: Job, v: Standing)
    requires JobMoves(r, x, y) && Stands(v, x.status, x.error, x.repaired)
    ensures Stands(v, y.status, y.error, y.repaired)
  {
  }

  lemma {:induction false} RefMoves(m: Memory, k: Memory, r: JobRef)
    requires MemoryMoves(m, k) && Has(m, r)
    ensures Has(k, r) && JobMoves(r, Get(m, r), Get(k, r))
  {
  }

  lemma {:induction false} HoldsMoves(s: State, t: State, a: AttemptId, v: Standing)
    requires Moved(DataOf(s), DataOf(t)) && Holds(s, a, v)
    ensures Holds(t, a, v) || (a in t.log.reaped && (v == IsUnclean ==> a in s.log.reaped))
  {
    var r := s.memory.index[a];
    RefMoves(s.memory, t.memory, r);
    StandsOn(r, Get(s.memory, r), Get(t.memory, r), v);
  }

  lemma {:induction false} HoldsRestarts(s: State, a: AttemptId, v: Standing)
    requires Holds(s, a, v)
    ensures Holds(Restarted(s), a, v)
  {
  }

  /** A standing that reached the disk lasts until the job is reaped, over crashes
      and failed journal writes. */
  lemma {:induction false} HoldsStays(cfg: Config, s: State, step: Timed, a: AttemptId, v: Standing)
    requires Orderly(s) && CanStep(cfg, s, step) && Serial(s, step.event) && Holds(s, a, v)
    ensures var t := Step(cfg, s, step); Holds(t, a, v) || (a in t.log.reaped && v != IsUnclean)
  {
    if step.event.Restart? {
      HoldsRestarts(s.(now := step.at), a, v);
    } else {
      StepOrderly(cfg, s, step);
      HoldsMoves(s, Step(cfg, s, step), a, v);
    }
  }

  lemma {:induction false} ReapedStays(cfg: Config, s: State, run: seq<Timed>, a: AttemptId)
    requires Orderly(s) && SerialRun(cfg, s, run) && a in s.log.reaped
    ensures CanRun(cfg, s, run) && a in After(cfg, s, run).log.reaped
    decreases |run|
  {
    if run != [] {
      StepOrderly(cfg, s, run[0]);
      ReapedStays(cfg, Step(cfg, s, run[0]), run[1..], a);
    }
  }

  /** Completed and cancelled are absorbing until the job is reaped; a cleanup
      failure stands for ever or is repaired. */
  lemma {:induction false} StandingIsFinal(cfg: Config, s: State, run: seq<Timed>, a: AttemptId, v: Standing)
    requires Orderly(s) && SerialRun(cfg, s, run) && Holds(s, a, v)
    ensures CanRun(cfg, s, run)
    ensures var t := After(cfg, s, run); Holds(t, a, v) || (a in t.log.reaped && v != IsUnclean)
    decreases |run|
  {
    if run != [] {
      var t := Step(cfg, s, run[0]);
      HoldsStays(cfg, s, run[0], a, v);
      StepOrderly(cfg, s, run[0]);
      if Holds(t, a, v) {
        StandingIsFinal(cfg, t, run[1..], a, v);
      } else {
        ReapedStays(cfg, t, run[1..], a);
      }
    }
  }

  /** In every continuation the job keeps the standing, or is reaped with it. */
  ghost predicate Lasts(cfg: Config, s: State, a: AttemptId, v: Standing) {
    forall run :: SerialRun(cfg, s, run) ==>
      CanRun(cfg, s, run) && var t := After(cfg, s, run); InMemory(t, a, v) || (a in t.log.reaped && v != IsUnclean)
  }

  lemma {:induction false} RevivedStands(journal: Journal, now: int, v: Standing)
    ensures var job := Revive(journal, now);
      Stands(v, job.status, job.error, job.repaired) <==> Stands(v, journal.status, journal.error, journal.repaired)
  {
  }

  /** A crash takes back what the disk does not say. */
  lemma {:induction false} CrashTakesBack(s: State, a: AttemptId, v: Standing)
    requires IndexOk(s.memory, s.log.reaped) && InMemory(s, a, v) && !OnDisk(s, a, v)
    ensures a !in s.log.reaped && !InMemory(Restarted(s), a, v)
  {
    if a in s.disk {
      RevivedStands(s.disk[a], s.now, v);
    }
  }

  lemma {:induction false} CanCrash(cfg: Config, s: State)
    ensures var run := [Timed(s.now, Event.Restart)];
      SerialRun(cfg, s, run) && CanRun(cfg, s, run) && After(cfg, s, run) == Restarted(s)
  {
    var step, t := Timed(s.now, Event.Restart), Restarted(s);
    assert s.(now := s.now) == s && [step][1..] == [];
    assert SerialRun(cfg, t, []) && CanRun(cfg, t, []) && After(cfg, t, []) == t;
  }

  /** A standing is final exactly when the journal has it too: a failed write is the one
      thing that can take it back, and the crash that does so is always possible. */
  lemma {:induction false} StandingIsExact(cfg: Config, s: State, a: AttemptId, v: Standing)
    requires Orderly(s) && InMemory(s, a, v)
    ensures Lasts(cfg, s, a, v) <==> OnDisk(s, a, v)
  {
    if OnDisk(s, a, v) {
      forall run | SerialRun(cfg, s, run)
        ensures CanRun(cfg, s, run) && var t := After(cfg, s, run); InMemory(t, a, v) || (a in t.log.reaped && v != IsUnclean)
      {
        StandingIsFinal(cfg, s, run, a, v);
      }
    } else {
      CanCrash(cfg, s);
      CrashTakesBack(s, a, v);
    }
  }

  // ---- crash consistency --------------------------------------------------

  /** `t` knows the job of bundle `b` after a crash that left the journals `disk`. */
  ghost predicate Reborn(t: Memory, disk: map<AttemptId, Journal>, b: Bundle) {
    var a := b.attemptId;
    && a in disk && a in t.index && t.index[a] == Old(a) && a in t.loaded
    && t.loaded[a].bundle == b && !t.loaded[a].settled
    && t.loaded[a].status == (if Settled(disk[a].status) then disk[a].status else CleanupPending)
  }

  lemma {:induction false} SentIsReborn(s: State, n: nat)
    requires Orderly(s) && n in s.log.sent && s.log.sent[n].attemptId !in s.log.reaped
    ensures Reborn(Restarted(s).memory, s.disk, s.log.sent[n])
  {
    assert IndexedAs(s.memory, s.log.sent[n]);
  }

  /** After a crash every attempt whose execute request may have left, and that is
      not reaped, is known again: with the terminal status its journal had, or as
      cleanup_pending.  It is not queued, and completed only if the journal said so. */
  lemma {:induction false} CrashConsistency(cfg: Config, now: int, run: seq<Timed>, n: nat)
    requires SerialRun(cfg, Init(now), run)
    ensures CanRun(cfg, Init(now), run)
    ensures var s := After(cfg, Init(now), run);
      n in s.log.sent && s.log.sent[n].attemptId !in s.log.reaped ==>
        Reborn(Restarted(s).memory, s.disk, s.log.sent[n]) && Restarted(s).queue == Queue([], Resting)
  {
    InitOrderly(now);
    RunOrderly(cfg, Init(now), run);
    var s := After(cfg, Init(now), run);
    if n in s.log.sent && s.log.sent[n].attemptId !in s.log.reaped {
      SentIsReborn(s, n);
    }
  }

  lemma {:induction false} InitOrderly(now: int)
    ensures Orderly(Init(now))
  {
  }

  /** A job of an earlier process that did not complete. */
  ghost predicate Interrupted(s: State, a: AttemptId) {
    && a in s.memory.index && s.memory.index[a] == Old(a) && a in s.memory.loaded && s.memory.loaded[a].status != Completed
    && a in s.disk && s.disk[a].status != Completed
  }

  /** No request of attempt `a` left between the two. */
  ghost predicate NotSent(before: map<nat, Bundle>, after: map<nat, Bundle>, a: AttemptId) {
    forall n :: n in after && n !in before ==> after[n].attemptId != a
  }

  lemma {:induction false} NotSentOn(x: map<nat, Bundle>, y: map<nat, Bundle>, z: map<nat, Bundle>, a: AttemptId)
    requires NotSent(x, y, a) && NotSent(y, z, a) && (forall n :: n in y && n in z ==> z[n] == y[n])
    ensures NotSent(x, z, a)
  {
  }

  lemma {:induction false} InterruptedMoves(s: State, t: State, a: AttemptId)
    requires Moved(DataOf(s), DataOf(t)) && Interrupted(s, a)
    ensures a in t.log.reaped || Interrupted(t, a)
  {
    RefMoves(s.memory, t.memory, Old(a));
  }

  lemma {:induction false} OldIsNotSent(s: State, t: State, a: AttemptId, n: nat)
    requires Moved(DataOf(s), DataOf(t)) && Neat(t) && (Interrupted(t, a) || Interrupted(s, a))
    requires n in t.log.sent && n !in s.log.sent && a !in t.log.reaped
    ensures t.log.sent[n].attemptId != a
  {
  }

  lemma {:induction false} InterruptedRestarts(s: State, a: AttemptId)
    requires Interrupted(s, a)
    ensures Interrupted(Restarted(s), a)
  {
  }

  /** Such a job never completes afterwards, and no request of it leaves again. */
  lemma {:induction false} InterruptedStays(cfg: Config, s: State, step: Timed, a: AttemptId)
    requires Orderly(s) && CanStep(cfg, s, step) && Serial(s, step.event) && Interrupted(s, a)
    ensures var t := Step(cfg, s, step);
      || a in t.log.reaped
      || (Interrupted(t, a) && NotSent(s.log.sent, t.log.sent, a))
  {
    var t := Step(cfg, s, step);
    StepOrderly(cfg, s, step);
    if step.event.Restart? {
      InterruptedRestarts(s.(now := step.at), a);
    } else if a !in t.log.reaped {
      InterruptedMoves(s, t, a);
      forall n | n in t.log.sent && n !in s.log.sent
        ensures t.log.sent[n].attemptId != a
      {
        OldIsNotSent(s, t, a, n);
      }
    }
  }

  ghost predicate SameSent(x: map<nat, Bundle>, y: map<nat, Bundle>) {
    forall n :: n in x ==> n in y && y[n] == x[n]
  }

  lemma {:induction false} SentStays(cfg: Config, s: State, run: seq<Timed>)
    requires Orderly(s) && SerialRun(cfg, s, run)
    ensures CanRun(cfg, s, run) && SameSent(s.log.sent, After(cfg, s, run).log.sent)
    decreases |run|
  {
    if run != [] {
      StepOrderly(cfg, s, run[0]);
      SentStays(cfg, Step(cfg, s, run[0]), run[1..]);
    }
  }

  /** Until it is reaped, an interrupted job is never promoted to success nor sent
      to the workload again, whatever happens after the crash. */
  lemma {:induction false} NeverPromoted(cfg: Config, s: State, run: seq<Timed>, a: AttemptId)
    requires Orderly(s) && SerialRun(cfg, s, run) && Interrupted(s, a)
    ensures CanRun(cfg, s, run)
    ensures var t := After(cfg, s, run);
      || a in t.log.reaped
      || (Interrupted(t, a) && NotSent(s.log.sent, t.log.sent, a))
    decreases |run|
  {
    if run != [] {
      var t := Step(cfg, s, run[0]);
      InterruptedStays(cfg, s, run[0], a);
      StepOrderly(cfg, s, run[0]);
      if a in t.log.reaped {
        ReapedStays(cfg, t, run[1..], a);
      } else {
        NeverPromoted(cfg, t, run[1..], a);
        var u := After(cfg, t, run[1..]);
        SentStays(cfg, t, run[1..]);
        if a !in u.log.reaped {
          NotSentOn(s.log.sent, t.log.sent, u.log.sent, a);
        }
      }
    }
  }

  /** Over every run an attempt has at most one execute request. */
  lemma {:induction false} SentOnce(cfg: Config, now: int, run: seq<Timed>, i: nat, j: nat)
    requires SerialRun(cfg, Init(now), run)
    ensures CanRun(cfg, Init(now), run)
    ensures var sent := After(cfg, Init(now), run).log.sent;
      i in sent && j in sent && sent[i].attemptId == sent[j].attemptId ==> i == j
  {
    InitOrderly(now);
    RunOrderly(cfg, Init(now), run);
  }
}
