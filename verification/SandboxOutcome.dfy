/** The replies the control service acts on tell how the execution really ended. */
module SandboxOutcome {
  import opened SandboxTypes
  import opened SandboxSystem
  import C = ControlModel
  import CL = ControlLimits
  import CS = ControlSafety
  import SH = SandboxHistory
  import W = WorkloadModel
  import WO = WorkloadOutcome
  import WS = WorkloadSafety
  import WH = WorkloadHistory

  /** The event of the workload that a step of the system is, if it is one. */
  function EventOf(s: System, e: Event): Option<W.Event> {
    match e
    case Control(_) => None
    case Deliver(n, _) => if n in s.c.log.sent then Some(W.ExecuteArrives(s.c.log.sent[n])) else None
    case DeliverCancel(command, clean, _) => Some(W.CancelArrives(command, clean))
    case Workload(event, _) => Some(event)
  }

  ghost predicate EndsHere(s: System, e: Event, t: W.Terminal) {
    EventOf(s, e).Some? && WO.EndsAs(s.w, EventOf(s, e).value, t)
  }

  /** Some step of `run` ends an execution at the workload as `t` says. */
  ghost predicate EndedIn(cfg: Config, s: System, run: seq<Event>, t: W.Terminal)
    requires CanRun(cfg, s, run)
    decreases |run|
  {
    run != [] && (EndsHere(s, run[0], t) || EndedIn(cfg, Step(cfg, s, run[0]), run[1..], t))
  }

  lemma {:induction false} StepHolds(cfg: Config, s: System, e: Event, t: W.Terminal)
    requires WorkloadOk(s.w) && CanStep(cfg, s, e) && WO.Held(Step(cfg, s, e).w, t)
    ensures WO.Held(s.w, t) || EndsHere(s, e, t)
  {
    match e {
      case Control(_) =>
      case Deliver(n, at) => WO.StepHolds(cfg.workload, s.w, at, W.ExecuteArrives(s.c.log.sent[n]), t);
      case DeliverCancel(command, clean, at) => WO.StepHolds(cfg.workload, s.w, at, W.CancelArrives(command, clean), t);
      case Workload(event, at) => WO.StepHolds(cfg.workload, s.w, at, event, t);
    }
  }

  /** The control service has noted that the workload answered bundle `b` with `reply`. */
  ghost predicate Noted(c: C.State, b: Bundle, reply: C.Reply) {
    C.WorkloadReplied(b, reply) in c.log.facts
  }

  /** A result at the workload that reads as `reply` to bundle `b`. */
  ghost predicate Behind(t: W.Terminal, b: Bundle, reply: C.Reply) {
    t.bundle == b && Says(reply, t.outcome)
  }

  lemma {:induction false} HeardIsHeld(cfg: C.Config, s: System, e: C.Event, b: Bundle, reply: C.Reply) returns (t: W.Terminal)
    requires Inv(s) && C.Enabled(cfg, s.c, e) && Heard(cfg, s, e) && Terminal(reply)
    requires CL.Learns(cfg, s.c, e, C.WorkloadReplied(b, reply))
    ensures WO.Held(s.w, t) && Behind(t, b, reply)
  {
    var n := s.c.queue.run.job;
    var i, told :| Told(s, n, i, told) && Says(reply, told.outcome);
    t := told;
    assert s.w.log.answers[i] == W.Told(t);
    assert s.c.log.sent[n] == b by {
      assert CS.RunOk(s.c.memory, s.c.queue.run, s.c.log.facts, s.c.log.sent);
    }
  }

  lemma {:induction false} NewNote(cfg: Config, s: System, step: C.Timed, b: Bundle, reply: C.Reply) returns (t: W.Terminal)
    requires Inv(s) && CanStep(cfg, s, Control(step)) && Terminal(reply)
    requires !Noted(s.c, b, reply) && Noted(C.Step(cfg.control, s.c, step), b, reply)
    ensures WO.Held(s.w, t) && Behind(t, b, reply)
  {
    var r := s.(c := s.c.(now := step.at));
    var fact := C.WorkloadReplied(b, reply);
    var facts := C.Step(cfg.control, s.c, step).log.facts;
    ClockKeeps(s, step.at);
    CL.ReactLearns(cfg.control, r.c, step.event);
    var k :| 0 <= k < |facts| && facts[k] == fact;
    assert k >= |s.c.log.facts|;
    t := HeardIsHeld(cfg.control, r, step.event, b, reply);
  }

  lemma {:induction false} RunTells(cfg: Config, s: System, run: seq<Event>, b: Bundle, reply: C.Reply) returns (t: W.Terminal)
    requires Inv(s) && CanRun(cfg, s, run) && Terminal(reply)
    requires !Noted(s.c, b, reply) && Noted(After(cfg, s, run).c, b, reply)
    ensures Behind(t, b, reply) && (WO.Held(s.w, t) || EndedIn(cfg, s, run, t))
    decreases |run|
  {
    var u := Step(cfg, s, run[0]);
    StepKeeps(cfg, s, run[0]);
    if Noted(u.c, b, reply) {
      t := NewNote(cfg, s, run[0].step, b, reply);
    } else {
      t := RunTells(cfg, u, run[1..], b, reply);
      if WO.Held(u.w, t) {
        StepHolds(cfg, s, run[0], t);
      }
    }
  }

  /** In every run of the two processes: behind a terminal reply that the control service
      has noted stands the end of an execution of that bundle.  A completed one returned; a
      cancelled one had been aborted, threw, and proved its cleanup; a failed one threw, and
      said that the cleanup failed exactly if the proof was missing after an abort, or its
      own error said so. */
  lemma {:induction false} RepliesAreTrue(cfg: Config, controlNow: int, workloadNow: int, run: seq<Event>, b: Bundle, reply: C.Reply)
    requires CanRun(cfg, Init(controlNow, workloadNow), run) && Terminal(reply)
    requires Noted(After(cfg, Init(controlNow, workloadNow), run).c, b, reply)
    ensures exists t :: Behind(t, b, reply) && EndedIn(cfg, Init(controlNow, workloadNow), run, t)
  {
    SH.InitInv(controlNow, workloadNow);
    var t := RunTells(cfg, Init(controlNow, workloadNow), run, b, reply);
  }

  /** An execution of bundle `b` that was aborted, threw, and proved its cleanup. */
  ghost predicate CleanedUp(s: System, e: Event, b: Bundle) {
    && e.Workload? && e.event.ExecutionEnds? && e.event.attemptId in s.w.runs.active
    && var x := s.w.runs.active[e.event.attemptId];
    x.bundle == b && x.aborted && e.event.ended.Threw? && e.event.ended.cleanupVerified
  }

  ghost predicate CleanedUpIn(cfg: Config, s: System, run: seq<Event>, b: Bundle)
    requires CanRun(cfg, s, run)
    decreases |run|
  {
    run != [] && (CleanedUp(s, run[0], b) || CleanedUpIn(cfg, Step(cfg, s, run[0]), run[1..], b))
  }

  lemma {:induction false} CancelledIsCleanedUp(cfg: Config, s: System, run: seq<Event>, b: Bundle, t: W.Terminal)
    requires CanRun(cfg, s, run) && EndedIn(cfg, s, run, t) && t.bundle == b && t.outcome == W.CancelledClean
    ensures CleanedUpIn(cfg, s, run, b)
    decreases |run|
  {
    if !EndsHere(s, run[0], t) {
      CancelledIsCleanedUp(cfg, Step(cfg, s, run[0]), run[1..], b, t);
    }
  }

  /** So a job that is cancelled on the workload's word alone was really cleaned up. */
  lemma {:induction false} CancelledByReplyIsClean(cfg: Config, controlNow: int, workloadNow: int, run: seq<Event>, a: AttemptId)
    requires CanRun(cfg, Init(controlNow, workloadNow), run)
    ensures var c := After(cfg, Init(controlNow, workloadNow), run).c;
      a in c.memory.index && C.Has(c.memory, c.memory.index[a]) ==>
        var job := C.Get(c.memory, c.memory.index[a]);
        job.status == C.Cancelled && job.proof.ByReply? ==> CleanedUpIn(cfg, Init(controlNow, workloadNow), run, job.bundle)
  {
    var s := Init(controlNow, workloadNow);
    var c := After(cfg, s, run).c;
    SH.InitInv(controlNow, workloadNow);
    SH.RunKeeps(cfg, s, run);
    if a in c.memory.index && C.Has(c.memory, c.memory.index[a]) {
      var job := C.Get(c.memory, c.memory.index[a]);
      if job.status == C.Cancelled && job.proof.ByReply? {
        var reply := C.TerminalCancelled(true);
        assert CS.CancelProof(c.log.facts, job.bundle, job.proof);
        RepliesAreTrue(cfg, controlNow, workloadNow, run, job.bundle, reply);
        var t :| Behind(t, job.bundle, reply) && EndedIn(cfg, s, run, t);
        CancelledIsCleanedUp(cfg, s, run, job.bundle, t);
      }
    }
  }
}
