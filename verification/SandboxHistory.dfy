/** What holds of the control service and the workload together over every run. */
module SandboxHistory {
  import opened SandboxTypes
  import opened SandboxSystem
  import C = ControlModel
  import CH = ControlHistory
  import CS = ControlSafety
  import W = WorkloadModel
  import WS = WorkloadSafety

  lemma {:induction false} RunKeeps(cfg: Config, s: System, run: seq<Event>)
    requires Inv(s) && CanRun(cfg, s, run)
    ensures Inv(After(cfg, s, run))
    decreases |run|
  {
    if run != [] {
      StepKeeps(cfg, s, run[0]);
      RunKeeps(cfg, Step(cfg, s, run[0]), run[1..]);
    }
  }

  lemma {:induction false} InitInv(controlNow: int, workloadNow: int)
    ensures Inv(Init(controlNow, workloadNow))
  {
    CH.InitOrderly(controlNow);
  }

  lemma {:induction false} StepDead(cfg: Config, s: System, e: Event, b: Bundle)
    requires Inv(s) && CanStep(cfg, s, e) && WS.Dead(s.w, b)
    ensures WS.Dead(Step(cfg, s, e).w, b)
  {
    StepKeeps(cfg, s, e);
    match e {
      case Control(_) =>
      case Deliver(n, at) => WorkloadSteps(cfg.workload, s.w, at, W.ExecuteArrives(s.c.log.sent[n]));
      case DeliverCancel(command, clean, at) => WorkloadSteps(cfg.workload, s.w, at, W.CancelArrives(command, clean));
      case Workload(event, at) => WorkloadSteps(cfg.workload, s.w, at, event);
    }
  }

  lemma {:induction false} RunDead(cfg: Config, s: System, run: seq<Event>, b: Bundle)
    requires Inv(s) && CanRun(cfg, s, run) && WS.Dead(s.w, b)
    ensures WS.Dead(After(cfg, s, run).w, b)
    decreases |run|
  {
    if run != [] {
      StepDead(cfg, s, run[0], b);
      StepKeeps(cfg, s, run[0]);
      RunDead(cfg, Step(cfg, s, run[0]), run[1..], b);
    }
  }

  /** The control service holds attempt `a` as finished, in memory or on disk. */
  ghost predicate FinishedAs(c: C.State, a: AttemptId, b: Bundle) {
    || (a in c.memory.index && C.Has(c.memory, c.memory.index[a])
        && C.Get(c.memory, c.memory.index[a]).bundle == b && C.Get(c.memory, c.memory.index[a]).status in {C.Completed, C.Cancelled})
    || (a in c.disk && c.disk[a].bundle == b && c.disk[a].status in {C.Completed, C.Cancelled})
  }

  lemma {:induction false} JustifiedIsDead(facts: seq<C.Fact>, w: W.State, b: Bundle, status: C.Status, proof: C.Proof)
    requires FactsDead(facts, w) && CS.Justified(facts, b, status, proof) && status in {C.Completed, C.Cancelled}
    ensures WS.Dead(w, b)
  {
  }

  /** In every run of the two processes: as soon as the control service holds a job
      as completed or cancelled, its candidate is not running at the workload, and
      from then on it never runs again, whatever is delivered late, whichever
      process crashes, and even after the fence has been pruned and the job reaped. */
  lemma {:induction false} FinishedNeverRunsAgain(cfg: Config, controlNow: int, workloadNow: int,
                                                  before: seq<Event>, after: seq<Event>, a: AttemptId, b: Bundle)
    requires CanRun(cfg, Init(controlNow, workloadNow), before)
    requires var s := After(cfg, Init(controlNow, workloadNow), before); FinishedAs(s.c, a, b) && CanRun(cfg, s, after)
    ensures var s := After(cfg, Init(controlNow, workloadNow), before);
      WS.Dead(s.w, b) && WS.Dead(After(cfg, s, after).w, b) && !WS.IsRunning(After(cfg, s, after).w, b)
  {
    var s := After(cfg, Init(controlNow, workloadNow), before);
    InitInv(controlNow, workloadNow);
    RunKeeps(cfg, Init(controlNow, workloadNow), before);
    FinishedIsDead(s, a, b);
    RunDead(cfg, s, after, b);
  }

  lemma {:induction false} FinishedIsDead(s: System, a: AttemptId, b: Bundle)
    requires Inv(s) && FinishedAs(s.c, a, b)
    ensures WS.Dead(s.w, b)
  {
    var m := s.c.memory;
    if a in m.index && C.Get(m, m.index[a]).bundle == b && C.Get(m, m.index[a]).status in {C.Completed, C.Cancelled} {
      JustifiedIsDead(s.c.log.facts, s.w, b, C.Get(m, m.index[a]).status, C.Get(m, m.index[a]).proof);
    } else {
      JustifiedIsDead(s.c.log.facts, s.w, b, s.c.disk[a].status, s.c.disk[a].proof);
    }
  }
}
