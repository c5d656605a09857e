/** The evidence behind the terminal states of the control service, over every run. */
module ControlEvidence {
  import opened SandboxTypes
  import opened ControlModel
  import opened ControlSafety

  lemma {:induction false} RunKeeps(cfg: Config, s: State, run: seq<Timed>)
    requires Inv(s) && CanRun(cfg, s, run)
    ensures Inv(After(cfg, s, run))
    decreases |run|
  {
    if run != [] {
      StepKeeps(cfg, s, run[0]);
      RunKeeps(cfg, Step(cfg, s, run[0]), run[1..]);
    }
  }

  lemma {:induction false} InitInv(now: int)
    ensures Inv(Init(now))
  {
  }

  /** In every run: a cancelled job has an acknowledged fence, a clean cancelled
      receipt, or an empty workload and an absent App verified after the workload's
      word, and a completed job has a complete result followed by the App's absence.
      A repaired job has a fresh repair receipt, then both. */
  lemma {:induction false} TerminalIsProved(cfg: Config, now: int, run: seq<Timed>, a: AttemptId)
    requires CanRun(cfg, Init(now), run)
    ensures var s := After(cfg, Init(now), run);
      a in s.memory.index ==>
        && Has(s.memory, s.memory.index[a])
        && var job := Get(s.memory, s.memory.index[a]);
        && (job.status == Cancelled ==> CancelProof(s.log.facts, job.bundle, job.proof))
        && (job.status == Completed ==> DoneProof(s.log.facts, job.bundle, job.proof))
        && (job.repaired ==> job.status == Cancelled && job.proof.ByRepair? && CancelProof(s.log.facts, job.bundle, job.proof))
  {
    InitInv(now);
    RunKeeps(cfg, Init(now), run);
  }

  lemma {:induction false} RunSnoc(cfg: Config, s: State, run: seq<Timed>, step: Timed)
    requires CanRun(cfg, s, run) && CanStep(cfg, After(cfg, s, run), step)
    ensures CanRun(cfg, s, run + [step]) && After(cfg, s, run + [step]) == Step(cfg, After(cfg, s, run), step)
    decreases |run|
  {
    if run == [] {
      assert [step][1..] == [];
    } else {
      RunSnoc(cfg, Step(cfg, s, run[0]), run[1..], step);
      assert (run + [step])[0] == run[0] && (run + [step])[1..] == run[1..] + [step];
    }
  }
}
