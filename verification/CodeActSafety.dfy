/** Capacity, replay refusal and the orphan reaper of the CodeAct executor, over every
    interleaving of admissions, completions and reaper passes. */
module CodeActSafety {
  import opened SandboxTypes
  import opened CodeActModel
  import Distinctness

  // ---- capacity and replay: no assumption ----------------------------------

  /** No restart in the run: the memory of execution ids is one process's. */
  ghost predicate OneLife(run: seq<Timed>) {
    forall i :: 0 <= i < |run| ==> !run[i].event.Restart?
  }

  /** The id of a command is refused until its memory runs out. */
  predicate Knows(s: State, c: Command) {
    c.id in s.runs.seen && s.runs.seen[c.id] >= c.expiresAt + MEMORY_MS
  }

  /** What `seen` still knows of past admissions. */
  ghost predicate SeenOk(s: State) {
    forall k :: 0 <= k < |s.admissions| ==>
      var a := s.admissions[k];
      a.at <= s.now && (a.command.expiresAt + MEMORY_MS <= s.now || Knows(s, a.command))
  }

  /** An execution id is admitted again only when its memory has run out. */
  ghost predicate Spaced(admissions: seq<Admission>) {
    forall i, j :: 0 <= i < j < |admissions| && admissions[i].command.id == admissions[j].command.id ==>
      admissions[j].at >= admissions[i].command.expiresAt + MEMORY_MS
  }

  /** What was checked before the wait for health. */
  ghost predicate Checked(s: State) {
    && (forall id :: id in s.waiting ==> Timely(s.waiting[id].command, s.waiting[id].checkedAt))
    && (forall k :: 0 <= k < |s.admissions| ==> Timely(s.admissions[k].command, s.admissions[k].checkedAt))
  }

  /** Events that touch neither the executor's maps nor its admissions. */
  predicate Aside(e: Event) {
    !e.ExecuteArrives? && !e.ExecuteResumes? && !e.ExecutionEnds? && !e.Restart?
  }

  lemma {:induction false} AsideMoves(cfg: Config, s: State, e: Event)
    requires Enabled(s, e) && Aside(e)
    ensures var t := React(cfg, s, e);
      t.now == s.now && t.runs == s.runs && t.waiting == s.waiting && t.nextHandler == s.nextHandler && t.admissions == s.admissions
  {
  }

  ghost predicate HistoryOk(s: State) {
    SeenOk(s) && Spaced(s.admissions) && Checked(s)
  }

  lemma {:induction false} AdmitHistory(s: State, id: nat)
    requires HistoryOk(s) && id in s.waiting
    requires var c := s.waiting[id].command; !(c.id in s.runs.seen && s.runs.seen[c.id] > s.now)
    ensures HistoryOk(Admit(s.(waiting := s.waiting - {id}), s.waiting[id]))
  {
    var t := Admit(s.(waiting := s.waiting - {id}), s.waiting[id]);
    forall k | 0 <= k < |s.admissions|
      ensures t.admissions[k] == s.admissions[k]
    {
    }
  }

  lemma {:induction false} ResumeHistory(cfg: Config, s: State, id: nat)
    requires HistoryOk(s) && id in s.waiting
    ensures HistoryOk(Resume(cfg, s, id))
  {
    if Decide(cfg, s, s.waiting[id].command).Admitted? {
      AdmitHistory(s, id);
    }
  }

  lemma {:induction false} AdmissionsKeep(cfg: Config, s: State, step: Timed)
    requires HistoryOk(s) && CanStep(s, step) && !step.event.Restart?
    ensures HistoryOk(Step(cfg, s, step))
  {
    var t := s.(now := step.at);
    match step.event {
      case ExecuteArrives(c) =>
      case ExecuteResumes(id) => ResumeHistory(cfg, t, id);
      case ExecutionEnds(i) =>
      case _ => AsideMoves(cfg, t, step.event);
    }
  }

  lemma {:induction false} AdmissionsRun(cfg: Config, s: State, run: seq<Timed>)
    requires HistoryOk(s) && CanRun(cfg, s, run) && OneLife(run)
    ensures HistoryOk(After(cfg, s, run))
    decreases |run|
  {
    if run != [] {
      AdmissionsKeep(cfg, s, run[0]);
      assert forall i :: 0 <= i < |run[1..]| ==> run[1..][i] == run[i + 1];
      AdmissionsRun(cfg, Step(cfg, s, run[0]), run[1..]);
    }
  }

  /** Two admissions of one execution id are at least 60 s past the first command's
      expiry apart, so an identical command is admitted twice only if it waited for
      health longer than that. */
  lemma {:induction false} ReplaysAreSpaced(cfg: Config, now: int, run: seq<Timed>, i: nat, j: nat)
    requires CanRun(cfg, Init(now), run) && OneLife(run)
    requires i < j < |After(cfg, Init(now), run).admissions|
    requires var l := After(cfg, Init(now), run).admissions; l[i].command.id == l[j].command.id
    ensures var l := After(cfg, Init(now), run).admissions;
      && l[j].at >= l[i].command.expiresAt + MEMORY_MS
      && (l[i].command == l[j].command ==> l[j].at - l[j].checkedAt > MEMORY_MS)
  {
    AdmissionsRun(cfg, Init(now), run);
  }

  lemma {:induction false} ResumeBounded(cfg: Config, s: State, id: nat)
    requires |s.runs.active| <= cfg.maxActive && id in s.waiting
    ensures |Resume(cfg, s, id).runs.active| <= cfg.maxActive
  {
  }

  lemma {:induction false} EndBounded(s: State, i: Instance)
    requires i in s.runs.running
    ensures |End(s, i).runs.active| <= |s.runs.active|
  {
  }

  lemma {:induction false} ActiveBounded(cfg: Config, s: State, step: Timed)
    requires |s.runs.active| <= cfg.maxActive && CanStep(s, step)
    ensures |Step(cfg, s, step).runs.active| <= cfg.maxActive
  {
    var t := s.(now := step.at);
    match step.event {
      case ExecuteResumes(id) => ResumeBounded(cfg, t, id);
      case ExecutionEnds(i) => EndBounded(t, i);
      case ExecuteArrives(c) =>
      case Restart =>
      case _ => AsideMoves(cfg, t, step.event);
    }
  }

  /** In every reachable state, restarts included. */
  lemma {:induction false} CapacityHolds(cfg: Config, s: State, run: seq<Timed>)
    requires |s.runs.active| <= cfg.maxActive && CanRun(cfg, s, run)
    ensures |After(cfg, s, run).runs.active| <= cfg.maxActive
    decreases |run|
  {
    if run != [] {
      ActiveBounded(cfg, s, run[0]);
      CapacityHolds(cfg, Step(cfg, s, run[0]), run[1..]);
    }
  }

  // ---- executions with an id of their own ---------------------------------

  /** An execution of this id is under way, on record or not. */
  ghost predicate StillRuns(runs: Runs, id: ExecutionId) {
    exists i :: i in runs.running && runs.running[i].id == id
  }

  /** The step admits a command. */
  predicate Admits(cfg: Config, s: State, step: Timed, c: Command) {
    && step.event.ExecuteResumes? && step.event.id in s.waiting && s.waiting[step.event.id].command == c
    && Decide(cfg, s.(now := step.at), c).Admitted?
  }

  /** The step admits a command while another execution of its id is still under way. */
  ghost predicate Overlaps(cfg: Config, s: State, step: Timed) {
    step.event.ExecuteResumes? && step.event.id in s.waiting &&
    var c := s.waiting[step.event.id].command;
    Admits(cfg, s, step, c) && StillRuns(s.runs, c.id)
  }

  /** As long as nothing overlaps, `active` is exactly what runs. */
  ghost predicate RunsOk(runs: Runs) {
    && (forall i :: i in runs.running ==> i < runs.next)
    && (forall i :: i in runs.running ==> runs.running[i].id in runs.active && runs.active[runs.running[i].id] == i)
    && (forall id :: id in runs.active ==> runs.active[id] in runs.running && runs.running[runs.active[id]].id == id)
  }

  /** The containers of running executions carry their label; the one being deleted
      belongs to none. */
  ghost predicate DockerOk(runs: Runs, docker: Docker) {
    && (forall k :: k in docker.containers ==> k < docker.next && docker.containers[k].owner < runs.next)
    && (forall k :: k in docker.containers && docker.containers[k].owner in runs.running ==>
         runs.running[docker.containers[k].owner].id == docker.containers[k].tag)
  }

  ghost predicate PassOk(runs: Runs, docker: Docker, pass: Pass) {
    pass.Deleting? ==>
      pass.container < docker.next && (pass.container in docker.containers ==> docker.containers[pass.container].owner !in runs.running)
  }

  ghost predicate Inv(s: State) {
    RunsOk(s.runs) && DockerOk(s.runs, s.docker) && PassOk(s.runs, s.docker, s.pass)
  }

  lemma {:induction false} AdmitKeeps(s: State, w: Waiting)
    requires Inv(s) && !StillRuns(s.runs, w.command.id)
    ensures Inv(Admit(s, w))
  {
  }

  lemma {:induction false} LookKeeps(cfg: Config, s: State)
    requires Inv(s) && s.pass.Sweeping? && s.pass.todo != []
    ensures Inv(Look(cfg, s))
  {
  }

  lemma {:induction false} EndKeeps(s: State, i: Instance)
    requires Inv(s) && i in s.runs.running
    ensures Inv(End(s, i))
  {
  }

  lemma {:induction false} AppearKeeps(s: State, i: Instance)
    requires Inv(s) && i in s.runs.running
    ensures Inv(Appear(s, i))
  {
  }

  lemma {:induction false} VanishKeeps(s: State, k: nat)
    requires Inv(s)
    ensures Inv(s.(docker := s.docker.(containers := s.docker.containers - {k})))
  {
  }

  lemma {:induction false} ReactKeeps(cfg: Config, s: State, e: Event)
    requires Inv(s) && Enabled(s, e) && !e.ExecuteResumes?
    ensures Inv(React(cfg, s, e))
  {
    match e {
      case PassLooks => LookKeeps(cfg, s);
      case PassDeleted(_) => VanishKeeps(s, s.pass.container);
      case ExecutionEnds(i) => EndKeeps(s, i);
      case ContainerAppears(i) => AppearKeeps(s, i);
      case ContainerVanishes(k) => VanishKeeps(s, k);
      case _ =>
    }
  }

  lemma {:induction false} StepKeeps(cfg: Config, s: State, step: Timed)
    requires Inv(s) && CanStep(s, step) && !Overlaps(cfg, s, step)
    ensures Inv(Step(cfg, s, step))
  {
    var t := s.(now := step.at);
    if step.event.ExecuteResumes? {
      var id := step.event.id;
      if Decide(cfg, t, t.waiting[id].command).Admitted? {
        AdmitKeeps(t.(waiting := t.waiting - {id}), t.waiting[id]);
      }
    } else {
      ReactKeeps(cfg, t, step.event);
    }
  }

  /** No command is admitted while an execution of its id is under way. */
  ghost predicate Apart(cfg: Config, s: State, run: seq<Timed>)
    decreases |run|
  {
    run == [] ||
    (CanStep(s, run[0]) && !Overlaps(cfg, s, run[0]) && Apart(cfg, Step(cfg, s, run[0]), run[1..]))
  }

  lemma {:induction false} RunKeeps(cfg: Config, s: State, run: seq<Timed>)
    requires Inv(s) && Apart(cfg, s, run)
    ensures CanRun(cfg, s, run) && Inv(After(cfg, s, run))
    decreases |run|
  {
    if run != [] {
      StepKeeps(cfg, s, run[0]);
      RunKeeps(cfg, Step(cfg, s, run[0]), run[1..]);
    }
  }

  /** The container that the reaper has decided to remove belongs to an execution under
      way. */
  ghost predicate Loses(s: State) {
    s.pass.Deleting? && s.pass.container in s.docker.containers && s.docker.containers[s.pass.container].owner in s.runs.running
  }

  /** The reaper never removes the container of an execution under way: neither when it
      decides to, nor at the later moment when the removal takes effect. */
  lemma {:induction false} ReaperSpares(cfg: Config, now: int, run: seq<Timed>)
    requires Apart(cfg, Init(now), run)
    ensures CanRun(cfg, Init(now), run) && !Loses(After(cfg, Init(now), run))
  {
    RunKeeps(cfg, Init(now), run);
  }

  /** As many executions run as `active` has entries, so capacity bounds them too. */
  lemma {:induction false} RunningBounded(cfg: Config, now: int, run: seq<Timed>)
    requires Apart(cfg, Init(now), run)
    ensures CanRun(cfg, Init(now), run) && |After(cfg, Init(now), run).runs.running| <= cfg.maxActive
  {
    RunKeeps(cfg, Init(now), run);
    CapacityHolds(cfg, Init(now), run);
    var r := After(cfg, Init(now), run).runs;
    OneEach(r.active, r.running.Keys);
  }

  /** Instances that are all values of a map are at most its keys. */
  lemma {:induction false} OneEach(active: map<ExecutionId, Instance>, instances: set<Instance>)
    requires forall i :: i in instances ==> exists id :: id in active && active[id] == i
    ensures |instances| <= |active|
    decreases |instances|
  {
    if instances != {} {
      var i :| i in instances;
      var id :| id in active && active[id] == i;
      forall k | k in instances - {i}
        ensures exists other :: other in active - {id} && (active - {id})[other] == k
      {
        var other :| other in active && active[other] == k;
        assert other in active - {id};
      }
      OneEach(active - {id}, instances - {i});
      assert |active - {id}| == |active| - 1 by { assert (active - {id}).Keys == active.Keys - {id}; }
    }
  }

  // ---- executions that end in time ----------------------------------------

  /** Every execution is over before its id may be admitted again. */
  ghost predicate Punctual(s: State, now: int) {
    forall i :: i in s.runs.running ==> now < s.runs.running[i].expiresAt + MEMORY_MS
  }

  ghost predicate InTime(cfg: Config, s: State, run: seq<Timed>)
    decreases |run|
  {
    run == [] ||
    (CanStep(s, run[0]) && Punctual(s, run[0].at) && InTime(cfg, Step(cfg, s, run[0]), run[1..]))
  }

  /** Every execution under way is remembered. */
  ghost predicate AllSeen(s: State) {
    forall i :: i in s.runs.running && s.now < s.runs.running[i].expiresAt + MEMORY_MS ==> Knows(s, s.runs.running[i])
  }

  lemma {:induction false} SeenStays(cfg: Config, s: State, step: Timed)
    requires AllSeen(s) && CanStep(s, step) && !Overlaps(cfg, s, step)
    ensures AllSeen(Step(cfg, s, step))
  {
    var t := s.(now := step.at);
    if step.event.ExecuteResumes? && Decide(cfg, t, t.waiting[step.event.id].command).Admitted? {
      var c := t.waiting[step.event.id].command;
      forall i | i in s.runs.running
        ensures s.runs.running[i].id != c.id
      {
        assert !StillRuns(s.runs, c.id);
      }
    } else if Aside(step.event) {
      AsideMoves(cfg, t, step.event);
    }
  }

  /** Executions that end within the memory of their ids never share one. */
  lemma {:induction false} PunctualIsApart(cfg: Config, s: State, run: seq<Timed>)
    requires AllSeen(s) && InTime(cfg, s, run)
    ensures Apart(cfg, s, run)
    decreases |run|
  {
    if run != [] {
      var step := run[0];
      SeenStays(cfg, s, step);
      PunctualIsApart(cfg, Step(cfg, s, step), run[1..]);
    }
  }
}
