/** The production CodeAct executor as a state machine: admission of signed commands,
    the executions under way, and the reaper of orphaned containers. */
module CodeActModel {
  import opened SandboxTypes

  type ExecutionId = string
  type Instance = nat

  const CLOCK_SKEW_MS: int := 5_000
  const MAX_WINDOW_MS: int := 20 * 60_000
  /** How long an execution id stays refused after its command has expired. */
  const MEMORY_MS: int := 60_000

  datatype Command = Command(id: ExecutionId, issuedAt: int, expiresAt: int, body: string)

  /** The time checks of a command. */
  predicate Timely(c: Command, now: int) {
    c.issuedAt <= now + CLOCK_SKEW_MS && now < c.expiresAt && c.expiresAt - c.issuedAt <= MAX_WINDOW_MS
  }

  /** A container carries the hash of its execution id as a label.  The hash is
      injective, so the model keeps the id; `owner` is history. */
  datatype Container = Container(tag: ExecutionId, createdAt: int, owner: Instance)

  /** Where the reaper's pass is suspended. */
  datatype Pass =
    | NoPass
    | Listing
    | Sweeping(todo: seq<nat>, startedAt: int)
    | Deleting(container: nat, todo: seq<nat>, startedAt: int)

  /** An execute handler that waits for health. */
  datatype Waiting = Waiting(command: Command, checkedAt: int)

  datatype Admission = Admission(command: Command, checkedAt: int, at: int, instance: Instance)

  datatype Docker = Docker(containers: map<nat, Container>, next: nat)

  /** `active` and `seen` are the executor's maps; `running` are the executions that
      really are under way. */
  datatype Runs = Runs(
    active: map<ExecutionId, Instance>,
    seen: map<ExecutionId, int>,
    running: map<Instance, Command>,
    next: Instance)

  datatype State = State(
    now: int,
    runs: Runs,
    docker: Docker,
    ready: bool,
    pass: Pass,
    waiting: map<nat, Waiting>,
    nextHandler: nat,
    admissions: seq<Admission>)

  datatype Config = Config(maxActive: nat, orphanGraceMs: int)

  datatype Event =
    | ExecuteArrives(command: Command)
    | ExecuteResumes(id: nat)
    | ContainerAppears(instance: Instance)
    | ContainerVanishes(container: nat)
    | ExecutionEnds(instance: Instance)
    | PassBegins
    | PassLists(ok: bool, listed: seq<nat>)
    | PassLooks
    | PassDeleted(ok: bool)
    | PassFinishes(ok: bool, remaining: bool)
    | Restart

  function Init(now: int): State {
    State(now, Runs(map[], map[], map[], 0), Docker(map[], 0), false, NoPass, map[], 0, [])
  }

  // ---- admission ----------------------------------------------------------

  datatype Verdict = NotReady | Consumed | Full | Admitted

  function Decide(cfg: Config, s: State, c: Command): Verdict {
    if !s.ready then NotReady
    else if c.id in s.runs.seen && s.runs.seen[c.id] > s.now then Consumed
    else if |s.runs.active| >= cfg.maxActive then Full
    else Admitted
  }

  function Swept(seen: map<ExecutionId, int>, now: int): map<ExecutionId, int> {
    map id | id in seen && seen[id] > now :: seen[id]
  }

  function Arrive(s: State, c: Command): State {
    if Timely(c, s.now)
    then s.(waiting := s.waiting[s.nextHandler := Waiting(c, s.now)], nextHandler := s.nextHandler + 1)
    else s
  }

  function Admit(s: State, w: Waiting): State {
    var c := w.command;
    var i := s.runs.next;
    s.(runs := Runs(s.runs.active[c.id := i], Swept(s.runs.seen[c.id := c.expiresAt + MEMORY_MS], s.now), s.runs.running[i := c], i + 1),
       admissions := s.admissions + [Admission(c, w.checkedAt, s.now, i)])
  }

  function Resume(cfg: Config, s: State, id: nat): State
    requires id in s.waiting
  {
    var w := s.waiting[id];
    var t := s.(waiting := s.waiting - {id});
    if Decide(cfg, s, w.command).Admitted? then Admit(t, w) else t
  }

  /** The `finally` block removes the entry of its execution id, whoever's it is. */
  function End(s: State, i: Instance): State
    requires i in s.runs.running
  {
    s.(runs := s.runs.(active := s.runs.active - {s.runs.running[i].id}, running := s.runs.running - {i}))
  }

  function Appear(s: State, i: Instance): State
    requires i in s.runs.running
  {
    var k := Container(s.runs.running[i].id, s.now, i);
    s.(docker := Docker(s.docker.containers[s.docker.next := k], s.docker.next + 1))
  }

  // ---- the reaper ---------------------------------------------------------

  function Fail(s: State): State {
    s.(ready := false, pass := NoPass)
  }

  /** One look at the head of the list: an active candidate is skipped, a young orphan
      ends the pass, an old one is deleted. */
  function Look(cfg: Config, s: State): State
    requires s.pass.Sweeping? && s.pass.todo != []
  {
    var k := s.pass.todo[0];
    var rest := Sweeping(s.pass.todo[1..], s.pass.startedAt);
    if k !in s.docker.containers then s.(pass := rest)
    else
      var container := s.docker.containers[k];
      if container.tag in s.runs.active then s.(pass := rest)
      else if container.createdAt > 0 && s.pass.startedAt - container.createdAt < cfg.orphanGraceMs then Fail(s)
      else s.(pass := Deleting(k, s.pass.todo[1..], s.pass.startedAt))
  }

  function Deleted(s: State, ok: bool): State
    requires s.pass.Deleting?
  {
    if ok
    then s.(docker := s.docker.(containers := s.docker.containers - {s.pass.container}), pass := Sweeping(s.pass.todo, s.pass.startedAt))
    else Fail(s)
  }

  /** A new process: the containers of the old one are still there. */
  function Restarted(s: State): State {
    s.(runs := Runs(map[], map[], map[], s.runs.next), ready := false, pass := NoPass, waiting := map[])
  }

  predicate Enabled(s: State, e: Event) {
    match e
    case ExecuteArrives(_) => true
    case ExecuteResumes(id) => id in s.waiting
    case ContainerAppears(i) => i in s.runs.running
    case ContainerVanishes(k) => k in s.docker.containers
    case ExecutionEnds(i) => i in s.runs.running
    case PassBegins => s.pass.NoPass?
    case PassLists(ok, listed) => s.pass.Listing? && forall j :: 0 <= j < |listed| ==> listed[j] in s.docker.containers
    case PassLooks => s.pass.Sweeping? && s.pass.todo != []
    case PassDeleted(_) => s.pass.Deleting?
    case PassFinishes(_, _) => s.pass.Sweeping? && s.pass.todo == []
    case Restart => true
  }

  function React(cfg: Config, s: State, e: Event): State
    requires Enabled(s, e)
  {
    match e
    case ExecuteArrives(c) => Arrive(s, c)
    case ExecuteResumes(id) => Resume(cfg, s, id)
    case ContainerAppears(i) => Appear(s, i)
    case ContainerVanishes(k) => s.(docker := s.docker.(containers := s.docker.containers - {k}))
    case ExecutionEnds(i) => End(s, i)
    case PassBegins => s.(pass := Listing)
    case PassLists(ok, listed) => if ok then s.(pass := Sweeping(listed, s.now)) else Fail(s)
    case PassLooks => Look(cfg, s)
    case PassDeleted(ok) => Deleted(s, ok)
    case PassFinishes(ok, remaining) => if ok && !remaining then s.(ready := true, pass := NoPass) else Fail(s)
    case Restart => Restarted(s)
  }

  datatype Timed = Timed(at: int, event: Event)

  ghost predicate CanStep(s: State, step: Timed) {
    s.now <= step.at && Enabled(s.(now := step.at), step.event)
  }

  function Step(cfg: Config, s: State, step: Timed): State
    requires CanStep(s, step)
  {
    React(cfg, s.(now := step.at), step.event)
  }

  ghost predicate CanRun(cfg: Config, s: State, run: seq<Timed>)
    decreases |run|
  {
    run == [] || (CanStep(s, run[0]) && CanRun(cfg, Step(cfg, s, run[0]), run[1..]))
  }

  ghost function After(cfg: Config, s: State, run: seq<Timed>): State
    requires CanRun(cfg, s, run)
    decreases |run|
  {
    if run == [] then s else After(cfg, Step(cfg, s, run[0]), run[1..])
  }
}
