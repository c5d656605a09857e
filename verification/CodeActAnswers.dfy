/** What each event of the CodeAct executor decides and changes, case by case. */
module CodeActAnswers {
  import opened SandboxTypes
  import opened CodeActModel
  import opened CodeActSafety

  /** A command waits for health exactly if it was issued at most 5 s ahead of the clock, has
      not expired, and is valid for at most 20 minutes. */
  lemma {:induction false} ArrivalIsExact(cfg: Config, s: State, c: Command)
    ensures var t := React(cfg, s, ExecuteArrives(c));
      if c.issuedAt - s.now <= 5_000 && c.expiresAt > s.now && c.expiresAt - c.issuedAt <= 1_200_000
      then t == s.(waiting := s.waiting[s.nextHandler := Waiting(c, s.now)], nextHandler := s.nextHandler + 1)
      else t == s
  {
  }

  /** The executor's health is good, the id is not remembered, and there is room. */
  ghost predicate MayRun(cfg: Config, s: State, c: Command) {
    && s.ready
    && (c.id in s.runs.seen ==> s.runs.seen[c.id] <= s.now)
    && |s.runs.active| < cfg.maxActive
  }

  /** The command runs: it is active under its id, its id is remembered for a minute past its
      expiry, and what had run out of the memory is dropped. */
  ghost predicate Started(s: State, t: State, w: Waiting) {
    var c := w.command;
    && t.runs.active == s.runs.active[c.id := s.runs.next]
    && t.runs.running == s.runs.running[s.runs.next := c] && t.runs.next == s.runs.next + 1
    && (forall id :: id in t.runs.seen <==>
         (id == c.id && s.now < c.expiresAt + 60_000) || (id != c.id && id in s.runs.seen && s.now < s.runs.seen[id]))
    && (forall id :: id in t.runs.seen ==> t.runs.seen[id] == if id == c.id then c.expiresAt + 60_000 else s.runs.seen[id])
    && t.admissions == s.admissions + [Admission(c, w.checkedAt, s.now, s.runs.next)]
  }

  /** When the wait for health is over the command runs exactly if it may, and otherwise
      nothing but its handler changes. */
  lemma {:induction false} AdmissionIsExact(cfg: Config, s: State, id: nat)
    requires Enabled(s, ExecuteResumes(id))
    ensures var t := React(cfg, s, ExecuteResumes(id));
      && t.waiting == s.waiting - {id} && t.docker == s.docker && t.ready == s.ready && t.pass == s.pass
      && if MayRun(cfg, s, s.waiting[id].command) then Started(s, t, s.waiting[id])
         else t.runs == s.runs && t.admissions == s.admissions
  {
  }

  /** Which answer a refused command gets, tested in the program's order. */
  lemma {:induction false} RefusalIsExact(cfg: Config, s: State, c: Command)
    ensures Decide(cfg, s, c) == Admitted <==> MayRun(cfg, s, c)
    ensures Decide(cfg, s, c) == NotReady <==> !s.ready
    ensures Decide(cfg, s, c) == Consumed <==> s.ready && c.id in s.runs.seen && s.runs.seen[c.id] > s.now
    ensures Decide(cfg, s, c) == Full <==>
      s.ready && (c.id in s.runs.seen ==> s.runs.seen[c.id] <= s.now) && |s.runs.active| >= cfg.maxActive
  {
  }

  /** The end of an execution removes it and the entry of its id, and nothing else. */
  lemma {:induction false} EndIsExact(cfg: Config, s: State, i: Instance)
    requires Enabled(s, ExecutionEnds(i))
    ensures var t := React(cfg, s, ExecutionEnds(i));
      && t == s.(runs := s.runs.(active := t.runs.active, running := t.runs.running))
      && (forall id :: id in t.runs.active <==> id in s.runs.active && id != s.runs.running[i].id)
      && (forall id :: id in t.runs.active ==> t.runs.active[id] == s.runs.active[id])
      && (forall j :: j in t.runs.running <==> j in s.runs.running && j != i)
      && (forall j :: j in t.runs.running ==> t.runs.running[j] == s.runs.running[j])
  {
  }

  /** The container `k` is an old orphan when the pass that started at `since` sees it. */
  ghost predicate OldOrphan(cfg: Config, s: State, k: nat, since: int) {
    && k in s.docker.containers && s.docker.containers[k].tag !in s.runs.active
    && (s.docker.containers[k].createdAt <= 0 || since - s.docker.containers[k].createdAt >= cfg.orphanGraceMs)
  }

  ghost predicate YoungOrphan(cfg: Config, s: State, k: nat, since: int) {
    k in s.docker.containers && s.docker.containers[k].tag !in s.runs.active && !OldOrphan(cfg, s, k, since)
  }

  /** One look of a reaper's pass deletes the container exactly if it is an old orphan, gives
      up the pass exactly if it is a young one, and passes over it otherwise. */
  lemma {:induction false} LookIsExact(cfg: Config, s: State)
    requires Enabled(s, PassLooks)
    ensures var t := React(cfg, s, PassLooks); var k := s.pass.todo[0]; var since := s.pass.startedAt;
      && t.runs == s.runs && t.docker == s.docker && t.waiting == s.waiting
      && (OldOrphan(cfg, s, k, since) <==> t.pass == Deleting(k, s.pass.todo[1..], since))
      && (YoungOrphan(cfg, s, k, since) <==> t.pass == NoPass && !t.ready)
      && (!OldOrphan(cfg, s, k, since) && !YoungOrphan(cfg, s, k, since) <==> t.pass == Sweeping(s.pass.todo[1..], since))
      && (!YoungOrphan(cfg, s, k, since) ==> t.ready == s.ready)
  {
  }

  /** A container appears under the id of its execution, and one that vanishes leaves the
      others alone; neither touches the executor. */
  lemma {:induction false} ContainersAreExact(cfg: Config, s: State, e: Event)
    requires Enabled(s, e) && (e.ContainerAppears? || e.ContainerVanishes?)
    ensures var t := React(cfg, s, e);
      && t == s.(docker := t.docker)
      && match e
         case ContainerAppears(i) =>
           t.docker == Docker(s.docker.containers[s.docker.next := Container(s.runs.running[i].id, s.now, i)], s.docker.next + 1)
         case ContainerVanishes(k) => t.docker == Docker(s.docker.containers - {k}, s.docker.next)
         case _ => false
  {
  }

  /** A restart forgets everything but the containers, and starts not ready. */
  lemma {:induction false} RestartIsExact(cfg: Config, s: State)
    ensures var t := React(cfg, s, Restart);
      && t.runs.active == map[] && t.runs.seen == map[] && t.runs.running == map[] && t.waiting == map[]
      && !t.ready && t.pass == NoPass && t.docker == s.docker && t.admissions == s.admissions
  {
  }

  /** The rest of a pass: it lists, removes and ends in order; only a pass that found and left
      no orphan makes the executor ready, and any failure makes it not ready. */
  lemma {:induction false} PassIsExact(cfg: Config, s: State, e: Event)
    requires Enabled(s, e) && (e.PassBegins? || e.PassLists? || e.PassDeleted? || e.PassFinishes?)
    ensures var t := React(cfg, s, e);
      && t.runs == s.runs && t.waiting == s.waiting && t.admissions == s.admissions
      && t.docker.containers == (if e.PassDeleted? && e.ok then s.docker.containers - {s.pass.container} else s.docker.containers)
      && match e
         case PassBegins => t.pass == Listing && t.ready == s.ready
         case PassLists(ok, listed) => if ok then t.pass == Sweeping(listed, s.now) && t.ready == s.ready else t.pass == NoPass && !t.ready
         case PassDeleted(ok) =>
           if ok then t.pass == Sweeping(s.pass.todo, s.pass.startedAt) && t.ready == s.ready else t.pass == NoPass && !t.ready
         case PassFinishes(ok, remaining) => t.pass == NoPass && (t.ready <==> ok && !remaining)
         case _ => false
  {
  }

  // ---- readiness is earned --------------------------------------------------

  /** A pass that lets the executor work. */
  predicate Cleans(e: Event) {
    e == PassFinishes(true, false)
  }

  /** A pass that fails, one that leaves an orphan, or a restart. */
  ghost predicate Spoils(cfg: Config, s: State, e: Event) {
    || (e.PassLists? && !e.ok) || (e.PassDeleted? && !e.ok) || (e.PassFinishes? && !Cleans(e)) || e.Restart?
    || (e.PassLooks? && Enabled(s, e) && YoungOrphan(cfg, s, s.pass.todo[0], s.pass.startedAt))
  }

  /** The last of the passes and restarts in `run` that matter was a clean pass. */
  ghost predicate CleanAtEnd(cfg: Config, s: State, run: seq<Timed>, before: bool)
    requires CanRun(cfg, s, run)
    decreases |run|
  {
    if run == [] then before
    else
      var r := s.(now := run[0].at);
      CleanAtEnd(cfg, Step(cfg, s, run[0]), run[1..], Cleans(run[0].event) || (before && !Spoils(cfg, r, run[0].event)))
  }

  lemma {:induction false} ReadyMoves(cfg: Config, s: State, e: Event)
    requires Enabled(s, e)
    ensures React(cfg, s, e).ready <==> Cleans(e) || (s.ready && !Spoils(cfg, s, e))
  {
    match e {
      case ExecuteResumes(id) => AdmissionIsExact(cfg, s, id);
      case PassLooks => LookIsExact(cfg, s);
      case _ =>
    }
  }

  lemma {:induction false} RunReady(cfg: Config, s: State, run: seq<Timed>)
    requires CanRun(cfg, s, run)
    ensures After(cfg, s, run).ready <==> CleanAtEnd(cfg, s, run, s.ready)
    decreases |run|
  {
    if run != [] {
      ReadyMoves(cfg, s.(now := run[0].at), run[0].event);
      RunReady(cfg, Step(cfg, s, run[0]), run[1..]);
    }
  }

  /** Over every run the executor is ready, and admits, exactly if a pass has left no orphan
      since its start and no pass has failed since that one. */
  lemma {:induction false} ReadyIsEarned(cfg: Config, now: int, run: seq<Timed>)
    requires CanRun(cfg, Init(now), run)
    ensures After(cfg, Init(now), run).ready <==> CleanAtEnd(cfg, Init(now), run, false)
  {
    RunReady(cfg, Init(now), run);
  }

  // ---- the executor can always be used again -------------------------------

  ghost predicate Reaches(cfg: Config, s: State, t: State) {
    exists run :: CanRun(cfg, s, run) && OneLife(run) && After(cfg, s, run) == t
  }

  lemma {:induction false} ReachesSelf(cfg: Config, s: State)
    ensures Reaches(cfg, s, s)
  {
    assert CanRun(cfg, s, []) && OneLife([]) && After(cfg, s, []) == s;
  }

  lemma {:induction false} ReachesMore(cfg: Config, s: State, e: Event, t: State)
    requires Enabled(s, e) && !e.Restart? && Reaches(cfg, React(cfg, s, e), t)
    ensures Reaches(cfg, s, t)
  {
    var u := React(cfg, s, e);
    var run :| CanRun(cfg, u, run) && OneLife(run) && After(cfg, u, run) == t;
    var longer := [Timed(s.now, e)] + run;
    assert longer[0] == Timed(s.now, e) && longer[1..] == run;
    assert s.(now := s.now) == s;
    assert CanRun(cfg, s, longer) && After(cfg, s, longer) == t;
  }

  lemma {:induction false} ReachesThen(cfg: Config, s: State, t: State, u: State)
    requires Reaches(cfg, s, t) && Reaches(cfg, t, u)
    ensures Reaches(cfg, s, u)
  {
    var run :| CanRun(cfg, s, run) && OneLife(run) && After(cfg, s, run) == t;
    RunThen(cfg, s, run, u);
  }

  lemma {:induction false} RunThen(cfg: Config, s: State, run: seq<Timed>, u: State)
    requires CanRun(cfg, s, run) && OneLife(run) && Reaches(cfg, After(cfg, s, run), u)
    ensures Reaches(cfg, s, u)
    decreases |run|
  {
    if run != [] {
      var t := Step(cfg, s, run[0]);
      assert forall i :: 0 <= i < |run[1..]| ==> run[1..][i] == run[i + 1];
      RunThen(cfg, t, run[1..], u);
      var rest :| CanRun(cfg, t, rest) && OneLife(rest) && After(cfg, t, rest) == u;
      var longer := [run[0]] + rest;
      assert longer[0] == run[0] && longer[1..] == rest;
      assert CanRun(cfg, s, longer) && After(cfg, s, longer) == u;
    }
  }

  /** Every entry of `active` is of an execution that is under way. */
  ghost predicate ActiveRuns(s: State) {
    && (forall id :: id in s.runs.active ==> s.runs.active[id] in s.runs.running && s.runs.running[s.runs.active[id]].id == id)
    && (forall i :: i in s.runs.running ==> i < s.runs.next)
  }

  lemma {:induction false} ReactActive(cfg: Config, s: State, e: Event)
    requires ActiveRuns(s) && Enabled(s, e)
    ensures ActiveRuns(React(cfg, s, e))
  {
    if Aside(e) {
      AsideMoves(cfg, s, e);
    }
  }

  lemma {:induction false} RunActive(cfg: Config, s: State, run: seq<Timed>)
    requires ActiveRuns(s) && CanRun(cfg, s, run)
    ensures ActiveRuns(After(cfg, s, run))
    decreases |run|
  {
    if run != [] {
      ReactActive(cfg, s.(now := run[0].at), run[0].event);
      RunActive(cfg, Step(cfg, s, run[0]), run[1..]);
    }
  }

  /** Its executions can all end. */
  lemma {:induction false} CanIdle(cfg: Config, s: State) returns (t: State)
    requires ActiveRuns(s)
    ensures Reaches(cfg, s, t) && t.runs.active == map[] && t == s.(runs := t.runs) && t.runs.seen == s.runs.seen
    decreases |s.runs.active|
  {
    if s.runs.active == map[] {
      t := s;
      ReachesSelf(cfg, s);
    } else {
      var id :| id in s.runs.active;
      var e := ExecutionEnds(s.runs.active[id]);
      var u := React(cfg, s, e);
      assert u.runs.active.Keys == s.runs.active.Keys - {id};
      assert |u.runs.active| == |u.runs.active.Keys| && |s.runs.active| == |s.runs.active.Keys|;
      ReactActive(cfg, s, e);
      t := CanIdle(cfg, u);
      ReachesMore(cfg, s, e, t);
    }
  }

  /** A pass under way can come to its end, one way or another. */
  lemma {:induction false} CanRest(cfg: Config, s: State) returns (t: State)
    ensures Reaches(cfg, s, t) && t.pass == NoPass && t.runs == s.runs && t.now == s.now
    decreases if s.pass.Sweeping? then 2 * |s.pass.todo| + 1 else if s.pass.Deleting? then 2 * |s.pass.todo| + 2 else 0
  {
    match s.pass {
      case NoPass =>
        t := s;
        ReachesSelf(cfg, s);
      case Listing =>
        t := React(cfg, s, PassLists(false, []));
        ReachesSelf(cfg, t);
        ReachesMore(cfg, s, PassLists(false, []), t);
      case Sweeping(todo, _) =>
        if todo == [] {
          t := React(cfg, s, PassFinishes(false, false));
          ReachesSelf(cfg, t);
          ReachesMore(cfg, s, PassFinishes(false, false), t);
        } else {
          t := CanRest(cfg, React(cfg, s, PassLooks));
          ReachesMore(cfg, s, PassLooks, t);
        }
      case Deleting(_, todo, _) =>
        t := React(cfg, s, PassDeleted(false));
        ReachesSelf(cfg, t);
        ReachesMore(cfg, s, PassDeleted(false), t);
    }
  }

  /** A pass over an empty list makes the executor ready. */
  lemma {:induction false} CanBeReady(cfg: Config, s: State) returns (t: State)
    requires s.pass == NoPass
    ensures Reaches(cfg, s, t) && t.ready && t.runs == s.runs && t.now == s.now
  {
    var a := React(cfg, s, PassBegins);
    var b := React(cfg, a, PassLists(true, []));
    t := React(cfg, b, PassFinishes(true, false));
    ReachesSelf(cfg, t);
    ReachesMore(cfg, b, PassFinishes(true, false), t);
    ReachesMore(cfg, a, PassLists(true, []), t);
    ReachesMore(cfg, s, PassBegins, t);
  }

  /** From every state that a run reaches, without a restart: any timely command whose id is
      not remembered can still be admitted. */
  lemma {:induction false} CanAdmit(cfg: Config, now: int, run: seq<Timed>, c: Command) returns (t: State)
    requires CanRun(cfg, Init(now), run) && cfg.maxActive >= 1
    requires var s := After(cfg, Init(now), run);
      && c.issuedAt - s.now <= 5_000 && c.expiresAt > s.now && c.expiresAt - c.issuedAt <= 1_200_000
      && (c.id in s.runs.seen ==> s.runs.seen[c.id] <= s.now)
    ensures Reaches(cfg, After(cfg, Init(now), run), t)
    ensures c.id in t.runs.active && t.runs.active[c.id] in t.runs.running && t.runs.running[t.runs.active[c.id]] == c
  {
    var s := After(cfg, Init(now), run);
    RunActive(cfg, Init(now), run);
    var idle := CanIdle(cfg, s);
    var rest := CanRest(cfg, idle);
    var ready := CanBeReady(cfg, rest);
    ReachesThen(cfg, s, idle, rest);
    ReachesThen(cfg, s, rest, ready);
    var id := ready.nextHandler;
    ArrivalIsExact(cfg, ready, c);
    var u := React(cfg, ready, ExecuteArrives(c));
    AdmissionIsExact(cfg, u, id);
    t := React(cfg, u, ExecuteResumes(id));
    ReachesSelf(cfg, t);
    ReachesMore(cfg, u, ExecuteResumes(id), t);
    ReachesMore(cfg, ready, ExecuteArrives(c), t);
    ReachesThen(cfg, s, ready, t);
  }
}
