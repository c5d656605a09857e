/** Exactly when the CodeAct reaper can take the container of an execution under way, and
    when a command can be run again. */
module CodeActLimits {
  import opened SandboxTypes
  import opened CodeActModel
  import opened CodeActSafety

  // ---- runs ---------------------------------------------------------------

  /** Event `e` at time `at`, then `run`. */
  lemma {:induction false} RunsOn(cfg: Config, s: State, step: Timed, run: seq<Timed>)
    requires CanStep(s, step) && CanRun(cfg, Step(cfg, s, step), run)
    ensures CanRun(cfg, s, [step] + run) && After(cfg, s, [step] + run) == After(cfg, Step(cfg, s, step), run)
    ensures !Overlaps(cfg, s, step) && Apart(cfg, Step(cfg, s, step), run) ==> Apart(cfg, s, [step] + run)
  {
    assert ([step] + run)[0] == step && ([step] + run)[1..] == run;
  }

  // ---- losing a container -------------------------------------------------

  /** Without any further overlap the reaper comes to choose the container of an
      execution under way. */
  ghost predicate CanLose(cfg: Config, s: State) {
    exists run :: CanRun(cfg, s, run) && Apart(cfg, s, run) && Loses(After(cfg, s, run))
  }

  lemma {:induction false} LosesLater(cfg: Config, s: State, at: int, e: Event)
    requires s.now <= at && Enabled(s.(now := at), e) && !e.ExecuteResumes?
    requires CanLose(cfg, React(cfg, s.(now := at), e))
    ensures CanLose(cfg, s)
  {
    var step := Timed(at, e);
    var t := Step(cfg, s, step);
    var run :| CanRun(cfg, t, run) && Apart(cfg, t, run) && Loses(After(cfg, t, run));
    RunsOn(cfg, s, step, run);
  }

  function Resting(s: State, ready: bool): State {
    s.(ready := ready, pass := NoPass)
  }

  lemma {:induction false} LookRests(cfg: Config, s: State)
    requires s.pass.Sweeping? && s.pass.todo != []
    ensures var t := Look(cfg, s);
      && (forall ready :: Resting(t, ready) == Resting(s, ready))
      && (t.pass.Sweeping? ==> t.pass.todo == s.pass.todo[1..]) && !t.pass.Listing?
  {
  }

  /** Whatever pass is under way can end without touching a container. */
  lemma {:induction false} PassCanEnd(cfg: Config, s: State)
    requires forall ready :: CanLose(cfg, Resting(s, ready))
    ensures CanLose(cfg, s)
    decreases if s.pass.Sweeping? then |s.pass.todo| else 0, if s.pass.Sweeping? then 1 else 0
  {
    assert s.(now := s.now) == s;
    match s.pass {
      case NoPass => assert Resting(s, s.ready) == s;
      case Listing =>
        assert Fail(s) == Resting(s, false);
        LosesLater(cfg, s, s.now, PassLists(false, []));
      case Deleting(_, _, _) =>
        assert Fail(s) == Resting(s, false);
        LosesLater(cfg, s, s.now, PassDeleted(false));
      case Sweeping(todo, startedAt) =>
        if todo == [] {
          assert Fail(s) == Resting(s, false);
          LosesLater(cfg, s, s.now, PassFinishes(false, false));
        } else {
          LookRests(cfg, s);
          PassCanEnd(cfg, Look(cfg, s));
          LosesLater(cfg, s, s.now, PassLooks);
        }
    }
  }

  /** A container of an execution under way that no entry of `active` covers is lost to
      the next pass that finds it old enough. */
  lemma {:induction false} UncoveredIsLost(cfg: Config, s: State, k: nat)
    requires s.pass.NoPass? && k in s.docker.containers
    requires s.docker.containers[k].owner in s.runs.running && s.docker.containers[k].tag !in s.runs.active
    ensures CanLose(cfg, s)
  {
    var created := s.docker.containers[k].createdAt;
    var later := Max(s.now, created + Max(0, cfg.orphanGraceMs));
    var s1 := s.(pass := Listing);
    var s2 := s1.(now := later, pass := Sweeping([k], later));
    var s3 := s2.(pass := Deleting(k, [], later));
    assert [k][1..] == [];
    assert Look(cfg, s2) == s3;
    assert Loses(s3);
    assert CanRun(cfg, s3, []) && Apart(cfg, s3, []) && After(cfg, s3, []) == s3;
    assert s.(now := s.now) == s && s2.(now := later) == s2;
    LosesLater(cfg, s2, later, PassLooks);
    LosesLater(cfg, s1, later, PassLists(true, [k]));
    LosesLater(cfg, s, s.now, PassBegins);
  }

  /** Two executions share an id: the end of the one takes the entry of the other along. */
  lemma {:induction false} SharedIsLost(cfg: Config, s: State, i: Instance, j: Instance)
    requires i in s.runs.running && j in s.runs.running && i != j && s.runs.running[i].id == s.runs.running[j].id
    ensures CanLose(cfg, s)
  {
    var k := s.docker.next;
    var t := Appear(s, j);
    var u := End(t, i);
    assert s.(now := s.now) == s && t.(now := t.now) == t;
    forall ready
      ensures CanLose(cfg, Resting(u, ready))
    {
      UncoveredIsLost(cfg, Resting(u, ready), k);
    }
    PassCanEnd(cfg, u);
    LosesLater(cfg, t, t.now, ExecutionEnds(i));
    LosesLater(cfg, s, s.now, ContainerAppears(j));
  }

  /** From every state that nothing has spoiled so far, an admission can cost an execution
      its container if and only if another execution of the admitted id is still under
      way.  That is the test the handler would have to make. */
  lemma {:induction false} OverlapIsExact(cfg: Config, s: State, step: Timed, c: Command)
    requires Inv(s) && CanStep(s, step) && Admits(cfg, s, step, c)
    ensures CanLose(cfg, Step(cfg, s, step)) <==> StillRuns(s.runs, c.id)
  {
    var t := Step(cfg, s, step);
    var newest := s.runs.next;
    assert t.runs.running == s.runs.running[newest := c];
    if StillRuns(s.runs, c.id) {
      var i :| i in s.runs.running && s.runs.running[i].id == c.id;
      SharedIsLost(cfg, t, i, newest);
    } else {
      StepKeeps(cfg, s, step);
      forall run | CanRun(cfg, t, run) && Apart(cfg, t, run)
        ensures !Loses(After(cfg, t, run))
      {
        RunKeeps(cfg, t, run);
      }
    }
  }

  // ---- running a command again --------------------------------------------

  ghost predicate HasRestart(run: seq<Timed>) {
    exists i :: 0 <= i < |run| && run[i].event.Restart?
  }

  /** Between `s` and `t` the command was admitted, before its id's memory would run out. */
  ghost predicate Again(s: State, t: State, c: Command) {
    exists k :: |s.admissions| <= k < |t.admissions| && t.admissions[k].command == c && t.admissions[k].at < c.expiresAt + MEMORY_MS
  }

  /** The command is refused, now or because its time is over. */
  ghost predicate Refused(s: State, c: Command) {
    Knows(s, c) || s.now >= c.expiresAt + MEMORY_MS
  }

  lemma {:induction false} RefusedStays(cfg: Config, s: State, step: Timed, c: Command)
    requires Refused(s, c) && CanStep(s, step) && !step.event.Restart?
    ensures var t := Step(cfg, s, step);
      Refused(t, c) && !Again(s, t, c) && s.admissions <= t.admissions && (forall k :: |s.admissions| <= k < |t.admissions| ==> t.admissions[k].at == t.now)
  {
    var t := s.(now := step.at);
    if Aside(step.event) {
      AsideMoves(cfg, t, step.event);
    }
  }

  lemma {:induction false} NotAgain(cfg: Config, s: State, run: seq<Timed>, c: Command)
    requires Refused(s, c) && CanRun(cfg, s, run) && OneLife(run)
    ensures Refused(After(cfg, s, run), c) && !Again(s, After(cfg, s, run), c) && s.admissions <= After(cfg, s, run).admissions
    decreases |run|
  {
    if run != [] {
      var t := Step(cfg, s, run[0]);
      RefusedStays(cfg, s, run[0], c);
      assert forall i :: 0 <= i < |run[1..]| ==> run[1..][i] == run[i + 1];
      NotAgain(cfg, t, run[1..], c);
      var u := After(cfg, t, run[1..]);
      forall k | |s.admissions| <= k < |u.admissions| && u.admissions[k].command == c
        ensures u.admissions[k].at >= c.expiresAt + MEMORY_MS
      {
        if k < |t.admissions| {
          assert u.admissions[k] == t.admissions[k];
        }
      }
    }
  }

  /** A ready executor without memory admits the command. */
  lemma {:induction false} ReadyAdmits(cfg: Config, s: State, c: Command) returns (run: seq<Timed>)
    requires s.ready && s.runs.active == map[] && s.runs.seen == map[] && Timely(c, s.now) && cfg.maxActive >= 1
    ensures CanRun(cfg, s, run) && Again(s, After(cfg, s, run), c)
  {
    var arrives, resumes := Timed(s.now, ExecuteArrives(c)), Timed(s.now, ExecuteResumes(s.nextHandler));
    assert s.(now := s.now) == s;
    var t := Step(cfg, s, arrives);
    assert t.waiting[s.nextHandler] == Waiting(c, s.now) && t.(now := t.now) == t;
    var u := Step(cfg, t, resumes);
    assert u.admissions == s.admissions + [Admission(c, s.now, s.now, s.runs.next)];
    assert u.admissions[|s.admissions|].command == c;
    assert CanRun(cfg, u, []) && After(cfg, u, []) == u;
    RunsOn(cfg, t, resumes, []);
    RunsOn(cfg, s, arrives, [resumes] + []);
    run := [arrives] + ([resumes] + []);
  }

  /** A restart, an empty pass, and the command again. */
  lemma {:induction false} RestartAdmits(cfg: Config, s: State, c: Command) returns (run: seq<Timed>)
    requires Timely(c, s.now) && cfg.maxActive >= 1
    ensures CanRun(cfg, s, run) && HasRestart(run) && Again(s, After(cfg, s, run), c)
  {
    var at, s1 := s.now, Restarted(s);
    var s2, s3 := s1.(pass := Listing), s1.(pass := Sweeping([], s.now));
    var s4 := s1.(ready := true);
    assert s.(now := at) == s && s1.(now := at) == s1 && s2.(now := at) == s2 && s3.(now := at) == s3;
    var rest := ReadyAdmits(cfg, s4, c);
    RunsOn(cfg, s3, Timed(at, PassFinishes(true, false)), rest);
    rest := [Timed(at, PassFinishes(true, false))] + rest;
    RunsOn(cfg, s2, Timed(at, PassLists(true, [])), rest);
    rest := [Timed(at, PassLists(true, []))] + rest;
    RunsOn(cfg, s1, Timed(at, PassBegins), rest);
    rest := [Timed(at, PassBegins)] + rest;
    RunsOn(cfg, s, Timed(at, Event.Restart), rest);
    run := [Timed(at, Event.Restart)] + rest;
    assert run[0].event.Restart?;
  }

  /** Replay refusal is exactly the memory of the process: take any admission, any run
      after it without a restart at whose end the command is still in time, and any
      continuation.  The same command can be admitted again, before the memory of its id
      would run out, in a continuation with a restart and in no other. */
  lemma {:induction false} RestartForgets(cfg: Config, s: State, step: Timed, since: seq<Timed>, c: Command, restart: bool)
    requires CanStep(s, step) && Admits(cfg, s, step, c)
    requires CanRun(cfg, Step(cfg, s, step), since) && OneLife(since)
    requires Timely(c, After(cfg, Step(cfg, s, step), since).now)
    ensures var u := After(cfg, Step(cfg, s, step), since);
      restart <==> exists run :: CanRun(cfg, u, run) && HasRestart(run) == restart && Again(u, After(cfg, u, run), c)
  {
    var t := Step(cfg, s, step);
    var u := After(cfg, t, since);
    TimePasses(cfg, t, since);
    assert Knows(t, c);
    NotAgain(cfg, t, since, c);
    if restart {
      var run := RestartAdmits(cfg, u, c);
    } else {
      forall run | CanRun(cfg, u, run) && !HasRestart(run)
        ensures !Again(u, After(cfg, u, run), c)
      {
        assert OneLife(run);
        NotAgain(cfg, u, run, c);
      }
    }
  }

  lemma {:induction false} TimePasses(cfg: Config, s: State, run: seq<Timed>)
    requires CanRun(cfg, s, run)
    ensures s.now <= After(cfg, s, run).now
    decreases |run|
  {
    if run != [] {
      TimePasses(cfg, Step(cfg, s, run[0]), run[1..]);
    }
  }
}
