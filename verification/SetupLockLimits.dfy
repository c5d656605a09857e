/** Each assumption of the setup lock's exclusion is needed: without it, and with the others
    kept, two processes hold the lock. */
module SetupLockLimits {
  import opened SandboxTypes
  import opened SetupLockModel
  import opened SetupLockSafety

  datatype Assumption = Truth | Freshness | Promptness

  /** Every assumption but `a` holds of the step. */
  ghost predicate FairBut(cfg: Config, s: State, step: Timed, a: Assumption)
    requires CanStep(s, step)
  {
    var t := s.(now := step.at);
    && (a == Truth || Truthful(t, step.event))
    && (a == Freshness || NoStaleRename(t, step.event))
    && (a == Promptness || Prompt(cfg, t, step.event))
  }

  ghost predicate FairRunBut(cfg: Config, s: State, run: seq<Timed>, a: Assumption)
    decreases |run|
  {
    run == [] || (CanStep(s, run[0]) && FairBut(cfg, s, run[0], a) && FairRunBut(cfg, Step(cfg, s, run[0]), run[1..], a))
  }

  /** Along a run that keeps every assumption but `a`. */
  ghost predicate Reaches(cfg: Config, s: State, t: State, a: Assumption) {
    exists run :: CanRun(cfg, s, run) && FairRunBut(cfg, s, run, a) && After(cfg, s, run) == t
  }

  lemma {:induction false} ReachesSelf(cfg: Config, s: State, a: Assumption)
    ensures Reaches(cfg, s, s, a)
  {
    assert CanRun(cfg, s, []) && FairRunBut(cfg, s, [], a) && After(cfg, s, []) == s;
  }

  lemma {:induction false} ReachesLater(cfg: Config, s: State, step: Timed, t: State, a: Assumption)
    requires CanStep(s, step) && FairBut(cfg, s, step, a) && Reaches(cfg, Step(cfg, s, step), t, a)
    ensures Reaches(cfg, s, t, a)
  {
    var u := Step(cfg, s, step);
    var run :| CanRun(cfg, u, run) && FairRunBut(cfg, u, run, a) && After(cfg, u, run) == t;
    var longer := [step] + run;
    assert longer[0] == step && longer[1..] == run;
    assert CanRun(cfg, s, longer) && FairRunBut(cfg, s, longer, a) && After(cfg, s, longer) == t;
  }

  lemma {:induction false} ReachesMore(cfg: Config, s: State, e: Event, t: State, a: Assumption)
    requires Enabled(s, e) && FairBut(cfg, s, Timed(s.now, e), a) && Reaches(cfg, React(cfg, s, e), t, a)
    ensures Reaches(cfg, s, t, a)
  {
    assert s.(now := s.now) == s;
    ReachesLater(cfg, s, Timed(s.now, e), t, a);
  }

  // ---- a first owner ------------------------------------------------------

  /** Process 1 holds the lock at time 0. */
  function Owned(): State {
    State(0, Some(Dir(0, Some(1), 0)), map[1 := Held(0)], {}, 1)
  }

  /** Process 1 has just made its directory. */
  function Made(): State {
    State(0, Some(Dir(0, None, 0)), map[1 := Writing(0)], {}, 1)
  }

  lemma {:induction false} MadeRuns(cfg: Config, t: State, a: Assumption)
    requires Reaches(cfg, Made(), t, a)
    ensures Reaches(cfg, Init(0), t, a)
  {
    var s0, s1 := Init(0), State(0, None, map[1 := Making], {}, 0);
    assert React(cfg, s0, Starts(1)) == s1 && React(cfg, s1, Makes(1)) == Made();
    ReachesMore(cfg, s1, Makes(1), t, a);
    ReachesMore(cfg, s0, Starts(1), t, a);
  }

  lemma {:induction false} OwnedRuns(cfg: Config, t: State, a: Assumption)
    requires Reaches(cfg, Owned(), t, a)
    ensures Reaches(cfg, Init(0), t, a)
  {
    assert React(cfg, Made(), Writes(1, true)) == Owned();
    ReachesMore(cfg, Made(), Writes(1, true), t, a);
    MadeRuns(cfg, t, a);
  }

  // ---- a contender --------------------------------------------------------

  /** `p` has read the directory at the path. */
  function HasRead(s: State, p: Proc): State
    requires s.lock.Some?
  {
    s.(procs := s.procs[p := Judging(s.lock.value.owner, Some(s.lock.value.id))])
  }

  lemma {:induction false} ReadRuns(cfg: Config, s: State, p: Proc, t: State, a: Assumption)
    requires s.lock.Some? && p !in s.procs && p !in s.dead && Reaches(cfg, HasRead(s, p), t, a)
    ensures Reaches(cfg, s, t, a)
  {
    var s1, s2 := s.(procs := s.procs[p := Making]), s.(procs := s.procs[p := Reading]);
    assert s1.procs[p := Reading] == s2.procs && s2.procs[p := Judging(s.lock.value.owner, Some(s.lock.value.id))] == HasRead(s, p).procs;
    ReachesMore(cfg, s2, Reads(p), t, a);
    ReachesMore(cfg, s1, Makes(p), t, a);
    ReachesMore(cfg, s, Starts(p), t, a);
  }

  /** `p` has renamed the directory away, made a new one and recorded itself. */
  function HasTaken(s: State, p: Proc): State {
    s.(lock := Some(Dir(s.nextDir, Some(p), s.now)), procs := s.procs[p := Held(s.nextDir)], nextDir := s.nextDir + 1)
  }

  lemma {:induction false} TakeRuns(cfg: Config, s: State, p: Proc, t: State, a: Assumption)
    requires At(s, p) && s.procs[p].Renaming? && (a == Freshness || NoStaleRename(s, Renames(p)))
    requires Reaches(cfg, HasTaken(s, p), t, a)
    ensures Reaches(cfg, s, t, a)
  {
    var s1 := React(cfg, s, Renames(p));
    var s2 := React(cfg, s1, Makes(p));
    var s3 := React(cfg, s2, Writes(p, true));
    assert s3.procs == HasTaken(s, p).procs;
    assert s.(now := s.now) == s;
    ReachesMore(cfg, s2, Writes(p, true), t, a);
    ReachesMore(cfg, s1, Makes(p), t, a);
    ReachesMore(cfg, s, Renames(p), t, a);
  }

  // ---- without each of them -----------------------------------------------

  /** A live owner is reported dead. */
  lemma {:induction false} FalseReportBothHold(cfg: Config) returns (t: State)
    ensures Reaches(cfg, Init(0), t, Truth) && Holds(t, 1) && Holds(t, 2)
  {
    var s1 := HasRead(Owned(), 2);
    var s2 := React(cfg, s1, Judges(2, Dead));
    t := HasTaken(s2, 2);
    ReachesSelf(cfg, t, Truth);
    TakeRuns(cfg, s2, 2, t, Truth);
    ReachesMore(cfg, s1, Judges(2, Dead), t, Truth);
    ReadRuns(cfg, Owned(), 2, t, Truth);
    OwnedRuns(cfg, t, Truth);
  }

  /** Two contenders reclaim the same dead owner: the second rename takes away the directory
      that the first has made since. */
  lemma {:induction false} TwoReclaimersBothHold(cfg: Config) returns (t: State)
    ensures Reaches(cfg, Init(0), t, Freshness) && Holds(t, 2) && Holds(t, 3)
  {
    var s0 := Owned();
    var s1 := React(cfg, s0, Dies(1));
    var s2 := HasRead(s1, 2);
    var s3 := React(cfg, s2, Judges(2, Dead));
    var s4 := HasRead(s3, 3);
    var s5 := React(cfg, s4, Judges(3, Dead));
    var s6 := HasTaken(s5, 2);
    t := HasTaken(s6, 3);
    ReachesSelf(cfg, t, Freshness);
    TakeRuns(cfg, s6, 3, t, Freshness);
    TakeRuns(cfg, s5, 2, t, Freshness);
    ReachesMore(cfg, s4, Judges(3, Dead), t, Freshness);
    ReadRuns(cfg, s3, 3, t, Freshness);
    ReachesMore(cfg, s2, Judges(2, Dead), t, Freshness);
    ReadRuns(cfg, s1, 2, t, Freshness);
    ReachesMore(cfg, s0, Dies(1), t, Freshness);
    OwnedRuns(cfg, t, Freshness);
  }

  /** A writer slower than the grace window between the directory and its record: the
      contender takes the directory away, and the late record lands in the new one. */
  lemma {:induction false} SlowWriterBothHold(cfg: Config) returns (t: State)
    ensures Reaches(cfg, Init(0), t, Promptness) && Holds(t, 1) && Holds(t, 2)
  {
    var late := Max(0, cfg.graceMs);
    var s1 := HasRead(Made(), 2);
    var s2 := Step(cfg, s1, Timed(late, Judges(2, Unknown)));
    var s3 := HasTaken(s2, 2);
    t := React(cfg, s3, Writes(1, true));
    ReachesSelf(cfg, t, Promptness);
    ReachesMore(cfg, s3, Writes(1, true), t, Promptness);
    TakeRuns(cfg, s2, 2, t, Promptness);
    ReachesLater(cfg, s1, Timed(late, Judges(2, Unknown)), t, Promptness);
    ReadRuns(cfg, Made(), 2, t, Promptness);
    MadeRuns(cfg, t, Promptness);
  }
}
