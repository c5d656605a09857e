/** What each call on the setup lock does, and that the lock never gets stuck. */
module SetupLockAnswers {
  import opened SandboxTypes
  import opened SetupLockModel
  import opened SetupLockSafety

  /** Only process `p` moves, to `pc`, and the directory becomes `lock`. */
  ghost predicate Goes(s: State, t: State, p: Proc, pc: Pc, lock: Option<Dir>) {
    t.procs == s.procs[p := pc] && t.lock == lock && t.dead == s.dead && t.now == s.now
  }

  /** The directory with `p` as its owner, written now. */
  function Signed(s: State, p: Proc): Option<Dir> {
    match s.lock
    case None => None
    case Some(dir) => Some(Dir(dir.id, Some(p), s.now))
  }

  /** To acquire: the directory is made exactly if there is none, and the record written into
      it makes its writer the holder; a failed write takes the directory away again.  A record
      of a dead owner, or a directory without a record that is older than the grace, is moved
      away, and every other one ends the attempt. */
  lemma {:induction false} AcquireIsExact(cfg: Config, s: State, e: Event)
    requires Enabled(s, e) && (e.Makes? || e.Writes? || e.Reads? || e.Judges? || e.Renames?)
    ensures var t := React(cfg, s, e); var p := e.p; var pc := s.procs[p];
      match e
      case Makes(_) =>
        if s.lock.None?
        then Goes(s, t, p, Writing(s.nextDir), Some(Dir(s.nextDir, None, s.now))) && t.nextDir == s.nextDir + 1
        else Goes(s, t, p, Reading, s.lock) && t.nextDir == s.nextDir
      case Writes(_, ok) =>
        if ok && s.lock.Some? then Goes(s, t, p, Held(pc.dir), Signed(s, p)) else Goes(s, t, p, Over, None)
      case Reads(_) =>
        Goes(s, t, p, if s.lock.Some? then Judging(s.lock.value.owner, Some(s.lock.value.id)) else Judging(None, None), s.lock)
      case Judges(_, verdict) =>
        var reclaims := if pc.read.Some? then verdict == Dead else s.lock.Some? && s.now - s.lock.value.touched >= cfg.graceMs;
        var retries := pc.read.None? && s.lock.None?;
        Goes(s, t, p, if reclaims then Renaming(pc.seen) else if retries then Making else Over, s.lock)
      case Renames(_) => Goes(s, t, p, Making, None)
      case _ => false
  {
  }

  /** To keep and to release: a heartbeat and a release go on exactly if the record is still
      the process's own; the heartbeat writes it again, and the release moves the directory
      away; otherwise the lock is lost, and nothing of the directory changes. */
  lemma {:induction false} HoldIsExact(cfg: Config, s: State, e: Event)
    requires Enabled(s, e) && (e.BeatReads? || e.BeatWrites? || e.ReleaseReads? || e.ReleaseRenames?)
    ensures var t := React(cfg, s, e); var p := e.p; var pc := s.procs[p];
      var own := s.lock.Some? && s.lock.value.owner == Some(p);
      match e
      case BeatReads(_) => Goes(s, t, p, if own then Beating(pc.dir) else Lost, s.lock)
      case BeatWrites(_, ok) =>
        if ok && s.lock.Some? then Goes(s, t, p, Held(pc.dir), Signed(s, p)) else Goes(s, t, p, Lost, s.lock)
      case ReleaseReads(_) => Goes(s, t, p, if own then Unlinking(pc.dir) else Lost, s.lock)
      case ReleaseRenames(_) => Goes(s, t, p, Over, None)
      case _ => false
  {
  }

  // ---- the lock never gets stuck --------------------------------------------

  /** Along a run that keeps every assumption. */
  ghost predicate Reaches(cfg: Config, s: State, t: State) {
    exists run :: FairRun(cfg, s, run) && CanRun(cfg, s, run) && After(cfg, s, run) == t
  }

  lemma {:induction false} ReachesSelf(cfg: Config, s: State)
    ensures Reaches(cfg, s, s)
  {
    assert FairRun(cfg, s, []) && CanRun(cfg, s, []) && After(cfg, s, []) == s;
  }

  lemma {:induction false} ReachesLater(cfg: Config, s: State, step: Timed, t: State)
    requires CanStep(s, step) && Fair(cfg, s, step) && Reaches(cfg, Step(cfg, s, step), t)
    ensures Reaches(cfg, s, t)
  {
    var u := Step(cfg, s, step);
    var run :| FairRun(cfg, u, run) && CanRun(cfg, u, run) && After(cfg, u, run) == t;
    var longer := [step] + run;
    assert longer[0] == step && longer[1..] == run;
    assert FairRun(cfg, s, longer) && CanRun(cfg, s, longer) && After(cfg, s, longer) == t;
  }

  lemma {:induction false} ReachesMore(cfg: Config, s: State, e: Event, t: State)
    requires Enabled(s, e) && Fair(cfg, s, Timed(s.now, e)) && Reaches(cfg, React(cfg, s, e), t)
    ensures Reaches(cfg, s, t)
  {
    assert s.(now := s.now) == s;
    ReachesLater(cfg, s, Timed(s.now, e), t);
  }

  /** Every process so far can exit. */
  lemma {:induction false} CanDie(cfg: Config, s: State, t: State)
    requires Reaches(cfg, s.(dead := s.dead + s.procs.Keys), t)
    ensures Reaches(cfg, s, t)
    decreases |s.procs.Keys - s.dead|
  {
    if p :| p in s.procs && p !in s.dead {
      var u := React(cfg, s, Dies(p));
      assert u.procs.Keys - u.dead == (s.procs.Keys - s.dead) - {p};
      assert u.dead + u.procs.Keys == s.dead + s.procs.Keys;
      CanDie(cfg, u, t);
      ReachesMore(cfg, s, Dies(p), t);
    } else {
      assert s.dead + s.procs.Keys == s.dead;
    }
  }

  /** A process that finds no directory makes it, signs it and holds it. */
  lemma {:induction false} CanMake(cfg: Config, s: State, p: Proc) returns (t: State)
    requires At(s, p) && s.procs[p] == Making && s.lock.None?
    ensures Reaches(cfg, s, t) && Holds(t, p)
  {
    var u := React(cfg, s, Makes(p));
    t := React(cfg, u, Writes(p, true));
    ReachesSelf(cfg, t);
    ReachesMore(cfg, u, Writes(p, true), t);
    ReachesMore(cfg, s, Makes(p), t);
  }

  /** One that finds a directory of the dead reads it, waits out the grace if it has no
      record, moves it away and makes its own. */
  lemma {:induction false} CanReclaim(cfg: Config, s: State, p: Proc) returns (t: State)
    requires At(s, p) && s.procs[p] == Making && s.lock.Some?
    requires forall q :: q in s.procs && q != p ==> q in s.dead
    requires s.lock.value.owner.Some? ==> s.lock.value.owner.value in s.dead
    ensures Reaches(cfg, s, t) && Holds(t, p)
  {
    var a := React(cfg, s, Makes(p));
    var b := React(cfg, a, Reads(p));
    var late := if s.now - s.lock.value.touched < cfg.graceMs then s.lock.value.touched + cfg.graceMs else s.now;
    var judged := Timed(late, Judges(p, Dead));
    var c := Step(cfg, b, judged);
    var d := React(cfg, c, Renames(p));
    t := CanMake(cfg, d, p);
    ReachesMore(cfg, c, Renames(p), t);
    ReachesLater(cfg, b, judged, t);
    ReachesMore(cfg, a, Reads(p), t);
    ReachesMore(cfg, s, Makes(p), t);
  }

  /** A record names a process that has started. */
  ghost predicate Recorded(s: State) {
    s.lock.Some? && s.lock.value.owner.Some? ==> s.lock.value.owner.value in s.procs
  }

  lemma {:induction false} RunRecords(cfg: Config, s: State, run: seq<Timed>)
    requires Recorded(s) && CanRun(cfg, s, run)
    ensures Recorded(After(cfg, s, run))
    decreases |run|
  {
    if run != [] {
      RunRecords(cfg, Step(cfg, s, run[0]), run[1..]);
    }
  }

  lemma {:induction false} CanAcquireAlone(cfg: Config, s: State, p: Proc) returns (t: State)
    requires p !in s.procs && p !in s.dead && Recorded(s) && forall q :: q in s.procs ==> q in s.dead
    ensures Reaches(cfg, s, t) && Holds(t, p)
  {
    var u := React(cfg, s, Starts(p));
    if u.lock.None? {
      t := CanMake(cfg, u, p);
    } else {
      t := CanReclaim(cfg, u, p);
    }
    ReachesMore(cfg, s, Starts(p), t);
  }

  lemma {:induction false} RunDead(cfg: Config, s: State, run: seq<Timed>)
    requires s.dead <= s.procs.Keys && CanRun(cfg, s, run)
    ensures After(cfg, s, run).dead <= After(cfg, s, run).procs.Keys
    decreases |run|
  {
    if run != [] {
      RunDead(cfg, Step(cfg, s, run[0]), run[1..]);
    }
  }

  /** Wherever a run leaves the lock, a new process can acquire it as soon as the others have
      exited, whatever they left behind; no assumption has to be broken for that. */
  lemma {:induction false} NeverStuck(cfg: Config, now: int, run: seq<Timed>, p: Proc) returns (t: State)
    requires CanRun(cfg, Init(now), run) && p !in After(cfg, Init(now), run).procs
    ensures Reaches(cfg, After(cfg, Init(now), run), t) && Holds(t, p)
  {
    var s := After(cfg, Init(now), run);
    RunRecords(cfg, Init(now), run);
    RunDead(cfg, Init(now), run);
    var u := s.(dead := s.dead + s.procs.Keys);
    t := CanAcquireAlone(cfg, u, p);
    CanDie(cfg, s, t);
  }
}
