/** Mutual exclusion of the setup lock: what it rests on, and what happens without it. */
module SetupLockSafety {
  import opened SandboxTypes
  import opened SetupLockModel

  // ---- the environment ----------------------------------------------------

  /** Owner states are truthful: a process reported dead has exited. */
  ghost predicate Truthful(s: State, e: Event)
    requires Enabled(s, e)
  {
    e.Judges? && e.verdict.Dead? && s.procs[e.p].read.Some? ==> s.procs[e.p].read.value in s.dead
  }

  /** No contender renames a directory other than the one it read: nobody else has
      reclaimed that one and made a new one in between. */
  ghost predicate NoStaleRename(s: State, e: Event)
    requires Enabled(s, e)
  {
    e.Renames? && s.lock.Some? ==> s.procs[e.p].seen == Some(s.lock.value.id)
  }

  /** A contender that found no owner judges the directory too old only when no live process
      is in it: whoever has made it writes its record, and whoever holds it refreshes it,
      within the grace window. */
  ghost predicate Prompt(cfg: Config, s: State, e: Event)
    requires Enabled(s, e)
  {
    e.Judges? && s.procs[e.p].read.None? && s.lock.Some? ==>
      forall q :: At(s, q) && (Holds(s, q) || s.procs[q].Writing?) && s.procs[q].dir == s.lock.value.id ==>
        s.now - s.lock.value.touched < cfg.graceMs
  }

  ghost predicate Fair(cfg: Config, s: State, step: Timed)
    requires CanStep(s, step)
  {
    var t := s.(now := step.at);
    Truthful(t, step.event) && NoStaleRename(t, step.event) && Prompt(cfg, t, step.event)
  }

  ghost predicate FairRun(cfg: Config, s: State, run: seq<Timed>)
    decreases |run|
  {
    run == [] || (CanStep(s, run[0]) && Fair(cfg, s, run[0]) && FairRun(cfg, Step(cfg, s, run[0]), run[1..]))
  }

  // ---- invariants ---------------------------------------------------------

  /** Live process `p` owns the directory `id`, or has just made it. */
  ghost predicate In(s: State, p: Proc, id: nat) {
    At(s, p) && ((Holds(s, p) && s.procs[p].dir == id) || s.procs[p] == Writing(id))
  }

  /** No live process owns or is about to own the directory `id`. */
  ghost predicate Abandoned(s: State, id: nat) {
    forall p :: !In(s, p, id)
  }

  /** Directory `id` is nobody's but `q`'s, who has written its record. */
  ghost predicate OnlyOf(s: State, q: Proc, id: nat) {
    forall p :: In(s, p, id) ==> p == q && !s.procs[p].Writing?
  }

  ghost predicate HolderOk(s: State, p: Proc) {
    && (Holds(s, p) ==> Owns(s.lock, p) && s.lock.value.id == s.procs[p].dir)
    && (At(s, p) && s.procs[p].Writing? ==> s.lock.Some? && s.lock.value.id == s.procs[p].dir && s.lock.value.owner.None?)
  }

  ghost predicate ReclaimerOk(s: State, pc: Pc) {
    && (pc.Judging? && pc.seen.Some? ==> pc.seen.value < s.nextDir)
    && (pc.Judging? && pc.read.Some? ==> pc.seen.Some? && OnlyOf(s, pc.read.value, pc.seen.value))
    && (pc.Renaming? && pc.seen.Some? ==> pc.seen.value < s.nextDir && Abandoned(s, pc.seen.value))
  }

  ghost predicate LockOk(s: State) {
    s.lock.Some? ==>
      && s.lock.value.id < s.nextDir
      && (s.lock.value.owner.Some? ==> OnlyOf(s, s.lock.value.owner.value, s.lock.value.id))
      && forall p, q :: In(s, p, s.lock.value.id) && In(s, q, s.lock.value.id) ==> p == q
  }

  ghost predicate Inv(s: State) {
    && LockOk(s)
    && (forall p :: p in s.procs ==> HolderOk(s, p))
    && (forall p :: At(s, p) ==> ReclaimerOk(s, s.procs[p]))
  }

  /** Whoever is in a directory is in the one that has the path. */
  lemma {:induction false} InIsLocked(s: State, p: Proc, id: nat)
    requires Inv(s) && In(s, p, id)
    ensures s.lock.Some? && s.lock.value.id == id
  {
  }

  /** Nobody enters a directory that is not new. */
  ghost predicate Leaves(s: State, t: State, p: Proc) {
    && s.nextDir <= t.nextDir
    && (forall q: Proc, id: nat :: In(t, q, id) ==> (In(s, q, id) && (t.procs[q].Writing? ==> s.procs[q].Writing?)) || id >= s.nextDir)
    && (forall q :: At(t, q) && q != p ==> At(s, q) && t.procs[q] == s.procs[q])
  }

  lemma {:induction false} ReclaimersStay(s: State, t: State, p: Proc)
    requires Inv(s) && Leaves(s, t, p)
    requires At(t, p) ==> ReclaimerOk(t, t.procs[p])
    ensures forall q :: At(t, q) ==> ReclaimerOk(t, t.procs[q])
  {
  }

  /** `t` differs from `s` in process `p` only, and `p` is in no directory. */
  ghost predicate StepsAside(s: State, t: State, p: Proc) {
    && t.lock == s.lock && t.nextDir == s.nextDir
    && (At(t, p) ==> !Holds(t, p) && !t.procs[p].Writing?)
    && (forall q :: q in t.procs && q != p ==> q in s.procs && t.procs[q] == s.procs[q])
    && (forall q :: At(t, q) && q != p ==> At(s, q))
  }

  lemma {:induction false} AsideKeeps(s: State, t: State, p: Proc)
    requires Inv(s) && StepsAside(s, t, p)
    ensures LockOk(t) && Leaves(s, t, p) && forall q :: q in t.procs ==> HolderOk(t, q)
  {
    assert forall q: Proc, id: nat :: In(t, q, id) ==> In(s, q, id);
    forall q | q in t.procs && q != p
      ensures HolderOk(t, q)
    {
      assert HolderOk(s, q);
    }
  }

  lemma {:induction false} QuietKeeps(s: State, t: State, p: Proc)
    requires Inv(s) && StepsAside(s, t, p)
    requires At(t, p) ==> ReclaimerOk(t, t.procs[p])
    ensures Inv(t)
  {
    AsideKeeps(s, t, p);
    ReclaimersStay(s, t, p);
  }

  lemma {:induction false} MakeKeeps(s: State, p: Proc)
    requires Inv(s) && At(s, p) && s.procs[p].Making?
    ensures Inv(Make(s, p))
  {
    var t := Make(s, p);
    if s.lock.None? {
      forall q: Proc, id: nat | In(s, q, id)
        ensures false
      {
        InIsLocked(s, q, id);
      }
      forall q | q in t.procs && q != p
        ensures HolderOk(t, q)
      {
        assert HolderOk(s, q);
      }
      ReclaimersStay(s, t, p);
    } else {
      QuietKeeps(s, t, p);
    }
  }

  /** Nobody but `p` was in a directory, and only `p` moved. */
  lemma {:induction false} NobodyElse(s: State, t: State, p: Proc)
    requires forall q: Proc, id: nat :: In(s, q, id) ==> q == p
    requires forall q :: q in t.procs && q != p ==> q in s.procs && t.procs[q] == s.procs[q] && (At(t, q) ==> At(s, q))
    ensures forall q: Proc, id: nat :: In(t, q, id) ==> q == p
    ensures forall q :: q in t.procs && q != p ==> HolderOk(t, q)
  {
    forall q: Proc, id: nat | In(t, q, id)
      ensures q == p
    {
      if q != p { assert In(s, q, id); }
    }
    forall q | q in t.procs && q != p
      ensures HolderOk(t, q)
    {
      if Holds(t, q) || (At(t, q) && t.procs[q].Writing?) {
        assert In(t, q, t.procs[q].dir);
      }
    }
  }

  lemma {:induction false} WriteKeeps(s: State, p: Proc, ok: bool)
    requires Inv(s) && At(s, p) && s.procs[p].Writing?
    ensures Inv(Write(s, p, s.procs[p].dir, ok))
  {
    var dir := s.procs[p].dir;
    var t := Write(s, p, dir, ok);
    assert HolderOk(s, p) && In(s, p, dir);
    forall q: Proc, id: nat | In(s, q, id)
      ensures q == p && id == dir
    {
      InIsLocked(s, q, id);
    }
    NobodyElse(s, t, p);
    forall q | At(s, q) && q != p
      ensures ReclaimerOk(t, s.procs[q])
    {
      assert ReclaimerOk(s, s.procs[q]);
    }
  }

  lemma {:induction false} ReadKeeps(s: State, p: Proc)
    requires Inv(s) && At(s, p) && s.procs[p].Reading?
    ensures Inv(Read(s, p))
  {
    var t := Read(s, p);
    AsideKeeps(s, t, p);
    QuietKeeps(s, t, p);
  }

  lemma {:induction false} JudgeKeeps(cfg: Config, s: State, p: Proc, verdict: OwnerState)
    requires Inv(s) && At(s, p) && s.procs[p].Judging? && Truthful(s, Judges(p, verdict)) && Prompt(cfg, s, Judges(p, verdict))
    ensures Inv(Judge(cfg, s, p, s.procs[p].read, s.procs[p].seen, verdict))
  {
    var pc := s.procs[p];
    var t := Judge(cfg, s, p, pc.read, pc.seen, verdict);
    assert ReclaimerOk(s, pc);
    if t.procs[p].Renaming? && pc.seen.Some? {
      forall q | In(s, q, pc.seen.value)
        ensures false
      {
        InIsLocked(s, q, pc.seen.value);
      }
    }
    ReclaimersStay(s, t, p);
  }

  lemma {:induction false} RenameKeeps(s: State, p: Proc)
    requires Inv(s) && At(s, p) && s.procs[p].Renaming? && NoStaleRename(s, Renames(p))
    ensures Inv(Rename(s, p))
  {
    var t := Rename(s, p);
    assert ReclaimerOk(s, s.procs[p]);
    forall q: Proc, id: nat | In(s, q, id)
      ensures false
    {
      InIsLocked(s, q, id);
    }
    NobodyElse(s, t, p);
    ReclaimersStay(s, t, p);
  }

  /** A holder refreshes or gives up what it holds. */
  lemma {:induction false} HolderKeeps(cfg: Config, s: State, e: Event)
    requires Inv(s) && Enabled(s, e) && (e.BeatReads? || e.BeatWrites? || e.ReleaseReads?)
    ensures Inv(React(cfg, s, e))
  {
    assert HolderOk(s, e.p);
    ReclaimersStay(s, React(cfg, s, e), e.p);
  }

  lemma {:induction false} ReleaseKeeps(s: State, p: Proc)
    requires Inv(s) && At(s, p) && s.procs[p].Unlinking?
    ensures Inv(ReleaseRename(s, p))
  {
  }

  lemma {:induction false} ClockKeeps(s: State, at: int)
    requires Inv(s)
    ensures Inv(s.(now := at))
  {
    var t := s.(now := at);
    assert forall q: Proc, id: nat :: In(t, q, id) ==> In(s, q, id);
    forall q | At(t, q)
      ensures ReclaimerOk(t, t.procs[q])
    {
      assert ReclaimerOk(s, s.procs[q]);
    }
    forall q | q in t.procs
      ensures HolderOk(t, q)
    {
      assert HolderOk(s, q);
    }
  }

  lemma {:induction false} ReactKeeps(cfg: Config, s: State, e: Event)
    requires Inv(s) && Enabled(s, e) && Truthful(s, e) && NoStaleRename(s, e) && Prompt(cfg, s, e)
    ensures Inv(React(cfg, s, e))
  {
    match e {
      case Makes(p) => MakeKeeps(s, p);
      case Writes(p, ok) => WriteKeeps(s, p, ok);
      case Reads(p) => ReadKeeps(s, p);
      case Judges(p, verdict) => JudgeKeeps(cfg, s, p, verdict);
      case Renames(p) => RenameKeeps(s, p);
      case ReleaseRenames(p) => ReleaseKeeps(s, p);
      case Starts(p) => QuietKeeps(s, To(s, p, Making), p);
      case GivesUp(p) => QuietKeeps(s, To(s, p, Over), p);
      case Dies(p) => QuietKeeps(s, s.(dead := s.dead + {p}), p);
      case _ => HolderKeeps(cfg, s, e);
    }
  }

  lemma {:induction false} StepKeeps(cfg: Config, s: State, step: Timed)
    requires Inv(s) && CanStep(s, step) && Fair(cfg, s, step)
    ensures Inv(Step(cfg, s, step))
  {
    ClockKeeps(s, step.at);
    ReactKeeps(cfg, s.(now := step.at), step.event);
  }

  lemma {:induction false} RunKeeps(cfg: Config, s: State, run: seq<Timed>)
    requires Inv(s) && FairRun(cfg, s, run)
    ensures CanRun(cfg, s, run) && Inv(After(cfg, s, run))
    decreases |run|
  {
    if run != [] {
      StepKeeps(cfg, s, run[0]);
      RunKeeps(cfg, Step(cfg, s, run[0]), run[1..]);
    }
  }

  /** Over every interleaving of the calls at most one process is between acquire and
      release. */
  lemma {:induction false} Exclusion(cfg: Config, now: int, run: seq<Timed>, p: Proc, q: Proc)
    requires FairRun(cfg, Init(now), run)
    ensures CanRun(cfg, Init(now), run)
    ensures var s := After(cfg, Init(now), run); Holds(s, p) && Holds(s, q) ==> p == q
  {
    RunKeeps(cfg, Init(now), run);
    var s := After(cfg, Init(now), run);
    if Holds(s, p) && Holds(s, q) {
      assert HolderOk(s, p) && HolderOk(s, q);
    }
  }
}
