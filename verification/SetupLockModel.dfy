/** The setup lock as a state machine over file system calls.  Several processes make,
    inspect, reclaim, refresh and release one lock directory; each event is one call. */
module SetupLockModel {
  import opened SandboxTypes

  /** A process, and the token of its one acquisition. */
  type Proc = nat

  /** `owner` is the valid owner record in the directory, if there is one. */
  datatype Dir = Dir(id: nat, owner: Option<Proc>, touched: int)

  datatype Pc =
    | Making
    | Writing(dir: nat)
    | Reading
    | Judging(read: Option<Proc>, seen: Option<nat>)
    | Renaming(seen: Option<nat>)
    | Held(dir: nat)
    | Beating(dir: nat)
    | Unlinking(dir: nat)
    | Lost
    | Over

  datatype OwnerState = Active | Dead | Unknown

  /** `dead` are the processes that have exited, by a crash or otherwise. */
  datatype State = State(now: int, lock: Option<Dir>, procs: map<Proc, Pc>, dead: set<Proc>, nextDir: nat)

  datatype Event =
    | Starts(p: Proc)
    | Makes(p: Proc)
    | Writes(p: Proc, ok: bool)
    | Reads(p: Proc)
    | Judges(p: Proc, verdict: OwnerState)
    | Renames(p: Proc)
    | GivesUp(p: Proc)
    | BeatReads(p: Proc)
    | BeatWrites(p: Proc, ok: bool)
    | ReleaseReads(p: Proc)
    | ReleaseRenames(p: Proc)
    | Dies(p: Proc)

  datatype Config = Config(graceMs: int)

  function Init(now: int): State {
    State(now, None, map[], {}, 0)
  }

  function To(s: State, p: Proc, pc: Pc): State {
    s.(procs := s.procs[p := pc])
  }

  predicate Owns(lock: Option<Dir>, p: Proc) {
    lock.Some? && lock.value.owner == Some(p)
  }

  /** `mkdir` succeeds for one process only. */
  function Make(s: State, p: Proc): State {
    if s.lock.None?
    then To(s, p, Writing(s.nextDir)).(lock := Some(Dir(s.nextDir, None, s.now)), nextDir := s.nextDir + 1)
    else To(s, p, Reading)
  }

  /** The owner record lands in whatever directory has the path by now. */
  function Write(s: State, p: Proc, dir: nat, ok: bool): State {
    if ok && s.lock.Some?
    then To(s, p, Held(dir)).(lock := Some(s.lock.value.(owner := Some(p), touched := s.now)))
    else To(s, p, Over).(lock := None)
  }

  function Read(s: State, p: Proc): State {
    match s.lock
    case None => To(s, p, Judging(None, None))
    case Some(dir) => To(s, p, Judging(dir.owner, Some(dir.id)))
  }

  /** A recorded owner is asked after; a directory without one has a grace window. */
  function Judge(cfg: Config, s: State, p: Proc, read: Option<Proc>, seen: Option<nat>, verdict: OwnerState): State {
    if read.Some? then
      if verdict.Dead? then To(s, p, Renaming(seen)) else To(s, p, Over)
    else if s.lock.None? then To(s, p, Making)
    else if s.now - s.lock.value.touched < cfg.graceMs then To(s, p, Over)
    else To(s, p, Renaming(seen))
  }

  /** The rename moves whatever directory has the path by now. */
  function Rename(s: State, p: Proc): State {
    To(s, p, Making).(lock := None)
  }

  function BeatRead(s: State, p: Proc, dir: nat): State {
    if Owns(s.lock, p) then To(s, p, Beating(dir)) else To(s, p, Lost)
  }

  function BeatWrite(s: State, p: Proc, dir: nat, ok: bool): State {
    if ok && s.lock.Some?
    then To(s, p, Held(dir)).(lock := Some(s.lock.value.(owner := Some(p), touched := s.now)))
    else To(s, p, Lost)
  }

  function ReleaseRead(s: State, p: Proc, dir: nat): State {
    if Owns(s.lock, p) then To(s, p, Unlinking(dir)) else To(s, p, Lost)
  }

  function ReleaseRename(s: State, p: Proc): State {
    To(s, p, Over).(lock := None)
  }

  predicate At(s: State, p: Proc) {
    p in s.procs && p !in s.dead
  }

  predicate Enabled(s: State, e: Event) {
    match e
    case Starts(p) => p !in s.procs
    case Makes(p) => At(s, p) && s.procs[p].Making?
    case Writes(p, _) => At(s, p) && s.procs[p].Writing?
    case Reads(p) => At(s, p) && s.procs[p].Reading?
    case Judges(p, _) => At(s, p) && s.procs[p].Judging?
    case Renames(p) => At(s, p) && s.procs[p].Renaming?
    case GivesUp(p) => At(s, p) && s.procs[p].Making?
    case BeatReads(p) => At(s, p) && s.procs[p].Held?
    case BeatWrites(p, _) => At(s, p) && s.procs[p].Beating?
    case ReleaseReads(p) => At(s, p) && s.procs[p].Held?
    case ReleaseRenames(p) => At(s, p) && s.procs[p].Unlinking?
    case Dies(p) => At(s, p)
  }

  function React(cfg: Config, s: State, e: Event): State
    requires Enabled(s, e)
  {
    match e
    case Starts(p) => To(s, p, Making)
    case Makes(p) => Make(s, p)
    case Writes(p, ok) => Write(s, p, s.procs[p].dir, ok)
    case Reads(p) => Read(s, p)
    case Judges(p, verdict) => Judge(cfg, s, p, s.procs[p].read, s.procs[p].seen, verdict)
    case Renames(p) => Rename(s, p)
    case GivesUp(p) => To(s, p, Over)
    case BeatReads(p) => BeatRead(s, p, s.procs[p].dir)
    case BeatWrites(p, ok) => BeatWrite(s, p, s.procs[p].dir, ok)
    case ReleaseReads(p) => ReleaseRead(s, p, s.procs[p].dir)
    case ReleaseRenames(p) => ReleaseRename(s, p)
    case Dies(p) => s.(dead := s.dead + {p})
  }

  datatype Timed = Timed(at: int, event: Event)

  ghost predicate CanStep(s: State, step: Timed) {
    s.now <= step.at && Enabled(s.(now := step.at), step.event)
  }

  function Step(cfg: Config, s: State, step: Timed): State
    requires CanStep(s, step)
  {
    React(cfg, s.(now := step.at), step.event)
  }

  ghost predicate CanRun(cfg: Config, s: State, run: seq<Timed>)
    decreases |run|
  {
    run == [] || (CanStep(s, run[0]) && CanRun(cfg, Step(cfg, s, run[0]), run[1..]))
  }

  ghost function After(cfg: Config, s: State, run: seq<Timed>): State
    requires CanRun(cfg, s, run)
    decreases |run|
  {
    if run == [] then s else After(cfg, Step(cfg, s, run[0]), run[1..])
  }

  /** Process `p` is between acquire and release and has not noticed a loss. */
  predicate Holds(s: State, p: Proc) {
    At(s, p) && (s.procs[p].Held? || s.procs[p].Beating? || s.procs[p].Unlinking?)
  }
}
