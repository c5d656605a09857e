/** The supervisor of the one writable SQLite process tree, as a machine driven by child
    exits, signals, timer heartbeats and the outcomes of its own lease calls. */
module WriterSupervisor {
  import opened SandboxTypes

  datatype Phase = Migration | Server

  /** What happened, in order. */
  datatype Note =
    | Spawned(phase: Phase)
    | Exited(phase: Phase, code: int)
    | Errored(phase: Phase)
    | TimerBeat(ok: bool)
    | Beat(ok: bool)
    | Checkpointed
    | Released

  /** Where the main function is suspended. */
  datatype At = Starting | Waiting(phase: Phase) | Ended

  /** `currentChild` is what the program tracks; a child that reported an error stays
      tracked. */
  datatype State = State(
    at: At,
    currentChild: Option<Phase>,
    shutdown: bool,
    heartbeatFailure: bool,
    finalized: bool,
    log: seq<Note>)

  /** The outcomes of the calls in one attempt to hand the lease over. */
  datatype Attempt = Attempt(first: bool, checkpoint: bool, second: bool, release: bool)

  /** `spawn` is false where spawning throws at once. */
  datatype Event =
    | Starts(spawn: bool, again: Attempt)
    | Timer(ok: bool)
    | Signal
    | ChildExits(code: int, beat: bool, spawn: bool, attempt: Attempt, again: Attempt)
    | ChildErrors(again: Attempt)

  /** `server` is false for a migration alone. */
  datatype Config = Config(server: bool)

  function Say(s: State, note: Note): State {
    s.(log := s.log + [note])
  }

  /** The lease is ours until it is released. */
  predicate Held(log: seq<Note>) {
    Released !in log
  }

  function SayBeat(s: State, ok: bool): State {
    Say(s, Beat(ok))
  }

  /** `checkpointAndRelease`: false where it throws. */
  function HandOver(s: State, a: Attempt): (State, bool) {
    if s.heartbeatFailure then (s, false)
    else if !a.first then (SayBeat(s, false), false)
    else if !a.checkpoint then (SayBeat(s, true), false)
    else
      var t := Say(SayBeat(s, true), Checkpointed);
      if !a.second then (SayBeat(t, false), false)
      else if !a.release then (SayBeat(t, true), false)
      else (Say(SayBeat(t, true), Released).(finalized := true), true)
  }

  /** The catch block: one more attempt if ownership is healthy and no child remains. */
  function Caught(s: State, again: Attempt): State {
    var t := s.(at := Ended);
    if !s.heartbeatFailure && s.currentChild.None? && !s.finalized then HandOver(t, again).0 else t
  }

  function Finish(s: State, attempt: Attempt, again: Attempt): State {
    var (t, ok) := HandOver(s, attempt);
    if ok then t.(at := Ended) else Caught(t, again)
  }

  /** From the migration's exit to the server's start. */
  function AfterMigration(cfg: Config, s: State, code: int, beat: bool, spawn: bool, attempt: Attempt, again: Attempt): State {
    if s.heartbeatFailure then Caught(s, again)
    else if s.shutdown || code != 0 || !cfg.server then Finish(s, attempt, again)
    else if !beat then Caught(SayBeat(s, false), again)
    else if !spawn then Caught(SayBeat(s, true), again)
    else Say(SayBeat(s, true), Spawned(Server)).(at := Waiting(Server), currentChild := Some(Server))
  }

  function AfterServer(s: State, attempt: Attempt, again: Attempt): State {
    if s.heartbeatFailure then Caught(s, again) else Finish(s, attempt, again)
  }

  function Init(): State {
    State(Starting, None, false, false, false, [])
  }

  predicate Enabled(s: State, e: Event) {
    match e
    case Starts(_, _) => s.at.Starting?
    case ChildExits(_, _, _, _, _) => s.at.Waiting? && s.currentChild == Some(s.at.phase)
    case ChildErrors(_) => s.at.Waiting?
    case _ => s.at.Waiting?
  }

  function Step(cfg: Config, s: State, e: Event): State
    requires Enabled(s, e)
  {
    match e
    case Starts(spawn, again) =>
      if !spawn then Caught(s, again)
      else Say(s, Spawned(Migration)).(at := Waiting(Migration), currentChild := Some(Migration))
    case Timer(ok) => if s.heartbeatFailure then s else Say(s, TimerBeat(ok)).(heartbeatFailure := !ok)
    case Signal => s.(shutdown := true)
    case ChildExits(code, beat, spawn, attempt, again) =>
      var t := Say(s, Exited(s.at.phase, code)).(currentChild := None);
      if s.at.phase.Migration? then AfterMigration(cfg, t, code, beat, spawn, attempt, again) else AfterServer(t, attempt, again)
    case ChildErrors(again) => Caught(Say(s, Errored(s.at.phase)), again)
  }

  ghost predicate CanRun(cfg: Config, s: State, run: seq<Event>)
    decreases |run|
  {
    run == [] || (Enabled(s, run[0]) && CanRun(cfg, Step(cfg, s, run[0]), run[1..]))
  }

  ghost function After(cfg: Config, s: State, run: seq<Event>): State
    requires CanRun(cfg, s, run)
    decreases |run|
  {
    if run == [] then s else After(cfg, Step(cfg, s, run[0]), run[1..])
  }

  // ---- what a safe history is ---------------------------------------------

  /** The child running after `log`, if one does. */
  function Running(log: seq<Note>): Option<Phase> {
    if log == [] then None
    else
      match log[|log| - 1]
      case Spawned(phase) => Some(phase)
      case Exited(_, _) => None
      case _ => Running(log[..|log| - 1])
  }

  predicate EndsWith(log: seq<Note>, tail: seq<Note>) {
    |log| >= |tail| && log[|log| - |tail|..] == tail
  }

  /** When the lease may be released: nothing runs, no timer heartbeat has failed, it was
      not released before, and a checkpoint lies between two heartbeats just now. */
  predicate MayRelease(log: seq<Note>) {
    Running(log).None? && TimerBeat(false) !in log && Held(log) && EndsWith(log, [Beat(true), Checkpointed, Beat(true)])
  }

  /** When the server may start: the migration has just exited with 0, under a lease that
      has been confirmed since, was never released and never failed. */
  predicate MayServe(log: seq<Note>) {
    EndsWith(log, [Exited(Migration, 0), Beat(true)]) && TimerBeat(false) !in log && Held(log)
  }

  predicate Safe(log: seq<Note>) {
    forall k :: 0 <= k < |log| ==>
      (log[k] == Released ==> MayRelease(log[..k]) && k == |log| - 1) && (log[k] == Spawned(Server) ==> MayServe(log[..k]))
  }

  // ---- invariants ---------------------------------------------------------

  ghost predicate Inv(s: State) {
    && Safe(s.log)
    && (s.heartbeatFailure <==> TimerBeat(false) in s.log)
    && (s.finalized <==> !Held(s.log))
    && (s.currentChild.None? ==> Running(s.log).None?)
    && (!s.at.Ended? ==> !s.finalized)
  }

  lemma {:induction false} SaySafe(log: seq<Note>, note: Note)
    requires Safe(log) && Held(log)
    requires note == Released ==> MayRelease(log)
    requires note == Spawned(Server) ==> MayServe(log)
    ensures Safe(log + [note])
  {
  }

  lemma {:induction false} SayRuns(log: seq<Note>, note: Note)
    ensures var more := log + [note];
      Running(more) == if note.Spawned? then Some(note.phase) else if note.Exited? then None else Running(log)
    ensures forall n :: n in log + [note] <==> n in log || n == note
  {
  }

  /** A note that is neither a start nor a release nor a timer beat. */
  lemma {:induction false} SayKeeps(s: State, note: Note)
    requires Inv(s) && !s.finalized && (note.Beat? || note.Checkpointed? || note.Errored?)
    ensures Inv(Say(s, note))
  {
    SaySafe(s.log, note);
    SayRuns(s.log, note);
  }

  /** Beaten, checkpointed and beaten again: the lease may go. */
  lemma {:induction false} ReleaseKeeps(s: State)
    requires Inv(s) && !s.finalized && s.currentChild.None? && !s.heartbeatFailure
    requires EndsWith(s.log, [Beat(true), Checkpointed, Beat(true)])
    ensures Inv(Say(s, Released).(finalized := true, at := Ended))
  {
    assert MayRelease(s.log);
    SaySafe(s.log, Released);
    SayRuns(s.log, Released);
  }

  lemma {:induction false} CheckpointedKeeps(s: State)
    requires Inv(s) && !s.finalized
    ensures var t := Say(SayBeat(s, true), Checkpointed);
      Inv(t) && Inv(SayBeat(t, true)) && EndsWith(SayBeat(t, true).log, [Beat(true), Checkpointed, Beat(true)])
  {
    SayKeeps(s, Beat(true));
    var b := SayBeat(s, true);
    SayKeeps(b, Checkpointed);
    var c := Say(b, Checkpointed);
    SayKeeps(c, Beat(true));
    assert SayBeat(c, true).log == s.log + [Beat(true), Checkpointed, Beat(true)];
  }

  lemma {:induction false} HandOverKeeps(s: State, a: Attempt)
    requires Inv(s) && !s.finalized && s.currentChild.None?
    ensures var (t, ok) := HandOver(s, a);
      && Inv(t.(at := Ended)) && (!ok ==> Inv(t) && !t.finalized)
      && t.heartbeatFailure == s.heartbeatFailure && t.currentChild == s.currentChild
  {
    if !s.heartbeatFailure {
      SayKeeps(s, Beat(false));
      SayKeeps(s, Beat(true));
      CheckpointedKeeps(s);
      var c := Say(SayBeat(s, true), Checkpointed);
      SayKeeps(c, Beat(false));
      ReleaseKeeps(SayBeat(c, true));
    }
  }

  lemma {:induction false} CaughtKeeps(s: State, again: Attempt)
    requires Inv(s) && !s.finalized
    ensures Inv(Caught(s, again))
  {
    if !s.heartbeatFailure && s.currentChild.None? {
      HandOverKeeps(s.(at := Ended), again);
    }
  }

  lemma {:induction false} FinishKeeps(s: State, attempt: Attempt, again: Attempt)
    requires Inv(s) && !s.finalized && s.currentChild.None?
    ensures Inv(Finish(s, attempt, again))
  {
    HandOverKeeps(s, attempt);
    var (t, ok) := HandOver(s, attempt);
    if !ok {
      CaughtKeeps(t, again);
    }
  }

  lemma {:induction false} ServeKeeps(s: State)
    requires Inv(s) && !s.finalized && !s.heartbeatFailure && EndsWith(s.log, [Exited(Migration, 0)])
    ensures Inv(Say(SayBeat(s, true), Spawned(Server)).(at := Waiting(Server), currentChild := Some(Server)))
  {
    SayKeeps(s, Beat(true));
    var b := SayBeat(s, true);
    assert b.log[|b.log| - 2..] == [s.log[|s.log| - 1], Beat(true)];
    assert MayServe(b.log);
    SaySafe(b.log, Spawned(Server));
    SayRuns(b.log, Spawned(Server));
  }

  lemma {:induction false} AfterMigrationKeeps(cfg: Config, s: State, code: int, beat: bool, spawn: bool, attempt: Attempt, again: Attempt)
    requires Inv(s) && !s.finalized && s.currentChild.None? && EndsWith(s.log, [Exited(Migration, code)])
    ensures Inv(AfterMigration(cfg, s, code, beat, spawn, attempt, again))
  {
    if s.heartbeatFailure {
      CaughtKeeps(s, again);
    } else if s.shutdown || code != 0 || !cfg.server {
      FinishKeeps(s, attempt, again);
    } else {
      SayKeeps(s, Beat(false));
      SayKeeps(s, Beat(true));
      CaughtKeeps(SayBeat(s, false), again);
      CaughtKeeps(SayBeat(s, true), again);
      ServeKeeps(s);
    }
  }

  lemma {:induction false} ExitKeeps(s: State, code: int)
    requires Inv(s) && s.at.Waiting?
    ensures var t := Say(s, Exited(s.at.phase, code)).(currentChild := None);
      Inv(t) && EndsWith(t.log, [Exited(s.at.phase, code)])
  {
    SaySafe(s.log, Exited(s.at.phase, code));
    SayRuns(s.log, Exited(s.at.phase, code));
  }

  lemma {:induction false} StepKeeps(cfg: Config, s: State, e: Event)
    requires Inv(s) && Enabled(s, e)
    ensures Inv(Step(cfg, s, e))
  {
    match e {
      case Starts(spawn, again) =>
        SaySafe(s.log, Spawned(Migration));
        SayRuns(s.log, Spawned(Migration));
        CaughtKeeps(s, again);
      case Timer(ok) =>
        SaySafe(s.log, TimerBeat(ok));
        SayRuns(s.log, TimerBeat(ok));
      case Signal =>
      case ChildExits(code, beat, spawn, attempt, again) =>
        ExitKeeps(s, code);
        var t := Say(s, Exited(s.at.phase, code)).(currentChild := None);
        if s.at.phase.Migration? {
          AfterMigrationKeeps(cfg, t, code, beat, spawn, attempt, again);
        } else if s.heartbeatFailure {
          CaughtKeeps(t, again);
        } else {
          FinishKeeps(t, attempt, again);
        }
      case ChildErrors(again) =>
        SayKeeps(s, Errored(s.at.phase));
        CaughtKeeps(Say(s, Errored(s.at.phase)), again);
    }
  }

  lemma {:induction false} RunKeeps(cfg: Config, s: State, run: seq<Event>)
    requires Inv(s) && CanRun(cfg, s, run)
    ensures Inv(After(cfg, s, run))
    decreases |run|
  {
    if run != [] {
      StepKeeps(cfg, s, run[0]);
      RunKeeps(cfg, Step(cfg, s, run[0]), run[1..]);
    }
  }

  /** Over every ordering of exits, signals and heartbeats: the lease is released at most
      once, as the last act, with no child running, after a checkpoint between two
      successful heartbeats, and never after a timer heartbeat failed; and the server
      starts only right after the migration exited with 0, under the same lease. */
  lemma {:induction false} EveryHistoryIsSafe(cfg: Config, run: seq<Event>)
    requires CanRun(cfg, Init(), run)
    ensures Safe(After(cfg, Init(), run).log)
  {
    RunKeeps(cfg, Init(), run);
  }

  /** A failed timer heartbeat retains the lease for good. */
  lemma {:induction false} FailureRetains(cfg: Config, s: State, run: seq<Event>)
    requires Inv(s) && CanRun(cfg, s, run) && s.heartbeatFailure && !s.finalized
    ensures !After(cfg, s, run).finalized && After(cfg, s, run).heartbeatFailure
    decreases |run|
  {
    if run != [] {
      StepKeeps(cfg, s, run[0]);
      FailureRetains(cfg, Step(cfg, s, run[0]), run[1..]);
    }
  }

  // ---- the program --------------------------------------------------------

  class Supervisor {
    const cfg: Config
    var at: At
    var currentChild: Option<Phase>
    var shutdownSignal: bool
    var heartbeatFailure: bool
    var finalized: bool
    ghost var log: seq<Note>

    ghost function View(): State
      reads this
    {
      State(at, currentChild, shutdownSignal, heartbeatFailure, finalized, log)
    }

    /** The lease is acquired. */
    constructor (cfg: Config)
      ensures View() == Init() && this.cfg == cfg
    {
      this.cfg := cfg;
      at, currentChild, shutdownSignal, heartbeatFailure, finalized := Starting, None, false, false, false;
      log := [];
    }

    method Start(spawn: bool, again: Attempt)
      requires Enabled(View(), Starts(spawn, again))
      modifies this
      ensures View() == Step(cfg, old(View()), Starts(spawn, again))
    {
      if !spawn {
        CatchError(again);
      } else {
        log := log + [Spawned(Migration)];
        at, currentChild := Waiting(Migration), Some(Migration);
      }
    }

    method OnTimer(ok: bool)
      requires Enabled(View(), Timer(ok)) && !finalized
      modifies this`heartbeatFailure, this`log
      ensures View() == Step(cfg, old(View()), Timer(ok))
    {
      if heartbeatFailure || finalized {
        return;
      }
      log := log + [TimerBeat(ok)];
      if !ok {
        heartbeatFailure := true;
      }
    }

    method OnSignal()
      requires Enabled(View(), Signal)
      modifies this`shutdownSignal
      ensures View() == Step(cfg, old(View()), Signal)
    {
      if !shutdownSignal {
        shutdownSignal := true;
      }
    }

    method CheckpointAndRelease(a: Attempt) returns (ok: bool)
      modifies this`finalized, this`log
      ensures (View(), ok) == HandOver(old(View()), a)
    {
      if heartbeatFailure {
        return false;
      }
      log := log + [Beat(a.first)];
      if !a.first || !a.checkpoint {
        return false;
      }
      log := log + [Checkpointed];
      log := log + [Beat(a.second)];
      if !a.second || !a.release {
        return false;
      }
      log := log + [Released];
      finalized := true;
      ok := true;
    }

    method CatchError(again: Attempt)
      modifies this`at, this`finalized, this`log
      ensures View() == Caught(old(View()), again)
    {
      at := Ended;
      if !heartbeatFailure && currentChild.None? && !finalized {
        var _ := CheckpointAndRelease(again);
      }
    }

    method Conclude(attempt: Attempt, again: Attempt)
      modifies this`at, this`finalized, this`log
      ensures View() == Finish(old(View()), attempt, again)
    {
      var ok := CheckpointAndRelease(attempt);
      if ok {
        at := Ended;
      } else {
        CatchError(again);
      }
    }

    method OnExit(code: int, beat: bool, spawn: bool, attempt: Attempt, again: Attempt)
      requires Enabled(View(), ChildExits(code, beat, spawn, attempt, again))
      modifies this
      ensures View() == Step(cfg, old(View()), ChildExits(code, beat, spawn, attempt, again))
    {
      var phase := at.phase;
      currentChild := None;
      log := log + [Exited(phase, code)];
      if heartbeatFailure {
        CatchError(again);
      } else if phase.Server? || shutdownSignal || code != 0 || !cfg.server {
        Conclude(attempt, again);
      } else {
        log := log + [Beat(beat)];
        if !beat || !spawn {
          CatchError(again);
        } else {
          log := log + [Spawned(Server)];
          at, currentChild := Waiting(Server), Some(Server);
        }
      }
    }

    method OnError(again: Attempt)
      requires Enabled(View(), ChildErrors(again))
      modifies this`at, this`finalized, this`log
      ensures View() == Step(cfg, old(View()), ChildErrors(again))
    {
      log := log + [Errored(at.phase)];
      CatchError(again);
    }
  }
}
