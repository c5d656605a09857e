/** Exactly when the writer supervisor gives its lease up, read off the events of a run. */
module WriterRelease {
  import opened SandboxTypes
  import opened WriterSupervisor

  const ALL: Attempt := Attempt(true, true, true, true)

  // ---- the conditions -----------------------------------------------------

  /** After these events an exit leads to the hand-over and not to the server. */
  ghost predicate Finishing(cfg: Config, before: seq<Event>, code: int) {
    (exists i :: 0 <= i < |before| && before[i].ChildExits?) || Signal in before || code != 0 || !cfg.server
  }

  /** One of the two heartbeats of an attempt fails. */
  predicate BeatFails(a: Attempt) {
    !a.first || (a.checkpoint && !a.second)
  }

  /** The event that ends the run gives the lease up: no timer heartbeat has failed, no
      child stays tracked, and one of the attempts succeeds. */
  ghost predicate GivesUp(cfg: Config, before: seq<Event>, e: Event) {
    && Timer(false) !in before
    && match e
       case Starts(spawn, again) => !spawn && again == ALL
       case ChildExits(code, beat, spawn, attempt, again) =>
         if Finishing(cfg, before, code) then attempt == ALL || again == ALL else (!beat || !spawn) && again == ALL
       case _ => false
  }

  /** It does so although a heartbeat of the main function has just failed. */
  ghost predicate GivesUpLate(cfg: Config, before: seq<Event>, e: Event) {
    && Timer(false) !in before
    && e.ChildExits? && e.again == ALL
    && (if Finishing(cfg, before, e.code) then BeatFails(e.attempt) else !e.beat)
  }

  // ---- what the calls note ------------------------------------------------

  /** Nothing has been released and no heartbeat of the main function has failed. */
  ghost predicate Clean(log: seq<Note>) {
    Released !in log && Beat(false) !in log
  }

  lemma {:induction false} SayIn(log: seq<Note>, note: Note)
    ensures forall n :: n in log + [note] <==> n in log || n == note
  {
  }

  lemma {:induction false} HandOverNotes(s: State, a: Attempt)
    ensures var (t, ok) := HandOver(s, a);
      && ok == (!s.heartbeatFailure && a == ALL)
      && (Released in t.log <==> Released in s.log || ok)
      && (Beat(false) in t.log <==> Beat(false) in s.log || (!s.heartbeatFailure && BeatFails(a)))
      && t.heartbeatFailure == s.heartbeatFailure && t.currentChild == s.currentChild && t.finalized == (s.finalized || ok)
  {
    var b := SayBeat(s, true);
    var c := Say(b, Checkpointed);
    SayIn(s.log, Beat(false));
    SayIn(s.log, Beat(true));
    SayIn(b.log, Checkpointed);
    SayIn(c.log, Beat(false));
    SayIn(c.log, Beat(true));
    SayIn(SayBeat(c, true).log, Released);
  }

  lemma {:induction false} CaughtNotes(s: State, again: Attempt)
    requires Released !in s.log && !s.finalized
    ensures var t := Caught(s, again);
      && t.at.Ended?
      && (Released in t.log <==> !s.heartbeatFailure && s.currentChild.None? && again == ALL)
      && (Released in t.log ==> (Beat(false) in t.log <==> Beat(false) in s.log))
  {
    HandOverNotes(s.(at := Ended), again);
  }

  lemma {:induction false} FinishNotes(s: State, attempt: Attempt, again: Attempt)
    requires Clean(s.log) && !s.finalized && s.currentChild.None?
    ensures var t := Finish(s, attempt, again);
      && t.at.Ended?
      && (Released in t.log <==> !s.heartbeatFailure && (attempt == ALL || again == ALL))
      && (Released in t.log && Beat(false) in t.log <==> !s.heartbeatFailure && again == ALL && BeatFails(attempt))
  {
    HandOverNotes(s, attempt);
    var (t, ok) := HandOver(s, attempt);
    if !ok {
      CaughtNotes(t, again);
    }
  }

  // ---- along a run --------------------------------------------------------

  /** What the state says of the events that led to it. */
  ghost predicate Tells(cfg: Config, s: State, history: seq<Event>) {
    && (s.at.Starting? ==> s == Init() && history == [])
    && (s.at.Waiting? ==>
          && Clean(s.log) && !s.finalized && s.currentChild == Some(s.at.phase)
          && (s.heartbeatFailure <==> Timer(false) in history) && (s.shutdown <==> Signal in history)
          && (s.at.phase.Server? <==> exists i :: 0 <= i < |history| && history[i].ChildExits?))
    && (Released in s.log <==> history != [] && GivesUp(cfg, history[..|history| - 1], history[|history| - 1]))
    && (Released in s.log && Beat(false) in s.log <==> history != [] && GivesUpLate(cfg, history[..|history| - 1], history[|history| - 1]))
  }

  lemma {:induction false} Snoc(history: seq<Event>, e: Event)
    ensures var more := history + [e];
      && more != [] && more[..|more| - 1] == history && more[|more| - 1] == e
      && (forall x :: x in more <==> x in history || x == e)
      && ((exists i :: 0 <= i < |more| && more[i].ChildExits?) <==> e.ChildExits? || exists i :: 0 <= i < |history| && history[i].ChildExits?)
  {
    var more := history + [e];
    assert more[|history|] == e && forall i :: 0 <= i < |history| ==> more[i] == history[i];
  }

  lemma {:induction false} ExitTells(cfg: Config, s: State, history: seq<Event>, e: Event)
    requires Tells(cfg, s, history) && Enabled(s, e) && e.ChildExits?
    ensures Tells(cfg, Step(cfg, s, e), history + [e])
  {
    Snoc(history, e);
    var t := Say(s, Exited(s.at.phase, e.code)).(currentChild := None);
    SayIn(s.log, Exited(s.at.phase, e.code));
    if s.heartbeatFailure {
      CaughtNotes(t, e.again);
    } else if Finishing(cfg, history, e.code) {
      FinishNotes(t, e.attempt, e.again);
    } else {
      SayIn(t.log, Beat(e.beat));
      var b := SayBeat(t, e.beat);
      SayIn(b.log, Spawned(Server));
      CaughtNotes(b, e.again);
    }
  }

  lemma {:induction false} StepTells(cfg: Config, s: State, history: seq<Event>, e: Event)
    requires Tells(cfg, s, history) && Enabled(s, e)
    ensures Tells(cfg, Step(cfg, s, e), history + [e])
  {
    Snoc(history, e);
    match e {
      case Starts(_, again) =>
        SayIn(s.log, Spawned(Migration));
        CaughtNotes(s, again);
      case Timer(ok) => SayIn(s.log, TimerBeat(ok));
      case Signal =>
      case ChildExits(_, _, _, _, _) => ExitTells(cfg, s, history, e);
      case ChildErrors(again) =>
        SayIn(s.log, Errored(s.at.phase));
        CaughtNotes(Say(s, Errored(s.at.phase)), again);
    }
  }

  lemma {:induction false} RunTells(cfg: Config, s: State, history: seq<Event>, run: seq<Event>, whole: seq<Event>)
    requires Tells(cfg, s, history) && CanRun(cfg, s, run) && whole == history + run
    ensures Tells(cfg, After(cfg, s, run), whole)
    decreases |run|
  {
    if run == [] {
      assert whole == history;
    } else {
      StepTells(cfg, s, history, run[0]);
      assert whole == history + [run[0]] + run[1..];
      RunTells(cfg, Step(cfg, s, run[0]), history + [run[0]], run[1..], whole);
    }
  }

  /** Over every run the lease is given up exactly if the last event does so. */
  lemma {:induction false} ReleaseIsExact(cfg: Config, run: seq<Event>)
    requires CanRun(cfg, Init(), run)
    ensures Released in After(cfg, Init(), run).log <==> run != [] && GivesUp(cfg, run[..|run| - 1], run[|run| - 1])
  {
    RunTells(cfg, Init(), [], run, run);
  }

  /** Over every run the lease is released after a failed heartbeat of the main function
      exactly if no timer heartbeat failed before and the last event is the exit of a child
      whose handling fails on a heartbeat first and succeeds in the second attempt. */
  lemma {:induction false} LateReleaseIsExact(cfg: Config, run: seq<Event>)
    requires CanRun(cfg, Init(), run)
    ensures (exists i, j :: 0 <= i < j < |After(cfg, Init(), run).log| &&
               After(cfg, Init(), run).log[i] == Beat(false) && After(cfg, Init(), run).log[j] == Released) <==>
      run != [] && GivesUpLate(cfg, run[..|run| - 1], run[|run| - 1])
  {
    RunTells(cfg, Init(), [], run, run);
    EveryHistoryIsSafe(cfg, run);
    var log := After(cfg, Init(), run).log;
    if Released in log && Beat(false) in log {
      var i :| 0 <= i < |log| && log[i] == Beat(false);
      var j :| 0 <= j < |log| && log[j] == Released;
      assert j == |log| - 1 && i < j;
    }
  }

  /** Under every configuration there are such runs: the migration fails, the first heartbeat
      of the hand-over fails, and the catch block tries again. */
  lemma {:induction false} InlineFailureReleases(cfg: Config) returns (run: seq<Event>)
    ensures CanRun(cfg, Init(), run) && run != [] && GivesUpLate(cfg, run[..|run| - 1], run[|run| - 1])
  {
    var starts, exits := Starts(true, ALL), ChildExits(1, true, true, Attempt(false, true, true, true), ALL);
    run := [starts, exits];
    assert run[1..] == [exits] && [exits][1..] == [] && run[..1] == [starts];
    var s := Step(cfg, Init(), starts);
    assert CanRun(cfg, Step(cfg, s, exits), []);
    assert CanRun(cfg, s, [exits]);
  }

  // ---- when the server is started -----------------------------------------

  /** The migration's exit after these events leads to the server: it ended with 0 and without
      a signal, no timer heartbeat has failed, the lease was confirmed and the start holds. */
  ghost predicate Serves(cfg: Config, before: seq<Event>, e: Event) {
    && Timer(false) !in before && e.ChildExits? && !Finishing(cfg, before, e.code) && e.beat && e.spawn
  }

  ghost predicate ServedIn(cfg: Config, history: seq<Event>) {
    if history == [] then false
    else
      var before, last := history[..|history| - 1], history[|history| - 1];
      ServedIn(cfg, before) || Serves(cfg, before, last)
  }

  lemma {:induction false} ServedAt(cfg: Config, history: seq<Event>)
    ensures ServedIn(cfg, history) <==> exists i :: 0 <= i < |history| && Serves(cfg, history[..i], history[i])
  {
    if history != [] {
      var n := |history| - 1;
      var before := history[..n];
      ServedAt(cfg, before);
      assert forall i :: 0 <= i < n ==> before[..i] == history[..i] && before[i] == history[i];
    }
  }

  lemma {:induction false} HandOverSpawns(s: State, a: Attempt)
    ensures Spawned(Server) in HandOver(s, a).0.log <==> Spawned(Server) in s.log
  {
  }

  lemma {:induction false} CaughtSpawns(s: State, again: Attempt)
    ensures Spawned(Server) in Caught(s, again).log <==> Spawned(Server) in s.log
  {
    HandOverSpawns(s.(at := Ended), again);
  }

  lemma {:induction false} FinishSpawns(s: State, attempt: Attempt, again: Attempt)
    ensures Spawned(Server) in Finish(s, attempt, again).log <==> Spawned(Server) in s.log
  {
    HandOverSpawns(s, attempt);
    CaughtSpawns(HandOver(s, attempt).0, again);
  }

  lemma {:induction false} StepServes(cfg: Config, s: State, history: seq<Event>, e: Event)
    requires Tells(cfg, s, history) && Enabled(s, e)
    ensures Spawned(Server) in Step(cfg, s, e).log <==> Spawned(Server) in s.log || Serves(cfg, history, e)
  {
    match e {
      case Starts(_, again) => CaughtSpawns(s, again);
      case ChildErrors(again) => CaughtSpawns(Say(s, Errored(s.at.phase)), again);
      case ChildExits(code, beat, _, attempt, again) =>
        var t := Say(s, Exited(s.at.phase, code)).(currentChild := None);
        CaughtSpawns(t, again);
        CaughtSpawns(SayBeat(t, beat), again);
        FinishSpawns(t, attempt, again);
      case _ =>
    }
  }

  lemma {:induction false} AfterSnoc(cfg: Config, s: State, run: seq<Event>)
    requires run != [] && CanRun(cfg, s, run)
    ensures var before, last := run[..|run| - 1], run[|run| - 1];
      && CanRun(cfg, s, before) && Enabled(After(cfg, s, before), last)
      && After(cfg, s, run) == Step(cfg, After(cfg, s, before), last)
    decreases |run|
  {
    var t, before, rest := Step(cfg, s, run[0]), run[..|run| - 1], run[1..];
    if rest == [] {
      assert before == [] && After(cfg, t, rest) == t;
    } else {
      AfterSnoc(cfg, t, rest);
      assert before[0] == run[0] && before[1..] == rest[..|rest| - 1];
      assert CanRun(cfg, s, before) && After(cfg, s, before) == After(cfg, t, before[1..]);
    }
  }

  lemma {:induction false} RunServes(cfg: Config, run: seq<Event>)
    requires CanRun(cfg, Init(), run)
    ensures Spawned(Server) in After(cfg, Init(), run).log <==> ServedIn(cfg, run)
    decreases |run|
  {
    if run != [] {
      var before, last := run[..|run| - 1], run[|run| - 1];
      AfterSnoc(cfg, Init(), run);
      RunServes(cfg, before);
      RunTells(cfg, Init(), [], before, before);
      StepServes(cfg, After(cfg, Init(), before), before, last);
    }
  }

  /** Over every run the server was started exactly if some event of the run leads to it. */
  lemma {:induction false} ServingIsExact(cfg: Config, run: seq<Event>)
    requires CanRun(cfg, Init(), run)
    ensures Spawned(Server) in After(cfg, Init(), run).log <==> exists i :: 0 <= i < |run| && Serves(cfg, run[..i], run[i])
  {
    RunServes(cfg, run);
    ServedAt(cfg, run);
  }
}
