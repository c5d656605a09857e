/** What the workload answers, over every run: each terminal result is earned. */
module WorkloadOutcome {
  import opened SandboxTypes
  import opened CancelFence
  import opened WorkloadModel
  import opened WorkloadSafety
  import opened WorkloadHistory

  // ---- terminal results ---------------------------------------------------

  /** `t` is on its way to a handler, remembered, or has been told. */
  ghost predicate Held(s: State, t: Terminal) {
    || (exists r :: r in s.runs.closing && s.runs.closing[r] == t)
    || (exists r :: r in s.runs.settled && s.runs.settled[r] == Some(t))
    || (exists a :: a in s.cache.terminal && s.cache.terminal[a] == t)
    || (exists i :: i in s.log.answers && s.log.answers[i] == Told(t))
  }

  /** Event `e` ends the execution that `t` is the result of, and `t` says how: completed
      exactly if it returned, cancelled exactly if it had been aborted, threw and proved its
      cleanup, a failed cleanup exactly if it threw and the proof is missing or the error
      says so, and another failure otherwise. */
  ghost predicate EndsAs(s: State, e: Event, t: Terminal) {
    && e.ExecutionEnds? && e.attemptId in s.runs.active
    && var x := s.runs.active[e.attemptId];
    && x.owner == t.run && x.bundle == t.bundle
    && (t.outcome == Completed <==> e.ended.Returned?)
    && (t.outcome == CancelledClean <==> e.ended.Threw? && x.aborted && e.ended.cleanupVerified)
    && (t.outcome == CleanupFailed <==> e.ended.Threw? && if x.aborted then !e.ended.cleanupVerified else e.ended.cleanupFailed)
    && (t.outcome == OtherFailure <==> e.ended.Threw? && !x.aborted && !e.ended.cleanupFailed)
  }

  /** Some step of `run` ends an execution as `t` says. */
  ghost predicate EndedIn(cfg: Config, s: State, run: seq<Timed>, t: Terminal)
    requires CanRun(cfg, s, run)
    decreases |run|
  {
    run != [] &&
    (EndsAs(s, run[0].event, t) || EndedIn(cfg, Step(cfg, s, run[0].at, run[0].event), run[1..], t))
  }

  lemma {:induction false} FinishCancelHolds(s: State, id: RequestId, a: AttemptId, fence: Fence, repair: bool, clean: bool, t: Terminal)
    requires Held(FinishCancel(s, id, a, fence, repair, clean), t)
    ensures Held(s, t)
  {
    FinishCancelLooks(s, id, a, fence, repair, clean);
    FinishCancelRuns(s, id, a, fence, repair, clean);
  }

  lemma {:induction false} FinishCancelRuns(s: State, id: RequestId, a: AttemptId, fence: Fence, repair: bool, clean: bool)
    ensures var u := FinishCancel(s, id, a, fence, repair, clean);
      u.runs.closing == s.runs.closing && u.runs.settled == s.runs.settled
  {
  }

  lemma {:induction false} AfterFenceHolds(s: State, id: RequestId, command: CancelCommand, fence: Fence, clean: bool, t: Terminal)
    requires Held(AfterFence(s, id, command, fence, clean), t)
    ensures Held(s, t)
  {
    var a := command.request.attemptId;
    if !(command.repair && a !in s.runs.active) {
      FinishCancelHolds(s, id, a, fence, command.repair, clean, t);
    }
  }

  /** Installing the fence touches neither executions nor handlers nor answers. */
  lemma {:induction false} AdmitStays(cfg: Config, s: State, command: CancelCommand)
    ensures var f := Admit(cfg, s.(next := s.next + 1), command).0;
      f.runs == s.runs && f.cache == s.cache && f.handlers == s.handlers && f.log.answers == s.log.answers
  {
  }

  lemma {:induction false} CancelCutKeeps(cfg: Config, s: State, command: CancelCommand)
    requires Inv(s)
    ensures Inv(Admit(cfg, s.(next := s.next + 1), command).0)
  {
    var r := s.(next := s.next + 1);
    QuietStep(s, r, s.next);
    if Admit(cfg, r, command).1.Some? {
      FencedKeeps(r, command, cfg.maxEntries);
    }
  }

  lemma {:induction false} SameHolds(s: State, f: State, t: Terminal)
    requires f.runs == s.runs && f.cache == s.cache && f.log.answers == s.log.answers
    ensures Held(f, t) <==> Held(s, t)
  {
  }

  lemma {:induction false} ProceedHolds(s: State, admitted: (State, Option<Fence>), id: RequestId, command: CancelCommand, clean: bool, t: Terminal)
    requires Held(Proceed(admitted, id, command, clean), t)
    requires var f := admitted.0; f.runs == s.runs && f.cache == s.cache && f.log.answers == s.log.answers
    ensures Held(s, t)
  {
    SameHolds(s, admitted.0, t);
    if admitted.1.Some? {
      AfterFenceHolds(admitted.0, id, command, admitted.1.value, clean, t);
    }
  }

  lemma {:induction false} RememberHolds(s: State, a: AttemptId, u: Terminal, t: Terminal)
    requires Inv(s) && Held(s.(cache := Remember(s.cache, a, u)), t)
    ensures t == u || Held(s, t)
  {
    RememberIsBounded(s.cache, a, u);
  }

  lemma {:induction false} ResumeHolds(s: State, id: RequestId, clean: bool, t: Terminal)
    requires Inv(s) && Enabled(s, s.now, HandlerResumes(id, clean))
    requires Held(React(Config("", 0), s, HandlerResumes(id, clean)), t)
    ensures Held(s, t)
  {
    var result := s.runs.settled[s.handlers[id].run];
    if result.Some? {
      assert Held(s, result.value);
      match s.handlers[id] {
        case AwaitingRun(bundle, run) =>
          if run == id && Held(s.(cache := Remember(s.cache, bundle.attemptId, result.value)), t) {
            RememberHolds(s, bundle.attemptId, result.value, t);
          }
        case AwaitingCancelled(a, _, _, _) =>
          if Held(s.(cache := Remember(s.cache, a, result.value)), t) {
            RememberHolds(s, a, result.value, t);
          }
      }
    }
  }

  lemma {:induction false} DecideHolds(cfg: Config, s: State, id: RequestId, bundle: Bundle, ready: bool, valid: bool, accepted: bool, t: Terminal)
    requires Held(Decide(s, id, bundle, Judge(cfg, s, bundle, ready, valid), accepted), t)
    ensures Held(s, t)
  {
  }

  lemma {:induction false} EndRunHolds(s: State, a: AttemptId, ended: Ended, t: Terminal)
    requires a in s.runs.active && Held(EndRun(s, a, ended), t)
    ensures Held(s, t) || EndsAs(s, ExecutionEnds(a, ended), t)
  {
  }

  lemma {:induction false} CloseRunHolds(s: State, run: RequestId, ok: bool, t: Terminal)
    requires run in s.runs.closing && Held(CloseRun(s, run, ok), t)
    ensures Held(s, t)
  {
  }

  /** Only the end of an execution brings a new terminal result. */
  lemma {:induction false} ReactHolds(cfg: Config, s: State, e: Event, t: Terminal)
    requires Inv(s) && Enabled(s, s.now, e) && Held(React(cfg, s, e), t)
    ensures Held(s, t) || EndsAs(s, e, t)
  {
    match e {
      case ExecuteDecides(id, ready, valid, accepted) => DecideHolds(cfg, s, id, s.handlers[id].bundle, ready, valid, accepted, t);
      case ExecutionEnds(a, ended) => EndRunHolds(s, a, ended, t);
      case ReaperCloses(run, ok) => CloseRunHolds(s, run, ok, t);
      case HandlerResumes(id, clean) => ResumeHolds(s, id, clean, t);
      case CancelArrives(command, clean) =>
        AdmitStays(cfg, s, command);
        ProceedHolds(s, Admit(cfg, s.(next := s.next + 1), command), s.next, command, clean, t);
      case RepairReconciled(id, ok, clean) =>
        if ok {
          FinishCancelHolds(s, id, s.handlers[id].attemptId, s.handlers[id].fence, true, clean, t);
        }
      case _ =>
    }
  }

  lemma {:induction false} StepHolds(cfg: Config, s: State, at: int, e: Event, t: Terminal)
    requires Inv(s) && AcksOk(s) && Enabled(s, at, e) && Held(Step(cfg, s, at, e), t)
    ensures Held(s, t) || EndsAs(s, e, t)
  {
    var r := s.(now := at);
    TimeKeeps(s, at);
    ReactHolds(cfg, r, e, t);
    SameHolds(s, r, t);
  }

  lemma {:induction false} RunHolds(cfg: Config, s: State, run: seq<Timed>, t: Terminal)
    requires Inv(s) && AcksOk(s) && CanRun(cfg, s, run) && Held(After(cfg, s, run), t)
    ensures Held(s, t) || EndedIn(cfg, s, run, t)
    decreases |run|
  {
    if run != [] {
      var u := Step(cfg, s, run[0].at, run[0].event);
      StepKeeps(cfg, s, run[0].at, run[0].event);
      RunHolds(cfg, u, run[1..], t);
      if Held(u, t) {
        StepHolds(cfg, s, run[0].at, run[0].event, t);
      }
    }
  }

  /** In every run: a terminal result that waits for a handler, is remembered or has been
      told comes from a step that ended the execution of its own request, and says exactly
      how that execution ended. */
  lemma {:induction false} TerminalsAreEarned(cfg: Config, now: int, run: seq<Timed>, t: Terminal)
    requires CanRun(cfg, Init(now), run) && Held(After(cfg, Init(now), run), t)
    ensures EndedIn(cfg, Init(now), run, t)
  {
    RunHolds(cfg, Init(now), run, t);
  }

  /** And the end of every execution leaves such a result for its own request. */
  lemma {:induction false} EveryEndTells(cfg: Config, s: State, a: AttemptId, ended: Ended)
    requires Enabled(s, s.now, ExecutionEnds(a, ended))
    ensures var t := React(cfg, s, ExecutionEnds(a, ended)); var r := s.runs.active[a].owner;
      && a !in t.runs.active && r in t.runs.closing && EndsAs(s, ExecutionEnds(a, ended), t.runs.closing[r])
      && t.runs.settled == s.runs.settled && t.cache == s.cache && t.handlers == s.handlers
  {
  }

  // ---- aborted executions -------------------------------------------------

  /** The handler of a cancel command waits for the execution `x` of attempt `a`. */
  predicate WaitsFor(pc: Pc, a: AttemptId, x: Execution) {
    pc.AwaitingCancelled? && pc.attemptId == a && pc.run == x.owner
  }

  ghost predicate CancelWaits(s: State, a: AttemptId, x: Execution) {
    exists i :: i in s.handlers && WaitsFor(s.handlers[i], a, x)
  }

  ghost predicate AbortsOk(s: State) {
    forall a :: a in s.runs.active ==> (s.runs.active[a].aborted <==> CancelWaits(s, a, s.runs.active[a]))
  }

  /** The executions and the cancel handlers that wait for them stay as they are. */
  ghost predicate SameWaits(s: State, t: State) {
    && t.runs.active == s.runs.active
    && (forall i :: i in s.handlers && s.handlers[i].AwaitingCancelled? ==>
         (i in t.handlers && t.handlers[i] == s.handlers[i]) || s.handlers[i].run in s.runs.settled)
    && (forall i :: i in t.handlers && t.handlers[i].AwaitingCancelled? ==> i in s.handlers && t.handlers[i] == s.handlers[i])
  }

  lemma {:induction false} WaitsStay(s: State, t: State)
    requires Inv(s) && AbortsOk(s) && SameWaits(s, t)
    ensures AbortsOk(t)
  {
    forall a | a in s.runs.active
      ensures CancelWaits(s, a, s.runs.active[a]) <==> CancelWaits(t, a, s.runs.active[a])
    {
      var x := s.runs.active[a];
      if i :| i in s.handlers && WaitsFor(s.handlers[i], a, x) {
        assert i in t.handlers && WaitsFor(t.handlers[i], a, x);
      }
      if i :| i in t.handlers && WaitsFor(t.handlers[i], a, x) {
        assert i in s.handlers && WaitsFor(s.handlers[i], a, x);
      }
    }
  }

  lemma {:induction false} StartAborts(s: State, id: RequestId, bundle: Bundle, accepted: bool)
    requires Inv(s) && id in s.handlers && s.handlers[id] == Reaping(bundle) && s.runs.active == map[]
    ensures AbortsOk(Start(s, id, bundle, accepted))
  {
    var t := Start(s, id, bundle, accepted);
    forall a, i | a in t.runs.active && i in t.handlers
      ensures !WaitsFor(t.handlers[i], a, t.runs.active[a])
    {
      if i != id {
        assert PcOk(s, i, s.handlers[i]) && PcOk(s, id, s.handlers[id]);
      }
    }
  }

  lemma {:induction false} VerdictAborts(s: State, id: RequestId, bundle: Bundle, verdict: Verdict, accepted: bool)
    requires Inv(s) && AbortsOk(s) && id in s.handlers && s.handlers[id] == Reaping(bundle) && !verdict.Launch?
    ensures AbortsOk(Decide(s, id, bundle, verdict, accepted))
  {
    WaitsStay(s, Decide(s, id, bundle, verdict, accepted));
  }

  lemma {:induction false} DecideAborts(cfg: Config, s: State, id: RequestId, bundle: Bundle, ready: bool, valid: bool, accepted: bool)
    requires Inv(s) && AbortsOk(s) && id in s.handlers && s.handlers[id] == Reaping(bundle)
    ensures AbortsOk(Decide(s, id, bundle, Judge(cfg, s, bundle, ready, valid), accepted))
  {
    JudgeIsSound(cfg, s, id, bundle, ready, valid);
    var verdict := Judge(cfg, s, bundle, ready, valid);
    if verdict.Launch? {
      StartAborts(s, id, bundle, accepted);
    } else {
      VerdictAborts(s, id, bundle, verdict, accepted);
    }
  }

  lemma {:induction false} AbortAborts(s: State, id: RequestId, a: AttemptId, fence: Fence, repair: bool)
    requires Inv(s) && AbortsOk(s) && a in s.runs.active && (id in s.handlers ==> !s.handlers[id].AwaitingCancelled?)
    ensures AbortsOk(Suspend(Abort(s, a), id, AwaitingCancelled(a, fence, s.runs.active[a].owner, repair)))
  {
    var t := Suspend(Abort(s, a), id, AwaitingCancelled(a, fence, s.runs.active[a].owner, repair));
    OnlyActive(s.runs.active, a);
    assert id in t.handlers && WaitsFor(t.handlers[id], a, t.runs.active[a]);
  }

  lemma {:induction false} FinishCancelAborts(s: State, id: RequestId, a: AttemptId, fence: Fence, repair: bool, clean: bool)
    requires Inv(s) && AbortsOk(s) && (id in s.handlers ==> !s.handlers[id].AwaitingCancelled?)
    ensures AbortsOk(FinishCancel(s, id, a, fence, repair, clean))
  {
    match Look(s, a, fence) {
      case Running(_) => AbortAborts(s, id, a, fence, repair);
      case _ => WaitsStay(s, FinishCancel(s, id, a, fence, repair, clean));
    }
  }

  lemma {:induction false} AfterFenceAborts(s: State, id: RequestId, command: CancelCommand, fence: Fence, clean: bool)
    requires Inv(s) && AbortsOk(s) && (id in s.handlers ==> !s.handlers[id].AwaitingCancelled?)
    ensures AbortsOk(AfterFence(s, id, command, fence, clean))
  {
    var a := command.request.attemptId;
    if command.repair && a !in s.runs.active {
      WaitsStay(s, AfterFence(s, id, command, fence, clean));
    } else {
      FinishCancelAborts(s, id, a, fence, command.repair, clean);
    }
  }

  lemma {:induction false} CancelAborts(cfg: Config, s: State, command: CancelCommand, clean: bool)
    requires Inv(s) && AbortsOk(s)
    ensures AbortsOk(Cancel(cfg, s, command, clean))
  {
    var admitted := Admit(cfg, s.(next := s.next + 1), command);
    AdmitStays(cfg, s, command);
    CancelCutKeeps(cfg, s, command);
    WaitsStay(s, admitted.0);
    NextIsFree(s);
    if admitted.1.Some? {
      AfterFenceAborts(admitted.0, s.next, command, admitted.1.value, clean);
    }
  }

  lemma {:induction false} NextIsFree(s: State)
    requires Inv(s)
    ensures s.next !in s.handlers
  {
    assert forall i :: i in s.handlers ==> PcOk(s, i, s.handlers[i]);
  }

  lemma {:induction false} ResumeAborts(cfg: Config, s: State, id: RequestId, clean: bool)
    requires Inv(s) && AbortsOk(s) && Enabled(s, s.now, HandlerResumes(id, clean))
    ensures AbortsOk(React(cfg, s, HandlerResumes(id, clean)))
  {
    WaitsStay(s, React(cfg, s, HandlerResumes(id, clean)));
  }

  lemma {:induction false} EndAborts(s: State, a: AttemptId, ended: Ended)
    requires Inv(s) && AbortsOk(s) && a in s.runs.active
    ensures AbortsOk(EndRun(s, a, ended))
  {
    OnlyActive(s.runs.active, a);
  }

  lemma {:induction false} OtherAborts(cfg: Config, s: State, e: Event)
    requires Inv(s) && AbortsOk(s) && Enabled(s, s.now, e)
    requires e.ExecuteArrives? || e.FencedReplies? || e.HealthGate? || e.Restart?
    ensures AbortsOk(React(cfg, s, e))
  {
    NextIsFree(s);
    if !e.Restart? {
      WaitsStay(s, React(cfg, s, e));
    }
  }

  lemma {:induction false} PruneAborts(s: State, id: RequestId, batch: seq<AttemptId>, absent: bool)
    requires Inv(s) && AbortsOk(s) && id in s.handlers && s.handlers[id] == Pruning(batch) && batch != []
    ensures AbortsOk(Prune(s, id, batch, absent))
  {
    WaitsStay(s, Prune(s, id, batch, absent));
  }

  lemma {:induction false} CloseAborts(s: State, run: RequestId, ok: bool)
    requires Inv(s) && AbortsOk(s) && run in s.runs.closing
    ensures AbortsOk(CloseRun(s, run, ok))
  {
    WaitsStay(s, CloseRun(s, run, ok));
  }

  lemma {:induction false} ReactAborts(cfg: Config, s: State, e: Event)
    requires Inv(s) && AbortsOk(s) && Enabled(s, s.now, e)
    ensures AbortsOk(React(cfg, s, e))
  {
    match e {
      case ExecuteDecides(id, ready, valid, accepted) => DecideAborts(cfg, s, id, s.handlers[id].bundle, ready, valid, accepted);
      case ExecutionEnds(a, ended) => EndAborts(s, a, ended);
      case ReaperCloses(run, ok) => CloseAborts(s, run, ok);
      case HandlerResumes(id, clean) => ResumeAborts(cfg, s, id, clean);
      case CancelArrives(command, clean) => CancelAborts(cfg, s, command, clean);
      case RepairReconciled(id, ok, clean) =>
        if ok {
          FinishCancelAborts(s, id, s.handlers[id].attemptId, s.handlers[id].fence, true, clean);
        } else {
          WaitsStay(s, Drop(s, id));
        }
      case PruneStep(id, absent) => PruneAborts(s, id, s.handlers[id].batch, absent);
      case _ => OtherAborts(cfg, s, e);
    }
  }

  lemma {:induction false} RunAborts(cfg: Config, s: State, run: seq<Timed>)
    requires Inv(s) && AcksOk(s) && AbortsOk(s) && CanRun(cfg, s, run)
    ensures AbortsOk(After(cfg, s, run))
    decreases |run|
  {
    if run != [] {
      TimeKeeps(s, run[0].at);
      assert AbortsOk(s.(now := run[0].at)) by {
        WaitsStay(s, s.(now := run[0].at));
      }
      StepKeeps(cfg, s, run[0].at, run[0].event);
      ReactAborts(cfg, s.(now := run[0].at), run[0].event);
      RunAborts(cfg, Step(cfg, s, run[0].at, run[0].event), run[1..]);
    }
  }

  /** In every run: an execution under way has been aborted exactly if the handler of an
      accepted cancel command waits for it. */
  lemma {:induction false} AbortedIsExact(cfg: Config, now: int, run: seq<Timed>, a: AttemptId)
    requires CanRun(cfg, Init(now), run) && a in After(cfg, Init(now), run).runs.active
    ensures var s := After(cfg, Init(now), run);
      s.runs.active[a].aborted <==> exists i :: i in s.handlers && WaitsFor(s.handlers[i], a, s.runs.active[a])
  {
    RunAborts(cfg, Init(now), run);
  }
}
