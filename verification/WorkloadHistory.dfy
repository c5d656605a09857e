/** What the workload promises, over every run: fences bar starts, acknowledgements are
    final, and why one execute request per attempt is needed. */
module WorkloadHistory {
  import opened SandboxTypes
  import opened CancelFence
  import opened WorkloadModel
  import opened WorkloadSafety

  // ---- the theorems -------------------------------------------------------

  /** Event `e` starts an execution of attempt `a`. */
  ghost predicate Starts(cfg: Config, s: State, e: Event, a: AttemptId)
    requires Enabled(s, s.now, e)
  {
    a in React(cfg, s, e).runs.active && a !in s.runs.active
  }

  /** The entry of `a` in `active` was there before, at most aborted since. */
  ghost predicate SameRun(s: State, t: State, a: AttemptId)
    requires a in t.runs.active
  {
    a in s.runs.active &&
    var x, y := s.runs.active[a], t.runs.active[a];
    x.bundle == y.bundle && x.launched == y.launched && x.owner == y.owner
  }

  /** What it takes to enter `active`: nothing else is active, the attempt is not
      fenced, and the candidate runs only if its bundle has not expired. */
  ghost predicate MayStart(s: State, x: Execution) {
    && x.bundle.attemptId !in s.store.files
    && s.runs.active == map[]
    && (x.launched ==> s.now <= x.bundle.expiresAt + BUNDLE_SKEW_MS)
  }

  lemma {:induction false} ActiveMoves(cfg: Config, s: State, e: Event, a: AttemptId)
    requires Inv(s) && Enabled(s, s.now, e)
    requires a in React(cfg, s, e).runs.active
    ensures var t := React(cfg, s, e);
      || SameRun(s, t, a)
      || (e.ExecuteDecides? && s.handlers[e.id] == Reaping(t.runs.active[a].bundle)
          && t.runs.active[a].bundle.attemptId == a && MayStart(s, t.runs.active[a]))
  {
    match e {
      case ExecuteDecides(id, ready, valid, accepted) => DecideMoves(cfg, s, id, s.handlers[id].bundle, ready, valid, accepted, a);
      case CancelArrives(command, clean) => CancelMoves(cfg, s, command, clean, a);
      case RepairReconciled(id, ok, clean) => FinishCancelMoves(s, id, s.handlers[id].attemptId, s.handlers[id].fence, true, clean, a);
      case HandlerResumes(id, clean) => ResumeMovesNothing(s, id, clean);
      case PruneStep(id, absent) => PruneMovesNothing(s, id, s.handlers[id].batch, absent);
      case _ =>
    }
  }

  lemma {:induction false} PruneMovesNothing(s: State, id: RequestId, batch: seq<AttemptId>, absent: bool)
    requires batch != []
    ensures Prune(s, id, batch, absent).runs == s.runs
  {
  }

  lemma {:induction false} ResumeMovesNothing(s: State, id: RequestId, clean: bool)
    requires Enabled(s, s.now, HandlerResumes(id, clean))
    ensures React(Config("", 0), s, HandlerResumes(id, clean)).runs == s.runs
  {
  }

  lemma {:induction false} DecideMoves(cfg: Config, s: State, id: RequestId, bundle: Bundle, ready: bool, valid: bool, accepted: bool, a: AttemptId)
    requires s.store.fences == s.store.files
    requires a in Decide(s, id, bundle, Judge(cfg, s, bundle, ready, valid), accepted).runs.active
    ensures var t := Decide(s, id, bundle, Judge(cfg, s, bundle, ready, valid), accepted);
      || SameRun(s, t, a)
      || (t.runs.active[a].bundle == bundle && bundle.attemptId == a && MayStart(s, t.runs.active[a]))
  {
  }

  lemma {:induction false} FinishCancelMoves(s: State, id: RequestId, b: AttemptId, fence: Fence, repair: bool, clean: bool, a: AttemptId)
    requires a in FinishCancel(s, id, b, fence, repair, clean).runs.active
    ensures SameRun(s, FinishCancel(s, id, b, fence, repair, clean), a)
  {
  }

  lemma {:induction false} AfterFenceMoves(s: State, id: RequestId, command: CancelCommand, fence: Fence, clean: bool, a: AttemptId)
    requires a in AfterFence(s, id, command, fence, clean).runs.active
    ensures SameRun(s, AfterFence(s, id, command, fence, clean), a)
  {
    if !(command.repair && command.request.attemptId !in s.runs.active) {
      FinishCancelMoves(s, id, command.request.attemptId, fence, command.repair, clean, a);
    }
  }

  lemma {:induction false} CancelMoves(cfg: Config, s: State, command: CancelCommand, clean: bool, a: AttemptId)
    requires s.store.fences == s.store.files
    requires a in Cancel(cfg, s, command, clean).runs.active
    ensures SameRun(s, Cancel(cfg, s, command, clean), a)
  {
    var f, fence, fenced := CancelBegins(cfg, s, command, clean);
    if fenced {
      AfterFenceMoves(f, s.next, command, fence, clean, a);
    }
  }

  lemma {:induction false} DeadStays(cfg: Config, s: State, e: Event, b: Bundle)
    requires Inv(s) && Enabled(s, s.now, e)
    requires OneRequestEach(React(cfg, s, e).log)
    requires Dead(s, b)
    ensures Dead(React(cfg, s, e), b)
  {
    var t := React(cfg, s, e);
    var a := b.attemptId;
    ReactGrows(cfg, s, e);
    if a in t.runs.active {
      ActiveMoves(cfg, s, e, a);
    }
    if Barred(s.store, s.now, b) {
      BarredStays(s, t, b);
    }
    if DecidedFor(s.log, a) {
      var id :| id in s.log.decided && id in s.log.requests && s.log.requests[id].attemptId == a;
      assert id in t.log.decided && id in t.log.requests && t.log.requests[id].attemptId == a;
      if e.ExecuteDecides? {
        assert PcOk(s, e.id, s.handlers[e.id]);
        assert e.id in t.log.requests && t.log.requests[e.id] == s.log.requests[e.id];
      }
    }
  }

  /** `k` is an acknowledgement of an attempt nothing of which is active. */
  ghost predicate FinalAck(s: State, k: Ack) {
    && (OneRequestEach(s.log) ==> k.attemptId !in s.runs.active)
    && (LongCommands(s.log) ==> k.bundle.attemptId == k.attemptId && Barred(s.store, s.now, k.bundle))
  }

  lemma {:induction false} NotBoth(s: State, a: AttemptId, r: RequestId)
    requires RunsOk(s.runs, s.log) && OneRequestEach(s.log)
    requires r in s.log.ended && StartedFor(s.log, r, a)
    ensures a !in s.runs.active
  {
  }

  lemma {:induction false} FinishCancelAcks(s: State, id: RequestId, a: AttemptId, fence: Fence, repair: bool, clean: bool, k: Ack)
    requires Inv(s) && FenceHeld(s, a, fence)
    requires k in FinishCancel(s, id, a, fence, repair, clean).log.acks && k !in s.log.acks
    ensures FinalAck(FinishCancel(s, id, a, fence, repair, clean), k)
  {
    if OneRequestEach(s.log) && a in s.cache.terminal {
      NotBoth(s, a, s.cache.terminal[a].run);
    }
  }

  lemma {:induction false} AfterFenceAcks(s: State, id: RequestId, command: CancelCommand, fence: Fence, clean: bool, k: Ack)
    requires Inv(s) && FenceHeld(s, command.request.attemptId, fence)
    requires k in AfterFence(s, id, command, fence, clean).log.acks && k !in s.log.acks
    ensures FinalAck(AfterFence(s, id, command, fence, clean), k)
  {
    if !(command.repair && command.request.attemptId !in s.runs.active) {
      FinishCancelAcks(s, id, command.request.attemptId, fence, command.repair, clean, k);
    }
  }

  lemma {:induction false} CancelAcks(cfg: Config, s: State, command: CancelCommand, clean: bool, k: Ack)
    requires Inv(s)
    requires k in Cancel(cfg, s, command, clean).log.acks && k !in s.log.acks
    ensures FinalAck(Cancel(cfg, s, command, clean), k)
  {
    var f, fence, fenced := CancelBegins(cfg, s, command, clean);
    if fenced {
      AfterFenceAcks(f, s.next, command, fence, clean, k);
    }
  }

  lemma {:induction false} ResumeCancelAcks(s: State, id: RequestId, a: AttemptId, fence: Fence, run: RequestId, repair: bool, clean: bool, k: Ack)
    requires Inv(s) && id in s.handlers && s.handlers[id] == AwaitingCancelled(a, fence, run, repair) && run in s.runs.settled
    requires k in ResumeCancel(s, id, a, fence, run, repair, clean).log.acks && k !in s.log.acks
    ensures FinalAck(ResumeCancel(s, id, a, fence, run, repair, clean), k)
  {
    assert PcOk(s, id, s.handlers[id]);
    if OneRequestEach(s.log) {
      NotBoth(s, a, run);
    }
  }

  lemma {:induction false} FencedReplyAcks(s: State, id: RequestId, bundle: Bundle, fence: Fence, k: Ack)
    requires Inv(s) && id in s.handlers && s.handlers[id] == FencedCleanup(bundle, fence)
    requires k in FencedReply(s, id, bundle, fence, true).log.acks && k !in s.log.acks
    ensures FinalAck(FencedReply(s, id, bundle, fence, true), k)
  {
    assert PcOk(s, id, s.handlers[id]);
    assert forall b :: b in s.runs.active ==> ActiveOk(s.log, b, s.runs.active[b]);
  }

  /** Every acknowledgement is sent while nothing of its attempt is active, and
      with a fence behind it that bars the bundle for good. */
  lemma {:induction false} NewAckIsFinal(cfg: Config, s: State, e: Event, k: Ack)
    requires Inv(s) && Enabled(s, s.now, e)
    requires k in React(cfg, s, e).log.acks && k !in s.log.acks
    ensures FinalAck(React(cfg, s, e), k)
  {
    match e {
      case FencedReplies(id, reconciled) => FencedReplyAcks(s, id, s.handlers[id].bundle, s.handlers[id].fence, k);
      case HandlerResumes(id, clean) =>
        var pc := s.handlers[id];
        if pc.AwaitingCancelled? {
          ResumeCancelAcks(s, id, pc.attemptId, pc.fence, pc.run, pc.repair, clean, k);
        }
      case CancelArrives(command, clean) => CancelAcks(cfg, s, command, clean, k);
      case RepairReconciled(id, ok, clean) =>
        if ok {
          assert PcOk(s, id, s.handlers[id]);
          FinishCancelAcks(s, id, s.handlers[id].attemptId, s.handlers[id].fence, true, clean, k);
        }
      case ExecuteDecides(id, ready, valid, accepted) =>
        DecideAcksNothing(s, id, s.handlers[id].bundle, Judge(cfg, s, s.handlers[id].bundle, ready, valid), accepted);
      case _ =>
    }
  }

  lemma {:induction false} DecideAcksNothing(s: State, id: RequestId, bundle: Bundle, verdict: Verdict, accepted: bool)
    ensures Decide(s, id, bundle, verdict, accepted).log.acks == s.log.acks
  {
  }

  lemma {:induction false} AcksKept(cfg: Config, s: State, e: Event)
    requires Inv(s) && AcksOk(s) && Enabled(s, s.now, e)
    ensures AcksOk(React(cfg, s, e))
  {
    var t := React(cfg, s, e);
    ReactGrows(cfg, s, e);
    if OneRequestEach(t.log) && LongCommands(t.log) {
      assert OneRequestEach(s.log) && LongCommands(s.log);
      forall k | k in t.log.acks
        ensures k.bundle.attemptId == k.attemptId && Dead(t, k.bundle)
      {
        if k in s.log.acks {
          DeadStays(cfg, s, e, k.bundle);
        } else {
          NewAckIsFinal(cfg, s, e, k);
        }
      }
    }
  }

  lemma {:induction false} TimeKeeps(s: State, at: int)
    requires Inv(s) && AcksOk(s) && s.now <= at
    ensures Inv(s.(now := at)) && AcksOk(s.(now := at))
  {
    var t := s.(now := at);
    forall i | i in t.handlers
      ensures PcOk(t, i, t.handlers[i])
    {
      PcStays(s, t, i, s.next);
    }
  }

  lemma {:induction false} StepKeeps(cfg: Config, s: State, at: int, e: Event)
    requires Inv(s) && AcksOk(s) && Enabled(s, at, e)
    ensures Inv(Step(cfg, s, at, e)) && AcksOk(Step(cfg, s, at, e))
  {
    TimeKeeps(s, at);
    ReactKeeps(cfg, s.(now := at), e);
    AcksKept(cfg, s.(now := at), e);
  }

  lemma {:induction false} RunKeeps(cfg: Config, s: State, run: seq<Timed>)
    requires Inv(s) && AcksOk(s) && CanRun(cfg, s, run)
    ensures Inv(After(cfg, s, run)) && AcksOk(After(cfg, s, run))
    decreases |run|
  {
    if run != [] {
      StepKeeps(cfg, s, run[0].at, run[0].event);
      RunKeeps(cfg, Step(cfg, s, run[0].at, run[0].event), run[1..]);
    }
  }

  /** Over every run: once an attempt's cancellation has been acknowledged, or its
      execute request answered, its bundle is not running and cannot start. */
  lemma {:induction false} AcknowledgedIsDead(cfg: Config, now: int, run: seq<Timed>, k: Ack)
    requires CanRun(cfg, Init(now), run)
    requires var s := After(cfg, Init(now), run); OneRequestEach(s.log) && LongCommands(s.log) && k in s.log.acks
    ensures Dead(After(cfg, Init(now), run), k.bundle)
  {
    RunKeeps(cfg, Init(now), run);
  }

  lemma {:induction false} AnsweredIsDead(s: State, id: RequestId)
    requires Inv(s) && OneRequestEach(s.log) && id in s.log.answers
    ensures Dead(s, s.log.requests[id])
  {
  }

  /** Some event of `run` starts an execution of `a`. */
  ghost predicate StartsIn(cfg: Config, s: State, run: seq<Timed>, a: AttemptId)
    requires CanRun(cfg, s, run)
    decreases |run|
  {
    run != [] &&
    (Starts(cfg, s.(now := run[0].at), run[0].event, a) || StartsIn(cfg, Step(cfg, s, run[0].at, run[0].event), run[1..], a))
  }

  /** Until the fence of `a` expires no event of any run starts `a`, restarts
      included: no assumption about the clients is needed for this. */
  lemma {:induction false} FencedNeverStarts(cfg: Config, s: State, run: seq<Timed>, a: AttemptId)
    requires Inv(s) && AcksOk(s) && CanRun(cfg, s, run)
    requires a in s.store.files
    requires forall i :: 0 <= i < |run| ==> run[i].at < s.store.files[a].expiresAt
    ensures !StartsIn(cfg, s, run, a)
    ensures a in After(cfg, s, run).store.files && After(cfg, s, run).store.files[a] == s.store.files[a]
    decreases |run|
  {
    if run != [] {
      var r := s.(now := run[0].at);
      var t := Step(cfg, s, run[0].at, run[0].event);
      TimeKeeps(s, run[0].at);
      FenceKept(cfg, r, run[0].event, a);
      if Starts(cfg, r, run[0].event, a) {
        FenceBarsStart(cfg, r, run[0].event, a);
      }
      StepKeeps(cfg, s, run[0].at, run[0].event);
      FencedNeverStarts(cfg, t, run[1..], a);
    }
  }

  /** No event starts an attempt that is fenced. */
  lemma {:induction false} FenceBarsStart(cfg: Config, s: State, e: Event, a: AttemptId)
    requires Inv(s) && Enabled(s, s.now, e)
    requires Starts(cfg, s, e, a)
    ensures a !in s.store.files
  {
    ActiveMoves(cfg, s, e, a);
  }

  lemma {:induction false} FenceKept(cfg: Config, s: State, e: Event, a: AttemptId)
    requires Inv(s) && Enabled(s, s.now, e)
    requires a in s.store.files && s.now < s.store.files[a].expiresAt
    ensures var store := React(cfg, s, e).store; a in store.files && store.files[a] == s.store.files[a]
  {
    ReactGrows(cfg, s, e);
    ReactKeepsTime(cfg, s, e);
  }

  lemma {:induction false} ReactKeepsTime(cfg: Config, s: State, e: Event)
    requires Enabled(s, s.now, e) && s.store.fences == s.store.files
    ensures React(cfg, s, e).now == s.now
  {
    match e {
      case CancelArrives(command, clean) =>
        var f, fence, fenced := CancelBegins(cfg, s, command, clean);
        AfterFenceLooks(f, s.next, command, fence, clean);
      case _ =>
    }
  }

  // ---- what a step adds to what has arrived -------------------------------

  ghost predicate Arrivals(s: State, t: State, commands: set<CancelCommand>) {
    t.log.requests == s.log.requests && t.log.commands <= s.log.commands + commands
  }

  lemma {:induction false} DecideArrivals(s: State, id: RequestId, bundle: Bundle, verdict: Verdict, accepted: bool)
    ensures Arrivals(s, Decide(s, id, bundle, verdict, accepted), {})
  {
  }

  lemma {:induction false} CancelArrivals(cfg: Config, s: State, command: CancelCommand, clean: bool)
    requires s.store.fences == s.store.files
    ensures Arrivals(s, Cancel(cfg, s, command, clean), {command})
  {
    var f, fence, fenced := CancelBegins(cfg, s, command, clean);
    AfterFenceLooks(f, s.next, command, fence, clean);
  }

  /** Only an arriving execute adds a request, and only an arriving cancel a command. */
  lemma {:induction false} ReactArrivals(cfg: Config, s: State, e: Event)
    requires Enabled(s, s.now, e) && s.store.fences == s.store.files && !e.ExecuteArrives?
    ensures Arrivals(s, React(cfg, s, e), if e.CancelArrives? then {e.command} else {})
  {
    match e {
      case ExecuteDecides(id, ready, valid, accepted) =>
        DecideArrivals(s, id, s.handlers[id].bundle, Judge(cfg, s, s.handlers[id].bundle, ready, valid), accepted);
      case CancelArrives(command, clean) => CancelArrivals(cfg, s, command, clean);
      case RepairReconciled(id, ok, clean) => FinishCancelLooks(s, id, s.handlers[id].attemptId, s.handlers[id].fence, true, clean);
      case _ =>
    }
  }

  // ---- why one request per attempt is needed ------------------------------

  ghost predicate Reaches(cfg: Config, s: State, t: State) {
    exists run :: CanRun(cfg, s, run) && After(cfg, s, run) == t
  }

  lemma {:induction false} ReachesSelf(cfg: Config, s: State)
    ensures Reaches(cfg, s, s)
  {
    assert CanRun(cfg, s, []) && After(cfg, s, []) == s;
  }

  lemma {:induction false} ReachesMore(cfg: Config, s: State, e: Event, t: State)
    requires Enabled(s, s.now, e) && Reaches(cfg, React(cfg, s, e), t)
    ensures Reaches(cfg, s, t)
  {
    var u := React(cfg, s, e);
    var run :| CanRun(cfg, u, run) && After(cfg, u, run) == t;
    var longer := [Timed(s.now, e)] + run;
    assert longer[1..] == run;
    assert s.(now := s.now) == s;
    assert CanRun(cfg, s, longer) && After(cfg, s, longer) == t;
  }

  const BUNDLE: Bundle := Bundle("a", "s", 1_000_000, 60_000, "")

  const CANCEL: CancelCommand := CancelCommand(Request("a", BUNDLE, "s", "p-s", 2_000_000), false)

  /** Two execute requests of one attempt, the first of which has started. */
  lemma {:induction false} FirstRequestStarts(cfg: Config, b: Bundle) returns (t: State)
    requires b == BUNDLE
    ensures Reaches(cfg, Init(0), t)
    ensures t == State(0, Store(map[], map[]), Runs(map["a" := Execution(b, 0, false, true)], map[], map[]), Cache([], map[]),
                       map[0 := AwaitingRun(b, 0), 1 := Reaping(b)], 2,
                       Log(map[0 := b, 1 := b], {0}, {0}, {}, map[], {}, {}))
  {
    var s0 := Init(0);
    var s1 := React(cfg, s0, ExecuteArrives(b));
    var s2 := React(cfg, s1, ExecuteArrives(b));
    assert s2.handlers == map[0 := Reaping(b), 1 := Reaping(b)];
    assert Judge(cfg, s2, b, true, true) == Launch;
    t := React(cfg, s2, ExecuteDecides(0, true, true, true));
    assert t == Start(s2, 0, b, true);
    assert t.handlers == map[0 := AwaitingRun(b, 0), 1 := Reaping(b)];
    ReachesSelf(cfg, t);
    ReachesMore(cfg, s2, ExecuteDecides(0, true, true, true), t);
    ReachesMore(cfg, s1, ExecuteArrives(b), t);
    ReachesMore(cfg, s0, ExecuteArrives(b), t);
  }

  /** The second starts after the first execution has left `active` and before its result
      is remembered. */
  lemma {:induction false} SecondRequestStarts(cfg: Config, b: Bundle) returns (t: State)
    requires b == BUNDLE
    ensures Reaches(cfg, Init(0), t)
    ensures t == State(0, Store(map[], map[]),
                       Runs(map["a" := Execution(b, 1, false, true)], map[0 := Terminal(b, Completed, 0)], map[]),
                       Cache([], map[]),
                       map[0 := AwaitingRun(b, 0), 1 := AwaitingRun(b, 1)], 2,
                       Log(map[0 := b, 1 := b], {0, 1}, {0, 1}, {0}, map[], {}, {}))
  {
    var s := FirstRequestStarts(cfg, b);
    var u := React(cfg, s, ExecutionEnds("a", Returned));
    assert u.runs == Runs(map[], map[0 := Terminal(b, Completed, 0)], map[]);
    assert Judge(cfg, u, b, true, true) == Launch;
    t := React(cfg, u, ExecuteDecides(1, true, true, true));
    assert t == Start(u, 1, b, true);
    assert t.handlers == map[0 := AwaitingRun(b, 0), 1 := AwaitingRun(b, 1)];
    ReachesSelf(cfg, t);
    ReachesMore(cfg, u, ExecuteDecides(1, true, true, true), t);
    ReachesMore(cfg, s, ExecutionEnds("a", Returned), t);
    ReachesThen(cfg, Init(0), s, t);
  }

  lemma {:induction false} ReachesThen(cfg: Config, s: State, t: State, u: State)
    requires Reaches(cfg, s, t) && Reaches(cfg, t, u)
    ensures Reaches(cfg, s, u)
  {
    var run :| CanRun(cfg, s, run) && After(cfg, s, run) == t;
    RunThen(cfg, s, run, u);
  }

  lemma {:induction false} RunThen(cfg: Config, s: State, run: seq<Timed>, u: State)
    requires CanRun(cfg, s, run) && Reaches(cfg, After(cfg, s, run), u)
    ensures Reaches(cfg, s, u)
    decreases |run|
  {
    if run != [] {
      RunThen(cfg, Step(cfg, s, run[0].at, run[0].event), run[1..], u);
      var rest :| CanRun(cfg, Step(cfg, s, run[0].at, run[0].event), rest)
               && After(cfg, Step(cfg, s, run[0].at, run[0].event), rest) == u;
      var longer := [run[0]] + rest;
      assert longer[1..] == rest;
      assert CanRun(cfg, s, longer) && After(cfg, s, longer) == u;
    }
  }

  /** The first result is remembered ... */
  lemma {:induction false} FirstResultRemembered(cfg: Config, s: State, b: Bundle) returns (t: State)
    requires b == BUNDLE
    requires s.now == 0 && s.store == Store(map[], map[]) && s.cache == Cache([], map[]) && s.log.commands == {}
    requires s.runs == Runs(map["a" := Execution(b, 1, false, true)], map[0 := Terminal(b, Completed, 0)], map[])
    requires s.handlers == map[0 := AwaitingRun(b, 0), 1 := AwaitingRun(b, 1)]
    ensures Reaches(cfg, s, t)
    ensures t.now == 0 && t.store == s.store && t.log.commands == {}
    ensures "a" in t.cache.terminal && t.cache.terminal["a"].bundle == b
    ensures t.runs.active == s.runs.active
  {
    var result := Terminal(b, Completed, 0);
    var r := React(cfg, s, ReaperCloses(0, true));
    assert r.runs.settled == map[0 := Some(result)];
    t := React(cfg, r, HandlerResumes(0, false));
    RememberIsBounded(r.cache, "a", result);
    ReachesSelf(cfg, t);
    ReachesMore(cfg, r, HandlerResumes(0, false), t);
    ReachesMore(cfg, s, ReaperCloses(0, true), t);
  }

  /** ... and a cancellation is answered from it while the second one runs. */
  lemma {:induction false} AckWhileRunning(cfg: Config, s: State, b: Bundle, c: CancelCommand) returns (t: State)
    requires cfg == Config("p", 10) && b == BUNDLE && c == CANCEL
    requires s.now == 0 && s.store == Store(map[], map[]) && s.log.commands == {}
    requires "a" in s.cache.terminal && s.cache.terminal["a"].bundle == b
    requires s.runs.active == map["a" := Execution(b, 1, false, true)]
    ensures Reaches(cfg, s, t)
    ensures LongCommands(t.log) && Ack("a", b, "s", "p-s", false) in t.log.acks && IsRunning(t, b)
  {
    t := React(cfg, s, CancelArrives(c, false));
    assert SafeId("a") && SafeId("s") && SafeId("p-s") && AppId("p", "s") == "p-s";
    var fence := Fence(b, "s", "p-s", 0, 2_000_000);
    assert Install(map[], 10, c.request, 0) == Some((map["a" := fence], fence));
    var f := Fenced(s.(next := s.next + 1), c, map["a" := fence], fence);
    assert Look(f, "a", fence) == Idle;
    assert t == Acknowledge(f, s.next, AckFor(f, "a", fence, false, false));
    ReachesSelf(cfg, t);
    ReachesMore(cfg, s, CancelArrives(c, false), t);
  }

  /** Without one request per attempt the promise fails. */
  lemma {:induction false} OneRequestIsNeeded() returns (cfg: Config, t: State, k: Ack)
    ensures Reaches(cfg, Init(0), t)
    ensures LongCommands(t.log) && k in t.log.acks && IsRunning(t, k.bundle) && !Dead(t, k.bundle)
  {
    cfg, k := Config("p", 10), Ack("a", BUNDLE, "s", "p-s", false);
    var s := SecondRequestStarts(cfg, BUNDLE);
    var r := FirstResultRemembered(cfg, s, BUNDLE);
    t := AckWhileRunning(cfg, r, BUNDLE, CANCEL);
    ReachesThen(cfg, Init(0), s, r);
    ReachesThen(cfg, Init(0), r, t);
  }
}
