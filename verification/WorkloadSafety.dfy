/** What the workload promises and the invariants behind it, step by step: what an entry
    of `active`, a fence, a remembered result and every suspended handler have to have
    behind them in the history, and that every handler segment and a restart keep it. */
module WorkloadSafety {
  import opened SandboxTypes
  import opened CancelFence
  import opened WorkloadModel
  import Distinctness

  // ---- the two facts about its clients that the workload relies on --------

  /** At most one execute command per attempt has arrived. */
  ghost predicate OneRequestEach(log: Log) {
    forall i, j :: i in log.requests && j in log.requests && log.requests[i].attemptId == log.requests[j].attemptId ==> i == j
  }

  /** Every accepted cancel command names its own bundle and outlives it by the
      cleanup margin. */
  ghost predicate LongCommands(log: Log) {
    forall c :: c in log.commands ==>
      c.request.bundle.attemptId == c.request.attemptId && c.request.expiresAt >= c.request.bundle.expiresAt + CLEANUP_MARGIN_MS
  }

  // ---- what it promises ---------------------------------------------------

  /** The candidate of bundle `b` is running. */
  ghost predicate IsRunning(s: State, b: Bundle) {
    b.attemptId in s.runs.active && s.runs.active[b.attemptId].bundle == b && s.runs.active[b.attemptId].launched
  }

  /** A fence of this attempt will be kept until the executor refuses the bundle,
      or the executor already refuses it. */
  ghost predicate Barred(store: Store, now: int, b: Bundle) {
    || (b.attemptId in store.files && store.files[b.attemptId].expiresAt >= b.expiresAt + CLEANUP_MARGIN_MS)
    || now > b.expiresAt + BUNDLE_SKEW_MS
  }

  ghost predicate DecidedFor(log: Log, a: AttemptId) {
    exists id :: id in log.decided && id in log.requests && log.requests[id].attemptId == a
  }

  /** Nothing of bundle `b` runs, and nothing of it can start running. */
  ghost predicate Dead(s: State, b: Bundle) {
    || (b.attemptId !in s.runs.active && DecidedFor(s.log, b.attemptId))
    || (!IsRunning(s, b) && Barred(s.store, s.now, b))
  }

  // ---- invariants ---------------------------------------------------------

  ghost predicate Backs(c: CancelCommand, a: AttemptId, f: Fence) {
    c.request.attemptId == a && c.request.bundle == f.bundle && c.request.expiresAt == f.expiresAt
  }

  ghost predicate StoreOk(store: Store, commands: set<CancelCommand>) {
    && store.fences == store.files
    && forall a :: a in store.files ==> exists c :: c in commands && Backs(c, a, store.files[a])
  }

  ghost predicate LogOk(log: Log, next: RequestId) {
    && (forall i :: i in log.requests ==> i < next)
    && log.decided <= log.requests.Keys
    && log.started <= log.decided
    && log.ended <= log.started
    && log.answers.Keys <= log.decided
    && log.answers.Keys * log.started <= log.ended
    && (forall i :: i in log.answers && log.answers[i].Told? ==> log.answers[i].result.bundle == log.requests[i])
  }

  /** The execution owned by request `r` was started for attempt `a`. */
  ghost predicate StartedFor(log: Log, r: RequestId, a: AttemptId) {
    r in log.started && r in log.requests && log.requests[r].attemptId == a
  }

  ghost predicate ActiveOk(log: Log, a: AttemptId, x: Execution) {
    && StartedFor(log, x.owner, a)
    && x.owner !in log.ended
    && log.requests[x.owner] == x.bundle
  }

  ghost predicate TerminalOk(log: Log, r: RequestId, t: Terminal) {
    t.run == r && r in log.ended && StartedFor(log, r, t.bundle.attemptId) && log.requests[r] == t.bundle
  }

  ghost predicate RunsOk(runs: Runs, log: Log) {
    && |runs.active| <= 1
    && (forall a :: a in runs.active ==> ActiveOk(log, a, runs.active[a]))
    && (forall r :: r in runs.closing ==> TerminalOk(log, r, runs.closing[r]))
    && (forall r :: r in runs.settled ==> r in log.ended)
    && (forall r :: r in runs.settled && runs.settled[r].Some? ==> TerminalOk(log, r, runs.settled[r].value))
  }

  ghost predicate CacheOk(cache: Cache, log: Log) {
    && CacheShape(cache)
    && (forall a :: a in cache.terminal ==> a == cache.terminal[a].bundle.attemptId && TerminalOk(log, cache.terminal[a].run, cache.terminal[a]))
  }

  ghost predicate FenceHeld(s: State, a: AttemptId, f: Fence) {
    LongCommands(s.log) ==> f.bundle.attemptId == a && Barred(s.store, s.now, f.bundle)
  }

  ghost predicate PcOk(s: State, i: RequestId, pc: Pc) {
    i < s.next &&
    match pc
    case Reaping(b) => i in s.log.requests && s.log.requests[i] == b && i !in s.log.decided
    case FencedCleanup(b, f) => i in s.log.requests && s.log.requests[i] == b && i !in s.log.decided && FenceHeld(s, b.attemptId, f)
    case AwaitingRun(b, run) =>
      && i in s.log.decided && i in s.log.requests && s.log.requests[i] == b
      && (i != run ==> i !in s.log.started)
      && StartedFor(s.log, run, b.attemptId) && s.log.requests[run] == b
    case RepairCleanup(a, f) => i !in s.log.requests && FenceHeld(s, a, f)
    case AwaitingCancelled(a, f, run, _) => i !in s.log.requests && FenceHeld(s, a, f) && StartedFor(s.log, run, a)
    case Pruning(_) => i !in s.log.requests
  }

  ghost predicate HandlersOk(s: State) {
    forall i :: i in s.handlers ==> PcOk(s, i, s.handlers[i])
  }

  ghost predicate AcksOk(s: State) {
    OneRequestEach(s.log) && LongCommands(s.log) ==>
      forall k :: k in s.log.acks ==> k.bundle.attemptId == k.attemptId && Dead(s, k.bundle)
  }

  ghost predicate Inv(s: State) {
    StoreOk(s.store, s.log.commands) && LogOk(s.log, s.next) && RunsOk(s.runs, s.log) && CacheOk(s.cache, s.log) && HandlersOk(s)
  }

  // ---- how a step may change what the invariant reads ---------------------

  /** `s` to `t` without losing history, dropping a fence before its time, or
      deciding a request whose handler still has to. */
  ghost predicate Grows(s: State, t: State) {
    && s.now <= t.now
    && s.next <= t.next
    && LogGrows(s.log, t.log)
    && StoreGrows(s.store, t.store, t.now)
  }

  ghost predicate LogGrows(l: Log, m: Log) {
    && (forall i :: i in l.requests ==> i in m.requests && m.requests[i] == l.requests[i])
    && l.decided <= m.decided && l.started <= m.started && l.ended <= m.ended
    && l.answers.Keys <= m.answers.Keys && l.acks <= m.acks && l.commands <= m.commands
  }

  ghost predicate StoreGrows(k: Store, m: Store, now: int) {
    forall a :: a in k.files ==> (if a in m.files then m.files[a] == k.files[a] else k.files[a].expiresAt <= now)
  }

  lemma {:induction false} DecideGrows(s: State, id: RequestId, bundle: Bundle, verdict: Verdict, accepted: bool)
    ensures Grows(s, Decide(s, id, bundle, verdict, accepted))
  {
  }

  /** `t` is `s` after a handler looked at it: no history lost but for new
      acknowledgements, and the same fences. */
  ghost predicate Looked(s: State, t: State) {
    && t.now == s.now && t.next == s.next && t.store == s.store && t.cache == s.cache
    && t.log == s.log.(acks := t.log.acks)
    && s.log.acks <= t.log.acks
  }

  lemma {:induction false} LookedGrows(s: State, t: State, u: State)
    requires Grows(s, t) && Looked(t, u)
    ensures Grows(s, u)
  {
  }

  lemma {:induction false} FinishCancelLooks(s: State, id: RequestId, a: AttemptId, fence: Fence, repair: bool, clean: bool)
    ensures Looked(s, FinishCancel(s, id, a, fence, repair, clean))
  {
  }

  lemma {:induction false} AfterFenceLooks(s: State, id: RequestId, command: CancelCommand, fence: Fence, clean: bool)
    ensures Looked(s, AfterFence(s, id, command, fence, clean))
  {
    FinishCancelLooks(s, id, command.request.attemptId, fence, command.repair, clean);
  }

  lemma {:induction false} FencedGrows(s: State, command: CancelCommand, maxEntries: nat)
    requires s.store.fences == s.store.files
    requires Install(s.store.fences, maxEntries, command.request, s.now).Some?
    ensures var r := Install(s.store.fences, maxEntries, command.request, s.now).value;
      Grows(s, Fenced(s, command, r.0, r.1))
  {
  }

  /** A cancel command first installs its fence, then looks at what is active. */
  lemma {:induction false} CancelBegins(cfg: Config, s: State, command: CancelCommand, clean: bool) returns (f: State, fence: Fence, fenced: bool)
    requires s.store.fences == s.store.files
    ensures Grows(s, f)
    ensures f.runs == s.runs && f.log.acks == s.log.acks && f.now == s.now
    ensures Cancel(cfg, s, command, clean) == if fenced then AfterFence(f, s.next, command, fence, clean) else f
    ensures Inv(s) ==> Inv(f) && (fenced ==> FenceHeld(f, command.request.attemptId, fence))
    ensures f.next == s.next + 1 && f.log.requests == s.log.requests
    ensures f.log.commands <= s.log.commands + {command}
  {
    var r := s.(next := s.next + 1);
    if Inv(s) {
      QuietStep(s, r, s.next);
    }
    var admitted := Admit(cfg, r, command);
    f, fenced := admitted.0, admitted.1.Some?;
    if fenced {
      fence := admitted.1.value;
      FencedGrows(r, command, cfg.maxEntries);
      if Inv(s) {
        FencedKeeps(r, command, cfg.maxEntries);
      }
    } else {
      fence := Fence(command.request.bundle, "", "", 0, 0);
    }
  }

  lemma {:induction false} CancelGrows(cfg: Config, s: State, command: CancelCommand, clean: bool)
    requires s.store.fences == s.store.files
    ensures Grows(s, Cancel(cfg, s, command, clean))
  {
    var f, fence, fenced := CancelBegins(cfg, s, command, clean);
    if fenced {
      AfterFenceLooks(f, s.next, command, fence, clean);
      LookedGrows(s, f, Cancel(cfg, s, command, clean));
    }
  }

  lemma {:induction false} ReactGrows(cfg: Config, s: State, e: Event)
    requires Enabled(s, s.now, e) && s.store.fences == s.store.files && LogOk(s.log, s.next)
    ensures Grows(s, React(cfg, s, e))
  {
    match e {
      case ExecuteDecides(id, ready, valid, accepted) =>
        DecideGrows(s, id, s.handlers[id].bundle, Judge(cfg, s, s.handlers[id].bundle, ready, valid), accepted);
      case CancelArrives(command, clean) => CancelGrows(cfg, s, command, clean);
      case RepairReconciled(id, ok, clean) => FinishCancelLooks(s, id, s.handlers[id].attemptId, s.handlers[id].fence, true, clean);
      case _ =>
    }
  }

  lemma {:induction false} BarredStays(s: State, t: State, b: Bundle)
    requires Grows(s, t)
    requires Barred(s.store, s.now, b)
    ensures Barred(t.store, t.now, b)
  {
  }

  /** `t` differs from `s` in the handler `id` only. */
  ghost predicate OneHandler(s: State, t: State, id: RequestId) {
    && (forall i :: i in t.handlers && i != id ==> i in s.handlers && t.handlers[i] == s.handlers[i])
    && t.log.decided <= s.log.decided + {id}
    && t.log.started <= s.log.started + {id}
    && t.log.requests.Keys <= s.log.requests.Keys + {id}
  }

  lemma {:induction false} PcStays(s: State, t: State, i: RequestId, id: RequestId)
    requires Grows(s, t) && OneHandler(s, t, id) && i != id
    requires i in s.handlers && PcOk(s, i, s.handlers[i])
    ensures PcOk(t, i, s.handlers[i])
  {
  }

  lemma {:induction false} HandlersStay(s: State, t: State, id: RequestId)
    requires HandlersOk(s) && Grows(s, t) && OneHandler(s, t, id)
    requires id in t.handlers ==> PcOk(t, id, t.handlers[id])
    ensures HandlersOk(t)
  {
    forall i | i in t.handlers
      ensures PcOk(t, i, t.handlers[i])
    {
      if i != id {
        PcStays(s, t, i, id);
      }
    }
  }

  lemma {:induction false} RunsStay(runs: Runs, l: Log, m: Log)
    requires RunsOk(runs, l) && LogGrows(l, m) && l.ended == m.ended
    ensures RunsOk(runs, m)
  {
  }

  lemma {:induction false} CacheStays(cache: Cache, l: Log, m: Log)
    requires CacheOk(cache, l) && LogGrows(l, m)
    ensures CacheOk(cache, m)
  {
  }

  lemma {:induction false} StoreStays(store: Store, l: set<CancelCommand>, m: set<CancelCommand>)
    requires StoreOk(store, l) && l <= m
    ensures StoreOk(store, m)
  {
  }

  /** A step that moves only the handler `id` and grows the history. */
  lemma {:induction false} QuietStep(s: State, t: State, id: RequestId)
    requires Inv(s) && Grows(s, t) && OneHandler(s, t, id)
    requires t.store == s.store && t.runs == s.runs && t.cache == s.cache && t.log.ended == s.log.ended
    requires LogOk(t.log, t.next)
    requires id in t.handlers ==> PcOk(t, id, t.handlers[id])
    ensures Inv(t)
  {
    HandlersStay(s, t, id);
    RunsStay(s.runs, s.log, t.log);
    CacheStays(s.cache, s.log, t.log);
    StoreStays(s.store, s.log.commands, t.log.commands);
  }

  lemma {:induction false} ReplyKeeps(s: State, id: RequestId, answer: Answer)
    requires Inv(s) && id in s.log.requests && (id in s.log.started ==> id in s.log.ended)
    requires answer.Told? ==> answer.result.bundle == s.log.requests[id]
    ensures Inv(Reply(s, id, answer))
  {
    QuietStep(s, Reply(s, id, answer), id);
  }

  lemma {:induction false} AwaitKeeps(s: State, id: RequestId, bundle: Bundle, run: RequestId)
    requires Inv(s) && id in s.handlers && s.handlers[id] == Reaping(bundle)
    requires StartedFor(s.log, run, bundle.attemptId) && s.log.requests[run] == bundle
    ensures Inv(Await(s, id, bundle, run))
  {
    QuietStep(s, Await(s, id, bundle, run), id);
  }

  lemma {:induction false} StartKeeps(s: State, id: RequestId, bundle: Bundle, accepted: bool)
    requires Inv(s) && id in s.handlers && s.handlers[id] == Reaping(bundle)
    requires s.runs.active == map[]
    ensures Inv(Start(s, id, bundle, accepted))
  {
    var t := Start(s, id, bundle, accepted);
    HandlersStay(s, t, id);
    CacheStays(s.cache, s.log, t.log);
    assert t.runs.active.Keys == {bundle.attemptId};
    RunsStay(s.runs, s.log, t.log);
  }

  lemma {:induction false} FencedCleanupKeeps(s: State, id: RequestId, bundle: Bundle, fence: Fence)
    requires Inv(s) && id in s.handlers && s.handlers[id] == Reaping(bundle)
    requires bundle.attemptId in s.store.fences && s.store.fences[bundle.attemptId] == fence && fence.bundle == bundle
    ensures Inv(Suspend(s, id, FencedCleanup(bundle, fence)))
  {
  }

  lemma {:induction false} FenceInStoreIsHeld(s: State, a: AttemptId)
    requires StoreOk(s.store, s.log.commands) && a in s.store.files
    ensures FenceHeld(s, a, s.store.files[a])
  {
  }

  lemma {:induction false} DecideKeeps(cfg: Config, s: State, id: RequestId, bundle: Bundle, ready: bool, valid: bool, accepted: bool)
    requires Inv(s) && id in s.handlers && s.handlers[id] == Reaping(bundle)
    ensures Inv(Decide(s, id, bundle, Judge(cfg, s, bundle, ready, valid), accepted))
  {
    JudgeIsSound(cfg, s, id, bundle, ready, valid);
    match Judge(cfg, s, bundle, ready, valid) {
      case Launch => StartKeeps(s, id, bundle, accepted);
      case Join(run) => AwaitKeeps(s, id, bundle, run);
      case CleanupOnly(fence) => FencedCleanupKeeps(s, id, bundle, fence);
      case NotReady => ReplyKeeps(s, id, Unready);
      case Invalid => ReplyKeeps(s, id, BadCommand);
      case Replay(result) => ReplyKeeps(s, id, Told(result));
      case Collision => ReplyKeeps(s, id, Collided);
      case Busy => ReplyKeeps(s, id, Overloaded);
    }
  }

  lemma {:induction false} JudgeIsSound(cfg: Config, s: State, id: RequestId, bundle: Bundle, ready: bool, valid: bool)
    requires Inv(s) && id in s.handlers && s.handlers[id] == Reaping(bundle)
    ensures id in s.log.requests && id !in s.log.started
    ensures match Judge(cfg, s, bundle, ready, valid)
            case Launch => s.runs.active == map[]
            case Join(run) => StartedFor(s.log, run, bundle.attemptId) && s.log.requests[run] == bundle
            case Replay(result) => result.bundle == bundle
            case CleanupOnly(fence) =>
              bundle.attemptId in s.store.fences && s.store.fences[bundle.attemptId] == fence && fence.bundle == bundle
            case _ => true
  {
    assert PcOk(s, id, s.handlers[id]);
  }

  lemma {:induction false} DropKeeps(s: State, id: RequestId)
    requires Inv(s)
    ensures Inv(Drop(s, id))
  {
  }

  lemma {:induction false} AcknowledgeKeeps(s: State, id: RequestId, ack: Ack)
    requires Inv(s)
    ensures Inv(Acknowledge(s, id, ack))
  {
    QuietStep(s, Acknowledge(s, id, ack), id);
  }

  lemma {:induction false} ArriveKeeps(s: State, bundle: Bundle)
    requires Inv(s)
    ensures Inv(Arrive(s, bundle))
  {
    QuietStep(s, Arrive(s, bundle), s.next);
  }

  lemma {:induction false} EndRunKeeps(s: State, a: AttemptId, ended: Ended)
    requires Inv(s) && a in s.runs.active
    ensures Inv(EndRun(s, a, ended))
  {
    var t := EndRun(s, a, ended);
    HandlersStay(s, t, s.next);
    CacheStays(s.cache, s.log, t.log);
    OnlyActive(s.runs.active, a);
    assert t.runs.active == map[];
  }

  lemma {:induction false} OnlyActive(active: map<AttemptId, Execution>, a: AttemptId)
    requires |active| <= 1 && a in active
    ensures forall b :: b in active ==> b == a
  {
    forall b | b in active
      ensures b == a
    {
      if b != a {
        assert {a, b} <= active.Keys;
        Distinctness.SmallerSet({a, b}, active.Keys);
      }
    }
  }

  lemma {:induction false} CloseRunKeeps(s: State, run: RequestId, ok: bool)
    requires Inv(s) && run in s.runs.closing
    ensures Inv(CloseRun(s, run, ok))
  {
    HandlersStay(s, CloseRun(s, run, ok), s.next);
  }

  lemma {:induction false} AbortKeeps(s: State, a: AttemptId)
    requires Inv(s) && a in s.runs.active
    ensures Inv(Abort(s, a))
  {
    var t := Abort(s, a);
    HandlersStay(s, t, s.next);
    OnlyActive(s.runs.active, a);
    assert t.runs.active.Keys == s.runs.active.Keys;
    assert |t.runs.active| == |t.runs.active.Keys|;
  }

  lemma {:induction false} RememberIsBounded(cache: Cache, a: AttemptId, t: Terminal)
    requires CacheShape(cache)
    ensures var kept := Remember(cache, a, t);
      && CacheShape(kept)
      && a in kept.terminal && kept.terminal[a] == t
      && (forall k :: k in kept.terminal && k != a ==> k in cache.terminal && kept.terminal[k] == cache.terminal[k])
  {
    var grown := if a in cache.order then cache.order else cache.order + [a];
    var kept := Trim(grown);
    assert |grown| > TERMINAL_CACHE ==> Trim(grown[1..]) == grown[1..];
    if a in cache.order {
      assert kept == cache.order;
    } else {
      assert kept[|kept| - 1] == a;
    }
  }

  lemma {:induction false} RememberKeeps(s: State, a: AttemptId, t: Terminal)
    requires Inv(s) && TerminalOk(s.log, t.run, t) && t.bundle.attemptId == a
    ensures Inv(s.(cache := Remember(s.cache, a, t)))
  {
    RememberIsBounded(s.cache, a, t);
    HandlersStay(s, s.(cache := Remember(s.cache, a, t)), s.next);
  }

  lemma {:induction false} ResumeRunKeeps(s: State, id: RequestId, bundle: Bundle, run: RequestId)
    requires Inv(s) && id in s.handlers && s.handlers[id] == AwaitingRun(bundle, run) && run in s.runs.settled
    ensures Inv(ResumeRun(s, id, bundle, run))
  {
    match s.runs.settled[run] {
      case None => ReplyKeeps(s, id, Crashed);
      case Some(t) =>
        if run == id {
          RememberKeeps(s, bundle.attemptId, t);
          ReplyKeeps(s.(cache := Remember(s.cache, bundle.attemptId, t)), id, Told(t));
        } else {
          ReplyKeeps(s, id, Told(t));
        }
    }
  }

  lemma {:induction false} ResumeCancelKeeps(s: State, id: RequestId, a: AttemptId, fence: Fence, run: RequestId, repair: bool, clean: bool)
    requires Inv(s) && id in s.handlers && s.handlers[id] == AwaitingCancelled(a, fence, run, repair) && run in s.runs.settled
    ensures Inv(ResumeCancel(s, id, a, fence, run, repair, clean))
  {
    if s.runs.settled[run].None? {
      DropKeeps(s, id);
    } else {
      var t := s.runs.settled[run].value;
      RememberKeeps(s, a, t);
      AcknowledgeKeeps(s.(cache := Remember(s.cache, a, t)), id, AckFor(s, a, fence, repair, clean));
    }
  }

  lemma {:induction false} AwaitCancelledKeeps(s: State, id: RequestId, a: AttemptId, fence: Fence, repair: bool)
    requires Inv(s) && id < s.next && id !in s.log.requests && FenceHeld(s, a, fence) && a in s.runs.active
    ensures Inv(Suspend(Abort(s, a), id, AwaitingCancelled(a, fence, s.runs.active[a].owner, repair)))
  {
    AbortKeeps(s, a);
    QuietStep(Abort(s, a), Suspend(Abort(s, a), id, AwaitingCancelled(a, fence, s.runs.active[a].owner, repair)), id);
  }

  lemma {:induction false} FinishCancelKeeps(s: State, id: RequestId, a: AttemptId, fence: Fence, repair: bool, clean: bool)
    requires Inv(s) && id < s.next && id !in s.log.requests && FenceHeld(s, a, fence)
    ensures Inv(FinishCancel(s, id, a, fence, repair, clean))
  {
    match Look(s, a, fence) {
      case Idle => AcknowledgeKeeps(s, id, AckFor(s, a, fence, repair, clean));
      case Collides => DropKeeps(s, id);
      case Running(_) => AwaitCancelledKeeps(s, id, a, fence, repair);
    }
  }

  lemma {:induction false} FencedKeeps(s: State, command: CancelCommand, maxEntries: nat)
    requires Inv(s)
    requires Install(s.store.fences, maxEntries, command.request, s.now).Some?
    ensures var r := Install(s.store.fences, maxEntries, command.request, s.now).value;
      var t := Fenced(s, command, r.0, r.1);
      Inv(t) && FenceHeld(t, command.request.attemptId, r.1)
  {
    var r := Install(s.store.fences, maxEntries, command.request, s.now).value;
    var a := command.request.attemptId;
    var t := Fenced(s, command, r.0, r.1);
    FencedGrows(s, command, maxEntries);
    HandlersStay(s, t, s.next);
    RunsStay(s.runs, s.log, t.log);
    CacheStays(s.cache, s.log, t.log);
    StoreStays(s.store, s.log.commands, t.log.commands);
    assert t.store.fences == t.store.files;
    if a !in s.store.files {
      assert command in t.log.commands && Backs(command, a, r.1);
    }
    FenceInStoreIsHeld(t, a);
  }

  lemma {:induction false} RepairCleanupKeeps(s: State, id: RequestId, a: AttemptId, fence: Fence)
    requires Inv(s) && id < s.next && id !in s.log.requests && FenceHeld(s, a, fence)
    ensures Inv(Suspend(s, id, RepairCleanup(a, fence)))
  {
    QuietStep(s, Suspend(s, id, RepairCleanup(a, fence)), id);
  }

  lemma {:induction false} AfterFenceKeeps(s: State, id: RequestId, command: CancelCommand, fence: Fence, clean: bool)
    requires Inv(s) && id < s.next && id !in s.log.requests && FenceHeld(s, command.request.attemptId, fence)
    ensures Inv(AfterFence(s, id, command, fence, clean))
  {
    var a := command.request.attemptId;
    if command.repair && a !in s.runs.active {
      RepairCleanupKeeps(s, id, a, fence);
    } else {
      FinishCancelKeeps(s, id, a, fence, command.repair, clean);
    }
  }

  lemma {:induction false} CancelKeeps(cfg: Config, s: State, command: CancelCommand, clean: bool)
    requires Inv(s)
    ensures Inv(Cancel(cfg, s, command, clean))
  {
    var f, fence, fenced := CancelBegins(cfg, s, command, clean);
    if fenced {
      AfterFenceKeeps(f, s.next, command, fence, clean);
    }
  }

  lemma {:induction false} PruneKeeps(s: State, id: RequestId, batch: seq<AttemptId>, absent: bool)
    requires Inv(s) && id in s.handlers && s.handlers[id] == Pruning(batch) && batch != []
    ensures Inv(Prune(s, id, batch, absent))
  {
    DropKeeps(s, id);
    var rest := Suspend(s, id, Pruning(batch[1..]));
    QuietStep(s, rest, id);
    if Removable(s.store.fences, batch[0], s.now) {
      HandlersStay(rest, Prune(s, id, batch, true), id);
    }
  }

  lemma {:induction false} RestartKeeps(s: State)
    requires Inv(s)
    ensures Inv(Restarted(s))
  {
  }

  lemma {:induction false} ReactKeeps(cfg: Config, s: State, e: Event)
    requires Inv(s) && Enabled(s, s.now, e)
    ensures Inv(React(cfg, s, e))
  {
    match e {
      case ExecuteArrives(bundle) => ArriveKeeps(s, bundle);
      case ExecuteDecides(id, ready, valid, accepted) => DecideKeeps(cfg, s, id, s.handlers[id].bundle, ready, valid, accepted);
      case FencedReplies(id, reconciled) =>
        var r := Reply(s, id, FencedOff);
        ReplyKeeps(s, id, FencedOff);
        ReplyKeeps(s, id, Unreconciled);
        AcknowledgeKeeps(r, id, AckFor(r, s.handlers[id].bundle.attemptId, s.handlers[id].fence, false, false));
      case ExecutionEnds(a, ended) => EndRunKeeps(s, a, ended);
      case ReaperCloses(run, ok) => CloseRunKeeps(s, run, ok);
      case HandlerResumes(id, clean) =>
        match s.handlers[id] {
          case AwaitingRun(bundle, run) => ResumeRunKeeps(s, id, bundle, run);
          case AwaitingCancelled(a, fence, run, repair) => ResumeCancelKeeps(s, id, a, fence, run, repair, clean);
        }
      case CancelArrives(command, clean) => CancelKeeps(cfg, s, command, clean);
      case RepairReconciled(id, ok, clean) =>
        if ok {
          FinishCancelKeeps(s, id, s.handlers[id].attemptId, s.handlers[id].fence, true, clean);
        } else {
          DropKeeps(s, id);
        }
      case HealthGate(clean, batch) => HealthKeeps(s, batch);
      case PruneStep(id, absent) => PruneKeeps(s, id, s.handlers[id].batch, absent);
      case Restart => RestartKeeps(s);
    }
  }

  lemma {:induction false} HealthKeeps(s: State, batch: seq<AttemptId>)
    requires Inv(s)
    ensures Inv(Suspend(s, s.next, Pruning(batch)).(next := s.next + 1))
  {
    QuietStep(s, Suspend(s, s.next, Pruning(batch)).(next := s.next + 1), s.next);
  }
}
