/** The sandbox workload as a state machine.  Every handler is cut at its await
    points; one event is the code that runs between two of them, without
    interruption.  Events carry the results of what was awaited. */
module WorkloadModel {
  import opened SandboxTypes
  import opened CancelFence

  /** Terminal results kept in memory for idempotent retries. */
  const TERMINAL_CACHE: nat := 512

  type RequestId = nat

  datatype Outcome = Completed | CancelledClean | CleanupFailed | OtherFailure

  datatype Terminal = Terminal(bundle: Bundle, outcome: Outcome, run: RequestId)

  /** An entry of `active`.  `launched` says that the executor accepted the bundle
      and the candidate really runs. */
  datatype Execution = Execution(bundle: Bundle, owner: RequestId, aborted: bool, launched: bool)

  datatype CancelCommand = CancelCommand(request: Request, repair: bool)

  /** A signed acknowledgement. */
  datatype Ack = Ack(attemptId: AttemptId, bundle: Bundle, slug: string, appId: string, repairReceipt: bool)

  /** Where a suspended handler continues. */
  datatype Pc =
    | Reaping(bundle: Bundle)
    | FencedCleanup(bundle: Bundle, fence: Fence)
    | AwaitingRun(bundle: Bundle, run: RequestId)
    | RepairCleanup(attemptId: AttemptId, fence: Fence)
    | AwaitingCancelled(attemptId: AttemptId, fence: Fence, run: RequestId, repair: bool)
    | Pruning(batch: seq<AttemptId>)

  datatype Ended = Returned | Threw(cleanupVerified: bool, cleanupFailed: bool)

  /** The fence directory and its copy in memory. */
  datatype Store = Store(files: Fences, fences: Fences)

  /** `active` and the promises that executions resolve. */
  datatype Runs = Runs(
    active: map<AttemptId, Execution>,
    closing: map<RequestId, Terminal>,
    settled: map<RequestId, Option<Terminal>>)

  /** Terminal results in insertion order. */
  datatype Cache = Cache(order: seq<AttemptId>, terminal: map<AttemptId, Terminal>)

  /** The reply to an execute request: a refusal, a terminal result, the
      acknowledgement of a fence, a fence whose cleanup failed, or an execution
      whose reaper failed. */
  datatype Answer =
    | Unready
    | BadCommand
    | Collided
    | Overloaded
    | Told(result: Terminal)
    | FencedOff
    | Unreconciled
    | Crashed

  /** History.  Execute requests are named by their handlers: which arrived, which
      have been decided, which started an execution, which of these executions
      ended, and how requests were answered. */
  datatype Log = Log(
    requests: map<RequestId, Bundle>,
    decided: set<RequestId>,
    started: set<RequestId>,
    ended: set<RequestId>,
    answers: map<RequestId, Answer>,
    acks: set<Ack>,
    commands: set<CancelCommand>)

  datatype State = State(
    now: int,
    store: Store,
    runs: Runs,
    cache: Cache,
    handlers: map<RequestId, Pc>,
    next: RequestId,
    log: Log)

  datatype Event =
    | ExecuteArrives(bundle: Bundle)
    | ExecuteDecides(id: RequestId, cleanupReady: bool, commandValid: bool, accepted: bool)
    | FencedReplies(id: RequestId, reconciled: bool)
    | ExecutionEnds(attemptId: AttemptId, ended: Ended)
    | ReaperCloses(run: RequestId, ok: bool)
    | HandlerResumes(id: RequestId, ledgerClean: bool)
    | CancelArrives(command: CancelCommand, ledgerClean: bool)
    | RepairReconciled(id: RequestId, ok: bool, ledgerClean: bool)
    | HealthGate(clean: bool, batch: seq<AttemptId>)
    | PruneStep(id: RequestId, appAbsent: bool)
    | Restart

  datatype Config = Config(appPrefix: string, maxEntries: nat)

  function Init(now: int): State {
    State(now, Store(map[], map[]), Runs(map[], map[], map[]), Cache([], map[]), map[], 0, Log(map[], {}, {}, {}, map[], {}, {}))
  }

  // ---- the terminal cache -------------------------------------------------

  function Trim(order: seq<AttemptId>): (kept: seq<AttemptId>) {
    if |order| > TERMINAL_CACHE then Trim(order[1..]) else order
  }

  ghost predicate CacheShape(cache: Cache) {
    && |cache.order| <= TERMINAL_CACHE
    && (forall a :: a in cache.terminal <==> a in cache.order)
    && (forall i, j :: 0 <= i < j < |cache.order| ==> cache.order[i] != cache.order[j])
  }

  /** The entries whose keys are still listed. */
  function Restrict(terminal: map<AttemptId, Terminal>, order: seq<AttemptId>): map<AttemptId, Terminal> {
    map k | k in terminal && k in order :: terminal[k]
  }

  function Remember(cache: Cache, a: AttemptId, t: Terminal): Cache {
    var order := Trim(if a in cache.order then cache.order else cache.order + [a]);
    Cache(order, Restrict(cache.terminal[a := t], order))
  }

  // ---- the decision of each handler segment -------------------------------

  function Drop(s: State, id: RequestId): State {
    s.(handlers := s.handlers - {id})
  }

  function Suspend(s: State, id: RequestId, pc: Pc): State {
    s.(handlers := s.handlers[id := pc])
  }

  function Reply(s: State, id: RequestId, answer: Answer): State {
    Drop(s, id).(log := s.log.(decided := s.log.decided + {id}, answers := s.log.answers[id := answer]))
  }

  /** The handler of an execute request waits for an execution. */
  function Await(s: State, id: RequestId, bundle: Bundle, run: RequestId): State {
    Suspend(s, id, AwaitingRun(bundle, run)).(log := s.log.(decided := s.log.decided + {id}))
  }

  function Acknowledge(s: State, id: RequestId, ack: Ack): State {
    Drop(s, id).(log := s.log.(acks := s.log.acks + {ack}))
  }

  function AckFor(s: State, a: AttemptId, fence: Fence, repair: bool, ledgerClean: bool): Ack {
    Ack(a, fence.bundle, fence.slug, fence.appId, repair && ledgerClean && a !in s.runs.active)
  }

  function Start(s: State, id: RequestId, bundle: Bundle, accepted: bool): State {
    var execution := Execution(bundle, id, false, accepted && s.now <= bundle.expiresAt + BUNDLE_SKEW_MS);
    Suspend(s, id, AwaitingRun(bundle, id)).(
      runs := s.runs.(active := s.runs.active[bundle.attemptId := execution]),
      log := s.log.(decided := s.log.decided + {id}, started := s.log.started + {id}))
  }

  function Arrive(s: State, bundle: Bundle): State {
    Suspend(s, s.next, Reaping(bundle)).(next := s.next + 1, log := s.log.(requests := s.log.requests[s.next := bundle]))
  }

  /** What the execute handler decides once the candidate reaper has returned. */
  datatype Verdict =
    | NotReady                    // 503
    | Invalid                     // 400
    | Replay(result: Terminal)    // the remembered result
    | Join(run: RequestId)        // wait for the execution under way
    | CleanupOnly(fence: Fence)   // a late execute of a cancelled attempt
    | Collision                   // 409
    | Busy                        // 429
    | Launch

  function Judge(cfg: Config, s: State, bundle: Bundle, cleanupReady: bool, commandValid: bool): Verdict {
    var a := bundle.attemptId;
    if !cleanupReady then NotReady
    else if !commandValid then Invalid
    else if a in s.cache.terminal then
      if s.cache.terminal[a].bundle == bundle then Replay(s.cache.terminal[a]) else Collision
    else if a in s.runs.active then
      if s.runs.active[a].bundle == bundle then Join(s.runs.active[a].owner) else Collision
    else if a in s.store.fences then
      var fence := s.store.fences[a];
      if fence.bundle == bundle && fence.slug == bundle.slug && fence.appId == AppId(cfg.appPrefix, bundle.slug)
      then CleanupOnly(fence)
      else Collision
    else if s.runs.active != map[] then Busy
    else Launch
  }

  function Decide(s: State, id: RequestId, bundle: Bundle, verdict: Verdict, accepted: bool): State {
    match verdict
    case Launch => Start(s, id, bundle, accepted)
    case Join(run) => Await(s, id, bundle, run)
    case CleanupOnly(fence) => Suspend(s, id, FencedCleanup(bundle, fence))
    case NotReady => Reply(s, id, Unready)
    case Invalid => Reply(s, id, BadCommand)
    case Replay(result) => Reply(s, id, Told(result))
    case Collision => Reply(s, id, Collided)
    case Busy => Reply(s, id, Overloaded)
  }

  function FencedReply(s: State, id: RequestId, bundle: Bundle, fence: Fence, reconciled: bool): State {
    if reconciled
    then Acknowledge(Reply(s, id, FencedOff), id, AckFor(s, bundle.attemptId, fence, false, false))
    else Reply(s, id, Unreconciled)
  }

  function EndedOutcome(aborted: bool, ended: Ended): Outcome {
    match ended
    case Returned => Completed
    case Threw(cleanupVerified, cleanupFailed) =>
      if aborted then (if cleanupVerified then CancelledClean else CleanupFailed)
      else if cleanupFailed then CleanupFailed else OtherFailure
  }

  function EndRun(s: State, a: AttemptId, ended: Ended): State
    requires a in s.runs.active
  {
    var x := s.runs.active[a];
    var t := Terminal(x.bundle, EndedOutcome(x.aborted, ended), x.owner);
    s.(runs := s.runs.(active := s.runs.active - {a}, closing := s.runs.closing[x.owner := t]),
       log := s.log.(ended := s.log.ended + {x.owner}))
  }

  function CloseRun(s: State, run: RequestId, ok: bool): State
    requires run in s.runs.closing
  {
    var result := if ok then Some(s.runs.closing[run]) else None;
    s.(runs := s.runs.(closing := s.runs.closing - {run}, settled := s.runs.settled[run := result]))
  }

  function Abort(s: State, a: AttemptId): State
    requires a in s.runs.active
  {
    s.(runs := s.runs.(active := s.runs.active[a := s.runs.active[a].(aborted := true)]))
  }

  /** What the cancel handler finds when it looks at the attempt. */
  datatype Finding = Idle | Collides | Running(run: RequestId)

  function Look(s: State, a: AttemptId, fence: Fence): Finding {
    if a in s.cache.terminal then
      if s.cache.terminal[a].bundle == fence.bundle then Idle else Collides
    else if a !in s.runs.active then Idle
    else if s.runs.active[a].bundle != fence.bundle || s.runs.active[a].bundle.slug != fence.slug then Collides
    else Running(s.runs.active[a].owner)
  }

  /** The tail of the cancel handler, from its look at the attempt on. */
  function FinishCancel(s: State, id: RequestId, a: AttemptId, fence: Fence, repair: bool, ledgerClean: bool): State {
    match Look(s, a, fence)
    case Idle => Acknowledge(s, id, AckFor(s, a, fence, repair, ledgerClean))
    case Collides => Drop(s, id)
    case Running(run) => Suspend(Abort(s, a), id, AwaitingCancelled(a, fence, run, repair))
  }

  predicate CommandAccepted(cfg: Config, now: int, command: CancelCommand) {
    && command.request.appId == AppId(cfg.appPrefix, command.request.slug)
    && now < command.request.expiresAt <= now + MAX_RETENTION_MS
  }

  /** The state once the fence of `command` is durable. */
  function Fenced(s: State, command: CancelCommand, fences: Fences, fence: Fence): State {
    s.(store := Store(s.store.files[command.request.attemptId := fence], fences),
       log := s.log.(commands := s.log.commands + {command}))
  }

  function AfterFence(s: State, id: RequestId, command: CancelCommand, fence: Fence, ledgerClean: bool): State {
    var a := command.request.attemptId;
    if command.repair && a !in s.runs.active
    then Suspend(s, id, RepairCleanup(a, fence))
    else FinishCancel(s, id, a, fence, command.repair, ledgerClean)
  }

  /** The part of the cancel handler that makes the fence durable. */
  function Admit(cfg: Config, s: State, command: CancelCommand): (State, Option<Fence>) {
    var installed := Install(s.store.fences, cfg.maxEntries, command.request, s.now);
    if CommandAccepted(cfg, s.now, command) && installed.Some?
    then (Fenced(s, command, installed.value.0, installed.value.1), Some(installed.value.1))
    else (s, None)
  }

  function Proceed(admitted: (State, Option<Fence>), id: RequestId, command: CancelCommand, ledgerClean: bool): State {
    if admitted.1.Some? then AfterFence(admitted.0, id, command, admitted.1.value, ledgerClean) else admitted.0
  }

  function Cancel(cfg: Config, s: State, command: CancelCommand, ledgerClean: bool): State {
    Proceed(Admit(cfg, s.(next := s.next + 1), command), s.next, command, ledgerClean)
  }

  function ResumeRun(s: State, id: RequestId, bundle: Bundle, run: RequestId): State
    requires run in s.runs.settled
  {
    match s.runs.settled[run]
    case None => Reply(s, id, Crashed)
    case Some(t) =>
      Reply(if run == id then s.(cache := Remember(s.cache, bundle.attemptId, t)) else s, id, Told(t))
  }

  function ResumeCancel(s: State, id: RequestId, a: AttemptId, fence: Fence, run: RequestId, repair: bool, ledgerClean: bool): State
    requires run in s.runs.settled
  {
    if s.runs.settled[run].None? then Drop(s, id)
    else Acknowledge(s.(cache := Remember(s.cache, a, s.runs.settled[run].value)), id, AckFor(s, a, fence, repair, ledgerClean))
  }

  function Prune(s: State, id: RequestId, batch: seq<AttemptId>, appAbsent: bool): State
    requires batch != []
  {
    if !appAbsent then Drop(s, id)
    else
      var rest := Suspend(s, id, Pruning(batch[1..]));
      if Removable(s.store.fences, batch[0], s.now)
      then rest.(store := Store(Remove(s.store.files, batch[0]), Remove(s.store.fences, batch[0])))
      else rest
  }

  /** A new process: only the fence files are left. */
  function Restarted(s: State): State {
    s.(store := Store(s.store.files, s.store.files),
       runs := Runs(map[], map[], map[]),
       cache := Cache([], map[]),
       handlers := map[],
       log := s.log.(ended := s.log.ended + set a | a in s.runs.active :: s.runs.active[a].owner))
  }

  predicate Enabled(s: State, at: int, e: Event) {
    && s.now <= at
    && match e
       case ExecuteArrives(_) => true
       case ExecuteDecides(id, _, _, _) => id in s.handlers && s.handlers[id].Reaping?
       case FencedReplies(id, _) => id in s.handlers && s.handlers[id].FencedCleanup?
       case ExecutionEnds(a, ended) => a in s.runs.active && (!s.runs.active[a].launched ==> ended.Threw?)
       case ReaperCloses(run, _) => run in s.runs.closing
       case HandlerResumes(id, _) =>
         && id in s.handlers && (s.handlers[id].AwaitingRun? || s.handlers[id].AwaitingCancelled?)
         && s.handlers[id].run in s.runs.settled
       case CancelArrives(_, _) => true
       case RepairReconciled(id, _, _) => id in s.handlers && s.handlers[id].RepairCleanup?
       case HealthGate(clean, batch) =>
         forall i :: 0 <= i < |batch| ==> Removable(s.store.fences, batch[i], at)
       case PruneStep(id, _) => id in s.handlers && s.handlers[id].Pruning? && s.handlers[id].batch != []
       case Restart => true
  }

  function Step(cfg: Config, s: State, at: int, e: Event): State
    requires Enabled(s, at, e)
  {
    React(cfg, s.(now := at), e)
  }

  function React(cfg: Config, s: State, e: Event): State
    requires Enabled(s, s.now, e)
  {
    match e
    case ExecuteArrives(bundle) => Arrive(s, bundle)
    case ExecuteDecides(id, ready, valid, accepted) =>
      Decide(s, id, s.handlers[id].bundle, Judge(cfg, s, s.handlers[id].bundle, ready, valid), accepted)
    case FencedReplies(id, reconciled) => FencedReply(s, id, s.handlers[id].bundle, s.handlers[id].fence, reconciled)
    case ExecutionEnds(a, ended) => EndRun(s, a, ended)
    case ReaperCloses(run, ok) => CloseRun(s, run, ok)
    case HandlerResumes(id, ledgerClean) =>
      (match s.handlers[id]
       case AwaitingRun(bundle, run) => ResumeRun(s, id, bundle, run)
       case AwaitingCancelled(a, fence, run, repair) => ResumeCancel(s, id, a, fence, run, repair, ledgerClean))
    case CancelArrives(command, ledgerClean) => Cancel(cfg, s, command, ledgerClean)
    case RepairReconciled(id, ok, ledgerClean) =>
      if ok then FinishCancel(s, id, s.handlers[id].attemptId, s.handlers[id].fence, true, ledgerClean)
      else Drop(s, id)
    case HealthGate(clean, batch) =>
      if clean && s.runs.active == map[]
      then Suspend(s, s.next, Pruning(batch)).(next := s.next + 1)
      else s
    case PruneStep(id, appAbsent) => Prune(s, id, s.handlers[id].batch, appAbsent)
    case Restart => Restarted(s)
  }

  // ---- runs ---------------------------------------------------------------

  datatype Timed = Timed(at: int, event: Event)

  ghost predicate CanRun(cfg: Config, s: State, run: seq<Timed>)
    decreases |run|
  {
    run == [] ||
    (Enabled(s, run[0].at, run[0].event) && CanRun(cfg, Step(cfg, s, run[0].at, run[0].event), run[1..]))
  }

  ghost function After(cfg: Config, s: State, run: seq<Timed>): State
    requires CanRun(cfg, s, run)
    decreases |run|
  {
    if run == [] then s else After(cfg, Step(cfg, s, run[0].at, run[0].event), run[1..])
  }
}
