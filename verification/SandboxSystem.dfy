/** The control service and the workload together.  Requests and answers travel between
    them for any time and in any order, either process may crash at any moment, and their
    clocks need not agree.  Every step of either keeps what ties the two together. */
module SandboxSystem {
  import opened SandboxTypes
  import C = ControlModel
  import CS = ControlSafety
  import CR = ControlRecovery
  import CH = ControlHistory
  import CL = ControlLimits
  import W = WorkloadModel
  import WS = WorkloadSafety
  import WH = WorkloadHistory

  /** `origin` says, for each execute request that arrived at the workload, which
      job of the control service sent it. */
  datatype System = System(c: C.State, w: W.State, origin: map<W.RequestId, nat>)

  datatype Config = Config(control: C.Config, workload: W.Config)

  datatype Event =
    | Control(step: C.Timed)
    | Deliver(n: nat, at: int)
    | DeliverCancel(command: W.CancelCommand, ledgerClean: bool, at: int)
    | Workload(event: W.Event, at: int)

  function Init(controlNow: int, workloadNow: int): System {
    System(C.Init(controlNow), W.Init(workloadNow), map[])
  }

  // ---- what one process hears from the other -------------------------------

  /** An acknowledgement that passes the control service's check for bundle `b`. */
  ghost predicate Acked(w: W.State, b: Bundle, repair: bool) {
    exists k :: k in w.log.acks && k.bundle == b && (repair ==> k.repairReceipt)
  }

  predicate Terminal(reply: C.Reply) {
    reply.TerminalCancelled? || reply.TerminalFailed? || reply.TerminalCompleted?
  }

  /** The terminal reply that a result with this outcome is read as. */
  predicate Says(reply: C.Reply, outcome: W.Outcome) {
    match reply
    case TerminalCompleted(_, _) => outcome == W.Completed
    case TerminalCancelled(_) => outcome == W.CancelledClean
    case TerminalFailed(cleanupFailed) => outcome == if cleanupFailed then W.CleanupFailed else W.OtherFailure
    case _ => false
  }

  /** The workload told `t` to request `i`, which job `n` sent. */
  ghost predicate Told(s: System, n: nat, i: W.RequestId, t: W.Terminal) {
    i in s.origin && s.origin[i] == n && i in s.w.log.answers && s.w.log.answers[i] == W.Told(t)
  }

  /** The workload answered the execute request that job `n` sent with a result that
      reads as `reply`. */
  ghost predicate AnsweredTo(s: System, n: nat, reply: C.Reply) {
    exists i, t :: Told(s, n, i, t) && Says(reply, t.outcome)
  }

  /** Messages are authentic: what the control service hears the workload said. */
  ghost predicate Heard(cfg: C.Config, s: System, e: C.Event)
    requires C.Enabled(cfg, s.c, e)
  {
    match e
    case RunReplied(reply, _) =>
      && (reply.FenceAck? && reply.valid ==> Acked(s.w, s.c.memory.created[s.c.queue.run.job].bundle, false))
      && (Terminal(reply) ==> AnsweredTo(s, s.c.queue.run.job, reply))
    case RunFenced(ok, _) => ok ==> Acked(s.w, s.c.memory.created[s.c.queue.run.job].bundle, false)
    case CancelFenced(id, acked, _) => acked ==> Acked(s.w, C.Get(s.c.memory, s.c.handlers[id].job).bundle, false)
    case RepairFenced(id, verified) => verified ==> Acked(s.w, C.Get(s.c.memory, s.c.handlers[id].job).bundle, true)
    case HealthFenced(id, acked) => acked ==> Acked(s.w, C.Get(s.c.memory, s.c.handlers[id].pending.value).bundle, false)
    case _ => true
  }

  /** A cancel command the control service has sent. */
  ghost predicate Asked(c: C.State, command: W.CancelCommand) {
    exists f :: f in c.log.commands && SameCommand(f, command)
  }

  predicate SameCommand(f: C.FenceCommand, command: W.CancelCommand) {
    && command.request.bundle == f.bundle && command.request.attemptId == f.bundle.attemptId
    && command.request.slug == f.bundle.slug && command.request.expiresAt == f.expiresAt
  }

  ghost predicate CanStep(cfg: Config, s: System, e: Event) {
    match e
    case Control(step) =>
      C.CanStep(cfg.control, s.c, step) && CR.Serial(s.c, step.event) && Heard(cfg.control, s.(c := s.c.(now := step.at)), step.event)
    case Deliver(n, at) => n in s.c.log.sent && n !in s.origin.Values && s.w.now <= at
    case DeliverCancel(command, _, at) => Asked(s.c, command) && s.w.now <= at
    case Workload(event, at) => W.Enabled(s.w, at, event) && !event.ExecuteArrives? && !event.CancelArrives?
  }

  function Step(cfg: Config, s: System, e: Event): System
    requires CanStep(cfg, s, e)
  {
    match e
    case Control(step) => s.(c := C.Step(cfg.control, s.c, step))
    case Deliver(n, at) =>
      s.(w := W.Step(cfg.workload, s.w, at, W.ExecuteArrives(s.c.log.sent[n])), origin := s.origin[s.w.next := n])
    case DeliverCancel(command, clean, at) => s.(w := W.Step(cfg.workload, s.w, at, W.CancelArrives(command, clean)))
    case Workload(event, at) => s.(w := W.Step(cfg.workload, s.w, at, event))
  }

  ghost predicate CanRun(cfg: Config, s: System, run: seq<Event>)
    decreases |run|
  {
    run == [] || (CanStep(cfg, s, run[0]) && CanRun(cfg, Step(cfg, s, run[0]), run[1..]))
  }

  ghost function After(cfg: Config, s: System, run: seq<Event>): System
    requires CanRun(cfg, s, run)
    decreases |run|
  {
    if run == [] then s else After(cfg, Step(cfg, s, run[0]), run[1..])
  }

  // ---- invariants ---------------------------------------------------------

  /** Each request at the workload is the request of one job. */
  ghost predicate Linked(sent: map<nat, Bundle>, requests: map<W.RequestId, Bundle>, origin: map<W.RequestId, nat>) {
    && origin.Keys == requests.Keys
    && (forall i :: i in origin ==> origin[i] in sent && sent[origin[i]] == requests[i])
    && (forall i, j :: i in origin && j in origin && origin[i] == origin[j] ==> i == j)
  }

  /** A fact that says of a bundle that nothing of it runs any more. */
  predicate Final(fact: C.Fact, b: Bundle) {
    match fact
    case FenceAcked(x) => x == b
    case RepairReceipt(x) => x == b
    case WorkloadReplied(x, reply) => x == b && ((reply.FenceAck? && reply.valid) || Terminal(reply))
    case _ => false
  }

  ghost predicate FactsDead(facts: seq<C.Fact>, w: W.State) {
    forall k, b :: 0 <= k < |facts| && Final(facts[k], b) ==> WS.Dead(w, b)
  }

  ghost predicate WorkloadOk(w: W.State) {
    WS.Inv(w) && WS.AcksOk(w) && WS.LongCommands(w.log) && WS.OneRequestEach(w.log)
  }

  ghost predicate Inv(s: System) {
    && CR.Orderly(s.c) && CL.LongFences(s.c.log.commands)
    && WorkloadOk(s.w) && Linked(s.c.log.sent, s.w.log.requests, s.origin)
    && FactsDead(s.c.log.facts, s.w)
  }

  /** One execute request per job and one job per attempt: one request per attempt. */
  lemma {:induction false} LinkedOnce(sent: map<nat, Bundle>, log: W.Log, origin: map<W.RequestId, nat>)
    requires Linked(sent, log.requests, origin)
    requires forall i, j :: i in sent && j in sent && sent[i].attemptId == sent[j].attemptId ==> i == j
    ensures WS.OneRequestEach(log)
  {
  }

  // ---- steps of the workload ----------------------------------------------

  lemma {:induction false} WorkloadSteps(cfg: W.Config, w: W.State, at: int, e: W.Event)
    requires WorkloadOk(w) && W.Enabled(w, at, e)
    requires var t := W.Step(cfg, w, at, e); WS.LongCommands(t.log) && WS.OneRequestEach(t.log)
    ensures WorkloadOk(W.Step(cfg, w, at, e))
    ensures forall b :: WS.Dead(w, b) ==> WS.Dead(W.Step(cfg, w, at, e), b)
  {
    WH.StepKeeps(cfg, w, at, e);
    WH.TimeKeeps(w, at);
    forall b | WS.Dead(w, b)
      ensures WS.Dead(W.Step(cfg, w, at, e), b)
    {
      DeadLater(w, at, b);
      WH.DeadStays(cfg, w.(now := at), e, b);
    }
  }

  lemma {:induction false} DeadLater(w: W.State, at: int, b: Bundle)
    requires WS.Dead(w, b) && w.now <= at
    ensures WS.Dead(w.(now := at), b)
  {
  }

  lemma {:induction false} FactsStayDead(facts: seq<C.Fact>, w: W.State, x: W.State)
    requires FactsDead(facts, w) && forall b :: WS.Dead(w, b) ==> WS.Dead(x, b)
    ensures FactsDead(facts, x)
  {
  }

  lemma {:induction false} DeliverKeeps(cfg: Config, s: System, n: nat, at: int)
    requires Inv(s) && CanStep(cfg, s, Deliver(n, at))
    ensures Inv(Step(cfg, s, Deliver(n, at)))
  {
    var e := W.ExecuteArrives(s.c.log.sent[n]);
    var t := Step(cfg, s, Deliver(n, at));
    NewRequestLinked(s.c.log.sent, s.w, s.origin, n);
    assert t.w.log.requests == s.w.log.requests[s.w.next := s.c.log.sent[n]];
    LinkedOnce(t.c.log.sent, t.w.log, t.origin);
    WorkloadSteps(cfg.workload, s.w, at, e);
    FactsStayDead(s.c.log.facts, s.w, t.w);
  }

  lemma {:induction false} NewRequestLinked(sent: map<nat, Bundle>, w: W.State, origin: map<W.RequestId, nat>, n: nat)
    requires Linked(sent, w.log.requests, origin) && WS.LogOk(w.log, w.next) && n in sent && n !in origin.Values
    ensures Linked(sent, w.log.requests[w.next := sent[n]], origin[w.next := n])
  {
  }

  /** The workload moves without a new request. */
  lemma {:induction false} WorkloadMoves(s: System, w: W.State)
    requires Inv(s) && WorkloadOk(w) && w.log.requests == s.w.log.requests
    requires forall b :: WS.Dead(s.w, b) ==> WS.Dead(w, b)
    ensures Inv(s.(w := w))
  {
    FactsStayDead(s.c.log.facts, s.w, w);
  }

  lemma {:induction false} WorkloadArrivals(cfg: W.Config, w: W.State, c: C.State, e: W.Event, at: int)
    requires WorkloadOk(w) && W.Enabled(w, at, e) && !e.ExecuteArrives?
    requires CL.LongFences(c.log.commands) && (e.CancelArrives? ==> Asked(c, e.command))
    ensures var t := W.Step(cfg, w, at, e);
      t.log.requests == w.log.requests && WS.LongCommands(t.log) && WS.OneRequestEach(t.log)
  {
    WH.ReactArrivals(cfg, w.(now := at), e);
    if e.CancelArrives? {
      AskedIsLong(c, e.command);
    }
  }

  lemma {:induction false} WorkloadKeeps(cfg: Config, s: System, t: System, e: W.Event, at: int)
    requires Inv(s) && W.Enabled(s.w, at, e) && !e.ExecuteArrives? && (e.CancelArrives? ==> Asked(s.c, e.command))
    requires t == s.(w := W.Step(cfg.workload, s.w, at, e))
    ensures Inv(t)
  {
    WorkloadArrivals(cfg.workload, s.w, s.c, e, at);
    WorkloadSteps(cfg.workload, s.w, at, e);
    WorkloadMoves(s, t.w);
  }

  lemma {:induction false} AskedIsLong(c: C.State, command: W.CancelCommand)
    requires CL.LongFences(c.log.commands) && Asked(c, command)
    ensures command.request.bundle.attemptId == command.request.attemptId
    ensures command.request.expiresAt >= command.request.bundle.expiresAt + CLEANUP_MARGIN_MS
  {
  }

  // ---- steps of the control service ----------------------------------------

  lemma {:induction false} AckedIsDead(w: W.State, b: Bundle, repair: bool)
    requires WorkloadOk(w) && Acked(w, b, repair)
    ensures WS.Dead(w, b)
  {
  }

  lemma {:induction false} AnsweredToIsDead(s: System, n: nat, reply: C.Reply)
    requires WorkloadOk(s.w) && Linked(s.c.log.sent, s.w.log.requests, s.origin) && AnsweredTo(s, n, reply)
    ensures n in s.c.log.sent && WS.Dead(s.w, s.c.log.sent[n])
  {
    var i, t :| Told(s, n, i, t) && Says(reply, t.outcome);
    WH.AnsweredIsDead(s.w, i);
  }

  /** What the control service learns from the workload is true of it. */
  lemma {:induction false} LearntIsDead(cfg: C.Config, s: System, e: C.Event, fact: C.Fact, b: Bundle)
    requires Inv(s) && C.Enabled(cfg, s.c, e) && Heard(cfg, s, e) && CL.Learns(cfg, s.c, e, fact) && Final(fact, b)
    ensures WS.Dead(s.w, b)
  {
    match e {
      case RunReplied(reply, _) =>
        if Terminal(reply) {
          AnsweredToIsDead(s, s.c.queue.run.job, reply);
        } else {
          AckedIsDead(s.w, b, false);
        }
      case RepairFenced(_, _) => AckedIsDead(s.w, b, true);
      case _ => AckedIsDead(s.w, b, false);
    }
  }

  lemma {:induction false} SentGrows(cfg: C.Config, c: C.State, step: C.Timed)
    requires CR.Orderly(c) && C.CanStep(cfg, c, step) && CR.Serial(c, step.event)
    ensures CH.SameSent(c.log.sent, C.Step(cfg, c, step).log.sent)
  {
    CR.StepOrderly(cfg, c, step);
  }

  lemma {:induction false} LinkedLater(sent: map<nat, Bundle>, more: map<nat, Bundle>, requests: map<W.RequestId, Bundle>, origin: map<W.RequestId, nat>)
    requires Linked(sent, requests, origin) && CH.SameSent(sent, more)
    ensures Linked(more, requests, origin)
  {
  }

  lemma {:induction false} ClockKeeps(s: System, at: int)
    requires Inv(s) && s.c.now <= at
    ensures Inv(s.(c := s.c.(now := at)))
  {
    CS.SelfMoves(s.c.memory);
    CS.QuietStep(s.c, s.c.(now := at));
  }

  lemma {:induction false} ReactKeeps(cfg: C.Config, s: System, c: C.State, e: C.Event)
    requires Inv(s) && C.Enabled(cfg, s.c, e) && Heard(cfg, s, e) && c == C.React(cfg, s.c, e)
    ensures CL.LongFences(c.log.commands) && FactsDead(c.log.facts, s.w)
  {
    CL.ReactAsks(cfg, s.c, e);
    CL.ReactLearns(cfg, s.c, e);
    forall k, b | 0 <= k < |c.log.facts| && Final(c.log.facts[k], b)
      ensures WS.Dead(s.w, b)
    {
      if k < |s.c.log.facts| {
        assert c.log.facts[k] == s.c.log.facts[k];
      } else {
        LearntIsDead(cfg, s, e, c.log.facts[k], b);
      }
    }
  }

  lemma {:induction false} ControlKeeps(cfg: Config, s: System, step: C.Timed)
    requires Inv(s) && CanStep(cfg, s, Control(step))
    ensures Inv(Step(cfg, s, Control(step)))
  {
    var r := s.(c := s.c.(now := step.at));
    var c := C.Step(cfg.control, s.c, step);
    CR.StepOrderly(cfg.control, s.c, step);
    SentGrows(cfg.control, s.c, step);
    LinkedLater(s.c.log.sent, c.log.sent, s.w.log.requests, s.origin);
    ClockKeeps(s, step.at);
    ReactKeeps(cfg.control, r, c, step.event);
  }

  // ---- every run ----------------------------------------------------------

  lemma {:induction false} StepKeeps(cfg: Config, s: System, e: Event)
    requires Inv(s) && CanStep(cfg, s, e)
    ensures Inv(Step(cfg, s, e))
  {
    match e {
      case Control(step) => ControlKeeps(cfg, s, step);
      case Deliver(n, at) => DeliverKeeps(cfg, s, n, at);
      case DeliverCancel(command, clean, at) => WorkloadKeeps(cfg, s, Step(cfg, s, e), W.CancelArrives(command, clean), at);
      case Workload(event, at) => WorkloadKeeps(cfg, s, Step(cfg, s, e), event, at);
    }
  }
}
