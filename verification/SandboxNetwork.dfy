/** The two processes behind the broker gateway: when the absence of a finished job's App
    from the broker is final.  A registration of the App is a relay that its running
    candidate asks for; it may be under way, or lost and still come. */
module SandboxNetwork {
  import opened SandboxTypes
  import G = GatewayModel
  import GS = GatewaySafety
  import S = SandboxSystem
  import SH = SandboxHistory
  import WS = WorkloadSafety

  datatype Network = Network(sys: S.System, gw: G.State)

  datatype Config = Config(sys: S.Config, gw: G.Config)

  datatype Event = Processes(e: S.Event) | Gateway(step: G.Timed)

  function Init(controlNow: int, workloadNow: int, gatewayNow: int): Network {
    Network(S.Init(controlNow, workloadNow), G.Init(gatewayNow))
  }

  function AppOf(cfg: Config, b: Bundle): G.App {
    AppId(cfg.gw.prefix, b.slug)
  }

  /** An attempt's App is its own: a request to register it comes from the running candidate
      of its bundle. */
  ghost predicate Own(cfg: Config, n: Network, e: Event, b: Bundle) {
    e.Gateway? && e.step.event == G.RelayArrives(AppOf(cfg, b), true) ==> WS.IsRunning(n.sys.w, b)
  }

  ghost predicate CanStep(cfg: Config, n: Network, e: Event) {
    match e
    case Processes(event) => S.CanStep(cfg.sys, n.sys, event)
    case Gateway(step) => G.CanStep(n.gw, step)
  }

  function Step(cfg: Config, n: Network, e: Event): Network
    requires CanStep(cfg, n, e)
  {
    match e
    case Processes(event) => n.(sys := S.Step(cfg.sys, n.sys, event))
    case Gateway(step) => n.(gw := G.Step(cfg.gw, n.gw, step))
  }

  /** A run in which the App of `b` is its own. */
  ghost predicate CanRun(cfg: Config, n: Network, run: seq<Event>, b: Bundle)
    decreases |run|
  {
    run == [] || (CanStep(cfg, n, run[0]) && Own(cfg, n, run[0], b) && CanRun(cfg, Step(cfg, n, run[0]), run[1..], b))
  }

  ghost function After(cfg: Config, n: Network, run: seq<Event>, b: Bundle): Network
    requires CanRun(cfg, n, run, b)
    decreases |run|
  {
    if run == [] then n else After(cfg, Step(cfg, n, run[0]), run[1..], b)
  }

  // ---- invariants ---------------------------------------------------------

  ghost predicate Inv(n: Network) {
    S.Inv(n.sys) && GS.Inv(n.gw)
  }

  lemma {:induction false} StepKeeps(cfg: Config, n: Network, e: Event)
    requires Inv(n) && CanStep(cfg, n, e)
    ensures Inv(Step(cfg, n, e))
  {
    match e {
      case Processes(event) => S.StepKeeps(cfg.sys, n.sys, event);
      case Gateway(step) => GS.StepKeeps(cfg.gw, n.gw, step);
    }
  }

  lemma {:induction false} RunKeeps(cfg: Config, n: Network, run: seq<Event>, b: Bundle)
    requires Inv(n) && CanRun(cfg, n, run, b)
    ensures Inv(After(cfg, n, run, b))
    decreases |run|
  {
    if run != [] {
      StepKeeps(cfg, n, run[0]);
      RunKeeps(cfg, Step(cfg, n, run[0]), run[1..], b);
    }
  }

  // ---- absence ------------------------------------------------------------

  /** No request to register `app` is under way or lost. */
  ghost predicate Silent(gw: G.State, app: G.App) {
    && (forall r :: r in gw.traffic.live ==> gw.traffic.live[r] != G.Relay(app, true))
    && (forall r :: r in gw.traffic.late ==> gw.traffic.late[r] != G.Relay(app, true))
  }

  lemma {:induction false} SilenceStays(cfg: G.Config, gw: G.State, e: G.Event, app: G.App)
    requires GS.Inv(gw) && G.Enabled(gw, e) && Silent(gw, app) && app !in gw.broker.apps && e != G.RelayArrives(app, true)
    ensures Silent(G.React(cfg, gw, e), app) && app !in G.React(cfg, gw, e).broker.apps
  {
  }

  lemma {:induction false} AbsenceStays(cfg: Config, n: Network, run: seq<Event>, b: Bundle)
    requires Inv(n) && CanRun(cfg, n, run, b) && WS.Dead(n.sys.w, b)
    requires Silent(n.gw, AppOf(cfg, b)) && AppOf(cfg, b) !in n.gw.broker.apps
    ensures AppOf(cfg, b) !in After(cfg, n, run, b).gw.broker.apps
    decreases |run|
  {
    if run != [] {
      var t := Step(cfg, n, run[0]);
      StepKeeps(cfg, n, run[0]);
      match run[0] {
        case Processes(event) => SH.StepDead(cfg.sys, n.sys, event, b);
        case Gateway(step) =>
          ClockKeeps(n.gw, step.at);
          SilenceStays(cfg.gw, n.gw.(now := step.at), step.event, AppOf(cfg, b));
      }
      AbsenceStays(cfg, t, run[1..], b);
    }
  }

  lemma {:induction false} ClockKeeps(gw: G.State, at: int)
    requires GS.Inv(gw)
    ensures GS.Inv(gw.(now := at))
  {
    var t := gw.(now := at);
    GS.AcksStay(gw, t);
    GS.HandlersStay(gw, t, gw.nextHandler);
  }

  /** The broker never contains the App again, in any continuation. */
  ghost predicate AbsentForGood(cfg: Config, n: Network, b: Bundle) {
    forall run :: CanRun(cfg, n, run, b) ==> AppOf(cfg, b) !in After(cfg, n, run, b).gw.broker.apps
  }

  lemma {:induction false} GatewayRuns(cfg: Config, n: Network, e: G.Event, b: Bundle)
    requires G.Enabled(n.gw, e) && !e.RelayArrives?
    ensures var run := [Gateway(G.Timed(n.gw.now, e))];
      CanRun(cfg, n, run, b) && After(cfg, n, run, b).gw == G.React(cfg.gw, n.gw, e)
  {
    var event := Gateway(G.Timed(n.gw.now, e));
    assert n.gw.(now := n.gw.now) == n.gw && [event][1..] == [];
    var t := Step(cfg, n, event);
    assert CanRun(cfg, t, [], b) && After(cfg, t, [], b) == t;
  }

  lemma {:induction false} DeadIsExact(cfg: Config, n: Network, b: Bundle)
    requires Inv(n) && WS.Dead(n.sys.w, b)
    ensures AbsentForGood(cfg, n, b) <==> AppOf(cfg, b) !in n.gw.broker.apps && Silent(n.gw, AppOf(cfg, b))
  {
    var app := AppOf(cfg, b);
    if app in n.gw.broker.apps {
      assert CanRun(cfg, n, [], b) && After(cfg, n, [], b) == n;
    } else if Silent(n.gw, app) {
      forall run | CanRun(cfg, n, run, b)
        ensures app !in After(cfg, n, run, b).gw.broker.apps
      {
        AbsenceStays(cfg, n, run, b);
      }
    } else if r :| r in n.gw.traffic.live && n.gw.traffic.live[r] == G.Relay(app, true) {
      GatewayRuns(cfg, n, G.RelayTakesEffect(r), b);
    } else {
      var r :| r in n.gw.traffic.late && n.gw.traffic.late[r] == G.Relay(app, true);
      GatewayRuns(cfg, n, G.LateTakesEffect(r), b);
    }
  }

  lemma {:induction false} InitInv(controlNow: int, workloadNow: int, gatewayNow: int)
    ensures Inv(Init(controlNow, workloadNow, gatewayNow))
  {
    SH.InitInv(controlNow, workloadNow);
  }

  /** The control service holds the job of `b` as finished in a network that a run from the
      start has reached. */
  ghost predicate Finished(cfg: Config, n: Network, a: AttemptId, b: Bundle) {
    && SH.FinishedAs(n.sys.c, a, b)
    && exists x, y, z, run :: CanRun(cfg, Init(x, y, z), run, b) && After(cfg, Init(x, y, z), run, b) == n
  }

  lemma {:induction false} FinishedIsDead(cfg: Config, n: Network, a: AttemptId, b: Bundle)
    requires Finished(cfg, n, a, b)
    ensures Inv(n) && WS.Dead(n.sys.w, b)
  {
    var x, y, z, run :| CanRun(cfg, Init(x, y, z), run, b) && After(cfg, Init(x, y, z), run, b) == n;
    InitInv(x, y, z);
    RunKeeps(cfg, Init(x, y, z), run, b);
    SH.FinishedIsDead(n.sys, a, b);
  }

  /** In every run of the three processes: once a job is finished, the absence of its App
      from the broker is final exactly if no request to register it is under way or lost.
      No tombstone is needed for that, and the release of one cannot undo it. */
  lemma {:induction false} AbsenceIsExact(cfg: Config, n: Network, a: AttemptId, b: Bundle)
    requires Finished(cfg, n, a, b)
    ensures AbsentForGood(cfg, n, b) <==> AppOf(cfg, b) !in n.gw.broker.apps && Silent(n.gw, AppOf(cfg, b))
  {
    FinishedIsDead(cfg, n, a, b);
    DeadIsExact(cfg, n, b);
  }

  lemma {:induction false} GoneIsSilent(gw: G.State, app: G.App, id: nat)
    requires GS.Inv(gw) && GS.Gone(gw, app, id)
    ensures Silent(gw, app) && app !in gw.broker.apps
  {
    assert GS.OnlyThese(gw, app, id, {});
  }

  /** What the tombstone adds: while an acknowledged one stands nothing is under way, so a
      finished job's App that is absent under it, with no registration lost, is absent for
      good, also after the tombstone has been released. */
  lemma {:induction false} FinishedStaysAbsent(cfg: Config, n: Network, a: AttemptId, b: Bundle, id: nat)
    requires Finished(cfg, n, a, b) && GS.Gone(n.gw, AppOf(cfg, b), id)
    ensures AbsentForGood(cfg, n, b)
  {
    FinishedIsDead(cfg, n, a, b);
    GoneIsSilent(n.gw, AppOf(cfg, b), id);
    AbsenceIsExact(cfg, n, a, b);
  }
}
