/** No resurrection: what the gateway's tombstones keep out of the broker, over every
    run, restarts included. */
module GatewaySafety {
  import opened SandboxTypes
  import opened GatewayModel

  // ---- invariants ---------------------------------------------------------

  /** The tombstone of `app` now is its incarnation `id`. */
  ghost predicate Current(tombs: Tombs, app: App, id: nat) {
    app in tombs && tombs[app].id == id
  }

  ghost predicate StoreOk(store: Store, nextTomb: nat) {
    && store.tombs == store.files
    && forall a :: a in store.tombs ==> store.tombs[a].id < nextTomb && store.tombs[a].fencedAt < store.tombs[a].expiresAt
  }

  ghost predicate TrafficOk(traffic: Traffic) {
    (forall r :: r in traffic.live ==> r < traffic.next) && (forall r :: r in traffic.late ==> r < traffic.next)
  }

  /** Only the relays in `waits` may be under way for an App with tombstone `id`. */
  ghost predicate OnlyThese(s: State, app: App, id: nat, waits: set<nat>) {
    Current(s.store.tombs, app, id) ==> forall r :: r in s.traffic.live && s.traffic.live[r].app == app ==> r in waits
  }

  ghost predicate PcOk(s: State, pc: Pc) {
    pc.Draining? ==> pc.id < s.marks.nextTomb && OnlyThese(s, pc.app, pc.id, pc.waits)
  }

  ghost predicate Inv(s: State) {
    && StoreOk(s.store, s.marks.nextTomb) && TrafficOk(s.traffic)
    && (forall i :: i in s.handlers ==> i < s.nextHandler && PcOk(s, s.handlers[i]))
    && (forall a, id :: (a, id) in s.marks.acked ==> id < s.marks.nextTomb && OnlyThese(s, a, id, {}))
  }

  // ---- how the state may move ---------------------------------------------

  /** Tombstones keep their incarnation or are new, and no relay begins under one. */
  ghost predicate Moves(s: State, t: State) {
    && s.marks.nextTomb <= t.marks.nextTomb && s.nextHandler <= t.nextHandler
    && (forall a :: a in t.store.tombs ==>
         (a in s.store.tombs && t.store.tombs[a].id == s.store.tombs[a].id) || t.store.tombs[a].id >= s.marks.nextTomb)
    && (forall r :: r in t.traffic.live ==>
         (r in s.traffic.live && t.traffic.live[r] == s.traffic.live[r]) || t.traffic.live[r].app !in t.store.tombs)
  }

  lemma {:induction false} ReactMoves(cfg: Config, s: State, e: Event)
    requires Inv(s) && Enabled(s, e)
    ensures Moves(s, React(cfg, s, e))
  {
  }

  lemma {:induction false} HandlersStay(s: State, t: State, id: nat)
    requires Inv(s) && Moves(s, t)
    requires forall i :: i in t.handlers && i != id ==> i in s.handlers && t.handlers[i] == s.handlers[i]
    requires id in t.handlers ==> id < t.nextHandler && PcOk(t, t.handlers[id])
    ensures forall i :: i in t.handlers ==> i < t.nextHandler && PcOk(t, t.handlers[i])
  {
  }

  lemma {:induction false} AcksStay(s: State, t: State)
    requires Inv(s) && Moves(s, t) && t.marks.acked == s.marks.acked
    ensures forall a, id :: (a, id) in t.marks.acked ==> id < t.marks.nextTomb && OnlyThese(t, a, id, {})
  {
  }

  lemma {:induction false} InstallKeeps(cfg: Config, s: State, app: App, expiresAt: int)
    requires Inv(s)
    ensures Inv(Install(cfg, s, app, expiresAt))
  {
    var t := Install(cfg, s, app, expiresAt);
    ReactMoves(cfg, s, TombstoneArrives(app, expiresAt));
    HandlersStay(s, t, s.nextHandler);
    AcksStay(s, t);
  }

  lemma {:induction false} DrainedKeeps(cfg: Config, s: State, id: nat)
    requires Inv(s) && Enabled(s, DrainSettles(id))
    ensures Inv(Drained(s, id))
  {
  }

  lemma {:induction false} OtherKeeps(cfg: Config, s: State, e: Event)
    requires Inv(s) && Enabled(s, e) && !e.TombstoneArrives? && !e.DrainSettles?
    ensures Inv(React(cfg, s, e))
  {
    var t := React(cfg, s, e);
    ReactMoves(cfg, s, e);
    AcksStay(s, t);
    HandlersStay(s, t, if e.ReleaseReads? || e.ReleaseCommits? then e.id else s.nextHandler);
  }

  lemma {:induction false} StepKeeps(cfg: Config, s: State, step: Timed)
    requires Inv(s) && CanStep(s, step)
    ensures Inv(Step(cfg, s, step))
  {
    var t := s.(now := step.at);
    AcksStay(s, t);
    HandlersStay(s, t, s.nextHandler);
    match step.event {
      case TombstoneArrives(app, expiresAt) => InstallKeeps(cfg, t, app, expiresAt);
      case DrainSettles(id) => DrainedKeeps(cfg, t, id);
      case _ => OtherKeeps(cfg, t, step.event);
    }
  }

  lemma {:induction false} RunKeeps(cfg: Config, s: State, run: seq<Timed>)
    requires Inv(s) && CanRun(cfg, s, run)
    ensures Inv(After(cfg, s, run))
    decreases |run|
  {
    if run != [] {
      StepKeeps(cfg, s, run[0]);
      RunKeeps(cfg, Step(cfg, s, run[0]), run[1..]);
    }
  }

  // ---- the theorems -------------------------------------------------------

  /** The acknowledged incarnation of the App's tombstone still stands. */
  ghost predicate Acknowledged(s: State, app: App, id: nat) {
    (app, id) in s.marks.acked && Current(s.store.tombs, app, id)
  }

  /** Over every run: while an acknowledged tombstone stands, no register and no
      callback relay of its App is under way. */
  lemma {:induction false} NothingInFlight(cfg: Config, now: int, run: seq<Timed>, app: App, id: nat)
    requires CanRun(cfg, Init(now), run) && Acknowledged(After(cfg, Init(now), run), app, id)
    ensures InFlight(After(cfg, Init(now), run).traffic.live, app) == {}
  {
    RunKeeps(cfg, Init(now), run);
    var s := After(cfg, Init(now), run);
    assert OnlyThese(s, app, id, {});
  }

  /** A request for `app` that the gateway has lost track of may still register it. */
  ghost predicate MayComeLate(s: State, app: App) {
    exists r :: r in s.traffic.late && s.traffic.late[r] == Relay(app, true)
  }

  /** The App is deleted, for as long as this tombstone stands. */
  ghost predicate Gone(s: State, app: App, id: nat) {
    Acknowledged(s, app, id) && app !in s.broker.apps && !MayComeLate(s, app)
  }

  lemma {:induction false} GoneMoves(cfg: Config, s: State, e: Event, app: App, id: nat)
    requires Inv(s) && Enabled(s, e) && Gone(s, app, id)
    ensures var t := React(cfg, s, e);
      app !in t.broker.apps && (Gone(t, app, id) || (app !in t.store.tombs && e.ReleaseCommits? && s.store.tombs[app].expiresAt <= s.now))
  {
    assert OnlyThese(s, app, id, {});
    var t := React(cfg, s, e);
    forall r | r in t.traffic.late
      ensures t.traffic.late[r] != Relay(app, true)
    {
      if r in s.traffic.late && t.traffic.late[r] == s.traffic.late[r] {
      } else {
        assert r in s.traffic.live && t.traffic.late[r] == s.traffic.live[r];
      }
    }
  }

  /** Some step of `run` releases the App's tombstone. */
  ghost predicate ReleasedIn(cfg: Config, s: State, run: seq<Timed>, app: App)
    requires CanRun(cfg, s, run)
    decreases |run|
  {
    run != [] &&
    ((app in s.store.tombs && app !in Step(cfg, s, run[0]).store.tombs) || ReleasedIn(cfg, Step(cfg, s, run[0]), run[1..], app))
  }

  /** No resurrection: once a delete has taken effect under an acknowledged tombstone
      and no lost request is left, the broker never again contains the App until the
      tombstone is released, whatever arrives and however often the gateway restarts. */
  lemma {:induction false} NoResurrection(cfg: Config, s: State, run: seq<Timed>, app: App, id: nat)
    requires Inv(s) && CanRun(cfg, s, run) && Gone(s, app, id)
    ensures ReleasedIn(cfg, s, run, app) || (Gone(After(cfg, s, run), app, id) && app !in After(cfg, s, run).broker.apps)
    decreases |run|
  {
    if run != [] {
      var r := s.(now := run[0].at);
      var t := Step(cfg, s, run[0]);
      AcksStay(s, r);
      HandlersStay(s, r, s.nextHandler);
      GoneMoves(cfg, r, run[0].event, app, id);
      StepKeeps(cfg, s, run[0]);
      if Gone(t, app, id) {
        NoResurrection(cfg, t, run[1..], app, id);
      }
    }
  }

  /** A tombstone goes only after it has expired, on the evidence of a read that did
      not show the App; what it had kept out is out at that moment. */
  lemma {:induction false} ReleaseIsEarned(cfg: Config, s: State, e: Event, app: App)
    requires Inv(s) && Enabled(s, e)
    requires app in s.store.tombs && app !in React(cfg, s, e).store.tombs
    ensures e.ReleaseCommits? && s.handlers[e.id] == Removing(app, true) && s.store.tombs[app].expiresAt <= s.now
    ensures Gone(s, app, s.store.tombs[app].id) ==> app !in React(cfg, s, e).broker.apps
  {
  }

  /** While an acknowledged tombstone stands over an App that is gone from the broker,
      one step brings the App back exactly if a lost registration is still out. */
  lemma {:induction false} LateIsTheOnlyWay(cfg: Config, s: State, app: App, id: nat)
    requires Inv(s) && Acknowledged(s, app, id) && app !in s.broker.apps
    ensures MayComeLate(s, app) <==> exists e :: Enabled(s, e) && app in React(cfg, s, e).broker.apps
  {
    if MayComeLate(s, app) {
      var r :| r in s.traffic.late && s.traffic.late[r] == Relay(app, true);
      assert Enabled(s, LateTakesEffect(r)) && app in React(cfg, s, LateTakesEffect(r)).broker.apps;
    } else {
      forall e | Enabled(s, e)
        ensures app !in React(cfg, s, e).broker.apps
      {
        GoneMoves(cfg, s, e, app, id);
      }
    }
  }

  /** A tombstone's expiry is only ever extended. */
  lemma {:induction false} ExpiryGrows(cfg: Config, s: State, e: Event, app: App)
    requires Inv(s) && Enabled(s, e) && app in s.store.tombs
    requires app in React(cfg, s, e).store.tombs
    ensures var x, y := s.store.tombs[app], React(cfg, s, e).store.tombs[app];
      y.expiresAt >= x.expiresAt && y.id == x.id && y.slug == x.slug && y.fencedAt == x.fencedAt
  {
  }

  /** The gateway reads an App name as a slug exactly if it is the prefix, a dash and
      that factory slug, and is safe as a file name. */
  lemma {:induction false} SlugForIsExact(app: App, prefix: string, slug: string)
    ensures SlugFor(app, prefix) == Some(slug) <==> app == AppId(prefix, slug) && SafeApp(app) && FactorySlug(slug)
  {
  }

  // ---- the limit ----------------------------------------------------------

  ghost predicate Reaches(cfg: Config, s: State, t: State) {
    exists run :: CanRun(cfg, s, run) && After(cfg, s, run) == t
  }

  lemma {:induction false} ReachesSelf(cfg: Config, s: State)
    ensures Reaches(cfg, s, s)
  {
    assert CanRun(cfg, s, []) && After(cfg, s, []) == s;
  }

  lemma {:induction false} ReachesMore(cfg: Config, s: State, e: Event, t: State)
    requires Enabled(s, e) && Reaches(cfg, React(cfg, s, e), t)
    ensures Reaches(cfg, s, t)
  {
    var u := React(cfg, s, e);
    var run :| CanRun(cfg, u, run) && After(cfg, u, run) == t;
    var longer := [Timed(s.now, e)] + run;
    assert longer[0] == Timed(s.now, e) && longer[1..] == run;
    assert s.(now := s.now) == s;
    assert CanRun(cfg, s, longer) && After(cfg, s, longer) == t;
  }

  /** A registration is under way, and the tombstone's handler waits for it. */
  function Waited(app: App, slug: string): State {
    var tombs := map[app := Tomb(slug, 0, 1, 0)];
    Init(0).(traffic := Traffic(map[0 := Relay(app, true)], map[], 1), store := Store(tombs, tombs), marks := Marks(1, {}),
             handlers := map[0 := Draining(app, 0, {0})], nextHandler := 1)
  }

  lemma {:induction false} WaitedRuns(cfg: Config, app: App, t: State)
    requires SlugFor(app, cfg.prefix).Some? && cfg.maxEntries >= 1 && Reaches(cfg, Waited(app, SlugFor(app, cfg.prefix).value), t)
    ensures Reaches(cfg, Init(0), t)
  {
    var s0 := Init(0);
    var s1 := React(cfg, s0, RelayArrives(app, true));
    assert s1 == s0.(traffic := Traffic(map[0 := Relay(app, true)], map[], 1));
    assert InFlight(s1.traffic.live, app) == {0};
    assert React(cfg, s1, TombstoneArrives(app, 1)) == Waited(app, SlugFor(app, cfg.prefix).value);
    ReachesMore(cfg, s1, TombstoneArrives(app, 1), t);
    ReachesMore(cfg, s0, RelayArrives(app, true), t);
  }

  /** A registration whose relay timed out is no longer waited for: it may register
      the App after the tombstone has been acknowledged. */
  lemma {:induction false} TimedOutRegistrationReturns(cfg: Config, app: App) returns (t: State)
    requires SlugFor(app, cfg.prefix).Some? && cfg.maxEntries >= 1
    ensures Reaches(cfg, Init(0), t) && Acknowledged(t, app, 0) && app in t.broker.apps
  {
    var s2 := Waited(app, SlugFor(app, cfg.prefix).value);
    var s3 := React(cfg, s2, RelaySettles(0, true));
    assert s3 == s2.(traffic := Traffic(map[], map[0 := Relay(app, true)], 1));
    var s4 := React(cfg, s3, DrainSettles(0));
    assert s4 == s3.(handlers := map[], marks := Marks(1, {(app, 0)}));
    t := React(cfg, s4, LateTakesEffect(0));
    ReachesSelf(cfg, t);
    ReachesMore(cfg, s4, LateTakesEffect(0), t);
    ReachesMore(cfg, s3, DrainSettles(0), t);
    ReachesMore(cfg, s2, RelaySettles(0, true), t);
    WaitedRuns(cfg, app, t);
  }
}
