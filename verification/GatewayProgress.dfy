/** What the gateway lets through, exactly, and that every deletion can be finished. */
module GatewayProgress {
  import opened SandboxTypes
  import opened GatewayModel
  import opened GatewaySafety

  // ---- which Apps have tombstones ------------------------------------------

  /** The name of a factory sandbox App: the prefix, a dash and its slug. */
  ghost predicate Sandbox(cfg: Config, app: App, slug: string) {
    app == cfg.prefix + "-" + slug && SafeApp(app) && FactorySlug(slug)
  }

  /** Every tombstone is of a sandbox App, and holds its slug. */
  ghost predicate Named(cfg: Config, s: State) {
    forall a :: a in s.store.tombs ==> Sandbox(cfg, a, s.store.tombs[a].slug)
  }

  lemma {:induction false} SlugIs(cfg: Config, app: App, slug: string)
    requires Sandbox(cfg, app, slug)
    ensures SlugFor(app, cfg.prefix) == Some(slug)
  {
    SlugForIsExact(app, cfg.prefix, slug);
  }

  lemma {:induction false} SlugIsSandbox(cfg: Config, app: App)
    ensures SlugFor(app, cfg.prefix).Some? <==> exists slug :: Sandbox(cfg, app, slug)
  {
    if SlugFor(app, cfg.prefix).Some? {
      SlugForIsExact(app, cfg.prefix, SlugFor(app, cfg.prefix).value);
      assert Sandbox(cfg, app, SlugFor(app, cfg.prefix).value);
    }
    forall slug | Sandbox(cfg, app, slug)
      ensures SlugFor(app, cfg.prefix).Some?
    {
      SlugIs(cfg, app, slug);
    }
  }

  lemma {:induction false} ReactNames(cfg: Config, s: State, e: Event)
    requires Inv(s) && Named(cfg, s) && Enabled(s, e)
    ensures Named(cfg, React(cfg, s, e))
  {
    if e.TombstoneArrives? && SlugFor(e.app, cfg.prefix).Some? {
      SlugForIsExact(e.app, cfg.prefix, SlugFor(e.app, cfg.prefix).value);
    }
  }

  lemma {:induction false} RunNames(cfg: Config, s: State, run: seq<Timed>)
    requires Inv(s) && Named(cfg, s) && CanRun(cfg, s, run)
    ensures Inv(After(cfg, s, run)) && Named(cfg, After(cfg, s, run))
    decreases |run|
  {
    if run != [] {
      LaterInv(s, run[0].at);
      StepKeeps(cfg, s, run[0]);
      ReactNames(cfg, s.(now := run[0].at), run[0].event);
      RunNames(cfg, Step(cfg, s, run[0]), run[1..]);
    }
  }

  lemma {:induction false} LaterInv(s: State, at: int)
    requires Inv(s)
    ensures Inv(s.(now := at))
  {
    var t := s.(now := at);
    AcksStay(s, t);
    HandlersStay(s, t, s.nextHandler);
  }

  // ---- what a deletion needs ------------------------------------------------

  /** A deletion of `app` arrives while a tombstone of it stands. */
  ghost predicate Deletes(s: State, e: Event, app: App) {
    e == DeleteArrives(app) && app in s.store.tombs
  }

  ghost predicate DeletedIn(cfg: Config, s: State, run: seq<Timed>, app: App)
    requires CanRun(cfg, s, run)
    decreases |run|
  {
    run != [] && (Deletes(s, run[0].event, app) || DeletedIn(cfg, Step(cfg, s, run[0]), run[1..], app))
  }

  /** A deletion reaches the broker if and only if its App has a tombstone. */
  lemma {:induction false} DeletionIsExact(cfg: Config, s: State, e: Event, app: App)
    requires Inv(s) && Named(cfg, s) && Enabled(s, e)
    ensures app in React(cfg, s, e).broker.deleting <==> app in s.broker.deleting || Deletes(s, e, app)
  {
    if e.DeleteArrives? && e.app in s.store.tombs {
      SlugIs(cfg, e.app, s.store.tombs[e.app].slug);
    }
  }

  lemma {:induction false} RunDeletes(cfg: Config, s: State, run: seq<Timed>, app: App)
    requires Inv(s) && Named(cfg, s) && CanRun(cfg, s, run)
    ensures app in After(cfg, s, run).broker.deleting <==> app in s.broker.deleting || DeletedIn(cfg, s, run, app)
    decreases |run|
  {
    if run != [] {
      var r := s.(now := run[0].at);
      LaterInv(s, run[0].at);
      StepKeeps(cfg, s, run[0]);
      ReactNames(cfg, r, run[0].event);
      DeletionIsExact(cfg, r, run[0].event, app);
      RunDeletes(cfg, Step(cfg, s, run[0]), run[1..], app);
    }
  }

  /** Over every run the deletions that have reached the broker are exactly those that
      arrived while their App had a tombstone, and every such App has the name of a factory
      sandbox. */
  lemma {:induction false} DeletionsAreEarned(cfg: Config, now: int, run: seq<Timed>, app: App)
    requires CanRun(cfg, Init(now), run)
    ensures app in After(cfg, Init(now), run).broker.deleting <==> DeletedIn(cfg, Init(now), run, app)
    ensures app in After(cfg, Init(now), run).store.tombs ==> exists slug :: Sandbox(cfg, app, slug)
  {
    RunDeletes(cfg, Init(now), run, app);
    RunNames(cfg, Init(now), run);
  }

  // ---- every deletion can be finished ---------------------------------------

  /** A run of the gateway and the broker leads from `s` to `t`. */
  lemma {:induction false} ReachesLater(cfg: Config, s: State, at: int, e: Event, t: State)
    requires s.now <= at && Enabled(s.(now := at), e) && Reaches(cfg, React(cfg, s.(now := at), e), t)
    ensures Reaches(cfg, s, t)
  {
    var u := React(cfg, s.(now := at), e);
    var run :| CanRun(cfg, u, run) && After(cfg, u, run) == t;
    var longer := [Timed(at, e)] + run;
    assert longer[0] == Timed(at, e) && longer[1..] == run;
    assert CanStep(s, longer[0]) && Step(cfg, s, longer[0]) == u;
    assert CanRun(cfg, s, longer) && After(cfg, s, longer) == t;
  }

  lemma {:induction false} ReachesThen(cfg: Config, s: State, t: State, u: State)
    requires Reaches(cfg, s, t) && Reaches(cfg, t, u)
    ensures Reaches(cfg, s, u)
  {
    var run :| CanRun(cfg, s, run) && After(cfg, s, run) == t;
    RunThen(cfg, s, run, u);
  }

  lemma {:induction false} RunThen(cfg: Config, s: State, run: seq<Timed>, u: State)
    requires CanRun(cfg, s, run) && Reaches(cfg, After(cfg, s, run), u)
    ensures Reaches(cfg, s, u)
    decreases |run|
  {
    if run != [] {
      RunThen(cfg, Step(cfg, s, run[0]), run[1..], u);
      assert s.now <= run[0].at;
      ReachesLater(cfg, s, run[0].at, run[0].event, u);
    }
  }

  /** The relays under way settle, one after the other. */
  lemma {:induction false} CanSettle(cfg: Config, s: State) returns (t: State)
    requires Inv(s)
    ensures Reaches(cfg, s, t) && t == s.(traffic := s.traffic.(live := map[]))
    decreases |s.traffic.live|
  {
    if s.traffic.live == map[] {
      t := s;
      ReachesSelf(cfg, s);
    } else {
      var r :| r in s.traffic.live;
      var u := React(cfg, s, RelaySettles(r, false));
      assert u == s.(traffic := s.traffic.(live := s.traffic.live - {r}));
      OneLess(s.traffic.live, r);
      assert s.(now := s.now) == s;
      StepKeeps(cfg, s, Timed(s.now, RelaySettles(r, false)));
      t := CanSettle(cfg, u);
      ReachesMore(cfg, s, RelaySettles(r, false), t);
    }
  }

  lemma {:induction false} OneLess(m: map<nat, Relay>, r: nat)
    requires r in m
    ensures |m - {r}| < |m|
  {
    assert (m - {r}).Keys == m.Keys - {r};
    assert |(m - {r}).Keys| == |m.Keys| - 1;
  }

  /** The requests the gateway has lost track of come to nothing. */
  lemma {:induction false} CanDrop(cfg: Config, s: State) returns (t: State)
    requires Inv(s)
    ensures Reaches(cfg, s, t) && t == s.(traffic := s.traffic.(late := map[]))
    decreases |s.traffic.late|
  {
    if s.traffic.late == map[] {
      t := s;
      ReachesSelf(cfg, s);
    } else {
      var r :| r in s.traffic.late;
      var u := React(cfg, s, LateIsDropped(r));
      assert u == s.(traffic := s.traffic.(late := s.traffic.late - {r}));
      OneLess(s.traffic.late, r);
      assert s.(now := s.now) == s;
      StepKeeps(cfg, s, Timed(s.now, LateIsDropped(r)));
      t := CanDrop(cfg, u);
      ReachesMore(cfg, s, LateIsDropped(r), t);
    }
  }

  /** With nothing under way, the tombstone is asked for again and acknowledged at once. */
  lemma {:induction false} CanAcknowledge(cfg: Config, s: State, app: App) returns (t: State)
    requires Inv(s) && Named(cfg, s) && app in s.store.tombs && s.traffic.live == map[]
    ensures Reaches(cfg, s, t) && Inv(t) && Named(cfg, t) && Acknowledged(t, app, s.store.tombs[app].id)
    ensures t.traffic == s.traffic && t.broker == s.broker
  {
    var tomb := s.store.tombs[app];
    SlugIs(cfg, app, tomb.slug);
    var e := TombstoneArrives(app, s.now + 1);
    var u := React(cfg, s, e);
    assert InFlight(s.traffic.live, app) == {};
    assert u.handlers == s.handlers[s.nextHandler := Draining(app, tomb.id, {})] && u.store.tombs[app].id == tomb.id;
    var f := DrainSettles(s.nextHandler);
    t := React(cfg, u, f);
    assert s.(now := s.now) == s && u.(now := u.now) == u;
    StepKeeps(cfg, s, Timed(s.now, e));
    ReactNames(cfg, s, e);
    StepKeeps(cfg, u, Timed(u.now, f));
    ReactNames(cfg, u, f);
    ReachesSelf(cfg, t);
    ReachesMore(cfg, u, f, t);
    ReachesMore(cfg, s, e, t);
  }

  /** Then the deletion passes both gates and takes effect. */
  lemma {:induction false} CanDelete(cfg: Config, s: State, app: App, id: nat) returns (t: State)
    requires Inv(s) && Named(cfg, s) && Acknowledged(s, app, id) && s.traffic.late == map[]
    ensures Reaches(cfg, s, t) && Inv(t) && Gone(t, app, id)
    ensures t == s.(broker := t.broker)
  {
    SlugIs(cfg, app, s.store.tombs[app].slug);
    var e, f := DeleteArrives(app), DeleteTakesEffect(app);
    var u := React(cfg, s, e);
    t := React(cfg, u, f);
    assert s.(now := s.now) == s && u.(now := u.now) == u;
    StepKeeps(cfg, s, Timed(s.now, e));
    StepKeeps(cfg, u, Timed(u.now, f));
    ReachesSelf(cfg, t);
    ReachesMore(cfg, u, f, t);
    ReachesMore(cfg, s, e, t);
  }

  /** When the tombstone has expired, the broker shows no such App and it is released. */
  lemma {:induction false} CanRelease(cfg: Config, s: State, app: App, id: nat) returns (t: State)
    requires Inv(s) && Named(cfg, s) && Gone(s, app, id)
    ensures Reaches(cfg, s, t) && app !in t.store.tombs && app !in t.store.files && app !in t.broker.apps
  {
    SlugIs(cfg, app, s.store.tombs[app].slug);
    var at := if s.now < s.store.tombs[app].expiresAt then s.store.tombs[app].expiresAt else s.now;
    var r := s.(now := at);
    var h := s.nextHandler;
    var u := React(cfg, r, ReleaseArrives(app));
    assert u == r.(handlers := s.handlers[h := Reading(app)], nextHandler := h + 1);
    var v := React(cfg, u, ReleaseReads(h, true));
    assert v.handlers[h] == Removing(app, true) && v.store == s.store;
    t := React(cfg, v, ReleaseCommits(h));
    ReachesSelf(cfg, t);
    ReachesMore(cfg, v, ReleaseCommits(h), t);
    ReachesMore(cfg, u, ReleaseReads(h, true), t);
    ReachesLater(cfg, s, at, ReleaseArrives(app), t);
  }

  /** From every state that a run reaches, whatever is under way or lost: an App that has a
      tombstone can be deleted, so that it is gone under that very tombstone, and then the
      tombstone can be released. */
  lemma {:induction false} DeletionCanFinish(cfg: Config, now: int, run: seq<Timed>, app: App) returns (gone: State, released: State)
    requires CanRun(cfg, Init(now), run) && app in After(cfg, Init(now), run).store.tombs
    ensures var s := After(cfg, Init(now), run);
      && Reaches(cfg, s, gone) && Gone(gone, app, s.store.tombs[app].id)
      && Reaches(cfg, gone, released) && app !in released.store.tombs && app !in released.store.files && app !in released.broker.apps
  {
    var s := After(cfg, Init(now), run);
    RunNames(cfg, Init(now), run);
    var a := CanSettle(cfg, s);
    LessTraffic(cfg, s, a);
    var b := CanDrop(cfg, a);
    LessTraffic(cfg, a, b);
    var c := CanAcknowledge(cfg, b, app);
    gone := CanDelete(cfg, c, app, s.store.tombs[app].id);
    released := CanRelease(cfg, gone, app, s.store.tombs[app].id);
    ReachesThen(cfg, s, a, b);
    ReachesThen(cfg, s, b, c);
    ReachesThen(cfg, s, c, gone);
  }

  lemma {:induction false} LessTraffic(cfg: Config, s: State, t: State)
    requires Inv(s) && Named(cfg, s) && t == s.(traffic := t.traffic) && TrafficOk(t.traffic)
    requires forall r :: r in t.traffic.live ==> r in s.traffic.live && t.traffic.live[r] == s.traffic.live[r]
    ensures Inv(t) && Named(cfg, t)
  {
    AcksStay(s, t);
    HandlersStay(s, t, s.nextHandler);
  }
}
