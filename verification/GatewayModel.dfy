/** The broker gateway as a state machine: durable tombstones of Apps being deleted,
    the relays under way for each App, and the broker behind it.  One event is the
    code between two awaits, or something the broker does. */
module GatewayModel {
  import opened SandboxTypes

  type App = string

  predicate Alphanumeric(c: char) {
    'A' <= c <= 'Z' || 'a' <= c <= 'z' || '0' <= c <= '9'
  }

  /** The App names that may become file names. */
  predicate SafeApp(s: string) {
    && 3 <= |s| <= 191 && Alphanumeric(s[0])
    && forall i :: 1 <= i < |s| ==> Alphanumeric(s[i]) || s[i] in {'.', '_', '-'}
  }

  predicate Hex(s: string) {
    forall i :: 0 <= i < |s| ==> '0' <= s[i] <= '9' || 'a' <= s[i] <= 'f'
  }

  /** The shape of a factory sandbox slug: three groups of 8, 8 and 12 digits. */
  predicate FactorySlug(s: string) {
    && |s| == 40 && s[..7] == "af-sbx-" && s[15] == '-' && s[24] == '-' && s[37..] == "-sb"
    && Hex(s[7..15]) && Hex(s[16..24]) && Hex(s[25..37])
  }

  function SlugFor(app: App, prefix: string): Option<string> {
    var marker := prefix + "-";
    if |app| < |marker| || app[..|marker|] != marker || !SafeApp(app) then None
    else if FactorySlug(app[|marker|..]) then Some(app[|marker|..])
    else None
  }

  /** `id` is history: it tells the incarnations of an App's tombstone apart. */
  datatype Tomb = Tomb(slug: string, fencedAt: int, expiresAt: int, id: nat)

  type Tombs = map<App, Tomb>

  datatype Store = Store(files: Tombs, tombs: Tombs)

  /** A request forwarded for an App.  A registration makes the broker know it. */
  datatype Relay = Relay(app: App, registers: bool)

  /** `live` are the relays the gateway tracks.  `late` are requests it has lost track
      of, by a timeout or a crash; the broker may still process each of them once, or
      never. */
  datatype Traffic = Traffic(live: map<nat, Relay>, late: map<nat, Relay>, next: nat)

  datatype Broker = Broker(apps: set<App>, deleting: set<App>)

  datatype Pc =
    | Draining(app: App, id: nat, waits: set<nat>)
    | Reading(app: App)
    | Removing(app: App, absent: bool)

  /** History: the next incarnation, and the tombstones acknowledged. */
  datatype Marks = Marks(nextTomb: nat, acked: set<(App, nat)>)

  datatype State = State(
    now: int,
    store: Store,
    traffic: Traffic,
    broker: Broker,
    handlers: map<nat, Pc>,
    nextHandler: nat,
    marks: Marks)

  datatype Config = Config(prefix: string, maxEntries: nat)

  datatype Event =
    | TombstoneArrives(app: App, expiresAt: int)
    | DrainSettles(id: nat)
    | ReleaseArrives(app: App)
    | ReleaseReads(id: nat, answered: bool)
    | ReleaseCommits(id: nat)
    | DeleteArrives(app: App)
    | DeleteTakesEffect(app: App)
    | RelayArrives(app: App, registers: bool)
    | RelayTakesEffect(relay: nat)
    | RelaySettles(relay: nat, abandoned: bool)
    | LateTakesEffect(relay: nat)
    | LateIsDropped(relay: nat)
    | Restart

  function Init(now: int): State {
    State(now, Store(map[], map[]), Traffic(map[], map[], 0), Broker({}, {}), map[], 0, Marks(0, {}))
  }

  // ---- the tombstone store -------------------------------------------------

  /** What installing a tombstone leaves and answers, or None when it throws.  An
      existing one keeps the later of the two expiries. */
  function Fence(tombs: Tombs, maxEntries: nat, app: App, slug: string, expiresAt: int, now: int, id: nat): Option<(Tombs, Tomb)> {
    if !SafeApp(app) || !FactorySlug(slug) || expiresAt <= now then None
    else if app in tombs then
      var existing := tombs[app];
      if existing.slug != slug then None
      else if existing.expiresAt >= expiresAt then Some((tombs, existing))
      else
        var longer := existing.(expiresAt := expiresAt);
        Some((tombs[app := longer], longer))
    else if |tombs| >= maxEntries then None
    else
      var tomb := Tomb(slug, now, expiresAt, id);
      Some((tombs[app := tomb], tomb))
  }

  predicate Removable(tombs: Tombs, app: App, now: int) {
    app in tombs && tombs[app].expiresAt <= now
  }

  // ---- handlers -----------------------------------------------------------

  function Suspend(s: State, id: nat, pc: Pc): State {
    s.(handlers := s.handlers[id := pc])
  }

  function Drop(s: State, id: nat): State {
    s.(handlers := s.handlers - {id})
  }

  function Begin(s: State, pc: Pc): State {
    Suspend(s, s.nextHandler, pc).(nextHandler := s.nextHandler + 1)
  }

  /** The relays of `app` that the gateway tracks. */
  function InFlight(live: map<nat, Relay>, app: App): set<nat> {
    set r | r in live && live[r].app == app
  }

  /** The tombstone is durable, then the relays in flight are waited for. */
  function Install(cfg: Config, s: State, app: App, expiresAt: int): State {
    var slug := SlugFor(app, cfg.prefix);
    if slug.None? || expiresAt <= s.now || expiresAt > s.now + MAX_RETENTION_MS then s
    else
      var fenced := Fence(s.store.tombs, cfg.maxEntries, app, slug.value, expiresAt, s.now, s.marks.nextTomb);
      if fenced.None? then s
      else
        var (tombs, tomb) := fenced.value;
        var t := s.(store := Store(s.store.files[app := tomb], tombs), marks := s.marks.(nextTomb := s.marks.nextTomb + 1));
        Begin(t, Draining(app, tomb.id, InFlight(s.traffic.live, app)))
  }

  function Drained(s: State, id: nat): State
    requires id in s.handlers && s.handlers[id].Draining?
  {
    Drop(s, id).(marks := s.marks.(acked := s.marks.acked + {(s.handlers[id].app, s.handlers[id].id)}))
  }

  function AskRelease(s: State, app: App): State {
    if Removable(s.store.tombs, app, s.now) then Begin(s, Reading(app)) else s
  }

  function Release(s: State, id: nat): State
    requires id in s.handlers && s.handlers[id].Removing?
  {
    var app := s.handlers[id].app;
    var t := Drop(s, id);
    if s.handlers[id].absent && Removable(s.store.tombs, app, s.now)
    then t.(store := Store(s.store.files - {app}, s.store.tombs - {app}))
    else t
  }

  /** Register and callback relays: the tombstone is tested and the relay tracked
      without an await between the two. */
  function Admit(cfg: Config, s: State, relay: Relay): State {
    if SlugFor(relay.app, cfg.prefix).None? || relay.app in s.store.tombs then s
    else s.(traffic := s.traffic.(live := s.traffic.live[s.traffic.next := relay], next := s.traffic.next + 1))
  }

  function Effect(s: State, relay: Relay): State {
    if relay.registers then s.(broker := s.broker.(apps := s.broker.apps + {relay.app})) else s
  }

  function Settle(s: State, r: nat, abandoned: bool): State
    requires r in s.traffic.live
  {
    var late := if abandoned then s.traffic.late[r := s.traffic.live[r]] else s.traffic.late;
    s.(traffic := s.traffic.(live := s.traffic.live - {r}, late := late))
  }

  function Forget(s: State, r: nat): State {
    s.(traffic := s.traffic.(late := s.traffic.late - {r}))
  }

  function AskDelete(cfg: Config, s: State, app: App): State {
    if SlugFor(app, cfg.prefix).Some? && app in s.store.tombs
    then s.(broker := s.broker.(deleting := s.broker.deleting + {app}))
    else s
  }

  function Restarted(s: State): State {
    s.(store := Store(s.store.files, s.store.files),
       traffic := s.traffic.(live := map[], late := s.traffic.late + s.traffic.live),
       handlers := map[])
  }

  predicate Enabled(s: State, e: Event) {
    match e
    case DrainSettles(id) => id in s.handlers && s.handlers[id].Draining? && s.handlers[id].waits !! s.traffic.live.Keys
    case ReleaseReads(id, _) => id in s.handlers && s.handlers[id].Reading?
    case ReleaseCommits(id) => id in s.handlers && s.handlers[id].Removing?
    case DeleteTakesEffect(app) => app in s.broker.deleting
    case RelayTakesEffect(r) => r in s.traffic.live
    case RelaySettles(r, _) => r in s.traffic.live
    case LateTakesEffect(r) => r in s.traffic.late
    case LateIsDropped(r) => r in s.traffic.late
    case _ => true
  }

  function React(cfg: Config, s: State, e: Event): State
    requires Enabled(s, e)
  {
    match e
    case TombstoneArrives(app, expiresAt) => Install(cfg, s, app, expiresAt)
    case DrainSettles(id) => Drained(s, id)
    case ReleaseArrives(app) => if SlugFor(app, cfg.prefix).Some? then AskRelease(s, app) else s
    case ReleaseReads(id, answered) =>
      var app := s.handlers[id].app;
      if answered then Suspend(s, id, Removing(app, app !in s.broker.apps)) else Drop(s, id)
    case ReleaseCommits(id) => Release(s, id)
    case DeleteArrives(app) => AskDelete(cfg, s, app)
    case DeleteTakesEffect(app) => s.(broker := s.broker.(apps := s.broker.apps - {app}))
    case RelayArrives(app, registers) => Admit(cfg, s, Relay(app, registers))
    case RelayTakesEffect(r) => Effect(s, s.traffic.live[r])
    case RelaySettles(r, abandoned) => Settle(s, r, abandoned)
    case LateTakesEffect(r) => Forget(Effect(s, s.traffic.late[r]), r)
    case LateIsDropped(r) => Forget(s, r)
    case Restart => Restarted(s)
  }

  datatype Timed = Timed(at: int, event: Event)

  ghost predicate CanStep(s: State, step: Timed) {
    s.now <= step.at && Enabled(s.(now := step.at), step.event)
  }

  function Step(cfg: Config, s: State, step: Timed): State
    requires CanStep(s, step)
  {
    React(cfg, s.(now := step.at), step.event)
  }

  ghost predicate CanRun(cfg: Config, s: State, run: seq<Timed>)
    decreases |run|
  {
    run == [] || (CanStep(s, run[0]) && CanRun(cfg, Step(cfg, s, run[0]), run[1..]))
  }

  ghost function After(cfg: Config, s: State, run: seq<Timed>): State
    requires CanRun(cfg, s, run)
    decreases |run|
  {
    if run == [] then s else After(cfg, Step(cfg, s, run[0]), run[1..])
  }
}
