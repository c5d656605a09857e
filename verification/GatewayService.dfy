/** The gateway process: the tombstone store and the per-App sets of relays it updates
    in place.  Every method refines one event of the state machine. */
module GatewayService {
  import opened SandboxTypes
  import opened GatewayModel
  import Progress = GatewayProgress

  class TombstoneStore {
    /** The directory: what survives the process. */
    var files: Tombs
    /** The copy in memory. */
    var tombs: Tombs
    const maxEntries: nat

    ghost predicate Valid()
      reads this
    {
      tombs == files
    }

    constructor (maxEntries: nat)
      requires maxEntries >= 1
      ensures Valid() && files == map[] && this.maxEntries == maxEntries
    {
      this.maxEntries := maxEntries;
      files, tombs := map[], map[];
    }

    method Load()
      modifies this`tombs
      ensures Valid()
    {
      tombs := map[];
      var names := files.Keys;
      while names != {}
        invariant names <= files.Keys
        invariant tombs.Keys == files.Keys - names
        invariant forall a :: a in tombs ==> tombs[a] == files[a]
        decreases names
      {
        var name :| name in names;
        tombs := tombs[name := files[name]];
        names := names - {name};
      }
    }

    /** The file is written before the copy in memory. */
    method InstallTombstone(app: App, slug: string, expiresAt: int, now: int, id: nat) returns (tomb: Option<Tomb>)
      requires Valid()
      modifies this
      ensures Valid()
      ensures match Fence(old(files), maxEntries, app, slug, expiresAt, now, id)
              case None => tomb == None && files == old(files)
              case Some(result) => tomb == Some(result.1) && files == result.0
    {
      if !SafeApp(app) || !FactorySlug(slug) || expiresAt <= now {
        return None;
      }
      var fenced: Tomb;
      if app in tombs {
        fenced := tombs[app];
        if fenced.slug != slug {
          return None;
        }
        if fenced.expiresAt >= expiresAt {
          return Some(fenced);
        }
        fenced := fenced.(expiresAt := expiresAt);
      } else {
        if |tombs| >= maxEntries {
          return None;
        }
        fenced := Tomb(slug, now, expiresAt, id);
      }
      files := files[app := fenced];
      tombs := tombs[app := fenced];
      tomb := Some(fenced);
    }

    method RemoveVerifiedExpired(app: App, now: int) returns (removed: bool)
      requires Valid()
      modifies this
      ensures Valid() && removed == Removable(old(files), app, now)
      ensures files == if removed then old(files) - {app} else old(files)
    {
      if app !in tombs || tombs[app].expiresAt > now {
        return false;
      }
      files := files - {app};
      tombs := tombs - {app};
      removed := true;
    }
  }

  class Gateway {
    const cfg: Config
    const tombstones: TombstoneStore
    /** The sets of relays under way; an App without any has no entry. */
    var inFlightByApp: map<App, set<nat>>
    var handlers: map<nat, Pc>
    var nextRelay: nat
    var nextHandler: nat
    ghost var relays: Traffic
    ghost var broker: Broker
    /** Names the incarnations of tombstones. */
    var nextTomb: nat
    ghost var acked: set<(App, nat)>
    ghost var clock: int

    ghost function View(): State
      reads this, tombstones
    {
      State(clock, Store(tombstones.files, tombstones.tombs), relays, broker, handlers, nextHandler, Marks(nextTomb, acked))
    }

    ghost predicate Valid()
      reads this, tombstones
    {
      && tombstones.Valid() && tombstones.maxEntries == cfg.maxEntries
      && relays.next == nextRelay
      && (forall r :: r in relays.live ==> r < nextRelay)
      && Tracked(inFlightByApp, relays.live)
    }

    constructor (cfg: Config, store: TombstoneStore, now: int)
      requires store.Valid() && store.files == map[] && store.maxEntries == cfg.maxEntries
      ensures Valid() && View() == Init(now) && this.cfg == cfg && tombstones == store
    {
      this.cfg, tombstones := cfg, store;
      inFlightByApp, handlers, nextRelay, nextHandler := map[], map[], 0, 0;
      relays, broker, clock := Init(now).traffic, Init(now).broker, now;
      nextTomb, acked := 0, {};
    }

    /** The relays of an App that are under way, none if it has no entry. */
    method Under(app: App) returns (waits: set<nat>)
      requires Valid()
      ensures waits == InFlight(relays.live, app)
    {
      waits := if app in inFlightByApp then inFlightByApp[app] else {};
      if app !in inFlightByApp {
        assert forall r :: r in relays.live ==> relays.live[r].app != app;
      }
    }

    method Tombstone(app: App, expiresAt: int, now: int)
      requires Valid() && CanStep(View(), Timed(now, TombstoneArrives(app, expiresAt)))
      modifies this`handlers, this`nextHandler, this`nextTomb, this`clock, tombstones
      ensures Valid() && View() == Step(cfg, old(View()), Timed(now, TombstoneArrives(app, expiresAt)))
    {
      clock := now;
      var slug := SlugFor(app, cfg.prefix);
      if slug.None? || expiresAt <= now || expiresAt > now + MAX_RETENTION_MS {
        return;
      }
      ghost var before := tombstones.tombs;
      var tomb := tombstones.InstallTombstone(app, slug.value, expiresAt, now, nextTomb);
      if tomb.Some? {
        assert tombstones.files == before[app := tomb.value];
        var waits := Under(app);
        handlers := handlers[nextHandler := Draining(app, tomb.value.id, waits)];
        nextHandler := nextHandler + 1;
        nextTomb := nextTomb + 1;
      }
    }

    /** Every relay the handler saw has settled: the acknowledgement is sent. */
    method AckTombstone(id: nat, now: int)
      requires Valid() && CanStep(View(), Timed(now, DrainSettles(id)))
      modifies this`handlers, this`acked, this`clock
      ensures Valid() && View() == Step(cfg, old(View()), Timed(now, DrainSettles(id)))
    {
      clock := now;
      acked := acked + {(handlers[id].app, handlers[id].id)};
      handlers := handlers - {id};
    }

    method BeginRelease(app: App, now: int)
      requires Valid() && CanStep(View(), Timed(now, ReleaseArrives(app)))
      modifies this`handlers, this`nextHandler, this`clock
      ensures Valid() && View() == Step(cfg, old(View()), Timed(now, ReleaseArrives(app)))
    {
      clock := now;
      if SlugFor(app, cfg.prefix).Some? && app in tombstones.tombs && tombstones.tombs[app].expiresAt <= now {
        handlers := handlers[nextHandler := Reading(app)];
        nextHandler := nextHandler + 1;
      }
    }

    /** The expiry is tested once more after the broker's answer. */
    method CommitRelease(id: nat, now: int) returns (released: bool)
      requires Valid() && CanStep(View(), Timed(now, ReleaseCommits(id)))
      modifies this`handlers, this`clock, tombstones
      ensures Valid() && View() == Step(cfg, old(View()), Timed(now, ReleaseCommits(id)))
      ensures released <==> old(handlers[id].app in tombstones.tombs) && old(handlers[id]).app !in tombstones.tombs
    {
      clock := now;
      var pc := handlers[id];
      handlers := handlers - {id};
      released := false;
      if pc.absent {
        released := tombstones.RemoveVerifiedExpired(pc.app, now);
      }
    }

    /** The gate of a deletion: only a tombstoned App may be deleted. */
    method DeleteApp(app: App, now: int) returns (forwarded: bool)
      requires Valid() && CanStep(View(), Timed(now, DeleteArrives(app)))
      modifies this`broker, this`clock
      ensures Valid() && View() == Step(cfg, old(View()), Timed(now, DeleteArrives(app)))
      ensures forwarded <==> app in tombstones.tombs && exists slug :: Progress.Sandbox(cfg, app, slug)
      ensures broker == (if forwarded then old(broker).(deleting := old(broker).deleting + {app}) else old(broker))
    {
      clock := now;
      var slug := SlugFor(app, cfg.prefix);
      Progress.SlugIsSandbox(cfg, app);
      forwarded := slug.Some? && app in tombstones.tombs;
      if forwarded {
        broker := broker.(deleting := broker.deleting + {app});
      }
    }

    /** Registrations and callbacks: the test and the tracking are one stretch. */
    method Forward(app: App, registers: bool, now: int) returns (relay: Option<nat>)
      requires Valid() && CanStep(View(), Timed(now, RelayArrives(app, registers)))
      modifies this`inFlightByApp, this`nextRelay, this`relays, this`clock
      ensures Valid() && View() == Step(cfg, old(View()), Timed(now, RelayArrives(app, registers)))
      ensures relay.Some? <==> app !in tombstones.tombs && exists slug :: Progress.Sandbox(cfg, app, slug)
      ensures relay.Some? ==> relays.live == old(relays).live[relay.value := Relay(app, registers)] && relay.value !in old(relays).live
    {
      clock := now;
      relay := None;
      Progress.SlugIsSandbox(cfg, app);
      if SlugFor(app, cfg.prefix).Some? && app !in tombstones.tombs {
        relay := Some(nextRelay);
        Track(app, registers);
      }
    }

    method Track(app: App, registers: bool)
      requires Valid()
      modifies this`inFlightByApp, this`nextRelay, this`relays
      ensures Valid()
      ensures relays == old(relays).(live := old(relays).live[old(nextRelay) := Relay(app, registers)], next := old(nextRelay) + 1)
    {
      var r := nextRelay;
      var current := Under(app);
      ghost var live := relays.live;
      TrackedSets(inFlightByApp, live, r, Relay(app, registers));
      inFlightByApp := inFlightByApp[app := current + {r}];
      nextRelay := r + 1;
      relays := relays.(live := live[r := Relay(app, registers)], next := r + 1);
    }

    /** The relay's promise settles, one way or the other. */
    method Untrack(r: nat, app: App, abandoned: bool, now: int)
      requires Valid() && CanStep(View(), Timed(now, RelaySettles(r, abandoned))) && relays.live[r].app == app
      modifies this`inFlightByApp, this`relays, this`clock
      ensures Valid() && View() == Step(cfg, old(View()), Timed(now, RelaySettles(r, abandoned)))
    {
      clock := now;
      UntrackedSets(inFlightByApp, relays.live, r);
      relays := relays.(live := relays.live - {r}, late := if abandoned then relays.late[r := relays.live[r]] else relays.late);
      var rest := inFlightByApp[app] - {r};
      if rest == {} {
        inFlightByApp := inFlightByApp - {app};
      } else {
        inFlightByApp := inFlightByApp[app := rest];
      }
    }

    /** A restart after a crash: only the tombstone files are left. */
    method Reload(now: int)
      requires Valid() && CanStep(View(), Timed(now, Event.Restart))
      modifies this, tombstones
      ensures Valid() && View() == Step(cfg, old(View()), Timed(now, Event.Restart))
    {
      clock := now;
      inFlightByApp, handlers := map[], map[];
      relays := relays.(live := map[], late := relays.late + relays.live);
      tombstones.Load();
    }
  }

  /** Each App with relays under way has exactly them in its set, and no other App
      has an entry. */
  ghost predicate Tracked(sets: map<App, set<nat>>, live: map<nat, Relay>) {
    && (forall a :: a in sets ==> sets[a] != {} && sets[a] == InFlight(live, a))
    && (forall r :: r in live ==> live[r].app in sets)
  }

  lemma {:induction false} TrackedSets(sets: map<App, set<nat>>, live: map<nat, Relay>, r: nat, relay: Relay)
    requires Tracked(sets, live) && r !in live
    ensures Tracked(sets[relay.app := InFlight(live, relay.app) + {r}], live[r := relay])
  {
  }

  lemma {:induction false} UntrackedSets(sets: map<App, set<nat>>, live: map<nat, Relay>, r: nat)
    requires Tracked(sets, live) && r in live
    ensures var app := live[r].app; var rest := sets[app] - {r};
      Tracked(if rest == {} then sets - {app} else sets[app := rest], live - {r})
  {
  }
}
