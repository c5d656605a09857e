/** What each request to the gateway changes, case by case. */
module GatewayAnswers {
  import opened SandboxTypes
  import opened GatewayModel
  import opened GatewaySafety
  import opened GatewayProgress

  /** The tombstone is for a sandbox App, for at most 30 days, and there is room. */
  ghost predicate MayEntomb(cfg: Config, s: State, app: App, expiresAt: int) {
    && (exists slug :: Sandbox(cfg, app, slug))
    && s.now < expiresAt <= s.now + 30 * 24 * 3_600_000
    && (app in s.store.tombs || |s.store.tombs| < cfg.maxEntries)
  }

  /** The tombstone after the request: the old one with the later expiry, or a new one. */
  ghost predicate Entombed(cfg: Config, s: State, tomb: Tomb, app: App, expiresAt: int) {
    && Sandbox(cfg, app, tomb.slug)
    && if app in s.store.tombs
       then
         && tomb.fencedAt == s.store.tombs[app].fencedAt && tomb.id == s.store.tombs[app].id
         && tomb.expiresAt == Max(s.store.tombs[app].expiresAt, expiresAt)
       else tomb.fencedAt == s.now && tomb.id == s.marks.nextTomb && tomb.expiresAt == expiresAt
  }

  lemma {:induction false} OneSlug(cfg: Config, app: App, x: string, y: string)
    requires Sandbox(cfg, app, x) && Sandbox(cfg, app, y)
    ensures x == y
  {
    SlugIs(cfg, app, x);
    SlugIs(cfg, app, y);
  }

  /** A tombstone request changes exactly the tombstone of its App, and its handler waits
      for exactly the relays of that App that are under way; or it changes nothing. */
  lemma {:induction false} TombstoneIsExact(cfg: Config, s: State, app: App, expiresAt: int)
    requires Inv(s) && Named(cfg, s)
    ensures var t := React(cfg, s, TombstoneArrives(app, expiresAt));
      if MayEntomb(cfg, s, app, expiresAt)
      then
        && app in t.store.files && Entombed(cfg, s, t.store.files[app], app, expiresAt)
        && t.store.files == s.store.files[app := t.store.files[app]] && t.store.tombs == t.store.files
        && s.nextHandler in t.handlers && t.handlers[s.nextHandler].Draining?
        && t.handlers[s.nextHandler].app == app && t.handlers[s.nextHandler].id == t.store.files[app].id
        && (forall r :: r in t.handlers[s.nextHandler].waits <==> r in s.traffic.live && s.traffic.live[r].app == app)
        && t.traffic == s.traffic && t.broker == s.broker && t.marks.acked == s.marks.acked
      else t == s
  {
    SlugIsSandbox(cfg, app);
    if SlugFor(app, cfg.prefix).Some? {
      var slug := SlugFor(app, cfg.prefix).value;
      SlugForIsExact(app, cfg.prefix, slug);
      if app in s.store.tombs {
        OneSlug(cfg, app, slug, s.store.tombs[app].slug);
      }
    }
  }

  /** A register or callback request is forwarded and tracked exactly if its App is a sandbox
      App without a tombstone. */
  lemma {:induction false} ForwardIsExact(cfg: Config, s: State, app: App, registers: bool)
    requires Inv(s)
    ensures var t := React(cfg, s, RelayArrives(app, registers));
      && t == s.(traffic := t.traffic) && t.traffic.late == s.traffic.late
      && t.traffic.live == (if app !in s.store.tombs && exists slug :: Sandbox(cfg, app, slug)
                            then s.traffic.live[s.traffic.next := Relay(app, registers)] else s.traffic.live)
  {
    SlugIsSandbox(cfg, app);
  }

  /** A release begins exactly if the tombstone has expired, goes on exactly if the broker
      answers, and removes exactly its App's tombstone, if the broker did not show the App
      and the tombstone is still expired. */
  lemma {:induction false} ReleaseIsExact(cfg: Config, s: State, e: Event)
    requires Inv(s) && Named(cfg, s) && Enabled(s, e) && (e.ReleaseArrives? || e.ReleaseReads? || e.ReleaseCommits?)
    ensures var t := React(cfg, s, e);
      && t.traffic == s.traffic && t.broker == s.broker && t.marks == s.marks
      && match e
         case ReleaseArrives(app) =>
           t.store == s.store && t.handlers == (if app in s.store.tombs && s.store.tombs[app].expiresAt <= s.now
                                                then s.handlers[s.nextHandler := Reading(app)] else s.handlers)
         case ReleaseReads(id, answered) =>
           t.store == s.store && t.handlers == (if answered
                                                then s.handlers[id := Removing(s.handlers[id].app, s.handlers[id].app !in s.broker.apps)]
                                                else s.handlers - {id})
         case ReleaseCommits(id) =>
           var app := s.handlers[id].app;
           && t.handlers == s.handlers - {id} && t.store.tombs == t.store.files
           && (forall a :: a in t.store.files <==>
                a in s.store.files && !(a == app && s.handlers[id].absent && s.store.files[a].expiresAt <= s.now))
           && (forall a :: a in t.store.files ==> t.store.files[a] == s.store.files[a])
         case _ => false
  {
    if e.ReleaseArrives? && e.app in s.store.tombs {
      SlugIs(cfg, e.app, s.store.tombs[e.app].slug);
    }
  }

  /** A tombstone is acknowledged for its own incarnation, once the relays that its handler
      saw have settled; a relay that settles leaves only its own set. */
  lemma {:induction false} SettleIsExact(cfg: Config, s: State, e: Event)
    requires Inv(s) && Enabled(s, e) && (e.DrainSettles? || e.RelaySettles?)
    ensures var t := React(cfg, s, e);
      && t.store == s.store && t.broker == s.broker
      && match e
         case DrainSettles(id) =>
           && (forall r :: r in s.traffic.live ==> r !in s.handlers[id].waits)
           && t.handlers == s.handlers - {id} && t.traffic == s.traffic
           && t.marks == s.marks.(acked := s.marks.acked + {(s.handlers[id].app, s.handlers[id].id)})
         case RelaySettles(r, abandoned) =>
           && t.handlers == s.handlers && t.marks == s.marks
           && t.traffic.live == s.traffic.live - {r}
           && t.traffic.late == (if abandoned then s.traffic.late[r := s.traffic.live[r]] else s.traffic.late)
         case _ => false
  {
  }

  /** What the broker does: a deletion takes its App away, a registration brings it, and a
      request that was lost is processed once, or never. */
  lemma {:induction false} BrokerIsExact(cfg: Config, s: State, e: Event)
    requires Enabled(s, e) && (e.DeleteTakesEffect? || e.RelayTakesEffect? || e.LateTakesEffect? || e.LateIsDropped?)
    ensures var t := React(cfg, s, e);
      && t.store == s.store && t.handlers == s.handlers && t.marks == s.marks
      && t.broker.deleting == s.broker.deleting && t.traffic.live == s.traffic.live
      && t.traffic.late == (if e.LateTakesEffect? || e.LateIsDropped? then s.traffic.late - {e.relay} else s.traffic.late)
      && (forall a :: a in t.broker.apps <==>
           || (a in s.broker.apps && e != DeleteTakesEffect(a))
           || (e.RelayTakesEffect? && s.traffic.live[e.relay] == Relay(a, true))
           || (e.LateTakesEffect? && s.traffic.late[e.relay] == Relay(a, true)))
  {
  }

  /** After a restart the tombstones are those of the files, no handler is left, and every
      relay that was under way may still come late. */
  lemma {:induction false} RestartIsExact(cfg: Config, s: State)
    ensures var t := React(cfg, s, Restart);
      && t.store == Store(s.store.files, s.store.files) && t.handlers == map[] && t.broker == s.broker && t.marks == s.marks
      && t.traffic.live == map[] && t.traffic.late == s.traffic.late + s.traffic.live
  {
  }

  // ---- names ----------------------------------------------------------------

  /** A factory slug is three groups of 8, 8 and 12 hexadecimal digits between its prefix and
      its suffix, joined by dashes. */
  lemma {:induction false} SlugIsThreeGroups(s: string)
    ensures FactorySlug(s) <==>
      exists a, b, c :: |a| == 8 && |b| == 8 && |c| == 12 && Hex(a) && Hex(b) && Hex(c) && s == "af-sbx-" + a + "-" + b + "-" + c + "-sb"
  {
    if FactorySlug(s) {
      var a, b, c := s[7..15], s[16..24], s[25..37];
      assert s == "af-sbx-" + a + "-" + b + "-" + c + "-sb";
    }
    forall a, b, c | |a| == 8 && |b| == 8 && |c| == 12 && s == "af-sbx-" + a + "-" + b + "-" + c + "-sb"
      ensures |s| == 40 && s[..7] == "af-sbx-" && s[7..15] == a && s[15] == '-' && s[16..24] == b && s[24] == '-' && s[25..37] == c && s[37..] == "-sb"
    {
    }
  }

  /** The ASCII codes of digits, capitals and small letters. */
  predicate AsciiAlphanumeric(c: char) {
    48 <= c as int <= 57 || 65 <= c as int <= 90 || 97 <= c as int <= 122
  }

  /** An App name is 3 to 191 characters, the first of them a letter or a digit and each other
      one a letter, a digit, a dot, a dash or an underscore; a hexadecimal digit is a digit or
      one of a to f. */
  lemma {:induction false} CharactersAreExact(s: string)
    ensures SafeApp(s) <==>
      && 3 <= |s| <= 191 && AsciiAlphanumeric(s[0])
      && forall i :: 0 <= i < |s| ==> AsciiAlphanumeric(s[i]) || s[i] as int in {45, 46, 95}
    ensures Hex(s) <==> forall i :: 0 <= i < |s| ==> 48 <= s[i] as int <= 57 || 97 <= s[i] as int <= 102
  {
    assert '0' as int == 48 && '9' as int == 57 && 'A' as int == 65 && 'Z' as int == 90 && 'a' as int == 97 && 'z' as int == 122;
    assert 'f' as int == 102 && '-' as int == 45 && '.' as int == 46 && '_' as int == 95;
  }
}
