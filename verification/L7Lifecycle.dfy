/** A load balancer from its first pass to its tear-down: over every run of passes, url map updates, tear-downs and
    restarts, with writes failing anywhere, what the fields say of forwarding rules, proxies and the url map. */
module L7Lifecycle {
  import opened Text
  import opened L7Cloud
  import opened L7World
  import opened L7EdgeHop
  import opened L7Cleanup
  import opened L7Isolation

  predicate MapNamed(n: LbNames, c: Cloud) { n.um in c.urlMaps ==> c.urlMaps[n.um].name == n.um }

  /** The fields hold the right names; this survives even a restart. */
  predicate Sound(cfg: Config, w: World) { Named(cfg, w.l) && MapNamed(cfg.n, w.c) }

  /** Every forwarding rule, proxy and url map the cloud holds under the names of this load balancer is recorded. */
  predicate Held(cfg: Config, w: World) { AllRecorded(cfg, w) && MapNamed(cfg.n, w.c) }

  /** Right names stay right, and nothing recorded goes out of sight. */
  predicate Keeps(cfg: Config, w: World, w': World) { Sound(cfg, w') && (Held(cfg, w) ==> Held(cfg, w')) }

  /** Only the url map has changed: not at all, or it is now there and recorded. */
  predicate OnlyUrlMap(cfg: Config, w: World, w': World) {
    && w'.l == w.l.(um := w'.l.um) && w'.c == w.c.(urlMaps := w'.c.urlMaps, writes := w'.c.writes)
    && ((w'.l.um == w.l.um && w'.c.urlMaps == w.c.urlMaps)
        || (cfg.n.um in w'.c.urlMaps && w'.l.um == Some(w'.c.urlMaps[cfg.n.um]) && w'.l.um.value.name == cfg.n.um))
  }

  lemma {:induction false} OnlyUrlMapHeld(cfg: Config, w: World, w': World)
    requires Sound(cfg, w) && OnlyUrlMap(cfg, w, w')
    ensures Keeps(cfg, w, w')
  {
  }

  lemma {:induction false} UrlMapHeld(cfg: Config, env: Env, w: World)
    requires Sound(cfg, w)
    ensures Keeps(cfg, w, CheckUrlMap(cfg, env, w).w)
  {
    hide AllRecorded, Named;
    UrlMapFrame(cfg, env, w);
    assert OnlyUrlMap(cfg, w, CheckUrlMap(cfg, env, w).w);
    OnlyUrlMapHeld(cfg, w, CheckUrlMap(cfg, env, w).w);
  }

  /** Only the HTTP proxy has changed: not at all, or it is now recorded. */
  predicate OnlyProxy(cfg: Config, w: World, w': World) {
    && w'.l == w.l.(tp := w'.l.tp) && w'.c == w.c.(httpProxies := w'.c.httpProxies, writes := w'.c.writes)
    && ((w'.l.tp == w.l.tp && w'.c.httpProxies == w.c.httpProxies) || w'.l.tp == Some(cfg.n.tp))
  }

  lemma {:induction false} OnlyProxyHeld(cfg: Config, w: World, w': World)
    requires Sound(cfg, w) && OnlyProxy(cfg, w, w')
    ensures Keeps(cfg, w, w')
  {
  }

  lemma {:induction false} ProxyHeld(cfg: Config, env: Env, w: World)
    requires Sound(cfg, w)
    ensures Keeps(cfg, w, CheckProxy(cfg, env, w).w)
  {
    hide Sound, Keeps, SameLink, Succeeds;
    if Succeeds(env, w.c) {
      assert OnlyProxy(cfg, w, CheckProxy(cfg, env, w).w);
    } else {
      assert OnlyProxy(cfg, w, CheckProxy(cfg, env, w).w);
    }
    OnlyProxyHeld(cfg, w, CheckProxy(cfg, env, w).w);
  }

  /** A rule appears in the cloud only if the check reports it, and no other rule changes. */
  predicate Reported(c: Cloud, r: RuleRes, name: string, other: string) {
    && r.c == c.(rules := r.c.rules, writes := r.c.writes)
    && (r.fw.None? && name in r.c.rules ==> name in c.rules) && (r.fw.Some? ==> r.fw.value.name == name)
    && (other != name ==> RuleAt(r.c.rules, other) == RuleAt(c.rules, other))
  }

  lemma {:induction false} CreateReported(env: Env, c: Cloud, name: string, proxy: Link, ip: string, ports: string,
                                          other: string)
    ensures Reported(c, CreateRule(env, c, name, proxy, ip, ports), name, other)
  {
  }

  lemma {:induction false} RuleReported(env: Env, c: Cloud, name: string, proxy: Link, ip: string, ports: string,
                                        other: string)
    ensures Reported(c, CheckRule(env, c, name, proxy, ip, ports), name, other)
  {
    hide CreateRule, RuleStale, SameLink, Succeeds;
    CreateReported(env, c, name, proxy, ip, ports, other);
    CreateReported(env, Write(env, c, c.(rules := c.rules - {name})), name, proxy, ip, ports, other);
    if Succeeds(env, c) { }
  }

  lemma {:induction false} RulesHeld(cfg: Config, env: Env, w: World)
    requires cfg.n.Valid() && Sound(cfg, w)
    ensures Keeps(cfg, w, CheckHttpRule(cfg, env, w).w) && Keeps(cfg, w, CheckHttpsRule(cfg, env, w).w)
  {
    hide CheckRule;
    var ip := EffectiveIp(cfg, w).0;
    if w.l.tp.Some? { RuleReported(env, w.c, cfg.n.fw, Self(HttpProxyKind, w.l.tp.value), ip, HTTP_PORTS, cfg.n.fws); }
    if w.l.tps.Some? {
      RuleReported(env, w.c, cfg.n.fws, Self(HttpsProxyKind, w.l.tps.value), ip, HTTPS_PORTS, cfg.n.fw);
    }
  }

  lemma {:induction false} StaticIpHeld(cfg: Config, env: Env, w: World)
    requires Sound(cfg, w)
    ensures Keeps(cfg, w, CheckStaticIp(cfg, env, w).w)
  {
    hide CheckStaticIp;
    StaticIpChecked(cfg, env, w);
    StaticIpRecorded(cfg, env, w);
  }

  lemma {:induction false} OnlyCertsHeld(cfg: Config, w: World, w': World)
    requires Sound(cfg, w) && OnlyCerts(w, w')
    ensures Keeps(cfg, w, w')
  {
  }

  lemma {:induction false} CertHeld(cfg: Config, env: Env, w: World)
    requires cfg.Https() && Sound(cfg, w)
    ensures Keeps(cfg, w, CheckSslCert(cfg, env, w).w) && Keeps(cfg, w, DeleteOldCert(cfg, env, w).w)
  {
    hide CheckSslCert, DeleteOldCert, Keeps, Sound;
    CertFrame(cfg, env, w);
    OldFrame(cfg, env, w);
    OnlyCertsHeld(cfg, w, CheckSslCert(cfg, env, w).w);
    OnlyCertsHeld(cfg, w, DeleteOldCert(cfg, env, w).w);
  }

  /** Only HTTPS proxies have changed, and this load balancer's is there only if it was, or is recorded. */
  predicate OnlyHttpsProxy(cfg: Config, w: World, w': World) {
    && w'.l == w.l.(tps := w'.l.tps) && (w'.l.tps == w.l.tps || w'.l.tps == Some(cfg.n.tps))
    && w'.c == w.c.(httpsProxies := w'.c.httpsProxies, writes := w'.c.writes)
    && (cfg.n.tps in w'.c.httpsProxies && w'.l.tps.None? ==> cfg.n.tps in w.c.httpsProxies)
  }

  lemma {:induction false} OnlyHttpsProxyHeld(cfg: Config, w: World, w': World)
    requires Sound(cfg, w) && OnlyHttpsProxy(cfg, w, w')
    ensures Keeps(cfg, w, w')
  {
  }

  lemma {:induction false} PointOnlyProxy(cfg: Config, env: Env, w: World, cert: Link)
    requires cfg.n.tps in w.c.httpsProxies
    ensures OnlyHttpsProxy(cfg, w, PointAtCert(cfg, env, w, cert).w)
  {
    hide SameLink;
  }

  lemma {:induction false} HttpsProxyHeld(cfg: Config, env: Env, w: World)
    requires Sound(cfg, w)
    ensures Keeps(cfg, w, CheckHttpsProxy(cfg, env, w).w)
  {
    hide Succeeds, SameLink, Held, Sound, PointAtCert;
    if w.l.sslCert.Some? && w.l.um.Some? && cfg.n.tps in w.c.httpsProxies {
      var um, cert := Self(UrlMapKind, w.l.um.value.name), Self(CertKind, w.l.sslCert.value.name);
      PointOnlyProxy(cfg, env, w, cert);
      var c' := Write(env, w.c,
                      w.c.(httpsProxies := w.c.httpsProxies[cfg.n.tps := w.c.httpsProxies[cfg.n.tps].(urlMap := um)]));
      PointOnlyProxy(cfg, env, w.(c := c'), cert);
    }
    OnlyHttpsProxyHeld(cfg, w, CheckHttpsProxy(cfg, env, w).w);
  }

  lemma {:induction false} FrontHeld(cfg: Config, env: Env, w: World)
    requires cfg.n.Valid() && Sound(cfg, w)
    ensures Keeps(cfg, w, EdgeHopFront(cfg, env, w).w)
  {
    hide CheckUrlMap, CheckProxy, CheckHttpRule, CheckStaticIp, Held, Sound;
    UrlMapHeld(cfg, env, w);
    var r1 := CheckUrlMap(cfg, env, w);
    ProxyHeld(cfg, env, r1.w);
    var r2 := CheckProxy(cfg, env, r1.w);
    RulesHeld(cfg, env, r2.w);
    var r3 := CheckHttpRule(cfg, env, r2.w);
    StaticIpHeld(cfg, env, if r2.out == Ok then r3.w else r2.w);
  }

  lemma {:induction false} HttpsHeld(cfg: Config, env: Env, w: World)
    requires cfg.n.Valid() && cfg.Https() && Sound(cfg, w)
    ensures Keeps(cfg, w, EdgeHopHttps(cfg, env, w).w)
  {
    hide CheckSslCert, CheckHttpsProxy, CheckHttpsRule, DeleteOldCert, Held, Sound;
    CertHeld(cfg, env, w);
    var r1 := CheckSslCert(cfg, env, w);
    HttpsProxyHeld(cfg, env, r1.w);
    var r2 := CheckHttpsProxy(cfg, env, r1.w);
    RulesHeld(cfg, env, r2.w);
    var r3 := CheckHttpsRule(cfg, env, r2.w);
    CertHeld(cfg, env, r3.w);
  }

  /** However a pass ends, and whichever of its writes fail, no rule, proxy or url map goes out of sight. */
  lemma {:induction false} PassHeld(cfg: Config, env: Env, w: World)
    requires cfg.n.Valid() && Sound(cfg, w)
    ensures Keeps(cfg, w, EdgeHop(cfg, env, w).w)
  {
    hide EdgeHopFront, EdgeHopHttps, Held, Sound;
    FrontHeld(cfg, env, w);
    var r := EdgeHopFront(cfg, env, w);
    if cfg.Https() { HttpsHeld(cfg, env, r.w); }
  }

  lemma {:induction false} StageMaps(cfg: Config, env: Env, w: World, s: Stage)
    ensures var m := DoStage(cfg, env, w, s).w.c.urlMaps;
            cfg.n.um in m ==> cfg.n.um in w.c.urlMaps && m[cfg.n.um] == w.c.urlMaps[cfg.n.um]
  {
  }

  lemma {:induction false} CleanupMaps(cfg: Config, env: Env, w: World, stages: seq<Stage>)
    ensures var m := CleanupFrom(cfg, env, w, stages).w.c.urlMaps;
            cfg.n.um in m ==> cfg.n.um in w.c.urlMaps && m[cfg.n.um] == w.c.urlMaps[cfg.n.um]
    decreases |stages|
  {
    hide DoStage;
    if stages != [] {
      StageMaps(cfg, env, w, stages[0]);
      CleanupMaps(cfg, env, DoStage(cfg, env, w, stages[0]).w, stages[1..]);
    }
  }

  lemma {:induction false} CleanupNamed(cfg: Config, env: Env, w: World, stages: seq<Stage>)
    requires Named(cfg, w.l)
    ensures Named(cfg, CleanupFrom(cfg, env, w, stages).w.l)
    decreases |stages|
  {
    hide DoStage, Named;
    if stages != [] {
      StageNamed(cfg, env, w, stages[0]);
      CleanupNamed(cfg, env, DoStage(cfg, env, w, stages[0]).w, stages[1..]);
    }
  }

  lemma {:induction false} TearDownHeld(cfg: Config, env: Env, w: World)
    requires Sound(cfg, w)
    ensures Keeps(cfg, w, Cleanup(cfg, env, w).w)
  {
    hide AllRecorded, CleanupFrom, Named;
    if AllRecorded(cfg, w) { CleanupSafe(cfg, env, w); }
    CleanupMaps(cfg, env, w, ORDER);
    CleanupNamed(cfg, env, w, ORDER);
  }

  // ---------------------------------------------------------------- whole runs

  /** The configuration may differ from pass to pass. `Remap` is UpdateUrlMap, which may or may not get through and
      makes some number of write calls. A restart loses all fields. */
  datatype Event =
    | Pass(cfg: Config, env: Env)
    | Remap(content: UrlMap, written: bool, calls: nat)
    | TearDown(cfg: Config, env: Env)
    | Restart

  function Remapped(w: World, content: UrlMap, written: bool, calls: nat): (w': World) {
    var c := w.c.(writes := w.c.writes + calls);
    if w.l.um.None? then w.(c := c)
    else
      var m := content.(name := w.l.um.value.name);
      World(w.l.(um := Some(m)), if written && m.name in c.urlMaps then c.(urlMaps := c.urlMaps[m.name := m]) else c)
  }

  function After(w: World, e: Event): (w': World) {
    match e
    case Pass(cfg, env) => EdgeHop(cfg, env, w).w
    case Remap(content, written, calls) => Remapped(w, content, written, calls)
    case TearDown(cfg, env) => Cleanup(cfg, env, w).w
    case Restart => World(NewL7, w.c)
  }

  predicate Uses(e: Event, n: LbNames) {
    match e case Pass(cfg, _) => cfg.n == n case TearDown(cfg, _) => cfg.n == n case _ => true
  }

  /** A run starts with empty fields over any cloud, as a controller does. */
  predicate IsRun(n: LbNames, worlds: seq<World>, events: seq<Event>) {
    && |worlds| == |events| + 1 && worlds[0].l == NewL7 && MapNamed(n, worlds[0].c)
    && forall i {:trigger events[i]} :: 0 <= i < |events| ==>
       Uses(events[i], n) && worlds[i + 1] == After(worlds[i], events[i])
  }

  lemma {:induction false} HeldIsAboutNames(cfg: Config, cfg': Config, w: World)
    requires cfg.n == cfg'.n
    ensures Held(cfg, w) == Held(cfg', w) && Sound(cfg, w) == Sound(cfg', w)
  {
  }

  lemma {:induction false} EventHeld(cfg: Config, w: World, e: Event)
    requires cfg.n.Valid() && Sound(cfg, w) && Uses(e, cfg.n)
    ensures Sound(cfg, After(w, e)) && (Held(cfg, w) && !e.Restart? ==> Held(cfg, After(w, e)))
  {
    hide EdgeHop, CleanupFrom;
    match e
    case Pass(cfg', env) =>
      HeldIsAboutNames(cfg, cfg', w);
      PassHeld(cfg', env, w);
      HeldIsAboutNames(cfg, cfg', After(w, e));
    case Remap(_, _, _) =>
    case TearDown(cfg', env) =>
      HeldIsAboutNames(cfg, cfg', w);
      TearDownHeld(cfg', env, w);
      HeldIsAboutNames(cfg, cfg', After(w, e));
    case Restart =>
  }

  lemma {:induction false} RunSound(cfg: Config, worlds: seq<World>, events: seq<Event>, i: nat)
    requires cfg.n.Valid() && IsRun(cfg.n, worlds, events) && i < |worlds|
    ensures Sound(cfg, worlds[i])
  {
    if i > 0 {
      RunSound(cfg, worlds, events, i - 1);
      hide Held, After, Uses, Sound;
      var e := events[i - 1];
      EventHeld(cfg, worlds[i - 1], e);
    }
  }

  ghost predicate NoRestart(events: seq<Event>, j: nat, i: nat) {
    forall k {:trigger events[k]} :: j <= k < i && k < |events| ==> !events[k].Restart?
  }

  /** Once every rule, proxy and url map is recorded, this stays so until a restart. */
  lemma {:induction false} RunHeld(cfg: Config, worlds: seq<World>, events: seq<Event>, j: nat, i: nat)
    requires cfg.n.Valid() && IsRun(cfg.n, worlds, events) && j <= i < |worlds|
    requires Held(cfg, worlds[j]) && NoRestart(events, j, i)
    ensures Held(cfg, worlds[i])
    decreases i - j
  {
    hide Held, After, Uses, Sound;
    if i > j {
      RunHeld(cfg, worlds, events, j, i - 1);
      RunSound(cfg, worlds, events, i - 1);
      var e := events[i - 1];
      EventHeld(cfg, worlds[i - 1], e);
    }
  }

  /** At the start everything is recorded exactly when there is nothing. */
  lemma {:induction false} StartHeldIff(cfg: Config, w: World)
    requires w.l == NewL7 && MapNamed(cfg.n, w.c)
    ensures Held(cfg, w) <==> Clear(cfg.n, w.c)
  {
  }

  /** In every run, a tear-down that succeeds leaves no rule, proxy or url map under the names of the load balancer, if
      there was none at the start, or if they were all recorded some time since the last restart; however many passes
      and tear-downs in between were cut short. What it leaves of certificates and addresses is in L7Remains. */
  lemma {:induction false} NothingLeaks(worlds: seq<World>, events: seq<Event>, j: nat, i: nat, n: LbNames)
    requires n.Valid() && IsRun(n, worlds, events) && j <= i < |events| && events[i].TearDown?
               && NoRestart(events, j, i)
    requires (j == 0 && Clear(n, worlds[0].c)) || Held(events[i].cfg, worlds[j])
    ensures Cleanup(events[i].cfg, events[i].env, worlds[i]).out == Ok ==> Clear(n, worlds[i + 1].c)
  {
    var e := events[i];
    if j == 0 && Clear(n, worlds[0].c) { StartHeldIff(e.cfg, worlds[0]); }
    RunHeld(e.cfg, worlds, events, j, i);
    hide Clear, CleanupFrom, AllRecorded, RemainsExactly;
    CleanupSafe(e.cfg, e.env, worlds[i]);
  }
}
