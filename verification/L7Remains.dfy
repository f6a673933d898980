/** What a load balancer leaves behind. Url map, proxies and forwarding rules are in L7Lifecycle; here it is the two
    certificates and the reserved address: exactly which of them survive a tear-down that succeeds, over every run of
    passes, url map updates, tear-downs and restarts, and exactly which events are to blame. */
module L7Remains {
  import opened Text
  import opened L7Cloud
  import opened L7World
  import opened L7EdgeHop
  import opened L7Settles
  import opened L7Cleanup
  import opened L7Isolation
  import opened L7Lifecycle
  import R = L7Certificates

  predicate Names(cert: Option<Cert>, x: string) { cert.Some? && cert.value.name == x }

  /** If there is a certificate of this name, a field names it. */
  predicate CertTracked(x: string, w: World) { x in w.c.certs ==> Names(w.l.sslCert, x) || Names(w.l.oldSslCert, x) }

  predicate AddressTracked(n: LbNames, w: World) { n.fw in w.c.addresses ==> w.l.ip.Some? }

  // ---------------------------------------------------------------- how a pass loses sight of a certificate

  /** The HTTPS half forgets the certificate `x`: it takes up a pre-shared one in its place, or it rotates away from
      something other than the two names while `x` still waits to be deleted. */
  predicate CertSlips(cfg: Config, w: World, x: string) {
    && x in w.c.certs
    && if cfg.tlsName != "" then cfg.tlsName in w.c.certs && x != cfg.tlsName && Names(w.l.sslCert, x)
       && !Names(w.l.oldSslCert, x)
       else
         var p := Populated(cfg, w);
         && cfg.tls.Some? && Names(w.l.oldSslCert, x) && (p.None? || p.value.content != cfg.tls.value)
         && cfg.n.Next(p) != x && !Names(p, x)
  }

  /** A pass reaches the certificates only with a default backend. */
  predicate Forgets(cfg: Config, w: World, x: string) { cfg.backend.Some? && CertSlips(cfg, w, x) }

  /** The parts of the world that certificates are about. */
  predicate SameCertState(w: World, w': World) {
    && w'.c.certs == w.c.certs && w'.l.sslCert == w.l.sslCert && w'.l.oldSslCert == w.l.oldSslCert
  }

  lemma {:induction false} RuleCertState(cfg: Config, env: Env, w: World)
    ensures SameCertState(w, CheckHttpsRule(cfg, env, w).w)
  {
    hide CheckRule;
    if w.l.tps.Some? {
      RuleChecked(env, w.c, cfg.n.fws, Self(HttpsProxyKind, w.l.tps.value), EffectiveIp(cfg, w).0, HTTPS_PORTS);
    }
  }

  lemma {:induction false} RotateTracks(cfg: Config, env: Env, w: World, p: Option<Cert>, x: string)
    requires cfg.tls.Some? && CertTracked(x, w) && (Names(w.l.sslCert, x) && x in w.c.certs ==> Names(p, x))
    requires !(x in w.c.certs && Names(w.l.oldSslCert, x) && cfg.n.Next(p) != x && !Names(p, x))
    ensures CertTracked(x, RotateCert(cfg, env, w.(l := w.l.(sslCert := p))).w)
  {
  }

  lemma {:induction false} CertTracks(cfg: Config, env: Env, w: World, x: string)
    requires cfg.Https() && CertTracked(x, w) && !CertSlips(cfg, w, x) && x != ""
    ensures CertTracked(x, CheckSslCert(cfg, env, w).w)
  {
    hide RotateCert;
    if cfg.tlsName == "" && !(Populated(cfg, w).Some? && Populated(cfg, w).value.content == cfg.tls.value) {
      RotateTracks(cfg, env, w, Populated(cfg, w), x);
    }
  }

  lemma {:induction false} OldTracks(cfg: Config, env: Env, w: World, x: string)
    requires CertTracked(x, w)
    ensures CertTracked(x, DeleteOldCert(cfg, env, w).w)
  {
  }

  lemma {:induction false} HttpsTracks(cfg: Config, env: Env, w: World, x: string)
    requires cfg.Https() && CertTracked(x, w) && !CertSlips(cfg, w, x) && x != ""
    ensures CertTracked(x, EdgeHopHttps(cfg, env, w).w)
  {
    hide CheckSslCert, CheckHttpsProxy, CheckHttpsRule, DeleteOldCert, CertSlips;
    CertTracks(cfg, env, w, x);
    var w1 := CheckSslCert(cfg, env, w).w;
    HttpsProxyFrame(cfg, env, w1);
    var w2 := CheckHttpsProxy(cfg, env, w1).w;
    RuleCertState(cfg, env, w2);
    var w3 := CheckHttpsRule(cfg, env, w2).w;
    OldTracks(cfg, env, w3, x);
  }

  lemma {:induction false} SlipsSame(cfg: Config, w: World, w': World, x: string)
    requires SameCertState(w, w') && w'.c.httpsProxies == w.c.httpsProxies
    ensures CertSlips(cfg, w', x) == CertSlips(cfg, w, x) && CertTracked(x, w') == CertTracked(x, w)
  {
  }

  lemma {:induction false} PassTracks(cfg: Config, env: Env, w: World, x: string)
    requires CertTracked(x, w) && !Forgets(cfg, w, x) && x != ""
    ensures CertTracked(x, EdgeHop(cfg, env, w).w)
  {
    assert cfg.backend.None? ==> EdgeHopFront(cfg, env, w).out == Err;
    hide EdgeHopFront, EdgeHopHttps, CertTracked, CertSlips;
    FrontFrame(cfg, env, w);
    var w1 := EdgeHopFront(cfg, env, w).w;
    SlipsSame(cfg, w, w1, x);
    if cfg.Https() && cfg.backend.Some? { HttpsTracks(cfg, env, w1, x); }
  }

  lemma {:induction false} SlipsAway(cfg: Config, env: Env, w: World, x: string)
    requires cfg.n.Valid() && cfg.Https() && CertSlips(cfg, w, x) && AllSucceed(env)
    ensures !CertTracked(x, EdgeHopHttps(cfg, env, w).w)
  {
    hide CheckHttpsProxy, CheckHttpsRule;
    var w1 := CheckSslCert(cfg, env, w).w;
    assert !CertTracked(x, w1);
    hide CheckSslCert;
    HttpsProxyFrame(cfg, env, w1);
    var w2 := CheckHttpsProxy(cfg, env, w1).w;
    RuleCertState(cfg, env, w2);
  }

  /** A pass can lose sight of a certificate that was tracked exactly when Forgets holds before it. */
  lemma {:induction false} ForgetsIff(cfg: Config, w: World, x: string)
    requires cfg.n.Valid() && CloudOk(w.c) && CertTracked(x, w) && x != ""
    ensures (exists env :: !CertTracked(x, EdgeHop(cfg, env, w).w)) <==> Forgets(cfg, w, x)
  {
    if Forgets(cfg, w, x) {
      hide EdgeHopFront, EdgeHopHttps, CertTracked;
      var env := Env(n => Done, n => "ip");
      assert cfg.Https();
      FrontSucceeds(cfg, env, w);
      FrontFrame(cfg, env, w);
      SlipsSame(cfg, w, EdgeHopFront(cfg, env, w).w, x);
      SlipsAway(cfg, env, EdgeHopFront(cfg, env, w).w, x);
      assert !CertTracked(x, EdgeHop(cfg, env, w).w);
    } else {
      hide EdgeHop;
      forall env ensures CertTracked(x, EdgeHop(cfg, env, w).w) { PassTracks(cfg, env, w, x); }
    }
  }

  // ---------------------------------------------------------------- certificates over runs

  /** The event makes a certificate go out of sight, or may: a restart, or a pass that forgets it. */
  predicate Blamed(e: Event, w: World, x: string) {
    match e
    case Pass(cfg, _) => Forgets(cfg, w, x)
    case Restart => x in w.c.certs
    case _ => false
  }

  lemma {:induction false} EventTracks(w: World, e: Event, x: string)
    requires CertTracked(x, w) && !Blamed(e, w, x) && x != ""
    ensures CertTracked(x, After(w, e))
  {
    hide EdgeHop, CleanupFrom;
    match e
    case Pass(cfg, env) => PassTracks(cfg, env, w, x);
    case Remap(_, _, _) =>
    case TearDown(cfg, env) => RemainsAfterCleanup(cfg, env, w);
    case Restart =>
  }

  /** Out of sight from the start or from an event to blame on, and never in sight again since. */
  ghost predicate Lost(worlds: seq<World>, events: seq<Event>, i: nat, x: string)
    requires |worlds| == |events| + 1 && i < |worlds|
  {
    exists j :: LostFrom(worlds, events, j, i, x)
  }

  ghost predicate LostFrom(worlds: seq<World>, events: seq<Event>, j: int, i: nat, x: string)
    requires |worlds| == |events| + 1 && i < |worlds|
  {
    && 0 <= j <= i && (j > 0 ==> CertTracked(x, worlds[j - 1]) && Blamed(events[j - 1], worlds[j - 1], x))
    && forall k :: j <= k <= i ==> !CertTracked(x, worlds[k])
  }

  lemma {:induction false} LostIff(n: LbNames, worlds: seq<World>, events: seq<Event>, i: nat, x: string)
    requires IsRun(n, worlds, events) && i < |worlds| && x != ""
    ensures Lost(worlds, events, i, x) <==> !CertTracked(x, worlds[i])
  {
    hide CertTracked, After, Blamed;
    if !CertTracked(x, worlds[i]) {
      if i == 0 {
        assert LostFrom(worlds, events, 0, i, x);
      } else if CertTracked(x, worlds[i - 1]) {
        var e := events[i - 1];
        if !Blamed(e, worlds[i - 1], x) { EventTracks(worlds[i - 1], e, x); }
        assert LostFrom(worlds, events, i, i, x);
      } else {
        LostIff(n, worlds, events, i - 1, x);
        var j :| LostFrom(worlds, events, j, i - 1, x);
        assert LostFrom(worlds, events, j, i, x);
      }
    }
  }

  /** Which certificate survives a tear-down that succeeds, in any run and for any name: one that was there and is the
      user's as far as the configuration says, or is the previous one whose deletion was still to come, or was lost
      before, by a restart or by a pass that forgot it. */
  lemma {:induction false} CertificateSurvivesIff(n: LbNames, worlds: seq<World>, events: seq<Event>, i: nat, x: string)
    requires IsRun(n, worlds, events) && i < |events| && events[i].TearDown? && x != ""
    requires Cleanup(events[i].cfg, events[i].env, worlds[i]).out == Ok
    ensures var l := worlds[i].l;
            x in worlds[i + 1].c.certs <==>
              && x in worlds[i].c.certs
              && (|| events[i].cfg.tlsName != ""
                  || (Names(l.oldSslCert, x) && !Names(l.sslCert, x))
                  || Lost(worlds, events, i, x))
  {
    var e := events[i];
    hide CleanupFrom, Lost;
    RemainsAfterCleanup(e.cfg, e.env, worlds[i]);
    LostIff(n, worlds, events, i, x);
  }

  // ---------------------------------------------------------------- the address over runs

  lemma {:induction false} RuleAddresses(cfg: Config, env: Env, w: World)
    ensures var w' := CheckHttpRule(cfg, env, w).w; w'.c.addresses == w.c.addresses && w'.l.ip == w.l.ip
    ensures var w' := CheckHttpsRule(cfg, env, w).w; w'.c.addresses == w.c.addresses && w'.l.ip == w.l.ip
  {
    hide CheckRule;
    var ip := EffectiveIp(cfg, w).0;
    if w.l.tp.Some? { RuleChecked(env, w.c, cfg.n.fw, Self(HttpProxyKind, w.l.tp.value), ip, HTTP_PORTS); }
    if w.l.tps.Some? { RuleChecked(env, w.c, cfg.n.fws, Self(HttpsProxyKind, w.l.tps.value), ip, HTTPS_PORTS); }
  }

  lemma {:induction false} ProxyAddresses(cfg: Config, env: Env, w: World)
    ensures var w' := CheckProxy(cfg, env, w).w; w'.c.addresses == w.c.addresses && w'.l.ip == w.l.ip
  {
    hide SameLink;
  }

  lemma {:induction false} HttpsAddresses(cfg: Config, env: Env, w: World)
    requires cfg.Https()
    ensures var w' := EdgeHopHttps(cfg, env, w).w; w'.c.addresses == w.c.addresses && w'.l.ip == w.l.ip
  {
    hide CheckSslCert, CheckHttpsProxy, CheckHttpsRule, DeleteOldCert;
    CertFrame(cfg, env, w);
    var w1 := CheckSslCert(cfg, env, w).w;
    HttpsProxyFrame(cfg, env, w1);
    var w2 := CheckHttpsProxy(cfg, env, w1).w;
    RuleAddresses(cfg, env, w2);
    OldFrame(cfg, env, CheckHttpsRule(cfg, env, w2).w);
  }

  lemma {:induction false} FrontTracksAddress(cfg: Config, env: Env, w: World)
    requires AddressTracked(cfg.n, w)
    ensures AddressTracked(cfg.n, EdgeHopFront(cfg, env, w).w)
  {
    hide CheckUrlMap, CheckProxy, CheckHttpRule, CheckStaticIp;
    UrlMapFrame(cfg, env, w);
    var w1 := CheckUrlMap(cfg, env, w).w;
    ProxyAddresses(cfg, env, w1);
    var w2 := CheckProxy(cfg, env, w1).w;
    RuleAddresses(cfg, env, w2);
    StaticIpRecorded(cfg, env, CheckHttpRule(cfg, env, w2).w);
  }

  lemma {:induction false} EventTracksAddress(n: LbNames, w: World, e: Event)
    requires Uses(e, n) && AddressTracked(n, w) && (w.l.ip.Some? ==> w.l.ip.value.name == n.fw)
    ensures e.Restart? && n.fw in w.c.addresses <==> !AddressTracked(n, After(w, e))
  {
    hide EdgeHopFront, EdgeHopHttps, CleanupFrom;
    match e
    case Pass(cfg, env) =>
      FrontTracksAddress(cfg, env, w);
      if cfg.Https() { HttpsAddresses(cfg, env, EdgeHopFront(cfg, env, w).w); }
    case Remap(_, _, _) =>
    case TearDown(cfg, env) => RemainsAfterCleanup(cfg, env, w);
    case Restart =>
  }

  /** Out of sight from the start or from a restart, and never recorded again since. */
  ghost predicate AddressLost(n: LbNames, worlds: seq<World>, events: seq<Event>, i: nat)
    requires |worlds| == |events| + 1 && i < |worlds|
  {
    exists j :: AddressLostFrom(n, worlds, events, j, i)
  }

  ghost predicate AddressLostFrom(n: LbNames, worlds: seq<World>, events: seq<Event>, j: int, i: nat)
    requires |worlds| == |events| + 1 && i < |worlds|
  {
    && 0 <= j <= i && (j > 0 ==> events[j - 1].Restart? && n.fw in worlds[j - 1].c.addresses)
    && forall k :: j <= k <= i ==> !AddressTracked(n, worlds[k])
  }

  lemma {:induction false} AddressLostIff(cfg: Config, worlds: seq<World>, events: seq<Event>, i: nat)
    requires cfg.n.Valid() && IsRun(cfg.n, worlds, events) && i < |worlds|
    ensures AddressLost(cfg.n, worlds, events, i) <==> !AddressTracked(cfg.n, worlds[i])
  {
    hide After, Uses, Sound, AddressTracked;
    if !AddressTracked(cfg.n, worlds[i]) {
      if i == 0 {
        assert AddressLostFrom(cfg.n, worlds, events, 0, i);
      } else if AddressTracked(cfg.n, worlds[i - 1]) {
        var e := events[i - 1];
        AddressStep(cfg, worlds, events, i - 1);
        assert AddressLostFrom(cfg.n, worlds, events, i, i);
      } else {
        AddressLostIff(cfg, worlds, events, i - 1);
        var j :| AddressLostFrom(cfg.n, worlds, events, j, i - 1);
        assert AddressLostFrom(cfg.n, worlds, events, j, i);
      }
    }
  }

  lemma {:induction false} AddressStep(cfg: Config, worlds: seq<World>, events: seq<Event>, i: nat)
    requires cfg.n.Valid() && IsRun(cfg.n, worlds, events) && i < |events| && AddressTracked(cfg.n, worlds[i])
    ensures events[i].Restart? && cfg.n.fw in worlds[i].c.addresses <==> !AddressTracked(cfg.n, worlds[i + 1])
  {
    RunSound(cfg, worlds, events, i);
    hide After, Uses, AddressTracked;
    var e := events[i];
    EventTracksAddress(cfg.n, worlds[i], e);
  }

  /** The reserved address survives a tear-down that succeeds exactly when it was there and lost: by a restart, with no
      pass since that recorded it again. */
  lemma {:induction false} AddressSurvivesIff(worlds: seq<World>, events: seq<Event>, i: nat, n: LbNames)
    requires n.Valid() && IsRun(n, worlds, events) && i < |events| && events[i].TearDown?
    requires Cleanup(events[i].cfg, events[i].env, worlds[i]).out == Ok
    ensures n.fw in worlds[i + 1].c.addresses <==> n.fw in worlds[i].c.addresses && AddressLost(n, worlds, events, i)
  {
    var e := events[i];
    hide CleanupFrom, AddressLost;
    RunSound(e.cfg, worlds, events, i);
    RemainsAfterCleanup(e.cfg, e.env, worlds[i]);
    AddressLostIff(e.cfg, worlds, events, i);
  }

  // ---------------------------------------------------------------- after a restart

  lemma {:induction false} FrontRecords(cfg: Config, env: Env, c: Cloud)
    requires cfg.n.Valid() && CloudOk(c) && EdgeHopFront(cfg, env, World(NewL7, c)).out == Ok
    ensures var w := EdgeHopFront(cfg, env, World(NewL7, c)).w;
            && UrlMapReady(cfg, w) && w.l.um.value.name == cfg.n.um && w.l.fws.None? && w.l.tps.None?
            && w.c.httpsProxies == c.httpsProxies && (cfg.n.fws in w.c.rules <==> cfg.n.fws in c.rules)
            && w.l.sslCert == None
            && (if cfg.allowHttp then w.l.tp == Some(cfg.n.tp) && w.l.fw.Some? && w.l.fw.value.name == cfg.n.fw
                else w.l.tp.None? && w.l.fw.None? && w.c.rules == c.rules && w.c.httpProxies == c.httpProxies)
  {
    hide CheckUrlMap, CheckProxy, CheckRule, CheckStaticIp;
    var w0 := World(NewL7, c);
    UrlMapChecked(cfg, env, w0);
    var w1 := CheckUrlMap(cfg, env, w0).w;
    if cfg.allowHttp {
      ProxyChecked(cfg, env, w1);
      var w2 := CheckProxy(cfg, env, w1).w;
      RuleReported(env, w2.c, cfg.n.fw, Self(HttpProxyKind, cfg.n.tp), EffectiveIp(cfg, w2).0, HTTP_PORTS, cfg.n.fws);
      StaticIpChecked(cfg, env, CheckHttpRule(cfg, env, w2).w);
    }
  }

  lemma {:induction false} HttpsRecords(cfg: Config, env: Env, w: World)
    requires cfg.n.Valid() && CertNamed(w.l) && cfg.Https() && UrlMapReady(cfg, w) && w.l.um.value.name == cfg.n.um
    requires EdgeHopHttps(cfg, env, w).out == Ok
    ensures var w' := EdgeHopHttps(cfg, env, w).w;
            && w'.l.tps == Some(cfg.n.tps) && w'.l.fws.Some? && w'.l.fws.value.name == cfg.n.fws
            && w'.l == w.l.(tps := w'.l.tps, fws := w'.l.fws, sslCert := w'.l.sslCert, oldSslCert := w'.l.oldSslCert)
            && w'.c.urlMaps == w.c.urlMaps && w'.c.httpProxies == w.c.httpProxies
            && (cfg.n.fw in w'.c.rules <==> cfg.n.fw in w.c.rules)
  {
    hide CheckSslCert, CheckHttpsProxy, CheckRule, OldCertGoes;
    CertChecked(cfg, env, w);
    var w1 := CheckSslCert(cfg, env, w).w;
    HttpsProxyChecked(cfg, env, w1);
    var w2 := CheckHttpsProxy(cfg, env, w1).w;
    RuleReported(env, w2.c, cfg.n.fws, Self(HttpsProxyKind, cfg.n.tps), EffectiveIp(cfg, w2).0, HTTPS_PORTS, cfg.n.fw);
  }

  /** The certificates a pass without fields learns of: the pre-shared one, or the one the proxy uses and the one the
      pass makes. */
  function Learned(cfg: Config, c: Cloud): (names: set<string>) {
    if cfg.tlsName != "" then {cfg.tlsName}
    else if cfg.tls.None? then {}
    else
      var p := Populated(cfg, World(NewL7, c));
      (if p.Some? then {p.value.name} else {})
      + (if p.None? || p.value.content != cfg.tls.value then {cfg.n.Next(p)} else {})
  }

  lemma {:induction false} CertLearns(cfg: Config, env: Env, w: World, x: string)
    requires cfg.n.Valid() && cfg.Https() && w.l.sslCert.None? && w.l.oldSslCert.None?
               && CheckSslCert(cfg, env, w).out == Ok
    ensures var w' := CheckSslCert(cfg, env, w).w;
            && (x in Learned(cfg, w.c) ==> CertTracked(x, w'))
            && (x !in Learned(cfg, w.c) ==>
                !Names(w'.l.sslCert, x) && !Names(w'.l.oldSslCert, x) && (x in w'.c.certs <==> x in w.c.certs))
  {
    assert Populated(cfg, w) == Populated(cfg, World(NewL7, w.c));
  }

  lemma {:induction false} HttpsLearns(cfg: Config, env: Env, w: World, x: string)
    requires cfg.n.Valid() && cfg.Https() && w.l.sslCert.None? && w.l.oldSslCert.None?
               && EdgeHopHttps(cfg, env, w).out == Ok
    ensures CertTracked(x, EdgeHopHttps(cfg, env, w).w) <==> (x in w.c.certs ==> x in Learned(cfg, w.c))
  {
    hide CheckSslCert, CheckHttpsProxy, CheckHttpsRule, Learned;
    CertLearns(cfg, env, w, x);
    var w1 := CheckSslCert(cfg, env, w).w;
    HttpsProxyFrame(cfg, env, w1);
    var w2 := CheckHttpsProxy(cfg, env, w1).w;
    RuleCertState(cfg, env, w2);
    var w3 := CheckHttpsRule(cfg, env, w2).w;
    if x in Learned(cfg, w.c) { OldTracks(cfg, env, w3, x); }
  }

  lemma {:induction false} LearnedSame(cfg: Config, c: Cloud, c': Cloud)
    requires c'.certs == c.certs && c'.httpsProxies == c.httpsProxies
    ensures Learned(cfg, c') == Learned(cfg, c)
  {
  }

  /** Without fields, after a pass that succeeds: a certificate in the cloud is in sight exactly when it was learned
      of. */
  lemma {:induction false} RestartLearnsIff(cfg: Config, env: Env, c: Cloud, x: string)
    requires cfg.n.Valid() && EdgeHop(cfg, env, World(NewL7, c)).out == Ok
    ensures CertTracked(x, EdgeHop(cfg, env, World(NewL7, c)).w) <==> (x in c.certs ==> x in Learned(cfg, c))
  {
    hide EdgeHopFront, EdgeHopHttps;
    FrontFrame(cfg, env, World(NewL7, c));
    var w := EdgeHopFront(cfg, env, World(NewL7, c)).w;
    LearnedSame(cfg, c, w.c);
    if cfg.Https() { HttpsLearns(cfg, env, w, x); }
  }

  /** The address is in sight exactly when there is none, or both protocols are on and the controller manages it. */
  lemma {:induction false} RestartAddressIff(cfg: Config, env: Env, c: Cloud)
    requires EdgeHop(cfg, env, World(NewL7, c)).out == Ok
    ensures AddressTracked(cfg.n, EdgeHop(cfg, env, World(NewL7, c)).w) <==>
              cfg.n.fw !in c.addresses || (cfg.allowHttp && cfg.Https() && !UserIp(cfg, c))
  {
    hide EdgeHopFront, EdgeHopHttps;
    FrontLearnsAddress(cfg, env, c);
    if cfg.Https() { HttpsAddresses(cfg, env, EdgeHopFront(cfg, env, World(NewL7, c)).w); }
  }

  lemma {:induction false} FrontLearnsAddress(cfg: Config, env: Env, c: Cloud)
    requires EdgeHopFront(cfg, env, World(NewL7, c)).out == Ok
    ensures AddressTracked(cfg.n, EdgeHopFront(cfg, env, World(NewL7, c)).w) <==>
              cfg.n.fw !in c.addresses || (cfg.allowHttp && cfg.Https() && !UserIp(cfg, c))
  {
    hide CheckUrlMap, CheckProxy, CheckHttpRule;
    var w := World(NewL7, c);
    UrlMapFrame(cfg, env, w);
    var w1 := CheckUrlMap(cfg, env, w).w;
    ProxyAddresses(cfg, env, w1);
    var w2 := CheckProxy(cfg, env, w1).w;
    RuleAddresses(cfg, env, w2);
  }

  /** Everything in sight: rules, proxies and url map recorded, both certificates and the address tracked. */
  predicate InSight(cfg: Config, w: World) {
    Held(cfg, w) && CertTracked(cfg.n.primary, w) && CertTracked(cfg.n.secondary, w) && AddressTracked(cfg.n, w)
  }

  /** What the cloud must not hold for a controller without fields to find all of it: anything of a protocol that is
      off, a certificate of its own that neither proxy nor secret leads to, an address it has no use for. */
  predicate Findable(cfg: Config, c: Cloud) {
    && (!cfg.allowHttp ==> cfg.n.fw !in c.rules && cfg.n.tp !in c.httpProxies)
    && (!cfg.Https() ==> cfg.n.fws !in c.rules && cfg.n.tps !in c.httpsProxies)
    && (cfg.n.primary in c.certs ==> cfg.n.primary in Learned(cfg, c))
    && (cfg.n.secondary in c.certs ==> cfg.n.secondary in Learned(cfg, c))
    && (cfg.n.fw !in c.addresses || (cfg.allowHttp && cfg.Https() && !UserIp(cfg, c)))
  }

  /** A restarted controller has lost the fields, and learns only of what its configuration leads to. A pass that
      succeeds has everything in sight exactly when Findable held of the cloud. */
  lemma {:induction false} RestartRecordsIff(cfg: Config, env: Env, c: Cloud)
    requires cfg.n.Valid() && CloudOk(c) && EdgeHop(cfg, env, World(NewL7, c)).out == Ok
    ensures InSight(cfg, EdgeHop(cfg, env, World(NewL7, c)).w) <==> Findable(cfg, c)
  {
    RestartHeldIff(cfg, env, c);
    hide EdgeHop, Held, Learned, UserIp, CertTracked, AddressTracked;
    RestartLearnsIff(cfg, env, c, cfg.n.primary);
    RestartLearnsIff(cfg, env, c, cfg.n.secondary);
    RestartAddressIff(cfg, env, c);
  }

  lemma {:induction false} RestartHeldIff(cfg: Config, env: Env, c: Cloud)
    requires cfg.n.Valid() && CloudOk(c) && EdgeHop(cfg, env, World(NewL7, c)).out == Ok
    ensures Held(cfg, EdgeHop(cfg, env, World(NewL7, c)).w) <==>
              && (!cfg.allowHttp ==> cfg.n.fw !in c.rules && cfg.n.tp !in c.httpProxies)
              && (!cfg.Https() ==> cfg.n.fws !in c.rules && cfg.n.tps !in c.httpsProxies)
  {
    var w := World(NewL7, c);
    assert Sound(cfg, w);
    PassHeld(cfg, env, w);
    hide EdgeHopFront, EdgeHopHttps;
    FrontRecords(cfg, env, c);
    if cfg.Https() { HttpsRecords(cfg, env, EdgeHopFront(cfg, env, w).w); }
  }

  // ---------------------------------------------------------------- instances

  lemma {:induction false} CleanupSucceeds(cfg: Config, env: Env, w: World)
    requires AllSucceed(env)
    ensures Cleanup(cfg, env, w).out == Ok
  {
    hide CleanupFrom;
    CleanupFromProgress(cfg, env, w, ORDER);
  }

  /** A pass makes `b` for a new secret but cannot switch to it; the tear-down that follows deletes `b` and leaves
      `a`. */
  lemma {:induction false} PreviousCertificateStays(env: Env)
    requires AllSucceed(env)
    ensures var w0 := World(NewL7, R.ServedFrom(map["a" := "1"], 0));
            var w1 := After(w0, Pass(R.With(R.Example, "2"), R.FailsAt(2)));
            var w2 := After(w1, TearDown(R.With(R.Example, "2"), env));
            Cleanup(R.With(R.Example, "2"), env, w1).out == Ok && "a" in w2.c.certs && "b" !in w2.c.certs
  {
    var cfg := R.With(R.Example, "2");
    R.SwitchFails();
    hide EdgeHop, CleanupFrom;
    var w1 := EdgeHop(cfg, R.FailsAt(2), World(NewL7, R.ServedFrom(map["a" := "1"], 0))).w;
    CleanupSucceeds(cfg, env, w1);
    RemainsAfterCleanup(cfg, env, w1);
    assert "a" != "b";
  }

  /** TLS was switched off while the controller was down: the address reserved for both protocols is not recorded again,
      and stays after the tear-down. */
  lemma {:induction false} AddressStays(env: Env, ip: string)
    requires AllSucceed(env) && Handsout(env) && ip != ""
    ensures var cfg := R.Example.(allowHttp := true, tls := None);
            var w0 := World(NewL7, Cloud(map[], map[], map[], map[], map[], map["fw" := ip], 0));
            var w1 := After(w0, Pass(cfg, env));
            var w2 := After(w1, TearDown(cfg, env));
            && EdgeHop(cfg, env, w0).out == Ok && Held(cfg, w1)
            && Cleanup(cfg, env, w1).out == Ok && "fw" in w2.c.addresses
  {
    var cfg := R.Example.(allowHttp := true, tls := None);
    var c := Cloud(map[], map[], map[], map[], map[], map["fw" := ip], 0);
    assert "fw" != "fws" && "a" != "b" && cfg.n.Valid() && CloudOk(c);
    PassSucceedsIff(cfg, env, World(NewL7, c));
    RestartHeldIff(cfg, env, c);
    RestartAddressIff(cfg, env, c);
    hide EdgeHop, CleanupFrom;
    var w1 := EdgeHop(cfg, env, World(NewL7, c)).w;
    CleanupSucceeds(cfg, env, w1);
    RemainsAfterCleanup(cfg, env, w1);
    NoAddressLost(cfg, env, c);
  }

  lemma {:induction false} NoAddressLost(cfg: Config, env: Env, c: Cloud)
    requires !cfg.Https()
    ensures var w := EdgeHop(cfg, env, World(NewL7, c)).w; w.c.addresses == c.addresses && w.l.ip.None?
  {
    hide CheckUrlMap, CheckProxy, CheckHttpRule;
    var w := World(NewL7, c);
    UrlMapFrame(cfg, env, w);
    var w1 := CheckUrlMap(cfg, env, w).w;
    ProxyAddresses(cfg, env, w1);
    RuleAddresses(cfg, env, CheckProxy(cfg, env, w1).w);
  }

  /** A pass takes up the pre-shared certificate, TLS is switched off, and the tear-down deletes the user's certificate:
      it goes by the configuration of the moment, not by the one the certificate was taken up with. */
  lemma {:induction false} PreSharedDeleted(env: Env)
    requires AllSucceed(env) && Handsout(env)
    ensures var on := R.Example.(tls := None, tlsName := "mine");
            var off := on.(tlsName := "");
            var w0 := World(NewL7, Cloud(map[], map[], map[], map["mine" := "x"], map[], map[], 0));
            var w1 := After(w0, Pass(on, env));
            var w2 := After(w1, Pass(off, env));
            var w3 := After(w2, TearDown(off, env));
            && EdgeHop(on, env, w0).out == Ok && EdgeHop(off, env, w1).out == Ok && Cleanup(off, env, w2).out == Ok
            && "mine" in w2.c.certs && "mine" !in w3.c.certs
  {
    var on := R.Example.(tls := None, tlsName := "mine");
    var off := on.(tlsName := "");
    var w0 := World(NewL7, Cloud(map[], map[], map[], map["mine" := "x"], map[], map[], 0));
    assert "fw" != "fws" && "a" != "b" && on.n.Valid() && off.n.Valid() && CloudOk(w0.c);
    hide EdgeHopFront, EdgeHopHttps, CleanupFrom, CloudOk;
    PassSucceedsIff(on, env, w0);
    FrontFrame(on, env, w0);
    FrontChain(on, env, w0);
    TakesUp(on, env, EdgeHopFront(on, env, w0).w);
    var w1 := EdgeHop(on, env, w0).w;
    R.PassKeepsOk(on, env, w0);
    PassSucceedsIff(off, env, w1);
    FrontFrame(off, env, w1);
    var w2 := EdgeHop(off, env, w1).w;
    CleanupSucceeds(off, env, w2);
    RemainsAfterCleanup(off, env, w2);
  }

  lemma {:induction false} TakesUp(cfg: Config, env: Env, w: World)
    requires cfg.tlsName != "" && cfg.tlsName in w.c.certs && w.l.oldSslCert.None?
    ensures var w' := EdgeHopHttps(cfg, env, w).w;
            Names(w'.l.sslCert, cfg.tlsName) && w'.c.certs == w.c.certs && w'.l.oldSslCert.None?
  {
    hide CheckHttpsProxy, CheckHttpsRule;
    var w1 := CheckSslCert(cfg, env, w).w;
    HttpsProxyFrame(cfg, env, w1);
    RuleCertState(cfg, env, CheckHttpsProxy(cfg, env, w1).w);
  }
}
