/** Certificate rotation: over every run of passes with failing writes, restarts and new secrets the certificate
    the HTTPS proxy names exists, without relying on the cloud to refuse deletes of what is in use. A write
    that fails ends its pass, so the passes over all environments also show every moment within a pass. */
module L7Certificates {
  import opened Text
  import opened L7Cloud
  import opened L7World
  import opened L7EdgeHop
  import opened L7Settles

  /** A load balancer fed from a secret; `secret` is what the secret holds now. */
  function With(cfg: Config, secret: string): (r: Config) { cfg.(tls := Some(secret), tlsName := "") }

  predicate HasProxy(cfg: Config, c: Cloud) { cfg.n.tps in c.httpsProxies }

  function InUse(cfg: Config, c: Cloud): (name: string) { NameInLink(CertInUse(cfg, c)) }

  /** The HTTPS proxy, if there is one, names a certificate that exists. */
  predicate Serving(cfg: Config, c: Cloud) {
    HasProxy(cfg, c) ==>
      && c.httpsProxies[cfg.n.tps].certs != []
      && InUse(cfg, c) != "" && InUse(cfg, c) in c.certs && CertInUse(cfg, c) == Self(CertKind, InUse(cfg, c))
  }

  /** A new certificate was made but the proxy has not been switched to it yet. */
  predicate Pending(cfg: Config, w: World) {
    HasProxy(cfg, w.c) && w.l.sslCert.Some? && w.l.sslCert.value.name != InUse(cfg, w.c)
  }

  predicate RotationOk(cfg: Config, w: World, secret: string) {
    && Serving(cfg, w.c) && CertNamed(w.l)
    && (w.l.sslCert.Some? ==> w.l.sslCert.value.name in w.c.certs)
    && (Pending(cfg, w) ==> w.c.certs[w.l.sslCert.value.name] == secret)
  }

  // ---------------------------------------------------------------- one pass

  /** The name a rotation overwrites is never the one being served. */
  lemma {:induction false} NextIsFree(cfg: Config, w: World, secret: string)
    requires cfg.n.Valid() && RotationOk(cfg, w, secret)
    ensures var p := Populated(cfg, w);
            && (p.Some? ==> p.value.name in w.c.certs && p.value.content == w.c.certs[p.value.name]
                            && p.value.name != "")
            && (HasProxy(cfg, w.c) && (p.None? || p.value.content != secret) ==>
                  p.Some? && p.value.name == InUse(cfg, w.c) && cfg.n.Next(p) != InUse(cfg, w.c))
            && (p.Some? ==> cfg.n.Next(p) != p.value.name) && (p.None? ==> cfg.n.Next(p) == cfg.n.primary)
            && cfg.n.Next(p) in {cfg.n.primary, cfg.n.secondary}
  {
  }

  lemma {:induction false} CertStep(cfg: Config, env: Env, w: World, secret: string)
    requires cfg.n.Valid() && RotationOk(cfg, w, secret)
    ensures RotationOk(cfg, CheckSslCert(With(cfg, secret), env, w).w, secret)
  {
    hide Succeeds;
    NextIsFree(cfg, w, secret);
  }

  lemma {:induction false} PointServes(cfg: Config, env: Env, w: World)
    requires HasProxy(cfg, w.c) && Serving(cfg, w.c) && w.l.sslCert.Some? && w.l.sslCert.value.name in w.c.certs
    requires w.l.sslCert.value.name != ""
    ensures var r := PointAtCert(cfg, env, w, Self(CertKind, w.l.sslCert.value.name));
            && Serving(cfg, r.w.c) && r.w.c.certs == w.c.certs && r.w.l == w.l.(tps := r.w.l.tps)
               && HasProxy(cfg, r.w.c)
            && InUse(cfg, r.w.c) == (if r.out == Ok then w.l.sslCert.value.name else InUse(cfg, w.c))
  {
  }

  /** Repairing the HTTPS proxy either succeeds, on an existing certificate, or leaves its certificate alone. */
  lemma {:induction false} ProxyServes(cfg: Config, env: Env, w: World)
    requires Serving(cfg, w.c) && CertNamed(w.l) && w.l.sslCert.Some? && w.l.sslCert.value.name in w.c.certs
    ensures var r := CheckHttpsProxy(cfg, env, w);
            && Serving(cfg, r.w.c) && r.w.c.certs == w.c.certs && r.w.l == w.l.(tps := r.w.l.tps)
            && (if r.out == Ok then HasProxy(cfg, r.w.c) && InUse(cfg, r.w.c) == w.l.sslCert.value.name
                else HasProxy(cfg, r.w.c) == HasProxy(cfg, w.c) && InUse(cfg, r.w.c) == InUse(cfg, w.c))
  {
    hide PointAtCert;
    if w.l.um.Some? && HasProxy(cfg, w.c) {
      PointServes(cfg, env, w);
      var um := Self(UrlMapKind, w.l.um.value.name);
      var c' := Write(env, w.c,
                      w.c.(httpsProxies := w.c.httpsProxies[cfg.n.tps := w.c.httpsProxies[cfg.n.tps].(urlMap := um)]));
      assert Serving(cfg, c') && InUse(cfg, c') == InUse(cfg, w.c);
      PointServes(cfg, env, w.(c := c'));
    }
  }

  lemma {:induction false} ProxyStep(cfg: Config, env: Env, w: World, secret: string)
    requires cfg.n.Valid() && RotationOk(cfg, w, secret)
    ensures var r := CheckHttpsProxy(With(cfg, secret), env, w);
            && RotationOk(cfg, r.w, secret)
            && (r.out == Ok && w.l.sslCert.Some? ==>
                HasProxy(cfg, r.w.c) && InUse(cfg, r.w.c) == w.l.sslCert.value.name)
            && r.w.l.sslCert == w.l.sslCert
  {
    if w.l.sslCert.Some? {
      hide CheckHttpsProxy;
      var k := With(cfg, secret);
      assert Serving(k, w.c);
      ProxyServes(k, env, w);
    }
  }

  lemma {:induction false} OldStep(cfg: Config, env: Env, w: World, secret: string)
    requires RotationOk(cfg, w, secret)
    requires w.l.sslCert.Some? ==> HasProxy(cfg, w.c) && InUse(cfg, w.c) == w.l.sslCert.value.name
    ensures RotationOk(cfg, DeleteOldCert(With(cfg, secret), env, w).w, secret)
  {
  }

  lemma {:induction false} HttpsKeepsRotation(cfg: Config, env: Env, w: World, secret: string)
    requires cfg.n.Valid() && RotationOk(cfg, w, secret)
    ensures RotationOk(cfg, EdgeHopHttps(With(cfg, secret), env, w).w, secret)
  {
    hide CheckSslCert, CheckHttpsProxy, CheckRule, DeleteOldCert;
    var k := With(cfg, secret);
    CertStep(cfg, env, w, secret);
    var r1 := CheckSslCert(k, env, w);
    if r1.out == Ok {
      ProxyStep(cfg, env, r1.w, secret);
      var r2 := CheckHttpsProxy(k, env, r1.w);
      if r2.out == Ok {
        if r2.w.l.tps.Some? {
          RuleChecked(env, r2.w.c, k.n.fws, Self(HttpsProxyKind, r2.w.l.tps.value), EffectiveIp(k, r2.w).0,
            HTTPS_PORTS);
        }
        OldStep(cfg, env, CheckHttpsRule(k, env, r2.w).w, secret);
      }
    }
  }

  /** Every pass, whatever writes fail in it, keeps the proxy's certificate in existence. */
  lemma {:induction false} PassKeepsRotation(cfg: Config, env: Env, w: World, secret: string)
    requires cfg.n.Valid() && RotationOk(cfg, w, secret)
    ensures RotationOk(cfg, EdgeHop(With(cfg, secret), env, w).w, secret)
  {
    hide EdgeHopFront, EdgeHopHttps;
    var k := With(cfg, secret);
    FrontFrame(k, env, w);
    HttpsKeepsRotation(cfg, env, EdgeHopFront(k, env, w).w, secret);
  }

  // ---------------------------------------------------------------- runs

  datatype Event = Pass(env: Env) | Restart | NewSecret(secret: string)

  datatype Moment = Moment(w: World, secret: string)

  /** The secret may change at any time except between making a certificate and switching the proxy to it. */
  ghost predicate Allowed(cfg: Config, m: Moment, e: Event) {
    match e
    case Pass(env) => Handsout(env)
    case Restart => true
    case NewSecret(_) => !Pending(cfg, m.w)
  }

  function After(cfg: Config, m: Moment, e: Event): (m': Moment) {
    match e
    case Pass(env) => m.(w := EdgeHop(With(cfg, m.secret), env, m.w).w)
    case Restart => m.(w := m.w.(l := NewL7)) // all fields are lost
    case NewSecret(s) => m.(secret := s)
  }

  ghost predicate IsHistory(cfg: Config, moments: seq<Moment>, events: seq<Event>) {
    && |moments| == |events| + 1
    && CloudOk(moments[0].w.c) && Serving(cfg, moments[0].w.c) && moments[0].w.l == NewL7
    && forall i {:trigger events[i]} :: 0 <= i < |events| ==>
         Allowed(cfg, moments[i], events[i]) && moments[i + 1] == After(cfg, moments[i], events[i])
  }

  lemma {:induction false} PassKeepsOk(cfg: Config, env: Env, w: World)
    requires CloudOk(w.c) && Handsout(env)
    ensures CloudOk(EdgeHop(cfg, env, w).w.c)
  {
    hide EdgeHopFront, EdgeHopHttps;
    FrontKeepsOk(cfg, env, w);
    if cfg.Https() { HttpsKeepsCloudOk(cfg, env, EdgeHopFront(cfg, env, w).w); }
  }

  lemma {:induction false} FrontKeepsOk(cfg: Config, env: Env, w: World)
    requires CloudOk(w.c) && Handsout(env)
    ensures CloudOk(EdgeHopFront(cfg, env, w).w.c)
  {
    hide CheckUrlMap, EdgeHopHttp, CheckStaticIp, CloudOk, HttpChain, OnIp, Handsout, AllSucceed;
    UrlMapChecked(cfg, env, w);
    UrlMapKeepsOk(cfg, env, w);
    var r1 := CheckUrlMap(cfg, env, w);
    if r1.out == Ok && cfg.allowHttp {
      HttpChecked(cfg, env, r1.w);
      StaticIpKeepsOk(cfg, env, EdgeHopHttp(cfg, env, r1.w).w);
    }
  }

  lemma {:induction false} StaticIpKeepsOk(cfg: Config, env: Env, w: World)
    requires CloudOk(w.c)
    ensures CloudOk(CheckStaticIp(cfg, env, w).w.c)
  {
    hide EffectiveIp;
  }

  predicate SameBase(c: Cloud, c': Cloud) {
    c'.urlMaps == c.urlMaps && c'.addresses == c.addresses && c'.rules == c.rules
  }

  lemma {:induction false} CertKeepsBase(cfg: Config, env: Env, w: World)
    requires cfg.Https()
    ensures SameBase(w.c, CheckSslCert(cfg, env, w).w.c)
  {
    hide CheckSslCert;
    CertFrame(cfg, env, w);
  }

  lemma {:induction false} PointKeepsBase(cfg: Config, env: Env, w: World, cert: Link)
    requires HasProxy(cfg, w.c)
    ensures SameBase(w.c, PointAtCert(cfg, env, w, cert).w.c)
  {
  }

  lemma {:induction false} ProxyKeepsBase(cfg: Config, env: Env, w: World)
    ensures SameBase(w.c, CheckHttpsProxy(cfg, env, w).w.c)
  {
    hide PointAtCert, Succeeds;
    if w.l.um.Some? && HasProxy(cfg, w.c) && w.l.sslCert.Some? {
      var um, cert := Self(UrlMapKind, w.l.um.value.name), Self(CertKind, w.l.sslCert.value.name);
      PointKeepsBase(cfg, env, w, cert);
      var c' := Write(env, w.c,
                      w.c.(httpsProxies := w.c.httpsProxies[cfg.n.tps := w.c.httpsProxies[cfg.n.tps].(urlMap := um)]));
      PointKeepsBase(cfg, env, w.(c := c'), cert);
    }
  }

  lemma {:induction false} OldKeepsBase(cfg: Config, env: Env, w: World)
    ensures SameBase(w.c, DeleteOldCert(cfg, env, w).w.c)
  {
  }

  lemma {:induction false} SameBaseOk(c: Cloud, c': Cloud)
    requires SameBase(c, c') && CloudOk(c)
    ensures CloudOk(c')
  {
  }

  lemma {:induction false} HttpsRuleKeepsOk(cfg: Config, env: Env, w: World)
    requires CloudOk(w.c) && Handsout(env)
    ensures CloudOk(CheckHttpsRule(cfg, env, w).w.c)
  {
    hide CheckRule, CloudOk;
    if w.l.tps.Some? {
      RuleChecked(env, w.c, cfg.n.fws, Self(HttpsProxyKind, w.l.tps.value), EffectiveIp(cfg, w).0, HTTPS_PORTS);
    }
  }

  lemma {:induction false} HttpsKeepsCloudOk(cfg: Config, env: Env, w: World)
    requires CloudOk(w.c) && Handsout(env) && cfg.Https()
    ensures CloudOk(EdgeHopHttps(cfg, env, w).w.c)
  {
    hide CheckSslCert, CheckHttpsProxy, CheckHttpsRule, DeleteOldCert, CloudOk, SameBase;
    CertKeepsBase(cfg, env, w);
    var r1 := CheckSslCert(cfg, env, w);
    SameBaseOk(w.c, r1.w.c);
    ProxyKeepsBase(cfg, env, r1.w);
    var r2 := CheckHttpsProxy(cfg, env, r1.w);
    SameBaseOk(r1.w.c, r2.w.c);
    HttpsRuleKeepsOk(cfg, env, r2.w);
    var r3 := CheckHttpsRule(cfg, env, r2.w);
    OldKeepsBase(cfg, env, r3.w);
    SameBaseOk(r3.w.c, DeleteOldCert(cfg, env, r3.w).w.c);
  }

  lemma {:induction false} HistoryInv(cfg: Config, moments: seq<Moment>, events: seq<Event>, i: nat)
    requires cfg.n.Valid() && IsHistory(cfg, moments, events) && i < |moments|
    ensures CloudOk(moments[i].w.c) && RotationOk(cfg, moments[i].w, moments[i].secret)
  {
    if i > 0 {
      HistoryInv(cfg, moments, events, i - 1);
      var m, e := moments[i - 1], events[i - 1];
      hide EdgeHop;
      if e.Pass? {
        PassKeepsRotation(cfg, e.env, m.w, m.secret);
        PassKeepsOk(With(cfg, m.secret), e.env, m.w);
      }
    }
  }

  /** In every history: the certificate named by the HTTPS proxy exists at every moment, and a pass that succeeds
      leaves the proxy serving exactly the secret's certificate. */
  lemma {:induction false} RotationSafe(cfg: Config, moments: seq<Moment>, events: seq<Event>, i: nat)
    requires cfg.n.Valid() && IsHistory(cfg, moments, events) && i < |moments|
    ensures Serving(cfg, moments[i].w.c)
    ensures i < |events| && events[i].Pass?
              && EdgeHop(With(cfg, moments[i].secret), events[i].env, moments[i].w).out == Ok ==>
              var c := moments[i + 1].w.c;
              HasProxy(cfg, c) && InUse(cfg, c) in c.certs && c.certs[InUse(cfg, c)] == moments[i].secret
  {
    HistoryInv(cfg, moments, events, i);
    if i < |events| && events[i].Pass? && EdgeHop(With(cfg, moments[i].secret), events[i].env, moments[i].w).out == Ok {
      EdgeHopCompletesChain(With(cfg, moments[i].secret), events[i].env, moments[i].w);
    }
  }

  // ---------------------------------------------------------------- why the secret must not change while pending

  /** The certificate differs from the secret and the name it would rotate to is the one being served. */
  predicate Hazard(cfg: Config, w: World, secret: string) {
    var p := Populated(cfg, w);
    HasProxy(cfg, w.c) && (p.None? || p.value.content != secret) && cfg.n.Next(p) == InUse(cfg, w.c)
  }

  /** The HTTPS half of a pass can take the served certificate away exactly when Hazard holds before it; it takes the
      second of its writes to fail. */
  lemma {:induction false} HttpsLosesIff(cfg: Config, w: World, secret: string)
    requires cfg.n.Valid() && Serving(cfg, w.c) && CertNamed(w.l)
    ensures Hazard(cfg, w, secret) ==>
              forall env: Env :: env.verdict(w.c.writes) == Done && env.verdict(w.c.writes + 1) == Failed ==>
                !Serving(cfg, EdgeHopHttps(With(cfg, secret), env, w).w.c)
    ensures !Hazard(cfg, w, secret) ==> forall env :: Serving(cfg, EdgeHopHttps(With(cfg, secret), env, w).w.c)
  {
    hide EdgeHopHttps;
    if Hazard(cfg, w, secret) {
      forall env: Env | env.verdict(w.c.writes) == Done && env.verdict(w.c.writes + 1) == Failed
        ensures !Serving(cfg, EdgeHopHttps(With(cfg, secret), env, w).w.c) { HazardLoses(cfg, env, w, secret); }
    } else {
      forall env ensures Serving(cfg, EdgeHopHttps(With(cfg, secret), env, w).w.c) {
        NoHazardServes(cfg, env, w, secret);
      }
    }
  }

  lemma {:induction false} HazardLoses(cfg: Config, env: Env, w: World, secret: string)
    requires cfg.n.Valid() && Serving(cfg, w.c) && Hazard(cfg, w, secret)
    requires env.verdict(w.c.writes) == Done && env.verdict(w.c.writes + 1) == Failed
    ensures !Serving(cfg, EdgeHopHttps(With(cfg, secret), env, w).w.c)
  {
    hide CheckHttpsProxy, CheckHttpsRule, DeleteOldCert;
    var k := With(cfg, secret);
    var r := CheckSslCert(k, env, w);
    assert r.out == Err && r.w.c.httpsProxies == w.c.httpsProxies && r.w.c.certs == w.c.certs - {InUse(cfg, w.c)};
  }

  /** A pass can take the served certificate away exactly when Hazard holds before it and there is a default backend,
      without which a pass never gets as far as the certificates. */
  lemma {:induction false} LosesCertificateIff(cfg: Config, w: World, secret: string)
    requires cfg.n.Valid() && CloudOk(w.c) && Serving(cfg, w.c) && CertNamed(w.l)
    ensures (exists env :: !Serving(cfg, EdgeHop(With(cfg, secret), env, w).w.c)) <==>
              cfg.backend.Some? && Hazard(cfg, w, secret)
  {
    hide EdgeHopFront, EdgeHopHttps;
    var k := With(cfg, secret);
    if cfg.backend.Some? && Hazard(cfg, w, secret) {
      var env0 := Env(n => Done, n => "ip");
      FrontSucceeds(k, env0, w);
      var w1 := EdgeHopFront(k, env0, w).w;
      var env := Env(n => if n == w1.c.writes + 1 then Failed else Done, env0.freshIp);
      FrontLocal(k, env0, env, w);
      FrontFrame(k, env, w);
      HttpsLosesIff(cfg, w1, secret);
      assert !Serving(cfg, EdgeHop(k, env, w).w.c);
    } else {
      forall env ensures Serving(cfg, EdgeHop(k, env, w).w.c) { PassWithoutHazard(cfg, env, w, secret); }
    }
  }

  lemma {:induction false} PassWithoutHazard(cfg: Config, env: Env, w: World, secret: string)
    requires cfg.n.Valid() && Serving(cfg, w.c) && CertNamed(w.l) && (cfg.backend.None? || !Hazard(cfg, w, secret))
    ensures Serving(cfg, EdgeHop(With(cfg, secret), env, w).w.c)
  {
    var k := With(cfg, secret);
    assert cfg.backend.None? ==> EdgeHopFront(k, env, w).out == Err;
    hide EdgeHopFront, EdgeHopHttps;
    FrontFrame(k, env, w);
    if cfg.backend.Some? { HttpsLosesIff(cfg, EdgeHopFront(k, env, w).w, secret); }
  }

  lemma {:induction false} NoHazardCert(cfg: Config, env: Env, w: World, secret: string)
    requires cfg.n.Valid() && Serving(cfg, w.c) && CertNamed(w.l) && !Hazard(cfg, w, secret)
    ensures var r := CheckSslCert(With(cfg, secret), env, w);
            Serving(cfg, r.w.c) && CertNamed(r.w.l)
              && (r.out == Ok ==> r.w.l.sslCert.Some? && r.w.l.sslCert.value.name in r.w.c.certs)
  {
  }

  lemma {:induction false} OldServes(cfg: Config, env: Env, w: World)
    requires Serving(cfg, w.c) && (w.l.sslCert.Some? ==> InUse(cfg, w.c) == w.l.sslCert.value.name)
    ensures Serving(cfg, DeleteOldCert(cfg, env, w).w.c)
  {
  }

  lemma {:induction false} NoHazardServes(cfg: Config, env: Env, w: World, secret: string)
    requires cfg.n.Valid() && Serving(cfg, w.c) && CertNamed(w.l) && !Hazard(cfg, w, secret)
    ensures Serving(cfg, EdgeHopHttps(With(cfg, secret), env, w).w.c)
  {
    hide CheckSslCert, CheckHttpsProxy, CheckRule, DeleteOldCert;
    var k := With(cfg, secret);
    NoHazardCert(cfg, env, w, secret);
    var r1 := CheckSslCert(k, env, w);
    if r1.out == Ok {
      assert Serving(k, r1.w.c);
      ProxyServes(k, env, r1.w);
      var r2 := CheckHttpsProxy(k, env, r1.w);
      if r2.out == Ok {
        if r2.w.l.tps.Some? {
          RuleChecked(env, r2.w.c, k.n.fws, Self(HttpsProxyKind, r2.w.l.tps.value), EffectiveIp(k, r2.w).0,
            HTTPS_PORTS);
        }
        OldServes(k, env, CheckHttpsRule(k, env, r2.w).w);
      }
    }
  }

  /** While a switch is pending between the two names, any new secret creates the hazard. */
  lemma {:induction false} ChangeWhilePending(cfg: Config, w: World, before: string, secret: string)
    requires cfg.n.Valid() && RotationOk(cfg, w, before) && Pending(cfg, w) && secret != before
    ensures Hazard(cfg, w, secret) <==> cfg.n.Next(w.l.sslCert) == InUse(cfg, w.c)
  {
  }

  // An instance. `a` is served; a second secret makes `b`, but the switch to it fails; a third secret comes too early,
  // the next certificate goes under the name `a`, and if its creation fails the proxy is left with the name of nothing.

  const TwoNames := LbNames("um", "tp", "tps", "fw", "fws", "a", "b")
  const Example := Config(TwoNames, Some(Self(BackendKind, "be")), false, Some(""), "", "")

  function ServedFrom(certs: map<string, string>, writes: nat): (c: Cloud) {
    Cloud(map["um" := UrlMap("um", Self(BackendKind, "be"), [], [])], map[],
          map["tps" := HttpsProxy(Self(UrlMapKind, "um"), [Self(CertKind, "a")])], certs, map[], map[], writes)
  }

  function FailsAt(k: nat): (env: Env) { Env(n => if n == k then Failed else Done, n => "ip") }

  lemma {:induction false} StillServed(certs: map<string, string>, writes: nat)
    requires "a" in certs
    ensures var c := ServedFrom(certs, writes); CloudOk(c) && Serving(Example, c) && HasProxy(Example, c)
                                                && InUse(Example, c) == "a"
  {
  }

  lemma {:induction false} SwitchFails()
    ensures var w := World(NewL7, ServedFrom(map["a" := "1"], 0));
            var w' := EdgeHop(With(Example, "2"), FailsAt(2), w).w;
            && w'.c == ServedFrom(map["a" := "1", "b" := "2"], 3)
            && w'.l.sslCert == Some(Cert("b", "2")) && w'.l.oldSslCert == Some(Cert("a", "1"))
  {
    var k, w := With(Example, "2"), World(NewL7, ServedFrom(map["a" := "1"], 0));
    assert EdgeHopFront(k, FailsAt(2), w).w == w.(l := w.l.(um := Some(w.c.urlMaps["um"])));
    var w1 := EdgeHopFront(k, FailsAt(2), w).w;
    assert Populated(k, w1) == Some(Cert("a", "1"));
    var r := CheckSslCert(k, FailsAt(2), w1);
    assert r.w.c.certs == map["a" := "1", "b" := "2"] && r.w.c == ServedFrom(r.w.c.certs, 2);
  }

  lemma {:induction false} CreationFails(l: L7)
    requires l.sslCert == Some(Cert("b", "2"))
    ensures var w := World(l, ServedFrom(map["a" := "1", "b" := "2"], 3));
            !Serving(Example, EdgeHop(With(Example, "3"), FailsAt(4), w).w.c)
  {
    var k, w := With(Example, "3"), World(l, ServedFrom(map["a" := "1", "b" := "2"], 3));
    assert InUse(Example, w.c) == "a" && Populated(k, w) == Some(Cert("b", "2"));
    assert EdgeHopFront(k, FailsAt(4), w).w == w.(l := w.l.(um := Some(w.c.urlMaps["um"])));
    hide EdgeHopHttps;
    HttpsLosesIff(Example, EdgeHopFront(k, FailsAt(4), w).w, "3");
  }

  /** Reached by the events of a history, of which only the third secret is not allowed. */
  lemma {:induction false} ThirdSecretTooEarly()
    ensures var m0 := Moment(World(NewL7, ServedFrom(map["a" := "1"], 0)), "1");
            var m1 := After(Example, m0, NewSecret("2"));
            var m2 := After(Example, m1, Pass(FailsAt(2)));
            var m3 := After(Example, m2, NewSecret("3"));
            var m4 := After(Example, m3, Pass(FailsAt(4)));
            && Example.n.Valid() && CloudOk(m0.w.c) && Serving(Example, m0.w.c)
            && Allowed(Example, m0, NewSecret("2")) && Allowed(Example, m1, Pass(FailsAt(2)))
               && Allowed(Example, m3, Pass(FailsAt(4)))
            && Pending(Example, m2.w) && Serving(Example, m3.w.c) && !Serving(Example, m4.w.c)
  {
    assert "a" != "b" && "fw" != "fws";
    hide EdgeHop, Serving, ServedFrom;
    StillServed(map["a" := "1"], 0);
    StillServed(map["a" := "1", "b" := "2"], 3);
    SwitchFails();
    CreationFails(EdgeHop(With(Example, "2"), FailsAt(2), World(NewL7, ServedFrom(map["a" := "1"], 0))).w.l);
  }
}
