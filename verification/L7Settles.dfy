/** Repeated edge hops settle: the second successful pass is the last one that writes. */
module L7Settles {
  import opened Text
  import opened L7Cloud
  import opened L7World
  import opened L7EdgeHop

  /** The HTTPS side is complete and its rule has the effective IP. */
  predicate HttpsSettled(cfg: Config, w: World) {
    && HttpsChain(cfg, w) && !OldCertGoes(w.l) && CertNamed(w.l)
    && !RuleStale(w.c.rules[cfg.n.fws], EffectiveIp(cfg, w).0, HTTPS_PORTS)
  }

  /** The IP is the user's, or the reserved one and recorded. */
  predicate IpSettled(cfg: Config, w: World) {
    !UserIp(cfg, w.c) ==> cfg.n.fw in w.c.addresses && w.l.ip == Some(Address(cfg.n.fw, w.c.addresses[cfg.n.fw]))
  }

  /** Where one successful pass leads: only the IP of the HTTP rule may still be an old one. */
  predicate Half(cfg: Config, w: World) {
    && cfg.backend.Some? && UrlMapReady(cfg, w)
    && (cfg.allowHttp ==> HttpChain(cfg, w))
    && (cfg.Https() ==> HttpsSettled(cfg, w))
    && (cfg.allowHttp && cfg.Https() ==> IpSettled(cfg, w))
  }

  predicate Settled(cfg: Config, w: World) {
    && Half(cfg, w)
    && (cfg.allowHttp ==> !RuleStale(w.c.rules[cfg.n.fw], EffectiveIp(cfg, w).0, HTTP_PORTS))
  }

  // ---------------------------------------------------------------- a pass with nothing to do on the HTTPS side

  lemma {:induction false} CertIdle(cfg: Config, env: Env, w: World)
    requires cfg.Https() && CertReady(cfg, w) && CertNamed(w.l)
    ensures CheckSslCert(cfg, env, w) == Res(w, Ok)
  {
    assert w.l.(sslCert := w.l.sslCert) == w.l;
  }

  lemma {:induction false} HttpsIdle(cfg: Config, env: Env, w: World)
    requires cfg.Https() && HttpsSettled(cfg, w) && UrlMapReady(cfg, w) && w.l.um.value.name == cfg.n.um
    ensures var r := EdgeHopHttps(cfg, env, w);
            r.out == Ok && r.w.c == w.c && r.w.l == w.l.(tps := Some(cfg.n.tps), fws := r.w.l.fws)
  {
    hide CheckSslCert;
    CertIdle(cfg, env, w);
  }

  // ---------------------------------------------------------------- the front of a later pass

  lemma {:induction false} HttpAgain(cfg: Config, env: Env, w: World)
    requires CloudOk(w.c) && cfg.allowHttp && HttpChain(cfg, w) && UrlMapReady(cfg, w) && w.l.um.value.name == cfg.n.um
    requires AllSucceed(env) || !RuleStale(w.c.rules[cfg.n.fw], EffectiveIp(cfg, w).0, HTTP_PORTS)
    ensures var r := EdgeHopHttp(cfg, env, w); var ip := EffectiveIp(cfg, w).0;
            && r.out == Ok
            && OnlyRule(w.c, r.w.c, cfg.n.fw) && HttpChain(cfg, r.w)
               && !RuleStale(r.w.c.rules[cfg.n.fw], ip, HTTP_PORTS)
            && r.w.l == w.l.(tp := Some(cfg.n.tp), fw := Some(Fw(cfg.n.fw, r.w.c.rules[cfg.n.fw].ip)))
            && (!RuleStale(w.c.rules[cfg.n.fw], ip, HTTP_PORTS) ==> r.w.c == w.c)
            && (Handsout(env) || r.w.c == w.c ==> CloudOk(r.w.c))
  {
    hide CreateRule;
    var w1 := CheckProxy(cfg, env, w).w;
    RuleChecked(env, w1.c, cfg.n.fw, Self(HttpProxyKind, cfg.n.tp), EffectiveIp(cfg, w1).0, HTTP_PORTS);
  }

  lemma {:induction false} StaticIpAgain(cfg: Config, env: Env, w: World)
    requires IpSettled(cfg, w) && w.l.fw.Some? && w.l.fw.value.ip != ""
    ensures CheckStaticIp(cfg, env, w) == Res(w, Ok)
  {
    assert w.l.(ip := w.l.ip) == w.l;
  }

  lemma {:induction false} UrlMapAgain(cfg: Config, env: Env, w: World)
    requires cfg.backend.Some? && UrlMapReady(cfg, w)
    ensures CheckUrlMap(cfg, env, w) == Res(w, Ok)
  {
    assert w.l.(um := w.l.um) == w.l;
  }

  lemma {:induction false} FrontAgain(cfg: Config, env: Env, w: World)
    requires CloudOk(w.c) && Half(cfg, w) && w.l.um.value.name == cfg.n.um && cfg.n.Valid()
    requires (AllSucceed(env) && Handsout(env)) || Settled(cfg, w)
    ensures var r := EdgeHopFront(cfg, env, w);
            && r.out == Ok && UrlMapReady(cfg, r.w) && OnlyRule(w.c, r.w.c, cfg.n.fw)
            && r.w.l == w.l.(tp := r.w.l.tp, fw := r.w.l.fw)
            && (cfg.allowHttp ==> HttpChain(cfg, r.w)
                                  && !RuleStale(r.w.c.rules[cfg.n.fw], EffectiveIp(cfg, w).0, HTTP_PORTS))
            && (Settled(cfg, w) ==> r.w.c == w.c)
            && CloudOk(r.w.c)
  {
    hide CheckUrlMap, EdgeHopHttp, CheckStaticIp;
    UrlMapAgain(cfg, env, w);
    if cfg.allowHttp {
      HttpAgain(cfg, env, w);
      if cfg.Https() { StaticIpAgain(cfg, env, EdgeHopHttp(cfg, env, w).w); }
    }
  }

  /** From where one pass leads, the next pass succeeds and settles; once settled, a pass writes nothing, whatever
      the environment would do to writes. */
  lemma {:induction false} LaterPass(cfg: Config, env: Env, w: World)
    requires CloudOk(w.c) && Half(cfg, w) && w.l.um.value.name == cfg.n.um && cfg.n.Valid()
    requires (AllSucceed(env) && Handsout(env)) || Settled(cfg, w)
    ensures var r := EdgeHop(cfg, env, w);
            && r.out == Ok && Settled(cfg, r.w) && CloudOk(r.w.c) && r.w.l.um == w.l.um
            && (Settled(cfg, w) ==> r.w.c == w.c)
  {
    hide EdgeHopFront, EdgeHopHttps;
    FrontAgain(cfg, env, w);
    var w1 := EdgeHopFront(cfg, env, w).w;
    if cfg.Https() {
      assert RuleAt(w1.c.rules, cfg.n.fws) == RuleAt(w.c.rules, cfg.n.fws);
      HttpsIdle(cfg, env, w1);
    }
  }

  // ---------------------------------------------------------------- the first pass

  lemma {:induction false} StaticIpFirst(cfg: Config, env: Env, w: World)
    requires AllSucceed(env) && CloudOk(w.c) && CheckStaticIp(cfg, env, w).out == Ok
    ensures var w' := CheckStaticIp(cfg, env, w).w; IpSettled(cfg, w') && CloudOk(w'.c)
  {
  }

  lemma {:induction false} FrontFirst(cfg: Config, env: Env, w: World)
    requires AllSucceed(env) && Handsout(env) && CloudOk(w.c) && EdgeHopFront(cfg, env, w).out == Ok
    ensures var w' := EdgeHopFront(cfg, env, w).w;
            CloudOk(w'.c) && cfg.backend.Some? && (cfg.allowHttp && cfg.Https() ==> IpSettled(cfg, w'))
  {
    hide CheckUrlMap, EdgeHopHttp, CheckStaticIp;
    UrlMapChecked(cfg, env, w);
    UrlMapKeepsOk(cfg, env, w);
    var w1 := CheckUrlMap(cfg, env, w).w;
    if cfg.allowHttp {
      HttpChecked(cfg, env, w1);
      if cfg.Https() { StaticIpFirst(cfg, env, EdgeHopHttp(cfg, env, w1).w); }
    }
  }

  lemma {:induction false} HttpsKeepsOk(cfg: Config, env: Env, w: World)
    requires Handsout(env) && CloudOk(w.c) && CertNamed(w.l) && cfg.Https() && cfg.n.Valid()
    requires UrlMapReady(cfg, w) && w.l.um.value.name == cfg.n.um && EdgeHopHttps(cfg, env, w).out == Ok
    ensures var w' := EdgeHopHttps(cfg, env, w).w; CloudOk(w'.c) && CertNamed(w'.l)
  {
    hide CheckSslCert, CheckHttpsProxy, CheckRule;
    CertChecked(cfg, env, w);
    var w1 := CheckSslCert(cfg, env, w).w;
    CertStaysNamed(cfg, env, w);
    HttpsProxyChecked(cfg, env, w1);
    var w2 := CheckHttpsProxy(cfg, env, w1).w;
    RuleChecked(env, w2.c, cfg.n.fws, Self(HttpsProxyKind, cfg.n.tps), EffectiveIp(cfg, w2).0, HTTPS_PORTS);
  }

  lemma {:induction false} CertStaysNamed(cfg: Config, env: Env, w: World)
    requires cfg.Https() && CertNamed(w.l) && cfg.n.Valid()
    ensures CertNamed(CheckSslCert(cfg, env, w).w.l)
  {
  }

  lemma {:induction false} FirstPass(cfg: Config, env: Env, w: World)
    requires AllSucceed(env) && Handsout(env) && CloudOk(w.c) && CertNamed(w.l) && cfg.n.Valid()
    requires EdgeHop(cfg, env, w).out == Ok
    ensures var w' := EdgeHop(cfg, env, w).w; Half(cfg, w') && CloudOk(w'.c) && w'.l.um.value.name == cfg.n.um
  {
    EdgeHopCompletesChain(cfg, env, w);
    hide EdgeHopFront, EdgeHopHttps;
    FrontChain(cfg, env, w);
    FrontFirst(cfg, env, w);
    var w1 := EdgeHopFront(cfg, env, w).w;
    if cfg.Https() {
      HttpsChecked(cfg, env, w1);
      HttpsKeepsOk(cfg, env, w1);
    }
  }

  /** With all writes succeeding: whatever a first successful pass started from, the second gives both forwarding
      rules the same IP and the third makes no write call. */
  lemma {:induction false} ThreePasses(cfg: Config, env: Env, w: World)
    requires AllSucceed(env) && Handsout(env) && CloudOk(w.c) && CertNamed(w.l) && cfg.n.Valid()
    requires EdgeHop(cfg, env, w).out == Ok
    ensures var r2 := EdgeHop(cfg, env, EdgeHop(cfg, env, w).w);
            var r3 := EdgeHop(cfg, env, r2.w);
            && r2.out == Ok && r3.out == Ok && r3.w.c == r2.w.c
            && (cfg.allowHttp && cfg.Https() ==>
                  cfg.n.fw in r2.w.c.rules && cfg.n.fws in r2.w.c.rules
                    && r2.w.c.rules[cfg.n.fw].ip == r2.w.c.rules[cfg.n.fws].ip)
  {
    hide EdgeHop;
    FirstPass(cfg, env, w);
    var w1 := EdgeHop(cfg, env, w).w;
    LaterPass(cfg, env, w1);
    var w2 := EdgeHop(cfg, env, w1).w;
    LaterPass(cfg, env, w2);
    if cfg.allowHttp && cfg.Https() { OneIp(cfg, w2); }
  }

  lemma {:induction false} OneIp(cfg: Config, w: World)
    requires Settled(cfg, w) && CloudOk(w.c) && cfg.allowHttp && cfg.Https()
    ensures w.c.rules[cfg.n.fw].ip == w.c.rules[cfg.n.fws].ip != ""
    ensures if cfg.staticIpName != "" && cfg.staticIpName in w.c.addresses
            then w.c.rules[cfg.n.fw].ip == w.c.addresses[cfg.staticIpName]
            else w.l.ip == Some(Address(cfg.n.fw, w.c.rules[cfg.n.fw].ip))
  {
  }

  /** What a first pass needs besides working writes: a default backend, the named certificate if one is named,
      and a certificate on the HTTPS proxy if that proxy exists already. */
  predicate CanSucceed(cfg: Config, c: Cloud) {
    && cfg.backend.Some?
    && (cfg.Https() ==> && (cfg.tlsName != "" ==> cfg.tlsName in c.certs)
                        && (cfg.n.tps in c.httpsProxies ==> c.httpsProxies[cfg.n.tps].certs != []))
  }

  lemma {:induction false} FrontSucceeds(cfg: Config, env: Env, w: World)
    requires AllSucceed(env) && Handsout(env) && CloudOk(w.c)
    ensures EdgeHopFront(cfg, env, w).out == if cfg.backend.Some? then Ok else Err
  {
    hide CheckUrlMap, EdgeHopHttp;
    UrlMapChecked(cfg, env, w);
    UrlMapKeepsOk(cfg, env, w);
    var w1 := CheckUrlMap(cfg, env, w).w;
    assert cfg.backend.None? ==> CheckUrlMap(cfg, env, w).out == Err by { NoBackend(cfg, env, w); }
    if cfg.allowHttp && cfg.backend.Some? { HttpChecked(cfg, env, w1); }
  }

  lemma {:induction false} NoBackend(cfg: Config, env: Env, w: World)
    ensures cfg.backend.None? ==> CheckUrlMap(cfg, env, w).out == Err
  {
  }

  lemma {:induction false} CertSucceeds(cfg: Config, env: Env, w: World)
    requires AllSucceed(env) && cfg.Https()
    ensures CheckSslCert(cfg, env, w).out == (if cfg.tlsName != "" && cfg.tlsName !in w.c.certs then Err else Ok)
  {
  }

  lemma {:induction false} HttpsProxySucceeds(cfg: Config, env: Env, w: World)
    requires AllSucceed(env) && w.l.sslCert.Some? && w.l.um.Some?
    ensures CheckHttpsProxy(cfg, env, w).out ==
            if cfg.n.tps in w.c.httpsProxies && w.c.httpsProxies[cfg.n.tps].certs == [] then Panic else Ok
  {
  }

  /** When no write fails, a pass goes wrong exactly when CanSucceed does not hold. */
  lemma {:induction false} PassSucceedsIff(cfg: Config, env: Env, w: World)
    requires AllSucceed(env) && Handsout(env) && CloudOk(w.c) && CertNamed(w.l) && cfg.n.Valid()
    ensures EdgeHop(cfg, env, w).out == Ok <==> CanSucceed(cfg, w.c)
  {
    hide EdgeHopFront, CheckSslCert, CheckHttpsProxy, CheckRule;
    FrontSucceeds(cfg, env, w);
    if cfg.backend.Some? && cfg.Https() {
      FrontChain(cfg, env, w);
      var w1 := EdgeHopFront(cfg, env, w).w;
      CertSucceeds(cfg, env, w1);
      if CheckSslCert(cfg, env, w1).out == Ok {
        CertChecked(cfg, env, w1);
        var w2 := CheckSslCert(cfg, env, w1).w;
        HttpsProxySucceeds(cfg, env, w2);
        if CheckHttpsProxy(cfg, env, w2).out == Ok {
          HttpsProxyChecked(cfg, env, w2);
          var w3 := CheckHttpsProxy(cfg, env, w2).w;
          RuleChecked(env, w3.c, cfg.n.fws, Self(HttpsProxyKind, cfg.n.tps), EffectiveIp(cfg, w3).0, HTTPS_PORTS);
        }
      }
    }
  }
}
