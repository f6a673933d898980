/** What the edge hop achieves: a complete chain after one pass, one IP after two, nothing to do after three. */
module L7EdgeHop {
  import opened Text
  import opened L7Cloud
  import opened L7World

  /** Resources are found under their own names and every IP in the cloud is a real one. */
  ghost predicate CloudOk(c: Cloud) {
    && (forall k :: k in c.urlMaps ==> c.urlMaps[k].name == k)
    && (forall k :: k in c.addresses ==> c.addresses[k] != "")
    && (forall k :: k in c.rules ==> c.rules[k].ip != "")
  }

  predicate RuleInPlace(c: Cloud, name: string, proxy: Link, ports: string) {
    name in c.rules && c.rules[name].target == proxy && c.rules[name].portRange == ports
  }

  predicate UrlMapReady(cfg: Config, w: World) {
    cfg.n.um in w.c.urlMaps && w.l.um == Some(w.c.urlMaps[cfg.n.um])
  }

  /** forwarding rule -> HTTP proxy -> url map */
  predicate HttpChain(cfg: Config, w: World) {
    && cfg.n.tp in w.c.httpProxies && w.c.httpProxies[cfg.n.tp] == Self(UrlMapKind, cfg.n.um)
    && RuleInPlace(w.c, cfg.n.fw, Self(HttpProxyKind, cfg.n.tp), "80-80")
  }

  /** The recorded certificate exists in the cloud and is the one asked for. */
  predicate CertReady(cfg: Config, w: World) {
    && w.l.sslCert.Some? && w.l.sslCert == GetCert(w.c, w.l.sslCert.value.name)
    && (if cfg.tlsName != "" then w.l.sslCert.value.name == cfg.tlsName
        else cfg.tls.Some? && w.l.sslCert.value.content == cfg.tls.value)
  }

  predicate HttpsProxyReady(cfg: Config, w: World) {
    && cfg.n.tps in w.c.httpsProxies && w.l.sslCert.Some?
    && w.c.httpsProxies[cfg.n.tps].urlMap == Self(UrlMapKind, cfg.n.um)
    && w.c.httpsProxies[cfg.n.tps].certs != []
    && w.c.httpsProxies[cfg.n.tps].certs[0] == Self(CertKind, w.l.sslCert.value.name)
  }

  /** forwarding rule -> HTTPS proxy -> url map, the proxy serving the certificate asked for */
  predicate HttpsChain(cfg: Config, w: World) {
    && CertReady(cfg, w) && HttpsProxyReady(cfg, w)
    && RuleInPlace(w.c, cfg.n.fws, Self(HttpsProxyKind, cfg.n.tps), "443-443")
  }

  /** The user has named an IP for the load balancer, and it exists. */
  predicate UserIp(cfg: Config, c: Cloud) { cfg.staticIpName != "" && cfg.staticIpName in c.addresses }

  /** This rule has the user's IP, or else the recorded one. */
  predicate OnIp(cfg: Config, c: Cloud, ip: Option<Address>, rule: string) {
    && (UserIp(cfg, c) && c.addresses[cfg.staticIpName] != "" ==>
          rule in c.rules && c.rules[rule].ip == c.addresses[cfg.staticIpName])
    && (!UserIp(cfg, c) && ip.Some? && ip.value.ip != "" ==> rule in c.rules && c.rules[rule].ip == ip.value.ip)
  }

  /** A certificate is never recorded under the empty name. */
  predicate CertNamed(l: L7) { l.sslCert.Some? ==> l.sslCert.value.name != "" }

  // ---------------------------------------------------------------- one forwarding rule

  ghost predicate OnlyRule(c: Cloud, c': Cloud, name: string) {
    && c' == c.(rules := c'.rules, writes := c'.writes)
    && forall k :: k != name ==> RuleAt(c'.rules, k) == RuleAt(c.rules, k)
  }

  function RuleAt(rules: map<string, Rule>, k: string): (r: Option<Rule>) {
    if k in rules then Some(rules[k]) else None
  }

  lemma {:induction false} CreatedOk(env: Env, c: Cloud, name: string, proxy: Link, ip: string, ports: string)
    requires Handsout(env) && CloudOk(c)
    ensures CloudOk(CreateRule(env, c, name, proxy, ip, ports).c)
  {
    hide Succeeds;
    if Succeeds(env, c) { }
  }

  lemma {:induction false} RuleCreated(env: Env, c: Cloud, name: string, proxy: Link, ip: string, ports: string)
    ensures var r := CreateRule(env, c, name, proxy, ip, ports);
            && OnlyRule(c, r.c, name)
            && (r.fw.Some? ==> RuleInPlace(r.c, name, proxy, ports) && r.fw == Some(Fw(name, r.c.rules[name].ip)) &&
                               (ip != "" ==> r.c.rules[name].ip == ip))
            && (r.fw.Some? <==> Succeeds(env, c))
            && (Handsout(env) && CloudOk(c) ==> CloudOk(r.c))
  {
    hide Succeeds, CloudOk, Handsout;
    if Handsout(env) && CloudOk(c) { CreatedOk(env, c, name, proxy, ip, ports); }
  }

  lemma {:induction false} RuleRecreated(env: Env, c: Cloud, name: string, proxy: Link, ip: string, ports: string)
    requires name in c.rules && RuleStale(c.rules[name], ip, ports)
    ensures var r := CheckRule(env, c, name, proxy, ip, ports);
            && OnlyRule(c, r.c, name)
            && (r.fw.Some? ==> RuleInPlace(r.c, name, proxy, ports) && r.fw == Some(Fw(name, r.c.rules[name].ip)) &&
                               (ip != "" ==> r.c.rules[name].ip == ip))
            && (AllSucceed(env) ==> r.fw.Some?)
            && (Handsout(env) && CloudOk(c) ==> CloudOk(r.c))
  {
    var c' := Write(env, c, c.(rules := c.rules - {name}));
    assert OnlyRule(c, c', name);
    assert CloudOk(c) ==> CloudOk(c');
    RuleCreated(env, c', name, proxy, ip, ports);
  }

  lemma {:induction false} RuleKept(env: Env, c: Cloud, name: string, proxy: Link, ip: string, ports: string)
    requires proxy != NoLink && name in c.rules && !RuleStale(c.rules[name], ip, ports)
    ensures var r := CheckRule(env, c, name, proxy, ip, ports);
            && OnlyRule(c, r.c, name)
            && (r.fw.Some? ==> RuleInPlace(r.c, name, proxy, ports) && r.fw == Some(Fw(name, r.c.rules[name].ip)) &&
                               (ip != "" ==> r.c.rules[name].ip == ip))
            && (Succeeds(env, c) ==> r.fw.Some?)
            && (CloudOk(c) ==> CloudOk(r.c))
  {
    hide Succeeds;
  }

  lemma {:induction false} RuleChecked(env: Env, c: Cloud, name: string, proxy: Link, ip: string, ports: string)
    requires proxy != NoLink
    ensures var r := CheckRule(env, c, name, proxy, ip, ports);
            && OnlyRule(c, r.c, name)
            && (r.fw.Some? ==> RuleInPlace(r.c, name, proxy, ports) && r.fw == Some(Fw(name, r.c.rules[name].ip)) &&
                               (ip != "" ==> r.c.rules[name].ip == ip))
            && (AllSucceed(env) ==> r.fw.Some?)
            && (Handsout(env) && CloudOk(c) ==> CloudOk(r.c))
  {
    hide CreateRule, OnlyRule, RuleStale, CloudOk;
    if name !in c.rules {
      RuleCreated(env, c, name, proxy, ip, ports);
    } else {
      hide CheckRule;
      if RuleStale(c.rules[name], ip, ports) {
        RuleRecreated(env, c, name, proxy, ip, ports);
      } else {
        RuleKept(env, c, name, proxy, ip, ports);
      }
    }
  }

  // ---------------------------------------------------------------- one successful pass

  lemma {:induction false} UrlMapKeepsOk(cfg: Config, env: Env, w: World)
    requires CloudOk(w.c)
    ensures CloudOk(CheckUrlMap(cfg, env, w).w.c)
  {
  }

  lemma {:induction false} UrlMapFrame(cfg: Config, env: Env, w: World)
    ensures var r := CheckUrlMap(cfg, env, w);
            r.w.c == w.c.(urlMaps := r.w.c.urlMaps, writes := r.w.c.writes) && r.w.l == w.l.(um := r.w.l.um)
  {
    hide Succeeds;
    if Succeeds(env, w.c) { }
  }

  lemma {:induction false} UrlMapChecked(cfg: Config, env: Env, w: World)
    requires CloudOk(w.c)
    ensures var r := CheckUrlMap(cfg, env, w);
            && r.w.c == w.c.(urlMaps := r.w.c.urlMaps, writes := r.w.c.writes)
            && r.w.l == w.l.(um := r.w.l.um)
            && (r.out == Ok ==> UrlMapReady(cfg, r.w) && r.w.l.um.value.name == cfg.n.um)
            // found and left alone, or made to send everything to the default backend
            && (r.out == Ok ==> cfg.backend.Some? && r.w.c.urlMaps == if cfg.n.um in w.c.urlMaps then w.c.urlMaps
                else w.c.urlMaps[cfg.n.um := UrlMap(cfg.n.um, cfg.backend.value, [], [])])
            && (AllSucceed(env) ==> (r.out == Ok <==> cfg.backend.Some?))
  {
    UrlMapFrame(cfg, env, w);
  }

  lemma {:induction false} ProxyChecked(cfg: Config, env: Env, w: World)
    requires w.l.um.Some? && w.l.um.value.name == cfg.n.um
    ensures var r := CheckProxy(cfg, env, w);
            && r.w.c == w.c.(httpProxies := r.w.c.httpProxies, writes := r.w.c.writes)
            && r.w.l == w.l.(tp := r.w.l.tp)
            && (r.out == Ok ==> r.w.l.tp == Some(cfg.n.tp) && cfg.n.tp in r.w.c.httpProxies
                                && r.w.c.httpProxies[cfg.n.tp] == Self(UrlMapKind, cfg.n.um))
            && (AllSucceed(env) ==> r.out == Ok)
  {
  }

  lemma {:induction false} HttpChecked(cfg: Config, env: Env, w: World)
    requires CloudOk(w.c) && UrlMapReady(cfg, w) && w.l.um.value.name == cfg.n.um
    ensures var r := EdgeHopHttp(cfg, env, w);
            && r.w.c == w.c.(httpProxies := r.w.c.httpProxies, rules := r.w.c.rules, writes := r.w.c.writes)
            && (forall k :: k != cfg.n.fw ==> RuleAt(r.w.c.rules, k) == RuleAt(w.c.rules, k))
            && r.w.l == w.l.(tp := r.w.l.tp, fw := r.w.l.fw)
            && (r.out == Ok ==> HttpChain(cfg, r.w) && r.w.l.fw == Some(Fw(cfg.n.fw, r.w.c.rules[cfg.n.fw].ip))
                                && OnIp(cfg, r.w.c, w.l.ip, cfg.n.fw))
            && (AllSucceed(env) ==> r.out == Ok)
            && (Handsout(env) ==> CloudOk(r.w.c))
  {
    ProxyChecked(cfg, env, w);
    var w1 := CheckProxy(cfg, env, w).w;
    RuleChecked(env, w1.c, cfg.n.fw, Self(HttpProxyKind, cfg.n.tp), EffectiveIp(cfg, w1).0, HTTP_PORTS);
  }

  lemma {:induction false} StaticIpChecked(cfg: Config, env: Env, w: World)
    ensures var r := CheckStaticIp(cfg, env, w);
            && r.w.c == w.c.(addresses := r.w.c.addresses, writes := r.w.c.writes)
            && r.w.l == w.l.(ip := r.w.l.ip)
  {
    hide EffectiveIp, Succeeds;
  }

  /** The recorded address is the one under the name of the HTTP rule; it is reserved only together with its record. */
  lemma {:induction false} StaticIpRecorded(cfg: Config, env: Env, w: World)
    ensures var w' := CheckStaticIp(cfg, env, w).w;
            && (w'.l.ip == w.l.ip || (w'.l.ip.Some? && w'.l.ip.value.name == cfg.n.fw))
            && (cfg.n.fw in w'.c.addresses && w'.l.ip.None? ==> cfg.n.fw in w.c.addresses && w.l.ip.None?)
            && w.c.addresses.Keys <= w'.c.addresses.Keys
  {
    hide EffectiveIp;
  }

  lemma {:induction false} FrontChain(cfg: Config, env: Env, w: World)
    requires CloudOk(w.c) && EdgeHopFront(cfg, env, w).out == Ok
    ensures var w' := EdgeHopFront(cfg, env, w).w;
            && UrlMapReady(cfg, w') && w'.l.um.value.name == cfg.n.um
            && (cfg.allowHttp ==> HttpChain(cfg, w'))
            && w'.c.httpsProxies == w.c.httpsProxies && w'.c.certs == w.c.certs
            && w'.l.sslCert == w.l.sslCert && w'.l.oldSslCert == w.l.oldSslCert
  {
    UrlMapChecked(cfg, env, w);
    UrlMapKeepsOk(cfg, env, w);
    var w1 := CheckUrlMap(cfg, env, w).w;
    if cfg.allowHttp {
      HttpChecked(cfg, env, w1);
      StaticIpChecked(cfg, env, EdgeHopHttp(cfg, env, w1).w);
    }
  }

  lemma {:induction false} CertChecked(cfg: Config, env: Env, w: World)
    requires cfg.Https() && CertNamed(w.l) && CheckSslCert(cfg, env, w).out == Ok
    ensures var w' := CheckSslCert(cfg, env, w).w;
            && CertReady(cfg, w')
            && w'.c == w.c.(certs := w'.c.certs, writes := w'.c.writes)
            && w'.l == w.l.(sslCert := w'.l.sslCert, oldSslCert := w'.l.oldSslCert)
  {
  }

  lemma {:induction false} HttpsProxyChecked(cfg: Config, env: Env, w: World)
    requires CheckHttpsProxy(cfg, env, w).out == Ok && w.l.sslCert.Some?
    requires w.l.um.Some? && w.l.um.value.name == cfg.n.um
    ensures var w' := CheckHttpsProxy(cfg, env, w).w;
            && HttpsProxyReady(cfg, w')
            && (w'.c.httpsProxies[cfg.n.tps].certs == [Self(CertKind, w.l.sslCert.value.name)]
                || (cfg.n.tps in w.c.httpsProxies
                    && w'.c.httpsProxies[cfg.n.tps].certs == w.c.httpsProxies[cfg.n.tps].certs))
            && w'.c == w.c.(httpsProxies := w'.c.httpsProxies, writes := w'.c.writes)
            && w'.l == w.l.(tps := Some(cfg.n.tps))
  {
    if Succeeds(env, w.c) { }
  }

  lemma {:induction false} HttpsChecked(cfg: Config, env: Env, w: World)
    requires cfg.n.Valid() && CertNamed(w.l) && cfg.Https() && UrlMapReady(cfg, w) && w.l.um.value.name == cfg.n.um
    requires EdgeHopHttps(cfg, env, w).out == Ok
    ensures var w' := EdgeHopHttps(cfg, env, w).w;
            && HttpsChain(cfg, w') && !OldCertGoes(w'.l)
            && w'.c.urlMaps == w.c.urlMaps && w'.c.httpProxies == w.c.httpProxies && w'.c.addresses == w.c.addresses
            && (forall k :: k != cfg.n.fws ==> RuleAt(w'.c.rules, k) == RuleAt(w.c.rules, k))
            && w'.l.um == w.l.um && w'.l.tp == w.l.tp && w'.l.fw == w.l.fw && w'.l.ip == w.l.ip
            && OnIp(cfg, w'.c, w.l.ip, cfg.n.fws)
  {
    hide CheckSslCert, CheckHttpsProxy, CheckRule;
    CertChecked(cfg, env, w);
    var w1 := CheckSslCert(cfg, env, w).w;
    HttpsProxyChecked(cfg, env, w1);
    var w2 := CheckHttpsProxy(cfg, env, w1).w;
    RuleChecked(env, w2.c, cfg.n.fws, Self(HttpsProxyKind, cfg.n.tps), EffectiveIp(cfg, w2).0, HTTPS_PORTS);
  }

  /** From any fields and any cloud, with resources missing and links wrong, a pass that returns no error leaves a
      complete chain for each enabled protocol. */
  lemma {:induction false} EdgeHopCompletesChain(cfg: Config, env: Env, w: World)
    requires CloudOk(w.c) && CertNamed(w.l) && cfg.n.Valid() && EdgeHop(cfg, env, w).out == Ok
    ensures var w' := EdgeHop(cfg, env, w).w;
            && UrlMapReady(cfg, w')
            && (cfg.allowHttp ==> HttpChain(cfg, w'))
            && (cfg.Https() ==> HttpsChain(cfg, w'))
  {
    hide EdgeHopFront, EdgeHopHttps;
    FrontChain(cfg, env, w);
    if cfg.Https() {
      var w1 := EdgeHopFront(cfg, env, w).w;
      HttpsChecked(cfg, env, w1);
      assert RuleAt(EdgeHop(cfg, env, w).w.c.rules, cfg.n.fw) == RuleAt(w1.c.rules, cfg.n.fw);
    }
  }

  /** Which IP the rules get. The one the user names, if it exists, and then nothing is reserved or recorded; else the
      one recorded, which a pass for both protocols first brings up to date with what is reserved under the name of the
      HTTP rule, or reserves. */
  lemma {:induction false} EdgeHopIps(cfg: Config, env: Env, w: World)
    requires CloudOk(w.c) && CertNamed(w.l) && cfg.n.Valid() && EdgeHop(cfg, env, w).out == Ok
    ensures var w' := EdgeHop(cfg, env, w).w;
            && (cfg.allowHttp ==> cfg.n.fw in w'.c.rules) && (cfg.Https() ==> cfg.n.fws in w'.c.rules)
            && (cfg.staticIpName != "" && cfg.staticIpName in w.c.addresses ==>
                  var ip := w.c.addresses[cfg.staticIpName];
                  && (cfg.allowHttp ==> w'.c.rules[cfg.n.fw].ip == ip)
                  && (cfg.Https() ==> w'.c.rules[cfg.n.fws].ip == ip)
                  && w'.c.addresses == w.c.addresses && w'.l.ip == w.l.ip)
            && (!(cfg.staticIpName != "" && cfg.staticIpName in w.c.addresses) ==>
                  && (cfg.allowHttp && w.l.ip.Some? && w.l.ip.value.ip != "" ==>
                        w'.c.rules[cfg.n.fw].ip == w.l.ip.value.ip)
                  && (cfg.Https() && w'.l.ip.Some? && w'.l.ip.value.ip != "" ==>
                        w'.c.rules[cfg.n.fws].ip == w'.l.ip.value.ip)
                  && Reserves(cfg, w, w'))
  {
    hide EdgeHopFront, EdgeHopHttps;
    FrontChain(cfg, env, w);
    FrontIps(cfg, env, w);
    if cfg.Https() {
      var w1 := EdgeHopFront(cfg, env, w).w;
      HttpsChecked(cfg, env, w1);
      assert RuleAt(EdgeHop(cfg, env, w).w.c.rules, cfg.n.fw) == RuleAt(w1.c.rules, cfg.n.fw);
    }
  }

  /** Of addresses at most one is reserved, under the name of the HTTP rule and with its IP; a record changes only to
      what is reserved there, which it is set to whenever both protocols are on and something is. */
  predicate Reserves(cfg: Config, w: World, w': World) {
    && (w'.c.addresses != w.c.addresses ==>
          && cfg.allowHttp && cfg.Https() && cfg.n.fw !in w.c.addresses && cfg.n.fw in w'.c.rules
          && w'.c.addresses == w.c.addresses[cfg.n.fw := w'.c.rules[cfg.n.fw].ip])
    && (if cfg.allowHttp && cfg.Https() && cfg.n.fw in w'.c.addresses
        then w'.l.ip == Some(Address(cfg.n.fw, w'.c.addresses[cfg.n.fw])) else w'.l.ip == w.l.ip)
  }

  lemma {:induction false} FrontIps(cfg: Config, env: Env, w: World)
    requires CloudOk(w.c) && EdgeHopFront(cfg, env, w).out == Ok
    ensures var w' := EdgeHopFront(cfg, env, w).w;
            && (cfg.allowHttp ==> OnIp(cfg, w.c.(rules := w'.c.rules), w.l.ip, cfg.n.fw))
            && (UserIp(cfg, w.c) ==> w'.c.addresses == w.c.addresses && w'.l.ip == w.l.ip)
            && (!UserIp(cfg, w.c) ==> Reserves(cfg, w, w'))
  {
    hide CheckUrlMap, EdgeHopHttp, CloudOk, AllSucceed, Handsout;
    UrlMapChecked(cfg, env, w);
    UrlMapKeepsOk(cfg, env, w);
    var w1 := CheckUrlMap(cfg, env, w).w;
    if cfg.allowHttp { HttpChecked(cfg, env, w1); }
  }

  // ---------------------------------------------------------------- what the steps leave alone, however they end

  /** Only certificates and what the fields say of them have changed. */
  predicate OnlyCerts(w: World, w': World) {
    && w'.l == w.l.(sslCert := w'.l.sslCert, oldSslCert := w'.l.oldSslCert)
    && w'.c == w.c.(certs := w'.c.certs, writes := w'.c.writes)
  }

  lemma {:induction false} RotateFrame(cfg: Config, env: Env, w: World)
    requires cfg.tls.Some?
    ensures OnlyCerts(w, RotateCert(cfg, env, w).w)
  {
  }

  lemma {:induction false} CertFrame(cfg: Config, env: Env, w: World)
    requires cfg.Https()
    ensures OnlyCerts(w, CheckSslCert(cfg, env, w).w)
  {
    hide Populated, Succeeds, RotateCert;
    if cfg.tls.Some? { RotateFrame(cfg, env, w.(l := w.l.(sslCert := Populated(cfg, w)))); }
  }

  lemma {:induction false} OldFrame(cfg: Config, env: Env, w: World)
    ensures OnlyCerts(w, DeleteOldCert(cfg, env, w).w)
  {
    hide OldCertGoes;
  }

  lemma {:induction false} PointFrame(cfg: Config, env: Env, w: World, cert: Link)
    requires cfg.n.tps in w.c.httpsProxies
    ensures var w' := PointAtCert(cfg, env, w, cert).w;
            w'.c == w.c.(httpsProxies := w'.c.httpsProxies, writes := w'.c.writes) && w'.l == w.l.(tps := w'.l.tps)
  {
    hide SameLink;
  }

  lemma {:induction false} HttpsProxyFrame(cfg: Config, env: Env, w: World)
    ensures var w' := CheckHttpsProxy(cfg, env, w).w;
            w'.c == w.c.(httpsProxies := w'.c.httpsProxies, writes := w'.c.writes) && w'.l == w.l.(tps := w'.l.tps)
  {
    hide PointAtCert, SameLink, Succeeds;
    if w.l.sslCert.Some? && w.l.um.Some? && cfg.n.tps in w.c.httpsProxies {
      var um, cert := Self(UrlMapKind, w.l.um.value.name), Self(CertKind, w.l.sslCert.value.name);
      PointFrame(cfg, env, w, cert);
      var c' := Write(env, w.c,
                      w.c.(httpsProxies := w.c.httpsProxies[cfg.n.tps := w.c.httpsProxies[cfg.n.tps].(urlMap := um)]));
      PointFrame(cfg, env, w.(c := c'), cert);
    }
  }

  /** Everything before the HTTPS side leaves HTTPS proxies, certificates and their fields alone. */
  predicate OnlyFront(w: World, w': World) {
    && w'.c.httpsProxies == w.c.httpsProxies && w'.c.certs == w.c.certs
    && w'.l == w.l.(um := w'.l.um, tp := w'.l.tp, fw := w'.l.fw, ip := w'.l.ip)
  }

  lemma {:induction false} ProxyFrame(cfg: Config, env: Env, w: World)
    ensures OnlyFront(w, CheckProxy(cfg, env, w).w)
  {
    hide SameLink;
  }

  lemma {:induction false} HttpRuleFrame(cfg: Config, env: Env, w: World)
    ensures OnlyFront(w, CheckHttpRule(cfg, env, w).w)
  {
    hide CheckRule;
    if w.l.tp.Some? {
      RuleChecked(env, w.c, cfg.n.fw, Self(HttpProxyKind, w.l.tp.value), EffectiveIp(cfg, w).0, HTTP_PORTS);
    }
  }

  lemma {:induction false} FrontFrame(cfg: Config, env: Env, w: World)
    ensures OnlyFront(w, EdgeHopFront(cfg, env, w).w)
  {
    hide CheckUrlMap, CheckProxy, CheckHttpRule, CheckStaticIp;
    UrlMapFrame(cfg, env, w);
    var w1 := CheckUrlMap(cfg, env, w).w;
    ProxyFrame(cfg, env, w1);
    var w2 := CheckProxy(cfg, env, w1).w;
    HttpRuleFrame(cfg, env, w2);
    StaticIpChecked(cfg, env, CheckHttpRule(cfg, env, w2).w);
  }

  // ---------------------------------------------------------------- only the writes that are made matter

  ghost predicate Agree(env: Env, env': Env, n: nat) {
    env'.freshIp == env.freshIp && forall k: nat :: k < n ==> env'.verdict(k) == env.verdict(k)
  }

  lemma {:induction false} UrlMapLocal(cfg: Config, env: Env, env': Env, w: World)
    requires Agree(env, env', CheckUrlMap(cfg, env, w).w.c.writes)
    ensures CheckUrlMap(cfg, env', w) == CheckUrlMap(cfg, env, w)
    ensures w.c.writes <= CheckUrlMap(cfg, env, w).w.c.writes
  {
  }

  lemma {:induction false} ProxyLocal(cfg: Config, env: Env, env': Env, w: World)
    requires Agree(env, env', CheckProxy(cfg, env, w).w.c.writes)
    ensures CheckProxy(cfg, env', w) == CheckProxy(cfg, env, w)
    ensures w.c.writes <= CheckProxy(cfg, env, w).w.c.writes
  {
    hide SameLink;
  }

  lemma {:induction false} CreateLocal(env: Env, env': Env, c: Cloud, name: string, proxy: Link, ip: string,
                                       ports: string)
    requires Agree(env, env', c.writes + 1)
    ensures CreateRule(env', c, name, proxy, ip, ports) == CreateRule(env, c, name, proxy, ip, ports)
    ensures CreateRule(env, c, name, proxy, ip, ports).c.writes == c.writes + 1
  {
  }

  lemma {:induction false} RuleLocal(env: Env, env': Env, c: Cloud, name: string, proxy: Link, ip: string,
                                     ports: string)
    requires Agree(env, env', CheckRule(env, c, name, proxy, ip, ports).c.writes)
    ensures CheckRule(env', c, name, proxy, ip, ports) == CheckRule(env, c, name, proxy, ip, ports)
    ensures c.writes <= CheckRule(env, c, name, proxy, ip, ports).c.writes
  {
    hide CreateRule, RuleStale, SameLink;
    CreateWrites(env, c, name, proxy, ip, ports);
    var c1 := Write(env, c, c.(rules := c.rules - {name}));
    CreateWrites(env, c1, name, proxy, ip, ports);
    if name !in c.rules { CreateLocal(env, env', c, name, proxy, ip, ports); }
    else if RuleStale(c.rules[name], ip, ports) && Succeeds(env, c) {
      CreateLocal(env, env', c1, name, proxy, ip, ports);
    }
  }

  lemma {:induction false} CreateWrites(env: Env, c: Cloud, name: string, proxy: Link, ip: string, ports: string)
    ensures CreateRule(env, c, name, proxy, ip, ports).c.writes == c.writes + 1
  {
  }

  lemma {:induction false} HttpRuleLocal(cfg: Config, env: Env, env': Env, w: World)
    requires Agree(env, env', CheckHttpRule(cfg, env, w).w.c.writes)
    ensures CheckHttpRule(cfg, env', w) == CheckHttpRule(cfg, env, w)
    ensures w.c.writes <= CheckHttpRule(cfg, env, w).w.c.writes
  {
    hide CheckRule;
    if w.l.tp.Some? {
      RuleLocal(env, env', w.c, cfg.n.fw, Self(HttpProxyKind, w.l.tp.value), EffectiveIp(cfg, w).0, HTTP_PORTS);
    }
  }

  lemma {:induction false} StaticIpLocal(cfg: Config, env: Env, env': Env, w: World)
    requires Agree(env, env', CheckStaticIp(cfg, env, w).w.c.writes)
    ensures CheckStaticIp(cfg, env', w) == CheckStaticIp(cfg, env, w)
    ensures w.c.writes <= CheckStaticIp(cfg, env, w).w.c.writes
  {
    hide EffectiveIp;
  }

  lemma {:induction false} Grows(cfg: Config, env: Env, w: World)
    ensures w.c.writes <= CheckUrlMap(cfg, env, w).w.c.writes && w.c.writes <= CheckProxy(cfg, env, w).w.c.writes
    ensures w.c.writes <= CheckHttpRule(cfg, env, w).w.c.writes && w.c.writes <= CheckStaticIp(cfg, env, w).w.c.writes
  {
    hide CheckUrlMap, CheckProxy, CheckHttpRule, CheckStaticIp;
    UrlMapLocal(cfg, env, env, w);
    ProxyLocal(cfg, env, env, w);
    HttpRuleLocal(cfg, env, env, w);
    StaticIpLocal(cfg, env, env, w);
  }

  /** What happens to writes that are not made does not matter. */
  lemma {:induction false} FrontLocal(cfg: Config, env: Env, env': Env, w: World)
    requires Agree(env, env', EdgeHopFront(cfg, env, w).w.c.writes)
    ensures EdgeHopFront(cfg, env', w) == EdgeHopFront(cfg, env, w)
  {
    hide CheckUrlMap, CheckProxy, CheckHttpRule, CheckStaticIp;
    Grows(cfg, env, w);
    var r1 := CheckUrlMap(cfg, env, w);
    Grows(cfg, env, r1.w);
    var r2 := CheckProxy(cfg, env, r1.w);
    Grows(cfg, env, r2.w);
    var r3 := CheckHttpRule(cfg, env, r2.w);
    Grows(cfg, env, r3.w);
    UrlMapLocal(cfg, env, env', w);
    if r1.out == Ok && cfg.allowHttp {
      ProxyLocal(cfg, env, env', r1.w);
      if r2.out == Ok {
        HttpRuleLocal(cfg, env, env', r2.w);
        if r3.out == Ok && cfg.Https() { StaticIpLocal(cfg, env, env', r3.w); }
      }
    }
  }
}
