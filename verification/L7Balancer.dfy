/** The load balancer object of pkg/loadbalancers/loadbalancers.go: fields updated step by step against the
    cloud. Each method is proved against the function of the same name, or states outright what it achieves. */
module L7Balancer {
  import opened Text
  import opened L7Cloud
  import W = L7World
  import C = L7Cleanup
  import R = Routing
  import I = Ingresses
  import E = L7EdgeHop
  import L = L7Lifecycle
  import Namer

  class LoadBalancer {
    const env: Env
    var cfg: W.Config
    var um: Option<UrlMap>
    var tp: Option<string>
    var tps: Option<string>
    var fw: Option<W.Fw>
    var fws: Option<W.Fw>
    var ip: Option<W.Address>
    var sslCert: Option<W.Cert>
    var oldSslCert: Option<W.Cert>
    var cloud: Cloud

    ghost function Now(): (w: W.World)
      reads this
    {
      W.World(W.L7(um, tp, tps, fw, fws, ip, sslCert, oldSslCert), cloud)
    }

    constructor (cfg: W.Config, env: Env, cloud: Cloud)
      ensures Now() == W.World(W.NewL7, cloud) && this.cfg == cfg && this.env == env
    {
      this.cfg, this.env, this.cloud := cfg, env, cloud;
      um, tp, tps, fw, fws, ip, sslCert, oldSslCert := None, None, None, None, None, None, None, None;
    }

    /** A write call to the cloud. */
    method Commit(effect: Cloud) returns (ok: bool)
      modifies this`cloud
      ensures cloud == Write(env, old(cloud), effect) && ok == Succeeds(env, old(cloud))
    {
      ok := env.verdict(cloud.writes) == Done;
      if ok {
        cloud := effect.(writes := cloud.writes + 1);
      } else {
        cloud := cloud.(writes := cloud.writes + 1);
      }
    }

    method CheckUrlMap() returns (out: W.Outcome)
      modifies this`um, this`cloud
      ensures W.Res(Now(), out) == W.CheckUrlMap(cfg, env, old(Now()))
    {
      if cfg.backend.None? {
        return W.Err;
      }
      if cfg.n.um in cloud.urlMaps {
        um := Some(cloud.urlMaps[cfg.n.um]);
        return W.Ok;
      }
      var newMap := UrlMap(cfg.n.um, cfg.backend.value, [], []);
      var ok := Commit(cloud.(urlMaps := cloud.urlMaps[cfg.n.um := newMap]));
      if !ok {
        return W.Err;
      }
      um := Some(cloud.urlMaps[cfg.n.um]);
      return W.Ok;
    }

    method CheckProxy() returns (out: W.Outcome)
      modifies this`tp, this`cloud
      ensures W.Res(Now(), out) == W.CheckProxy(cfg, env, old(Now()))
    {
      if um.None? {
        return W.Err;
      }
      var link := Self(UrlMapKind, um.value.name);
      if cfg.n.tp !in cloud.httpProxies || !SameLink(cloud.httpProxies[cfg.n.tp], link) {
        var ok := Commit(cloud.(httpProxies := cloud.httpProxies[cfg.n.tp := link]));
        if !ok {
          return W.Err;
        }
      }
      tp := Some(cfg.n.tp);
      return W.Ok;
    }

    method CheckForwardingRule(name: string, proxy: Link, addr: string, ports: string) returns (r: Option<W.Fw>)
      modifies this`cloud
      ensures W.RuleRes(cloud, r) == W.CheckRule(env, old(cloud), name, proxy, addr, ports)
    {
      hide W.RuleStale, SameLink;
      if name in cloud.rules && W.RuleStale(cloud.rules[name], addr, ports) {
        var ok := Commit(cloud.(rules := cloud.rules - {name}));
        if !ok {
          return None;
        }
      }
      if name !in cloud.rules {
        var rule := Rule(if addr == "" then env.freshIp(cloud.writes) else addr, proxy, ports);
        var ok := Commit(cloud.(rules := cloud.rules[name := rule]));
        if !ok {
          return None;
        }
        return Some(W.Fw(name, rule.ip));
      }
      var found := cloud.rules[name];
      if !SameLink(found.target, proxy) {
        var ok := Commit(cloud.(rules := cloud.rules[name := found.(target := proxy)]));
        if !ok {
          return None;
        }
      }
      return Some(W.Fw(name, found.ip));
    }

    method GetEffectiveIp() returns (addr: string, managed: bool)
      ensures (addr, managed) == W.EffectiveIp(cfg, Now())
    {
      if cfg.staticIpName != "" {
        if cfg.staticIpName in cloud.addresses {
          return cloud.addresses[cfg.staticIpName], false;
        }
      }
      if ip.Some? {
        return ip.value.ip, true;
      }
      return "", true;
    }

    method CheckHttpForwardingRule() returns (out: W.Outcome)
      modifies this`fw, this`cloud
      ensures W.Res(Now(), out) == W.CheckHttpRule(cfg, env, old(Now()))
    {
      if tp.None? {
        return W.Err;
      }
      var addr, _ := GetEffectiveIp();
      var r := CheckForwardingRule(cfg.n.fw, Self(HttpProxyKind, tp.value), addr, W.HTTP_PORTS);
      if r.None? {
        return W.Err;
      }
      fw := r;
      return W.Ok;
    }

    method CheckHttpsForwardingRule() returns (out: W.Outcome)
      modifies this`fws, this`cloud
      ensures W.Res(Now(), out) == W.CheckHttpsRule(cfg, env, old(Now()))
    {
      if tps.None? {
        return W.Ok;
      }
      var addr, _ := GetEffectiveIp();
      var r := CheckForwardingRule(cfg.n.fws, Self(HttpsProxyKind, tps.value), addr, W.HTTPS_PORTS);
      if r.None? {
        return W.Err;
      }
      fws := r;
      return W.Ok;
    }

    method CheckStaticIp() returns (out: W.Outcome)
      modifies this`ip, this`cloud
      ensures W.Res(Now(), out) == W.CheckStaticIp(cfg, env, old(Now()))
    {
      if fw.None? || fw.value.ip == "" {
        return W.Err;
      }
      var _, managed := GetEffectiveIp();
      if !managed {
        return W.Ok;
      }
      if cfg.n.fw !in cloud.addresses {
        var verdict := env.verdict(cloud.writes);
        var ok := Commit(cloud.(addresses := cloud.addresses[cfg.n.fw := fw.value.ip]));
        if !ok {
          return if verdict == Conflict then W.Ok else W.Err;
        }
      }
      ip := Some(W.Address(cfg.n.fw, cloud.addresses[cfg.n.fw]));
      return W.Ok;
    }

    method PopulateSslCert()
      modifies this`sslCert
      ensures sslCert == W.Populated(cfg, old(Now()))
    {
      var expected := if sslCert.Some? then sslCert.value.name else NameInLink(W.CertInUse(cfg, cloud));
      if expected != "" {
        sslCert := W.GetCert(cloud, expected);
      }
    }

    method CheckSslCert() returns (out: W.Outcome)
      requires cfg.Https()
      modifies this`sslCert, this`oldSslCert, this`cloud
      ensures W.Res(Now(), out) == W.CheckSslCert(cfg, env, old(Now()))
    {
      if cfg.tlsName != "" {
        var cert := W.GetCert(cloud, cfg.tlsName);
        if cert.None? {
          return W.Err;
        }
        sslCert := cert;
        return W.Ok;
      }
      PopulateSslCert();
      if sslCert.Some? && sslCert.value.content == cfg.tls.value {
        return W.Ok;
      }
      var name := cfg.n.Next(sslCert);
      var ok := Commit(cloud.(certs := cloud.certs - {name}));
      if !ok {
        return W.Err;
      }
      ok := Commit(cloud.(certs := cloud.certs[name := cfg.tls.value]));
      if !ok {
        return W.Err;
      }
      oldSslCert := sslCert;
      sslCert := Some(W.Cert(name, cfg.tls.value));
      return W.Ok;
    }

    method CheckHttpsProxy() returns (out: W.Outcome)
      modifies this`tps, this`cloud
      ensures W.Res(Now(), out) == W.CheckHttpsProxy(cfg, env, old(Now()))
    {
      if sslCert.None? {
        return W.Ok;
      }
      if um.None? {
        return W.Err;
      }
      var link, cert := Self(UrlMapKind, um.value.name), Self(CertKind, sslCert.value.name);
      if cfg.n.tps !in cloud.httpsProxies {
        var ok := Commit(cloud.(httpsProxies := cloud.httpsProxies[cfg.n.tps := HttpsProxy(link, [cert])]));
        if !ok {
          return W.Err;
        }
        tps := Some(cfg.n.tps);
        return W.Ok;
      }
      if !SameLink(cloud.httpsProxies[cfg.n.tps].urlMap, link) {
        var proxies := cloud.httpsProxies[cfg.n.tps := cloud.httpsProxies[cfg.n.tps].(urlMap := link)];
        var ok := Commit(cloud.(httpsProxies := proxies));
        if !ok {
          return W.Err;
        }
      }
      var proxy := cloud.httpsProxies[cfg.n.tps];
      if proxy.certs == [] {
        return W.Panic;
      }
      if !SameLink(proxy.certs[0], cert) {
        var ok := Commit(cloud.(httpsProxies := cloud.httpsProxies[cfg.n.tps := proxy.(certs := [cert])]));
        if !ok {
          return W.Err;
        }
      }
      tps := Some(cfg.n.tps);
      return W.Ok;
    }

    method DeleteOldSslCert() returns (out: W.Outcome)
      modifies this`oldSslCert, this`cloud
      ensures W.Res(Now(), out) == W.DeleteOldCert(cfg, env, old(Now()))
    {
      if oldSslCert.None? || sslCert.None? || oldSslCert.value.name == sslCert.value.name
         || !Namer.IsSslCert(oldSslCert.value.name) {
        return W.Ok;
      }
      var ok := Commit(cloud.(certs := cloud.certs - {oldSslCert.value.name}));
      if !ok {
        return W.Err;
      }
      oldSslCert := None;
      return W.Ok;
    }

    method EdgeHopHttp() returns (out: W.Outcome)
      modifies this`tp, this`fw, this`cloud
      ensures W.Res(Now(), out) == W.EdgeHopHttp(cfg, env, old(Now()))
    {
      hide W.CheckProxy, W.CheckHttpRule;
      out := CheckProxy();
      if out != W.Ok {
        return;
      }
      out := CheckHttpForwardingRule();
    }

    method EdgeHopHttps() returns (out: W.Outcome)
      requires cfg.Https()
      modifies this`sslCert, this`oldSslCert, this`tps, this`fws, this`cloud
      ensures W.Res(Now(), out) == W.EdgeHopHttps(cfg, env, old(Now()))
    {
      hide W.CheckSslCert, W.CheckHttpsProxy, W.CheckHttpsRule, W.DeleteOldCert;
      out := CheckSslCert();
      if out != W.Ok {
        return;
      }
      out := CheckHttpsProxy();
      if out != W.Ok {
        return;
      }
      out := CheckHttpsForwardingRule();
      if out != W.Ok {
        return;
      }
      out := DeleteOldSslCert();
    }

    method EdgeHop() returns (out: W.Outcome)
      modifies this`um, this`tp, this`tps, this`fw, this`fws, this`ip, this`sslCert, this`oldSslCert, this`cloud
      ensures W.Res(Now(), out) == W.EdgeHop(cfg, env, old(Now()))
      ensures cfg.n.Valid() && L.Sound(cfg, old(Now())) ==> L.Keeps(cfg, old(Now()), Now())
      ensures cfg.n.Valid() && E.CloudOk(old(cloud)) && E.CertNamed(old(Now()).l) && out == W.Ok ==>
                && E.UrlMapReady(cfg, Now())
                && (cfg.allowHttp ==> E.HttpChain(cfg, Now())) && (cfg.Https() ==> E.HttpsChain(cfg, Now()))
    {
      hide W.CheckUrlMap, W.EdgeHopHttp, W.CheckStaticIp, W.EdgeHopHttps, L.Sound, L.Keeps, E.CloudOk, E.UrlMapReady,
        E.HttpChain, E.HttpsChain;
      if cfg.n.Valid() && L.Sound(cfg, Now()) { L.PassHeld(cfg, env, Now()); }
      if cfg.n.Valid() && E.CloudOk(cloud) && E.CertNamed(Now().l) && W.EdgeHop(cfg, env, Now()).out == W.Ok {
        E.EdgeHopCompletesChain(cfg, env, Now());
      }
      out := CheckUrlMap();
      if out != W.Ok {
        return;
      }
      if cfg.allowHttp {
        out := EdgeHopHttp();
        if out != W.Ok {
          return;
        }
      }
      if cfg.allowHttp && cfg.Https() {
        out := CheckStaticIp();
        if out != W.Ok {
          return;
        }
      }
      if cfg.Https() {
        out := EdgeHopHttps();
      }
    }

    // -------------------------------------------------------------- tear-down

    /** One step of Cleanup: delete what the field records, then clear the field. */
    method DeleteStage(s: C.Stage) returns (out: W.Outcome)
      modifies this`um, this`tp, this`tps, this`fw, this`fws, this`ip, this`sslCert, this`cloud
      ensures W.Res(Now(), out) == C.DoStage(cfg, env, old(Now()), s)
    {
      if !C.Recorded(cfg, W.L7(um, tp, tps, fw, fws, ip, sslCert, oldSslCert), s) {
        return W.Ok;
      }
      var gone := match s
        case HttpRule => cloud.(rules := cloud.rules - {fw.value.name})
        case HttpsRule => cloud.(rules := cloud.rules - {fws.value.name})
        case StaticIp => cloud.(addresses := cloud.addresses - {ip.value.name})
        case HttpsProxyStage => cloud.(httpsProxies := cloud.httpsProxies - {tps.value})
        case Certificate => cloud.(certs := cloud.certs - {sslCert.value.name})
        case HttpProxy => cloud.(httpProxies := cloud.httpProxies - {tp.value})
        case Map => cloud.(urlMaps := cloud.urlMaps - {um.value.name});
      var ok := Commit(gone);
      if !ok {
        return W.Err;
      }
      match s {
        case HttpRule => fw := None;
        case HttpsRule => fws := None;
        case StaticIp => ip := None;
        case HttpsProxyStage => tps := None;
        case Certificate => sslCert := None;
        case HttpProxy => tp := None;
        case Map => um := None;
      }
      return W.Ok;
    }

    method Cleanup() returns (out: W.Outcome)
      modifies this`um, this`tp, this`tps, this`fw, this`fws, this`ip, this`sslCert, this`cloud
      ensures W.Res(Now(), out) == C.Cleanup(cfg, env, old(Now()))
      ensures C.AllRecorded(cfg, old(Now())) ==>
                C.AllRecorded(cfg, Now()) && (C.NoDangling(cfg, old(Now())) ==> C.NoDangling(cfg, Now()))
      ensures C.AllRecorded(cfg, old(Now())) && out == W.Ok ==> C.Clear(cfg.n, cloud)
      ensures out == W.Ok ==> C.RemainsExactly(cfg, old(Now()), cloud)
    {
      hide C.DoStage, C.CleanupFrom, C.AllRecorded, C.NoDangling, C.Clear, C.RemainsExactly, C.Reaped;
      C.RemainsAfterCleanup(cfg, env, Now());
      if C.AllRecorded(cfg, Now()) {
        C.CleanupSafe(cfg, env, Now());
      }
      C.CleanupStep(cfg, env, Now(), 0);
      out := DeleteStage(C.HttpRule);
      if out != W.Ok {
        return;
      }
      C.CleanupStep(cfg, env, Now(), 1);
      out := DeleteStage(C.HttpsRule);
      if out != W.Ok {
        return;
      }
      C.CleanupStep(cfg, env, Now(), 2);
      out := DeleteStage(C.StaticIp);
      if out != W.Ok {
        return;
      }
      C.CleanupStep(cfg, env, Now(), 3);
      out := DeleteStage(C.HttpsProxyStage);
      if out != W.Ok {
        return;
      }
      C.CleanupStep(cfg, env, Now(), 4);
      out := DeleteStage(C.Certificate);
      if out != W.Ok {
        return;
      }
      C.CleanupStep(cfg, env, Now(), 5);
      out := DeleteStage(C.HttpProxy);
      if out != W.Ok {
        return;
      }
      C.CleanupStep(cfg, env, Now(), 6);
      out := DeleteStage(C.Map);
    }

    // -------------------------------------------------------------- url map contents

    /** The url map sends every path of every host where the nested maps ask, or to the default. */
    ghost predicate Routes(name: string, g: R.GceUrlMap, default: Link)
      reads this
    {
      name in cloud.urlMaps
      && forall host, path :: R.Route(cloud.urlMaps[name], host, path) == R.Wanted(g, default, host, path)
    }

    /** Puts the nested maps in the url map of the cloud, writing only if it holds something else. On success the
        cloud routes as asked whether or not a write was made; no call touches anything but this url map. */
    method UpdateUrlMap(md5: string -> string, rules: R.GceUrlMap) returns (out: W.Outcome)
      requires R.NoCollision(md5, (rules - {R.DEFAULT_BACKEND_KEY}).Keys)
      requires forall h :: h in rules && h != R.DEFAULT_BACKEND_KEY ==> R.NoNil(rules[h])
      modifies this`um, this`cloud
      ensures um.Some? == old(um).Some? && (um.Some? ==> um.value.name == old(um.value.name))
      ensures out == W.Panic <==> um.Some? && R.DefaultIn(rules).None? && cfg.backend.None?
      ensures um.None? ==> out == W.Err
      ensures var was := old(cloud); var key := if um.Some? then {um.value.name} else {};
              cloud == was.(writes := cloud.writes, urlMaps := cloud.urlMaps)
                && cloud.urlMaps - key == was.urlMaps - key
      ensures out != W.Ok ==> cloud.urlMaps == old(cloud.urlMaps)
      // an event of a run, see L7Lifecycle
      ensures out != W.Panic ==> exists content, written, calls ::
                Now() == L.Remapped(old(Now()), content, written, calls)
      ensures out == W.Ok ==>
                Routes(um.value.name, rules - {R.DEFAULT_BACKEND_KEY}, R.DefaultOr(rules, cfg.backend))
    {
      ghost var was := Now();
      if um.None? {
        assert Now() == L.Remapped(was, UrlMap("", NoLink, [], []), false, 0);
        return W.Err;
      }
      var d, g := R.GetDefaultBackend(rules);
      if d.None? && cfg.backend.None? {
        return W.Panic;
      }
      var name := um.value.name;
      var default := if d.Some? then d.value else cfg.backend.value;
      var fresh' := R.BuildUrlMap(md5, name, default, g);
      um := Some(fresh');
      if name in cloud.urlMaps {
        var same := R.MapsEqual(cloud.urlMaps[name], fresh');
        if same {
          assert Now() == L.Remapped(was, fresh', false, 0);
          return W.Ok;
        }
      }
      if name !in cloud.urlMaps {
        cloud := cloud.(writes := cloud.writes + 1); // updating a map that is not there fails
        assert Now() == L.Remapped(was, fresh', false, 1);
        return W.Err;
      }
      var ok := Commit(cloud.(urlMaps := cloud.urlMaps[name := fresh']));
      if !ok {
        assert Now() == L.Remapped(was, fresh', false, 1);
        return W.Err;
      }
      um := Some(cloud.urlMaps[name]);
      assert Now() == L.Remapped(was, fresh', true, 1);
      return W.Ok;
    }

    /** From an ingress to the cloud: translation and update together. On success every path of every host but the
        reserved DefaultBackend goes where the ingress asks, and where it does not ask, to its default backend or else
        to the system's; so does all of DefaultBackend (ServedAsAskedIff). */
    method RouteIngress(md5: string -> string, store: I.Store, links: I.BackendLinks,
                        ing: I.Ingress) returns (out: W.Outcome)
      requires R.NoCollision(md5, I.Hosts(ing.rules))
      modifies this`um, this`cloud
      ensures var target := (be: I.Backend) => I.ToGceBackend(store, links, ing.namespace, be);
              && (I.RulesFatal(target, ing.rules) ==> out == W.Err && cloud == old(cloud))
              && (out != W.Ok ==> cloud.urlMaps == old(cloud.urlMaps))
              && (out == W.Ok ==> um.Some? && old(um).Some? && um.value.name == old(um).value.name)
              && (out == W.Ok ==> um.value.name in cloud.urlMaps)
              && (out == W.Ok ==> forall host, path :: R.Route(cloud.urlMaps[um.value.name], host, path) ==
                                                       I.Destination(target, ing, cfg.backend, host, path))
      ensures (exists i, j :: I.PathBroken(store, links, ing, i, j)) ==> out == W.Err && cloud == old(cloud)
      // said of node ports: by the rule and path that decide, else by the default backend, else to the system's default
      ensures out == W.Ok ==>
                forall host, path :: I.SentTo(store, links, ing, cfg.backend, host, path,
                                              R.Route(cloud.urlMaps[um.value.name], host, path))
    {
      hide I.SentTo, I.Destination, R.Route, I.PathBroken;
      var target := (be: I.Backend) => I.ToGceBackend(store, links, ing.namespace, be);
      I.FatalIff(store, links, ing, target);
      var r := I.ToUrlMap(target, ing);
      if r.None? {
        return W.Err;
      }
      ghost var g :| I.MapFor(target, ing.rules, g) && r.value == R.PutDefaultBackend(g, I.UserDefault(target, ing));
      I.HostsOfMap(target, ing.rules, g);
      out := UpdateUrlMap(md5, r.value);
      if out == W.Ok {
        forall host, path
          ensures var link := R.Route(cloud.urlMaps[um.value.name], host, path);
                  link == I.Destination(target, ing, cfg.backend, host, path)
                  && I.SentTo(store, links, ing, cfg.backend, host, path, link) {
          I.WantedIsAsked(target, ing, cfg.backend, g, host, path);
          I.DestinationIs(store, links, ing, cfg.backend, host, path, target);
        }
      }
    }
  }
}
