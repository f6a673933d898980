/** One load balancer of pkg/loadbalancers/loadbalancers.go: its fields, the cloud, and the edge hop that
    builds or repairs forwarding rule -> proxy -> url map, as functions of both and of the environment. */
module L7World {
  import opened Text
  import opened L7Cloud
  import Namer

  datatype Cert = Cert(name: string, content: string)
  datatype Fw = Fw(name: string, ip: string)
  datatype Address = Address(name: string, ip: string)

  /** The fields the load balancer object updates in place. */
  datatype L7 = L7(um: Option<UrlMap>, tp: Option<string>, tps: Option<string>, fw: Option<Fw>, fws: Option<Fw>,
                   ip: Option<Address>, sslCert: Option<Cert>, oldSslCert: Option<Cert>)

  const NewL7 := L7(None, None, None, None, None, None, None, None)

  datatype LbNames = LbNames(um: string, tp: string, tps: string, fw: string, fws: string, primary: string,
    secondary: string) {
    predicate Valid() { fw != fws && primary != secondary && primary != "" && secondary != "" }

    /** The two names flip-flop: never the one in use. */
    function Next(current: Option<Cert>): (name: string) {
      if current.Some? && current.value.name == primary then secondary else primary
    }
  }

  function NamesOf(lb: string): (n: LbNames) {
    LbNames(Namer.UrlMapName(lb), Namer.HttpProxyName(lb), Namer.HttpsProxyName(lb), Namer.HttpRuleName(lb),
            Namer.HttpsRuleName(lb), Namer.SslCertName(lb, true), Namer.SslCertName(lb, false))
  }

  /** How the resources of a load balancer with a name of up to 52 characters are called. */
  lemma {:induction false} NamesSpelled(lb: string)
    requires |lb| <= 52
    ensures NamesOf(lb) == LbNames("k8s-um-" + lb, "k8s-tp-" + lb, "k8s-tps-" + lb, "k8s-fw-" + lb, "k8s-fws-" + lb,
                                   "k8s-ssl-" + lb, "k8s-ssl-1-" + lb)
  {
  }

  /** The names derived from a load balancer name never clash, except for the over-long names that
      start with `1-` repeated throughout. */
  lemma {:induction false} NamesValidIff(lb: string)
    ensures NamesOf(lb).Valid() <==> !(|lb| > 54 && Namer.Alternating(lb[..54]))
  {
    Namer.RuleNamesDiffer(lb);
    Namer.SslCertNamesCollideIff(lb);
  }

  /** What the load balancer is asked to be; `tls` is the certificate of the secret. */
  datatype Config = Config(n: LbNames, backend: Option<Link>, allowHttp: bool, tls: Option<string>, tlsName: string,
                           staticIpName: string) {
    predicate Https() { tls.Some? || tlsName != "" }
  }

  datatype World = World(l: L7, c: Cloud)
  datatype Outcome = Ok | Err | Panic
  datatype Res = Res(w: World, out: Outcome)

  const HTTP_PORTS := "80-80"
  const HTTPS_PORTS := "443-443"

  // ---------------------------------------------------------------- the checks

  function CheckUrlMap(cfg: Config, env: Env, w: World): (r: Res) {
    if cfg.backend.None? then Res(w, Err)
    else if cfg.n.um in w.c.urlMaps then Res(w.(l := w.l.(um := Some(w.c.urlMaps[cfg.n.um]))), Ok)
    else
      var um := UrlMap(cfg.n.um, cfg.backend.value, [], []);
      var c' := Write(env, w.c, w.c.(urlMaps := w.c.urlMaps[cfg.n.um := um]));
      if !Succeeds(env, w.c) then Res(w.(c := c'), Err) else Res(World(w.l.(um := Some(um)), c'), Ok)
  }

  function CheckProxy(cfg: Config, env: Env, w: World): (r: Res) {
    if w.l.um.None? then Res(w, Err)
    else
      var link := Self(UrlMapKind, w.l.um.value.name);
      if cfg.n.tp in w.c.httpProxies && SameLink(w.c.httpProxies[cfg.n.tp], link) then
        Res(w.(l := w.l.(tp := Some(cfg.n.tp))), Ok)
      else // created, or pointed at the right url map
        var c' := Write(env, w.c, w.c.(httpProxies := w.c.httpProxies[cfg.n.tp := link]));
        if !Succeeds(env, w.c) then Res(w.(c := c'), Err) else Res(World(w.l.(tp := Some(cfg.n.tp)), c'), Ok)
  }

  /** The IP for both forwarding rules, and whether the controller manages it. */
  function EffectiveIp(cfg: Config, w: World): (r: (string, bool)) {
    if cfg.staticIpName != "" && cfg.staticIpName in w.c.addresses then (w.c.addresses[cfg.staticIpName], false)
    else if w.l.ip.Some? then (w.l.ip.value.ip, true)
    else ("", true)
  }

  datatype RuleRes = RuleRes(c: Cloud, fw: Option<Fw>)

  predicate RuleStale(r: Rule, ip: string, ports: string) { (ip != "" && r.ip != ip) || r.portRange != ports }

  function CreateRule(env: Env, c: Cloud, name: string, proxy: Link, ip: string, ports: string): (r: RuleRes) {
    var rule := Rule(if ip == "" then env.freshIp(c.writes) else ip, proxy, ports);
    var c' := Write(env, c, c.(rules := c.rules[name := rule]));
    if Succeeds(env, c) then RuleRes(c', Some(Fw(name, rule.ip))) else RuleRes(c', None)
  }

  /** Keeps, repoints or recreates a forwarding rule; no rule in the result means an error. */
  function CheckRule(env: Env, c: Cloud, name: string, proxy: Link, ip: string, ports: string): (r: RuleRes) {
    if name !in c.rules then CreateRule(env, c, name, proxy, ip, ports)
    else if RuleStale(c.rules[name], ip, ports) then
      var c' := Write(env, c, c.(rules := c.rules - {name}));
      if !Succeeds(env, c) then RuleRes(c', None) else CreateRule(env, c', name, proxy, ip, ports)
    else if SameLink(c.rules[name].target, proxy) then RuleRes(c, Some(Fw(name, c.rules[name].ip)))
    else
      var c' := Write(env, c, c.(rules := c.rules[name := c.rules[name].(target := proxy)]));
      if Succeeds(env, c) then RuleRes(c', Some(Fw(name, c.rules[name].ip))) else RuleRes(c', None)
  }

  function CheckHttpRule(cfg: Config, env: Env, w: World): (r: Res) {
    if w.l.tp.None? then Res(w, Err)
    else
      var rr := CheckRule(env, w.c, cfg.n.fw, Self(HttpProxyKind, w.l.tp.value), EffectiveIp(cfg, w).0, HTTP_PORTS);
      if rr.fw.None? then Res(w.(c := rr.c), Err) else Res(World(w.l.(fw := rr.fw), rr.c), Ok)
  }

  function CheckHttpsRule(cfg: Config, env: Env, w: World): (r: Res) {
    if w.l.tps.None? then Res(w, Ok)
    else
      var rr := CheckRule(env, w.c, cfg.n.fws, Self(HttpsProxyKind, w.l.tps.value), EffectiveIp(cfg, w).0, HTTPS_PORTS);
      if rr.fw.None? then Res(w.(c := rr.c), Err) else Res(World(w.l.(fws := rr.fw), rr.c), Ok)
  }

  /** Reserves the IP of the HTTP rule so that the HTTPS rule can share it. */
  function CheckStaticIp(cfg: Config, env: Env, w: World): (r: Res) {
    if w.l.fw.None? || w.l.fw.value.ip == "" then Res(w, Err)
    else if !EffectiveIp(cfg, w).1 then Res(w, Ok)
    else if cfg.n.fw in w.c.addresses then
      Res(w.(l := w.l.(ip := Some(Address(cfg.n.fw, w.c.addresses[cfg.n.fw])))), Ok)
    else
      var ip := w.l.fw.value.ip;
      var c' := Write(env, w.c, w.c.(addresses := w.c.addresses[cfg.n.fw := ip]));
      match env.verdict(w.c.writes)
      case Done => Res(World(w.l.(ip := Some(Address(cfg.n.fw, ip))), c'), Ok)
      case Conflict => Res(w.(c := c'), Ok) // already reserved, assumed fine to use
      case Failed => Res(w.(c := c'), Err)
  }

  function CertInUse(cfg: Config, c: Cloud): (link: Link) {
    if cfg.n.tps in c.httpsProxies
      && c.httpsProxies[cfg.n.tps].certs != [] then c.httpsProxies[cfg.n.tps].certs[0] else NoLink
  }

  function GetCert(c: Cloud, name: string): (r: Option<Cert>) {
    if name in c.certs then Some(Cert(name, c.certs[name])) else None
  }

  /** The certificate to compare with: the recorded one, else the one the proxy uses, as the cloud has it. */
  function Populated(cfg: Config, w: World): (r: Option<Cert>) {
    var expected := if w.l.sslCert.Some? then w.l.sslCert.value.name else NameInLink(CertInUse(cfg, w.c));
    if expected == "" then w.l.sslCert else GetCert(w.c, expected)
  }

  function CheckSslCert(cfg: Config, env: Env, w: World): (r: Res)
    requires cfg.Https()
  {
    if cfg.tlsName != "" then
      var cert := GetCert(w.c, cfg.tlsName);
      if cert.None? then Res(w, Err) else Res(w.(l := w.l.(sslCert := cert)), Ok)
    else
      var current := Populated(cfg, w);
      var w1 := w.(l := w.l.(sslCert := current));
      if current.Some? && current.value.content == cfg.tls.value then Res(w1, Ok)
      else RotateCert(cfg, env, w1)
  }

  /** Deletes whatever holds the next name, creates the certificate under it, remembers the old one. */
  function RotateCert(cfg: Config, env: Env, w: World): (r: Res)
    requires cfg.tls.Some?
  {
    var name := cfg.n.Next(w.l.sslCert);
    var c1 := Write(env, w.c, w.c.(certs := w.c.certs - {name}));
    if !Succeeds(env, w.c) then Res(w.(c := c1), Err)
    else
      var c2 := Write(env, c1, c1.(certs := c1.certs[name := cfg.tls.value]));
      if !Succeeds(env, c1) then Res(w.(c := c2), Err)
      else Res(World(w.l.(oldSslCert := w.l.sslCert, sslCert := Some(Cert(name, cfg.tls.value))), c2), Ok)
  }

  function CheckHttpsProxy(cfg: Config, env: Env, w: World): (r: Res) {
    if w.l.sslCert.None? then Res(w, Ok)
    else if w.l.um.None? then Res(w, Err)
    else
      var um, cert := Self(UrlMapKind, w.l.um.value.name), Self(CertKind, w.l.sslCert.value.name);
      if cfg.n.tps !in w.c.httpsProxies then
        var c' := Write(env, w.c, w.c.(httpsProxies := w.c.httpsProxies[cfg.n.tps := HttpsProxy(um, [cert])]));
        if !Succeeds(env, w.c) then Res(w.(c := c'), Err) else Res(World(w.l.(tps := Some(cfg.n.tps)), c'), Ok)
      else if SameLink(w.c.httpsProxies[cfg.n.tps].urlMap, um) then PointAtCert(cfg, env, w, cert)
      else
        var c' := Write(env, w.c,
          w.c.(httpsProxies := w.c.httpsProxies[cfg.n.tps := w.c.httpsProxies[cfg.n.tps].(urlMap := um)]));
        if !Succeeds(env, w.c) then Res(w.(c := c'), Err) else PointAtCert(cfg, env, w.(c := c'), cert)
  }

  function PointAtCert(cfg: Config, env: Env, w: World, cert: Link): (r: Res)
    requires cfg.n.tps in w.c.httpsProxies
  {
    var proxy := w.c.httpsProxies[cfg.n.tps];
    if proxy.certs == [] then Res(w, Panic) // index out of range
    else if SameLink(proxy.certs[0], cert) then Res(w.(l := w.l.(tps := Some(cfg.n.tps))), Ok)
    else
      var c' := Write(env, w.c, w.c.(httpsProxies := w.c.httpsProxies[cfg.n.tps := proxy.(certs := [cert])]));
      if !Succeeds(env, w.c) then Res(w.(c := c'), Err) else Res(World(w.l.(tps := Some(cfg.n.tps)), c'), Ok)
  }

  predicate OldCertGoes(l: L7) {
    && l.oldSslCert.Some? && l.sslCert.Some? && l.oldSslCert.value.name != l.sslCert.value.name
    && Namer.IsSslCert(l.oldSslCert.value.name)
  }

  function DeleteOldCert(cfg: Config, env: Env, w: World): (r: Res) {
    if !OldCertGoes(w.l) then Res(w, Ok)
    else
      var c' := Write(env, w.c, w.c.(certs := w.c.certs - {w.l.oldSslCert.value.name}));
      if !Succeeds(env, w.c) then Res(w.(c := c'), Err) else Res(World(w.l.(oldSslCert := None), c'), Ok)
  }

  // ---------------------------------------------------------------- the edge hop

  function EdgeHopHttp(cfg: Config, env: Env, w: World): (r: Res) {
    var r1 := CheckProxy(cfg, env, w);
    if r1.out != Ok then r1 else CheckHttpRule(cfg, env, r1.w)
  }

  function EdgeHopHttps(cfg: Config, env: Env, w: World): (r: Res)
    requires cfg.Https()
  {
    var r1 := CheckSslCert(cfg, env, w);
    if r1.out != Ok then r1 else
    var r2 := CheckHttpsProxy(cfg, env, r1.w);
    if r2.out != Ok then r2 else
    var r3 := CheckHttpsRule(cfg, env, r2.w);
    if r3.out != Ok then r3 else DeleteOldCert(cfg, env, r3.w)
  }

  /** Everything before the HTTPS side: url map, HTTP side, static IP. */
  function EdgeHopFront(cfg: Config, env: Env, w: World): (r: Res) {
    var r1 := CheckUrlMap(cfg, env, w);
    if r1.out != Ok || !cfg.allowHttp then r1 else
    var r2 := EdgeHopHttp(cfg, env, r1.w);
    if r2.out != Ok || !cfg.Https() then r2 else CheckStaticIp(cfg, env, r2.w)
  }

  function EdgeHop(cfg: Config, env: Env, w: World): (r: Res) {
    var r1 := EdgeHopFront(cfg, env, w);
    if r1.out != Ok || !cfg.Https() then r1 else EdgeHopHttps(cfg, env, r1.w)
  }
}
