/** When reserving the IP of the HTTP rule is answered by a conflict, the pass goes on without a recorded address, and
    the HTTPS rule is not asked to take the IP of the HTTP rule. */
module L7Conflict {
  import opened Text
  import opened L7Cloud
  import opened L7World
  import opened L7EdgeHop
  import opened L7Settles
  import opened L7Remains
  import R = L7Certificates

  /** The rule is there and a pass without a requested IP leaves it its own. */
  predicate Standing(c: Cloud, name: string, ports: string) { name in c.rules && c.rules[name].portRange == ports }

  /** The IPs handed out are new: different from each other and from those of the two rules. */
  ghost predicate NewIps(env: Env, c: Cloud, n: LbNames) {
    && (forall i, k :: env.freshIp(i) == env.freshIp(k) ==> i == k)
    && (forall k :: (n.fw in c.rules ==> env.freshIp(k) != c.rules[n.fw].ip)
                    && (n.fws in c.rules ==> env.freshIp(k) != c.rules[n.fws].ip))
  }

  /** Where a rule gets its IP from when none is requested. */
  function IpWithout(env: Env, c: Cloud, name: string, ports: string): (ip: string) {
    if Standing(c, name, ports) then c.rules[name].ip
      else env.freshIp(if name in c.rules then c.writes + 1 else c.writes)
  }

  lemma {:induction false} CreatedIp(env: Env, c: Cloud, name: string, proxy: Link, ports: string)
    ensures var r := CreateRule(env, c, name, proxy, "", ports);
            r.fw.Some? ==> RuleAt(r.c.rules, name) == Some(Rule(env.freshIp(c.writes), proxy, ports))
                           && r.c.writes == c.writes + 1
  {
    hide Succeeds;
  }

  lemma {:induction false} RuleIp(env: Env, c: Cloud, name: string, proxy: Link, ports: string)
    requires proxy != NoLink
    ensures var r := CheckRule(env, c, name, proxy, "", ports);
            r.fw.Some? ==> && name in r.c.rules && r.c.rules[name].ip == IpWithout(env, c, name, ports)
                           && (!Standing(c, name, ports) ==>
                               r.c.writes > if name in c.rules then c.writes + 1 else c.writes)
  {
    hide SameLink, Succeeds, CreateRule;
    CreatedIp(env, c, name, proxy, ports);
    CreatedIp(env, Write(env, c, c.(rules := c.rules - {name})), name, proxy, ports);
  }

  /** What the HTTP side does to rules and writes. */
  lemma {:induction false} HttpSideIp(cfg: Config, env: Env, w: World)
    requires cfg.allowHttp && cfg.n.Valid() && EffectiveIp(cfg, w) == ("", true) && w.l.ip.None?
    requires EdgeHopFront(cfg, env, w).out == Ok && cfg.Https() && EdgeHopFront(cfg, env, w).w.l.ip.None?
    ensures var w' := EdgeHopFront(cfg, env, w).w;
            && cfg.n.fw in w'.c.rules && RuleAt(w'.c.rules, cfg.n.fws) == RuleAt(w.c.rules, cfg.n.fws)
            && w'.c.addresses == w.c.addresses && w.c.writes <= w'.c.writes
            && if Standing(w.c, cfg.n.fw, HTTP_PORTS) then w'.c.rules[cfg.n.fw].ip == w.c.rules[cfg.n.fw].ip
               else exists k: nat :: w.c.writes <= k < w'.c.writes && w'.c.rules[cfg.n.fw].ip == env.freshIp(k)
  {
    hide CheckUrlMap, CheckProxy, CheckRule;
    UrlMapFrame(cfg, env, w);
    Grows(cfg, env, w);
    var w1 := CheckUrlMap(cfg, env, w).w;
    ProxyRules(cfg, env, w1);
    Grows(cfg, env, w1);
    var w2 := CheckProxy(cfg, env, w1).w;
    Grows(cfg, env, w2);
    var proxy := Self(HttpProxyKind, w2.l.tp.value);
    RuleIp(env, w2.c, cfg.n.fw, proxy, HTTP_PORTS);
    RuleChecked(env, w2.c, cfg.n.fw, proxy, "", HTTP_PORTS);
    var w3 := CheckHttpRule(cfg, env, w2).w;
    Grows(cfg, env, w3);
    ConflictKeeps(cfg, env, w3);
  }

  lemma {:induction false} ProxyRules(cfg: Config, env: Env, w: World)
    ensures var r := CheckProxy(cfg, env, w);
            r.w.c.rules == w.c.rules && r.w.c.addresses == w.c.addresses && r.w.l.ip == w.l.ip
              && (r.out == Ok ==> r.w.l.tp.Some?)
  {
    hide SameLink;
  }

  lemma {:induction false} ConflictKeeps(cfg: Config, env: Env, w: World)
    requires CheckStaticIp(cfg, env, w).w.l.ip.None?
    ensures var w' := CheckStaticIp(cfg, env, w).w; w'.c.rules == w.c.rules && w'.c.addresses == w.c.addresses
  {
  }

  lemma {:induction false} HttpsSideIp(cfg: Config, env: Env, w: World)
    requires cfg.Https() && cfg.n.Valid() && CertNamed(w.l) && EffectiveIp(cfg, w) == ("", true)
               && EdgeHopHttps(cfg, env, w).out == Ok
    requires UrlMapReady(cfg, w) && w.l.um.value.name == cfg.n.um
    ensures var w' := EdgeHopHttps(cfg, env, w).w;
            && cfg.n.fws in w'.c.rules && RuleAt(w'.c.rules, cfg.n.fw) == RuleAt(w.c.rules, cfg.n.fw)
            && if Standing(w.c, cfg.n.fws, HTTPS_PORTS) then w'.c.rules[cfg.n.fws].ip == w.c.rules[cfg.n.fws].ip
               else exists k: nat :: w.c.writes <= k && w'.c.rules[cfg.n.fws].ip == env.freshIp(k)
  {
    hide CheckSslCert, CheckHttpsProxy, CheckRule;
    CertFrame(cfg, env, w);
    CertChecked(cfg, env, w);
    CertGrows(cfg, env, w);
    var w1 := CheckSslCert(cfg, env, w).w;
    HttpsProxyFrame(cfg, env, w1);
    HttpsProxyChecked(cfg, env, w1);
    ProxyGrows(cfg, env, w1);
    var w2 := CheckHttpsProxy(cfg, env, w1).w;
    RuleIp(env, w2.c, cfg.n.fws, Self(HttpsProxyKind, cfg.n.tps), HTTPS_PORTS);
    RuleChecked(env, w2.c, cfg.n.fws, Self(HttpsProxyKind, cfg.n.tps), "", HTTPS_PORTS);
  }

  lemma {:induction false} CertGrows(cfg: Config, env: Env, w: World)
    requires cfg.Https()
    ensures w.c.writes <= CheckSslCert(cfg, env, w).w.c.writes
  {
    hide Populated;
  }

  lemma {:induction false} ProxyGrows(cfg: Config, env: Env, w: World)
    ensures w.c.writes <= CheckHttpsProxy(cfg, env, w).w.c.writes
  {
    hide SameLink;
  }

  /** A pass that met a conflict: the IP was to be reserved, the pass went well, and still no address is recorded. */
  predicate MetConflict(cfg: Config, env: Env, w: World) {
    && cfg.allowHttp && cfg.Https() && !UserIp(cfg, w.c) && w.l.ip.None?
    && EdgeHop(cfg, env, w).out == Ok && EdgeHop(cfg, env, w).w.l.ip.None?
  }

  /** What such a pass makes of the IPs of the two rules, and that it leaves the next pass where it was. */
  lemma {:induction false} ConflictIps(cfg: Config, env: Env, w: World)
    requires cfg.n.Valid() && CloudOk(w.c) && CertNamed(w.l) && MetConflict(cfg, env, w)
    ensures var w' := EdgeHop(cfg, env, w).w;
            && Standing(w'.c, cfg.n.fw, HTTP_PORTS) && Standing(w'.c, cfg.n.fws, HTTPS_PORTS)
               && !UserIp(cfg, w'.c)
            && (Standing(w.c, cfg.n.fw, HTTP_PORTS) ==> w'.c.rules[cfg.n.fw].ip == w.c.rules[cfg.n.fw].ip)
            && (Standing(w.c, cfg.n.fws, HTTPS_PORTS) ==> w'.c.rules[cfg.n.fws].ip == w.c.rules[cfg.n.fws].ip)
    ensures var w', m := EdgeHop(cfg, env, w).w, EdgeHopFront(cfg, env, w).w.c.writes;
            && (!Standing(w.c, cfg.n.fw, HTTP_PORTS) ==>
                exists k: nat :: k < m && w'.c.rules[cfg.n.fw].ip == env.freshIp(k))
            && (!Standing(w.c, cfg.n.fws, HTTPS_PORTS) ==>
                exists k: nat :: m <= k && w'.c.rules[cfg.n.fws].ip == env.freshIp(k))
  {
    EdgeHopCompletesChain(cfg, env, w);
    hide EdgeHopFront, EdgeHopHttps, CloudOk;
    var w1 := EdgeHopFront(cfg, env, w).w;
    HttpsAddresses(cfg, env, w1);
    HttpSideIp(cfg, env, w);
    FrontFrame(cfg, env, w);
    FrontChain(cfg, env, w);
    HttpsSideIp(cfg, env, w1);
  }

  /** After a pass that met a conflict, both rules have one IP if and only if they had before, each with its ports. */
  lemma {:induction false} ConflictIpIff(cfg: Config, env: Env, w: World)
    requires cfg.n.Valid() && CloudOk(w.c) && CertNamed(w.l) && MetConflict(cfg, env, w) && NewIps(env, w.c, cfg.n)
    ensures var c := EdgeHop(cfg, env, w).w.c;
            && Standing(c, cfg.n.fw, HTTP_PORTS) && Standing(c, cfg.n.fws, HTTPS_PORTS)
            && (c.rules[cfg.n.fw].ip == c.rules[cfg.n.fws].ip <==>
                  Standing(w.c, cfg.n.fw, HTTP_PORTS) && Standing(w.c, cfg.n.fws, HTTPS_PORTS)
                  && w.c.rules[cfg.n.fw].ip == w.c.rules[cfg.n.fws].ip)
  {
    hide EdgeHop, EdgeHopFront, CloudOk, MetConflict;
    ConflictIps(cfg, env, w);
  }

  /** Two passes with conflicts, whatever IPs the second would be handed: both rules end up on one IP if and only if
      they were on one before the first. */
  lemma {:induction false} TwoConflictsIff(cfg: Config, env: Env, env': Env, w: World)
    requires cfg.n.Valid() && CloudOk(w.c) && CertNamed(w.l) && Handsout(env) && NewIps(env, w.c, cfg.n)
    requires MetConflict(cfg, env, w)
    requires EdgeHop(cfg, env', EdgeHop(cfg, env, w).w).out == Ok
               && EdgeHop(cfg, env', EdgeHop(cfg, env, w).w).w.l.ip.None?
    ensures var c := EdgeHop(cfg, env', EdgeHop(cfg, env, w).w).w.c;
            && cfg.n.fw in c.rules && cfg.n.fws in c.rules
            && (c.rules[cfg.n.fw].ip == c.rules[cfg.n.fws].ip <==>
                  Standing(w.c, cfg.n.fw, HTTP_PORTS) && Standing(w.c, cfg.n.fws, HTTPS_PORTS)
                  && w.c.rules[cfg.n.fw].ip == w.c.rules[cfg.n.fws].ip)
  {
    hide EdgeHop, EdgeHopFront, CloudOk, NewIps, UserIp, CertNamed;
    ConflictIpIff(cfg, env, w);
    ConflictIps(cfg, env, w);
    var w' := EdgeHop(cfg, env, w).w;
    R.PassKeepsOk(cfg, env, w);
    PassKeepsNamed(cfg, env, w);
    ConflictIps(cfg, env', w');
  }

  lemma {:induction false} PassKeepsNamed(cfg: Config, env: Env, w: World)
    requires cfg.n.Valid() && CertNamed(w.l)
    ensures CertNamed(EdgeHop(cfg, env, w).w.l)
  {
    hide EdgeHopFront, CheckSslCert, CheckHttpsProxy, CheckHttpsRule, DeleteOldCert;
    FrontFrame(cfg, env, w);
    if cfg.Https() {
      var w1 := EdgeHopFront(cfg, env, w).w;
      CertStaysNamed(cfg, env, w1);
      var w2 := CheckSslCert(cfg, env, w1).w;
      HttpsProxyFrame(cfg, env, w2);
      var w3 := CheckHttpsProxy(cfg, env, w2).w;
      RuleCertState(cfg, env, w3);
      OldFrameCert(cfg, env, CheckHttpsRule(cfg, env, w3).w);
    }
  }

  lemma {:induction false} OldFrameCert(cfg: Config, env: Env, w: World)
    ensures DeleteOldCert(cfg, env, w).w.l.sslCert == w.l.sslCert
  {
  }

  // ---------------------------------------------------------------- an instance

  const Both := R.Example.(allowHttp := true, tls := Some("x"))

  function Ones(n: nat): (s: string) { seq(n + 1, _ => '1') }

  /** Everything works but reserving an address, and every IP handed out is a new one. */
  function Refusing(k: nat): (env: Env) { Env(n => if n == k then Conflict else Done, (n: nat) => Ones(n)) }

  /** The cloud after the first pass, and after `more` refused reservations. */
  function Built(writes: nat): (c: Cloud) {
    Cloud(map["um" := UrlMap("um", Self(BackendKind, "be"), [], [])], map["tp" := Self(UrlMapKind, "um")],
          map["tps" := HttpsProxy(Self(UrlMapKind, "um"), [Self(CertKind, "a")])], map["a" := "x"],
          map["fw" := Rule(Ones(2), Self(HttpProxyKind, "tp"), HTTP_PORTS),
              "fws" := Rule(Ones(7), Self(HttpsProxyKind, "tps"), HTTPS_PORTS)],
          map[], writes)
  }

  const Empty := Cloud(map[], map[], map[], map[], map[], map[], 0)

  lemma {:induction false} BuildsFront()
    ensures var r := EdgeHopFront(Both, Refusing(3), World(NewL7, Empty));
            && r.out == Ok && r.w.l == NewL7.(um := Some(UrlMap("um", Self(BackendKind, "be"), [], [])),
                                            tp := Some("tp"), fw := Some(Fw("fw", Ones(2))))
            && r.w.c == Built(4).(httpsProxies := map[], certs := map[],
                                   rules := map["fw" := Rule(Ones(2), Self(HttpProxyKind, "tp"), HTTP_PORTS)])
  {
    var env, w := Refusing(3), World(NewL7, Empty);
    var w1 := CheckUrlMap(Both, env, w).w;
    assert w1.c == Empty.(urlMaps := map["um" := UrlMap("um", Self(BackendKind, "be"), [], [])], writes := 1);
    var w2 := CheckProxy(Both, env, w1).w;
    assert w2.c == w1.c.(httpProxies := map["tp" := Self(UrlMapKind, "um")], writes := 2);
    var w3 := CheckHttpRule(Both, env, w2).w;
    assert w3.c == w2.c.(rules := map["fw" := Rule(Ones(2), Self(HttpProxyKind, "tp"), HTTP_PORTS)], writes := 3);
    assert Ones(2) != "";
    assert CheckStaticIp(Both, env, w3) == Res(w3.(c := w3.c.(writes := 4)), Ok);
  }

  lemma {:induction false} BuildsHttps(w: World)
    requires w.l.um.Some? && w.l.um.value.name == "um" && w.l.sslCert.None? && w.l.oldSslCert.None? && w.l.ip.None?
               && w.c.writes == 4
    requires w.c.httpsProxies == map[] && w.c.certs == map[] && w.c.addresses == map[] && "fws" !in w.c.rules
    ensures var r := EdgeHopHttps(Both, Refusing(3), w);
            && r.out == Ok && r.w.l.ip.None? && r.w.l.um == w.l.um && r.w.l.sslCert == Some(Cert("a", "x"))
               && r.w.l.oldSslCert.None?
            && r.w.c == w.c.(httpsProxies := Built(8).httpsProxies, certs := Built(8).certs,
                             rules := w.c.rules["fws" := Rule(Ones(7), Self(HttpsProxyKind, "tps"), HTTPS_PORTS)],
                             writes := 8)
  {
    var env := Refusing(3);
    var w1 := CheckSslCert(Both, env, w).w;
    assert w1.c == w.c.(certs := map["a" := "x"], writes := 6) && w1.l == w.l.(sslCert := Some(Cert("a", "x")));
    var w2 := CheckHttpsProxy(Both, env, w1).w;
    assert w2.c == w1.c.(
      httpsProxies := map["tps" := HttpsProxy(Self(UrlMapKind, "um"), [Self(CertKind, "a")])], writes := 7);
  }

  /** A pass over what is built writes nothing but the reservation that is refused. */
  lemma {:induction false} RefusedAgain(l: L7)
    requires l.ip.None? && l.sslCert == Some(Cert("a", "x")) && l.oldSslCert.None?
    ensures var r := EdgeHop(Both, Refusing(8), World(l, Built(8))); r.out == Ok && r.w.l.ip.None? && r.w.c == Built(9)
  {
    var env, w := Refusing(8), World(l, Built(8));
    assert Ones(2) != "";
    var r := EdgeHopFront(Both, env, w);
    assert r.out == Ok && r.w.c == Built(9) && r.w.l.sslCert == l.sslCert && r.w.l.oldSslCert.None? && r.w.l.ip.None?
      && r.w.l.um.Some?;
    assert r.w.l.um.value.name == "um";
    hide EdgeHopFront;
    assert CheckSslCert(Both, env, r.w) == Res(r.w, Ok);
  }

  /** From an empty cloud, with new IPs and every reservation refused: two passes succeed and the rules are on two
      IPs. */
  lemma {:induction false} TwoIps()
    ensures Both.n.Valid() && CloudOk(Empty) && Handsout(Refusing(3)) && NewIps(Refusing(3), Empty, Both.n)
    ensures var w1 := EdgeHop(Both, Refusing(3), World(NewL7, Empty)).w;
            var r2 := EdgeHop(Both, Refusing(8), w1);
            && MetConflict(Both, Refusing(3), World(NewL7, Empty)) && r2.out == Ok && r2.w.l.ip.None?
            && r2.w.c == Built(9) && r2.w.c.rules["fw"].ip != r2.w.c.rules["fws"].ip
  {
    assert "fw" != "fws" && "a" != "b" && |Ones(2)| != |Ones(7)|;
    assert forall i: nat :: |Ones(i)| == i + 1;
    BuildsFront();
    var w := EdgeHopFront(Both, Refusing(3), World(NewL7, Empty)).w;
    hide EdgeHopFront, EdgeHopHttps;
    BuildsHttps(w);
    assert EdgeHop(Both, Refusing(3), World(NewL7, Empty)).w.c == Built(8);
    RefusedAgain(EdgeHopHttps(Both, Refusing(3), w).w.l);
  }
}
