/** Load balancers share one cloud. Whose is a resource, and what a pass or a tear-down of one load balancer leaves
    of the others: everything, down to the content, as long as the names are apart. */
module L7Isolation {
  import opened Text
  import opened L7Cloud
  import opened L7World
  import opened L7EdgeHop
  import opened L7Cleanup
  import Namer

  // ---------------------------------------------------------------- names

  predicate OwnCert(n: LbNames, x: string) { x == n.primary || x == n.secondary }

  /** No resource of one load balancer has the name of a resource of the other. */
  predicate NamesApart(n: LbNames, m: LbNames) {
    && n.um != m.um && n.tp != m.tp && n.tps != m.tps && n.fw != m.fw && n.fws != m.fws && n.fw != m.fws
       && n.fws != m.fw
    && !OwnCert(m, n.primary) && !OwnCert(m, n.secondary)
  }

  /** The name of one is `1-` and the name of the other, as far as a certificate name keeps them. */
  predicate Shifted(a: string, b: string) { a == "1-" + b || (|a| > 54 && |b| > 52 && a[..54] == "1-" + b[..52]) }

  /** The names differ early enough, and neither is the other behind `1-`. */
  predicate Separate(a: string, b: string) {
    a != b && !(|a| > 52 && |b| > 52 && a[..52] == b[..52]) && !Shifted(a, b) && !Shifted(b, a)
  }

  lemma {:induction false} FrontNamesApart(a: string, b: string)
    requires a != b && !(|a| > 54 && |b| > 54 && a[..54] == b[..54])
    ensures var n, m := NamesOf(a), NamesOf(b);
            n.um != m.um && n.tp != m.tp && n.tps != m.tps && n.fw != m.fw && n.fws != m.fws && n.fw != m.fws
              && n.fws != m.fw
  {
    Namer.PrefixedNamesCollideIff("k8s-um-", a, b);
    Namer.PrefixedNamesCollideIff("k8s-tp-", a, b);
    Namer.PrefixedNamesCollideIff("k8s-tps-", a, b);
    Namer.PrefixedNamesCollideIff("k8s-fw-", a, b);
    Namer.PrefixedNamesCollideIff("k8s-fws-", a, b);
    assert Namer.HttpRuleName(a)[6] == '-' && Namer.HttpsRuleName(b)[6] == 's';
    assert Namer.HttpRuleName(b)[6] == '-' && Namer.HttpsRuleName(a)[6] == 's';
    PrefixOfPrefix(a, b, 54, 55);
  }

  lemma {:induction false} PrefixOfPrefix(a: string, b: string, j: nat, k: nat)
    requires j <= k
    ensures |a| > k && |b| > k && a[..k] == b[..k] ==> |a| > j && |b| > j && a[..j] == b[..j]
  {
    if |a| > k && |b| > k && a[..k] == b[..k] {
      assert a[..j] == a[..k][..j] && b[..j] == b[..k][..j];
    }
  }

  /** The secondary certificate name of a load balancer is the primary one of its namesake behind `1-`. */
  lemma {:induction false} SecondaryIsPrimary(lb: string)
    ensures NamesOf(lb).secondary == NamesOf("1-" + lb).primary
  {
    assert "k8s-ssl-1-" + lb == "k8s-ssl-" + ("1-" + lb);
  }

  lemma {:induction false} PrimariesMeetIff(a: string, b: string)
    ensures NamesOf(a).primary == NamesOf(b).primary <==> a == b || (|a| > 54 && |b| > 54 && a[..54] == b[..54])
  {
    Namer.PrefixedNamesCollideIff("k8s-ssl-", a, b);
  }

  lemma {:induction false} SecondariesMeetIff(a: string, b: string)
    ensures NamesOf(a).secondary == NamesOf(b).secondary <==> a == b || (|a| > 52 && |b| > 52 && a[..52] == b[..52])
  {
    Namer.PrefixedNamesCollideIff("k8s-ssl-1-", a, b);
  }

  lemma {:induction false} CrossMeetIff(a: string, b: string)
    ensures NamesOf(a).primary == NamesOf(b).secondary <==> Shifted(a, b)
  {
    var b1 := "1-" + b;
    SecondaryIsPrimary(b);
    PrimariesMeetIff(a, b1);
    if |b| > 52 { assert b1[..54] == "1-" + b[..52]; }
  }

  /** Two load balancers share the name of a resource exactly when their own names are equal, agree in the first 52
      characters being longer than that, or one is the other behind `1-`. */
  lemma {:induction false} NamesApartIff(a: string, b: string)
    ensures NamesApart(NamesOf(a), NamesOf(b)) <==> Separate(a, b)
  {
    PrimariesMeetIff(a, b);
    SecondariesMeetIff(a, b);
    CrossMeetIff(a, b);
    CrossMeetIff(b, a);
    PrefixOfPrefix(a, b, 52, 54);
    if Separate(a, b) { FrontNamesApart(a, b); }
  }

  /** Short names do not help: the ingresses `ns/web` and `1-ns/web` share a certificate name, and two names that agree
      in 53 characters share one too. */
  lemma {:induction false} SharedNames(lb: string, tail: string)
    requires |lb| == 53 && tail != ""
    ensures !NamesApart(NamesOf("ns-web--uid"), NamesOf("1-ns-web--uid"))
    ensures NamesOf("ns-web--uid").secondary == NamesOf("1-ns-web--uid").primary
    ensures !NamesApart(NamesOf(lb), NamesOf(lb + tail)) && NamesOf(lb).um != NamesOf(lb + tail).um
  {
    assert "1-" + "ns-web--uid" == "1-ns-web--uid";
    SecondaryIsPrimary("ns-web--uid");
    assert lb[..52] == (lb + tail)[..52];
    NamesApartIff(lb, lb + tail);
    FrontNamesApart(lb, lb + tail);
  }

  // ---------------------------------------------------------------- what is left alone

  /** The url map, proxies, forwarding rules and address under these names are what they were. */
  predicate Same(n: LbNames, c: Cloud, c': Cloud) {
    && At(c'.urlMaps, n.um) == At(c.urlMaps, n.um)
    && At(c'.httpProxies, n.tp) == At(c.httpProxies, n.tp) && At(c'.httpsProxies, n.tps) == At(c.httpsProxies, n.tps)
    && At(c'.rules, n.fw) == At(c.rules, n.fw) && At(c'.rules, n.fws) == At(c.rules, n.fws)
    && At(c'.addresses, n.fw) == At(c.addresses, n.fw)
  }

  function At<V>(m: map<string, V>, k: string): (v: Option<V>) { if k in m then Some(m[k]) else None }

  lemma {:induction false} SameRefl(n: LbNames, c: Cloud)
    ensures Same(n, c, c)
  {
  }

  lemma {:induction false} SameTrans(n: LbNames, a: Cloud, b: Cloud, c: Cloud)
    requires Same(n, a, b) && Same(n, b, c)
    ensures Same(n, a, c)
  {
  }

  /** A write that would change nothing under these names changes nothing whether it gets through or not. */
  lemma {:induction false} WriteSame(env: Env, c: Cloud, effect: Cloud, n: LbNames)
    requires Same(n, c, effect)
    ensures Same(n, c, Write(env, c, effect))
  {
  }

  lemma {:induction false} UrlMapSame(cfg: Config, env: Env, w: World, n: LbNames)
    requires NamesApart(cfg.n, n)
    ensures Same(n, w.c, CheckUrlMap(cfg, env, w).w.c)
  {
    hide Write, Succeeds;
    if cfg.backend.Some? {
      var effect := w.c.(urlMaps := w.c.urlMaps[cfg.n.um := UrlMap(cfg.n.um, cfg.backend.value, [], [])]);
      WriteSame(env, w.c, effect, n);
    }
  }

  lemma {:induction false} ProxySame(cfg: Config, env: Env, w: World, n: LbNames)
    requires NamesApart(cfg.n, n)
    ensures Same(n, w.c, CheckProxy(cfg, env, w).w.c)
  {
    hide SameLink, Write, Succeeds;
    if w.l.um.Some? {
      var effect := w.c.(httpProxies := w.c.httpProxies[cfg.n.tp := Self(UrlMapKind, w.l.um.value.name)]);
      WriteSame(env, w.c, effect, n);
    }
  }

  lemma {:induction false} OneRuleSame(env: Env, c: Cloud, name: string, proxy: Link, ip: string, ports: string,
                                       n: LbNames)
    requires n.fw != name && n.fws != name && proxy != NoLink
    ensures Same(n, c, CheckRule(env, c, name, proxy, ip, ports).c)
  {
    hide CheckRule;
    RuleChecked(env, c, name, proxy, ip, ports);
    var c' := CheckRule(env, c, name, proxy, ip, ports).c;
    assert RuleAt(c'.rules, n.fw) == RuleAt(c.rules, n.fw) && RuleAt(c'.rules, n.fws) == RuleAt(c.rules, n.fws);
  }

  lemma {:induction false} RulesSame(cfg: Config, env: Env, w: World, n: LbNames)
    requires NamesApart(cfg.n, n)
    ensures Same(n, w.c, CheckHttpRule(cfg, env, w).w.c) && Same(n, w.c, CheckHttpsRule(cfg, env, w).w.c)
  {
    hide CheckRule, Same;
    SameRefl(n, w.c);
    var ip := EffectiveIp(cfg, w).0;
    if w.l.tp.Some? { OneRuleSame(env, w.c, cfg.n.fw, Self(HttpProxyKind, w.l.tp.value), ip, HTTP_PORTS, n); }
    if w.l.tps.Some? { OneRuleSame(env, w.c, cfg.n.fws, Self(HttpsProxyKind, w.l.tps.value), ip, HTTPS_PORTS, n); }
  }

  lemma {:induction false} StaticIpSame(cfg: Config, env: Env, w: World, n: LbNames)
    requires NamesApart(cfg.n, n)
    ensures Same(n, w.c, CheckStaticIp(cfg, env, w).w.c)
  {
    hide Write, Succeeds, EffectiveIp;
    if w.l.fw.Some? {
      WriteSame(env, w.c, w.c.(addresses := w.c.addresses[cfg.n.fw := w.l.fw.value.ip]), n);
    }
  }

  lemma {:induction false} HttpsProxySet(cfg: Config, c: Cloud, p: HttpsProxy, n: LbNames)
    requires NamesApart(cfg.n, n)
    ensures Same(n, c, c.(httpsProxies := c.httpsProxies[cfg.n.tps := p]))
  {
  }

  lemma {:induction false} PointSame(cfg: Config, env: Env, w: World, cert: Link, n: LbNames)
    requires NamesApart(cfg.n, n) && cfg.n.tps in w.c.httpsProxies
    ensures Same(n, w.c, PointAtCert(cfg, env, w, cert).w.c)
  {
    hide SameLink, Write, Succeeds, Same;
    SameRefl(n, w.c);
    var p := w.c.httpsProxies[cfg.n.tps].(certs := [cert]);
    HttpsProxySet(cfg, w.c, p, n);
    WriteSame(env, w.c, w.c.(httpsProxies := w.c.httpsProxies[cfg.n.tps := p]), n);
  }

  lemma {:induction false} HttpsProxySame(cfg: Config, env: Env, w: World, n: LbNames)
    requires NamesApart(cfg.n, n)
    ensures Same(n, w.c, CheckHttpsProxy(cfg, env, w).w.c)
  {
    hide SameLink, PointAtCert, Succeeds, Same;
    SameRefl(n, w.c);
    if w.l.sslCert.Some? && w.l.um.Some? {
      var um, cert := Self(UrlMapKind, w.l.um.value.name), Self(CertKind, w.l.sslCert.value.name);
      if cfg.n.tps in w.c.httpsProxies {
        PointSame(cfg, env, w, cert, n);
        HttpsProxySet(cfg, w.c, w.c.httpsProxies[cfg.n.tps].(urlMap := um), n);
        var effect := w.c.(httpsProxies := w.c.httpsProxies[cfg.n.tps := w.c.httpsProxies[cfg.n.tps].(urlMap := um)]);
        WriteSame(env, w.c, effect, n);
        var c' := Write(env, w.c, effect);
        PointSame(cfg, env, w.(c := c'), cert, n);
        SameTrans(n, w.c, c', PointAtCert(cfg, env, w.(c := c'), cert).w.c);
      } else {
        HttpsProxySet(cfg, w.c, HttpsProxy(um, [cert]), n);
        WriteSame(env, w.c, w.c.(httpsProxies := w.c.httpsProxies[cfg.n.tps := HttpsProxy(um, [cert])]), n);
      }
    }
  }

  lemma {:induction false} CertSame(cfg: Config, env: Env, w: World, n: LbNames)
    requires cfg.Https()
    ensures Same(n, w.c, CheckSslCert(cfg, env, w).w.c) && Same(n, w.c, DeleteOldCert(cfg, env, w).w.c)
  {
    hide Same;
    CertFrame(cfg, env, w);
    OldFrame(cfg, env, w);
    OnlyCertsSame(w, CheckSslCert(cfg, env, w).w, n);
    OnlyCertsSame(w, DeleteOldCert(cfg, env, w).w, n);
  }

  lemma {:induction false} OnlyCertsSame(w: World, w': World, n: LbNames)
    requires OnlyCerts(w, w')
    ensures Same(n, w.c, w'.c)
  {
  }

  lemma {:induction false} FrontSame(cfg: Config, env: Env, w: World, n: LbNames)
    requires NamesApart(cfg.n, n)
    ensures Same(n, w.c, EdgeHopFront(cfg, env, w).w.c)
  {
    hide CheckUrlMap, CheckProxy, CheckHttpRule, CheckStaticIp, Same;
    UrlMapSame(cfg, env, w, n);
    var w1 := CheckUrlMap(cfg, env, w).w;
    ProxySame(cfg, env, w1, n);
    var w2 := CheckProxy(cfg, env, w1).w;
    SameTrans(n, w.c, w1.c, w2.c);
    RulesSame(cfg, env, w2, n);
    var w3 := CheckHttpRule(cfg, env, w2).w;
    SameTrans(n, w.c, w2.c, w3.c);
    StaticIpSame(cfg, env, w3, n);
    SameTrans(n, w.c, w3.c, CheckStaticIp(cfg, env, w3).w.c);
  }

  lemma {:induction false} HttpsSame(cfg: Config, env: Env, w: World, n: LbNames)
    requires NamesApart(cfg.n, n) && cfg.Https()
    ensures Same(n, w.c, EdgeHopHttps(cfg, env, w).w.c)
  {
    hide CheckSslCert, CheckHttpsProxy, CheckHttpsRule, DeleteOldCert, Same;
    CertSame(cfg, env, w, n);
    var w1 := CheckSslCert(cfg, env, w).w;
    HttpsProxySame(cfg, env, w1, n);
    var w2 := CheckHttpsProxy(cfg, env, w1).w;
    SameTrans(n, w.c, w1.c, w2.c);
    RulesSame(cfg, env, w2, n);
    var w3 := CheckHttpsRule(cfg, env, w2).w;
    SameTrans(n, w.c, w2.c, w3.c);
    CertSame(cfg, env, w3, n);
    SameTrans(n, w.c, w3.c, DeleteOldCert(cfg, env, w3).w.c);
  }

  /** A pass, however it ends, leaves every url map, proxy, rule and address of the other load balancers as it was. */
  lemma {:induction false} PassSame(cfg: Config, env: Env, w: World, n: LbNames)
    requires NamesApart(cfg.n, n)
    ensures Same(n, w.c, EdgeHop(cfg, env, w).w.c)
  {
    hide EdgeHopFront, EdgeHopHttps, Same;
    FrontSame(cfg, env, w, n);
    var w1 := EdgeHopFront(cfg, env, w).w;
    if cfg.Https() {
      HttpsSame(cfg, env, w1, n);
      SameTrans(n, w.c, w1.c, EdgeHopHttps(cfg, env, w1).w.c);
    }
  }

  lemma {:induction false} WithoutSame(cfg: Config, w: World, s: Stage, n: LbNames)
    requires NamesApart(cfg.n, n) && Named(cfg, w.l) && Recorded(cfg, w.l, s)
    ensures Same(n, w.c, Without(cfg, w, s))
  {
  }

  lemma {:induction false} StageSame(cfg: Config, env: Env, w: World, s: Stage, n: LbNames)
    requires NamesApart(cfg.n, n) && Named(cfg, w.l)
    ensures Same(n, w.c, DoStage(cfg, env, w, s).w.c)
  {
    hide Named, Same, NamesApart, Without, Write, Succeeds;
    if Recorded(cfg, w.l, s) {
      WithoutSame(cfg, w, s, n);
      WriteSame(env, w.c, Without(cfg, w, s), n);
    } else {
      SameRefl(n, w.c);
    }
  }

  lemma {:induction false} StageNamed(cfg: Config, env: Env, w: World, s: Stage)
    requires Named(cfg, w.l)
    ensures Named(cfg, DoStage(cfg, env, w, s).w.l)
  {
    hide Succeeds, Without;
  }

  /** So does a tear-down, whatever is recorded as long as it is recorded under the right names. */
  lemma {:induction false} CleanupSame(cfg: Config, env: Env, w: World, stages: seq<Stage>, n: LbNames)
    requires NamesApart(cfg.n, n) && Named(cfg, w.l)
    ensures var w' := CleanupFrom(cfg, env, w, stages).w; Same(n, w.c, w'.c) && Named(cfg, w'.l)
    decreases |stages|
  {
    hide DoStage, Named, NamesApart, Same;
    if stages == [] {
      SameRefl(n, w.c);
    } else {
      StageSame(cfg, env, w, stages[0], n);
      StageNamed(cfg, env, w, stages[0]);
      var w1 := DoStage(cfg, env, w, stages[0]).w;
      CleanupSame(cfg, env, w1, stages[1..], n);
      SameTrans(n, w.c, w1.c, CleanupFrom(cfg, env, w1, stages[1..]).w.c);
    }
  }

  // ---------------------------------------------------------------- certificates

  /** A certificate name this load balancer may meet: one of its own two, or none that a controller gives. */
  predicate OwnOrForeign(n: LbNames, x: string) { OwnCert(n, x) || !("k8s-ssl" <= x) }

  /** The certificate names are marked as a controller's. */
  predicate Tagged(m: LbNames) { Namer.IsSslCert(m.primary) && Namer.IsSslCert(m.secondary) }

  /** Those the namer gives are. */
  lemma {:induction false} NamesTagged(lb: string)
    ensures Tagged(NamesOf(lb))
  {
    assert NamesOf(lb).primary[..7] == "k8s-ssl" && NamesOf(lb).secondary[..7] == "k8s-ssl";
  }

  /** What the fields and the HTTPS proxy name is not a certificate of another load balancer. */
  predicate CertsOwn(n: LbNames, w: World) {
    && (w.l.sslCert.Some? ==> OwnOrForeign(n, w.l.sslCert.value.name))
    && (w.l.oldSslCert.Some? ==> OwnOrForeign(n, w.l.oldSslCert.value.name))
    && (n.tps in w.c.httpsProxies && w.c.httpsProxies[n.tps].certs != [] ==>
          OwnOrForeign(n, NameInLink(w.c.httpsProxies[n.tps].certs[0])))
  }

  /** A step that keeps the certificates named own, and changes none but the two. */
  ghost predicate KeepsCerts(n: LbNames, w: World, w': World) {
    CertsOwn(n, w') && forall x :: !OwnCert(n, x) ==> At(w'.c.certs, x) == At(w.c.certs, x)
  }

  lemma {:induction false} KeepsCertsTrans(n: LbNames, a: World, b: World, c: World)
    requires KeepsCerts(n, a, b) && KeepsCerts(n, b, c)
    ensures KeepsCerts(n, a, c)
  {
  }

  lemma {:induction false} FrontKeeps(cfg: Config, env: Env, w: World)
    requires CertsOwn(cfg.n, w)
    ensures KeepsCerts(cfg.n, w, EdgeHopFront(cfg, env, w).w)
  {
    hide EdgeHopFront;
    FrontFrame(cfg, env, w);
  }

  lemma {:induction false} RotateKeeps(cfg: Config, env: Env, w: World)
    requires cfg.tls.Some? && CertsOwn(cfg.n, w)
    ensures KeepsCerts(cfg.n, w, RotateCert(cfg, env, w).w)
  {
  }

  lemma {:induction false} PopulatedOwn(cfg: Config, w: World)
    requires CertsOwn(cfg.n, w)
    ensures CertsOwn(cfg.n, w.(l := w.l.(sslCert := Populated(cfg, w))))
  {
  }

  lemma {:induction false} CertKeeps(cfg: Config, env: Env, w: World)
    requires cfg.Https() && CertsOwn(cfg.n, w) && OwnOrForeign(cfg.n, cfg.tlsName)
    ensures KeepsCerts(cfg.n, w, CheckSslCert(cfg, env, w).w)
  {
    hide RotateCert, Populated;
    PopulatedOwn(cfg, w);
    if cfg.tlsName == "" { RotateKeeps(cfg, env, w.(l := w.l.(sslCert := Populated(cfg, w)))); }
  }

  lemma {:induction false} OldKeeps(cfg: Config, env: Env, w: World)
    requires CertsOwn(cfg.n, w)
    ensures KeepsCerts(cfg.n, w, DeleteOldCert(cfg, env, w).w)
  {
  }

  lemma {:induction false} PointKeeps(cfg: Config, env: Env, w: World)
    requires CertsOwn(cfg.n, w) && w.l.sslCert.Some? && cfg.n.tps in w.c.httpsProxies
    ensures KeepsCerts(cfg.n, w, PointAtCert(cfg, env, w, Self(CertKind, w.l.sslCert.value.name)).w)
  {
    hide SameLink;
  }

  lemma {:induction false} HttpsProxyKeeps(cfg: Config, env: Env, w: World)
    requires CertsOwn(cfg.n, w)
    ensures KeepsCerts(cfg.n, w, CheckHttpsProxy(cfg, env, w).w)
  {
    hide PointAtCert, SameLink, Succeeds;
    if w.l.sslCert.Some? && w.l.um.Some? && cfg.n.tps in w.c.httpsProxies {
      var um, cert := Self(UrlMapKind, w.l.um.value.name), Self(CertKind, w.l.sslCert.value.name);
      PointKeeps(cfg, env, w);
      var c' := Write(env, w.c,
                      w.c.(httpsProxies := w.c.httpsProxies[cfg.n.tps := w.c.httpsProxies[cfg.n.tps].(urlMap := um)]));
      assert KeepsCerts(cfg.n, w, w.(c := c'));
      PointKeeps(cfg, env, w.(c := c'));
      KeepsCertsTrans(cfg.n, w, w.(c := c'), PointAtCert(cfg, env, w.(c := c'), cert).w);
    }
  }

  lemma {:induction false} HttpsRuleKeeps(cfg: Config, env: Env, w: World)
    requires CertsOwn(cfg.n, w)
    ensures KeepsCerts(cfg.n, w, CheckHttpsRule(cfg, env, w).w)
  {
    hide CheckRule;
    if w.l.tps.Some? {
      RuleChecked(env, w.c, cfg.n.fws, Self(HttpsProxyKind, w.l.tps.value), EffectiveIp(cfg, w).0, HTTPS_PORTS);
    }
  }

  lemma {:induction false} HttpsKeeps(cfg: Config, env: Env, w: World)
    requires cfg.Https() && CertsOwn(cfg.n, w) && OwnOrForeign(cfg.n, cfg.tlsName)
    ensures KeepsCerts(cfg.n, w, EdgeHopHttps(cfg, env, w).w)
  {
    hide CheckSslCert, CheckHttpsProxy, CheckHttpsRule, DeleteOldCert, CertsOwn, OwnOrForeign;
    CertKeeps(cfg, env, w);
    var w1 := CheckSslCert(cfg, env, w).w;
    HttpsProxyKeeps(cfg, env, w1);
    var w2 := CheckHttpsProxy(cfg, env, w1).w;
    HttpsRuleKeeps(cfg, env, w2);
    var w3 := CheckHttpsRule(cfg, env, w2).w;
    OldKeeps(cfg, env, w3);
  }

  /** A pass changes no certificate but the two of its load balancer, unless it was pointed at one of another. */
  lemma {:induction false} PassKeepsCerts(cfg: Config, env: Env, w: World)
    requires CertsOwn(cfg.n, w) && OwnOrForeign(cfg.n, cfg.tlsName)
    ensures KeepsCerts(cfg.n, w, EdgeHop(cfg, env, w).w)
  {
    hide EdgeHopFront, EdgeHopHttps, CertsOwn, OwnOrForeign;
    FrontKeeps(cfg, env, w);
    var w1 := EdgeHopFront(cfg, env, w).w;
    if cfg.Https() { HttpsKeeps(cfg, env, w1); }
  }

  /** A certificate of the user, one not called as the controller calls its own, is never changed by a pass, whatever
      the fields say. */
  lemma {:induction false} UserCertKept(cfg: Config, env: Env, w: World, x: string)
    requires !("k8s-ssl" <= x) && !OwnCert(cfg.n, x)
    ensures At(EdgeHop(cfg, env, w).w.c.certs, x) == At(w.c.certs, x)
  {
    hide EdgeHopFront, CheckSslCert, CheckHttpsProxy, CheckHttpsRule, DeleteOldCert;
    FrontFrame(cfg, env, w);
    if cfg.Https() {
      var w1 := EdgeHopFront(cfg, env, w).w;
      RotationKeeps(cfg, env, w1, x);
      var w2 := CheckSslCert(cfg, env, w1).w;
      HttpsProxyFrame(cfg, env, w2);
      var w3 := CheckHttpsProxy(cfg, env, w2).w;
      HttpsRuleCerts(cfg, env, w3);
      OldSpares(cfg, env, CheckHttpsRule(cfg, env, w3).w, x);
    }
  }

  lemma {:induction false} RotationKeeps(cfg: Config, env: Env, w: World, x: string)
    requires cfg.Https() && !OwnCert(cfg.n, x)
    ensures At(CheckSslCert(cfg, env, w).w.c.certs, x) == At(w.c.certs, x)
  {
    hide Populated;
  }

  lemma {:induction false} HttpsRuleCerts(cfg: Config, env: Env, w: World)
    ensures CheckHttpsRule(cfg, env, w).w.c.certs == w.c.certs
  {
    hide CheckRule;
    if w.l.tps.Some? {
      RuleChecked(env, w.c, cfg.n.fws, Self(HttpsProxyKind, w.l.tps.value), EffectiveIp(cfg, w).0, HTTPS_PORTS);
    }
  }

  lemma {:induction false} OldSpares(cfg: Config, env: Env, w: World, x: string)
    requires !("k8s-ssl" <= x)
    ensures At(DeleteOldCert(cfg, env, w).w.c.certs, x) == At(w.c.certs, x)
  {
  }

  /** The certificates under these names are what they were. */
  predicate SameCerts(n: LbNames, c: Cloud, c': Cloud) {
    At(c'.certs, n.primary) == At(c.certs, n.primary) && At(c'.certs, n.secondary) == At(c.certs, n.secondary)
  }

  lemma {:induction false} PassSameCerts(cfg: Config, env: Env, w: World, n: LbNames)
    requires NamesApart(cfg.n, n) && CertsOwn(cfg.n, w) && OwnOrForeign(cfg.n, cfg.tlsName)
    ensures SameCerts(n, w.c, EdgeHop(cfg, env, w).w.c) && CertsOwn(cfg.n, EdgeHop(cfg, env, w).w)
  {
    hide EdgeHop;
    PassKeepsCerts(cfg, env, w);
  }

  /** A tear-down deletes at most the recorded certificate, so none of another load balancer. */
  lemma {:induction false} CleanupSameCerts(cfg: Config, env: Env, w: World, n: LbNames)
    requires NamesApart(cfg.n, n) && CertsOwn(cfg.n, w) && Tagged(n)
    ensures SameCerts(n, w.c, Cleanup(cfg, env, w).w.c)
  {
    hide CleanupFrom;
    RemainsAfterCleanup(cfg, env, w);
  }

  lemma {:induction false} CleanupKeepsOwn(cfg: Config, env: Env, w: World, stages: seq<Stage>)
    requires CertsOwn(cfg.n, w) && Named(cfg, w.l)
    ensures CertsOwn(cfg.n, CleanupFrom(cfg, env, w, stages).w)
    decreases |stages|
  {
    hide DoStage, CertsOwn, Named;
    if stages != [] {
      StageKeepsOwn(cfg, env, w, stages[0]);
      StageNamed(cfg, env, w, stages[0]);
      CleanupKeepsOwn(cfg, env, DoStage(cfg, env, w, stages[0]).w, stages[1..]);
    }
  }

  lemma {:induction false} StageKeepsOwn(cfg: Config, env: Env, w: World, s: Stage)
    requires CertsOwn(cfg.n, w)
    ensures CertsOwn(cfg.n, DoStage(cfg, env, w, s).w)
  {
    hide Succeeds, OwnOrForeign;
  }
}
