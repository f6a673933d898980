/** Certificate rotation of several load balancers in one cloud: over every history in which their passes and tear-downs
    interleave, load balancers come, go and come back, writes fail, and there are restarts and new secrets, every HTTPS
    proxy names a certificate that exists. */
module L7Shared {
  import opened Text
  import opened L7Cloud
  import opened L7World
  import opened L7EdgeHop
  import opened L7Settles
  import R = L7Certificates
  import opened L7Cleanup
  import opened L7Isolation
  import Y = L7Lifecycle

  /** One load balancer and what its secret holds now. */
  datatype Lb = Lb(cfg: Config, l: L7, secret: string)

  /** The load balancers and the cloud they share. */
  datatype Site = Site(lbs: map<string, Lb>, c: Cloud) {
    function Of(k: string): (w: World)
      requires k in lbs
    {
      World(lbs[k].l, c)
    }
  }

  datatype Event =
    | Pass(lb: string, env: Env)
    | TearDown(lb: string, env: Env)
    | Restart
    | NewSecret(lb: string, secret: string)
    | Drop(lb: string) // it leaves the pool; if it comes back, it does so with no fields
    | Configure(lb: string, cfg: Config)
    | Join(lb: string, joins: Lb)

  /** As in L7Certificates a secret does not change between making its certificate and switching the proxy to it. A
      load balancer is not torn down in the two states in which that deletes what is still served: its own certificate
      (TearHazard), or one of the user's that others may serve too. */
  ghost predicate Allowed(s: Site, e: Event) {
    match e
    case Pass(k, env) => k in s.lbs && Handsout(env)
    case TearDown(k, _) => k in s.lbs && !TearHazard(s.lbs[k].cfg, s.Of(k))
                           && (s.lbs[k].l.sslCert.Some? ==> OwnCert(s.lbs[k].cfg.n, s.lbs[k].l.sslCert.value.name))
    case Restart => true
    case NewSecret(k, _) => k in s.lbs && !R.Pending(s.lbs[k].cfg, s.Of(k))
    case Drop(k) => k in s.lbs
    case Configure(k, cfg) => k in s.lbs && cfg.n == s.lbs[k].cfg.n
    case Join(k, lb) => k !in s.lbs && Startable(lb, s.c) && AllApart(s.(lbs := s.lbs[k := lb]))
  }

  /** It has no fields, and its HTTPS proxy, if there is one, is on an existing certificate that is not another's. */
  ghost predicate Startable(lb: Lb, c: Cloud) {
    lb.l == NewL7 && R.Serving(lb.cfg, c) && CertsOwn(lb.cfg.n, World(NewL7, c))
  }

  /** The proxy is in use but not recorded, and the recorded certificate is the one it serves. */
  predicate TearHazard(cfg: Config, w: World) {
    R.HasProxy(cfg, w.c) && w.l.tps.None? && w.l.sslCert.Some? && w.l.sslCert.value.name == R.InUse(cfg, w.c)
  }

  ghost function After(s: Site, e: Event): (s': Site)
    requires Allowed(s, e)
  {
    match e
    case Pass(k, env) =>
      var w := EdgeHop(R.With(s.lbs[k].cfg, s.lbs[k].secret), env, s.Of(k)).w;
      Site(s.lbs[k := s.lbs[k].(l := w.l)], w.c)
    case TearDown(k, env) =>
      var w := Cleanup(R.With(s.lbs[k].cfg, s.lbs[k].secret), env, s.Of(k)).w;
      Site(s.lbs[k := s.lbs[k].(l := w.l)], w.c)
    case Restart => s.(lbs := map k | k in s.lbs :: s.lbs[k].(l := NewL7))
    case NewSecret(k, secret) => s.(lbs := s.lbs[k := s.lbs[k].(secret := secret)])
    case Drop(k) => s.(lbs := s.lbs[k := s.lbs[k].(l := NewL7)])
    case Configure(k, cfg) => s.(lbs := s.lbs[k := s.lbs[k].(cfg := cfg)])
    case Join(k, lb) => s.(lbs := s.lbs[k := lb])
  }

  /** Every load balancer has valid names, apart from those of all others. */
  ghost predicate AllApart(s: Site) {
    && (forall k :: k in s.lbs ==> s.lbs[k].cfg.n.Valid() && Tagged(s.lbs[k].cfg.n))
    && (forall j, k :: j in s.lbs && k in s.lbs && j != k ==> NamesApart(s.lbs[j].cfg.n, s.lbs[k].cfg.n))
  }

  /** What is known of one load balancer at any moment. */
  ghost predicate Rotates(s: Site, k: string) {
    k in s.lbs ==>
      R.RotationOk(s.lbs[k].cfg, s.Of(k), s.lbs[k].secret) && CertsOwn(s.lbs[k].cfg.n, s.Of(k))
        && Named(s.lbs[k].cfg, s.lbs[k].l)
  }

  ghost predicate Inv(s: Site) { CloudOk(s.c) && AllApart(s) && forall k :: Rotates(s, k) }

  ghost predicate Start(s: Site) { CloudOk(s.c) && AllApart(s) && forall k :: k in s.lbs ==> Startable(s.lbs[k], s.c) }

  ghost predicate IsHistory(sites: seq<Site>, events: seq<Event>) {
    && |sites| == |events| + 1 && Start(sites[0])
    && forall i {:trigger events[i]} :: 0 <= i < |events| ==>
       Allowed(sites[i], events[i]) && sites[i + 1] == After(sites[i], events[i])
  }

  /** A name that another load balancer may change is none that this one relies on. */
  lemma {:induction false} Elsewhere(n: LbNames, m: LbNames, x: string)
    requires NamesApart(m, n) && OwnOrForeign(n, x) && Tagged(m)
    ensures !OwnCert(m, x)
  {
  }

  /** The pass of one load balancer keeps the rotation of another sound. */
  lemma {:induction false} NeighbourKeeps(cfg: Config, l: L7, secret: string, m: LbNames, w: World, w': World)
    requires R.RotationOk(cfg, World(l, w.c), secret) && CertsOwn(cfg.n, World(l, w.c))
    requires NamesApart(m, cfg.n) && Tagged(m) && Same(cfg.n, w.c, w'.c) && KeepsCerts(m, w, w')
    ensures R.RotationOk(cfg, World(l, w'.c), secret) && CertsOwn(cfg.n, World(l, w'.c))
  {
    var c, c' := w.c, w'.c;
    assert At(c'.httpsProxies, cfg.n.tps) == At(c.httpsProxies, cfg.n.tps);
    if l.sslCert.Some? {
      Elsewhere(cfg.n, m, l.sslCert.value.name);
      assert At(c'.certs, l.sslCert.value.name) == At(c.certs, l.sslCert.value.name);
    }
    if R.HasProxy(cfg, c) {
      Elsewhere(cfg.n, m, R.InUse(cfg, c));
      assert At(c'.certs, R.InUse(cfg, c)) == At(c.certs, R.InUse(cfg, c));
    }
  }

  lemma {:induction false} PassKeepsInv(s: Site, k: string, env: Env)
    requires Inv(s) && Allowed(s, Pass(k, env))
    ensures Inv(After(s, Pass(k, env)))
  {
    hide EdgeHop, R.RotationOk, CertsOwn, CloudOk, NamesApart, Same, Tagged, OwnOrForeign, Named;
    var lb, w := s.lbs[k], s.Of(k);
    var cfg := R.With(lb.cfg, lb.secret);
    var w' := EdgeHop(cfg, env, w).w;
    var s' := After(s, Pass(k, env));
    assert Rotates(s, k);
    R.PassKeepsOk(cfg, env, w);
    R.PassKeepsRotation(lb.cfg, env, w, lb.secret);
    NoNameIsForeign(cfg.n);
    PassKeepsCerts(cfg, env, w);
    PassNamed(lb.cfg, cfg, env, w);
    forall j | j in s.lbs ensures Rotates(s', j) {
      if j != k {
        assert Rotates(s, j);
        PassSame(cfg, env, w, s.lbs[j].cfg.n);
        NeighbourKeeps(s.lbs[j].cfg, s.lbs[j].l, s.lbs[j].secret, cfg.n, w, w');
      }
    }
    assert forall j :: j in s.lbs ==> s'.lbs[j].cfg == s.lbs[j].cfg;
  }

  lemma {:induction false} PassNamed(cfg: Config, cfg': Config, env: Env, w: World)
    requires cfg.n == cfg'.n && cfg.n.Valid() && CloudOk(w.c) && Named(cfg, w.l)
    ensures Named(cfg, EdgeHop(cfg', env, w).w.l)
  {
    hide EdgeHop;
    Y.PassHeld(cfg', env, w);
  }

  // ---------------------------------------------------------------- tear-downs

  /** How far a tear-down has come: the proxy is as it was or gone, and gone or never recorded before a certificate
      goes. */
  predicate ProxyFirst(cfg: Config, w0: World, w: World) {
    && (At(w.c.httpsProxies, cfg.n.tps) == At(w0.c.httpsProxies, cfg.n.tps) || cfg.n.tps !in w.c.httpsProxies)
    && (w0.l.tps.Some? && w.l.tps.None? ==> cfg.n.tps !in w.c.httpsProxies)
    && (w.l.tps.Some? ==> w0.l.tps == w.l.tps)
    && (w.c.certs == w0.c.certs || w.l.tps.None?)
  }

  lemma {:induction false} StageProxyFirst(cfg: Config, env: Env, w0: World, w: World, s: Stage)
    requires ProxyFirst(cfg, w0, w) && Named(cfg, w.l) && (s == Certificate ==> w.l.tps.None?)
    ensures ProxyFirst(cfg, w0, DoStage(cfg, env, w, s).w)
  {
    hide Succeeds;
    if Succeeds(env, w.c) { }
  }

  lemma {:induction false} CleanupProxyFirst(cfg: Config, env: Env, w0: World, w: World, n: nat)
    requires ProxyFirst(cfg, w0, w) && Named(cfg, w.l) && n <= 7 && ClearedTo(cfg, w.l, n)
    ensures ProxyFirst(cfg, w0, CleanupFrom(cfg, env, w, ORDER[n..]).w)
    decreases 7 - n
  {
    if n < 7 {
      ClearedMeans(cfg, w.l, n);
      hide DoStage, ProxyFirst, Named, ClearedTo;
      var s := ORDER[n];
      assert s.Rank() == n && ORDER[n..][0] == s && ORDER[n..][1..] == ORDER[n + 1..];
      StageProxyFirst(cfg, env, w0, w, s);
      StageNamed(cfg, env, w, s);
      StageClears(cfg, env, w, s);
      var r := DoStage(cfg, env, w, s);
      if r.out == Ok {
        ClearedOneMore(cfg, w.l, r.w.l, n);
        CleanupProxyFirst(cfg, env, w0, r.w, n + 1);
      }
    }
  }

  lemma {:induction false} TearDownKeepsRotation(cfg: Config, env: Env, w: World, secret: string)
    requires R.RotationOk(cfg, w, secret) && Named(cfg, w.l) && !TearHazard(cfg, w)
    ensures R.RotationOk(cfg, Cleanup(R.With(cfg, secret), env, w).w, secret)
  {
    var k := R.With(cfg, secret);
    hide CleanupFrom;
    assert ORDER[0..] == ORDER;
    CleanupProxyFirst(k, env, w, w, 0);
    RemainsAfterCleanup(k, env, w);
  }

  /** A tear-down can take away the certificate that its own proxy serves exactly when TearHazard holds before it. */
  lemma {:induction false} TearDownLosesIff(cfg: Config, w: World)
    requires R.Serving(cfg, w.c) && CertNamed(w.l) && Named(cfg, w.l) && cfg.tlsName == ""
    requires w.l.sslCert.Some? ==> w.l.sslCert.value.name in w.c.certs
    ensures (exists env :: !R.Serving(cfg, Cleanup(cfg, env, w).w.c)) <==> TearHazard(cfg, w)
  {
    hide CleanupFrom;
    assert ORDER[0..] == ORDER;
    if TearHazard(cfg, w) {
      var env := Env(n => Done, n => "ip");
      CleanupFromProgress(cfg, env, w, ORDER);
      RemainsAfterCleanup(cfg, env, w);
      UnrecordedStays(cfg, env, w, ORDER);
      assert !R.Serving(cfg, Cleanup(cfg, env, w).w.c);
    } else {
      forall env ensures R.Serving(cfg, Cleanup(cfg, env, w).w.c) {
        CleanupProxyFirst(cfg, env, w, w, 0);
        RemainsAfterCleanup(cfg, env, w);
      }
    }
  }

  lemma {:induction false} UnrecordedStays(cfg: Config, env: Env, w: World, stages: seq<Stage>)
    requires w.l.tps.None?
    ensures CleanupFrom(cfg, env, w, stages).w.c.httpsProxies == w.c.httpsProxies
    decreases |stages|
  {
    hide Succeeds;
    if stages != [] {
      var r := DoStage(cfg, env, w, stages[0]);
      assert r.w.c.httpsProxies == w.c.httpsProxies && r.w.l.tps.None?;
      UnrecordedStays(cfg, env, r.w, stages[1..]);
    }
  }

  /** For instance: after a restart the first pass finds the certificate in use but fails to make the next one, and the
      load balancer is torn down. */
  lemma {:induction false} TornDownTooEarly()
    ensures var w0 := World(NewL7, R.ServedFrom(map["a" := "1"], 0));
            var w1 := EdgeHop(R.With(R.Example, "2"), R.FailsAt(0), w0).w;
            R.Serving(R.Example, w1.c) && TearHazard(R.Example, w1)
  {
    var k, w := R.With(R.Example, "2"), World(NewL7, R.ServedFrom(map["a" := "1"], 0));
    R.StillServed(map["a" := "1"], 0);
    R.StillServed(map["a" := "1"], 1);
    assert EdgeHopFront(k, R.FailsAt(0), w).w == w.(l := w.l.(um := Some(w.c.urlMaps["um"])));
    var w1 := EdgeHopFront(k, R.FailsAt(0), w).w;
    assert Populated(k, w1) == Some(Cert("a", "1"));
    assert CheckSslCert(k, R.FailsAt(0), w1).out == Err;
  }

  lemma {:induction false} CleanupKeepsOk(cfg: Config, env: Env, w: World, stages: seq<Stage>)
    requires CloudOk(w.c)
    ensures CloudOk(CleanupFrom(cfg, env, w, stages).w.c)
    decreases |stages|
  {
    hide DoStage, CloudOk;
    if stages != [] {
      StageKeepsOk(cfg, env, w, stages[0]);
      CleanupKeepsOk(cfg, env, DoStage(cfg, env, w, stages[0]).w, stages[1..]);
    }
  }

  lemma {:induction false} StageKeepsOk(cfg: Config, env: Env, w: World, s: Stage)
    requires CloudOk(w.c)
    ensures CloudOk(DoStage(cfg, env, w, s).w.c)
  {
    hide Succeeds;
  }

  lemma {:induction false} TearDownKeepsCerts(cfg: Config, env: Env, w: World)
    requires CertsOwn(cfg.n, w) && Named(cfg, w.l) && (w.l.sslCert.Some? ==> OwnCert(cfg.n, w.l.sslCert.value.name))
    ensures KeepsCerts(cfg.n, w, Cleanup(cfg, env, w).w)
  {
    hide CleanupFrom;
    CleanupKeepsOwn(cfg, env, w, ORDER);
    RemainsAfterCleanup(cfg, env, w);
  }

  /** What a tear-down does to the load balancer itself, and may do to certificates. */
  lemma {:induction false} TornDown(lb: Lb, env: Env, w: World)
    requires CloudOk(w.c) && R.RotationOk(lb.cfg, w, lb.secret) && CertsOwn(lb.cfg.n, w) && Named(lb.cfg, w.l)
    requires !TearHazard(lb.cfg, w) && (w.l.sslCert.Some? ==> OwnCert(lb.cfg.n, w.l.sslCert.value.name))
    ensures var w' := Cleanup(R.With(lb.cfg, lb.secret), env, w).w;
            CloudOk(w'.c) && R.RotationOk(lb.cfg, w', lb.secret) && KeepsCerts(lb.cfg.n, w, w') && Named(lb.cfg, w'.l)
  {
    var cfg := R.With(lb.cfg, lb.secret);
    hide CleanupFrom, R.RotationOk, CertsOwn, CloudOk, Named, TearHazard;
    SameNamed(lb.cfg, cfg, w.l);
    CleanupKeepsOk(cfg, env, w, ORDER);
    TearDownKeepsRotation(lb.cfg, env, w, lb.secret);
    TearDownKeepsCerts(cfg, env, w);
    Y.CleanupNamed(cfg, env, w, ORDER);
    SameNamed(lb.cfg, cfg, Cleanup(cfg, env, w).w.l);
  }

  lemma {:induction false} TearDownSame(cfg: Config, secret: string, env: Env, w: World, n: LbNames)
    requires NamesApart(cfg.n, n) && Named(cfg, w.l)
    ensures Same(n, w.c, Cleanup(R.With(cfg, secret), env, w).w.c)
  {
    hide CleanupFrom, NamesApart, Same, Named;
    SameNamed(cfg, R.With(cfg, secret), w.l);
    CleanupSame(R.With(cfg, secret), env, w, ORDER, n);
  }

  lemma {:induction false} TearDownKeepsInv(s: Site, k: string, env: Env)
    requires Inv(s) && Allowed(s, TearDown(k, env))
    ensures Inv(After(s, TearDown(k, env)))
  {
    hide Cleanup, R.RotationOk, CertsOwn, CloudOk, NamesApart, Same, Tagged, OwnOrForeign, Named, TearHazard;
    var lb, w := s.lbs[k], s.Of(k);
    var s' := After(s, TearDown(k, env));
    var w' := Cleanup(R.With(lb.cfg, lb.secret), env, w).w;
    assert Rotates(s, k);
    TornDown(lb, env, w);
    forall j | j in s.lbs ensures Rotates(s', j) {
      if j != k {
        assert Rotates(s, j);
        TearDownSame(lb.cfg, lb.secret, env, w, s.lbs[j].cfg.n);
        NeighbourKeeps(s.lbs[j].cfg, s.lbs[j].l, s.lbs[j].secret, lb.cfg.n, w, w');
      }
    }
    assert forall j :: j in s.lbs ==> s'.lbs[j].cfg == s.lbs[j].cfg;
  }

  lemma {:induction false} SameNamed(cfg: Config, cfg': Config, l: L7)
    requires cfg.n == cfg'.n
    ensures Named(cfg, l) == Named(cfg', l)
  {
  }

  // ---------------------------------------------------------------- histories

  lemma {:induction false} NoNameIsForeign(n: LbNames)
    ensures OwnOrForeign(n, "")
  {
  }

  lemma {:induction false} QuietRotates(cfg: Config, l: L7, c: Cloud, secret: string, next: string)
    requires R.RotationOk(cfg, World(l, c), secret) && CertsOwn(cfg.n, World(l, c))
    ensures R.RotationOk(cfg, World(NewL7, c), secret) && CertsOwn(cfg.n, World(NewL7, c))
    ensures !R.Pending(cfg, World(l, c)) ==> R.RotationOk(cfg, World(l, c), next)
  {
  }

  lemma {:induction false} NewNamed()
    ensures forall cfg :: Named(cfg, NewL7)
  {
  }

  lemma {:induction false} RestartKeepsInv(s: Site)
    requires Inv(s)
    ensures Inv(After(s, Restart))
  {
    hide R.RotationOk, CertsOwn, CloudOk, NamesApart, Tagged, Named;
    NewNamed();
    var s' := After(s, Restart);
    forall j | j in s'.lbs ensures Rotates(s', j) {
      assert Rotates(s, j);
      QuietRotates(s.lbs[j].cfg, s.lbs[j].l, s.c, s.lbs[j].secret, "");
    }
    assert forall j :: j in s.lbs ==> s'.lbs[j].cfg == s.lbs[j].cfg;
  }

  /** One load balancer has changed in place, and the cloud not at all. */
  lemma {:induction false} OneKeepsInv(s: Site, k: string, lb: Lb)
    requires Inv(s) && k in s.lbs && lb.cfg.n == s.lbs[k].cfg.n && Rotates(s.(lbs := s.lbs[k := lb]), k)
    ensures Inv(s.(lbs := s.lbs[k := lb]))
  {
    hide R.RotationOk, CertsOwn, CloudOk, NamesApart, Tagged, Named;
    var s' := s.(lbs := s.lbs[k := lb]);
    forall j | j in s'.lbs ensures Rotates(s', j) { assert Rotates(s, j); }
    assert forall j :: j in s.lbs ==> s'.lbs[j].cfg.n == s.lbs[j].cfg.n;
  }

  lemma {:induction false} QuietKeepsInv(s: Site, e: Event)
    requires Inv(s) && Allowed(s, e) && (e.NewSecret? || e.Drop? || e.Configure?)
    ensures Inv(After(s, e))
  {
    var k := e.lb;
    var lb, lb' := s.lbs[k], After(s, e).lbs[k];
    assert Rotates(s, k);
    QuietRotates(lb.cfg, lb.l, s.c, lb.secret, lb'.secret);
    NewNamed();
    NamesDecide(lb.cfg, lb'.cfg, s.Of(k), lb.secret);
    hide R.RotationOk, CertsOwn, CloudOk, NamesApart, Tagged, Named, Inv, R.Pending;
    OneKeepsInv(s, k, lb');
  }

  lemma {:induction false} StartRotates(lb: Lb, c: Cloud)
    requires Startable(lb, c)
    ensures R.RotationOk(lb.cfg, World(lb.l, c), lb.secret) && CertsOwn(lb.cfg.n, World(lb.l, c)) && Named(lb.cfg, lb.l)
  {
  }

  lemma {:induction false} JoinKeepsInv(s: Site, k: string, lb: Lb)
    requires Inv(s) && Allowed(s, Join(k, lb))
    ensures Inv(After(s, Join(k, lb)))
  {
    hide R.RotationOk, CertsOwn, CloudOk, Named, Startable, AllApart;
    StartRotates(lb, s.c);
    var s' := After(s, Join(k, lb));
    forall j | j in s'.lbs ensures Rotates(s', j) { assert Rotates(s, j); }
  }

  /** Only the names in a configuration matter to what is known. */
  lemma {:induction false} NamesDecide(cfg: Config, cfg': Config, w: World, secret: string)
    requires cfg.n == cfg'.n
    ensures R.RotationOk(cfg, w, secret) == R.RotationOk(cfg', w, secret) && Named(cfg, w.l) == Named(cfg', w.l)
  {
  }

  lemma {:induction false} StartInv(s: Site)
    requires Start(s)
    ensures Inv(s)
  {
    hide R.RotationOk, CertsOwn, CloudOk, Named, Startable, AllApart;
    forall k ensures Rotates(s, k) { if k in s.lbs { StartRotates(s.lbs[k], s.c); } }
  }

  lemma {:induction false} StepInv(s: Site, e: Event)
    requires Inv(s) && Allowed(s, e)
    ensures Inv(After(s, e))
  {
    hide Inv, After, Tagged, Allowed;
    match e
    case Pass(k, env) => PassKeepsInv(s, k, env);
    case TearDown(k, env) => TearDownKeepsInv(s, k, env);
    case Restart => RestartKeepsInv(s);
    case Join(k, lb) => JoinKeepsInv(s, k, lb);
    case _ => QuietKeepsInv(s, e);
  }

  lemma {:induction false} HistoryInv(sites: seq<Site>, events: seq<Event>, i: nat)
    requires IsHistory(sites, events) && i < |sites|
    ensures Inv(sites[i])
  {
    hide Inv, Start, After, Allowed, Tagged;
    if i == 0 {
      StartInv(sites[0]);
    } else {
      HistoryInv(sites, events, i - 1);
      var e := events[i - 1];
      StepInv(sites[i - 1], e);
    }
  }

  /** In every history of load balancers whose names are apart: every HTTPS proxy names a certificate that exists, at
      every moment, and a pass that succeeds leaves the proxy of its load balancer serving exactly its secret. */
  lemma {:induction false} SharedRotationSafe(sites: seq<Site>, events: seq<Event>, i: nat, k: string)
    requires IsHistory(sites, events) && i < |sites| && k in sites[i].lbs
    ensures R.Serving(sites[i].lbs[k].cfg, sites[i].c)
    ensures i < |events| && events[i].Pass? && events[i].lb == k
            && EdgeHop(R.With(sites[i].lbs[k].cfg, sites[i].lbs[k].secret), events[i].env, sites[i].Of(k)).out == Ok ==>
              var cfg, c := sites[i].lbs[k].cfg, sites[i + 1].c;
              R.HasProxy(cfg, c) && R.InUse(cfg, c) in c.certs && c.certs[R.InUse(cfg, c)] == sites[i].lbs[k].secret
  {
    HistoryInv(sites, events, i);
    assert Rotates(sites[i], k);
    if i < |events| && events[i].Pass? && events[i].lb == k {
      var cfg := R.With(sites[i].lbs[k].cfg, sites[i].lbs[k].secret);
      hide EdgeHop, CloudOk;
      if EdgeHop(cfg, events[i].env, sites[i].Of(k)).out == Ok {
        EdgeHopCompletesChain(cfg, events[i].env, sites[i].Of(k));
      }
    }
  }

  // ---------------------------------------------------------------- when the names are not apart

  const Web := Config(NamesOf("web"), Some(Self(BackendKind, "be")), false, Some(""), "", "")
  const OneWeb := Config(NamesOf("1-web"), Some(Self(BackendKind, "be")), false, Some(""), "", "")

  /** `web` rotates onto the certificate that the proxy of `1-web` serves: a pass of `web` with a new secret puts its
      own certificate there. */
  lemma {:induction false} NeighbourOverwritten(c: Cloud, env: Env)
    requires CloudOk(c) && AllSucceed(env) && Handsout(env)
    requires R.Serving(Web, c) && R.HasProxy(Web, c) && R.InUse(Web, c) == Web.n.primary
               && c.certs[Web.n.primary] == "old"
    requires R.Serving(OneWeb, c) && R.HasProxy(OneWeb, c) && R.InUse(OneWeb, c) == OneWeb.n.primary
    ensures OneWeb.n.primary == Web.n.secondary
    ensures var w := EdgeHop(R.With(Web, "new"), env, World(NewL7, c)).w;
            Web.n.primary !in w.c.certs && At(w.c.certs, OneWeb.n.primary) == Some("new")
  {
    assert "1-" + "web" == "1-web";
    SecondaryIsPrimary("web");
    var k := R.With(Web, "new");
    NamesValidIff("web");
    hide EdgeHopFront, EdgeHopHttps;
    FrontSucceeds(k, env, World(NewL7, c));
    FrontFrame(k, env, World(NewL7, c));
    FrontChain(k, env, World(NewL7, c));
    RotatesOver(k, env, EdgeHopFront(k, env, World(NewL7, c)).w);
  }

  lemma {:induction false} RotatesOver(k: Config, env: Env, w: World)
    requires k.n.Valid() && k.tlsName == "" && k.tls.Some? && AllSucceed(env) && w.l.sslCert.None? && Tagged(k.n)
    requires R.HasProxy(k, w.c) && R.Serving(k, w.c) && R.InUse(k, w.c) == k.n.primary
               && w.c.certs[k.n.primary] != k.tls.value
    requires w.l.um.Some?
    ensures EdgeHopHttps(k, env, w).w.c.certs == w.c.certs[k.n.secondary := k.tls.value] - {k.n.primary}
  {
    hide CheckHttpsProxy, CheckRule;
    var r1 := CheckSslCert(k, env, w);
    assert r1.out == Ok && r1.w.c.certs == w.c.certs[k.n.secondary := k.tls.value];
    assert r1.w.l.oldSslCert == Some(Cert(k.n.primary, w.c.certs[k.n.primary]))
      && r1.w.l.sslCert == Some(Cert(k.n.secondary, k.tls.value));
    hide CheckSslCert;
    HttpsProxySucceeds(k, env, r1.w);
    R.ProxyServes(k, env, r1.w);
    var r2 := CheckHttpsProxy(k, env, r1.w);
    if r2.w.l.tps.Some? {
      RuleChecked(env, r2.w.c, k.n.fws, Self(HttpsProxyKind, r2.w.l.tps.value), EffectiveIp(k, r2.w).0, HTTPS_PORTS);
    }
  }
}
