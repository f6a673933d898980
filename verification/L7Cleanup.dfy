/** Tear-down of a load balancer: in dependency order, resumable after any failed delete. */
module L7Cleanup {
  import opened Text
  import opened L7Cloud
  import opened L7World

  /** The resources in the order Cleanup goes through them. */
  datatype Stage = HttpRule | HttpsRule | StaticIp | HttpsProxyStage | Certificate | HttpProxy | Map {
    function Rank(): (n: nat) {
      match this case HttpRule => 0 case HttpsRule => 1 case StaticIp => 2 case HttpsProxyStage => 3
                 case Certificate => 4 case HttpProxy => 5 case Map => 6
    }
  }

  const ORDER: seq<Stage> := [HttpRule, HttpsRule, StaticIp, HttpsProxyStage, Certificate, HttpProxy, Map]

  /** A field holds something that this stage has to delete. */
  predicate Recorded(cfg: Config, l: L7, s: Stage) {
    match s
    case HttpRule => l.fw.Some?
    case HttpsRule => l.fws.Some?
    case StaticIp => l.ip.Some?
    case HttpsProxyStage => l.tps.Some?
    case Certificate => l.sslCert.Some? && cfg.tlsName == "" // not one shared by the user
    case HttpProxy => l.tp.Some?
    case Map => l.um.Some?
  }

  function Without(cfg: Config, w: World, s: Stage): (c: Cloud)
    requires Recorded(cfg, w.l, s)
  {
    match s
    case HttpRule => w.c.(rules := w.c.rules - {w.l.fw.value.name})
    case HttpsRule => w.c.(rules := w.c.rules - {w.l.fws.value.name})
    case StaticIp => w.c.(addresses := w.c.addresses - {w.l.ip.value.name})
    case HttpsProxyStage => w.c.(httpsProxies := w.c.httpsProxies - {w.l.tps.value})
    case Certificate => w.c.(certs := w.c.certs - {w.l.sslCert.value.name})
    case HttpProxy => w.c.(httpProxies := w.c.httpProxies - {w.l.tp.value})
    case Map => w.c.(urlMaps := w.c.urlMaps - {w.l.um.value.name})
  }

  function Forget(l: L7, s: Stage): (l': L7) {
    match s
    case HttpRule => l.(fw := None)
    case HttpsRule => l.(fws := None)
    case StaticIp => l.(ip := None)
    case HttpsProxyStage => l.(tps := None)
    case Certificate => l.(sslCert := None)
    case HttpProxy => l.(tp := None)
    case Map => l.(um := None)
  }

  /** Delete the resource if it is recorded (one already gone counts as deleted), then clear the field. */
  function DoStage(cfg: Config, env: Env, w: World, s: Stage): (r: Res) {
    if !Recorded(cfg, w.l, s) then Res(w, Ok)
    else
      var c' := Write(env, w.c, Without(cfg, w, s));
      if Succeeds(env, w.c) then Res(World(Forget(w.l, s), c'), Ok) else Res(w.(c := c'), Err)
  }

  function CleanupFrom(cfg: Config, env: Env, w: World, stages: seq<Stage>): (r: Res)
    decreases |stages|
  {
    if stages == [] then Res(w, Ok)
    else
      var r := DoStage(cfg, env, w, stages[0]);
      if r.out != Ok then r else CleanupFrom(cfg, env, r.w, stages[1..])
  }

  function Cleanup(cfg: Config, env: Env, w: World): (r: Res) { CleanupFrom(cfg, env, w, ORDER) }

  // ---------------------------------------------------------------- what Cleanup relies on and keeps

  /** The fields hold the names the namer gives. */
  predicate Named(cfg: Config, l: L7) {
    && (l.fw.Some? ==> l.fw.value.name == cfg.n.fw) && (l.fws.Some? ==> l.fws.value.name == cfg.n.fws)
    && (l.tp.Some? ==> l.tp.value == cfg.n.tp) && (l.tps.Some? ==> l.tps.value == cfg.n.tps)
    && (l.um.Some? ==> l.um.value.name == cfg.n.um) && (l.ip.Some? ==> l.ip.value.name == cfg.n.fw)
  }

  /** Every forwarding rule, proxy and url map of this load balancer is recorded. Certificates and the reserved
      address are another matter, see L7Remains. */
  predicate AllRecorded(cfg: Config, w: World) {
    && Named(cfg, w.l)
    && (cfg.n.fw in w.c.rules ==> w.l.fw.Some?) && (cfg.n.fws in w.c.rules ==> w.l.fws.Some?)
    && (cfg.n.tp in w.c.httpProxies ==> w.l.tp.Some?) && (cfg.n.tps in w.c.httpsProxies ==> w.l.tps.Some?)
    && (cfg.n.um in w.c.urlMaps ==> w.l.um.Some?)
  }

  /** No resource of this load balancer refers to one that is gone: rules to proxies and to the reserved IP, proxies
      to the url map, the HTTPS proxy to its certificate. */
  predicate NoDangling(cfg: Config, w: World) {
    && (cfg.n.fw in w.c.rules ==> cfg.n.tp in w.c.httpProxies)
    && (cfg.n.fws in w.c.rules ==> cfg.n.tps in w.c.httpsProxies)
    && (w.l.ip.Some? && (cfg.n.fw in w.c.rules || cfg.n.fws in w.c.rules) ==> w.l.ip.value.name in w.c.addresses)
    && (cfg.n.tp in w.c.httpProxies ==> cfg.n.um in w.c.urlMaps)
    && (cfg.n.tps in w.c.httpsProxies ==> cfg.n.um in w.c.urlMaps && CertsExist(w.c.httpsProxies[cfg.n.tps].certs, w.c))
  }

  predicate CertsExist(certs: seq<Link>, c: Cloud) {
    forall i :: 0 <= i < |certs| ==> NameInLink(certs[i]) in c.certs
  }

  /** Everything that comes before the n-th stage has been cleared. */
  ghost predicate ClearedTo(cfg: Config, l: L7, n: nat) {
    forall t: Stage :: t.Rank() < n ==> !Recorded(cfg, l, t)
  }

  /** The certificate that a tear-down deletes: the recorded one, unless it is the user's. */
  function Doomed(cfg: Config, l: L7): (names: set<string>) {
    if l.sslCert.Some? && cfg.tlsName == "" then {l.sslCert.value.name} else {}
  }

  function DoomedAddress(l: L7): (names: set<string>) { if l.ip.Some? then {l.ip.value.name} else {} }

  /** Of certificates and addresses, what has left the fields since `w0` has left the cloud, and nothing else has. */
  predicate Reaped(cfg: Config, w0: World, w: World) {
    && w.l.oldSslCert == w0.l.oldSslCert
    && ((w.l.ip == w0.l.ip && w.c.addresses == w0.c.addresses)
        || (w.l.ip.None? && w.c.addresses == w0.c.addresses - DoomedAddress(w0.l)))
    && ((w.l.sslCert == w0.l.sslCert && w.c.certs == w0.c.certs)
        || (cfg.tlsName == "" && w.l.sslCert.None? && w.c.certs == w0.c.certs - Doomed(cfg, w0.l)))
  }

  lemma {:induction false} ClearedMeans(cfg: Config, l: L7, n: nat)
    requires ClearedTo(cfg, l, n)
    ensures n > 0 ==> l.fw.None?
    ensures n > 1 ==> l.fws.None?
    ensures n > 2 ==> l.ip.None?
    ensures n > 3 ==> l.tps.None?
    ensures n > 4 && cfg.tlsName == "" ==> l.sslCert.None?
    ensures n > 5 ==> l.tp.None?
    ensures n > 6 ==> l.um.None?
  {
    assert n > 0 ==> !Recorded(cfg, l, HttpRule);
    assert n > 1 ==> !Recorded(cfg, l, HttpsRule);
    assert n > 2 ==> !Recorded(cfg, l, StaticIp);
    assert n > 3 ==> !Recorded(cfg, l, HttpsProxyStage);
    assert n > 4 ==> !Recorded(cfg, l, Certificate);
    assert n > 5 ==> !Recorded(cfg, l, HttpProxy);
    assert n > 6 ==> !Recorded(cfg, l, Map);
  }

  lemma {:induction false} RuleStageRecords(cfg: Config, env: Env, w: World, s: Stage)
    requires AllRecorded(cfg, w) && (s == HttpRule || s == HttpsRule)
    ensures AllRecorded(cfg, DoStage(cfg, env, w, s).w)
  {
    hide Succeeds;
  }

  lemma {:induction false} ProxyStageRecords(cfg: Config, env: Env, w: World, s: Stage)
    requires AllRecorded(cfg, w) && (s == HttpProxy || s == HttpsProxyStage)
    ensures AllRecorded(cfg, DoStage(cfg, env, w, s).w)
  {
    hide Succeeds;
  }

  lemma {:induction false} OtherStageRecords(cfg: Config, env: Env, w: World, s: Stage)
    requires AllRecorded(cfg, w) && (s == StaticIp || s == Certificate || s == Map)
    ensures AllRecorded(cfg, DoStage(cfg, env, w, s).w)
  {
    hide Succeeds;
  }

  lemma {:induction false} StageKeepsRecords(cfg: Config, env: Env, w: World, s: Stage)
    requires AllRecorded(cfg, w)
    ensures AllRecorded(cfg, DoStage(cfg, env, w, s).w)
  {
    hide DoStage, AllRecorded;
    if s == HttpRule || s == HttpsRule { RuleStageRecords(cfg, env, w, s); }
    else if s == HttpProxy || s == HttpsProxyStage { ProxyStageRecords(cfg, env, w, s); }
    else { OtherStageRecords(cfg, env, w, s); }
  }

  lemma {:induction false} EarlyStageSafe(cfg: Config, env: Env, w: World, s: Stage)
    requires AllRecorded(cfg, w) && NoDangling(cfg, w) && s.Rank() <= 2
               && (s == StaticIp ==> w.l.fw.None? && w.l.fws.None?)
    ensures NoDangling(cfg, DoStage(cfg, env, w, s).w)
  {
    NothingLeft(cfg, w);
    FieldsNamed(cfg, w);
    hide CertsExist, Succeeds, AllRecorded;
    CertsKept(w.c, DoStage(cfg, env, w, s).w.c);
  }

  lemma {:induction false} LateStageSafe(cfg: Config, env: Env, w: World, s: Stage)
    requires AllRecorded(cfg, w) && NoDangling(cfg, w) && s.Rank() > 2 && w.l.fw.None? && w.l.fws.None?
    requires s == HttpsProxyStage || w.l.tps.None?
    requires s == Map ==> w.l.tp.None?
    ensures NoDangling(cfg, DoStage(cfg, env, w, s).w)
  {
    NothingLeft(cfg, w);
    FieldsNamed(cfg, w);
    hide CertsExist, Succeeds, AllRecorded;
    CertsKept(w.c, DoStage(cfg, env, w, s).w.c);
  }

  /** At its turn, no stage deletes anything that a remaining resource refers to, whether the delete works or not. */
  lemma {:induction false} StageSafe(cfg: Config, env: Env, w: World, s: Stage)
    requires AllRecorded(cfg, w) && NoDangling(cfg, w) && ClearedTo(cfg, w.l, s.Rank())
    ensures var w' := DoStage(cfg, env, w, s).w; AllRecorded(cfg, w') && NoDangling(cfg, w')
  {
    hide AllRecorded, NoDangling, DoStage, ClearedTo;
    ClearedMeans(cfg, w.l, s.Rank());
    StageKeepsRecords(cfg, env, w, s);
    if s.Rank() <= 2 { EarlyStageSafe(cfg, env, w, s); } else { LateStageSafe(cfg, env, w, s); }
  }

  lemma {:induction false} FieldsNamed(cfg: Config, w: World)
    requires AllRecorded(cfg, w)
    ensures w.l.fw.Some? ==> w.l.fw.value.name == cfg.n.fw
    ensures w.l.fws.Some? ==> w.l.fws.value.name == cfg.n.fws
    ensures w.l.tp.Some? ==> w.l.tp.value == cfg.n.tp
    ensures w.l.tps.Some? ==> w.l.tps.value == cfg.n.tps
    ensures w.l.um.Some? ==> w.l.um.value.name == cfg.n.um
  {
  }

  lemma {:induction false} NothingLeft(cfg: Config, w: World)
    requires AllRecorded(cfg, w)
    ensures w.l.fw.None? ==> cfg.n.fw !in w.c.rules
    ensures w.l.fws.None? ==> cfg.n.fws !in w.c.rules
    ensures w.l.tps.None? ==> cfg.n.tps !in w.c.httpsProxies
    ensures w.l.tp.None? ==> cfg.n.tp !in w.c.httpProxies
  {
  }

  lemma {:induction false} CertsKept(c: Cloud, c': Cloud)
    ensures c'.certs == c.certs ==> forall links :: CertsExist(links, c') == CertsExist(links, c)
  {
  }

  lemma {:induction false} StageReaps(cfg: Config, env: Env, w0: World, w: World, s: Stage)
    requires Reaped(cfg, w0, w)
    ensures Reaped(cfg, w0, DoStage(cfg, env, w, s).w)
  {
  }

  lemma {:induction false} StageClears(cfg: Config, env: Env, w: World, s: Stage)
    ensures var r := DoStage(cfg, env, w, s);
            && (r.out == Ok ==> !Recorded(cfg, r.w.l, s))
            && (forall t :: Recorded(cfg, r.w.l, t) ==> Recorded(cfg, w.l, t))
            && (r.out != Ok ==> r.out == Err && Recorded(cfg, w.l, s) && r.w.l == w.l
                                && env.verdict(w.c.writes) != Done)
            && r.w.c.writes == w.c.writes + (if Recorded(cfg, w.l, s) then 1 else 0)
  {
  }

  lemma {:induction false} CleanupFromSafe(cfg: Config, env: Env, w: World, n: nat)
    requires AllRecorded(cfg, w) && n <= 7 && ClearedTo(cfg, w.l, n)
    ensures var r := CleanupFrom(cfg, env, w, ORDER[n..]);
            && AllRecorded(cfg, r.w) && (NoDangling(cfg, w) ==> NoDangling(cfg, r.w))
            && (r.out == Ok ==> ClearedTo(cfg, r.w.l, 7))
    decreases 7 - n
  {
    hide AllRecorded, NoDangling, DoStage;
    if n < 7 {
      var s := ORDER[n];
      assert s.Rank() == n && ORDER[n..][0] == s && ORDER[n..][1..] == ORDER[n + 1..];
      StageKeepsRecords(cfg, env, w, s);
      if NoDangling(cfg, w) { StageSafe(cfg, env, w, s); }
      StageClears(cfg, env, w, s);
      var r := DoStage(cfg, env, w, s);
      if r.out == Ok {
        ClearedOneMore(cfg, w.l, r.w.l, n);
        CleanupFromSafe(cfg, env, r.w, n + 1);
      }
    }
  }

  lemma {:induction false} ClearedOneMore(cfg: Config, l: L7, l': L7, n: nat)
    requires n < 7 && ClearedTo(cfg, l, n) && !Recorded(cfg, l', ORDER[n])
    requires forall t :: Recorded(cfg, l', t) ==> Recorded(cfg, l, t)
    ensures ClearedTo(cfg, l', n + 1)
  {
    hide Recorded;
    forall t: Stage | t.Rank() < n + 1 ensures !Recorded(cfg, l', t) {
      assert t.Rank() < n || t == ORDER[n];
    }
  }

  /** No forwarding rule, proxy or url map of the load balancer is left. */
  predicate Clear(n: LbNames, c: Cloud) {
    n.um !in c.urlMaps && n.tp !in c.httpProxies && n.tps !in c.httpsProxies && n.fw !in c.rules && n.fws !in c.rules
  }

  /** Exactly one certificate and one address go, those recorded. */
  predicate RemainsExactly(cfg: Config, w0: World, c: Cloud) {
    c.certs == w0.c.certs - Doomed(cfg, w0.l) && c.addresses == w0.c.addresses - DoomedAddress(w0.l)
  }

  lemma {:induction false} CleanupReaps(cfg: Config, env: Env, w0: World, w: World, n: nat)
    requires Reaped(cfg, w0, w) && n <= 7 && ClearedTo(cfg, w.l, n)
    ensures var r := CleanupFrom(cfg, env, w, ORDER[n..]);
            && Reaped(cfg, w0, r.w) && (r.out == Ok ==> ClearedTo(cfg, r.w.l, 7))
    decreases 7 - n
  {
    hide DoStage, Reaped;
    if n < 7 {
      var s := ORDER[n];
      assert s.Rank() == n && ORDER[n..][0] == s && ORDER[n..][1..] == ORDER[n + 1..];
      StageReaps(cfg, env, w0, w, s);
      StageClears(cfg, env, w, s);
      var r := DoStage(cfg, env, w, s);
      if r.out == Ok {
        ClearedOneMore(cfg, w.l, r.w.l, n);
        CleanupReaps(cfg, env, w0, r.w, n + 1);
      }
    }
  }

  /** From any fields and any cloud: of all certificates and addresses exactly the recorded ones are gone after a
      tear-down that succeeds. */
  lemma {:induction false} RemainsAfterCleanup(cfg: Config, env: Env, w: World)
    ensures var r := Cleanup(cfg, env, w);
            Reaped(cfg, w, r.w) && (r.out == Ok ==> RemainsExactly(cfg, w, r.w.c) && r.w.l.ip.None?
                                                     && (cfg.tlsName == "" ==> r.w.l.sslCert.None?))
  {
    hide CleanupFrom;
    assert ORDER[0..] == ORDER;
    CleanupReaps(cfg, env, w, w, 0);
    var r := Cleanup(cfg, env, w);
    if r.out == Ok { ClearedMeans(cfg, r.w.l, 7); }
  }

  /** Cut short by a failing delete at any point or not, Cleanup never leaves a reference to something it deleted and
      can be called again. When it succeeds no forwarding rule, proxy or url map of the load balancer is left, and of
      all certificates and addresses in the cloud exactly the recorded ones are gone. */
  lemma {:induction false} CleanupSafe(cfg: Config, env: Env, w: World)
    requires AllRecorded(cfg, w)
    ensures var r := Cleanup(cfg, env, w);
            && AllRecorded(cfg, r.w) && (NoDangling(cfg, w) ==> NoDangling(cfg, r.w))
            && Reaped(cfg, w, r.w)
            && (r.out == Ok ==> Clear(cfg.n, r.w.c) && RemainsExactly(cfg, w, r.w.c))
  {
    hide CleanupFrom;
    CleanupFromSafe(cfg, env, w, 0);
    RemainsAfterCleanup(cfg, env, w);
    assert ORDER[0..] == ORDER;
    var r := Cleanup(cfg, env, w);
    if r.out == Ok { ClearedMeans(cfg, r.w.l, 7); }
  }

  /** One stage at a time, as the method goes through them. */
  lemma {:induction false} CleanupStep(cfg: Config, env: Env, w: World, k: nat)
    requires k < |ORDER|
    ensures var r := DoStage(cfg, env, w, ORDER[k]);
            CleanupFrom(cfg, env, w, ORDER[k..]) == if r.out != Ok then r
              else CleanupFrom(cfg, env, r.w, ORDER[k + 1..])
    ensures k == 0 ==> ORDER[k..] == ORDER
    ensures k + 1 == |ORDER| ==> CleanupFrom(cfg, env, w, ORDER[k..]) == DoStage(cfg, env, w, ORDER[k])
  {
    assert ORDER[k..][1..] == ORDER[k + 1..];
  }

  // ---------------------------------------------------------------- progress over retries

  function One(b: bool): (n: nat) { if b then 1 else 0 }

  /** How many resources are recorded. */
  function Count(cfg: Config, l: L7): (n: nat) {
    One(l.fw.Some?) + One(l.fws.Some?) + One(l.ip.Some?) + One(l.tps.Some?)
    + One(l.sslCert.Some? && cfg.tlsName == "") + One(l.tp.Some?) + One(l.um.Some?)
  }

  lemma {:induction false} StageCounts(cfg: Config, env: Env, w: World, s: Stage)
    ensures var r := DoStage(cfg, env, w, s);
            && (r.out == Ok ==> Count(cfg, r.w.l) + (r.w.c.writes - w.c.writes) == Count(cfg, w.l))
            && r.w.c.writes >= w.c.writes
  {
  }

  lemma {:induction false} CleanupFromProgress(cfg: Config, env: Env, w: World, stages: seq<Stage>)
    ensures var r := CleanupFrom(cfg, env, w, stages);
            && r.out != Panic && r.w.c.writes >= w.c.writes
            && Count(cfg, r.w.l) + (r.w.c.writes - w.c.writes) == Count(cfg, w.l) + One(r.out == Err)
            && (r.out == Err ==> r.w.c.writes > w.c.writes && env.verdict(r.w.c.writes - 1) != Done)
    decreases |stages|
  {
    if stages != [] {
      StageCounts(cfg, env, w, stages[0]);
      StageClears(cfg, env, w, stages[0]);
      var r := DoStage(cfg, env, w, stages[0]);
      if r.out == Ok { CleanupFromProgress(cfg, env, r.w, stages[1..]); }
    }
  }

  /** Each call that returns an error has cleared every resource it went past and met exactly one failing delete, so a
      retry has strictly fewer resources recorded, or stopped at the first one it tried. */
  lemma {:induction false} CleanupProgress(cfg: Config, env: Env, w: World)
    ensures var r := Cleanup(cfg, env, w);
            && Count(cfg, r.w.l) <= Count(cfg, w.l)
            && (r.out == Err ==> Count(cfg, r.w.l) < Count(cfg, w.l) || r.w.c.writes == w.c.writes + 1)
  {
    CleanupFromProgress(cfg, env, w, ORDER);
  }

  /** Up to `tries` calls, stopping at the first that succeeds. */
  function Retry(cfg: Config, env: Env, w: World, tries: nat): (r: Res)
    decreases tries
  {
    if tries == 0 then Res(w, Err)
    else
      var r := Cleanup(cfg, env, w);
      if r.out == Ok then r else Retry(cfg, env, r.w, tries - 1)
  }

  /** Failing writes numbered from `a` up to `b`. */
  function Failures(env: Env, a: nat, b: nat): (n: nat)
    requires a <= b
  {
    if a == b then 0 else Failures(env, a, b - 1) + One(env.verdict(b - 1) != Done)
  }

  lemma {:induction false} FailuresSplit(env: Env, a: nat, m: nat, b: nat)
    requires a <= m <= b
    ensures Failures(env, a, b) == Failures(env, a, m) + Failures(env, m, b)
  {
    if m < b { FailuresSplit(env, a, m, b - 1); }
  }

  /** If at most `f` of the coming writes fail, some call among the next `f + 1` succeeds. */
  lemma {:induction false} RetriesFinish(cfg: Config, env: Env, w: World, f: nat)
    requires forall b :: b >= w.c.writes ==> Failures(env, w.c.writes, b) <= f
    ensures Retry(cfg, env, w, f + 1).out == Ok
    decreases f
  {
    hide CleanupFrom;
    CleanupFromProgress(cfg, env, w, ORDER);
    var r := Cleanup(cfg, env, w);
    if r.out != Ok {
      var a, m := w.c.writes, r.w.c.writes;
      FailuresSplit(env, a, m - 1, m);
      assert Failures(env, m - 1, m) == 1;
      assert Failures(env, a, m) >= 1;
      forall b | b >= m ensures Failures(env, m, b) <= f - 1 {
        FailuresSplit(env, a, m, b);
      }
      RetriesFinish(cfg, env, r.w, f - 1);
    }
  }
}
