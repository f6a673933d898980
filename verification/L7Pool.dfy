/** The pool of load balancers (pkg/loadbalancers/loadbalancers.go). It starts empty over whatever the cloud holds; its
    load balancers share that cloud and leave each other alone. */
module L7Pool {
  import opened Text
  import opened L7Cloud
  import opened L7World
  import opened L7EdgeHop
  import opened L7Cleanup
  import opened L7Isolation
  import opened L7Lifecycle
  import opened L7Remains
  import L7Conflict
  import Namer

  /** What is known of one load balancer of the pool. */
  datatype Entry = Entry(cfg: Config, l: L7)

  type Entries = map<string, Entry>

  /** What the controller asks for; `name` is the key of the ingress. */
  datatype RuntimeInfo = RuntimeInfo(name: string, allowHttp: bool, tls: Option<string>, tlsName: string,
    staticIpName: string)

  /** Load balancers that may come and go: names kept by the namer, apart from each other. */
  ghost predicate Universe(uid: string, lbs: set<string>) {
    && (forall a :: a in lbs ==> NamesOf(a).Valid() && Namer.LoadBalancer(uid, a) == a)
    && (forall a, b :: a in lbs && b in lbs && a != b ==> NamesApart(NamesOf(a), NamesOf(b)))
  }

  /** What a controller can check of its ingress keys for the pool to keep its load balancers apart: the namer keeps
      their names, and these are separate. */
  lemma {:induction false} KeysMakeUniverse(uid: string, keys: set<string>)
    requires !HasDouble(uid, '-') && Namer.NoSlash(uid)
    requires forall k :: k in keys ==> Namer.LbStable(uid, k)
    requires forall k :: k in keys ==> var lb := Namer.LoadBalancer(uid, k); !(|lb| > 54 && Namer.Alternating(lb[..54]))
    requires forall j, k :: j in keys && k in keys && Namer.LoadBalancer(uid, j) != Namer.LoadBalancer(uid, k) ==>
               Separate(Namer.LoadBalancer(uid, j), Namer.LoadBalancer(uid, k))
    ensures Universe(uid, set k | k in keys :: Namer.LoadBalancer(uid, k))
  {
    hide Namer.LoadBalancer, Namer.LbStable, NamesApart, NamesOf, Separate;
    forall k | k in keys
      ensures var lb := Namer.LoadBalancer(uid, k); NamesOf(lb).Valid() && Namer.LoadBalancer(uid, lb) == lb {
      Namer.LoadBalancerIdempotentIff(uid, k);
      NamesValidIff(Namer.LoadBalancer(uid, k));
    }
    forall a, b | Separate(a, b) ensures NamesApart(NamesOf(a), NamesOf(b)) { NamesApartIff(a, b); }
  }

  // ---------------------------------------------------------------- one load balancer and the others

  /** The fields of one load balancer, none if it is not in the pool. */
  function FieldsOf(lb: string, entries: Entries): (l: L7) { if lb in entries then entries[lb].l else NewL7 }

  /** What holds of every load balancer at any time, even right after a restart: right names. */
  predicate Kept(lb: string, entries: Entries, c: Cloud) {
    && MapNamed(NamesOf(lb), c)
    && (lb in entries ==> entries[lb].cfg.n == NamesOf(lb) && Named(entries[lb].cfg, entries[lb].l))
  }

  /** If it is in the pool, all its rules, proxies and its url map are recorded; if not, it has none in the cloud. */
  predicate Accounted(lb: string, entries: Entries, c: Cloud) {
    if lb in entries then Held(entries[lb].cfg, World(entries[lb].l, c)) else Clear(NamesOf(lb), c)
  }

  /** Neither its fields nor its proxy name a certificate of another load balancer. */
  predicate Own(lb: string, entries: Entries, c: Cloud) { CertsOwn(NamesOf(lb), World(FieldsOf(lb, entries), c)) }

  ghost predicate PoolOk(lbs: set<string>, entries: Entries, c: Cloud) {
    entries.Keys <= lbs && forall lb :: lb in lbs ==> Kept(lb, entries, c)
  }

  /** Nothing has changed of this load balancer: neither its entry nor, to the content, its resources. */
  predicate Unchanged(lb: string, entries: Entries, c: Cloud, entries': Entries, c': Cloud) {
    && Same(NamesOf(lb), c, c')
    && (lb in entries' <==> lb in entries) && (lb in entries ==> entries'[lb] == entries[lb])
  }

  lemma {:induction false} UnchangedKeeps(lb: string, entries: Entries, c: Cloud, entries': Entries, c': Cloud)
    requires Unchanged(lb, entries, c, entries', c')
    ensures Kept(lb, entries, c) ==> Kept(lb, entries', c')
    ensures Own(lb, entries, c) ==> Own(lb, entries', c')
  {
  }

  lemma {:induction false} UnchangedAccounts(lb: string, entries: Entries, c: Cloud, entries': Entries, c': Cloud)
    requires Unchanged(lb, entries, c, entries', c') && Kept(lb, entries, c)
    ensures Accounted(lb, entries, c) <==> Accounted(lb, entries', c')
  {
  }

  /** No other load balancer has changed. */
  ghost predicate OthersUnchanged(lbs: set<string>, lb: string, entries: Entries, c: Cloud, entries': Entries,
                                  c': Cloud) {
    forall a :: a in lbs && a != lb ==> Unchanged(a, entries, c, entries', c')
  }

  /** No certificate of another load balancer has changed. */
  ghost predicate OthersServed(lbs: set<string>, lb: string, c: Cloud, c': Cloud) {
    forall a :: a in lbs && a != lb ==> SameCerts(NamesOf(a), c, c')
  }

  // ---------------------------------------------------------------- a pass in the pool

  lemma {:induction false} PassInPool(uid: string, lbs: set<string>, entries: Entries, c: Cloud, lb: string,
                                      e: Entry, env: Env)
    requires Universe(uid, lbs) && PoolOk(lbs, entries, c) && lb in lbs
    requires e.cfg.n == NamesOf(lb) && Sound(e.cfg, World(e.l, c))
               && (Accounted(lb, entries, c) ==> Held(e.cfg, World(e.l, c)))
    ensures var w := EdgeHop(e.cfg, env, World(e.l, c)).w; var after := entries[lb := Entry(e.cfg, w.l)];
            && PoolOk(lbs, after, w.c) && OthersUnchanged(lbs, lb, entries, c, after, w.c)
            && (Accounted(lb, entries, c) ==> Accounted(lb, after, w.c))
  {
    hide EdgeHop, Held, Same, NamesApart, NamesOf, Kept;
    var w := EdgeHop(e.cfg, env, World(e.l, c)).w;
    var after := entries[lb := Entry(e.cfg, w.l)];
    PassHeld(e.cfg, env, World(e.l, c));
    forall a | a in lbs && a != lb
      ensures Unchanged(a, entries, c, after, w.c) { PassSame(e.cfg, env, World(e.l, c), NamesOf(a)); }
    forall a | a in lbs ensures Kept(a, after, w.c) {
      if a != lb { UnchangedKeeps(a, entries, c, after, w.c); } else { PutIsKept(lb, after, w.c); }
    }
  }

  lemma {:induction false} PutIsKept(lb: string, entries: Entries, c: Cloud)
    requires lb in entries && entries[lb].cfg.n == NamesOf(lb) && Sound(entries[lb].cfg, World(entries[lb].l, c))
    ensures Kept(lb, entries, c)
  {
  }

  /** Certificates in a pass: those of the other load balancers stay, if this one was not pointed at one of them. */
  lemma {:induction false} PassServes(uid: string, lbs: set<string>, c: Cloud, lb: string, e: Entry, env: Env)
    requires Universe(uid, lbs) && lb in lbs && e.cfg.n == NamesOf(lb)
    requires CertsOwn(e.cfg.n, World(e.l, c)) && OwnOrForeign(e.cfg.n, e.cfg.tlsName)
    ensures var w := EdgeHop(e.cfg, env, World(e.l, c)).w; CertsOwn(e.cfg.n, w) && OthersServed(lbs, lb, c, w.c)
  {
    hide EdgeHop, NamesApart, NamesOf, CertsOwn, OwnOrForeign, SameCerts;
    PassKeepsCerts(e.cfg, env, World(e.l, c));
    forall a | a in lbs && a != lb ensures SameCerts(NamesOf(a), c, EdgeHop(e.cfg, env, World(e.l, c)).w.c) {
      PassSameCerts(e.cfg, env, World(e.l, c), NamesOf(a));
    }
  }

  /** The entry to work on, found or new: named right, and recording all there is if that was so. */
  lemma {:induction false} EntrySound(lbs: set<string>, entries: Entries, c: Cloud, lb: string, e: Entry)
    requires PoolOk(lbs, entries, c) && lb in lbs
    requires e.cfg.n == (if lb in entries then entries[lb].cfg.n else NamesOf(lb)) && e.l == FieldsOf(lb, entries)
    ensures e.cfg.n == NamesOf(lb) && Sound(e.cfg, World(e.l, c))
    ensures Accounted(lb, entries, c) <==> Held(e.cfg, World(e.l, c))
  {
    assert Kept(lb, entries, c);
  }

  // ---------------------------------------------------------------- a tear-down in the pool

  function Removed(entries: Entries, lb: string, r: Res): (entries': Entries)
    requires lb in entries
  {
    if r.out == Ok then entries - {lb} else entries[lb := Entry(entries[lb].cfg, r.w.l)]
  }

  lemma {:induction false} TearDownOthers(uid: string, lbs: set<string>, entries: Entries, c: Cloud, lb: string,
                                          env: Env)
    requires Universe(uid, lbs) && PoolOk(lbs, entries, c) && lb in entries
    ensures var r := Cleanup(entries[lb].cfg, env, World(entries[lb].l, c));
            OthersUnchanged(lbs, lb, entries, c, Removed(entries, lb, r), r.w.c)
  {
    hide Cleanup, Unchanged, NamesApart, NamesOf, Kept;
    forall a | a in lbs && a != lb
      ensures var r := Cleanup(entries[lb].cfg, env, World(entries[lb].l, c));
                Unchanged(a, entries, c, Removed(entries, lb, r), r.w.c) {
      assert Kept(lb, entries, c);
      TearDownOther(entries, c, lb, env, a);
    }
  }

  lemma {:induction false} TearDownOther(entries: Entries, c: Cloud, lb: string, env: Env, a: string)
    requires lb in entries && Kept(lb, entries, c) && a != lb && NamesApart(NamesOf(lb), NamesOf(a))
    ensures var r := Cleanup(entries[lb].cfg, env, World(entries[lb].l, c));
              Unchanged(a, entries, c, Removed(entries, lb, r), r.w.c)
  {
    var cfg, w := entries[lb].cfg, World(entries[lb].l, c);
    hide CleanupFrom, Same, NamesApart, NamesOf, Named;
    CleanupSame(cfg, env, w, ORDER, NamesOf(a));
  }

  lemma {:induction false} TearDownOne(lb: string, entries: Entries, c: Cloud, env: Env)
    requires lb in entries && Kept(lb, entries, c)
    ensures var r := Cleanup(entries[lb].cfg, env, World(entries[lb].l, c)); var after := Removed(entries, lb, r);
            && Kept(lb, after, r.w.c) && (Accounted(lb, entries, c) ==> Accounted(lb, after, r.w.c))
            && (r.out == Ok ==> RemainsExactly(entries[lb].cfg, World(entries[lb].l, c), r.w.c))
  {
    var cfg, w := entries[lb].cfg, World(entries[lb].l, c);
    assert Sound(cfg, w);
    hide CleanupFrom, Held, NamesOf, Clear, RemainsExactly, Reaped, Sound, Kept;
    RemainsAfterCleanup(cfg, env, w);
    if Accounted(lb, entries, c) { ClearedIsAccounted(cfg, env, w); }
    TearDownHeld(cfg, env, w);
    assert cfg.n == NamesOf(lb) by { KeptNames(lb, entries, c); }
    TornIsKept(lb, entries, Removed(entries, lb, Cleanup(cfg, env, w)), Cleanup(cfg, env, w));
  }

  lemma {:induction false} KeptNames(lb: string, entries: Entries, c: Cloud)
    requires lb in entries && Kept(lb, entries, c)
    ensures entries[lb].cfg.n == NamesOf(lb)
  {
  }

  lemma {:induction false} TearDownInPool(uid: string, lbs: set<string>, entries: Entries, c: Cloud, lb: string,
                                          env: Env)
    requires Universe(uid, lbs) && PoolOk(lbs, entries, c) && lb in entries
    ensures var r := Cleanup(entries[lb].cfg, env, World(entries[lb].l, c)); var after := Removed(entries, lb, r);
            && PoolOk(lbs, after, r.w.c) && OthersUnchanged(lbs, lb, entries, c, after, r.w.c)
            && (Accounted(lb, entries, c) ==> Accounted(lb, after, r.w.c))
            && (r.out == Ok ==> RemainsExactly(entries[lb].cfg, World(entries[lb].l, c), r.w.c))
  {
    hide Cleanup, Kept, Accounted, Unchanged, RemainsExactly, Universe;
    var r := Cleanup(entries[lb].cfg, env, World(entries[lb].l, c));
    var after := Removed(entries, lb, r);
    TearDownOthers(uid, lbs, entries, c, lb, env);
    TearDownOne(lb, entries, c, env);
    forall a | a in lbs ensures Kept(a, after, r.w.c) {
      if a != lb { UnchangedKeeps(a, entries, c, after, r.w.c); }
    }
  }

  lemma {:induction false} TornIsKept(lb: string, entries: Entries, after: Entries, r: Res)
    requires lb in entries && after == Removed(entries, lb, r) && entries[lb].cfg.n == NamesOf(lb)
               && Sound(entries[lb].cfg, r.w)
    ensures Kept(lb, after, r.w.c)
  {
  }

  lemma {:induction false} ClearedIsAccounted(cfg: Config, env: Env, w: World)
    requires Held(cfg, w)
    ensures var r := Cleanup(cfg, env, w); Held(cfg, r.w) && (r.out == Ok ==> Clear(cfg.n, r.w.c))
  {
    assert Sound(cfg, w);
    hide CleanupFrom, AllRecorded;
    CleanupSafe(cfg, env, w);
    TearDownHeld(cfg, env, w);
  }

  lemma {:induction false} TearDownServes(uid: string, lbs: set<string>, entries: Entries, c: Cloud, lb: string,
                                          env: Env)
    requires Universe(uid, lbs) && PoolOk(lbs, entries, c) && lb in entries && Own(lb, entries, c)
    ensures var r := Cleanup(entries[lb].cfg, env, World(entries[lb].l, c));
            OthersServed(lbs, lb, c, r.w.c) && Own(lb, Removed(entries, lb, r), r.w.c)
  {
    assert Kept(lb, entries, c);
    var cfg, w := entries[lb].cfg, World(entries[lb].l, c);
    hide CleanupFrom, NamesApart, NamesOf, SameCerts, Tagged, Named;
    CleanupKeepsOwn(cfg, env, w, ORDER);
    forall a | a in lbs && a != lb ensures SameCerts(NamesOf(a), c, Cleanup(cfg, env, w).w.c) {
      NamesTagged(a);
      CleanupSameCerts(cfg, env, w, NamesOf(a));
    }
  }

  // ---------------------------------------------------------------- bookkeeping of the methods

  lemma {:induction false} KeyFixed(uid: string, lbs: set<string>, lb: string)
    requires Universe(uid, lbs) && lb in lbs
    ensures Namer.LoadBalancer(uid, lb) == lb
  {
  }

  lemma {:induction false} ValidNames(uid: string, lbs: set<string>, lb: string)
    requires Universe(uid, lbs) && lb in lbs
    ensures NamesOf(lb).Valid()
  {
  }

  lemma {:induction false} AccountedAfter(lbs: set<string>, lb: string, entries: Entries, c: Cloud,
                                          entries': Entries, c': Cloud)
    requires PoolOk(lbs, entries, c) && OthersUnchanged(lbs, lb, entries, c, entries', c')
    requires Accounted(lb, entries, c) ==> Accounted(lb, entries', c')
    ensures forall a :: a in lbs && Accounted(a, entries, c) ==> Accounted(a, entries', c')
  {
    hide Accounted, Kept, Unchanged;
    forall a | a in lbs && Accounted(a, entries, c) ensures Accounted(a, entries', c') {
      if a != lb { UnchangedAccounts(a, entries, c, entries', c'); }
    }
  }

  lemma {:induction false} NothingChanged(lbs: set<string>, entries: Entries, c: Cloud)
    ensures forall a :: Unchanged(a, entries, c, entries, c) && SameCerts(NamesOf(a), c, c)
  {
    hide NamesOf;
  }

  lemma {:induction false} InLbs(lbs: set<string>, entries: Entries, c: Cloud)
    requires PoolOk(lbs, entries, c)
    ensures entries.Keys <= lbs
  {
  }

  /** One more deletion in a collection. */
  lemma {:induction false} GcStep(lbs: set<string>, lb: string, e0: Entries, c0: Cloud, e1: Entries, c1: Cloud,
                                  e2: Entries, c2: Cloud)
    requires OthersUnchanged(lbs, lb, e1, c1, e2, c2)
    ensures forall a :: a in lbs && a != lb && Unchanged(a, e0, c0, e1, c1) ==> Unchanged(a, e0, c0, e2, c2)
    ensures forall a :: a in lbs && a != lb && Own(a, e1, c1) ==> Own(a, e2, c2)
  {
    hide Unchanged, Own;
    forall a | a in lbs && a != lb && Unchanged(a, e0, c0, e1, c1) ensures Unchanged(a, e0, c0, e2, c2) {
      UnchangedTrans(a, e0, c0, e1, c1, e2, c2);
    }
    forall a | a in lbs && a != lb && Own(a, e1, c1) ensures Own(a, e2, c2) { UnchangedKeeps(a, e1, c1, e2, c2); }
  }

  lemma {:induction false} UnchangedTrans(a: string, e0: Entries, c0: Cloud, e1: Entries, c1: Cloud, e2: Entries,
                                          c2: Cloud)
    requires Unchanged(a, e0, c0, e1, c1) && Unchanged(a, e1, c1, e2, c2)
    ensures Unchanged(a, e0, c0, e2, c2)
  {
    hide NamesOf, Same;
    SameTrans(NamesOf(a), c0, c1, c2);
  }

  lemma {:induction false} GcServed(lbs: set<string>, known: set<string>, lb: string, c0: Cloud, c1: Cloud, c2: Cloud)
    requires OthersServed(lbs, lb, c1, c2) && lb !in known
    requires forall a :: a in lbs && a in known ==> SameCerts(NamesOf(a), c0, c1)
    ensures forall a :: a in lbs && a in known ==> SameCerts(NamesOf(a), c0, c2)
  {
    hide NamesOf;
  }

  ghost predicate CertDoomed(entries: Entries, gone: set<string>, x: string) {
    exists k :: k in gone && k in entries && x in Doomed(entries[k].cfg, entries[k].l)
  }

  ghost predicate AddressDoomed(entries: Entries, gone: set<string>, x: string) {
    exists k :: k in gone && k in entries && x in DoomedAddress(entries[k].l)
  }

  /** Of certificates and addresses exactly the doomed ones are gone. */
  ghost predicate ReapedExactly(entries: Entries, gone: set<string>, c0: Cloud, c: Cloud) {
    && (forall x :: x in c.certs <==> x in c0.certs && !CertDoomed(entries, gone, x))
    && (forall x :: x in c.addresses <==> x in c0.addresses && !AddressDoomed(entries, gone, x))
  }

  lemma {:induction false} NothingReaped(entries: Entries, c: Cloud)
    ensures ReapedExactly(entries, {}, c, c)
  {
  }

  lemma {:induction false} UnpooledIsClear(lbs: set<string>, entries: Entries, c: Cloud)
    ensures forall a :: a !in entries && Accounted(a, entries, c) ==> Clear(NamesOf(a), c)
  {
    hide NamesOf, Clear;
  }

  lemma {:induction false} GcReaps(entries: Entries, gone: set<string>, lb: string, c0: Cloud, c1: Cloud, c2: Cloud)
    requires ReapedExactly(entries, gone, c0, c1) && lb in entries
    requires RemainsExactly(entries[lb].cfg, World(entries[lb].l, c1), c2)
    ensures ReapedExactly(entries, gone + {lb}, c0, c2)
  {
    hide Doomed, DoomedAddress;
    forall x ensures CertDoomed(entries, gone + {lb}, x) <==>
      CertDoomed(entries, gone, x) || x in Doomed(entries[lb].cfg, entries[lb].l) { }
    forall x ensures AddressDoomed(entries, gone + {lb}, x) <==>
      AddressDoomed(entries, gone, x) || x in DoomedAddress(entries[lb].l) { }
  }

  lemma {:induction false} CleanupKeepsNamed(cfg: Config, env: Env, w: World, stages: seq<Stage>)
    requires CertNamed(w.l)
    ensures CertNamed(CleanupFrom(cfg, env, w, stages).w.l)
    decreases |stages|
  {
    if stages != [] {
      hide Succeeds, Without, Recorded;
      CleanupKeepsNamed(cfg, env, DoStage(cfg, env, w, stages[0]).w, stages[1..]);
    }
  }

  /** One tear-down it was, over the fields of the entry; what it has forgotten by the time it fails stays forgotten. */
  predicate TornDown(key: string, env: Env, entries: Entries, c: Cloud, entries': Entries, c': Cloud, ok: bool) {
    if key !in entries then !ok && c' == c && entries' == entries
    else
      var r := Cleanup(entries[key].cfg, env, World(entries[key].l, c));
      c' == r.w.c && (ok <==> r.out == Ok) && entries' == Removed(entries, key, r)
  }

  /** The HTTPS proxy names a certificate that exists and is this one. */
  predicate Serves(n: LbNames, c: Cloud, cert: string) {
    && n.tps in c.httpsProxies && c.httpsProxies[n.tps].certs != []
    && var link := c.httpsProxies[n.tps].certs[0];
       link.Self? && link.kind == CertKind && link.name in c.certs && c.certs[link.name] == cert
  }

  lemma {:induction false} ChainServes(cfg: Config, w: World)
    requires HttpsChain(cfg, w) && cfg.tlsName == "" && cfg.tls.Some?
    ensures Serves(cfg.n, w.c, cfg.tls.value)
  {
  }

  // ---------------------------------------------------------------- the pool

  class LoadBalancers {
    const uid: string
    const env: Env
    ghost const lbs: set<string>
    var cloud: Cloud
    var backend: Option<Link> // the default backend
    var entries: Entries

    ghost predicate Valid()
      reads this
    {
      Universe(uid, lbs) && PoolOk(lbs, entries, cloud) && forall k :: k in entries ==> CertNamed(entries[k].l)
    }

    /** An empty pool over any cloud in which a url map is found under its own name. */
    constructor (uid: string, env: Env, ghost lbs: set<string>, cloud: Cloud)
      requires Universe(uid, lbs) && forall a :: a in lbs ==> MapNamed(NamesOf(a), cloud)
      ensures Valid() && entries == map[] && this.cloud == cloud && this.uid == uid && this.lbs == lbs
                && this.env == env
    {
      this.uid, this.env, this.lbs, this.cloud := uid, env, lbs, cloud;
      backend, entries := None, map[];
    }

    method Get(name: string) returns (lb: Option<Entry>)
      ensures lb == var key := Namer.LoadBalancer(uid, name); if key in entries then Some(entries[key]) else None
    {
      var key := Namer.LoadBalancer(uid, name);
      return if key in entries then Some(entries[key]) else None;
    }

    /** Gets or creates the load balancer and runs a pass. It is in the pool afterwards even if the pass failed, and no
        other load balancer changes, in the pool or in the cloud. */
    method Add(ri: RuntimeInfo) returns (out: Outcome)
      requires Valid() && Namer.LoadBalancer(uid, ri.name) in lbs
      modifies this`cloud, this`entries
      ensures Valid() && entries.Keys == old(entries.Keys) + {Namer.LoadBalancer(uid, ri.name)}
      ensures OthersUnchanged(lbs, Namer.LoadBalancer(uid, ri.name), old(entries), old(cloud), entries, cloud)
      ensures var key := Namer.LoadBalancer(uid, ri.name);
              Own(key, old(entries), old(cloud)) && OwnOrForeign(NamesOf(key), ri.tlsName) ==>
                Own(key, entries, cloud) && OthersServed(lbs, key, old(cloud), cloud)
      ensures forall a :: a in lbs && Accounted(a, old(entries), old(cloud)) ==> Accounted(a, entries, cloud)
      // a load balancer from before a restart: exactly when the pass that takes it up again has all of it in sight
      ensures var key := Namer.LoadBalancer(uid, ri.name);
              key !in old(entries) && out == Ok && CloudOk(old(cloud)) ==>
                (InSight(entries[key].cfg, World(entries[key].l, cloud)) <==> Findable(entries[key].cfg, old(cloud)))
      // one pass it is, over the fields of the entry
      ensures var key := Namer.LoadBalancer(uid, ri.name);
              EdgeHop(entries[key].cfg, env, World(FieldsOf(key, old(entries)), old(cloud)))
              == Res(World(entries[key].l, cloud), out)
      // however the pass ends, the load balancer is now asked to be what the controller said
      ensures var key := Namer.LoadBalancer(uid, ri.name);
              && entries[key].cfg.n == NamesOf(key) && entries[key].cfg.allowHttp == ri.allowHttp
              && entries[key].cfg.tls == ri.tls && entries[key].cfg.tlsName == ri.tlsName
              && entries[key].cfg.staticIpName == ri.staticIpName
              && entries[key].cfg.backend == if key in old(entries) then old(entries)[key].cfg.backend else backend
      ensures out == Ok && CloudOk(old(cloud)) && ri.tlsName == "" && ri.tls.Some? ==>
                Serves(NamesOf(Namer.LoadBalancer(uid, ri.name)), cloud, ri.tls.value)
      ensures out == Ok && CloudOk(old(cloud)) ==>
                var e := entries[Namer.LoadBalancer(uid, ri.name)]; var w := World(e.l, cloud);
                && UrlMapReady(e.cfg, w) && (ri.allowHttp ==> HttpChain(e.cfg, w))
                && (ri.tls.Some? || ri.tlsName != "" ==> HttpsChain(e.cfg, w))
    {
      hide EdgeHop, HttpsChain, HttpChain, UrlMapReady, CloudOk, Universe, PoolOk, Held, NamesOf, Namer.LoadBalancer,
        Same, Serves, Accounted, CertsOwn, OwnOrForeign, InSight, Findable, Unchanged, SameCerts, Sound;
      var name := Namer.LoadBalancer(uid, ri.name);
      KeyFixed(uid, lbs, name);
      var found := Get(name);
      var entry := if found.Some?
                   then Entry(found.value.cfg.(allowHttp := ri.allowHttp, tls := ri.tls, tlsName := ri.tlsName,
                                               staticIpName := ri.staticIpName), found.value.l)
                   else Entry(Config(NamesOf(name), backend, ri.allowHttp, ri.tls, ri.tlsName, ri.staticIpName), NewL7);
      EntrySound(lbs, entries, cloud, name, entry);
      PassInPool(uid, lbs, entries, cloud, name, entry, env);
      ValidNames(uid, lbs, name);
      ghost var w := World(entry.l, cloud);
      L7Conflict.PassKeepsNamed(entry.cfg, env, w);
      var r := EdgeHop(entry.cfg, env, World(entry.l, cloud));
      if r.out == Ok && CloudOk(cloud) {
        EdgeHopCompletesChain(entry.cfg, env, w);
        if ri.tlsName == "" && ri.tls.Some? { ChainServes(entry.cfg, r.w); }
        if found.None? { RestartRecordsIff(entry.cfg, env, cloud); }
      }
      if CertsOwn(entry.cfg.n, w) && OwnOrForeign(entry.cfg.n, entry.cfg.tlsName) {
        PassServes(uid, lbs, cloud, name, entry, env);
      }
      AccountedAfter(lbs, name, entries, cloud, entries[name := Entry(entry.cfg, r.w.l)], r.w.c);
      cloud, entries := r.w.c, entries[name := Entry(entry.cfg, r.w.l)];
      return r.out;
    }

    /** Tears a load balancer down; it leaves the pool only if that succeeds. No other load balancer changes, and of all
        certificates and addresses in the cloud exactly the recorded ones go. */
    method Delete(name: string) returns (ok: bool)
      requires Valid() && Namer.LoadBalancer(uid, name) in lbs
      modifies this`cloud, this`entries
      ensures Valid() && OthersUnchanged(lbs, Namer.LoadBalancer(uid, name), old(entries), old(cloud), entries, cloud)
      ensures var key := Namer.LoadBalancer(uid, name);
              && (ok ==> key in old(entries) && entries == old(entries) - {key})
              && (!ok ==> entries.Keys == old(entries.Keys))
              && TornDown(key, env, old(entries), old(cloud), entries, cloud, ok)
              && (forall k :: k in old(entries) && k != key ==> k in entries && entries[k] == old(entries[k]))
      ensures forall a :: a in lbs && Accounted(a, old(entries), old(cloud)) ==> Accounted(a, entries, cloud)
      ensures var key := Namer.LoadBalancer(uid, name);
              ok && Accounted(key, old(entries), old(cloud)) ==> Clear(NamesOf(key), cloud)
      ensures var key := Namer.LoadBalancer(uid, name);
              ok ==> RemainsExactly(old(entries)[key].cfg, World(old(entries)[key].l, old(cloud)), cloud)
      ensures var key := Namer.LoadBalancer(uid, name);
              Own(key, old(entries), old(cloud)) ==>
                Own(key, entries, cloud) && OthersServed(lbs, key, old(cloud), cloud)
    {
      hide CleanupFrom, Universe, Held, NamesOf, Namer.LoadBalancer, Clear, Same, PoolOk, Own, RemainsExactly,
        SameCerts;
      var key := Namer.LoadBalancer(uid, name);
      KeyFixed(uid, lbs, key);
      var found := Get(key);
      if found.None? {
        NothingChanged(lbs, entries, cloud);
        return false;
      }
      TearDownInPool(uid, lbs, entries, cloud, key, env);
      if Own(key, entries, cloud) { TearDownServes(uid, lbs, entries, cloud, key, env); }
      CleanupKeepsNamed(found.value.cfg, env, World(found.value.l, cloud), ORDER);
      var r := Cleanup(found.value.cfg, env, World(found.value.l, cloud));
      AccountedAfter(lbs, key, entries, cloud, Removed(entries, key, r), r.w.c);
      cloud := r.w.c;
      if r.out != Ok {
        entries := entries[key := Entry(found.value.cfg, r.w.l)];
        return false;
      }
      entries := entries - {key};
      return true;
    }

    /** Without an error the pool holds exactly the load balancers it held that are still wanted. Those wanted are not
        touched in any case, nor are those from before a restart that were never taken up again. */
    method Gc(names: seq<string>) returns (ok: bool)
      requires Valid()
      modifies this`cloud, this`entries
      ensures Valid()
      ensures var known := set n | n in names :: Namer.LoadBalancer(uid, n);
              && (ok ==> entries == map k | k in old(entries) && k in known :: old(entries)[k])
              && (forall a :: a in lbs && (a in known || a !in old(entries)) ==>
                  Unchanged(a, old(entries), old(cloud), entries, cloud))
              && (ok ==> forall a :: a in lbs && a !in known && Accounted(a, old(entries), old(cloud)) ==>
                  Clear(NamesOf(a), cloud))
              && ((forall a :: a in lbs ==> Own(a, old(entries), old(cloud))) ==>
                    forall a :: a in lbs && a in known ==> SameCerts(NamesOf(a), old(cloud), cloud))
      ensures forall a :: a in lbs && Accounted(a, old(entries), old(cloud)) ==> Accounted(a, entries, cloud)
      // of certificates and addresses exactly those that the entries removed had recorded are gone
      ensures ok ==> ReapedExactly(old(entries), old(entries).Keys - entries.Keys, old(cloud), cloud)
    {
      hide Universe, NamesOf, Namer.LoadBalancer, Clear, Held, PoolOk, Own, SameCerts, Unchanged, Accounted,
        ReapedExactly, RemainsExactly, TornDown, CertNamed;
      var known := set n | n in names :: Namer.LoadBalancer(uid, n);
      var rest := entries.Keys;
      NothingChanged(lbs, entries, cloud);
      ghost var owned := forall a :: a in lbs ==> Own(a, entries, cloud);
      InLbs(lbs, entries, cloud);
      NothingReaped(entries, cloud);
      assert entries.Keys - entries.Keys == {};
      while rest != {}
        invariant Valid() && rest <= entries.Keys <= old(entries.Keys) <= lbs
        invariant forall k :: k in old(entries) && (k in known || k in rest) ==>
                    k in entries && entries[k] == old(entries)[k]
        invariant forall k :: k in entries ==> k in known || k in rest
        invariant forall a :: a in lbs && (a in known || a in rest || a !in old(entries)) ==>
                    Unchanged(a, old(entries), old(cloud), entries, cloud)
        invariant forall a :: a in lbs && Accounted(a, old(entries), old(cloud)) ==> Accounted(a, entries, cloud)
        invariant owned ==> (forall a :: a in lbs ==> Own(a, entries, cloud))
        invariant owned ==> forall a :: a in lbs && a in known ==> SameCerts(NamesOf(a), old(cloud), cloud)
        invariant ReapedExactly(old(entries), old(entries).Keys - entries.Keys, old(cloud), cloud)
      {
        var name :| name in rest;
        if name !in known {
          KeyFixed(uid, lbs, name);
          ghost var entries1, cloud1 := entries, cloud;
          var deleted := Delete(name);
          GcStep(lbs, name, old(entries), old(cloud), entries1, cloud1, entries, cloud);
          if owned { GcServed(lbs, known, name, old(cloud), cloud1, cloud); }
          if !deleted {
            return false;
          }
          GcReaps(old(entries), old(entries).Keys - entries1.Keys, name, old(cloud), cloud1, cloud);
          assert old(entries).Keys - entries.Keys == old(entries).Keys - entries1.Keys + {name};
        }
        rest := rest - {name};
      }
      UnpooledIsClear(lbs, entries, cloud);
      return true;
    }
  }
}
