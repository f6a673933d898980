/** The backend pool (pkg/backends/backends.go, pkg/storage/pools.go): which backend services and health checks the
    cloud keeps when ports come and go, writes fail, and the controller restarts. */
module Backends {
  import opened Text
  import opened L7Cloud
  import opened Ingresses
  import opened Ports
  import Namer

  const MAX_PORT := 65535

  /** `strconv.ParseUint(key, 10, 16)` */
  function ParsePort(key: string): (p: Option<nat>)
    ensures p.Some? ==> p.value <= MAX_PORT
  {
    if key == "" || !AllDigits(key) || DecimalValue(key) > MAX_PORT then None else Some(DecimalValue(key))
  }

  lemma {:induction false} ParsePortOfKey(p: nat)
    ensures ParsePort(Decimal(p)) == if p <= 65535 then Some(p) else None
  {
    DecimalRoundTrip(p);
  }

  /** The pool keys, and in the cloud the backend services by name and the health checks by port. */
  datatype State = State(pool: set<string>, services: set<string>, checks: set<nat>)

  /** Every resource behind a port has a key in the pool, so that garbage collection will see it. */
  predicate ServiceTracked(uid: string, s: State, p: nat) {
    Namer.Backend(uid, p) in s.services ==> Decimal(p) in s.pool
  }
  predicate CheckTracked(s: State, p: nat) { p in s.checks ==> Decimal(p) in s.pool }

  /** What a collection must leave alone: everything behind a port whose key is to be kept. */
  ghost predicate KeptAlone(uid: string, keep: set<string>, was: State, now: State) {
    forall p: nat {:trigger Decimal(p)} :: p <= MAX_PORT && Decimal(p) in keep ==>
      && (Namer.Backend(uid, p) in was.services ==> Namer.Backend(uid, p) in now.services)
      && (p in was.checks ==> p in now.checks) && (Decimal(p) in was.pool ==> Decimal(p) in now.pool)
  }

  /** The ports of these keys have nothing left. */
  ghost predicate Swept(uid: string, keys: set<string>, keep: set<string>, s: State) {
    forall p: nat {:trigger Decimal(p)} :: p <= MAX_PORT && Decimal(p) in keys && Decimal(p) !in keep ==>
      Namer.Backend(uid, p) !in s.services && p !in s.checks && Decimal(p) !in s.pool
  }

  ghost predicate StillTracked(uid: string, was: State, now: State) {
    forall p: nat {:trigger ServiceTracked(uid, now, p)} {:trigger CheckTracked(now, p)} :: p <= MAX_PORT ==>
      (ServiceTracked(uid, was, p) ==> ServiceTracked(uid, now, p)) && (CheckTracked(was, p) ==> CheckTracked(now, p))
  }

  predicate Shrunk(was: State, now: State) {
    now.pool <= was.pool && now.services <= was.services && now.checks <= was.checks
  }

  /** A delete that got through, wholly or (with an error) in part. */
  predicate DeleteStep(uid: string, was: State, now: State, port: nat, ok: bool) {
    if ok then now == State(was.pool - {Decimal(port)}, was.services - {Namer.Backend(uid, port)}, was.checks - {port})
    else now == was || now == was.(services := was.services - {Namer.Backend(uid, port)})
  }

  /** The ports that a collection takes away: those some key names, unless their own key is to be kept. */
  function Doomed(keys: set<string>, keep: set<string>): (ports: set<nat>)
    ensures forall p :: p in ports <==> Decimal(p) !in keep && exists k :: k in keys && ParsePort(k) == Some(p)
  {
    set k | k in keys && ParsePort(k).Some? && Decimal(ParsePort(k).value) !in keep :: ParsePort(k).value
  }

  /** The state without what is behind these ports. */
  function Without(uid: string, s: State, ports: set<nat>): (r: State) {
    State(s.pool - (set p | p in ports :: Decimal(p)), s.services - (set p | p in ports :: Namer.Backend(uid, p)),
          s.checks - ports)
  }

  /** One more key dealt with: kept, deleted, or deleted in part. */
  lemma {:induction false} DoomedStep(uid: string, keep: set<string>, keys: set<string>, s0: State, was: State,
                                      now: State, key: string, port: nat, ok: bool)
    requires was == Without(uid, s0, Doomed(keys, keep)) && ParsePort(key) == Some(port)
    requires if Decimal(port) in keep then now == was && ok else DeleteStep(uid, was, now, port, ok)
    ensures ok ==> now == Without(uid, s0, Doomed(keys + {key}, keep))
    ensures Shrunk(now, Without(uid, s0, Doomed(keys + {key}, keep)))
  {
    hide ParsePort, Decimal, Namer.Backend;
    var d := Doomed(keys, keep);
    assert Doomed(keys + {key}, keep) == if Decimal(port) in keep then d else d + {port};
    var e := d + {port};
    assert (set p | p in e :: Decimal(p)) == (set p | p in d :: Decimal(p)) + {Decimal(port)};
    assert (set p | p in e :: Namer.Backend(uid, p))
      == (set p | p in d :: Namer.Backend(uid, p)) + {Namer.Backend(uid, port)};
  }

  lemma {:induction false} DoomedShrinks(uid: string, keep: set<string>, keys: set<string>, all: set<string>, s: State)
    requires keys <= all
    ensures Shrunk(Without(uid, s, Doomed(keys, keep)), Without(uid, s, Doomed(all, keep)))
  {
    hide ParsePort, Decimal, Namer.Backend;
    assert Doomed(keys, keep) <= Doomed(all, keep);
  }

  lemma {:induction false} OtherPort(uid: string, p: nat, q: nat)
    requires p <= MAX_PORT && q <= MAX_PORT && p != q
    ensures Decimal(p) != Decimal(q) && Namer.Backend(uid, p) != Namer.Backend(uid, q)
  {
    DecimalRoundTrip(p);
    DecimalRoundTrip(q);
    if Namer.Backend(uid, p) == Namer.Backend(uid, q) { Namer.BackendInjective(uid, p, q); }
  }

  lemma {:induction false} DeleteKeeps(uid: string, keep: set<string>, s0: State, was: State, now: State, port: nat,
                                       ok: bool)
    requires DeleteStep(uid, was, now, port, ok) && port <= MAX_PORT && Decimal(port) !in keep
    requires KeptAlone(uid, keep, s0, was) && StillTracked(uid, s0, was)
    ensures KeptAlone(uid, keep, s0, now) && StillTracked(uid, s0, now)
  {
    hide Namer.Backend, Decimal;
    forall p: nat | p <= MAX_PORT && p != port
      ensures Decimal(p) != Decimal(port) && Namer.Backend(uid, p) != Namer.Backend(uid, port) {
      OtherPort(uid, p, port);
    }
    forall p: nat | p <= MAX_PORT
      ensures (ServiceTracked(uid, s0, p) ==> ServiceTracked(uid, now, p))
                && (CheckTracked(s0, p) ==> CheckTracked(now, p)) {
      assert p != port ==> Decimal(p) != Decimal(port);
      assert ServiceTracked(uid, s0, p) ==> ServiceTracked(uid, was, p);
      assert CheckTracked(s0, p) ==> CheckTracked(was, p);
      assert !ok ==> now.checks == was.checks && now.pool == was.pool;
      assert ok && p != port ==> (p in now.checks ==> p in was.checks)
                                 && (Decimal(p) in was.pool ==> Decimal(p) in now.pool);
      assert ok ==> port !in now.checks;
    }
  }

  lemma {:induction false} DeleteSweeps(uid: string, keep: set<string>, keys: set<string>, was: State, now: State,
                                        key: string, port: nat)
    requires DeleteStep(uid, was, now, port, true) && ParsePort(key) == Some(port) && Swept(uid, keys, keep, was)
    ensures Swept(uid, keys + {key}, keep, now)
  {
    hide Namer.Backend, Decimal, ParsePort;
    forall p: nat | p <= MAX_PORT && Decimal(p) == key ensures p == port { ParsePortOfKey(p); }
  }

  lemma {:induction false} KeepSweeps(uid: string, keep: set<string>, keys: set<string>, s: State, key: string,
                                      port: nat)
    requires ParsePort(key) == Some(port) && Decimal(port) in keep && Swept(uid, keys, keep, s)
    ensures Swept(uid, keys + {key}, keep, s)
  {
    hide Namer.Backend, Decimal, ParsePort;
    forall p: nat | p <= MAX_PORT && Decimal(p) == key ensures p == port { ParsePortOfKey(p); }
  }

  class BackendPool {
    const uid: string
    const ignored: set<string>
    const fails: nat -> bool // does the n-th write fail, other than with "not found"
    var writes: nat
    var pool: set<string>
    var services: set<string>
    var checks: set<nat>

    constructor (uid: string, ignorePorts: seq<nat>, fails: nat -> bool, services: set<string>, checks: set<nat>)
      ensures Now() == State({}, services, checks) && this.uid == uid && this.fails == fails
      ensures forall p :: p in ignorePorts ==> Decimal(p) in ignored
    {
      this.uid, this.fails, this.services, this.checks := uid, fails, services, checks;
      ignored := set p | p in ignorePorts :: Decimal(p);
      writes, pool := 0, {};
    }

    ghost function Now(): (s: State)
      reads this
    {
      State(pool, services, checks)
    }

    /** Creates what is missing behind a port. The key goes into the pool even when a creation fails. */
    method Ensure(port: nat) returns (ok: bool)
      requires port <= MAX_PORT
      modifies this`writes, this`pool, this`services, this`checks
      ensures ok ==> Namer.Backend(uid, port) in services && port in checks
      ensures Shrunk(Now(), old(Now())) && Decimal(port) in pool
      ensures forall k :: k in pool && k !in old(pool) ==> k == Decimal(port)
      ensures forall n :: n in services && n !in old(services) ==> n == Namer.Backend(uid, port)
      ensures StillTracked(uid, old(Now()), Now()) && ServiceTracked(uid, Now(), port) && CheckTracked(Now(), port)
    {
      forall p: nat | p <= MAX_PORT && p != port
        ensures Namer.Backend(uid, p) != Namer.Backend(uid, port) { OtherPort(uid, p, port); }
      pool := pool + {Decimal(port)};
      if port !in checks {
        writes := writes + 1;
        if fails(writes - 1) {
          return false;
        }
        checks := checks + {port};
      }
      if Namer.Backend(uid, port) !in services {
        writes := writes + 1;
        if fails(writes - 1) {
          return false;
        }
        services := services + {Namer.Backend(uid, port)};
      }
      return true;
    }

    /** The key leaves the pool only when service and health check are both gone. */
    method Delete(port: nat) returns (ok: bool)
      modifies this`writes, this`pool, this`services, this`checks
      ensures DeleteStep(uid, old(Now()), Now(), port, ok)
      ensures (forall n :: !fails(n)) ==> ok
    {
      writes := writes + 1;
      if fails(writes - 1) {
        return false;
      }
      services := services - {Namer.Backend(uid, port)};
      writes := writes + 1;
      if fails(writes - 1) {
        return false;
      }
      checks := checks - {port};
      pool := pool - {Decimal(port)};
      return true;
    }

    /** Whatever happens, nothing behind a listed or ignored port is touched and nothing is forgotten; with no error,
        just what is behind the other ports of the pool is gone, and with one, a part of it. A key that is no 16-bit
        number is an error. */
    method Gc(ports: seq<ServicePort>) returns (ok: bool)
      modifies this`writes, this`pool, this`services, this`checks
      ensures Shrunk(old(Now()), Now()) && KeptAlone(uid, Keys(ports) + ignored, old(Now()), Now())
      ensures StillTracked(uid, old(Now()), Now())
      ensures ok ==> Swept(uid, old(pool), Keys(ports) + ignored, Now())
      ensures ok ==> Now() == Without(uid, old(Now()), Doomed(old(pool), Keys(ports) + ignored))
      ensures Shrunk(Now(), Without(uid, old(Now()), Doomed(old(pool), Keys(ports) + ignored)))
      ensures (forall k :: k in old(pool) ==> ParsePort(k).Some?) && (forall n :: !fails(n)) ==> ok
      ensures (exists k :: k in old(pool) && ParsePort(k).None?) ==> !ok
    {
      var known := {};
      for i := 0 to |ports|
        invariant known == Keys(ports[..i])
      {
        assert ports[..i + 1] == ports[..i] + [ports[i]];
        known := known + {Decimal(ports[i].port)};
      }
      assert ports[..|ports|] == ports;
      ghost var keep := known + ignored;
      var rest, snapshot := pool, pool;
      while rest != {}
        invariant rest <= snapshot && Shrunk(old(Now()), Now())
        invariant KeptAlone(uid, keep, old(Now()), Now()) && StillTracked(uid, old(Now()), Now())
        invariant Swept(uid, snapshot - rest, keep, Now())
        invariant Now() == Without(uid, old(Now()), Doomed(snapshot - rest, keep))
        invariant forall k :: k in snapshot - rest ==> ParsePort(k).Some?
      {
        var key :| key in rest;
        var p := ParsePort(key);
        DoomedShrinks(uid, keep, snapshot - rest, snapshot, old(Now()));
        DoomedShrinks(uid, keep, snapshot - rest + {key}, snapshot, old(Now()));
        if p.None? {
          return false;
        }
        assert snapshot - (rest - {key}) == snapshot - rest + {key};
        ghost var was := Now();
        if Decimal(p.value) in known || Decimal(p.value) in ignored {
          KeepSweeps(uid, keep, snapshot - rest, was, key, p.value);
          DoomedStep(uid, keep, snapshot - rest, old(Now()), was, was, key, p.value, true);
        } else {
          var done := Delete(p.value);
          DeleteKeeps(uid, keep, old(Now()), was, Now(), p.value, done);
          DoomedStep(uid, keep, snapshot - rest, old(Now()), was, Now(), key, p.value, done);
          if !done {
            return false;
          }
          DeleteSweeps(uid, keep, snapshot - rest, was, Now(), key, p.value);
        }
        rest := rest - {key};
      }
      return true;
    }

    /** The collection that ends every sync: the ports of all ingresses are listed, so what an ingress needs stays. */
    method GcForIngresses(store: Store, ings: seq<Ingress>) returns (ok: bool, ports: seq<ServicePort>)
      modifies this`writes, this`pool, this`services, this`checks
      ensures forall i, p :: 0 <= i < |ings| && Needs(store, ings[i], p) ==> p in ports
      ensures KeptAlone(uid, Keys(ports) + ignored, old(Now()), Now())
      ensures ok ==> Swept(uid, old(pool), Keys(ports) + ignored, Now())
      ensures Shrunk(old(Now()), Now()) && StillTracked(uid, old(Now()), Now())
    {
      ports := ToNodePorts(store, ings);
      ok := Gc(ports);
    }

    /** Relisting the cloud finds again the backend services that carry the tag of this cluster, and only those, each
        under the very key the pool uses for it. */
    method ReplenishPool()
      modifies this`pool
      ensures pool == old(pool) + Listed(uid, services)
      ensures Relisted(uid, Now())
    {
      var rest := services;
      ghost var seen := {};
      while rest != {}
        invariant pool == old(pool) + Listed(uid, seen) && seen == services - rest
      {
        var name :| name in rest;
        if Namer.NameBelongsToCluster(uid, name) && Namer.BackendPort(name).Some? {
          pool := pool + {Namer.BackendPort(name).value};
        }
        rest := rest - {name};
        seen := seen + {name};
      }
      forall p: nat | p <= MAX_PORT && Namer.NameBelongsToCluster(uid, Namer.Backend(uid, p))
        ensures ServiceTracked(uid, Now(), p) {
        Namer.BackendRoundTrip(uid, p);
      }
    }
  }

  function Keys(ports: seq<ServicePort>): (keys: set<string>) { set p | p in ports :: Decimal(p.port) }

  /** A collection without error is exact: of the tracked ports, just those to be kept still have their service. */
  lemma {:induction false} CollectedExactly(uid: string, keep: set<string>, was: State, now: State, p: nat)
    requires Shrunk(was, now) && KeptAlone(uid, keep, was, now) && Swept(uid, was.pool, keep, now)
    requires p <= MAX_PORT && ServiceTracked(uid, was, p)
    ensures Namer.Backend(uid, p) in now.services <==> Namer.Backend(uid, p) in was.services && Decimal(p) in keep
  {
  }

  /** What relisting finds, see ReplenishPool. */
  ghost predicate Relisted(uid: string, s: State) {
    forall p: nat {:trigger Decimal(p)} :: p <= MAX_PORT && Namer.NameBelongsToCluster(uid, Namer.Backend(uid, p)) ==>
      ServiceTracked(uid, s, p)
  }

  /** The keys that relisting finds. */
  function Listed(uid: string, services: set<string>): (keys: set<string>) {
    set n | n in services && Namer.NameBelongsToCluster(uid, n)
      && Namer.BackendPort(n).Some? :: Namer.BackendPort(n).value
  }

  /** Services with the tag of this cluster are the ones that Ensure creates. */
  ghost predicate OnlyOurs(uid: string, services: set<string>) {
    forall n :: n in services && Namer.NameBelongsToCluster(uid, n) && Namer.BackendPort(n).Some? ==>
      exists q: nat :: q <= MAX_PORT && n == Namer.Backend(uid, q)
  }

  /** The name of the backend service of a port carries the cluster uid whole. */
  predicate Carried(uid: string, p: nat) {
    var full := Namer.BackendFull(uid, p);
    |full| <= Namer.NAME_LEN_LIMIT || (|full| == Namer.NAME_LEN_LIMIT + 1 && EndsWith(uid, '0')) || uid == ""
  }

  lemma {:induction false} NamedIff(uid: string, services: set<string>, p: nat)
    requires OnlyOurs(uid, services) && !HasDouble(uid, '-') && p <= MAX_PORT
    ensures (exists k :: k in Listed(uid, services) && ParsePort(k) == Some(p)) <==>
              Namer.Backend(uid, p) in services && Carried(uid, p)
  {
    Namer.BackendBelongsIff(uid, p);
    Namer.BackendRoundTrip(uid, p);
    ParsePortOfKey(p);
    hide Namer.Backend, Namer.NameBelongsToCluster, Namer.BackendPort, Namer.BackendFull, Decimal, ParsePort;
    if k :| k in Listed(uid, services) && ParsePort(k) == Some(p) {
      var n :| n in services && Namer.NameBelongsToCluster(uid, n) && Namer.BackendPort(n) == Some(k);
      var q: nat :| q <= MAX_PORT && n == Namer.Backend(uid, q);
      Namer.BackendRoundTrip(uid, q);
      ParsePortOfKey(q);
    }
    if Namer.Backend(uid, p) in services && Carried(uid, p) { assert Decimal(p) in Listed(uid, services); }
  }

  /** What survives a restart, exactly. The first relisting and collection remove the service of every port that is not
      needed any more, and its health check with it, except where the name cannot carry the cluster uid whole. A health
      check whose service is gone is never found again. */
  lemma {:induction false} RestartCollectsExactly(uid: string, keep: set<string>, was: State, now: State, p: nat)
    requires was.pool == Listed(uid, was.services) && OnlyOurs(uid, was.services) && !HasDouble(uid, '-')
    requires now == Without(uid, was, Doomed(was.pool, keep)) && p <= MAX_PORT
    ensures var kept := Decimal(p) in keep || !Carried(uid, p);
            && (Namer.Backend(uid, p) in now.services <==> Namer.Backend(uid, p) in was.services && kept)
            && (p in now.checks <==> p in was.checks && (kept || Namer.Backend(uid, p) !in was.services))
  {
    NamedIff(uid, was.services, p);
    hide Namer.Backend, Decimal, ParsePort, Listed, Carried, OnlyOurs;
    var d := Doomed(was.pool, keep);
    forall q: nat | q in d && Namer.Backend(uid, q) == Namer.Backend(uid, p) ensures q == p {
      if q != p { OtherPort(uid, q, p); }
    }
  }

  /** A restart between the two halves of a delete leaks the health check: the service that would lead to it is gone. */
  lemma {:induction false} HalfDeleteLeaksCheck(uid: string, p: nat, keep: set<string>)
    ensures DeleteStep(uid, State({Decimal(p)}, {Namer.Backend(uid, p)}, {p}), State({Decimal(p)}, {}, {p}), p, false)
    ensures Without(uid, State({}, {}, {p}), Doomed(Listed(uid, {}), keep)) == State({}, {}, {p})
  {
    assert Listed(uid, {}) == {};
    assert State({Decimal(p)}, {Namer.Backend(uid, p)}, {p}).services - {Namer.Backend(uid, p)} == {};
  }

  /** The link of each backend service in the cloud, by node port. */
  ghost predicate LinksInto(uid: string, links: BackendLinks, services: set<string>) {
    forall p :: p in links ==> p <= MAX_PORT && links[p] == Self(BackendKind, Namer.Backend(uid, p))
                               && Namer.Backend(uid, p) in services
  }

  /** However a collection ends, and with whatever writes failing, every backend service that the url map of a listed
      ingress names, for any host and path, is still there. */
  lemma {:induction false} RoutedBackendKept(uid: string, ignored: set<string>, was: State, now: State, store: Store,
                                             ing: Ingress,
                                             ports: seq<ServicePort>, links: BackendLinks, system: Option<Link>,
                                             host: string, path: string)
    requires LinksInto(uid, links, was.services) && KeptAlone(uid, Keys(ports) + ignored, was, now)
    requires forall p :: Needs(store, ing, p) ==> p in ports
    ensures var target := (be: Backend) => ToGceBackend(store, links, ing.namespace, be);
            var link := Destination(target, ing, system, host, path);
            (system.Some? && link == system.value) || (link.Self? && link.name in now.services)
              || (system.None? && link == NoLink)
  {
    RoutedPortsAreNeeded(store, links, ing, system, host, path);
    var target := (be: Backend) => ToGceBackend(store, links, ing.namespace, be);
    var link := Destination(target, ing, system, host, path);
    hide Destination, Needs, ToGceBackend;
    if p :| Needs(store, ing, p) && p.port in links && links[p.port] == link {
      assert Decimal(p.port) in Keys(ports);
    }
  }

  // ---------------------------------------------------------------- instance groups of a backend service

  datatype Mode = Rate | Utilization
  datatype Group = Group(link: string, mode: Mode)
  datatype Answer = Accepted | BadRequest | OtherError

  /** The link has "instanceGroups" in it. */
  predicate IsInstanceGroup(link: string) { exists i, j :: 0 <= i <= j <= |link| && link[i..j] == "instanceGroups" }

  function InstanceGroups(groups: seq<Group>): (r: seq<Group>)
    ensures forall g :: g in r <==> g in groups && IsInstanceGroup(g.link)
  {
    if groups == [] then []
    else
      var g := groups[|groups| - 1];
      InstanceGroups(groups[..|groups| - 1]) + if IsInstanceGroup(g.link) then [g] else []
  }

  /** The instance groups the service lacks, with a balancing mode. */
  function Lacking(groups: seq<Group>, igs: seq<string>, mode: Mode): (r: seq<Group>)
    ensures forall g :: g in r <==> g.mode == mode && g.link in igs && g.link !in Links(groups)
  {
    if igs == [] then []
    else
      var n := |igs| - 1;
      assert forall ig :: ig in igs <==> ig in igs[..n] || ig == igs[n];
      Lacking(groups, igs[..n], mode) + if igs[n] in Links(groups) then [] else [Group(igs[n], mode)]
  }

  function Links(groups: seq<Group>): (r: set<string>) { set g | g in groups :: g.link }

  /** Links a backend service to all the instance groups: nothing to do if it is, else an update that drops what is no
      instance group, keeps the rest as it is and adds what is lacking, at a rate or, if the cloud calls that a bad
      request, by utilization. On success every group is linked and no instance group was unlinked. */
  method EdgeHop(groups: seq<Group>, igs: seq<string>, cloud: seq<Group> -> Answer)
    returns (after: seq<Group>, ok: bool)
    ensures ok ==> forall ig :: ig in igs && IsInstanceGroup(ig) ==> ig in Links(after)
    ensures ok ==> forall g :: g in groups && IsInstanceGroup(g.link) ==> g in after
    ensures after != groups ==> ok && (forall g :: g in after ==> IsInstanceGroup(g.link) || g.link in igs)
                                && cloud(after) == Accepted
    ensures (forall ig :: ig in igs ==> ig in Links(groups)) ==> ok && after == groups
    // what is lacking is added at a rate if the cloud takes that, by utilization only if it calls that a bad request
    ensures var rate := InstanceGroups(groups) + Lacking(groups, igs, Rate);
            (exists ig :: ig in igs && ig !in Links(groups)) && cloud(rate) == Accepted ==> ok && after == rate
    ensures ok && after != groups && cloud(InstanceGroups(groups) + Lacking(groups, igs, Rate)) != Accepted ==>
              && cloud(InstanceGroups(groups) + Lacking(groups, igs, Rate)) == BadRequest
              && after == InstanceGroups(groups) + Lacking(groups, igs, Utilization)
    ensures !ok ==> cloud(InstanceGroups(groups) + Lacking(groups, igs, Rate)) != Accepted
    ensures !ok && cloud(InstanceGroups(groups) + Lacking(groups, igs, Rate)) == BadRequest ==>
              cloud(InstanceGroups(groups) + Lacking(groups, igs, Utilization)) != Accepted
  {
    if (set ig | ig in igs) <= Links(groups) {
      return groups, true;
    }
    var kept := InstanceGroups(groups);
    var modes := [Rate, Utilization];
    for i := 0 to 2
      invariant i > 0 ==> cloud(kept + Lacking(groups, igs, Rate)) == BadRequest
      invariant i > 1 ==> cloud(kept + Lacking(groups, igs, Utilization)) == BadRequest
    {
      var update := kept + Lacking(groups, igs, modes[i]);
      match cloud(update) {
        case Accepted =>
          forall ig | ig in igs && IsInstanceGroup(ig)
            ensures ig in Links(update) { OneOfThem(groups, igs, modes[i], ig); }
          return update, true;
        case BadRequest =>
        case OtherError => return groups, false;
      }
    }
    return groups, false;
  }

  lemma {:induction false} OneOfThem(groups: seq<Group>, igs: seq<string>, mode: Mode, ig: string)
    requires ig in igs && IsInstanceGroup(ig)
    ensures ig in Links(InstanceGroups(groups) + Lacking(groups, igs, mode))
  {
    hide IsInstanceGroup;
    if ig in Links(groups) {
      var g :| g in groups && g.link == ig;
      assert g in InstanceGroups(groups);
    } else {
      assert Group(ig, mode) in Lacking(groups, igs, mode);
    }
  }
}
