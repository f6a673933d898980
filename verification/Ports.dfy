/** Which node ports the ingresses need (pkg/controller/utils.go): for backend services, for garbage collection
    and for the firewall. Whatever the url maps route to is among them. */
module Ports {
  import opened Text
  import opened L7Cloud
  import opened Ingresses

  // ---------------------------------------------------------------- the backends of an ingress

  function PathBackends(paths: seq<Path>): (bes: seq<Backend>) {
    seq(|paths|, i requires 0 <= i < |paths| => paths[i].backend)
  }

  function RuleBackends(rules: seq<HostPaths>): (bes: seq<Backend>) {
    if rules == [] then []
    else
      var n := |rules| - 1;
      RuleBackends(rules[..n]) + if rules[n].http.Some? then PathBackends(rules[n].http.value) else []
  }

  /** The default backend, then the backends of the HTTP rules in order. */
  function BackendsOf(ing: Ingress): (bes: seq<Backend>) {
    (if ing.backend.Some? then [ing.backend.value] else []) + RuleBackends(ing.rules)
  }

  /** The ports of those that resolve. */
  function Resolved(store: Store, namespace: string, bes: seq<Backend>): (ports: seq<ServicePort>) {
    if bes == [] then []
    else
      var n := |bes| - 1;
      var r := Resolve(store, namespace, bes[n]);
      Resolved(store, namespace, bes[..n]) + if r.Found? then [r.port] else []
  }

  /** The ingress needs this port. */
  ghost predicate Needs(store: Store, ing: Ingress, p: ServicePort) {
    exists be :: be in BackendsOf(ing) && Resolve(store, ing.namespace, be) == Found(p)
  }

  lemma {:induction false} PathInRules(rules: seq<HostPaths>, i: nat, j: nat)
    requires i < |rules| && rules[i].http.Some? && j < |rules[i].http.value|
    ensures rules[i].http.value[j].backend in RuleBackends(rules)
  {
    var n := |rules| - 1;
    if i == n {
      assert PathBackends(rules[n].http.value)[j] == rules[n].http.value[j].backend;
    } else {
      PathInRules(rules[..n], i, j);
    }
  }

  /** The backends of the rules are those of the paths of the HTTP rules. */
  lemma {:induction false} RuleBackendAt(rules: seq<HostPaths>, k: nat) returns (i: nat, j: nat)
    requires k < |RuleBackends(rules)|
    ensures i < |rules| && rules[i].http.Some? && j < |rules[i].http.value|
              && rules[i].http.value[j].backend == RuleBackends(rules)[k]
  {
    var n := |rules| - 1;
    var m := |RuleBackends(rules[..n])|;
    if k < m {
      i, j := RuleBackendAt(rules[..n], k);
    } else {
      i, j := n, k - m;
    }
  }

  /** A backend that the ingress names: its default, or one of a path of an HTTP rule. */
  ghost predicate Uses(ing: Ingress, be: Backend) {
    || ing.backend == Some(be)
    || exists i, j :: 0 <= i < |ing.rules| && ing.rules[i].http.Some? && 0 <= j < |ing.rules[i].http.value|
                      && ing.rules[i].http.value[j].backend == be
  }

  lemma {:induction false} UsesIff(ing: Ingress, be: Backend)
    ensures be in BackendsOf(ing) <==> Uses(ing, be)
  {
    if be in RuleBackends(ing.rules) {
      var k :| 0 <= k < |RuleBackends(ing.rules)| && RuleBackends(ing.rules)[k] == be;
      var i, j := RuleBackendAt(ing.rules, k);
    }
    if i, j :| 0 <= i < |ing.rules| && ing.rules[i].http.Some? && 0 <= j < |ing.rules[i].http.value|
               && ing.rules[i].http.value[j].backend == be {
      PathInRules(ing.rules, i, j);
    }
  }

  /** The ingress names a backend that refers to port `k` of its service, and this is all there is to know of that. */
  ghost predicate NeedsPort(store: Store, ing: Ingress, p: ServicePort, be: Backend, k: int) {
    Uses(ing, be) && Means(store, ing.namespace, be, k) && Describes(store, ing.namespace, be, k, p)
  }

  lemma {:induction false} NeedsIff(store: Store, ing: Ingress, p: ServicePort)
    ensures Needs(store, ing, p) <==> exists be, k :: NeedsPort(store, ing, p, be, k)
  {
    hide BackendsOf, Means, Resolve, Uses;
    if be :| be in BackendsOf(ing) && Resolve(store, ing.namespace, be) == Found(p) {
      UsesIff(ing, be);
      ResolveMeans(store, ing.namespace, be);
      var k :| Means(store, ing.namespace, be, k);
      assert NeedsPort(store, ing, p, be, k);
    }
    if be, k :| NeedsPort(store, ing, p, be, k) {
      UsesIff(ing, be);
      ResolveMeans(store, ing.namespace, be);
      OneDescribed(store, ing.namespace, be, k, p, Resolve(store, ing.namespace, be).port);
    }
  }

  lemma {:induction false} OneDescribed(store: Store, namespace: string, be: Backend, k: int, p: ServicePort,
                                        q: ServicePort)
    requires Means(store, namespace, be, k)
    requires Describes(store, namespace, be, k, p) && Describes(store, namespace, be, k, q)
    ensures p == q
  {
  }

  lemma {:induction false} ResolvedIff(store: Store, namespace: string, bes: seq<Backend>, p: ServicePort)
    ensures p in Resolved(store, namespace, bes) <==>
              exists be :: be in bes && Resolve(store, namespace, be) == Found(p)
  {
    if bes != [] {
      var n := |bes| - 1;
      ResolvedIff(store, namespace, bes[..n], p);
      assert forall be :: be in bes <==> be in bes[..n] || be == bes[n] by { assert bes == bes[..n] + [bes[n]]; }
    }
  }

  lemma {:induction false} ResolvedSnoc(store: Store, namespace: string, bes: seq<Backend>, be: Backend)
    ensures var r := Resolve(store, namespace, be);
            Resolved(store, namespace, bes + [be]) == Resolved(store, namespace, bes) + if r.Found? then [r.port]
              else []
  {
    assert (bes + [be])[..|bes|] == bes;
  }

  lemma {:induction false} ResolvedPrefix(store: Store, namespace: string, a: seq<Backend>, b: seq<Backend>)
    ensures Resolved(store, namespace, a) <= Resolved(store, namespace, a + b)
    decreases |b|
  {
    var n := |b| - 1;
    if n < 0 {
      assert a + b == a;
    } else {
      assert a + b == (a + b[..n]) + [b[n]];
      ResolvedPrefix(store, namespace, a, b[..n]);
      ResolvedSnoc(store, namespace, a + b[..n], b[n]);
    }
  }

  lemma {:induction false} RuleBackendsSnoc(rules: seq<HostPaths>, n: nat)
    requires n < |rules|
    ensures RuleBackends(rules[..n + 1]) ==
            RuleBackends(rules[..n]) + if rules[n].http.Some? then PathBackends(rules[n].http.value) else []
  {
    assert rules[..n + 1][..n] == rules[..n];
  }

  /** The ports of one list of paths, appended to those known. */
  method PathPorts(store: Store, namespace: string, ghost bes: seq<Backend>, known: seq<ServicePort>, paths: seq<Path>)
    returns (ports: seq<ServicePort>)
    requires known == Resolved(store, namespace, bes)
    ensures ports == Resolved(store, namespace, bes + PathBackends(paths))
  {
    ports := known;
    assert bes + PathBackends(paths)[..0] == bes;
    for i := 0 to |paths|
      invariant ports == Resolved(store, namespace, bes + PathBackends(paths)[..i])
    {
      assert bes + PathBackends(paths)[..i + 1] == bes + PathBackends(paths)[..i] + [paths[i].backend];
      ResolvedSnoc(store, namespace, bes + PathBackends(paths)[..i], paths[i].backend);
      var r := GetServiceNodePort(store, namespace, paths[i].backend);
      if r.Found? {
        ports := ports + [r.port];
      }
    }
    assert PathBackends(paths)[..|paths|] == PathBackends(paths);
  }

  method RulePorts(store: Store, namespace: string, ghost bes: seq<Backend>, known: seq<ServicePort>,
                   rules: seq<HostPaths>)
    returns (ports: seq<ServicePort>)
    requires known == Resolved(store, namespace, bes)
    ensures ports == Resolved(store, namespace, bes + RuleBackends(rules))
  {
    hide Resolved, PathBackends;
    ports := known;
    assert bes + RuleBackends(rules[..0]) == bes;
    for i := 0 to |rules|
      invariant ports == Resolved(store, namespace, bes + RuleBackends(rules[..i]))
    {
      ghost var done := bes + RuleBackends(rules[..i]);
      RuleBackendsSnoc(rules, i);
      if rules[i].http.Some? {
        ports := PathPorts(store, namespace, done, ports, rules[i].http.value);
        assert bes + RuleBackends(rules[..i + 1]) == done + PathBackends(rules[i].http.value);
      } else {
        assert bes + RuleBackends(rules[..i + 1]) == done;
      }
    }
    assert rules[..|rules|] == rules;
  }

  /** Exactly the ports the ingress needs; a backend that does not resolve is skipped, whatever the error. */
  method IngressToNodePorts(store: Store, ing: Ingress) returns (ports: seq<ServicePort>)
    ensures ports == Resolved(store, ing.namespace, BackendsOf(ing))
    ensures forall k :: ing.backend.Some? && Means(store, ing.namespace, ing.backend.value, k) ==>
              ports != [] && Describes(store, ing.namespace, ing.backend.value, k, ports[0])
    ensures forall p :: p in ports <==> Needs(store, ing, p)
    ensures forall p :: p in ports <==> exists be, k :: NeedsPort(store, ing, p, be, k)
  {
    hide Resolve, RuleBackends, NeedsPort;
    ports := [];
    ghost var head := if ing.backend.Some? then [ing.backend.value] else [];
    if ing.backend.Some? {
      ResolvedSnoc(store, ing.namespace, [], ing.backend.value);
      assert [] + [ing.backend.value] == head;
      var r := GetServiceNodePort(store, ing.namespace, ing.backend.value);
      if r.Found? {
        ports := ports + [r.port];
      }
    }
    ghost var first := ports;
    ports := RulePorts(store, ing.namespace, head, ports, ing.rules);
    ResolvedPrefix(store, ing.namespace, head, RuleBackends(ing.rules));
    assert first <= ports;
    forall p ensures (p in ports <==> Needs(store, ing, p))
                     && (p in ports <==> exists be, k :: NeedsPort(store, ing, p, be, k)) {
      ResolvedIff(store, ing.namespace, BackendsOf(ing), p);
      NeedsIff(store, ing, p);
    }
  }

  method ToNodePorts(store: Store, ings: seq<Ingress>) returns (ports: seq<ServicePort>)
    ensures forall p :: p in ports <==> exists i :: 0 <= i < |ings| && Needs(store, ings[i], p)
  {
    hide Needs, Resolved, BackendsOf;
    ports := [];
    for i := 0 to |ings|
      invariant forall p :: p in ports <==> exists j :: 0 <= j < i && Needs(store, ings[j], p)
    {
      var more := IngressToNodePorts(store, ings[i]);
      ports := ports + more;
    }
  }

  // ---------------------------------------------------------------- routing never leaves the listed ports

  /** Any backend service that the url map of an ingress names, for any host and path or as the default of the
      ingress, is the one of a node port that the ingress needs. */
  lemma {:induction false} RoutedPortsAreNeeded(store: Store, links: BackendLinks, ing: Ingress,
                                                system: Option<Link>, host: string, path: string)
    ensures var target := (be: Backend) => ToGceBackend(store, links, ing.namespace, be);
            var link := Destination(target, ing, system, host, path);
            || (system.Some? && link == system.value) || (system.None? && link == NoLink)
            || exists p :: Needs(store, ing, p) && p.port in links && links[p.port] == link
  {
    var target := (be: Backend) => ToGceBackend(store, links, ing.namespace, be);
    if host != Routing.DEFAULT_BACKEND_KEY && Asked(target, ing, host, path).Some? {
      var i := LastRuleIndex(ing.rules, host);
      var j := LastPathIndex(target, ing.rules[i].http.value, path);
      PathInRules(ing.rules, i, j);
      var be := ing.rules[i].http.value[j].backend;
      assert be in BackendsOf(ing);
      assert Needs(store, ing, Resolve(store, ing.namespace, be).port);
    } else if UserDefault(target, ing).Some? {
      assert ing.backend.value in BackendsOf(ing);
      assert Needs(store, ing, Resolve(store, ing.namespace, ing.backend.value).port);
    }
  }

  // ---------------------------------------------------------------- one entry per node port

  /** The last entry for a node port. */
  function LastFor(ports: seq<ServicePort>, port: nat): (p: Option<ServicePort>) {
    if ports == [] then None
    else if ports[|ports| - 1].port == port then Some(ports[|ports| - 1])
    else LastFor(ports[..|ports| - 1], port)
  }

  lemma {:induction false} LastForSnoc(ports: seq<ServicePort>, n: nat, port: nat)
    requires n < |ports|
    ensures LastFor(ports[..n + 1], port) == if ports[n].port == port then Some(ports[n]) else LastFor(ports[..n], port)
  {
    assert ports[..n + 1][..n] == ports[..n];
  }

  lemma {:induction false} LastForExists(ports: seq<ServicePort>, port: nat)
    ensures LastFor(ports, port).Some? <==> exists p :: p in ports && p.port == port
    ensures LastFor(ports, port).Some? ==>
              LastFor(ports, port).value in ports && LastFor(ports, port).value.port == port
  {
    if ports != [] {
      var n := |ports| - 1;
      LastForExists(ports[..n], port);
      assert forall p :: p in ports <==>
        p in ports[..n] || p == ports[n] by { assert ports == ports[..n] + [ports[n]]; }
    }
  }

  predicate HasPort(ports: seq<ServicePort>, port: nat) { exists p :: p in ports && p.port == port }

  /** Nothing after position `i` is for the same node port. */
  predicate IsLast(ports: seq<ServicePort>, i: int) {
    0 <= i < |ports| && forall j :: i < j < |ports| ==> ports[j].port != ports[i].port
  }

  lemma {:induction false} LastForIff(ports: seq<ServicePort>, p: ServicePort)
    ensures LastFor(ports, p.port) == Some(p) <==> exists i :: IsLast(ports, i) && ports[i] == p
  {
    if ports != [] {
      var n := |ports| - 1;
      LastForIff(ports[..n], p);
      if ports[n].port == p.port {
        assert IsLast(ports, n);
      } else {
        forall i ensures IsLast(ports, i) && ports[i] == p <==> IsLast(ports[..n], i) && ports[..n][i] == p { }
      }
    }
  }

  /** The list by node port, later entries in place of earlier ones. */
  method ByPort(ports: seq<ServicePort>) returns (portMap: map<nat, ServicePort>)
    ensures forall k: nat :: LastFor(ports, k) == if k in portMap then Some(portMap[k]) else None
  {
    portMap := map[];
    for i := 0 to |ports|
      invariant forall k: nat :: LastFor(ports[..i], k) == if k in portMap then Some(portMap[k]) else None
    {
      forall k: nat { LastForSnoc(ports, i, k); }
      portMap := portMap[ports[i].port := ports[i]];
    }
    assert ports[..|ports|] == ports;
  }

  /** The values, each once, in whatever order. */
  method Values(portMap: map<nat, ServicePort>) returns (out: seq<ServicePort>)
    requires forall k :: k in portMap ==> portMap[k].port == k
    ensures forall p :: p in out <==> p.port in portMap && portMap[p.port] == p
    ensures forall i, j :: 0 <= i < j < |out| ==> out[i].port != out[j].port
  {
    out := [];
    var rest := portMap.Keys;
    while rest != {}
      invariant rest <= portMap.Keys
      invariant forall p :: p in out <==> p.port in portMap && p.port !in rest && portMap[p.port] == p
      invariant forall i, j :: 0 <= i < j < |out| ==> out[i].port != out[j].port
    {
      var k :| k in rest;
      assert forall i :: 0 <= i < |out| ==> out[i] in out && out[i].port != k;
      out := out + [portMap[k]];
      rest := rest - {k};
    }
  }

  /** One entry for each node port of the list, and it is the last one given for it. */
  method Uniq(ports: seq<ServicePort>) returns (out: seq<ServicePort>)
    ensures forall p :: p in out <==> exists i :: IsLast(ports, i) && ports[i] == p
    ensures forall q :: q in ports ==> HasPort(out, q.port)
    ensures forall i, j :: 0 <= i < j < |out| ==> out[i].port != out[j].port
  {
    hide LastFor;
    var portMap := ByPort(ports);
    forall k: nat { LastForExists(ports, k); }
    out := Values(portMap);
    forall p ensures p in out <==> exists i :: IsLast(ports, i) && ports[i] == p { LastForIff(ports, p); }
    forall q | q in ports ensures HasPort(out, q.port) {
      LastForExists(ports, q.port);
      assert portMap[q.port] in out;
    }
  }

  // ---------------------------------------------------------------- firewall

  datatype EndpointPort = EndpointPort(name: string, port: int, tcp: bool)

  /** The endpoint store: the ports of each subset. */
  type Endpoints = map<(string, string), seq<seq<EndpointPort>>>

  /** A target port leads to this endpoint port: it is the number itself, or the name of it among the endpoints. */
  ghost predicate LeadsTo(eps: Endpoints, namespace: string, name: string, targetPort: string, port: int) {
    if Atoi(targetPort).Some? then port == Atoi(targetPort).value
    else (namespace, name) in eps && exists i, j :: Named(eps[(namespace, name)], i, j, targetPort, port)
  }

  predicate Named(subsets: seq<seq<EndpointPort>>, i: int, j: int, targetPort: string, port: int) {
    && 0 <= i < |subsets| && 0 <= j < |subsets[i]|
    && subsets[i][j].tcp && subsets[i][j].name == targetPort && subsets[i][j].port == port
  }

  method ListEndpointTargetPorts(eps: Endpoints, namespace: string, name: string,
                                 targetPort: string) returns (ports: seq<int>)
    ensures forall port :: port in ports <==> LeadsTo(eps, namespace, name, targetPort, port)
  {
    if Atoi(targetPort).Some? {
      return [Atoi(targetPort).value];
    }
    if (namespace, name) !in eps {
      return [];
    }
    ports := [];
    var subsets := eps[(namespace, name)];
    for i := 0 to |subsets|
      invariant forall port :: port in ports <==> exists a, b :: a < i && Named(subsets, a, b, targetPort, port)
    {
      for j := 0 to |subsets[i]|
        invariant forall port :: port in ports <==>
                    exists a, b :: (a < i || (a == i && b < j)) && Named(subsets, a, b, targetPort, port)
      {
        var p := subsets[i][j];
        if p.tcp && p.name == targetPort {
          assert Named(subsets, i, j, targetPort, p.port);
          ports := ports + [p.port];
        }
      }
    }
  }

  /** A service port needs this firewall port: its node port, or for a NEG the endpoint ports behind it. */
  ghost predicate Opens(eps: Endpoints, p: ServicePort, port: int) {
    if p.neg then LeadsTo(eps, p.namespace, p.service, p.targetPort, port) else port == p.port
  }

  /** The elements of a set, each once, in whatever order. */
  method Elements(all: set<int>) returns (s: seq<int>)
    ensures forall x :: x in s <==> x in all
    ensures forall i, j :: 0 <= i < j < |s| ==> s[i] != s[j]
  {
    s := [];
    var rest := all;
    while rest != {}
      invariant rest <= all
      invariant forall x :: x in s <==> x in all && x !in rest
      invariant forall i, j :: 0 <= i < j < |s| ==> s[i] != s[j]
    {
      assert (forall y :: y !in rest) ==> rest == {};
      var x :| x in rest;
      assert forall i :: 0 <= i < |s| ==> s[i] in s;
      s := s + [x];
      rest := rest - {x};
    }
  }

  /** The ports opened are exactly those some service port needs, each once. */
  method GatherFirewallPorts(eps: Endpoints, svcPorts: seq<ServicePort>, default: ServicePort, includeDefault: bool)
    returns (ports: seq<int>)
    ensures forall port :: port in ports <==>
              (exists i :: 0 <= i < |svcPorts| && Opens(eps, svcPorts[i], port))
                || (includeDefault && Opens(eps, default, port))
    ensures forall i, j :: 0 <= i < j < |ports| ==> ports[i] != ports[j]
  {
    var all := if includeDefault then svcPorts + [default] else svcPorts;
    var portMap: set<int> := {};
    for i := 0 to |all|
      invariant forall port :: port in portMap <==> exists k :: 0 <= k < i && Opens(eps, all[k], port)
    {
      if all[i].neg {
        var endpointPorts := ListEndpointTargetPorts(eps, all[i].namespace, all[i].service, all[i].targetPort);
        portMap := portMap + set ep | ep in endpointPorts;
      } else {
        portMap := portMap + {all[i].port};
      }
    }
    assert forall i :: 0 <= i < |svcPorts| ==> all[i] == svcPorts[i];
    assert includeDefault ==> all[|svcPorts|] == default;
    ports := Elements(portMap);
  }

  /** The port lists of one sync. Garbage collection gets the ports of all ingresses; backend services, one entry a node
      port, and the firewall those of the ingresses this controller serves, `gce`. A port that one of these needs is in
      all three: by its node port, and behind the firewall by what it opens. */
  method SyncPorts(store: Store, ings: seq<Ingress>, gce: seq<Ingress>, eps: Endpoints, default: ServicePort,
                   haveLbs: bool)
    returns (all: seq<ServicePort>, unique: seq<ServicePort>, firewall: seq<int>)
    ensures forall i, p :: 0 <= i < |ings| && Needs(store, ings[i], p) ==> p in all
    ensures forall i, p :: 0 <= i < |gce| && Needs(store, gce[i], p) ==> HasPort(unique, p.port)
    ensures forall i, p, port :: 0 <= i < |gce| && Needs(store, gce[i], p) && Opens(eps, p, port) ==> port in firewall
    ensures forall q :: q in unique ==> exists i :: 0 <= i < |gce| && Needs(store, gce[i], q)
    ensures forall port :: port in firewall ==>
              (haveLbs && Opens(eps, default, port)) || exists i, p :: 0 <= i < |gce| && Needs(store, gce[i], p)
                                                                       && Opens(eps, p, port)
    ensures haveLbs ==> forall port :: Opens(eps, default, port) ==> port in firewall
  {
    hide Needs, Opens, LastFor, HasPort;
    all := ToNodePorts(store, ings);
    var served := ToNodePorts(store, gce);
    unique := Uniq(served);
    firewall := GatherFirewallPorts(eps, served, default, haveLbs);
    forall q | q in unique ensures q in served { LastForExists(served, q.port); }
    forall i, p | 0 <= i < |gce| && Needs(store, gce[i], p) ensures HasPort(unique, p.port) { assert p in served; }
    forall i, p, port | 0 <= i < |gce| && Needs(store, gce[i], p) && Opens(eps, p, port) ensures port in firewall {
      assert p in served;
      var k :| 0 <= k < |served| && served[k] == p;
    }
    forall port | port in firewall && !(haveLbs && Opens(eps, default, port))
      ensures exists i, p :: 0 <= i < |gce| && Needs(store, gce[i], p) && Opens(eps, p, port) {
      var k :| 0 <= k < |served| && Opens(eps, served[k], port);
      assert served[k] in served;
    }
  }
}
