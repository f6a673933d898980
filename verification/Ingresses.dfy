/** Ingresses and services, and their translation to node ports and to host -> path -> backend maps
    (pkg/controller/utils.go). */
module Ingresses {
  import opened Text
  import opened L7Cloud
  import opened Routing

  // ---------------------------------------------------------------- entities

  /** A port given by number or by name. */
  datatype PortRef = IntPort(n: int) | NamedPort(name: string) {
    /** `IntOrString.String()` */
    function Text(): (s: string) { match this case IntPort(n) => Itoa(n) case NamedPort(name) => name }
  }

  datatype Backend = Backend(service: string, port: PortRef)
  datatype Path = Path(path: string, backend: Backend)
  datatype HostPaths = HostPaths(host: string, http: Option<seq<Path>>) // one ingress rule
  datatype Ingress = Ingress(namespace: string, backend: Option<Backend>, rules: seq<HostPaths>)

  datatype SvcPort = SvcPort(name: string, port: int, nodePort: nat, targetPort: PortRef)

  /** `protocols` is the parsed annotation, None if it does not parse. */
  datatype Service = Service(namespace: string, name: string, ports: seq<SvcPort>,
    protocols: Option<map<string, string>>, neg: bool)

  datatype ServicePort = ServicePort(port: nat, protocol: string, namespace: string, service: string, svcPort: PortRef,
                                     targetPort: string, neg: bool)

  /** The service store and the controller's NEG switch. */
  datatype Store = Store(services: map<(string, string), Service>, negEnabled: bool)

  datatype Lookup = Found(port: ServicePort) | NodePortNotFound | BadProtocols

  // ---------------------------------------------------------------- service port lookup

  predicate Refers(ref: PortRef, p: SvcPort) {
    match ref case IntPort(n) => p.port == n case NamedPort(name) => p.name == name
  }

  function FirstPort(ports: seq<SvcPort>, ref: PortRef): (p: Option<SvcPort>)
    ensures p.Some? ==> p.value in ports && Refers(ref, p.value)
    ensures p.None? ==> forall q :: q in ports ==> !Refers(ref, q)
  {
    if ports == [] then None
    else if Refers(ref, ports[0]) then Some(ports[0])
    else FirstPort(ports[1..], ref)
  }

  lemma {:induction false} FirstPortAt(ports: seq<SvcPort>, ref: PortRef, i: nat)
    requires i < |ports| && Refers(ref, ports[i]) && forall j :: 0 <= j < i ==> !Refers(ref, ports[j])
    ensures FirstPort(ports, ref) == Some(ports[i])
  {
    if i > 0 { FirstPortAt(ports[1..], ref, i - 1); }
  }

  function PortOf(store: Store, svc: Service, namespace: string, be: Backend, p: SvcPort,
                  protocols: map<string, string>): (r: ServicePort) {
    ServicePort(p.nodePort, if p.name in protocols then protocols[p.name] else "HTTP", namespace, be.service, be.port,
                p.targetPort.Text(), store.negEnabled && svc.neg)
  }

  function Resolve(store: Store, namespace: string, be: Backend): (r: Lookup) {
    if (namespace, be.service) !in store.services then NodePortNotFound
    else
      var svc := store.services[(namespace, be.service)];
      if svc.protocols.None? then BadProtocols
      else
        var p := FirstPort(svc.ports, be.port);
        if p.None? then NodePortNotFound
        else Found(PortOf(store, svc, namespace, be, p.value, svc.protocols.value))
  }

  /** Port `i` is what a backend refers to: its service is there, the protocols parse, and it is the first port of that
      number or, for a name, of that name. */
  ghost predicate Means(store: Store, namespace: string, be: Backend, i: int) {
    && (namespace, be.service) in store.services && store.services[(namespace, be.service)].protocols.Some?
    && var ports := store.services[(namespace, be.service)].ports;
       && 0 <= i < |ports|
       && match be.port
          case IntPort(n) => ports[i].port == n && forall j :: 0 <= j < i ==> ports[j].port != n
          case NamedPort(name) => ports[i].name == name && forall j :: 0 <= j < i ==> ports[j].name != name
  }

  function PortAt(store: Store, namespace: string, be: Backend, i: int): (p: SvcPort)
    requires (namespace, be.service) in store.services && 0 <= i < |store.services[(namespace, be.service)].ports|
  {
    store.services[(namespace, be.service)].ports[i]
  }

  /** All that is recorded of a port found: its node port above all. */
  ghost predicate Describes(store: Store, namespace: string, be: Backend, i: int, q: ServicePort)
    requires Means(store, namespace, be, i)
  {
    var svc := store.services[(namespace, be.service)];
    var p := svc.ports[i];
    && q.port == p.nodePort && q.namespace == namespace && q.service == be.service && q.svcPort == be.port
    && q.protocol == (if p.name in svc.protocols.value then svc.protocols.value[p.name] else "HTTP")
    && q.targetPort == (match p.targetPort case IntPort(n) => Itoa(n) case NamedPort(name) => name)
    && (q.neg <==> store.negEnabled && svc.neg)
  }

  lemma {:induction false} ResolveMeans(store: Store, namespace: string, be: Backend)
    ensures forall i :: Means(store, namespace, be, i) ==>
              Resolve(store, namespace, be).Found?
                && Describes(store, namespace, be, i, Resolve(store, namespace, be).port)
    ensures Resolve(store, namespace, be).Found? ==> exists i :: Means(store, namespace, be, i)
    ensures Resolve(store, namespace, be) == BadProtocols <==>
              (namespace, be.service) in store.services && store.services[(namespace, be.service)].protocols.None?
  {
    forall i | Means(store, namespace, be, i)
      ensures FirstPort(store.services[(namespace, be.service)].ports, be.port)
                == Some(PortAt(store, namespace, be, i)) {
      FirstPortAt(store.services[(namespace, be.service)].ports, be.port, i);
    }
    if Resolve(store, namespace, be).Found? {
      var i := FirstReferring(store.services[(namespace, be.service)].ports, be.port);
      assert Means(store, namespace, be, i);
    }
  }

  lemma {:induction false} FirstReferring(ports: seq<SvcPort>, ref: PortRef) returns (i: nat)
    requires FirstPort(ports, ref).Some?
    ensures i < |ports| && Refers(ref, ports[i]) && forall j :: 0 <= j < i ==> !Refers(ref, ports[j])
  {
    if Refers(ref, ports[0]) {
      i := 0;
    } else {
      i := FirstReferring(ports[1..], ref);
      i := i + 1;
    }
  }

  /** The first port of the service that the backend refers to, by number or by name, with its node port, protocol,
      target port and NEG switch; an error exactly when there is none or the protocols do not parse. */
  method GetServiceNodePort(store: Store, namespace: string, be: Backend) returns (r: Lookup)
    ensures forall i :: Means(store, namespace, be, i) ==> r.Found? && Describes(store, namespace, be, i, r.port)
    ensures r.Found? ==> exists i :: Means(store, namespace, be, i)
    ensures r == BadProtocols <==>
              (namespace, be.service) in store.services && store.services[(namespace, be.service)].protocols.None?
    ensures r == Resolve(store, namespace, be)
  {
    ResolveMeans(store, namespace, be);
    if (namespace, be.service) !in store.services {
      return NodePortNotFound;
    }
    var svc := store.services[(namespace, be.service)];
    if svc.protocols.None? {
      return BadProtocols;
    }
    for i := 0 to |svc.ports|
      invariant forall j :: 0 <= j < i ==> !Refers(be.port, svc.ports[j])
    {
      if Refers(be.port, svc.ports[i]) {
        FirstPortAt(svc.ports, be.port, i);
        return Found(PortOf(store, svc, namespace, be, svc.ports[i], svc.protocols.value));
      }
    }
    return NodePortNotFound;
  }

  // ---------------------------------------------------------------- toURLMap

  /** The backend services in the cloud, by node port. */
  type BackendLinks = map<nat, Link>

  /** toGCEBackend: a backend link, an error that skips the path, or one that fails the whole translation. */
  datatype Target = To(link: Link) | Skip | Fatal

  function ToGceBackend(store: Store, links: BackendLinks, namespace: string, be: Backend): (t: Target) {
    match Resolve(store, namespace, be)
    case NodePortNotFound => Skip
    case BadProtocols => Fatal
    case Found(p) => if p.port in links then To(links[p.port]) else Fatal
  }

  function HostOf(host: string): (h: string) { if host == "" then DEFAULT_HOST else host }
  function PathOf(path: string): (p: string) { if path == "" then DEFAULT_PATH else path }

  /** The backend of the last path with this expression that resolves. */
  function LastPath(target: Backend -> Target, paths: seq<Path>, path: string): (r: Option<Link>) {
    if paths == [] then None
    else
      var n := |paths| - 1;
      if PathOf(paths[n].path) == path && target(paths[n].backend).To? then Some(target(paths[n].backend).link)
      else LastPath(target, paths[..n], path)
  }

  /** The paths of the last HTTP rule for this host. */
  function LastRule(rules: seq<HostPaths>, host: string): (r: Option<seq<Path>>) {
    if rules == [] then None
    else
      var n := |rules| - 1;
      if rules[n].http.Some? && HostOf(rules[n].host) == host then rules[n].http else LastRule(rules[..n], host)
  }

  /** Where the ingress asks a path expression of a host to go, None for the default. */
  function Asked(target: Backend -> Target, ing: Ingress, host: string, path: string): (r: Option<Link>) {
    var paths := LastRule(ing.rules, host);
    if paths.None? then None else LastPath(target, paths.value, path)
  }

  predicate PathsFatal(target: Backend -> Target, paths: seq<Path>) {
    exists i :: 0 <= i < |paths| && target(paths[i].backend) == Fatal
  }

  predicate RulesFatal(target: Backend -> Target, rules: seq<HostPaths>) {
    exists i :: 0 <= i < |rules| && rules[i].http.Some? && PathsFatal(target, rules[i].http.value)
  }

  /** The user's default backend, if it resolves; any error falls back to the system default. */
  function UserDefault(target: Backend -> Target, ing: Ingress): (d: Option<Link>) {
    if ing.backend.Some? && target(ing.backend.value).To? then Some(target(ing.backend.value).link) else None
  }

  ghost predicate TableFor(target: Backend -> Target, paths: seq<Path>, t: PathTable) {
    forall p :: LastPath(target, paths, p) == if p in t then t[p] else None
  }

  lemma {:induction false} LastPathSnoc(target: Backend -> Target, paths: seq<Path>, n: nat, p: string)
    requires n < |paths|
    ensures LastPath(target, paths[..n + 1], p) ==
            if PathOf(paths[n].path) == p && target(paths[n].backend).To? then Some(target(paths[n].backend).link)
            else LastPath(target, paths[..n], p)
  {
    assert paths[..n + 1][..n] == paths[..n];
  }

  lemma {:induction false} LastRuleSnoc(rules: seq<HostPaths>, n: nat, host: string)
    requires n < |rules|
    ensures LastRule(rules[..n + 1], host) ==
            if rules[n].http.Some? && HostOf(rules[n].host) == host then rules[n].http else LastRule(rules[..n], host)
  {
    assert rules[..n + 1][..n] == rules[..n];
  }

  /** The inner loop of toURLMap; None when a path fails the translation. */
  method PathsToTable(target: Backend -> Target, paths: seq<Path>) returns (t: Option<PathTable>)
    ensures t.None? <==> PathsFatal(target, paths)
    ensures t.Some? ==> NoNil(t.value) && TableFor(target, paths, t.value)
  {
    var table: PathTable := map[];
    for i := 0 to |paths|
      invariant NoNil(table) && TableFor(target, paths[..i], table)
      invariant forall j :: 0 <= j < i ==> target(paths[j].backend) != Fatal
    {
      forall p { LastPathSnoc(target, paths, i, p); }
      match target(paths[i].backend) {
        case Skip =>
        case Fatal => return None;
        case To(link) => table := table[PathOf(paths[i].path) := Some(link)];
      }
    }
    assert paths[..|paths|] == paths;
    return Some(table);
  }

  ghost predicate MapFor(target: Backend -> Target, rules: seq<HostPaths>, g: GceUrlMap) {
    && (forall h :: h in g <==> LastRule(rules, h).Some?)
    && (forall h :: h in g ==> NoNil(g[h]) && TableFor(target, LastRule(rules, h).value, g[h]))
  }

  /** The whole translation. It fails exactly when some path of an HTTP rule is unresolvable for good; otherwise each
      host carries the table of its last HTTP rule, and the entry DefaultBackend carries the default. */
  method ToUrlMap(target: Backend -> Target, ing: Ingress) returns (r: Option<GceUrlMap>)
    ensures r.None? <==> RulesFatal(target, ing.rules)
    ensures r.Some? ==> exists g :: MapFor(target, ing.rules, g)
                                    && r.value == PutDefaultBackend(g, UserDefault(target, ing))
  {
    var g: GceUrlMap := map[];
    for i := 0 to |ing.rules|
      invariant MapFor(target, ing.rules[..i], g)
      invariant !RulesFatal(target, ing.rules[..i])
    {
      var rule := ing.rules[i];
      assert ing.rules[..i + 1] == ing.rules[..i] + [rule];
      forall h { LastRuleSnoc(ing.rules, i, h); }
      if rule.http.Some? {
        var t := PathsToTable(target, rule.http.value);
        if t.None? {
          return None;
        }
        g := g[HostOf(rule.host) := t.value];
      }
    }
    assert ing.rules[..|ing.rules|] == ing.rules;
    return Some(PutDefaultBackend(g, UserDefault(target, ing)));
  }

  // ---------------------------------------------------------------- where the cloud must send traffic

  function Hosts(rules: seq<HostPaths>): (hosts: set<string>) { set r | r in rules :: HostOf(r.host) }

  lemma {:induction false} LastRuleHost(rules: seq<HostPaths>, host: string)
    requires LastRule(rules, host).Some?
    ensures host in Hosts(rules)
  {
    var n := |rules| - 1;
    if !(rules[n].http.Some? && HostOf(rules[n].host) == host) {
      LastRuleHost(rules[..n], host);
    }
  }

  lemma {:induction false} HostsOfMap(target: Backend -> Target, rules: seq<HostPaths>, g: GceUrlMap)
    requires MapFor(target, rules, g)
    ensures g.Keys <= Hosts(rules)
  {
    forall h | h in g ensures h in Hosts(rules) { LastRuleHost(rules, h); }
  }

  /** The backend an ingress gives a path expression of a host. The host DefaultBackend is reserved: its rule is
      replaced by the default. */
  function Destination(target: Backend -> Target, ing: Ingress, system: Option<Link>, host: string,
                       path: string): (link: Link) {
    if host != DEFAULT_BACKEND_KEY && Asked(target, ing, host, path).Some? then Asked(target, ing, host, path).value
    else if UserDefault(target, ing).Some? then UserDefault(target, ing).value
    else if system.Some? then system.value else NoLink
  }

  /** Where an ingress sends what it asks nothing special for. */
  function DefaultFor(target: Backend -> Target, ing: Ingress, system: Option<Link>): (link: Link) {
    if UserDefault(target, ing).Some? then UserDefault(target, ing).value
    else if system.Some? then system.value else NoLink
  }

  /** Traffic goes where the rules ask, or to the default where they ask nothing, exactly unless the host is called
      DefaultBackend and its rule asks for something other than the default. */
  lemma {:induction false} ServedAsAskedIff(target: Backend -> Target, ing: Ingress, system: Option<Link>, host: string,
                                            path: string)
    ensures var asked, default := Asked(target, ing, host, path), DefaultFor(target, ing, system);
            Destination(target, ing, system, host, path) == (if asked.Some? then asked.value else default) <==>
              host != DEFAULT_BACKEND_KEY || asked.None? || asked.value == default
  {
  }

  /** A host that the API server admits has only lower-case letters, digits, dots, dashes and a wildcard in it. */
  predicate AdmittedHost(host: string) {
    forall i :: 0 <= i < |host| ==>
      'a' <= host[i] <= 'z' || '0' <= host[i] <= '9' || host[i] == '.' || host[i] == '-' || host[i] == '*'
  }

  lemma {:induction false} ReservedNotAdmitted()
    ensures !AdmittedHost(DEFAULT_BACKEND_KEY)
  {
    assert "DefaultBackend"[0] == 'D';
  }

  /** So every admitted host is served as asked. */
  lemma {:induction false} AdmittedHostServed(target: Backend -> Target, ing: Ingress, system: Option<Link>,
                                              host: string, path: string)
    requires AdmittedHost(host)
    ensures Destination(target, ing, system, host, path) ==
            if Asked(target, ing, host, path).Some? then Asked(target, ing, host, path).value
              else DefaultFor(target, ing, system)
  {
    ReservedNotAdmitted();
    ServedAsAskedIff(target, ing, system, host, path);
  }

  /** A rule for the host DefaultBackend goes unheard. */
  lemma {:induction false} RuleUnheard(target: Backend -> Target, be: Backend, link: Link, system: Link)
    requires target(be) == To(link) && link != system
    ensures var ing := Ingress("ns", None, [HostPaths("DefaultBackend", Some([Path("/a", be)]))]);
            Asked(target, ing, "DefaultBackend", "/a") == Some(link)
              && Destination(target, ing, Some(system), "DefaultBackend", "/a") == system
  {
    var paths := [Path("/a", be)];
    assert HostOf("DefaultBackend") == "DefaultBackend" && PathOf("/a") == "/a";
    assert LastPath(target, paths, "/a") == Some(link);
  }

  lemma {:induction false} WantedIsAsked(target: Backend -> Target, ing: Ingress, system: Option<Link>, g: GceUrlMap,
                                         host: string, path: string)
    requires MapFor(target, ing.rules, g)
    ensures var all := PutDefaultBackend(g, UserDefault(target, ing));
            Wanted(all - {DEFAULT_BACKEND_KEY}, DefaultOr(all, system), host, path)
              == Destination(target, ing, system, host, path)
  {
    if host in g {
      var t := g[host];
      assert TableFor(target, LastRule(ing.rules, host).value, t);
      assert LastPath(target, LastRule(ing.rules, host).value, path) == if path in t then t[path] else None;
    } else {
      assert LastRule(ing.rules, host).None?;
    }
  }

  // ---------------------------------------------------------------- from an ingress to node ports

  /** Path `j` of rule `i` decides where a path expression of a host goes, namely to port `k` of its service: the rule
      is the last one with HTTP paths for the host, and no later path of it with the expression leads to any port. An
      empty host stands for "*", an empty path for "/" followed by "*". */
  ghost predicate Decides(store: Store, ing: Ingress, host: string, path: string, i: int, j: int, k: int) {
    && 0 <= i < |ing.rules| && ing.rules[i].http.Some? && HostText(ing.rules[i].host) == host
    && (forall m :: i < m < |ing.rules| && ing.rules[m].http.Some? ==> HostText(ing.rules[m].host) != host)
    && var paths := ing.rules[i].http.value;
       && 0 <= j < |paths| && PathText(paths[j].path) == path && Means(store, ing.namespace, paths[j].backend, k)
       && forall m, l :: j < m < |paths| && PathText(paths[m].path) == path ==>
            !Means(store, ing.namespace, paths[m].backend, l)
  }

  function HostText(host: string): (h: string) { if host == "" then "*" else host }
  function PathText(path: string): (p: string) { if path == "" then "/*" else path }

  /** The node port that this leads to. */
  function NodePortAt(store: Store, ing: Ingress, i: int, j: int, k: int): (p: nat)
    requires 0 <= i < |ing.rules| && ing.rules[i].http.Some? && 0 <= j < |ing.rules[i].http.value|
    requires var be := ing.rules[i].http.value[j].backend;
             && (ing.namespace, be.service) in store.services
             && 0 <= k < |store.services[(ing.namespace, be.service)].ports|
  {
    PortAt(store, ing.namespace, ing.rules[i].http.value[j].backend, k).nodePort
  }

  /** Nothing the user can put right by a node port: the protocols of the service do not parse, or there is no backend
      service for the node port. */
  ghost predicate Broken(store: Store, links: BackendLinks, namespace: string, be: Backend) {
    || ((namespace, be.service) in store.services && store.services[(namespace, be.service)].protocols.None?)
    || exists k :: Means(store, namespace, be, k) && PortAt(store, namespace, be, k).nodePort !in links
  }

  /** Where a backend leads: to the link of its node port, if it has one. */
  lemma {:induction false} TargetMeans(store: Store, links: BackendLinks, namespace: string, be: Backend)
    ensures forall k :: Means(store, namespace, be, k) ==>
              var p := PortAt(store, namespace, be, k).nodePort;
              ToGceBackend(store, links, namespace, be) == if p in links then To(links[p]) else Fatal
    ensures ToGceBackend(store, links, namespace, be).To? ==> exists k :: Means(store, namespace, be, k)
    ensures ToGceBackend(store, links, namespace, be) == Fatal <==> Broken(store, links, namespace, be)
  {
    hide Resolve;
    ResolveMeans(store, namespace, be);
    assert forall k :: Means(store, namespace, be, k) ==>
      Describes(store, namespace, be, k, Resolve(store, namespace, be).port);
  }

  ghost predicate PathBroken(store: Store, links: BackendLinks, ing: Ingress, i: int, j: int) {
    && 0 <= i < |ing.rules| && ing.rules[i].http.Some? && 0 <= j < |ing.rules[i].http.value|
    && Broken(store, links, ing.namespace, ing.rules[i].http.value[j].backend)
  }

  /** The translation fails exactly when a path of an HTTP rule is broken. */
  lemma {:induction false} FatalIff(store: Store, links: BackendLinks, ing: Ingress, target: Backend -> Target)
    requires forall be :: target(be) == ToGceBackend(store, links, ing.namespace, be)
    ensures RulesFatal(target, ing.rules) <==> exists i, j :: PathBroken(store, links, ing, i, j)
  {
    hide ToGceBackend, Broken;
    forall i, j | 0 <= i < |ing.rules| && ing.rules[i].http.Some? && 0 <= j < |ing.rules[i].http.value|
      ensures target(ing.rules[i].http.value[j].backend) == Fatal <==> PathBroken(store, links, ing, i, j) {
      TargetMeans(store, links, ing.namespace, ing.rules[i].http.value[j].backend);
    }
    if i, j :| PathBroken(store, links, ing, i, j) {
      assert target(ing.rules[i].http.value[j].backend) == Fatal;
    }
  }

  lemma {:induction false} LastRuleAt(rules: seq<HostPaths>, host: string, i: nat)
    requires i < |rules| && rules[i].http.Some? && HostOf(rules[i].host) == host
    requires forall m :: i < m < |rules| && rules[m].http.Some? ==> HostOf(rules[m].host) != host
    ensures LastRule(rules, host) == rules[i].http
  {
    if i < |rules| - 1 { LastRuleAt(rules[..|rules| - 1], host, i); }
  }

  lemma {:induction false} LastRuleIndex(rules: seq<HostPaths>, host: string) returns (i: nat)
    requires LastRule(rules, host).Some?
    ensures i < |rules| && rules[i].http == LastRule(rules, host) && HostOf(rules[i].host) == host
    ensures forall m :: i < m < |rules| && rules[m].http.Some? ==> HostOf(rules[m].host) != host
  {
    var n := |rules| - 1;
    if rules[n].http.Some? && HostOf(rules[n].host) == host { i := n; } else { i := LastRuleIndex(rules[..n], host); }
  }

  lemma {:induction false} LastPathAt(target: Backend -> Target, paths: seq<Path>, path: string, j: nat)
    requires j < |paths| && PathOf(paths[j].path) == path && target(paths[j].backend).To?
    requires forall m :: j < m < |paths| && PathOf(paths[m].path) == path ==> !target(paths[m].backend).To?
    ensures LastPath(target, paths, path) == Some(target(paths[j].backend).link)
  {
    if j < |paths| - 1 { LastPathAt(target, paths[..|paths| - 1], path, j); }
  }

  lemma {:induction false} LastPathIndex(target: Backend -> Target, paths: seq<Path>, path: string) returns (j: nat)
    requires LastPath(target, paths, path).Some?
    ensures j < |paths| && PathOf(paths[j].path) == path
    ensures target(paths[j].backend) == To(LastPath(target, paths, path).value)
    ensures forall m :: j < m < |paths| && PathOf(paths[m].path) == path ==> !target(paths[m].backend).To?
  {
    var n := |paths| - 1;
    if PathOf(paths[n].path) == path && target(paths[n].backend).To? { j := n; }
    else { j := LastPathIndex(target, paths[..n], path); }
  }

  lemma {:induction false} DecidesAsked(store: Store, links: BackendLinks, ing: Ingress, host: string, path: string,
                                        target: Backend -> Target, i: int, j: int, k: int)
    requires !RulesFatal(target, ing.rules) && Decides(store, ing, host, path, i, j, k)
    requires forall be :: target(be) == ToGceBackend(store, links, ing.namespace, be)
    ensures NodePortAt(store, ing, i, j, k) in links
            && Asked(target, ing, host, path) == Some(links[NodePortAt(store, ing, i, j, k)])
  {
    var paths := ing.rules[i].http.value;
    TargetMeans(store, links, ing.namespace, paths[j].backend);
    hide ToGceBackend, LastPath, LastRule;
    assert !PathsFatal(target, paths) && target(paths[j].backend) != Fatal;
    forall m | j < m < |paths| && PathOf(paths[m].path) == path ensures !target(paths[m].backend).To? {
      TargetMeans(store, links, ing.namespace, paths[m].backend);
    }
    LastRuleAt(ing.rules, host, i);
    LastPathAt(target, paths, path, j);
  }

  lemma {:induction false} AskedIsDecided(store: Store, links: BackendLinks, ing: Ingress, host: string, path: string,
                                          target: Backend -> Target)
    requires !RulesFatal(target, ing.rules) && Asked(target, ing, host, path).Some?
    requires forall be :: target(be) == ToGceBackend(store, links, ing.namespace, be)
    ensures exists i, j, k :: Decides(store, ing, host, path, i, j, k)
  {
    hide ToGceBackend, Means, LastPath, LastRule;
    var i := LastRuleIndex(ing.rules, host);
    var paths := ing.rules[i].http.value;
    var j := LastPathIndex(target, paths, path);
    TargetMeans(store, links, ing.namespace, paths[j].backend);
    var k :| Means(store, ing.namespace, paths[j].backend, k);
    forall m, l | j < m < |paths| && PathText(paths[m].path) == path
      ensures !Means(store, ing.namespace, paths[m].backend, l) {
      assert !PathsFatal(target, paths) && target(paths[m].backend) != Fatal;
      TargetMeans(store, links, ing.namespace, paths[m].backend);
    }
    assert Decides(store, ing, host, path, i, j, k);
  }

  /** A path expression of a host goes to the link of the node port that decides; where nothing decides, and for the
      reserved host, to that of the default backend; and where that leads to no link, to the system's default. */
  ghost predicate SentTo(store: Store, links: BackendLinks, ing: Ingress, system: Option<Link>, host: string,
                         path: string, link: Link) {
    && (forall i, j, k :: host != "DefaultBackend" && Decides(store, ing, host, path, i, j, k) ==>
          NodePortAt(store, ing, i, j, k) in links && link == links[NodePortAt(store, ing, i, j, k)])
    && ((host == "DefaultBackend" || forall i, j, k :: !Decides(store, ing, host, path, i, j, k)) ==>
          GoesToDefault(store, links, ing, system, link))
  }

  /** What an ingress asks comes down to node ports, if its translation does not fail. */
  lemma {:induction false} DestinationIs(store: Store, links: BackendLinks, ing: Ingress, system: Option<Link>,
                                         host: string, path: string, target: Backend -> Target)
    requires !RulesFatal(target, ing.rules)
    requires forall be :: target(be) == ToGceBackend(store, links, ing.namespace, be)
    ensures SentTo(store, links, ing, system, host, path, Destination(target, ing, system, host, path))
  {
    hide Asked, RulesFatal;
    forall i, j, k | Decides(store, ing, host, path, i, j, k)
      ensures NodePortAt(store, ing, i, j, k) in links
              && Asked(target, ing, host, path) == Some(links[NodePortAt(store, ing, i, j, k)]) {
      DecidesAsked(store, links, ing, host, path, target, i, j, k);
    }
    if Asked(target, ing, host, path).Some? { AskedIsDecided(store, links, ing, host, path, target); }
    if ing.backend.Some? { TargetMeans(store, links, ing.namespace, ing.backend.value); }
  }

  /** To the link of the node port of the default backend, or else to the system's default. */
  ghost predicate GoesToDefault(store: Store, links: BackendLinks, ing: Ingress, system: Option<Link>, link: Link) {
    && (forall k :: ing.backend.Some? && Means(store, ing.namespace, ing.backend.value, k) ==>
          var p := PortAt(store, ing.namespace, ing.backend.value, k).nodePort;
          link == if p in links then links[p] else SystemDefault(system))
    && ((ing.backend.None? || forall k :: !Means(store, ing.namespace, ing.backend.value, k)) ==>
          link == SystemDefault(system))
  }

  function SystemDefault(system: Option<Link>): (link: Link) { if system.Some? then system.value else NoLink }
}
