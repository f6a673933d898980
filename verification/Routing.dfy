/** Cloud url maps as routing tables: what a map sends a host and path expression to, how UpdateUrlMap
    builds one from the nested host -> path -> backend maps, and when two maps are taken as equal. */
module Routing {
  import opened Text
  import opened L7Cloud

  const DEFAULT_BACKEND_KEY := "DefaultBackend"
  const DEFAULT_HOST := "*"
  const DEFAULT_PATH := "/*"

  type PathTable = map<string, Option<Link>> // path -> backend; None is a nil backend
  type GceUrlMap = map<string, PathTable>    // host -> paths

  // ---------------------------------------------------------------- meaning of a url map

  function FindHost(rules: seq<HostRule>, host: string): (matcher: Option<string>) {
    if rules == [] then None
    else if host in rules[0].hosts then Some(rules[0].pathMatcher)
    else FindHost(rules[1..], host)
  }

  function FindMatcher(matchers: seq<PathMatcher>, name: string): (m: Option<PathMatcher>) {
    if matchers == [] then None
    else if matchers[0].name == name then Some(matchers[0])
    else FindMatcher(matchers[1..], name)
  }

  function FindPath(rules: seq<PathRule>, path: string): (service: Option<Link>) {
    if rules == [] then None
    else if path in rules[0].paths then Some(rules[0].service)
    else FindPath(rules[1..], path)
  }

  /** Where the url map sends a path expression of a host. */
  function Route(um: UrlMap, host: string, path: string): (service: Link) {
    RouteIn(um.hostRules, um.pathMatchers, um.default, host, path)
  }

  function RouteIn(rules: seq<HostRule>, matchers: seq<PathMatcher>, default: Link, host: string,
                   path: string): (service: Link) {
    var name := FindHost(rules, host);
    if name.None? then default
    else
      var m := FindMatcher(matchers, name.value);
      if m.None? then NoLink
      else
        var s := FindPath(m.value.pathRules, path);
        if s.None? then m.value.default else s.value
  }

  /** Where the nested maps ask it to go. */
  function Wanted(g: GceUrlMap, default: Link, host: string, path: string): (service: Link) {
    if host in g && path in g[host] && g[host][path].Some? then g[host][path].value else default
  }

  // ---------------------------------------------------------------- mapsEqual

  method SameStrings(a: seq<string>, b: seq<string>) returns (same: bool)
    ensures same <==> a == b
  {
    if |a| != |b| {
      return false;
    }
    for i := 0 to |a|
      invariant a[..i] == b[..i]
    {
      if a[i] != b[i] {
        return false;
      }
      assert a[..i + 1] == a[..i] + [a[i]] && b[..i + 1] == b[..i] + [b[i]];
    }
    assert a[..|a|] == a && b[..|b|] == b;
    return true;
  }

  method SamePathRules(a: seq<PathRule>, b: seq<PathRule>) returns (same: bool)
    ensures same <==> a == b
  {
    if |a| != |b| {
      return false;
    }
    for i := 0 to |a|
      invariant forall j :: 0 <= j < i ==> a[j] == b[j]
    {
      var paths := SameStrings(a[i].paths, b[i].paths);
      if !paths || a[i].service != b[i].service {
        return false;
      }
    }
    return true;
  }

  /** The comparison that decides whether a write is needed: equal exactly when the maps agree on everything but
      their names. */
  method MapsEqual(a: UrlMap, b: UrlMap) returns (same: bool)
    ensures same <==> a.(name := b.name) == b
  {
    if a.default != b.default || |a.hostRules| != |b.hostRules| {
      return false;
    }
    for i := 0 to |a.hostRules|
      invariant forall j :: 0 <= j < i ==> a.hostRules[j] == b.hostRules[j]
    {
      var hosts := SameStrings(a.hostRules[i].hosts, b.hostRules[i].hosts);
      if a.hostRules[i].description != b.hostRules[i].description || !hosts
         || a.hostRules[i].pathMatcher != b.hostRules[i].pathMatcher {
        return false;
      }
    }
    if |a.pathMatchers| != |b.pathMatchers| {
      return false;
    }
    for i := 0 to |a.pathMatchers|
      invariant forall j :: 0 <= j < i ==> a.pathMatchers[j] == b.pathMatchers[j]
    {
      var m, m' := a.pathMatchers[i], b.pathMatchers[i];
      var rules := SamePathRules(m.pathRules, m'.pathRules);
      if m.default != m'.default || m.description != m'.description || m.name != m'.name || !rules {
        return false;
      }
    }
    assert a.hostRules == b.hostRules && a.pathMatchers == b.pathMatchers;
    return true;
  }

  // ---------------------------------------------------------------- building

  /** `getNameForPathMatcher`. */
  function MatcherName(md5: string -> string, host: string): (name: string) { "host" + md5(host) }

  /** No two of the hosts share a path matcher name. */
  ghost predicate NoCollision(md5: string -> string, hosts: set<string>) {
    forall h, k :: h in hosts && k in hosts && MatcherName(md5, h) == MatcherName(md5, k) ==> h == k
  }

  lemma {:induction false} FindHostSnoc(rules: seq<HostRule>, r: HostRule, host: string)
    ensures FindHost(rules + [r], host) ==
            if FindHost(rules, host).Some? then FindHost(rules, host)
            else if host in r.hosts then Some(r.pathMatcher) else None
  {
    if rules != [] {
      assert (rules + [r])[1..] == rules[1..] + [r];
      FindHostSnoc(rules[1..], r, host);
    }
  }

  lemma {:induction false} FindMatcherSnoc(ms: seq<PathMatcher>, m: PathMatcher, name: string)
    ensures FindMatcher(ms + [m], name) ==
            if FindMatcher(ms, name).Some? then FindMatcher(ms, name) else if m.name == name then Some(m) else None
  {
    if ms != [] {
      assert (ms + [m])[1..] == ms[1..] + [m];
      FindMatcherSnoc(ms[1..], m, name);
    }
  }

  lemma {:induction false} FindPathSnoc(rules: seq<PathRule>, r: PathRule, path: string)
    ensures FindPath(rules + [r], path) ==
            if FindPath(rules, path).Some? then FindPath(rules, path) else if path in r.paths then Some(r.service)
              else None
  {
    if rules != [] {
      assert (rules + [r])[1..] == rules[1..] + [r];
      FindPathSnoc(rules[1..], r, path);
    }
  }

  predicate NoNil(t: PathTable) { forall p :: p in t ==> t[p].Some? }

  /** The rules of a table, in whatever order the map is iterated. */
  method BuildPathRules(t: PathTable) returns (rules: seq<PathRule>)
    requires NoNil(t)
    ensures forall p :: FindPath(rules, p) == if p in t then t[p] else None
  {
    rules := [];
    var rest := t.Keys;
    while rest != {}
      invariant rest <= t.Keys
      invariant forall p :: FindPath(rules, p) == if p in t && p !in rest then t[p] else None
    {
      var expr :| expr in rest;
      var r := PathRule([expr], t[expr].value);
      forall p ensures FindPath(rules + [r], p) == if p in t && p !in rest - {expr} then t[p] else None {
        FindPathSnoc(rules, r, p);
      }
      rules := rules + [r];
      rest := rest - {expr};
    }
  }

  /** The host rules and matchers built so far serve exactly the hosts done. */
  ghost predicate Serves(md5: string -> string, rules: seq<HostRule>, matchers: seq<PathMatcher>, default: Link,
                         g: GceUrlMap, done: set<string>) {
    && (forall h :: FindHost(rules, h) == if h in done then Some(MatcherName(md5, h)) else None)
    && (forall h :: h in done && h in g ==> MatcherFor(FindMatcher(matchers, MatcherName(md5, h)), default, g[h]))
    && (forall n :: FindMatcher(matchers, n).Some? ==> exists h :: h in done && n == MatcherName(md5, h))
  }

  ghost predicate MatcherFor(m: Option<PathMatcher>, default: Link, t: PathTable) {
    && m.Some? && m.value.default == default
    && forall p :: FindPath(m.value.pathRules, p) == if p in t then t[p] else None
  }

  lemma {:induction false} ServesOneMore(md5: string -> string, rules: seq<HostRule>, matchers: seq<PathMatcher>,
                                         default: Link,
                                         g: GceUrlMap, done: set<string>, host: string, pathRules: seq<PathRule>)
    requires Serves(md5, rules, matchers, default, g, done) && done <= g.Keys && host in g.Keys - done
               && NoCollision(md5, g.Keys)
    requires forall p :: FindPath(pathRules, p) == if p in g[host] then g[host][p] else None
    ensures var name := MatcherName(md5, host);
            Serves(md5, rules + [HostRule("", [host], name)], matchers + [PathMatcher(name, "", default, pathRules)],
              default,
                   g, done + {host})
  {
    var name := MatcherName(md5, host);
    var r, m := HostRule("", [host], name), PathMatcher(name, "", default, pathRules);
    forall h ensures FindHost(rules + [r], h) == if h in done + {host} then Some(MatcherName(md5, h)) else None {
      FindHostSnoc(rules, r, h);
    }
    forall n ensures FindMatcher(matchers + [m], n) ==
                     if FindMatcher(matchers, n).Some? then FindMatcher(matchers, n) else if n == name then Some(m)
                       else None {
      FindMatcherSnoc(matchers, m, n);
    }
    assert FindMatcher(matchers, name).None?;
    assert MatcherFor(Some(m), default, g[host]);
  }

  /** The two nested loops of UpdateUrlMap, for every iteration order of the two maps. */
  method BuildUrlMap(md5: string -> string, name: string, default: Link, g: GceUrlMap) returns (um: UrlMap)
    requires NoCollision(md5, g.Keys) && forall h :: h in g ==> NoNil(g[h])
    ensures um.name == name && um.default == default
    ensures forall host, path :: Route(um, host, path) == Wanted(g, default, host, path)
  {
    var rules, matchers := [], [];
    var rest := g.Keys;
    ghost var done: set<string> := {};
    while rest != {}
      invariant done <= g.Keys && rest == g.Keys - done
      invariant Serves(md5, rules, matchers, default, g, done)
    {
      var hostname :| hostname in rest;
      var pmName := MatcherName(md5, hostname);
      var pathRules := BuildPathRules(g[hostname]);
      ServesOneMore(md5, rules, matchers, default, g, done, hostname, pathRules);
      rules := rules + [HostRule("", [hostname], pmName)];
      matchers := matchers + [PathMatcher(pmName, "", default, pathRules)];
      rest := rest - {hostname};
      done := done + {hostname};
    }
    um := UrlMap(name, default, rules, matchers);
    forall host, path ensures Route(um, host, path) == Wanted(g, default, host, path) {
      assert host in g ==> MatcherFor(FindMatcher(matchers, MatcherName(md5, host)), default, g[host]);
    }
  }

  // ---------------------------------------------------------------- default backend entry

  function PutDefaultBackend(g: GceUrlMap, d: Option<Link>): (g': GceUrlMap) {
    g[DEFAULT_BACKEND_KEY := map[DEFAULT_BACKEND_KEY := d]]
  }

  /** The default backend the nested maps carry. */
  function DefaultIn(g: GceUrlMap): (d: Option<Link>) {
    if DEFAULT_BACKEND_KEY in g && DEFAULT_BACKEND_KEY in g[DEFAULT_BACKEND_KEY]
    then g[DEFAULT_BACKEND_KEY][DEFAULT_BACKEND_KEY] else None
  }

  /** The same, with the system's default behind it. */
  function DefaultOr(g: GceUrlMap, system: Option<Link>): (link: Link) {
    if DefaultIn(g).Some? then DefaultIn(g).value else if system.Some? then system.value else NoLink
  }

  /** A destructive read: the entry is gone afterwards. */
  method GetDefaultBackend(g: GceUrlMap) returns (d: Option<Link>, g': GceUrlMap)
    ensures d == DefaultIn(g) && g' == g - {DEFAULT_BACKEND_KEY}
    ensures forall h, x :: g == PutDefaultBackend(h, x) ==> d == x && g' == h - {DEFAULT_BACKEND_KEY}
  {
    d := None;
    g' := g;
    if DEFAULT_BACKEND_KEY in g {
      if DEFAULT_BACKEND_KEY in g[DEFAULT_BACKEND_KEY] {
        d := g[DEFAULT_BACKEND_KEY][DEFAULT_BACKEND_KEY];
      }
      g' := g - {DEFAULT_BACKEND_KEY};
    }
  }
}
