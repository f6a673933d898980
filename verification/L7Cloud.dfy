/** The cloud as the load balancer code sees it: one map per resource kind, held by value. */
module L7Cloud {

  datatype Kind = UrlMapKind | HttpProxyKind | HttpsProxyKind | CertKind | BackendKind

  /** A link held in some resource: none, the self link of a resource of this project, or any other
      string, of which only the last path segment matters. */
  datatype Link = NoLink | Self(kind: Kind, name: string) | Other(tail: string)

  /** `CompareLinks`: equal and not empty. */
  predicate SameLink(a: Link, b: Link) { a == b && a != NoLink }

  /** `getResourceNameFromLink`: the last path segment. */
  function NameInLink(l: Link): (name: string) {
    match l case NoLink => "" case Self(_, name) => name case Other(tail) => tail
  }

  datatype HostRule = HostRule(description: string, hosts: seq<string>, pathMatcher: string)
  datatype PathRule = PathRule(paths: seq<string>, service: Link)
  datatype PathMatcher = PathMatcher(name: string, description: string, default: Link, pathRules: seq<PathRule>)
  datatype UrlMap = UrlMap(name: string, default: Link, hostRules: seq<HostRule>, pathMatchers: seq<PathMatcher>)

  datatype HttpsProxy = HttpsProxy(urlMap: Link, certs: seq<Link>)
  datatype Rule = Rule(ip: string, target: Link, portRange: string)

  datatype Cloud = Cloud(
    urlMaps: map<string, UrlMap>,
    httpProxies: map<string, Link>, // name -> url map
    httpsProxies: map<string, HttpsProxy>,
    certs: map<string, string>,     // name -> certificate
    rules: map<string, Rule>,
    addresses: map<string, string>, // name -> IP
    writes: nat)                    // how many write calls have been made

  /** The fate of a write call. A conflict is told apart only where a static IP is reserved. */
  datatype Verdict = Done | Failed | Conflict

  /** Everything outside the controller's control: which write fails, and the IPs the cloud hands out. */
  datatype Env = Env(verdict: nat -> Verdict, freshIp: nat -> string)

  predicate Succeeds(env: Env, c: Cloud) { env.verdict(c.writes) == Done }

  /** A write call: it takes effect entirely or not at all. */
  function Write(env: Env, c: Cloud, effect: Cloud): (c': Cloud) {
    (if Succeeds(env, c) then effect else c).(writes := c.writes + 1)
  }

  ghost predicate AllSucceed(env: Env) { forall n :: env.verdict(n) == Done }

  ghost predicate Handsout(env: Env) { forall n :: env.freshIp(n) != "" }
}
