/** The naming policy of pkg/utils/namer.go: names of cloud resources built from a cluster uid. */
module Namer {
  import opened Text
  import opened TrimFields

  const NAME_LEN_LIMIT := 62
  const MAX_NEG_LABEL := 30

  /** Hex md5: an arbitrary function with 32 characters of output. */
  type Digest = f: string -> string | forall s :: |f(s)| == 32
    ghost witness (s: string) => seq(32, _ => '0')

  // ---------------------------------------------------------------- builders and parsers

  /** GCE allows 63 characters; one is kept for the trailing alphanumeric. */
  function Truncate(key: string): (name: string)
    ensures |name| <= NAME_LEN_LIMIT + 1
  {
    if |key| > NAME_LEN_LIMIT then key[..NAME_LEN_LIMIT] + "0" else key
  }

  function Decorate(uid: string, name: string): (r: string) {
    if uid == "" then name else Truncate(name + "--" + uid)
  }

  function Scrub(key: string): (r: string)
    ensures |r| == |key|
  {
    seq(|key|, i requires 0 <= i < |key| => if key[i] == '/' then '-' else key[i])
  }

  function LoadBalancer(uid: string, key: string): (name: string) {
    if uid == "" || LastToken(key, '-') == uid then Scrub(key)
    else Truncate(Scrub(key) + "--" + uid)
  }

  function BackendFull(uid: string, port: nat): (r: string) {
    if uid == "" then "k8s-be-" + Decimal(port) else "k8s-be-" + Decimal(port) + "--" + uid
  }

  function Backend(uid: string, port: nat): (name: string) {
    Decorate(uid, "k8s-be-" + Decimal(port))
  }

  function DigitRun(s: string): (r: string)
    ensures AllDigits(r) && r <= s
    ensures |r| < |s| ==> !IsDigit(s[|r|])
  {
    if s == "" || !IsDigit(s[0]) then "" else [s[0]] + DigitRun(s[1..])
  }

  /** The capture of the leftmost match of `k8s-be-([0-9]+).*`. */
  function MatchBackend(s: string): (r: Option<string>) {
    if s == "" then None
    else if "k8s-be-" <= s && DigitRun(s[7..]) != "" then Some(DigitRun(s[7..]))
    else MatchBackend(s[1..])
  }

  function BackendPort(beName: string): (r: Option<string>) {
    var m := MatchBackend(beName);
    if m.None? || Atoi(m.value).None? then None else m
  }

  predicate NameBelongsToCluster(uid: string, name: string) {
    && "k8s-" <= name
    && var parts := Split(name, '-');
       if |parts| == 1 then uid == "" else |parts| == 2 && parts[1] == uid
  }

  function UrlMapName(lb: string): (r: string) { Truncate("k8s-um-" + lb) }
  function HttpProxyName(lb: string): (r: string) { Truncate("k8s-tp-" + lb) }
  function HttpsProxyName(lb: string): (r: string) { Truncate("k8s-tps-" + lb) }
  function HttpRuleName(lb: string): (r: string) { Truncate("k8s-fw-" + lb) }
  function HttpsRuleName(lb: string): (r: string) { Truncate("k8s-fws-" + lb) }

  function SslCertName(lb: string, primary: bool): (r: string) {
    if primary then Truncate("k8s-ssl-" + lb) else Truncate("k8s-ssl-1-" + lb)
  }

  predicate IsSslCert(name: string) { "k8s-ssl" <= name }

  function NegPrefix(uid: string): (r: string) { "k8s1-" + uid }

  predicate IsNeg(uid: string, name: string) { NegPrefix(uid) <= name }

  /** The NEG name; None is the run-time panic of trimming, see TrimFields.CutsNegative. */
  function Neg(md5: Digest, uid: string, namespace: string, name: string, port: string): (r: Option<string>) {
    var t := Trimmed(MAX_NEG_LABEL, [namespace, name, port]);
    if t.None? || |t.value| != 3 then None
    else Some(NegPrefix(uid) + "-" + Joined(t.value[0], t.value[1], t.value[2]) + "-"
      + md5(namespace + name + port)[..8])
  }

  function Joined(a: string, b: string, c: string): (r: string) { a + "-" + b + "-" + c }

  /** The stored uid and firewall name. */
  class Store {
    var clusterName: string
    var firewallName: string

    constructor (uid: string, firewall: string)
      ensures clusterName == LastToken(uid, '-') && firewallName == firewall
      ensures !HasDouble(clusterName, '-')
    {
      clusterName, firewallName := "", firewall;
      new;
      SetUid(uid);
    }

    /** Keeps the part after the last delimiter, so a stored uid never holds "--". */
    method SetUid(name: string)
      modifies this`clusterName
      ensures clusterName == LastToken(name, '-') && !HasDouble(clusterName, '-')
    {
      LastTokenNoDouble(name, '-');
      if HasDouble(name, '-') {
        var tokens := Split(name, '-');
        SplitLast(name, '-');
        clusterName := tokens[|tokens| - 1];
      } else {
        FindNone(name, '-');
        clusterName := name;
      }
    }
  }

  // ---------------------------------------------------------------- load balancer names

  predicate NoSlash(s: string) { forall i :: 0 <= i < |s| ==> s[i] != '/' }

  /** What a caller can check before relying on LoadBalancer(LoadBalancer(key)) == LoadBalancer(key). */
  predicate LbStable(uid: string, key: string) {
    var scrubbed := Scrub(key);
    || uid == ""
    || (if LastToken(key, '-') == uid
        then LastToken(scrubbed, '-') == uid || (|scrubbed| == NAME_LEN_LIMIT + 1 && EndsWith(scrubbed, '0'))
        else |scrubbed| + 2 + |uid| > NAME_LEN_LIMIT || TrailingRun(scrubbed, '-') % 2 == 0)
  }

  /** The name of a load balancer that is kept whole: namespace and name of the ingress, then the cluster uid. */
  lemma {:induction false} LoadBalancerSpelled(uid: string, namespace: string, name: string)
    requires uid != "" && NoSlash(uid) && NoSlash(namespace) && NoSlash(name) && !HasDouble(namespace + "/" + name, '-')
    requires |namespace| + |name| + |uid| <= 59
    ensures LoadBalancer(uid, namespace + "/" + name) == namespace + "-" + name + "--" + uid
  {
    var key := namespace + "/" + name;
    FindNone(key, '-');
    assert key[|namespace|] == '/';
    assert Scrub(key) == namespace + "-" + name;
  }

  lemma {:induction false} ScrubFixed(s: string)
    requires NoSlash(s)
    ensures Scrub(s) == s
  {
  }

  /** Appending the uid again never gives the same name back, unless the name is already truncated. */
  lemma {:induction false} ReappendDiffers(r: string, uid: string)
    ensures Truncate(r + "--" + uid) == r <==> |r| == NAME_LEN_LIMIT + 1 && EndsWith(r, '0')
  {
    var full := r + "--" + uid;
    if |r| == NAME_LEN_LIMIT + 1 {
      assert full[..NAME_LEN_LIMIT] == r[..NAME_LEN_LIMIT];
      assert r == r[..NAME_LEN_LIMIT] + [r[NAME_LEN_LIMIT]];
    }
  }

  /** LoadBalancer is idempotent on a key if and only if LbStable holds of it. */
  lemma {:induction false} LoadBalancerIdempotentIff(uid: string, key: string)
    requires !HasDouble(uid, '-') && NoSlash(uid)
    ensures LoadBalancer(uid, LoadBalancer(uid, key)) == LoadBalancer(uid, key) <==> LbStable(uid, key)
  {
    var scrubbed := Scrub(key);
    var r := LoadBalancer(uid, key);
    assert NoSlash(r);
    ScrubFixed(r);
    ReappendDiffers(r, uid);
    LastTokenAppend(scrubbed, uid, '-');
  }

  /** Every `/`-separated part is non-empty and neither starts nor ends with a dash. */
  predicate KeyWellFormed(key: string) {
    && key != "" && Inner(key[0]) && Inner(key[|key| - 1])
    && forall i :: 0 < i < |key| - 1 && key[i] == '/' ==> Inner(key[i - 1]) && Inner(key[i + 1])
  }

  predicate Inner(c: char) { c != '-' && c != '/' }

  function LastSlash(key: string): (i: int)
    ensures -1 <= i < |key|
    ensures i >= 0 ==> key[i] == '/'
    ensures forall k :: i < k < |key| ==> key[k] != '/'
  {
    if key == "" then -1
    else if key[|key| - 1] == '/' then |key| - 1
    else LastSlash(key[..|key| - 1])
  }

  /** Scrubbing a well-formed key that already ends in `--uid` does not disturb that ending. */
  lemma {:induction false} ScrubKeepsUid(uid: string, key: string)
    requires KeyWellFormed(key) && uid != "" && NoSlash(uid) && LastToken(key, '-') == uid
    ensures LastToken(Scrub(key), '-') == uid
  {
    var j := LastSlash(key);
    if j < 0 {
      ScrubFixed(key);
    } else {
      var a, b := key[..j + 1], key[j + 1..];
      assert key == a + b;
      assert Scrub(key) == Scrub(a) + b;
      assert Inner(key[j + 1]);
      LastPartHoldsUid(uid, a, b);
      LastTokenConcat(Scrub(a), b, '-');
    }
  }

  /** After the last slash, a tail equal to a slash-free uid must come from a "--" of its own. */
  lemma {:induction false} LastPartHoldsUid(uid: string, a: string, b: string)
    requires EndsWith(a, '/') && b != "" && b[0] != '-' && NoSlash(uid) && LastToken(a + b, '-') == uid
    ensures HasDouble(b, '-') && LastToken(b, '-') == uid
  {
    LastTokenConcat(a, b, '-');
    LastTokenSuffix(a, '-');
    var t := LastToken(a, '-');
    assert t != "";
    assert a[|a| - |t|..][|t| - 1] == a[|a| - 1];
    assert (t + b)[|t| - 1] == '/';
  }

  /** Idempotence for every key built from Kubernetes names, truncated or not. */
  lemma {:induction false} LoadBalancerIdempotent(uid: string, key: string)
    requires !HasDouble(uid, '-') && NoSlash(uid) && KeyWellFormed(key)
    ensures LoadBalancer(uid, LoadBalancer(uid, key)) == LoadBalancer(uid, key)
  {
    hide LoadBalancer, LastToken;
    LoadBalancerIdempotentIff(uid, key);
    if uid != "" && LastToken(key, '-') == uid {
      ScrubKeepsUid(uid, key);
    }
  }

  /** Without the condition the law fails: a key ending in `/` scrubs to a name ending in one dash. */
  lemma {:induction false} LoadBalancerNotIdempotent()
    ensures LoadBalancer("u", LoadBalancer("u", "a/")) != LoadBalancer("u", "a/")
  {
    LoadBalancerIdempotentIff("u", "a/");
    assert Scrub("a/") == "a-";
    assert "a-"[..1] == "a";
    FindNone("a/", '-');
  }

  // ---------------------------------------------------------------- backend names

  lemma {:induction false} DigitRunExact(digits: string, rest: string)
    requires AllDigits(digits) && (rest != "" ==> !IsDigit(rest[0]))
    ensures DigitRun(digits + rest) == digits
  {
    if digits == "" {
      assert digits + rest == rest;
    } else {
      assert (digits + rest)[1..] == digits[1..] + rest;
      DigitRunExact(digits[1..], rest);
    }
  }

  lemma {:induction false} BackendHead(uid: string, port: nat)
    requires port <= MAX_INT64
    ensures exists rest :: Backend(uid, port) == "k8s-be-" + Decimal(port) + rest && (rest != "" ==> rest[0] == '-')
  {
    DecimalInt64Length(port);
    var head := "k8s-be-" + Decimal(port);
    var name := Backend(uid, port);
    if uid == "" {
      assert name == head + "";
    } else {
      var full := head + "--" + uid;
      assert full[..|head| + 2] == head + "--";
      assert name[..|head| + 2] == head + "--";
      assert name == head + name[|head|..];
    }
  }

  /** The port survives every uid, even under truncation. */
  lemma {:induction false} BackendRoundTrip(uid: string, port: nat)
    requires port <= MAX_INT64
    ensures BackendPort(Backend(uid, port)) == Some(Decimal(port))
  {
    BackendHead(uid, port);
    var name := Backend(uid, port);
    var rest :| name == "k8s-be-" + Decimal(port) + rest && (rest != "" ==> rest[0] == '-');
    assert name[7..] == Decimal(port) + rest;
    DigitRunExact(Decimal(port), rest);
    AtoiItoa(port);
  }

  lemma {:induction false} BackendInjective(uid: string, p: nat, q: nat)
    requires p <= MAX_INT64 && q <= MAX_INT64 && Backend(uid, p) == Backend(uid, q)
    ensures p == q
  {
    BackendRoundTrip(uid, p);
    BackendRoundTrip(uid, q);
    DecimalRoundTrip(p);
    DecimalRoundTrip(q);
  }

  lemma {:induction false} HeadHasNoDelimiter(port: nat)
    ensures !HasDouble("k8s-be-" + Decimal(port), '-') && !EndsWith("k8s-be-" + Decimal(port), '-')
  {
    var head := "k8s-be-" + Decimal(port);
    forall j | 0 <= j < |head| ensures !DoubleAt(head, j, '-') {
      assert j >= 6 && j + 1 < |head| ==> IsDigit(head[j + 1]);
    }
    assert IsDigit(head[|head| - 1]);
  }

  lemma {:induction false} BackendParts(uid: string, port: nat)
    requires !HasDouble(uid, '-') && uid != "" && port <= MAX_INT64
    ensures |Decimal(port)| <= 19
    ensures var head := "k8s-be-" + Decimal(port); var k := NAME_LEN_LIMIT - |head| - 2;
            var tag := if |uid| > k then uid[..k] + "0" else uid;
            Split(Backend(uid, port), '-') == [head, tag]
  {
    DecimalInt64Length(port);
    HeadHasNoDelimiter(port);
    var head := "k8s-be-" + Decimal(port);
    var k := NAME_LEN_LIMIT - |head| - 2;
    var tag := if |uid| > k then uid[..k] + "0" else uid;
    TruncatedTag(uid, tag, k);
    assert Backend(uid, port) == head + ['-', '-'] + tag;
    SplitHead(head, tag, '-');
    FindNone(tag, '-');
  }

  lemma {:induction false} BackendBelongsTagged(uid: string, port: nat, head: string, k: nat)
    requires !HasDouble(uid, '-') && uid != "" && port <= MAX_INT64
    requires head == "k8s-be-" + Decimal(port) && k == NAME_LEN_LIMIT - |head| - 2
    ensures NameBelongsToCluster(uid, Backend(uid, port)) <==> |uid| <= k || (|uid| == k + 1 && EndsWith(uid, '0'))
  {
    BackendParts(uid, port);
    var tag := if |uid| > k then uid[..k] + "0" else uid;
    TruncatedTag(uid, tag, k);
    assert Backend(uid, port)[..4] == "k8s-";
  }

  /** A backend name carries this cluster's tag exactly when its uid came through truncation unharmed. */
  lemma {:induction false} BackendBelongsIff(uid: string, port: nat)
    requires !HasDouble(uid, '-') && port <= MAX_INT64
    ensures var full := BackendFull(uid, port);
            NameBelongsToCluster(uid, Backend(uid, port))
            <==> |full| <= NAME_LEN_LIMIT || (|full| == NAME_LEN_LIMIT + 1 && EndsWith(uid, '0')) || uid == ""
  {
    var head := "k8s-be-" + Decimal(port);
    if uid == "" {
      HeadHasNoDelimiter(port);
      FindNone(head, '-');
    } else {
      DecimalInt64Length(port);
      BackendBelongsTagged(uid, port, head, NAME_LEN_LIMIT - |head| - 2);
    }
  }

  /** Clusters leave each other's backends alone: a backend name that carries its uid whole belongs to just that one. */
  lemma {:induction false} BelongsToOne(uid: string, other: string, port: nat)
    requires !HasDouble(other, '-') && port <= MAX_INT64 && |BackendFull(other, port)| <= NAME_LEN_LIMIT
    ensures NameBelongsToCluster(uid, Backend(other, port)) <==> uid == other
  {
    var head := "k8s-be-" + Decimal(port);
    if other == "" {
      HeadHasNoDelimiter(port);
      FindNone(head, '-');
    } else {
      BackendParts(other, port);
      assert Backend(other, port)[..4] == "k8s-";
    }
    assert head[..4] == "k8s-";
  }

  lemma {:induction false} TruncatedTag(uid: string, tag: string, k: nat)
    requires !HasDouble(uid, '-')
    requires tag == if |uid| > k then uid[..k] + "0" else uid
    ensures !HasDouble(tag, '-')
    ensures tag == uid <==> |uid| <= k || (|uid| == k + 1 && EndsWith(uid, '0'))
  {
    forall j | 0 <= j < |tag| ensures !DoubleAt(tag, j, '-') {
      assert j + 1 < k && |uid| > k ==> DoubleAt(tag, j, '-') == DoubleAt(uid, j, '-');
    }
    if |uid| == k + 1 {
      assert uid == uid[..k] + [uid[k]];
    }
  }

  // ---------------------------------------------------------------- certificate and rule names

  predicate Alternating(s: string) {
    forall i :: 0 <= i < |s| ==> s[i] == (if i % 2 == 0 then '1' else '-')
  }

  /** The two certificate names of a load balancer coincide exactly when its name is too long to
      keep and starts with `1-` repeated over the whole kept part. */
  lemma {:induction false} SslCertNamesCollideIff(lb: string)
    ensures SslCertName(lb, true) == SslCertName(lb, false) <==> |lb| > 54 && Alternating(lb[..54])
  {
    var p, s := "k8s-ssl-" + lb, "k8s-ssl-1-" + lb;
    if |lb| > 54 {
      assert p[..62] == "k8s-ssl-" + lb[..54];
      assert s[..62] == "k8s-ssl-1-" + lb[..52];
      ShiftByTwo(lb);
      var a, b := "k8s-ssl-" + lb[..54], "k8s-ssl-1-" + lb[..52];
      assert a[8..] == lb[..54] && b[8..] == "1-" + lb[..52];
      assert a[..8] == b[..8];
      assert a == a[..8] + a[8..] && b == b[..8] + b[8..];
      assert (a + "0")[..62] == a && (b + "0")[..62] == b;
    }
  }

  /** For instance, a name of 56 characters. */
  lemma {:induction false} SslCertNamesCollide()
    ensures var lb := seq(56, i => if i % 2 == 0 then '1' else '-'); SslCertName(lb, true) == SslCertName(lb, false)
  {
    var lb := seq(56, i => if i % 2 == 0 then '1' else '-');
    assert forall i :: 0 <= i < 54 ==> lb[..54][i] == lb[i];
    hide SslCertName;
    SslCertNamesCollideIff(lb);
  }

  lemma {:induction false} ShiftByTwo(lb: string)
    requires |lb| > 54
    ensures lb[..54] == "1-" + lb[..52] <==> Alternating(lb[..54])
  {
    var x, y := lb[..54], "1-" + lb[..52];
    if x == y { ShiftInduct(x, 54); }
  }

  lemma {:induction false} ShiftInduct(x: string, n: nat)
    requires |x| == 54 && n <= 54 && x == "1-" + x[..52]
    ensures Alternating(x[..n])
  {
    if n > 0 {
      ShiftInduct(x, n - 1);
      assert x[n - 1] == ("1-" + x[..52])[n - 1];
      if n > 2 { assert x[n - 1] == x[n - 3] && x[..n - 1][n - 3] == x[n - 3]; }
      assert forall i :: 0 <= i < n - 1 ==> x[..n][i] == x[..n - 1][i];
    }
  }

  /** The two forwarding rules never share a name. */
  lemma {:induction false} RuleNamesDiffer(lb: string)
    ensures HttpRuleName(lb) != HttpsRuleName(lb)
  {
    assert HttpRuleName(lb)[6] == '-' && HttpsRuleName(lb)[6] == 's';
  }

  /** What is left of a name behind a prefix that leaves room for `k` characters. */
  function Kept(k: nat, name: string): (r: string) { if |name| > k then name[..k] + "0" else name }

  /** Two names behind the same prefix give the same resource name exactly when they are equal, or too long and equal
      in all that is kept of them. */
  lemma {:induction false} PrefixedNamesCollideIff(prefix: string, a: string, b: string)
    requires |prefix| <= NAME_LEN_LIMIT
    ensures var k := NAME_LEN_LIMIT - |prefix|;
            Truncate(prefix + a) == Truncate(prefix + b) <==> a == b || (|a| > k && |b| > k && a[..k] == b[..k])
  {
    hide Truncate, Kept;
    var k := NAME_LEN_LIMIT - |prefix|;
    TruncatePrefixed(prefix, a);
    TruncatePrefixed(prefix, b);
    assert (prefix + Kept(k, a))[|prefix|..] == Kept(k, a) && (prefix + Kept(k, b))[|prefix|..] == Kept(k, b);
    KeptCollideIff(k, a, b);
  }

  lemma {:induction false} KeptCollideIff(k: nat, a: string, b: string)
    ensures Kept(k, a) == Kept(k, b) <==> a == b || (|a| > k && |b| > k && a[..k] == b[..k])
  {
    if |a| > k && |b| > k {
      assert Kept(k, a)[..k] == a[..k] && Kept(k, b)[..k] == b[..k];
    }
  }

  lemma {:induction false} TruncatePrefixed(prefix: string, a: string)
    requires |prefix| <= NAME_LEN_LIMIT
    ensures Truncate(prefix + a) == prefix + Kept(NAME_LEN_LIMIT - |prefix|, a)
  {
    var k := NAME_LEN_LIMIT - |prefix|;
    if |a| > k {
      assert (prefix + a)[..NAME_LEN_LIMIT] == prefix + a[..k];
      assert prefix + a[..k] + "0" == prefix + (a[..k] + "0");
    }
  }

  // ---------------------------------------------------------------- NEG names

  /** A NEG name exists unless trimming panics, carries the cluster's prefix, and fits in 63 characters
      exactly when uid and label do. */
  lemma {:induction false} NegLength(md5: Digest, uid: string, namespace: string, name: string, port: string)
    ensures var neg := Neg(md5, uid, namespace, name, port);
            var total := |namespace| + |name| + |port|;
            var kept := if total <= 30 then total else 30;
            && (neg.Some? <==> !CutsNegative(30, [namespace, name, port]))
            && (neg.Some? ==> |neg.value| == |uid| + kept + 17 && IsNeg(uid, neg.value) && "k8s1-" + uid <= neg.value)
            && (neg.Some? && |uid| <= 16 ==> |neg.value| <= 63)
  {
    var fields := [namespace, name, port];
    if !CutsNegative(MAX_NEG_LABEL, fields) {
      TrimmedFits(MAX_NEG_LABEL, fields);
      TotalOfThree(fields);
      TotalOfThree(Trimmed(MAX_NEG_LABEL, fields).value);
    }
  }

  /** A service port without a target port text can: the namespace and the name need only be long enough. */
  lemma {:induction false} NegPanics(md5: Digest, uid: string, namespace: string, name: string)
    requires |namespace| == 21 && |name| == 20
    ensures Neg(md5, uid, namespace, name, "") == None
  {
    hide CutsNegative;
    EmptyFieldOutOfRange(namespace, name);
    NegLength(md5, uid, namespace, name, "");
  }

  /** Non-empty fields never make trimming panic. */
  lemma {:induction false} NegExists(md5: Digest, uid: string, namespace: string, name: string, port: string)
    requires namespace != "" && name != "" && port != ""
    ensures Neg(md5, uid, namespace, name, port).Some?
  {
    NegLength(md5, uid, namespace, name, port);
  }

  lemma {:induction false} TotalOfThree(fields: seq<string>)
    requires |fields| == 3
    ensures TotalLength(fields) == |fields[0]| + |fields[1]| + |fields[2]|
  {
    var f1, f2 := [fields[0]], [fields[0], fields[1]];
    assert f1[..0] == [] && f2[..1] == f1 && fields[..2] == f2;
    assert TotalLength(f1) == TotalLength(f1[..0]) + |fields[0]|;
    assert TotalLength(f2) == TotalLength(f2[..1]) + |fields[1]|;
  }

  predicate StartsInner(s: string) { s != "" && s[0] != '-' }

  function At(s: string, i: int): (c: char) { if 0 <= i < |s| then s[i] else '.' }

  /** Equal joined labels with equal concatenations have their first seam in the same place. */
  lemma {:induction false} FirstSeam(a: string, b: string, c: string, a': string, b': string, c': string)
    requires Joined(a, b, c) == Joined(a', b', c') && a + b + c == a' + b' + c'
    requires StartsInner(b) && StartsInner(c)
    ensures |a| >= |a'|
  {
    var i := |a|;
    assert At(Joined(a, b, c), i) == '-';
    assert At(a + b + c, i) == b[0];
    assert i < |a'| ==> At(Joined(a', b', c'), i) == At(a' + b' + c', i);
  }

  lemma {:induction false} SecondSeam(b: string, c: string, b': string, c': string)
    requires b + "-" + c == b' + "-" + c' && b + c == b' + c' && StartsInner(c)
    ensures |b| >= |b'|
  {
    var i := |b|;
    assert At(b + "-" + c, i) == '-';
    assert At(b + c, i) == c[0];
    assert i < |b'| ==> At(b' + "-" + c', i) == At(b' + c', i);
  }

  lemma {:induction false} JoinSeparates(a: string, b: string, c: string, a': string, b': string, c': string)
    requires Joined(a, b, c) == Joined(a', b', c') && a + b + c == a' + b' + c'
    requires StartsInner(b) && StartsInner(c) && StartsInner(b') && StartsInner(c')
    ensures a == a' && b == b' && c == c'
  {
    FirstSeam(a, b, c, a', b', c');
    FirstSeam(a', b', c', a, b, c);
    var j, j' := Joined(a, b, c), Joined(a', b', c');
    assert a == j[..|a|] && a' == j'[..|a'|];
    assert j[|a| + 1..] == b + "-" + c && j'[|a'| + 1..] == b' + "-" + c';
    assert (a + b + c)[|a|..] == b + c && (a' + b' + c')[|a'|..] == b' + c';
    SecondSeam(b, c, b', c');
    SecondSeam(b', c', b, c);
    var m, m' := b + "-" + c, b' + "-" + c';
    assert b == m[..|b|] && b' == m'[..|b'|];
    assert c == m[|b| + 1..] && c' == m'[|b'| + 1..];
  }

  /** NEG names separate services: equal names mean the same triple, or two different
      concatenations that collide in the eight hash characters. */
  lemma {:induction false} NegSeparates(md5: Digest, uid: string, a: string, b: string, c: string,
                                        a': string, b': string, c': string)
    requires StartsInner(b) && StartsInner(c) && StartsInner(b') && StartsInner(c')
    requires |a| + |b| + |c| <= MAX_NEG_LABEL && |a'| + |b'| + |c'| <= MAX_NEG_LABEL
    requires Neg(md5, uid, a, b, c) == Neg(md5, uid, a', b', c')
    ensures || (a == a' && b == b' && c == c')
            || (a + b + c != a' + b' + c' && md5(a + b + c)[..8] == md5(a' + b' + c')[..8])
  {
    UntrimmedNeg(md5, uid, a, b, c);
    UntrimmedNeg(md5, uid, a', b', c');
    var h, h' := md5(a + b + c)[..8], md5(a' + b' + c')[..8];
    SameTail(NegPrefix(uid) + "-", Joined(a, b, c), Joined(a', b', c'), h, h');
    if a + b + c == a' + b' + c' {
      JoinSeparates(a, b, c, a', b', c');
    }
  }

  /** What is left of the three fields, joined. */
  function Label(a: string, b: string, c: string): (r: string)
    requires !CutsNegative(MAX_NEG_LABEL, [a, b, c])
  {
    TrimmedFits(MAX_NEG_LABEL, [a, b, c]);
    var t := Trimmed(MAX_NEG_LABEL, [a, b, c]).value;
    t[0] + "-" + t[1] + "-" + t[2]
  }

  /** For fields of any length, two NEG names are equal exactly when the trimmed labels are, and the first eight
      characters of the digests of the fields as they were before trimming. */
  lemma {:induction false} NegCollideIff(md5: Digest, uid: string, a: string, b: string, c: string,
                                         a': string, b': string, c': string)
    requires !CutsNegative(MAX_NEG_LABEL, [a, b, c]) && !CutsNegative(MAX_NEG_LABEL, [a', b', c'])
    ensures Neg(md5, uid, a, b, c) == Neg(md5, uid, a', b', c') <==>
              Label(a, b, c) == Label(a', b', c') && md5(a + b + c)[..8] == md5(a' + b' + c')[..8]
  {
    NegLength(md5, uid, a, b, c);
    NegLength(md5, uid, a', b', c');
    TrimmedFits(MAX_NEG_LABEL, [a, b, c]);
    TrimmedFits(MAX_NEG_LABEL, [a', b', c']);
    hide Trimmed, CutsNegative;
    var p, h, h' := NegPrefix(uid) + "-", md5(a + b + c)[..8], md5(a' + b' + c')[..8];
    assert Neg(md5, uid, a, b, c) == Some(p + Label(a, b, c) + "-" + h);
    assert Neg(md5, uid, a', b', c') == Some(p + Label(a', b', c') + "-" + h');
    if Neg(md5, uid, a, b, c) == Neg(md5, uid, a', b', c') {
      SameTail(p, Label(a, b, c), Label(a', b', c'), h, h');
    }
  }

  lemma {:induction false} UntrimmedNeg(md5: Digest, uid: string, a: string, b: string, c: string)
    requires |a| + |b| + |c| <= MAX_NEG_LABEL
    ensures Neg(md5, uid, a, b, c) == Some((NegPrefix(uid) + "-") + Joined(a, b, c) + "-" + md5(a + b + c)[..8])
  {
    TotalOfThree([a, b, c]);
  }

  lemma {:induction false} SameTail(p: string, j: string, j': string, h: string, h': string)
    requires |h| == |h'| && p + j + "-" + h == p + j' + "-" + h'
    ensures j == j' && h == h'
  {
    var n, n' := p + j + "-" + h, p + j' + "-" + h';
    assert n[|n| - |h|..] == h && n'[|n'| - |h'|..] == h';
    assert n[|p|..|n| - |h| - 1] == j && n'[|p|..|n'| - |h'| - 1] == j';
  }
}
