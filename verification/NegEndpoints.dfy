/** One reconciliation pass of a NEG syncer: the difference of two zone maps, batching, and the
    concurrent attach and detach calls. */
module NegEndpoints {
  import opened Text

  const MAX_PER_BATCH := 500

  datatype NetworkEndpoint = NetworkEndpoint(instance: string, ip: string, port: int)

  type ZoneMap = map<string, set<string>> // zone -> encoded endpoints

  // ---------------------------------------------------------------- encoding

  function EncodeEndpoint(ip: string, instance: string, port: string): (s: string) {
    ip + "||" + (instance + "||" + port)
  }

  /** decodeEndpoint followed by Atoi of the port; the index into the split panics below three parts. */
  function DecodeEndpoint(s: string): (r: Option<NetworkEndpoint>)
    requires |Split(s, '|')| >= 3
  {
    var parts := Split(s, '|');
    var port := Atoi(parts[2]);
    if port.None? then None else Some(NetworkEndpoint(parts[1], parts[0], port.value))
  }

  function Encoding(ne: NetworkEndpoint): (s: string) {
    EncodeEndpoint(ne.ip, ne.instance, Itoa(ne.port))
  }

  predicate NoBar(s: string) { forall i :: 0 <= i < |s| ==> s[i] != '|' }

  /** Built by encodeEndpoint from fields without a bar and a port printed in decimal. */
  ghost predicate Canonical(s: string) {
    exists ne :: Encodable(ne) && s == Encoding(ne)
  }

  predicate Encodable(ne: NetworkEndpoint) {
    NoBar(ne.ip) && NoBar(ne.instance) && -MAX_INT64 - 1 <= ne.port <= MAX_INT64
  }

  lemma {:induction false} ItoaNoBar(n: int)
    ensures NoBar(Itoa(n))
  {
    var d := if n >= 0 then Decimal(n) else Decimal(-n);
    assert forall i :: 0 <= i < |d| ==> IsDigit(d[i]);
  }

  lemma {:induction false} NoBarIsToken(s: string)
    requires NoBar(s)
    ensures !HasDouble(s, '|') && !EndsWith(s, '|')
  {
  }

  lemma {:induction false} PartsOf(ip: string, node: string, port: string)
    requires NoBar(ip) && NoBar(node) && NoBar(port)
    ensures Split(EncodeEndpoint(ip, node, port), '|') == [ip, node, port]
  {
    NoBarIsToken(ip);
    NoBarIsToken(node);
    NoBarIsToken(port);
    assert EncodeEndpoint(ip, node, port) == ip + ['|', '|'] + (node + ['|', '|'] + port);
    SplitHead(ip, node + ['|', '|'] + port, '|');
    SplitHead(node, port, '|');
    FindNone(port, '|');
  }

  /** Encoding then decoding gives the endpoint back, so the decode-error branch is unreachable. */
  lemma {:induction false} EncodeRoundTrip(ne: NetworkEndpoint)
    requires Encodable(ne)
    ensures |Split(Encoding(ne), '|')| == 3 && DecodeEndpoint(Encoding(ne)) == Some(ne)
  {
    ItoaNoBar(ne.port);
    PartsOf(ne.ip, ne.instance, Itoa(ne.port));
    AtoiItoa(ne.port);
    hide Split, Atoi, Itoa;
  }

  /** What an encoded string holds: the IP first, then the instance, then the port, as the calls to the cloud then name
      them. It decodes exactly when the port reads as a number. */
  lemma {:induction false} EncodedFields(ip: string, node: string, port: string)
    requires NoBar(ip) && NoBar(node) && NoBar(port)
    ensures EncodeEndpoint(ip, node, port) == ip + "||" + node + "||" + port
    ensures |Split(EncodeEndpoint(ip, node, port), '|')| == 3
    ensures var r := DecodeEndpoint(EncodeEndpoint(ip, node, port));
            && (r.Some? <==> Atoi(port).Some?)
            && (r.Some? ==> r.value.ip == ip && r.value.instance == node && r.value.port == Atoi(port).value)
  {
    PartsOf(ip, node, port);
    hide Split;
    assert ip + "||" + (node + "||" + port) == ip + "||" + node + "||" + port;
  }

  lemma {:induction false} CanonicalDecodes(s: string)
    requires Canonical(s)
    ensures |Split(s, '|')| == 3 && DecodeEndpoint(s).Some? && Encoding(DecodeEndpoint(s).value) == s
  {
    var ne :| Encodable(ne) && s == Encoding(ne);
    EncodeRoundTrip(ne);
  }

  // ---------------------------------------------------------------- batching

  function Encodings(batch: seq<NetworkEndpoint>): (r: set<string>) {
    set i | 0 <= i < |batch| :: Encoding(batch[i])
  }

  predicate Decodes(e: string) { |Split(e, '|')| >= 3 && DecodeEndpoint(e).Some? }

  /** What a set of strings stands for: each decoded and encoded again. Canonical strings stand for themselves. */
  function Normal(endpoints: set<string>): (r: set<string>) {
    set e | e in endpoints && Decodes(e) :: Encoding(DecodeEndpoint(e).value)
  }

  lemma {:induction false} NormalOfCanonical(endpoints: set<string>)
    requires AllCanonical(endpoints)
    ensures Normal(endpoints) == endpoints && forall e :: e in endpoints ==> Decodes(e)
  {
    forall e | e in endpoints ensures Decodes(e) && Encoding(DecodeEndpoint(e).value) == e { CanonicalDecodes(e); }
  }

  lemma {:induction false} NormalUnion(a: set<string>, b: set<string>)
    ensures Normal(a + b) == Normal(a) + Normal(b)
  {
  }

  /** Pops up to 500 endpoints from the set and decodes them. */
  method ToNetworkEndpointBatch(endpoints: set<string>) returns (batch: Option<seq<NetworkEndpoint>>, rest: set<string>)
    requires forall e :: e in endpoints ==> |Split(e, '|')| >= 3
    ensures rest <= endpoints
    ensures |endpoints| - |rest| == if |endpoints| < 500 then |endpoints| else 500
    ensures batch.None? <==> exists e :: e in endpoints - rest && !Decodes(e)
    ensures batch.Some? ==> |batch.value| == |endpoints| - |rest| && Encodings(batch.value) == Normal(endpoints - rest)
  {
    hide Split, Encoding;
    var n := if |endpoints| < MAX_PER_BATCH then |endpoints| else MAX_PER_BATCH;
    var list: seq<string> := [];
    rest := endpoints;
    for i := 0 to n
      invariant |list| == i && rest <= endpoints && |rest| == |endpoints| - i
      invariant forall e :: e in list <==> e in endpoints - rest
    {
      var e :| e in rest;
      list := list + [e];
      rest := rest - {e};
    }
    forall i | 0 <= i < |list| ensures list[i] in endpoints - rest { }
    batch := DecodeAll(list);
    if batch.Some? { EncodingsOf(list, batch.value, endpoints - rest); }
  }

  lemma {:induction false} EncodingsOf(list: seq<string>, batch: seq<NetworkEndpoint>, endpoints: set<string>)
    requires |batch| == |list| && forall i :: 0 <= i < |list| ==>
               |Split(list[i], '|')| >= 3 && DecodeEndpoint(list[i]) == Some(batch[i])
    requires forall e :: e in list <==> e in endpoints
    ensures Encodings(batch) == Normal(endpoints)
  {
    hide Split, Encoding, DecodeEndpoint;
    forall x ensures x in Encodings(batch) <==> x in Normal(endpoints) {
      if x in Encodings(batch) {
        var i :| 0 <= i < |batch| && x == Encoding(batch[i]);
        assert list[i] in endpoints && Decodes(list[i]);
      }
      if x in Normal(endpoints) {
        var e :| e in endpoints && Decodes(e) && x == Encoding(DecodeEndpoint(e).value);
        var i :| 0 <= i < |list| && list[i] == e;
        assert x == Encoding(batch[i]);
      }
    }
  }

  method DecodeAll(list: seq<string>) returns (batch: Option<seq<NetworkEndpoint>>)
    requires forall i :: 0 <= i < |list| ==> |Split(list[i], '|')| >= 3
    ensures batch.None? <==> exists i :: 0 <= i < |list| && DecodeEndpoint(list[i]).None?
    ensures batch.Some? ==> |batch.value| == |list| &&
                            forall i :: 0 <= i < |list| ==> DecodeEndpoint(list[i]) == Some(batch.value[i])
  {
    var out: seq<NetworkEndpoint> := [];
    for i := 0 to |list|
      invariant |out| == i && forall j :: 0 <= j < i ==> DecodeEndpoint(list[j]) == Some(out[j])
    {
      var ne := DecodeEndpoint(list[i]);
      if ne.None? {
        return None;
      }
      out := out + [ne.value];
    }
    return Some(out);
  }

  /** All that the batches name. */
  function Named(batches: seq<seq<NetworkEndpoint>>): (r: set<string>) {
    if batches == [] then {} else Named(batches[..|batches| - 1]) + Encodings(batches[|batches| - 1])
  }

  lemma {:induction false} NamedSnoc(batches: seq<seq<NetworkEndpoint>>, batch: seq<NetworkEndpoint>)
    ensures Named(batches + [batch]) == Named(batches) + Encodings(batch)
  {
    assert (batches + [batch])[..|batches|] == batches;
  }

  /** The batches split the set up: none empty or over 500, each endpoint in exactly one, once. */
  predicate SplitUp(batches: seq<seq<NetworkEndpoint>>, endpoints: set<string>)
    decreases |batches|
  {
    if batches == [] then endpoints == {}
    else
      var n := |batches| - 1;
      var taken := Encodings(batches[n]);
      && 1 <= |batches[n]| == |taken| <= 500
      && taken <= endpoints
      && SplitUp(batches[..n], endpoints - taken)
  }

  /** ceil(n/500) batches that split the set up. */
  predicate Partitions(batches: seq<seq<NetworkEndpoint>>, endpoints: set<string>) {
    SplitUp(batches, endpoints) && |batches| == (|endpoints| + 499) / 500
  }

  ghost predicate AllCanonical(endpoints: set<string>) { forall e :: e in endpoints ==> Canonical(e) }

  /** Every string in the set splits into at least three parts, as encodeEndpoint guarantees. */
  predicate AllSplit(endpoints: set<string>) { forall e :: e in endpoints ==> |Split(e, '|')| >= 3 }

  /** What the batches taken so far look like while `rest` is still to be drained. */
  ghost predicate Draining(batches: seq<seq<NetworkEndpoint>>, endpoints: set<string>, rest: set<string>) {
    && rest <= endpoints && Partitions(batches, endpoints - rest)
    && (rest != {} ==> |endpoints - rest| == MAX_PER_BATCH * |batches|)
  }

  lemma {:induction false} CountStep(b: nat, k: nat)
    requires 1 <= k <= MAX_PER_BATCH
    ensures (MAX_PER_BATCH * b + k + MAX_PER_BATCH - 1) / MAX_PER_BATCH == b + 1
  {
  }

  lemma {:induction false} SizeStep(endpoints: set<string>, rest: set<string>, rest': set<string>)
    requires rest' <= rest <= endpoints
    ensures |rest - rest'| == |rest| - |rest'| && |endpoints - rest'| == |endpoints - rest| + |rest - rest'|
    ensures endpoints - rest' == (endpoints - rest) + (rest - rest')
  {
    assert rest == rest' + (rest - rest');
    assert endpoints - rest' == (endpoints - rest) + (rest - rest');
  }

  lemma {:induction false} DrainStep(batches: seq<seq<NetworkEndpoint>>, endpoints: set<string>, rest: set<string>,
                                     batch: seq<NetworkEndpoint>, rest': set<string>)
    requires Draining(batches, endpoints, rest) && rest != {} && rest' <= rest
    requires |rest| - |rest'| == (if |rest| < MAX_PER_BATCH then |rest| else MAX_PER_BATCH) == |batch|
    requires Encodings(batch) == rest - rest'
    ensures Draining(batches + [batch], endpoints, rest')
  {
    var more := batches + [batch];
    SizeStep(endpoints, rest, rest');
    CountStep(|batches|, |batch|);
    assert more[..|more| - 1] == batches;
    assert (endpoints - rest') - Encodings(batch) == endpoints - rest;
  }

  /** The inner loop of syncNetworkEndpoints: batch after batch until the set is empty, or a string does not decode. The
      batches made until then name only what the set stands for, and all of it if none fails. */
  method Drain(endpoints: set<string>) returns (batches: seq<seq<NetworkEndpoint>>, ok: bool)
    requires AllSplit(endpoints)
    ensures ok <==> forall e :: e in endpoints ==> Decodes(e)
    ensures Named(batches) <= Normal(endpoints) && (ok ==> Named(batches) == Normal(endpoints))
    ensures AllCanonical(endpoints) ==> ok && Partitions(batches, endpoints)
  {
    hide Decodes, Canonical, Partitions, Normal, Named, Draining, Encodings, Split;
    var rest := endpoints;
    batches := [];
    DrainStart(endpoints);
    ghost var canonical := AllCanonical(endpoints);
    if canonical { NormalOfCanonical(endpoints); }
    while rest != {}
      invariant rest <= endpoints && Named(batches) == Normal(endpoints - rest)
      invariant forall e :: e in endpoints - rest ==> Decodes(e)
      invariant canonical ==> Draining(batches, endpoints, rest)
      decreases |rest|
    {
      var batch, rest' := ToNetworkEndpointBatch(rest);
      if batch.None? {
        DrainFails(batches, endpoints, rest);
        return batches, false;
      }
      if canonical { CanonicalDrainStep(batches, endpoints, rest, batch.value, rest'); }
      DrainMore(batches, endpoints, rest, batch.value, rest');
      assert |rest'| < |rest|;
      batches, rest := batches + [batch.value], rest';
    }
    assert endpoints - {} == endpoints;
    if canonical { DrainEnd(batches, endpoints); }
    return batches, true;
  }

  lemma {:induction false} DrainMore(batches: seq<seq<NetworkEndpoint>>, endpoints: set<string>, rest: set<string>,
                                     batch: seq<NetworkEndpoint>, rest': set<string>)
    requires Named(batches) == Normal(endpoints - rest) && rest' <= rest <= endpoints
               && Encodings(batch) == Normal(rest - rest')
    ensures Named(batches + [batch]) == Normal(endpoints - rest')
  {
    hide Normal, Named, Encodings;
    NamedSnoc(batches, batch);
    NormalUnion(endpoints - rest, rest - rest');
    assert endpoints - rest' == endpoints - rest + (rest - rest');
  }

  lemma {:induction false} DrainFails(batches: seq<seq<NetworkEndpoint>>, endpoints: set<string>, rest: set<string>)
    requires Named(batches) == Normal(endpoints - rest) && rest <= endpoints
    ensures Named(batches) <= Normal(endpoints)
  {
    hide Normal, Named;
    NormalUnion(endpoints - rest, rest);
    assert endpoints - rest + rest == endpoints;
  }

  lemma {:induction false} CanonicalDrainStep(batches: seq<seq<NetworkEndpoint>>, endpoints: set<string>,
                                              rest: set<string>,
                                              batch: seq<NetworkEndpoint>, rest': set<string>)
    requires AllCanonical(endpoints) && Draining(batches, endpoints, rest) && rest != {} && rest' <= rest
    requires |rest| - |rest'| == (if |rest| < MAX_PER_BATCH then |rest| else MAX_PER_BATCH) == |batch|
    requires Encodings(batch) == Normal(rest - rest')
    ensures Draining(batches + [batch], endpoints, rest')
  {
    hide Normal, Partitions, Encodings, Canonical;
    NormalOfCanonical(rest - rest');
    DrainStep(batches, endpoints, rest, batch, rest');
  }

  lemma {:induction false} DrainStart(endpoints: set<string>)
    ensures Draining([], endpoints, endpoints) && Named([]) == Normal(endpoints - endpoints)
  {
    assert endpoints - endpoints == {};
  }

  lemma {:induction false} DrainEnd(batches: seq<seq<NetworkEndpoint>>, endpoints: set<string>)
    requires Draining(batches, endpoints, {})
    ensures Partitions(batches, endpoints)
  {
    assert endpoints - {} == endpoints;
  }

  // ---------------------------------------------------------------- difference of zone maps

  function In(m: ZoneMap, zone: string): (r: set<string>) {
    if zone in m then m[zone] else {}
  }

  /** Zones where `m` has something that `other` lacks, with exactly that. */
  function Missing(m: ZoneMap, other: ZoneMap): (r: ZoneMap) {
    map zone | zone in m && m[zone] - In(other, zone) != {} :: m[zone] - In(other, zone)
  }

  method Difference(m: ZoneMap, other: ZoneMap) returns (diff: ZoneMap)
    ensures diff == Missing(m, other)
  {
    diff := map[];
    var zones := m.Keys;
    while zones != {}
      invariant zones <= m.Keys
      invariant diff == map zone | zone in m && zone !in zones
                  && m[zone] - In(other, zone) != {} :: m[zone] - In(other, zone)
    {
      var zone :| zone in zones;
      var d := m[zone] - In(other, zone);
      if d != {} {
        diff := diff[zone := d];
      }
      zones := zones - {zone};
    }
  }

  /** What has to be attached and detached to go from `current` to `target`. */
  method CalculateDifference(target: ZoneMap, current: ZoneMap) returns (add: ZoneMap, remove: ZoneMap)
    ensures add == Missing(target, current) && remove == Missing(current, target)
    ensures forall zone :: In(current, zone) - In(remove, zone) + In(add, zone) == In(target, zone)
    ensures forall zone :: In(add, zone) !! In(remove, zone)
  {
    add := Difference(target, current);
    remove := Difference(current, target);
  }

  // ---------------------------------------------------------------- concurrent calls

  /** One call to the cloud, carried out by its own goroutine. */
  datatype Call = Attach(zone: string, endpoints: set<string>) | Detach(zone: string, endpoints: set<string>)

  function NewCall(attach: bool, zone: string, endpoints: set<string>): (c: Call) {
    if attach then Attach(zone, endpoints) else Detach(zone, endpoints)
  }

  function CallsFor(attach: bool, zone: string, batches: seq<seq<NetworkEndpoint>>): (r: seq<Call>) {
    if batches == [] then []
    else
      var n := |batches| - 1;
      CallsFor(attach, zone, batches[..n]) + [NewCall(attach, zone, Encodings(batches[n]))]
  }

  function TouchedBy(c: Call, attach: bool, zone: string): (r: set<string>) {
    if c.Attach? == attach && c.zone == zone then c.endpoints else {}
  }

  /** The endpoints of a zone named by the calls of one kind. */
  function Touched(calls: seq<Call>, attach: bool, zone: string): (r: set<string>) {
    if calls == [] then {}
    else Touched(calls[..|calls| - 1], attach, zone) + TouchedBy(calls[|calls| - 1], attach, zone)
  }

  /** The calls name exactly the endpoints to attach and to detach, zone by zone. */
  ghost predicate Covers(calls: seq<Call>, add: ZoneMap, remove: ZoneMap) {
    forall zone :: Touched(calls, true, zone) == In(add, zone) && Touched(calls, false, zone) == In(remove, zone)
  }

  lemma {:induction false} TouchedConcat(a: seq<Call>, b: seq<Call>, attach: bool, zone: string)
    ensures Touched(a + b, attach, zone) == Touched(a, attach, zone) + Touched(b, attach, zone)
  {
    if b == [] {
      assert a + b == a;
    } else {
      assert (a + b)[..|a + b| - 1] == a + b[..|b| - 1];
      TouchedConcat(a, b[..|b| - 1], attach, zone);
    }
  }

  lemma {:induction false} TouchedMember(calls: seq<Call>, attach: bool, zone: string, e: string)
    ensures e in Touched(calls, attach, zone) <==> exists c :: c in calls && e in TouchedBy(c, attach, zone)
  {
    if calls != [] {
      var n := |calls| - 1;
      assert calls == calls[..n] + [calls[n]];
      TouchedMember(calls[..n], attach, zone, e);
    }
  }

  lemma {:induction false} TouchedSnoc(calls: seq<Call>, c: Call, attach: bool, zone: string)
    ensures Touched(calls + [c], attach, zone) == Touched(calls, attach, zone) + TouchedBy(c, attach, zone)
  {
    assert (calls + [c])[..|calls|] == calls;
  }

  lemma {:induction false} BatchesTouch(attach: bool, zone: string, batches: seq<seq<NetworkEndpoint>>, kind: bool,
                                        z: string)
    ensures Touched(CallsFor(attach, zone, batches), kind, z) == if kind == attach
              && z == zone then Named(batches) else {}
    decreases |batches|
  {
    if batches != [] {
      var init, taken := batches[..|batches| - 1], Encodings(batches[|batches| - 1]);
      BatchesTouch(attach, zone, init, kind, z);
      TouchedSnoc(CallsFor(attach, zone, init), NewCall(attach, zone, taken), kind, z);
    }
  }

  ghost predicate MapCanonical(m: ZoneMap) { forall zone :: zone in m ==> AllCanonical(m[zone]) }
  predicate MapSplit(m: ZoneMap) { forall zone :: zone in m ==> AllSplit(m[zone]) }
  ghost predicate MapDecodes(m: ZoneMap) { forall zone, e :: zone in m && e in m[zone] ==> Decodes(e) }

  /** The calls of this kind name only what the map stands for, zone by zone, or exactly that; and there are no
      others. */
  ghost predicate Within(calls: seq<Call>, attach: bool, m: ZoneMap) {
    forall kind, zone :: Touched(calls, kind, zone) <= if kind == attach then Normal(In(m, zone)) else {}
  }

  ghost predicate Exactly(calls: seq<Call>, attach: bool, m: ZoneMap) {
    forall kind, zone :: Touched(calls, kind, zone) == if kind == attach then Normal(In(m, zone)) else {}
  }

  lemma {:induction false} ExactlyOneMore(calls: seq<Call>, attach: bool, done: ZoneMap, m: ZoneMap, zone: string,
                                          batches: seq<seq<NetworkEndpoint>>)
    requires Exactly(calls, attach, done) && zone in m && zone !in done && Named(batches) <= Normal(m[zone])
    requires forall z :: z in done ==> z in m && done[z] == m[z]
    ensures Within(calls + CallsFor(attach, zone, batches), attach, m)
    ensures Named(batches) == Normal(m[zone]) ==>
              Exactly(calls + CallsFor(attach, zone, batches), attach, done[zone := m[zone]])
  {
    hide Normal, Named;
    var all := calls + CallsFor(attach, zone, batches);
    forall kind, z ensures Touched(all, kind, z) ==
                           Touched(calls, kind, z) + if kind == attach && z == zone then Named(batches) else {} {
      TouchedConcat(calls, CallsFor(attach, zone, batches), kind, z);
      BatchesTouch(attach, zone, batches, kind, z);
    }
    NormalOfNothing();
  }

  lemma {:induction false} NormalOfNothing()
    ensures Normal({}) == {}
  {
  }

  /** One of the two loops of syncNetworkEndpoints. It ends early exactly when some string does not decode; the calls
      launched by then are running. */
  method LaunchAll(attach: bool, m: ZoneMap) returns (calls: seq<Call>, ok: bool)
    requires MapSplit(m)
    ensures ok <==> MapDecodes(m)
    ensures Within(calls, attach, m) && (ok ==> Exactly(calls, attach, m))
  {
    hide Normal, Named, Decodes;
    calls := [];
    var zones := m.Keys;
    ghost var done: ZoneMap := map[];
    NormalOfNothing();
    while zones != {}
      invariant zones <= m.Keys && done.Keys == m.Keys - zones && forall zone :: zone in done ==> done[zone] == m[zone]
      invariant Exactly(calls, attach, done)
      invariant forall zone, e :: zone in done && e in done[zone] ==> Decodes(e)
    {
      var zone :| zone in zones;
      var batches, drained := Drain(m[zone]);
      ExactlyOneMore(calls, attach, done, m, zone, batches);
      calls := calls + CallsFor(attach, zone, batches);
      if !drained {
        return calls, false;
      }
      done := done[zone := m[zone]];
      zones := zones - {zone};
    }
    assert done == m;
    return calls, true;
  }

  /** What the calls of a pass name in each zone. */
  ghost predicate CoversWithin(calls: seq<Call>, add: ZoneMap, remove: ZoneMap) {
    forall zone :: Touched(calls, true, zone) <= Normal(In(add, zone))
      && Touched(calls, false, zone) <= Normal(In(remove, zone))
  }

  ghost predicate CoversNormal(calls: seq<Call>, add: ZoneMap, remove: ZoneMap) {
    forall zone :: Touched(calls, true, zone) == Normal(In(add, zone))
      && Touched(calls, false, zone) == Normal(In(remove, zone))
  }

  lemma {:induction false} CanonicalCovers(calls: seq<Call>, add: ZoneMap, remove: ZoneMap)
    requires CoversNormal(calls, add, remove) && MapCanonical(add) && MapCanonical(remove)
    ensures Covers(calls, add, remove)
  {
    hide Normal, Canonical;
    forall zone ensures Touched(calls, true, zone) == In(add, zone) && Touched(calls, false, zone) == In(remove, zone) {
      NormalOfCanonical(In(add, zone));
      NormalOfCanonical(In(remove, zone));
    }
  }

  lemma {:induction false} CanonicalMapDecodes(m: ZoneMap)
    requires MapCanonical(m)
    ensures MapDecodes(m)
  {
    hide Canonical, Decodes;
    forall zone, e | zone in m && e in m[zone] ensures Decodes(e) { NormalOfCanonical(m[zone]); }
  }

  lemma {:induction false} BothKinds(detaches: seq<Call>, attaches: seq<Call>, add: ZoneMap, remove: ZoneMap)
    requires Within(detaches, false, remove) && Within(attaches, true, add)
    ensures CoversWithin(detaches + attaches, add, remove) && CoversWithin(detaches, add, remove)
    ensures Exactly(detaches, false, remove) && Exactly(attaches, true, add) ==>
              CoversNormal(detaches + attaches, add, remove)
  {
    hide Normal;
    forall zone, kind ensures Touched(detaches + attaches, kind, zone)
      == Touched(detaches, kind, zone) + Touched(attaches, kind, zone) {
      TouchedConcat(detaches, attaches, kind, zone);
    }
  }

  /** The calls a pass launches: detaches first, then attaches, all of them running concurrently. It fails exactly
      when a string does not decode, with the calls launched by then running. For canonical strings the calls name
      exactly what is to be attached and detached. */
  method SyncNetworkEndpoints(add: ZoneMap, remove: ZoneMap) returns (calls: seq<Call>, ok: bool)
    requires MapSplit(add) && MapSplit(remove)
    ensures ok <==> MapDecodes(add) && MapDecodes(remove)
    ensures CoversWithin(calls, add, remove) && (ok ==> CoversNormal(calls, add, remove))
    ensures MapCanonical(add) && MapCanonical(remove) ==> ok && Covers(calls, add, remove)
  {
    hide Normal, Canonical, Decodes, MapDecodes;
    if MapCanonical(add) && MapCanonical(remove) {
      CanonicalMapDecodes(add);
      CanonicalMapDecodes(remove);
    }
    var detaches, attaches;
    detaches, ok := LaunchAll(false, remove);
    if !ok {
      NoCalls(add);
      BothKinds(detaches, [], add, remove);
      return detaches, false;
    }
    attaches, ok := LaunchAll(true, add);
    BothKinds(detaches, attaches, add, remove);
    calls := detaches + attaches;
    if ok && MapCanonical(add) && MapCanonical(remove) { CanonicalCovers(calls, add, remove); }
  }

  lemma {:induction false} NoCalls(add: ZoneMap)
    ensures Within([], true, add)
  {
  }

  /** What the calls do to the cloud in the order the goroutines happen to reach it; `ok[i]` says whether
      call `i` of that order succeeds. */
  function Execute(order: seq<Call>, ok: seq<bool>, cloud: ZoneMap): (after: ZoneMap)
    requires |ok| == |order|
  {
    if order == [] then cloud
    else
      var n := |order| - 1;
      var before := Execute(order[..n], ok[..n], cloud);
      if ok[n] then Apply(order[n], before) else before
  }

  function Apply(c: Call, cloud: ZoneMap): (after: ZoneMap) {
    if c.Attach? then cloud[c.zone := In(cloud, c.zone) + c.endpoints]
    else cloud[c.zone := In(cloud, c.zone) - c.endpoints]
  }

  /** Whether an endpoint is in after any order of calls; nothing is said when they both attach and detach it. */
  lemma {:induction false} ExecuteOne(order: seq<Call>, ok: seq<bool>, cloud: ZoneMap, zone: string, e: string)
    requires |ok| == |order|
    ensures var before, after := In(cloud, zone), In(Execute(order, ok, cloud), zone);
            var added, removed := Touched(order, true, zone), Touched(order, false, zone);
            && (e in before - removed ==> e in after) && (e in after ==> e in before + added)
            && ((forall i :: 0 <= i < |ok| ==> ok[i]) ==>
                (e in added - removed ==> e in after) && (e in removed - added ==> e !in after))
  {
    if order != [] {
      var n := |order| - 1;
      ExecuteOne(order[..n], ok[..n], cloud, zone, e);
    }
  }

  /** Membership after any order of calls that never attach and detach the same endpoint. */
  lemma {:induction false} ExecuteMember(order: seq<Call>, ok: seq<bool>, cloud: ZoneMap, zone: string)
    requires |ok| == |order| && Touched(order, true, zone) !! Touched(order, false, zone)
    ensures var before, after := In(cloud, zone), In(Execute(order, ok, cloud), zone);
            var added, removed := Touched(order, true, zone), Touched(order, false, zone);
            && before - removed <= after <= before + added
            && ((forall i :: 0 <= i < |ok| ==> ok[i]) ==> after == before - removed + added)
  {
    hide Execute, Touched;
    forall e { ExecuteOne(order, ok, cloud, zone, e); }
  }

  lemma {:induction false} SameTouched(calls: seq<Call>, order: seq<Call>, attach: bool, zone: string)
    requires multiset(order) == multiset(calls)
    ensures Touched(order, attach, zone) == Touched(calls, attach, zone)
  {
    forall c ensures c in order <==> c in calls {
      assert c in order <==> multiset(order)[c] > 0;
      assert c in calls <==> multiset(calls)[c] > 0;
    }
    forall e ensures e in Touched(order, attach, zone) <==> e in Touched(calls, attach, zone) {
      TouchedMember(order, attach, zone, e);
      TouchedMember(calls, attach, zone, e);
    }
  }

  /** Confluence: whatever order the concurrent calls run in, if all succeed every listed zone ends up
      with exactly the target; if any subset fails, it lies between what both agree on and their union. */
  lemma {:induction false} ReconcileConfluent(target: ZoneMap, current: ZoneMap, cloud: ZoneMap,
                                              calls: seq<Call>, order: seq<Call>, ok: seq<bool>, zone: string)
    requires Covers(calls, Missing(target, current), Missing(current, target))
    requires multiset(order) == multiset(calls) && |ok| == |order|
    requires zone in current && In(cloud, zone) == current[zone]
    ensures var after := In(Execute(order, ok, cloud), zone);
            && In(current, zone) * In(target, zone) <= after <= In(current, zone) + In(target, zone)
            && ((forall i :: 0 <= i < |ok| ==> ok[i]) ==> after == In(target, zone))
  {
    SameTouched(calls, order, true, zone);
    SameTouched(calls, order, false, zone);
    ExecuteMember(order, ok, cloud, zone);
  }

  // ---------------------------------------------------------------- calls left over from a failed pass

  /** All calls succeed. */
  function Succeeded(order: seq<Call>, cloud: ZoneMap): (after: ZoneMap) {
    Execute(order, seq(|order|, _ => true), cloud)
  }

  lemma {:induction false} SucceededConcat(a: seq<Call>, b: seq<Call>, cloud: ZoneMap)
    ensures Succeeded(a + b, cloud) == Succeeded(b, Succeeded(a, cloud))
    decreases |b|
  {
    var n := |b| - 1;
    if n < 0 {
      assert a + b == a;
    } else {
      assert (a + b)[..|a + b| - 1] == a + b[..n];
      assert seq(|a + b|, _ => true)[..|a + b| - 1] == seq(|a + b[..n]|, _ => true);
      assert seq(|b|, _ => true)[..n] == seq(|b[..n]|, _ => true);
      SucceededConcat(a, b[..n], cloud);
    }
  }

  /** A pass that meets a string it cannot decode returns without waiting, so that its calls may still run while the
      next pass does its work. Whatever their order, that pass gets all of the zone right, except what a late call
      undoes. */
  lemma {:induction false} OverlapBounded(late: seq<Call>, target: ZoneMap, current: ZoneMap, cloud: ZoneMap,
                                          calls: seq<Call>, order: seq<Call>, ok: seq<bool>, zone: string)
    requires Covers(calls, Missing(target, current), Missing(current, target))
    requires multiset(order) == multiset(calls + late) && |ok| == |order|
    requires zone in current && In(cloud, zone) == current[zone]
    ensures var after := In(Execute(order, ok, cloud), zone);
            var added, removed := Touched(late, true, zone), Touched(late, false, zone);
            && In(current, zone) * In(target, zone) - removed <= after <= In(current, zone) + In(target, zone) + added
            && ((forall i :: 0 <= i < |ok| ==> ok[i]) ==>
                In(target, zone) - removed <= after <= In(target, zone) + added)
  {
    SameTouched(calls + late, order, true, zone);
    SameTouched(calls + late, order, false, zone);
    TouchedConcat(calls, late, true, zone);
    TouchedConcat(calls, late, false, zone);
    hide Execute, Touched;
    forall e { ExecuteOne(order, ok, cloud, zone, e); }
  }

  /** An endpoint can come out wrong, with every call succeeding, exactly when a late call detaches one of the target or
      attaches one that is not. */
  lemma {:induction false} OverlapLosesIff(late: seq<Call>, target: ZoneMap, current: ZoneMap, cloud: ZoneMap,
                                           calls: seq<Call>, zone: string, e: string)
    requires Covers(calls, Missing(target, current), Missing(current, target))
    requires Touched(late, true, zone) !! Touched(late, false, zone)
    requires zone in current && In(cloud, zone) == current[zone]
    ensures (exists order :: multiset(order) == multiset(calls + late)
              && (e in In(Succeeded(order, cloud), zone) <==> e !in In(target, zone)))
            <==> e in Touched(late, if e in In(target, zone) then false else true, zone)
  {
    hide Execute, Touched;
    forall order | multiset(order) == multiset(calls + late) && e !in Touched(late, e !in In(target, zone), zone)
      ensures e in In(Succeeded(order, cloud), zone) <==> e in In(target, zone) {
      OverlapBounded(late, target, current, cloud, calls, order, seq(|order|, _ => true), zone);
    }
    if e in Touched(late, e !in In(target, zone), zone) {
      SucceededConcat(calls, late, cloud);
      ExecuteMember(late, seq(|late|, _ => true), Succeeded(calls, cloud), zone);
      assert multiset(calls + late) == multiset(calls + late)
        && (e in In(Succeeded(calls + late, cloud), zone) <==> e !in In(target, zone));
    }
  }

  /** The late calls of a pass are within its two differences. If the strings that decode are canonical, they never
      attach and detach the same endpoint. */
  lemma {:induction false} LateApart(late: seq<Call>, target: ZoneMap, current: ZoneMap, zone: string)
    requires CoversWithin(late, Missing(target, current), Missing(current, target))
    requires forall e :: e in In(target, zone) + In(current, zone) && Decodes(e) ==> Canonical(e)
    ensures Touched(late, true, zone) !! Touched(late, false, zone)
  {
    var add, remove := In(Missing(target, current), zone), In(Missing(current, target), zone);
    forall e | e in add + remove && Decodes(e) ensures Encoding(DecodeEndpoint(e).value) == e { CanonicalDecodes(e); }
    hide Decodes, Canonical, Encoding, DecodeEndpoint, Touched;
    assert Normal(add) <= add && Normal(remove) <= remove;
  }
}
