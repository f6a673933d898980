/** A whole pass of a NEG syncer (pkg/networkendpointgroup/syncer.go): from an endpoints object to the calls that make
    the cloud agree with it, and to the next pass that finds nothing to do. */
module NegPass {
  import opened Text
  import opened NegEndpoints

  datatype SubsetPort = SubsetPort(name: string, port: int)
  datatype Address = Address(ip: string, node: string)
  datatype Subset = Subset(ports: seq<SubsetPort>, addresses: seq<Address>)

  // ---------------------------------------------------------------- the port of a subset

  /** The value strconv.Atoi returns when its error is ignored: zero for what is no number, the nearest int64 for a
      number out of range. */
  function AtoiValue(s: string): (n: int) {
    var signed := s != "" && (s[0] == '-' || s[0] == '+');
    var digits := if signed then s[1..] else s;
    if digits == "" || !AllDigits(digits) then 0
    else
      var v: int := DecimalValue(digits);
      if signed && s[0] == '-' then (if v > MAX_INT64 + 1 then -MAX_INT64 - 1 else -v)
      else if v > MAX_INT64 then MAX_INT64 else v
  }

  predicate HasLetter(s: string) { exists i :: 0 <= i < |s| && 'a' <= s[i] <= 'z' }

  /** What is read from a target port: the number it is, and nothing from one with a letter in it, as names have. */
  lemma {:induction false} NumberRead(n: int, name: string)
    ensures -MAX_INT64 - 1 <= n <= MAX_INT64 ==> AtoiValue(Itoa(n)) == n
    ensures HasLetter(name) ==> AtoiValue(name) == 0
  {
    if -MAX_INT64 - 1 <= n <= MAX_INT64 { AtoiItoa(n); }
    if HasLetter(name) {
      var i :| 0 <= i < |name| && 'a' <= name[i] <= 'z';
      assert i > 0 ==> name[i] == name[1..][i - 1];
    }
  }

  predicate Matches(target: string, p: SubsetPort) {
    if AtoiValue(target) != 0 then p.port == AtoiValue(target) else p.name == target
  }

  /** The text under which the endpoints of a matching port are recorded. */
  function PortText(target: string, p: SubsetPort): (s: string) {
    if AtoiValue(target) != 0 then target else Itoa(p.port)
  }

  function FirstMatch(target: string, ports: seq<SubsetPort>): (r: Option<string>)
    ensures r.Some? <==> exists i :: 0 <= i < |ports| && Matches(target, ports[i])
  {
    if ports == [] then None
    else if Matches(target, ports[0]) then Some(PortText(target, ports[0]))
    else FirstMatch(target, ports[1..])
  }

  lemma {:induction false} FirstMatchAt(target: string, ports: seq<SubsetPort>, i: nat)
    requires i < |ports| && Matches(target, ports[i]) && forall j :: 0 <= j < i ==> !Matches(target, ports[j])
    ensures FirstMatch(target, ports) == Some(PortText(target, ports[i]))
  {
    if i > 0 { FirstMatchAt(target, ports[1..], i - 1); }
  }

  /** Port `k` is the one that a target port means: for a number any port with it, else the first with the name. */
  ghost predicate Means(target: string, ports: seq<SubsetPort>, k: int) {
    && 0 <= k < |ports|
    && if AtoiValue(target) != 0 then ports[k].port == AtoiValue(target)
       else ports[k].name == target && NoneBefore(target, ports, k)
  }

  predicate NoneBefore(name: string, ports: seq<SubsetPort>, k: nat)
    requires k <= |ports|
  {
    forall j :: 0 <= j < k ==> ports[j].name != name
  }

  lemma {:induction false} MeansMatch(target: string, ports: seq<SubsetPort>)
    ensures forall k :: Means(target, ports, k) ==>
              FirstMatch(target, ports) == Some(if AtoiValue(target) != 0 then target else Itoa(ports[k].port))
    ensures FirstMatch(target, ports).Some? ==> exists k :: Means(target, ports, k)
  {
    hide AtoiValue;
    if exists k :: 0 <= k < |ports| && Matches(target, ports[k]) {
      var k := FirstMatching(target, ports);
      FirstMatchAt(target, ports, k);
      assert Means(target, ports, k);
    }
  }

  lemma {:induction false} FirstMatching(target: string, ports: seq<SubsetPort>) returns (k: nat)
    requires exists i :: 0 <= i < |ports| && Matches(target, ports[i])
    ensures k < |ports| && Matches(target, ports[k]) && forall j :: 0 <= j < k ==> !Matches(target, ports[j])
  {
    k := 0;
    while !Matches(target, ports[k])
      invariant k < |ports| && forall j :: 0 <= j < k ==> !Matches(target, ports[j])
      decreases |ports| - k
    {
      k := k + 1;
    }
  }

  /** The text under which the endpoints of a subset are recorded, "" if it does not have the target port. */
  function Matched(target: string, ports: seq<SubsetPort>): (text: string) {
    if FirstMatch(target, ports).Some? then FirstMatch(target, ports).value else ""
  }

  lemma {:induction false} MatchedNumber(n: int, ports: seq<SubsetPort>)
    requires n != 0 && -MAX_INT64 - 1 <= n <= MAX_INT64
    ensures Matched(Itoa(n), ports) == if exists k :: 0 <= k < |ports| && ports[k].port == n then Itoa(n) else ""
  {
    NumberRead(n, "");
    MeansMatch(Itoa(n), ports);
    hide AtoiValue, FirstMatch, Itoa;
    if k :| 0 <= k < |ports| && ports[k].port == n { assert Means(Itoa(n), ports, k); }
  }

  lemma {:induction false} MatchedName(name: string, ports: seq<SubsetPort>)
    requires HasLetter(name)
    ensures forall k :: 0 <= k < |ports| && ports[k].name == name && NoneBefore(name, ports, k) ==>
              Matched(name, ports) == Itoa(ports[k].port)
    ensures (forall k :: 0 <= k < |ports| ==> ports[k].name != name) ==> Matched(name, ports) == ""
  {
    NumberRead(0, name);
    MeansMatch(name, ports);
    hide AtoiValue, FirstMatch, Itoa, NoneBefore;
    forall k | 0 <= k < |ports| && ports[k].name == name && NoneBefore(name, ports, k)
      ensures Matched(name, ports) == Itoa(ports[k].port) {
      assert Means(name, ports, k);
    }
  }

  /** For a number the target itself if some port has it, for a name the number of the first port with that name. */
  method MatchPort(target: string, ports: seq<SubsetPort>) returns (text: string)
    ensures text == Matched(target, ports) && (text != "" <==> FirstMatch(target, ports).Some?)
    // whatever the text
    ensures forall k :: Means(target, ports, k) ==>
              text == if AtoiValue(target) != 0 then target else Itoa(ports[k].port)
    ensures (forall k :: !Means(target, ports, k)) ==> text == ""
    // a number in decimal, and a name
    ensures forall n :: n != 0 && -MAX_INT64 - 1 <= n <= MAX_INT64 && target == Itoa(n) ==>
              text == if exists k :: 0 <= k < |ports| && ports[k].port == n then target else ""
    ensures HasLetter(target) ==>
              && (forall k :: 0 <= k < |ports| && ports[k].name == target && NoneBefore(target, ports, k) ==>
                    text == Itoa(ports[k].port))
              && ((forall k :: 0 <= k < |ports| ==> ports[k].name != target) ==> text == "")
  {
    hide HasLetter, NoneBefore, Itoa;
    MeansMatch(target, ports);
    forall n | n != 0 && -MAX_INT64 - 1 <= n <= MAX_INT64 && target == Itoa(n)
      ensures Matched(target, ports) == if exists k :: 0 <= k < |ports| && ports[k].port == n then target else "" {
      MatchedNumber(n, ports);
    }
    if HasLetter(target) { MatchedName(target, ports); }
    text := "";
    var targetPort := AtoiValue(target);
    for i := 0 to |ports|
      invariant text == "" && forall j :: 0 <= j < i ==> !Matches(target, ports[j])
    {
      if targetPort != 0 {
        if ports[i].port == targetPort {
          text := target;
        }
      } else {
        if ports[i].name == target {
          text := Itoa(ports[i].port);
        }
      }
      if text != "" {
        FirstMatchAt(target, ports, i);
        break;
      }
    }
  }

  // ---------------------------------------------------------------- target

  type ZoneOf = string -> Option<string> // the zone of a node, None if the lookup fails

  function EndpointOf(target: string, s: Subset, a: Address): (e: string)
    requires FirstMatch(target, s.ports).Some?
  {
    EncodeEndpoint(a.ip, a.node, FirstMatch(target, s.ports).value)
  }

  /** Address `j` of subset `i` puts this endpoint in this zone. */
  ghost predicate Places(zoneOf: ZoneOf, target: string, subsets: seq<Subset>, i: int, j: int, zone: string,
                         e: string) {
    && 0 <= i < |subsets| && 0 <= j < |subsets[i].addresses| && FirstMatch(target, subsets[i].ports).Some?
    && zoneOf(subsets[i].addresses[j].node) == Some(zone)
       && e == EndpointOf(target, subsets[i], subsets[i].addresses[j])
  }

  /** Address `j` of subset `i` puts this endpoint in this zone, and its port is that of port `k` of the subset. */
  ghost predicate PlacesPort(zoneOf: ZoneOf, target: string, subsets: seq<Subset>, i: int, j: int, k: int,
                             zone: string, e: string) {
    && 0 <= i < |subsets| && 0 <= j < |subsets[i].addresses| && Means(target, subsets[i].ports, k)
    && zoneOf(subsets[i].addresses[j].node) == Some(zone)
    && e == EncodeEndpoint(subsets[i].addresses[j].ip, subsets[i].addresses[j].node,
                           if AtoiValue(target) != 0 then target else Itoa(subsets[i].ports[k].port))
  }

  lemma {:induction false} TargetPorts(zoneOf: ZoneOf, target: string, subsets: seq<Subset>, zone: string, e: string)
    ensures (exists i, j :: Places(zoneOf, target, subsets, i, j, zone, e)) <==>
              exists i, j, k :: PlacesPort(zoneOf, target, subsets, i, j, k, zone, e)
  {
    hide FirstMatch, Means, AtoiValue;
    if i, j :| Places(zoneOf, target, subsets, i, j, zone, e) {
      MeansMatch(target, subsets[i].ports);
      var k :| Means(target, subsets[i].ports, k);
      assert PlacesPort(zoneOf, target, subsets, i, j, k, zone, e);
    }
    if i, j, k :| PlacesPort(zoneOf, target, subsets, i, j, k, zone, e) {
      MeansMatch(target, subsets[i].ports);
      assert Places(zoneOf, target, subsets, i, j, zone, e);
    }
  }

  ghost predicate Lost(zoneOf: ZoneOf, target: string, s: Subset) {
    FirstMatch(target, s.ports).Some? && exists j :: 0 <= j < |s.addresses| && zoneOf(s.addresses[j].node).None?
  }

  /** The addresses of one subset, put in their zones. */
  method PlaceAddresses(zoneOf: ZoneOf, target: string, s: Subset, known: ZoneMap) returns (r: Option<ZoneMap>)
    requires FirstMatch(target, s.ports).Some?
    ensures r.None? <==> Lost(zoneOf, target, s)
    ensures r.Some? ==>
              forall zone, e :: e in In(r.value, zone) <==>
                (e in In(known, zone) || exists j :: Places(zoneOf, target, [s], 0, j, zone, e))
    ensures r.Some? && (forall zone :: zone in known ==> known[zone] != {}) ==> forall zone :: zone in r.value ==>
              r.value[zone] != {}
  {
    var text := FirstMatch(target, s.ports).value;
    var zones := known;
    for j := 0 to |s.addresses|
      invariant forall zone, e :: e in In(zones, zone) <==>
                  (e in In(known, zone) || exists k :: k < j && Places(zoneOf, target, [s], 0, k, zone, e))
      invariant (forall zone :: zone in known ==> known[zone] != {}) ==> forall zone :: zone in zones ==>
                  zones[zone] != {}
      invariant forall k :: 0 <= k < j ==> zoneOf(s.addresses[k].node).Some?
    {
      var a := s.addresses[j];
      var zone := zoneOf(a.node);
      if zone.None? {
        return None;
      }
      ghost var before := zones;
      var e := EncodeEndpoint(a.ip, a.node, text);
      assert Places(zoneOf, target, [s], 0, j, zone.value, e);
      zones := zones[zone.value := In(zones, zone.value) + {e}];
      forall z, x ensures x in In(zones, z) <==> x in In(before, z) || Places(zoneOf, target, [s], 0, j, z, x) { }
    }
    return Some(zones);
  }

  /** Exactly the endpoints of the matching subsets, each in the zone of its node; it fails exactly when the zone of
      such a node is unknown. */
  method ToZoneNetworkEndpointMap(zoneOf: ZoneOf, target: string, subsets: seq<Subset>) returns (r: Option<ZoneMap>)
    ensures r.None? <==> exists i :: 0 <= i < |subsets| && Lost(zoneOf, target, subsets[i])
    ensures r.Some? ==> IsTarget(zoneOf, target, subsets, r.value)
    ensures r.Some? ==> forall zone, e :: e in In(r.value, zone) <==>
              exists i, j, k :: PlacesPort(zoneOf, target, subsets, i, j, k, zone, e)
  {
    hide Places, Lost, PlacesPort;
    PlacesInRange(zoneOf, target, subsets);
    var zones: ZoneMap := map[];
    for i := 0 to |subsets|
      invariant forall zone, e :: e in In(zones, zone) <==>
                  exists k, j :: k < i && Places(zoneOf, target, subsets, k, j, zone, e)
      invariant forall zone :: zone in zones ==> zones[zone] != {}
      invariant forall k :: 0 <= k < i ==> !Lost(zoneOf, target, subsets[k])
    {
      var text := MatchPort(target, subsets[i].ports);
      OneSubset(zoneOf, target, subsets, i);
      if text != "" {
        var more := PlaceAddresses(zoneOf, target, subsets[i], zones);
        if more.None? {
          return None;
        }
        zones := more.value;
      }
    }
    forall zone, e ensures e in In(zones, zone) <==>
                           exists i, j, k :: PlacesPort(zoneOf, target, subsets, i, j, k, zone, e) {
      TargetPorts(zoneOf, target, subsets, zone, e);
    }
    return Some(zones);
  }

  lemma {:induction false} OneSubset(zoneOf: ZoneOf, target: string, subsets: seq<Subset>, i: nat)
    requires i < |subsets|
    ensures forall j, zone, e :: Places(zoneOf, target, subsets, i, j, zone, e) <==>
              Places(zoneOf, target, [subsets[i]], 0, j, zone, e)
    ensures FirstMatch(target, subsets[i].ports).None? ==>
              !Lost(zoneOf, target, subsets[i]) && forall j, zone, e :: !Places(zoneOf, target, subsets, i, j, zone, e)
  {
  }

  lemma {:induction false} PlacesInRange(zoneOf: ZoneOf, target: string, subsets: seq<Subset>)
    ensures forall k, j, zone, e :: Places(zoneOf, target, subsets, k, j, zone, e) ==> 0 <= k < |subsets|
  {
  }

  ghost predicate IsTarget(zoneOf: ZoneOf, target: string, subsets: seq<Subset>, m: ZoneMap) {
    && (forall zone, e :: e in In(m, zone) <==> exists i, j :: Places(zoneOf, target, subsets, i, j, zone, e))
    && (forall zone :: zone in m ==> m[zone] != {})
  }

  // ---------------------------------------------------------------- the pass

  /** The listed zones as the cloud has them. */
  function Existing(zones: set<string>, cloud: ZoneMap): (m: ZoneMap) { map zone | zone in zones :: In(cloud, zone) }

  /** Addresses without a bar, ports in the int64 range, and a target port that is a name or a number in plain
      decimal. */
  predicate PlainInput(target: string, subsets: seq<Subset>) {
    PlainTarget(target) && forall i :: 0 <= i < |subsets| ==> PlainSubset(subsets[i])
  }

  /** A name, or a number in plain decimal. */
  predicate PlainTarget(target: string) { AtoiValue(target) != 0 ==> target == Itoa(AtoiValue(target)) }

  predicate PlainSubset(s: Subset) {
    && (forall j :: 0 <= j < |s.addresses| ==> NoBar(s.addresses[j].ip) && NoBar(s.addresses[j].node))
    && (forall j :: 0 <= j < |s.ports| ==> -MAX_INT64 - 1 <= s.ports[j].port <= MAX_INT64)
  }

  lemma {:induction false} MatchIsDecimal(target: string, ports: seq<SubsetPort>) returns (n: int)
    requires FirstMatch(target, ports).Some? && PlainTarget(target)
    requires forall j :: 0 <= j < |ports| ==> -MAX_INT64 - 1 <= ports[j].port <= MAX_INT64
    ensures -MAX_INT64 - 1 <= n <= MAX_INT64 && FirstMatch(target, ports) == Some(Itoa(n))
  {
    if Matches(target, ports[0]) { n := ports[0].port; } else { n := MatchIsDecimal(target, ports[1..]); }
  }

  lemma {:induction false} TargetIsCanonical(zoneOf: ZoneOf, target: string, subsets: seq<Subset>, m: ZoneMap)
    requires IsTarget(zoneOf, target, subsets, m) && PlainInput(target, subsets)
    ensures MapCanonical(m)
  {
    forall zone, e | zone in m && e in m[zone] ensures Canonical(e) {
      assert e in In(m, zone);
      var i, j :| Places(zoneOf, target, subsets, i, j, zone, e);
      var s := subsets[i];
      var n := MatchIsDecimal(target, s.ports);
      var ne := NetworkEndpoint(s.addresses[j].node, s.addresses[j].ip, n);
      assert Encodable(ne) && e == Encoding(ne);
    }
  }

  lemma {:induction false} MissingCanonical(a: ZoneMap, b: ZoneMap)
    requires MapCanonical(a)
    ensures MapCanonical(Missing(a, b)) && MapSplit(Missing(a, b))
  {
    forall zone, e | zone in Missing(a, b) && e in Missing(a, b)[zone] ensures Canonical(e) && |Split(e, '|')| >= 3 {
      CanonicalDecodes(e);
    }
  }

  /** The listed zones hold the target. */
  ghost predicate Agrees(zones: set<string>, m: ZoneMap, cloud: ZoneMap) {
    forall zone :: zone in zones ==> In(cloud, zone) == In(m, zone)
  }

  /** Whatever the fields, an encoding splits into at least three parts, so that decoding it never goes out of range. */
  lemma {:induction false} EncodedSplits(ip: string, node: string, port: string)
    ensures |Split(EncodeEndpoint(ip, node, port), '|')| >= 3
  {
    var s := EncodeEndpoint(ip, node, port);
    var k := |ip| + 2 + |node|;
    assert DoubleAt(s, |ip|, '|') && DoubleAt(s, k, '|');
    var i := FindDouble(s, '|');
    assert i <= |ip| && DoubleAt(s[i + 2..], k - i - 2, '|');
    var rest := s[i + 2..];
    assert FindDouble(rest, '|') < |rest|;
  }

  lemma {:induction false} TargetSplits(zoneOf: ZoneOf, target: string, subsets: seq<Subset>, m: ZoneMap)
    requires IsTarget(zoneOf, target, subsets, m)
    ensures MapSplit(m)
  {
    forall zone, e | zone in m && e in m[zone] ensures |Split(e, '|')| >= 3 {
      assert e in In(m, zone);
      var i, j :| Places(zoneOf, target, subsets, i, j, zone, e);
      EncodedSplits(subsets[i].addresses[j].ip, subsets[i].addresses[j].node,
        FirstMatch(target, subsets[i].ports).value);
    }
  }

  /** The endpoints, zones and NEGs as read, then the calls to make. A pass fails exactly when a node of a matching
      subset has no known zone, and then without calls, or when something to attach or detach does not decode. Its calls
      name only what the difference stands for, all of it if it does not fail; there is no difference exactly when the
      listed zones agree with the target already. For plain input nothing fails but the zones, and the calls name the
      difference itself, so that OnePassSettles applies. */
  method SyncPass(zoneOf: ZoneOf, target: string, subsets: seq<Subset>, zones: set<string>, cloud: ZoneMap)
    returns (calls: seq<Call>, ok: bool, ghost wanted: ZoneMap)
    requires MapCanonical(cloud)
    ensures AnyLost(zoneOf, target, subsets) ==> !ok && calls == []
    ensures !AnyLost(zoneOf, target, subsets) ==>
              && IsTarget(zoneOf, target, subsets, wanted)
              && var add, remove := Missing(wanted, Existing(zones, cloud)), Missing(Existing(zones, cloud), wanted);
                 && (ok <==> MapDecodes(add) && MapDecodes(remove))
                 && CoversWithin(calls, add, remove) && (ok ==> CoversNormal(calls, add, remove))
                 && (wanted.Keys <= zones ==> (Agrees(zones, wanted, cloud) <==> add == map[] && remove == map[]))
                 && (add == map[] && remove == map[] ==> calls == [])
                 && (PlainInput(target, subsets) ==> ok && Covers(calls, add, remove))
  {
    hide PlainInput, IsTarget, Lost, CoversWithin, CoversNormal, Covers, MapDecodes, MapCanonical, MapSplit, Agrees;
    var m := ToZoneNetworkEndpointMap(zoneOf, target, subsets);
    wanted := map[];
    if m.None? {
      return [], false, wanted;
    }
    wanted := m.value;
    TargetSplits(zoneOf, target, subsets, wanted);
    if PlainInput(target, subsets) { TargetIsCanonical(zoneOf, target, subsets, wanted); }
    var current := Existing(zones, cloud);
    ExistingCanonical(zones, cloud);
    var add, remove := CalculateDifference(m.value, current);
    MissingSplit(m.value, current);
    if MapCanonical(m.value) { MissingCanonical(m.value, current); }
    MissingCanonical(current, m.value);
    DifferenceEmptyIff(zones, wanted, cloud);
    if add == map[] && remove == map[] {
      NoDifferenceNoCalls();
      return [], true, wanted;
    }
    calls, ok := SyncNetworkEndpoints(add, remove);
  }

  ghost predicate AnyLost(zoneOf: ZoneOf, target: string, subsets: seq<Subset>) {
    exists i :: 0 <= i < |subsets| && Lost(zoneOf, target, subsets[i])
  }

  lemma {:induction false} ExistingCanonical(zones: set<string>, cloud: ZoneMap)
    requires MapCanonical(cloud)
    ensures MapCanonical(Existing(zones, cloud))
  {
  }

  lemma {:induction false} MissingSplit(a: ZoneMap, b: ZoneMap)
    requires MapSplit(a)
    ensures MapSplit(Missing(a, b))
  {
  }

  lemma {:induction false} NoDifferenceNoCalls()
    ensures MapDecodes(map[]) && CoversWithin([], map[], map[]) && CoversNormal([], map[], map[])
              && Covers([], map[], map[])
  {
  }

  lemma {:induction false} DifferenceEmptyIff(zones: set<string>, m: ZoneMap, cloud: ZoneMap)
    ensures var current := Existing(zones, cloud);
            m.Keys <= zones ==> (Agrees(zones, m, cloud) <==>
              Missing(m, current) == map[] && Missing(current, m) == map[])
  {
    var current := Existing(zones, cloud);
    if m.Keys <= zones && Missing(m, current) == map[] && Missing(current, m) == map[] {
      forall zone | zone in zones ensures In(cloud, zone) == In(m, zone) {
        assert zone !in Missing(m, current) && zone !in Missing(current, m);
      }
    }
  }

  /** One pass whose calls all succeed is enough: whatever order they ran in, the next pass makes no call. */
  lemma {:induction false} OnePassSettles(zones: set<string>, wanted: ZoneMap, cloud: ZoneMap, calls: seq<Call>,
                                          order: seq<Call>, ok: seq<bool>)
    requires wanted.Keys <= zones && |ok| == |order| && multiset(order) == multiset(calls)
               && forall i :: 0 <= i < |ok| ==> ok[i]
    requires Covers(calls, Missing(wanted, Existing(zones, cloud)), Missing(Existing(zones, cloud), wanted))
    ensures Agrees(zones, wanted, Execute(order, ok, cloud))
    ensures var current := Existing(zones, Execute(order, ok, cloud));
            Missing(wanted, current) == map[] && Missing(current, wanted) == map[]
  {
    forall zone | zone in zones ensures In(Execute(order, ok, cloud), zone) == In(wanted, zone) {
      ReconcileConfluent(wanted, Existing(zones, cloud), cloud, calls, order, ok, zone);
    }
    DifferenceEmptyIff(zones, wanted, Execute(order, ok, cloud));
  }

  /** A number that is not in plain decimal, such as "080", never settles: the cloud gives the port back as "80", so
      every pass with a ready address finds something to attach. */
  lemma {:induction false} OddNumberNeverSettles(zoneOf: ZoneOf, target: string, subsets: seq<Subset>,
                                                 zones: set<string>,
                                                 wanted: ZoneMap, cloud: ZoneMap, i: int, j: int, zone: string,
                                                   e: string)
    requires IsTarget(zoneOf, target, subsets, wanted) && MapCanonical(cloud)
               && Places(zoneOf, target, subsets, i, j, zone, e)
    requires NoBar(target) && !PlainTarget(target) && PlainSubset(subsets[i])
    ensures e in In(wanted, zone) - In(Existing(zones, cloud), zone)
  {
    var a := subsets[i].addresses[j];
    MatchIsTarget(target, subsets[i].ports);
    assert e == EncodeEndpoint(a.ip, a.node, target);
    CanonicalPort(a.ip, a.node, target);
    assert e in In(wanted, zone);
  }

  /** What the calls of a pass name is canonical, so the cloud stays so. */
  lemma {:induction false} NormalIsCanonical(ip: string, node: string, port: string)
    requires NoBar(ip) && NoBar(node) && NoBar(port) && Decodes(EncodeEndpoint(ip, node, port))
    ensures Canonical(Encoding(DecodeEndpoint(EncodeEndpoint(ip, node, port)).value))
  {
    PartsOf(ip, node, port);
    var ne := DecodeEndpoint(EncodeEndpoint(ip, node, port)).value;
    assert Encodable(ne);
  }

  lemma {:induction false} ExecuteCanonical(order: seq<Call>, ok: seq<bool>, cloud: ZoneMap)
    requires |ok| == |order| && MapCanonical(cloud) && forall c :: c in order ==> AllCanonical(c.endpoints)
    ensures MapCanonical(Execute(order, ok, cloud))
  {
    if order != [] {
      var n := |order| - 1;
      ExecuteCanonical(order[..n], ok[..n], cloud);
      assert order[n] in order;
    }
  }

  /** Subsets whose addresses have no bar and a bar-free target: what the wanted endpoints stand for is canonical. */
  lemma {:induction false} WantedStandsCanonical(zoneOf: ZoneOf, target: string, subsets: seq<Subset>,
                                                 wanted: ZoneMap, zone: string)
    requires IsTarget(zoneOf, target, subsets, wanted) && NoBar(target) && forall i :: 0 <= i < |subsets| ==>
               PlainSubset(subsets[i])
    ensures AllCanonical(Normal(In(wanted, zone)))
  {
    hide Canonical;
    forall x | x in Normal(In(wanted, zone)) ensures Canonical(x) {
      var e :| e in In(wanted, zone) && Decodes(e) && x == Encoding(DecodeEndpoint(e).value);
      var i, j :| Places(zoneOf, target, subsets, i, j, zone, e);
      var a, text := subsets[i].addresses[j], FirstMatch(target, subsets[i].ports).value;
      TextNoBar(target, subsets[i].ports);
      NormalIsCanonical(a.ip, a.node, text);
    }
  }

  lemma {:induction false} TextNoBar(target: string, ports: seq<SubsetPort>)
    requires NoBar(target) && FirstMatch(target, ports).Some?
    ensures NoBar(FirstMatch(target, ports).value)
  {
    if Matches(target, ports[0]) { ItoaNoBar(ports[0].port); } else { TextNoBar(target, ports[1..]); }
  }

  lemma {:induction false} CallsCanonical(zoneOf: ZoneOf, target: string, subsets: seq<Subset>, zones: set<string>,
                                          wanted: ZoneMap,
                                          cloud: ZoneMap, calls: seq<Call>, c: Call)
    requires IsTarget(zoneOf, target, subsets, wanted) && NoBar(target) && forall i :: 0 <= i < |subsets| ==>
               PlainSubset(subsets[i])
    requires MapCanonical(cloud) && c in calls
    requires CoversNormal(calls, Missing(wanted, Existing(zones, cloud)), Missing(Existing(zones, cloud), wanted))
    ensures AllCanonical(c.endpoints)
  {
    hide IsTarget, Canonical, Normal;
    var add, remove := Missing(wanted, Existing(zones, cloud)), Missing(Existing(zones, cloud), wanted);
    WantedStandsCanonical(zoneOf, target, subsets, wanted, c.zone);
    NormalMonotone(In(add, c.zone), In(wanted, c.zone));
    NormalOfCanonical(In(remove, c.zone));
    forall e | e in c.endpoints ensures e in Touched(calls, c.Attach?, c.zone) {
      TouchedMember(calls, c.Attach?, c.zone, e);
    }
  }

  lemma {:induction false} NormalMonotone(a: set<string>, b: set<string>)
    requires a <= b
    ensures Normal(a) <= Normal(b)
  {
  }

  /** Whether a syncer ever comes to rest, for subsets with plain addresses, a bar-free target port and a ready
      address in a listed zone: the pass after one whose calls all succeeded, in any order, finds no difference if and
      only if the target port is a name or a number in plain decimal. */
  lemma {:induction false} SettlesIff(zoneOf: ZoneOf, target: string, subsets: seq<Subset>, zones: set<string>,
                                      wanted: ZoneMap,
                                      cloud: ZoneMap, calls: seq<Call>, order: seq<Call>, ok: seq<bool>,
                                      i: int, j: int, zone: string, e: string)
    requires IsTarget(zoneOf, target, subsets, wanted) && wanted.Keys <= zones && MapCanonical(cloud) && NoBar(target)
    requires forall k :: 0 <= k < |subsets| ==> PlainSubset(subsets[k])
    requires Places(zoneOf, target, subsets, i, j, zone, e) && zone in zones
    requires CoversNormal(calls, Missing(wanted, Existing(zones, cloud)), Missing(Existing(zones, cloud), wanted))
    requires |ok| == |order| && multiset(order) == multiset(calls) && forall k :: 0 <= k < |ok| ==> ok[k]
    ensures var current := Existing(zones, Execute(order, ok, cloud));
            (Missing(wanted, current) == map[] && Missing(current, wanted) == map[]) <==> PlainTarget(target)
  {
    hide Canonical, Places, IsTarget, Execute;
    var after := Execute(order, ok, cloud);
    if PlainTarget(target) {
      TargetIsCanonical(zoneOf, target, subsets, wanted);
      ExistingCanonical(zones, cloud);
      MissingCanonical(wanted, Existing(zones, cloud));
      MissingCanonical(Existing(zones, cloud), wanted);
      CanonicalCovers(calls, Missing(wanted, Existing(zones, cloud)), Missing(Existing(zones, cloud), wanted));
      OnePassSettles(zones, wanted, cloud, calls, order, ok);
    } else {
      forall c | c in order ensures AllCanonical(c.endpoints) {
        assert multiset(order)[c] > 0 && c in calls;
        CallsCanonical(zoneOf, target, subsets, zones, wanted, cloud, calls, c);
      }
      ExecuteCanonical(order, ok, cloud);
      assert PlainSubset(subsets[i]) by { PlacesInRange(zoneOf, target, subsets); }
      OddNumberNeverSettles(zoneOf, target, subsets, zones, wanted, after, i, j, zone, e);
      assert zone in Missing(wanted, Existing(zones, after));
    }
  }

  /** The instance "080". */
  lemma {:induction false} OddEighty()
    ensures AtoiValue("080") == 80 && !PlainTarget("080") && PlainTarget("80") && PlainTarget("http")
  {
    assert Decimal(80) == "80";
    assert DecimalValue("0") == 0 && "08"[..1] == "0" && DecimalValue("08") == 8 && "080"[..2] == "08"
      && DecimalValue("080") == 80;
    assert DecimalValue("8") == 8 && "80"[..1] == "8" && DecimalValue("80") == 80;
    assert !IsDigit("http"[0]);
  }

  /** With one ready address behind port 80 and the target port "080", whatever the NEG holds, there is something to
      attach. */
  lemma {:induction false} NeverRestsAt080(zoneOf: ZoneOf, zones: set<string>, wanted: ZoneMap, cloud: ZoneMap)
    requires zoneOf("node") == Some("z") && MapCanonical(cloud)
    requires IsTarget(zoneOf, "080", [Subset([SubsetPort("web", 80)], [Address("10.0.0.1", "node")])], wanted)
    ensures "10.0.0.1||node||080" in In(wanted, "z") - In(Existing(zones, cloud), "z")
  {
    var s := Subset([SubsetPort("web", 80)], [Address("10.0.0.1", "node")]);
    OddEighty();
    hide AtoiValue, Canonical, IsTarget, Atoi, Itoa, PlainTarget, NoBar;
    assert Matches("080", s.ports[0]);
    assert FirstMatch("080", s.ports) == Some("080");
    var e := EncodeEndpoint("10.0.0.1", "node", "080");
    assert e == "10.0.0.1||node||080";
    assert Places(zoneOf, "080", [s], 0, 0, "z", e);
    assert NoBar("080") && NoBar("10.0.0.1") && NoBar("node") by { NoBars(); }
    OddNumberNeverSettles(zoneOf, "080", [s], zones, wanted, cloud, 0, 0, "z", e);
  }

  lemma {:induction false} NoBars()
    ensures NoBar("080") && NoBar("10.0.0.1") && NoBar("node")
  {
  }

  /** In a canonical encoding the port is in plain decimal. */
  lemma {:induction false} CanonicalPort(ip: string, node: string, port: string)
    requires NoBar(ip) && NoBar(node) && NoBar(port)
    ensures Canonical(EncodeEndpoint(ip, node, port)) ==> port == Itoa(AtoiValue(port))
  {
    hide Split, EncodeEndpoint, AtoiValue, Atoi, Itoa;
    if ne :| Encodable(ne) && EncodeEndpoint(ip, node, port) == Encoding(ne) {
      ItoaNoBar(ne.port);
      PartsOf(ip, node, port);
      PartsOf(ne.ip, ne.instance, Itoa(ne.port));
      AtoiItoa(ne.port);
      AtoiAgrees(port);
    }
  }

  lemma {:induction false} AtoiAgrees(s: string)
    ensures Atoi(s).Some? ==> AtoiValue(s) == Atoi(s).value
  {
  }

  lemma {:induction false} MatchIsTarget(target: string, ports: seq<SubsetPort>)
    requires AtoiValue(target) != 0 && FirstMatch(target, ports).Some?
    ensures FirstMatch(target, ports) == Some(target)
  {
    if !Matches(target, ports[0]) { MatchIsTarget(target, ports[1..]); }
  }
}
