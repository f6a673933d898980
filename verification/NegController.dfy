/** The NEG controller (pkg/networkendpointgroup/controller.go): from services and ingresses to the target ports that
    get a syncer. It reads port references as text, the load balancer controller as values; the two agree on every
    reference that is not a number written as a name. */
module NegController {
  import opened Text
  import opened Ingresses
  import opened Ports
  import N = NegSyncer
  import M = NegManager

  // ---------------------------------------------------------------- ingresses of a service

  predicate NamesService(ing: Ingress, name: string) {
    exists i :: 0 <= i < |BackendsOf(ing)| && BackendsOf(ing)[i].service == name
  }

  predicate Selects(ing: Ingress, svc: Service) { ing.namespace == svc.namespace && NamesService(ing, svc.name) }

  function Selected(ings: seq<Ingress>, svc: Service): (r: seq<Ingress>) {
    if ings == [] then []
    else Selected(ings[..|ings| - 1], svc) + if Selects(ings[|ings| - 1], svc) then [ings[|ings| - 1]] else []
  }

  lemma {:induction false} SelectedIff(ings: seq<Ingress>, svc: Service, ing: Ingress)
    ensures ing in Selected(ings, svc) <==> ing in ings && Selects(ing, svc)
  {
    if ings != [] {
      var n := |ings| - 1;
      SelectedIff(ings[..n], svc, ing);
      assert ing in ings <==> ing in ings[..n] || ing == ings[n] by { assert ings == ings[..n] + [ings[n]]; }
    }
  }

  /** One ingress of the loop: the default backend first, then every path of every HTTP rule. */
  method Mentions(ing: Ingress, name: string) returns (found: bool)
    ensures found <==> NamesService(ing, name)
  {
    ghost var head := if ing.backend.Some? then [ing.backend.value] else [];
    if ing.backend.Some? && ing.backend.value.service == name {
      assert BackendsOf(ing)[0] == ing.backend.value;
      return true;
    }
    for i := 0 to |ing.rules|
      invariant forall a, b :: 0 <= a < i && ing.rules[a].http.Some? && 0 <= b < |ing.rules[a].http.value| ==>
                  ing.rules[a].http.value[b].backend.service != name
    {
      if ing.rules[i].http.Some? {
        var paths := ing.rules[i].http.value;
        for j := 0 to |paths|
          invariant forall b :: 0 <= b < j ==> paths[b].backend.service != name
        {
          if paths[j].backend.service == name {
            PathInRules(ing.rules, i, j);
            assert paths[j].backend in BackendsOf(ing);
            return true;
          }
        }
      }
    }
    forall k | 0 <= k < |BackendsOf(ing)| ensures BackendsOf(ing)[k].service != name {
      if k >= |head| {
        var i, j := RuleBackendAt(ing.rules, k - |head|);
      }
    }
    return false;
  }

  method GetIngressServicesFromStore(store: seq<Ingress>, svc: Service) returns (ings: seq<Ingress>)
    ensures ings == Selected(store, svc)
  {
    ings := [];
    for i := 0 to |store|
      invariant ings == Selected(store[..i], svc)
    {
      assert store[..i + 1][..i] == store[..i];
      if store[i].namespace == svc.namespace {
        var found := Mentions(store[i], svc.name);
        if found {
          ings := ings + [store[i]];
        }
      }
    }
    assert store[..|store|] == store;
  }

  // ---------------------------------------------------------------- target ports

  /** A reference read as text: a number stands for the port, anything else for its name. */
  predicate TextRefers(text: string, p: SvcPort) {
    if Atoi(text).None? then text == p.name else Atoi(text).value == p.port
  }

  predicate HttpOnly(ing: Ingress) { forall i :: 0 <= i < |ing.rules| ==> ing.rules[i].http.Some? }

  /** The texts by which these ingresses refer to ports of the service. */
  ghost predicate RefText(ings: seq<Ingress>, name: string, text: string) {
    exists ing, be :: ing in ings && be in BackendsOf(ing) && be.service == name && be.port.Text() == text
  }

  ghost predicate Gathered(ings: seq<Ingress>, svc: Service, target: string) {
    exists p, text :: p in svc.ports && RefText(ings, svc.name, text) && TextRefers(text, p)
      && p.targetPort.Text() == target
  }

  function RefsIn(bes: seq<Backend>, name: string): (texts: set<string>) {
    set be | be in bes && be.service == name :: be.port.Text()
  }

  lemma {:induction false} RefsAppend(a: seq<Backend>, b: seq<Backend>, name: string)
    ensures RefsIn(a + b, name) == RefsIn(a, name) + RefsIn(b, name)
  {
  }

  lemma {:induction false} RefsNone(name: string)
    ensures RefsIn([], name) == {}
  {
  }

  /** The references of one path list, added to those known. */
  method PathRefs(paths: seq<Path>, name: string, known: set<string>) returns (texts: set<string>)
    ensures texts == known + RefsIn(PathBackends(paths), name)
  {
    texts := known;
    for j := 0 to |paths|
      invariant texts == known + RefsIn(PathBackends(paths)[..j], name)
    {
      assert PathBackends(paths)[..j + 1] == PathBackends(paths)[..j] + [paths[j].backend];
      RefsAppend(PathBackends(paths)[..j], [paths[j].backend], name);
      if paths[j].backend.service == name {
        texts := texts + {paths[j].backend.port.Text()};
      }
    }
    assert PathBackends(paths)[..|paths|] == PathBackends(paths);
  }

  /** The references of one ingress, added to those known; None is the nil dereference at a rule without HTTP. */
  method RuleRefs(ing: Ingress, name: string, known: set<string>) returns (texts: Option<set<string>>)
    ensures texts.Some? <==> HttpOnly(ing)
    ensures texts.Some? ==> texts.value == known + RefsIn(RuleBackends(ing.rules), name)
  {
    hide RefsIn, PathBackends;
    RefsNone(name);
    var refs := known;
    for i := 0 to |ing.rules|
      invariant refs == known + RefsIn(RuleBackends(ing.rules[..i]), name)
      invariant forall a :: 0 <= a < i ==> ing.rules[a].http.Some?
    {
      if ing.rules[i].http.None? {
        return None;
      }
      RuleBackendsSnoc(ing.rules, i);
      RefsAppend(RuleBackends(ing.rules[..i]), PathBackends(ing.rules[i].http.value), name);
      refs := PathRefs(ing.rules[i].http.value, name, refs);
    }
    assert ing.rules[..|ing.rules|] == ing.rules;
    return Some(refs);
  }

  ghost predicate RefsOf(ings: seq<Ingress>, n: nat, name: string, texts: set<string>, rules: bool) {
    forall t :: t in texts <==> RefsUpTo(ings, n, name, t, rules)
  }

  /** Some default backend, or some rule of the first `n` ingresses, refers to the service by this text. */
  ghost predicate RefsUpTo(ings: seq<Ingress>, n: nat, name: string, t: string, rules: bool) {
    || (exists i :: 0 <= i < |ings| && (rules || i < n) && DefaultRefers(ings[i], name, t))
    || (rules && exists i :: 0 <= i < |ings| && i < n && t in RefsIn(RuleBackends(ings[i].rules), name))
  }

  predicate DefaultRefers(ing: Ingress, name: string, t: string) {
    ing.backend.Some? && ing.backend.value.service == name && ing.backend.value.port.Text() == t
  }

  lemma {:induction false} AllRefs(ings: seq<Ingress>, name: string, t: string)
    ensures RefsUpTo(ings, |ings|, name, t, true) <==> RefText(ings, name, t)
  {
    if i :| 0 <= i < |ings| && DefaultRefers(ings[i], name, t) {
      assert ings[i].backend.value in BackendsOf(ings[i]);
    }
    if i :| 0 <= i < |ings| && t in RefsIn(RuleBackends(ings[i].rules), name) {
      var be :| be in RuleBackends(ings[i].rules) && be.service == name && be.port.Text() == t;
      assert be in BackendsOf(ings[i]);
    }
    if ing, be :| ing in ings && be in BackendsOf(ing) && be.service == name && be.port.Text() == t {
      var i :| 0 <= i < |ings| && ings[i] == ing;
      assert DefaultRefers(ing, name, t) || t in RefsIn(RuleBackends(ing.rules), name);
    }
  }

  /** The two loops over the ingresses. */
  method ServicePortTexts(ings: seq<Ingress>, name: string) returns (r: Option<set<string>>)
    ensures r.Some? <==> forall i :: 0 <= i < |ings| ==> HttpOnly(ings[i])
    ensures r.Some? ==> forall t :: t in r.value <==> RefText(ings, name, t)
  {
    hide RuleBackends;
    var texts: set<string> := {};
    for i := 0 to |ings|
      invariant RefsOf(ings, i, name, texts, false)
    {
      if ings[i].backend.Some? && ings[i].backend.value.service == name {
        texts := texts + {ings[i].backend.value.port.Text()};
      }
    }
    for i := 0 to |ings|
      invariant RefsOf(ings, i, name, texts, true)
      invariant forall a :: 0 <= a < i ==> HttpOnly(ings[a])
    {
      var more := RuleRefs(ings[i], name, texts);
      if more.None? {
        return None;
      }
      texts := more.value;
    }
    forall t { AllRefs(ings, name, t); }
    return Some(texts);
  }

  /** The target ports of the service that the ingresses refer to. None, a crash, exactly when one of these ingresses
      has a rule without HTTP. */
  method GatherTargetPorts(ings: seq<Ingress>, svc: Service) returns (r: Option<set<string>>)
    ensures r.Some? <==> forall i :: 0 <= i < |ings| ==> HttpOnly(ings[i])
    ensures r.Some? ==> forall t :: t in r.value <==> Gathered(ings, svc, t)
  {
    hide RefText, TextRefers, HttpOnly;
    var texts := ServicePortTexts(ings, svc.name);
    if texts.None? {
      return None;
    }
    var targets := TargetsOf(texts.value, svc.ports);
    forall t ensures t in targets <==> Gathered(ings, svc, t) {
      if p, text :| p in svc.ports && RefText(ings, svc.name, text) && TextRefers(text, p) && p.targetPort.Text() == t {
        assert TextsRefer(texts.value, p);
      }
    }
    return Some(targets);
  }

  ghost predicate TextsRefer(texts: set<string>, p: SvcPort) { exists text :: text in texts && TextRefers(text, p) }

  method TargetsOf(texts: set<string>, ports: seq<SvcPort>) returns (targets: set<string>)
    ensures forall t :: t in targets <==> exists p :: p in ports && TextsRefer(texts, p) && p.targetPort.Text() == t
  {
    hide TextsRefer;
    targets := {};
    for i := 0 to |ports|
      invariant forall t :: t in targets <==>
                  exists p :: p in ports[..i] && TextsRefer(texts, p) && p.targetPort.Text() == t
    {
      assert ports[..i + 1] == ports[..i] + [ports[i]];
      var found := AnyRefers(texts, ports[i]);
      if found {
        targets := targets + {ports[i].targetPort.Text()};
      }
    }
    assert ports[..|ports|] == ports;
  }

  method AnyRefers(texts: set<string>, p: SvcPort) returns (found: bool)
    ensures found <==> TextsRefer(texts, p)
  {
    var rest := texts;
    while rest != {}
      invariant rest <= texts && forall text :: text in texts - rest ==> !TextRefers(text, p)
    {
      var text :| text in rest;
      if TextRefers(text, p) {
        return true;
      }
      rest := rest - {text};
    }
    return false;
  }

  // ---------------------------------------------------------------- agreement with the load balancer controller

  /** A reference on which both controllers agree: a number, or a name that is not one. */
  predicate Plain(ref: PortRef) { ref.IntPort? || Atoi(ref.name).None? }

  predicate InRange(ref: PortRef) { ref.IntPort? ==> -MAX_INT64 - 1 <= ref.n <= MAX_INT64 }

  /** The textual reading and the typed one pick the same ports of every service exactly for plain references. */
  lemma {:induction false} AgreeIff(ref: PortRef)
    requires InRange(ref)
    ensures Plain(ref) <==> forall p: SvcPort :: TextRefers(ref.Text(), p) == Refers(ref, p)
  {
    if ref.IntPort? {
      AtoiItoa(ref.n);
    } else if !Plain(ref) {
      var n := Atoi(ref.name).value;
      var p := SvcPort(ref.name, n + 1, 0, ref);
      assert Refers(ref, p) && !TextRefers(ref.Text(), p);
    }
  }

  predicate WellKeyed(store: Store) {
    forall k :: k in store.services ==> store.services[k].namespace == k.0 && store.services[k].name == k.1
  }

  /** Every target port that the load balancer controller resolves for a service, from any ingress and any plain
      reference, is one the NEG controller gathers for it. */
  lemma {:induction false} ResolvedIsGathered(store: Store, ings: seq<Ingress>, ing: Ingress, be: Backend,
                                              p: ServicePort)
    requires WellKeyed(store) && ing in ings && be in BackendsOf(ing) && Resolve(store, ing.namespace, be) == Found(p)
    requires InRange(be.port) && Plain(be.port)
    ensures var svc := store.services[(p.namespace, p.service)];
            (p.namespace, p.service) in store.services && Gathered(Selected(ings, svc), svc, p.targetPort)
  {
    var svc := store.services[(ing.namespace, be.service)];
    var q := FirstPort(svc.ports, be.port).value;
    AgreeIff(be.port);
    assert TextRefers(be.port.Text(), q);
    var i :| 0 <= i < |BackendsOf(ing)| && BackendsOf(ing)[i] == be;
    assert Selects(ing, svc);
    SelectedIff(ings, svc, ing);
    assert RefText(Selected(ings, svc), svc.name, be.port.Text());
  }

  /** A port named "80" parts the two: the load balancer finds it, the NEG controller looks for the number. */
  lemma {:induction false} NumberAsNameIsMissed()
    ensures var p := SvcPort("80", 8080, 30000, IntPort(9000));
            var svc := Service("ns", "s", [p], Some(map[]), true);
            var ing := Ingress("ns", Some(Backend("s", NamedPort("80"))), []);
            var store := Store(map[("ns", "s") := svc], true);
            && Resolve(store, "ns", ing.backend.value).Found?
            && !Gathered(Selected([ing], svc), svc, Resolve(store, "ns", ing.backend.value).port.targetPort)
  {
    var p := SvcPort("80", 8080, 30000, IntPort(9000));
    var svc := Service("ns", "s", [p], Some(map[]), true);
    var ing := Ingress("ns", Some(Backend("s", NamedPort("80"))), []);
    assert Decimal(80) == "80";
    AtoiItoa(80);
    assert BackendsOf(ing) == [ing.backend.value];
    forall text | RefText(Selected([ing], svc), "s", text) ensures text == "80" {
      var i, be :| i in Selected([ing], svc) && be in BackendsOf(i) && be.service == "s" && be.port.Text() == text;
      SelectedIff([ing], svc, i);
    }
    assert FirstPort(svc.ports, NamedPort("80")) == Some(p);
  }

  /** An ingress that names the service in its default backend is selected whatever its rules are, and a rule without
      HTTP then crashes the gathering. */
  lemma {:induction false} RuleWithoutHttpCrashes(svc: Service)
    ensures var ing := Ingress(svc.namespace, Some(Backend(svc.name, IntPort(80))), [HostPaths("host", None)]);
            Selected([ing], svc) == [ing] && !HttpOnly(ing)
  {
    var ing := Ingress(svc.namespace, Some(Backend(svc.name, IntPort(80))), [HostPaths("host", None)]);
    assert BackendsOf(ing)[0] == ing.backend.value;
    assert Selects(ing, svc) && [ing][..0] == [];
    assert Selected([ing][..0], svc) == [];
    assert ing.rules[0].http.None?;
  }

  // ---------------------------------------------------------------- processService

  datatype Outcome = Ok | Err | Panic

  /** The load balancer controller links a backend service to the NEG of this target port of the service. */
  ghost predicate Links(store: Store, ing: Ingress, be: Backend, svc: N.ServiceKey, p: ServicePort) {
    && be in BackendsOf(ing) && Resolve(store, ing.namespace, be) == Found(p) && p.neg
    && InRange(be.port) && Plain(be.port) && N.ServiceKey(p.namespace, p.service) == svc
  }

  lemma {:induction false} LinkedIsGathered(store: Store, ings: seq<Ingress>, ing: Ingress, be: Backend,
                                            svc: N.ServiceKey, p: ServicePort)
    requires WellKeyed(store) && ing in ings && Links(store, ing, be, svc, p)
    ensures (svc.namespace, svc.name) in store.services
    ensures store.services[(svc.namespace, svc.name)].neg
    ensures var s := store.services[(svc.namespace, svc.name)]; Gathered(Selected(ings, s), s, p.targetPort)
  {
    ResolvedIsGathered(store, ings, ing, be, p);
  }

  /** Stops the syncers of a service that is gone or has no NEGs, else makes them match the gathered ports. The NEG
      that a backend service is linked to, for any ingress and plain reference, is then one that garbage collection
      spares. */
  method ProcessService(manager: M.SyncerManager, store: Store, ings: seq<Ingress>,
                        svc: N.ServiceKey) returns (out: Outcome)
    requires manager.Valid() && WellKeyed(store)
    modifies manager, manager.syncerMap.Values
    ensures manager.Valid()
    ensures var enabled := (svc.namespace, svc.name) in store.services && store.services[(svc.namespace, svc.name)].neg;
            && (!enabled ==> out == Ok && svc !in manager.svcPortMap
                             && manager.View() == M.StopAll(old(manager.View()), old(manager.WantedKeys(svc))))
            && (enabled ==> var s := store.services[(svc.namespace, svc.name)];
                  && (out == Panic <==> exists i :: 0 <= i < |Selected(ings, s)| && !HttpOnly(Selected(ings, s)[i]))
                  && (out == Panic ==> manager.svcPortMap == old(manager.svcPortMap)
                                       && manager.View() == old(manager.View()))
                  && (out != Panic ==>
                        && svc in manager.svcPortMap && (forall t :: t in manager.svcPortMap[svc] <==>
                           Gathered(Selected(ings, s), s, t))
                        && manager.View() == M.Ensure(old(manager.View()), old(manager.WantedKeys(svc)),
                           manager.WantedKeys(svc))))
    ensures manager.svcPortMap - {svc} == old(manager.svcPortMap) - {svc}
    // an error, and so another try, exactly when a start was refused
    ensures out == Err ==> M.AnyRefuses(old(manager.View()), manager.WantedKeys(svc) - old(manager.WantedKeys(svc)))
    ensures out == Ok && svc in manager.svcPortMap ==>
              !M.AnyRefuses(old(manager.View()), manager.WantedKeys(svc) - old(manager.WantedKeys(svc)))
    ensures out != Panic ==>
              forall ing, be, p :: ing in ings && Links(store, ing, be, svc, p) ==>
                manager.names.neg(N.ServicePort(p.namespace, p.service, p.targetPort)) in manager.WantedNames()
  {
    hide Gathered, Selected, HttpOnly, M.Ensure, M.StopAll, M.AnyRefuses;
    if (svc.namespace, svc.name) !in store.services {
      manager.StopSyncer(svc);
      return Ok;
    }
    var service := store.services[(svc.namespace, svc.name)];
    if !service.neg {
      manager.StopSyncer(svc);
      return Ok;
    }
    var selected := GetIngressServicesFromStore(ings, service);
    var ports := GatherTargetPorts(selected, service);
    if ports.None? {
      return Panic;
    }
    var err := manager.EnsureSyncers(svc, ports.value);
    forall ing, be, p | ing in ings && Links(store, ing, be, svc, p)
      ensures manager.names.neg(N.ServicePort(p.namespace, p.service, p.targetPort)) in manager.WantedNames() {
      LinkedIsGathered(store, ings, ing, be, svc, p);
    }
    return if err then Err else Ok;
  }
}
