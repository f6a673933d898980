/** The syncer manager of pkg/networkendpointgroup/manager.go, called by one goroutine at a time
    under its lock. NegSystem interleaves these operations with the workers. */
module NegManager {
  import opened NegSyncer
  import S = NegSystem

  type NegCloud = map<string, set<string>> // zone -> names of the NEGs in it
  type Views = map<ServicePort, State>     // the registered syncers' states

  function StopAll(m: Views, keys: set<ServicePort>): (r: Views) {
    map k | k in m :: if k in keys then m[k].Stopped() else m[k]
  }

  function SignalAll(m: Views, keys: set<ServicePort>): (r: Views) {
    map k | k in m :: if k in keys then m[k].Signalled() else m[k]
  }

  /** Get-or-create then start: a live syncer is left alone, a missing one is made. */
  function StartedOf(m: Views, k: ServicePort): (s: State) {
    if k !in m then Fresh.Started() else if m[k].Live() then m[k] else m[k].Started()
  }

  function StartAll(m: Views, keys: set<ServicePort>): (r: Views) {
    map k | k in m.Keys + keys :: if k in keys then StartedOf(m, k) else m[k]
  }

  /** The port's stopped syncer still has a worker on its way out. */
  predicate Refuses(m: Views, k: ServicePort) { k in m && m[k].stopped && m[k].shuttingDown }

  ghost predicate AnyRefuses(m: Views, keys: set<ServicePort>) { exists k :: k in keys && Refuses(m, k) }

  lemma {:induction false} StopOneMore(m: Views, done: set<ServicePort>, k: ServicePort)
    requires k !in done
    ensures var r := StopAll(m, done);
            StopAll(m, done + {k}) == if k in r then r[k := r[k].Stopped()] else r
  {
  }

  lemma {:induction false} SignalOneMore(m: Views, done: set<ServicePort>, k: ServicePort)
    requires k !in done
    ensures var r := SignalAll(m, done);
            SignalAll(m, done + {k}) == if k in r then r[k := r[k].Signalled()] else r
  {
  }

  /** One more key started after the others is the same as all of them started together. */
  lemma {:induction false} StartOneMore(m: Views, done: set<ServicePort>, k: ServicePort)
    requires k !in done
    ensures var r := StartAll(m, done);
            && r[k := StartedOf(r, k)] == StartAll(m, done + {k})
            && Refuses(r, k) == Refuses(m, k)
            && AnyRefuses(m, done + {k}) == (AnyRefuses(m, done) || Refuses(m, k))
  {
  }

  predicate Running(m: Views, k: ServicePort) { k in m && !m[k].stopped }

  /** What EnsureSyncers makes of the registered syncers when the wanted keys go from `had` to `wants`. */
  function Ensure(m: Views, had: set<ServicePort>, wants: set<ServicePort>): (r: Views) {
    StartAll(StopAll(m, had - wants), wants - had)
  }

  /** Every wanted port is running afterwards exactly when the kept ones were and no start was refused;
      the syncers given up are stopped and those of other services untouched. */
  lemma {:induction false} EnsureRunsIff(m: Views, had: set<ServicePort>, wants: set<ServicePort>)
    requires forall k :: k in m ==> m[k].Consistent()
    ensures var r := Ensure(m, had, wants);
            && ((forall k :: k in wants ==> Running(r, k)) <==>
                (forall k :: k in wants * had ==> Running(m, k)) && (forall k :: k in wants - had ==> !Refuses(m, k)))
            && (forall k :: k in had - wants ==> !Running(r, k))
            && (forall k :: k in m && k !in had + wants ==> k in r && r[k] == m[k])
            && (forall k :: k in r ==> r[k].Consistent())
  {
    var r := Ensure(m, had, wants);
    forall k | k in wants ensures Running(r, k) == if k in had then Running(m, k) else !Refuses(m, k) { }
  }

  lemma {:induction false} DifferenceOfKeys(svc: ServiceKey, a: set<string>, b: set<string>)
    ensures S.KeysOf(svc, a - b) == S.KeysOf(svc, a) - S.KeysOf(svc, b)
  {
    forall k: ServicePort ensures k in S.KeysOf(svc, a - b) <==> k in S.KeysOf(svc, a) - S.KeysOf(svc, b) {
      assert k.Service() == svc ==> k == ServicePort(svc.namespace, svc.name, k.targetPort);
    }
  }

  lemma {:induction false} StopKeepsRefusals(m: Views, stops: set<ServicePort>, starts: set<ServicePort>)
    requires stops !! starts
    ensures AnyRefuses(StopAll(m, stops), starts) == AnyRefuses(m, starts)
  {
    var r := StopAll(m, stops);
    forall k | k in starts ensures Refuses(r, k) == Refuses(m, k) { }
  }

  /** Asking again for the same ports never repairs a port whose start was refused. */
  lemma {:induction false} EnsureAgainDoesNothing(m: Views, had: set<ServicePort>)
    ensures Ensure(m, had, had) == m
  {
    assert had - had == {};
  }

  class SyncerManager {
    var svcPortMap: map<ServiceKey, set<string>>
    var syncerMap: map<ServicePort, Syncer>
    const names: S.Names

    ghost predicate Valid()
      reads this, syncerMap.Values
    {
      forall k :: k in syncerMap ==> syncerMap[k].key == k && syncerMap[k].Valid()
    }

    ghost function View(): (m: Views)
      reads this, syncerMap.Values
    {
      map k | k in syncerMap :: syncerMap[k].View()
    }

    function WantedKeys(svc: ServiceKey): (r: set<ServicePort>)
      reads this
    {
      S.KeysOf(svc, S.Ports(svcPortMap, svc))
    }

    constructor (names: S.Names)
      ensures Valid() && svcPortMap == map[] && syncerMap == map[] && this.names == names
    {
      this.names := names;
      svcPortMap := map[];
      syncerMap := map[];
    }

    /** Stops the syncers of `keys`, in whatever order, and touches no other. */
    method StopKeys(keys: set<ServicePort>)
      requires Valid()
      modifies syncerMap.Values
      ensures Valid() && View() == StopAll(old(View()), keys)
    {
      ghost var before, done := View(), {};
      var rest := keys;
      assert View() == StopAll(before, {});
      while rest != {}
        invariant Valid() && keys == done + rest && done !! rest && View() == StopAll(before, done)
      {
        var key :| key in rest;
        StopOneMore(before, done, key);
        if key in syncerMap {
          syncerMap[key].Stop();
        }
        rest, done := rest - {key}, done + {key};
      }
      assert done == keys;
    }

    /** Get or create the syncer of one port and start it if it is stopped. */
    method StartOne(key: ServicePort) returns (refused: bool)
      requires Valid()
      modifies this`syncerMap, syncerMap.Values
      ensures Valid() && View() == old(View())[key := StartedOf(old(View()), key)]
      ensures syncerMap.Keys == old(syncerMap.Keys) + {key}
      ensures forall k :: k in old(syncerMap) ==> syncerMap[k] == old(syncerMap[k])
      ensures key !in old(syncerMap) ==> fresh(syncerMap[key])
      ensures refused <==> Refuses(old(View()), key)
    {
      if key !in syncerMap {
        var syncer := new Syncer(key);
        syncerMap := syncerMap[key := syncer];
      }
      refused := false;
      if syncerMap[key].stopped {
        refused := syncerMap[key].Start();
      }
    }

    /** Starts the syncers of `keys`; an error for every one still shutting down. */
    method StartKeys(keys: set<ServicePort>) returns (err: bool)
      requires Valid()
      modifies this`syncerMap, syncerMap.Values
      ensures Valid() && View() == StartAll(old(View()), keys)
      ensures err <==> AnyRefuses(old(View()), keys)
    {
      ghost var before, done := View(), {};
      var rest := keys;
      err := false;
      assert View() == StartAll(before, {});
      while rest != {}
        invariant Valid() && keys == done + rest && done !! rest
        invariant View() == StartAll(before, done)
        invariant forall o :: o in syncerMap.Values ==> fresh(o) || o in old(syncerMap.Values)
        invariant err <==> AnyRefuses(before, done)
      {
        var key :| key in rest;
        StartOneMore(before, done, key);
        var refused := StartOne(key);
        err := err || refused;
        rest, done := rest - {key}, done + {key};
      }
      assert done == keys;
    }

    /** Records the wanted ports, stops the syncers of the ports given up, starts those of the ports added. */
    method EnsureSyncers(svc: ServiceKey, targetPorts: set<string>) returns (err: bool)
      requires Valid()
      modifies this, syncerMap.Values
      ensures Valid() && svcPortMap == old(svcPortMap)[svc := targetPorts]
      ensures View() == Ensure(old(View()), old(WantedKeys(svc)), WantedKeys(svc))
      ensures err <==> AnyRefuses(old(View()), WantedKeys(svc) - old(WantedKeys(svc)))
    {
      var currentPorts := S.Ports(svcPortMap, svc);
      svcPortMap := svcPortMap[svc := targetPorts];
      var removes, adds := S.KeysOf(svc, currentPorts - targetPorts), S.KeysOf(svc, targetPorts - currentPorts);
      DifferenceOfKeys(svc, currentPorts, targetPorts);
      DifferenceOfKeys(svc, targetPorts, currentPorts);
      ghost var before := View();
      assert before == old(View());
      StopKeys(removes);
      StopKeepsRefusals(before, removes, adds);
      err := StartKeys(adds);
    }

    method StopSyncer(svc: ServiceKey)
      requires Valid()
      modifies this`svcPortMap, syncerMap.Values
      ensures Valid() && svcPortMap == old(svcPortMap) - {svc}
      ensures View() == StopAll(old(View()), old(WantedKeys(svc)))
    {
      if svc in svcPortMap {
        StopKeys(S.KeysOf(svc, svcPortMap[svc]));
        svcPortMap := svcPortMap - {svc};
      }
    }

    /** Signals the running syncers of the service; each then holds a token. */
    method Sync(svc: ServiceKey)
      requires Valid()
      modifies syncerMap.Values
      ensures Valid() && View() == SignalAll(old(View()), WantedKeys(svc))
      ensures forall k :: k in WantedKeys(svc) && Running(View(), k) ==> View()[k].syncCh == Open(true)
    {
      ghost var before, done := View(), {};
      var rest := S.KeysOf(svc, S.Ports(svcPortMap, svc));
      assert View() == SignalAll(before, {});
      while rest != {}
        invariant Valid() && WantedKeys(svc) == done + rest && done !! rest && View() == SignalAll(before, done)
      {
        var key :| key in rest;
        SignalOneMore(before, done, key);
        if key in syncerMap && !syncerMap[key].stopped {
          var _ := syncerMap[key].Sync();
        }
        rest, done := rest - {key}, done + {key};
      }
      assert done == WantedKeys(svc);
    }

    method ShutDown()
      requires Valid()
      modifies syncerMap.Values
      ensures Valid() && View() == StopAll(old(View()), syncerMap.Keys)
    {
      StopKeys(syncerMap.Keys);
    }

    /** Forgets the syncers that were stopped at the listing and have no worker at their own turn;
        live ones always survive. */
    method CollectSyncers()
      requires Valid()
      modifies this`syncerMap
      ensures Valid()
      ensures forall k :: k in syncerMap <==> k in old(syncerMap) && old(syncerMap[k].View()).Live()
      ensures forall k :: k in syncerMap ==> syncerMap[k] == old(syncerMap[k])
    {
      var keys := set k | k in syncerMap && syncerMap[k].stopped;
      while keys != {}
        invariant Valid() && keys <= syncerMap.Keys
        invariant forall k :: k in keys ==> syncerMap[k].stopped
        invariant forall k :: k in syncerMap ==> k in old(syncerMap) && syncerMap[k] == old(syncerMap[k])
        invariant forall k :: k in old(syncerMap) && k !in keys ==>
                    (k in syncerMap <==> old(syncerMap[k].View()).Live())
      {
        var key :| key in keys;
        if syncerMap[key].stopped && !syncerMap[key].shuttingDown {
          syncerMap := syncerMap - {key};
        }
        keys := keys - {key};
      }
    }

    function WantedNames(): (r: set<string>)
      reads this
    {
      set svc, p | svc in svcPortMap && p in svcPortMap[svc] :: names.neg(ServicePort(svc.namespace, svc.name, p))
    }

    /** What the collector leaves in one zone: NEGs of others, and this cluster's wanted ones. */
    function Kept(negs: set<string>): (r: set<string>)
      reads this
    {
      set x | x in negs && (names.isNeg(x) ==> x in WantedNames())
    }

    /** With nobody interfering: without an error every zone keeps exactly the foreign and the wanted NEGs,
        and an error leaves every zone somewhere between that and where it was. */
    method CollectNegs(cloud: NegCloud) returns (after: NegCloud, err: bool)
      ensures after.Keys == cloud.Keys
      ensures forall zone :: zone in cloud ==> Kept(cloud[zone]) <= after[zone] <= cloud[zone]
      ensures !err ==> forall zone :: zone in cloud ==> after[zone] == Kept(cloud[zone])
    {
      var doomed := (set zone, x | zone in cloud && x in cloud[zone] && names.isNeg(x) :: x) - WantedNames();
      after := cloud;
      var zones := cloud.Keys;
      while zones != {}
        invariant after.Keys == cloud.Keys && zones <= cloud.Keys
        invariant forall zone :: zone in cloud ==>
                    after[zone] == if zone in zones then cloud[zone] else Kept(cloud[zone])
      {
        var zone :| zone in zones;
        var negs;
        negs, err := DeleteAll(after[zone], doomed);
        after := after[zone := negs];
        if err {
          return after, true;
        }
        assert negs == Kept(cloud[zone]);
        zones := zones - {zone};
      }
      return after, false;
    }

    /** Deletes the NEGs of `doomed` that exist; any deletion may fail and ends the pass. */
    method DeleteAll(negs: set<string>, doomed: set<string>) returns (left: set<string>, err: bool)
      ensures negs - doomed <= left <= negs
      ensures !err ==> left == negs - doomed
    {
      left := negs;
      var rest := doomed;
      while rest != {}
        invariant rest <= doomed && left == negs - (doomed - rest)
      {
        var x :| x in rest;
        if x in left {
          var fails: bool := *;
          if fails {
            return left, true;
          }
          left := left - {x};
        }
        rest := rest - {x};
      }
      return left, false;
    }
  }
}
