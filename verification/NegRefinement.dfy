/** The transition system and the manager class describe one program: with no worker in between, the steps that
    NegSystem takes under the lock add up to what the methods of NegManager promise. */
module NegRefinement {
  import opened Text
  import opened NegSyncer
  import opened NegSystem
  import M = NegManager

  /** The states of the registered syncers. */
  ghost function ViewOf(s: Sys): (m: M.Views) {
    map k | k in s.syncerMap && s.syncerMap[k] in s.objs :: s.objs[s.syncerMap[k]].st
  }

  ghost function Elements(order: seq<ServicePort>): (keys: set<ServicePort>) { set k | k in order }

  lemma {:induction false} StopKeyRefines(s: Sys, k: ServicePort)
    requires MapOk(s)
    ensures MapOk(StopKey(s, k)) && ViewOf(StopKey(s, k)) == M.StopAll(ViewOf(s), {k})
  {
  }

  lemma {:induction false} StartNewRefines(s: Sys, k: ServicePort)
    requires MapOk(s) && k !in s.syncerMap
    ensures MapOk(StartKey(s, k)) && ViewOf(StartKey(s, k)) == ViewOf(s)[k := Fresh.Started()]
  {
  }

  lemma {:induction false} StartOldRefines(s: Sys, k: ServicePort)
    requires MapOk(s) && k in s.syncerMap
    ensures MapOk(StartKey(s, k))
    ensures ViewOf(StartKey(s, k)) == var st := ViewOf(s)[k]; if st.Live() then ViewOf(s)
              else ViewOf(s)[k := st.Started()]
  {
  }

  lemma {:induction false} StartKeyRefines(s: Sys, k: ServicePort)
    requires MapOk(s)
    ensures MapOk(StartKey(s, k)) && ViewOf(StartKey(s, k)) == M.StartAll(ViewOf(s), {k})
    ensures StartRefused(s, k) == M.Refuses(ViewOf(s), k)
  {
    assert StartRefused(s, k) == M.Refuses(ViewOf(s), k) && (k in ViewOf(s) <==> k in s.syncerMap);
    hide StartKey, ViewOf, MapOk;
    if k in s.syncerMap { StartOldRefines(s, k); } else { StartNewRefines(s, k); }
  }

  lemma {:induction false} SignalKeyRefines(s: Sys, k: ServicePort)
    requires MapOk(s)
    ensures MapOk(SignalKey(s, k)) && ViewOf(SignalKey(s, k)) == M.SignalAll(ViewOf(s), {k})
  {
  }

  /** A garbage collection step removes a syncer exactly when the method does. */
  lemma {:induction false} CollectKeyRefines(s: Sys, k: ServicePort)
    requires MapOk(s) && k in s.syncerMap
    ensures ViewOf(CollectKey(s, k)) == if ViewOf(s)[k].Live() then ViewOf(s) else ViewOf(s) - {k}
  {
  }

  lemma {:induction false} StopAllTwice(m: M.Views, a: set<ServicePort>, b: set<ServicePort>)
    ensures M.StopAll(M.StopAll(m, a), b) == M.StopAll(m, a + b)
  {
  }

  lemma {:induction false} StartAllTwice(m: M.Views, a: set<ServicePort>, b: set<ServicePort>)
    ensures M.StartAll(M.StartAll(m, a), b) == M.StartAll(m, a + b)
    ensures forall k :: M.Refuses(M.StartAll(m, a), k) == M.Refuses(m, k)
  {
  }

  lemma {:induction false} SignalAllTwice(m: M.Views, a: set<ServicePort>, b: set<ServicePort>)
    ensures M.SignalAll(M.SignalAll(m, a), b) == M.SignalAll(m, a + b)
  {
  }

  /** All micro-steps of a job, one after the other. */
  function Settle(s: Sys, job: Job): (s': Sys)
    decreases |job.stops| + |job.starts| + |job.signals|
  {
    if job.Done() then s.(lock := Some(job))
    else if job.stops != [] then Settle(DoMicro(s, job), job.(stops := job.stops[1..]))
    else if job.starts != [] then
      Settle(DoMicro(s, job), job.(starts := job.starts[1..], failed := job.failed || StartRefused(s, job.starts[0])))
    else Settle(DoMicro(s, job), job.(signals := job.signals[1..]))
  }

  lemma {:induction false} ElementsHead(order: seq<ServicePort>)
    requires order != []
    ensures Elements(order) == {order[0]} + Elements(order[1..])
  {
    assert order == [order[0]] + order[1..];
  }

  lemma {:induction false} ViewIgnoresLock(s: Sys, lock: Option<Job>)
    ensures ViewOf(s.(lock := lock)) == ViewOf(s) && MapOk(s.(lock := lock)) == MapOk(s)
  {
  }

  lemma {:induction false} SettleStops(s: Sys, job: Job) returns (s': Sys)
    requires MapOk(s)
    ensures MapOk(s') && ViewOf(s') == M.StopAll(ViewOf(s), Elements(job.stops))
    ensures s'.svcPortMap == s.svcPortMap && Settle(s, job) == Settle(s', job.(stops := []))
    decreases |job.stops|
  {
    if job.stops == [] {
      s' := s;
      assert M.StopAll(ViewOf(s), {}) == ViewOf(s);
    } else {
      hide M.StopAll, ViewOf, MapOk;
      var k, rest := job.stops[0], job.(stops := job.stops[1..]);
      StopKeyRefines(s, k);
      ViewIgnoresLock(StopKey(s, k), Some(rest));
      var s1 := DoMicro(s, job);
      s' := SettleStops(s1, rest);
      ElementsHead(job.stops);
      StopAllTwice(ViewOf(s), {k}, Elements(rest.stops));
    }
  }

  lemma {:induction false} SettleStarts(s: Sys, job: Job) returns (s': Sys, failed: bool)
    requires MapOk(s) && job.stops == []
    ensures MapOk(s') && ViewOf(s') == M.StartAll(ViewOf(s), Elements(job.starts))
    ensures failed <==> job.failed || M.AnyRefuses(ViewOf(s), Elements(job.starts))
    ensures s'.svcPortMap == s.svcPortMap && Settle(s, job) == Settle(s', job.(starts := [], failed := failed))
    decreases |job.starts|
  {
    if job.starts == [] {
      s', failed := s, job.failed;
      assert M.StartAll(ViewOf(s), {}) == ViewOf(s);
    } else {
      hide M.StartAll, ViewOf, MapOk, M.Refuses, StartRefused, StartKey;
      var k, rest := job.starts[0], job.(starts := job.starts[1..], failed := job.failed
        || StartRefused(s, job.starts[0]));
      StartKeyRefines(s, k);
      KeepsPorts(s, k);
      ViewIgnoresLock(StartKey(s, k), Some(rest));
      var s1 := DoMicro(s, job);
      s', failed := SettleStarts(s1, rest);
      ElementsHead(job.starts);
      StartAllTwice(ViewOf(s), {k}, Elements(rest.starts));
    }
  }

  lemma {:induction false} KeepsPorts(s: Sys, k: ServicePort)
    ensures StartKey(s, k).svcPortMap == s.svcPortMap && SignalKey(s, k).svcPortMap == s.svcPortMap
  {
  }

  lemma {:induction false} SettleSignals(s: Sys, job: Job) returns (s': Sys)
    requires MapOk(s) && job.stops == [] && job.starts == []
    ensures MapOk(s') && ViewOf(s') == M.SignalAll(ViewOf(s), Elements(job.signals))
    ensures s'.svcPortMap == s.svcPortMap && Settle(s, job) == Settle(s', job.(signals := []))
    decreases |job.signals|
  {
    if job.signals == [] {
      s' := s;
      assert M.SignalAll(ViewOf(s), {}) == ViewOf(s);
    } else {
      hide M.SignalAll, ViewOf, MapOk, SignalKey;
      var k, rest := job.signals[0], job.(signals := job.signals[1..]);
      SignalKeyRefines(s, k);
      KeepsPorts(s, k);
      ViewIgnoresLock(SignalKey(s, k), Some(rest));
      var s1 := DoMicro(s, job);
      s' := SettleSignals(s1, rest);
      ElementsHead(job.signals);
      SignalAllTwice(ViewOf(s), {k}, Elements(rest.signals));
    }
  }

  /** EnsureSyncers: for every order of stops and starts, the same syncers end up in the same states as the method
      says, with the same error. */
  lemma {:induction false} EnsureRefines(s: Sys, svc: ServiceKey, ports: set<string>, stops: seq<ServicePort>,
                                         starts: seq<ServicePort>)
    requires MapOk(s) && CanLock(s, EnsureSyncers(svc, ports, stops, starts))
    ensures var s1 := DoLock(s, EnsureSyncers(svc, ports, stops, starts));
            var s2 := Settle(s1, s1.lock.value);
            var had, wants := KeysOf(svc, Ports(s.svcPortMap, svc)), KeysOf(svc, ports);
            && ViewOf(s2) == M.Ensure(ViewOf(s), had, wants)
            && s2.lock.Some? && (s2.lock.value.failed <==> M.AnyRefuses(ViewOf(s), wants - had))
            && s2.svcPortMap == s.svcPortMap[svc := ports]
  {
    var s1 := DoLock(s, EnsureSyncers(svc, ports, stops, starts));
    var job := s1.lock.value;
    var had, wants := KeysOf(svc, Ports(s.svcPortMap, svc)), KeysOf(svc, ports);
    M.DifferenceOfKeys(svc, Ports(s.svcPortMap, svc), ports);
    M.DifferenceOfKeys(svc, ports, Ports(s.svcPortMap, svc));
    assert Elements(stops) == had - wants && Elements(starts) == wants - had;
    assert ViewOf(s1) == ViewOf(s) && MapOk(s1);
    hide ViewOf, MapOk, M.StopAll, M.StartAll, M.Refuses, DoMicro, KeysOf, Enumerates, KeptRunning;
    var s2 := SettleStops(s1, job);
    var s3, failed := SettleStarts(s2, job.(stops := []));
    M.StopKeepsRefusals(ViewOf(s), had - wants, wants - had);
    ViewIgnoresLock(s3, Some(job.(stops := [], starts := [], failed := failed)));
  }

  /** StopSyncer: the states the method promises, and when the lock is released the ports are forgotten. */
  lemma {:induction false} StopRefines(s: Sys, svc: ServiceKey, order: seq<ServicePort>)
    requires MapOk(s) && CanLock(s, StopSyncer(svc, order))
    ensures var s1 := DoLock(s, StopSyncer(svc, order)); var s2 := Settle(s1, s1.lock.value);
            && ViewOf(s2) == M.StopAll(ViewOf(s), KeysOf(svc, Ports(s.svcPortMap, svc)))
            && CanLock(s2, Release) && var s3 := DoLock(s2, Release);
                                       s3.svcPortMap == s.svcPortMap - {svc} && ViewOf(s3) == ViewOf(s2)
                                         && s3.lock.None?
  {
    var s1 := DoLock(s, StopSyncer(svc, order));
    var job := s1.lock.value;
    assert Elements(order) == KeysOf(svc, Ports(s.svcPortMap, svc));
    assert ViewOf(s1) == ViewOf(s) && MapOk(s1);
    hide ViewOf, MapOk, M.StopAll, DoMicro, KeysOf, Enumerates;
    var s2 := SettleStops(s1, job);
    ViewIgnoresLock(s2, Some(job.(stops := [])));
    var s3 := Settle(s1, job);
    ViewIgnoresPorts(s3, DoLock(s3, Release));
  }

  lemma {:induction false} ViewIgnoresPorts(s: Sys, s': Sys)
    requires s'.syncerMap == s.syncerMap && s'.objs == s.objs
    ensures ViewOf(s') == ViewOf(s)
  {
  }

  lemma {:induction false} ShutDownRefines(s: Sys, order: seq<ServicePort>)
    requires MapOk(s) && CanLock(s, ShutDown(order))
    ensures var s1 := DoLock(s, ShutDown(order)); var s2 := Settle(s1, s1.lock.value);
            ViewOf(s2) == M.StopAll(ViewOf(s), s.syncerMap.Keys) && s2.svcPortMap == s.svcPortMap
  {
    var s1 := DoLock(s, ShutDown(order));
    var job := s1.lock.value;
    assert Elements(order) == s.syncerMap.Keys;
    assert ViewOf(s1) == ViewOf(s) && MapOk(s1);
    hide ViewOf, MapOk, M.StopAll, DoMicro, Enumerates;
    var s2 := SettleStops(s1, job);
    ViewIgnoresLock(s2, Some(job.(stops := [])));
  }

  lemma {:induction false} SyncRefines(s: Sys, svc: ServiceKey, order: seq<ServicePort>)
    requires MapOk(s) && CanLock(s, Sync(svc, order))
    ensures var s1 := DoLock(s, Sync(svc, order));
            ViewOf(Settle(s1, s1.lock.value)) == M.SignalAll(ViewOf(s), KeysOf(svc, Ports(s.svcPortMap, svc)))
  {
    var s1 := DoLock(s, Sync(svc, order));
    var job := s1.lock.value;
    assert Elements(order) == KeysOf(svc, Ports(s.svcPortMap, svc));
    assert ViewOf(s1) == ViewOf(s) && MapOk(s1);
    hide ViewOf, MapOk, M.SignalAll, DoMicro, KeysOf, Enumerates;
    var s2 := SettleSignals(s1, job);
    ViewIgnoresLock(s2, Some(job.(signals := [])));
  }
}
