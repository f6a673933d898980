/** The NEG syncer manager, its syncers, their worker goroutines and the garbage collector as one
    transition system. The manager's lock serialises its operations, one micro-step per syncer touched;
    worker steps interleave with those micro-steps freely, and the collector holds the lock only
    where the source does. */
module NegSystem {
  import opened Text
  import opened NegSyncer

  /** Where a worker goroutine stands in its loop. */
  datatype Pc =
    | Woken                 // between the select (or Start) and the next pass
    | InPass(skipped: bool) // inside sync(); skipped when it saw stopped or shuttingDown
    | Waiting(armed: bool)  // in the select, with or without a retry timer
    | Leaving               // saw the channel closed, shuttingDown not yet cleared

  /** A syncer object on the heap with the goroutines started on it. `pending` records that Sync was
      called on it while running and no pass has begun since. */
  datatype Obj = Obj(key: ServicePort, st: State, runners: seq<Pc>, pending: bool)

  /** What the holder of the manager's lock still has to do, and on whose behalf. */
  datatype Job = Job(stops: seq<ServicePort>, starts: seq<ServicePort>, signals: seq<ServicePort>,
                     drop: Option<ServiceKey>, ensured: Option<ServiceKey>, keptRunning: bool, failed: bool) {
    predicate Done() { stops == [] && starts == [] && signals == [] }
  }

  datatype Gc =
    | Idle
    | Collecting(keys: seq<ServicePort>)
    | Listed(names: set<string>, zones: set<string>)
    | Deleting(doomed: set<(string, string)>)

  datatype Sys = Sys(
    svcPortMap: map<ServiceKey, set<string>>,
    syncerMap: map<ServicePort, nat>,
    objs: map<nat, Obj>,
    next: nat,
    lock: Option<Job>,
    gc: Gc,
    negs: set<(string, string)>, // (name, zone) of the NEGs in the cloud
    panicked: bool)

  /** The namer: the NEG name of a service port and the ownership test. */
  datatype Names = Names(neg: ServicePort -> string, isNeg: string -> bool)

  datatype Action = Begin | End(ok: bool) | Receive | RetryFires | Leave | CreateNeg(zone: string)
    | DeleteNeg(zone: string)

  /** Operations under the manager's lock: taking it, one syncer at a time, letting go. */
  datatype LockOp =
    | EnsureSyncers(svc: ServiceKey, ports: set<string>, stops: seq<ServicePort>, starts: seq<ServicePort>)
    | StopSyncer(svc: ServiceKey, order: seq<ServicePort>)
    | Sync(svc: ServiceKey, order: seq<ServicePort>)
    | ShutDown(order: seq<ServicePort>)
    | Micro
    | Release

  /** The phases of GC. */
  datatype GcOp =
    | StoppedKeys(keys: seq<ServicePort>)
    | CollectSyncer
    | ListNegs
    | Subtract
    | DeleteOne(target: (string, string), deleted: bool)
    | Finish // all done, or an error cut the loop short

  datatype Step = Lock(op: LockOp) | Collect(phase: GcOp) | Work(id: nat, runner: nat, action: Action)

  // ---------------------------------------------------------------- helpers

  function Ports(m: map<ServiceKey, set<string>>, svc: ServiceKey): (r: set<string>) {
    if svc in m then m[svc] else {}
  }

  predicate Wanted(m: map<ServiceKey, set<string>>, k: ServicePort) {
    k.targetPort in Ports(m, k.Service())
  }

  function KeysOf(svc: ServiceKey, ports: set<string>): (r: set<ServicePort>) {
    set p | p in ports :: ServicePort(svc.namespace, svc.name, p)
  }

  /** `order` lists exactly the elements of `s`, each once. */
  ghost predicate Enumerates(order: seq<ServicePort>, s: set<ServicePort>) {
    && (forall k :: k in order <==> k in s)
    && Distinct(order)
  }

  ghost predicate Distinct(order: seq<ServicePort>) {
    forall i, j :: 0 <= i < j < |order| ==> order[i] != order[j]
  }

  /** Every wanted port of the service has a syncer that is not stopped. */
  ghost predicate AllRunning(s: Sys, svc: ServiceKey) {
    forall k | k in KeysOf(svc, Ports(s.svcPortMap, svc)) :: Running(s, k)
  }

  /** Of the ports that are wanted before and after, all are running already. */
  ghost predicate KeptRunning(s: Sys, svc: ServiceKey, ports: set<string>) {
    forall k | k in KeysOf(svc, Ports(s.svcPortMap, svc) * ports) :: Running(s, k)
  }

  predicate Running(s: Sys, k: ServicePort) {
    k in s.syncerMap && s.syncerMap[k] in s.objs && !s.objs[s.syncerMap[k]].st.stopped
  }

  ghost function WantedNames(n: Names, m: map<ServiceKey, set<string>>): (r: iset<string>) {
    iset k: ServicePort | Wanted(m, k) :: n.neg(k)
  }

  // ---------------------------------------------------------------- one syncer touched under the lock

  function StopKey(s: Sys, k: ServicePort): (s': Sys) {
    if k !in s.syncerMap then s
    else if s.syncerMap[k] !in s.objs then s.(panicked := true)
    else
      var o := s.objs[s.syncerMap[k]];
      s.(objs := s.objs[s.syncerMap[k] := o.(st := o.st.Stopped())], panicked := s.panicked || o.st.StopPanics())
  }

  /** Get or create the syncer, then Start it if it is stopped. */
  function StartKey(s: Sys, k: ServicePort): (s': Sys) {
    if k !in s.syncerMap then
      s.(syncerMap := s.syncerMap[k := s.next], next := s.next + 1,
         objs := s.objs[s.next := Obj(k, Fresh.Started(), [Woken], false)])
    else if s.syncerMap[k] !in s.objs then s.(panicked := true)
    else
      var o := s.objs[s.syncerMap[k]];
      if o.st.Live() then s
      else
        var started := o.(st := o.st.Started(), runners := o.runners + [Woken], pending := false);
        s.(objs := s.objs[s.syncerMap[k] := started])
  }

  predicate StartRefused(s: Sys, k: ServicePort) {
    && k in s.syncerMap && s.syncerMap[k] in s.objs
    && s.objs[s.syncerMap[k]].st.stopped && s.objs[s.syncerMap[k]].st.shuttingDown
  }

  function SignalKey(s: Sys, k: ServicePort): (s': Sys) {
    if k !in s.syncerMap then s
    else if s.syncerMap[k] !in s.objs then s.(panicked := true)
    else
      var o := s.objs[s.syncerMap[k]];
      if o.st.stopped then s
      else s.(objs := s.objs[s.syncerMap[k] := o.(st := o.st.Signalled(), pending := true)],
              panicked := s.panicked || o.st.SyncPanics())
  }

  function DoMicro(s: Sys, job: Job): (s': Sys) {
    if job.stops != [] then
      StopKey(s, job.stops[0]).(lock := Some(job.(stops := job.stops[1..])))
    else if job.starts != [] then
      StartKey(s, job.starts[0]).(lock := Some(job.(starts := job.starts[1..],
                                                    failed := job.failed || StartRefused(s, job.starts[0]))))
    else if job.signals != [] then
      SignalKey(s, job.signals[0]).(lock := Some(job.(signals := job.signals[1..])))
    else s
  }

  // ---------------------------------------------------------------- one worker step

  predicate CanAct(o: Obj, i: nat, a: Action) {
    && i < |o.runners|
    && match a
       case Begin => o.runners[i] == Woken
       case End(ok) => o.runners[i].InPass? && (o.runners[i].skipped ==> ok)
       case Receive => o.runners[i].Waiting? && (o.st.syncCh.Closed? || o.st.syncCh == Open(true))
       case RetryFires => o.runners[i] == Waiting(true)
       case Leave => o.runners[i] == Leaving
       case CreateNeg(_) => o.runners[i] == InPass(false)
       case DeleteNeg(_) => o.runners[i] == InPass(false)
  }

  function Act(o: Obj, i: nat, a: Action): (o': Obj)
    requires CanAct(o, i, a)
    ensures o'.key == o.key
  {
    match a
    case Begin =>
      o.(runners := o.runners[i := InPass(o.st.stopped || o.st.shuttingDown)], pending := false)
    case End(ok) =>
      if ok then o.(st := o.st.Reset(), runners := o.runners[i := Waiting(false)])
      else if o.st.retryCount > MAX_RETRIES then o.(runners := o.runners[i := Waiting(false)])
      else o.(st := o.st.Retrying(), runners := o.runners[i := Waiting(true)])
    case Receive =>
      // a buffered token is delivered before the close is seen
      if o.st.syncCh == Closed(false) then o.(runners := o.runners[i := Leaving])
      else o.(st := o.st.(syncCh := if o.st.syncCh.Open? then Open(false) else Closed(false)),
              runners := o.runners[i := Woken])
    case RetryFires => o.(runners := o.runners[i := Woken])
    case Leave => o.(st := o.st.(shuttingDown := false), runners := o.runners[..i] + o.runners[i + 1..])
    case CreateNeg(_) => o
    case DeleteNeg(_) => o
  }

  // ---------------------------------------------------------------- the whole system

  ghost predicate Init(s: Sys) {
    s.svcPortMap == map[] && s.syncerMap == map[] && s.objs == map[] && s.lock == None && s.gc == Idle && !s.panicked
  }

  ghost predicate CanLock(s: Sys, op: LockOp) {
    match op
    case EnsureSyncers(svc, ports, stops, starts) =>
      && s.lock.None?
      && Enumerates(stops, KeysOf(svc, Ports(s.svcPortMap, svc) - ports))
      && Enumerates(starts, KeysOf(svc, ports - Ports(s.svcPortMap, svc)))
    case StopSyncer(svc, order) => s.lock.None? && Enumerates(order, KeysOf(svc, Ports(s.svcPortMap, svc)))
    case Sync(svc, order) => s.lock.None? && Enumerates(order, KeysOf(svc, Ports(s.svcPortMap, svc)))
    case ShutDown(order) => s.lock.None? && Enumerates(order, s.syncerMap.Keys)
    case Micro => s.lock.Some? && !s.lock.value.Done()
    case Release => s.lock.Some? && s.lock.value.Done()
  }

  ghost function DoLock(s: Sys, op: LockOp): (s': Sys)
    requires CanLock(s, op)
  {
    match op
    case EnsureSyncers(svc, ports, stops, starts) =>
      s.(svcPortMap := s.svcPortMap[svc := ports],
         lock := Some(Job(stops, starts, [], None, Some(svc), KeptRunning(s, svc, ports), false)))
    case StopSyncer(svc, order) => s.(lock := Some(Job(order, [], [], Some(svc), None, false, false)))
    case Sync(svc, order) => s.(lock := Some(Job([], [], order, None, None, false, false)))
    case ShutDown(order) => s.(lock := Some(Job(order, [], [], None, None, false, false)))
    case Micro => DoMicro(s, s.lock.value)
    case Release =>
      var drop := s.lock.value.drop;
      s.(lock := None, svcPortMap := if drop.Some? then s.svcPortMap - {drop.value} else s.svcPortMap)
  }

  ghost predicate CanCollect(s: Sys, phase: GcOp) {
    match phase
    case StoppedKeys(keys) =>
      && s.lock.None? && s.gc.Idle?
      && Enumerates(keys, set k | k in s.syncerMap && s.syncerMap[k] in s.objs && s.objs[s.syncerMap[k]].st.stopped)
    case CollectSyncer => s.lock.None? && s.gc.Collecting? && s.gc.keys != []
    case ListNegs => s.gc.Collecting? && s.gc.keys == []
    case Subtract => s.lock.None? && s.gc.Listed?
    case DeleteOne(target, deleted) => s.gc.Deleting? && target in s.gc.doomed && (deleted ==> target in s.negs)
    case Finish => s.gc.Deleting?
  }

  ghost function DoCollect(n: Names, s: Sys, phase: GcOp): (s': Sys)
    requires CanCollect(s, phase)
  {
    match phase
    case StoppedKeys(keys) => s.(gc := Collecting(keys))
    case CollectSyncer => CollectKey(s, s.gc.keys[0]).(gc := Collecting(s.gc.keys[1..]))
    case ListNegs =>
      s.(gc := Listed(set t | t in s.negs && n.isNeg(t.0) :: t.0, set t | t in s.negs :: t.1))
    case Subtract =>
      s.(gc := Deleting(set name, zone | name in s.gc.names && zone in s.gc.zones &&
                                         name !in WantedNames(n, s.svcPortMap) :: (name, zone)))
    case DeleteOne(target, deleted) =>
      s.(gc := Deleting(s.gc.doomed - {target}), negs := if deleted then s.negs - {target} else s.negs)
    case Finish => s.(gc := Idle)
  }

  /** `garbageCollectSyncer`: looking up a key that is gone would call a method on a nil interface. */
  function CollectKey(s: Sys, k: ServicePort): (s': Sys) {
    if k !in s.syncerMap || s.syncerMap[k] !in s.objs then s.(panicked := true)
    else if s.objs[s.syncerMap[k]].st.Live() then s
    else s.(syncerMap := s.syncerMap - {k})
  }

  function DoWork(n: Names, s: Sys, id: nat, runner: nat, action: Action): (s': Sys)
    requires id in s.objs && CanAct(s.objs[id], runner, action)
  {
    var o := s.objs[id];
    s.(objs := s.objs[id := Act(o, runner, action)],
       negs := if action.CreateNeg? then s.negs + {(n.neg(o.key), action.zone)}
               else if action.DeleteNeg? then s.negs - {(n.neg(o.key), action.zone)} else s.negs)
  }

  ghost predicate Enabled(s: Sys, step: Step) {
    match step
    case Lock(op) => CanLock(s, op)
    case Collect(phase) => CanCollect(s, phase)
    case Work(id, runner, action) => id in s.objs && CanAct(s.objs[id], runner, action)
  }

  ghost function Do(n: Names, s: Sys, step: Step): (s': Sys)
    requires Enabled(s, step)
  {
    match step
    case Lock(op) => DoLock(s, op)
    case Collect(phase) => DoCollect(n, s, phase)
    case Work(id, runner, action) => DoWork(n, s, id, runner, action)
  }

  ghost predicate IsRun(n: Names, states: seq<Sys>, steps: seq<Step>) {
    && |states| == |steps| + 1 && Init(states[0])
    && forall i {:trigger steps[i]} :: 0 <= i < |steps| ==>
       Enabled(states[i], steps[i]) && states[i + 1] == Do(n, states[i], steps[i])
  }

  // ---------------------------------------------------------------- the inductive invariant

  predicate Full(c: Channel) { !c.NilChannel? && c.full }

  predicate RunnerOk(o: Obj, pc: Pc) {
    && (pc == Leaving ==> o.st.shuttingDown && o.st.syncCh == Closed(false))
    && (o.pending ==> Full(o.st.syncCh) || pc == Woken)
  }

  /** One syncer: exactly one goroutine while live, none otherwise; no wakeup lost; backoff on its closed form. */
  predicate ObjOk(o: Obj) {
    && o.st.Consistent() && o.st.BackoffKept()
    && |o.runners| == (if o.st.Live() then 1 else 0)
    && (if o.runners == [] then !o.pending else RunnerOk(o, o.runners[0]))
  }

  function PendingStops(s: Sys): (r: seq<ServicePort>) {
    if s.lock.Some? then s.lock.value.stops else []
  }

  ghost predicate ObjIn(s: Sys, id: nat, o: Obj) {
    && ObjOk(o)
    && (o.st.Live() ==> o.key in s.syncerMap && s.syncerMap[o.key] == id)
    && (!o.st.stopped ==> Wanted(s.svcPortMap, o.key) || o.key in PendingStops(s))
    && (!o.st.stopped && s.lock.Some? && s.lock.value.drop == Some(o.key.Service()) ==> o.key in s.lock.value.stops)
  }

  ghost predicate MapOk(s: Sys) {
    && (forall k :: k in s.syncerMap ==> s.syncerMap[k] in s.objs && s.objs[s.syncerMap[k]].key == k)
    && (forall id :: id in s.objs ==> id < s.next)
  }

  ghost predicate JobOk(s: Sys, job: Job) {
    && (forall k :: k in job.starts ==> Wanted(s.svcPortMap, k))
    && Distinct(job.starts)
    && (job.drop.Some? ==> job.starts == [] && job.ensured.None?)
    && (job.ensured.None? ==> job.starts == [])
    && (forall k :: k in job.starts ==> k.Service() == job.ensured.value)
    && (job.ensured.Some? ==> EnsureOk(s, job, KeysOf(job.ensured.value, Ports(s.svcPortMap, job.ensured.value))))
  }

  /** Progress of EnsureSyncers: either every wanted port runs or is still to be started, or one is lost. */
  ghost predicate EnsureOk(s: Sys, job: Job, wanted: set<ServicePort>) {
    && (job.keptRunning && !job.failed ==>
        forall k | k in wanted :: (Running(s, k) || k in job.starts) && k !in job.stops)
    && (!job.keptRunning || job.failed ==> exists k :: k in wanted && !Running(s, k) && k !in job.starts)
  }

  ghost predicate GcOk(s: Sys) {
    s.gc.Collecting? ==> Distinct(s.gc.keys) && forall k :: k in s.gc.keys ==> k in s.syncerMap
  }

  ghost predicate Inv(s: Sys) {
    && !s.panicked
    && MapOk(s)
    && (forall id :: id in s.objs ==> ObjIn(s, id, s.objs[id]))
    && (s.lock.Some? ==> JobOk(s, s.lock.value))
    && GcOk(s)
  }

  lemma {:induction false} ActKeepsObj(o: Obj, i: nat, a: Action)
    requires ObjOk(o) && CanAct(o, i, a)
    ensures ObjOk(Act(o, i, a))
    ensures Act(o, i, a).st.stopped == o.st.stopped
    ensures Act(o, i, a).st.Live() ==> o.st.Live()
  {
    if a == End(false) && o.st.retryCount <= MAX_RETRIES {
      RetryFollowsBackoff(o.st);
    }
  }

  lemma {:induction false} WorkerKeepsInv(n: Names, s: Sys, id: nat, i: nat, a: Action)
    requires Inv(s) && id in s.objs && CanAct(s.objs[id], i, a)
    ensures Inv(DoWork(n, s, id, i, a))
  {
    ActKeepsObj(s.objs[id], i, a);
    var s' := DoWork(n, s, id, i, a);
    forall x | x in s'.objs ensures ObjIn(s', x, s'.objs[x]) {
      assert ObjIn(s, x, s.objs[x]);
    }
    forall k ensures Running(s', k) == Running(s, k) { }
  }

  lemma {:induction false} StopKeepsObj(o: Obj)
    requires ObjOk(o)
    ensures var o' := o.(st := o.st.Stopped());
            ObjOk(o') && o'.st.stopped && o'.st.Live() == o.st.Live() && !o.st.StopPanics()
  {
  }

  lemma {:induction false} StartKeepsObj(o: Obj)
    requires ObjOk(o) && !o.st.Live()
    ensures ObjOk(o.(st := o.st.Started(), runners := o.runners + [Woken], pending := false))
  {
    assert o.runners == [];
  }

  lemma {:induction false} NewObj(k: ServicePort)
    ensures ObjOk(Obj(k, Fresh.Started(), [Woken], false))
  {
  }

  lemma {:induction false} StopKeepsOthers(s: Sys, job: Job, id: nat)
    requires Inv(s) && s.lock == Some(job) && job.stops != []
    requires id in s.objs && s.objs[id].key != job.stops[0]
    ensures var s' := DoMicro(s, job); s'.objs[id] == s.objs[id] && ObjIn(s', id, s'.objs[id])
  {
    var k := job.stops[0];
    assert job.stops == [k] + job.stops[1..];
    assert ObjIn(s, id, s.objs[id]);
  }

  lemma {:induction false} StopKeepsMap(s: Sys, job: Job)
    requires Inv(s) && s.lock == Some(job) && job.stops != []
    ensures var s' := DoMicro(s, job); !s'.panicked && MapOk(s') && s'.objs.Keys == s.objs.Keys
  {
    var k := job.stops[0];
    if k in s.syncerMap {
      assert ObjIn(s, s.syncerMap[k], s.objs[s.syncerMap[k]]);
      StopKeepsObj(s.objs[s.syncerMap[k]]);
    }
    hide ObjOk, ObjIn;
  }

  lemma {:induction false} StopKeepsObjs(s: Sys, job: Job)
    requires Inv(s) && s.lock == Some(job) && job.stops != []
    ensures var s' := DoMicro(s, job);
            !s'.panicked && MapOk(s') && forall id :: id in s'.objs ==> ObjIn(s', id, s'.objs[id])
  {
    var s' := DoMicro(s, job);
    var k := job.stops[0];
    StopKeepsMap(s, job);
    forall id | id in s'.objs ensures ObjIn(s', id, s'.objs[id]) {
      if s.objs[id].key == k { StopKeepsOne(s, job, id); } else { StopKeepsOthers(s, job, id); }
    }
    hide ObjIn, MapOk, JobOk;
  }

  lemma {:induction false} StopKeepsOne(s: Sys, job: Job, id: nat)
    requires Inv(s) && s.lock == Some(job) && job.stops != []
    requires id in s.objs && s.objs[id].key == job.stops[0]
    ensures var s' := DoMicro(s, job); id in s'.objs && ObjIn(s', id, s'.objs[id])
  {
    assert ObjIn(s, id, s.objs[id]);
    StopKeepsObj(s.objs[id]);
    hide ObjOk;
  }

  lemma {:induction false} StopKeepsInv(s: Sys, job: Job)
    requires Inv(s) && s.lock == Some(job) && job.stops != []
    ensures Inv(DoMicro(s, job))
  {
    StopKeepsObjs(s, job);
    var s' := DoMicro(s, job);
    var k := job.stops[0];
    assert job.stops == [k] + job.stops[1..];
    forall x ensures Running(s', x) == (Running(s, x) && x != k) { }
    assert JobOk(s', s'.lock.value);
  }

  lemma {:induction false} StartKeepsOthers(s: Sys, job: Job, id: nat)
    requires Inv(s) && s.lock == Some(job) && job.stops == [] && job.starts != []
    requires id in s.objs && (job.starts[0] in s.syncerMap ==> id != s.syncerMap[job.starts[0]])
    ensures var s' := DoMicro(s, job); s'.objs[id] == s.objs[id] && ObjIn(s', id, s'.objs[id])
  {
    assert ObjIn(s, id, s.objs[id]);
  }

  lemma {:induction false} StartKeepsOne(s: Sys, job: Job, id: nat)
    requires Inv(s) && s.lock == Some(job) && job.stops == [] && job.starts != [] && Wanted(s.svcPortMap, job.starts[0])
    requires var k := job.starts[0]; if k in s.syncerMap then id == s.syncerMap[k] else id == s.next
    ensures var s' := DoMicro(s, job); id in s'.objs && ObjIn(s', id, s'.objs[id])
  {
    var k := job.starts[0];
    if k in s.syncerMap {
      assert ObjIn(s, id, s.objs[id]);
      if !s.objs[id].st.Live() { StartKeepsObj(s.objs[id]); }
    } else {
      NewObj(k);
    }
  }

  lemma {:induction false} StartKeepsMap(s: Sys, job: Job)
    requires Inv(s) && s.lock == Some(job) && job.stops == [] && job.starts != []
    ensures var s' := DoMicro(s, job); !s'.panicked && MapOk(s')
    ensures var s' := DoMicro(s, job); s'.objs.Keys <= s.objs.Keys + {s.next}
  {
  }

  lemma {:induction false} StartKeepsObjs(s: Sys, job: Job)
    requires Inv(s) && s.lock == Some(job) && job.stops == [] && job.starts != []
    ensures var s' := DoMicro(s, job); forall id :: id in s'.objs ==> ObjIn(s', id, s'.objs[id])
  {
    StartKeepsMap(s, job);
    var s' := DoMicro(s, job);
    var k := job.starts[0];
    assert k in job.starts && Wanted(s.svcPortMap, k);
    forall id | id in s'.objs ensures ObjIn(s', id, s'.objs[id]) {
      if id in s.objs && !(k in s.syncerMap && id == s.syncerMap[k]) {
        StartKeepsOthers(s, job, id);
      } else {
        StartKeepsOne(s, job, id);
      }
    }
  }

  lemma {:induction false} StartMakesRunning(s: Sys, job: Job)
    requires Inv(s) && s.lock == Some(job) && job.stops == [] && job.starts != []
    ensures var s' := DoMicro(s, job); StartRefused(s, job.starts[0]) == !Running(s', job.starts[0])
    ensures var s' := DoMicro(s, job); forall x :: Running(s, x) ==> Running(s', x)
    ensures var s' := DoMicro(s, job); forall x :: x != job.starts[0] ==> Running(s', x) == Running(s, x)
  {
    var k := job.starts[0];
    assert k in s.syncerMap ==> ObjIn(s, s.syncerMap[k], s.objs[s.syncerMap[k]]);
  }

  lemma {:induction false} StartKeepsEnsure(s: Sys, s': Sys, job: Job, job': Job, wanted: set<ServicePort>)
    requires EnsureOk(s, job, wanted) && job.stops == [] && job.starts != [] && Distinct(job.starts)
    requires job.starts[0] in wanted
    requires forall x :: Running(s, x) ==> Running(s', x)
    requires forall x :: x != job.starts[0] ==> Running(s', x) == Running(s, x)
    requires var refused := StartRefused(s, job.starts[0]);
             job' == job.(starts := job.starts[1..], failed := job.failed || refused)
               && refused == !Running(s', job.starts[0])
    ensures EnsureOk(s', job', wanted)
  {
    var k := job.starts[0];
    assert job.starts == [k] + job.starts[1..];
    assert k !in job.starts[1..];
    if !job.keptRunning || job.failed {
      var x :| x in wanted && !Running(s, x) && x !in job.starts;
      assert !Running(s', x);
    }
  }

  lemma {:induction false} StartKeepsJob(s: Sys, job: Job)
    requires Inv(s) && s.lock == Some(job) && job.stops == [] && job.starts != []
    ensures var s' := DoMicro(s, job); JobOk(s', s'.lock.value)
  {
    StartMakesRunning(s, job);
    var s' := DoMicro(s, job);
    var k := job.starts[0];
    assert job.starts == [k] + job.starts[1..];
    assert k in job.starts && Wanted(s.svcPortMap, k);
    if job.ensured.Some? {
      var svc := job.ensured.value;
      StartKeepsEnsure(s, s', job, s'.lock.value, KeysOf(svc, Ports(s.svcPortMap, svc)));
    }
  }

  lemma {:induction false} StartKeepsInv(s: Sys, job: Job)
    requires Inv(s) && s.lock == Some(job) && job.stops == [] && job.starts != []
    ensures Inv(DoMicro(s, job))
  {
    StartKeepsMap(s, job);
    StartKeepsObjs(s, job);
    StartKeepsJob(s, job);
  }

  lemma {:induction false} SignalKeepsObj(o: Obj)
    requires ObjOk(o) && !o.st.stopped
    ensures ObjOk(o.(st := o.st.Signalled(), pending := true)) && !o.st.SyncPanics()
  {
  }

  lemma {:induction false} SignalKeepsOne(s: Sys, job: Job, id: nat)
    requires Inv(s) && s.lock == Some(job) && job.stops == [] && job.starts == [] && job.signals != [] && id in s.objs
    ensures var s' := DoMicro(s, job); id in s'.objs && ObjIn(s', id, s'.objs[id])
  {
    assert ObjIn(s, id, s.objs[id]);
    if !s.objs[id].st.stopped { SignalKeepsObj(s.objs[id]); }
    hide ObjOk;
  }

  /** Nothing but states of syncers that keep running changes. */
  lemma {:induction false} SignalKeepsMap(s: Sys, job: Job)
    requires Inv(s) && s.lock == Some(job) && job.stops == [] && job.starts == [] && job.signals != []
    ensures var s' := DoMicro(s, job);
            && !s'.panicked && MapOk(s') && s'.objs.Keys == s.objs.Keys
            && s'.lock == Some(job.(signals := job.signals[1..]))
            && s'.gc == s.gc && s'.syncerMap == s.syncerMap && s'.svcPortMap == s.svcPortMap
            && forall x :: Running(s', x) == Running(s, x)
  {
    var k := job.signals[0];
    if k in s.syncerMap {
      assert ObjIn(s, s.syncerMap[k], s.objs[s.syncerMap[k]]);
      if !s.objs[s.syncerMap[k]].st.stopped { SignalKeepsObj(s.objs[s.syncerMap[k]]); }
    }
    hide ObjOk, ObjIn, JobOk;
  }

  lemma {:induction false} SignalKeepsInv(s: Sys, job: Job)
    requires Inv(s) && s.lock == Some(job) && job.stops == [] && job.starts == [] && job.signals != []
    ensures Inv(DoMicro(s, job))
  {
    hide DoMicro, ObjIn, MapOk, Running;
    var s' := DoMicro(s, job);
    SignalKeepsMap(s, job);
    forall id | id in s'.objs ensures ObjIn(s', id, s'.objs[id]) { SignalKeepsOne(s, job, id); }
  }

  lemma {:induction false} EnsureKeepsInv(s: Sys, op: LockOp)
    requires Inv(s) && op.EnsureSyncers? && CanLock(s, op)
    ensures Inv(DoLock(s, op))
  {
    var s' := DoLock(s, op);
    var svc := op.svc;
    forall k: ServicePort | k.Service() == svc
      ensures k.targetPort in Ports(s.svcPortMap, svc) - op.ports <==> k in op.stops
      ensures k.targetPort in op.ports - Ports(s.svcPortMap, svc) <==> k in op.starts
    {
      assert k == ServicePort(svc.namespace, svc.name, k.targetPort);
    }
    forall x ensures Running(s', x) == Running(s, x) { }
  }

  lemma {:induction false} LockKeepsInv(s: Sys, op: LockOp)
    requires Inv(s) && CanLock(s, op) && (op.StopSyncer? || op.Sync? || op.ShutDown? || op.Release?)
    ensures Inv(DoLock(s, op))
  {
    if op.StopSyncer? {
      forall k: ServicePort | k.Service() == op.svc && Wanted(s.svcPortMap, k) ensures k in op.order {
        assert k == ServicePort(op.svc.namespace, op.svc.name, k.targetPort);
      }
    }
  }

  lemma {:induction false} CollectKeyKeepsInv(s: Sys, k: ServicePort, gc: Gc)
    requires Inv(s) && s.lock.None? && k in s.syncerMap
    requires gc.Collecting? && Distinct(gc.keys) && k !in gc.keys && forall x :: x in gc.keys ==> x in s.syncerMap
    ensures Inv(CollectKey(s, k).(gc := gc))
  {
    var s' := CollectKey(s, k).(gc := gc);
    forall id | id in s'.objs ensures ObjIn(s', id, s'.objs[id]) {
      assert ObjIn(s, id, s.objs[id]);
    }
  }

  lemma {:induction false} GcKeepsInv(n: Names, s: Sys, phase: GcOp)
    requires Inv(s) && CanCollect(s, phase)
    ensures Inv(DoCollect(n, s, phase))
  {
    if phase.CollectSyncer? {
      var keys := s.gc.keys;
      assert keys == [keys[0]] + keys[1..];
      assert keys[0] in keys;
      CollectKeyKeepsInv(s, keys[0], Collecting(keys[1..]));
    }
  }

  /** Every step of every party keeps the invariant. */
  lemma {:induction false} StepKeepsInv(n: Names, s: Sys, step: Step)
    requires Inv(s) && Enabled(s, step)
    ensures Inv(Do(n, s, step))
  {
    match step
    case Work(id, i, a) => WorkerKeepsInv(n, s, id, i, a);
    case Collect(phase) => GcKeepsInv(n, s, phase);
    case Lock(op) =>
      if op.EnsureSyncers? { EnsureKeepsInv(s, op); }
      else if !op.Micro? { LockKeepsInv(s, op); }
      else if s.lock.value.stops != [] { StopKeepsInv(s, s.lock.value); }
      else if s.lock.value.starts != [] { StartKeepsInv(s, s.lock.value); }
      else { SignalKeepsInv(s, s.lock.value); }
  }

  lemma {:induction false} RunInv(n: Names, states: seq<Sys>, steps: seq<Step>, i: nat)
    requires IsRun(n, states, steps) && i < |states|
    ensures Inv(states[i])
  {
    if i > 0 {
      RunInv(n, states, steps, i - 1);
      StepKeepsInv(n, states[i - 1], steps[i - 1]);
    }
  }

  // ---------------------------------------------------------------- theorems over every run

  /** In every interleaving: no channel is closed twice or sent to after close and no nil syncer is called;
      a syncer has a goroutine exactly while it is not stopped or still shutting down; and no two syncer
      objects of one service port, collected or not, ever have goroutines at the same time. */
  lemma {:induction false} AtMostOneWorker(n: Names, states: seq<Sys>, steps: seq<Step>, i: nat, a: nat, b: nat)
    requires IsRun(n, states, steps) && i < |states| && a in states[i].objs && b in states[i].objs
    ensures !states[i].panicked
    ensures var o := states[i].objs[a]; |o.runners| <= 1 && (o.runners != [] <==> o.st.Live())
    ensures var o, o' := states[i].objs[a], states[i].objs[b];
            o.key == o'.key && o.runners != [] && o'.runners != [] ==> a == b
  {
    RunInv(n, states, steps, i);
    assert ObjIn(states[i], a, states[i].objs[a]) && ObjIn(states[i], b, states[i].objs[b]);
  }

  /** Step `j` is the manager's Sync reaching the running syncer `id`. */
  ghost predicate Signals(s: Sys, step: Step, id: nat) {
    && step == Lock(Micro) && s.lock.Some?
    && s.lock.value.stops == [] && s.lock.value.starts == [] && s.lock.value.signals != []
    && var k := s.lock.value.signals[0];
       k in s.syncerMap && s.syncerMap[k] == id && id in s.objs && !s.objs[id].st.stopped
  }

  predicate BeginsPass(step: Step, id: nat) {
    step.Work? && step.id == id && step.action == Begin
  }

  lemma {:induction false} MicroKeepsPending(s: Sys, job: Job, id: nat)
    requires Inv(s) && s.lock == Some(job) && id in s.objs
    requires s.objs[id].pending || Signals(s, Lock(Micro), id)
    ensures var s' := DoMicro(s, job); id in s'.objs && s'.objs[id].pending
  {
    assert ObjIn(s, id, s.objs[id]);
  }

  /** Only a micro-step of the lock holder and the syncer's own worker change a syncer object. */
  lemma {:induction false} OthersKeepObj(n: Names, s: Sys, step: Step, id: nat)
    requires Enabled(s, step) && id in s.objs && step != Lock(Micro) && !(step.Work? && step.id == id)
    ensures id in Do(n, s, step).objs && Do(n, s, step).objs[id] == s.objs[id]
  {
    if step.Lock? {
      assert DoLock(s, step.op).objs == s.objs;
    } else if step.Collect? {
      assert DoCollect(n, s, step.phase).objs == s.objs;
    }
  }

  lemma {:induction false} StepKeepsPending(n: Names, s: Sys, step: Step, id: nat)
    requires Inv(s) && Enabled(s, step) && id in s.objs
    requires s.objs[id].pending || Signals(s, step, id)
    requires !BeginsPass(step, id)
    ensures var s' := Do(n, s, step); id in s'.objs && s'.objs[id].pending
  {
    if step == Lock(Micro) { MicroKeepsPending(s, s.lock.value, id); }
    else if step.Work? && step.id == id { assert Act(s.objs[id], step.runner, step.action).pending; }
    else { OthersKeepObj(n, s, step, id); }
  }

  /** No lost wakeups: from the moment a running syncer is signalled until its next pass begins, the channel
      holds a token or the worker is already past its select, whether or not the send went through. */
  lemma {:induction false} NoLostWakeup(n: Names, states: seq<Sys>, steps: seq<Step>, j: nat, i: nat, id: nat)
    requires IsRun(n, states, steps) && j < i < |states| && Signals(states[j], steps[j], id)
    requires forall m :: j < m < i ==> !BeginsPass(steps[m], id)
    ensures id in states[i].objs && states[i].objs[id].pending
    ensures var o := states[i].objs[id]; |o.runners| == 1 && (Full(o.st.syncCh) || o.runners[0] == Woken)
  {
    if i > j + 1 { NoLostWakeup(n, states, steps, j, i - 1, id); }
    RunInv(n, states, steps, i - 1);
    StepKeepsPending(n, states[i - 1], steps[i - 1], id);
    RunInv(n, states, steps, i);
    assert ObjIn(states[i], id, states[i].objs[id]);
  }

  /** Whenever the manager's lock is free, a syncer that is not stopped belongs to a wanted port and is
      the one registered for it. */
  lemma {:induction false} RunningIsWanted(n: Names, states: seq<Sys>, steps: seq<Step>, i: nat, id: nat)
    requires IsRun(n, states, steps) && i < |states| && states[i].lock.None?
    requires id in states[i].objs && !states[i].objs[id].st.stopped
    ensures Wanted(states[i].svcPortMap, states[i].objs[id].key)
    ensures states[i].objs[id].key in states[i].syncerMap && states[i].syncerMap[states[i].objs[id].key] == id
  {
    RunInv(n, states, steps, i);
    assert ObjIn(states[i], id, states[i].objs[id]);
  }

  /** A step of the lock holder that tries to start a syncer and is refused. */
  predicate RefusedAt(s: Sys, step: Step) {
    && step == Lock(Micro) && s.lock.Some? && s.lock.value.stops == [] && s.lock.value.starts != []
    && StartRefused(s, s.lock.value.starts[0])
  }

  /** The lock was taken by the EnsureSyncers of step `j` and is still held: the job carries what held of the kept ports
      then, and whether a start has been refused since. */
  ghost predicate TakenAt(states: seq<Sys>, steps: seq<Step>, j: nat, i: nat)
    requires j < i <= |steps| < |states|
  {
    && steps[j].Lock? && steps[j].op.EnsureSyncers? && states[i].lock.Some?
    && states[i].lock.value.ensured == Some(steps[j].op.svc)
    && (states[i].lock.value.keptRunning <==> KeptRunning(states[j], steps[j].op.svc, steps[j].op.ports))
    && (states[i].lock.value.failed <==> exists m :: j < m < i && RefusedAt(states[m], steps[m]))
    && forall m :: j < m < i ==> steps[m] != Lock(Release)
  }

  lemma {:induction false} LockStep(n: Names, s: Sys, step: Step)
    requires Enabled(s, step)
    ensures var s' := Do(n, s, step);
            && (s.lock.Some? && s'.lock.Some? ==>
                  && step != Lock(Release)
                  && s'.lock.value.ensured == s.lock.value.ensured
                     && s'.lock.value.keptRunning == s.lock.value.keptRunning
                  && (s'.lock.value.failed <==> s.lock.value.failed || RefusedAt(s, step)))
            && (s.lock.None? && s'.lock.Some? && s'.lock.value.ensured.Some? ==>
                  && step.Lock? && step.op.EnsureSyncers? && s'.lock.value.ensured == Some(step.op.svc)
                     && !s'.lock.value.failed
                  && (s'.lock.value.keptRunning <==> KeptRunning(s, step.op.svc, step.op.ports)))
  {
    hide KeptRunning, Enumerates, StopKey, StartKey, SignalKey, StartRefused, WantedNames, CanAct, KeysOf;
  }

  lemma {:induction false} WhoHoldsTheLock(n: Names, states: seq<Sys>, steps: seq<Step>, i: nat) returns (j: nat)
    requires IsRun(n, states, steps) && 0 < i < |states| && states[i].lock.Some? && states[i].lock.value.ensured.Some?
    ensures j < i && TakenAt(states, steps, j, i)
  {
    hide Enabled, Do, KeptRunning, RefusedAt;
    var step := steps[i - 1];
    LockStep(n, states[i - 1], step);
    if states[i - 1].lock.None? {
      j := i - 1;
    } else {
      StartsUnlocked(n, states, steps);
      j := WhoHoldsTheLock(n, states, steps, i - 1);
    }
  }

  lemma {:induction false} StartsUnlocked(n: Names, states: seq<Sys>, steps: seq<Step>)
    requires IsRun(n, states, steps)
    ensures states[0].lock.None?
  {
  }

  /** When EnsureSyncers returns, every wanted port of the service is running if and only if, when it took the lock, the
      ports it keeps were running, and no start was refused since, whatever the workers did meanwhile. */
  lemma {:induction false} EnsureRunsIff(n: Names, states: seq<Sys>, steps: seq<Step>, i: nat) returns (j: nat)
    requires IsRun(n, states, steps) && i < |steps| && steps[i] == Lock(Release)
    requires states[i].lock.Some? && states[i].lock.value.ensured.Some?
    ensures j < i && steps[j].Lock? && steps[j].op.EnsureSyncers? && forall m :: j < m < i ==> steps[m] != Lock(Release)
    ensures var op := steps[j].op;
            AllRunning(states[i + 1], op.svc) <==>
              KeptRunning(states[j], op.svc, op.ports) && !(exists m :: j < m < i && RefusedAt(states[m], steps[m]))
  {
    StartsUnlocked(n, states, steps);
    j := WhoHoldsTheLock(n, states, steps, i);
    RunInv(n, states, steps, i);
    ReleaseRuns(n, states[i]);
  }

  lemma {:induction false} ReleaseRuns(n: Names, s: Sys)
    requires Inv(s) && CanLock(s, Release) && s.lock.value.ensured.Some?
    ensures AllRunning(Do(n, s, Lock(Release)), s.lock.value.ensured.value) <==>
              s.lock.value.keptRunning && !s.lock.value.failed
  {
    var s', job := Do(n, s, Lock(Release)), s.lock.value;
    assert JobOk(s, job);
    forall k ensures Running(s', k) == Running(s, k) { }
  }

  // ---------------------------------------------------------------- a port that is down stays down

  /** Not running, and not about to be started. */
  ghost predicate Down(s: Sys, k: ServicePort) { !Running(s, k) && (s.lock.Some? ==> k !in s.lock.value.starts) }

  lemma {:induction false} MicroKeepsDown(s: Sys, job: Job, k: ServicePort)
    requires Inv(s) && s.lock == Some(job) && Down(s, k)
    ensures Down(DoMicro(s, job), k)
  {
    if job.stops == [] && job.starts != [] { assert job.starts == [job.starts[0]] + job.starts[1..]; }
  }

  lemma {:induction false} TakeKeepsDown(s: Sys, op: LockOp, k: ServicePort)
    requires CanLock(s, op) && Down(s, k) && Wanted(s.svcPortMap, k) && op != Micro
    ensures Down(DoLock(s, op), k)
  {
    var s' := DoLock(s, op);
    assert Running(s', k) == Running(s, k);
    if op.EnsureSyncers? {
      assert k in KeysOf(op.svc, op.ports - Ports(s.svcPortMap, op.svc)) ==> k.Service() == op.svc;
    }
  }

  lemma {:induction false} StepKeepsDown(n: Names, s: Sys, step: Step, k: ServicePort)
    requires Inv(s) && Enabled(s, step) && Down(s, k) && Wanted(s.svcPortMap, k)
    ensures Down(Do(n, s, step), k)
  {
    match step
    case Lock(op) => if op == Micro { MicroKeepsDown(s, s.lock.value, k); } else { TakeKeepsDown(s, op, k); }
    case Collect(phase) => CollectKeepsDown(n, s, phase, k);
    case Work(id, runner, action) => ActKeepsStopped(n, s, id, runner, action, k);
  }

  lemma {:induction false} CollectKeepsDown(n: Names, s: Sys, phase: GcOp, k: ServicePort)
    requires CanCollect(s, phase) && Down(s, k)
    ensures Down(DoCollect(n, s, phase), k)
  {
    hide WantedNames, Enumerates;
  }

  lemma {:induction false} ActKeepsStopped(n: Names, s: Sys, id: nat, runner: nat, action: Action, k: ServicePort)
    requires Inv(s) && id in s.objs && CanAct(s.objs[id], runner, action) && Down(s, k)
    ensures Down(DoWork(n, s, id, runner, action), k)
  {
    assert ObjIn(s, id, s.objs[id]);
    ActKeepsObj(s.objs[id], runner, action);
  }

  /** A wanted port that does not run while nobody holds the lock, such as one whose start was refused, does not run
      at any later moment either, as long as it stays wanted without a break: no EnsureSyncers repairs it. */
  lemma {:induction false} StaysDown(n: Names, states: seq<Sys>, steps: seq<Step>, j: nat, i: nat, k: ServicePort)
    requires IsRun(n, states, steps) && j <= i < |states| && states[j].lock.None? && !Running(states[j], k)
    requires forall m :: j <= m < i ==> Wanted(states[m].svcPortMap, k)
    ensures Down(states[i], k)
    decreases i - j
  {
    hide Enabled, Do, Wanted, Running;
    if i > j {
      StaysDown(n, states, steps, j, i - 1, k);
      RunInv(n, states, steps, i - 1);
      hide Inv, Down;
      var step := steps[i - 1];
      StepKeepsDown(n, states[i - 1], step, k);
    }
  }

  // A run in which a start is refused: a port is started, stopped, and asked for again before its worker has left.

  function Port80(svc: ServiceKey): (k: ServicePort) { ServicePort(svc.namespace, svc.name, "80") }
  function Asks(svc: ServiceKey): (step: Step) { Lock(EnsureSyncers(svc, {"80"}, [], [Port80(svc)])) }
  function Gives(svc: ServiceKey): (step: Step) { Lock(StopSyncer(svc, [Port80(svc)])) }

  lemma {:induction false} KeysOf80(svc: ServiceKey)
    ensures KeysOf(svc, {"80"}) == {Port80(svc)} && KeysOf(svc, {}) == {} && {"80"} - {} == {"80"} && {} - {"80"} == {}
  {
  }

  /** The one syncer of the run. */
  predicate Only80(s: Sys, svc: ServiceKey, id: nat, st: State) {
    && s.lock.None? && s.gc == Idle && s.syncerMap == map[Port80(svc) := id]
    && id in s.objs && s.objs[id].st == st
  }

  lemma {:induction false} StartsFirst(n: Names, s: Sys, svc: ServiceKey) returns (s1: Sys, s2: Sys, s3: Sys)
    requires Init(s)
    ensures Enabled(s, Asks(svc)) && s1 == Do(n, s, Asks(svc))
    ensures Enabled(s1, Lock(Micro)) && s2 == Do(n, s1, Lock(Micro)) && Enabled(s2, Lock(Release))
              && s3 == Do(n, s2, Lock(Release))
    ensures s3.svcPortMap == map[svc := {"80"}] && Only80(s3, svc, s.next, Fresh.Started())
  {
    KeysOf80(svc);
    hide KeysOf;
    s1 := Do(n, s, Asks(svc));
    s2 := Do(n, s1, Lock(Micro));
    s3 := Do(n, s2, Lock(Release));
  }

  lemma {:induction false} StopsThen(n: Names, s: Sys, svc: ServiceKey, id: nat) returns (s1: Sys, s2: Sys, s3: Sys)
    requires s.svcPortMap == map[svc := {"80"}] && Only80(s, svc, id, Fresh.Started())
    ensures Enabled(s, Gives(svc)) && s1 == Do(n, s, Gives(svc))
    ensures Enabled(s1, Lock(Micro)) && s2 == Do(n, s1, Lock(Micro)) && Enabled(s2, Lock(Release))
              && s3 == Do(n, s2, Lock(Release))
    ensures s3.svcPortMap == map[] && Only80(s3, svc, id, Fresh.Started().Stopped())
  {
    KeysOf80(svc);
    hide KeysOf;
    s1 := Do(n, s, Gives(svc));
    s2 := Do(n, s1, Lock(Micro));
    s3 := Do(n, s2, Lock(Release));
  }

  lemma {:induction false} IsRefused(n: Names, s: Sys, svc: ServiceKey, id: nat) returns (s1: Sys, s2: Sys, s3: Sys)
    requires s.svcPortMap == map[] && Only80(s, svc, id, Fresh.Started().Stopped())
    ensures Enabled(s, Asks(svc)) && s1 == Do(n, s, Asks(svc))
    ensures Enabled(s1, Lock(Micro)) && s2 == Do(n, s1, Lock(Micro)) && Enabled(s2, Lock(Release))
              && s3 == Do(n, s2, Lock(Release))
    ensures RefusedAt(s1, Lock(Micro)) && s3.lock.None? && Wanted(s3.svcPortMap, Port80(svc))
              && !Running(s3, Port80(svc))
  {
    KeysOf80(svc);
    hide KeysOf;
    s1 := Do(n, s, Asks(svc));
    s2 := Do(n, s1, Lock(Micro));
    s3 := Do(n, s2, Lock(Release));
  }

  /** From any initial state: nine steps to a port that is wanted and down, and by StaysDown stays so. */
  lemma {:induction false} RefusedRun(n: Names, s0: Sys, svc: ServiceKey) returns (states: seq<Sys>, steps: seq<Step>)
    requires Init(s0)
    ensures IsRun(n, states, steps) && |steps| == 9 && states[0] == s0 && RefusedAt(states[7], steps[7])
    ensures states[9].lock.None? && Wanted(states[9].svcPortMap, Port80(svc)) && !Running(states[9], Port80(svc))
  {
    hide Do, Enabled, Asks, Gives, Only80, RefusedAt, Wanted, Running;
    var s1, s2, s3 := StartsFirst(n, s0, svc);
    var s4, s5, s6 := StopsThen(n, s3, svc, s0.next);
    var s7, s8, s9 := IsRefused(n, s6, svc, s0.next);
    var m, r := Lock(Micro), Lock(Release);
    steps := [Asks(svc), m, r, Gives(svc), m, r, Asks(svc), m, r];
    states := [s0, s1, s2, s3, s4, s5, s6, s7, s8, s9];
  }

  /** A start is refused exactly when the port's stopped syncer still has a goroutine. */
  lemma {:induction false} RefusalIsShuttingDown(n: Names, states: seq<Sys>, steps: seq<Step>, i: nat)
    requires IsRun(n, states, steps) && i < |steps| && steps[i] == Lock(Micro)
    requires states[i].lock.value.stops == [] && states[i].lock.value.starts != [] && !states[i].lock.value.failed
    ensures var s := states[i]; var k := s.lock.value.starts[0];
            states[i + 1].lock.value.failed <==>
              k in s.syncerMap && s.syncerMap[k] in s.objs &&
              s.objs[s.syncerMap[k]].st.stopped && s.objs[s.syncerMap[k]].runners != []
  {
    RunInv(n, states, steps, i);
    var s := states[i];
    var k := s.lock.value.starts[0];
    assert k in s.syncerMap ==> ObjIn(s, s.syncerMap[k], s.objs[s.syncerMap[k]]);
  }

  // ---------------------------------------------------------------- retries

  /** The retry timer of this goroutine may go off. */
  ghost predicate CanRetry(s: Sys, id: nat, r: nat) { Enabled(s, Work(id, r, RetryFires)) }

  /** A failed pass of syncer `id` that leaves its goroutine with a retry timer; `s` is the state after the step. */
  ghost predicate Arms(s: Sys, step: Step, id: nat) { Fails(step, id) && CanRetry(s, id, step.runner) }

  predicate Fails(step: Step, id: nat) { step.Work? && step.id == id && step.action == End(false) }
  predicate Succeeds(step: Step, id: nat) { step.Work? && step.id == id && step.action == End(true) }

  /** Retry timers armed for syncer `id` by the steps from `a` up to `b`. */
  ghost function ArmedRetries(states: seq<Sys>, steps: seq<Step>, id: nat, a: nat, b: nat): (r: nat)
    requires a <= b <= |steps| < |states|
  {
    if a == b then 0
    else ArmedRetries(states, steps, id, a, b - 1) + (if Arms(states[b], steps[b - 1], id) then 1 else 0)
  }

  /** Failed passes of syncer `id` among the steps from `a` up to `b`. */
  function Failures(steps: seq<Step>, id: nat, a: nat, b: nat): (r: nat)
    requires a <= b <= |steps|
  {
    if a == b then 0 else Failures(steps, id, a, b - 1) + (if Fails(steps[b - 1], id) then 1 else 0)
  }

  lemma {:induction false} ArmsIff(n: Names, s: Sys, step: Step, id: nat)
    requires Enabled(s, step) && Fails(step, id)
    ensures Arms(Do(n, s, step), step, id) <==> s.objs[id].st.retryCount <= MAX_RETRIES
  {
    assert Do(n, s, step).objs[id] == Act(s.objs[id], step.runner, End(false));
  }

  lemma {:induction false} MicroKeepsRetries(s: Sys, job: Job, id: nat)
    requires Inv(s) && s.lock == Some(job) && id in s.objs
    ensures var s' := DoMicro(s, job); id in s'.objs && s'.objs[id].st.retryCount == s.objs[id].st.retryCount
  {
    assert id < s.next;
  }

  lemma {:induction false} RetryCountGrows(n: Names, s: Sys, step: Step, id: nat)
    requires Inv(s) && Enabled(s, step) && id in s.objs && !Succeeds(step, id)
    ensures var s' := Do(n, s, step);
            && id in s'.objs
            && s'.objs[id].st.retryCount == s.objs[id].st.retryCount + (if Arms(s', step, id) then 1 else 0)
  {
    if Fails(step, id) { ArmsIff(n, s, step, id); }
    if step == Lock(Micro) { MicroKeepsRetries(s, s.lock.value, id); }
    else if step.Work? && step.id == id {
      assert Do(n, s, step).objs[id] == Act(s.objs[id], step.runner, step.action);
    } else { OthersKeepObj(n, s, step, id); }
  }

  lemma {:induction false} RetriesCounted(n: Names, states: seq<Sys>, steps: seq<Step>, id: nat, a: nat, b: nat)
    requires IsRun(n, states, steps) && a <= b <= |steps| && id in states[a].objs
    requires forall m :: a <= m < b ==> !Succeeds(steps[m], id)
    ensures id in states[b].objs
    ensures ArmedRetries(states, steps, id, a, b) <= states[b].objs[id].st.retryCount
  {
    if a < b {
      RetriesCounted(n, states, steps, id, a, b - 1);
      RunInv(n, states, steps, b - 1);
      RetryCountGrows(n, states[b - 1], steps[b - 1], id);
    }
  }

  /** Between two successful passes of a syncer at most sixteen retries are scheduled, across stops and restarts,
      and the delay last scheduled follows the closed form. */
  lemma {:induction false} RetriesBounded(n: Names, states: seq<Sys>, steps: seq<Step>, id: nat, a: nat, b: nat)
    requires IsRun(n, states, steps) && a <= b <= |steps| && id in states[a].objs
    requires forall m :: a <= m < b ==> !Succeeds(steps[m], id)
    ensures ArmedRetries(states, steps, id, a, b) <= 16
    ensures id in states[b].objs && states[b].objs[id].st.lastRetryDelay == Backoff(states[b].objs[id].st.retryCount)
  {
    RetriesCounted(n, states, steps, id, a, b);
    RunInv(n, states, steps, b);
    assert ObjIn(states[b], id, states[b].objs[id]);
  }

  /** From here on failures count from zero: the syncer is not there yet, or its last pass was a success. */
  predicate NoFailuresBefore(states: seq<Sys>, steps: seq<Step>, id: nat, a: nat)
    requires a < |states| == |steps| + 1
  {
    id !in states[a].objs || (a > 0 && Succeeds(steps[a - 1], id))
  }

  lemma {:induction false} CreatedFresh(n: Names, s: Sys, step: Step, id: nat)
    requires Enabled(s, step) && id !in s.objs
    ensures !Fails(step, id) && (id in Do(n, s, step).objs ==> Do(n, s, step).objs[id].st.retryCount == 0)
  {
    if step.Lock? && step != Lock(Micro) { assert DoLock(s, step.op).objs == s.objs; }
    else if step.Collect? { assert DoCollect(n, s, step.phase).objs == s.objs; }
  }

  /** The retry count after `k` failures in a row; nothing is counted before the syncer is there. */
  predicate CountsTo(s: Sys, id: nat, k: nat) {
    if id in s.objs then s.objs[id].st.retryCount == (if k <= 16 then k else 16) else k == 0
  }

  lemma {:induction false} StepCounts(n: Names, s: Sys, step: Step, id: nat, k: nat)
    requires Inv(s) && Enabled(s, step) && !Succeeds(step, id) && CountsTo(s, id, k)
    ensures CountsTo(Do(n, s, step), id, if Fails(step, id) then k + 1 else k)
  {
    if id in s.objs {
      RetryCountGrows(n, s, step, id);
      if Fails(step, id) { ArmsIff(n, s, step, id); }
      hide Inv, Do, Enabled;
    } else {
      CreatedFresh(n, s, step, id);
    }
  }

  lemma {:induction false} SuccessClears(n: Names, s: Sys, step: Step, id: nat)
    requires Enabled(s, step) && Succeeds(step, id)
    ensures CountsTo(Do(n, s, step), id, 0)
  {
    assert Do(n, s, step).objs[id] == Act(s.objs[id], step.runner, End(true));
  }

  lemma {:induction false} FailuresCounted(n: Names, states: seq<Sys>, steps: seq<Step>, id: nat, a: nat, b: nat)
    requires IsRun(n, states, steps) && a <= b <= |steps| && NoFailuresBefore(states, steps, id, a)
    requires forall m :: a <= m < b ==> !Succeeds(steps[m], id)
    ensures CountsTo(states[b], id, Failures(steps, id, a, b))
  {
    hide Inv, Do, Enabled, Succeeds, Fails;
    if a < b {
      FailuresCounted(n, states, steps, id, a, b - 1);
      RunInv(n, states, steps, b - 1);
      var step := steps[b - 1];
      StepCounts(n, states[b - 1], step, id, Failures(steps, id, a, b - 1));
    } else if a > 0 {
      var step := steps[a - 1];
      if Succeeds(step, id) { SuccessClears(n, states[a - 1], step, id); }
    }
  }

  /** A failed pass is retried if and only if it is one of the first sixteen failures in a row, counted from the first
      pass of the syncer or from its last success, across stops and restarts. */
  lemma {:induction false} FailureIsRetriedIff(n: Names, states: seq<Sys>, steps: seq<Step>, id: nat, a: nat, b: nat)
    requires IsRun(n, states, steps) && a <= b < |steps| && Fails(steps[b], id)
    requires NoFailuresBefore(states, steps, id, a) && forall m :: a <= m < b ==> !Succeeds(steps[m], id)
    ensures CanRetry(states[b + 1], id, steps[b].runner) <==> Failures(steps, id, a, b + 1) <= 16
  {
    FailuresCounted(n, states, steps, id, a, b);
    ArmsIff(n, states[b], steps[b], id);
  }

  /** The step ends the wait of this goroutine. */
  predicate Wakes(step: Step, id: nat, r: nat) { step == Work(id, r, Receive) || step == Work(id, r, RetryFires) }

  lemma {:induction false} MicroKeepsRunners(s: Sys, job: Job, id: nat)
    requires Inv(s) && s.lock == Some(job) && id in s.objs && s.objs[id].runners != []
    ensures var s' := DoMicro(s, job); id in s'.objs && s'.objs[id].runners == s.objs[id].runners
  {
    assert id < s.next && ObjIn(s, id, s.objs[id]);
  }

  lemma {:induction false} StepKeepsRetry(n: Names, s: Sys, step: Step, id: nat, r: nat)
    requires Inv(s) && Enabled(s, step) && CanRetry(s, id, r) && !Wakes(step, id, r)
    ensures CanRetry(Do(n, s, step), id, r)
  {
    if step == Lock(Micro) { MicroKeepsRunners(s, s.lock.value, id); }
    else if step.Work? && step.id == id { assert ObjIn(s, id, s.objs[id]); }
    else { OthersKeepObj(n, s, step, id); }
  }

  /** The timer stays armed until the goroutine is woken, by it or by its channel, whatever else happens. */
  lemma {:induction false} RetryStaysArmed(n: Names, states: seq<Sys>, steps: seq<Step>, i: nat, j: nat, id: nat,
                                           r: nat)
    requires IsRun(n, states, steps) && i <= j < |states| && CanRetry(states[i], id, r)
    requires forall m :: i <= m < j ==> !Wakes(steps[m], id, r)
    ensures CanRetry(states[j], id, r)
  {
    if i < j {
      RetryStaysArmed(n, states, steps, i, j - 1, id, r);
      RunInv(n, states, steps, j - 1);
      StepKeepsRetry(n, states[j - 1], steps[j - 1], id, r);
    }
  }

  // ---------------------------------------------------------------- what a goroutine can do next

  /** In its select, where a token or a closed channel wakes it. */
  ghost predicate Rests(s: Sys, id: nat, r: nat) {
    && id in s.objs && r < |s.objs[id].runners| && s.objs[id].runners[r].Waiting?
    && (Enabled(s, Work(id, r, Receive)) <==> s.objs[id].st.syncCh.Closed? || Full(s.objs[id].st.syncCh))
  }

  /** After its timer went off a goroutine can begin a pass, a pass can end, and a pass that ended leaves it waiting. */
  lemma {:induction false} PassProceeds(n: Names, s: Sys, id: nat, r: nat, ok: bool)
    requires Inv(s)
    ensures CanRetry(s, id, r) ==> Enabled(Do(n, s, Work(id, r, RetryFires)), Work(id, r, Begin))
    ensures Enabled(s, Work(id, r, Begin)) ==> Enabled(Do(n, s, Work(id, r, Begin)), Work(id, r, End(true)))
    ensures Enabled(s, Work(id, r, End(ok))) ==> Rests(Do(n, s, Work(id, r, End(ok))), id, r)
  {
    if id in s.objs { EndsWaiting(s.objs[id], r, ok); }
    hide Inv;
  }

  lemma {:induction false} EndsWaiting(o: Obj, r: nat, ok: bool)
    ensures CanAct(o, r, End(ok)) ==> Act(o, r, End(ok)).runners == o.runners[r := Act(o, r, End(ok)).runners[r]]
    ensures CanAct(o, r, End(ok)) ==> Act(o, r, End(ok)).runners[r].Waiting?
    ensures CanAct(o, r, End(ok)) ==> Act(o, r, End(ok)).st.syncCh == o.st.syncCh
  {
  }

  /** A goroutine that receives a token has used it up and can begin a pass; one that sees its channel closed can leave,
      and then nothing keeps the syncer from being started again. */
  lemma {:induction false} ReceiveProceeds(n: Names, s: Sys, id: nat, r: nat)
    requires Inv(s) && Enabled(s, Work(id, r, Receive))
    ensures var s' := Do(n, s, Work(id, r, Receive));
            if Full(s.objs[id].st.syncCh) then Enabled(s', Work(id, r, Begin)) && !Full(s'.objs[id].st.syncCh)
            else Enabled(s', Work(id, r, Leave)) && !Do(n, s', Work(id, r, Leave)).objs[id].st.Live()
                 && Do(n, s', Work(id, r, Leave)).objs[id].runners == []
  {
    var o := s.objs[id];
    assert ObjIn(s, id, o);
    assert Do(n, s, Work(id, r, Receive)).objs[id] == Act(o, r, Receive);
    hide Inv;
    ActKeepsObj(o, r, Receive);
  }

  /** A goroutine is never stuck: in every state it can begin, end or leave, or it waits for a token, for its timer or
      for the end. */
  lemma {:induction false} WorkerProceeds(n: Names, states: seq<Sys>, steps: seq<Step>, i: nat, id: nat, r: nat)
    requires IsRun(n, states, steps) && i < |states| && id in states[i].objs && r < |states[i].objs[id].runners|
    ensures var s := states[i];
            || Enabled(s, Work(id, r, Begin)) || Enabled(s, Work(id, r, End(true))) || Enabled(s, Work(id, r, Leave))
            || Rests(s, id, r)
    ensures forall ok :: Enabled(states[i], Work(id, r, End(ok))) ==>
              Rests(Do(n, states[i], Work(id, r, End(ok))), id, r)
    ensures CanRetry(states[i], id, r) ==> Enabled(Do(n, states[i], Work(id, r, RetryFires)), Work(id, r, Begin))
    ensures Enabled(states[i], Work(id, r, Begin)) ==>
              Enabled(Do(n, states[i], Work(id, r, Begin)), Work(id, r, End(true)))
    ensures Enabled(states[i], Work(id, r, Receive)) ==>
              var s := Do(n, states[i], Work(id, r, Receive));
              if Full(states[i].objs[id].st.syncCh) then Enabled(s, Work(id, r, Begin)) && !Full(s.objs[id].st.syncCh)
              else Enabled(s, Work(id, r, Leave)) && !Do(n, s, Work(id, r, Leave)).objs[id].st.Live()
                   && Do(n, s, Work(id, r, Leave)).objs[id].runners == []
  {
    var s := states[i];
    RunInv(n, states, steps, i);
    assert Enabled(s, Work(id, r, Begin)) || Enabled(s, Work(id, r, End(true))) || Enabled(s, Work(id, r, Leave))
      || Rests(s, id, r);
    hide Inv, Do, Enabled, Rests, IsRun;
    forall ok ensures Enabled(s, Work(id, r, End(ok))) ==> Rests(Do(n, s, Work(id, r, End(ok))), id, r) {
      PassProceeds(n, s, id, r, ok);
    }
    PassProceeds(n, s, id, r, true);
    if Enabled(s, Work(id, r, Receive)) { ReceiveProceeds(n, s, id, r); }
  }

  /** A pass goes to work, and may fail or touch the NEGs of its port, if and only if the syncer was neither stopped nor
      shutting down when it began. */
  lemma {:induction false} PassWorksIff(n: Names, states: seq<Sys>, steps: seq<Step>, i: nat, id: nat, r: nat,
                                        z: string)
    requires IsRun(n, states, steps) && i < |steps| && steps[i] == Work(id, r, Begin)
    ensures var works := !states[i].objs[id].st.stopped && !states[i].objs[id].st.shuttingDown;
            && (Enabled(states[i + 1], Work(id, r, End(false))) <==> works)
            && (Enabled(states[i + 1], Work(id, r, CreateNeg(z))) <==> works)
            && (Enabled(states[i + 1], Work(id, r, DeleteNeg(z))) <==> works)
  {
    assert states[i + 1].objs[id] == Act(states[i].objs[id], r, Begin);
  }

  /** Every pair on the collector's list is owned and named by no entry of `m`. */
  ghost predicate Unwanted(n: Names, doomed: set<(string, string)>, m: map<ServiceKey, set<string>>) {
    forall t :: t in doomed ==> n.isNeg(t.0) && t.0 !in WantedNames(n, m)
  }

  ghost predicate ListedOwned(n: Names, gc: Gc) {
    gc.Listed? ==> forall x :: x in gc.names ==> n.isNeg(x)
  }

  /** The collector's list is filled only by the locked subtraction and only shrinks afterwards. */
  lemma {:induction false} DoomedOnlyShrinks(n: Names, s: Sys, step: Step)
    requires Enabled(s, step) && ListedOwned(n, s.gc)
    ensures var s' := Do(n, s, step);
            && ListedOwned(n, s'.gc)
            && (s'.gc.Deleting? ==> || (step == Collect(Subtract) && Unwanted(n, s'.gc.doomed, s.svcPortMap))
                                    || (step != Collect(Subtract) && s.gc.Deleting? && s'.gc.doomed <= s.gc.doomed))
  {
    if step.Lock? { assert DoLock(s, step.op).gc == s.gc; }
  }

  ghost predicate DoomedJustified(n: Names, states: seq<Sys>, steps: seq<Step>, i: nat)
    requires i < |states| == |steps| + 1
  {
    && ListedOwned(n, states[i].gc)
    && (states[i].gc.Deleting? ==>
          exists j :: 0 <= j < i && steps[j] == Collect(Subtract)
            && Unwanted(n, states[i].gc.doomed, states[j].svcPortMap))
  }

  lemma {:induction false} AllDoomedJustified(n: Names, states: seq<Sys>, steps: seq<Step>, i: nat)
    requires IsRun(n, states, steps) && i < |states|
    ensures DoomedJustified(n, states, steps, i)
  {
    if i > 0 {
      AllDoomedJustified(n, states, steps, i - 1);
      var s := states[i - 1];
      DoomedOnlyShrinks(n, s, steps[i - 1]);
      if states[i].gc.Deleting? && steps[i - 1] != Collect(Subtract) {
        var j :| 0 <= j < i - 1 && steps[j] == Collect(Subtract) && Unwanted(n, s.gc.doomed, states[j].svcPortMap);
        assert Unwanted(n, states[i].gc.doomed, states[j].svcPortMap);
      }
    }
  }

  /** Under any interleaving, a NEG deleted by the collector is one of this cluster's, and there is an earlier
      locked subtraction at which no entry of svcPortMap named it. */
  lemma {:induction false} CollectorDeletesUnwanted(n: Names, states: seq<Sys>, steps: seq<Step>, i: nat)
    requires IsRun(n, states, steps) && i < |steps| && steps[i].Collect? && steps[i].phase.DeleteOne?
    ensures n.isNeg(steps[i].phase.target.0)
    ensures exists j :: 0 <= j < i && steps[j] == Collect(Subtract)
              && steps[i].phase.target.0 !in WantedNames(n, states[j].svcPortMap)
  {
    AllDoomedJustified(n, states, steps, i);
  }

  // ---------------------------------------------------------------- what becomes of a NEG

  /** No step of the collector among these. */
  predicate CollectorIdle(steps: seq<Step>, i: nat, j: nat)
    requires i <= j <= |steps|
  {
    forall m :: i <= m < j ==> !steps[m].Collect?
  }

  lemma {:induction false} GcKept(n: Names, states: seq<Sys>, steps: seq<Step>, i: nat, j: nat)
    requires IsRun(n, states, steps) && i <= j < |states| && CollectorIdle(steps, i, j)
    ensures states[j].gc == states[i].gc
  {
    if i < j {
      GcKept(n, states, steps, i, j - 1);
      var step := steps[j - 1];
      if step.Lock? { assert DoLock(states[j - 1], step.op).gc == states[j - 1].gc; }
    }
  }

  /** A NEG of this cluster that was there when the collector listed and that no port wants when it subtracts is one it
      goes on to delete. */
  lemma {:induction false} UnwantedIsDoomed(n: Names, states: seq<Sys>, steps: seq<Step>, i: nat, j: nat, x: string,
                                            z: string)
    requires IsRun(n, states, steps) && i < j < |steps| && CollectorIdle(steps, i + 1, j)
    requires steps[i] == Collect(ListNegs) && steps[j] == Collect(Subtract)
    requires (x, z) in states[i].negs && n.isNeg(x) && x !in WantedNames(n, states[j].svcPortMap)
    ensures Enabled(states[j + 1], Collect(DeleteOne((x, z), (x, z) in states[j + 1].negs)))
  {
    GcKept(n, states, steps, i + 1, j);
    assert states[i + 1].gc == Listed(set t | t in states[i].negs
      && n.isNeg(t.0) :: t.0, set t | t in states[i].negs :: t.1);
    assert (x, z).0 in states[j].gc.names && (x, z).1 in states[j].gc.zones;
  }

  /** A NEG comes into being only by a pass of a syncer for its own port; it goes only by such a pass or by the
      collector. These steps do what they say. */
  lemma {:induction false} NegsChange(n: Names, states: seq<Sys>, steps: seq<Step>, i: nat, t: (string, string))
    requires IsRun(n, states, steps) && i < |steps|
    ensures var was, now, step := t in states[i].negs, t in states[i + 1].negs, steps[i];
            var own := step.Work? && n.neg(states[i].objs[step.id].key) == t.0;
            && (!was && now ==> own && step.action == CreateNeg(t.1))
            && (was && !now ==> (own && step.action == DeleteNeg(t.1)) || step == Collect(DeleteOne(t, true)))
            && (own && step.action == CreateNeg(t.1) ==> now)
            && ((own && step.action == DeleteNeg(t.1)) || step == Collect(DeleteOne(t, true)) ==> !now)
  {
    var s, step := states[i], steps[i];
    if step.Lock? { assert DoLock(s, step.op).negs == s.negs; }
    else if step.Collect? && !step.phase.DeleteOne? { assert DoCollect(n, s, step.phase).negs == s.negs; }
  }
}
