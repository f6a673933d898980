# A model of the GCE ingress controller

The controller turns Kubernetes ingresses into Google Cloud load balancers and keeps the two in agreement. This
project models the parts of it where agreement is hard to keep, and proves what they keep.

- **Network endpoint groups** (`NegSyncer`, `NegManager`, `NegSystem`, `NegRefinement`, `NegEndpoints`, `NegPass`,
  `NegController`). Every service port has a restartable worker; a manager starts, stops, signals and collects the
  workers under one lock. `NegSystem` is a transition system in which the manager's operations, one syncer at a time,
  the phases of garbage collection and the steps of all goroutines interleave freely; its theorems hold in every state
  of every run. `NegRefinement` shows that its steps under the lock add up to the methods of the `NegManager` class.
- **Load balancers** (`L7Cloud`, `L7World`, `L7EdgeHop`, `L7Settles`, `L7Conflict`, `L7Certificates`, `L7Shared`,
  `L7Cleanup`, `L7Isolation`, `L7Lifecycle`, `L7Remains`, `L7Pool`, `L7Balancer`). One pass repairs the chain forwarding
  rule, proxy, url map, certificate. `L7World` gives a pass as functions on the fields of the load balancer and the
  cloud, `L7Balancer` is the class whose methods are proved to compute them, and the other modules prove what passes,
  tear-downs and whole runs of them, of one load balancer and of many in one cloud, achieve and never do.
- **Routing and ports** (`Ingresses`, `Routing`, `Ports`, `Backends`). An ingress becomes nested maps, these become a
  url map, and the ports that routing relies on must survive garbage collection and be open in the firewall.
- **Names** (`Text`, `TrimFields`, `Namer`). Splitting, truncating and trimming, and the round trips, fixed points and
  separations that the pools and the collectors depend on.

How the world is modelled: the cloud is a value made of maps. A write takes effect entirely or not at all, and an
environment, an arbitrary function of the number of the write, decides which; every theorem quantifies over it. A
failed write ends its pass, so quantifying over environments also shows every moment within a pass. Reads succeed and
give what was written. A self link determines kind and name. The MD5 digest is an arbitrary function with 32 characters
of output; the iteration order of a map is an arbitrary choice. Delays are in seconds and time itself is left out.

## Findings

Properties that do not hold as one would expect, with the exact condition under which they do:

- `LoadBalancer` is idempotent on a key if and only if `Namer.LbStable` holds, which takes parts that are not empty and
  do not end in a dash; `a/` is a counterexample.
- Two load balancers share the name of a resource if and only if their names are equal, are longer than 52 characters and
  agree in those, or one is the other behind `1-`, as far as 54 characters go (`L7Isolation.NamesApartIff`): prefixes push
  the rest of a name, cluster uid included, over the limit, and the secondary certificate name of `web` is the primary one
  of `1-web`. `L7Isolation.SharedNames` has instances; in `L7Shared.NeighbourOverwritten` a pass of `web` replaces the
  certificate that `1-web` serves. With names apart, nothing of the kind happens (`L7Shared.SharedRotationSafe`).
- The two certificate names of one load balancer coincide if and only if its name is longer than 54 characters and
  those kept are `1-` over and over (`Namer.SslCertNamesCollideIff`, with the instance `SslCertNamesCollide`).
- `trimFieldsEvenly` panics if and only if an empty field stands at or behind the remainder
  (`TrimFields.TrimFieldsEvenly`); `EmptyFieldOutOfRange` is an instance with the 30 characters and three fields of a NEG
  name, so that such a name does not exist (`Namer.NegPanics`).
- A pass can delete the certificate being served if and only if there is a default backend and `L7Certificates.Hazard`
  holds: the name to rotate to is the one in use, as after a secret that changes while the switch to the previous one is
  pending. `ThirdSecretTooEarly` reaches it by the events of a history.
- A tear-down deletes only the certificate and the address that the fields record. A certificate survives if and only if
  the configuration names a pre-shared one, or it is the previous one whose deletion was pending, or it was lost before,
  to a restart or to a pass that forgot it (`L7Remains.CertificateSurvivesIff`; `ForgetsIff` says exactly which passes
  can); the reserved address if and only if it was lost to a restart (`AddressSurvivesIff`). `PreviousCertificateStays`
  and `AddressStays` are instances.
- A tear-down deletes the user's pre-shared certificate if it is still recorded when the configuration no longer names
  it; `L7Remains.PreSharedDeleted` is an instance.
- A tear-down can delete the certificate that its own HTTPS proxy serves if and only if the proxy is not recorded and the
  certificate is (`L7Shared.TearDownLosesIff`), as when a restart is followed by a pass that fails early
  (`TornDownTooEarly`).
- After EnsureSyncers every wanted port runs if and only if those kept ran before and no start was refused. A port that
  is down stays down for as long as it stays wanted, whatever else is asked for (`NegSystem.StaysDown`);
  `NegSystem.RefusedRun` leads there from any initial state in nine steps.
- After a restart a successful pass has everything in sight if and only if `L7Remains.Findable` holds of the cloud: nothing
  of a protocol that is off, no certificate of its own that neither proxy nor secret leads to, no address without use
  (`L7Remains.RestartRecordsIff`, with the instance `AddressStays`).
- If reserving the IP is answered by a conflict, two passes leave both forwarding rules on one IP if and only if they
  were before (`L7Conflict.TwoConflictsIff`); in `TwoIps` both passes succeed and the rules stay on two.
- The NEG controller and the load balancer controller read a port reference alike if and only if it is not a number
  written as a name (`NegController.AgreeIff`); `NumberAsNameIsMissed` is an instance. An ingress rule without HTTP
  crashes the NEG controller although its own selection of ingresses skips such rules (`GatherTargetPorts`, with the
  instance `RuleWithoutHttpCrashes`).
- A syncer with a ready address comes to rest if and only if its target port is a name or a number in plain decimal
  (`NegPass.SettlesIff`); `NeverRestsAt080` is an instance.
- A pass that meets an endpoint it cannot decode returns while its calls still run. The next pass then gets an endpoint
  wrong, in some order of the calls and with all of them succeeding, if and only if a late call detaches one that is to
  be there or attaches one that is not (`NegEndpoints.OverlapLosesIff`).
- After a restart the first collection of backends leaves a service that is not needed if and only if its name cannot carry
  the cluster uid whole, and a health check if and only if it leaves the service or the service was gone already
  (`Backends.RestartCollectsExactly`), as after a delete that got half through (`HalfDeleteLeaksCheck`).
- A host and path is served as the ingress asks if and only if the host is not `DefaultBackend`, or nothing or just the
  default is asked for (`Ingresses.ServedAsAskedIff`): the default is kept under that host and overwrites the rule, as in
  `RuleUnheard`. The API server admits no such host, so that every host it admits is served (`AdmittedHostServed`).

Where comments and code disagree the model follows the code: the comment on NEG names shows the prefix `k8s-`, the
code writes `k8s1-`; the comment on UpdateUrlMap speaks of the first of two equal rules winning, but by the time it runs
the nested maps hold only the last one.

## Model

| member | source | states |
|---|---|---|
| NegSystem.StepKeepsInv | pkg/networkendpointgroup/manager.go:69-248 | every step of the manager, the collector and any goroutine keeps the invariant: one goroutine for each live syncer and none for others, no wakeup lost, registered and wanted ports in agreement |
| NegSystem.RunInv | pkg/networkendpointgroup/syncer.go:93-173 | the invariant holds in every state of every run |
| NegSystem.AtMostOneWorker | pkg/networkendpointgroup/syncer.go:101-159 | in every interleaving no channel is closed twice or sent to after close, a syncer has a goroutine exactly while it is not stopped or is shutting down, and two objects of one service port never have goroutines at once, even across collection and recreation |
| NegSystem.NoLostWakeup | pkg/networkendpointgroup/syncer.go:111-173 | from a signal to a running syncer until its next pass begins, a token is in the channel or the worker is past its select, also when the send reported false |
| NegSystem.RunningIsWanted | pkg/networkendpointgroup/manager.go:69-135 | whenever the lock is free, a syncer that is not stopped belongs to a wanted port and is the one registered for it |
| NegSystem.EnsureRunsIff | pkg/networkendpointgroup/manager.go:69-120 | when EnsureSyncers returns, every wanted port of the service runs if and only if the ports it keeps ran when it took the lock and no start was refused since, whatever the workers did meanwhile |
| NegSystem.StaysDown | pkg/networkendpointgroup/manager.go:69-120 | a wanted port that does not run while the lock is free does not run later either for as long as it stays wanted, whatever anybody asks for |
| NegSystem.RefusedRun | pkg/networkendpointgroup/manager.go:69-135 | from every initial state there is a run of nine steps in which a start is refused and the port ends up wanted and down |
| NegSystem.RefusalIsShuttingDown | pkg/networkendpointgroup/syncer.go:101-109 | a start is refused exactly when the stopped syncer of the port still has a goroutine |
| NegSystem.RetriesBounded | pkg/networkendpointgroup/syncer.go:111-147 | between two successful passes at most sixteen retries are armed, across stops and restarts, each with the delay of the closed form |
| NegSystem.FailureIsRetriedIff | pkg/networkendpointgroup/syncer.go:111-147 | in every run a failed pass leaves its goroutine with a retry timer that may go off if and only if it is one of the first sixteen failures in a row, counted from the first pass of the syncer or its last success, across stops and restarts |
| NegSystem.RetryStaysArmed | pkg/networkendpointgroup/syncer.go:132-144 | the timer stays armed, whatever else happens, until the goroutine is woken by it or by its channel |
| NegSystem.WorkerProceeds | pkg/networkendpointgroup/syncer.go:111-147 | no goroutine is ever stuck: a timer that goes off and a token received lead to a pass, a pass to the select, a closed channel to the end, after which the syncer can be started again |
| NegSystem.PassWorksIff | pkg/networkendpointgroup/syncer.go:187-191 | a pass can fail or touch NEGs if and only if its syncer was neither stopped nor shutting down when it began |
| NegSystem.CollectorDeletesUnwanted | pkg/networkendpointgroup/manager.go:197-248 | under any interleaving a NEG the collector deletes is one of this cluster, and at an earlier locked subtraction no entry named it |
| NegSystem.UnwantedIsDoomed | pkg/networkendpointgroup/manager.go:197-238 | a NEG of this cluster that was listed and that no port wants at the subtraction is one the collector goes on to delete |
| NegSystem.NegsChange | pkg/networkendpointgroup/manager.go:197-248 | in every run a NEG comes into being only by a pass of a syncer for its own port, and goes only by such a pass or by the collector |
| NegSystem.ActKeepsObj | pkg/networkendpointgroup/syncer.go:111-147 | one step of a worker keeps its syncer consistent, never changes whether it is stopped and never revives it |
| NegSyncer.RetryFollowsBackoff | pkg/networkendpointgroup/syncer.go:464-473 | doubling and clamping follows min(300, 5 * 2^(n-1)) for every number of failures |
| NegSyncer.Syncer.constructor | pkg/networkendpointgroup/syncer.go:75-91 | a new syncer is stopped, not shutting down, without a channel, with no retries counted |
| NegSyncer.Syncer.Start | pkg/networkendpointgroup/syncer.go:93-148 | fails exactly on a live syncer and then changes nothing, else a fresh open channel and not stopped |
| NegSyncer.Syncer.Stop | pkg/networkendpointgroup/syncer.go:150-159 | closes the channel of a running syncer once, and leaves it as live as it was until its worker is gone |
| NegSyncer.Syncer.Sync | pkg/networkendpointgroup/syncer.go:162-173 | a running syncer holds a token afterwards; the result says whether this call put it there |
| NegSyncer.Syncer.NextRetryDelay | pkg/networkendpointgroup/syncer.go:464-473 | counts a retry and returns the delay of the closed form |
| NegSyncer.Syncer.ResetRetryDelay | pkg/networkendpointgroup/syncer.go:475-478 | no retries counted, the closed form restored |
| NegManager.EnsureRunsIff | pkg/networkendpointgroup/manager.go:69-120 | all wanted ports run afterwards if and only if the kept ones did and none to be started refuses; ports given up are stopped, those of other services untouched |
| NegManager.EnsureAgainDoesNothing | pkg/networkendpointgroup/manager.go:69-90 | asking for the same ports again changes no syncer, so a refused port stays down |
| NegManager.SyncerManager.constructor | pkg/networkendpointgroup/manager.go:55-66 | no ports wanted, no syncers registered |
| NegManager.SyncerManager.EnsureSyncers | pkg/networkendpointgroup/manager.go:69-120 | records the ports, stops those given up, starts those added, touches nothing else, and reports an error exactly when a start is refused |
| NegManager.SyncerManager.StopSyncer | pkg/networkendpointgroup/manager.go:122-135 | stops exactly the syncers of the service and forgets its ports |
| NegManager.SyncerManager.Sync | pkg/networkendpointgroup/manager.go:138-151 | every running syncer of the service holds a token, no other is touched |
| NegManager.SyncerManager.ShutDown | pkg/networkendpointgroup/manager.go:154-160 | every registered syncer is stopped |
| NegManager.SyncerManager.CollectSyncers | pkg/networkendpointgroup/manager.go:163-195 | exactly the syncers that are not live are forgotten; the others stay the same objects |
| NegManager.SyncerManager.CollectNegs | pkg/networkendpointgroup/manager.go:197-237 | without error every zone keeps exactly foreign and wanted NEGs; with one it is between that and what it was |
| NegManager.SyncerManager.DeleteAll | pkg/networkendpointgroup/manager.go:215-248 | removes exactly the doomed NEGs, or on an error only some of them |
| NegRefinement.EnsureRefines | pkg/networkendpointgroup/manager.go:69-120 | for every order of stops and starts, the steps of the transition system give the states, ports and error that the method promises |
| NegRefinement.StopRefines | pkg/networkendpointgroup/manager.go:122-135 | so for StopSyncer, and when the lock is released the ports are forgotten |
| NegRefinement.SyncRefines | pkg/networkendpointgroup/manager.go:138-151 | so for Sync |
| NegRefinement.ShutDownRefines | pkg/networkendpointgroup/manager.go:154-160 | so for ShutDown |
| NegRefinement.CollectKeyRefines | pkg/networkendpointgroup/manager.go:177-183 | a collection step removes a syncer exactly when it is not live |
| NegEndpoints.EncodeRoundTrip | pkg/networkendpointgroup/syncer.go:481-489 | decoding an encoded endpoint gives it back, so the decode error cannot happen for fields without a bar |
| NegEndpoints.EncodedFields | pkg/networkendpointgroup/syncer.go:481-489 | an encoding is IP, instance and port between bars, and decodes to an endpoint with just these, if and only if the port reads as a number |
| NegEndpoints.CanonicalDecodes | pkg/networkendpointgroup/syncer.go:412-435 | a canonical string decodes and encodes back to itself |
| NegEndpoints.ToNetworkEndpointBatch | pkg/networkendpointgroup/syncer.go:412-435 | pops min(n, 500) endpoints, fails exactly when one of those popped does not decode, and otherwise names exactly what those stand for |
| NegEndpoints.DecodeAll | pkg/networkendpointgroup/syncer.go:420-434 | decodes each element in place, or fails exactly when one does not decode |
| NegEndpoints.Drain | pkg/networkendpointgroup/syncer.go:382-406 | fails exactly when some string does not decode; the batches name only what the set stands for and all of it without failure; canonical strings go into ceil(n/500) batches of 1 to 500, each into exactly one |
| NegEndpoints.Difference | pkg/networkendpointgroup/syncer.go:492-509 | per zone exactly what the one map has and the other lacks, no zone without anything |
| NegEndpoints.CalculateDifference | pkg/networkendpointgroup/syncer.go:492-509 | detaching and attaching what it returns turns current into target in every zone, and never the same endpoint both ways |
| NegEndpoints.LaunchAll | pkg/networkendpointgroup/syncer.go:380-406 | fails exactly when some string does not decode; the calls launched, also those before a failure, name only what the map stands for, zone by zone, and all of it without failure |
| NegEndpoints.SyncNetworkEndpoints | pkg/networkendpointgroup/syncer.go:376-409 | fails exactly when a string does not decode, with the calls launched by then within what is to be attached and detached; without failure, and for canonical strings always, they name exactly that |
| NegEndpoints.ExecuteMember | pkg/networkendpointgroup/syncer.go:437-462 | membership after any order and any subset of successes of calls that do not oppose each other |
| NegEndpoints.ReconcileConfluent | pkg/networkendpointgroup/syncer.go:376-409 | in any order of the concurrent calls: if all succeed, each listed zone is the target; if some fail, it is between the intersection and the union of current and target |
| NegEndpoints.OverlapBounded | pkg/networkendpointgroup/syncer.go:376-409 | calls left running by a failed pass interleave with those of the next in any order: if all succeed, the zone differs from the target at most by what a late call attaches or detaches; if some fail, it is within the bounds of a pass widened by that |
| NegEndpoints.OverlapLosesIff | pkg/networkendpointgroup/syncer.go:386-389 | for late calls that do not oppose each other, some order gets an endpoint wrong if and only if a late call detaches one of the target or attaches one that is not |
| NegEndpoints.LateApart | pkg/networkendpointgroup/syncer.go:376-409 | where the strings that decode are canonical, the late calls of one pass never attach and detach the same endpoint |
| NegPass.MatchPort | pkg/networkendpointgroup/syncer.go:299-318 | for a number, the target itself if and only if some port has it; for a name, the number of the first port with exactly that name; empty if there is none |
| NegPass.NumberRead | pkg/networkendpointgroup/syncer.go:298 | a target port in decimal is read as its number, one with a letter in it as none |
| NegPass.PlaceAddresses | pkg/networkendpointgroup/syncer.go:324-333 | puts each address of a subset in the zone of its node; fails exactly when a zone is unknown |
| NegPass.ToZoneNetworkEndpointMap | pkg/networkendpointgroup/syncer.go:295-335 | exactly the endpoints of the addresses of subsets with such a port, each with that port and in the zone of its node; fails exactly when such a node has no known zone |
| NegPass.SyncPass | pkg/networkendpointgroup/syncer.go:187-233 | fails exactly on an unknown zone, then without calls, or on a string that does not decode; its calls are within the difference between target and listed zones, exactly it without failure, and none without difference; plain input fails on zones only |
| NegPass.OnePassSettles | pkg/networkendpointgroup/syncer.go:226-232 | after one pass whose calls succeed, in whatever order, the next one finds no difference |
| NegPass.OddNumberNeverSettles | pkg/networkendpointgroup/syncer.go:295-356 | a numeric target port not in plain decimal leaves something to attach in every pass |
| NegPass.SettlesIff | pkg/networkendpointgroup/syncer.go:187-233 | with a ready address in a listed zone, the pass after one whose calls all succeeded, in any order, finds no difference if and only if the target port is a name or a number in plain decimal |
| NegPass.NeverRestsAt080 | pkg/networkendpointgroup/syncer.go:295-335 | the instance "080": whatever the NEG holds, the endpoint is to be attached |
| NegPass.EncodedSplits | pkg/networkendpointgroup/syncer.go:481-489 | whatever the fields, an encoding splits into at least three parts, so decoding stays in range |
| NegController.Mentions | pkg/networkendpointgroup/controller.go:346-366 | an ingress is selected exactly when its default backend or a path of an HTTP rule names the service |
| NegController.GetIngressServicesFromStore | pkg/networkendpointgroup/controller.go:338-368 | exactly the ingresses of the namespace that name the service, in order |
| NegController.ServicePortTexts | pkg/networkendpointgroup/controller.go:270-285 | the port texts by which the ingresses refer to the service; a crash exactly when one has a rule without HTTP |
| NegController.GatherTargetPorts | pkg/networkendpointgroup/controller.go:269-311 | exactly the target ports of service ports some text refers to; a crash exactly when an ingress has a rule without HTTP |
| NegController.AgreeIff | pkg/networkendpointgroup/controller.go:287-304 | reading a reference as text and reading it by type pick the same ports of every service if and only if it is not a number written as a name |
| NegController.ResolvedIsGathered | pkg/controller/utils.go:373-429 | every target port the load balancer controller resolves from a plain reference is gathered by the NEG controller |
| NegController.NumberAsNameIsMissed | pkg/networkendpointgroup/controller.go:287-304 | a port named "80" is resolved by the one and missed by the other |
| NegController.RuleWithoutHttpCrashes | pkg/networkendpointgroup/controller.go:269-285 | an ingress selected by its default backend with a rule that crashes the gathering |
| NegController.LinkedIsGathered | pkg/backends/backends.go:503-516 | the target port of a NEG that a backend service is linked to is gathered for its service |
| NegController.ProcessService | pkg/networkendpointgroup/controller.go:184-215 | stops or matches the syncers of the service and of no other, and every NEG a backend service links to through a plain reference is then a wanted one; an error, and so another try, exactly when a start was refused |
| L7EdgeHop.RuleChecked | pkg/loadbalancers/loadbalancers.go:535-577 | a forwarding rule check that succeeds leaves the rule on the right proxy, ports and requested IP, and never changes another rule |
| L7EdgeHop.UrlMapChecked | pkg/loadbalancers/loadbalancers.go:288-314 | on success the url map exists and is the recorded one, an existing one as it was, a new one with the default backend and no rules; nothing else changes; with no failing write it fails exactly without a default backend |
| L7EdgeHop.ProxyChecked | pkg/loadbalancers/loadbalancers.go:316-347 | on success the HTTP proxy exists and points at the url map; nothing else changes |
| L7EdgeHop.HttpChecked | pkg/loadbalancers/loadbalancers.go:701-709 | on success the HTTP chain is complete, on port 80, with the IP the user names if it exists, else the recorded one if there is one |
| L7EdgeHop.StaticIpChecked | pkg/loadbalancers/loadbalancers.go:644-674 | only addresses and the recorded IP change |
| L7EdgeHop.CertChecked | pkg/loadbalancers/loadbalancers.go:426-475 | on success the recorded certificate is in the cloud and is the one asked for |
| L7EdgeHop.HttpsProxyChecked | pkg/loadbalancers/loadbalancers.go:486-533 | on success the HTTPS proxy points at the url map and the recorded certificate, alone or as the first of those it had |
| L7EdgeHop.HttpsChecked | pkg/loadbalancers/loadbalancers.go:711-725 | on success the HTTPS chain is complete, on port 443, with the IP the user names if it exists, else the recorded one if there is one, and the HTTP side is untouched |
| L7EdgeHop.EdgeHopCompletesChain | pkg/loadbalancers/loadbalancers.go:676-725 | from any fields and any cloud, missing resources and wrong links included, a pass without error leaves a complete chain for each enabled protocol |
| L7EdgeHop.EdgeHopIps | pkg/loadbalancers/loadbalancers.go:579-674 | after a successful pass: if the user names an IP that exists, the rules of both protocols have it and nothing is reserved or recorded; else the rules have the recorded address, at most the IP of the HTTP rule is newly reserved, and what is reserved is what is recorded |
| L7Settles.ThreePasses | pkg/loadbalancers/loadbalancers.go:644-725 | whatever the first successful pass started from, the second gives both rules one IP and the third writes nothing |
| L7Settles.LaterPass | pkg/loadbalancers/loadbalancers.go:676-725 | once settled, a pass succeeds and writes nothing whatever would happen to a write |
| L7Settles.FirstPass | pkg/loadbalancers/loadbalancers.go:676-725 | where a first successful pass leads: chains complete, the IP reserved or given |
| L7Settles.OneIp | pkg/loadbalancers/loadbalancers.go:579-674 | once settled with both protocols on, both rules have one IP: that of the user if it exists, else the one reserved and recorded under the name of the HTTP rule |
| L7Settles.PassSucceedsIff | pkg/loadbalancers/loadbalancers.go:676-725 | with no failing write a pass succeeds if and only if there is a default backend, a named certificate exists, and an existing HTTPS proxy has one |
| L7Conflict.ConflictIpIff | pkg/loadbalancers/loadbalancers.go:579-674 | after a pass whose reservation met a conflict both rules have one IP if and only if they had before, each with its ports |
| L7Conflict.TwoConflictsIff | pkg/loadbalancers/loadbalancers.go:579-674 | so after two such passes, with nothing asked of the state between them but what the first pass gives |
| L7Conflict.TwoIps | pkg/loadbalancers/loadbalancers.go:579-674 | an instance: from an empty cloud two passes meet a conflict, succeed, and leave the rules on two IPs |
| L7Certificates.NextIsFree | pkg/loadbalancers/loadbalancers.go:391-424 | the name a rotation overwrites is never the one being served |
| L7Certificates.ProxyServes | pkg/loadbalancers/loadbalancers.go:486-533 | repairing the proxy puts it on an existing certificate or leaves its certificate alone |
| L7Certificates.PassKeepsRotation | pkg/loadbalancers/loadbalancers.go:676-725 | every pass, whatever fails in it, keeps the served certificate in existence |
| L7Certificates.RotationSafe | pkg/loadbalancers/loadbalancers.go:349-533 | for one load balancer, over every history of passes, failing writes, restarts and new secrets the served certificate exists, and a successful pass serves exactly the secret |
| L7Certificates.LosesCertificateIff | pkg/loadbalancers/loadbalancers.go:676-725 | a pass can take the served certificate away if and only if there is a default backend, the certificate differs from the secret and the next name is the one being served |
| L7Certificates.ChangeWhilePending | pkg/loadbalancers/loadbalancers.go:412-475 | while a switch is pending, a new secret creates that hazard exactly when the next name is the one being served |
| L7Certificates.ThirdSecretTooEarly | pkg/loadbalancers/loadbalancers.go:412-475 | an instance reached by a new secret, a pass whose switch fails, a third secret and a pass whose creation fails |
| L7Shared.SharedRotationSafe | pkg/loadbalancers/loadbalancers.go:349-533 | for many load balancers with names apart in one cloud, over every history in which their passes and tear-downs interleave, load balancers come, go, come back without fields and are configured anew, with failing writes, restarts and new secrets, every HTTPS proxy names a certificate that exists, and a successful pass serves exactly the secret; excepted are a new secret while a switch is pending and a tear-down in the hazard of TearDownLosesIff or with a certificate of the user recorded |
| L7Shared.TearDownLosesIff | pkg/loadbalancers/loadbalancers.go:920-972 | a tear-down can delete the certificate its own proxy serves if and only if the proxy is not recorded and the certificate is |
| L7Shared.TornDownTooEarly | pkg/loadbalancers/loadbalancers.go:391-475 | an instance: a restart, and a first pass that fails to make the next certificate |
| L7Shared.NeighbourOverwritten | pkg/utils/namer.go:300-305 | names not apart: a pass of `web` puts its certificate where the proxy of `1-web` looks |
| L7Cleanup.StageSafe | pkg/loadbalancers/loadbalancers.go:920-972 | at its turn no step deletes what a remaining resource refers to, whether the delete works or not |
| L7Cleanup.CleanupSafe | pkg/loadbalancers/loadbalancers.go:920-972 | cut short anywhere, Cleanup leaves no dangling reference and can be called again; success leaves no rule, proxy or url map, and of all certificates and addresses exactly the recorded ones are gone |
| L7Cleanup.RemainsAfterCleanup | pkg/loadbalancers/loadbalancers.go:920-972 | from any fields and any cloud, of all certificates and addresses exactly the recorded ones are gone after success |
| L7Cleanup.CleanupProgress | pkg/loadbalancers/loadbalancers.go:920-972 | a call that fails has strictly fewer resources recorded, or stopped at the first delete it tried |
| L7Cleanup.RetriesFinish | pkg/loadbalancers/loadbalancers.go:920-972 | if at most f of the coming writes fail, one of the next f + 1 calls succeeds |
| L7Lifecycle.PassHeld | pkg/loadbalancers/loadbalancers.go:676-725 | however a pass ends, the fields hold the right names, and if every rule, proxy and url map in the cloud was recorded it still is |
| L7Lifecycle.TearDownHeld | pkg/loadbalancers/loadbalancers.go:920-972 | so for a tear-down |
| L7Lifecycle.RunHeld | pkg/loadbalancers/loadbalancers.go:676-972 | over every run of passes with changing configuration, url map updates and tear-downs, once every rule, proxy and url map is recorded this stays so until a restart |
| L7Lifecycle.NothingLeaks | pkg/loadbalancers/loadbalancers.go:920-972 | in every run a tear-down that succeeds leaves no rule, proxy or url map, if there was none at the start or they were all recorded since the last restart |
| L7Remains.ForgetsIff | pkg/loadbalancers/loadbalancers.go:370-475 | a pass can lose sight of a certificate if and only if there is a default backend and it takes up a pre-shared one in its place, or rotates from something else while it waits to be deleted |
| L7Remains.CertificateSurvivesIff | pkg/loadbalancers/loadbalancers.go:920-972 | in every run, restarts included, which certificate survives a successful tear-down: the user's by the configuration, the previous one pending, or one lost to a restart or a forgetful pass |
| L7Remains.AddressSurvivesIff | pkg/loadbalancers/loadbalancers.go:644-674 | in every run the reserved address survives a successful tear-down if and only if it was lost to a restart and not recorded since |
| L7Remains.RestartLearnsIff | pkg/loadbalancers/loadbalancers.go:391-475 | without fields a successful pass has a certificate in sight if and only if proxy, secret or configuration lead to it |
| L7Remains.RestartAddressIff | pkg/loadbalancers/loadbalancers.go:644-699 | and the address if and only if there is none, or both protocols are on and it is managed |
| L7Remains.RestartRecordsIff | pkg/loadbalancers/loadbalancers.go:676-699 | and everything if and only if Findable held of the cloud |
| L7Remains.PreviousCertificateStays | pkg/loadbalancers/loadbalancers.go:920-972 | an instance of a certificate that survives |
| L7Remains.AddressStays | pkg/loadbalancers/loadbalancers.go:676-699 | an instance of an address that survives |
| L7Remains.PreSharedDeleted | pkg/loadbalancers/loadbalancers.go:948-954 | an instance of a tear-down that deletes the user's certificate |
| L7World.NamesValidIff | pkg/utils/namer.go:281-322 | the names derived from one load balancer clash if and only if it is over 54 characters long and those kept are `1-` over and over |
| L7World.NamesSpelled | pkg/utils/namer.go:281-322 | the names of all seven resources of a load balancer, spelled out |
| L7Isolation.NamesApartIff | pkg/utils/namer.go:281-322 | two load balancers share the name of a resource if and only if their names are equal, agree in the first 52 characters being longer, or one is the other behind `1-` as far as it is kept |
| L7Isolation.SharedNames | pkg/utils/namer.go:300-305 | instances of shared certificate names |
| L7Isolation.PassSame | pkg/loadbalancers/loadbalancers.go:676-725 | a pass, however it ends, leaves url map, proxies, rules and address of load balancers with names apart as they were, content included |
| L7Isolation.CleanupSame | pkg/loadbalancers/loadbalancers.go:920-972 | so does a tear-down |
| L7Isolation.PassKeepsCerts | pkg/loadbalancers/loadbalancers.go:349-475 | a pass changes no certificate but the two of its load balancer, unless its fields, proxy or configuration name one of another |
| L7Isolation.UserCertKept | pkg/loadbalancers/loadbalancers.go:349-475 | a certificate whose name does not start with `k8s-ssl` and is none of the two of the load balancer is never changed by a pass, whatever is recorded |
| L7Isolation.CleanupSameCerts | pkg/loadbalancers/loadbalancers.go:948-954 | nor does a tear-down |
| L7Pool.KeysMakeUniverse | pkg/utils/namer.go:267-278 | what of the ingress keys makes the pool address one entry per load balancer and keep them apart: stable and separate names |
| L7Pool.PassInPool | pkg/loadbalancers/loadbalancers.go:106-136 | a pass of one load balancer leaves every other entry and its resources unchanged, and every accounted one accounted |
| L7Pool.TearDownInPool | pkg/loadbalancers/loadbalancers.go:139-151 | so does a tear-down, finished or failed, and removes exactly the recorded certificate and address |
| L7Pool.LoadBalancers.constructor | pkg/loadbalancers/loadbalancers.go:73-78 | an empty pool over any cloud |
| L7Pool.LoadBalancers.Add | pkg/loadbalancers/loadbalancers.go:80-136 | afterwards, however the pass ended, the load balancer is in the pool and asked to be exactly what the runtime info says; on success the HTTPS proxy serves the certificate of the secret in it; no other one changes in the pool or, to the content, in the cloud, certificates included unless it was pointed at one of them; success means complete chains; one from before a restart is wholly in sight if and only if it was findable |
| L7Pool.LoadBalancers.Delete | pkg/loadbalancers/loadbalancers.go:139-151 | the entry leaves the pool only on success, which leaves no rule, proxy or url map of an accounted one and removes exactly the recorded certificate and address; no other load balancer changes; a tear-down that fails leaves just what it has not forgotten yet |
| L7Pool.LoadBalancers.Gc | pkg/loadbalancers/loadbalancers.go:180-207 | without error the pool is what it was within the image of the names, accounted others have no rule, proxy or url map left, and exactly the certificates and addresses their entries recorded are gone; those wanted and those never pooled are untouched in any case |
| L7Balancer.LoadBalancer.constructor | pkg/loadbalancers/loadbalancers.go:80-92 | all fields empty |
| L7Balancer.LoadBalancer.CheckUrlMap | pkg/loadbalancers/loadbalancers.go:288-314 | computes the function that UrlMapChecked is about |
| L7Balancer.LoadBalancer.CheckProxy | pkg/loadbalancers/loadbalancers.go:316-347 | computes the function that ProxyChecked is about |
| L7Balancer.LoadBalancer.CheckForwardingRule | pkg/loadbalancers/loadbalancers.go:535-577 | computes the function that RuleChecked is about |
| L7Balancer.LoadBalancer.CheckHttpForwardingRule | pkg/loadbalancers/loadbalancers.go:614-626 | computes the rule step that HttpChecked is about |
| L7Balancer.LoadBalancer.CheckHttpsForwardingRule | pkg/loadbalancers/loadbalancers.go:628-641 | computes the rule step that HttpsChecked is about |
| L7Balancer.LoadBalancer.CheckStaticIp | pkg/loadbalancers/loadbalancers.go:644-674 | computes the function that StaticIpChecked and ThreePasses are about |
| L7Balancer.LoadBalancer.PopulateSslCert | pkg/loadbalancers/loadbalancers.go:391-410 | computes the certificate that NextIsFree is about |
| L7Balancer.LoadBalancer.CheckSslCert | pkg/loadbalancers/loadbalancers.go:370-475 | computes the function that CertChecked and the rotation theorems are about |
| L7Balancer.LoadBalancer.CheckHttpsProxy | pkg/loadbalancers/loadbalancers.go:486-533 | computes the function that HttpsProxyChecked and ProxyServes are about |
| L7Balancer.LoadBalancer.DeleteOldSslCert | pkg/loadbalancers/loadbalancers.go:349-359 | computes the last step of the rotation |
| L7Balancer.LoadBalancer.EdgeHopHttp | pkg/loadbalancers/loadbalancers.go:701-709 | computes the function that HttpChecked is about |
| L7Balancer.LoadBalancer.EdgeHopHttps | pkg/loadbalancers/loadbalancers.go:711-725 | computes the function that HttpsChecked and LosesCertificateIff are about |
| L7Balancer.LoadBalancer.EdgeHop | pkg/loadbalancers/loadbalancers.go:676-699 | no recorded rule, proxy or url map goes out of sight however it ends, and success means a complete chain for each enabled protocol |
| L7Balancer.LoadBalancer.DeleteStage | pkg/loadbalancers/loadbalancers.go:920-972 | deletes what one field records, then clears it; on failure the field stays |
| L7Balancer.LoadBalancer.Cleanup | pkg/loadbalancers/loadbalancers.go:920-972 | leaves no dangling reference however it ends; on success no rule, proxy or url map if all were recorded, and of certificates and addresses all but the recorded ones |
| L7Balancer.LoadBalancer.UpdateUrlMap | pkg/loadbalancers/loadbalancers.go:787-853 | on success the cloud routes every host and path as the nested maps ask, written or skipped; on failure no url map changes, and never another one; a crash exactly with no default backend at all; always an event of the runs of L7Lifecycle |
| L7Balancer.LoadBalancer.RouteIngress | pkg/controller/utils.go:296-354 | from ingress to cloud: on success every path of every host but the reserved `DefaultBackend` goes to the backend service of the node port of the last matching path that has one, in the last HTTP rule of the host, an empty host being `*` and an empty path `/*`; else to that of the default backend, else to the default of the system; an error without any change if a path cannot be resolved for good |
| Routing.MapsEqual | pkg/loadbalancers/loadbalancers.go:855-915 | true exactly when the maps agree in everything but the name |
| Routing.BuildPathRules | pkg/loadbalancers/loadbalancers.go:826-831 | for every iteration order, each path of the table finds its backend and no other path finds any |
| Routing.BuildUrlMap | pkg/loadbalancers/loadbalancers.go:793-832 | for every iteration order, the url map routes every host and path as the nested maps ask |
| Routing.GetDefaultBackend | pkg/utils/utils.go:65-100 | gives back the default that was put in and removes exactly its entry |
| Ingresses.GetServiceNodePort | pkg/controller/utils.go:373-429 | found if and only if the service exists, its protocols parse and some port has the number or name; then the node port, protocol, target port and NEG switch of the first such port; a parse error is told apart |
| Ingresses.FatalIff | pkg/controller/utils.go:304-321 | the translation of an ingress fails if and only if, for some path of an HTTP rule, the protocols do not parse or the node port has no backend service |
| Ingresses.DestinationIs | pkg/controller/utils.go:296-354 | where an ingress sends a path of a host, in terms of node ports alone: by the rule and path that decide, else by the default backend, else to the default of the system |
| Ingresses.PathsToTable | pkg/controller/utils.go:303-328 | fails exactly on a backend that is unresolvable for good; else each path has its last resolvable backend |
| Ingresses.ToUrlMap | pkg/controller/utils.go:296-354 | fails exactly when such a path is in an HTTP rule; else each host has the table of its last HTTP rule, and the default is in its entry |
| Ingresses.WantedIsAsked | pkg/controller/utils.go:296-354 | what the nested maps ask of every host and path is what the ingress asks, or the default for the reserved host `DefaultBackend` |
| Ingresses.ServedAsAskedIff | pkg/utils/utils.go:65-100 | what a host and path is served is what the ingress asks, else the default, if and only if the host is not the reserved one, or nothing or just the default is asked |
| Ingresses.AdmittedHostServed | pkg/utils/namer.go:67-72 | every host in the alphabet of host names is served as asked |
| Ingresses.RuleUnheard | pkg/utils/utils.go:94-100 | an instance: a rule for the host `DefaultBackend` is not served |
| Ports.IngressToNodePorts | pkg/controller/utils.go:441-467 | exactly the ports that the default backend and the paths of HTTP rules refer to, in order, each with its node port and the rest |
| Ports.NeedsIff | pkg/controller/utils.go:441-467 | an ingress needs a port if and only if its default backend or a path of an HTTP rule refers to it |
| Ports.ToNodePorts | pkg/controller/utils.go:432-438 | exactly the ports some ingress needs |
| Ports.RoutedPortsAreNeeded | pkg/controller/utils.go:296-369 | any backend a url map names, for any host and path, is that of a port its ingress needs |
| Ports.Uniq | pkg/controller/utils.go:659-669 | one entry for each node port of the list, the last one given for it |
| Ports.ListEndpointTargetPorts | pkg/controller/utils.go:255-288 | the number itself, or exactly the TCP endpoint ports of that name |
| Ports.GatherFirewallPorts | pkg/controller/utils.go:559-587 | exactly the node ports, or for NEGs the endpoint ports, that some service port needs, each once |
| Ports.SyncPorts | pkg/controller/controller.go:274-314 | the ports of all ingresses are listed for collection; those a served ingress needs survive uniq by node port and all they need is open in the firewall, and nothing else is |
| Backends.BackendPool.constructor | pkg/backends/backends.go:126-165 | an empty pool; the ports to ignore under their keys |
| Backends.BackendPool.Ensure | pkg/backends/backends.go:249-320 | tracks the port even if a creation fails; success means service and health check exist; no other port changes |
| Backends.BackendPool.Delete | pkg/backends/backends.go:323-340 | the key leaves the pool only when service and health check are both gone |
| Backends.BackendPool.Gc | pkg/backends/backends.go:454-475 | whatever fails, nothing behind a listed or ignored port is touched and nothing is forgotten; without error exactly what is behind the other pooled ports is gone, with one a part of that; a key that is no 16-bit number is an error |
| Backends.BackendPool.GcForIngresses | pkg/controller/cluster_manager.go:173-206 | the collection of a sync keeps whatever any ingress needs |
| Backends.BackendPool.ReplenishPool | pkg/storage/pools.go:81-103 | relisting adds exactly the ports of the backend services with the tag of the cluster, each under the very key the pool uses for it |
| Backends.CollectedExactly | pkg/backends/backends.go:454-475 | of the tracked ports, just those to be kept still have their service |
| Backends.RestartCollectsExactly | pkg/backends/backends.go:148-162 | after a restart the first relisting and collection leave exactly the services that are needed or whose name cannot carry the uid whole, and exactly the health checks of those and of services already gone |
| Backends.NamedIff | pkg/backends/backends.go:148-162 | relisting leads to a port if and only if its service is in the cloud and its name carries the uid whole |
| Backends.HalfDeleteLeaksCheck | pkg/backends/backends.go:323-340 | an instance: a delete that fails half way, then a restart, and the health check stays |
| Backends.RoutedBackendKept | pkg/backends/backends.go:454-475 | however a collection ends, every backend a listed ingress routes to is still there |
| Backends.EdgeHop | pkg/backends/backends.go:391-451 | on success every instance group is linked and none was unlinked; no update if all were; what is lacking is added at a rate whenever the cloud accepts that, by utilization only after a bad request |
| TrimFields.RemainderBounds | pkg/utils/utils.go:172-184 | the remainder is between 1 and the number of fields, so incrementing stays in range |
| TrimFields.TrimmedFits | pkg/utils/utils.go:160-192 | otherwise every result is a prefix of its field and the lengths add up to exactly min(total, max) |
| TrimFields.TrimmedEvenly | pkg/utils/utils.go:157-184 | truncation is in proportion: every field keeps its share of the maximum, rounded up, and all behind the remainder one character less |
| TrimFields.TrimFieldsEvenly | pkg/utils/utils.go:160-192 | the loops crash exactly when an empty field stands at or behind the remainder, and otherwise give prefixes of the fields whose lengths add up to exactly min(total, max), each its proportional share rounded up, or one less behind the first few |
| TrimFields.EmptyFieldOutOfRange | pkg/utils/utils.go:172-190 | an instance of the crash, with the three fields and the limit of 30 of a NEG name |
| TrimFields.FirstPass | pkg/utils/utils.go:172-180 | the scaled lengths and what they leave of the maximum |
| TrimFields.CutAll | pkg/utils/utils.go:186-191 | the fields cut to their final lengths, or the crash |
| Text.LastTokenAppend | pkg/utils/namer.go:117-128 | a token behind a doubled delimiter comes back from the split if and only if an even run of delimiters precedes it |
| Text.AtoiItoa | pkg/networkendpointgroup/syncer.go:412-435 | reading a printed int64 gives it back |
| Text.AtoiReads | pkg/networkendpointgroup/syncer.go:412-435 | a sign and leading zeros are read, a number out of the int64 range is not |
| Namer.Store.constructor | pkg/utils/namer.go:101-107 | the stored uid is the part behind the last delimiter |
| Namer.Store.SetUid | pkg/utils/namer.go:117-128 | a stored uid never holds the delimiter |
| Namer.LoadBalancerSpelled | pkg/utils/namer.go:267-278 | the name of a load balancer that fits: namespace, name and cluster uid |
| Namer.LoadBalancerIdempotentIff | pkg/utils/namer.go:267-278 | naming a name again changes nothing if and only if LbStable holds of the key |
| Namer.LoadBalancerIdempotent | pkg/utils/namer.go:267-278 | idempotent, truncated or not, for every key of nonempty parts that neither start nor end with a dash |
| Namer.LoadBalancerNotIdempotent | pkg/utils/namer.go:267-278 | not idempotent on a key with an empty part |
| Namer.BackendRoundTrip | pkg/utils/namer.go:222-241 | the port comes back from the name for every uid, even under truncation |
| Namer.BackendInjective | pkg/utils/namer.go:222-224 | different ports have different backend names |
| Namer.BackendBelongsIff | pkg/utils/namer.go:203-219 | a backend name belongs to the cluster if and only if its uid came through truncation unharmed |
| Namer.BelongsToOne | pkg/utils/namer.go:203-219 | a backend name that carries its uid whole belongs to the cluster of that uid and to no other |
| Namer.SslCertNamesCollideIff | pkg/utils/namer.go:300-305 | primary and secondary name coincide if and only if the load balancer name is over 54 characters and those kept are `1-` over and over |
| Namer.SslCertNamesCollide | pkg/utils/namer.go:300-305 | an instance of it |
| Namer.RuleNamesDiffer | pkg/utils/namer.go:308-317 | the two forwarding rules never share a name |
| Namer.PrefixedNamesCollideIff | pkg/utils/namer.go:162-170 | two names behind one prefix collide if and only if they are equal, or too long and equal in all that is kept |
| Namer.NegLength | pkg/utils/namer.go:340-360 | a NEG name starts with `k8s1-` and the uid, has the length stated, and at most 63 characters for a uid of up to 16 |
| Namer.NegPanics | pkg/utils/namer.go:340-347 | an instance: with an empty port and a namespace and name of 21 and 20 characters there is no NEG name |
| Namer.NegExists | pkg/utils/namer.go:340-347 | nonempty fields always have a NEG name |
| Namer.JoinSeparates | pkg/utils/namer.go:340-347 | joined and concatenated forms together determine the three fields |
| Namer.NegSeparates | pkg/utils/namer.go:340-360 | equal NEG names of untrimmed fields mean the same triple, or different concatenations that collide in the eight hash characters |
| Namer.NegCollideIff | pkg/utils/namer.go:340-360 | NEG names of fields of any length are equal if and only if the trimmed labels are and the eight hash characters of the fields before trimming |

## Left out

- GCE and Kubernetes clients, informers, work queues, events, annotations, logging, flags and HTTP handlers.
- Cloud reads that fail; the model has only writes fail.
- Health check settings, firewall rules beyond their ports, TLS loading, the uid config map, instance groups and nodes: these are field copies and single decisions.
- Retries of the NEG controller's service queue, and creating the NEG of each zone before a pass; in NegSystem a pass may create or delete its NEG at any time.
- Two garbage collections at once: the controller runs one goroutine for it, and a second could look up a syncer already removed.
- Creation of the default backend before a sync of the pool and its removal when no load balancer is left.
- Changes of the cluster uid and of pre-shared certificates during a run.
- L7Isolation.PassKeepsCerts: takes a pre-shared certificate not to be named like one of another load balancer; a pass pointed at such a one may delete it later.
- L7Shared.SharedRotationSafe: is about TLS from secrets; pre-shared certificates are in L7Remains.
- Namer.NegSeparates: is about fields of at most 30 characters together, because trimmed names do not separate; NegCollideIff is about all.
- L7Pool.LoadBalancers.Add: says what success means for a cloud in which url maps are found under their own names and no IP is empty.
- Routing.BuildUrlMap: takes the hosts present to have different digests; it does not assume the digest injective.
- Backends.BackendPool.Ensure: models which resources exist, not their settings, and node ports up to 65535 as the API server admits them.
- Backends.RestartCollectsExactly: takes services with the tag of the cluster to be named as Ensure names them, and a uid without a double dash.
- NegEndpoints.OverlapLosesIff: takes late calls that do not oppose each other, which LateApart gives where the strings that decode are canonical.
- Ingresses.GetServiceNodePort: node ports are natural numbers, as the API server admits them.
