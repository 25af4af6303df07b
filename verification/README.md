# Stackdome cluster agent: a verified model

The cluster agent is a Kubernetes operator. This project models its state machines in Dafny
and proves what they keep over whole runs:

- the port verifier, a concurrent single-flight work queue, and the reconciler that turns
  its answers into a verdict with a grace clock kept on the status;
- one reconcile pass of a StackResource: registry credentials, image build, workload and
  service stages, the verdicts they report, and the derivation of the summary status;
- the dependency gate between sibling resources;
- TLS staging: two grace clocks, two Ingresses, and the published addresses;
- the Stack status aggregated from its children;
- the ImageBuild lifecycle, housekeeping of old builds, and derived names.

## How it is built

Each component has specification functions on values (`Status`, `PassState`, `Shared`,
`Build`, `StackStatus`). Where the operator updates an object step by step, methods on the
classes `Verifier`, `StackResource`, `VerdictCollector`, `IngressStore` and `ImageBuildObject` do the same
and are proved to leave exactly the specified state. The theorems are lemmas about the
specification functions, so they hold of the methods too.
Evaluations, PassReports, PassOutcomes, TlsReports, StackReports and BuildResults say what each
operation decides in terms of what it reads, without the functions that compute it.

What a pass reads from the cluster is a parameter, called a sight: it is arbitrary, so a
theorem over all sights covers every answer the cluster can give, an operator restart that
empties the verifier, and failed calls. A pass that fails, or whose status write is lost,
stores nothing. Time is a parameter in whole seconds. The verifier is modelled as
interleaved atomic sections: the two sections of `Enqueue`, taking a job, finishing a dial,
publishing, reading and forgetting.

| file | models |
|---|---|
| Meta, Sorting, Resource | conditions, library sort, the StackResource and its pass state |
| Dialer, Verifier, VerifierProtocol, VerifierTheorems | dial results, the verifier object, its interleavings |
| Readiness, Backoff, PortRuns, PortPolling, OutageRuns, TlsPolls, DialEvidence | the port verdict, its history over runs, when it is looked at again, retry times, the dial behind it |
| Dependencies, DependencyRuns, DependencyProgress | the dependency gate, runs of a namespace, progress in dependency order |
| Workload, WorkloadReconciler, Evaluations, ConvergenceRuns | gates and evaluation per workload type, what they report, the convergence record over runs |
| IngressDrift, Tls, Routes, Service, ServiceReconciler, TlsReports, TlsRuns, AddressRuns | Ingress writes, routes, TLS stages, addresses, how the stage ends, clocks and addresses over runs |
| Derive, Chain, PassTheorems, PassReports, PassOutcomes, RolloutRuns, ResourceController | derivation, the chain of stages, what a pass guarantees and reports, the workload conditions over runs |
| Aggregate, StackReports, ThreeLayers | Stack aggregation, what it reports, readiness across all layers |
| ImageBuild, BuildResults, BuildController, Housekeeping, SharedImages | build lifecycle and results, retention, build and credential stages, shared image references |
| Names | sanitised and derived names |

`dafny verify dfyconfig.toml` checks the whole project.

## What turned out differently

Each of these is false of the code as its comments or its purpose would have it. Each has an
input that shows it and the exact condition under which the code meets it.

- TLS waiting is not bounded by the grace period alone. A pass that cannot resolve the
  ClusterIssuer, be it for a failed lookup, clears WaitingSince although the path is in use
  and not ready, so the next pass waits a full period again
  (`TlsRuns.FailedLookupRestartsTheClock`). WaitingSince stays fixed exactly as long as no
  pass loses the issuer (`TlsRuns.WaitingSinceIsFixed`).
- Dependency order does not hold from every state where nothing is available. A resource
  built from source that is recorded as serving becomes Available when its build fails,
  without a look at its dependencies (`DependencyRuns.FailedBuildBypassesGate`). The order
  holds from exactly the starts in which no such resource with dependencies is recorded as
  serving (`DependencyRuns.StartConditionIsExact`).
- An image can outlive its build, although a comment promises that deletion always triggers
  cleanup: the Job may push while the build is deleted
  (`ImageBuild.DeletionCanLeakAnImage`). An image is left exactly when its success was not
  recorded at the deletion request (`ImageBuild.FinalizerDeletesRecordedImages`).
- A running port clock is not always polled. A pass that stops before the check, for instance
  for a restart request (`PortPolling.RestartStopsPolling`), asks for nothing.
  `PortPolling.RunningClockIsPolled` lists these stops, and there are no others.
- The comment on the retry times of a failed port lists 1, 1, 2, 4, 8, 10 minutes. Because a
  pass that lines up the dial lies between two polls, the second wait is already longer
  (`OutageRuns.SecondWaitIsLonger`). The chain asks for that sequence exactly when the first
  slow poll comes at the end of the grace period and the next four when the one before asked
  for (`OutageRuns.CommentHoldsIffOnTime`); it is a lower bound otherwise
  (`OutageRuns.SlowPollsBackOff`).
- A hit after `Forget` does not always come from a later dial: a worker may hold a finished
  dial that it has not published (`VerifierTheorems.ForgetCanMissADial`).
  `VerifierTheorems.ForgetIsFreshIff` gives the condition, and `ForgetOfAnAnswer` shows that
  the reconciler's use is safe.
- The two Ingresses can share a port number when a spec repeats it
  (`Routes.SharedNumberOverlaps`, `Routes.IngressesPartitionPorts`).
- A lost status write can leave a stored https address that no Ingress terminates
  (`AddressRuns.SomeRunStoresDeadAddress`). Over a run all stored https addresses work at all
  times exactly when every pass is stored, ends before the service stage, or leaves every
  stored https address served (`AddressRuns.StoredHttpsAddressesWork`), which depends only on
  the spec, on what the pass reads and on the Ingresses before it (`AddressRuns.StageServes`).
- Pruning an old build can delete the image of the current one. A tag names repository and
  revision only, or is fixed, so a rebuild with other arguments pushes to the old reference
  (`SharedImages.SharedReferenceIff`, `SharedImages.PruningCanTakeTheCurrentImage`). The image
  stays exactly when no pruned build with the same reference gets its deletion through
  (`SharedImages.RetentionKeepsImageIff`).
- `SanitizeDNSLabel` is not idempotent for an unclean fallback, and a Job name can start
  with a digit, which RFC 1035 labels do not allow (`Names.UncleanFallback`,
  `Names.SanitizeIdempotentIff`, `Names.DigitFirstJobName`, `Names.BuildJobNameIsLegal`).
  Both fallbacks in use are clean.

## Model

| member | source | states |
|---|---|---|
| `DependencyRuns.AvailableOnlyAfterDependencies` | internal/controller/stackresource/workload_dependency_checker.go:21-40 | In every run with fixed specs from a safe start where nothing is available, a resource is Available only after each name it depends on was Available, at its own generation, at a strictly earlier time; stale listings, failed passes and lost writes included |
| `DependencyRuns.StartConditionIsExact` | internal/controller/stackresource/status_derive.go:46-60 | From a start where nothing is available, all runs keep the dependency order if and only if no resource that is built from source and has dependencies is recorded as serving |
| `DependencyRuns.FailedBuildBypassesGate` | internal/controller/stackresource/status_derive.go:46-60 | Every resource built from source that is recorded as serving becomes Available on a pass that finds its build failed, without a look at its dependencies |
| `DependencyRuns.ImageResourceNeedsOpenGate` | internal/controller/stackresource/workload/reconciler.go:70-96 | A resource not built from source claims Available only on passes whose gate is open, whatever was recorded before |
| `DependencyRuns.CyclesNeverBecomeAvailable` | internal/controller/stackresource/workload/reconciler.go:70-96 | From a safe start, no member of a set in which each member depends on a member (a cycle, a self-dependency, anything behind one) is Available in any state of any run |
| `DependencyRuns.MissingDependencyBlocks` | internal/controller/stackresource/workload_dependency_checker.go:128-146 | From a safe start, a resource that depends on a name no resource bears is never Available |
| `DependencyRuns.ServingNeedsOpenGate` | internal/controller/stackresource/status_derive.go:46-100 | A pass can only turn Available or WorkloadAvailable on for this generation behind an open dependency gate |
| `Dependencies.CountCheckIsComplete` | internal/controller/stackresource/workload_dependency_checker.go:128-146 | For uniquely named siblings the two lengths agree exactly when every dependency exists, is listed once and is not the resource itself |
| `Dependencies.GateMeaning` | internal/controller/stackresource/workload_dependency_checker.go:21-40 | For uniquely named siblings, from names and conditions alone: Open iff there is no dependency, or the listing is there, no name repeats and each is another listed sibling that is Available at its own generation; Blocked iff all that holds except that some listed dependency is not available; an error iff otherwise |
| `DependencyProgress.ShownAvailableLetsThrough` | internal/controller/stackresource/workload/reconciler.go:70-96 | With every dependency listed and available, however many, a stored pass whose credentials, build and volumes are in order, whose workload serves and for which no TLS path waits makes its resource Available |
| `DependencyProgress.OneRoundSuffices` | internal/controller/stackresource/workload_dependency_checker.go:21-40 | One round of such passes in dependency order, each with a fresh listing, makes every resource Available, from any start where nothing is |
| `Dependencies.OpenGateMeaning` | internal/controller/stackresource/workload_dependency_checker.go:21-40 | An open gate means every dependency is another sibling seen Available at its own generation |
| `ThreeLayers.ReadyMeansReadyInEveryLayer` | internal/controller/stack/aggregate.go:314-416 | With child statuses written by runs of passes: Stack Ready iff Stack Converged iff every desired child exists converged and no other child exists; then every desired child is Ready, Available, not Stalled, over a converged and available workload at its current generation, and the Stack is Available and not Stalled |
| `ThreeLayers.RunsAreCoherent` | internal/controller/stackresource/status_derive.go:46-100 | Every status that any run of passes writes is coherent: Converged implies phase Ready, Available, not Stalled, WorkloadConverged and WorkloadAvailable for one generation |
| `ThreeLayers.ReadyStackSawRollouts` | internal/controller/stack/aggregate.go:314-416 | A Stack is Ready only if, for each desired child, the last stored look at its workload was at its current generation and saw it rolled out: for a Deployment, all wanted replicas updated, ready and available |
| `RolloutRuns.LastLookDecides` | internal/controller/stackresource/workload/deployment.go:113-152 | Over any run both workload conditions say what the last stored pass that evaluated the workload read from it, for its generation, and are absent before the first |
| `RolloutRuns.ConvergedWasRolledOut` | internal/controller/stackresource/workload/availability.go:27-47 | A generation reported as converged was seen rolled out by the last stored look |
| `PassTheorems.PassKeepsCoherent` | internal/controller/stackresource/workload/deployment.go:113-152 | One pass, whatever it sees, keeps that coherence, including that a converged workload is an available one |
| `PortRuns.PortFailureIsNeverPremature` | internal/controller/stackresource/workload/readiness.go:53-130 | Over all runs, a reported port failure has a persisted refusal of the same revision at least one grace period earlier, and no persisted pass since judged an open answer, a refusal of another revision, a crash or an absent check; an unanswered pass, of whatever revision, judges nothing and keeps the clock |
| `DialEvidence.PortFailureWasDialed` | pkg/portcheck/verifier.go:87-112 | If answers come from the verifier of their process, a reported port failure goes back, across restarts, to a finished dial of exactly that resource and revision that found a port of its job refused |
| `PortRuns.SomeRunFails` | internal/controller/stackresource/workload/readiness.go:83-130 | A two-pass run in which a refusal followed by silence for the grace period is reported, so the theorem is not empty |
| `PortRuns.RunningClockHasStart` | internal/controller/stackresource/workload/readiness.go:180-185 | Every running clock on the status was started by a persisted refusal that no persisted pass has contradicted |
| `PortRuns.PassPortFacts` | internal/controller/stackresource/workload/readiness.go:53-130 | The port record a pass persists is exactly its event applied to the record it read, and a port verdict means the check condemned the revision |
| `PortPolling.RunningClockIsPolled` | internal/controller/stackresource/workload/deployment.go:126-168 | Whenever a persisted pass leaves a record that asks for another look (a condemned revision that serves, or a running clock with an answer or a pod), the whole chain returns a positive wait, if and only if the pass did not stop before the check in one of the listed ways; a stopped pass asks for nothing |
| `PortPolling.RestartStopsPolling` | internal/controller/stackresource/workload/deployment.go:44-48 | A restart request leaves a running clock with a pod to dial and asks for nothing |
| `Readiness.CrashMeaning` | internal/controller/stackresource/workload/readiness.go:53-60 | When the first failure detail is of any other kind than the check writes, the check drops its record, leaves details, verdicts and conditions as they were and asks for nothing |
| `Readiness.CheckMeaning` | internal/controller/stackresource/workload/readiness.go:53-130 | Otherwise it leaves the record of the answer, keeping the clock within a revision, and blames the ports, reports the failure and takes WorkloadConverged away exactly when that record names a port refused for the grace period; else it leaves no detail |
| `Readiness.WaitMeaning` | internal/controller/stackresource/workload/readiness.go:53-143 | It asks for thirty seconds exactly while an answer is pending, and for a dead workload that serves for the time it has been dead, between one and ten minutes |
| `PassReports.CrashOwnsTheDiagnosis` | internal/controller/stackresource/workload/readiness.go:189-192 | A stored pass leaves a crash detail exactly when the rollout it read is not complete and its revision has shown a crash; it then keeps the details, stores no port record and reports no port failure |
| `Readiness.VerdictReadsBack` | internal/controller/stackresource/workload/readiness.go:83-130 | On every branch the check fails exactly when the record it leaves is a failure of this revision with a named port and a clock at least the grace period old |
| `Readiness.CheckNeverStalls` | internal/controller/stackresource/workload/readiness.go:53-76 | The wait of one check: positive whenever a clock still runs with an answer or a pod, at least thirty seconds for a condemned serving workload; verdict and WorkloadConverged follow the record |
| `Readiness.CheckKeepsAvailability` | internal/controller/stackresource/workload/readiness.go:53-76 | A port verdict touches no condition but WorkloadConverged, which it can only take away |
| `VerifierProtocol.InvAlways` | pkg/portcheck/verifier.go:48-63 | In every state of every interleaving: markers are exactly the names of the jobs held by enqueuers, queue and workers, each once; the queue holds exactly the queued jobs within its bound; workers hold one job each; answers are ordered by admission; stored answers are the latest |
| `VerifierTheorems.HitMeaning` | pkg/portcheck/verifier.go:104-112 | A hit was dialed for exactly the asked key and its ports and is the last one published for the name; answers of one name are published in the order their jobs were admitted |
| `VerifierTheorems.RollBackReleasesOwnName` | pkg/portcheck/verifier.go:122-144 | Rolling back on a full queue releases only its own marker, which can be set again; every other job keeps marker, place and turn |
| `VerifierTheorems.WorkersDrainPending` | pkg/portcheck/verifier.go:87-100 | Once admissions stop, a run moves jobs at most a computed number of times, and nothing can move exactly when every marker is cleared |
| `VerifierTheorems.NeverStuck` | pkg/portcheck/verifier.go:87-100 | While a marker is set some job can move |
| `VerifierTheorems.ForgetIsFreshIff` | pkg/portcheck/verifier.go:157-165 | After Forget(key), in every continuation each hit comes from a dial that finished later, exactly when no worker held a finished unpublished dial for that key; a cleared marker suffices |
| `VerifierTheorems.ForgetCanMissADial` | pkg/portcheck/verifier.go:157-165 | A run after which Forget is followed by an answer dialed before it: the unconditional promise is false |
| `VerifierTheorems.ForgetOfAnAnswer` | pkg/portcheck/verifier.go:157-165 | Forgetting an answer that is stored, as the reconciler does, makes every later hit come from a job admitted afterwards |
| `VerifierTheorems.AllOpenIsSticky` | internal/controller/stackresource/workload/readiness.go:92-124 | Once a dial of a revision found all ports open, every later question gets that answer and no dial for it is admitted, until another revision of the object is published |
| `VerifierTheorems.DisciplinedAlways` | internal/controller/stackresource/workload/readiness.go:118-124 | Used one reconcile at a time per object, an object about to forget a key never has an all-open answer for it stored or in flight |
| `OutageRuns.SlowPollsBackOff` | internal/controller/stackresource/workload/readiness.go:137-143 | Over any run whose passes come no earlier than requested, the m-th slow poll of an outage makes the whole chain ask for a wait between one and ten minutes that never shrinks and is at least min(2^(m-1), 10) minutes, and an outage of length D has at most 6 + D / 10 minutes slow polls |
| `TlsPolls.DeadPollsAreBounded` | internal/controller/stackresource/workload/readiness.go:137-143 | An outage of length D has at most 6 + D / 10 minutes dead polls plus one for each stretch of waiting for a certificate or a Secret, counting also the polls whose wait a TLS retry replaces |
| `TlsPolls.DisturbedAsksForDeadline` | internal/controller/stackresource/svc_reconciler.go:314-322 | A pass that a TLS retry ends comes back exactly at the deadline of the clock that a waiting path leaves behind |
| `TlsPolls.StretchEnds` | internal/controller/stackresource/cert_stage.go:50-59 | Between two passes that one path ends, when passes come no earlier than requested, the clock of the path is cleared |
| `OutageRuns.CommentHoldsIffOnTime` | internal/controller/stackresource/workload/readiness.go:132-143 | The slow polls of an outage make the chain ask for the commented 1, 1, 2, 4, 8, 10, 10, ... minutes if and only if the first comes at the end of the grace period and the next four exactly when the one before asked for; a single poll, within a minute |
| `Backoff.AnnouncedIffOnTime` | internal/controller/stackresource/workload/readiness.go:132-143 | The same for the poll times alone |
| `OutageRuns.OutageKeepsItsStart` | internal/controller/stackresource/workload/readiness.go:180-185 | FailingSince is constant over an outage |
| `OutageRuns.SlowPollAsksForBackoff` | internal/controller/stackresource/workload/readiness.go:53-76 | A persisted pass that judges a refusal of a condemned serving revision, and whose TLS paths ask for nothing, makes the whole chain ask for exactly the backoff of the record it leaves |
| `OutageRuns.SecondWaitIsLonger` | internal/controller/stackresource/workload/readiness.go:132-143 | A run on the requested schedule whose slow polls ask for 60 s and then 90 s, where the comment announces 60 s twice |
| `Backoff.WaitsDouble` | internal/controller/stackresource/workload/readiness.go:137-143 | Waits at poll times that respect them lie between one and ten minutes, never shrink, and wait k is at least min(2^(k-1), 10) minutes |
| `Backoff.PollsAreBounded` | internal/controller/stackresource/workload/readiness.go:28-32 | Such poll times number at most 6 + D / 10 minutes over a length of D |
| `PassOutcomes.PassStoredIff` | internal/controller/stackresource/stackresource_controller.go:59-118 | A pass is stored iff no stage that it reaches fails, each failure spelled out in the calls it makes, the current build can be read and the status write is accepted; otherwise it ends in error and leaves the stored status as it was |
| `PassTheorems.EarlyExitsCarryVerdicts` | internal/controller/stackresource/stackresource_controller.go:96-118 | A pass that stops or requeues before the last stage has reported a verdict, so it never ends Ready, Degraded, Converged or with a ready summary; Available implies WorkloadAvailable for this generation |
| `PassTheorems.RequeueSurvivesTheChain` | internal/controller/stackresource/stackresource_controller.go:96-118 | A requeue the workload stage needs is never lost: the chain fails or comes back after a positive time |
| `PassTheorems.ConvergedServicePublishesAllPorts` | internal/controller/stackresource/svc_reconciler.go:68-99 | A resource that reports Converged has published exactly one address per public port, at its host, and no other |
| `Evaluations.DeploymentMeaning` | internal/controller/stackresource/workload/deployment.go:107-168 | WorkloadAvailable is True for this generation iff the Deployment observed its generation and some Available condition is True; WorkloadConverged iff moreover updated, ready and available replicas equal the wanted count (1 when absent), none is unavailable and no port is blamed; a crash is blamed before any port; not serving is reported as not ready |
| `Evaluations.DeploymentReturns` | internal/controller/stackresource/workload/deployment.go:126-168 | When the pass goes on, comes back and after what time, from serving, rollout, diagnosis, the wait of the check and the first decisive Progressing condition |
| `Evaluations.StatefulSetMeaning` | internal/controller/stackresource/workload/statefulset.go:77-135 | The same for a StatefulSet, which serves and is converged iff its one replica runs the update revision, is ready and available and its generation is observed |
| `Evaluations.ReconcileJobMeaning` | internal/controller/stackresource/workload/job.go:20-141 | A missing Job is created, a Job that ended under another revision is replaced, a succeeded one is served and converged, a failed one is a failure, a running one is not ready and returns unless it crashed |
| `Evaluations.CronJobMeaning` | internal/controller/stackresource/workload/cronjob.go:66-102 | A CronJob in place is served and converged; the details are those of the child that completed last, and none if it succeeded |
| `Evaluations.ApplyMeaning` | internal/controller/stackresource/workload/deployment.go:33-52 | Failed and invalid applications and restarts requested after the last one carried out end the pass before the evaluation; a restart changes nothing but its time |
| `PassReports.PassReportsWorkload` | internal/controller/stackresource/workload/reconciler.go:70-125 | A stored pass writes both workload conditions, as read, exactly when it gets past credentials, build and gates and evaluates the workload, and leaves both alone otherwise |
| `PassReports.EarlyStagesMeaning` | internal/controller/stackresource/image_build_reconciler.go:29-88 | Exactly when the credential and build stages fail, stop or go on, and that only a failed build that was not cancelled stops with a failure |
| `PassReports.ClosedGateMeaning` | internal/controller/stackresource/workload/reconciler.go:70-110 | Which condition, verdict and return each closed gate of the workload stage gives |
| `Workload.WorkloadStageFacts` | internal/controller/stackresource/workload/reconciler.go:70-125 | Every exit of the stage carries a verdict, convergence implies serving, summary and routes stay untouched, and serving is asserted only behind an open gate |
| `Chain.ChainUnrolls` | internal/controller/stackresource/stackresource_controller.go:96-118 | The loop over the stages is four applications in order, keeping the last deferred requeue |
| `Derive.SummaryMeaning` | internal/controller/stackresource/status_derive.go:24-100 | Exact phase, Available, Stalled and Converged for any verdicts and domain conditions; Stalled and Converged exclude each other; summary ready iff phase Ready and Available; phase Failed implies summary failed; nothing else is written |
| `Derive.SummaryNamesState` | internal/controller/stackresource/status_derive.go:151-243 | The summary state and its reason as an iff over verdicts, current domain conditions, crash details and the port record: a failure first, then an unready build, unready dependencies, a telling crash, readiness, and deploying otherwise |
| `Derive.SummaryReasons` | internal/controller/stackresource/status_derive.go:46-140 | The reasons of Available, Stalled and Converged from the verdict, from serving and from the rollout, and the image revision a pass without a verdict records |
| `Derive.ReportOrderIsIrrelevant` | internal/controller/verdict.go:15-35 | Permuting the reports of a pass changes neither phase, nor the three conditions, nor whether the summary is ready |
| `Derive.FirstReportWins` | internal/controller/verdict.go:15-35 | For any sequence of reports the first of each kind is kept and the status is left alone |
| `Aggregate.StatsMeaning` | internal/controller/stack/aggregate.go:131-203 | Missing, not-serving and available counts sum to desired; the lists name exactly the right children; converged count equals desired iff every desired child exists converged; no orphans iff every child is desired |
| `StackReports.StackMeaning` | internal/controller/stack/aggregate.go:234-416 | Phase and truth and reason of all six conditions from children, record and spec: Failed iff a desired child is stalled; else Progressing iff all are up to date and an orphan is left, or some is not, none is missing and the Stack is unmanaged or has no record of this revision; else Degraded iff all desired children exist and serve, some is not up to date, there is one, and a record exists; else Ready iff all are up to date and no other child is left; else Pending |
| `StackReports.ResourcesShowChildren` | internal/controller/stack/aggregate.go:131-203 | The listed resources are those of the spec in its order, each with the state of its child and why it is not converged |
| `Aggregate.OrderBlind` | internal/controller/stack/aggregate.go:131-203 | Permuting uniquely named children changes nothing in the Stack status |
| `Aggregate.OrphanBlind` | internal/controller/stack/aggregate.go:234-312 | While some desired child is not converged, changing the undesired children changes the orphan list only |
| `Aggregate.FixedPoint` | internal/controller/stack/aggregate.go:314-416 | Aggregating the result again over the same children, at any time, returns it unchanged |
| `Aggregate.RecordChangesOnlyOnConvergence` | internal/controller/stack/aggregate.go:345-355 | LastConverged is never cleared and changes exactly on a converged managed round for another (revision, release) pair, which it then records |
| `Aggregate.RecordHasOrigin` | internal/controller/stack/aggregate.go:345-355 | Over any run a recorded convergence was there at the start or was stamped by a round after which no round stamped another |
| `ThreeLayers.ExplanationIsTheReason` | internal/controller/stack/aggregate.go:66-98 | For child statuses written by runs of passes, an explanation is given exactly for a child that is not converged, what it says is true of the child, and that alone rules convergence out |
| `Routes.IngressesPartitionPorts` | internal/controller/stackresource/svc_reconciler.go:531-562 | The two Ingresses cover the public ports, and are disjoint exactly when no number is public both with and without a referenced Secret; distinct numbers suffice |
| `Routes.SharedNumberOverlaps` | internal/controller/stackresource/svc_reconciler.go:531-562 | Two ports on one number can land on both Ingresses |
| `Routes.SecretNameIsLabels` | internal/controller/stackresource/svc_reconciler.go:566-575 | A Secret name is taken as a reference iff it has at most 253 characters and each part between dots is a label in the sense of section 2.1 of RFC 1123 |
| `Routes.RouteOfPort` | internal/controller/stackresource/svc_reconciler.go:531-562 | A distinct public port is routed to its own host on its own Ingress and its host is in the TLS list of its path |
| `Service.AddressMatchesTls` | internal/controller/stackresource/svc_reconciler.go:109-169 | For distinct ports the published address is https iff the path is ready, http iff the port has no TLS or the path is unavailable, absent while it waits, and a waiting path forces a not-ready verdict |
| `Service.HttpsOnlyBehindTlsBlock` | internal/controller/stackresource/svc_reconciler.go:238-312 | An https address is published only if the path is ready and the Ingress then stored in the cluster, whatever was there before, routes the port to its host, lists the host for TLS and redirects |
| `AddressRuns.StoredHttpsAddressesWork` | internal/controller/stackresource/svc_reconciler.go:68-99 | Over any run with distinct port numbers, from any Ingresses, every stored https address is routed and terminated by an Ingress in the cluster at all times, if and only if each pass is stored, ends before the service stage, or leaves every stored https address served |
| `AddressRuns.PassKeepsBackedIff` | internal/controller/stackresource/svc_reconciler.go:68-99 | The same for one pass from any status whose https addresses work |
| `AddressRuns.StageServes` | internal/controller/stackresource/svc_reconciler.go:238-345 | The Ingresses a service stage leaves, complete or failed half-way, serve an address if and only if the spec, the certificate, the mirrored Secret, the outcome of each write and the Ingresses before it say so |
| `AddressRuns.SomeRunStoresDeadAddress` | internal/controller/stackresource/stackresource_controller.go:85-91 | A two-pass run from the initial status that publishes an https address, loses the Secret and the status write, and ends with a stored https address that no Ingress serves |
| `AddressRuns.LostWriteLeavesDeadAddress` | internal/controller/stackresource/stackresource_controller.go:85-91 | A pass that takes a TLS block away and loses its status write leaves a stored https address that no Ingress terminates |
| `Service.ClusterRoutesPorts` | internal/controller/stackresource/svc_reconciler.go:326-345 | After a publishing stage the stored Ingress of its path routes each public port to its host, and terminates TLS for it once the path is ready |
| `Service.TlsConfiguredMeaning` | internal/controller/stackresource/svc_reconciler.go:415-428 | TLSConfigured is True at this generation iff every public TLS port has usable TLS, False if some has not, and left alone if no public port wants TLS |
| `Service.QuietServicePublishesAllPorts` | internal/controller/stackresource/svc_reconciler.go:68-99 | A service stage that reports nothing has published exactly one address per public port |
| `TlsReports.ServiceStageMeaning` | internal/controller/stackresource/svc_reconciler.go:40-99 | The stage fails iff references conflict or a named call fails; otherwise it reports not ready and comes back iff a public TLS port waits: its certificate is unissued without a failed attempt, or its Secret cannot be mirrored, with grace left |
| `TlsReports.StageLeaves` | internal/controller/stackresource/svc_reconciler.go:204-409 | The two Ingresses a publishing stage leaves: their rules, TLS hosts (once an issuer is found, or the Secret is mirrored), redirect (once the path is ready), issuer annotation and owner; one without rules is deleted unless it belongs to others |
| `TlsReports.WithdrawnLeavesNothing` | internal/controller/stackresource/svc_reconciler.go:173-190 | Stages, complete or not, create only Ingresses the resource owns, and withdrawing the last public port leaves none of them |
| `TlsReports.PublishingMeaning` | internal/controller/stackresource/svc_reconciler.go:68-99 | A publishing stage says IngressReady for this generation; one without public ports withdraws addresses, conditions and clocks |
| `TlsReports.ReturnsAtFirstDeadline` | internal/controller/stackresource/svc_reconciler.go:314-322 | While paths wait the stage comes back exactly when the grace of the first of them ends |
| `TlsReports.RoutesUnlessConflict` | internal/controller/stackresource/svc_reconciler.go:531-562 | Routes can be collected iff no two public ports name different Secrets, and the reference is the one a public port names |
| `Tls.CertificateMeaning` | internal/controller/stackresource/cert_stage.go:75-115 | Ready iff the certificate is; waiting iff not ready, without a failed attempt and with grace left, and then until the grace ends; unavailable otherwise |
| `Tls.BlockedSecretMeaning` | internal/controller/stackresource/referenced_tls_secret.go:104-128 | A Secret that cannot be mirrored waits iff grace is left since it was first missing under its own name |
| `TlsRuns.WaitingIsBounded` | internal/controller/stackresource/cert_stage.go:50-59 | With a clock that never steps back, two waiting passes of one path are less than the grace period apart, on both clocks, when no pass between them finds the path ready, unused, or without an issuer |
| `TlsRuns.WaitingSinceIsFixed` | internal/controller/stackresource/cert_stage.go:125-135 | While no pass finds the path ready or unused (for a Secret, replaced by another reference), WaitingSince stays fixed if and only if no pass fails to resolve the issuer |
| `TlsRuns.ClearingCases` | internal/controller/stackresource/svc_reconciler.go:238-283 | A pass clears a clock exactly when it gets through the service stage and finds the path ready, unused or without an issuer |
| `TlsRuns.FailedLookupRestartsTheClock` | internal/controller/stackresource/svc_reconciler.go:252-264 | One failed issuer lookup restarts the clock: the path waits again any time later although it was in use and never ready in between |
| `TlsRuns.WaitingEndsOnTime` | internal/controller/stackresource/referenced_tls_secret.go:104-143 | Until the path is found ready, unused or without an issuer, no pass at or after WaitingSince plus the grace period is waiting |
| `TlsRuns.WaitingAsksForRetry` | internal/controller/stackresource/svc_reconciler.go:314-322 | Every waiting pass makes the whole chain come back after a positive time within the grace period |
| `TlsRuns.ClockIsFold` | internal/controller/stackresource/referenced_tls_secret.go:131-143 | Over any run each persisted clock is the fold of what its passes did to it |
| `Tls.CertPathClock` | internal/controller/stackresource/cert_stage.go:75-135 | The certificate path waits only before its deadline, its retry lands on the deadline, and it is ready iff the certificate is |
| `Tls.SecretPathClock` | internal/controller/stackresource/referenced_tls_secret.go:104-143 | A blocked Secret path waits exactly before its deadline and its retry lands on it |
| `ImageBuild.BuildRunKeepsInv` | internal/controller/imagebuild/imagebuild_controller.go:382-438 | Over every run: terminal conditions exclude each other and match the phase, an image is recorded exactly on success, Jobs exist only under the finalizer or deletion |
| `BuildResults.FirstEndingDecides` | internal/controller/imagebuild/imagebuild_controller.go:168-438 | Over every run of a fresh build, with requests to cancel or delete at any time: it is successful iff the first step that ends it is a stored pass that saw the Job complete, and then records the destination of that pass; likewise failure and cancellation; and it has not ended iff no step ended it |
| `BuildResults.PassEndsBuild` | internal/controller/imagebuild/imagebuild_controller.go:382-438 | A stored pass over a build that has not ended and gets to its Job ends it in success with host/repository:tag iff the Job is complete, in failure iff it failed and is not complete, and not at all otherwise; a Job is created iff there is none |
| `BuildResults.PassSaysWhy` | internal/controller/imagebuild/imagebuild_controller.go:221-438 | Which condition and reason a stored pass gives while the build goes on |
| `BuildResults.PassKeepsFinalizer` | internal/controller/imagebuild/imagebuild_controller.go:52-137 | When the finalizer is set and dropped, and which image a pass has deleted |
| `ImageBuild.TerminalIsAbsorbing` | internal/controller/imagebuild/imagebuild_controller.go:168-189 | A terminal status never changes again, whatever is requested |
| `ImageBuild.ControllersAgree` | internal/controller/stackresource/image_build_reconciler.go:232-248 | On every reachable status the phase-based and the condition-based predicates of the two controllers agree |
| `ImageBuild.JobOnlyUnderFinalizer` | internal/controller/imagebuild/imagebuild_controller.go:52-80 | A Job is created only for a build that carries the finalizer and is not deleted, cancelled or terminal |
| `ImageBuild.FinalizerDeletesRecordedImages` | internal/controller/imagebuild/imagebuild_controller.go:85-137 | Over the whole life of a deleted build with an own registry that exists at the release, a pushed image is left behind if and only if its success was not recorded when the deletion was requested; an external registry is never touched; it looks at one build per image reference |
| `SharedImages.SharedReferenceIff` | pkg/registry/reference.go:30-51 | Two builds into one repository record the same reference if and only if its tag is fixed or their revisions sanitize alike, for clean revisions if and only if they are equal, whatever else differs |
| `SharedImages.CleanRevisionIsItsTag` | pkg/registry/reference.go:41-51 | Sanitising leaves a revision unchanged if and only if it holds only lower-case tag characters, has no dash, dot or underscore at either end and at most 128 characters |
| `SharedImages.CollapsePieces` | pkg/registry/reference.go:41-51 | Sanitising works piece by piece except inside a run of characters no tag can hold |
| `SharedImages.RunBecomesDash` | pkg/registry/reference.go:41-51 | Such a run becomes one dash |
| `SharedImages.ImageStaysIff` | pkg/registry/delete.go:14-51 | Over every interleaving of build passes a reference stays in the registry if and only if no build in deletion records it, holds the finalizer, is in an own registry and gets its deletion through before the registry is found gone |
| `SharedImages.RetentionKeepsImageIff` | internal/controller/imagebuild/imagebuild_controller.go:85-137 | After a retention round an image, such as that of the current build, stays in the registry if and only if no pruned build beyond the newest limit records the same reference and gets its deletion through |
| `SharedImages.PruningCanTakeTheCurrentImage` | internal/controller/imagebuild/imagebuild_controller.go:108-137 | A current and a pruned build that share a reference: finalizing the pruned one deletes the image the current one records |
| `ImageBuild.DeletionCanLeakAnImage` | internal/controller/imagebuild/imagebuild_controller.go:67-74 | A life in which the Job pushes after the deletion request and the finalizer is released without deleting the image |
| `Housekeeping.HousekeepingMeaning` | internal/controller/stackresource/image_build_reconciler.go:105-156 | Cancelled is an owned build that has not ended, is not cancelled and is not the current one; prunable an owned build that has ended and is not the current one |
| `Housekeeping.CancelStaleImageBuilds` | internal/controller/stackresource/image_build_reconciler.go:105-129 | Whatever updates fail, cancels exactly the other stale builds and reports an error iff one failed; without one only the current build can be owned, live and not cancelled |
| `Housekeeping.EnforceImageBuildRetention` | internal/controller/stackresource/image_build_reconciler.go:132-156 | Under any tie-breaking and any failing deletions: deletes exactly the terminal, owned, non-current builds beyond the newest limit whose deletion is accepted, none for a non-positive limit, and without a failure leaves at most limit prunable ones |
| `Names.SanitizeIdempotentIff` | api/builds/v1alpha1/imagebuild_types.go:150-160 | Sanitising twice equals sanitising once exactly unless nothing of the input survives and the fallback is unclean |
| `Names.UncleanFallback` | api/builds/v1alpha1/imagebuild_types.go:150-160 | A fallback for which sanitising is not idempotent |
| `Names.SanitizeIsClean` | api/builds/v1alpha1/imagebuild_types.go:150-160 | With a clean fallback the result is not empty, has no leading, trailing or doubled dash, and is a fixed point |
| `Names.CoreFixesCleanStrings` | api/builds/v1alpha1/imagebuild_types.go:150-160 | Sanitising leaves exactly the clean strings unchanged |
| `Names.CoreKeepsSurvivors` | api/builds/v1alpha1/imagebuild_types.go:150-160 | Sanitising keeps every alphanumeric character of the lower-cased input in order and adds only dashes |
| `Names.TruncationNeedsOneTrim` | api/builds/v1alpha1/imagebuild_types.go:170-187 | After truncating a clean name, trimming one dash yields a clean name again |
| `Names.ImageBuildNameIsLegal` | api/builds/v1alpha1/imagebuild_types.go:170-187 | Every ImageBuild name is clean, at most 100 characters and ends in the digest |
| `Names.NamesLead` | api/builds/v1alpha1/imagebuild_types.go:170-220 | An ImageBuild name starts with the sanitised resource name and revision, cut at 91 characters, a Job name with the sanitised resource name, cut at 48, and no cut leaves a dash |
| `Names.DigestsSeparateNames` | api/builds/v1alpha1/imagebuild_types.go:170-187 | Different digests give different ImageBuild names |
| `Names.BuildJobNameIsLegal` | api/builds/v1alpha1/imagebuild_types.go:198-220 | Every Job name is a clean label in the sense of section 2.1 of RFC 1123, and one in the sense of section 2.3.1 of RFC 1035 exactly when the first surviving character of the resource name is no digit |
| `Names.DigitFirstJobName` | api/builds/v1alpha1/imagebuild_types.go:198-220 | A resource name whose Job name is no RFC 1035 label |
| `IngressDrift.SettledIsDesired` | internal/controller/stackresource/svc_reconciler.go:387-409 | One write settles an Ingress: the result has the desired spec and managed annotations, needs no further update, and keeps the annotations of others |
| `IngressDrift.ReconcileIngressCR` | internal/controller/stackresource/svc_reconciler.go:326-362 | Deletes an owned child without rules, creates a missing one, settles an existing one, for accepted, rejected and landed writes |
| `IngressDrift.SyncManagedAnnotations` | pkg/ingresstls/ingresstls.go:118-131 | The loop over the managed keys leaves the managed annotations desired, without empty ones, and the others as they were |
| `Dialer.ClosedPortsMeaning` | pkg/portcheck/dialer.go:33-52 | The closed ports are ascending, are exactly the refused ones, and are none iff all are open |
| `Dialer.CollectClosedPorts` | pkg/portcheck/dialer.go:43-52 | The collecting and sorting scan computes the closed ports |
| `Verifier.EnqueuedMeaning` | pkg/portcheck/verifier.go:122-144 | A dial is accepted iff no answer for its revision is stored, none is in flight for its name and the queue of 512 is not full; then it is marked and queued, else nothing changes |
| `VerifierProtocol.OneJobPerWorker` | pkg/portcheck/verifier.go:87-100 | In every state of every interleaving no two jobs are with one worker |
| `Verifier.Verifier.Get` | pkg/portcheck/verifier.go:104-112 | Answers only for the stored revision of the name |
| `Verifier.Verifier.MarkPending` | pkg/portcheck/verifier.go:122-131 | First section of Enqueue: admits and marks, or changes nothing |
| `Verifier.Verifier.SendOrRollBack` | pkg/portcheck/verifier.go:133-144 | Second section of Enqueue: sends, or clears the marker on a full queue |
| `Verifier.Verifier.Enqueue` | pkg/portcheck/verifier.go:122-144 | Both sections in a row |
| `Verifier.Verifier.Pending` | pkg/portcheck/verifier.go:148-153 | Whether the name is marked |
| `Verifier.Verifier.Forget` | pkg/portcheck/verifier.go:157-165 | Drops the answer of exactly this revision |
| `Verifier.Verifier.Take` | pkg/portcheck/verifier.go:87-93 | A worker receives the oldest job |
| `Verifier.Verifier.Publish` | pkg/portcheck/verifier.go:93-100 | Stores the answer and clears the marker in one section |
| `Readiness.SchedulePortCheck` | internal/controller/stackresource/workload/readiness.go:197-207 | Queues a dial if there is a pod and says whether an answer is coming, also when other goroutines use the verifier in between |
| `Readiness.VerifyPortsInPlace` | internal/controller/stackresource/workload/readiness.go:83-130 | Leaves exactly the specified record and outcome, whatever other goroutines do to the verifier between its calls; a judged refusal is gone on return, and undisturbed only all-open answers stay stored |
| `Readiness.CheckPortsInPlace` | internal/controller/stackresource/workload/readiness.go:53-76 | Leaves exactly the specified status, verdicts and wait |
| `Dependencies.GetDependencies` | internal/controller/stackresource/workload_dependency_checker.go:128-146 | The filtering loop with its count check |
| `Dependencies.CheckDependencies` | internal/controller/stackresource/workload_dependency_checker.go:21-40 | The gate decision |
| `Resource.VerdictCollector.ReportNotReady` | internal/controller/verdict.go:21-25 | Keeps an earlier report |
| `Resource.VerdictCollector.ReportFailed` | internal/controller/verdict.go:28-32 | Keeps an earlier report |
| `Resource.StackResource.SetCondition` | internal/controller/stackresource/stackresource_controller.go:131-143 | Upserts one condition at the current generation |
| `ConvergenceRuns.RecordIsWrittenOncePerRevision` | internal/controller/stackresource/workload/deployment.go:172-184 | Over any run the LastConverged of a resource is never cleared and holds revision and time of the last persisted pass that saw the workload converge under a new revision |
| `ConvergenceRuns.PassRecord` | internal/controller/stackresource/workload/deployment.go:113-119 | A pass changes the record exactly when it is persisted and sees convergence under another revision |
| `ConvergenceRuns.SameRevisionKeepsItsTime` | internal/controller/stackresource/workload/deployment.go:172-184 | While the recorded revision is the annotated one, the record and its time stay |
| `Workload.FirstCrashIsKept` | internal/controller/stackresource/workload/deployment.go:188-200 | However often crashes are looked for under one revision, the details kept are those of the first look that found any, and without any the capture stays open |
| `WorkloadReconciler.RolloutIsSettled` | internal/controller/util.go:67-79 | A rollout is settled iff its first decisive Progressing condition says the deadline passed or the new replica set has been available for the settling period |
| `WorkloadReconciler.EvaluateDeploymentInPlace` | internal/controller/stackresource/workload/deployment.go:107-168 | Leaves exactly the specified status, verdicts, verifier request and stage result |
| `WorkloadReconciler.EvaluateStatefulSetInPlace` | internal/controller/stackresource/workload/statefulset.go:77-135 | Leaves exactly the specified status, verdicts and stage result |
| `WorkloadReconciler.EvaluateJobInPlace` | internal/controller/stackresource/workload/job.go:101-141 | Leaves exactly the specified status, verdicts and stage result |
| `WorkloadReconciler.ReconcileJobInPlace` | internal/controller/stackresource/workload/job.go:20-52 | Creation, replacement for a new revision, and evaluation of the Job |
| `WorkloadReconciler.LatestCompletedChildJob` | internal/controller/stackresource/workload/cronjob.go:85-102 | Finds the owned child that completed last, the first listed among equals, and none iff none completed |
| `WorkloadReconciler.ReconcileCronJobInPlace` | internal/controller/stackresource/workload/cronjob.go:66-83 | Leaves exactly the specified status and goes on |
| `WorkloadReconciler.ReconcileDeploymentInPlace` | internal/controller/stackresource/workload/deployment.go:33-52 | Errors, invalid specs, restarts, evaluation |
| `WorkloadReconciler.ReconcileStatefulSetInPlace` | internal/controller/stackresource/workload/statefulset.go:18-32 | Errors, invalid specs, restarts, evaluation |
| `WorkloadReconciler.ReconcileWorkload` | internal/controller/stackresource/workload/reconciler.go:70-125 | The dependency, volume and build gates in order, then dispatch by type |
| `ResourceController.ReconcileRegistryAuth` | internal/controller/stackresource/registry_auth_reconciler.go:28-146 | Which exits stop, which report, which fail |
| `ResourceController.ReconcileImageBuild` | internal/controller/stackresource/image_build_reconciler.go:29-88 | Stops or goes on according to the current build, recreating a cancelled one |
| `ResourceController.DeriveSummaryStatus` | internal/controller/stackresource/status_derive.go:24-43 | Leaves exactly the derived summary status |
| `ResourceController.FindDeclaredFailingPorts` | internal/controller/stackresource/status_derive.go:227-243 | Finds exactly the recorded refused ports that the spec still declares |
| `Derive.DeclaredFailingPortsMeaning` | internal/controller/stackresource/status_derive.go:227-243 | They appear as often as recorded, and ascending when the record is |
| `ResourceController.RunStages` | internal/controller/stackresource/stackresource_controller.go:96-118 | The loop over the stages computes the specified result and state |
| `ResourceController.Reconcile` | internal/controller/stackresource/stackresource_controller.go:59-94 | A whole pass stores and returns what the specification says and leaves the specified Ingresses; errors and lost writes store no status |
| `ResourceController.ClassifyPass` | internal/controller/stackresource/status_derive.go:169-222 | Maps the pass to the specified state and reason, scanning crash details and failing ports |
| `Routes.CollectExposedPortRoutes` | internal/controller/stackresource/svc_reconciler.go:531-562 | The splitting loop computes the routes, none on conflicting references |
| `ServiceReconciler.UpdateCertManagerTLSStatus` | internal/controller/stackresource/cert_stage.go:125-135 | Starts, keeps or clears the certificate clock |
| `ServiceReconciler.UpdateReferencedTLSSecretStatus` | internal/controller/stackresource/referenced_tls_secret.go:131-143 | Starts, keeps or clears the clock of this reference |
| `ServiceReconciler.ReconcileCertManagerIngress` | internal/controller/stackresource/svc_reconciler.go:238-283 | Stage and clock of the certificate path, and the standard Ingress left in the cluster |
| `ServiceReconciler.ReconcileReferencedTLSSecret` | internal/controller/stackresource/referenced_tls_secret.go:30-71 | Stage and clock of the Secret path |
| `ServiceReconciler.ReconcileReferencedTLSIngress` | internal/controller/stackresource/svc_reconciler.go:287-312 | The same, and the referenced Ingress left in the cluster |
| `ServiceReconciler.BuildExternalAddresses` | internal/controller/stackresource/svc_reconciler.go:109-129 | In any visiting order the loop publishes exactly the public addresses |
| `ServiceReconciler.FindEarliestRetry` | internal/controller/stackresource/svc_reconciler.go:314-322 | The least positive wait of any number of states, zero when there is none |
| `ServiceReconciler.CleanUpIngress` | internal/controller/stackresource/svc_reconciler.go:173-190 | Deletes both Ingresses and, only if both deletions work, clears clocks, addresses and the two conditions |
| `ServiceReconciler.ReconcileService` | internal/controller/stackresource/svc_reconciler.go:40-99 | Leaves exactly the specified status, verdicts, result and Ingresses, also when it fails half-way |
| `Aggregate.CollectChildStats` | internal/controller/stack/aggregate.go:131-203 | The loops over names and children compute the stats |
| `Aggregate.AggregateStackStatus` | internal/controller/stack/aggregate.go:314-416 | Stamp, six conditions and phase as specified |
| `BuildController.ImageBuildObject.ReconcileBuildJob` | internal/controller/imagebuild/imagebuild_controller.go:382-438 | Creation, success, failure and waiting of the Job on the mutable build |
| `BuildController.ImageBuildObject.ReconcileLive` | internal/controller/imagebuild/imagebuild_controller.go:168-219 | Terminal check, cancellation, source dispatch on the mutable build |
| `BuildController.ReconcileImageBuildObject` | internal/controller/imagebuild/imagebuild_controller.go:52-101 | A whole pass: finalizer first, status stored only without error |

## Left out

- Human-readable messages, the order of condition lists, StatusHash, CurrentBuild, internal addresses and last-run fields: no property modelled here depends on them.
- Kubernetes client calls, watches, owner references, caches and write conflicts: they are the arbitrary sights and the possibly lost write of a pass.
- Unknown as a condition status: the operator itself writes only True and False.
- Dialing over TCP, timeouts and mutexes: a dial has an arbitrary result for the ports it was asked about, and each locked section is one atomic step.
- Sub-second times: clocks are whole seconds, so truncation when a time is stored is not modelled.
- Volume readiness, pod listing, image resolution and probe validation inside the workload stage: each enters as the outcome of one read.
- Construction of pod templates, Services, build Jobs and credentials: object building without state.
- Secret names in Ingress TLS blocks: the model keeps hosts and the redirect only.
- Build-input digests: an arbitrary string of eight hexadecimal digits, with no claim of collision freedom.
- Specs that change during a dependency run: `DependencyRuns` fixes them, while port and TLS runs allow any change.
- The controllers for volumes, databases, object storage, users, registries and cluster information: mostly creation of missing objects.
- Housekeeping.SortNewestFirst: sorts a sequence value instead of an array in place.
- Names.SanitizeIsClean: lower-casing is modelled only where the result can be alphanumeric; every other character becomes part of a dash either way. The same holds for the tags in `SharedImages`.
- VerifierTheorems.AllOpenIsSticky: assumes that reconciles of one object do not overlap, which the controller runtime guarantees.
- ThreeLayers.ReadyStackSawRollouts: assumes that passes over one generation of a child read the same spec, which the API server guarantees.
- DependencyProgress.OneRoundSuffices: that resources are reconciled in dependency order with a fresh listing is a hypothesis; the work queue that brings it about is not modelled.
- AddressRuns.StoredHttpsAddressesWork: Ingresses edited by others between passes are not modelled.
- OutageRuns.SlowPollsBackOff: is about polls that decide the wait of their pass; `TlsPolls.DeadPollsAreBounded` counts also those whose wait a TLS retry replaces. The configured grace period is fixed within an outage.
- ImageBuild.FinalizerDeletesRecordedImages: looks at one build per image reference; builds that share one are the subject of `SharedImages`.
- SharedImages.RetentionKeepsImageIff: no Job pushes to the reference again while the pruned builds are finalized.
- DialEvidence.PortFailureWasDialed: assumes that a judged refusal is what the verifier of its process answered; the ports are those of the dialed job, which a later spec may no longer declare.
