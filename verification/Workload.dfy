/** The workload stage: gates, then one evaluation per workload type. */
module Workload {
  import opened Meta
  import opened Resource
  import opened Dependencies
  import opened Readiness

  const GATE_REQUEUE := 5
  const ROLLOUT_REQUEUE := 10
  const SETTLE_PERIOD := 180

  datatype Truth = Yes | No | Unclear
  datatype ClusterCondition = ClusterCondition(kind: string, status: Truth, reason: string, since: int)

  datatype Deployment = Deployment(
    generation: int, observedGeneration: int, desired: Option<int>,
    replicas: Replicas, ready: int, unavailable: int,
    conditions: seq<ClusterCondition>, revision: string)

  datatype StatefulSet = StatefulSet(
    generation: int, observedGeneration: int, currentRevision: string, updateRevision: string,
    replicas: Replicas, ready: int)

  datatype Job = Job(succeeded: int, conditions: seq<ClusterCondition>, revision: string)

  /** Result of creating or updating the workload object. */
  datatype Applied<W> = ApplyFailed | InvalidSpec | Applied(workload: W)
  datatype JobSight = JobReadFailed | JobMissing(created: bool) | JobFound(job: Job, deleted: bool)
  datatype ChildJob = ChildJob(name: string, controlled: bool, completedAt: Option<int>, succeeded: int)

  /** Everything the stage reads from the cluster in one pass. */
  datatype WorkloadSight = WorkloadSight(
    now: int,
    grace: int,
    listing: Option<seq<Sibling>>,
    volumesReady: bool,
    buildComplete: Option<bool>,              // None: the build could not be read
    deployment: Applied<Deployment>,
    statefulSet: Applied<StatefulSet>,
    job: JobSight,
    cronApplied: bool,
    cronJobs: Option<seq<ChildJob>>,          // None: the Jobs could not be listed
    crashes: seq<FailureDetail>,              // crash details found on the pods
    ports: PortSight)

  // ----- availability of a Deployment -----

  predicate ReportsAvailable(conds: seq<ClusterCondition>) {
    exists i :: 0 <= i < |conds| && conds[i].kind == "Available" && conds[i].status.Yes?
  }

  predicate DeploymentServing(d: Deployment) {
    d.generation == d.observedGeneration && ReportsAvailable(d.conditions)
  }

  predicate DeploymentConverged(d: Deployment) {
    var desired := if d.desired.Some? then d.desired.value else 1;
    && d.generation == d.observedGeneration
    && d.replicas.updated == desired && d.ready == desired && d.replicas.available == desired && d.unavailable == 0
    && ReportsAvailable(d.conditions)
  }

  /** The first decisive Progressing condition settles the question. */
  predicate RolloutSettled(conds: seq<ClusterCondition>, now: int) {
    if conds == [] then false
    else if conds[0].kind == "Progressing" && conds[0].status.No? && conds[0].reason == "ProgressDeadlineExceeded"
      then true
    else if conds[0].kind == "Progressing" && conds[0].status.Yes? && conds[0].reason == "NewReplicaSetAvailable" then
      now - conds[0].since >= SETTLE_PERIOD
    else RolloutSettled(conds[1..], now)
  }

  predicate Decisive(c: ClusterCondition) {
    && c.kind == "Progressing"
    && ((c.status.No? && c.reason == "ProgressDeadlineExceeded")
       || (c.status.Yes? && c.reason == "NewReplicaSetAvailable"))
  }

  /** Condition k is the first decisive one and says that nothing more will happen: the
      deadline passed, or the new replica set has been available for the settling period. */
  predicate SettledBy(conds: seq<ClusterCondition>, k: nat, now: int) {
    && k < |conds| && Decisive(conds[k])
    && (forall i :: 0 <= i < k ==> !Decisive(conds[i]))
    && (conds[k].status.No? || now - conds[k].since >= 180)
  }

  /** A rollout is settled exactly when its first decisive Progressing condition says so, and
      then it stays settled as time goes on. */
  lemma {:induction false} RolloutSettledMeaning(conds: seq<ClusterCondition>, now: int)
    ensures RolloutSettled(conds, now) <==> exists k: nat :: SettledBy(conds, k, now)
    ensures forall later :: RolloutSettled(conds, now) && later >= now ==> RolloutSettled(conds, later)
  {
    if conds != [] {
      var rest := conds[1..];
      RolloutSettledMeaning(rest, now);
      if Decisive(conds[0]) {
        assert RolloutSettled(conds, now) <==> SettledBy(conds, 0, now);
      } else {
        forall k: nat ensures SettledBy(conds, k + 1, now) <==> SettledBy(rest, k, now) {
          assert forall i :: 0 <= i < |rest| ==> rest[i] == conds[i + 1];
        }
        assert !SettledBy(conds, 0, now);
        if k: nat :| SettledBy(conds, k, now) {
          assert SettledBy(rest, k - 1, now);
        }
        if k: nat :| SettledBy(rest, k, now) {
          assert SettledBy(conds, k + 1, now);
        }
      }
    }
  }

  // ----- pieces shared by the evaluations -----

  function Revision(obj: Object): string { if obj.revision.Some? then obj.revision.value else "" }

  function StampLastConverged(obj: Object, s: Status, now: int): Status {
    if obj.revision.None? then s
    else if s.lastConverged.Some? && s.lastConverged.value.revision == obj.revision.value then s
    else s.(lastConverged := Some(Convergence(obj.revision.value, now)))
  }

  function CaptureOnce(s: Status, revision: string, crashes: seq<FailureDetail>): Status {
    if s.failureRevision == revision then s
    else s.(failureDetails := crashes, failureRevision := if crashes != [] then revision else s.failureRevision)
  }

  function CapturePodsOnce(s: Status, key: string, crashes: seq<FailureDetail>): Status {
    if key == "" then s else CaptureOnce(s, key, crashes)
  }

  /** Looking for crashes again and again under one revision. */
  function CaptureAll(s: Status, revision: string, looks: seq<seq<FailureDetail>>): Status {
    if looks == [] then s else CaptureOnce(CaptureAll(s, revision, looks[..|looks| - 1]), revision, looks[|looks| - 1])
  }

  /** The first look that finds a crash under a revision is the one that is kept: later looks
      change nothing, earlier ones left no details, and before it the capture stays open. */
  lemma {:induction false} FirstCrashIsKept(s: Status, revision: string, looks: seq<seq<FailureDetail>>)
    requires s.failureRevision != revision && looks != []
    ensures var r := CaptureAll(s, revision, looks);
            && (forall k :: 0 <= k < |looks| && looks[k] != [] && (forall i :: 0 <= i < k ==> looks[i] == [])
                  ==> r == s.(failureDetails := looks[k], failureRevision := revision))
            && ((forall i :: 0 <= i < |looks| ==> looks[i] == []) ==> r == s.(failureDetails := []))
  {
    var front, last := looks[..|looks| - 1], looks[|looks| - 1];
    assert forall i :: 0 <= i < |front| ==> front[i] == looks[i];
    if front != [] {
      FirstCrashIsKept(s, revision, front);
      if forall i :: 0 <= i < |front| ==> front[i] == [] {
      } else {
        var k := FirstFinding(front);
        assert looks[k] != [] && forall i :: 0 <= i < k ==> looks[i] == [];
      }
    }
  }

  lemma {:induction false} FirstFinding(looks: seq<seq<FailureDetail>>) returns (k: nat)
    requires !(forall i :: 0 <= i < |looks| ==> looks[i] == [])
    ensures k < |looks| && looks[k] != [] && forall i :: 0 <= i < k ==> looks[i] == []
  {
    k := 0;
    while looks[k] == []
      invariant k < |looks| && forall i :: 0 <= i < k ==> looks[i] == []
      decreases |looks| - k
    {
      assert exists i :: k < i < |looks| && looks[i] != [];
      k := k + 1;
    }
  }

  function ClearFailures(s: Status): Status { s.(failureDetails := [], failureRevision := "") }

  function RequiresRestart(obj: Object, s: Status): bool {
    && obj.spec.restartRequest.Some?
    && (s.restartProcessedAt.None? || obj.spec.restartRequest.value > s.restartProcessedAt.value)
  }

  // ----- Deployment -----

  /** The evaluation up to the port check. */
  function DeploymentBefore(obj: Object, st: PassState, d: Deployment, sight: WorkloadSight): PassState {
    var converged, serving, now := DeploymentConverged(d), DeploymentServing(d), sight.now;
    var st1 := st.(status := st.status.(replicas := d.replicas));
    var st2 := if converged then
                 var c := Set(obj, st1, WorkloadConverged, true, "FullyConverged", now);
                 c.(status := StampLastConverged(obj, c.status, now))
               else Set(obj, st1, WorkloadConverged, false, "NotConverged", now);
    var st3 := if serving then Set(obj, st2, WorkloadAvailable, true, "DeploymentServing", now)
               else Set(obj, st2, WorkloadAvailable, false, "DeploymentNotAvailable", now);
    st3.(status := if serving && converged then ClearFailures(st3.status)
                   else CaptureOnce(st3.status, d.revision, sight.crashes))
  }

  /** The evaluation after the port check asked for `wait`. */
  function DeploymentAfter(st: PassState, wait: int, d: Deployment, now: int): (PassState, StageResult) {
    var settled := RolloutSettled(d.conditions, now);
    if DeploymentServing(d) then
      if wait > 0 then (st, Deferred(wait))
      else if !DeploymentConverged(d) && st.status.failureDetails == [] && !settled then (st, Deferred(ROLLOUT_REQUEUE))
      else (st, Next)
    else
      (ReportNotReady(st, "StackResourceDeploymentNotReady"),
       if !settled then RequeueAfter(ROLLOUT_REQUEUE) else if wait > 0 then RequeueAfter(wait) else Stop)
  }

  function EvaluateDeployment(obj: Object, st: PassState, d: Deployment, sight: WorkloadSight)
    : (PassState, StageResult)
  {
    var before := DeploymentBefore(obj, st, d, sight);
    var (st1, wait) := CheckPorts(obj, before, d.revision, DeploymentServing(d), sight.ports, Grace(sight.grace),
                                  sight.now);
    DeploymentAfter(st1, wait, d, sight.now)
  }

  // ----- StatefulSet -----

  predicate StatefulSetConverged(w: StatefulSet) {
    && w.observedGeneration == w.generation && w.currentRevision == w.updateRevision
    && w.ready == 1 && w.replicas.updated == 1 && w.replicas.available == 1
  }

  function StatefulSetBefore(obj: Object, st: PassState, w: StatefulSet, sight: WorkloadSight): PassState {
    var now := sight.now;
    var st1 := st.(status := st.status.(replicas := w.replicas));
    if StatefulSetConverged(w) then
      var st2 := Set(obj, st1, WorkloadAvailable, true, "StatefulSetAvailable", now);
      var st3 := Set(obj, st2, WorkloadConverged, true, "FullyConverged", now);
      st3.(status := ClearFailures(StampLastConverged(obj, st3.status, now)))
    else
      var st2 := Set(obj, st1, WorkloadConverged, false, "NotConverged", now);
      st2.(status := CapturePodsOnce(st2.status, w.updateRevision, sight.crashes))
  }

  function StatefulSetAfter(obj: Object, st: PassState, wait: int, w: StatefulSet, now: int): (PassState, StageResult) {
    if StatefulSetConverged(w) then
      (st, if wait > 0 then Deferred(wait) else Next)
    else
      (ReportNotReady(Set(obj, st, WorkloadAvailable, false, "StatefulSetNotAvailable", now),
                      "StackResourceStatefulSetNotReady"),
       if wait > 0 then RequeueAfter(wait)
       else if st.status.failureDetails != [] then Stop
       else RequeueAfter(ROLLOUT_REQUEUE))
  }

  function EvaluateStatefulSet(obj: Object, st: PassState, w: StatefulSet, sight: WorkloadSight)
    : (PassState, StageResult)
  {
    var before := StatefulSetBefore(obj, st, w, sight);
    var (st1, wait) := CheckPorts(obj, before, w.updateRevision, StatefulSetConverged(w), sight.ports,
                                  Grace(sight.grace), sight.now);
    StatefulSetAfter(obj, st1, wait, w, sight.now)
  }

  // ----- Job and CronJob -----

  predicate JobFinished(job: Job) {
    exists i :: 0 <= i < |job.conditions| && job.conditions[i].status.Yes?
                && (job.conditions[i].kind == "Complete" || job.conditions[i].kind == "Failed")
  }

  predicate JobFailed(job: Job) {
    exists i :: 0 <= i < |job.conditions| && job.conditions[i].status.Yes? && job.conditions[i].kind == "Failed"
  }

  function EvaluateJob(obj: Object, st: PassState, job: Job, sight: WorkloadSight): (PassState, StageResult) {
    if job.succeeded >= 1 then
      var st1 := st.(status := ClearFailures(st.status));
      var st2 := Set(obj, st1, WorkloadConverged, true, "JobComplete", sight.now);
      (Set(obj, st2, WorkloadAvailable, true, "JobComplete", sight.now), Next)
    else
      var st1 := st.(status := CapturePodsOnce(st.status, Revision(obj), sight.crashes));
      if JobFailed(job) then (ReportFailed(st1, "JobFailed"), Stop)
      else
        var st2 := ReportNotReady(st1, "JobRunning");
        (st2, if st2.status.failureDetails != [] then Stop else RequeueAfter(ROLLOUT_REQUEUE))
  }

  function ReconcileJob(obj: Object, st: PassState, sight: WorkloadSight): (PassState, StageResult) {
    match sight.job
    case JobReadFailed => (st, Error)
    case JobMissing(created) => if created then (ReportNotReady(st, "JobRunning"), RequeueAfter(5)) else (st, Error)
    case JobFound(job, deleted) =>
      if JobFinished(job) && job.revision != Revision(obj) then
        if deleted then (ReportNotReady(st, "JobRunning"), RequeueAfter(2)) else (st, Error)
      else EvaluateJob(obj, st, job, sight)
  }

  predicate CompletedChild(j: ChildJob) { j.controlled && j.completedAt.Some? }

  function LatestChild(jobs: seq<ChildJob>): (latest: Option<ChildJob>)
    ensures latest.Some? ==> CompletedChild(latest.value)
  {
    if jobs == [] then None
    else
      var rest, last := LatestChild(jobs[..|jobs| - 1]), jobs[|jobs| - 1];
      if CompletedChild(last) && (rest.None? || last.completedAt.value > rest.value.completedAt.value) then Some(last)
      else rest
  }

  /** Child k completed last, and before every other child listed earlier that completed then. */
  ghost predicate CompletedLast(jobs: seq<ChildJob>, k: nat) {
    && k < |jobs| && CompletedChild(jobs[k])
    && (forall i :: 0 <= i < |jobs| && CompletedChild(jobs[i]) ==>
          jobs[i].completedAt.value <= jobs[k].completedAt.value)
    && (forall i :: 0 <= i < k && CompletedChild(jobs[i]) ==> jobs[i].completedAt.value < jobs[k].completedAt.value)
  }

  /** The latest child has the latest completion time, the first listed among equals, and
      there is none exactly when no owned child completed. */
  lemma {:induction false} LatestChildMeaning(jobs: seq<ChildJob>)
    ensures LatestChild(jobs).None? <==> forall i :: 0 <= i < |jobs| ==> !CompletedChild(jobs[i])
    ensures LatestChild(jobs).Some? ==> exists k: nat :: CompletedLast(jobs, k) && jobs[k] == LatestChild(jobs).value
  {
    if jobs != [] {
      var front, last := jobs[..|jobs| - 1], jobs[|jobs| - 1];
      LatestChildMeaning(front);
      assert forall i :: 0 <= i < |front| ==> jobs[i] == front[i];
      var rest := LatestChild(front);
      if rest.Some? {
        var k: nat :| CompletedLast(front, k) && front[k] == rest.value;
        if LatestChild(jobs) == rest {
          assert CompletedLast(jobs, k);
        } else {
          assert CompletedLast(jobs, |jobs| - 1);
        }
      } else if CompletedChild(last) {
        assert CompletedLast(jobs, |jobs| - 1);
      }
    }
  }

  function ReconcileCronJob(obj: Object, st: PassState, sight: WorkloadSight): (PassState, StageResult) {
    if !sight.cronApplied then (st, Error)
    else
      var st1 := Set(obj, st, WorkloadConverged, true, "CronJobScheduled", sight.now);
      var st2 := Set(obj, st1, WorkloadAvailable, true, "CronJobScheduled", sight.now);
      var run := if sight.cronJobs.None? then None else LatestChild(sight.cronJobs.value);
      (st2.(status := if run.None? then st2.status
                      else if run.value.succeeded >= 1 then ClearFailures(st2.status)
                      else CapturePodsOnce(st2.status, run.value.name, sight.crashes)),
       Next)
  }

  // ----- gates and dispatch -----

  function RestartHandled(st: PassState, reason: string, now: int): (PassState, StageResult) {
    (ReportNotReady(st.(status := st.status.(restartProcessedAt := Some(now))), reason), Stop)
  }

  function ReconcileDeployment(obj: Object, st: PassState, sight: WorkloadSight): (PassState, StageResult) {
    match sight.deployment
    case ApplyFailed => (st, Error)
    case InvalidSpec => (ReportFailed(st, "InvalidSpec"), Stop)
    case Applied(d) =>
      if RequiresRestart(obj, st.status) then RestartHandled(st, "StackResourceDeploymentNotReady", sight.now)
      else EvaluateDeployment(obj, st, d, sight)
  }

  function ReconcileStatefulSet(obj: Object, st: PassState, sight: WorkloadSight): (PassState, StageResult) {
    match sight.statefulSet
    case ApplyFailed => (st, Error)
    case InvalidSpec => (ReportFailed(st, "InvalidSpec"), Stop)
    case Applied(w) =>
      if RequiresRestart(obj, st.status) then RestartHandled(st, "StackResourceStatefulSetNotReady", sight.now)
      else EvaluateStatefulSet(obj, st, w, sight)
  }

  function Dispatch(obj: Object, st: PassState, sight: WorkloadSight): (PassState, StageResult) {
    match obj.spec.workloadType
    case Service => ReconcileDeployment(obj, st, sight)
    case Worker => ReconcileDeployment(obj, st, sight)
    case StatefulService => ReconcileStatefulSet(obj, st, sight)
    case BatchJob => ReconcileJob(obj, st, sight)
    case CronJob => ReconcileCronJob(obj, st, sight)
    case Unknown => (st, Error)
  }

  function Gate(obj: Object, sight: WorkloadSight): GateResult {
    DependenciesAvailable(obj.name, obj.spec.dependsOn, sight.listing)
  }

  /** The stage after the dependency and volume gates opened. */
  function Gated(obj: Object, st: PassState, sight: WorkloadSight): (PassState, StageResult) {
    var st1 := Set(obj, st, DependenciesReady, true, "DependenciesReady", sight.now);
    if obj.spec.buildRevision.None? then Dispatch(obj, st1, sight)
    else if sight.buildComplete.None? then (st1, Error)
    else if !sight.buildComplete.value then
      (ReportNotReady(Set(obj, st1, BuildReady, false, "BuildNotReady", sight.now), "ApplicationBuildNotYetReady"),
       Stop)
    else Dispatch(obj, Set(obj, st1, BuildReady, true, "BuildReady", sight.now), sight)
  }

  function WorkloadStage(obj: Object, st: PassState, sight: WorkloadSight): (PassState, StageResult) {
    match Gate(obj, sight)
    case GateError => (st, Error)
    case Blocked =>
      (ReportNotReady(Set(obj, st, DependenciesReady, false, "DependenciesNotReady", sight.now),
                      "DependenciesNotReady"),
       RequeueAfter(GATE_REQUEUE))
    case Open =>
      if !sight.volumesReady then
        (ReportNotReady(Set(obj, st, DependenciesReady, false, "VolumeMountsNotReady", sight.now),
                        "VolumeMountsNotReady"),
         RequeueAfter(GATE_REQUEUE))
      else Gated(obj, st, sight)
  }

  // ----- what the stage guarantees -----

  predicate Exits(r: StageResult) { r.Stop? || r.RequeueNow? || r.RequeueAfter? }

  /** Verdicts are only added, and the earliest of each kind stays. */
  predicate Keeps(before: Verdicts, after: Verdicts) {
    && (before.notReady.Some? ==> after.notReady == before.notReady)
    && (before.failed.Some? ==> after.failed == before.failed)
  }

  /** A converged workload is an available one, asserted for the same generation. */
  predicate ConvergedServes(s: Status) {
    WorkloadConverged in s.conditions && s.conditions[WorkloadConverged].status ==>
      TrueAt(s.conditions, WorkloadAvailable, s.conditions[WorkloadConverged].generation)
  }

  predicate SameCondition(a: Status, b: Status, t: ConditionType) {
    (t in a.conditions <==> t in b.conditions) && (t in a.conditions ==> a.conditions[t] == b.conditions[t])
  }

  predicate SummaryUntouched(a: Status, b: Status) {
    && a.phase == b.phase && a.summary == b.summary
    && SameCondition(a, b, Available) && SameCondition(a, b, Stalled) && SameCondition(a, b, Converged)
  }

  predicate RoutesUntouched(a: Status, b: Status) {
    a.addresses == b.addresses && a.certWaitingSince == b.certWaitingSince && a.referencedTLS == b.referencedTLS
  }

  predicate Evolves(a: PassState, b: PassState) {
    Keeps(a.verdicts, b.verdicts) && SummaryUntouched(a.status, b.status) && RoutesUntouched(a.status, b.status)
  }

  /** Full convergence of a Deployment implies that it serves. */
  lemma ConvergedDeploymentServes(d: Deployment)
    ensures DeploymentConverged(d) ==> DeploymentServing(d)
  {
  }

  predicate Domain(t: ConditionType) { t != Available && t != Stalled && t != Converged }

  /** Setting a domain condition changes nothing else. */
  lemma SetEvolves(obj: Object, st: PassState, t: ConditionType, status: bool, reason: string, now: int)
    requires Domain(t)
    ensures Evolves(st, Set(obj, st, t, status, reason, now))
    ensures forall u :: u != t ==> SameCondition(st.status, Set(obj, st, t, status, reason, now).status, u)
  {
  }

  lemma EvolvesTrans(a: PassState, b: PassState, c: PassState)
    requires Evolves(a, b) && Evolves(b, c)
    ensures Evolves(a, c)
  {
  }

  ghost predicate CheckFacts(st: PassState, st': PassState) {
    && Evolves(st, st')
    && (ConvergedServes(st.status) ==> ConvergedServes(st'.status))
    && (WorkloadConverged in st'.status.conditions && st'.status.conditions[WorkloadConverged].status
        ==> SameCondition(st.status, st'.status, WorkloadConverged))
    && SameCondition(st.status, st'.status, WorkloadAvailable)
  }

  /** What the check leaves when it condemns a revision. */
  function Condemn(obj: Object, st: PassState, pc: Option<PortCheck>, now: int): PassState {
    var st1 := st.(status := st.status.(portCheck := pc));
    var st2 := st1.(status := st1.status.(failureDetails :=
      [FailureDetail(READINESS_FAILURE, PORT_NOT_LISTENING, "")]));
    ReportFailed(Set(obj, st2, WorkloadConverged, false, PORT_NOT_LISTENING, now), PORT_NOT_LISTENING)
  }

  lemma CondemnFacts(obj: Object, st: PassState, pc: Option<PortCheck>, now: int)
    ensures CheckFacts(st, Condemn(obj, st, pc, now))
  {
    var st1 := st.(status := st.status.(portCheck := pc));
    var st2 := st1.(status := st1.status.(failureDetails :=
      [FailureDetail(READINESS_FAILURE, PORT_NOT_LISTENING, "")]));
    assert Evolves(st, st2);
    SetEvolves(obj, st2, WorkloadConverged, false, PORT_NOT_LISTENING, now);
  }

  lemma CheckEvolves(obj: Object, st: PassState, revision: string, serving: bool, sight: PortSight, grace: int,
                     now: int)
    ensures CheckFacts(st, CheckPorts(obj, st, revision, serving, sight, grace, now).0)
  {
    var out := VerifyPorts(obj.spec.ports, st.status.portCheck, revision, sight, grace, now);
    CondemnFacts(obj, st, out.portCheck, now);
  }

  lemma DeploymentBeforeFacts(obj: Object, st: PassState, d: Deployment, sight: WorkloadSight)
    ensures Evolves(st, DeploymentBefore(obj, st, d, sight))
      && ConvergedServes(DeploymentBefore(obj, st, d, sight).status)
  {
    ConvergedDeploymentServes(d);
  }

  lemma StatefulSetBeforeFacts(obj: Object, st: PassState, w: StatefulSet, sight: WorkloadSight)
    ensures var b := StatefulSetBefore(obj, st, w, sight);
            && Evolves(st, b) && ConvergedServes(b.status)
            && (!StatefulSetConverged(w) ==>
                  WorkloadConverged in b.status.conditions && !b.status.conditions[WorkloadConverged].status)
  {
  }

  lemma DeploymentAfterFacts(st: PassState, wait: int, d: Deployment, now: int)
    ensures var (st', r) := DeploymentAfter(st, wait, d, now);
            Evolves(st, st') && st'.status == st.status && (Exits(r) ==> Reported(st'.verdicts))
  {
  }

  lemma DeploymentFacts(obj: Object, st: PassState, d: Deployment, sight: WorkloadSight)
    ensures var (st', r) := EvaluateDeployment(obj, st, d, sight);
            Evolves(st, st') && ConvergedServes(st'.status) && (Exits(r) ==> Reported(st'.verdicts))
  {
    var before := DeploymentBefore(obj, st, d, sight);
    var (st1, wait) := CheckPorts(obj, before, d.revision, DeploymentServing(d), sight.ports, Grace(sight.grace),
                                  sight.now);
    DeploymentBeforeFacts(obj, st, d, sight);
    CheckEvolves(obj, before, d.revision, DeploymentServing(d), sight.ports, Grace(sight.grace), sight.now);
    DeploymentAfterFacts(st1, wait, d, sight.now);
    EvolvesTrans(st, before, st1);
  }

  lemma StatefulSetFacts(obj: Object, st: PassState, w: StatefulSet, sight: WorkloadSight)
    ensures var (st', r) := EvaluateStatefulSet(obj, st, w, sight);
            Evolves(st, st') && ConvergedServes(st'.status) && (Exits(r) ==> Reported(st'.verdicts))
  {
    var before := StatefulSetBefore(obj, st, w, sight);
    StatefulSetBeforeFacts(obj, st, w, sight);
    CheckEvolves(obj, before, w.updateRevision, StatefulSetConverged(w), sight.ports, Grace(sight.grace), sight.now);
  }

  ghost predicate StageFacts(st: PassState, st': PassState, r: StageResult) {
    && Evolves(st, st')
    && (Exits(r) ==> Reported(st'.verdicts))
    && (ConvergedServes(st.status) ==> ConvergedServes(st'.status))
  }

  lemma JobDoneFacts(obj: Object, st: PassState, job: Job, sight: WorkloadSight)
    requires job.succeeded >= 1
    ensures StageFacts(st, EvaluateJob(obj, st, job, sight).0, EvaluateJob(obj, st, job, sight).1)
  {
    var st1 := st.(status := ClearFailures(st.status));
    var st2 := Set(obj, st1, WorkloadConverged, true, "JobComplete", sight.now);
    SetEvolves(obj, st1, WorkloadConverged, true, "JobComplete", sight.now);
    SetEvolves(obj, st2, WorkloadAvailable, true, "JobComplete", sight.now);
  }

  lemma JobPendingFacts(obj: Object, st: PassState, job: Job, sight: WorkloadSight)
    requires job.succeeded < 1
    ensures StageFacts(st, EvaluateJob(obj, st, job, sight).0, EvaluateJob(obj, st, job, sight).1)
  {
  }

  lemma EvaluateJobFacts(obj: Object, st: PassState, job: Job, sight: WorkloadSight)
    ensures StageFacts(st, EvaluateJob(obj, st, job, sight).0, EvaluateJob(obj, st, job, sight).1)
  {
    if job.succeeded >= 1 {
      JobDoneFacts(obj, st, job, sight);
    } else {
      JobPendingFacts(obj, st, job, sight);
    }
  }

  lemma JobFacts(obj: Object, st: PassState, sight: WorkloadSight)
    ensures StageFacts(st, ReconcileJob(obj, st, sight).0, ReconcileJob(obj, st, sight).1)
  {
    if sight.job.JobFound? {
      EvaluateJobFacts(obj, st, sight.job.job, sight);
    }
  }

  lemma CronJobFacts(obj: Object, st: PassState, sight: WorkloadSight)
    ensures StageFacts(st, ReconcileCronJob(obj, st, sight).0, ReconcileCronJob(obj, st, sight).1)
  {
  }

  lemma ReconcileDeploymentFacts(obj: Object, st: PassState, sight: WorkloadSight)
    ensures StageFacts(st, ReconcileDeployment(obj, st, sight).0, ReconcileDeployment(obj, st, sight).1)
  {
    if sight.deployment.Applied? && !RequiresRestart(obj, st.status) {
      DeploymentFacts(obj, st, sight.deployment.workload, sight);
    }
  }

  lemma ReconcileStatefulSetFacts(obj: Object, st: PassState, sight: WorkloadSight)
    ensures StageFacts(st, ReconcileStatefulSet(obj, st, sight).0, ReconcileStatefulSet(obj, st, sight).1)
  {
    if sight.statefulSet.Applied? && !RequiresRestart(obj, st.status) {
      StatefulSetFacts(obj, st, sight.statefulSet.workload, sight);
    }
  }

  lemma DispatchFacts(obj: Object, st: PassState, sight: WorkloadSight)
    ensures StageFacts(st, Dispatch(obj, st, sight).0, Dispatch(obj, st, sight).1)
  {
    match obj.spec.workloadType
    case Service => ReconcileDeploymentFacts(obj, st, sight);
    case Worker => ReconcileDeploymentFacts(obj, st, sight);
    case StatefulService => ReconcileStatefulSetFacts(obj, st, sight);
    case BatchJob => JobFacts(obj, st, sight);
    case CronJob => CronJobFacts(obj, st, sight);
    case Unknown =>
  }

  /** Every exit of the stage carries a verdict, convergence implies serving, and serving
      is asserted only behind an open dependency gate. */
  lemma WorkloadStageFacts(obj: Object, st: PassState, sight: WorkloadSight)
    ensures var (st', r) := WorkloadStage(obj, st, sight);
            && StageFacts(st, st', r)
            && (!Gate(obj, sight).Open? ==>
                  (CondTrue(obj, st'.status, WorkloadAvailable) <==> CondTrue(obj, st.status, WorkloadAvailable)))
  {
    if Gate(obj, sight).Open? && sight.volumesReady {
      GatedFacts(obj, st, sight);
    } else {
      GateOpens(obj, st, DependenciesReady, false, "DependenciesNotReady", sight.now);
      GateOpens(obj, st, DependenciesReady, false, "VolumeMountsNotReady", sight.now);
    }
  }

  /** Opening a gate touches neither summary nor workload conditions. */
  lemma GateOpens(obj: Object, st: PassState, t: ConditionType, status: bool, reason: string, now: int)
    requires t == DependenciesReady || t == BuildReady
    ensures var st' := Set(obj, st, t, status, reason, now);
            && Evolves(st, st') && st'.verdicts == st.verdicts
            && SameCondition(st.status, st'.status, WorkloadAvailable)
            && (ConvergedServes(st.status) ==> ConvergedServes(st'.status))
  {
    SetEvolves(obj, st, t, status, reason, now);
  }

  lemma GatedFacts(obj: Object, st: PassState, sight: WorkloadSight)
    ensures StageFacts(st, Gated(obj, st, sight).0, Gated(obj, st, sight).1)
  {
    var now := sight.now;
    var st1 := Set(obj, st, DependenciesReady, true, "DependenciesReady", now);
    GateOpens(obj, st, DependenciesReady, true, "DependenciesReady", now);
    if obj.spec.buildRevision.None? {
      DispatchFacts(obj, st1, sight);
      EvolvesTrans(st, st1, Dispatch(obj, st1, sight).0);
    } else {
      var st2 := Set(obj, st1, BuildReady, true, "BuildReady", now);
      GateOpens(obj, st1, BuildReady, true, "BuildReady", now);
      GateOpens(obj, st1, BuildReady, false, "BuildNotReady", now);
      if sight.buildComplete == Some(true) {
        DispatchFacts(obj, st2, sight);
        EvolvesTrans(st, st1, st2);
        EvolvesTrans(st, st2, Dispatch(obj, st2, sight).0);
      }
    }
  }
}
