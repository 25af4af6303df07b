/** The workload stage as it updates the fetched object step by step. Each method is proved
    to leave exactly the state its specification function computes. */
module WorkloadReconciler {
  import opened Meta
  import opened Verifier
  import opened Resource
  import opened Readiness
  import opened Dependencies
  import opened Workload

  /** The verifier as this pass finds it, in the place of the port sight. */
  ghost function Seen(obj: Object, v: Verifier?, revision: string, podIP: Option<string>,
                      sight: WorkloadSight): WorkloadSight
    reads v
  {
    sight.(ports := SightOf(v, KeyOf(obj, revision), podIP, Numbers(obj.spec.ports)))
  }

  /** The revision whose ports a pass over this workload asks about. */
  function PortRevision(obj: Object, sight: WorkloadSight): string {
    if obj.spec.workloadType.StatefulService? && sight.statefulSet.Applied?
      then sight.statefulSet.workload.updateRevision
    else if sight.deployment.Applied? then sight.deployment.workload.revision
    else ""
  }

  // ----- status fields -----

  method StampLastConvergedInPlace(r: StackResource, now: int)
    modifies r
    ensures r.status == StampLastConverged(r.obj, old(r.status), now)
  {
    if r.obj.revision.None? {
      return;
    }
    var last := r.status.lastConverged;
    if last.Some? && last.value.revision == r.obj.revision.value {
      return;
    }
    r.status := r.status.(lastConverged := Some(Convergence(r.obj.revision.value, now)));
  }

  method CaptureOnceInPlace(r: StackResource, revision: string, crashes: seq<FailureDetail>)
    modifies r
    ensures r.status == CaptureOnce(old(r.status), revision, crashes)
  {
    if r.status.failureRevision == revision {
      return;
    }
    r.status := r.status.(failureDetails := crashes);
    if |crashes| > 0 {
      r.status := r.status.(failureRevision := revision);
    }
  }

  method CapturePodsOnceInPlace(r: StackResource, key: string, crashes: seq<FailureDetail>)
    modifies r
    ensures r.status == CapturePodsOnce(old(r.status), key, crashes)
  {
    if key == "" {
      return;
    }
    CaptureOnceInPlace(r, key, crashes);
  }

  method ClearFailuresInPlace(r: StackResource)
    modifies r
    ensures r.status == ClearFailures(old(r.status))
  {
    r.status := r.status.(failureDetails := [], failureRevision := "");
  }

  // ----- rollout -----

  /** Scans for the first decisive Progressing condition. */
  method RolloutIsSettled(conds: seq<ClusterCondition>, now: int) returns (settled: bool)
    ensures settled == RolloutSettled(conds, now)
    ensures settled <==> exists k: nat :: SettledBy(conds, k, now)
  {
    RolloutSettledMeaning(conds, now);
    for i := 0 to |conds|
      invariant RolloutSettled(conds, now) == RolloutSettled(conds[i..], now)
    {
      var cond := conds[i];
      if cond.kind != "Progressing" {
        continue;
      }
      if cond.status.No? && cond.reason == "ProgressDeadlineExceeded" {
        return true;
      }
      if cond.status.Yes? && cond.reason == "NewReplicaSetAvailable" {
        return now - cond.since >= SETTLE_PERIOD;
      }
    }
    return false;
  }

  method DeploymentConditions(r: StackResource, c: VerdictCollector, d: Deployment, sight: WorkloadSight)
    modifies r
    ensures View(r, c) == old(DeploymentBefore(r.obj, View(r, c), d, sight))
  {
    var converged, serving := DeploymentConverged(d), DeploymentServing(d);
    r.status := r.status.(replicas := d.replicas);
    if converged {
      r.SetCondition(WorkloadConverged, true, "FullyConverged", sight.now);
      StampLastConvergedInPlace(r, sight.now);
    } else {
      r.SetCondition(WorkloadConverged, false, "NotConverged", sight.now);
    }
    if serving {
      r.SetCondition(WorkloadAvailable, true, "DeploymentServing", sight.now);
    } else {
      r.SetCondition(WorkloadAvailable, false, "DeploymentNotAvailable", sight.now);
    }
    if serving && converged {
      ClearFailuresInPlace(r);
    } else {
      CaptureOnceInPlace(r, d.revision, sight.crashes);
    }
  }

  method EvaluateDeploymentInPlace(r: StackResource, c: VerdictCollector, v: Verifier?, podIP: Option<string>,
                                   d: Deployment, sight: WorkloadSight)
    returns (res: StageResult)
    modifies r, c, v
    ensures (View(r, c), res) == old(EvaluateDeployment(r.obj, View(r, c), d, Seen(r.obj, v, d.revision, podIP, sight)))
  {
    DeploymentConditions(r, c, d, sight);
    var wait := CheckPortsInPlace(r, c, v, d.revision, DeploymentServing(d), podIP, Grace(sight.grace), sight.now);
    res := DeploymentOutcome(r, c, d, wait, sight.now);
  }

  method DeploymentOutcome(r: StackResource, c: VerdictCollector, d: Deployment, wait: int, now: int)
    returns (res: StageResult)
    modifies c
    ensures (View(r, c), res) == old(DeploymentAfter(View(r, c), wait, d, now))
  {
    var settled := RolloutIsSettled(d.conditions, now);
    if DeploymentServing(d) {
      if wait > 0 {
        return Deferred(wait);
      }
      if !DeploymentConverged(d) && |r.status.failureDetails| == 0 && !settled {
        return Deferred(ROLLOUT_REQUEUE);
      }
      return Next;
    }
    c.ReportNotReady("StackResourceDeploymentNotReady");
    if !settled {
      return RequeueAfter(ROLLOUT_REQUEUE);
    }
    if wait > 0 {
      return RequeueAfter(wait);
    }
    return Stop;
  }

  method StatefulSetConditions(r: StackResource, c: VerdictCollector, w: StatefulSet, sight: WorkloadSight)
    modifies r
    ensures View(r, c) == old(StatefulSetBefore(r.obj, View(r, c), w, sight))
  {
    r.status := r.status.(replicas := w.replicas);
    if StatefulSetConverged(w) {
      r.SetCondition(WorkloadAvailable, true, "StatefulSetAvailable", sight.now);
      r.SetCondition(WorkloadConverged, true, "FullyConverged", sight.now);
      StampLastConvergedInPlace(r, sight.now);
      ClearFailuresInPlace(r);
    } else {
      r.SetCondition(WorkloadConverged, false, "NotConverged", sight.now);
      CapturePodsOnceInPlace(r, w.updateRevision, sight.crashes);
    }
  }

  method EvaluateStatefulSetInPlace(r: StackResource, c: VerdictCollector, v: Verifier?, podIP: Option<string>,
                                    w: StatefulSet, sight: WorkloadSight)
    returns (res: StageResult)
    modifies r, c, v
    ensures (View(r, c), res) == old(EvaluateStatefulSet(r.obj, View(r, c), w,
                                                         Seen(r.obj, v, w.updateRevision, podIP, sight)))
  {
    StatefulSetConditions(r, c, w, sight);
    var wait := CheckPortsInPlace(r, c, v, w.updateRevision, StatefulSetConverged(w), podIP, Grace(sight.grace),
                                  sight.now);
    if StatefulSetConverged(w) {
      return if wait > 0 then Deferred(wait) else Next;
    }
    r.SetCondition(WorkloadAvailable, false, "StatefulSetNotAvailable", sight.now);
    c.ReportNotReady("StackResourceStatefulSetNotReady");
    if wait > 0 {
      return RequeueAfter(wait);
    }
    if |r.status.failureDetails| > 0 {
      return Stop;
    }
    return RequeueAfter(ROLLOUT_REQUEUE);
  }

  // ----- Job and CronJob -----

  method EvaluateJobInPlace(r: StackResource, c: VerdictCollector, job: Workload.Job, sight: WorkloadSight)
    returns (res: StageResult)
    modifies r, c
    ensures (View(r, c), res) == old(EvaluateJob(r.obj, View(r, c), job, sight))
  {
    if job.succeeded >= 1 {
      ClearFailuresInPlace(r);
      r.SetCondition(WorkloadConverged, true, "JobComplete", sight.now);
      r.SetCondition(WorkloadAvailable, true, "JobComplete", sight.now);
      return Next;
    }
    CapturePodsOnceInPlace(r, Revision(r.obj), sight.crashes);
    if JobFailed(job) {
      c.ReportFailed("JobFailed");
      return Stop;
    }
    c.ReportNotReady("JobRunning");
    if |r.status.failureDetails| > 0 {
      return Stop;
    }
    return RequeueAfter(ROLLOUT_REQUEUE);
  }

  method ReconcileJobInPlace(r: StackResource, c: VerdictCollector, sight: WorkloadSight) returns (res: StageResult)
    modifies r, c
    ensures (View(r, c), res) == old(ReconcileJob(r.obj, View(r, c), sight))
  {
    match sight.job {
      case JobReadFailed =>
        return Error;
      case JobMissing(created) =>
        if !created {
          return Error;
        }
        c.ReportNotReady("JobRunning");
        return RequeueAfter(5);
      case JobFound(job, deleted) =>
        if JobFinished(job) && job.revision != Revision(r.obj) {
          if !deleted {
            return Error;
          }
          c.ReportNotReady("JobRunning");
          return RequeueAfter(2);
        }
        res := EvaluateJobInPlace(r, c, job, sight);
    }
  }

  method LatestCompletedChildJob(jobs: seq<ChildJob>) returns (latest: Option<ChildJob>)
    ensures latest == LatestChild(jobs)
    ensures latest.None? <==> forall i :: 0 <= i < |jobs| ==> !CompletedChild(jobs[i])
    ensures latest.Some? ==> exists k: nat :: CompletedLast(jobs, k) && jobs[k] == latest.value
  {
    LatestChildMeaning(jobs);
    latest := None;
    for k := 0 to |jobs|
      invariant latest == LatestChild(jobs[..k])
    {
      assert jobs[..k + 1][..k] == jobs[..k];
      if !jobs[k].controlled || jobs[k].completedAt.None? {
        continue;
      }
      if latest.None? || jobs[k].completedAt.value > latest.value.completedAt.value {
        latest := Some(jobs[k]);
      }
    }
    assert jobs[..|jobs|] == jobs;
  }

  method ReconcileCronJobInPlace(r: StackResource, c: VerdictCollector, sight: WorkloadSight) returns (res: StageResult)
    modifies r
    ensures (View(r, c), res) == old(ReconcileCronJob(r.obj, View(r, c), sight))
  {
    if !sight.cronApplied {
      return Error;
    }
    r.SetCondition(WorkloadConverged, true, "CronJobScheduled", sight.now);
    r.SetCondition(WorkloadAvailable, true, "CronJobScheduled", sight.now);
    if sight.cronJobs.None? {
      return Next;
    }
    var latest := LatestCompletedChildJob(sight.cronJobs.value);
    if latest.Some? {
      if latest.value.succeeded >= 1 {
        ClearFailuresInPlace(r);
      } else {
        CapturePodsOnceInPlace(r, latest.value.name, sight.crashes);
      }
    }
    return Next;
  }

  // ----- gates and dispatch -----

  method HandleRestart(r: StackResource, c: VerdictCollector, reason: string, now: int) returns (res: StageResult)
    modifies r, c
    ensures (View(r, c), res) == old(RestartHandled(View(r, c), reason, now))
  {
    r.status := r.status.(restartProcessedAt := Some(now));
    c.ReportNotReady(reason);
    return Stop;
  }

  method DispatchInPlace(r: StackResource, c: VerdictCollector, v: Verifier?, podIP: Option<string>,
                         sight: WorkloadSight)
    returns (res: StageResult)
    modifies r, c, v
    ensures (View(r, c), res) == old(Dispatch(r.obj, View(r, c),
                                              Seen(r.obj, v, PortRevision(r.obj, sight), podIP, sight)))
  {
    match r.obj.spec.workloadType {
      case Service =>
        res := ReconcileDeploymentInPlace(r, c, v, podIP, sight);
      case Worker =>
        res := ReconcileDeploymentInPlace(r, c, v, podIP, sight);
      case StatefulService =>
        res := ReconcileStatefulSetInPlace(r, c, v, podIP, sight);
      case BatchJob =>
        res := ReconcileJobInPlace(r, c, sight);
      case CronJob =>
        res := ReconcileCronJobInPlace(r, c, sight);
      case Unknown =>
        res := Error;
    }
  }

  method ReconcileDeploymentInPlace(r: StackResource, c: VerdictCollector, v: Verifier?, podIP: Option<string>,
                                    sight: WorkloadSight)
    returns (res: StageResult)
    requires !r.obj.spec.workloadType.StatefulService?
    modifies r, c, v
    ensures (View(r, c), res) == old(ReconcileDeployment(r.obj, View(r, c),
                                                         Seen(r.obj, v, PortRevision(r.obj, sight), podIP, sight)))
  {
    match sight.deployment {
      case ApplyFailed =>
        return Error;
      case InvalidSpec =>
        c.ReportFailed("InvalidSpec");
        return Stop;
      case Applied(d) =>
        if RequiresRestart(r.obj, r.status) {
          res := HandleRestart(r, c, "StackResourceDeploymentNotReady", sight.now);
        } else {
          res := EvaluateDeploymentInPlace(r, c, v, podIP, d, sight);
        }
    }
  }

  method ReconcileStatefulSetInPlace(r: StackResource, c: VerdictCollector, v: Verifier?, podIP: Option<string>,
                                     sight: WorkloadSight)
    returns (res: StageResult)
    requires r.obj.spec.workloadType.StatefulService?
    modifies r, c, v
    ensures (View(r, c), res) == old(ReconcileStatefulSet(r.obj, View(r, c),
                                                          Seen(r.obj, v, PortRevision(r.obj, sight), podIP, sight)))
  {
    match sight.statefulSet {
      case ApplyFailed =>
        return Error;
      case InvalidSpec =>
        c.ReportFailed("InvalidSpec");
        return Stop;
      case Applied(w) =>
        if RequiresRestart(r.obj, r.status) {
          res := HandleRestart(r, c, "StackResourceStatefulSetNotReady", sight.now);
        } else {
          res := EvaluateStatefulSetInPlace(r, c, v, podIP, w, sight);
        }
    }
  }

  /** The dependency, volume and build gates in order, then the workload itself. */
  method ReconcileWorkload(r: StackResource, c: VerdictCollector, v: Verifier?, podIP: Option<string>,
                           sight: WorkloadSight)
    returns (res: StageResult)
    modifies r, c, v
    ensures (View(r, c), res) == old(WorkloadStage(r.obj, View(r, c),
                                                   Seen(r.obj, v, PortRevision(r.obj, sight), podIP, sight)))
  {
    var gate := CheckDependencies(r.obj.name, r.obj.spec.dependsOn, sight.listing);
    if gate.GateError? {
      return Error;
    }
    if gate.Blocked? {
      r.SetCondition(DependenciesReady, false, "DependenciesNotReady", sight.now);
      c.ReportNotReady("DependenciesNotReady");
      return RequeueAfter(GATE_REQUEUE);
    }
    if !sight.volumesReady {
      r.SetCondition(DependenciesReady, false, "VolumeMountsNotReady", sight.now);
      c.ReportNotReady("VolumeMountsNotReady");
      return RequeueAfter(GATE_REQUEUE);
    }
    r.SetCondition(DependenciesReady, true, "DependenciesReady", sight.now);
    if r.obj.spec.buildRevision.Some? {
      if sight.buildComplete.None? {
        return Error;
      }
      if !sight.buildComplete.value {
        r.SetCondition(BuildReady, false, "BuildNotReady", sight.now);
        c.ReportNotReady("ApplicationBuildNotYetReady");
        return Stop;
      }
      r.SetCondition(BuildReady, true, "BuildReady", sight.now);
    }
    res := DispatchInPlace(r, c, v, podIP, sight);
  }
}
