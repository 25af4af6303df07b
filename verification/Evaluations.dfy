/** What a pass says about a workload, in terms of the objects it read.

    The predicates here restate what the cluster shows; none of them is used to compute
    anything. */
module Evaluations {
  import opened Meta
  import opened Resource
  import opened Readiness
  import opened Workload

  // ----- what the cluster shows -----

  predicate SaysYes(conds: seq<ClusterCondition>, kind: string) {
    exists i :: 0 <= i < |conds| && conds[i].kind == kind && conds[i].status == Yes
  }

  /** The Deployment controller has seen the spec and reports minimum availability. */
  predicate Serves(d: Deployment) { d.observedGeneration == d.generation && SaysYes(d.conditions, "Available") }

  /** One replica is wanted unless the spec says otherwise. */
  function Wanted(d: Deployment): int {
    match d.desired
    case None => 1
    case Some(n) => n
  }

  /** Moreover every wanted replica is updated, ready and available, and no other is left. */
  predicate RolledOut(d: Deployment) {
    && Serves(d)
    && d.replicas.updated == Wanted(d) && d.ready == Wanted(d) && d.replicas.available == Wanted(d)
    && d.unavailable == 0
  }

  /** The single replica runs the update revision and is ready and available. */
  predicate SetRolledOut(w: StatefulSet) {
    && w.observedGeneration == w.generation && w.updateRevision == w.currentRevision
    && w.replicas.updated == 1 && w.ready == 1 && w.replicas.available == 1
  }

  predicate Succeeded(job: Job) { job.succeeded > 0 }

  /** Crash details are looked for once per revision; a revision that has shown some keeps them. */
  function CrashesKept(s: Status, revision: string, crashes: seq<FailureDetail>): seq<FailureDetail> {
    if s.failureRevision == revision then s.failureDetails else crashes
  }

  /** A restart was requested after the last one that was carried out. */
  predicate RestartPending(obj: Object, s: Status) {
    match (obj.spec.restartRequest, s.restartProcessedAt)
    case (None, _) => false
    case (Some(_), None) => true
    case (Some(at), Some(done)) => done < at
  }

  lemma SameReading(d: Deployment, w: StatefulSet, obj: Object, s: Status)
    ensures DeploymentServing(d) <==> Serves(d)
    ensures DeploymentConverged(d) <==> RolledOut(d)
    ensures StatefulSetConverged(w) <==> SetRolledOut(w)
    ensures RequiresRestart(obj, s) <==> RestartPending(obj, s)
  {
    assert ReportsAvailable(d.conditions) <==> SaysYes(d.conditions, "Available");
  }

  // ----- Deployment -----

  /** The details that the evaluation leaves to the port check, and the revision they are for. */
  predicate DetailsBefore(s: Status, revision: string, done: bool, crashes: seq<FailureDetail>,
                          details: seq<FailureDetail>, captured: string) {
    if done then details == [] && captured == ""
    else
      && details == CrashesKept(s, revision, crashes)
      && captured == if s.failureRevision != revision && crashes != [] then revision else s.failureRevision
  }

  /** The condition is written for this generation with this truth and reason. */
  predicate Wrote(s: Status, obj: Object, t: ConditionType, holds: bool, reason: string) {
    Holds(s.conditions, t, holds, obj.generation) && s.conditions[t].reason == reason
  }

  lemma DeploymentBeforeMeaning(obj: Object, st: PassState, d: Deployment, sight: WorkloadSight)
    ensures var b := DeploymentBefore(obj, st, d, sight);
            && Wrote(b.status, obj, WorkloadConverged, RolledOut(d),
                     if RolledOut(d) then "FullyConverged" else "NotConverged")
            && Wrote(b.status, obj, WorkloadAvailable, Serves(d),
                     if Serves(d) then "DeploymentServing" else "DeploymentNotAvailable")
            && DetailsBefore(st.status, d.revision, RolledOut(d), sight.crashes, b.status.failureDetails,
                             b.status.failureRevision)
            && b.status.replicas == d.replicas && b.status.portCheck == st.status.portCheck
            && b.verdicts == st.verdicts
  {
    SameReading(d, StatefulSet(0, 0, "", "", Replicas(0, 0, 0), 0), obj, st.status);
  }

  /** A crash is to be blamed: the rollout is not complete, and its revision has shown a crash
      before or shows one now. */
  predicate DeploymentCrashed(s: Status, d: Deployment, sight: WorkloadSight) {
    !RolledOut(d) && CrashFirst(CrashesKept(s, d.revision, sight.crashes))
  }

  /** The port check holds the diagnosis only if no crash does, and then a converged rollout is
      not reported as converged. */
  ghost predicate Diagnosed(obj: Object, st: PassState, crashed: bool, done: bool, serves: bool,
                            kept: seq<FailureDetail>, st': PassState) {
    var s := st'.status;
    && (crashed <==> CrashFirst(s.failureDetails))
    && (crashed ==> s.failureDetails == kept && s.portCheck == None && st'.verdicts.failed == st.verdicts.failed)
    && (!crashed && !PortBlamed(s.failureDetails) ==>
          s.failureDetails == [] && st'.verdicts.failed == st.verdicts.failed)
    && (PortBlamed(s.failureDetails) ==> st'.verdicts.failed.Some?)
    && Holds(s.conditions, WorkloadConverged, done && !PortBlamed(s.failureDetails), obj.generation)
    && Holds(s.conditions, WorkloadAvailable, serves, obj.generation)
    && s.conditions[WorkloadConverged].reason
       == if PortBlamed(s.failureDetails) then "PortNotListening" else if done then "FullyConverged" else "NotConverged"
  }

  lemma AfterCheck(obj: Object, b: PassState, revision: string, serving: bool, ports: PortSight, grace: int, now: int)
    requires WellFormed(b.status.portCheck)
    ensures var st' := CheckPorts(obj, b, revision, serving, ports, grace, now).0;
            var s := st'.status;
            && (CrashFirst(b.status.failureDetails) <==> CrashFirst(s.failureDetails))
            && (CrashFirst(s.failureDetails) ==>
                  s == b.status.(portCheck := None) && st'.verdicts == b.verdicts)
            && (!CrashFirst(s.failureDetails) && !PortBlamed(s.failureDetails) ==>
                  s.failureDetails == [] && s.conditions == b.status.conditions && st'.verdicts == b.verdicts)
            && (PortBlamed(s.failureDetails) ==>
                  && st'.verdicts.failed.Some? && st'.verdicts.notReady == b.verdicts.notReady
                  && Wrote(s, obj, WorkloadConverged, false, "PortNotListening")
                  && SameCondition(b.status, s, WorkloadAvailable))
  {
    if CrashFirst(b.status.failureDetails) {
      CrashMeaning(obj, b, revision, serving, ports, grace, now);
    } else {
      CheckMeaning(obj, b, revision, serving, ports, grace, now);
      CheckEvolves(obj, b, revision, serving, ports, grace, now);
    }
  }

  lemma AfterKeepsStatus(st: PassState, wait: int, d: Deployment, now: int)
    ensures var st' := DeploymentAfter(st, wait, d, now).0;
            && st'.status == st.status && st'.verdicts.failed == st.verdicts.failed
            && st'.verdicts.notReady
               == if Serves(d) || st.verdicts.notReady.Some? then st.verdicts.notReady
                  else Some(Verdict("StackResourceDeploymentNotReady"))
  {
    assert ReportsAvailable(d.conditions) <==> SaysYes(d.conditions, "Available");
  }

  /** What evaluating a Deployment reports, from what the Deployment shows: WorkloadAvailable
      says whether it serves, WorkloadConverged whether it is rolled out and no port is blamed,
      a crash is blamed before any port, and what does not serve is not ready. */
  lemma DeploymentMeaning(obj: Object, st: PassState, d: Deployment, sight: WorkloadSight)
    requires WellFormed(st.status.portCheck)
    ensures var st' := EvaluateDeployment(obj, st, d, sight).0;
            && Diagnosed(obj, st, DeploymentCrashed(st.status, d, sight), RolledOut(d), Serves(d),
                         CrashesKept(st.status, d.revision, sight.crashes), st')
            && st'.status.conditions[WorkloadAvailable].reason
               == (if Serves(d) then "DeploymentServing" else "DeploymentNotAvailable")
            && st'.verdicts.notReady
               == if Serves(d) || st.verdicts.notReady.Some? then st.verdicts.notReady
                  else Some(Verdict("StackResourceDeploymentNotReady"))
  {
    var b := DeploymentBefore(obj, st, d, sight);
    var (st1, wait) := CheckPorts(obj, b, d.revision, DeploymentServing(d), sight.ports, Grace(sight.grace), sight.now);
    DeploymentBeforeMeaning(obj, st, d, sight);
    AfterCheck(obj, b, d.revision, DeploymentServing(d), sight.ports, Grace(sight.grace), sight.now);
    AfterKeepsStatus(st1, wait, d, sight.now);
  }

  // ----- when the evaluation comes back -----

  /** The grace period: three minutes unless a positive one is configured. */
  function Period(sight: WorkloadSight): int { if sight.grace >= 1 then sight.grace else 180 }

  lemma PeriodIsGrace(sight: WorkloadSight)
    ensures Grace(sight.grace) == Period(sight)
  {
  }

  /** What the port check asks for, read off the status it leaves. */
  predicate PortWait(obj: Object, s: Status, revision: string, serving: bool, sight: WorkloadSight, wait: int) {
    if CrashFirst(s.failureDetails) then wait == 0
    else
      var since := if s.portCheck.Some? && s.portCheck.value.failingSince.Some?
                   then s.portCheck.value.failingSince.value else sight.now;
      WaitOf(obj.spec.ports, PortBlamed(s.failureDetails), serving, sight.ports, since, Period(sight), sight.now, wait)
  }

  lemma PortWaitMeaning(obj: Object, b: PassState, revision: string, serving: bool, sight: WorkloadSight)
    requires WellFormed(b.status.portCheck)
    ensures var (st', wait) := CheckPorts(obj, b, revision, serving, sight.ports, Grace(sight.grace), sight.now);
            PortWait(obj, st'.status, revision, serving, sight, wait)
  {
    PeriodIsGrace(sight);
    if CrashFirst(b.status.failureDetails) {
      CrashMeaning(obj, b, revision, serving, sight.ports, Grace(sight.grace), sight.now);
    } else {
      CheckMeaning(obj, b, revision, serving, sight.ports, Grace(sight.grace), sight.now);
      WaitMeaning(obj, b, revision, serving, sight.ports, Grace(sight.grace), sight.now);
    }
  }

  /** Nothing more will happen to the rollout, by the first condition that decides it. */
  ghost predicate GaveUpOrSettled(d: Deployment, now: int) { exists k: nat :: SettledBy(d.conditions, k, now) }

  /** A Deployment that serves lets the pass go on, with a deferred return while the check
      wants one or an undiagnosed rollout is under way. One that does not serve ends the pass,
      and returns every ten seconds until the rollout has settled. */
  ghost predicate DeploymentResult(d: Deployment, details: seq<FailureDetail>, wait: int, now: int, r: StageResult) {
    if Serves(d) then
      if wait > 0 then r == Deferred(wait)
      else if RolledOut(d) || details != [] || GaveUpOrSettled(d, now) then r == Next
      else r == Deferred(10)
    else if !GaveUpOrSettled(d, now) then r == RequeueAfter(10)
    else if wait > 0 then r == RequeueAfter(wait)
    else r == Stop
  }

  lemma DeploymentReturns(obj: Object, st: PassState, d: Deployment, sight: WorkloadSight) returns (wait: int)
    requires WellFormed(st.status.portCheck)
    ensures var (st', r) := EvaluateDeployment(obj, st, d, sight);
            && PortWait(obj, st'.status, d.revision, Serves(d), sight, wait)
            && DeploymentResult(d, st'.status.failureDetails, wait, sight.now, r)
  {
    var b := DeploymentBefore(obj, st, d, sight);
    DeploymentBeforeMeaning(obj, st, d, sight);
    SameReading(d, StatefulSet(0, 0, "", "", Replicas(0, 0, 0), 0), obj, st.status);
    PortWaitMeaning(obj, b, d.revision, DeploymentServing(d), sight);
    RolloutSettledMeaning(d.conditions, sight.now);
    wait := CheckPorts(obj, b, d.revision, DeploymentServing(d), sight.ports, Grace(sight.grace), sight.now).1;
  }

  // ----- StatefulSet -----

  /** Without a revision there is nothing to capture crashes for. */
  function SetCrashesKept(s: Status, revision: string, crashes: seq<FailureDetail>): seq<FailureDetail> {
    if revision == "" then s.failureDetails else CrashesKept(s, revision, crashes)
  }

  lemma StatefulSetBeforeMeaning(obj: Object, st: PassState, w: StatefulSet, sight: WorkloadSight)
    ensures var b := StatefulSetBefore(obj, st, w, sight);
            && Wrote(b.status, obj, WorkloadConverged, SetRolledOut(w),
                     if SetRolledOut(w) then "FullyConverged" else "NotConverged")
            && (SetRolledOut(w) ==> Wrote(b.status, obj, WorkloadAvailable, true, "StatefulSetAvailable"))
            && b.status.failureDetails == (if SetRolledOut(w) then []
                                           else SetCrashesKept(st.status, w.updateRevision, sight.crashes))
            && b.status.replicas == w.replicas && b.status.portCheck == st.status.portCheck
            && b.verdicts == st.verdicts
  {
  }

  lemma StatefulSetAfterMeaning(obj: Object, st: PassState, wait: int, w: StatefulSet, now: int)
    ensures var (st', r) := StatefulSetAfter(obj, st, wait, w, now);
            && st'.status.failureDetails == st.status.failureDetails && st'.status.portCheck == st.status.portCheck
            && st'.verdicts.failed == st.verdicts.failed
            && SameCondition(st.status, st'.status, WorkloadConverged)
            && (SetRolledOut(w) ==> st' == st)
            && (!SetRolledOut(w) ==> Wrote(st'.status, obj, WorkloadAvailable, false, "StatefulSetNotAvailable"))
            && st'.verdicts.notReady
               == (if SetRolledOut(w) || st.verdicts.notReady.Some? then st.verdicts.notReady
                   else Some(Verdict("StackResourceStatefulSetNotReady")))
            && SetResult(w, st'.status.failureDetails, wait, r)
  {
  }

  /** A rolled out set lets the pass go on. Otherwise the pass ends, and returns unless a
      diagnosis is there and no port is to be looked at again. */
  predicate SetResult(w: StatefulSet, details: seq<FailureDetail>, wait: int, r: StageResult) {
    if SetRolledOut(w) then r == (if wait > 0 then Deferred(wait) else Next)
    else if wait > 0 then r == RequeueAfter(wait)
    else if details == [] then r == RequeueAfter(10)
    else r == Stop
  }

  /** What evaluating a StatefulSet reports, from what the set shows. */
  lemma StatefulSetMeaning(obj: Object, st: PassState, w: StatefulSet, sight: WorkloadSight) returns (wait: int)
    requires WellFormed(st.status.portCheck)
    ensures var (st', r) := EvaluateStatefulSet(obj, st, w, sight);
            var kept := SetCrashesKept(st.status, w.updateRevision, sight.crashes);
            && Diagnosed(obj, st, !SetRolledOut(w) && CrashFirst(kept), SetRolledOut(w), SetRolledOut(w), kept, st')
            && st'.status.conditions[WorkloadAvailable].reason
               == (if SetRolledOut(w) then "StatefulSetAvailable" else "StatefulSetNotAvailable")
            && st'.verdicts.notReady
               == (if SetRolledOut(w) || st.verdicts.notReady.Some? then st.verdicts.notReady
                   else Some(Verdict("StackResourceStatefulSetNotReady")))
            && PortWait(obj, st'.status, w.updateRevision, SetRolledOut(w), sight, wait)
            && SetResult(w, st'.status.failureDetails, wait, r)
  {
    var b := StatefulSetBefore(obj, st, w, sight);
    var done := StatefulSetConverged(w);
    StatefulSetBeforeMeaning(obj, st, w, sight);
    AfterCheck(obj, b, w.updateRevision, done, sight.ports, Grace(sight.grace), sight.now);
    PortWaitMeaning(obj, b, w.updateRevision, done, sight);
    var (st1, asked) := CheckPorts(obj, b, w.updateRevision, done, sight.ports, Grace(sight.grace), sight.now);
    wait := asked;
    StatefulSetAfterMeaning(obj, st1, wait, w, sight.now);
  }

  // ----- Job and CronJob -----

  /** The Job ended under another revision than the annotated one. */
  predicate Outdated(obj: Object, job: Job) {
    && (SaysYes(job.conditions, "Complete") || SaysYes(job.conditions, "Failed"))
    && job.revision != match obj.revision { case None => "" case Some(r) => r }
  }

  lemma SameJobReading(obj: Object, job: Job)
    ensures JobFailed(job) <==> SaysYes(job.conditions, "Failed")
    ensures JobFinished(job) && job.revision != Revision(obj) <==> Outdated(obj, job)
  {
  }

  ghost predicate WorkloadUntouched(st: PassState, st': PassState) {
    && SameCondition(st.status, st'.status, WorkloadAvailable)
    && SameCondition(st.status, st'.status, WorkloadConverged)
  }

  function FirstReport(before: Option<Verdict>, reason: string): Option<Verdict> {
    if before.Some? then before else Some(Verdict(reason))
  }

  /** A Job that succeeded is served and converged. One that failed is a failure, one that runs
      is not ready, and both leave the workload conditions alone. */
  ghost predicate JobOutcome(obj: Object, st: PassState, job: Job, crashes: seq<FailureDetail>, st': PassState,
                             r: StageResult) {
    var kept := match obj.revision { case None => st.status.failureDetails
                                     case Some(rev) => SetCrashesKept(st.status, rev, crashes) };
    if Succeeded(job) then
      && Wrote(st'.status, obj, WorkloadAvailable, true, "JobComplete")
      && Wrote(st'.status, obj, WorkloadConverged, true, "JobComplete")
      && st'.status.failureDetails == [] && st'.verdicts == st.verdicts && r == Next
    else
      && WorkloadUntouched(st, st') && st'.status.failureDetails == kept
      && if SaysYes(job.conditions, "Failed") then
           && st'.verdicts == st.verdicts.(failed := FirstReport(st.verdicts.failed, "JobFailed")) && r == Stop
         else
           && st'.verdicts == st.verdicts.(notReady := FirstReport(st.verdicts.notReady, "JobRunning"))
           && r == if kept == [] then RequeueAfter(10) else Stop
  }

  lemma JobMeaning(obj: Object, st: PassState, job: Job, sight: WorkloadSight)
    ensures var (st', r) := EvaluateJob(obj, st, job, sight); JobOutcome(obj, st, job, sight.crashes, st', r)
  {
    SameJobReading(obj, job);
  }

  /** A missing Job is created, an outdated one is deleted to be created anew, and any other
      is evaluated; a failed call ends the pass in error. */
  lemma ReconcileJobMeaning(obj: Object, st: PassState, sight: WorkloadSight)
    ensures var (st', r) := ReconcileJob(obj, st, sight);
            var waiting := st.(verdicts := st.verdicts.(notReady := FirstReport(st.verdicts.notReady, "JobRunning")));
            && (sight.job.JobReadFailed? ==> r == Error)
            && (sight.job.JobMissing? ==>
                  if sight.job.created then st' == waiting && r == RequeueAfter(5) else r == Error)
            && (sight.job.JobFound? && Outdated(obj, sight.job.job) ==>
                  if sight.job.deleted then st' == waiting && r == RequeueAfter(2) else r == Error)
            && (sight.job.JobFound? && !Outdated(obj, sight.job.job) ==>
                  JobOutcome(obj, st, sight.job.job, sight.crashes, st', r))
  {
    if sight.job.JobFound? {
      SameJobReading(obj, sight.job.job);
      if !Outdated(obj, sight.job.job) {
        JobMeaning(obj, st, sight.job.job, sight);
      }
    }
  }

  /** Child k is owned and completed, after every other that is or, among equals, listed first. */
  ghost predicate LastRun(jobs: seq<ChildJob>, k: nat) {
    && k < |jobs| && jobs[k].controlled && jobs[k].completedAt.Some?
    && forall i :: 0 <= i < |jobs| && jobs[i].controlled && jobs[i].completedAt.Some? && i != k ==>
         if i < k then jobs[i].completedAt.value < jobs[k].completedAt.value
         else jobs[i].completedAt.value <= jobs[k].completedAt.value
  }

  lemma LastRunIsLatest(jobs: seq<ChildJob>)
    ensures LatestChild(jobs).None? ==> forall k: nat :: !LastRun(jobs, k)
    ensures LatestChild(jobs).Some? ==> exists k: nat :: LastRun(jobs, k) && jobs[k] == LatestChild(jobs).value
  {
    LatestChildMeaning(jobs);
    if LatestChild(jobs).Some? {
      var k: nat :| CompletedLast(jobs, k) && jobs[k] == LatestChild(jobs).value;
      assert LastRun(jobs, k);
    }
  }

  /** The details after the child Job that completed last: none if it succeeded, else those of
      its pods; without one they stay. */
  ghost predicate CronDetails(s: Status, sight: WorkloadSight, details: seq<FailureDetail>) {
    if sight.cronJobs.Some? && exists k: nat :: LastRun(sight.cronJobs.value, k) then
      exists k: nat :: LastRun(sight.cronJobs.value, k)
        && var run := sight.cronJobs.value[k];
           details == if run.succeeded > 0 then [] else SetCrashesKept(s, run.name, sight.crashes)
    else details == s.failureDetails
  }

  /** A CronJob that is in place is served and converged, whatever its last run did. */
  lemma CronJobMeaning(obj: Object, st: PassState, sight: WorkloadSight)
    ensures var (st', r) := ReconcileCronJob(obj, st, sight);
            if !sight.cronApplied then r == Error
            else
              && Wrote(st'.status, obj, WorkloadAvailable, true, "CronJobScheduled")
              && Wrote(st'.status, obj, WorkloadConverged, true, "CronJobScheduled")
              && CronDetails(st.status, sight, st'.status.failureDetails) && st'.verdicts == st.verdicts && r == Next
  {
    if sight.cronJobs.Some? {
      LastRunIsLatest(sight.cronJobs.value);
    }
  }

  // ----- what comes before the evaluation -----

  /** A restart is carried out once per request: the pass notes the time, is not ready and ends. */
  ghost predicate Restarted(st: PassState, reason: string, now: int, st': PassState, r: StageResult) {
    && st'.status == st.status.(restartProcessedAt := Some(now))
    && st'.verdicts == st.verdicts.(notReady := FirstReport(st.verdicts.notReady, reason)) && r == Stop
  }

  /** An invalid spec is a failure. */
  ghost predicate Rejected(st: PassState, st': PassState, r: StageResult) {
    && st'.status == st.status && r == Stop
    && st'.verdicts == st.verdicts.(failed := FirstReport(st.verdicts.failed, "InvalidSpec"))
  }

  /** Neither an unapplied, an invalid nor a restarted workload is evaluated. */
  lemma ApplyMeaning(obj: Object, st: PassState, sight: WorkloadSight)
    ensures var (st', r) := ReconcileDeployment(obj, st, sight);
            match sight.deployment
            case ApplyFailed => st' == st && r == Error
            case InvalidSpec => Rejected(st, st', r)
            case Applied(d) =>
              if RestartPending(obj, st.status)
                then Restarted(st, "StackResourceDeploymentNotReady", sight.now, st', r)
              else (st', r) == EvaluateDeployment(obj, st, d, sight)
    ensures var (st', r) := ReconcileStatefulSet(obj, st, sight);
            match sight.statefulSet
            case ApplyFailed => st' == st && r == Error
            case InvalidSpec => Rejected(st, st', r)
            case Applied(w) =>
              if RestartPending(obj, st.status)
                then Restarted(st, "StackResourceStatefulSetNotReady", sight.now, st', r)
              else (st', r) == EvaluateStatefulSet(obj, st, w, sight)
  {
  }
}
