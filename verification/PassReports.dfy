/** What a stored pass reports about its workload, from what it read, and what that means over
    runs. */
module PassReports {
  import opened Meta
  import opened Resource
  import opened Readiness
  import opened Workload
  import opened Evaluations
  import opened Tls
  import opened Routes
  import opened Service
  import opened Housekeeping
  import opened Derive
  import opened Chain
  import opened PassTheorems
  import opened PortRuns
  import opened PortPolling

  // ----- the stages before the workload -----

  /** A call of the credential stage fails. */
  predicate CredentialError(obj: Object, sight: AuthSight) {
    && !obj.spec.auth.NoAuth?
    && (obj.spec.auth.Basic? && obj.spec.buildRevision.Some? ==> sight.resolved)
    && (sight.secret.SecretReadFailed? || (sight.secret.SecretFound? && !sight.written))
  }

  /** A call of the build stage fails. */
  predicate BuildError(obj: Object, sight: BuildStageSight) {
    && obj.spec.buildRevision.Some?
    && (!sight.housekept
        || sight.current.CurrentReadFailed?
        || (sight.current.CurrentMissing? && !sight.created)
        || (sight.current.CurrentFound? && sight.current.build.cancelled && !(sight.deleted && sight.created)))
  }

  /** The build stage ends the pass with a failure verdict exactly for a build that failed and
      was not cancelled, and the credential stage never does. */
  predicate BuildFailure(obj: Object, sight: BuildStageSight) {
    && obj.spec.buildRevision.Some? && sight.housekept && sight.current.CurrentFound?
    && !sight.current.build.cancelled && sight.current.build.status.phase.BuildPhaseFailed?
  }

  /** What a stop of the first two stages waits for. */
  function StopReason(obj: Object, sight: PassSight): string {
    if !CredentialStop(obj, sight.auth) then "ImageBuildInProgress"
    else if obj.spec.auth.DockerConfig? || obj.spec.buildRevision.None? then "DockerConfigJsonSecretNotFound"
    else if !sight.auth.resolved then "RepositoryResolveFailed"
    else "RegistryCredentialsMissing"
  }

  /** Which way the first two stages go: on, into an error, or to a stop that carries a failure
      or a not-ready verdict. */
  lemma EarlyStagesMeaning(obj: Object, status: Status, sight: PassSight)
    ensures var (st, r) := AfterBuild(obj, status, sight);
            var stop, error := CredentialStop(obj, sight.auth), CredentialError(obj, sight.auth);
            && (r.Error? <==> error || (!stop && BuildError(obj, sight.build)))
            && (r.Stop? <==> stop || (!error && BuildStop(obj, sight.build) && !BuildError(obj, sight.build)))
            && (r.Error? || r.Stop? || r.Next?)
            && (r.Next? ==> st == PassState(status, NoVerdicts()))
            && (r.Stop? ==>
                  if !stop && BuildFailure(obj, sight.build)
                    then st.verdicts == Verdicts(None, Some(Verdict("BuildFailed")))
                         && Wrote(st.status, obj, BuildReady, false, "BuildFailed")
                  else st == PassState(status, Verdicts(Some(Verdict(StopReason(obj, sight))), None)))
  {
  }

  // ----- the gates of the workload stage -----

  function Waiting(v: Verdicts, reason: string): Verdicts { v.(notReady := FirstReport(v.notReady, reason)) }

  /** A closed gate: which condition says so, which verdict is reported, and whether the pass
      returns. */
  lemma ClosedGateMeaning(obj: Object, st: PassState, sight: WorkloadSight)
    requires !Dispatches(obj, sight)
    ensures var (st', r) := WorkloadStage(obj, st, sight);
            var c, g := st'.status.conditions, obj.generation;
            match Gate(obj, sight)
            case GateError => r == Error
            case Blocked =>
              && r == RequeueAfter(5) && st'.verdicts == Waiting(st.verdicts, "DependenciesNotReady")
              && Holds(c, DependenciesReady, false, g) && c[DependenciesReady].reason == "DependenciesNotReady"
            case Open =>
              if !sight.volumesReady then
                && r == RequeueAfter(5) && st'.verdicts == Waiting(st.verdicts, "VolumeMountsNotReady")
                && Holds(c, DependenciesReady, false, g) && c[DependenciesReady].reason == "VolumeMountsNotReady"
              else if sight.buildComplete.None? then r == Error
              else
                && r == Stop && st'.verdicts == Waiting(st.verdicts, "ApplicationBuildNotYetReady")
                && Holds(c, DependenciesReady, true, g)
                && Holds(c, BuildReady, false, g) && c[BuildReady].reason == "BuildNotReady"
    ensures WorkloadUntouched(st, WorkloadStage(obj, st, sight).0)
  {
  }

  lemma GatedStateMeaning(obj: Object, st: PassState, sight: WorkloadSight)
    ensures var gated := GatedState(obj, st, sight);
            && Holds(gated.status.conditions, DependenciesReady, true, obj.generation)
            && (obj.spec.buildRevision.Some? ==> Holds(gated.status.conditions, BuildReady, true, obj.generation))
            && WorkloadUntouched(st, gated) && gated.verdicts == st.verdicts && SameMemory(st.status, gated.status)
  {
  }

  // ----- the evaluated workload -----

  predicate HasPorts(t: WorkloadType) { t.Service? || t.Worker? || t.StatefulService? }

  /** The pass reads the workload and writes both of its conditions. */
  predicate Evaluates(obj: Object, status: Status, sight: WorkloadSight) {
    match obj.spec.workloadType
    case Service => sight.deployment.Applied? && !RestartPending(obj, status)
    case Worker => sight.deployment.Applied? && !RestartPending(obj, status)
    case StatefulService => sight.statefulSet.Applied? && !RestartPending(obj, status)
    case BatchJob => sight.job.JobFound? && !Outdated(obj, sight.job.job) && Succeeded(sight.job.job)
    case CronJob => sight.cronApplied
    case Unknown => false
  }

  /** The evaluated workload serves. */
  predicate ShowsServing(obj: Object, sight: WorkloadSight) {
    match obj.spec.workloadType
    case Service => sight.deployment.Applied? && Serves(sight.deployment.workload)
    case Worker => sight.deployment.Applied? && Serves(sight.deployment.workload)
    case StatefulService => sight.statefulSet.Applied? && SetRolledOut(sight.statefulSet.workload)
    case _ => true
  }

  /** The evaluated workload is rolled out. */
  predicate ShowsRolledOut(obj: Object, sight: WorkloadSight) {
    match obj.spec.workloadType
    case Service => sight.deployment.Applied? && RolledOut(sight.deployment.workload)
    case Worker => sight.deployment.Applied? && RolledOut(sight.deployment.workload)
    case StatefulService => sight.statefulSet.Applied? && SetRolledOut(sight.statefulSet.workload)
    case _ => true
  }

  /** The crash details that the evaluated revision is left with, if it is not rolled out. */
  function CrashesOf(obj: Object, status: Status, sight: WorkloadSight): seq<FailureDetail>
    requires HasPorts(obj.spec.workloadType) && Evaluates(obj, status, sight)
  {
    if obj.spec.workloadType.StatefulService?
      then SetCrashesKept(status, sight.statefulSet.workload.updateRevision, sight.crashes)
    else CrashesKept(status, sight.deployment.workload.revision, sight.crashes)
  }

  ghost predicate Reports(obj: Object, sight: WorkloadSight, s: Status) {
    && Holds(s.conditions, WorkloadAvailable, ShowsServing(obj, sight), obj.generation)
    && Holds(s.conditions, WorkloadConverged,
             ShowsRolledOut(obj, sight) && !(HasPorts(obj.spec.workloadType) && PortBlamed(s.failureDetails)),
             obj.generation)
  }

  /** A crash holds the diagnosis exactly when the rollout is not complete and its revision has
      shown one; then its details stay and there is no port record. */
  ghost predicate CrashKept(obj: Object, status: Status, sight: WorkloadSight, s: Status)
    requires HasPorts(obj.spec.workloadType) && Evaluates(obj, status, sight)
  {
    var kept := CrashesOf(obj, status, sight);
    && (CrashFirst(s.failureDetails) <==> !ShowsRolledOut(obj, sight) && CrashFirst(kept))
    && (CrashFirst(s.failureDetails) ==> s.failureDetails == kept && s.portCheck == None)
  }

  /** What a dispatch says of the workload, if it does not fail. */
  ghost predicate Told(obj: Object, st: PassState, sight: WorkloadSight, st': PassState) {
    if Evaluates(obj, st.status, sight) then
      && Reports(obj, sight, st'.status)
      && (HasPorts(obj.spec.workloadType) ==>
            && CrashKept(obj, st.status, sight, st'.status)
            && (!PortBlamed(st'.status.failureDetails) ==> st'.verdicts.failed == st.verdicts.failed)
            && (PortBlamed(st'.status.failureDetails) ==> st'.verdicts.failed.Some?))
      && (ShowsServing(obj, sight) ==> st'.verdicts.notReady == st.verdicts.notReady)
    else WorkloadUntouched(st, st')
  }

  lemma DeploymentTells(obj: Object, st: PassState, sight: WorkloadSight)
    requires WellFormed(st.status.portCheck) && !ReconcileDeployment(obj, st, sight).1.Error?
    requires obj.spec.workloadType.Service? || obj.spec.workloadType.Worker?
    ensures Told(obj, st, sight, ReconcileDeployment(obj, st, sight).0)
  {
    ApplyMeaning(obj, st, sight);
    if sight.deployment.Applied? {
      DeploymentMeaning(obj, st, sight.deployment.workload, sight);
    }
  }

  lemma StatefulSetTells(obj: Object, st: PassState, sight: WorkloadSight)
    requires WellFormed(st.status.portCheck) && !ReconcileStatefulSet(obj, st, sight).1.Error?
    requires obj.spec.workloadType.StatefulService?
    ensures Told(obj, st, sight, ReconcileStatefulSet(obj, st, sight).0)
  {
    ApplyMeaning(obj, st, sight);
    if sight.statefulSet.Applied? {
      var wait := StatefulSetMeaning(obj, st, sight.statefulSet.workload, sight);
    }
  }

  lemma DispatchReports(obj: Object, st: PassState, sight: WorkloadSight)
    requires WellFormed(st.status.portCheck) && !Dispatch(obj, st, sight).1.Error?
    ensures Told(obj, st, sight, Dispatch(obj, st, sight).0)
  {
    match obj.spec.workloadType
    case StatefulService => StatefulSetTells(obj, st, sight);
    case BatchJob => ReconcileJobMeaning(obj, st, sight);
    case CronJob => CronJobMeaning(obj, st, sight);
    case Unknown =>
    case _ => DeploymentTells(obj, st, sight);
  }

  // ----- a stored pass -----

  lemma PublishKeepsDetails(obj: Object, st: PassState, routes: PortRoutes, cert: TlsState, secret: TlsState,
                            sight: ServiceSight)
    ensures Publish(obj, st, routes, cert, secret, sight).status.failureDetails == st.status.failureDetails
  {
  }

  lemma RoutesKeepDetails(obj: Object, st: PassState, sight: ServiceSight)
    ensures ServiceStage(obj, st, sight).0.status.failureDetails == st.status.failureDetails
  {
    var routes := CollectRoutes(obj.spec.ports);
    if routes.Some? && Publishes(obj, st, sight) {
      PublishKeepsDetails(obj, st, routes.value, CertState(routes.value, st.status, sight).value,
                          SecretState(routes.value, st.status, sight).value, sight);
    }
  }

  lemma DerivationKeepsDetails(obj: Object, st: PassState, now: int)
    ensures DeriveSummary(obj, st, now).failureDetails == st.status.failureDetails
  {
  }

  /** The stored status has the workload conditions, the details and the port record that the
      workload stage left. */
  lemma StoredAsLeft(obj: Object, status: Status, sight: PassSight)
    requires ReconcilePass(obj, status, sight).persisted
    ensures var out, left := ReconcilePass(obj, status, sight), AfterWork(obj, status, sight).0;
            && SameCondition(left.status, out.status, WorkloadAvailable)
            && SameCondition(left.status, out.status, WorkloadConverged)
            && out.status.failureDetails == left.status.failureDetails
            && out.status.portCheck == left.status.portCheck
            && out.state.verdicts.failed == left.verdicts.failed
  {
    var out := ReconcilePass(obj, status, sight);
    ChainUnrolls(obj, status, sight);
    ChainDone(obj, status, sight);
    FailedVerdictComesFromWork(obj, status, sight);
    RoutesKeepDetails(obj, AfterWork(obj, status, sight).0, sight.service);
    SummaryMeaning(obj, out.state, sight.now);
    DerivationKeepsDetails(obj, out.state, sight.now);
    DomainConditionsKept(obj, out.state.status, out.status, WorkloadAvailable);
    DomainConditionsKept(obj, out.state.status, out.status, WorkloadConverged);
  }

  /** The pass gets as far as evaluating its workload. */
  predicate Looks(obj: Object, status: Status, sight: PassSight) {
    && !CredentialStop(obj, sight.auth) && !BuildStop(obj, sight.build)
    && Dispatches(obj, sight.workload) && Evaluates(obj, status, sight.workload)
  }

  lemma NoError(obj: Object, status: Status, sight: PassSight)
    requires ReconcilePass(obj, status, sight).persisted
    ensures !AfterBuild(obj, status, sight).1.Error? && !AfterWork(obj, status, sight).1.Error?
    ensures Reached(obj, status, sight) <==> !CredentialStop(obj, sight.auth) && !BuildStop(obj, sight.build)
  {
    ChainUnrolls(obj, status, sight);
    EarlyStages(obj, status, sight);
  }

  lemma LookingPass(obj: Object, status: Status, sight: PassSight)
    requires WellFormed(status.portCheck) && ReconcilePass(obj, status, sight).persisted
    requires !CredentialStop(obj, sight.auth) && !BuildStop(obj, sight.build) && Dispatches(obj, sight.workload)
    ensures var st, w := GatedState(obj, PassState(status, NoVerdicts()), sight.workload), sight.workload;
            && AfterWork(obj, status, sight) == Dispatch(obj, st, w) && !Dispatch(obj, st, w).1.Error?
            && st.verdicts == NoVerdicts() && SameMemory(status, st.status)
            && WorkloadUntouched(PassState(status, NoVerdicts()), st)
  {
    NoError(obj, status, sight);
    EarlyStagesMeaning(obj, status, sight);
    GatedRuns(obj, PassState(status, NoVerdicts()), sight.workload);
    GatedStateMeaning(obj, PassState(status, NoVerdicts()), sight.workload);
  }

  lemma MemoryEvaluates(obj: Object, a: Status, b: Status, sight: WorkloadSight)
    requires SameMemory(a, b)
    ensures Evaluates(obj, a, sight) == Evaluates(obj, b, sight)
    ensures HasPorts(obj.spec.workloadType) && Evaluates(obj, a, sight) ==>
              CrashesOf(obj, a, sight) == CrashesOf(obj, b, sight)
  {
  }

  /** A stored pass reports exactly what it read: it writes both workload conditions for this
      generation when it evaluates the workload, and leaves both alone otherwise. */
  lemma PassReportsWorkload(obj: Object, status: Status, sight: PassSight)
    requires WellFormed(status.portCheck) && ReconcilePass(obj, status, sight).persisted
    ensures var s := ReconcilePass(obj, status, sight).status;
            if Looks(obj, status, sight) then Reports(obj, sight.workload, s)
            else SameCondition(status, s, WorkloadAvailable) && SameCondition(status, s, WorkloadConverged)
  {
    StoredAsLeft(obj, status, sight);
    NoError(obj, status, sight);
    BeforeWork(obj, status, sight);
    var w := sight.workload;
    if Reached(obj, status, sight) {
      if Dispatches(obj, w) {
        LookingPass(obj, status, sight);
        var st := GatedState(obj, PassState(status, NoVerdicts()), w);
        MemoryEvaluates(obj, status, st.status, w);
        DispatchReports(obj, st, w);
      } else {
        ClosedGateMeaning(obj, AfterBuild(obj, status, sight).0, w);
      }
    }
  }

  /** A crash is blamed before any port: a stored pass that leaves the crash of a workload with
      ports keeps its details, stores no port record and does not report PortNotListening, and
      it leaves one exactly when the rollout it read is not complete and its revision crashed. */
  lemma CrashOwnsTheDiagnosis(obj: Object, status: Status, sight: PassSight)
    requires WellFormed(status.portCheck) && ReconcilePass(obj, status, sight).persisted
    requires HasPorts(obj.spec.workloadType) && Looks(obj, status, sight)
    ensures var out := ReconcilePass(obj, status, sight);
            && CrashKept(obj, status, sight.workload, out.status)
            && (out.state.verdicts.failed.Some? <==> PortBlamed(out.status.failureDetails))
  {
    var w := sight.workload;
    var st := GatedState(obj, PassState(status, NoVerdicts()), w);
    StoredAsLeft(obj, status, sight);
    LookingPass(obj, status, sight);
    MemoryEvaluates(obj, status, st.status, w);
    DispatchReports(obj, st, w);
  }

  /** A stored pass that evaluates a serving workload reports it as serving, and is Available
      unless it reports something as not ready while nothing has failed. */
  lemma ServingPass(obj: Object, status: Status, sight: PassSight)
    requires WellFormed(status.portCheck) && ReconcilePass(obj, status, sight).persisted
    requires Looks(obj, status, sight) && ShowsServing(obj, sight.workload)
    ensures var out := ReconcilePass(obj, status, sight);
            && AfterWork(obj, status, sight).0.verdicts.notReady.None?
            && Holds(out.status.conditions, WorkloadAvailable, true, obj.generation)
            && (CondTrue(obj, out.status, Available) <==>
                  out.state.verdicts.failed.Some? || out.state.verdicts.notReady.None?)
  {
    var w := sight.workload;
    var st := GatedState(obj, PassState(status, NoVerdicts()), w);
    PassReportsWorkload(obj, status, sight);
    LookingPass(obj, status, sight);
    MemoryEvaluates(obj, status, st.status, w);
    DispatchReports(obj, st, w);
    ServingIsAvailable(obj, status, sight);
  }

  lemma ServingIsAvailable(obj: Object, status: Status, sight: PassSight)
    requires ReconcilePass(obj, status, sight).persisted
    requires CondTrue(obj, ReconcilePass(obj, status, sight).status, WorkloadAvailable)
    ensures var out := ReconcilePass(obj, status, sight);
            CondTrue(obj, out.status, Available) <==>
            out.state.verdicts.failed.Some? || out.state.verdicts.notReady.None?
  {
    var out := ReconcilePass(obj, status, sight);
    SummaryMeaning(obj, out.state, sight.now);
    DomainConditionsKept(obj, out.state.status, out.status, WorkloadAvailable);
  }

  // ----- when a pass is stored -----

  /** A call of the workload stage fails: the listing is short or not there, the build cannot be
      read, or the workload cannot be applied, read, created or deleted. */
  predicate WorkFails(obj: Object, sight: WorkloadSight) {
    || Gate(obj, sight).GateError?
    || (Gate(obj, sight).Open? && sight.volumesReady && obj.spec.buildRevision.Some? && sight.buildComplete.None?)
    || (Dispatches(obj, sight)
        && match obj.spec.workloadType
           case Service => sight.deployment.ApplyFailed?
           case Worker => sight.deployment.ApplyFailed?
           case StatefulService => sight.statefulSet.ApplyFailed?
           case BatchJob =>
             || sight.job.JobReadFailed? || sight.job == JobMissing(false)
             || (sight.job.JobFound? && Outdated(obj, sight.job.job) && !sight.job.deleted)
           case CronJob => !sight.cronApplied
           case Unknown => true)
  }

  lemma DispatchFails(obj: Object, st: PassState, sight: WorkloadSight)
    requires WellFormed(st.status.portCheck) && Dispatches(obj, sight)
    ensures Dispatch(obj, st, sight).1.Error? <==> WorkFails(obj, sight)
  {
    ApplyMeaning(obj, st, sight);
    match obj.spec.workloadType
    case StatefulService =>
      if sight.statefulSet.Applied? {
        var wait := StatefulSetMeaning(obj, st, sight.statefulSet.workload, sight);
      }
    case BatchJob => ReconcileJobMeaning(obj, st, sight);
    case CronJob => CronJobMeaning(obj, st, sight);
    case Unknown =>
    case _ =>
      if sight.deployment.Applied? {
        var wait := DeploymentReturns(obj, st, sight.deployment.workload, sight);
      }
  }

  lemma WorkStageFails(obj: Object, st: PassState, sight: WorkloadSight)
    requires WellFormed(st.status.portCheck)
    ensures WorkloadStage(obj, st, sight).1.Error? <==> WorkFails(obj, sight)
  {
    if Dispatches(obj, sight) {
      GatedRuns(obj, st, sight);
      DispatchFails(obj, GatedState(obj, st, sight), sight);
    } else {
      ClosedGateMeaning(obj, st, sight);
    }
  }
}
