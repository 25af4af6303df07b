/** Whether and when a port is looked at again. */
module PortPolling {
  import opened Meta
  import opened Resource
  import opened Readiness
  import opened Workload
  import opened Service
  import opened Housekeeping
  import opened Chain
  import opened PassTheorems
  import opened PortRuns

  // ----- what stops a pass before the check -----

  /** The credential stage stops: a Secret or the repository is missing. */
  predicate CredentialStop(obj: Object, sight: AuthSight) {
    && !obj.spec.auth.NoAuth?
    && if obj.spec.auth.DockerConfig? || obj.spec.buildRevision.None? then sight.secret.SecretMissing?
       else !sight.resolved || sight.secret.SecretMissing?
  }

  /** The build stage stops: the current build is missing, replaced, running or failed. */
  predicate BuildStop(obj: Object, sight: BuildStageSight) {
    && obj.spec.buildRevision.Some? && sight.housekept
    && (sight.current.CurrentMissing?
        || (sight.current.CurrentFound? && (sight.current.build.cancelled
                || !ImageBuild.PhaseComplete(sight.current.build.status))))
  }

  /** A batch Job that ends or has crashed needs no polling. */
  predicate QuietJob(obj: Object, status: Status, sight: WorkloadSight) {
    && sight.job.JobFound?
    && !(JobFinished(sight.job.job) && sight.job.job.revision != Revision(obj))
    && (sight.job.job.succeeded >= 1 || JobFailed(sight.job.job)
        || CapturePodsOnce(status, Revision(obj), sight.crashes).failureDetails != [])
  }

  /** The dispatched workload ends the pass without a look at its ports and without a wait. */
  predicate QuietDispatch(obj: Object, status: Status, sight: WorkloadSight) {
    match obj.spec.workloadType
    case StatefulService => sight.statefulSet.InvalidSpec?
      || (sight.statefulSet.Applied? && RequiresRestart(obj, status))
    case BatchJob => QuietJob(obj, status, sight)
    case CronJob => sight.cronApplied
    case Unknown => false
    case _ => sight.deployment.InvalidSpec? || (sight.deployment.Applied? && RequiresRestart(obj, status))
  }

  /** Every way in which a pass ends before the port check and asks for nothing: stopped by
      the credential stage, the build stage or the build gate, an invalid spec, a restart
      request, or a workload type that has no ports to check. */
  predicate StopsEarly(obj: Object, status: Status, sight: PassSight) {
    || CredentialStop(obj, sight.auth)
    || BuildStop(obj, sight.build)
    || (Gate(obj, sight.workload).Open? && sight.workload.volumesReady
        && obj.spec.buildRevision.Some? && sight.workload.buildComplete == Some(false))
    || (Dispatches(obj, sight.workload) && QuietDispatch(obj, status, sight.workload))
  }

  // ----- passes that look -----

  predicate Serving(obj: Object, sight: WorkloadSight) {
    if obj.spec.workloadType.StatefulService?
      then sight.statefulSet.Applied? && StatefulSetConverged(sight.statefulSet.workload)
    else sight.deployment.Applied? && DeploymentServing(sight.deployment.workload)
  }

  /** The record asks for another look: a condemned revision that still serves, or a running
      clock while there is an answer or a pod. */
  predicate NeedsAnotherLook(pc: Option<PortCheck>, revision: string, serving: bool, sight: WorkloadSight) {
    if AlreadyFailed(pc, revision, Grace(sight.grace), sight.now) then serving
    else pc.Some? && pc.value.failingSince.Some? && (sight.ports.answer.Some? || sight.ports.podFound)
  }

  predicate ComesBack(r: StageResult) { (r.Deferred? || r.RequeueAfter?) && r.wait > 0 }

  lemma DeploymentComesBack(obj: Object, st: PassState, d: Deployment, sight: WorkloadSight)
    requires WellFormed(st.status.portCheck)
    requires NeedsAnotherLook(EvaluateDeployment(obj, st, d, sight).0.status.portCheck, d.revision,
                              DeploymentServing(d), sight)
    ensures ComesBack(EvaluateDeployment(obj, st, d, sight).1)
  {
    BeforeKeepsPortCheck(obj, st, d, StatefulSet(0, 0, "", "", Replicas(0, 0, 0), 0), sight);
    CheckNeverStalls(obj, DeploymentBefore(obj, st, d, sight), d.revision, DeploymentServing(d), sight.ports,
                     Grace(sight.grace), sight.now);
  }

  lemma StatefulSetComesBack(obj: Object, st: PassState, w: StatefulSet, sight: WorkloadSight)
    requires WellFormed(st.status.portCheck)
    requires NeedsAnotherLook(EvaluateStatefulSet(obj, st, w, sight).0.status.portCheck, w.updateRevision,
                              StatefulSetConverged(w), sight)
    ensures ComesBack(EvaluateStatefulSet(obj, st, w, sight).1)
  {
    BeforeKeepsPortCheck(obj, st, Deployment(0, 0, None, Replicas(0, 0, 0), 0, 0, [], ""), w, sight);
    CheckNeverStalls(obj, StatefulSetBefore(obj, st, w, sight), w.updateRevision, StatefulSetConverged(w), sight.ports,
                     Grace(sight.grace), sight.now);
  }

  lemma DispatchComesBack(obj: Object, st: PassState, sight: WorkloadSight)
    requires WellFormed(st.status.portCheck)
    requires DispatchEvent(obj, st, sight).Unanswered? || DispatchEvent(obj, st, sight).FoundClosed?
    requires NeedsAnotherLook(Dispatch(obj, st, sight).0.status.portCheck, DispatchEvent(obj, st, sight).revision,
                              Serving(obj, sight), sight)
    ensures ComesBack(Dispatch(obj, st, sight).1)
  {
    if obj.spec.workloadType.StatefulService? {
      StatefulSetComesBack(obj, st, sight.statefulSet.workload, sight);
    } else {
      DeploymentComesBack(obj, st, sight.deployment.workload, sight);
    }
  }

  /** The check ran in this pass and found the revision dead for the whole grace period. */
  predicate CondemnedBy(e: PortEvent, pc: Option<PortCheck>, sight: WorkloadSight) {
    (e.Unanswered? || e.FoundClosed?) && AlreadyFailed(pc, e.revision, Grace(sight.grace), sight.now)
  }

  /** The record a pass leaves asks for another look: a condemned revision that still serves,
      or a clock that still runs while there is an answer or a pod. */
  predicate AsksForLook(obj: Object, status: Status, sight: PassSight) {
    var pc, w := AfterWork(obj, status, sight).0.status.portCheck, sight.workload;
    if CondemnedBy(PassEvent(obj, status, sight), pc, w) then Serving(obj, w)
    else Running(pc) && (w.ports.answer.Some? || w.ports.podFound)
  }

  /** What the stages before the workload leave alone. */
  ghost predicate SameMemory(a: Status, b: Status) {
    && a.failureDetails == b.failureDetails && a.failureRevision == b.failureRevision
    && a.restartProcessedAt == b.restartProcessedAt && a.portCheck == b.portCheck
  }

  lemma EarlyStages(obj: Object, status: Status, sight: PassSight)
    ensures var (st, r) := AfterBuild(obj, status, sight);
            && SameMemory(status, st.status)
            && (r.Error? || r.Stop? || r.Next?)
            && (r.Next? ==> !CredentialStop(obj, sight.auth) && !BuildStop(obj, sight.build))
            && (r.Stop? ==> CredentialStop(obj, sight.auth) || BuildStop(obj, sight.build))
  {
  }

  lemma GateKeepsMemory(obj: Object, st: PassState, sight: WorkloadSight)
    ensures SameMemory(st.status, GatedState(obj, st, sight).status)
  {
  }

  lemma ClosedGateResult(obj: Object, st: PassState, sight: WorkloadSight)
    requires !Dispatches(obj, sight)
    ensures var r := WorkloadStage(obj, st, sight).1;
            if Gate(obj, sight).Open? && sight.volumesReady && sight.buildComplete == Some(false) then r == Stop
            else r.Error? || ComesBack(r)
  {
  }

  lemma QuietDispatchResult(obj: Object, st: PassState, sight: WorkloadSight)
    requires QuietDispatch(obj, st.status, sight)
    ensures var r := Dispatch(obj, st, sight).1; r == Stop || (r == Next && !NeedsService(obj.spec.workloadType))
  {
  }

  lemma JobComesBack(obj: Object, st: PassState, sight: WorkloadSight)
    requires obj.spec.workloadType.BatchJob? && !QuietJob(obj, st.status, sight)
    ensures var r := Dispatch(obj, st, sight).1; r.Error? || ComesBack(r)
  {
  }

  lemma BusyDispatchResult(obj: Object, st: PassState, sight: WorkloadSight)
    requires WellFormed(st.status.portCheck) && !QuietDispatch(obj, st.status, sight)
    requires var pc, e := Dispatch(obj, st, sight).0.status.portCheck, DispatchEvent(obj, st, sight);
             if CondemnedBy(e, pc, sight) then Serving(obj, sight)
             else Running(pc) && (sight.ports.answer.Some? || sight.ports.podFound)
    ensures var r := Dispatch(obj, st, sight).1; r.Error? || ComesBack(r)
  {
    var e := DispatchEvent(obj, st, sight);
    if obj.spec.workloadType.BatchJob? {
      JobComesBack(obj, st, sight);
    } else if e.Unanswered? || e.FoundClosed? {
      DispatchComesBack(obj, st, sight);
    } else {
      DispatchPortFacts(obj, st, sight);
      UncheckedResult(obj, st, sight);
    }
  }

  predicate Running(pc: Option<PortCheck>) { pc.Some? && pc.value.failingSince.Some? }

  /** Outside the listed stops, a pass that neither checked nor cleared the record failed. */
  lemma UncheckedResult(obj: Object, st: PassState, sight: WorkloadSight)
    requires !obj.spec.workloadType.BatchJob? && !QuietDispatch(obj, st.status, sight)
    requires var e := DispatchEvent(obj, st, sight);
             !e.Unanswered? && !e.FoundClosed? && Running(ApplyEvent(st.status.portCheck, e, sight.now))
    ensures Dispatch(obj, st, sight).1.Error?
  {
  }

  lemma WorkStageResult(obj: Object, status: Status, sight: PassSight)
    requires WellFormed(status.portCheck) && Reached(obj, status, sight) && AsksForLook(obj, status, sight)
    ensures var r := AfterWork(obj, status, sight).1;
            if StopsEarly(obj, status, sight) then r == Stop || (r == Next && !NeedsService(obj.spec.workloadType))
            else r.Error? || ComesBack(r)
  {
    var st := AfterBuild(obj, status, sight).0;
    EarlyStages(obj, status, sight);
    if Dispatches(obj, sight.workload) {
      var gated := GatedState(obj, st, sight.workload);
      GatedRuns(obj, st, sight.workload);
      GateKeepsMemory(obj, st, sight.workload);
      MemoryDecides(obj, status, gated.status, sight.workload);
      if QuietDispatch(obj, status, sight.workload) {
        QuietDispatchResult(obj, gated, sight.workload);
      } else {
        BusyDispatchResult(obj, gated, sight.workload);
      }
    } else {
      ClosedGateResult(obj, st, sight.workload);
    }
  }

  lemma MemoryDecides(obj: Object, a: Status, b: Status, sight: WorkloadSight)
    requires SameMemory(a, b)
    ensures QuietDispatch(obj, a, sight) == QuietDispatch(obj, b, sight)
  {
  }

  /** A port record never stalls on its own. Whenever a persisted pass leaves a record that
      asks for another look, the whole pass comes back after a positive time, exactly unless
      it stopped before the check in one of the listed ways, and then it asks for nothing. */
  lemma RunningClockIsPolled(obj: Object, status: Status, sight: PassSight)
    requires WellFormed(status.portCheck)
    requires ReconcilePass(obj, status, sight).persisted && AsksForLook(obj, status, sight)
    ensures var r := ReconcilePass(obj, status, sight).result;
            if StopsEarly(obj, status, sight) then r == Done else r.After? && r.wait > 0
  {
    ChainUnrolls(obj, status, sight);
    EarlyStages(obj, status, sight);
    if Reached(obj, status, sight) {
      WorkStageResult(obj, status, sight);
      if ComesBack(AfterWork(obj, status, sight).1) {
        RequeueSurvivesTheChain(obj, status, sight);
      } else {
        QuietTail(obj, status, sight);
      }
    }
  }

  lemma QuietTail(obj: Object, status: Status, sight: PassSight)
    requires ReconcilePass(obj, status, sight).persisted
    requires var r := AfterWork(obj, status, sight).1;
             r.Error? || r == Stop || (r == Next && !NeedsService(obj.spec.workloadType))
    ensures ReconcilePass(obj, status, sight).result == Done && !AfterWork(obj, status, sight).1.Error?
  {
    ChainUnrolls(obj, status, sight);
  }

  /** A restart request is such a stop: it leaves a running clock with a pod to dial and asks
      for nothing. */
  lemma RestartStopsPolling(obj: Object, p: Port, status: Status, now: int)
    requires obj.spec == Spec(Worker, None, NoAuth, [], [p], Some(1)) && status.restartProcessedAt == None
    requires WellFormed(status.portCheck) && Running(status.portCheck)
    ensures var out := ReconcilePass(obj, status, PortSightAt(now, None));
            && out.persisted && Running(out.status.portCheck)
            && AsksForLook(obj, status, PortSightAt(now, None)) && out.result == Done
  {
    var sight := PortSightAt(now, None);
    var st := PassState(status, NoVerdicts());
    assert AfterBuild(obj, status, sight) == (st, Next);
    GatedRuns(obj, st, sight.workload);
    GateKeepsMemory(obj, st, sight.workload);
    QuietDispatchResult(obj, GatedState(obj, st, sight.workload), sight.workload);
    ChainUnrolls(obj, status, sight);
    PassPortFacts(obj, status, sight);
  }
}
