/** When a whole pass is stored. */
module PassOutcomes {
  import opened Resource
  import opened Readiness
  import opened Workload
  import opened Evaluations
  import opened Service
  import opened Chain
  import opened PortRuns
  import opened PortPolling
  import opened PassReports
  import opened TlsReports

  /** The workload stage of a resource with a Service lets the pass go on: it evaluates a
      workload that serves. */
  predicate GoesOn(obj: Object, status: Status, sight: WorkloadSight) {
    Dispatches(obj, sight) && Evaluates(obj, status, sight) && ShowsServing(obj, sight)
  }

  lemma StatefulSetGoesOn(obj: Object, st: PassState, sight: WorkloadSight)
    requires WellFormed(st.status.portCheck) && obj.spec.workloadType.StatefulService?
    ensures Passes(ReconcileStatefulSet(obj, st, sight).1) <==>
              Evaluates(obj, st.status, sight) && ShowsServing(obj, sight)
  {
    ApplyMeaning(obj, st, sight);
    if sight.statefulSet.Applied? {
      var wait := StatefulSetMeaning(obj, st, sight.statefulSet.workload, sight);
    }
  }

  lemma DeploymentGoesOn(obj: Object, st: PassState, sight: WorkloadSight)
    requires WellFormed(st.status.portCheck) && obj.spec.workloadType.Service?
    ensures Passes(ReconcileDeployment(obj, st, sight).1) <==>
              Evaluates(obj, st.status, sight) && ShowsServing(obj, sight)
  {
    ApplyMeaning(obj, st, sight);
    if sight.deployment.Applied? {
      var wait := DeploymentReturns(obj, st, sight.deployment.workload, sight);
    }
  }

  lemma WorkGoesOn(obj: Object, st: PassState, sight: WorkloadSight)
    requires WellFormed(st.status.portCheck)
    requires obj.spec.workloadType.Service? || obj.spec.workloadType.StatefulService?
    ensures Passes(WorkloadStage(obj, st, sight).1) <==> GoesOn(obj, st.status, sight)
  {
    if Dispatches(obj, sight) {
      var gated := GatedState(obj, st, sight);
      GatedRuns(obj, st, sight);
      GatedStateMeaning(obj, st, sight);
      MemoryEvaluates(obj, st.status, gated.status, sight);
      if obj.spec.workloadType.Service? {
        DeploymentGoesOn(obj, gated, sight);
      } else {
        StatefulSetGoesOn(obj, gated, sight);
      }
    } else {
      ClosedGateMeaning(obj, st, sight);
    }
  }

  /** Some stage fails: the credentials, the build, the workload, or the service, each only if
      the pass gets there. */
  predicate SomeStageFails(obj: Object, status: Status, sight: PassSight) {
    || CredentialError(obj, sight.auth)
    || (!CredentialStop(obj, sight.auth)
        && (|| BuildError(obj, sight.build)
            || (!BuildStop(obj, sight.build)
                && (|| WorkFails(obj, sight.workload)
                    || (GoesOn(obj, status, sight.workload) && ServiceFails(obj, sight.service))))))
  }

  lemma RouteEnds(obj: Object, status: Status, sight: PassSight)
    ensures var (st, r) := AfterWork(obj, status, sight);
            AfterRoute(obj, status, sight).1.Error? <==>
            r.Error? || (Passes(r) && ServiceStage(obj, st, sight.service).1.Error?)
  {
  }

  lemma WorkEnds(obj: Object, status: Status, sight: PassSight)
    requires WellFormed(status.portCheck) && AfterBuild(obj, status, sight) == (PassState(status, NoVerdicts()), Next)
    ensures AfterWork(obj, status, sight).1.Error? <==> WorkFails(obj, sight.workload)
    ensures obj.spec.workloadType.Service? || obj.spec.workloadType.StatefulService? ==>
              (Passes(AfterWork(obj, status, sight).1) <==> GoesOn(obj, status, sight.workload))
  {
    WorkStageFails(obj, PassState(status, NoVerdicts()), sight.workload);
    if obj.spec.workloadType.Service? || obj.spec.workloadType.StatefulService? {
      WorkGoesOn(obj, PassState(status, NoVerdicts()), sight.workload);
    }
  }

  /** Only these have a Service and can go on. */
  lemma ServedTypes(obj: Object, status: Status, sight: PassSight)
    requires ServiceFails(obj, sight.service) && !WorkFails(obj, sight.workload)
    requires Dispatches(obj, sight.workload)
    ensures obj.spec.workloadType.Service? || obj.spec.workloadType.StatefulService?
  {
  }

  /** Of the last two stages. */
  lemma LateStagesFail(obj: Object, status: Status, sight: PassSight)
    requires WellFormed(status.portCheck) && AfterBuild(obj, status, sight) == (PassState(status, NoVerdicts()), Next)
    ensures AfterRoute(obj, status, sight).1.Error? <==>
            WorkFails(obj, sight.workload)
            || (GoesOn(obj, status, sight.workload) && ServiceFails(obj, sight.service))
  {
    var (st, r) := AfterWork(obj, status, sight);
    RouteEnds(obj, status, sight);
    WorkEnds(obj, status, sight);
    ServiceStageMeaning(obj, st, sight.service);
    if !r.Error? && ServiceFails(obj, sight.service) {
      if Dispatches(obj, sight.workload) {
        ServedTypes(obj, status, sight);
      } else {
        ClosedGateMeaning(obj, PassState(status, NoVerdicts()), sight.workload);
      }
    }
  }

  lemma EarlyStagesDecide(obj: Object, status: Status, sight: PassSight)
    ensures var r := AfterBuild(obj, status, sight).1;
            && (r.Next? ==> !CredentialError(obj, sight.auth) && !CredentialStop(obj, sight.auth)
                            && !BuildError(obj, sight.build) && !BuildStop(obj, sight.build))
            && (r.Error? ==> SomeStageFails(obj, status, sight))
            && (r.Stop? ==> !SomeStageFails(obj, status, sight))
  {
    EarlyStagesMeaning(obj, status, sight);
  }

  lemma ChainFails(obj: Object, status: Status, sight: PassSight)
    requires WellFormed(status.portCheck)
    ensures AfterRoute(obj, status, sight).1.Error? <==> SomeStageFails(obj, status, sight)
  {
    EarlyStagesDecide(obj, status, sight);
    EarlyStagesMeaning(obj, status, sight);
    if AfterBuild(obj, status, sight).1.Next? {
      LateStagesFail(obj, status, sight);
    }
  }

  /** A pass is stored exactly when no stage that it reaches fails, the current build can be read
      for the summary, and the status write is accepted. A pass that is not stored ends in error
      and leaves the stored status as it was. */
  lemma PassStoredIff(obj: Object, status: Status, sight: PassSight)
    requires WellFormed(status.portCheck)
    ensures var out := ReconcilePass(obj, status, sight);
            && (out.persisted <==> !SomeStageFails(obj, status, sight) && sight.buildStatusRead && sight.written)
            && (!out.persisted ==> out.result == ChainError && out.status == status)
            && (out.persisted ==> out.result != ChainError)
  {
    ChainUnrolls(obj, status, sight);
    ChainFails(obj, status, sight);
  }
}
