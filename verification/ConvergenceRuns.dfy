/** The convergence record of a resource over runs of passes. */
module ConvergenceRuns {
  import opened Meta
  import opened Resource
  import opened Readiness
  import opened Workload
  import opened Evaluations
  import opened Tls
  import opened Routes
  import opened Service
  import opened Derive
  import opened Chain
  import opened PortRuns

  /** The pass applies a Deployment or StatefulSet and sees it rolled out. */
  predicate SeesConverged(obj: Object, status: Status, sight: WorkloadSight) {
    && Dispatches(obj, sight) && !RestartPending(obj, status)
    && match obj.spec.workloadType
       case Service => sight.deployment.Applied? && RolledOut(sight.deployment.workload)
       case Worker => sight.deployment.Applied? && RolledOut(sight.deployment.workload)
       case StatefulService => sight.statefulSet.Applied? && SetRolledOut(sight.statefulSet.workload)
       case _ => false
  }

  /** The pass sees convergence under a revision other than the recorded one. */
  predicate Stamps(obj: Object, status: Status, sight: PassSight) {
    && Reached(obj, status, sight) && SeesConverged(obj, status, sight.workload)
    && obj.revision.Some?
    && (status.lastConverged.Some? ==> status.lastConverged.value.revision != obj.revision.value)
  }

  // ----- one pass -----

  lemma CheckKeepsRecord(obj: Object, st: PassState, revision: string, serving: bool, sight: PortSight, grace: int,
                         now: int)
    ensures CheckPorts(obj, st, revision, serving, sight, grace, now).0.status.lastConverged == st.status.lastConverged
  {
  }

  lemma DeploymentRecord(obj: Object, st: PassState, d: Deployment, sight: WorkloadSight)
    ensures EvaluateDeployment(obj, st, d, sight).0.status.lastConverged
         == if RolledOut(d) then StampLastConverged(obj, st.status, sight.now).lastConverged
            else st.status.lastConverged
  {
    var before := DeploymentBefore(obj, st, d, sight);
    SameReading(d, StatefulSet(0, 0, "", "", Replicas(0, 0, 0), 0), obj, st.status);
    CheckKeepsRecord(obj, before, d.revision, DeploymentServing(d), sight.ports, Grace(sight.grace), sight.now);
  }

  lemma StatefulSetRecord(obj: Object, st: PassState, w: StatefulSet, sight: WorkloadSight)
    ensures EvaluateStatefulSet(obj, st, w, sight).0.status.lastConverged
         == if SetRolledOut(w) then StampLastConverged(obj, st.status, sight.now).lastConverged
            else st.status.lastConverged
  {
    var before := StatefulSetBefore(obj, st, w, sight);
    CheckKeepsRecord(obj, before, w.updateRevision, StatefulSetConverged(w), sight.ports, Grace(sight.grace),
                     sight.now);
  }

  lemma JobsKeepRecord(obj: Object, st: PassState, sight: WorkloadSight)
    ensures ReconcileJob(obj, st, sight).0.status.lastConverged == st.status.lastConverged
    ensures ReconcileCronJob(obj, st, sight).0.status.lastConverged == st.status.lastConverged
  {
  }

  function RecordAfter(obj: Object, s: Status, seen: bool, now: int): Option<Convergence> {
    if seen then StampLastConverged(obj, s, now).lastConverged else s.lastConverged
  }

  lemma AppliedDeploymentRecord(obj: Object, st: PassState, sight: WorkloadSight)
    ensures var seen := !RestartPending(obj, st.status) && sight.deployment.Applied?
                        && RolledOut(sight.deployment.workload);
            ReconcileDeployment(obj, st, sight).0.status.lastConverged == RecordAfter(obj, st.status, seen, sight.now)
  {
    ApplyMeaning(obj, st, sight);
    if sight.deployment.Applied? {
      DeploymentRecord(obj, st, sight.deployment.workload, sight);
    }
  }

  lemma AppliedStatefulSetRecord(obj: Object, st: PassState, sight: WorkloadSight)
    ensures var seen := !RestartPending(obj, st.status) && sight.statefulSet.Applied?
                        && SetRolledOut(sight.statefulSet.workload);
            ReconcileStatefulSet(obj, st, sight).0.status.lastConverged == RecordAfter(obj, st.status, seen, sight.now)
  {
    ApplyMeaning(obj, st, sight);
    if sight.statefulSet.Applied? {
      StatefulSetRecord(obj, st, sight.statefulSet.workload, sight);
    }
  }

  lemma DispatchRecord(obj: Object, st: PassState, sight: WorkloadSight)
    requires Dispatches(obj, sight)
    ensures Dispatch(obj, st, sight).0.status.lastConverged
         == RecordAfter(obj, st.status, SeesConverged(obj, st.status, sight), sight.now)
  {
    match obj.spec.workloadType
    case StatefulService => AppliedStatefulSetRecord(obj, st, sight);
    case BatchJob => JobsKeepRecord(obj, st, sight);
    case CronJob => JobsKeepRecord(obj, st, sight);
    case Unknown =>
    case _ => AppliedDeploymentRecord(obj, st, sight);
  }

  lemma EarlyStagesKeepRecord(obj: Object, status: Status, sight: PassSight)
    ensures AfterBuild(obj, status, sight).0.status.lastConverged == status.lastConverged
    ensures AfterBuild(obj, status, sight).0.status.restartProcessedAt == status.restartProcessedAt
  {
  }

  lemma ClosedGateKeepsRecord(obj: Object, st: PassState, sight: WorkloadSight)
    requires !Dispatches(obj, sight)
    ensures WorkloadStage(obj, st, sight).0.status.lastConverged == st.status.lastConverged
  {
  }

  lemma PublishKeepsRecord(obj: Object, st: PassState, routes: PortRoutes, cert: TlsState, secret: TlsState,
                           sight: ServiceSight)
    ensures Publish(obj, st, routes, cert, secret, sight).status.lastConverged == st.status.lastConverged
  {
  }

  lemma RoutesKeepRecord(obj: Object, st: PassState, sight: ServiceSight)
    ensures ServiceStage(obj, st, sight).0.status.lastConverged == st.status.lastConverged
  {
    var routes := CollectRoutes(obj.spec.ports);
    if routes.Some? && Publishes(obj, st, sight) {
      PublishKeepsRecord(obj, st, routes.value, CertState(routes.value, st.status, sight).value,
                         SecretState(routes.value, st.status, sight).value, sight);
    }
  }

  lemma DerivationKeepsRecord(obj: Object, st: PassState, now: int)
    ensures DeriveSummary(obj, st, now).lastConverged == st.status.lastConverged
  {
  }

  lemma WorkRecord(obj: Object, status: Status, sight: PassSight)
    ensures AfterWork(obj, status, sight).0.status.lastConverged
         == if Stamps(obj, status, sight) then Some(Convergence(obj.revision.value, sight.workload.now))
            else status.lastConverged
  {
    var st := AfterBuild(obj, status, sight).0;
    EarlyStagesKeepRecord(obj, status, sight);
    if Reached(obj, status, sight) {
      if Dispatches(obj, sight.workload) {
        var gated := GatedState(obj, st, sight.workload);
        GatedRuns(obj, st, sight.workload);
        assert gated.status.lastConverged == status.lastConverged;
        assert RestartPending(obj, gated.status) == RestartPending(obj, status);
        DispatchRecord(obj, gated, sight.workload);
      } else {
        ClosedGateKeepsRecord(obj, st, sight.workload);
      }
    }
  }

  /** A pass changes the stored record exactly when it is persisted and sees convergence under
      a revision other than the recorded one, and then it records that revision and time. */
  lemma PassRecord(obj: Object, status: Status, sight: PassSight)
    ensures var out := ReconcilePass(obj, status, sight);
            out.status.lastConverged
            == if out.persisted && Stamps(obj, status, sight)
               then Some(Convergence(obj.revision.value, sight.workload.now))
               else status.lastConverged
  {
    var out := ReconcilePass(obj, status, sight);
    ChainUnrolls(obj, status, sight);
    WorkRecord(obj, status, sight);
    RoutesKeepRecord(obj, AfterWork(obj, status, sight).0, sight.service);
    if out.persisted {
      DerivationKeepsRecord(obj, out.state, sight.now);
    }
  }

  // ----- runs -----

  /** What pass k writes into the record, if anything. */
  function StampAt(passes: seq<Input>, k: nat): Option<Convergence>
    requires k < |passes|
  {
    if PassAt(passes, k).persisted && Stamps(passes[k].obj, StatusAfter(passes[..k]), passes[k].sight) then
      Some(Convergence(passes[k].obj.revision.value, TimeAt(passes, k)))
    else None
  }

  function StampsOf(passes: seq<Input>): (stamps: seq<Option<Convergence>>)
    ensures |stamps| == |passes|
    ensures forall k :: 0 <= k < |passes| ==> stamps[k] == StampAt(passes, k)
  {
    seq(|passes|, k requires 0 <= k < |passes| => StampAt(passes, k))
  }

  /** The stored record after each prefix of the run. */
  function RecordsOf(passes: seq<Input>): (records: seq<Option<Convergence>>)
    ensures |records| == |passes| + 1
    ensures forall k :: 0 <= k <= |passes| ==> records[k] == StatusAfter(passes[..k]).lastConverged
  {
    seq(|passes| + 1, k requires 0 <= k <= |passes| => StatusAfter(passes[..k]).lastConverged)
  }

  lemma RecordStep(passes: seq<Input>, k: nat)
    requires k < |passes|
    ensures RecordsOf(passes)[k + 1] == if StampAt(passes, k).Some? then StampAt(passes, k) else RecordsOf(passes)[k]
  {
    assert passes[..k + 1][..k] == passes[..k];
    PassRecord(passes[k].obj, StatusAfter(passes[..k]), passes[k].sight);
  }

  ghost predicate Written(records: seq<Option<Convergence>>, stamps: seq<Option<Convergence>>) {
    && |records| == |stamps| + 1 && records[0] == None
    && forall k :: 0 <= k < |stamps| ==> records[k + 1] == if stamps[k].Some? then stamps[k] else records[k]
  }

  /** The record after j passes is the stamp of pass i, after which none was written; it is
      empty when i is -1. */
  ghost predicate LastStamp(records: seq<Option<Convergence>>, stamps: seq<Option<Convergence>>, i: int, j: nat) {
    && -1 <= i < j + 1 && j <= |stamps| && |records| == |stamps| + 1
    && (forall k :: 0 <= k < j && i < k ==> stamps[k].None?)
    && if i == -1 then records[j] == None else i < j && stamps[i].Some? && records[j] == stamps[i]
  }

  lemma {:induction false} FindLastStamp(records: seq<Option<Convergence>>, stamps: seq<Option<Convergence>>, j: nat)
    returns (i: int)
    requires Written(records, stamps) && j <= |stamps|
    ensures LastStamp(records, stamps, i, j)
    decreases j
  {
    if j == 0 {
      i := -1;
    } else if stamps[j - 1].Some? {
      i := j - 1;
    } else {
      i := FindLastStamp(records, stamps, j - 1);
    }
  }

  /** Over any run LastConverged is never cleared and written once per revision: it is empty
      until the first pass that sees the workload converged under a revision, and afterwards
      holds revision and time of the last pass that saw it converge under a new one. */
  lemma RecordIsWrittenOncePerRevision(passes: seq<Input>, j: nat) returns (i: int)
    requires j <= |passes|
    ensures LastStamp(RecordsOf(passes), StampsOf(passes), i, j)
    ensures j < |passes| && RecordsOf(passes)[j].Some? ==> RecordsOf(passes)[j + 1].Some?
  {
    assert passes[..0] == [];
    forall k | 0 <= k < |passes|
      ensures RecordsOf(passes)[k + 1] == if StampsOf(passes)[k].Some? then StampsOf(passes)[k]
                                          else RecordsOf(passes)[k]
    {
      RecordStep(passes, k);
    }
    i := FindLastStamp(RecordsOf(passes), StampsOf(passes), j);
  }

  /** While the recorded revision is the annotated one, the record and its time stay. */
  lemma SameRevisionKeepsItsTime(passes: seq<Input>, k: nat)
    requires k < |passes| && RecordsOf(passes)[k].Some?
    requires passes[k].obj.revision == Some(RecordsOf(passes)[k].value.revision)
    ensures RecordsOf(passes)[k + 1] == RecordsOf(passes)[k]
  {
    RecordStep(passes, k);
  }
}
