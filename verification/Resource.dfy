/** The StackResource: spec, persisted status, and what one reconcile pass carries. */
module Resource {
  import opened Meta

  datatype WorkloadType = Service | StatefulService | Worker | BatchJob | CronJob | Unknown

  datatype Port = Port(number: int, exposed: bool, fqdn: string, tls: bool, tlsSecretRef: string)

  /** How images are authenticated, as far as it steers control flow. */
  datatype Auth = NoAuth | DockerConfig | Basic

  datatype Spec = Spec(
    workloadType: WorkloadType,
    buildRevision: Option<string>,     // source revision when built from source
    auth: Auth,
    dependsOn: seq<string>,
    ports: seq<Port>,
    restartRequest: Option<int>)

  /** The immutable part of the object for one pass. */
  datatype Object = Object(
    name: string,
    namespace: string,
    generation: int,
    revision: Option<string>,          // revision annotation
    releaseID: string,                 // release annotation, "" when absent
    spec: Spec)

  datatype ConditionType =
    | DependenciesReady | BuildReady | WorkloadAvailable | WorkloadConverged | IngressReady | TLSConfigured
    | Available | Stalled | Converged

  datatype Phase = Pending | Ready | Degraded | Failed
  datatype SummaryState = SummaryWaiting | SummaryBuilding | SummaryDeploying | SummaryReady | SummaryFailed
  datatype Summary = Summary(state: SummaryState, reason: string, generation: int)

  const RUNTIME_CRASH := "runtime_crash"
  const READINESS_FAILURE := "readiness_failure"

  datatype FailureDetail = FailureDetail(kind: string, reason: string, message: string)

  datatype PortCheck = PortCheck(revision: string, failure: bool, failingPorts: seq<int>, failingSince: Option<int>)
  datatype ReferencedTLS = ReferencedTLS(reference: string, waitingSince: Option<int>)
  datatype Convergence = Convergence(revision: string, at: int)
  datatype Replicas = Replicas(total: int, available: int, updated: int)
  datatype Address = Address(port: int, https: bool, host: string)

  datatype Status = Status(
    observedGeneration: int,
    observedRevision: string,
    imageRevision: string,
    conditions: map<ConditionType, Condition>,
    phase: Phase,
    summary: Option<Summary>,
    lastConverged: Option<Convergence>,
    replicas: Replicas,
    restartProcessedAt: Option<int>,
    failureDetails: seq<FailureDetail>,
    failureRevision: string,
    portCheck: Option<PortCheck>,
    certWaitingSince: Option<int>,
    referencedTLS: Option<ReferencedTLS>,
    addresses: set<Address>)

  function InitialStatus(): Status {
    Status(0, "", "", map[], Pending, None, None, Replicas(0, 0, 0), None, [], "", None, None, None, {})
  }

  datatype Verdict = Verdict(reason: string)
  datatype Verdicts = Verdicts(notReady: Option<Verdict>, failed: Option<Verdict>)

  /** Status and verdicts as they evolve during one pass. */
  datatype PassState = PassState(status: Status, verdicts: Verdicts)

  function NoVerdicts(): Verdicts { Verdicts(None, None) }

  function ReportNotReady(st: PassState, reason: string): PassState {
    if st.verdicts.notReady.None? then st.(verdicts := st.verdicts.(notReady := Some(Verdict(reason)))) else st
  }

  function ReportFailed(st: PassState, reason: string): PassState {
    if st.verdicts.failed.None? then st.(verdicts := st.verdicts.(failed := Some(Verdict(reason)))) else st
  }

  function Set(obj: Object, st: PassState, t: ConditionType, status: bool, reason: string, now: int): PassState {
    st.(status := st.status.(conditions := SetCondition(st.status.conditions, t, status, obj.generation, reason, now)))
  }

  predicate Reported(v: Verdicts) { v.notReady.Some? || v.failed.Some? }

  predicate CondTrue(obj: Object, status: Status, t: ConditionType) {
    TrueAt(status.conditions, t, obj.generation)
  }

  predicate CondFalse(obj: Object, status: Status, t: ConditionType) {
    Holds(status.conditions, t, false, obj.generation)
  }

  /** How a sub-reconciler tells the chain to proceed. */
  datatype StageResult = Error | Next | Stop | RequeueNow | RequeueAfter(wait: int) | Deferred(wait: int)

  // ----- mutable form -----

  /** First report of each kind wins and nothing is retracted. */
  class VerdictCollector {
    var notReady: Option<Verdict>
    var failed: Option<Verdict>

    constructor ()
      ensures notReady == None && failed == None
    {
      notReady, failed := None, None;
    }

    method ReportNotReady(reason: string)
      modifies this
      ensures failed == old(failed)
      ensures notReady == if old(notReady).Some? then old(notReady) else Some(Verdict(reason))
    {
      if notReady == None {
        notReady := Some(Verdict(reason));
      }
    }

    method ReportFailed(reason: string)
      modifies this
      ensures notReady == old(notReady)
      ensures failed == if old(failed).Some? then old(failed) else Some(Verdict(reason))
    {
      if failed == None {
        failed := Some(Verdict(reason));
      }
    }
  }

  /** The fetched object whose status the sub-reconcilers write in place. */
  class StackResource {
    const obj: Object
    var status: Status

    constructor (obj: Object, status: Status)
      ensures this.obj == obj && this.status == status
    {
      this.obj := obj;
      this.status := status;
    }

    method SetCondition(t: ConditionType, ready: bool, reason: string, now: int)
      modifies this
      ensures forall v :: PassState(status, v) == Set(obj, PassState(old(status), v), t, ready, reason, now)
    {
      status := status.(conditions := Meta.SetCondition(status.conditions, t, ready, obj.generation, reason, now));
    }
  }

  ghost function View(r: StackResource, c: VerdictCollector): PassState
    reads r, c
  {
    PassState(r.status, Verdicts(c.notReady, c.failed))
  }
}
