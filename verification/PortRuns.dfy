/** The port verdict over whole runs of passes.

    A run is any sequence of passes over one resource. Specs may change between passes,
    answers are arbitrary (so the operator may restart and lose every answer), and a pass
    may fail or lose its status write. */
module PortRuns {
  import opened Meta
  import opened IngressDrift
  import opened Dialer
  import opened Resource
  import opened Readiness
  import opened Workload
  import opened Tls
  import opened Routes
  import opened Service
  import opened Housekeeping
  import opened Derive
  import opened Chain
  import opened PassTheorems

  datatype Input = Input(obj: Object, sight: PassSight)

  function StatusAfter(passes: seq<Input>): Status {
    if passes == [] then InitialStatus()
    else ReconcilePass(passes[|passes| - 1].obj, StatusAfter(passes[..|passes| - 1]), passes[|passes| - 1].sight).status
  }

  function PassAt(passes: seq<Input>, i: nat): PassOutcome
    requires i < |passes|
  {
    ReconcilePass(passes[i].obj, StatusAfter(passes[..i]), passes[i].sight)
  }

  // ----- what a pass does to the port record -----

  datatype PortEvent =
    | NotChecked                                   // the check was not reached
    | CrashOwned                                   // a crash detail owns the diagnosis
    | CheckOff                                     // no verifier or no ports
    | Unanswered(revision: string)
    | FoundOpen(revision: string)
    | FoundClosed(revision: string, ports: seq<int>)

  function AnswerEvent(ports: seq<Port>, revision: string, sight: PortSight): PortEvent {
    if !sight.enabled || ports == [] then CheckOff
    else if sight.answer.None? then Unanswered(revision)
    else if AllOpen(sight.answer.value) then FoundOpen(revision)
    else FoundClosed(revision, ClosedPorts(sight.answer.value))
  }

  function CheckEvent(obj: Object, details: seq<FailureDetail>, revision: string, sight: PortSight): PortEvent {
    if CrashFirst(details) then CrashOwned else AnswerEvent(obj.spec.ports, revision, sight)
  }

  function ApplyEvent(pc: Option<PortCheck>, e: PortEvent, now: int): Option<PortCheck> {
    match e
    case NotChecked => pc
    case CrashOwned => None
    case CheckOff => None
    case Unanswered(_) => pc
    case FoundOpen(r) => Some(PortCheck(r, false, [], None))
    case FoundClosed(r, ports) =>
      Some(PortCheck(r, true, ports, Some(if GraceClockStart(pc, r).Some? then GraceClockStart(pc, r).value else now)))
  }

  function DispatchEvent(obj: Object, st: PassState, sight: WorkloadSight): PortEvent {
    match obj.spec.workloadType
    case StatefulService =>
      if !sight.statefulSet.Applied? || RequiresRestart(obj, st.status) then NotChecked
      else
        var w := sight.statefulSet.workload;
        CheckEvent(obj, StatefulSetBefore(obj, st, w, sight).status.failureDetails, w.updateRevision, sight.ports)
    case BatchJob => NotChecked
    case CronJob => NotChecked
    case Unknown => NotChecked
    case _ =>
      if !sight.deployment.Applied? || RequiresRestart(obj, st.status) then NotChecked
      else
        var d := sight.deployment.workload;
        CheckEvent(obj, DeploymentBefore(obj, st, d, sight).status.failureDetails, d.revision, sight.ports)
  }

  predicate Dispatches(obj: Object, sight: WorkloadSight) {
    Gate(obj, sight).Open? && sight.volumesReady && (obj.spec.buildRevision.Some? ==> sight.buildComplete == Some(true))
  }

  function GatedState(obj: Object, st: PassState, sight: WorkloadSight): PassState {
    var st1 := Set(obj, st, DependenciesReady, true, "DependenciesReady", sight.now);
    if obj.spec.buildRevision.None? then st1 else Set(obj, st1, BuildReady, true, "BuildReady", sight.now)
  }

  function WorkEvent(obj: Object, st: PassState, sight: WorkloadSight): PortEvent {
    if Dispatches(obj, sight) then DispatchEvent(obj, GatedState(obj, st, sight), sight) else NotChecked
  }

  function PassEvent(obj: Object, status: Status, sight: PassSight): PortEvent {
    if Reached(obj, status, sight) then WorkEvent(obj, AfterBuild(obj, status, sight).0, sight.workload) else NotChecked
  }

  /** Some check for this revision ran and failed with the record it left. */
  ghost predicate Condemned(pc: Option<PortCheck>, e: PortEvent, grace: int, now: int) {
    && (e.Unanswered? || e.FoundClosed?)
    && AlreadyFailed(ApplyEvent(pc, e, now), e.revision, grace, now)
  }

  ghost predicate PortFacts(pc: Option<PortCheck>, e: PortEvent, grace: int, now: int, before: Verdicts,
                            pc': Option<PortCheck>, after: Verdicts) {
    && pc' == ApplyEvent(pc, e, now)
    && (after.failed == Some(Verdict(PORT_NOT_LISTENING)) && before.failed.None? ==> Condemned(pc, e, grace, now))
  }

  lemma VerifyFacts(ports: seq<Port>, pc: Option<PortCheck>, revision: string, sight: PortSight, grace: int, now: int)
    requires WellFormed(pc)
    ensures VerifyPorts(ports, pc, revision, sight, grace, now).portCheck
         == ApplyEvent(pc, AnswerEvent(ports, revision, sight), now)
    ensures VerifyPorts(ports, pc, revision, sight, grace, now).failed ==>
              Condemned(pc, AnswerEvent(ports, revision, sight), grace, now)
  {
    VerdictReadsBack(ports, pc, revision, sight, grace, now);
  }

  lemma CheckVerdict(obj: Object, st: PassState, revision: string, serving: bool, sight: PortSight, grace: int,
                     now: int)
    requires DiagnosisAllowed(st.status.failureDetails)
    ensures var st' := CheckPorts(obj, st, revision, serving, sight, grace, now).0;
            var out := VerifyPorts(obj.spec.ports, st.status.portCheck, revision, sight, grace, now);
            && st'.status.portCheck == out.portCheck
            && (!out.failed ==> st'.verdicts == st.verdicts)
  {
  }

  lemma CheckFacts(obj: Object, st: PassState, revision: string, serving: bool, sight: PortSight, grace: int, now: int)
    requires WellFormed(st.status.portCheck)
    ensures var st' := CheckPorts(obj, st, revision, serving, sight, grace, now).0;
            var e := CheckEvent(obj, st.status.failureDetails, revision, sight);
            PortFacts(st.status.portCheck, e, grace, now, st.verdicts, st'.status.portCheck, st'.verdicts)
  {
    if DiagnosisAllowed(st.status.failureDetails) {
      CheckVerdict(obj, st, revision, serving, sight, grace, now);
      VerifyFacts(obj.spec.ports, st.status.portCheck, revision, sight, grace, now);
    }
  }

  lemma BeforeKeepsPortCheck(obj: Object, st: PassState, d: Deployment, w: StatefulSet, sight: WorkloadSight)
    ensures DeploymentBefore(obj, st, d, sight).status.portCheck == st.status.portCheck
    ensures DeploymentBefore(obj, st, d, sight).verdicts == st.verdicts
    ensures StatefulSetBefore(obj, st, w, sight).status.portCheck == st.status.portCheck
    ensures StatefulSetBefore(obj, st, w, sight).verdicts == st.verdicts
  {
  }

  lemma DeploymentPortFacts(obj: Object, st: PassState, d: Deployment, sight: WorkloadSight)
    requires WellFormed(st.status.portCheck)
    ensures var st' := EvaluateDeployment(obj, st, d, sight).0;
            var e := CheckEvent(obj, DeploymentBefore(obj, st, d, sight).status.failureDetails, d.revision,
                                sight.ports);
            PortFacts(st.status.portCheck, e, Grace(sight.grace), sight.now, st.verdicts, st'.status.portCheck,
                      st'.verdicts)
  {
    BeforeKeepsPortCheck(obj, st, d, StatefulSet(0, 0, "", "", Replicas(0, 0, 0), 0), sight);
    CheckFacts(obj, DeploymentBefore(obj, st, d, sight), d.revision, DeploymentServing(d), sight.ports,
               Grace(sight.grace), sight.now);
  }

  lemma StatefulSetPortFacts(obj: Object, st: PassState, w: StatefulSet, sight: WorkloadSight)
    requires WellFormed(st.status.portCheck)
    ensures var st' := EvaluateStatefulSet(obj, st, w, sight).0;
            var e := CheckEvent(obj, StatefulSetBefore(obj, st, w, sight).status.failureDetails, w.updateRevision,
                                sight.ports);
            PortFacts(st.status.portCheck, e, Grace(sight.grace), sight.now, st.verdicts, st'.status.portCheck,
                      st'.verdicts)
  {
    BeforeKeepsPortCheck(obj, st, Deployment(0, 0, None, Replicas(0, 0, 0), 0, 0, [], ""), w, sight);
    CheckFacts(obj, StatefulSetBefore(obj, st, w, sight), w.updateRevision, StatefulSetConverged(w), sight.ports,
               Grace(sight.grace), sight.now);
  }

  lemma OtherPortFacts(obj: Object, st: PassState, sight: WorkloadSight)
    ensures ReconcileJob(obj, st, sight).0.status.portCheck == st.status.portCheck
    ensures st.verdicts.failed.None? ==>
              ReconcileJob(obj, st, sight).0.verdicts.failed != Some(Verdict(PORT_NOT_LISTENING))
    ensures ReconcileCronJob(obj, st, sight).0.status.portCheck == st.status.portCheck
    ensures ReconcileCronJob(obj, st, sight).0.verdicts == st.verdicts
  {
  }

  lemma DispatchPortFacts(obj: Object, st: PassState, sight: WorkloadSight)
    requires WellFormed(st.status.portCheck)
    ensures var st' := Dispatch(obj, st, sight).0;
            PortFacts(st.status.portCheck, DispatchEvent(obj, st, sight), Grace(sight.grace), sight.now,
                      st.verdicts, st'.status.portCheck, st'.verdicts)
  {
    if obj.spec.workloadType.StatefulService? {
      if sight.statefulSet.Applied? && !RequiresRestart(obj, st.status) {
        StatefulSetPortFacts(obj, st, sight.statefulSet.workload, sight);
      }
    } else if obj.spec.workloadType.Service? || obj.spec.workloadType.Worker? {
      if sight.deployment.Applied? && !RequiresRestart(obj, st.status) {
        DeploymentPortFacts(obj, st, sight.deployment.workload, sight);
      }
    } else {
      OtherPortFacts(obj, st, sight);
    }
  }

  lemma WorkPortFacts(obj: Object, st: PassState, sight: WorkloadSight)
    requires WellFormed(st.status.portCheck)
    ensures var st' := WorkloadStage(obj, st, sight).0;
            PortFacts(st.status.portCheck, WorkEvent(obj, st, sight), Grace(sight.grace), sight.now,
                      st.verdicts, st'.status.portCheck, st'.verdicts)
  {
    if Dispatches(obj, sight) {
      GatedRuns(obj, st, sight);
      DispatchPortFacts(obj, GatedState(obj, st, sight), sight);
    } else {
      ClosedGate(obj, st, sight);
    }
  }

  lemma ClosedGate(obj: Object, st: PassState, sight: WorkloadSight)
    requires !Dispatches(obj, sight)
    ensures WorkloadStage(obj, st, sight).0.status.portCheck == st.status.portCheck
    ensures WorkloadStage(obj, st, sight).0.verdicts.failed == st.verdicts.failed
  {
  }

  lemma GatedRuns(obj: Object, st: PassState, sight: WorkloadSight)
    requires Dispatches(obj, sight)
    ensures WorkloadStage(obj, st, sight) == Dispatch(obj, GatedState(obj, st, sight), sight)
    ensures GatedState(obj, st, sight).status.portCheck == st.status.portCheck
    ensures GatedState(obj, st, sight).verdicts == st.verdicts
  {
  }

  lemma EarlyVerdicts(obj: Object, status: Status, sight: PassSight)
    ensures AfterBuild(obj, status, sight).0.verdicts.failed != Some(Verdict(PORT_NOT_LISTENING))
    ensures Passes(AfterBuild(obj, status, sight).1) ==> AfterBuild(obj, status, sight).0.verdicts.failed.None?
  {
  }

  /** The record a pass persists is the event applied to the record it read, and a port
      verdict means the check ran and condemned the revision. */
  lemma PassPortFacts(obj: Object, status: Status, sight: PassSight)
    requires WellFormed(status.portCheck)
    ensures var out := ReconcilePass(obj, status, sight);
            var e, now, grace := PassEvent(obj, status, sight), sight.workload.now, Grace(sight.workload.grace);
            && out.status.portCheck == (if out.persisted then ApplyEvent(status.portCheck, e, now)
                                        else status.portCheck)
            && (out.persisted && out.state.verdicts.failed == Some(Verdict(PORT_NOT_LISTENING)) ==>
                  Condemned(status.portCheck, e, grace, now))
  {
    var out := ReconcilePass(obj, status, sight);
    ChainUnrolls(obj, status, sight);
    BeforeWork(obj, status, sight);
    EarlyVerdicts(obj, status, sight);
    ChainDone(obj, status, sight);
    var (st2, r2) := AfterBuild(obj, status, sight);
    if Passes(r2) {
      WorkPortFacts(obj, st2, sight.workload);
      FailedVerdictComesFromWork(obj, status, sight);
    }
    if out.persisted {
      SummaryMeaning(obj, out.state, sight.now);
    }
  }

  /** The last stage reports no failure. */
  lemma PublishReportsNoFailure(obj: Object, st: PassState, routes: PortRoutes, cert: TlsState, secret: TlsState,
                                sight: ServiceSight)
    ensures Publish(obj, st, routes, cert, secret, sight).verdicts.failed == st.verdicts.failed
  {
  }

  lemma RouteReportsNoFailure(obj: Object, st: PassState, sight: ServiceSight)
    ensures ServiceStage(obj, st, sight).0.verdicts.failed == st.verdicts.failed
  {
    var routes := CollectRoutes(obj.spec.ports);
    if Publishes(obj, st, sight) {
      PublishReportsNoFailure(obj, st, routes.value, CertState(routes.value, st.status, sight).value,
                              SecretState(routes.value, st.status, sight).value, sight);
    }
  }

  lemma FailedVerdictComesFromWork(obj: Object, status: Status, sight: PassSight)
    ensures AfterRoute(obj, status, sight).0.verdicts.failed == AfterWork(obj, status, sight).0.verdicts.failed
  {
    RouteReportsNoFailure(obj, AfterWork(obj, status, sight).0, sight.service);
  }

  // ----- runs -----

  lemma {:induction false} RecordsWellFormed(passes: seq<Input>)
    ensures WellFormed(StatusAfter(passes).portCheck)
  {
    if passes != [] {
      var front, last := passes[..|passes| - 1], passes[|passes| - 1];
      RecordsWellFormed(front);
      PassPortFacts(last.obj, StatusAfter(front), last.sight);
      EventKeepsWellFormed(last.obj, StatusAfter(front), last.sight);
    }
  }

  lemma ClosedEventNamesPorts(obj: Object, details: seq<FailureDetail>, revision: string, sight: PortSight)
    ensures var e := CheckEvent(obj, details, revision, sight); e.FoundClosed? ==> e.ports != []
  {
    if sight.answer.Some? {
      ClosedPortsMeaning(sight.answer.value);
    }
  }

  lemma EventKeepsWellFormed(obj: Object, status: Status, sight: PassSight)
    requires WellFormed(status.portCheck)
    ensures WellFormed(ApplyEvent(status.portCheck, PassEvent(obj, status, sight), sight.workload.now))
  {
    var st := GatedState(obj, AfterBuild(obj, status, sight).0, sight.workload);
    if sight.workload.statefulSet.Applied? {
      var w := sight.workload.statefulSet.workload;
      ClosedEventNamesPorts(obj, StatefulSetBefore(obj, st, w, sight.workload).status.failureDetails, w.updateRevision,
                            sight.workload.ports);
    }
    if sight.workload.deployment.Applied? {
      var d := sight.workload.deployment.workload;
      ClosedEventNamesPorts(obj, DeploymentBefore(obj, st, d, sight.workload).status.failureDetails, d.revision,
                            sight.workload.ports);
    }
  }

  function EventAt(passes: seq<Input>, i: nat): PortEvent
    requires i < |passes|
  {
    PassEvent(passes[i].obj, StatusAfter(passes[..i]), passes[i].sight)
  }

  function TimeAt(passes: seq<Input>, i: nat): int
    requires i < |passes|
  {
    passes[i].sight.workload.now
  }

  /** The pass neither judged an open answer, nor another revision, nor a crash, nor an
      absent check. */
  predicate Consistent(e: PortEvent, revision: string) {
    e.NotChecked? || e.Unanswered? || (e.FoundClosed? && e.revision == revision)
  }

  /** Pass i persisted a refusal for this revision at time `since`, and no persisted pass
      after it contradicted that. */
  ghost predicate ClockStart(passes: seq<Input>, i: nat, revision: string, since: int) {
    && i < |passes|
    && PassAt(passes, i).persisted
    && EventAt(passes, i).FoundClosed? && EventAt(passes, i).revision == revision
    && TimeAt(passes, i) == since
    && forall k :: i < k < |passes| && PassAt(passes, k).persisted ==> Consistent(EventAt(passes, k), revision)
  }

  lemma ClockStartExtends(passes: seq<Input>, i: nat, revision: string, since: int, next: Input)
    requires ClockStart(passes, i, revision, since)
    requires PassAt(passes + [next], |passes|).persisted ==> Consistent(EventAt(passes + [next], |passes|), revision)
    ensures ClockStart(passes + [next], i, revision, since)
  {
    var more := passes + [next];
    forall k | 0 <= k <= |passes| ensures more[..k] == passes[..k] { }
    forall k | i < k < |more| && PassAt(more, k).persisted ensures Consistent(EventAt(more, k), revision) {
      if k < |passes| {
        assert PassAt(passes, k).persisted;
      }
    }
  }

  /** A running clock was started by a persisted refusal that nothing has contradicted. */
  lemma {:induction false} RunningClockHasStart(passes: seq<Input>)
    requires var pc := StatusAfter(passes).portCheck; pc.Some? && pc.value.failingSince.Some?
    ensures var pc := StatusAfter(passes).portCheck;
            exists i :: ClockStart(passes, i, pc.value.revision, pc.value.failingSince.value)
  {
    if passes != [] {
      var front, last := passes[..|passes| - 1], passes[|passes| - 1];
      var n := |front|;
      assert passes == front + [last] && passes[..n] == front;
      RecordsWellFormed(front);
      PassPortFacts(last.obj, StatusAfter(front), last.sight);
      var pc0, pc := StatusAfter(front).portCheck, StatusAfter(passes).portCheck;
      var e := EventAt(passes, n);
      if PassAt(passes, n).persisted && e.FoundClosed? && GraceClockStart(pc0, e.revision).None? {
        assert ClockStart(passes, n, pc.value.revision, pc.value.failingSince.value);
      } else {
        assert pc0.Some? && pc0.value.revision == pc.value.revision && pc0.value.failingSince == pc.value.failingSince;
        RunningClockHasStart(front);
        var i :| ClockStart(front, i, pc.value.revision, pc.value.failingSince.value);
        ClockStartExtends(front, i, pc.value.revision, pc.value.failingSince.value, last);
      }
    }
  }

  /** The refusal at pass i justifies a port failure at pass j. */
  ghost predicate Justifies(passes: seq<Input>, i: nat, revision: string, j: nat)
    requires j < |passes|
  {
    && i < j
    && ClockStart(passes[..j + 1], i, revision, TimeAt(passes, i))
    && TimeAt(passes, j) - TimeAt(passes, i) >= Grace(passes[j].sight.workload.grace)
    && (EventAt(passes, j).Unanswered? || EventAt(passes, j).FoundClosed?)
    && EventAt(passes, j).revision == revision
  }

  /** The record after pass j, when pass j reported the failure. */
  lemma FailureRecord(passes: seq<Input>, j: nat)
    requires j < |passes|
    requires PassAt(passes, j).persisted && PassAt(passes, j).state.verdicts.failed == Some(Verdict(PORT_NOT_LISTENING))
    ensures var pc, e := StatusAfter(passes[..j + 1]).portCheck, EventAt(passes, j);
            && (e.Unanswered? || e.FoundClosed?)
            && AlreadyFailed(pc, e.revision, Grace(passes[j].sight.workload.grace), TimeAt(passes, j))
  {
    var upto, front := passes[..j + 1], passes[..j];
    assert upto[..j] == front && upto[j] == passes[j];
    RecordsWellFormed(front);
    PassPortFacts(passes[j].obj, StatusAfter(front), passes[j].sight);
  }

  /** A port failure is never premature. Whenever a pass reports it, the refusal that
      started the clock was judged and persisted at least a grace period earlier, for the
      same revision, and no persisted pass since then, this one included, judged an open
      answer, another revision, a crash, or an absent check. */
  lemma PortFailureIsNeverPremature(passes: seq<Input>, j: nat)
    requires j < |passes|
    requires PassAt(passes, j).persisted && PassAt(passes, j).state.verdicts.failed == Some(Verdict(PORT_NOT_LISTENING))
    ensures exists i: nat, revision :: Justifies(passes, i, revision, j)
  {
    FailureRecord(passes, j);
    var upto := passes[..j + 1];
    var pc, e := StatusAfter(upto).portCheck, EventAt(passes, j);
    RunningClockHasStart(upto);
    var i: nat :| ClockStart(upto, i, e.revision, pc.value.failingSince.value);
    StartIsEarlier(passes, i, j, pc.value.failingSince.value);
    assert Justifies(passes, i, e.revision, j);
  }

  lemma StartIsEarlier(passes: seq<Input>, i: nat, j: nat, since: int)
    requires i <= j < |passes| && passes[..j + 1][i].sight.workload.now == since
    requires passes[j].sight.workload.now - since >= Grace(passes[j].sight.workload.grace)
    ensures i < j && passes[i].sight.workload.now == since
  {
    assert passes[..j + 1][i] == passes[i];
  }

  // ----- the theorem is about something -----

  /** A serving Deployment whose only port has this answer at this time. */
  function PortSightAt(now: int, answer: Option<DialResult>): PassSight {
    var d := Deployment(1, 1, None, Replicas(1, 1, 1), 1, 0, [ClusterCondition("Available", Yes, "", 0)], "r");
    PassSight(now, AuthSight(true, SecretFound, true), BuildStageSight(now, true, CurrentMissing, true, true),
              WorkloadSight(now, 0, None, true, None, Applied(d), ApplyFailed, JobReadFailed, false, None, [],
                            PortSight(true, answer, true, true)),
              ServiceSight(now, true, "", IssuerNotFound, CertRead(None), MirrorBlocked, Accepted, Accepted, true),
              true, true)
  }

  predicate PlainWorker(obj: Object, p: Port) { obj.spec == Spec(Worker, None, NoAuth, [], [p], None) }

  lemma WorkerPass(obj: Object, p: Port, status: Status, now: int, answer: Option<DialResult>)
    requires PlainWorker(obj, p) && WellFormed(status.portCheck)
    requires answer.Some? ==> !AllOpen(answer.value)
    ensures var sight := PortSightAt(now, answer);
            var out, e := ReconcilePass(obj, status, sight), PassEvent(obj, status, sight);
            && out.persisted
            && e == (if answer.Some? then FoundClosed("r", ClosedPorts(answer.value)) else Unanswered("r"))
            && out.status.portCheck == ApplyEvent(status.portCheck, e, now)
            && (AlreadyFailed(out.status.portCheck, "r", 180, now) ==>
                  out.state.verdicts.failed == Some(Verdict(PORT_NOT_LISTENING)))
  {
    var sight := PortSightAt(now, answer);
    assert AfterBuild(obj, status, sight) == (PassState(status, NoVerdicts()), Next);
    assert sight.workload.deployment.workload.conditions[0].status.Yes?;
    GatedRuns(obj, PassState(status, NoVerdicts()), sight.workload);
    WorkerEvaluates(obj, p, GatedState(obj, PassState(status, NoVerdicts()), sight.workload), now, answer);
    ChainUnrolls(obj, status, sight);
    PassPortFacts(obj, status, sight);
  }

  lemma WorkerEvaluates(obj: Object, p: Port, st: PassState, now: int, answer: Option<DialResult>)
    requires PlainWorker(obj, p) && WellFormed(st.status.portCheck) && !Reported(st.verdicts)
    requires answer.Some? ==> !AllOpen(answer.value)
    ensures var sight := PortSightAt(now, answer).workload;
            var (st', r) := Dispatch(obj, st, sight);
            && Passes(r)
            && DispatchEvent(obj, st, sight) == (if answer.Some? then FoundClosed("r", ClosedPorts(answer.value))
                                                 else Unanswered("r"))
            && (AlreadyFailed(st'.status.portCheck, "r", 180, now) ==>
                  st'.verdicts.failed == Some(Verdict(PORT_NOT_LISTENING)))
  {
    var sight := PortSightAt(now, answer).workload;
    var d := sight.deployment.workload;
    assert d.conditions[0].status.Yes?;
    var before := DeploymentBefore(obj, st, d, sight);
    assert before.status.failureDetails == [];
    BeforeKeepsPortCheck(obj, st, d, StatefulSet(0, 0, "", "", Replicas(0, 0, 0), 0), sight);
    VerifyNeverStalls(obj.spec.ports, before.status.portCheck, "r", sight.ports, 180, now);
  }

  lemma OnePassRun(input: Input)
    ensures StatusAfter([input]) == ReconcilePass(input.obj, InitialStatus(), input.sight).status
  {
    assert [input][..0] == [];
  }

  lemma TwoPassRun(a: Input, b: Input)
    ensures PassAt([a, b], 1) == ReconcilePass(b.obj, StatusAfter([a]), b.sight)
  {
    assert [a, b][..1] == [a];
  }

  lemma RefusalThenSilence(obj: Object, p: Port, status: Status)
    requires PlainWorker(obj, p) && WellFormed(status.portCheck)
    requires AlreadyFailed(status.portCheck, "r", 180, 180)
    ensures var out := ReconcilePass(obj, status, PortSightAt(180, None));
            out.persisted && out.state.verdicts.failed == Some(Verdict(PORT_NOT_LISTENING))
  {
    WorkerPass(obj, p, status, 180, None);
  }

  lemma FirstRefusal(obj: Object, p: Port)
    requires PlainWorker(obj, p)
    ensures var pc := ReconcilePass(obj, InitialStatus(),
                      PortSightAt(0, Some([PortResult(p.number, false)]))).status.portCheck;
            WellFormed(pc) && AlreadyFailed(pc, "r", 180, 180)
  {
    var refused := [PortResult(p.number, false)];
    assert !refused[0].open;
    ClosedPortsMeaning(refused);
    WorkerPass(obj, p, InitialStatus(), 0, Some(refused));
  }

  /** A refusal at time 0 and silence until the grace period is over: the second pass reports
      the failure. */
  lemma SomeRunFails(obj: Object, p: Port, a: Input, b: Input)
    requires PlainWorker(obj, p)
    requires a == Input(obj, PortSightAt(0, Some([PortResult(p.number, false)])))
      && b == Input(obj, PortSightAt(180, None))
    ensures PassAt([a, b], 1).persisted && PassAt([a, b], 1).state.verdicts.failed == Some(Verdict(PORT_NOT_LISTENING))
  {
    OnePassRun(a);
    TwoPassRun(a, b);
    FirstRefusal(obj, p);
    RefusalThenSilence(obj, p, StatusAfter([a]));
  }
}
