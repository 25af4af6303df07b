/** One reconcile pass on the fetched object: the loop over the stages, the derivation of
    the summary, and the single status write. */
module ResourceController {
  import opened Meta
  import opened Verifier
  import opened Resource
  import opened Service
  import opened ImageBuild
  import opened Housekeeping
  import opened Derive
  import opened Chain
  import opened WorkloadReconciler
  import opened ServiceReconciler

  // ----- the first two stages -----

  method CopyDockerConfig(r: StackResource, c: VerdictCollector, sight: AuthSight) returns (res: StageResult)
    modifies c
    ensures (View(r, c), res) == old(DockerConfigStage(View(r, c), sight))
  {
    if sight.secret.SecretReadFailed? {
      return Error;
    }
    if sight.secret.SecretMissing? {
      c.ReportNotReady("DockerConfigJsonSecretNotFound");
      return Stop;
    }
    return if sight.written then Next else Error;
  }

  method ReconcileRegistryAuth(r: StackResource, c: VerdictCollector, sight: AuthSight) returns (res: StageResult)
    modifies c
    ensures (View(r, c), res) == old(RegistryAuthStage(r.obj, View(r, c), sight))
  {
    if r.obj.spec.auth.NoAuth? {
      return Next;
    }
    if r.obj.spec.auth.DockerConfig? || r.obj.spec.buildRevision.None? {
      res := CopyDockerConfig(r, c, sight);
      return;
    }
    if !sight.resolved {
      c.ReportNotReady("RepositoryResolveFailed");
      return Stop;
    }
    if sight.secret.SecretReadFailed? {
      return Error;
    }
    if sight.secret.SecretMissing? {
      c.ReportNotReady("RegistryCredentialsMissing");
      return Stop;
    }
    return if sight.written then Next else Error;
  }

  method CreateImageBuild(r: StackResource, c: VerdictCollector, sight: BuildStageSight) returns (res: StageResult)
    modifies c
    ensures (View(r, c), res) == old(CreateBuild(View(r, c), sight))
  {
    if !sight.created {
      return Error;
    }
    c.ReportNotReady("ImageBuildInProgress");
    return Stop;
  }

  method ReconcileImageBuild(r: StackResource, c: VerdictCollector, sight: BuildStageSight) returns (res: StageResult)
    modifies r, c
    ensures (View(r, c), res) == old(ImageBuildStage(r.obj, View(r, c), sight))
  {
    if r.obj.spec.buildRevision.None? {
      return Next;
    }
    if !sight.housekept || sight.current.CurrentReadFailed? {
      return Error;
    }
    if sight.current.CurrentMissing? {
      res := CreateImageBuild(r, c, sight);
      return;
    }
    var b := sight.current.build;
    if b.cancelled {
      if !sight.deleted {
        return Error;
      }
      res := CreateImageBuild(r, c, sight);
      return;
    }
    if PhaseFailed(b.status) {
      r.SetCondition(BuildReady, false, "BuildFailed", sight.now);
      c.ReportFailed("BuildFailed");
      return Stop;
    }
    if PhaseComplete(b.status) {
      return Next;
    }
    c.ReportNotReady("ImageBuildInProgress");
    return Stop;
  }

  // ----- the chain -----

  /** What the pass sees, with the verifier as it is before the pass. */
  ghost function SeenBy(obj: Object, v: Verifier?, podIP: Option<string>, sight: PassSight): PassSight
    reads v
  {
    sight.(workload := Seen(obj, v, PortRevision(obj, sight.workload), podIP, sight.workload))
  }

  method RunStageInPlace(name: StageName, r: StackResource, c: VerdictCollector, v: Verifier?, store: IngressStore,
                         podIP: Option<string>, sight: PassSight)
    returns (res: StageResult)
    modifies r, c, v, store
    ensures (View(r, c), res) == old(RunStage(name, r.obj, View(r, c), SeenBy(r.obj, v, podIP, sight)))
    ensures !name.WorkStage? ==> SeenBy(r.obj, v, podIP, sight) == old(SeenBy(r.obj, v, podIP, sight))
    ensures store.View() == if name.RouteStage?
                            then old(StageIngresses(r.obj, View(r, c), sight.service, store.View()))
                            else old(store.View())
  {
    match name {
      case AuthStage => res := ReconcileRegistryAuth(r, c, sight.auth);
      case BuildStage => res := ReconcileImageBuild(r, c, sight.build);
      case WorkStage => res := ReconcileWorkload(r, c, v, podIP, sight.workload);
      case RouteStage => res := ReconcileService(r, c, store, sight.service);
    }
  }

  /** Runs the stages in order, remembering the last deferred requeue. */
  method RunStages(r: StackResource, c: VerdictCollector, v: Verifier?, store: IngressStore, podIP: Option<string>,
                   sight: PassSight)
    returns (res: ChainResult)
    modifies r, c, v, store
    ensures (View(r, c), res) == old(RunChain(CHAIN, None, r.obj, View(r, c), SeenBy(r.obj, v, podIP, sight)))
    ensures store.View() == old(ChainIngresses(CHAIN, r.obj, View(r, c), SeenBy(r.obj, v, podIP, sight), store.View()))
  {
    ghost var start, seen, cluster := View(r, c), SeenBy(r.obj, v, podIP, sight), store.View();
    var deferred: Option<int> := None;
    for i := 0 to |CHAIN|
      invariant i <= 2 ==> SeenBy(r.obj, v, podIP, sight) == seen
      invariant RunChain(CHAIN, None, r.obj, start, seen) == RunChain(CHAIN[i..], deferred, r.obj, View(r, c), seen)
      invariant ChainIngresses(CHAIN, r.obj, start, seen, cluster)
             == ChainIngresses(CHAIN[i..], r.obj, View(r, c), seen, store.View())
    {
      ghost var before, was, held := View(r, c), SeenBy(r.obj, v, podIP, sight), store.View();
      var out := RunStageInPlace(CHAIN[i], r, c, v, store, podIP, sight);
      StageAgrees(CHAIN[i], r.obj, before, was, seen);
      StageUnfolds(i, deferred, r.obj, before, seen, held);
      match out {
        case Error => return ChainError;
        case Stop => return Done;
        case RequeueNow => return RequeueSoon;
        case RequeueAfter(wait) => return After(wait);
        case Next =>
        case Deferred(wait) => deferred := Some(wait);
      }
    }
    assert CHAIN[|CHAIN|..] == [];
    return if deferred.Some? then After(deferred.value) else Done;
  }

  lemma StageAgrees(name: StageName, obj: Object, st: PassState, a: PassSight, b: PassSight)
    requires a == b.(workload := a.workload) && (name.WorkStage? ==> a == b)
    ensures RunStage(name, obj, st, a) == RunStage(name, obj, st, b)
  {
  }

  lemma StageUnfolds(i: nat, deferred: Option<int>, obj: Object, st: PassState, sight: PassSight, cluster: Ingresses)
    requires i < |CHAIN|
    ensures var (st', r) := RunStage(CHAIN[i], obj, st, sight);
            RunChain(CHAIN[i..], deferred, obj, st, sight)
            == if r.Next? then RunChain(CHAIN[i + 1..], deferred, obj, st', sight)
               else if r.Deferred? then RunChain(CHAIN[i + 1..], Some(r.wait), obj, st', sight)
               else (st', AsChainResult(r))
    ensures var (st', r) := RunStage(CHAIN[i], obj, st, sight);
            var after := if CHAIN[i].RouteStage? then StageIngresses(obj, st, sight.service, cluster) else cluster;
            ChainIngresses(CHAIN[i..], obj, st, sight, cluster)
            == if Passes(r) then ChainIngresses(CHAIN[i + 1..], obj, st', sight, after) else after
  {
    assert CHAIN[i..] == [CHAIN[i]] + CHAIN[i + 1..];
    OneStageIngresses(CHAIN[i], CHAIN[i + 1..], obj, st, sight, cluster);
    var (st', r) := RunStage(CHAIN[i], obj, st, sight);
    OneStage(CHAIN[i], CHAIN[i + 1..], deferred, obj, st, sight, st', r);
  }

  // ----- the derivation -----

  method DeriveFailedInPlace(r: StackResource, c: VerdictCollector, verdict: Verdict, now: int)
    modifies r
    ensures View(r, c) == old(DeriveFailed(r.obj, View(r, c), verdict, now))
  {
    r.status := r.status.(phase := Failed);
    r.SetCondition(Stalled, true, verdict.reason, now);
    r.SetCondition(Converged, false, verdict.reason, now);
    if CondTrue(r.obj, r.status, WorkloadAvailable) {
      r.SetCondition(Available, true, "ServingButStalled", now);
    } else {
      r.SetCondition(Available, false, verdict.reason, now);
    }
  }

  method DeriveNotReadyInPlace(r: StackResource, c: VerdictCollector, verdict: Verdict, now: int)
    modifies r
    ensures View(r, c) == old(DeriveNotReady(r.obj, View(r, c), verdict, now))
  {
    r.status := r.status.(phase := Pending);
    r.SetCondition(Available, false, verdict.reason, now);
    r.SetCondition(Converged, false, verdict.reason, now);
    r.SetCondition(Stalled, false, verdict.reason, now);
  }

  method DeriveNoVerdictInPlace(r: StackResource, c: VerdictCollector, now: int)
    modifies r
    ensures View(r, c) == old(DeriveNoVerdict(r.obj, View(r, c), now))
  {
    if r.obj.spec.buildRevision.Some? {
      r.status := r.status.(imageRevision := r.obj.spec.buildRevision.value);
    }
    var converged := CondTrue(r.obj, r.status, WorkloadConverged);
    var available := CondTrue(r.obj, r.status, WorkloadAvailable);
    r.SetCondition(Converged, converged, CurrentReason(r.obj, r.status, WorkloadConverged, "WorkloadNotConverged"),
                   now);
    r.status := r.status.(phase := if converged then Ready else Degraded);
    var reason := if available then "StackResourceAvailable" else "WorkloadNotAvailable";
    r.SetCondition(Available, available, reason, now);
    r.SetCondition(Stalled, false, reason, now);
  }

  /** Failing ports that the spec still declares, in the order of the record. */
  method FindDeclaredFailingPorts(ports: seq<Port>, pc: Option<PortCheck>) returns (failing: seq<int>)
    ensures failing == DeclaredFailingPorts(ports, pc)
    ensures forall n :: n in failing <==>
              pc.Some? && pc.value.failure && n in pc.value.failingPorts && DeclaresPort(ports, n)
  {
    forall n { DeclaredFailingPortsMeaning(ports, pc, n); }
    failing := [];
    if pc.None? || !pc.value.failure {
      return;
    }
    var recorded := pc.value.failingPorts;
    for i := 0 to |recorded|
      invariant failing == Declared(ports, recorded[..i])
    {
      assert recorded[..i + 1][..i] == recorded[..i];
      if DeclaresPort(ports, recorded[i]) {
        failing := failing + [recorded[i]];
      }
    }
    assert recorded[..|recorded|] == recorded;
  }

  /** The first crash entry that carries any detail. */
  method FindCrash(details: seq<FailureDetail>) returns (crash: Option<FailureDetail>)
    ensures crash == FirstCrash(details)
  {
    for i := 0 to |details|
      invariant FirstCrash(details) == FirstCrash(details[i..])
    {
      if details[i].kind == RUNTIME_CRASH && (details[i].reason != "" || details[i].message != "") {
        return Some(details[i]);
      }
    }
    return None;
  }

  /** Maps the pass to one state, the first case that applies. */
  method ClassifyPass(r: StackResource, c: VerdictCollector) returns (state: SummaryState, reason: string)
    ensures (state, reason) == Classify(r.obj, View(r, c))
  {
    var s := r.status;
    if c.failed.Some? {
      return SummaryFailed, c.failed.value.reason;
    }
    if c.notReady.Some? && CondFalse(r.obj, s, BuildReady) {
      return SummaryBuilding, Reason(s.conditions, BuildReady);
    }
    if c.notReady.Some? && CondFalse(r.obj, s, DependenciesReady) {
      return SummaryWaiting, Reason(s.conditions, DependenciesReady);
    }
    var crash := FindCrash(s.failureDetails);
    if c.notReady.Some? && crash.Some? {
      return SummaryFailed, crash.value.reason;
    }
    if c.notReady.None? && CondTrue(r.obj, s, WorkloadConverged) && CondTrue(r.obj, s, WorkloadAvailable) {
      return SummaryReady, Reason(s.conditions, WorkloadConverged);
    }
    var failing := FindDeclaredFailingPorts(r.obj.spec.ports, s.portCheck);
    if |failing| > 0 {
      return SummaryDeploying, "PortNotListening";
    }
    if c.notReady.Some? {
      return SummaryDeploying, c.notReady.value.reason;
    }
    return SummaryDeploying, CurrentReason(r.obj, s, WorkloadConverged, "WorkloadNotConverged");
  }

  method DeriveSummaryStatus(r: StackResource, c: VerdictCollector, now: int)
    modifies r
    ensures r.status == old(DeriveSummary(r.obj, View(r, c), now))
  {
    r.status := r.status.(observedGeneration := r.obj.generation);
    if r.obj.revision.Some? {
      r.status := r.status.(observedRevision := r.obj.revision.value);
    }
    if c.failed.Some? {
      DeriveFailedInPlace(r, c, c.failed.value, now);
    } else if c.notReady.Some? {
      DeriveNotReadyInPlace(r, c, c.notReady.value, now);
    } else {
      DeriveNoVerdictInPlace(r, c, now);
    }
    var state, reason := ClassifyPass(r, c);
    r.status := r.status.(summary := Some(Summary(state, reason, r.obj.generation)));
  }

  /** The pass: a failed chain, a failed read or a lost write leaves the stored status as it
      was, otherwise the derived status is stored. */
  method Reconcile(obj: Object, stored: Status, v: Verifier?, store: IngressStore, podIP: Option<string>,
                   sight: PassSight)
    returns (res: ChainResult, after: Status)
    modifies v, store
    ensures var out := old(ReconcilePass(obj, stored, SeenBy(obj, v, podIP, sight)));
            res == out.result && after == out.status
    ensures store.View() == old(PassIngresses(obj, stored, SeenBy(obj, v, podIP, sight), store.View()))
  {
    var r := new StackResource(obj, stored);
    var c := new VerdictCollector();
    res := RunStages(r, c, v, store, podIP, sight);
    if res.ChainError? || !sight.buildStatusRead {
      return ChainError, stored;
    }
    DeriveSummaryStatus(r, c, sight.now);
    if !sight.written {
      return ChainError, stored;
    }
    return res, r.status;
  }
}
