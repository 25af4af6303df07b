/** One reconcile pass of a StackResource: the chain of stages, the derivation, and the
    single status write at the end. */
module Chain {
  import opened Meta
  import opened Resource
  import opened Workload
  import opened Service
  import opened Housekeeping
  import opened Derive

  datatype StageName = AuthStage | BuildStage | WorkStage | RouteStage

  const CHAIN := [AuthStage, BuildStage, WorkStage, RouteStage]

  datatype PassSight = PassSight(
    now: int,
    auth: AuthSight,
    build: BuildStageSight,
    workload: WorkloadSight,
    service: ServiceSight,
    buildStatusRead: bool,
    written: bool)                 // no write was needed, or it was accepted

  datatype ChainResult = ChainError | Done | RequeueSoon | After(wait: int)

  function RunStage(name: StageName, obj: Object, st: PassState, sight: PassSight): (PassState, StageResult) {
    match name
    case AuthStage => RegistryAuthStage(obj, st, sight.auth)
    case BuildStage => ImageBuildStage(obj, st, sight.build)
    case WorkStage => WorkloadStage(obj, st, sight.workload)
    case RouteStage => ServiceStage(obj, st, sight.service)
  }

  /** The last deferred requeue is the one that counts. */
  function RunChain(stages: seq<StageName>, deferred: Option<int>, obj: Object, st: PassState, sight: PassSight)
    : (PassState, ChainResult)
  {
    if stages == [] then (st, if deferred.Some? then After(deferred.value) else Done)
    else
      var (st1, r) := RunStage(stages[0], obj, st, sight);
      match r
      case Error => (st1, ChainError)
      case Stop => (st1, Done)
      case RequeueNow => (st1, RequeueSoon)
      case RequeueAfter(w) => (st1, After(w))
      case Next => RunChain(stages[1..], deferred, obj, st1, sight)
      case Deferred(w) => RunChain(stages[1..], Some(w), obj, st1, sight)
  }

  datatype PassOutcome = PassOutcome(state: PassState, result: ChainResult, persisted: bool, status: Status)

  function ReconcilePass(obj: Object, status: Status, sight: PassSight): PassOutcome {
    var (st, r) := RunChain(CHAIN, None, obj, PassState(status, NoVerdicts()), sight);
    if r.ChainError? || !sight.buildStatusRead then PassOutcome(st, ChainError, false, status)
    else if !sight.written then PassOutcome(st, ChainError, false, status)
    else PassOutcome(st, r, true, DeriveSummary(obj, st, sight.now))
  }

  /** The Ingresses in the cluster after the stages have run, whether or not the status that
      goes with them is stored. */
  function ChainIngresses(stages: seq<StageName>, obj: Object, st: PassState, sight: PassSight,
                          cluster: Ingresses): Ingresses {
    if stages == [] then cluster
    else
      var (st1, r) := RunStage(stages[0], obj, st, sight);
      var after := if stages[0].RouteStage? then StageIngresses(obj, st, sight.service, cluster) else cluster;
      if Passes(r) then ChainIngresses(stages[1..], obj, st1, sight, after) else after
  }

  function PassIngresses(obj: Object, status: Status, sight: PassSight, cluster: Ingresses): Ingresses {
    ChainIngresses(CHAIN, obj, PassState(status, NoVerdicts()), sight, cluster)
  }

  // ----- the chain, unrolled -----

  /** The states between the stages, each stage running on what the previous one left. */
  function AfterAuth(obj: Object, status: Status, sight: PassSight): (PassState, StageResult) {
    RegistryAuthStage(obj, PassState(status, NoVerdicts()), sight.auth)
  }

  function AfterBuild(obj: Object, status: Status, sight: PassSight): (PassState, StageResult) {
    var (st, r) := AfterAuth(obj, status, sight);
    if Passes(r) then ImageBuildStage(obj, st, sight.build) else (st, r)
  }

  function AfterWork(obj: Object, status: Status, sight: PassSight): (PassState, StageResult) {
    var (st, r) := AfterBuild(obj, status, sight);
    if Passes(r) then WorkloadStage(obj, st, sight.workload) else (st, r)
  }

  function AfterRoute(obj: Object, status: Status, sight: PassSight): (PassState, StageResult) {
    var (st, r) := AfterWork(obj, status, sight);
    if Passes(r) then
      var (st', r') := ServiceStage(obj, st, sight.service);
      (st', if r'.Next? then r else r')
    else (st, r)
  }

  predicate Passes(r: StageResult) { r.Next? || r.Deferred? }

  predicate Reached(obj: Object, status: Status, sight: PassSight) { Passes(AfterBuild(obj, status, sight).1) }

  function AsChainResult(r: StageResult): ChainResult {
    match r
    case Error => ChainError
    case Stop => Done
    case RequeueNow => RequeueSoon
    case RequeueAfter(w) => After(w)
    case Next => Done
    case Deferred(w) => After(w)
  }

  lemma OneStage(name: StageName, rest: seq<StageName>, deferred: Option<int>, obj: Object, st: PassState,
                 sight: PassSight,
                 st': PassState, r: StageResult)
    requires RunStage(name, obj, st, sight) == (st', r)
    ensures RunChain([name] + rest, deferred, obj, st, sight) ==
            if r.Next? then RunChain(rest, deferred, obj, st', sight)
            else if r.Deferred? then RunChain(rest, Some(r.wait), obj, st', sight)
            else (st', AsChainResult(r))
  {
    assert ([name] + rest)[1..] == rest;
  }

  /** The loop over the chain is these four applications, with the last deferral kept. */
  lemma ChainUnrolls(obj: Object, status: Status, sight: PassSight)
    ensures RunChain(CHAIN, None, obj, PassState(status, NoVerdicts()), sight)
         == (AfterRoute(obj, status, sight).0, AsChainResult(AfterRoute(obj, status, sight).1))
  {
    var st0 := PassState(status, NoVerdicts());
    var (st1, r1) := AfterAuth(obj, status, sight);
    var (st2, r2) := AfterBuild(obj, status, sight);
    var (st3, r3) := AfterWork(obj, status, sight);
    EarlyStagesNeverDefer(obj, st0, sight);
    EarlyStagesNeverDefer(obj, st1, sight);
    assert CHAIN == [AuthStage] + [BuildStage, WorkStage, RouteStage];
    OneStage(AuthStage, [BuildStage, WorkStage, RouteStage], None, obj, st0, sight, st1, r1);
    if Passes(r1) {
      assert [BuildStage, WorkStage, RouteStage] == [BuildStage] + [WorkStage, RouteStage];
      OneStage(BuildStage, [WorkStage, RouteStage], None, obj, st1, sight, st2, r2);
      if Passes(r2) {
        assert [WorkStage, RouteStage] == [WorkStage] + [RouteStage];
        OneStage(WorkStage, [RouteStage], None, obj, st2, sight, st3, r3);
        if Passes(r3) {
          var (st4, r4) := ServiceStage(obj, st3, sight.service);
          assert [RouteStage] == [RouteStage] + [];
          OneStage(RouteStage, [], if r3.Deferred? then Some(r3.wait) else None, obj, st3, sight, st4, r4);
        }
      }
    }
  }

  lemma OneStageIngresses(name: StageName, rest: seq<StageName>, obj: Object, st: PassState, sight: PassSight,
                          cluster: Ingresses)
    ensures var (st', r) := RunStage(name, obj, st, sight);
            var after := if name.RouteStage? then StageIngresses(obj, st, sight.service, cluster) else cluster;
            ChainIngresses([name] + rest, obj, st, sight, cluster)
            == if Passes(r) then ChainIngresses(rest, obj, st', sight, after) else after
  {
    assert ([name] + rest)[1..] == rest;
  }

  /** Only a pass that gets through the workload stage touches the Ingresses. */
  lemma IngressesUnroll(obj: Object, status: Status, sight: PassSight, cluster: Ingresses)
    ensures PassIngresses(obj, status, sight, cluster)
         == var (st, r) := AfterWork(obj, status, sight);
            if Passes(r) then StageIngresses(obj, st, sight.service, cluster) else cluster
  {
    var st0 := PassState(status, NoVerdicts());
    var (st1, r1) := AfterAuth(obj, status, sight);
    var (st2, r2) := AfterBuild(obj, status, sight);
    var (st3, r3) := AfterWork(obj, status, sight);
    assert CHAIN == [AuthStage] + [BuildStage, WorkStage, RouteStage];
    OneStageIngresses(AuthStage, [BuildStage, WorkStage, RouteStage], obj, st0, sight, cluster);
    assert [BuildStage, WorkStage, RouteStage] == [BuildStage] + [WorkStage, RouteStage];
    OneStageIngresses(BuildStage, [WorkStage, RouteStage], obj, st1, sight, cluster);
    assert [WorkStage, RouteStage] == [WorkStage] + [RouteStage];
    OneStageIngresses(WorkStage, [RouteStage], obj, st2, sight, cluster);
    assert [RouteStage] == [RouteStage] + [];
    OneStageIngresses(RouteStage, [], obj, st3, sight, cluster);
  }

  lemma EarlyStagesNeverDefer(obj: Object, st: PassState, sight: PassSight)
    ensures !RegistryAuthStage(obj, st, sight.auth).1.Deferred? && !ImageBuildStage(obj, st, sight.build).1.Deferred?
  {
  }
}
