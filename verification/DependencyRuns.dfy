/** Dependencies between sibling resources over whole runs.

    The specs of one namespace are fixed. Each step is one pass of one resource, which may
    fail or lose its write, and whose listing may be incomplete and may show each sibling
    as it was at any earlier time. */
module DependencyRuns {
  import opened Meta
  import opened IngressDrift
  import opened Resource
  import opened Readiness
  import opened Dependencies
  import opened Workload
  import opened Service
  import opened ImageBuild
  import opened Housekeeping
  import opened Derive
  import opened Chain
  import opened PassTheorems

  datatype Step = Step(name: string, sight: PassSight)
  datatype Run = Run(specs: map<string, Object>, states: seq<map<string, Status>>, steps: seq<Step>)

  predicate AvailableIn(run: Run, i: nat, n: string) {
    && i < |run.states| && n in run.specs && n in run.states[i]
    && CondTrue(run.specs[n], run.states[i][n], Available)
  }

  predicate ServingIn(run: Run, i: nat, n: string) {
    && i < |run.states| && n in run.specs && n in run.states[i]
    && CondTrue(run.specs[n], run.states[i][n], WorkloadAvailable)
  }

  /** The sibling is shown with its fixed generation and the conditions it had at time j. */
  predicate SeenAt(run: Run, s: Sibling, j: nat) {
    && j < |run.states| && s.name in run.specs && s.name in run.states[j]
    && s.generation == run.specs[s.name].generation && s.conditions == run.states[j][s.name].conditions
  }

  ghost predicate ListingFits(run: Run, listing: seq<Sibling>, k: nat) {
    UniqueNames(listing) && forall s :: s in listing ==> exists j :: 0 <= j <= k && SeenAt(run, s, j)
  }

  ghost predicate StepFits(run: Run, k: nat) {
    && k < |run.steps| && k + 1 < |run.states|
    && var Step(name, sight) := run.steps[k];
       && name in run.specs && name in run.states[k] && run.specs[name].name == name
       && (sight.workload.listing.Some? ==> ListingFits(run, sight.workload.listing.value, k))
       && run.states[k + 1] == run.states[k][name := ReconcilePass(run.specs[name], run.states[k][name], sight).status]
  }

  ghost predicate NothingAvailable(specs: map<string, Object>, start: map<string, Status>) {
    forall n :: n in specs && n in start ==> !CondTrue(specs[n], start[n], Available)
  }

  /** A run starts where nothing is available. */
  ghost predicate Legal(run: Run) {
    && |run.states| == |run.steps| + 1
    && NothingAvailable(run.specs, run.states[0])
    && forall k :: 0 <= k < |run.steps| ==> StepFits(run, k)
  }

  /** Dependency order: whatever is available depends on what was available before. */
  ghost predicate Ordered(run: Run) {
    forall i: nat, n :: AvailableIn(run, i, n) ==> Backed(run, i, n)
  }

  predicate Gated(obj: Object) { obj.spec.buildRevision.Some? && obj.spec.dependsOn != [] }

  /** No resource that is built from source and has dependencies is recorded as serving. */
  ghost predicate SafeStart(specs: map<string, Object>, start: map<string, Status>) {
    forall n :: n in specs && n in start && Gated(specs[n]) ==> !CondTrue(specs[n], start[n], WorkloadAvailable)
  }

  /** Every dependency of n was available strictly before step i. */
  ghost predicate Backed(run: Run, i: nat, n: string)
    requires n in run.specs
  {
    forall d :: d in run.specs[n].spec.dependsOn ==> d != n && exists j :: 0 <= j < i && AvailableIn(run, j, d)
  }

  // ----- one pass -----

  lemma ServingNeedsOpenGate(obj: Object, status: Status, sight: PassSight)
    ensures var out := ReconcilePass(obj, status, sight);
            && (CondTrue(obj, out.status, WorkloadAvailable) ==>
                  CondTrue(obj, status, WorkloadAvailable) || Gate(obj, sight.workload).Open?)
            && (CondTrue(obj, out.status, Available) ==>
                  CondTrue(obj, status, Available) || CondTrue(obj, status, WorkloadAvailable)
                  || Gate(obj, sight.workload).Open?)
  {
    var out := ReconcilePass(obj, status, sight);
    EarlyExitsCarryVerdicts(obj, status, sight);
    if out.persisted {
      ChainUnrolls(obj, status, sight);
      WorkDone(obj, status, sight);
      ChainDone(obj, status, sight);
      SummaryMeaning(obj, out.state, sight.now);
      DomainConditionsKept(obj, out.state.status, out.status, WorkloadAvailable);
    }
  }

  /** A resource that is not built from source only claims Available on passes whose gate is
      open, whatever was recorded before. */
  lemma ImageResourceNeedsOpenGate(obj: Object, status: Status, sight: PassSight)
    requires obj.spec.buildRevision.None?
    ensures var out := ReconcilePass(obj, status, sight);
            out.persisted && CondTrue(obj, out.status, Available) ==> Gate(obj, sight.workload).Open?
  {
    var out := ReconcilePass(obj, status, sight);
    if out.persisted && !Gate(obj, sight.workload).Open? {
      ChainUnrolls(obj, status, sight);
      BeforeWork(obj, status, sight);
      ClosedGateWaits(obj, status, sight);
      SummaryMeaning(obj, out.state, sight.now);
    }
  }

  lemma ClosedGateWaits(obj: Object, status: Status, sight: PassSight)
    requires obj.spec.buildRevision.None? && !Gate(obj, sight.workload).Open?
    ensures var (st, r) := AfterRoute(obj, status, sight);
            r.Error? || (st.verdicts.failed.None? && st.verdicts.notReady.Some?)
  {
  }

  /** A terminally failed build. */
  const FAILED_BUILD := Build("", 0, {}, 0, false, false, true, Git, true, true,
                              BuildStatus(BuildPhaseFailed,
                                          map[BuildFailed := Condition(true, 0, "BuildJobFailed", 0)], ""))

  /** A pass on which the credentials are in order and the current build has failed. */
  function FailedBuildSight(): PassSight {
    PassSight(0, AuthSight(true, SecretFound, true), BuildStageSight(0, true, CurrentFound(FAILED_BUILD), true, true),
              WorkloadSight(0, 0, None, true, None, ApplyFailed, ApplyFailed, JobMissing(true), false, None, [],
                            PortSight(false, None, false, false)),
              ServiceSight(0, true, "", IssuerNotFound, CertRead(None), MirrorBlocked, Accepted, Accepted, true),
              true, true)
  }

  lemma FailedBuildExits(obj: Object, status: Status)
    requires obj.spec.buildRevision.Some?
    ensures AfterRoute(obj, status, FailedBuildSight())
         == var st := PassState(status, NoVerdicts());
            (ReportFailed(Set(obj, st, BuildReady, false, "BuildFailed", 0), "BuildFailed"), Stop)
  {
    assert AfterAuth(obj, status, FailedBuildSight()) == (PassState(status, NoVerdicts()), Next);
  }

  /** The gate can be bypassed: a resource built from source that is recorded as serving
      becomes Available when its build fails, without looking at its dependencies. */
  lemma FailedBuildBypassesGate(obj: Object, status: Status)
    requires obj.spec.buildRevision.Some? && CondTrue(obj, status, WorkloadAvailable)
    ensures var out := ReconcilePass(obj, status, FailedBuildSight());
            out.persisted && CondTrue(obj, out.status, Available)
    ensures Lifecycle(FAILED_BUILD.status)
  {
    var sight := FailedBuildSight();
    FailedBuildExits(obj, status);
    ChainUnrolls(obj, status, sight);
    SummaryMeaning(obj, AfterRoute(obj, status, sight).0, 0);
  }

  lemma OpenGateBacks(run: Run, k: nat)
    requires StepFits(run, k)
    requires Gate(run.specs[run.steps[k].name], run.steps[k].sight.workload).Open?
    ensures Backed(run, k + 1, run.steps[k].name)
  {
    var Step(name, sight) := run.steps[k];
    var obj := run.specs[name];
    OpenGateMeaning(obj.name, obj.spec.dependsOn, sight.workload.listing);
    forall d | d in obj.spec.dependsOn ensures d != name && exists j :: 0 <= j < k + 1 && AvailableIn(run, j, d) {
      var s :| s in sight.workload.listing.value && s.name == d && SiblingAvailable(s);
      var j :| 0 <= j <= k && SeenAt(run, s, j);
      assert AvailableIn(run, j, d);
    }
  }

  lemma BackedLater(run: Run, i: nat, j: nat, n: string)
    requires n in run.specs && Backed(run, i, n) && i <= j
    ensures Backed(run, j, n)
  {
  }

  // ----- runs -----

  lemma {:induction false} ClaimIsBacked(run: Run, i: nat, n: string)
    requires Legal(run) && SafeStart(run.specs, run.states[0])
    requires AvailableIn(run, i, n) || (ServingIn(run, i, n) && Gated(run.specs[n]))
    ensures Backed(run, i, n)
  {
    if i > 0 {
      var k := i - 1;
      assert StepFits(run, k);
      var Step(name, sight) := run.steps[k];
      if name == n && Gate(run.specs[n], sight.workload).Open? {
        OpenGateBacks(run, k);
      } else if run.specs[n].spec.dependsOn != [] {
        if name == n {
          ServingNeedsOpenGate(run.specs[n], run.states[k][n], sight);
          if run.specs[n].spec.buildRevision.None? {
            ImageResourceNeedsOpenGate(run.specs[n], run.states[k][n], sight);
          }
        }
        ClaimIsBacked(run, k, n);
        BackedLater(run, k, i, n);
      }
    }
  }

  /** A resource is available only after every name it depends on was available, at its own
      generation, at some strictly earlier time. */
  lemma AvailableOnlyAfterDependencies(run: Run, i: nat, n: string, d: string)
    requires Legal(run) && SafeStart(run.specs, run.states[0])
    requires AvailableIn(run, i, n) && d in run.specs[n].spec.dependsOn
    ensures d != n && exists j :: 0 <= j < i && AvailableIn(run, j, d)
  {
    ClaimIsBacked(run, i, n);
  }

  // ----- the start condition is exact -----

  ghost predicate Starts(run: Run, specs: map<string, Object>, start: map<string, Status>) {
    Legal(run) && run.specs == specs && run.states[0] == start
  }

  ghost predicate OrderedFrom(specs: map<string, Object>, start: map<string, Status>) {
    forall run :: Starts(run, specs, start) ==> Ordered(run)
  }

  function BypassRun(specs: map<string, Object>, start: map<string, Status>, n: string): Run
    requires n in specs && n in start
  {
    var sight := FailedBuildSight();
    Run(specs, [start, start[n := ReconcilePass(specs[n], start[n], sight).status]], [Step(n, sight)])
  }

  lemma BypassIsLegal(specs: map<string, Object>, start: map<string, Status>, n: string)
    requires NothingAvailable(specs, start) && n in specs && n in start && specs[n].name == n
    ensures Starts(BypassRun(specs, start, n), specs, start)
  {
    var run := BypassRun(specs, start, n);
    assert StepFits(run, 0);
  }

  lemma BypassBreaksOrder(specs: map<string, Object>, start: map<string, Status>, n: string)
    requires NothingAvailable(specs, start) && n in specs && n in start && specs[n].name == n
    requires Gated(specs[n]) && CondTrue(specs[n], start[n], WorkloadAvailable)
    ensures !Ordered(BypassRun(specs, start, n))
  {
    var run := BypassRun(specs, start, n);
    FailedBuildBypassesGate(specs[n], start[n]);
    assert AvailableIn(run, 1, n);
    var d := specs[n].spec.dependsOn[0];
    assert d in specs[n].spec.dependsOn && !AvailableIn(run, 0, d);
  }

  /** From a state where nothing is available, all runs respect the dependency order exactly
      when no resource built from source with dependencies is recorded as serving. */
  lemma StartConditionIsExact(specs: map<string, Object>, start: map<string, Status>)
    requires forall n :: n in specs ==> specs[n].name == n
    requires NothingAvailable(specs, start)
    ensures OrderedFrom(specs, start) <==> SafeStart(specs, start)
  {
    if SafeStart(specs, start) {
      forall run | Starts(run, specs, start) ensures Ordered(run) {
        forall i: nat, n | AvailableIn(run, i, n) ensures Backed(run, i, n) {
          ClaimIsBacked(run, i, n);
        }
      }
    } else {
      var n :| n in specs && n in start && Gated(specs[n]) && CondTrue(specs[n], start[n], WorkloadAvailable);
      BypassIsLegal(specs, start, n);
      BypassBreaksOrder(specs, start, n);
    }
  }

  /** Every member depends on a member: a dependency cycle, a self-dependency, or anything
      that can only wait for one. */
  ghost predicate Knot(run: Run, members: set<string>) {
    forall n :: n in members && n in run.specs ==> exists d :: d in run.specs[n].spec.dependsOn && d in members
  }

  /** No member of a cycle ever becomes available. */
  lemma {:induction false} CyclesNeverBecomeAvailable(run: Run, members: set<string>, i: nat, n: string)
    requires Legal(run) && SafeStart(run.specs, run.states[0]) && Knot(run, members) && n in members
    ensures !AvailableIn(run, i, n)
    decreases i
  {
    if AvailableIn(run, i, n) {
      var d :| d in run.specs[n].spec.dependsOn && d in members;
      AvailableOnlyAfterDependencies(run, i, n, d);
      var j :| 0 <= j < i && AvailableIn(run, j, d);
      CyclesNeverBecomeAvailable(run, members, j, d);
      assert false;
    }
  }

  /** A name that no resource bears blocks its dependents for ever. */
  lemma MissingDependencyBlocks(run: Run, i: nat, n: string, d: string)
    requires Legal(run) && SafeStart(run.specs, run.states[0])
    requires n in run.specs && d in run.specs[n].spec.dependsOn && d !in run.specs
    ensures !AvailableIn(run, i, n)
  {
    if AvailableIn(run, i, n) {
      AvailableOnlyAfterDependencies(run, i, n, d);
    }
  }
}
