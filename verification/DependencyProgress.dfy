/** The other half of the dependency gate: what is shown available lets its dependents through. */
module DependencyProgress {
  import opened Meta
  import opened Resource
  import opened Readiness
  import opened Dependencies
  import opened Workload
  import opened IngressDrift
  import opened Housekeeping
  import opened Service
  import opened Chain
  import opened PassTheorems
  import opened PortRuns
  import opened PortPolling
  import opened PassReports
  import opened TlsReports
  import opened DependencyRuns

  /** Nothing but a dependency can keep the pass from an available workload: credentials, build,
      volumes and calls are in order, the workload serves, and no TLS path waits. */
  predicate Prepared(obj: Object, status: Status, sight: PassSight) {
    && !CredentialStop(obj, sight.auth) && !BuildStop(obj, sight.build)
    && sight.workload.volumesReady
    && (obj.spec.buildRevision.Some? ==> sight.workload.buildComplete == Some(true))
    && Evaluates(obj, status, sight.workload) && ShowsServing(obj, sight.workload)
    && !SomePathWaits(obj, status, sight.service)
    && ReconcilePass(obj, status, sight).persisted
  }

  lemma PathsWaitAsStored(obj: Object, status: Status, sight: PassSight)
    ensures SomePathWaits(obj, AfterWork(obj, status, sight).0.status, sight.service)
         == SomePathWaits(obj, status, sight.service)
  {
    WorkDone(obj, status, sight);
  }

  /** The last stage adds a not-ready verdict exactly while a TLS path waits. */
  lemma NotReadyOnlyWaits(obj: Object, status: Status, sight: PassSight)
    requires ReconcilePass(obj, status, sight).persisted && AfterWork(obj, status, sight).0.verdicts.notReady.None?
    ensures ReconcilePass(obj, status, sight).state.verdicts.notReady.Some? ==>
              SomePathWaits(obj, status, sight.service)
  {
    var (st, r) := AfterWork(obj, status, sight);
    ChainUnrolls(obj, status, sight);
    ServiceStageMeaning(obj, st, sight.service);
    PathsWaitAsStored(obj, status, sight);
  }

  /** With every dependency listed and available, however many there are, a prepared pass makes
      its resource available. */
  lemma ShownAvailableLetsThrough(obj: Object, status: Status, sight: PassSight)
    requires WellFormed(status.portCheck) && Prepared(obj, status, sight)
    requires sight.workload.listing.Some? ==> UniqueNames(sight.workload.listing.value)
    requires obj.spec.dependsOn == []
             || (AllListed(obj.name, obj.spec.dependsOn, sight.workload.listing)
                 && AllSayAvailable(obj.spec.dependsOn, sight.workload.listing.value))
    ensures CondTrue(obj, ReconcilePass(obj, status, sight).status, Available)
  {
    GateMeaning(obj.name, obj.spec.dependsOn, sight.workload.listing);
    assert Dispatches(obj, sight.workload);
    ServingPass(obj, status, sight);
    NotReadyOnlyWaits(obj, status, sight);
  }

  // ----- over runs -----

  /** The listing of step k shows every resource as it is at that time. */
  ghost predicate Fresh(run: Run, k: nat)
    requires k < |run.steps|
  {
    var listing := run.steps[k].sight.workload.listing;
    && listing.Some? && UniqueNames(listing.value)
    && (forall s :: s in listing.value ==> SeenAt(run, s, k))
    && forall n :: n in run.specs ==> exists s :: s in listing.value && s.name == n
  }

  ghost predicate Sane(run: Run, k: nat) {
    k < |run.states| && forall n :: n in run.states[k] ==> WellFormed(run.states[k][n].portCheck)
  }

  lemma SaneStep(run: Run, k: nat)
    requires StepFits(run, k) && Sane(run, k)
    ensures Sane(run, k + 1)
  {
    var Step(name, sight) := run.steps[k];
    PassPortFacts(run.specs[name], run.states[k][name], sight);
    EventKeepsWellFormed(run.specs[name], run.states[k][name], sight);
  }

  lemma {:induction false} SaneAlways(run: Run, k: nat)
    requires Legal(run) && Sane(run, 0) && k < |run.states|
    ensures Sane(run, k)
  {
    if k > 0 {
      SaneAlways(run, k - 1);
      assert StepFits(run, k - 1);
      SaneStep(run, k - 1);
    }
  }

  /** A fresh listing shows a dependency available exactly when it is. */
  lemma FreshShows(run: Run, k: nat, d: string, s: Sibling)
    requires k < |run.steps| && Fresh(run, k) && s in run.steps[k].sight.workload.listing.value && s.name == d
    ensures SaysAvailable(s) <==> AvailableIn(run, k, d)
  {
    assert SeenAt(run, s, k);
  }

  ghost predicate DistinctDependencies(obj: Object) {
    && obj.name !in obj.spec.dependsOn
    && forall i, j :: 0 <= i < j < |obj.spec.dependsOn| ==> obj.spec.dependsOn[i] != obj.spec.dependsOn[j]
  }

  /** Step k is prepared, sees a fresh listing, and all its dependencies are available. */
  ghost predicate Enabled(run: Run, k: nat) {
    && StepFits(run, k) && Fresh(run, k) && DistinctDependencies(run.specs[run.steps[k].name])
    && Prepared(run.specs[run.steps[k].name], run.states[k][run.steps[k].name], run.steps[k].sight)
    && forall d :: d in run.specs[run.steps[k].name].spec.dependsOn ==> AvailableIn(run, k, d)
  }

  lemma EnabledIsListed(run: Run, k: nat)
    requires StepFits(run, k) && Fresh(run, k) && DistinctDependencies(run.specs[run.steps[k].name])
    requires forall d :: d in run.specs[run.steps[k].name].spec.dependsOn ==> AvailableIn(run, k, d)
    ensures var Step(name, sight) := run.steps[k];
            var obj, listing := run.specs[name], sight.workload.listing;
            AllListed(obj.name, obj.spec.dependsOn, listing) && AllSayAvailable(obj.spec.dependsOn, listing.value)
  {
    var Step(name, sight) := run.steps[k];
    var obj, listing := run.specs[name], sight.workload.listing.value;
    forall s | s in listing && s.name in obj.spec.dependsOn ensures SaysAvailable(s) {
      FreshShows(run, k, s.name, s);
    }
    forall d | d in obj.spec.dependsOn ensures d != obj.name && exists s :: s in listing && s.name == d {
      assert AvailableIn(run, k, d);
    }
  }

  lemma EnabledStep(run: Run, k: nat)
    requires Enabled(run, k) && Sane(run, k)
    ensures AvailableIn(run, k + 1, run.steps[k].name)
  {
    var Step(name, sight) := run.steps[k];
    EnabledIsListed(run, k);
    ShownAvailableLetsThrough(run.specs[name], run.states[k][name], sight);
  }

  lemma OthersStay(run: Run, k: nat, n: string)
    requires StepFits(run, k) && n != run.steps[k].name && AvailableIn(run, k, n)
    ensures AvailableIn(run, k + 1, n)
  {
  }

  /** One round over the resources in dependency order. */
  ghost predicate Round(run: Run) {
    && Legal(run) && Sane(run, 0)
    && (forall i, j :: 0 <= i < j < |run.steps| ==> run.steps[i].name != run.steps[j].name)
    && forall k: nat :: k < |run.steps| ==> InOrder(run, k)
  }

  /** Step k is prepared, sees a fresh listing, and comes after the steps of its dependencies. */
  ghost predicate InOrder(run: Run, k: nat)
    requires k < |run.steps|
  {
    && StepFits(run, k) && Fresh(run, k) && DistinctDependencies(run.specs[run.steps[k].name])
    && Prepared(run.specs[run.steps[k].name], run.states[k][run.steps[k].name], run.steps[k].sight)
    && forall d :: d in run.specs[run.steps[k].name].spec.dependsOn ==> exists i :: 0 <= i < k && run.steps[i].name == d
  }

  ghost predicate DoneUpTo(run: Run, k: nat)
    requires k <= |run.steps|
  {
    forall i :: 0 <= i < k ==> AvailableIn(run, k, run.steps[i].name)
  }

  lemma RoundStep(run: Run, k: nat)
    requires Round(run) && k < |run.steps| && Sane(run, k) && DoneUpTo(run, k)
    ensures DoneUpTo(run, k + 1)
  {
    assert InOrder(run, k);
    forall d | d in run.specs[run.steps[k].name].spec.dependsOn ensures AvailableIn(run, k, d) {
      var i :| 0 <= i < k && run.steps[i].name == d;
    }
    EnabledStep(run, k);
    forall i | 0 <= i < k ensures AvailableIn(run, k + 1, run.steps[i].name) {
      OthersStay(run, k, run.steps[i].name);
    }
  }

  lemma {:induction false} RoundUpTo(run: Run, k: nat)
    requires Round(run) && k <= |run.steps|
    ensures DoneUpTo(run, k)
  {
    if k > 0 {
      RoundUpTo(run, k - 1);
      SaneAlways(run, k - 1);
      RoundStep(run, k - 1);
    }
  }

  /** One round of prepared passes in dependency order, each with a fresh listing, makes every
      resource available, from any start where nothing is. */
  lemma OneRoundSuffices(run: Run, i: nat)
    requires Round(run) && i < |run.steps|
    ensures AvailableIn(run, |run.steps|, run.steps[i].name)
  {
    RoundUpTo(run, |run.steps|);
  }

  // ----- such passes exist -----

  function WorkerSight(listing: seq<Sibling>): PassSight {
    var d := Deployment(1, 1, None, Replicas(1, 1, 1), 1, 0, [ClusterCondition("Available", Yes, "", 0)], "r");
    PassSight(0, AuthSight(true, SecretFound, true), BuildStageSight(0, true, CurrentMissing, true, true),
              WorkloadSight(0, 0, Some(listing), true, None, Applied(d), ApplyFailed, JobReadFailed, false, None, [],
                            PortSight(false, None, false, false)),
              ServiceSight(0, true, "", IssuerNotFound, CertRead(None), MirrorBlocked, Accepted, Accepted, true),
              true, true)
  }

  function WorkerOn(name: string, dependsOn: seq<string>): Object {
    Object(name, "ns", 1, None, "", Spec(Worker, None, NoAuth, dependsOn, [], None))
  }

  /** A plain worker behind an open gate is prepared, whatever it depends on. */
  lemma WorkerIsPrepared(name: string, dependsOn: seq<string>, status: Status, listing: seq<Sibling>)
    requires Gate(WorkerOn(name, dependsOn), WorkerSight(listing).workload).Open?
    ensures Prepared(WorkerOn(name, dependsOn), status, WorkerSight(listing))
  {
    var obj, sight := WorkerOn(name, dependsOn), WorkerSight(listing);
    assert AfterBuild(obj, status, sight) == (PassState(status, NoVerdicts()), Next);
    assert sight.workload.deployment.workload.conditions[0].status == Yes;
    GatedRuns(obj, PassState(status, NoVerdicts()), sight.workload);
    ChainUnrolls(obj, status, sight);
  }
}
