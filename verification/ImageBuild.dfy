/** Lifecycle of an ImageBuild as its own controller drives it. */
module ImageBuild {
  import opened Meta

  datatype BuildPhase = BuildPending | BuildSuccess | BuildPhaseFailed | BuildPhaseCancelled
  datatype BuildCondition = BuildAvailable | BuildFailed | BuildCancelled | BuildJobCreated
  datatype Source = Git | Volume | NoSource

  datatype BuildStatus = BuildStatus(phase: BuildPhase, conditions: map<BuildCondition, Condition>, imageUrl: string)

  datatype Build = Build(
    name: string, createdAt: int, owners: set<string>, generation: int,
    cancelled: bool, deleting: bool, finalizer: bool,
    source: Source, revisionValid: bool, internalRegistry: bool,
    status: BuildStatus)

  // ----- what a pass sees -----

  datatype VolumeRead = VolumeReadFailed | VolumeUnavailable | VolumeStale | VolumeUsable
  datatype Destination = Resolved(host: string, repository: string, tag: string) | RegistryNotReady | ResolveFailed
  datatype JobRead = JobReadFailed | JobAbsent(createSucceeds: bool) | JobPresent(complete: bool, failed: bool)
  datatype RegistryRead = RegistryReadFailed | RegistryGone | RegistryFound(deleteSucceeds: bool)

  datatype BuildSight = BuildSight(
    now: int,
    credentialsRead: bool,
    argsResolved: bool,
    volume: VolumeRead,
    destination: Destination,
    job: JobRead,
    jobsDeleted: bool,
    registry: RegistryRead,
    written: bool)                 // the final write of the pass is accepted

  /** The object as persisted after the pass, and what the pass did to the cluster. */
  datatype BuildOutcome = BuildOutcome(build: Build, createdJob: bool, deletedImage: Option<string>)

  // ----- predicates of the two controllers -----

  predicate IsTrue(s: BuildStatus, c: BuildCondition) {
    c in s.conditions && s.conditions[c].status
  }

  predicate InTerminalState(s: BuildStatus) {
    IsTrue(s, BuildAvailable) || IsTrue(s, BuildFailed) || IsTrue(s, BuildCancelled)
  }

  predicate PhaseComplete(s: BuildStatus) { s.phase.BuildSuccess? }
  predicate PhaseFailed(s: BuildStatus) { s.phase.BuildPhaseFailed? }
  predicate ConditionComplete(s: BuildStatus) { IsTrue(s, BuildAvailable) }

  // ----- one pass -----

  function Reference(d: Destination): string
    requires d.Resolved?
  {
    d.host + "/" + d.repository + ":" + d.tag
  }

  function Report(b: Build, c: BuildCondition, value: bool, reason: string, now: int): Build {
    b.(status := b.status.(conditions := SetCondition(b.status.conditions, c, value, b.generation, reason, now)))
  }

  function InPhase(b: Build, phase: BuildPhase): Build { b.(status := b.status.(phase := phase)) }

  function Succeeded(b: Build, url: string, now: int): Build {
    var done := InPhase(Report(b, BuildAvailable, true, "BuildComplete", now), BuildSuccess);
    done.(status := done.status.(imageUrl := url))
  }

  /** None stands for a returned error: nothing of the status is persisted. */
  function RunJob(b: Build, sight: BuildSight): (Option<Build>, bool)
    requires sight.destination.Resolved?
  {
    match sight.job
    case JobReadFailed => (None, false)
    case JobAbsent(ok) =>
      if ok then (Some(Report(b, BuildJobCreated, true, "BuildJobCreated", sight.now)), true) else (None, false)
    case JobPresent(complete, failed) =>
      if complete then
        (Some(Succeeded(b, Reference(sight.destination), sight.now)), false)
      else if failed then (Some(InPhase(Report(b, BuildFailed, true, "BuildJobFailed", sight.now), BuildPhaseFailed)),
                           false)
      else (Some(Report(b, BuildAvailable, false, "BuildJobNotYetComplete", sight.now)), false)
  }

  function RunResolved(b: Build, sight: BuildSight): (Option<Build>, bool) {
    if !sight.credentialsRead || !sight.argsResolved then (None, false)
    else
      match sight.destination
      case RegistryNotReady => (Some(Report(b, BuildAvailable, false, "RegistryNotReady", sight.now)), false)
      case ResolveFailed => (None, false)
      case Resolved(_, _, _) => RunJob(b, sight)
  }

  function RunBuild(b: Build, sight: BuildSight): (Option<Build>, bool) {
    if InTerminalState(b.status) then (Some(b), false)
    else if b.cancelled then
      if sight.jobsDeleted then
        (Some(InPhase(Report(b, BuildCancelled, true, "BuildCancelled", sight.now), BuildPhaseCancelled)), false)
      else (None, false)
    else
      match b.source
      case NoSource => (None, false)
      case Git =>
        if !b.revisionValid then
          (Some(InPhase(Report(b, BuildFailed, true, "SourceRevisionInvalid", sight.now), BuildPhaseFailed)), false)
        else RunResolved(b, sight)
      case Volume =>
        match sight.volume
        case VolumeReadFailed => (None, false)
        case VolumeUnavailable => (Some(Report(b, BuildAvailable, false, "VolumeNotReady", sight.now)), false)
        case VolumeStale => (Some(Report(b, BuildAvailable, false, "VolumeNotReadyForBuild", sight.now)), false)
        case VolumeUsable => RunResolved(b, sight)
  }

  /** Which image the finalizer asks the registry to delete; None when it must retry. */
  function CleanUpImage(b: Build, sight: BuildSight): Option<Option<string>> {
    if !b.internalRegistry || b.status.imageUrl == "" then Some(None)
    else
      match sight.registry
      case RegistryReadFailed => None
      case RegistryGone => Some(None)
      case RegistryFound(ok) => if ok then Some(Some(b.status.imageUrl)) else None
  }

  function ReconcileBuild(b: Build, sight: BuildSight): BuildOutcome {
    if b.deleting then
      if !b.finalizer then BuildOutcome(b, false, None)
      else
        var cleaned := CleanUpImage(b, sight);
        if cleaned.None? then BuildOutcome(b, false, None)
        else BuildOutcome(if sight.written then b.(finalizer := false) else b, false, cleaned.value)
    else if !b.finalizer then BuildOutcome(if sight.written then b.(finalizer := true) else b, false, None)
    else
      var (next, created) := RunBuild(b, sight);
      BuildOutcome(if next.Some? && sight.written then next.value else b, created, None)
  }

  // ----- runs -----

  /** A controller pass, an outside request to cancel or delete, or the Job pushing its image
      and completing, of which the controller learns only on a later pass. */
  datatype BuildStep = Pass(sight: BuildSight) | RequestCancel | RequestDelete | JobPushes

  /** `jobEver` remembers that a build Job was created for this object, `pushed` that it put
      an image into the registry, and `removed` that the finalizer had an image deleted. */
  datatype BuildWorld = BuildWorld(build: Build, jobEver: bool, pushed: bool, removed: bool)

  function NewWorld(b: Build): BuildWorld { BuildWorld(b, false, false, false) }

  /** Only an existing Job pushes, and a Job is seen complete only after it has pushed. */
  predicate Possible(w: BuildWorld, step: BuildStep) {
    match step
    case JobPushes => w.jobEver
    case Pass(sight) => sight.job.JobPresent? && sight.job.complete ==> w.pushed
    case _ => true
  }

  function BuildNext(w: BuildWorld, step: BuildStep): BuildWorld {
    match step
    case RequestCancel => w.(build := w.build.(cancelled := true))
    case RequestDelete => w.(build := w.build.(deleting := true))
    case JobPushes => w.(pushed := true)
    case Pass(sight) =>
      var out := ReconcileBuild(w.build, sight);
      BuildWorld(out.build, w.jobEver || out.createdJob, w.pushed, w.removed || out.deletedImage.Some?)
  }

  function BuildRun(w: BuildWorld, steps: seq<BuildStep>): BuildWorld
    decreases |steps|
  {
    if steps == [] then w else BuildRun(BuildNext(w, steps[0]), steps[1..])
  }

  ghost predicate PossibleRun(w: BuildWorld, steps: seq<BuildStep>)
    decreases |steps|
  {
    steps == [] || (Possible(w, steps[0]) && PossibleRun(BuildNext(w, steps[0]), steps[1..]))
  }

  ghost predicate FreshBuild(b: Build) {
    b.status == BuildStatus(BuildPending, map[], "") && !b.finalizer && !b.deleting
  }

  /** At most one terminal condition, matched by the phase, and an image exactly on success. */
  ghost predicate Lifecycle(s: BuildStatus) {
    && !(IsTrue(s, BuildAvailable) && IsTrue(s, BuildFailed))
    && !(IsTrue(s, BuildAvailable) && IsTrue(s, BuildCancelled))
    && !(IsTrue(s, BuildFailed) && IsTrue(s, BuildCancelled))
    && (s.phase.BuildSuccess? <==> IsTrue(s, BuildAvailable))
    && (s.phase.BuildPhaseFailed? <==> IsTrue(s, BuildFailed))
    && (s.phase.BuildPhaseCancelled? <==> IsTrue(s, BuildCancelled))
    && (s.imageUrl != "" <==> IsTrue(s, BuildAvailable))
  }

  ghost predicate BuildInv(w: BuildWorld) {
    Lifecycle(w.build.status) && (w.jobEver ==> w.build.finalizer || w.build.deleting)
  }

  /** A returned object keeps the lifecycle and the metadata. */
  ghost predicate Continues(b: Build, next: Option<Build>) {
    next.Some? ==> Lifecycle(next.value.status) && next.value == b.(status := next.value.status)
  }

  lemma ReportTouchesOne(b: Build, c: BuildCondition, value: bool, reason: string, now: int)
    ensures var s := Report(b, c, value, reason, now).status;
            && IsTrue(s, c) == value && s.phase == b.status.phase && s.imageUrl == b.status.imageUrl
            && forall d :: d != c ==> IsTrue(s, d) == IsTrue(b.status, d)
  {
  }

  lemma SuccessLifecycle(b: Build, url: string, now: int)
    requires Lifecycle(b.status) && !InTerminalState(b.status) && url != ""
    ensures Continues(b, Some(Succeeded(b, url, now)))
  {
    ReportTouchesOne(b, BuildAvailable, true, "BuildComplete", now);
  }

  lemma FailureLifecycle(b: Build, reason: string, now: int)
    requires Lifecycle(b.status) && !InTerminalState(b.status)
    ensures Continues(b, Some(InPhase(Report(b, BuildFailed, true, reason, now), BuildPhaseFailed)))
    ensures Continues(b, Some(InPhase(Report(b, BuildCancelled, true, reason, now), BuildPhaseCancelled)))
    ensures Continues(b, Some(Report(b, BuildAvailable, false, reason, now)))
    ensures Continues(b, Some(Report(b, BuildJobCreated, true, reason, now)))
  {
    ReportTouchesOne(b, BuildFailed, true, reason, now);
    ReportTouchesOne(b, BuildCancelled, true, reason, now);
    ReportTouchesOne(b, BuildAvailable, false, reason, now);
    ReportTouchesOne(b, BuildJobCreated, true, reason, now);
  }

  lemma ReferenceNotEmpty(d: Destination)
    requires d.Resolved?
    ensures Reference(d) != ""
  {
    assert Reference(d)[|d.host|] == '/';
  }

  lemma RunJobLifecycle(b: Build, sight: BuildSight)
    requires Lifecycle(b.status) && !InTerminalState(b.status) && sight.destination.Resolved?
    ensures Continues(b, RunJob(b, sight).0)
  {
    match sight.job
    case JobReadFailed =>
    case JobAbsent(_) => FailureLifecycle(b, "BuildJobCreated", sight.now);
    case JobPresent(complete, failed) =>
      if complete {
        ReferenceNotEmpty(sight.destination);
        SuccessLifecycle(b, Reference(sight.destination), sight.now);
      } else {
        FailureLifecycle(b, if failed then "BuildJobFailed" else "BuildJobNotYetComplete", sight.now);
      }
  }

  lemma RunResolvedLifecycle(b: Build, sight: BuildSight)
    requires Lifecycle(b.status) && !InTerminalState(b.status)
    ensures Continues(b, RunResolved(b, sight).0)
  {
    if sight.destination.Resolved? {
      RunJobLifecycle(b, sight);
    } else {
      FailureLifecycle(b, "RegistryNotReady", sight.now);
    }
  }

  lemma RunBuildLifecycle(b: Build, sight: BuildSight)
    requires Lifecycle(b.status)
    ensures Continues(b, RunBuild(b, sight).0)
    ensures InTerminalState(b.status) ==> RunBuild(b, sight) == (Some(b), false)
  {
    if !InTerminalState(b.status) {
      if b.cancelled {
        FailureLifecycle(b, "BuildCancelled", sight.now);
      } else if b.source.Git? && !b.revisionValid {
        FailureLifecycle(b, "SourceRevisionInvalid", sight.now);
      } else if b.source.Volume? && sight.volume.VolumeUnavailable? {
        FailureLifecycle(b, "VolumeNotReady", sight.now);
      } else if b.source.Volume? && sight.volume.VolumeStale? {
        FailureLifecycle(b, "VolumeNotReadyForBuild", sight.now);
      } else {
        RunResolvedLifecycle(b, sight);
      }
    }
  }

  lemma BuildStepKeepsInv(w: BuildWorld, step: BuildStep)
    requires BuildInv(w)
    ensures BuildInv(BuildNext(w, step))
    ensures InTerminalState(w.build.status) ==> BuildNext(w, step).build.status == w.build.status
  {
    if step.Pass? {
      RunBuildLifecycle(w.build, step.sight);
    }
  }

  /** Over every run of a fresh build: terminal conditions exclude each other and match
      the phase, and an image is recorded exactly on success. A Job is only ever created
      under the cleanup finalizer. */
  lemma {:induction false} BuildRunKeepsInv(w: BuildWorld, steps: seq<BuildStep>)
    requires BuildInv(w)
    ensures BuildInv(BuildRun(w, steps))
    decreases |steps|
  {
    if steps != [] {
      BuildStepKeepsInv(w, steps[0]);
      BuildRunKeepsInv(BuildNext(w, steps[0]), steps[1..]);
    }
  }

  lemma FreshBuildInv(b: Build)
    requires FreshBuild(b)
    ensures BuildInv(NewWorld(b))
  {
  }

  /** A terminal status never changes again, whatever is requested later. */
  lemma {:induction false} TerminalIsAbsorbing(w: BuildWorld, steps: seq<BuildStep>)
    requires BuildInv(w) && InTerminalState(w.build.status)
    ensures BuildRun(w, steps).build.status == w.build.status
    decreases |steps|
  {
    if steps != [] {
      BuildStepKeepsInv(w, steps[0]);
      TerminalIsAbsorbing(BuildNext(w, steps[0]), steps[1..]);
    }
  }

  /** The predicates that read the phase agree with those that read the conditions. */
  lemma ControllersAgree(b: Build, steps: seq<BuildStep>)
    requires FreshBuild(b)
    ensures var s := BuildRun(NewWorld(b), steps).build.status;
            && (PhaseComplete(s) <==> ConditionComplete(s))
            && (PhaseFailed(s) <==> IsTrue(s, BuildFailed))
            && (InTerminalState(s) <==> !s.phase.BuildPending?)
  {
    FreshBuildInv(b);
    BuildRunKeepsInv(NewWorld(b), steps);
  }

  /** A pass that creates a Job read an object that already carries the finalizer and is
      neither deleted, cancelled nor terminal. */
  lemma JobOnlyUnderFinalizer(b: Build, sight: BuildSight)
    ensures ReconcileBuild(b, sight).createdJob ==>
              b.finalizer && !b.deleting && !b.cancelled && !InTerminalState(b.status)
  {
  }

  // ----- what deletion leaves behind -----

  /** The image is still in the registry. */
  predicate Left(w: BuildWorld) { w.pushed && !w.removed }

  predicate Released(w: BuildWorld) { w.build.deleting && !w.build.finalizer }

  /** The pass drops the finalizer. */
  predicate Releases(w: BuildWorld, sight: BuildSight) {
    w.build.deleting && w.build.finalizer && Released(BuildNext(w, Pass(sight)))
  }

  /** The finalizing pass has the recorded image deleted: the registry is the operator's own
      and still exists, and the success of the build is recorded. */
  predicate Recovers(b: Build, sight: BuildSight) {
    ConditionComplete(b.status) && b.internalRegistry && sight.registry.RegistryFound?
  }

  /** Recorded success means the image was pushed, and nothing is removed before deletion. */
  ghost predicate ImageInv(w: BuildWorld) {
    && BuildInv(w)
    && (ConditionComplete(w.build.status) ==> w.pushed)
    && (w.removed ==> w.build.deleting)
  }

  lemma ImageStep(w: BuildWorld, step: BuildStep)
    requires ImageInv(w) && Possible(w, step)
    ensures ImageInv(BuildNext(w, step))
    ensures w.build.deleting ==> BuildNext(w, step).build.status == w.build.status && BuildNext(w, step).build.deleting
  {
    BuildStepKeepsInv(w, step);
    if step.Pass? && !w.pushed {
      SuccessNeedsPush(w.build, step.sight);
    }
  }

  lemma NoSuccess(b: Build, c: BuildCondition, value: bool, reason: string, now: int)
    requires !ConditionComplete(b.status) && (c.BuildAvailable? ==> !value)
    ensures !ConditionComplete(Report(b, c, value, reason, now).status)
  {
    ReportTouchesOne(b, c, value, reason, now);
  }

  lemma JobSuccessNeedsPush(b: Build, sight: BuildSight)
    requires !ConditionComplete(b.status) && !(sight.job.JobPresent? && sight.job.complete)
    ensures var next := RunResolved(b, sight).0; next.Some? ==> !ConditionComplete(next.value.status)
  {
    NoSuccess(b, BuildAvailable, false, "RegistryNotReady", sight.now);
    NoSuccess(b, BuildAvailable, false, "BuildJobNotYetComplete", sight.now);
    NoSuccess(b, BuildJobCreated, true, "BuildJobCreated", sight.now);
    NoSuccess(b, BuildFailed, true, "BuildJobFailed", sight.now);
  }

  /** Success is recorded only by a pass that sees the Job complete. */
  lemma SuccessNeedsPush(b: Build, sight: BuildSight)
    requires !ConditionComplete(b.status) && !(sight.job.JobPresent? && sight.job.complete)
    ensures var next := RunBuild(b, sight).0; next.Some? ==> !ConditionComplete(next.value.status)
  {
    NoSuccess(b, BuildCancelled, true, "BuildCancelled", sight.now);
    NoSuccess(b, BuildFailed, true, "SourceRevisionInvalid", sight.now);
    NoSuccess(b, BuildAvailable, false, "VolumeNotReady", sight.now);
    NoSuccess(b, BuildAvailable, false, "VolumeNotReadyForBuild", sight.now);
    JobSuccessNeedsPush(b, sight);
  }

  lemma {:induction false} ImageRun(w: BuildWorld, steps: seq<BuildStep>)
    requires ImageInv(w) && PossibleRun(w, steps)
    ensures ImageInv(BuildRun(w, steps))
    ensures w.build.deleting ==>
              BuildRun(w, steps).build.status == w.build.status && BuildRun(w, steps).build.deleting
    ensures BuildRun(w, steps).build.internalRegistry == w.build.internalRegistry
    decreases |steps|
  {
    if steps != [] {
      ImageStep(w, steps[0]);
      RegistryFixed(w, steps[0]);
      ImageRun(BuildNext(w, steps[0]), steps[1..]);
    }
  }

  lemma RegistryFixed(w: BuildWorld, step: BuildStep)
    requires BuildInv(w)
    ensures BuildNext(w, step).build.internalRegistry == w.build.internalRegistry
  {
    if step.Pass? {
      RunBuildLifecycle(w.build, step.sight);
    }
  }

  /** A retried finalizing pass may already have had the image deleted. */
  lemma ReleasingPass(w: BuildWorld, sight: BuildSight)
    requires ImageInv(w) && Releases(w, sight)
    ensures BuildNext(w, Pass(sight)).removed <==> w.removed || Recovers(w.build, sight)
  {
  }

  /** After the release nothing is deleted any more. */
  lemma {:induction false} ReleasedStays(w: BuildWorld, steps: seq<BuildStep>)
    requires Released(w)
    ensures Released(BuildRun(w, steps)) && BuildRun(w, steps).removed == w.removed
    decreases |steps|
  {
    if steps != [] {
      ReleasedStays(BuildNext(w, steps[0]), steps[1..]);
    }
  }

  lemma {:induction false} RemovedNeedsSuccess(w: BuildWorld, steps: seq<BuildStep>)
    requires ImageInv(w) && PossibleRun(w, steps) && w.build.deleting
    requires w.removed ==> ConditionComplete(w.build.status) && w.build.internalRegistry
    ensures BuildRun(w, steps).removed ==> ConditionComplete(w.build.status) && w.build.internalRegistry
    decreases |steps|
  {
    if steps != [] {
      ImageStep(w, steps[0]);
      RegistryFixed(w, steps[0]);
      RemovedNeedsSuccess(BuildNext(w, steps[0]), steps[1..]);
    }
  }

  /** The whole life of a deleted build: fresh, asked to be deleted, finalizing, released by
      one pass, and whatever happens afterwards. */
  ghost predicate DeletedLife(b: Build, before: seq<BuildStep>, during: seq<BuildStep>, sight: BuildSight,
                              after: seq<BuildStep>) {
    var asked, last := WorldAtDeletion(b, before), WorldAtRelease(b, before, during);
    && FreshBuild(b) && PossibleRun(NewWorld(b), before) && !BuildRun(NewWorld(b), before).build.deleting
    && PossibleRun(asked, during)
    && Possible(last, Pass(sight)) && Releases(last, sight)
    && PossibleRun(BuildNext(last, Pass(sight)), after)
  }

  function WorldAtDeletion(b: Build, before: seq<BuildStep>): BuildWorld {
    BuildNext(BuildRun(NewWorld(b), before), RequestDelete)
  }

  function WorldAtRelease(b: Build, before: seq<BuildStep>, during: seq<BuildStep>): BuildWorld {
    BuildRun(WorldAtDeletion(b, before), during)
  }

  function WorldAtEnd(b: Build, before: seq<BuildStep>, during: seq<BuildStep>, sight: BuildSight,
                      after: seq<BuildStep>): BuildWorld {
    BuildRun(BuildNext(WorldAtRelease(b, before, during), Pass(sight)), after)
  }

  lemma FreshImageInv(b: Build)
    requires FreshBuild(b)
    ensures ImageInv(NewWorld(b))
  {
  }

  lemma LifeInv(b: Build, before: seq<BuildStep>, during: seq<BuildStep>, sight: BuildSight, after: seq<BuildStep>)
    requires DeletedLife(b, before, during, sight, after)
    ensures var asked, last := WorldAtDeletion(b, before), WorldAtRelease(b, before, during);
            && ImageInv(asked) && ImageInv(last) && !asked.removed
            && last.build.status == asked.build.status
            && last.build.internalRegistry == asked.build.internalRegistry
            && (last.removed ==> ConditionComplete(asked.build.status) && asked.build.internalRegistry)
  {
    var start := NewWorld(b);
    FreshImageInv(b);
    ImageRun(start, before);
    var asked := WorldAtDeletion(b, before);
    ImageStep(BuildRun(start, before), RequestDelete);
    ImageRun(asked, during);
    RemovedNeedsSuccess(asked, during);
  }

  /** What is left in the registry after a build is deleted. From an external registry nothing
      is ever removed. From the operator's own registry, if it exists when the finalizer is
      released, a pushed image is left exactly when the success of the build was not yet
      recorded at the moment of the deletion, even if the Job pushed before it. */
  lemma FinalizerDeletesRecordedImages(b: Build, before: seq<BuildStep>, during: seq<BuildStep>, sight: BuildSight,
                                       after: seq<BuildStep>)
    requires DeletedLife(b, before, during, sight, after)
    ensures var asked, end := WorldAtDeletion(b, before), WorldAtEnd(b, before, during, sight, after);
            && Released(end)
            && (!b.internalRegistry ==> (Left(end) <==> end.pushed))
            && (b.internalRegistry && sight.registry.RegistryFound? ==>
                  (Left(end) <==> end.pushed && !ConditionComplete(asked.build.status)))
  {
    var last := WorldAtRelease(b, before, during);
    LifeInv(b, before, during, sight, after);
    FreshImageInv(b);
    ImageRun(NewWorld(b), before);
    ReleasingPass(last, sight);
    ReleasedStays(BuildNext(last, Pass(sight)), after);
  }

  // ----- a leak -----

  function LeakSight(): BuildSight {
    BuildSight(0, true, true, VolumeUsable, Resolved("host", "repository", "tag"), JobAbsent(true), true,
               RegistryFound(true), true)
  }

  lemma TwoStepsOf(w: BuildWorld, a: BuildStep, b: BuildStep)
    ensures BuildRun(w, [a, b]) == BuildNext(BuildNext(w, a), b)
    ensures PossibleRun(w, [a, b]) <==> Possible(w, a) && Possible(BuildNext(w, a), b)
  {
    assert [a, b][1..] == [b] && [b][1..] == [];
    assert BuildRun(BuildNext(w, a), [b]) == BuildNext(BuildNext(w, a), b);
    assert PossibleRun(BuildNext(w, a), [b]) <==> Possible(BuildNext(w, a), b);
  }

  lemma OneStepOf(w: BuildWorld, a: BuildStep)
    ensures BuildRun(w, [a]) == BuildNext(w, a)
    ensures PossibleRun(w, [a]) <==> Possible(w, a)
  {
    assert [a][1..] == [];
  }

  /** An image leaks: the Job is created, the build is deleted, the Job pushes, and the
      finalizer is released without a deletion because no success was recorded. */
  lemma DeletionCanLeakAnImage(b: Build)
    requires FreshBuild(b) && b.internalRegistry && !b.cancelled && b.source.Git? && b.revisionValid
    ensures var s := Pass(LeakSight());
            && DeletedLife(b, [s, s], [JobPushes], LeakSight(), [])
            && Left(WorldAtEnd(b, [s, s], [JobPushes], LeakSight(), []))
  {
    var s := Pass(LeakSight());
    TwoStepsOf(NewWorld(b), s, s);
    var created := BuildNext(BuildNext(NewWorld(b), s), s);
    assert created.jobEver && created.build.finalizer && !ConditionComplete(created.build.status);
    OneStepOf(BuildNext(created, RequestDelete), JobPushes);
  }
}
