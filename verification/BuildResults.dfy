/** How a build ends, from what its passes read. */
module BuildResults {
  import opened Meta
  import opened ImageBuild

  // ----- one pass -----

  /** The object carries the finalizer and is not in deletion, so the pass works on the build. */
  predicate Working(b: Build) { b.finalizer && !b.deleting }

  /** The source is there: a valid Git revision, or a volume that holds the wanted one. */
  predicate SourceReady(b: Build, sight: BuildSight) {
    (b.source == Git && b.revisionValid) || (b.source == Volume && sight.volume == VolumeUsable)
  }

  /** The pass gets to the build Job. */
  predicate ReachesJob(b: Build, sight: BuildSight) {
    && Working(b) && !b.cancelled && SourceReady(b, sight)
    && sight.credentialsRead && sight.argsResolved && sight.destination.Resolved?
  }

  /** The pass sees the Job complete, and is stored. */
  predicate SeesSuccess(b: Build, sight: BuildSight) {
    ReachesJob(b, sight) && sight.written && sight.job.JobPresent? && sight.job.complete
  }

  /** The pass sees an unusable revision, or the Job failed and not complete, and is stored. */
  predicate SeesFailure(b: Build, sight: BuildSight) {
    && Working(b) && !b.cancelled && sight.written
    && ((b.source == Git && !b.revisionValid)
        || (ReachesJob(b, sight) && sight.job.JobPresent? && sight.job.failed && !sight.job.complete))
  }

  /** The pass sees the cancellation, gets the Jobs deleted, and is stored. */
  predicate SeesCancellation(b: Build, sight: BuildSight) {
    Working(b) && b.cancelled && sight.jobsDeleted && sight.written
  }

  /** The image a resolved destination names. */
  function ImageOf(d: Destination): string
    requires d.Resolved?
  {
    d.host + ['/'] + d.repository + [':'] + d.tag
  }

  predicate Ended(s: BuildStatus) { IsTrue(s, BuildAvailable) || IsTrue(s, BuildFailed) || IsTrue(s, BuildCancelled) }

  ghost predicate EndsAsSeen(b: Build, sight: BuildSight, s: BuildStatus) {
    && (IsTrue(s, BuildAvailable) <==> SeesSuccess(b, sight))
    && (IsTrue(s, BuildFailed) <==> SeesFailure(b, sight))
    && (IsTrue(s, BuildCancelled) <==> SeesCancellation(b, sight))
    && (SeesSuccess(b, sight) ==> s.phase == BuildSuccess && s.imageUrl == ImageOf(sight.destination))
    && (SeesFailure(b, sight) ==> s.phase == BuildPhaseFailed && s.imageUrl == "")
    && (SeesCancellation(b, sight) ==> s.phase == BuildPhaseCancelled && s.imageUrl == "")
    && (!Ended(s) ==> s.phase == BuildPending && s.imageUrl == "")
  }

  lemma JobEnds(b: Build, sight: BuildSight)
    requires Lifecycle(b.status) && !Ended(b.status) && ReachesJob(b, sight) && sight.written
    ensures EndsAsSeen(b, sight, ReconcileBuild(b, sight).build.status)
  {
    ReportTouchesOne(b, BuildJobCreated, true, "BuildJobCreated", sight.now);
    ReportTouchesOne(b, BuildAvailable, true, "BuildComplete", sight.now);
    ReportTouchesOne(b, BuildAvailable, false, "BuildJobNotYetComplete", sight.now);
    ReportTouchesOne(b, BuildFailed, true, "BuildJobFailed", sight.now);
  }

  lemma StoppedEnds(b: Build, sight: BuildSight)
    requires Lifecycle(b.status) && !Ended(b.status) && (!Working(b) || b.cancelled)
    ensures EndsAsSeen(b, sight, ReconcileBuild(b, sight).build.status)
  {
    ReportTouchesOne(b, BuildCancelled, true, "BuildCancelled", sight.now);
  }

  lemma EarlyEnds(b: Build, sight: BuildSight)
    requires Lifecycle(b.status) && !Ended(b.status) && Working(b) && !b.cancelled && !ReachesJob(b, sight)
    ensures EndsAsSeen(b, sight, ReconcileBuild(b, sight).build.status)
  {
    ReportTouchesOne(b, BuildFailed, true, "SourceRevisionInvalid", sight.now);
    ReportTouchesOne(b, BuildAvailable, false, "VolumeNotReady", sight.now);
    ReportTouchesOne(b, BuildAvailable, false, "VolumeNotReadyForBuild", sight.now);
    ReportTouchesOne(b, BuildAvailable, false, "RegistryNotReady", sight.now);
  }

  /** A pass ends a build that has not ended yet exactly as it reads it: in success with the
      image of its destination when the Job is complete, in failure when the Job failed or the
      revision is unusable, in cancellation when that was asked for. An ended build keeps its
      status. A Job is created exactly when the build gets to it and there is none. */
  lemma PassEndsBuild(b: Build, sight: BuildSight)
    requires Lifecycle(b.status)
    ensures var out := ReconcileBuild(b, sight);
            && (Ended(b.status) ==> out.build.status == b.status && !out.createdJob)
            && (!Ended(b.status) ==> EndsAsSeen(b, sight, out.build.status))
            && (!Ended(b.status) ==> (out.createdJob <==> ReachesJob(b, sight) && sight.job == JobAbsent(true)))
  {
    if !Ended(b.status) {
      if !Working(b) || b.cancelled {
        StoppedEnds(b, sight);
      } else if !ReachesJob(b, sight) {
        EarlyEnds(b, sight);
      } else if sight.written {
        JobEnds(b, sight);
      }
    }
  }

  /** The condition is written for this generation with this truth and reason. */
  predicate Wrote(b: Build, s: BuildStatus, c: BuildCondition, holds: bool, reason: string) {
    Holds(s.conditions, c, holds, b.generation) && s.conditions[c].reason == reason
  }

  /** What a stored pass says while the build goes on: which of its needs is missing, that the
      Job was created, or that it is not complete. */
  lemma PassSaysWhy(b: Build, sight: BuildSight)
    requires !Ended(b.status) && Working(b) && !b.cancelled && sight.written
    ensures var s := ReconcileBuild(b, sight).build.status;
            var volume := b.source == Volume;
            && (volume && sight.volume == VolumeUnavailable ==> Wrote(b, s, BuildAvailable, false, "VolumeNotReady"))
            && (volume && sight.volume == VolumeStale ==>
                  Wrote(b, s, BuildAvailable, false, "VolumeNotReadyForBuild"))
            && (SourceReady(b, sight) && sight.credentialsRead && sight.argsResolved ==>
                  (sight.destination == RegistryNotReady ==> Wrote(b, s, BuildAvailable, false, "RegistryNotReady")))
            && (ReachesJob(b, sight) && sight.job == JobAbsent(true) ==>
                  Wrote(b, s, BuildJobCreated, true, "BuildJobCreated"))
            && (ReachesJob(b, sight) && sight.job == JobPresent(false, false) ==>
                  Wrote(b, s, BuildAvailable, false, "BuildJobNotYetComplete"))
  {
  }

  /** Nothing keeps the finalizer of a build in deletion: its image is gone, was never there, or
      is in a registry that is gone or not the operator's. */
  predicate CleanedUp(b: Build, sight: BuildSight) {
    !b.internalRegistry || b.status.imageUrl == "" || sight.registry == RegistryGone
    || sight.registry == RegistryFound(true)
  }

  lemma DeletingPass(b: Build, sight: BuildSight)
    requires b.deleting
    ensures var out := ReconcileBuild(b, sight);
            && out.build == b.(finalizer := b.finalizer && !(CleanedUp(b, sight) && sight.written))
            && out.deletedImage
               == if b.finalizer && b.internalRegistry && b.status.imageUrl != ""
                     && sight.registry == RegistryFound(true)
                  then Some(b.status.imageUrl) else None
  {
  }

  lemma LivePass(b: Build, sight: BuildSight)
    requires !b.deleting
    ensures var out := ReconcileBuild(b, sight);
            && !out.build.deleting && out.build.cancelled == b.cancelled && out.deletedImage == None
            && (out.build.finalizer <==> b.finalizer || sight.written)
  {
  }

  /** The finalizer is set by a stored pass over a build that is not in deletion, and dropped by
      a stored pass over one that is, once it is cleaned up. An image is deleted only then, from
      the operator's own registry. */
  lemma PassKeepsFinalizer(b: Build, sight: BuildSight)
    ensures var out := ReconcileBuild(b, sight);
            && out.build.deleting == b.deleting && out.build.cancelled == b.cancelled
            && (!b.deleting ==> (out.build.finalizer <==> b.finalizer || sight.written))
            && (b.deleting ==> (out.build.finalizer <==> b.finalizer && !(CleanedUp(b, sight) && sight.written)))
            && (out.deletedImage.Some? <==>
                  b.deleting && b.finalizer && b.internalRegistry && b.status.imageUrl != ""
                  && sight.registry == RegistryFound(true))
            && (out.deletedImage.Some? ==> out.deletedImage.value == b.status.imageUrl)
  {
    if b.deleting {
      DeletingPass(b, sight);
    } else {
      LivePass(b, sight);
    }
  }

  // ----- whole runs -----

  function WorldAt(b: Build, steps: seq<BuildStep>, k: nat): BuildWorld
    requires k <= |steps|
  {
    BuildRun(NewWorld(b), steps[..k])
  }

  lemma {:induction false} RunOneMore(w: BuildWorld, steps: seq<BuildStep>, k: nat)
    requires k < |steps|
    ensures BuildRun(w, steps[..k + 1]) == BuildNext(BuildRun(w, steps[..k]), steps[k])
    decreases k
  {
    if k == 0 {
      assert steps[..1] == [steps[0]] && steps[..0] == [];
      OneStepOf(w, steps[0]);
    } else {
      var rest := steps[1..];
      assert steps[..k + 1][1..] == rest[..k] && steps[..k][1..] == rest[..k - 1] && rest[k - 1] == steps[k];
      RunOneMore(BuildNext(w, steps[0]), rest, k - 1);
    }
  }

  datatype Ending = Success(image: string) | Failure | Cancellation

  function EndingSeen(b: Build, sight: BuildSight): Option<Ending> {
    if SeesSuccess(b, sight) then Some(Success(ImageOf(sight.destination)))
    else if SeesFailure(b, sight) then Some(Failure)
    else if SeesCancellation(b, sight) then Some(Cancellation)
    else None
  }

  /** How step k ends the build, unless it has ended before: the metadata of the object at that
      time and what the pass reads decide. */
  ghost function EndingAt(b: Build, steps: seq<BuildStep>, k: nat): Option<Ending>
    requires k < |steps|
  {
    if steps[k].Pass? then EndingSeen(WorldAt(b, steps, k).build, steps[k].sight) else None
  }

  ghost function EndingsOf(b: Build, steps: seq<BuildStep>): (endings: seq<Option<Ending>>)
    ensures |endings| == |steps| && forall k: nat :: k < |steps| ==> endings[k] == EndingAt(b, steps, k)
  {
    seq(|steps|, k requires 0 <= k < |steps| => EndingAt(b, steps, k))
  }

  ghost predicate Records(s: BuildStatus, e: Option<Ending>) {
    match e
    case None => !Ended(s) && s.phase == BuildPending && s.imageUrl == ""
    case Some(Success(image)) => IsTrue(s, BuildAvailable) && s.phase == BuildSuccess && s.imageUrl == image
    case Some(Failure) => IsTrue(s, BuildFailed) && s.phase == BuildPhaseFailed && s.imageUrl == ""
    case Some(Cancellation) => IsTrue(s, BuildCancelled) && s.phase == BuildPhaseCancelled && s.imageUrl == ""
  }

  /** The first ending among the first j steps. */
  ghost function FirstEnding(endings: seq<Option<Ending>>, j: nat): Option<Ending>
    requires j <= |endings|
  {
    if j == 0 then None
    else if FirstEnding(endings, j - 1).Some? then FirstEnding(endings, j - 1)
    else endings[j - 1]
  }

  ghost predicate IsFirst(endings: seq<Option<Ending>>, k: int, j: nat, e: Ending) {
    0 <= k < j <= |endings| && endings[k] == Some(e) && forall i :: 0 <= i < k ==> endings[i].None?
  }

  lemma {:induction false} FirstEndingMeaning(endings: seq<Option<Ending>>, j: nat, e: Ending)
    requires j <= |endings|
    ensures FirstEnding(endings, j).None? <==> forall i :: 0 <= i < j ==> endings[i].None?
    ensures FirstEnding(endings, j) == Some(e) <==> exists k :: IsFirst(endings, k, j, e)
  {
    if j > 0 {
      var i := j - 1;
      FirstEndingMeaning(endings, i, e);
      if k :| IsFirst(endings, k, i, e) {
        assert IsFirst(endings, k, j, e);
      }
      if k :| IsFirst(endings, k, j, e) {
        assert k < i ==> IsFirst(endings, k, i, e);
      }
      if FirstEnding(endings, i).None? && endings[i] == Some(e) {
        assert IsFirst(endings, i, j, e);
      }
    }
  }

  lemma SeenIsRecorded(b: Build, sight: BuildSight, s: BuildStatus)
    requires EndsAsSeen(b, sight, s)
    ensures Records(s, EndingSeen(b, sight))
  {
  }

  lemma PassKeepsLifecycle(b: Build, sight: BuildSight)
    requires Lifecycle(b.status)
    ensures Lifecycle(ReconcileBuild(b, sight).build.status)
  {
    RunBuildLifecycle(b, sight);
  }

  /** One step: an ended build stays as it is, and one that has not ended records how the step
      ends it. */
  ghost predicate Moves(s: BuildStatus, s': BuildStatus, e: Option<Ending>) {
    Lifecycle(s') && (Ended(s) ==> s' == s) && (!Ended(s) ==> Records(s', e))
  }

  lemma PassMoves(b: Build, sight: BuildSight)
    requires Lifecycle(b.status)
    ensures Moves(b.status, ReconcileBuild(b, sight).build.status, EndingSeen(b, sight))
  {
    PassEndsBuild(b, sight);
    PassKeepsLifecycle(b, sight);
    if !Ended(b.status) {
      SeenIsRecorded(b, sight, ReconcileBuild(b, sight).build.status);
    }
  }

  lemma EndingStep(b: Build, steps: seq<BuildStep>, k: nat)
    requires k < |steps| && Lifecycle(WorldAt(b, steps, k).build.status)
    ensures Moves(WorldAt(b, steps, k).build.status, WorldAt(b, steps, k + 1).build.status, EndingAt(b, steps, k))
  {
    RunOneMore(NewWorld(b), steps, k);
    if steps[k].Pass? {
      PassMoves(WorldAt(b, steps, k).build, steps[k].sight);
    }
  }

  lemma {:induction false} RunRecordsFirst(b: Build, steps: seq<BuildStep>, j: nat)
    requires FreshBuild(b) && j <= |steps|
    ensures var s := WorldAt(b, steps, j).build.status;
            Lifecycle(s) && Records(s, FirstEnding(EndingsOf(b, steps), j))
    decreases j
  {
    if j == 0 {
      assert steps[..0] == [];
    } else {
      RunRecordsFirst(b, steps, j - 1);
      EndingStep(b, steps, j - 1);
    }
  }

  /** Over every run of a fresh build, with requests to cancel or delete at any time: it is
      successful exactly when the first step that ends it is a stored pass that saw the Job
      complete, and its image is the destination of that pass; likewise for failure and
      cancellation; and it has not ended exactly when no step ended it. */
  lemma FirstEndingDecides(b: Build, steps: seq<BuildStep>, e: Ending)
    requires FreshBuild(b)
    ensures var s, endings := BuildRun(NewWorld(b), steps).build.status, EndingsOf(b, steps);
            && (Records(s, Some(e)) <==> exists k :: IsFirst(endings, k, |steps|, e))
            && (Records(s, None) <==> forall i :: 0 <= i < |steps| ==> endings[i].None?)
  {
    var endings := EndingsOf(b, steps);
    assert steps[..|steps|] == steps;
    RunRecordsFirst(b, steps, |steps|);
    FirstEndingMeaning(endings, |steps|, e);
    OnlyOneRecord(BuildRun(NewWorld(b), steps).build.status, FirstEnding(endings, |steps|));
  }

  lemma OnlyOneRecord(s: BuildStatus, a: Option<Ending>)
    requires Lifecycle(s) && Records(s, a)
    ensures forall b :: Records(s, b) ==> a == b
  {
  }
}
