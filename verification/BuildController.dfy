/** The ImageBuild controller as it updates the fetched build step by step. */
module BuildController {
  import opened Meta
  import opened ImageBuild

  class ImageBuildObject {
    var build: Build

    constructor (build: Build)
      ensures this.build == build
    {
      this.build := build;
    }

    method SetCondition(c: BuildCondition, value: bool, reason: string, now: int)
      modifies this
      ensures build == Report(old(build), c, value, reason, now)
    {
      var conditions := Meta.SetCondition(build.status.conditions, c, value, build.generation, reason, now);
      build := build.(status := build.status.(conditions := conditions));
    }

    method ReportAvailable(url: string, now: int)
      modifies this
      ensures build == Succeeded(old(build), url, now)
    {
      SetCondition(BuildAvailable, true, "BuildComplete", now);
      build := build.(status := build.status.(phase := BuildSuccess));
      build := build.(status := build.status.(imageUrl := url));
    }

    method ReportTerminal(c: BuildCondition, reason: string, phase: BuildPhase, now: int)
      modifies this
      ensures build == InPhase(Report(old(build), c, true, reason, now), phase)
    {
      SetCondition(c, true, reason, now);
      build := build.(status := build.status.(phase := phase));
    }

    // ----- one pass -----

    /** `ok` is false when an error is returned; then nothing of the status is stored. */
    method ReconcileBuildJob(sight: BuildSight) returns (ok: bool, created: bool)
      requires sight.destination.Resolved?
      modifies this
      ensures (ok, created) == old((RunJob(build, sight).0.Some?, RunJob(build, sight).1))
      ensures ok ==> Some(build) == old(RunJob(build, sight).0)
    {
      match sight.job {
        case JobReadFailed =>
          return false, false;
        case JobAbsent(createSucceeds) =>
          if !createSucceeds {
            return false, false;
          }
          SetCondition(BuildJobCreated, true, "BuildJobCreated", sight.now);
          return true, true;
        case JobPresent(complete, failed) =>
          if complete {
            ReportAvailable(Reference(sight.destination), sight.now);
          } else if failed {
            ReportTerminal(BuildFailed, "BuildJobFailed", BuildPhaseFailed, sight.now);
          } else {
            SetCondition(BuildAvailable, false, "BuildJobNotYetComplete", sight.now);
          }
          return true, false;
      }
    }

    method ReconcileWithSource(sight: BuildSight) returns (ok: bool, created: bool)
      modifies this
      ensures (ok, created) == old((RunResolved(build, sight).0.Some?, RunResolved(build, sight).1))
      ensures ok ==> Some(build) == old(RunResolved(build, sight).0)
    {
      if !sight.credentialsRead || !sight.argsResolved || sight.destination.ResolveFailed? {
        return false, false;
      }
      if sight.destination.RegistryNotReady? {
        SetCondition(BuildAvailable, false, "RegistryNotReady", sight.now);
        return true, false;
      }
      ok, created := ReconcileBuildJob(sight);
    }

    method ReconcileLive(sight: BuildSight) returns (ok: bool, created: bool)
      modifies this
      ensures (ok, created) == old((RunBuild(build, sight).0.Some?, RunBuild(build, sight).1))
      ensures ok ==> Some(build) == old(RunBuild(build, sight).0)
    {
      if InTerminalState(build.status) {
        return true, false;
      }
      if build.cancelled {
        if !sight.jobsDeleted {
          return false, false;
        }
        ReportTerminal(BuildCancelled, "BuildCancelled", BuildPhaseCancelled, sight.now);
        return true, false;
      }
      if build.source.NoSource? {
        return false, false;
      }
      if build.source.Git? {
        if !build.revisionValid {
          ReportTerminal(BuildFailed, "SourceRevisionInvalid", BuildPhaseFailed, sight.now);
          return true, false;
        }
      } else {
        match sight.volume {
          case VolumeReadFailed =>
            return false, false;
          case VolumeUnavailable =>
            SetCondition(BuildAvailable, false, "VolumeNotReady", sight.now);
            return true, false;
          case VolumeStale =>
            SetCondition(BuildAvailable, false, "VolumeNotReadyForBuild", sight.now);
            return true, false;
          case VolumeUsable =>
        }
      }
      ok, created := ReconcileWithSource(sight);
    }
  }

  /** One pass over the stored build: finalizer first, Jobs only behind it. */
  method ReconcileImageBuildObject(stored: Build, sight: BuildSight) returns (out: BuildOutcome)
    ensures out == ReconcileBuild(stored, sight)
  {
    if stored.deleting {
      if !stored.finalizer {
        return BuildOutcome(stored, false, None);
      }
      var cleaned := CleanUpImage(stored, sight);
      if cleaned.None? {
        return BuildOutcome(stored, false, None);
      }
      return BuildOutcome(if sight.written then stored.(finalizer := false) else stored, false, cleaned.value);
    }
    if !stored.finalizer {
      return BuildOutcome(if sight.written then stored.(finalizer := true) else stored, false, None);
    }
    var b := new ImageBuildObject(stored);
    var ok, created := b.ReconcileLive(sight);
    if !ok || !sight.written {
      return BuildOutcome(stored, created, None);
    }
    return BuildOutcome(b.build, created, None);
  }
}
