/** What a StackResource does with its ImageBuilds: cancel the stale ones, prune the old
    ones, and stop or go on according to the current one. */
module Housekeeping {
  import opened Sorting
  import opened Resource
  import opened ImageBuild

  predicate Owned(b: Build, uid: string) { uid in b.owners }

  /** Owned, not finished and not cancelled. */
  predicate Live(b: Build, uid: string) { Owned(b, uid) && !b.cancelled && !InTerminalState(b.status) }

  predicate Stale(b: Build, uid: string, current: string) {
    Live(b, uid) && b.name != current
  }

  predicate Prunable(b: Build, uid: string, current: string) {
    InTerminalState(b.status) && Owned(b, uid) && b.name != current
  }

  predicate NewestFirst(a: Build, b: Build) { a.createdAt >= b.createdAt }

  ghost predicate UniqueBuildNames(builds: seq<Build>) {
    forall i, j :: 0 <= i < j < |builds| ==> builds[i].name != builds[j].name
  }

  /** What is cancelled: an owned build that has not ended, is not cancelled and is not the
      current one. What can be pruned: an owned build that has ended and is not the current one. */
  lemma HousekeepingMeaning(b: Build, uid: string, current: string)
    ensures var other := uid in b.owners && b.name != current;
            var ended := IsTrue(b.status, BuildAvailable) || IsTrue(b.status, BuildFailed)
                         || IsTrue(b.status, BuildCancelled);
            && (Stale(b, uid, current) <==> other && !ended && !b.cancelled)
            && (Prunable(b, uid, current) <==> other && ended)
  {
  }

  /** Cancelling touches exactly the stale builds whose update is accepted. The updates are
      sent independently, so any of them can fail; without a failure the only owned build that
      is still live and not cancelled can be the current one. */
  method CancelStaleImageBuilds(builds: seq<Build>, uid: string, current: string, rejected: set<string>)
    returns (after: seq<Build>, ok: bool)
    ensures |after| == |builds|
    ensures forall i :: 0 <= i < |builds| ==>
              after[i] == if Stale(builds[i], uid, current) && builds[i].name !in rejected
                          then builds[i].(cancelled := true) else builds[i]
    ensures ok <==> forall i :: 0 <= i < |builds| && Stale(builds[i], uid, current) ==> builds[i].name !in rejected
    ensures ok ==> forall i :: 0 <= i < |after| && Live(after[i], uid) ==> after[i].name == current
  {
    after, ok := [], true;
    for i := 0 to |builds|
      invariant |after| == i
      invariant forall j :: 0 <= j < i ==>
                  after[j] == if Stale(builds[j], uid, current) && builds[j].name !in rejected
                              then builds[j].(cancelled := true) else builds[j]
      invariant ok <==> forall j :: 0 <= j < i && Stale(builds[j], uid, current) ==> builds[j].name !in rejected
    {
      var build := builds[i];
      if Owned(build, uid) && !build.cancelled && !InTerminalState(build.status) && build.name != current {
        if build.name in rejected {
          ok := false;
        } else {
          build := build.(cancelled := true);
        }
      }
      after := after + [build];
    }
  }

  /** Newest first; the order of builds created in the same second is left open. */
  method SortNewestFirst(builds: seq<Build>) returns (sorted: seq<Build>)
    ensures multiset(sorted) == multiset(builds)
    ensures Sorted(sorted, NewestFirst)
  {
    sorted := Sort(builds, NewestFirst);
    SortSorted(builds, NewestFirst);
  }

  function CountPrunable(builds: seq<Build>, gone: set<string>, uid: string, current: string): nat {
    if builds == [] then 0
    else
      var last := builds[|builds| - 1];
      CountPrunable(builds[..|builds| - 1], gone, uid, current)
      + (if Prunable(last, uid, current) && last.name !in gone then 1 else 0)
  }

  /** Deleted are exactly the prunable builds past the newest `limit`, but for the rejected
      deletions. */
  ghost predicate Retained(sorted: seq<Build>, uid: string, current: string, limit: int, rejected: set<string>,
                           gone: set<string>) {
    && (forall n :: n in gone ==>
          exists j :: 0 < limit <= j < |sorted| && sorted[j].name == n && Prunable(sorted[j], uid, current))
    && (forall n :: n in gone ==> n !in rejected)
    && (forall j :: 0 < limit <= j < |sorted| && Prunable(sorted[j], uid, current) ==>
          sorted[j].name in gone || sorted[j].name in rejected)
  }

  /** Retention under any tie-breaking of the sort, with any of the deletions failing. */
  method EnforceImageBuildRetention(builds: seq<Build>, uid: string, current: string, limit: int, rejected: set<string>)
    returns (sorted: seq<Build>, gone: set<string>, ok: bool)
    requires UniqueBuildNames(builds)
    ensures multiset(sorted) == multiset(builds) && Sorted(sorted, NewestFirst)
    ensures Retained(sorted, uid, current, limit, rejected, gone)
    ensures forall i, j :: 0 <= i < limit && i < |sorted| && 0 <= j < |sorted| && sorted[j].name in gone ==>
              sorted[i].name !in gone && sorted[i].createdAt >= sorted[j].createdAt
    ensures ok <==>
              forall j :: 0 < limit <= j < |sorted| && Prunable(sorted[j], uid, current) ==> sorted[j].name !in rejected
    ensures ok && limit > 0 ==> CountPrunable(sorted, gone, uid, current) <= limit
    ensures limit <= 0 ==> gone == {}
  {
    sorted := SortNewestFirst(builds);
    NamesStayUnique(builds, sorted);
    gone, ok := {}, true;
    if limit > 0 && |sorted| > limit {
      for i := limit to |sorted|
        invariant forall n :: n in gone ==>
                    exists j :: limit <= j < i && sorted[j].name == n && Prunable(sorted[j], uid, current)
        invariant forall n :: n in gone ==> n !in rejected
        invariant forall j :: limit <= j < i && Prunable(sorted[j], uid, current) ==>
                    sorted[j].name in gone || sorted[j].name in rejected
        invariant ok <==>
                    forall j :: limit <= j < i && Prunable(sorted[j], uid, current) ==> sorted[j].name !in rejected
      {
        if InTerminalState(sorted[i].status) && Owned(sorted[i], uid) && sorted[i].name != current {
          if sorted[i].name in rejected {
            ok := false;
          } else {
            gone := gone + {sorted[i].name};
          }
        }
      }
    }
    if limit > 0 && ok {
      CountAtMost(sorted, gone, uid, current, limit);
    }
  }

  lemma NamesStayUnique(a: seq<Build>, b: seq<Build>)
    requires UniqueBuildNames(a) && multiset(a) == multiset(b)
    ensures UniqueBuildNames(b)
  {
    forall i, j | 0 <= i < j < |b| ensures b[i].name != b[j].name {
      if b[i].name == b[j].name {
        assert b[i] in multiset(a) && b[j] in multiset(a);
        assert b[i] in a && b[j] in a;
        RepeatCounts(b, i, j);
        DistinctCounts(a, b[i]);
      }
    }
  }

  lemma {:induction false} CountAtMost(builds: seq<Build>, gone: set<string>, uid: string, current: string, limit: int)
    requires limit > 0
    requires forall j :: limit <= j < |builds| && Prunable(builds[j], uid, current) ==> builds[j].name in gone
    ensures CountPrunable(builds, gone, uid, current) <= if |builds| < limit then |builds| else limit
  {
    if builds != [] {
      CountAtMost(builds[..|builds| - 1], gone, uid, current, limit);
    }
  }

  // ----- the stage -----

  datatype CurrentRead = CurrentReadFailed | CurrentMissing | CurrentFound(build: Build)

  datatype BuildStageSight = BuildStageSight(
    now: int,
    housekept: bool,               // listing, cancelling and pruning all succeeded
    current: CurrentRead,
    deleted: bool,
    created: bool)

  function CreateBuild(st: PassState, sight: BuildStageSight): (PassState, StageResult) {
    if sight.created then (ReportNotReady(st, "ImageBuildInProgress"), Stop) else (st, Error)
  }

  function ImageBuildStage(obj: Object, st: PassState, sight: BuildStageSight): (PassState, StageResult) {
    if obj.spec.buildRevision.None? then (st, Next)
    else if !sight.housekept then (st, Error)
    else
      match sight.current
      case CurrentReadFailed => (st, Error)
      case CurrentMissing => CreateBuild(st, sight)
      case CurrentFound(b) =>
        if b.cancelled then (if sight.deleted then CreateBuild(st, sight) else (st, Error))
        else if PhaseFailed(b.status) then
          (ReportFailed(Set(obj, st, BuildReady, false, "BuildFailed", sight.now), "BuildFailed"), Stop)
        else if PhaseComplete(b.status) then (st, Next)
        else (ReportNotReady(st, "ImageBuildInProgress"), Stop)
  }

  // ----- registry credentials -----

  datatype SecretRead = SecretReadFailed | SecretMissing | SecretFound

  datatype AuthSight = AuthSight(resolved: bool, secret: SecretRead, written: bool)

  function DockerConfigStage(st: PassState, sight: AuthSight): (PassState, StageResult) {
    match sight.secret
    case SecretReadFailed => (st, Error)
    case SecretMissing => (ReportNotReady(st, "DockerConfigJsonSecretNotFound"), Stop)
    case SecretFound => (st, if sight.written then Next else Error)
  }

  function RegistryAuthStage(obj: Object, st: PassState, sight: AuthSight): (PassState, StageResult) {
    match obj.spec.auth
    case NoAuth => (st, Next)
    case DockerConfig => DockerConfigStage(st, sight)
    case Basic =>
      if obj.spec.buildRevision.None? then DockerConfigStage(st, sight)
      else if !sight.resolved then (ReportNotReady(st, "RepositoryResolveFailed"), Stop)
      else
        match sight.secret
        case SecretReadFailed => (st, Error)
        case SecretMissing => (ReportNotReady(st, "RegistryCredentialsMissing"), Stop)
        case SecretFound => (st, if sight.written then Next else Error)
  }
}
