/** Polls of a dead port whose wait a TLS retry replaces, and a bound on all the polls of an
    outage. */
module TlsPolls {
  import opened Meta
  import opened Resource
  import opened Tls
  import opened Routes
  import opened Service
  import opened Chain
  import opened PortRuns
  import opened TlsRuns
  import opened OutageRuns

  // ----- the path that replaces the wait -----

  function NearestPath(obj: Object, st: PassState, sight: ServiceSight): Path
    requires Publishes(obj, st, sight) && ServiceStage(obj, st, sight).1.Deferred?
  {
    var cert := PathState(CertPath, obj, st, sight);
    if cert.Some? && cert.value.retryAfter == ServiceStage(obj, st, sight).1.wait then CertPath
    else SecretPath(CollectRoutes(obj.spec.ports).value.reference)
  }

  lemma DeferralPublishes(obj: Object, st: PassState, sight: ServiceSight)
    requires ServiceStage(obj, st, sight).1.Deferred?
    ensures Publishes(obj, st, sight)
  {
  }

  /** A retry of the service stage is the one of a waiting path. */
  lemma NearestPathWaits(obj: Object, st: PassState, sight: ServiceSight)
    requires Publishes(obj, st, sight) && ServiceStage(obj, st, sight).1.Deferred?
    requires ClockOf(CertPath, st.status).Some? ==> ClockOf(CertPath, st.status).value <= sight.now
    requires var p := SecretPath(CollectRoutes(obj.spec.ports).value.reference);
             p.reference != "" ==> ClockOf(p, st.status).Some? ==> ClockOf(p, st.status).value <= sight.now
    ensures var p := NearestPath(obj, st, sight);
            && p != SecretPath("") && PathState(p, obj, st, sight).Some?
            && PathState(p, obj, st, sight).value.stage.TlsWaiting?
            && PathState(p, obj, st, sight).value.retryAfter == ServiceStage(obj, st, sight).1.wait
  {
    var p := SecretPath(CollectRoutes(obj.spec.ports).value.reference);
    if PathState(CertPath, obj, st, sight).Some? {
      StageWaits(CertPath, obj, st, sight);
    }
    if p.reference != "" {
      StageWaits(p, obj, st, sight);
    }
  }

  /** A waiting path asks for a retry at the deadline of the clock it leaves behind. */
  lemma RetryMeetsDeadline(path: Path, obj: Object, st: PassState, sight: ServiceSight)
    requires path != SecretPath("") && Publishes(obj, st, sight)
    requires PathState(path, obj, st, sight).Some? && PathState(path, obj, st, sight).value.stage.TlsWaiting?
    requires ClockOf(path, st.status).Some? ==> ClockOf(path, st.status).value <= sight.now
    ensures var since := Tick(ClockOf(path, st.status), Blocked(sight.now));
            PathState(path, obj, st, sight).value.retryAfter == since.value + TLS_GRACE - sight.now
  {
    if path.CertPath? {
      CertPathClock(sight.certificate.cert, st.status.certWaitingSince, sight.now);
    } else {
      SecretPathClock(st.status.referencedTLS, path.reference, sight.now);
    }
  }

  // ----- one disturbed pass -----

  function WorkState(passes: seq<Input>, k: nat): PassState
    requires k < |passes|
  {
    AfterWork(passes[k].obj, StatusAfter(passes[..k]), passes[k].sight).0
  }

  /** The path whose retry ends pass k, if one does. */
  function PathAt(passes: seq<Input>, k: nat): Path
    requires k < |passes|
  {
    var obj, st, sight := passes[k].obj, WorkState(passes, k), passes[k].sight.service;
    if TlsQuiet(passes, k) then CertPath
    else
      DeferralPublishes(obj, st, sight);
      NearestPath(obj, st, sight)
  }

  predicate RoutedAt(passes: seq<Input>, k: nat)
    requires k < |passes|
  {
    Routed(passes[k], StatusAfter(passes[..k]))
  }

  lemma ClocksInThePast(passes: seq<Input>, k: nat, path: Path)
    requires ClockNeverSteps(passes) && k < |passes| && path != SecretPath("")
    ensures ClockOf(path, WorkState(passes, k).status) == ClockOf(path, StatusAfter(passes[..k]))
    ensures var since := ClockOf(path, WorkState(passes, k).status);
            since.Some? ==> since.value <= passes[k].sight.service.now
  {
    RoutesReadOldClocks(passes, k);
    ClockStartsInThePast(path, passes[..k], passes[k].sight.service.now);
  }

  lemma DisturbedWaits(passes: seq<Input>, k: nat)
    requires ClockNeverSteps(passes) && k < |passes| && RoutedAt(passes, k) && !TlsQuiet(passes, k)
    ensures var p, st, sight := PathAt(passes, k), WorkState(passes, k), passes[k].sight.service;
            && p != SecretPath("") && WaitsAt(p, passes, k)
            && PathState(p, passes[k].obj, st, sight).value.retryAfter
            == ServiceStage(passes[k].obj, st, sight).1.wait
  {
    var obj, st, sight := passes[k].obj, WorkState(passes, k), passes[k].sight.service;
    var reference := CollectRoutes(obj.spec.ports).value.reference;
    ClocksInThePast(passes, k, CertPath);
    if reference != "" {
      ClocksInThePast(passes, k, SecretPath(reference));
    }
    DeferralPublishes(obj, st, sight);
    NearestPathWaits(obj, st, sight);
  }

  /** A disturbed pass is ended by a waiting path, at the deadline of that path's clock. */
  lemma DisturbedAsksForDeadline(passes: seq<Input>, k: nat)
    requires ClockNeverSteps(passes) && k < |passes| && RoutedAt(passes, k) && !TlsQuiet(passes, k)
    ensures var p := PathAt(passes, k);
            var since := ClockOf(p, StatusAfter(passes[..k + 1]));
            && p != SecretPath("") && WaitsAt(p, passes, k) && since.Some?
            && PassAt(passes, k).result == After(since.value + TLS_GRACE - passes[k].sight.service.now)
  {
    var p := PathAt(passes, k);
    DisturbedWaits(passes, k);
    ClocksInThePast(passes, k, p);
    RetryMeetsDeadline(p, passes[k].obj, WorkState(passes, k), passes[k].sight.service);
    WaitingTicks(p, passes, k);
    DeferralIsTheResult(passes[k], StatusAfter(passes[..k]));
  }

  // ----- one poll for each waiting stretch -----

  /** Pass k + 1 begins after pass k has ended, and no earlier than pass k asked for. */
  predicate NextInTurn(passes: seq<Input>, k: nat)
    requires k + 1 < |passes|
  {
    var ended, r := passes[k].sight.service.now, PassAt(passes, k).result;
    ended <= TimeAt(passes, k + 1) && (r.After? ==> ended + r.wait <= TimeAt(passes, k + 1))
  }

  predicate Advances(passes: seq<Input>, k: nat)
    requires k < |passes|
  {
    TimeAt(passes, k) <= passes[k].sight.service.now
  }

  ghost predicate InTurn(passes: seq<Input>, i: nat, j: nat)
    requires i <= j <= |passes|
  {
    && (forall k: nat :: i <= k < j ==> Advances(passes, k))
    && (forall k: nat :: i <= k && k + 1 < j ==> NextInTurn(passes, k))
  }

  lemma InTurnIsAsRequested(passes: seq<Input>, i: nat, j: nat)
    requires i <= j <= |passes| && InTurn(passes, i, j)
    ensures AsRequested(passes, i, j)
  {
    forall k: nat | i <= k && k + 1 < j ensures Follows(passes, k) {
      assert Advances(passes, k) && NextInTurn(passes, k);
    }
  }

  ghost predicate Disturbed(passes: seq<Input>, k: nat)
    requires k < |passes|
  {
    RoutedAt(passes, k) && !TlsQuiet(passes, k)
  }

  lemma NextIsAtDeadline(passes: seq<Input>, i: nat, j: nat, k: nat, l: nat)
    requires ClockNeverSteps(passes) && i <= k < l < j <= |passes| && InTurn(passes, i, j) && Disturbed(passes, k)
    ensures var since := ClockOf(PathAt(passes, k), StatusAfter(passes[..k + 1]));
            since.Some? && passes[l].sight.service.now >= since.value + TLS_GRACE
  {
    DisturbedAsksForDeadline(passes, k);
    InTurnIsAsRequested(passes, i, j);
    LaterPass(passes, i, j, k + 1, l);
    assert NextInTurn(passes, k) && Advances(passes, l);
  }

  lemma ClearedClock(p: Path, passes: seq<Input>, m: nat)
    requires p != SecretPath("") && m < |passes|
    requires SettlesAt(p, passes, m) || LosesIssuerAt(p, passes, m)
    ensures Clocks(p, passes)[m + 1].None?
  {
    ClearingCases(p, passes, m);
    StepTicks(p, passes, m);
  }

  lemma SomeClearing(p: Path, passes: seq<Input>, a: nat, b: nat) returns (c: nat)
    requires p != SecretPath("") && a <= b <= |passes|
    requires !(NeverSettles(p, passes, a, b) && KeepsIssuer(p, passes, a, b))
    ensures a < c <= b && Clocks(p, passes)[c].None?
  {
    var m: nat :| a <= m < b && (SettlesAt(p, passes, m) || LosesIssuerAt(p, passes, m));
    ClearedClock(p, passes, m);
    c := m + 1;
  }

  /** A path that is still waiting at its deadline has been cleared on the way. */
  lemma WaitingPastDeadline(p: Path, passes: seq<Input>, a: nat, l: nat)
    requires ClockNeverSteps(passes) && p != SecretPath("") && a <= l < |passes| && WaitsAt(p, passes, l)
    requires ClockOf(p, StatusAfter(passes[..a])).Some?
    requires passes[l].sight.service.now >= ClockOf(p, StatusAfter(passes[..a])).value + TLS_GRACE
    ensures !(NeverSettles(p, passes, a, l) && KeepsIssuer(p, passes, a, l))
  {
    if NeverSettles(p, passes, a, l) && KeepsIssuer(p, passes, a, l) {
      WaitingEndsOnTime(p, passes, a, l);
    }
  }

  /** Between two passes that one path ends, its clock is cleared. */
  lemma StretchEnds(passes: seq<Input>, i: nat, j: nat, k: nat, l: nat) returns (c: nat)
    requires ClockNeverSteps(passes) && i <= k < l < j <= |passes| && InTurn(passes, i, j)
    requires Disturbed(passes, k) && Disturbed(passes, l) && PathAt(passes, k) == PathAt(passes, l)
    ensures k + 1 < c <= l && Clocks(PathAt(passes, l), passes)[c].None?
  {
    var p := PathAt(passes, k);
    DisturbedAsksForDeadline(passes, l);
    NextIsAtDeadline(passes, i, j, k, l);
    WaitingPastDeadline(p, passes, k + 1, l);
    c := SomeClearing(p, passes, k + 1, l);
  }

  /** The pass from i on at which the clock that runs after pass k was started; i itself for
      one that was running already. */
  function StartOf(clocks: seq<Option<int>>, i: nat, k: nat): (start: nat)
    requires i <= k < |clocks|
    ensures i <= start <= k
  {
    if k == i || clocks[k].None? then k else StartOf(clocks, i, k - 1)
  }

  predicate Starts(clocks: seq<Option<int>>, i: nat, m: nat)
    requires m + 1 < |clocks|
  {
    clocks[m + 1].Some? && (m == i || clocks[m].None?)
  }

  lemma {:induction false} StartOfStarts(clocks: seq<Option<int>>, i: nat, k: nat)
    requires i <= k && k + 1 < |clocks| && clocks[k + 1].Some?
    ensures Starts(clocks, i, StartOf(clocks, i, k))
  {
    if k > i && clocks[k].Some? {
      StartOfStarts(clocks, i, k - 1);
    }
  }

  lemma {:induction false} StartsAfterGap(clocks: seq<Option<int>>, i: nat, k: nat, c: nat)
    requires i <= c <= k < |clocks| && clocks[c].None?
    ensures StartOf(clocks, i, k) >= c
  {
    if k > c && clocks[k].Some? {
      StartsAfterGap(clocks, i, k - 1, c);
    }
  }

  /** A path and the pass at which its clock starts, or the first pass of the segment for a
      clock that runs already: one stretch of waiting for a certificate or a Secret. */
  type Stretch = (Path, nat)

  function StretchOf(passes: seq<Input>, i: nat, k: nat): Stretch
    requires i <= k < |passes|
  {
    (PathAt(passes, k), StartOf(Clocks(PathAt(passes, k), passes), i, k))
  }

  /** All the stretches of the passes from i to j. */
  ghost predicate AllStretches(passes: seq<Input>, i: nat, j: nat, stretches: set<Stretch>)
    requires i <= j <= |passes|
  {
    forall p: Path, m: nat :: p != SecretPath("") && i <= m < j && Starts(Clocks(p, passes), i, m) ==>
      (p, m) in stretches
  }

  lemma DisturbedInStretch(passes: seq<Input>, i: nat, j: nat, k: nat, stretches: set<Stretch>)
    requires ClockNeverSteps(passes) && i <= k < j <= |passes| && Disturbed(passes, k)
    requires AllStretches(passes, i, j, stretches)
    ensures StretchOf(passes, i, k) in stretches
  {
    DisturbedAsksForDeadline(passes, k);
    StartOfStarts(Clocks(PathAt(passes, k), passes), i, k);
  }

  lemma StretchesDiffer(passes: seq<Input>, i: nat, j: nat, k: nat, l: nat)
    requires ClockNeverSteps(passes) && i <= k < l < j <= |passes| && InTurn(passes, i, j)
    requires Disturbed(passes, k) && Disturbed(passes, l)
    ensures StretchOf(passes, i, k) != StretchOf(passes, i, l)
  {
    if PathAt(passes, k) == PathAt(passes, l) {
      var c := StretchEnds(passes, i, j, k, l);
      StartsAfterGap(Clocks(PathAt(passes, l), passes), i, l, c);
    }
  }

  lemma {:induction false} AtMostAll<T>(s: seq<T>, all: set<T>)
    requires forall a, b :: 0 <= a < b < |s| ==> s[a] != s[b]
    requires forall a :: 0 <= a < |s| ==> s[a] in all
    ensures |s| <= |all|
  {
    if s != [] {
      AtMostAll(s[..|s| - 1], all - {s[|s| - 1]});
    }
  }

  ghost predicate Ordered(polls: seq<nat>, i: nat, j: nat) {
    && (forall m :: 0 <= m < |polls| ==> i <= polls[m] < j)
    && (forall a, b :: 0 <= a < b < |polls| ==> polls[a] < polls[b])
  }

  /** Of the passes that a TLS retry ends, each belongs to a stretch of its own. */
  lemma OneForEachStretch(passes: seq<Input>, i: nat, j: nat, polls: seq<nat>, stretches: set<Stretch>)
    requires ClockNeverSteps(passes) && i <= j <= |passes| && InTurn(passes, i, j) && Ordered(polls, i, j)
    requires forall m :: 0 <= m < |polls| ==> Disturbed(passes, polls[m])
    requires AllStretches(passes, i, j, stretches)
    ensures |polls| <= |stretches|
  {
    var found := seq(|polls|, m requires 0 <= m < |polls| => StretchOf(passes, i, polls[m]));
    forall m | 0 <= m < |polls| ensures found[m] in stretches {
      DisturbedInStretch(passes, i, j, polls[m], stretches);
    }
    forall a, b | 0 <= a < b < |polls| ensures found[a] != found[b] {
      StretchesDiffer(passes, i, j, polls[a], polls[b]);
    }
    AtMostAll(found, stretches);
  }

  // ----- all polls of an outage -----

  /** The polls with this flag. */
  function Part(polls: seq<nat>, flags: seq<bool>, flag: bool): seq<nat>
    requires forall m :: 0 <= m < |polls| ==> polls[m] < |flags|
  {
    if polls == [] then []
    else
      var front, last := Part(polls[..|polls| - 1], flags, flag), polls[|polls| - 1];
      if flags[last] == flag then front + [last] else front
  }

  lemma {:induction false} PartIsOrdered(polls: seq<nat>, flags: seq<bool>, flag: bool, i: nat, j: nat)
    requires j <= |flags| && Ordered(polls, i, j)
    ensures var part := Part(polls, flags, flag);
            Ordered(part, i, j) && forall m :: 0 <= m < |part| ==> part[m] <= polls[|polls| - 1]
  {
    if polls != [] {
      PartIsOrdered(polls[..|polls| - 1], flags, flag, i, j);
    }
  }

  lemma {:induction false} PartMembers(polls: seq<nat>, flags: seq<bool>, flag: bool)
    requires forall m :: 0 <= m < |polls| ==> polls[m] < |flags|
    ensures forall x :: x in Part(polls, flags, flag) ==> x in polls && flags[x] == flag
  {
    if polls != [] {
      PartMembers(polls[..|polls| - 1], flags, flag);
    }
  }

  lemma {:induction false} PartsAddUp(polls: seq<nat>, flags: seq<bool>)
    requires forall m :: 0 <= m < |polls| ==> polls[m] < |flags|
    ensures |polls| == |Part(polls, flags, true)| + |Part(polls, flags, false)|
  {
    if polls != [] {
      PartsAddUp(polls[..|polls| - 1], flags);
    }
  }

  function Quiets(passes: seq<Input>): (flags: seq<bool>)
    ensures |flags| == |passes|
    ensures forall k: nat :: k < |passes| ==> flags[k] == TlsQuiet(passes, k)
  {
    seq(|passes|, k requires 0 <= k < |passes| => TlsQuiet(passes, k))
  }

  lemma DeadPollIsRouted(passes: seq<Input>, k: nat, revision: string)
    requires k < |passes| && DeadPoll(passes, k, revision)
    ensures RoutedAt(passes, k)
  {
    DeadPollWorks(passes, k, revision);
  }

  /** The dead polls of one outage, in order, whoever decides their wait. */
  ghost predicate DeadPollsOf(passes: seq<Input>, i: nat, j: nat, revision: string, polls: seq<nat>)
    requires i <= j <= |passes|
  {
    Ordered(polls, i, j) && forall m :: 0 <= m < |polls| ==> DeadPoll(passes, polls[m], revision)
  }

  lemma QuietPart(passes: seq<Input>, i: nat, j: nat, revision: string, polls: seq<nat>)
    requires i <= j <= |passes| && DeadPollsOf(passes, i, j, revision, polls)
    ensures PollsOf(passes, i, j, revision, Part(polls, Quiets(passes), true))
  {
    var part := Part(polls, Quiets(passes), true);
    PartIsOrdered(polls, Quiets(passes), true, i, j);
    PartMembers(polls, Quiets(passes), true);
    forall m | 0 <= m < |part| ensures i <= part[m] < j && SlowPoll(passes, part[m], revision) {
      assert part[m] in polls;
    }
  }

  lemma DisturbedPart(passes: seq<Input>, i: nat, j: nat, revision: string, polls: seq<nat>)
    requires i <= j <= |passes| && DeadPollsOf(passes, i, j, revision, polls)
    ensures var part := Part(polls, Quiets(passes), false);
            Ordered(part, i, j) && forall m :: 0 <= m < |part| ==> Disturbed(passes, part[m])
  {
    var part := Part(polls, Quiets(passes), false);
    PartIsOrdered(polls, Quiets(passes), false, i, j);
    PartMembers(polls, Quiets(passes), false);
    forall m | 0 <= m < |part| ensures Disturbed(passes, part[m]) {
      assert part[m] in polls;
      DeadPollIsRouted(passes, part[m], revision);
    }
  }

  lemma WithinSegment(passes: seq<Input>, i: nat, j: nat, polls: seq<nat>, k: nat)
    requires i <= j <= |passes| && AsRequested(passes, i, j) && Ordered(polls, i, j) && k in polls
    ensures TimeAt(passes, polls[0]) <= TimeAt(passes, k) <= TimeAt(passes, polls[|polls| - 1])
  {
    LaterPass(passes, i, j, polls[0], k);
    LaterPass(passes, i, j, k, polls[|polls| - 1]);
  }

  function Span(passes: seq<Input>, polls: seq<nat>): int
    requires polls != [] && polls[0] < |passes| && polls[|polls| - 1] < |passes|
  {
    TimeAt(passes, polls[|polls| - 1]) - TimeAt(passes, polls[0])
  }

  lemma SlowPollsAreBounded(passes: seq<Input>, i: nat, j: nat, revision: string, since: int, grace: int,
                            polls: seq<nat>)
    requires OneOutage(passes, i, j, revision, since, grace) && AsRequested(passes, i, j)
    requires PollsOf(passes, i, j, revision, polls) && polls != []
    ensures |polls| <= 6 + Span(passes, polls) / 600
  {
    SlowPollsBackOff(passes, i, j, revision, since, grace, polls, 0);
  }

  lemma PartSpan(passes: seq<Input>, i: nat, j: nat, polls: seq<nat>, part: seq<nat>)
    requires i <= j <= |passes| && AsRequested(passes, i, j) && Ordered(polls, i, j) && Ordered(part, i, j)
    requires part != [] && polls != [] && forall x :: x in part ==> x in polls
    ensures Span(passes, part) <= Span(passes, polls)
  {
    assert part[0] in part && part[|part| - 1] in part;
    WithinSegment(passes, i, j, polls, part[0]);
    WithinSegment(passes, i, j, polls, part[|part| - 1]);
  }

  lemma QuietPollsAreBounded(passes: seq<Input>, i: nat, j: nat, revision: string, since: int, grace: int,
                             polls: seq<nat>)
    requires OneOutage(passes, i, j, revision, since, grace) && AsRequested(passes, i, j)
    requires DeadPollsOf(passes, i, j, revision, polls) && polls != []
    ensures |Part(polls, Quiets(passes), true)| <= 6 + Span(passes, polls) / 600
  {
    var part := Part(polls, Quiets(passes), true);
    QuietPart(passes, i, j, revision, polls);
    if part != [] {
      SlowPollsAreBounded(passes, i, j, revision, since, grace, part);
      PartIsOrdered(polls, Quiets(passes), true, i, j);
      PartMembers(polls, Quiets(passes), true);
      PartSpan(passes, i, j, polls, part);
    } else {
      LaterPass(passes, i, j, polls[0], polls[|polls| - 1]);
    }
  }

  /** An outage of length D is polled at most 6 + D / 10min times, plus once for every stretch
      of waiting for a certificate or a Secret, whatever those retries do to the waits. */
  lemma DeadPollsAreBounded(passes: seq<Input>, i: nat, j: nat, revision: string, since: int, grace: int,
                            polls: seq<nat>, stretches: set<Stretch>)
    requires OneOutage(passes, i, j, revision, since, grace) && InTurn(passes, i, j) && ClockNeverSteps(passes)
    requires DeadPollsOf(passes, i, j, revision, polls) && polls != []
    requires AllStretches(passes, i, j, stretches)
    ensures |polls| <= 6 + Span(passes, polls) / 600 + |stretches|
  {
    InTurnIsAsRequested(passes, i, j);
    QuietPollsAreBounded(passes, i, j, revision, since, grace, polls);
    DisturbedPart(passes, i, j, revision, polls);
    OneForEachStretch(passes, i, j, Part(polls, Quiets(passes), false), stretches);
    PartsAddUp(polls, Quiets(passes));
  }
}
