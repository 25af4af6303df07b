/** How a dead port of a serving workload is polled over runs of passes. */
module OutageRuns {
  import opened Meta
  import opened Dialer
  import opened Resource
  import opened Readiness
  import opened Workload
  import opened Service
  import opened Derive
  import opened Chain
  import opened PassTheorems
  import opened PortRuns
  import opened PortPolling
  import opened Backoff

  // ----- slow polls -----

  /** No TLS path asks for a retry, which would replace the wait of the port check. */
  predicate TlsQuiet(passes: seq<Input>, k: nat)
    requires k < |passes|
  {
    var st := AfterWork(passes[k].obj, StatusAfter(passes[..k]), passes[k].sight).0;
    !ServiceStage(passes[k].obj, st, passes[k].sight.service).1.Deferred?
  }

  /** Pass k judged a refusal of this revision, found it dead for the grace period although
      the workload serves, and was stored. */
  predicate DeadPoll(passes: seq<Input>, k: nat, revision: string)
    requires k < |passes|
  {
    var e, w := EventAt(passes, k), passes[k].sight.workload;
    && PassAt(passes, k).persisted
    && e.FoundClosed? && e.revision == revision
    && AlreadyFailed(StatusAfter(passes[..k + 1]).portCheck, revision, Grace(w.grace), w.now)
    && Serving(passes[k].obj, w)
  }

  /** Such a poll whose wait is its own. */
  predicate SlowPoll(passes: seq<Input>, k: nat, revision: string)
    requires k < |passes|
  {
    DeadPoll(passes, k, revision) && TlsQuiet(passes, k)
  }

  lemma CheckAsksForBackoff(obj: Object, st: PassState, revision: string, sight: PortSight, grace: int, now: int)
    requires WellFormed(st.status.portCheck)
    requires CheckEvent(obj, st.status.failureDetails, revision, sight).FoundClosed?
    requires AlreadyFailed(CheckPorts(obj, st, revision, true, sight, grace, now).0.status.portCheck, revision, grace,
                           now)
    ensures var (st', wait) := CheckPorts(obj, st, revision, true, sight, grace, now);
            wait == RetryAfter(st'.status.portCheck, grace, now)
  {
    VerifyNeverStalls(obj.spec.ports, st.status.portCheck, revision, sight, grace, now);
  }

  lemma DeploymentAsksForBackoff(obj: Object, st: PassState, d: Deployment, sight: WorkloadSight)
    requires WellFormed(st.status.portCheck) && DeploymentServing(d)
    requires CheckEvent(obj, DeploymentBefore(obj, st, d, sight).status.failureDetails, d.revision,
                        sight.ports).FoundClosed?
    requires AlreadyFailed(EvaluateDeployment(obj, st, d, sight).0.status.portCheck, d.revision, Grace(sight.grace),
                           sight.now)
    ensures var (st', r) := EvaluateDeployment(obj, st, d, sight);
            r == Deferred(RetryAfter(st'.status.portCheck, Grace(sight.grace), sight.now))
  {
    BeforeKeepsPortCheck(obj, st, d, StatefulSet(0, 0, "", "", Replicas(0, 0, 0), 0), sight);
    CheckAsksForBackoff(obj, DeploymentBefore(obj, st, d, sight), d.revision, sight.ports, Grace(sight.grace),
                        sight.now);
  }

  lemma StatefulSetAsksForBackoff(obj: Object, st: PassState, w: StatefulSet, sight: WorkloadSight)
    requires WellFormed(st.status.portCheck) && StatefulSetConverged(w)
    requires CheckEvent(obj, StatefulSetBefore(obj, st, w, sight).status.failureDetails, w.updateRevision,
                        sight.ports).FoundClosed?
    requires AlreadyFailed(EvaluateStatefulSet(obj, st, w, sight).0.status.portCheck, w.updateRevision,
                           Grace(sight.grace), sight.now)
    ensures var (st', r) := EvaluateStatefulSet(obj, st, w, sight);
            r == Deferred(RetryAfter(st'.status.portCheck, Grace(sight.grace), sight.now))
  {
    BeforeKeepsPortCheck(obj, st, Deployment(0, 0, None, Replicas(0, 0, 0), 0, 0, [], ""), w, sight);
    CheckAsksForBackoff(obj, StatefulSetBefore(obj, st, w, sight), w.updateRevision, sight.ports, Grace(sight.grace),
                        sight.now);
  }

  lemma DispatchAsksForBackoff(obj: Object, st: PassState, sight: WorkloadSight)
    requires WellFormed(st.status.portCheck) && DispatchEvent(obj, st, sight).FoundClosed? && Serving(obj, sight)
    requires AlreadyFailed(Dispatch(obj, st, sight).0.status.portCheck, DispatchEvent(obj, st, sight).revision,
                           Grace(sight.grace), sight.now)
    ensures var (st', r) := Dispatch(obj, st, sight);
            r == Deferred(RetryAfter(st'.status.portCheck, Grace(sight.grace), sight.now))
  {
    DispatchedTo(obj, st, sight);
    if obj.spec.workloadType.StatefulService? {
      StatefulSetAsksForBackoff(obj, st, sight.statefulSet.workload, sight);
    } else {
      DeploymentAsksForBackoff(obj, st, sight.deployment.workload, sight);
    }
  }

  /** A refusal is judged only by the evaluation of the workload that was applied. */
  lemma DispatchedTo(obj: Object, st: PassState, sight: WorkloadSight)
    requires DispatchEvent(obj, st, sight).FoundClosed?
    ensures if obj.spec.workloadType.StatefulService? then
              && sight.statefulSet.Applied?
              && DispatchEvent(obj, st, sight).revision == sight.statefulSet.workload.updateRevision
              && Dispatch(obj, st, sight) == EvaluateStatefulSet(obj, st, sight.statefulSet.workload, sight)
            else
              && sight.deployment.Applied?
              && DispatchEvent(obj, st, sight).revision == sight.deployment.workload.revision
              && Dispatch(obj, st, sight) == EvaluateDeployment(obj, st, sight.deployment.workload, sight)
  {
  }

  lemma WorkAsksForBackoff(obj: Object, status: Status, sight: PassSight)
    requires WellFormed(status.portCheck) && PassEvent(obj, status, sight).FoundClosed? && Serving(obj, sight.workload)
    requires AlreadyFailed(AfterWork(obj, status, sight).0.status.portCheck, PassEvent(obj, status, sight).revision,
                           Grace(sight.workload.grace), sight.workload.now)
    ensures var (st, r) := AfterWork(obj, status, sight);
            r == Deferred(RetryAfter(st.status.portCheck, Grace(sight.workload.grace), sight.workload.now))
  {
    var st := AfterBuild(obj, status, sight).0;
    BeforeWork(obj, status, sight);
    GatedRuns(obj, st, sight.workload);
    DispatchAsksForBackoff(obj, GatedState(obj, st, sight.workload), sight.workload);
  }

  /** A dead poll makes the workload stage ask for the length of the outage so far, held
      between one and ten minutes. */
  lemma DeadPollWorks(passes: seq<Input>, k: nat, revision: string)
    requires k < |passes| && DeadPoll(passes, k, revision)
    ensures AfterWork(passes[k].obj, StatusAfter(passes[..k]), passes[k].sight).1
         == var w := passes[k].sight.workload;
            Deferred(RetryAfter(StatusAfter(passes[..k + 1]).portCheck, Grace(w.grace), w.now))
  {
    var obj, status, sight := passes[k].obj, StatusAfter(passes[..k]), passes[k].sight;
    assert passes[..k + 1][..k] == passes[..k];
    RecordsWellFormed(passes[..k]);
    PassKeepsRecord(obj, status, sight);
    WorkAsksForBackoff(obj, status, sight);
  }

  /** A slow poll makes the whole chain ask for exactly that. */
  lemma SlowPollAsksForBackoff(passes: seq<Input>, k: nat, revision: string)
    requires k < |passes| && SlowPoll(passes, k, revision)
    ensures var w := passes[k].sight.workload;
            PassAt(passes, k).result == After(RetryAfter(StatusAfter(passes[..k + 1]).portCheck, Grace(w.grace), w.now))
  {
    var obj, status, sight := passes[k].obj, StatusAfter(passes[..k]), passes[k].sight;
    DeadPollWorks(passes, k, revision);
    ChainUnrolls(obj, status, sight);
    RouteFacts(obj, AfterWork(obj, status, sight).0, sight.service);
  }

  lemma PassKeepsRecord(obj: Object, status: Status, sight: PassSight)
    requires ReconcilePass(obj, status, sight).persisted
    ensures ReconcilePass(obj, status, sight).status.portCheck == AfterWork(obj, status, sight).0.status.portCheck
  {
    ChainUnrolls(obj, status, sight);
    ChainDone(obj, status, sight);
    SummaryMeaning(obj, ReconcilePass(obj, status, sight).state, sight.now);
  }

  // ----- one outage -----

  predicate DeadSince(pc: Option<PortCheck>, revision: string, since: int) {
    pc.Some? && pc.value.revision == revision && pc.value.failingSince == Some(since)
  }

  /** Pass k does not contradict the outage and runs under this grace period. */
  predicate Undisturbed(passes: seq<Input>, k: nat, revision: string, grace: int)
    requires k < |passes|
  {
    && (PassAt(passes, k).persisted ==> Consistent(EventAt(passes, k), revision))
    && passes[k].sight.workload.grace == grace
  }

  /** Passes i to j belong to one outage: the clock runs at its start, no persisted pass
      contradicts it, and the operator's grace period does not change. */
  ghost predicate OneOutage(passes: seq<Input>, i: nat, j: nat, revision: string, since: int, grace: int) {
    && i <= j <= |passes|
    && DeadSince(StatusAfter(passes[..i]).portCheck, revision, since)
    && (forall k: nat :: i <= k < j ==> Undisturbed(passes, k, revision, grace))
  }

  /** Pass k + 1 comes after pass k, and no earlier than pass k asked for. */
  predicate Follows(passes: seq<Input>, k: nat)
    requires k + 1 < |passes|
  {
    var r := PassAt(passes, k).result;
    && TimeAt(passes, k) <= TimeAt(passes, k + 1)
    && (r.After? ==> TimeAt(passes, k) + r.wait <= TimeAt(passes, k + 1))
  }

  ghost predicate AsRequested(passes: seq<Input>, i: nat, j: nat)
    requires i <= j <= |passes|
  {
    forall k: nat :: i <= k && k + 1 < j ==> Follows(passes, k)
  }

  lemma OutageStep(passes: seq<Input>, k: nat, revision: string, since: int)
    requires k < |passes| && DeadSince(StatusAfter(passes[..k]).portCheck, revision, since)
    requires PassAt(passes, k).persisted ==> Consistent(EventAt(passes, k), revision)
    ensures DeadSince(StatusAfter(passes[..k + 1]).portCheck, revision, since)
  {
    assert passes[..k + 1][..k] == passes[..k];
    RecordsWellFormed(passes[..k]);
    PassPortFacts(passes[k].obj, StatusAfter(passes[..k]), passes[k].sight);
  }

  /** FailingSince is constant over an outage. */
  lemma {:induction false} OutageKeepsItsStart(passes: seq<Input>, i: nat, j: nat, revision: string, since: int,
                                               grace: int, k: nat)
    requires OneOutage(passes, i, j, revision, since, grace) && i <= k <= j
    ensures DeadSince(StatusAfter(passes[..k]).portCheck, revision, since)
    decreases k
  {
    if k > i {
      OutageKeepsItsStart(passes, i, j, revision, since, grace, k - 1);
      assert Undisturbed(passes, k - 1, revision, grace);
      OutageStep(passes, k - 1, revision, since);
    }
  }

  lemma {:induction false} LaterPass(passes: seq<Input>, i: nat, j: nat, a: nat, b: nat)
    requires i <= j <= |passes| && AsRequested(passes, i, j) && i <= a <= b < j
    ensures TimeAt(passes, a) <= TimeAt(passes, b)
    decreases b
  {
    if a < b {
      LaterPass(passes, i, j, a, b - 1);
      assert Follows(passes, b - 1);
    }
  }

  /** The slow polls of one outage, in order. */
  ghost predicate PollsOf(passes: seq<Input>, i: nat, j: nat, revision: string, polls: seq<nat>)
    requires i <= j <= |passes|
  {
    && (forall m :: 0 <= m < |polls| ==> i <= polls[m] < j && SlowPoll(passes, polls[m], revision))
    && (forall m :: 0 <= m < |polls| - 1 ==> polls[m] < polls[m + 1])
  }

  function Times(passes: seq<Input>, polls: seq<nat>): (times: seq<int>)
    requires forall m :: 0 <= m < |polls| ==> polls[m] < |passes|
    ensures |times| == |polls|
  {
    seq(|polls|, m requires 0 <= m < |polls| => TimeAt(passes, polls[m]))
  }

  lemma WaitOfRecord(pc: Option<PortCheck>, revision: string, since: int, grace: int, now: int)
    requires DeadSince(pc, revision, since) && AlreadyFailed(pc, revision, grace, now)
    ensures RetryAfter(pc, grace, now) == Wait(since, grace, now) && now >= since + grace
  {
  }

  lemma SlowPollIsLate(passes: seq<Input>, k: nat, revision: string)
    requires k < |passes| && SlowPoll(passes, k, revision)
    ensures AlreadyFailed(StatusAfter(passes[..k + 1]).portCheck, revision, Grace(passes[k].sight.workload.grace),
                          TimeAt(passes, k))
  {
  }

  lemma OutageAt(passes: seq<Input>, i: nat, j: nat, revision: string, since: int, grace: int, k: nat)
    requires OneOutage(passes, i, j, revision, since, grace) && i <= k < j
    ensures DeadSince(StatusAfter(passes[..k + 1]).portCheck, revision, since)
    ensures passes[k].sight.workload.grace == grace
  {
    OutageKeepsItsStart(passes, i, j, revision, since, grace, k + 1);
    assert Undisturbed(passes, k, revision, grace);
  }

  lemma PollWaitAt(passes: seq<Input>, k: nat, revision: string, since: int, grace: int)
    requires k < |passes| && SlowPoll(passes, k, revision) && passes[k].sight.workload.grace == grace
    requires DeadSince(StatusAfter(passes[..k + 1]).portCheck, revision, since)
    ensures PassAt(passes, k).result == After(Wait(since, Grace(grace), TimeAt(passes, k)))
    ensures TimeAt(passes, k) >= since + Grace(grace)
  {
    SlowPollAsksForBackoff(passes, k, revision);
    SlowPollIsLate(passes, k, revision);
    WaitOfRecord(StatusAfter(passes[..k + 1]).portCheck, revision, since, Grace(grace), TimeAt(passes, k));
  }

  /** What a slow poll of the outage asks for, and when it can happen. */
  lemma PollWait(passes: seq<Input>, i: nat, j: nat, revision: string, since: int, grace: int, k: nat)
    requires OneOutage(passes, i, j, revision, since, grace) && i <= k < j && SlowPoll(passes, k, revision)
    ensures PassAt(passes, k).result == After(Wait(since, Grace(grace), TimeAt(passes, k)))
    ensures TimeAt(passes, k) >= since + Grace(grace)
  {
    OutageAt(passes, i, j, revision, since, grace, k);
    PollWaitAt(passes, k, revision, since, grace);
  }

  lemma NoEarlier(passes: seq<Input>, i: nat, j: nat, a: nat, b: nat)
    requires i <= j <= |passes| && AsRequested(passes, i, j) && i <= a < b < j
    ensures PassAt(passes, a).result.After? ==>
              TimeAt(passes, b) >= TimeAt(passes, a) + PassAt(passes, a).result.wait
  {
    assert Follows(passes, a);
    LaterPass(passes, i, j, a + 1, b);
  }

  lemma NextPoll(passes: seq<Input>, i: nat, j: nat, revision: string, since: int, grace: int, a: nat, b: nat)
    requires OneOutage(passes, i, j, revision, since, grace) && AsRequested(passes, i, j)
    requires i <= a < b < j && SlowPoll(passes, a, revision)
    ensures TimeAt(passes, b) >= TimeAt(passes, a) + Wait(since, Grace(grace), TimeAt(passes, a))
  {
    PollWait(passes, i, j, revision, since, grace, a);
    NoEarlier(passes, i, j, a, b);
  }

  lemma PollAt(passes: seq<Input>, i: nat, j: nat, revision: string, polls: seq<nat>, m: nat)
    requires i <= j <= |passes| && PollsOf(passes, i, j, revision, polls) && m < |polls|
    ensures i <= polls[m] < j && SlowPoll(passes, polls[m], revision)
    ensures m + 1 < |polls| ==> polls[m] < polls[m + 1] < j
  {
  }

  /** The poll times of an outage are those the backoff law is about. */
  lemma PollsFormOutage(passes: seq<Input>, i: nat, j: nat, revision: string, since: int, grace: int, polls: seq<nat>)
    requires OneOutage(passes, i, j, revision, since, grace) && AsRequested(passes, i, j)
    requires PollsOf(passes, i, j, revision, polls)
    ensures Outage(since, Grace(grace), Times(passes, polls))
  {
    var times := Times(passes, polls);
    if polls != [] {
      PollTimes(passes, i, j, revision, since, grace, polls, 0);
    }
    forall m | 0 <= m < |times| - 1 ensures times[m + 1] >= times[m] + Wait(since, Grace(grace), times[m]) {
      PollTimes(passes, i, j, revision, since, grace, polls, m);
    }
  }

  lemma PollTimes(passes: seq<Input>, i: nat, j: nat, revision: string, since: int, grace: int, polls: seq<nat>, m: nat)
    requires OneOutage(passes, i, j, revision, since, grace) && AsRequested(passes, i, j)
    requires PollsOf(passes, i, j, revision, polls) && m < |polls|
    ensures var times := Times(passes, polls);
            && times[m] >= since + Grace(grace)
            && (m + 1 < |polls| ==> times[m + 1] >= times[m] + Wait(since, Grace(grace), times[m]))
  {
    PollAt(passes, i, j, revision, polls, m);
    PollWait(passes, i, j, revision, since, grace, polls[m]);
    if m + 1 < |polls| {
      NextPoll(passes, i, j, revision, since, grace, polls[m], polls[m + 1]);
    }
  }

  /** If passes come no earlier than requested, the m-th slow poll of an outage asks the whole
      chain for a wait between one and ten minutes that never shrinks and is at least
      min(2^(m-1), 10) minutes, and an outage is polled at most 6 times plus once every ten
      minutes. */
  lemma SlowPollsBackOff(passes: seq<Input>, i: nat, j: nat, revision: string, since: int, grace: int, polls: seq<nat>,
                         m: nat)
    requires OneOutage(passes, i, j, revision, since, grace) && AsRequested(passes, i, j)
    requires PollsOf(passes, i, j, revision, polls) && m < |polls|
    ensures PassAt(passes, polls[m]).result == After(Wait(since, Grace(grace), TimeAt(passes, polls[m])))
    ensures BacksOff(since, Grace(grace), Times(passes, polls), m)
  {
    PollsFormOutage(passes, i, j, revision, since, grace, polls);
    PollAt(passes, i, j, revision, polls, m);
    PollWait(passes, i, j, revision, since, grace, polls[m]);
    OutageBacksOff(since, Grace(grace), Times(passes, polls), m);
  }

  ghost predicate AskAsAnnounced(passes: seq<Input>, polls: seq<nat>)
    requires forall m :: 0 <= m < |polls| ==> polls[m] < |passes|
  {
    forall m :: 0 <= m < |polls| ==> PassAt(passes, polls[m]).result == After(Announced(m))
  }

  lemma PollAsks(passes: seq<Input>, i: nat, j: nat, revision: string, since: int, grace: int, polls: seq<nat>, m: nat)
    requires OneOutage(passes, i, j, revision, since, grace)
    requires PollsOf(passes, i, j, revision, polls) && m < |polls|
    ensures PassAt(passes, polls[m]).result == After(Wait(since, Grace(grace), Times(passes, polls)[m]))
  {
    PollAt(passes, i, j, revision, polls, m);
    PollWait(passes, i, j, revision, since, grace, polls[m]);
  }

  /** The slow polls of an outage make the chain ask for the commented 1, 1, 2, 4, 8, 10, 10, ...
      minutes if and only if the first comes at the end of the grace period and the next four
      exactly when the one before asked for; a single poll only has to come within a minute. */
  lemma CommentHoldsIffOnTime(passes: seq<Input>, i: nat, j: nat, revision: string, since: int, grace: int,
                              polls: seq<nat>)
    requires OneOutage(passes, i, j, revision, since, grace) && AsRequested(passes, i, j)
    requires PollsOf(passes, i, j, revision, polls)
    ensures AskAsAnnounced(passes, polls) <==> OnTime(since, Grace(grace), Times(passes, polls))
  {
    var times := Times(passes, polls);
    PollsFormOutage(passes, i, j, revision, since, grace, polls);
    AnnouncedIffOnTime(since, Grace(grace), times);
    forall m | 0 <= m < |polls|
      ensures PassAt(passes, polls[m]).result == After(Wait(since, Grace(grace), times[m]))
    {
      PollAsks(passes, i, j, revision, since, grace, polls, m);
    }
  }

  // ----- the waits are longer than their comment says -----

  /** The wait of a check on a serving workload that has a pod and no open answer. */
  function DeadWait(pc: Option<PortCheck>, answer: Option<DialResult>, now: int): int {
    if answer.Some? && AlreadyFailed(pc, "r", 180, now) then RetryAfter(pc, 180, now) else PORT_REQUEUE
  }

  lemma DeadCheckWait(obj: Object, st: PassState, answer: Option<DialResult>, now: int)
    requires WellFormed(st.status.portCheck) && obj.spec.ports != [] && st.status.failureDetails == []
    requires answer.Some? ==> !AllOpen(answer.value)
    ensures var (st', wait) := CheckPorts(obj, st, "r", true, PortSight(true, answer, true, true), 180, now);
            wait == DeadWait(st'.status.portCheck, answer, now)
  {
    VerifyNeverStalls(obj.spec.ports, st.status.portCheck, "r", PortSight(true, answer, true, true), 180, now);
  }

  lemma WorkerCheckWait(obj: Object, p: Port, st: PassState, now: int, answer: Option<DialResult>)
    requires PlainWorker(obj, p) && WellFormed(st.status.portCheck)
    requires answer.Some? ==> !AllOpen(answer.value)
    ensures var (st', r) := Dispatch(obj, st, PortSightAt(now, answer).workload);
            r == Deferred(DeadWait(st'.status.portCheck, answer, now))
  {
    var sight := PortSightAt(now, answer).workload;
    var d := sight.deployment.workload;
    assert d.conditions[0].status.Yes?;
    var before := DeploymentBefore(obj, st, d, sight);
    assert before.status.failureDetails == [];
    BeforeKeepsPortCheck(obj, st, d, StatefulSet(0, 0, "", "", Replicas(0, 0, 0), 0), sight);
    DeadCheckWait(obj, before, answer, now);
  }

  lemma WorkerChain(obj: Object, p: Port, status: Status, now: int, answer: Option<DialResult>)
    requires PlainWorker(obj, p)
    ensures var sight := PortSightAt(now, answer);
            var st := GatedState(obj, PassState(status, NoVerdicts()), sight.workload);
            AfterWork(obj, status, sight) == Dispatch(obj, st, sight.workload)
  {
    var sight := PortSightAt(now, answer);
    var st := PassState(status, NoVerdicts());
    assert AfterBuild(obj, status, sight) == (st, Next);
    GatedRuns(obj, st, sight.workload);
  }

  lemma WorkerResult(obj: Object, p: Port, status: Status, now: int, answer: Option<DialResult>)
    requires PlainWorker(obj, p)
    requires AfterWork(obj, status, PortSightAt(now, answer)).1.Deferred?
    ensures var out := ReconcilePass(obj, status, PortSightAt(now, answer));
            out.persisted && out.result == After(AfterWork(obj, status, PortSightAt(now, answer)).1.wait)
  {
    ChainUnrolls(obj, status, PortSightAt(now, answer));
  }

  lemma WorkerWait(obj: Object, p: Port, status: Status, now: int, answer: Option<DialResult>)
    requires PlainWorker(obj, p) && WellFormed(status.portCheck)
    requires answer.Some? ==> !AllOpen(answer.value)
    ensures var out := ReconcilePass(obj, status, PortSightAt(now, answer));
            out.result == After(DeadWait(out.status.portCheck, answer, now))
  {
    var sight := PortSightAt(now, answer);
    var st := PassState(status, NoVerdicts());
    WorkerChain(obj, p, status, now, answer);
    GateKeepsMemory(obj, st, sight.workload);
    WorkerCheckWait(obj, p, GatedState(obj, st, sight.workload), now, answer);
    WorkerResult(obj, p, status, now, answer);
    PassKeepsRecord(obj, status, sight);
  }

  /** From a condemned port on, every pass exactly when requested: the poll at 180 s asks for
      one minute, the pass at 240 s only lines the next dial up, and the poll at 270 s then
      asks for a minute and a half, where the comment announces a second minute. */
  lemma SecondWaitIsLonger(obj: Object, p: Port, status: Status)
    requires PlainWorker(obj, p) && WellFormed(status.portCheck) && DeadSince(status.portCheck, "r", 0)
    ensures var refused := Some([PortResult(p.number, false)]);
            var first := ReconcilePass(obj, status, PortSightAt(180, refused));
            var between := ReconcilePass(obj, first.status, PortSightAt(240, None));
            var second := ReconcilePass(obj, between.status, PortSightAt(270, refused));
            first.result == After(60) && between.result == After(30) && second.result == After(90)
  {
    var refused := [PortResult(p.number, false)];
    assert !refused[0].open;
    var first := RefusalStep(obj, p, status, 180, refused);
    var between := SilenceStep(obj, p, first, 240);
    var second := RefusalStep(obj, p, between, 270, refused);
  }

  lemma RefusalStep(obj: Object, p: Port, status: Status, now: int, refused: DialResult) returns (after: Status)
    requires PlainWorker(obj, p) && WellFormed(status.portCheck) && DeadSince(status.portCheck, "r", 0)
    requires now >= 180 && !AllOpen(refused)
    ensures var out := ReconcilePass(obj, status, PortSightAt(now, Some(refused)));
            && after == out.status && WellFormed(after.portCheck) && DeadSince(after.portCheck, "r", 0)
            && out.result == After(RetryAfter(after.portCheck, 180, now))
  {
    after := ReconcilePass(obj, status, PortSightAt(now, Some(refused))).status;
    ClosedPortsMeaning(refused);
    WorkerPass(obj, p, status, now, Some(refused));
    WorkerWait(obj, p, status, now, Some(refused));
  }

  lemma SilenceStep(obj: Object, p: Port, status: Status, now: int) returns (after: Status)
    requires PlainWorker(obj, p) && WellFormed(status.portCheck) && DeadSince(status.portCheck, "r", 0)
    ensures var out := ReconcilePass(obj, status, PortSightAt(now, None));
            && after == out.status && WellFormed(after.portCheck) && DeadSince(after.portCheck, "r", 0)
            && out.result == After(PORT_REQUEUE)
  {
    after := ReconcilePass(obj, status, PortSightAt(now, None)).status;
    WorkerPass(obj, p, status, now, None);
    WorkerWait(obj, p, status, now, None);
  }
}
