/** Both TLS grace clocks over whole runs of passes. */
module TlsRuns {
  import opened Meta
  import opened IngressDrift
  import opened Resource
  import opened Readiness
  import opened Workload
  import opened Housekeeping
  import opened Tls
  import opened Routes
  import opened Service
  import opened Derive
  import opened Chain
  import opened PassTheorems
  import opened PortRuns

  /** The certificate path, or the path of one referenced Secret. */
  datatype Path = CertPath | SecretPath(reference: string)

  /** WaitingSince of a path. */
  function ClockOf(path: Path, s: Status): Option<int> {
    match path
    case CertPath => s.certWaitingSince
    case SecretPath(reference) => SecretPendingSince(s.referencedTLS, reference)
  }

  /** The state a publishing pass gives the path, if the path is in use. */
  function PathState(path: Path, obj: Object, st: PassState, sight: ServiceSight): Option<TlsState>
    requires Publishes(obj, st, sight)
  {
    var routes := CollectRoutes(obj.spec.ports).value;
    match path
    case CertPath => if routes.certHosts == [] then None else CertState(routes, st.status, sight)
    case SecretPath(reference) =>
      if routes.reference != reference || reference == "" then None else SecretState(routes, st.status, sight)
  }

  // ----- what clears a clock -----

  /** No public TLS port is on the path; for a Secret, also when they name another Secret. */
  predicate Unused(path: Path, ports: seq<Port>) {
    match path
    case CertPath => !UsesPath(ports, false)
    case SecretPath(reference) =>
      !exists i :: 0 <= i < |ports| && ports[i].exposed && PortSecretRef(ports[i]) == Some(reference)
  }

  /** The pass finds the certificate issued, or the Secret mirrored. */
  predicate PathReady(path: Path, sight: ServiceSight) {
    match path
    case CertPath => sight.Issuer().Some? && sight.certificate.CertRead? && sight.certificate.cert.Some?
                     && sight.certificate.cert.value.ready
    case SecretPath(_) => sight.secret.MirrorReady?
  }

  /** The certificate path finds no issuer: the annotation is missing, the issuer is missing,
      or looking it up failed. */
  predicate IssuerLost(path: Path, sight: ServiceSight) { path.CertPath? && sight.Issuer().None? }

  function StageEvent(path: Path, obj: Object, st: PassState, sight: ServiceSight): ClockEvent {
    if !NeedsService(obj.spec.workloadType) || ServiceStage(obj, st, sight).1.Error? then Untouched
    else if Unused(path, obj.spec.ports) || PathReady(path, sight) || IssuerLost(path, sight) then Cleared
    else Blocked(sight.now)
  }

  predicate Routed(input: Input, status: Status) {
    ReconcilePass(input.obj, status, input.sight).persisted && Passes(AfterWork(input.obj, status, input.sight).1)
  }

  function PassClockEvent(path: Path, input: Input, status: Status): ClockEvent {
    if !Routed(input, status) then Untouched
    else StageEvent(path, input.obj, AfterWork(input.obj, status, input.sight).0, input.sight.service)
  }

  // ----- one pass -----

  /** Only well-formed references are collected. */
  lemma {:induction false} ReferenceIsValid(ports: seq<Port>)
    ensures var r := CollectRoutes(ports); r.Some? && r.value.reference != "" ==> ValidSecretName(r.value.reference)
  {
    if ports != [] {
      ReferenceIsValid(ports[..|ports| - 1]);
    }
  }

  lemma {:induction false} ReferenceIsNamed(ports: seq<Port>, reference: string)
    requires CollectRoutes(ports).Some? && reference != ""
    ensures CollectRoutes(ports).value.reference == reference <==> !Unused(SecretPath(reference), ports)
  {
    if ports != [] {
      var front, last := ports[..|ports| - 1], ports[|ports| - 1];
      ReferenceIsNamed(front, reference);
      UnusedStep(ports, reference);
      if last.exposed && PortSecretRef(last).Some? && CollectRoutes(front).value.reference != "" {
        assert CollectRoutes(front).value.reference == PortSecretRef(last).value;
      }
    }
  }

  lemma UnusedStep(ports: seq<Port>, reference: string)
    requires ports != []
    ensures var front, last := ports[..|ports| - 1], ports[|ports| - 1];
            Unused(SecretPath(reference), ports) <==>
            Unused(SecretPath(reference), front) && !(last.exposed && PortSecretRef(last) == Some(reference))
  {
    var front, last := ports[..|ports| - 1], ports[|ports| - 1];
    if !Unused(SecretPath(reference), front) {
      var i :| 0 <= i < |front| && front[i].exposed && PortSecretRef(front[i]) == Some(reference);
      assert ports[i] == front[i];
    }
    if !Unused(SecretPath(reference), ports) {
      var i :| 0 <= i < |ports| && ports[i].exposed && PortSecretRef(ports[i]) == Some(reference);
      assert i < |front| ==> front[i] == ports[i];
    }
  }

  /** In terms of the routes: what the stage itself looks at. */
  lemma UnusedByRoutes(path: Path, ports: seq<Port>)
    requires CollectRoutes(ports).Some? && path != SecretPath("")
    ensures var r := CollectRoutes(ports).value;
            Unused(path, ports) <==> if path.CertPath? then r.certHosts == [] else r.reference != path.reference
    ensures !HasExposedPort(ports) ==> Unused(path, ports)
  {
    if path.CertPath? {
      PathsInUse(ports);
    } else {
      ReferenceIsNamed(ports, path.reference);
    }
  }

  lemma PublishClocks(obj: Object, st: PassState, routes: PortRoutes, cert: TlsState, secret: TlsState,
                      sight: ServiceSight)
    ensures var s := Publish(obj, st, routes, cert, secret, sight).status;
            && s.certWaitingSince == CertClock(routes, st.status, sight, cert)
            && s.referencedTLS == SecretClock(routes, st.status, sight, secret)
  {
  }

  lemma StageTicks(path: Path, obj: Object, st: PassState, sight: ServiceSight)
    requires !ServiceStage(obj, st, sight).1.Error? && path != SecretPath("")
    ensures ClockOf(path, ServiceStage(obj, st, sight).0.status)
         == Tick(ClockOf(path, st.status), StageEvent(path, obj, st, sight))
  {
    if NeedsService(obj.spec.workloadType) {
      UnusedByRoutes(path, obj.spec.ports);
    }
    if Publishes(obj, st, sight) {
      var routes := CollectRoutes(obj.spec.ports).value;
      ReferenceIsValid(obj.spec.ports);
      PublishClocks(obj, st, routes, CertState(routes, st.status, sight).value,
                    SecretState(routes, st.status, sight).value, sight);
    }
  }

  /** A pass does to each clock exactly what its event says. */
  lemma PassTicks(path: Path, input: Input, status: Status)
    requires path != SecretPath("")
    ensures ClockOf(path, ReconcilePass(input.obj, status, input.sight).status)
         == Tick(ClockOf(path, status), PassClockEvent(path, input, status))
  {
    var out := ReconcilePass(input.obj, status, input.sight);
    ChainUnrolls(input.obj, status, input.sight);
    WorkDone(input.obj, status, input.sight);
    if out.persisted {
      SummaryMeaning(input.obj, out.state, input.sight.now);
      var (st3, r3) := AfterWork(input.obj, status, input.sight);
      if Passes(r3) {
        StageTicks(path, input.obj, st3, input.sight.service);
      }
    }
  }

  // ----- runs -----

  function Events(path: Path, passes: seq<Input>): (events: seq<ClockEvent>)
    ensures |events| == |passes|
  {
    if passes == [] then []
    else
      var front := passes[..|passes| - 1];
      Events(path, front) + [PassClockEvent(path, passes[|passes| - 1], StatusAfter(front))]
  }

  /** Over any run the persisted clock is the fold of the passes' events. */
  lemma {:induction false} ClockIsFold(path: Path, passes: seq<Input>)
    requires path != SecretPath("")
    ensures ClockOf(path, StatusAfter(passes)) == TickAll(None, Events(path, passes))
  {
    if passes != [] {
      var front, last := passes[..|passes| - 1], passes[|passes| - 1];
      ClockIsFold(path, front);
      PassTicks(path, last, StatusAfter(front));
      assert Events(path, passes)[..|passes| - 1] == Events(path, front);
    }
  }

  ghost predicate ClockNeverSteps(passes: seq<Input>) {
    forall i, j :: 0 <= i < j < |passes| ==> passes[i].sight.service.now <= passes[j].sight.service.now
  }

  lemma {:induction false} ClockStartsInThePast(path: Path, passes: seq<Input>, now: int)
    requires path != SecretPath("")
    requires forall i :: 0 <= i < |passes| ==> passes[i].sight.service.now <= now
    ensures var since := ClockOf(path, StatusAfter(passes)); since.Some? ==> since.value <= now
  {
    if passes != [] {
      var front, last := passes[..|passes| - 1], passes[|passes| - 1];
      ClockStartsInThePast(path, front, now);
      PassTicks(path, last, StatusAfter(front));
    }
  }

  function ClockEventAt(path: Path, passes: seq<Input>, k: nat): ClockEvent
    requires k < |passes|
  {
    PassClockEvent(path, passes[k], StatusAfter(passes[..k]))
  }

  lemma StepTicks(path: Path, passes: seq<Input>, k: nat)
    requires path != SecretPath("") && k < |passes|
    ensures ClockOf(path, StatusAfter(passes[..k + 1]))
         == Tick(ClockOf(path, StatusAfter(passes[..k])), ClockEventAt(path, passes, k))
  {
    assert passes[..k + 1][..k] == passes[..k];
    PassTicks(path, passes[k], StatusAfter(passes[..k]));
  }

  /** Pass k persists, reaches the service stage and gets through it. */
  predicate RoutesAt(passes: seq<Input>, k: nat)
    requires k < |passes|
  {
    Routed(passes[k], StatusAfter(passes[..k])) && NeedsService(passes[k].obj.spec.workloadType)
  }

  /** The path becomes ready or unused at pass k. */
  predicate SettlesAt(path: Path, passes: seq<Input>, k: nat)
    requires k < |passes|
  {
    RoutesAt(passes, k) && (Unused(path, passes[k].obj.spec.ports) || PathReady(path, passes[k].sight.service))
  }

  predicate LosesIssuerAt(path: Path, passes: seq<Input>, k: nat)
    requires k < |passes|
  {
    RoutesAt(passes, k) && IssuerLost(path, passes[k].sight.service)
  }

  predicate NeverSettles(path: Path, passes: seq<Input>, i: nat, j: nat)
    requires i <= j <= |passes|
  {
    forall k :: i <= k < j ==> !SettlesAt(path, passes, k)
  }

  predicate KeepsIssuer(path: Path, passes: seq<Input>, i: nat, j: nat)
    requires i <= j <= |passes|
  {
    forall k :: i <= k < j ==> !LosesIssuerAt(path, passes, k)
  }

  /** The clearing cases, spelled out: a pass that gets through the service stage and finds
      the path ready, unused, or without an issuer. */
  lemma ClearingCases(path: Path, passes: seq<Input>, k: nat)
    requires k < |passes|
    ensures ClockEventAt(path, passes, k).Cleared? <==> SettlesAt(path, passes, k) || LosesIssuerAt(path, passes, k)
  {
    ChainUnrolls(passes[k].obj, StatusAfter(passes[..k]), passes[k].sight);
  }

  lemma StepClock(path: Path, passes: seq<Input>, k: nat)
    requires path != SecretPath("") && k < |passes| && ClockOf(path, StatusAfter(passes[..k])).Some?
    ensures var clock, next := ClockOf(path, StatusAfter(passes[..k])), ClockOf(path, StatusAfter(passes[..k + 1]));
            next == if SettlesAt(path, passes, k) || LosesIssuerAt(path, passes, k) then None else clock
  {
    StepTicks(path, passes, k);
    ClearingCases(path, passes, k);
  }

  /** The persisted clock after each prefix of the run. */
  function Clocks(path: Path, passes: seq<Input>): (clocks: seq<Option<int>>)
    ensures |clocks| == |passes| + 1
    ensures forall k :: 0 <= k <= |passes| ==> clocks[k] == ClockOf(path, StatusAfter(passes[..k]))
  {
    seq(|passes| + 1, k requires 0 <= k <= |passes| => ClockOf(path, StatusAfter(passes[..k])))
  }

  ghost predicate FixedFrom(path: Path, passes: seq<Input>, i: nat, j: nat)
    requires i <= j <= |passes|
  {
    var clocks := Clocks(path, passes);
    forall k :: i <= k <= j ==> clocks[k] == clocks[i]
  }

  /** While the path is in use and not ready, WaitingSince stays fixed exactly as long as no
      pass fails to find the issuer. A Secret path has no issuer to lose. */
  lemma WaitingSinceIsFixed(path: Path, passes: seq<Input>, i: nat, j: nat)
    requires path != SecretPath("") && i <= j <= |passes| && NeverSettles(path, passes, i, j)
    requires ClockOf(path, StatusAfter(passes[..i])).Some?
    ensures FixedFrom(path, passes, i, j) <==> KeepsIssuer(path, passes, i, j)
  {
    var clocks := Clocks(path, passes);
    forall k | i <= k < j && clocks[k].Some?
      ensures clocks[k + 1] == if LosesIssuerAt(path, passes, k) then None else clocks[k]
    {
      StepClock(path, passes, k);
    }
    if KeepsIssuer(path, passes, i, j) {
      forall k | i <= k <= j ensures clocks[k] == clocks[i] {
        SteadyClock(clocks, i, k);
      }
    } else {
      var k :| i <= k < j && LosesIssuerAt(path, passes, k);
      assert clocks[k] == clocks[i] ==> clocks[k + 1] == None;
    }
  }

  predicate WaitsAt(path: Path, passes: seq<Input>, j: nat)
    requires j < |passes|
  {
    var obj, status, sight := passes[j].obj, StatusAfter(passes[..j]), passes[j].sight;
    var (st, r) := AfterWork(obj, status, sight);
    && Routed(passes[j], status)
    && Publishes(obj, st, sight.service)
    && PathState(path, obj, st, sight.service).Some?
    && PathState(path, obj, st, sight.service).value.stage.TlsWaiting?
  }

  lemma RoutesReadOldClocks(passes: seq<Input>, j: nat)
    requires j < |passes|
    ensures RoutesUntouched(StatusAfter(passes[..j]),
                            AfterWork(passes[j].obj, StatusAfter(passes[..j]), passes[j].sight).0.status)
  {
    WorkDone(passes[j].obj, StatusAfter(passes[..j]), passes[j].sight);
  }

  lemma StageWaits(path: Path, obj: Object, st: PassState, sight: ServiceSight)
    requires path != SecretPath("") && Publishes(obj, st, sight)
    requires PathState(path, obj, st, sight).Some?
    requires ClockOf(path, st.status).Some? ==> ClockOf(path, st.status).value <= sight.now
    ensures var tls := PathState(path, obj, st, sight).value;
            && (tls.stage.TlsWaiting? ==>
                  && 0 < tls.retryAfter <= TLS_GRACE
                  && (ClockOf(path, st.status).Some? ==> sight.now < ClockOf(path, st.status).value + TLS_GRACE))
            && (!tls.stage.TlsWaiting? ==> tls.retryAfter == 0)
  {
    var routes := CollectRoutes(obj.spec.ports).value;
    ReferenceIsValid(obj.spec.ports);
    if path.CertPath? && sight.Issuer().Some? {
      CertPathClock(sight.certificate.cert, st.status.certWaitingSince, sight.now);
    } else if path.SecretPath? && sight.secret.MirrorBlocked? {
      SecretPathClock(st.status.referencedTLS, path.reference, sight.now);
    }
  }

  /** No pass at or after WaitingSince plus the grace period is waiting. */
  lemma WaitingEndsOnTime(path: Path, passes: seq<Input>, i: nat, j: nat)
    requires path != SecretPath("") && ClockNeverSteps(passes)
    requires i <= j < |passes| && NeverSettles(path, passes, i, j) && KeepsIssuer(path, passes, i, j)
    requires ClockOf(path, StatusAfter(passes[..i])).Some? && WaitsAt(path, passes, j)
    ensures passes[j].sight.service.now < ClockOf(path, StatusAfter(passes[..i])).value + TLS_GRACE
  {
    WaitingSinceIsFixed(path, passes, i, j);
    assert Clocks(path, passes)[j] == Clocks(path, passes)[i];
    RoutesReadOldClocks(passes, j);
    ClockStartsInThePast(path, passes[..j], passes[j].sight.service.now);
    StageWaits(path, passes[j].obj, AfterWork(passes[j].obj, StatusAfter(passes[..j]), passes[j].sight).0,
               passes[j].sight.service);
  }

  lemma WaitingTicks(path: Path, passes: seq<Input>, i: nat)
    requires path != SecretPath("") && i < |passes| && WaitsAt(path, passes, i)
    ensures ClockOf(path, StatusAfter(passes[..i + 1]))
         == Tick(ClockOf(path, StatusAfter(passes[..i])), Blocked(passes[i].sight.service.now))
  {
    var st := AfterWork(passes[i].obj, StatusAfter(passes[..i]), passes[i].sight).0;
    StepTicks(path, passes, i);
    WaitingIsBlocked(path, passes[i].obj, st, passes[i].sight.service);
  }

  lemma WaitingIsBlocked(path: Path, obj: Object, st: PassState, sight: ServiceSight)
    requires path != SecretPath("") && Publishes(obj, st, sight)
    requires PathState(path, obj, st, sight).Some? && PathState(path, obj, st, sight).value.stage.TlsWaiting?
    ensures StageEvent(path, obj, st, sight) == Blocked(sight.now)
  {
    UnusedByRoutes(path, obj.spec.ports);
    ReferenceIsValid(obj.spec.ports);
  }

  lemma WaitingStartsTheClock(path: Path, passes: seq<Input>, i: nat)
    requires path != SecretPath("") && ClockNeverSteps(passes) && i < |passes| && WaitsAt(path, passes, i)
    ensures var since := ClockOf(path, StatusAfter(passes[..i + 1]));
            since.Some? && since.value <= passes[i].sight.service.now
  {
    WaitingTicks(path, passes, i);
    ClockStartsInThePast(path, passes[..i], passes[i].sight.service.now);
  }

  /** Two waiting passes of one path are less than the grace period apart, on both clocks,
      when no pass between them finds the path ready, unused or without an issuer. */
  lemma WaitingIsBounded(path: Path, passes: seq<Input>, i: nat, j: nat)
    requires path != SecretPath("") && ClockNeverSteps(passes)
    requires i < j < |passes| && NeverSettles(path, passes, i, j) && KeepsIssuer(path, passes, i, j)
    requires WaitsAt(path, passes, i) && WaitsAt(path, passes, j)
    ensures passes[j].sight.service.now < passes[i].sight.service.now + TLS_GRACE
  {
    WaitingStartsTheClock(path, passes, i);
    WaitingEndsOnTime(path, passes, i + 1, j);
  }

  /** Every waiting pass asks the whole chain to come back within the grace period. */
  lemma WaitingAsksForRetry(path: Path, passes: seq<Input>, j: nat)
    requires path != SecretPath("") && ClockNeverSteps(passes) && j < |passes| && WaitsAt(path, passes, j)
    ensures var r := PassAt(passes, j).result; r.After? && 0 < r.wait <= TLS_GRACE
  {
    var obj, status, sight := passes[j].obj, StatusAfter(passes[..j]), passes[j].sight;
    RoutesReadOldClocks(passes, j);
    var st := AfterWork(obj, status, sight).0;
    var reference := CollectRoutes(obj.spec.ports).value.reference;
    ClockStartsInThePast(CertPath, passes[..j], sight.service.now);
    if reference != "" {
      ClockStartsInThePast(SecretPath(reference), passes[..j], sight.service.now);
    }
    RetryIsBounded(path, obj, st, sight.service);
    DeferralIsTheResult(passes[j], status);
  }

  lemma DeferralIsTheResult(input: Input, status: Status)
    requires Routed(input, status)
    requires ServiceStage(input.obj, AfterWork(input.obj, status, input.sight).0, input.sight.service).1.Deferred?
    ensures ReconcilePass(input.obj, status, input.sight).result
         == After(ServiceStage(input.obj, AfterWork(input.obj, status, input.sight).0, input.sight.service).1.wait)
  {
    ChainUnrolls(input.obj, status, input.sight);
  }

  lemma RetryIsBounded(path: Path, obj: Object, st: PassState, sight: ServiceSight)
    requires path != SecretPath("") && Publishes(obj, st, sight)
    requires PathState(path, obj, st, sight).Some? && PathState(path, obj, st, sight).value.stage.TlsWaiting?
    requires ClockOf(CertPath, st.status).Some? ==> ClockOf(CertPath, st.status).value <= sight.now
    requires var p := SecretPath(CollectRoutes(obj.spec.ports).value.reference);
             p.reference != "" ==> ClockOf(p, st.status).Some? ==> ClockOf(p, st.status).value <= sight.now
    ensures var r := ServiceStage(obj, st, sight).1; r.Deferred? && 0 < r.wait <= TLS_GRACE
  {
    var p := SecretPath(CollectRoutes(obj.spec.ports).value.reference);
    if PathState(CertPath, obj, st, sight).Some? {
      StageWaits(CertPath, obj, st, sight);
    }
    if p.reference != "" {
      StageWaits(p, obj, st, sight);
    }
  }

  // ----- a lost issuer restarts the clock -----

  /** A serving workload whose certificate does not exist, at this time and with this answer
      to the issuer lookup. */
  function UnissuedSight(now: int, lookup: IssuerLookup): PassSight {
    var d := Deployment(1, 1, None, Replicas(1, 1, 1), 1, 0, [ClusterCondition("Available", Yes, "", 0)], "r");
    PassSight(now, AuthSight(true, SecretFound, true), BuildStageSight(now, true, CurrentMissing, true, true),
              WorkloadSight(now, 0, None, true, None, Applied(d), ApplyFailed, JobReadFailed, false, None, [],
                            PortSight(false, None, false, false)),
              ServiceSight(now, true, "issuer", lookup, CertRead(None), MirrorBlocked, Accepted, Accepted, true),
              true, true)
  }

  /** A service built from an image with one public TLS port and no referenced Secret. */
  predicate OneTlsService(obj: Object, p: Port) {
    && obj.spec == Spec(WorkloadType.Service, None, NoAuth, [], [p], None)
    && p.exposed && p.tls && !ValidSecretName(p.tlsSecretRef)
  }

  lemma OneTlsPort(p: Port)
    requires p.exposed && p.tls && !ValidSecretName(p.tlsSecretRef)
    ensures var r := CollectRoutes([p]); r.Some? && r.value.certHosts == [p.fqdn] && r.value.reference == ""
    ensures HasExposedPort([p]) && !Unused(CertPath, [p])
  {
    assert [p][..0] == [];
    assert CollectRoutes([p]) == AddRoute(PortRoutes(map[], map[], [], "", map[], []), p);
    assert [p][0].exposed && PublicTls([p][0]);
  }

  lemma ServingPassWorks(obj: Object, p: Port, status: Status, now: int, lookup: IssuerLookup)
    requires OneTlsService(obj, p)
    ensures var (st, r) := AfterWork(obj, status, UnissuedSight(now, lookup));
            r == Next && st.status.certWaitingSince == status.certWaitingSince
  {
    var sight := UnissuedSight(now, lookup);
    assert AfterBuild(obj, status, sight) == (PassState(status, NoVerdicts()), Next);
    assert sight.workload.deployment.workload.conditions[0].status.Yes?;
    GatedRuns(obj, PassState(status, NoVerdicts()), sight.workload);
    WorkDone(obj, status, sight);
  }

  lemma UnissuedPass(obj: Object, p: Port, passes: seq<Input>, k: nat, now: int, lookup: IssuerLookup)
    requires OneTlsService(obj, p) && k < |passes| && passes[k] == Input(obj, UnissuedSight(now, lookup))
    ensures RoutesAt(passes, k) && !SettlesAt(CertPath, passes, k)
    ensures LosesIssuerAt(CertPath, passes, k) <==> !lookup.IssuerExists?
    ensures lookup.IssuerExists? && StatusAfter(passes[..k]).certWaitingSince == None ==> WaitsAt(CertPath, passes, k)
  {
    var status := StatusAfter(passes[..k]);
    ServingPassWorks(obj, p, status, now, lookup);
    OneTlsPort(p);
    ChainUnrolls(obj, status, passes[k].sight);
  }

  lemma ClockAfterLoss(passes: seq<Input>, k: nat)
    requires k < |passes| && LosesIssuerAt(CertPath, passes, k)
    ensures StatusAfter(passes[..k + 1]).certWaitingSince == None
  {
    StepTicks(CertPath, passes, k);
    ClearingCases(CertPath, passes, k);
  }

  lemma NoClockAtFirst(passes: seq<Input>)
    ensures StatusAfter(passes[..0]).certWaitingSince == None
  {
    assert passes[..0] == [];
  }

  /** Wait at once, fail to look the issuer up a second later, and look again `later`. */
  predicate FlappingRun(obj: Object, later: int, passes: seq<Input>) {
    && |passes| == 3 && later >= 1
    && passes[0] == Input(obj, UnissuedSight(0, IssuerExists))
    && passes[1] == Input(obj, UnissuedSight(1, IssuerLookupFailed))
    && passes[2] == Input(obj, UnissuedSight(later, IssuerExists))
  }

  lemma FlappingFirst(obj: Object, p: Port, later: int, passes: seq<Input>)
    requires OneTlsService(obj, p) && FlappingRun(obj, later, passes)
    ensures WaitsAt(CertPath, passes, 0) && !SettlesAt(CertPath, passes, 0)
  {
    NoClockAtFirst(passes);
    UnissuedPass(obj, p, passes, 0, 0, IssuerExists);
  }

  lemma FlappingSecond(obj: Object, p: Port, later: int, passes: seq<Input>)
    requires OneTlsService(obj, p) && FlappingRun(obj, later, passes)
    ensures LosesIssuerAt(CertPath, passes, 1) && !SettlesAt(CertPath, passes, 1)
  {
    UnissuedPass(obj, p, passes, 1, 1, IssuerLookupFailed);
  }

  lemma FlappingThird(obj: Object, p: Port, later: int, passes: seq<Input>)
    requires OneTlsService(obj, p) && FlappingRun(obj, later, passes)
    ensures WaitsAt(CertPath, passes, 2) && !SettlesAt(CertPath, passes, 2)
  {
    FlappingSecond(obj, p, later, passes);
    ClockAfterLoss(passes, 1);
    UnissuedPass(obj, p, passes, 2, later, IssuerExists);
  }

  lemma FlappingClock(obj: Object, later: int, passes: seq<Input>)
    requires FlappingRun(obj, later, passes)
    ensures ClockNeverSteps(passes) && passes[2].sight.service.now - passes[0].sight.service.now == later
  {
  }

  lemma ThreeNeverSettle(path: Path, passes: seq<Input>)
    requires |passes| == 3
    requires !SettlesAt(path, passes, 0) && !SettlesAt(path, passes, 1) && !SettlesAt(path, passes, 2)
    ensures NeverSettles(path, passes, 0, 3)
  {
    NeverSettlesLonger(path, passes, 0, 0);
    NeverSettlesLonger(path, passes, 0, 1);
    NeverSettlesLonger(path, passes, 0, 2);
  }

  lemma NeverSettlesLonger(path: Path, passes: seq<Input>, i: nat, j: nat)
    requires i <= j < |passes| && NeverSettles(path, passes, i, j) && !SettlesAt(path, passes, j)
    ensures NeverSettles(path, passes, i, j + 1)
  {
  }

  lemma LossBreaks(path: Path, passes: seq<Input>, i: nat, j: nat, k: nat)
    requires i <= k < j <= |passes| && LosesIssuerAt(path, passes, k)
    ensures !KeepsIssuer(path, passes, i, j)
  {
  }

  /** Bounded waiting fails without the issuer: after one failed lookup the next pass waits
      again, any time later, although the path was in use and never ready in between. */
  lemma FailedLookupRestartsTheClock(obj: Object, p: Port, later: int, passes: seq<Input>)
    requires OneTlsService(obj, p) && FlappingRun(obj, later, passes)
    ensures ClockNeverSteps(passes) && NeverSettles(CertPath, passes, 0, 3)
    ensures WaitsAt(CertPath, passes, 0) && WaitsAt(CertPath, passes, 2) && !KeepsIssuer(CertPath, passes, 0, 3)
    ensures passes[2].sight.service.now - passes[0].sight.service.now == later
  {
    FlappingFirst(obj, p, later, passes);
    FlappingSecond(obj, p, later, passes);
    FlappingThird(obj, p, later, passes);
    FlappingClock(obj, later, passes);
    ThreeNeverSettle(CertPath, passes);
    LossBreaks(CertPath, passes, 0, 3, 1);
  }
}
