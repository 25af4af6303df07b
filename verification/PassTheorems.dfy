/** What one whole pass guarantees, whatever the cluster shows it. */
module PassTheorems {
  import opened Meta
  import opened Resource
  import opened Workload
  import opened Tls
  import opened Routes
  import opened Service
  import opened Housekeeping
  import opened Derive
  import opened Chain

  // ----- per stage -----

  ghost predicate WorkConditionsKept(a: Status, b: Status) {
    SameCondition(a, b, WorkloadAvailable) && SameCondition(a, b, WorkloadConverged) && a.portCheck == b.portCheck
  }

  lemma AuthFacts(obj: Object, st: PassState, sight: AuthSight)
    ensures var (st', r) := RegistryAuthStage(obj, st, sight);
            StageFacts(st, st', r) && WorkConditionsKept(st.status, st'.status)
  {
  }

  lemma BuildFacts(obj: Object, st: PassState, sight: BuildStageSight)
    ensures var (st', r) := ImageBuildStage(obj, st, sight);
            StageFacts(st, st', r) && WorkConditionsKept(st.status, st'.status)
  {
    FailedBuild(obj, st, sight.now);
    WaitingBuild(st);
  }

  lemma WaitingBuild(st: PassState)
    ensures var st' := ReportNotReady(st, "ImageBuildInProgress");
            StageFacts(st, st', Stop) && WorkConditionsKept(st.status, st'.status)
  {
  }

  lemma FailedBuild(obj: Object, st: PassState, now: int)
    ensures var st' := ReportFailed(Set(obj, st, BuildReady, false, "BuildFailed", now), "BuildFailed");
            StageFacts(st, st', Stop) && WorkConditionsKept(st.status, st'.status)
  {
    SetEvolves(obj, st, BuildReady, false, "BuildFailed", now);
  }

  ghost predicate Apart(a: PassState, b: PassState) {
    SummaryUntouched(a.status, b.status) && WorkConditionsKept(a.status, b.status)
  }

  lemma SettingARouteCondition(obj: Object, st: PassState, t: ConditionType, status: bool, reason: string, now: int)
    requires t == TLSConfigured || t == IngressReady
    ensures Apart(st, Set(obj, st, t, status, reason, now))
      && Set(obj, st, t, status, reason, now).verdicts == st.verdicts
  {
  }

  lemma SettingTls(obj: Object, st: PassState, cert: TlsState, secret: TlsState, now: int)
    ensures Apart(st, SetTlsConfigured(obj, st, cert, secret, now))
      && SetTlsConfigured(obj, st, cert, secret, now).verdicts == st.verdicts
  {
    SettingARouteCondition(obj, st, TLSConfigured, false, secret.reason, now);
    SettingARouteCondition(obj, st, TLSConfigured, false, cert.reason, now);
    SettingARouteCondition(obj, st, TLSConfigured, true, secret.reason, now);
    SettingARouteCondition(obj, st, TLSConfigured, true, cert.reason, now);
  }

  lemma PublishFacts(obj: Object, st: PassState, routes: PortRoutes, cert: TlsState, secret: TlsState,
                     sight: ServiceSight)
    ensures var st' := Publish(obj, st, routes, cert, secret, sight);
            Keeps(st.verdicts, st'.verdicts) && Apart(st, st')
  {
    var st1 := WithClocks(st, routes, cert, secret, sight);
    var st2 := SetTlsConfigured(obj, st1, cert, secret, sight.now);
    SettingTls(obj, st1, cert, secret, sight.now);
    var st3 := st2.(status := st2.status.(addresses :=
      PublicAddresses(obj.spec.ports, routes.all, cert.stage, secret.stage)));
    assert Apart(st, st3);
    SettingARouteCondition(obj, st3, IngressReady, true, "IngressConfigured", sight.now);
  }

  /** The last stage never stops a pass, and a retry it asks for is positive. */
  lemma RouteFacts(obj: Object, st: PassState, sight: ServiceSight)
    ensures var (st', r) := ServiceStage(obj, st, sight);
            && (r.Error? || r.Next? || (r.Deferred? && r.wait > 0))
            && Keeps(st.verdicts, st'.verdicts) && SummaryUntouched(st.status, st'.status)
            && WorkConditionsKept(st.status, st'.status)
  {
    var routes := CollectRoutes(obj.spec.ports);
    if routes.Some? && Publishes(obj, st, sight) {
      PublishFacts(obj, st, routes.value, CertState(routes.value, st.status, sight).value,
                   SecretState(routes.value, st.status, sight).value, sight);
    }
  }

  // ----- the whole chain -----

  /** State after the first two stages: nothing about the workload has changed. */
  lemma BeforeWork(obj: Object, status: Status, sight: PassSight)
    ensures var (st, r) := AfterBuild(obj, status, sight);
            && Evolves(PassState(status, NoVerdicts()), st)
            && WorkConditionsKept(status, st.status)
            && (Exits(r) ==> Reported(st.verdicts))
            && !r.Deferred?
  {
    var st0 := PassState(status, NoVerdicts());
    var (st1, r1) := AfterAuth(obj, status, sight);
    AuthFacts(obj, st0, sight.auth);
    BuildFacts(obj, st1, sight.build);
    EarlyStagesNeverDefer(obj, st0, sight);
    EarlyStagesNeverDefer(obj, st1, sight);
  }

  lemma WorkDone(obj: Object, status: Status, sight: PassSight)
    ensures var (st, r) := AfterWork(obj, status, sight);
            && Evolves(PassState(status, NoVerdicts()), st)
            && (Exits(r) ==> Reported(st.verdicts))
            && (ConvergedServes(status) ==> ConvergedServes(st.status))
            && (CondTrue(obj, st.status, WorkloadAvailable) ==>
                  CondTrue(obj, status, WorkloadAvailable)
                    || (Reached(obj, status, sight) && Gate(obj, sight.workload).Open?))
  {
    BeforeWork(obj, status, sight);
    var (st2, r2) := AfterBuild(obj, status, sight);
    if Passes(r2) {
      WorkloadStageFacts(obj, st2, sight.workload);
    }
  }

  lemma ChainDone(obj: Object, status: Status, sight: PassSight)
    ensures var (st3, r3) := AfterWork(obj, status, sight);
            var (st, r) := AfterRoute(obj, status, sight);
            && Keeps(st3.verdicts, st.verdicts)
            && SummaryUntouched(status, st.status)
            && WorkConditionsKept(st3.status, st.status)
            && (Exits(r3) ==> (st, r) == (st3, r3))
  {
    WorkDone(obj, status, sight);
    var (st3, r3) := AfterWork(obj, status, sight);
    if Passes(r3) {
      RouteFacts(obj, st3, sight.service);
    }
  }

  /** A pass that stops or requeues before the last stage has reported a verdict, so it
      never ends ready, degraded, converged or with a ready summary. And Available is only
      ever claimed when the workload stage asserted serving for this generation. */
  lemma EarlyExitsCarryVerdicts(obj: Object, status: Status, sight: PassSight)
    ensures var out := ReconcilePass(obj, status, sight);
            && (out.persisted && Exits(AfterWork(obj, status, sight).1) ==>
                  && Reported(out.state.verdicts)
                  && (out.status.phase == Failed || out.status.phase == Pending)
                  && !CondTrue(obj, out.status, Converged)
                  && out.status.summary.Some? && out.status.summary.value.state != SummaryReady)
            && (out.persisted && CondTrue(obj, out.status, Available) ==>
                  CondTrue(obj, out.status, WorkloadAvailable)
                  && (CondTrue(obj, status, WorkloadAvailable)
                    || (Reached(obj, status, sight) && Gate(obj, sight.workload).Open?)))
            && (!out.persisted ==> out.status == status)
  {
    var out := ReconcilePass(obj, status, sight);
    ChainUnrolls(obj, status, sight);
    WorkDone(obj, status, sight);
    ChainDone(obj, status, sight);
    if out.persisted {
      SummaryMeaning(obj, out.state, sight.now);
      DomainConditionsKept(obj, out.state.status, out.status, WorkloadAvailable);
    }
  }

  /** A requeue the workload stage needs is never lost: the chain fails, or comes back
      after a positive time. A later stage may only replace the time. */
  lemma RequeueSurvivesTheChain(obj: Object, status: Status, sight: PassSight)
    requires var r := AfterWork(obj, status, sight).1; (r.Deferred? || r.RequeueAfter?) && r.wait > 0
    ensures var out := ReconcilePass(obj, status, sight);
            out.result.ChainError? || (out.result.After? && out.result.wait > 0)
  {
    ChainUnrolls(obj, status, sight);
    var (st3, r3) := AfterWork(obj, status, sight);
    if Passes(r3) {
      RouteFacts(obj, st3, sight.service);
    }
  }

  // ----- persisted status -----

  /** What every status written by the derivation satisfies. A converged summary is ready,
      available and not stalled, over a converged and available workload, all for one and
      the same generation. */
  ghost predicate Coherent(s: Status) {
    && ConvergedServes(s)
    && (Converged in s.conditions && s.conditions[Converged].status ==>
          && s.phase == Ready
          && TrueAt(s.conditions, WorkloadConverged, s.conditions[Converged].generation)
          && TrueAt(s.conditions, WorkloadAvailable, s.conditions[Converged].generation)
          && TrueAt(s.conditions, Available, s.conditions[Converged].generation)
          && Holds(s.conditions, Stalled, false, s.conditions[Converged].generation))
  }

  lemma PassKeepsCoherent(obj: Object, status: Status, sight: PassSight)
    requires Coherent(status)
    ensures Coherent(ReconcilePass(obj, status, sight).status)
  {
    var out := ReconcilePass(obj, status, sight);
    ChainUnrolls(obj, status, sight);
    WorkDone(obj, status, sight);
    ChainDone(obj, status, sight);
    if out.persisted {
      SummaryMeaning(obj, out.state, sight.now);
      DomainConditionsKept(obj, out.state.status, out.status, WorkloadAvailable);
      DomainConditionsKept(obj, out.state.status, out.status, WorkloadConverged);
    }
  }

  /** A resource that reports Converged has published exactly one address for each public
      port, at that port's host. */
  lemma ConvergedServicePublishesAllPorts(obj: Object, status: Status, sight: PassSight)
    requires var out := ReconcilePass(obj, status, sight); out.persisted && CondTrue(obj, out.status, Converged)
    requires NeedsService(obj.spec.workloadType) && HasExposedPort(obj.spec.ports) && Distinct(obj.spec.ports)
    ensures OneAddressEach(obj.spec.ports, ReconcilePass(obj, status, sight).status.addresses)
  {
    var out := ReconcilePass(obj, status, sight);
    ChainUnrolls(obj, status, sight);
    WorkDone(obj, status, sight);
    ChainDone(obj, status, sight);
    SummaryMeaning(obj, out.state, sight.now);
    var (st3, r3) := AfterWork(obj, status, sight);
    assert Passes(r3);
    RouteFacts(obj, st3, sight.service);
    QuietServicePublishesAllPorts(obj, st3, sight.service);
  }
}
