/** Stored addresses against the Ingresses that the cluster holds, over runs of passes. */
module AddressRuns {
  import opened Meta
  import opened IngressDrift
  import opened Resource
  import opened Readiness
  import opened Workload
  import opened Routes
  import opened Service
  import opened Housekeeping
  import opened Derive
  import opened Chain
  import opened PassTheorems
  import opened PortRuns

  predicate Carries(ingress: Option<Ingress>, a: Address) {
    RoutesPort(ingress, a.port, a.host) && Terminates(ingress, a.host)
  }

  /** Some Ingress of the resource routes the address and terminates TLS for its host. */
  predicate Backed(a: Address, cluster: Ingresses) { Carries(cluster.standard, a) || Carries(cluster.referenced, a) }

  /** Every stored https address works. */
  ghost predicate HttpsBacked(status: Status, cluster: Ingresses) {
    forall a :: a in status.addresses && a.https ==> Backed(a, cluster)
  }

  function ClusterAfter(passes: seq<Input>, start: Ingresses): Ingresses {
    if passes == [] then start
    else
      var front, last := passes[..|passes| - 1], passes[|passes| - 1];
      PassIngresses(last.obj, StatusAfter(front), last.sight, ClusterAfter(front, start))
  }

  // ----- one pass -----

  lemma PublishedIsBacked(obj: Object, st: PassState, sight: ServiceSight, cluster: Ingresses, a: Address)
    requires Publishes(obj, st, sight) && Distinct(obj.spec.ports)
    requires a in ServiceStage(obj, st, sight).0.status.addresses && a.https
    ensures Backed(a, StageIngresses(obj, st, sight, cluster))
  {
    var ports, routes := obj.spec.ports, CollectRoutes(obj.spec.ports).value;
    var cert, secret := CertState(routes, st.status, sight).value, SecretState(routes, st.status, sight).value;
    assert a in PublicAddresses(ports, routes.all, cert.stage, secret.stage);
    AddressOf(ports, routes.all, cert.stage, secret.stage, a);
    GetPortFound(ports, a.port);
    var k :| 0 <= k < |ports| && ports[k] == GetPort(ports, a.port).value && ports[k].number == a.port;
    RouteOfPort(ports, k);
    HttpsOnlyBehindTlsBlock(obj, st, sight, cluster, k);
  }

  lemma StageKeepsBacked(obj: Object, st: PassState, sight: ServiceSight, cluster: Ingresses)
    requires Distinct(obj.spec.ports) && HttpsBacked(st.status, cluster) && !ServiceStage(obj, st, sight).1.Error?
    ensures HttpsBacked(ServiceStage(obj, st, sight).0.status, StageIngresses(obj, st, sight, cluster))
  {
    if Publishes(obj, st, sight) {
      forall a | a in ServiceStage(obj, st, sight).0.status.addresses && a.https
        ensures Backed(a, StageIngresses(obj, st, sight, cluster))
      {
        PublishedIsBacked(obj, st, sight, cluster, a);
      }
    }
  }

  // ----- what a stage leaves, in terms of what it reads -----

  predicate CertificateReady(sight: ServiceSight) {
    && sight.Issuer().Some? && sight.certificate.CertRead?
    && sight.certificate.cert.Some? && sight.certificate.cert.value.ready
  }

  /** The stage gets as far as writing the standard Ingress. */
  predicate ReachesStandard(obj: Object, sight: ServiceSight) {
    var routes := CollectRoutes(obj.spec.ports);
    && NeedsService(obj.spec.workloadType) && routes.Some? && sight.serviceWritten
    && (routes.value.certHosts != [] && sight.Issuer().Some? ==> sight.certificate.CertRead?)
  }

  predicate WritesStandard(obj: Object, sight: ServiceSight) {
    ReachesStandard(obj, sight) && !sight.standardWrite.Rejected?
  }

  /** The referenced Ingress is written only after the standard one, and after its Secret has
      been looked at. */
  predicate WritesReferenced(obj: Object, sight: ServiceSight) {
    && ReachesStandard(obj, sight) && sight.standardWrite.Accepted?
    && (CollectRoutes(obj.spec.ports).value.reference != "" ==> !sight.secret.MirrorFailed?)
    && !sight.referencedWrite.Rejected?
  }

  /** The address is one of these routes. */
  predicate RoutedBy(rules: map<int, string>, a: Address) { a.port in rules && rules[a.port] == a.host }

  predicate Foreign(ingress: Option<Ingress>) { ingress.Some? && !ingress.value.controlled }

  /** The standard Ingress the stage leaves serves the address: untouched, it did before; to be
      deleted, it is foreign and did before; written, the spec routes the address there and the
      certificate for its host is ready. */
  predicate StandardServes(obj: Object, sight: ServiceSight, cluster: Ingresses, a: Address) {
    if !WritesStandard(obj, sight) then Carries(cluster.standard, a)
    else
      var routes := CollectRoutes(obj.spec.ports).value;
      if routes.standard == map[] then Foreign(cluster.standard) && Carries(cluster.standard, a)
      else RoutedBy(routes.standard, a) && a.host in routes.certHosts && CertificateReady(sight)
  }

  predicate ReferencedServes(obj: Object, sight: ServiceSight, cluster: Ingresses, a: Address) {
    if !WritesReferenced(obj, sight) then Carries(cluster.referenced, a)
    else
      var routes := CollectRoutes(obj.spec.ports).value;
      if routes.referenced == map[] then Foreign(cluster.referenced) && Carries(cluster.referenced, a)
      else RoutedBy(routes.referenced, a) && a.host in routes.referencedHosts && sight.secret.MirrorReady?
  }

  predicate Serves(obj: Object, sight: ServiceSight, cluster: Ingresses, a: Address) {
    StandardServes(obj, sight, cluster, a) || ReferencedServes(obj, sight, cluster, a)
  }

  lemma StandardDesired(obj: Object, routes: PortRoutes, status: Status, sight: ServiceSight, a: Address)
    requires CertState(routes, status, sight).Some?
    ensures var desired := StandardIngress(obj, routes, CertState(routes, status, sight).value, sight.Issuer());
            && (desired.None? <==> routes.standard == map[])
            && (Carries(desired, a) <==>
                  RoutedBy(routes.standard, a) && a.host in routes.certHosts && CertificateReady(sight))
  {
    RedirectIsSet(obj.namespace);
    KeysDiffer();
  }

  lemma ReferencedDesired(obj: Object, routes: PortRoutes, status: Status, sight: ServiceSight, a: Address)
    requires CollectRoutes(obj.spec.ports) == Some(routes) && SecretState(routes, status, sight).Some?
    ensures var desired := ReferencedIngress(obj, routes, SecretState(routes, status, sight).value);
            && (desired.None? <==> routes.referenced == map[])
            && (Carries(desired, a) <==>
                  RoutedBy(routes.referenced, a) && a.host in routes.referencedHosts && sight.secret.MirrorReady?)
  {
    RoutesByPort(obj.spec.ports);
    RedirectIsSet(obj.namespace);
  }

  lemma AfterWriteCarries(desired: Option<Ingress>, existing: Option<Ingress>, write: Write, a: Address)
    ensures Carries(AfterWrite(desired, existing, write), a) <==>
              if write.Rejected? then Carries(existing, a)
              else if desired.None? then Foreign(existing) && Carries(existing, a)
              else Carries(desired, a)
  {
    if desired.Some? && !write.Rejected? {
      WrittenIngress(desired, existing, write, a.port, a.host);
    }
  }

  lemma NoExposedNoRoutes(ports: seq<Port>)
    requires CollectRoutes(ports).Some? && !HasExposedPort(ports)
    ensures var r := CollectRoutes(ports).value;
            r.standard == map[] && r.referenced == map[] && r.certHosts == [] && r.reference == ""
  {
    RoutesByPort(ports);
    PathsInUse(ports);
    assert forall n, b :: !Exposes(ports, n, b);
  }

  lemma StandardLeft(obj: Object, st: PassState, sight: ServiceSight, cluster: Ingresses, a: Address)
    ensures Carries(StageIngresses(obj, st, sight, cluster).standard, a) <==> StandardServes(obj, sight, cluster, a)
  {
    var routes := CollectRoutes(obj.spec.ports);
    if routes.Some? {
      if !HasExposedPort(obj.spec.ports) {
        NoExposedNoRoutes(obj.spec.ports);
        AfterWriteCarries(None, cluster.standard, sight.standardWrite, a);
      } else if CertState(routes.value, st.status, sight).Some? {
        var cert := CertState(routes.value, st.status, sight).value;
        StandardDesired(obj, routes.value, st.status, sight, a);
        AfterWriteCarries(StandardIngress(obj, routes.value, cert, sight.Issuer()), cluster.standard,
                          sight.standardWrite, a);
      }
    }
  }

  lemma ReferencedLeft(obj: Object, st: PassState, sight: ServiceSight, cluster: Ingresses, a: Address)
    ensures Carries(StageIngresses(obj, st, sight, cluster).referenced, a) <==>
              ReferencedServes(obj, sight, cluster, a)
  {
    var routes := CollectRoutes(obj.spec.ports);
    if routes.Some? {
      RoutesByPort(obj.spec.ports);
      if !HasExposedPort(obj.spec.ports) {
        NoExposedNoRoutes(obj.spec.ports);
        AfterWriteCarries(None, cluster.referenced, sight.referencedWrite, a);
      } else if SecretState(routes.value, st.status, sight).Some? {
        var secret := SecretState(routes.value, st.status, sight).value;
        ReferencedDesired(obj, routes.value, st.status, sight, a);
        AfterWriteCarries(ReferencedIngress(obj, routes.value, secret), cluster.referenced, sight.referencedWrite, a);
      }
    }
  }

  /** Which addresses the cluster serves after a stage, complete or not, follows from the spec,
      what the stage reads, how its writes end, and the Ingresses before it. */
  lemma StageServes(obj: Object, st: PassState, sight: ServiceSight, cluster: Ingresses, a: Address)
    ensures Backed(a, StageIngresses(obj, st, sight, cluster)) <==> Serves(obj, sight, cluster, a)
  {
    StandardLeft(obj, st, sight, cluster, a);
    ReferencedLeft(obj, st, sight, cluster, a);
  }

  // ----- runs -----

  /** The pass is stored, ends before the service stage, or leaves every stored https address
      served. */
  ghost predicate Harmless(input: Input, status: Status, cluster: Ingresses) {
    || ReconcilePass(input.obj, status, input.sight).persisted
    || !Passes(AfterWork(input.obj, status, input.sight).1)
    || forall a :: a in status.addresses && a.https ==> Serves(input.obj, input.sight.service, cluster, a)
  }

  lemma StoredPassBacks(input: Input, status: Status, cluster: Ingresses)
    requires Distinct(input.obj.spec.ports) && HttpsBacked(status, cluster)
    requires ReconcilePass(input.obj, status, input.sight).persisted
    ensures HttpsBacked(ReconcilePass(input.obj, status, input.sight).status,
                        PassIngresses(input.obj, status, input.sight, cluster))
  {
    var obj, sight := input.obj, input.sight;
    var out := ReconcilePass(obj, status, sight);
    ChainUnrolls(obj, status, sight);
    IngressesUnroll(obj, status, sight, cluster);
    WorkDone(obj, status, sight);
    var (st, r) := AfterWork(obj, status, sight);
    if Passes(r) {
      StageKeepsBacked(obj, st, sight.service, cluster);
    }
    SummaryMeaning(obj, out.state, sight.now);
  }

  lemma LostPassBacks(input: Input, status: Status, cluster: Ingresses)
    requires HttpsBacked(status, cluster) && !ReconcilePass(input.obj, status, input.sight).persisted
    ensures HttpsBacked(status, PassIngresses(input.obj, status, input.sight, cluster)) <==>
              Harmless(input, status, cluster)
  {
    var (st, r) := AfterWork(input.obj, status, input.sight);
    IngressesUnroll(input.obj, status, input.sight, cluster);
    if Passes(r) {
      forall a ensures Backed(a, StageIngresses(input.obj, st, input.sight.service, cluster)) <==>
                       Serves(input.obj, input.sight.service, cluster, a)
      {
        StageServes(input.obj, st, input.sight.service, cluster, a);
      }
    }
  }

  /** One pass keeps all stored https addresses working exactly when it is harmless. */
  lemma PassKeepsBackedIff(input: Input, status: Status, cluster: Ingresses)
    requires Distinct(input.obj.spec.ports) && HttpsBacked(status, cluster)
    ensures Harmless(input, status, cluster) <==>
              HttpsBacked(ReconcilePass(input.obj, status, input.sight).status,
                          PassIngresses(input.obj, status, input.sight, cluster))
  {
    if ReconcilePass(input.obj, status, input.sight).persisted {
      StoredPassBacks(input, status, cluster);
    } else {
      LostPassBacks(input, status, cluster);
    }
  }

  ghost predicate BackedAt(passes: seq<Input>, start: Ingresses, k: nat)
    requires k <= |passes|
  {
    HttpsBacked(StatusAfter(passes[..k]), ClusterAfter(passes[..k], start))
  }

  ghost predicate HarmlessAt(passes: seq<Input>, start: Ingresses, k: nat)
    requires k < |passes|
  {
    Harmless(passes[k], StatusAfter(passes[..k]), ClusterAfter(passes[..k], start))
  }

  lemma BackedStep(passes: seq<Input>, start: Ingresses, k: nat)
    requires k < |passes| && Distinct(passes[k].obj.spec.ports) && BackedAt(passes, start, k)
    ensures BackedAt(passes, start, k + 1) <==> HarmlessAt(passes, start, k)
  {
    assert passes[..k + 1][..k] == passes[..k];
    PassKeepsBackedIff(passes[k], StatusAfter(passes[..k]), ClusterAfter(passes[..k], start));
  }

  lemma BackedAtFirst(passes: seq<Input>, start: Ingresses)
    ensures BackedAt(passes, start, 0)
  {
    assert passes[..0] == [];
  }

  lemma {:induction false} HarmlessKeepsBacked(passes: seq<Input>, start: Ingresses, j: nat)
    requires j <= |passes| && forall k :: 0 <= k < |passes| ==> Distinct(passes[k].obj.spec.ports)
    requires forall k :: 0 <= k < j ==> HarmlessAt(passes, start, k)
    ensures BackedAt(passes, start, j)
    decreases j
  {
    if j == 0 {
      BackedAtFirst(passes, start);
    } else {
      HarmlessKeepsBacked(passes, start, j - 1);
      BackedStep(passes, start, j - 1);
    }
  }

  /** Over any run of uniquely numbered ports, from any Ingresses: every stored https address
      is routed and terminated by an Ingress in the cluster at all times, if and only if each
      pass is stored, ends before the service stage, or leaves every stored https address
      served. */
  lemma StoredHttpsAddressesWork(passes: seq<Input>, start: Ingresses)
    requires forall k :: 0 <= k < |passes| ==> Distinct(passes[k].obj.spec.ports)
    ensures (forall k :: 0 <= k <= |passes| ==> BackedAt(passes, start, k)) <==>
            (forall k :: 0 <= k < |passes| ==> HarmlessAt(passes, start, k))
  {
    if forall k :: 0 <= k <= |passes| ==> BackedAt(passes, start, k) {
      forall k | 0 <= k < |passes| ensures HarmlessAt(passes, start, k) {
        assert BackedAt(passes, start, k) && BackedAt(passes, start, k + 1);
        BackedStep(passes, start, k);
      }
    }
    if forall k :: 0 <= k < |passes| ==> HarmlessAt(passes, start, k) {
      forall k | 0 <= k <= |passes| ensures BackedAt(passes, start, k) {
        HarmlessKeepsBacked(passes, start, k);
      }
    }
  }

  // ----- a lost status write -----

  /** A serving workload with a referenced Secret in this state. */
  function SecretSight(now: int, mirror: SecretMirror, written: bool): PassSight {
    var d := Deployment(1, 1, None, Replicas(1, 1, 1), 1, 0, [ClusterCondition("Available", Yes, "", 0)], "r");
    PassSight(now, AuthSight(true, SecretFound, true), BuildStageSight(now, true, CurrentMissing, true, true),
              WorkloadSight(now, 0, None, true, None, Applied(d), ApplyFailed, JobReadFailed, false, None, [],
                            PortSight(false, None, false, false)),
              ServiceSight(now, true, "", IssuerNotFound, CertRead(None), mirror, Accepted, Accepted, true),
              true, written)
  }

  predicate OneSecretService(obj: Object, p: Port) {
    && obj.spec == Spec(WorkloadType.Service, None, NoAuth, [], [p], None)
    && p.exposed && p.tls && ValidSecretName(p.tlsSecretRef)
  }

  lemma OneSecretPort(p: Port)
    requires p.exposed && p.tls && ValidSecretName(p.tlsSecretRef)
    ensures var r := CollectRoutes([p]);
            && r.Some? && r.value.standard == map[] && r.value.certHosts == [] && r.value.reference == p.tlsSecretRef
            && p.number in r.value.referenced
    ensures HasExposedPort([p]) && Distinct([p])
  {
    assert [p][..0] == [];
    assert CollectRoutes([p]) == AddRoute(PortRoutes(map[], map[], [], "", map[], []), p);
    assert [p][0].exposed;
  }

  lemma SecretPassWorks(obj: Object, p: Port, status: Status, now: int, mirror: SecretMirror, written: bool)
    requires OneSecretService(obj, p)
    ensures var (st, r) := AfterWork(obj, status, SecretSight(now, mirror, written));
            r == Next && RoutesUntouched(status, st.status)
  {
    var sight := SecretSight(now, mirror, written);
    assert AfterBuild(obj, status, sight) == (PassState(status, NoVerdicts()), Next);
    assert sight.workload.deployment.workload.conditions[0].status.Yes?;
    GatedRuns(obj, PassState(status, NoVerdicts()), sight.workload);
    WorkDone(obj, status, sight);
  }

  lemma ReadyPassPublishes(obj: Object, p: Port, status: Status)
    requires OneSecretService(obj, p)
    ensures var out := ReconcilePass(obj, status, SecretSight(0, MirrorReady, true));
            out.persisted && Address(p.number, true, p.fqdn) in out.status.addresses
  {
    var sight := SecretSight(0, MirrorReady, true);
    SecretPassWorks(obj, p, status, 0, MirrorReady, true);
    OneSecretPort(p);
    var st := AfterWork(obj, status, sight).0;
    assert Publishes(obj, st, sight.service);
    AddressMatchesTls(obj, st, sight.service, 0, true);
    ChainUnrolls(obj, status, sight);
    SummaryMeaning(obj, ReconcilePass(obj, status, sight).state, sight.now);
  }

  lemma ReadyPassIngresses(obj: Object, p: Port, status: Status)
    requires OneSecretService(obj, p)
    ensures PassIngresses(obj, status, SecretSight(0, MirrorReady, true), Ingresses(None, None)).standard == None
  {
    SecretPassWorks(obj, p, status, 0, MirrorReady, true);
    OneSecretPort(p);
    IngressesUnroll(obj, status, SecretSight(0, MirrorReady, true), Ingresses(None, None));
  }

  /** The Secret disappears, the pass takes the TLS block off the Ingress, and the address it
      would have withdrawn stays stored because the status write is lost. */
  lemma LostWriteLeavesDeadAddress(obj: Object, p: Port, status: Status, cluster: Ingresses)
    requires OneSecretService(obj, p) && Address(p.number, true, p.fqdn) in status.addresses
    requires !Carries(cluster.standard, Address(p.number, true, p.fqdn))
    ensures var sight := SecretSight(1, MirrorBlocked, false);
            && ReconcilePass(obj, status, sight).status == status
            && !Backed(Address(p.number, true, p.fqdn), PassIngresses(obj, status, sight, cluster))
            && !HttpsBacked(status, PassIngresses(obj, status, sight, cluster))
  {
    var sight, a := SecretSight(1, MirrorBlocked, false), Address(p.number, true, p.fqdn);
    SecretPassWorks(obj, p, status, 1, MirrorBlocked, false);
    OneSecretPort(p);
    IngressesUnroll(obj, status, sight, cluster);
    StageServes(obj, AfterWork(obj, status, sight).0, sight.service, cluster, a);
  }

  lemma OnePassCluster(input: Input, start: Ingresses)
    ensures StatusAfter([input]) == ReconcilePass(input.obj, InitialStatus(), input.sight).status
    ensures ClusterAfter([input], start) == PassIngresses(input.obj, InitialStatus(), input.sight, start)
  {
    assert [input][..0] == [];
  }

  lemma TwoPassCluster(a: Input, b: Input, start: Ingresses)
    ensures StatusAfter([a, b]) == ReconcilePass(b.obj, StatusAfter([a]), b.sight).status
    ensures ClusterAfter([a, b], start) == PassIngresses(b.obj, StatusAfter([a]), b.sight, ClusterAfter([a], start))
  {
    assert [a, b][..1] == [a];
  }

  /** A run from nothing to a dead address: the first pass publishes https behind a mirrored
      Secret, the second finds the Secret gone and loses its status write. */
  lemma SomeRunStoresDeadAddress(obj: Object, p: Port, first: Input, second: Input)
    requires OneSecretService(obj, p)
    requires first == Input(obj, SecretSight(0, MirrorReady, true))
    requires second == Input(obj, SecretSight(1, MirrorBlocked, false))
    ensures var none := Ingresses(None, None);
            && HttpsBacked(StatusAfter([first]), ClusterAfter([first], none))
            && Address(p.number, true, p.fqdn) in StatusAfter([first, second]).addresses
            && !Backed(Address(p.number, true, p.fqdn), ClusterAfter([first, second], none))
  {
    var none := Ingresses(None, None);
    OneSecretPort(p);
    OnePassCluster(first, none);
    TwoPassCluster(first, second, none);
    ReadyPassPublishes(obj, p, InitialStatus());
    ReadyPassIngresses(obj, p, InitialStatus());
    StoredPassBacks(first, InitialStatus(), none);
    LostWriteLeavesDeadAddress(obj, p, StatusAfter([first]), ClusterAfter([first], none));
  }
}
