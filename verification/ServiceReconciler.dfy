/** The service stage as it updates the fetched object step by step. */
module ServiceReconciler {
  import opened Meta
  import opened IngressDrift
  import opened Resource
  import opened Tls
  import opened Routes
  import opened Service

  /** The two Ingresses of one resource, as the API server stores them. */
  class IngressStore {
    var standard: Option<Ingress>
    var referenced: Option<Ingress>

    constructor (cluster: Ingresses)
      ensures View() == cluster
    {
      standard, referenced := cluster.standard, cluster.referenced;
    }

    ghost function View(): Ingresses
      reads this
    {
      Ingresses(standard, referenced)
    }
  }

  // ----- clocks -----

  method UpdateCertManagerTLSStatus(r: StackResource, stage: TlsStage, now: int)
    modifies r
    ensures r.status == old(r.status).(certWaitingSince := UpdateCertClock(old(r.status.certWaitingSince), stage, now))
  {
    if stage.TlsNone? || stage.TlsReady? {
      r.status := r.status.(certWaitingSince := None);
      return;
    }
    if r.status.certWaitingSince.Some? {
      return;
    }
    r.status := r.status.(certWaitingSince := Some(now));
  }

  method UpdateReferencedTLSSecretStatus(r: StackResource, reference: string, stage: TlsStage, now: int)
    modifies r
    ensures r.status == old(r.status).(referencedTLS :=
                        UpdateSecretClock(old(r.status.referencedTLS), reference, stage, now))
  {
    var tracking := ReferencedTLS(reference, None);
    if !stage.TlsReady? {
      var existing := r.status.referencedTLS;
      if existing.Some? && existing.value.reference == reference && existing.value.waitingSince.Some? {
        tracking := tracking.(waitingSince := existing.value.waitingSince);
      } else {
        tracking := tracking.(waitingSince := Some(now));
      }
    }
    r.status := r.status.(referencedTLS := Some(tracking));
  }

  /** Stage and clock of the certificate path. */
  method CertManagerTLS(r: StackResource, routes: PortRoutes, sight: ServiceSight) returns (tls: Option<TlsState>)
    modifies r
    ensures tls == old(CertState(routes, r.status, sight))
    ensures tls.None? ==> r.status == old(r.status)
    ensures tls.Some? ==> r.status == old(r.status).(certWaitingSince :=
                            old(CertClock(routes, r.status, sight, if tls.Some? then tls.value else NoTls())))
  {
    if |routes.certHosts| == 0 {
      UpdateCertManagerTLSStatus(r, TlsNone, sight.now);
      return Some(NoTls());
    }
    if sight.Issuer().None? {
      UpdateCertManagerTLSStatus(r, TlsNone, sight.now);
      return Some(TlsState(TlsUnavailable, sight.IssuerReason(), 0));
    }
    if sight.certificate.CertReadFailed? {
      return None;
    }
    var state := ClassifyCertificate(sight.certificate.cert, r.status.certWaitingSince, sight.now);
    UpdateCertManagerTLSStatus(r, state.stage, sight.now);
    return Some(state);
  }

  /** Classifies the certificate path, then writes the standard Ingress. */
  method ReconcileCertManagerIngress(r: StackResource, store: IngressStore, routes: PortRoutes, sight: ServiceSight)
    returns (tls: Option<TlsState>, ok: bool)
    modifies r, store
    ensures tls == old(CertState(routes, r.status, sight))
    ensures tls.None? ==> r.status == old(r.status)
    ensures tls.Some? ==> r.status == old(r.status).(certWaitingSince :=
                            old(CertClock(routes, r.status, sight, if tls.Some? then tls.value else NoTls())))
    ensures ok == (tls.Some? && sight.standardWrite.Accepted?)
    ensures store.referenced == old(store.referenced)
    ensures store.standard == if tls.None? then old(store.standard)
                              else AfterWrite(StandardIngress(r.obj, routes, tls.value, sight.Issuer()),
                                              old(store.standard), sight.standardWrite)
  {
    tls := CertManagerTLS(r, routes, sight);
    if tls.None? {
      return tls, false;
    }
    var desired := StandardIngress(r.obj, routes, tls.value, sight.Issuer());
    store.standard, ok := ReconcileIngressCR(desired, store.standard, sight.standardWrite);
  }

  method ReconcileReferencedTLSSecret(r: StackResource, routes: PortRoutes, sight: ServiceSight)
    returns (tls: Option<TlsState>)
    modifies r
    ensures tls == old(SecretState(routes, r.status, sight))
    ensures tls.None? ==> r.status == old(r.status)
    ensures tls.Some? ==> r.status == old(r.status).(referencedTLS :=
                            old(SecretClock(routes, r.status, sight, if tls.Some? then tls.value else NoTls())))
  {
    if routes.reference == "" {
      r.status := r.status.(referencedTLS := None);
      return Some(NoTls());
    }
    if !ValidSecretName(routes.reference) {
      return Some(TlsState(TlsUnavailable, SECRET_UNAVAILABLE, 0));
    }
    if sight.secret.MirrorFailed? {
      return None;
    }
    var state := if sight.secret.MirrorReady? then TlsState(TlsReady, TLS_READY, 0)
                 else ReferencedWhileBlocked(r.status.referencedTLS, routes.reference, sight.now);
    UpdateReferencedTLSSecretStatus(r, routes.reference, state.stage, sight.now);
    return Some(state);
  }

  /** Mirrors the Secret, then writes the Ingress of its ports. */
  method ReconcileReferencedTLSIngress(r: StackResource, store: IngressStore, routes: PortRoutes, sight: ServiceSight)
    returns (tls: Option<TlsState>, ok: bool)
    modifies r, store
    ensures tls == old(SecretState(routes, r.status, sight))
    ensures tls.None? ==> r.status == old(r.status)
    ensures tls.Some? ==> r.status == old(r.status).(referencedTLS :=
                            old(SecretClock(routes, r.status, sight, if tls.Some? then tls.value else NoTls())))
    ensures ok == (tls.Some? && sight.referencedWrite.Accepted?)
    ensures store.standard == old(store.standard)
    ensures store.referenced == if tls.None? then old(store.referenced)
                                else AfterWrite(ReferencedIngress(r.obj, routes, tls.value), old(store.referenced),
                                                sight.referencedWrite)
  {
    tls := ReconcileReferencedTLSSecret(r, routes, sight);
    if tls.None? {
      return tls, false;
    }
    var desired := ReferencedIngress(r.obj, routes, tls.value);
    store.referenced, ok := ReconcileIngressCR(desired, store.referenced, sight.referencedWrite);
  }

  // ----- conditions, addresses, retry -----

  method SetTLSConfigured(r: StackResource, c: VerdictCollector, cert: TlsState, secret: TlsState, now: int)
    modifies r
    ensures View(r, c) == old(SetTlsConfigured(r.obj, View(r, c), cert, secret, now))
  {
    if Lacking(secret) {
      r.SetCondition(TLSConfigured, false, secret.reason, now);
    } else if Lacking(cert) {
      r.SetCondition(TLSConfigured, false, cert.reason, now);
    } else if cert.stage.TlsReady? {
      r.SetCondition(TLSConfigured, true, cert.reason, now);
    } else if secret.stage.TlsReady? {
      r.SetCondition(TLSConfigured, true, secret.reason, now);
    }
  }

  /** Visits the routed ports in any order. */
  method BuildExternalAddresses(ports: seq<Port>, hosts: map<int, string>, cert: TlsStage, secret: TlsStage)
    returns (addresses: set<Address>)
    ensures addresses == PublicAddresses(ports, hosts, cert, secret)
  {
    addresses := {};
    var left := hosts.Items;
    while left != {}
      invariant left <= hosts.Items
      invariant forall a :: a in addresses <==> Visited(ports, hosts, left, cert, secret, a)
      decreases left
    {
      var route :| route in left;
      var address := PublicAddress(ports, route.0, route.1, cert, secret);
      if address.Some? {
        addresses := addresses + {address.value};
      }
      assert forall a :: Visited(ports, hosts, left - {route}, cert, secret, a) <==>
                           Visited(ports, hosts, left, cert, secret, a) || address == Some(a);
      left := left - {route};
    }
    forall a ensures a in addresses <==> a in PublicAddresses(ports, hosts, cert, secret) {
      AddressOf(ports, hosts, cert, secret, a);
    }
  }

  /** The address belongs to a route that the loop has passed. */
  ghost predicate Visited(ports: seq<Port>, hosts: map<int, string>, left: set<(int, string)>, cert: TlsStage,
                          secret: TlsStage, a: Address) {
    && a.port in hosts && (a.port, hosts[a.port]) !in left
    && PublicAddress(ports, a.port, hosts[a.port], cert, secret) == Some(a)
  }

  /** The least positive wait among any number of TLS states, 0 when there is none. */
  method FindEarliestRetry(states: seq<TlsState>) returns (earliest: int)
    ensures earliest == 0 ==> forall i :: 0 <= i < |states| ==> states[i].retryAfter <= 0
    ensures earliest != 0 ==> exists i :: 0 <= i < |states| && states[i].retryAfter == earliest
    ensures earliest >= 0
    ensures earliest != 0 ==>
              forall i :: 0 <= i < |states| && states[i].retryAfter > 0 ==> earliest <= states[i].retryAfter
  {
    earliest := 0;
    for i := 0 to |states|
      invariant earliest == 0 ==> forall j :: 0 <= j < i ==> states[j].retryAfter <= 0
      invariant earliest != 0 ==> exists j :: 0 <= j < i && states[j].retryAfter == earliest
      invariant earliest >= 0
      invariant earliest != 0 ==>
                  forall j :: 0 <= j < i && states[j].retryAfter > 0 ==> earliest <= states[j].retryAfter
    {
      if states[i].retryAfter > 0 && (earliest == 0 || states[i].retryAfter < earliest) {
        earliest := states[i].retryAfter;
      }
    }
  }

  /** Deletes both Ingresses, and on success forgets everything about them. */
  method CleanUpIngress(r: StackResource, c: VerdictCollector, store: IngressStore, sight: ServiceSight)
    returns (ok: bool)
    modifies r, store
    ensures ok == sight.IngressesWritten()
    ensures View(r, c) == if ok then old(CleanUp(View(r, c))) else old(View(r, c))
    ensures store.View() == WriteBoth(old(store.View()), None, Some(None), sight)
  {
    store.standard, ok := ReconcileIngressCR<RouteSpec>(None, store.standard, sight.standardWrite);
    if !ok {
      return;
    }
    store.referenced, ok := ReconcileIngressCR<RouteSpec>(None, store.referenced, sight.referencedWrite);
    if !ok {
      return;
    }
    r.status := r.status.(referencedTLS := None, certWaitingSince := None);
    r.status := r.status.(conditions := r.status.conditions - {TLSConfigured});
    r.status := r.status.(conditions := r.status.conditions - {IngressReady});
    r.status := r.status.(addresses := {});
    assert old(r.status.conditions) - {TLSConfigured} - {IngressReady}
        == old(r.status.conditions) - {TLSConfigured, IngressReady};
  }

  /** Publishes the addresses and reports the paths that still wait. */
  method PublishRoutes(r: StackResource, c: VerdictCollector, routes: PortRoutes, cert: TlsState, secret: TlsState,
                       sight: ServiceSight)
    returns (res: StageResult)
    modifies r, c
    ensures View(r, c) == old(PublishAfterClocks(r.obj, View(r, c), routes, cert, secret, sight))
    ensures res == if EarliestRetry(cert, secret) > 0 then Deferred(EarliestRetry(cert, secret)) else Next
  {
    SetTLSConfigured(r, c, cert, secret, sight.now);
    var addresses := BuildExternalAddresses(r.obj.spec.ports, routes.all, cert.stage, secret.stage);
    r.status := r.status.(addresses := addresses);
    r.SetCondition(IngressReady, true, "IngressConfigured", sight.now);
    if cert.stage.TlsWaiting? {
      c.ReportNotReady(cert.reason);
    }
    if secret.stage.TlsWaiting? {
      c.ReportNotReady(secret.reason);
    }
    var retry := FindEarliestRetry([cert, secret]);
    assert [cert, secret][0].retryAfter == cert.retryAfter && [cert, secret][1].retryAfter == secret.retryAfter;
    if retry > 0 {
      return Deferred(retry);
    }
    return Next;
  }

  /** Leaves exactly the specified object and Ingresses, also when it fails half-way. */
  method ReconcileService(r: StackResource, c: VerdictCollector, store: IngressStore, sight: ServiceSight)
    returns (res: StageResult)
    modifies r, c, store
    ensures (View(r, c), res) == old(ServiceStage(r.obj, View(r, c), sight))
    ensures store.View() == old(StageIngresses(r.obj, View(r, c), sight, store.View()))
  {
    if !NeedsService(r.obj.spec.workloadType) {
      return Next;
    }
    var routes := CollectExposedPortRoutes(r.obj.spec.ports);
    if routes.None? || !sight.serviceWritten {
      return Error;
    }
    if !HasExposedPort(r.obj.spec.ports) {
      var cleaned := CleanUpIngress(r, c, store, sight);
      return if cleaned then Next else Error;
    }
    res := ReconcileIngress(r, c, store, routes.value, sight);
  }

  method ReconcileIngress(r: StackResource, c: VerdictCollector, store: IngressStore, routes: PortRoutes,
                          sight: ServiceSight)
    returns (res: StageResult)
    modifies r, c, store
    ensures (View(r, c), res) == old(RouteAll(r.obj, View(r, c), routes, sight))
    ensures store.View() == old(WrittenIngresses(r.obj, routes, r.status, sight, store.View()))
  {
    var cert, ok := ReconcileCertManagerIngress(r, store, routes, sight);
    if !ok {
      return Error;
    }
    res := ReconcileSecondIngress(r, c, store, routes, cert.value, sight);
  }

  /** The second path and the rest, once the standard Ingress is written. */
  method ReconcileSecondIngress(r: StackResource, c: VerdictCollector, store: IngressStore, routes: PortRoutes,
                                cert: TlsState, sight: ServiceSight)
    returns (res: StageResult)
    modifies r, c, store
    ensures (View(r, c), res) == old(RouteRest(r.obj, View(r, c), routes, cert, sight))
    ensures store.standard == old(store.standard)
    ensures store.referenced == old(ReferencedAfter(r.obj, routes, r.status, sight, store.referenced))
  {
    var secret, ok := ReconcileReferencedTLSIngress(r, store, routes, sight);
    if !ok {
      return Error;
    }
    if (cert.stage.TlsReady? || secret.value.stage.TlsReady?) && !sight.middlewareWritten {
      return Error;
    }
    res := PublishRoutes(r, c, routes, cert, secret.value, sight);
  }

  /** What follows the certificate path, on an object whose certificate clock is up to date. */
  ghost function RouteRest(obj: Object, st: PassState, routes: PortRoutes, cert: TlsState, sight: ServiceSight)
    : (PassState, StageResult)
  {
    var secret := SecretState(routes, st.status, sight);
    if secret.None? then (st, Error)
    else
      var st1 := st.(status := st.status.(referencedTLS := SecretClock(routes, st.status, sight, secret.value)));
      if !sight.referencedWrite.Accepted? || !MiddlewareReady(cert, secret.value, sight) then (st1, Error)
      else
        (PublishAfterClocks(obj, st1, routes, cert, secret.value, sight),
         var retry := EarliestRetry(cert, secret.value);
         if retry > 0 then Deferred(retry) else Next)
  }

  ghost function ReferencedAfter(obj: Object, routes: PortRoutes, status: Status, sight: ServiceSight,
                                 existing: Option<Ingress>): Option<Ingress>
  {
    var secret := SecretState(routes, status, sight);
    if secret.None? then existing
    else AfterWrite(ReferencedIngress(obj, routes, secret.value), existing, sight.referencedWrite)
  }
}
