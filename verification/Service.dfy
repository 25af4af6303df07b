/** The service stage: Ingress objects, TLS stages, and the published addresses. */
module Service {
  import opened Meta
  import opened IngressDrift
  import opened Resource
  import opened Tls
  import opened Routes

  datatype CertRead = CertReadFailed | CertRead(cert: Option<Certificate>)
  datatype SecretMirror = MirrorFailed | MirrorBlocked | MirrorReady
  datatype IssuerLookup = IssuerExists | IssuerNotFound | IssuerLookupFailed

  /** What one pass sees, and how each of its writes ends. */
  datatype ServiceSight = ServiceSight(
    now: int,
    serviceWritten: bool,
    issuerName: string,              // the issuer annotation, "" when absent
    issuerLookup: IssuerLookup,
    certificate: CertRead,
    secret: SecretMirror,
    standardWrite: Write,
    referencedWrite: Write,
    middlewareWritten: bool)
  {
    /** The resolved ClusterIssuer. A failed lookup resolves none, like a missing issuer. */
    function Issuer(): Option<string> {
      if issuerName == "" || !issuerLookup.IssuerExists? then None else Some(issuerName)
    }

    function IssuerReason(): string {
      if issuerName == "" then "ClusterIssuerNotConfigured"
      else if issuerLookup.IssuerNotFound? then "ClusterIssuerNotFound"
      else "ClusterIssuerLookupFailed"
    }

    predicate IngressesWritten() { standardWrite.Accepted? && referencedWrite.Accepted? }
  }

  /** The host of each routed port, and the hosts for which TLS is terminated. */
  datatype RouteSpec = RouteSpec(rules: map<int, string>, tlsHosts: set<string>)

  type Ingress = IngressObject<RouteSpec>

  /** The two Ingresses of one resource as the cluster holds them. */
  datatype Ingresses = Ingresses(standard: Option<Ingress>, referenced: Option<Ingress>)

  predicate NeedsService(t: WorkloadType) { !(t.Worker? || t.BatchJob? || t.CronJob?) }

  // ----- TLS of one pass -----

  /** None when the Certificate could not be read. */
  function CertState(routes: PortRoutes, status: Status, sight: ServiceSight): Option<TlsState> {
    if routes.certHosts == [] then Some(NoTls())
    else if sight.Issuer().None? then Some(TlsState(TlsUnavailable, sight.IssuerReason(), 0))
    else if sight.certificate.CertReadFailed? then None
    else Some(ClassifyCertificate(sight.certificate.cert, status.certWaitingSince, sight.now))
  }

  function CertClock(routes: PortRoutes, status: Status, sight: ServiceSight, tls: TlsState): Option<int> {
    if routes.certHosts == [] || sight.Issuer().None? then UpdateCertClock(status.certWaitingSince, TlsNone, sight.now)
    else UpdateCertClock(status.certWaitingSince, tls.stage, sight.now)
  }

  function SecretState(routes: PortRoutes, status: Status, sight: ServiceSight): Option<TlsState> {
    if routes.reference == "" then Some(NoTls())
    else if !ValidSecretName(routes.reference) then Some(TlsState(TlsUnavailable, SECRET_UNAVAILABLE, 0))
    else
      match sight.secret
      case MirrorFailed => None
      case MirrorReady => Some(TlsState(TlsReady, TLS_READY, 0))
      case MirrorBlocked => Some(ReferencedWhileBlocked(status.referencedTLS, routes.reference, sight.now))
  }

  function SecretClock(routes: PortRoutes, status: Status, sight: ServiceSight, tls: TlsState): Option<ReferencedTLS> {
    if routes.reference == "" then None
    else if !ValidSecretName(routes.reference) then status.referencedTLS
    else UpdateSecretClock(status.referencedTLS, routes.reference, tls.stage, sight.now)
  }

  function RouterAnnotations(namespace: string): map<string, string> {
    map[ENTRYPOINTS_ANNOTATION := "web,websecure",
        MIDDLEWARES_ANNOTATION := namespace + "-redirect-https@kubernetescrd"]
  }

  /** The desired Ingress of the certificate path; None when it has no rules. The redirect is
      left off until the certificate is usable. */
  function StandardIngress(obj: Object, routes: PortRoutes, cert: TlsState, issuer: Option<string>): Option<Ingress> {
    if routes.standard == map[] then None
    else if routes.certHosts == [] || issuer.None? then Some(IngressObject(RouteSpec(routes.standard, {}), map[], true))
    else
      var annotations := RouterAnnotations(obj.namespace)[ISSUER_ANNOTATION := issuer.value];
      Some(IngressObject(RouteSpec(routes.standard, (set h | h in routes.certHosts)),
                         if cert.stage.TlsReady? then annotations else annotations - {MIDDLEWARES_ANNOTATION}, true))
  }

  function ReferencedIngress(obj: Object, routes: PortRoutes, secret: TlsState): Option<Ingress> {
    if routes.referenced == map[] then None
    else
      var annotations := if secret.stage.TlsReady? then RouterAnnotations(obj.namespace) else map[];
      var hosts := if routes.reference == "" || !secret.stage.TlsReady? then {}
                   else set h | h in routes.referencedHosts;
      Some(IngressObject(RouteSpec(routes.referenced, hosts), annotations, true))
  }

  // ----- addresses -----

  function PublicAddress(ports: seq<Port>, n: int, host: string, cert: TlsStage, secret: TlsStage): Option<Address> {
    var port := GetPort(ports, n);
    if port.None? || !port.value.exposed then None
    else if !port.value.tls then Some(Address(n, false, host))
    else
      match (if PortSecretRef(port.value).Some? then secret else cert)
      case TlsReady => Some(Address(n, true, host))
      case TlsUnavailable => Some(Address(n, false, host))
      case _ => None
  }

  function PublicAddresses(ports: seq<Port>, hosts: map<int, string>, cert: TlsStage, secret: TlsStage): set<Address> {
    set n | n in hosts && PublicAddress(ports, n, hosts[n], cert, secret).Some?
          :: PublicAddress(ports, n, hosts[n], cert, secret).value
  }

  // ----- the stage -----

  function EarliestRetry(a: TlsState, b: TlsState): int {
    if a.retryAfter <= 0 then (if b.retryAfter > 0 then b.retryAfter else 0)
    else if b.retryAfter > 0 && b.retryAfter < a.retryAfter then b.retryAfter
    else a.retryAfter
  }

  predicate Lacking(t: TlsState) { !t.stage.TlsNone? && !t.stage.TlsReady? }

  function SetTlsConfigured(obj: Object, st: PassState, cert: TlsState, secret: TlsState, now: int): PassState {
    if Lacking(secret) then Set(obj, st, TLSConfigured, false, secret.reason, now)
    else if Lacking(cert) then Set(obj, st, TLSConfigured, false, cert.reason, now)
    else if cert.stage.TlsReady? then Set(obj, st, TLSConfigured, true, cert.reason, now)
    else if secret.stage.TlsReady? then Set(obj, st, TLSConfigured, true, secret.reason, now)
    else st
  }

  function ReportWaiting(st: PassState, tls: TlsState): PassState {
    if tls.stage.TlsWaiting? then ReportNotReady(st, tls.reason) else st
  }

  function CleanUp(st: PassState): PassState {
    st.(status := st.status.(referencedTLS := None, certWaitingSince := None, addresses := {},
                             conditions := st.status.conditions - {TLSConfigured, IngressReady}))
  }

  function WithCertClock(st: PassState, routes: PortRoutes, cert: TlsState, sight: ServiceSight): PassState {
    st.(status := st.status.(certWaitingSince := CertClock(routes, st.status, sight, cert)))
  }

  function WithClocks(st: PassState, routes: PortRoutes, cert: TlsState, secret: TlsState,
                      sight: ServiceSight): PassState {
    st.(status := st.status.(certWaitingSince := CertClock(routes, st.status, sight, cert),
                             referencedTLS := SecretClock(routes, st.status, sight, secret)))
  }

  function Publish(obj: Object, st: PassState, routes: PortRoutes, cert: TlsState, secret: TlsState,
                   sight: ServiceSight): PassState {
    PublishAfterClocks(obj, WithClocks(st, routes, cert, secret, sight), routes, cert, secret, sight)
  }

  function PublishAfterClocks(obj: Object, st1: PassState, routes: PortRoutes, cert: TlsState, secret: TlsState,
                              sight: ServiceSight): PassState {
    var st2 := SetTlsConfigured(obj, st1, cert, secret, sight.now);
    var st3 := st2.(status := st2.status.(addresses :=
      PublicAddresses(obj.spec.ports, routes.all, cert.stage, secret.stage)));
    var st4 := Set(obj, st3, IngressReady, true, "IngressConfigured", sight.now);
    ReportWaiting(ReportWaiting(st4, cert), secret)
  }

  /** The redirect middleware is only needed once some path is ready. */
  predicate MiddlewareReady(cert: TlsState, secret: TlsState, sight: ServiceSight) {
    cert.stage.TlsReady? || secret.stage.TlsReady? ==> sight.middlewareWritten
  }

  /** A failing stage returns the fetched object as far as it was updated. */
  function ServiceStage(obj: Object, st: PassState, sight: ServiceSight): (PassState, StageResult) {
    if !NeedsService(obj.spec.workloadType) then (st, Next)
    else
      var routes := CollectRoutes(obj.spec.ports);
      if routes.None? || !sight.serviceWritten then (st, Error)
      else if !HasExposedPort(obj.spec.ports) then
        if sight.IngressesWritten() then (CleanUp(st), Next) else (st, Error)
      else RouteAll(obj, st, routes.value, sight)
  }

  function RouteAll(obj: Object, st: PassState, routes: PortRoutes, sight: ServiceSight): (PassState, StageResult) {
    var cert, secret := CertState(routes, st.status, sight), SecretState(routes, st.status, sight);
    if cert.None? then (st, Error)
    else if !sight.standardWrite.Accepted? || secret.None? then (WithCertClock(st, routes, cert.value, sight), Error)
    else if !sight.referencedWrite.Accepted? || !MiddlewareReady(cert.value, secret.value, sight) then
      (WithClocks(st, routes, cert.value, secret.value, sight), Error)
    else
      (Publish(obj, st, routes, cert.value, secret.value, sight),
       var retry := EarliestRetry(cert.value, secret.value);
       if retry > 0 then Deferred(retry) else Next)
  }

  /** The Ingresses the stage leaves in the cluster, also when it fails half-way. */
  function StageIngresses(obj: Object, st: PassState, sight: ServiceSight, cluster: Ingresses): Ingresses {
    var routes := CollectRoutes(obj.spec.ports);
    if !NeedsService(obj.spec.workloadType) || routes.None? || !sight.serviceWritten then cluster
    else if !HasExposedPort(obj.spec.ports) then WriteBoth(cluster, None, Some(None), sight)
    else WrittenIngresses(obj, routes.value, st.status, sight, cluster)
  }

  function WrittenIngresses(obj: Object, routes: PortRoutes, status: Status, sight: ServiceSight,
                            cluster: Ingresses): Ingresses {
    var cert, secret := CertState(routes, status, sight), SecretState(routes, status, sight);
    if cert.None? then cluster
    else
      WriteBoth(cluster, StandardIngress(obj, routes, cert.value, sight.Issuer()),
                if secret.None? then None else Some(ReferencedIngress(obj, routes, secret.value)), sight)
  }

  /** The standard Ingress is written first; without it, or without a second one to write,
      the referenced one is left alone. */
  function WriteBoth(cluster: Ingresses, standard: Option<Ingress>, referenced: Option<Option<Ingress>>,
                     sight: ServiceSight): Ingresses
  {
    var first := cluster.(standard := AfterWrite(standard, cluster.standard, sight.standardWrite));
    if !sight.standardWrite.Accepted? || referenced.None? then first
    else first.(referenced := AfterWrite(referenced.value, cluster.referenced, sight.referencedWrite))
  }

  // ----- what the stage guarantees -----

  predicate Publishes(obj: Object, st: PassState, sight: ServiceSight) {
    && NeedsService(obj.spec.workloadType)
    && HasExposedPort(obj.spec.ports)
    && !ServiceStage(obj, st, sight).1.Error?
  }

  /** The stage a public TLS port waits on. */
  function PathOf(p: Port, cert: TlsState, secret: TlsState): TlsState {
    if PortSecretRef(p).Some? then secret else cert
  }

  /** A TLS port is always on a path that has an opinion. */
  lemma PathIsInUse(obj: Object, st: PassState, sight: ServiceSight, k: nat)
    requires Publishes(obj, st, sight) && Distinct(obj.spec.ports)
    requires k < |obj.spec.ports| && obj.spec.ports[k].exposed && obj.spec.ports[k].tls
    ensures var routes := CollectRoutes(obj.spec.ports).value;
            !PathOf(obj.spec.ports[k], CertState(routes, st.status, sight).value,
                    SecretState(routes, st.status, sight).value).stage.TlsNone?
  {
    RouteOfPort(obj.spec.ports, k);
  }

  /** The address published for one public port follows its TLS path, and a waiting path
      blocks the pass and schedules the next one. */
  lemma AddressMatchesTls(obj: Object, st: PassState, sight: ServiceSight, k: nat, https: bool)
    requires Publishes(obj, st, sight) && Distinct(obj.spec.ports)
    requires k < |obj.spec.ports| && obj.spec.ports[k].exposed
    ensures var p := obj.spec.ports[k];
            var routes := CollectRoutes(obj.spec.ports).value;
            var path := PathOf(p, CertState(routes, st.status, sight).value,
                               SecretState(routes, st.status, sight).value);
            var (st', r) := ServiceStage(obj, st, sight);
            && (Address(p.number, https, p.fqdn) in st'.status.addresses <==>
                  if p.tls then (if https then path.stage.TlsReady? else path.stage.TlsUnavailable?) else !https)
            && (path.stage.TlsWaiting? ==> st'.verdicts.notReady.Some?)
  {
    var ports, p := obj.spec.ports, obj.spec.ports[k];
    var routes := CollectRoutes(ports).value;
    var cert, secret := CertState(routes, st.status, sight).value, SecretState(routes, st.status, sight).value;
    RouteOfPort(ports, k);
    GetPortExact(ports, k);
    AddressOf(ports, routes.all, cert.stage, secret.stage, Address(p.number, https, p.fqdn));
  }

  /** The Ingress that routes a port. */
  function RoutingIngress(cluster: Ingresses, p: Port): Option<Ingress> {
    if PortSecretRef(p).Some? then cluster.referenced else cluster.standard
  }

  /** The Ingress routes the port to its host. */
  predicate RoutesPort(ingress: Option<Ingress>, n: int, host: string) {
    ingress.Some? && n in ingress.value.spec.rules && ingress.value.spec.rules[n] == host
  }

  /** The Ingress terminates TLS for the host and redirects to it. */
  predicate Terminates(ingress: Option<Ingress>, host: string) {
    && ingress.Some? && host in ingress.value.spec.tlsHosts
    && Value(ingress.value.annotations, MIDDLEWARES_ANNOTATION) != ""
  }

  /** A write that takes effect shows what was desired, whatever was there before. */
  lemma WrittenIngress(desired: Option<Ingress>, existing: Option<Ingress>, write: Write, n: int, host: string)
    requires desired.Some? && !write.Rejected?
    ensures RoutesPort(AfterWrite(desired, existing, write), n, host) <==> RoutesPort(desired, n, host)
    ensures Terminates(AfterWrite(desired, existing, write), host) <==> Terminates(desired, host)
  {
    if existing.Some? {
      SettledIsDesired(desired.value, existing.value);
      assert MIDDLEWARES_ANNOTATION == MANAGED[2];
    }
  }

  lemma DesiredIngress(obj: Object, routes: PortRoutes, k: nat, cert: TlsState, secret: TlsState,
                       issuer: Option<string>)
    requires CollectRoutes(obj.spec.ports) == Some(routes)
    requires Distinct(obj.spec.ports) && k < |obj.spec.ports| && obj.spec.ports[k].exposed
    ensures var p := obj.spec.ports[k];
            var ingress := if PortSecretRef(p).Some? then ReferencedIngress(obj, routes, secret)
                           else StandardIngress(obj, routes, cert, issuer);
            && RoutesPort(ingress, p.number, p.fqdn)
            && (p.tls && PathOf(p, cert, secret).stage.TlsReady? && (PortSecretRef(p).None? ==> issuer.Some?)
                ==> Terminates(ingress, p.fqdn))
  {
    var p := obj.spec.ports[k];
    RouteOfPort(obj.spec.ports, k);
    RoutesByPort(obj.spec.ports);
    RedirectIsSet(obj.namespace);
    KeysDiffer();
  }

  lemma RedirectIsSet(namespace: string)
    ensures Value(RouterAnnotations(namespace), MIDDLEWARES_ANNOTATION) != ""
  {
    var middleware := namespace + "-redirect-https@kubernetescrd";
    assert middleware[|namespace|] == '-';
  }

  /** After a publishing stage the cluster routes every public port to its own host, and for
      a port whose path is ready it terminates TLS there, whatever Ingresses it held before. */
  lemma ClusterRoutesPorts(obj: Object, st: PassState, sight: ServiceSight, cluster: Ingresses, k: nat)
    requires Publishes(obj, st, sight) && Distinct(obj.spec.ports)
    requires k < |obj.spec.ports| && obj.spec.ports[k].exposed
    ensures var p, routes := obj.spec.ports[k], CollectRoutes(obj.spec.ports).value;
            var path := PathOf(p, CertState(routes, st.status, sight).value,
                               SecretState(routes, st.status, sight).value);
            var ingress := RoutingIngress(StageIngresses(obj, st, sight, cluster), p);
            && RoutesPort(ingress, p.number, p.fqdn)
            && (p.tls && path.stage.TlsReady? ==> Terminates(ingress, p.fqdn))
  {
    var p, routes := obj.spec.ports[k], CollectRoutes(obj.spec.ports).value;
    var cert, secret := CertState(routes, st.status, sight).value, SecretState(routes, st.status, sight).value;
    DesiredIngress(obj, routes, k, cert, secret, sight.Issuer());
    RouteOfPort(obj.spec.ports, k);
    if PortSecretRef(p).Some? {
      WrittenIngress(ReferencedIngress(obj, routes, secret), cluster.referenced, sight.referencedWrite, p.number,
                     p.fqdn);
    } else {
      WrittenIngress(StandardIngress(obj, routes, cert, sight.Issuer()), cluster.standard, sight.standardWrite,
                     p.number, p.fqdn);
    }
  }

  /** An https address is only published when the path is ready and the Ingress that the
      cluster then holds routes the port and terminates TLS for its host. */
  lemma HttpsOnlyBehindTlsBlock(obj: Object, st: PassState, sight: ServiceSight, cluster: Ingresses, k: nat)
    requires Publishes(obj, st, sight) && Distinct(obj.spec.ports)
    requires k < |obj.spec.ports| && obj.spec.ports[k].exposed
    requires Address(obj.spec.ports[k].number, true, obj.spec.ports[k].fqdn)
             in ServiceStage(obj, st, sight).0.status.addresses
    ensures var p, routes := obj.spec.ports[k], CollectRoutes(obj.spec.ports).value;
            var cert, secret := CertState(routes, st.status, sight).value, SecretState(routes, st.status, sight).value;
            var ingress := RoutingIngress(StageIngresses(obj, st, sight, cluster), p);
            && PathOf(p, cert, secret).stage.TlsReady?
            && RoutesPort(ingress, p.number, p.fqdn) && Terminates(ingress, p.fqdn)
  {
    AddressMatchesTls(obj, st, sight, k, true);
    ClusterRoutesPorts(obj, st, sight, cluster, k);
  }

  // ----- the TLSConfigured condition -----

  predicate PublicTls(p: Port) { p.exposed && p.tls }

  predicate UsesPath(ports: seq<Port>, referenced: bool) {
    exists i :: 0 <= i < |ports| && PublicTls(ports[i]) && (PortSecretRef(ports[i]).Some? <==> referenced)
  }

  /** A path is in use exactly when some public TLS port is on it. */
  lemma {:induction false} PathsInUse(ports: seq<Port>)
    requires CollectRoutes(ports).Some?
    ensures var r := CollectRoutes(ports).value;
            (r.certHosts != [] <==> UsesPath(ports, false)) && (r.reference != "" <==> UsesPath(ports, true))
  {
    if ports != [] {
      var front, last := ports[..|ports| - 1], ports[|ports| - 1];
      PathsInUse(front);
      forall referenced ensures UsesPath(ports, referenced) <==>
                                UsesPath(front, referenced)
                                  || (PublicTls(last) && (PortSecretRef(last).Some? <==> referenced))
      {
        UsesPathStep(ports, referenced);
      }
    }
  }

  lemma UsesPathStep(ports: seq<Port>, referenced: bool)
    requires ports != []
    ensures var front, last := ports[..|ports| - 1], ports[|ports| - 1];
            UsesPath(ports, referenced) <==>
            UsesPath(front, referenced) || (PublicTls(last) && (PortSecretRef(last).Some? <==> referenced))
  {
    var front, last := ports[..|ports| - 1], ports[|ports| - 1];
    if UsesPath(front, referenced) {
      var i :| 0 <= i < |front| && PublicTls(front[i]) && (PortSecretRef(front[i]).Some? <==> referenced);
      assert ports[i] == front[i];
    }
    if UsesPath(ports, referenced) {
      var i :| 0 <= i < |ports| && PublicTls(ports[i]) && (PortSecretRef(ports[i]).Some? <==> referenced);
      assert i < |front| ==> front[i] == ports[i];
    }
  }

  lemma PathNoneIffUnused(obj: Object, st: PassState, sight: ServiceSight)
    requires Publishes(obj, st, sight)
    ensures var routes := CollectRoutes(obj.spec.ports).value;
            && (CertState(routes, st.status, sight).value.stage.TlsNone? <==> !UsesPath(obj.spec.ports, false))
            && (SecretState(routes, st.status, sight).value.stage.TlsNone? <==> !UsesPath(obj.spec.ports, true))
  {
    PathsInUse(obj.spec.ports);
  }

  ghost predicate EveryTlsPortReady(ports: seq<Port>, cert: TlsState, secret: TlsState) {
    forall i :: 0 <= i < |ports| && PublicTls(ports[i]) ==> PathOf(ports[i], cert, secret).stage.TlsReady?
  }

  lemma ReadyPaths(ports: seq<Port>, cert: TlsState, secret: TlsState)
    ensures EveryTlsPortReady(ports, cert, secret) <==>
              (UsesPath(ports, false) ==> cert.stage.TlsReady?) && (UsesPath(ports, true) ==> secret.stage.TlsReady?)
  {
    if UsesPath(ports, false) {
      var i :| 0 <= i < |ports| && PublicTls(ports[i]) && PortSecretRef(ports[i]).None?;
    }
    if UsesPath(ports, true) {
      var i :| 0 <= i < |ports| && PublicTls(ports[i]) && PortSecretRef(ports[i]).Some?;
    }
  }

  lemma TlsConditionFromPaths(obj: Object, st: PassState, cert: TlsState, secret: TlsState, now: int)
    ensures var s := SetTlsConfigured(obj, st, cert, secret, now).status;
            if cert.stage.TlsNone? && secret.stage.TlsNone? then s == st.status
            else
              && Holds(s.conditions, TLSConfigured, !Lacking(cert) && !Lacking(secret), obj.generation)
              && (Lacking(secret) ==> s.conditions[TLSConfigured].reason == secret.reason)
              && (!Lacking(secret) && Lacking(cert) ==> s.conditions[TLSConfigured].reason == cert.reason)
  {
  }

  /** TLSConfigured is True for this generation exactly when every public TLS port has usable
      TLS, False when some has not, and left alone when no public port wants TLS. */
  lemma TlsConfiguredMeaning(obj: Object, st: PassState, sight: ServiceSight)
    requires Publishes(obj, st, sight)
    ensures var ports, s := obj.spec.ports, ServiceStage(obj, st, sight).0.status;
            var routes := CollectRoutes(ports).value;
            var cert, secret := CertState(routes, st.status, sight).value, SecretState(routes, st.status, sight).value;
            if UsesPath(ports, false) || UsesPath(ports, true) then
              Holds(s.conditions, TLSConfigured, EveryTlsPortReady(ports, cert, secret), obj.generation)
            else
              (TLSConfigured in s.conditions <==> TLSConfigured in st.status.conditions)
              && (TLSConfigured in s.conditions ==> s.conditions[TLSConfigured] == st.status.conditions[TLSConfigured])
  {
    var ports, routes := obj.spec.ports, CollectRoutes(obj.spec.ports).value;
    var cert, secret := CertState(routes, st.status, sight).value, SecretState(routes, st.status, sight).value;
    PathNoneIffUnused(obj, st, sight);
    ReadyPaths(ports, cert, secret);
    var st1 := WithClocks(st, routes, cert, secret, sight);
    TlsConditionFromPaths(obj, st1, cert, secret, sight.now);
  }

  // ----- which addresses -----

  lemma AddressOf(ports: seq<Port>, hosts: map<int, string>, cert: TlsStage, secret: TlsStage, a: Address)
    ensures a in PublicAddresses(ports, hosts, cert, secret) <==>
              a.port in hosts && PublicAddress(ports, a.port, hosts[a.port], cert, secret) == Some(a)
  {
  }

  lemma OnlyPublicPorts(ports: seq<Port>, hosts: map<int, string>, cert: TlsStage, secret: TlsStage, a: Address)
    requires a in PublicAddresses(ports, hosts, cert, secret)
    ensures exists k :: 0 <= k < |ports| && ports[k].exposed && ports[k].number == a.port
  {
    AddressOf(ports, hosts, cert, secret, a);
    GetPortFound(ports, a.port);
  }

  lemma {:induction false} GetPortFound(ports: seq<Port>, n: int)
    requires GetPort(ports, n).Some?
    ensures exists k :: 0 <= k < |ports| && ports[k] == GetPort(ports, n).value && ports[k].number == n
  {
    if ports[0].number == n {
      assert ports[0] == GetPort(ports, n).value;
    } else {
      GetPortFound(ports[1..], n);
      var k :| 0 <= k < |ports[1..]| && ports[1..][k] == GetPort(ports[1..], n).value && ports[1..][k].number == n;
      assert ports[k + 1] == GetPort(ports, n).value;
    }
  }

  /** Every public port has exactly one address, at its own host, and there is no other. */
  ghost predicate OneAddressEach(ports: seq<Port>, addresses: set<Address>) {
    && (forall k :: 0 <= k < |ports| && ports[k].exposed ==> exists https :: OnlyAddress(addresses, ports[k], https))
    && (forall a :: a in addresses ==> exists k :: 0 <= k < |ports| && ports[k].exposed && ports[k].number == a.port)
  }

  ghost predicate OnlyAddress(addresses: set<Address>, p: Port, https: bool) {
    forall a :: a in addresses && a.port == p.number <==> a == Address(p.number, https, p.fqdn)
  }

  /** When the stage leaves no verdict, all public ports are published. */
  lemma QuietServicePublishesAllPorts(obj: Object, st: PassState, sight: ServiceSight)
    requires Publishes(obj, st, sight) && Distinct(obj.spec.ports)
    requires !Reported(ServiceStage(obj, st, sight).0.verdicts)
    ensures OneAddressEach(obj.spec.ports, ServiceStage(obj, st, sight).0.status.addresses)
  {
    var ports := obj.spec.ports;
    var routes := CollectRoutes(ports).value;
    var cert, secret := CertState(routes, st.status, sight).value, SecretState(routes, st.status, sight).value;
    var addresses := PublicAddresses(ports, routes.all, cert.stage, secret.stage);
    forall k | 0 <= k < |ports| && ports[k].exposed ensures exists https :: OnlyAddress(addresses, ports[k], https) {
      if ports[k].tls { PathIsInUse(obj, st, sight, k); }
      var https := PublishedOnce(ports, routes, cert, secret, k);
    }
    forall a | a in addresses ensures exists k :: 0 <= k < |ports| && ports[k].exposed && ports[k].number == a.port {
      OnlyPublicPorts(ports, routes.all, cert.stage, secret.stage, a);
    }
  }

  lemma PublishedOnce(ports: seq<Port>, routes: PortRoutes, cert: TlsState, secret: TlsState, k: nat)
    returns (https: bool)
    requires CollectRoutes(ports) == Some(routes) && Distinct(ports) && k < |ports| && ports[k].exposed
    requires ports[k].tls ==>
               !PathOf(ports[k], cert, secret).stage.TlsNone? && !PathOf(ports[k], cert, secret).stage.TlsWaiting?
    ensures OnlyAddress(PublicAddresses(ports, routes.all, cert.stage, secret.stage), ports[k], https)
  {
    var p := ports[k];
    RouteOfPort(ports, k);
    GetPortExact(ports, k);
    https := p.tls && PathOf(p, cert, secret).stage.TlsReady?;
    forall a ensures a in PublicAddresses(ports, routes.all, cert.stage, secret.stage) && a.port == p.number
                     <==> a == Address(p.number, https, p.fqdn)
    {
      AddressOf(ports, routes.all, cert.stage, secret.stage, a);
    }
  }
}
