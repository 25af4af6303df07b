/** How the service stage ends, from the ports, from what it reads and from how its calls end. */
module TlsReports {
  import opened Meta
  import opened IngressDrift
  import opened Resource
  import opened Tls
  import opened Routes
  import opened Service
  import opened TlsRuns

  // ----- conflicting references -----

  /** Two public ports name different Secrets. */
  predicate Conflict(ports: seq<Port>) {
    exists i, j :: 0 <= i < |ports| && 0 <= j < |ports| && Names(ports[i]) && Names(ports[j])
                   && ports[i].tlsSecretRef != ports[j].tlsSecretRef
  }

  /** The port is public and takes its certificate from a Secret. */
  predicate Names(p: Port) { p.exposed && p.tls && ValidSecretName(p.tlsSecretRef) }

  lemma ConflictInFront(ports: seq<Port>)
    requires ports != []
    ensures var front, last := ports[..|ports| - 1], ports[|ports| - 1];
            Conflict(ports) <==>
            Conflict(front)
            || (Names(last) && exists i :: 0 <= i < |front| && Names(front[i])
                                           && front[i].tlsSecretRef != last.tlsSecretRef)
  {
    var front, last := ports[..|ports| - 1], ports[|ports| - 1];
    assert forall i :: 0 <= i < |front| ==> ports[i] == front[i];
    if Conflict(front) {
      var i, j :| 0 <= i < |front| && 0 <= j < |front| && Names(front[i]) && Names(front[j])
                  && front[i].tlsSecretRef != front[j].tlsSecretRef;
      assert Names(ports[i]) && Names(ports[j]);
    }
    if i :| 0 <= i < |front| && Names(front[i]) && Names(last) && front[i].tlsSecretRef != last.tlsSecretRef {
      assert Names(ports[i]) && Names(ports[|ports| - 1]);
    }
  }

  /** The routes can be collected exactly when no two public ports name different Secrets, and
      then the reference is the one that a public port names. */
  lemma {:induction false} RoutesUnlessConflict(ports: seq<Port>)
    ensures CollectRoutes(ports).None? <==> Conflict(ports)
    ensures CollectRoutes(ports).Some? ==>
              && (forall i :: 0 <= i < |ports| && Names(ports[i]) ==>
                    CollectRoutes(ports).value.reference == ports[i].tlsSecretRef)
              && ((forall i :: 0 <= i < |ports| ==> !Names(ports[i])) ==> CollectRoutes(ports).value.reference == "")
  {
    if ports != [] {
      var front, last := ports[..|ports| - 1], ports[|ports| - 1];
      RoutesUnlessConflict(front);
      ConflictInFront(ports);
      assert forall i :: 0 <= i < |front| ==> ports[i] == front[i];
    }
  }

  // ----- the stages of the two paths -----

  /** Some public TLS port relies on the operator's certificate. */
  predicate WantsCertificate(ports: seq<Port>) {
    exists i :: 0 <= i < |ports| && ports[i].exposed && ports[i].tls && !ValidSecretName(ports[i].tlsSecretRef)
  }

  predicate WantsSecret(ports: seq<Port>) { exists i :: 0 <= i < |ports| && Names(ports[i]) }

  predicate IssuerFound(sight: ServiceSight) { sight.issuerName != "" && sight.issuerLookup.IssuerExists? }

  /** Why there is no issuer. */
  function NoIssuer(sight: ServiceSight): string {
    match (sight.issuerName == "", sight.issuerLookup)
    case (true, _) => "ClusterIssuerNotConfigured"
    case (false, IssuerNotFound) => "ClusterIssuerNotFound"
    case _ => "ClusterIssuerLookupFailed"
  }

  predicate CertIssued(sight: ServiceSight) {
    && IssuerFound(sight) && sight.certificate.CertRead?
    && sight.certificate.cert.Some? && sight.certificate.cert.value.ready
  }

  /** The certificate is still being issued: no failed attempt, and grace left. */
  predicate CertIssuing(status: Status, sight: ServiceSight) {
    && IssuerFound(sight) && sight.certificate.CertRead? && !CertIssued(sight)
    && !(sight.certificate.cert.Some? && sight.certificate.cert.value.failedAttempts > 0)
    && GraceLeft(status.certWaitingSince, sight.now)
  }

  predicate CertWaits(obj: Object, status: Status, sight: ServiceSight) {
    WantsCertificate(obj.spec.ports) && CertIssuing(status, sight)
  }

  /** The Secret that a public port names cannot be mirrored yet, and grace is left for it. */
  predicate SecretWaits(obj: Object, status: Status, sight: ServiceSight) {
    exists i :: 0 <= i < |obj.spec.ports| && Names(obj.spec.ports[i])
      && sight.secret.MirrorBlocked?
      && GraceLeft(SecretPendingSince(status.referencedTLS, obj.spec.ports[i].tlsSecretRef), sight.now)
  }

  lemma CertificatePath(obj: Object, status: Status, sight: ServiceSight)
    requires CollectRoutes(obj.spec.ports).Some?
    ensures var cert := CertState(CollectRoutes(obj.spec.ports).value, status, sight);
            && (cert.None? <==>
                  WantsCertificate(obj.spec.ports) && IssuerFound(sight) && sight.certificate.CertReadFailed?)
            && (cert.Some? ==>
                  && (cert.value.stage.TlsNone? <==> !WantsCertificate(obj.spec.ports))
                  && (cert.value.stage.TlsWaiting? <==> CertWaits(obj, status, sight))
                  && (cert.value.stage.TlsReady? <==> WantsCertificate(obj.spec.ports) && CertIssued(sight))
                  && (!cert.value.stage.TlsWaiting? ==> cert.value.retryAfter == 0)
                  && (cert.value.stage.TlsWaiting? ==>
                        cert.value.retryAfter == GraceAfter(status.certWaitingSince, sight.now) > 0)
                  && (WantsCertificate(obj.spec.ports) && !IssuerFound(sight) ==> cert.value.reason == NoIssuer(sight)))
  {
    PathsInUse(obj.spec.ports);
    WantsPath(obj.spec.ports);
    if sight.certificate.CertRead? {
      CertificateMeaning(sight.certificate.cert, status.certWaitingSince, sight.now);
    }
  }

  lemma WantsPath(ports: seq<Port>)
    ensures UsesPath(ports, false) <==> WantsCertificate(ports)
    ensures UsesPath(ports, true) <==> WantsSecret(ports)
  {
    if UsesPath(ports, false) {
      var i :| 0 <= i < |ports| && PublicTls(ports[i]) && PortSecretRef(ports[i]).None?;
      assert ports[i].exposed && ports[i].tls;
    }
    if WantsCertificate(ports) {
      var i :| 0 <= i < |ports| && ports[i].exposed && ports[i].tls && !ValidSecretName(ports[i].tlsSecretRef);
      assert PublicTls(ports[i]);
    }
    if UsesPath(ports, true) {
      var i :| 0 <= i < |ports| && PublicTls(ports[i]) && PortSecretRef(ports[i]).Some?;
      assert Names(ports[i]);
    }
    if WantsSecret(ports) {
      var i :| 0 <= i < |ports| && Names(ports[i]);
      assert PublicTls(ports[i]);
    }
  }

  /** The grace left for the Secret that the public ports name. */
  function SecretGrace(obj: Object, status: Status, sight: ServiceSight): int
    requires CollectRoutes(obj.spec.ports).Some?
  {
    GraceAfter(SecretPendingSince(status.referencedTLS, CollectRoutes(obj.spec.ports).value.reference), sight.now)
  }

  lemma ReferencedPath(obj: Object, status: Status, sight: ServiceSight)
    requires CollectRoutes(obj.spec.ports).Some?
    ensures var secret := SecretState(CollectRoutes(obj.spec.ports).value, status, sight);
            && (secret.None? <==> WantsSecret(obj.spec.ports) && sight.secret.MirrorFailed?)
            && (secret.Some? ==>
                  && (secret.value.stage.TlsNone? <==> !WantsSecret(obj.spec.ports))
                  && (secret.value.stage.TlsWaiting? <==> SecretWaits(obj, status, sight))
                  && (secret.value.stage.TlsReady? <==> WantsSecret(obj.spec.ports) && sight.secret.MirrorReady?)
                  && (!secret.value.stage.TlsWaiting? ==> secret.value.retryAfter == 0)
                  && (secret.value.stage.TlsWaiting? ==>
                        secret.value.retryAfter == SecretGrace(obj, status, sight) > 0))
  {
    var ports := obj.spec.ports;
    RoutesUnlessConflict(ports);
    ReferenceIsValid(ports);
    PathsInUse(ports);
    WantsPath(ports);
    BlockedSecretMeaning(status.referencedTLS, CollectRoutes(ports).value.reference, sight.now);
    if WantsSecret(ports) {
      var i :| 0 <= i < |ports| && Names(ports[i]);
      assert CollectRoutes(ports).value.reference == ports[i].tlsSecretRef;
    }
  }

  // ----- how the stage ends -----

  /** A call fails, or the references conflict. Both Ingresses must be written in any case, and
      the redirect once a path is ready. */
  predicate ServiceFails(obj: Object, sight: ServiceSight) {
    var ports := obj.spec.ports;
    && !Serviceless(obj.spec.workloadType)
    && (|| Conflict(ports) || !sight.serviceWritten
        || !sight.standardWrite.Accepted? || !sight.referencedWrite.Accepted?
        || (WantsCertificate(ports) && IssuerFound(sight) && sight.certificate.CertReadFailed?)
        || (WantsSecret(ports) && sight.secret.MirrorFailed?)
        || (((WantsCertificate(ports) && CertIssued(sight)) || (WantsSecret(ports) && sight.secret.MirrorReady?))
            && !sight.middlewareWritten))
  }

  /** A path of a public TLS port waits. */
  predicate SomePathWaits(obj: Object, status: Status, sight: ServiceSight) {
    && !Serviceless(obj.spec.workloadType)
    && (CertWaits(obj, status, sight) || SecretWaits(obj, status, sight))
  }

  predicate Serviceless(t: WorkloadType) { t.Worker? || t.BatchJob? || t.CronJob? }

  lemma RoutingMeaning(obj: Object, st: PassState, sight: ServiceSight)
    requires CollectRoutes(obj.spec.ports).Some? && sight.serviceWritten && !Serviceless(obj.spec.workloadType)
    ensures var (st', r) := RouteAll(obj, st, CollectRoutes(obj.spec.ports).value, sight);
            && (r.Error? <==> ServiceFails(obj, sight))
            && (!r.Error? ==>
                  && (r.Deferred? <==> SomePathWaits(obj, st.status, sight)) && (r.Deferred? || r.Next?)
                  && st'.verdicts.failed == st.verdicts.failed
                  && (st'.verdicts.notReady.Some? <==>
                        st.verdicts.notReady.Some? || SomePathWaits(obj, st.status, sight)))
  {
    RoutesUnlessConflict(obj.spec.ports);
    CertificatePath(obj, st.status, sight);
    ReferencedPath(obj, st.status, sight);
  }

  /** The stage fails exactly for a failed call or a conflict. Otherwise it reports not ready
      and comes back exactly while a path waits, and never reports a failure. */
  lemma ServiceStageMeaning(obj: Object, st: PassState, sight: ServiceSight)
    ensures var (st', r) := ServiceStage(obj, st, sight);
            && (r.Error? <==> ServiceFails(obj, sight))
            && (!r.Error? ==>
                  && (r.Deferred? <==> SomePathWaits(obj, st.status, sight)) && (r.Deferred? || r.Next?)
                  && st'.verdicts.failed == st.verdicts.failed
                  && (st'.verdicts.notReady.Some? <==>
                        st.verdicts.notReady.Some? || SomePathWaits(obj, st.status, sight)))
  {
    var ports := obj.spec.ports;
    RoutesUnlessConflict(ports);
    if CollectRoutes(ports).Some? && sight.serviceWritten && !Serviceless(obj.spec.workloadType) {
      if HasExposedPort(ports) {
        RoutingMeaning(obj, st, sight);
      } else {
        NothingPublic(ports);
      }
    }
  }

  /** The stage comes back when the grace of the first waiting path ends. */
  lemma ReturnsAtFirstDeadline(obj: Object, st: PassState, sight: ServiceSight)
    requires ServiceStage(obj, st, sight).1.Deferred? && CollectRoutes(obj.spec.ports).Some?
    ensures var wait := ServiceStage(obj, st, sight).1.wait;
            var cert, secret := CertWaits(obj, st.status, sight), SecretWaits(obj, st.status, sight);
            var certGrace, secretGrace := GraceAfter(st.status.certWaitingSince, sight.now),
                                          SecretGrace(obj, st.status, sight);
            && wait > 0 && (cert ==> wait <= certGrace) && (secret ==> wait <= secretGrace)
            && ((cert && wait == certGrace) || (secret && wait == secretGrace))
  {
    CertificatePath(obj, st.status, sight);
    ReferencedPath(obj, st.status, sight);
  }

  lemma NothingPublic(ports: seq<Port>)
    requires !HasExposedPort(ports)
    ensures !WantsCertificate(ports) && !WantsSecret(ports)
  {
  }

  // ----- what the stage publishes -----

  /** A stage that publishes says so for this generation. One without a public port withdraws
      every address, both conditions and both clocks. */
  lemma PublishingMeaning(obj: Object, st: PassState, sight: ServiceSight)
    requires !ServiceStage(obj, st, sight).1.Error? && NeedsService(obj.spec.workloadType)
    ensures var s := ServiceStage(obj, st, sight).0.status;
            if HasExposedPort(obj.spec.ports) then
              && Holds(s.conditions, IngressReady, true, obj.generation)
              && s.conditions[IngressReady].reason == "IngressConfigured"
            else
              && s.addresses == {} && s.certWaitingSince == None && s.referencedTLS == None
              && IngressReady !in s.conditions && TLSConfigured !in s.conditions
  {
  }

  // ----- what the stage leaves in the cluster -----

  /** An Ingress without rules is gone, unless it belongs to others. Otherwise it has the rules;
      the TLS hosts when TLS is offered; the redirect when the path is ready; the issuer, if
      any; and stays with its owner. */
  ghost predicate LeftAs(before: Option<Ingress>, rules: map<int, string>, hosts: set<string>, redirect: string,
                         entrypoints: string, issuer: string, after: Option<Ingress>) {
    if rules == map[] then after == if before.Some? && before.value.controlled then None else before
    else
      && after.Some? && after.value.spec == RouteSpec(rules, hosts)
      && Value(after.value.annotations, "traefik.ingress.kubernetes.io/router.middlewares") == redirect
      && Value(after.value.annotations, "traefik.ingress.kubernetes.io/router.entrypoints") == entrypoints
      && Value(after.value.annotations, "cert-manager.io/cluster-issuer") == issuer
      && (after.value.controlled <==> before.None? || before.value.controlled)
  }

  lemma WriteLeaves(desired: Ingress, before: Option<Ingress>)
    ensures var after := AfterWrite(Some(desired), before, Accepted);
            && after.Some? && after.value.spec == desired.spec
            && Value(after.value.annotations, MIDDLEWARES_ANNOTATION)
               == Value(desired.annotations, MIDDLEWARES_ANNOTATION)
            && Value(after.value.annotations, ENTRYPOINTS_ANNOTATION)
               == Value(desired.annotations, ENTRYPOINTS_ANNOTATION)
            && Value(after.value.annotations, ISSUER_ANNOTATION) == Value(desired.annotations, ISSUER_ANNOTATION)
            && after.value.controlled == if before.None? then desired.controlled else before.value.controlled
  {
    assert MANAGED[0] in MANAGED && MANAGED[1] in MANAGED && MANAGED[2] in MANAGED;
    if before.Some? {
      SettledIsDesired(desired, before.value);
    }
  }

  function Redirect(obj: Object): string { obj.namespace + "-redirect-https@kubernetescrd" }

  lemma StandardLeaves(obj: Object, routes: PortRoutes, status: Status, sight: ServiceSight, before: Option<Ingress>)
    requires CollectRoutes(obj.spec.ports) == Some(routes) && CertState(routes, status, sight).Some?
    ensures var desired := StandardIngress(obj, routes, CertState(routes, status, sight).value, sight.Issuer());
            var tls := WantsCertificate(obj.spec.ports) && IssuerFound(sight);
            LeftAs(before, routes.standard, if tls then set h | h in routes.certHosts else {},
                   if tls && CertIssued(sight) then Redirect(obj) else "", if tls then "web,websecure" else "",
                   if tls then sight.issuerName else "", AfterWrite(desired, before, Accepted))
  {
    var desired := StandardIngress(obj, routes, CertState(routes, status, sight).value, sight.Issuer());
    CertificatePath(obj, status, sight);
    PathsInUse(obj.spec.ports);
    WantsPath(obj.spec.ports);
    KeysDiffer();
    if desired.Some? {
      WriteLeaves(desired.value, before);
    }
  }

  lemma ReferencedLeaves(obj: Object, routes: PortRoutes, status: Status, sight: ServiceSight, before: Option<Ingress>)
    requires CollectRoutes(obj.spec.ports) == Some(routes) && SecretState(routes, status, sight).Some?
    ensures var desired := ReferencedIngress(obj, routes, SecretState(routes, status, sight).value);
            var tls := WantsSecret(obj.spec.ports) && sight.secret.MirrorReady?;
            LeftAs(before, routes.referenced, if tls then set h | h in routes.referencedHosts else {},
                   if tls then Redirect(obj) else "", if tls then "web,websecure" else "", "",
                   AfterWrite(desired, before, Accepted))
  {
    var desired := ReferencedIngress(obj, routes, SecretState(routes, status, sight).value);
    ReferencedPath(obj, status, sight);
    RoutesByPort(obj.spec.ports);
    PathsInUse(obj.spec.ports);
    WantsPath(obj.spec.ports);
    KeysDiffer();
    if desired.Some? {
      WriteLeaves(desired.value, before);
    }
  }

  /** The two Ingresses that a publishing stage leaves: the TLS hosts of the standard one are
      listed once an issuer is found, those of the referenced one once its Secret is mirrored,
      and each redirects only when its path is ready. */
  lemma StageLeaves(obj: Object, st: PassState, sight: ServiceSight, cluster: Ingresses)
    requires Publishes(obj, st, sight)
    ensures var after, routes := StageIngresses(obj, st, sight, cluster), CollectRoutes(obj.spec.ports).value;
            var issued := WantsCertificate(obj.spec.ports) && IssuerFound(sight);
            var mirrored := WantsSecret(obj.spec.ports) && sight.secret.MirrorReady?;
            && LeftAs(cluster.standard, routes.standard, if issued then set h | h in routes.certHosts else {},
                      if issued && CertIssued(sight) then Redirect(obj) else "",
                      if issued then "web,websecure" else "", if issued then sight.issuerName else "", after.standard)
            && LeftAs(cluster.referenced, routes.referenced,
                      if mirrored then set h | h in routes.referencedHosts else {},
                      if mirrored then Redirect(obj) else "", if mirrored then "web,websecure" else "", "",
                      after.referenced)
  {
    var routes := CollectRoutes(obj.spec.ports).value;
    StandardLeaves(obj, routes, st.status, sight, cluster.standard);
    ReferencedLeaves(obj, routes, st.status, sight, cluster.referenced);
  }

  /** Every Ingress of the resource is its own. */
  predicate OwnsBoth(cluster: Ingresses) {
    && (cluster.standard.Some? ==> cluster.standard.value.controlled)
    && (cluster.referenced.Some? ==> cluster.referenced.value.controlled)
  }

  /** A stage, complete or not, creates only Ingresses of its own; and one that withdraws the
      last public port leaves none behind. */
  lemma WithdrawnLeavesNothing(obj: Object, st: PassState, sight: ServiceSight, cluster: Ingresses)
    requires OwnsBoth(cluster)
    ensures OwnsBoth(StageIngresses(obj, st, sight, cluster))
    ensures NeedsService(obj.spec.workloadType) && !HasExposedPort(obj.spec.ports)
            && !ServiceStage(obj, st, sight).1.Error? ==>
              StageIngresses(obj, st, sight, cluster) == Ingresses(None, None)
  {
  }
}
