/** Keeping an existing Ingress in line with the desired one without touching annotations
    that belong to others. */
module IngressDrift {
  import opened Meta

  const ISSUER_ANNOTATION := "cert-manager.io/cluster-issuer"
  const ENTRYPOINTS_ANNOTATION := "traefik.ingress.kubernetes.io/router.entrypoints"
  const MIDDLEWARES_ANNOTATION := "traefik.ingress.kubernetes.io/router.middlewares"

  const MANAGED := [ISSUER_ANNOTATION, ENTRYPOINTS_ANNOTATION, MIDDLEWARES_ANNOTATION]

  lemma KeysDiffer()
    ensures ISSUER_ANNOTATION != MIDDLEWARES_ANNOTATION && ENTRYPOINTS_ANNOTATION != MIDDLEWARES_ANNOTATION
  {
    assert |ISSUER_ANNOTATION| == 30 && |ENTRYPOINTS_ANNOTATION| == |MIDDLEWARES_ANNOTATION| == 48;
    assert ENTRYPOINTS_ANNOTATION[37] == 'e' && MIDDLEWARES_ANNOTATION[37] == 'm';
  }

  /** `controlled` says that this resource is the controller of the object. */
  datatype IngressObject<S> = IngressObject(spec: S, annotations: map<string, string>, controlled: bool)

  /** A rejected write changes nothing. A landed one takes effect although it is reported as failed. */
  datatype Write = Accepted | Rejected | Landed

  /** An absent annotation reads as empty. */
  function Value(annotations: map<string, string>, key: string): string {
    if key in annotations then annotations[key] else ""
  }

  predicate NeedsUpdate<S(==)>(desired: IngressObject<S>, existing: IngressObject<S>) {
    || desired.spec != existing.spec
    || exists i :: 0 <= i < |MANAGED| && Value(desired.annotations, MANAGED[i])
          != Value(existing.annotations, MANAGED[i])
  }

  /** Managed keys follow `desired`, where empty means absent; all other annotations stay. */
  function Synced(existing: map<string, string>, desired: map<string, string>): map<string, string> {
    map k | k in existing.Keys + desired.Keys && (if k in MANAGED then Value(desired, k) != "" else k in existing)
          :: if k in MANAGED then Value(desired, k) else existing[k]
  }

  function Settled<S(==)>(desired: IngressObject<S>, existing: IngressObject<S>): IngressObject<S> {
    if NeedsUpdate(desired, existing) then
      existing.(spec := desired.spec, annotations := Synced(existing.annotations, desired.annotations))
    else existing
  }

  /** What one Ingress becomes: deleted when nothing is desired and the resource controls it,
      created when absent, settled otherwise. */
  function AfterWrite<S(==)>(desired: Option<IngressObject<S>>, existing: Option<IngressObject<S>>, write: Write)
    : Option<IngressObject<S>>
  {
    if write.Rejected? then existing
    else if desired.None? then (if existing.Some? && existing.value.controlled then None else existing)
    else if existing.None? then desired
    else Some(Settled(desired.value, existing.value))
  }

  /** One write settles the Ingress: the result shows the desired spec and managed
      annotations, needs no further update, and keeps every annotation of others. */
  lemma SettledIsDesired<S>(desired: IngressObject<S>, existing: IngressObject<S>)
    ensures var after := Settled(desired, existing);
            && after.spec == desired.spec
            && (forall k :: k in MANAGED ==> Value(after.annotations, k) == Value(desired.annotations, k))
            && !NeedsUpdate(desired, after)
            && Settled(desired, after) == after
            && after.controlled == existing.controlled
    ensures var after := Settled(desired, existing);
            forall k :: k !in MANAGED ==>
              && (k in after.annotations <==> k in existing.annotations)
              && (k in after.annotations ==> after.annotations[k] == existing.annotations[k])
  {
    assert forall k :: k in MANAGED ==> exists i :: 0 <= i < |MANAGED| && MANAGED[i] == k;
  }

  // ----- mutable form -----

  /** The keys done so far follow `desired`, all other annotations stay. */
  ghost predicate SyncedFor(done: seq<string>, before: map<string, string>, desired: map<string, string>,
                            after: map<string, string>)
  {
    forall k :: Value(after, k) == (if k in done then Value(desired, k) else Value(before, k))
                && (k in after <==> if k in done then Value(desired, k) != "" else k in before)
  }

  lemma SyncStep(done: seq<string>, key: string, before: map<string, string>, desired: map<string, string>,
                 after: map<string, string>)
    requires SyncedFor(done, before, desired, after)
    ensures SyncedFor(done + [key], before, desired,
                      if Value(desired, key) != "" then after[key := Value(desired, key)] else after - {key})
  {
    assert forall k :: k in done + [key] <==> k in done || k == key;
  }

  lemma SyncDone(before: map<string, string>, desired: map<string, string>, after: map<string, string>)
    requires SyncedFor(MANAGED, before, desired, after)
    ensures after == Synced(before, desired)
  {
    forall k ensures k in after <==> k in Synced(before, desired) {
      assert Value(after, k) == if k in MANAGED then Value(desired, k) else Value(before, k);
    }
    forall k | k in after ensures after[k] == Synced(before, desired)[k] {
      assert Value(after, k) == if k in MANAGED then Value(desired, k) else Value(before, k);
    }
  }

  method SyncManagedAnnotations(annotations: map<string, string>, desired: map<string, string>)
    returns (after: map<string, string>)
    ensures after == Synced(annotations, desired)
  {
    after := annotations;
    for i := 0 to |MANAGED|
      invariant SyncedFor(MANAGED[..i], annotations, desired, after)
    {
      SyncStep(MANAGED[..i], MANAGED[i], annotations, desired, after);
      assert MANAGED[..i + 1] == MANAGED[..i] + [MANAGED[i]];
      if Value(desired, MANAGED[i]) != "" {
        after := after[MANAGED[i] := Value(desired, MANAGED[i])];
      } else {
        after := after - {MANAGED[i]};
      }
    }
    assert MANAGED[..|MANAGED|] == MANAGED;
    SyncDone(annotations, desired, after);
  }

  method ApplyIngress<S(==)>(desired: IngressObject<S>, existing: IngressObject<S>) returns (after: IngressObject<S>)
    ensures after == Settled(desired, existing)
  {
    after := existing;
    if NeedsUpdate(desired, existing) {
      var annotations := SyncManagedAnnotations(existing.annotations, desired.annotations);
      after := after.(spec := desired.spec, annotations := annotations);
    }
  }

  /** Applies an Ingress that has rules and deletes the child when it has none. */
  method ReconcileIngressCR<S(==)>(desired: Option<IngressObject<S>>, existing: Option<IngressObject<S>>, write: Write)
    returns (after: Option<IngressObject<S>>, ok: bool)
    ensures after == AfterWrite(desired, existing, write)
    ensures ok == write.Accepted?
  {
    ok := write.Accepted?;
    after := existing;
    if write.Rejected? {
      return;
    }
    if desired.None? {
      if existing.Some? && existing.value.controlled {
        after := None;
      }
    } else if existing.None? {
      after := desired;
    } else {
      var settled := ApplyIngress(desired.value, existing.value);
      after := Some(settled);
    }
  }
}
