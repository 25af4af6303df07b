/** The two TLS paths of a resource and the grace clock each keeps on the status. */
module Tls {
  import opened Meta
  import opened Resource

  const TLS_GRACE := 120

  datatype TlsStage = TlsNone | TlsWaiting | TlsReady | TlsUnavailable
  datatype TlsState = TlsState(stage: TlsStage, reason: string, retryAfter: int)

  const TLS_READY := "TLSReady"
  const TLS_WAITING := "CertificateIssuing"
  const SECRET_UNAVAILABLE := "TLSSecretUnavailable"

  function NoTls(): TlsState { TlsState(TlsNone, "", 0) }

  function RemainingGrace(since: Option<int>, now: int): int {
    if since.None? then TLS_GRACE
    else if TLS_GRACE - (now - since.value) <= 0 then 0
    else TLS_GRACE - (now - since.value)
  }

  datatype Certificate = Certificate(ready: bool, failedAttempts: int)

  function ClassifyCertificate(cert: Option<Certificate>, since: Option<int>, now: int): TlsState {
    if cert.Some? && cert.value.ready then TlsState(TlsReady, TLS_READY, 0)
    else if cert.Some? && cert.value.failedAttempts > 0 then TlsState(TlsUnavailable, "CertificateFailed", 0)
    else if RemainingGrace(since, now) == 0 then TlsState(TlsUnavailable, "CertificateTimedOut", 0)
    else TlsState(TlsWaiting, TLS_WAITING, RemainingGrace(since, now))
  }

  function UpdateCertClock(since: Option<int>, stage: TlsStage, now: int): Option<int> {
    if stage.TlsNone? || stage.TlsReady? then None
    else if since.Some? then since
    else Some(now)
  }

  function SecretPendingSince(tracking: Option<ReferencedTLS>, reference: string): Option<int> {
    if tracking.None? || tracking.value.reference != reference then None else tracking.value.waitingSince
  }

  function ReferencedWhileBlocked(tracking: Option<ReferencedTLS>, reference: string, now: int): TlsState {
    var remaining := RemainingGrace(SecretPendingSince(tracking, reference), now);
    if remaining == 0 then TlsState(TlsUnavailable, SECRET_UNAVAILABLE, 0)
    else TlsState(TlsWaiting, TLS_WAITING, remaining)
  }

  function UpdateSecretClock(tracking: Option<ReferencedTLS>, reference: string, stage: TlsStage,
                             now: int): Option<ReferencedTLS> {
    Some(ReferencedTLS(reference,
      if stage.TlsReady? then None
      else if SecretPendingSince(tracking, reference).Some? then SecretPendingSince(tracking, reference)
      else Some(now)))
  }

  // ----- the stage of each path, from what is read -----

  /** The grace period is not over; it has not begun without a clock. */
  predicate GraceLeft(since: Option<int>, now: int) { since.Some? ==> now < since.value + 120 }

  /** How much grace is left, if any. */
  function GraceAfter(since: Option<int>, now: int): int {
    match since
    case None => 120
    case Some(t) => t + 120 - now
  }

  /** A certificate is ready when cert-manager says so. Otherwise the path waits exactly while no
      issuance failed and grace is left, and the retry is when the grace ends. */
  lemma CertificateMeaning(cert: Option<Certificate>, since: Option<int>, now: int)
    ensures var tls := ClassifyCertificate(cert, since, now);
            var ready := cert.Some? && cert.value.ready;
            var failed := cert.Some? && cert.value.failedAttempts > 0;
            && (tls.stage.TlsReady? <==> ready)
            && (tls.stage.TlsWaiting? <==> !ready && !failed && GraceLeft(since, now))
            && (tls.stage.TlsUnavailable? <==> !ready && (failed || !GraceLeft(since, now)))
            && (tls.stage.TlsWaiting? ==>
                  tls.retryAfter == GraceAfter(since, now))
            && (!tls.stage.TlsWaiting? ==> tls.retryAfter == 0)
            && tls.reason == match tls.stage {
                               case TlsReady => "TLSReady"
                               case TlsWaiting => "CertificateIssuing"
                               case _ => if failed then "CertificateFailed" else "CertificateTimedOut"
                             }
  {
  }

  /** A Secret that cannot be mirrored waits exactly while grace is left under its own name. */
  lemma BlockedSecretMeaning(tracking: Option<ReferencedTLS>, reference: string, now: int)
    ensures var tls := ReferencedWhileBlocked(tracking, reference, now);
            var since := if tracking.Some? && tracking.value.reference == reference then tracking.value.waitingSince
                         else None;
            && (tls.stage.TlsWaiting? <==> GraceLeft(since, now))
            && (tls.stage.TlsUnavailable? <==> !GraceLeft(since, now))
            && (tls.stage.TlsWaiting? ==>
                  tls.reason == "CertificateIssuing" && tls.retryAfter == GraceAfter(since, now))
            && (tls.stage.TlsUnavailable? ==> tls.retryAfter == 0 && tls.reason == "TLSSecretUnavailable")
  {
  }

  // ----- both clocks are one clock -----

  /** What one persisted pass does to a grace clock: nothing, clear it because the path is
      ready or out of use, or keep it running from its first blocked pass. */
  datatype ClockEvent = Untouched | Cleared | Blocked(now: int)

  function Tick(since: Option<int>, e: ClockEvent): Option<int> {
    match e
    case Untouched => since
    case Cleared => None
    case Blocked(now) => if since.Some? then since else Some(now)
  }

  function TickAll(since: Option<int>, events: seq<ClockEvent>): Option<int> {
    if events == [] then since else Tick(TickAll(since, events[..|events| - 1]), events[|events| - 1])
  }

  /** A clock that each step keeps while it runs has not moved. */
  lemma {:induction false} SteadyClock(clocks: seq<Option<int>>, i: nat, j: nat)
    requires i <= j < |clocks| && clocks[i].Some?
    requires forall k :: i <= k < j && clocks[k].Some? ==> clocks[k + 1] == clocks[k]
    ensures clocks[j] == clocks[i]
  {
    if i < j {
      SteadyClock(clocks, i, j - 1);
    }
  }

  /** Both paths wait exactly while blocked with grace left, and the retry lands on the
      deadline of the clock they leave behind. */
  lemma CertPathClock(cert: Option<Certificate>, since: Option<int>, now: int)
    requires since.Some? ==> since.value <= now
    ensures var tls := ClassifyCertificate(cert, since, now);
            var since' := UpdateCertClock(since, tls.stage, now);
            && since' == Tick(since, if tls.stage.TlsReady? then Cleared else Blocked(now))
            && (since'.Some? ==> since'.value <= now)
            && (tls.stage.TlsWaiting? ==> since'.Some? && now < since'.value + TLS_GRACE
                                          && tls.retryAfter == since'.value + TLS_GRACE - now
                                          && 0 < tls.retryAfter <= TLS_GRACE)
            && (since'.Some? && now >= since'.value + TLS_GRACE ==> tls.stage.TlsUnavailable?)
            && (!tls.stage.TlsWaiting? ==> tls.retryAfter == 0)
            && (tls.stage.TlsReady? <==> cert.Some? && cert.value.ready)
  {
  }

  lemma SecretPathClock(tracking: Option<ReferencedTLS>, reference: string, now: int)
    requires SecretPendingSince(tracking, reference).Some? ==> SecretPendingSince(tracking, reference).value <= now
    ensures var tls := ReferencedWhileBlocked(tracking, reference, now);
            var tracking' := UpdateSecretClock(tracking, reference, tls.stage, now);
            var since' := SecretPendingSince(tracking', reference);
            && since' == Tick(SecretPendingSince(tracking, reference), Blocked(now))
            && since'.Some? && since'.value <= now
            && (tls.stage.TlsWaiting? <==> now < since'.value + TLS_GRACE)
            && (tls.stage.TlsWaiting? ==>
                  tls.retryAfter == since'.value + TLS_GRACE - now && 0 < tls.retryAfter <= TLS_GRACE)
            && (!tls.stage.TlsWaiting? ==> tls.stage.TlsUnavailable? && tls.retryAfter == 0)
  {
  }
}
