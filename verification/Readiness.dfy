/** Turning dial answers into a port verdict, with a grace clock kept on the status. */
module Readiness {
  import opened Meta
  import opened Dialer
  import opened Verifier
  import opened Resource

  const DEFAULT_GRACE := 180
  const PORT_REQUEUE := 30
  const MIN_RETRY := 60
  const MAX_RETRY := 600
  const PORT_NOT_LISTENING := "PortNotListening"

  function Grace(configured: int): (g: int)
    ensures g > 0
  {
    if configured <= 0 then DEFAULT_GRACE else configured
  }

  /** What the pass learns from the verifier and the pods: whether a verifier exists, its
      answer for the revision, whether a pod can be dialed, and whether a dial is coming. */
  datatype PortSight = PortSight(enabled: bool, answer: Option<DialResult>, podFound: bool, accepted: bool)

  function GraceClockStart(pc: Option<PortCheck>, revision: string): Option<int> {
    if pc.None? || pc.value.revision != revision then None else pc.value.failingSince
  }

  predicate AlreadyFailed(pc: Option<PortCheck>, revision: string, grace: int, now: int) {
    var start := GraceClockStart(pc, revision);
    start.Some? && |pc.value.failingPorts| > 0 && now - start.value >= grace
  }

  function RetryAfter(pc: Option<PortCheck>, grace: int, now: int): int {
    if pc.None? || pc.value.failingSince.None? then MIN_RETRY
    else
      var deadFor := now - pc.value.failingSince.value - grace;
      if deadFor < MIN_RETRY then MIN_RETRY else if deadFor > MAX_RETRY then MAX_RETRY else deadFor
  }

  datatype PortOutcome = PortOutcome(portCheck: Option<PortCheck>, failed: bool, requeueAfter: int)

  function VerifyPorts(ports: seq<Port>, pc: Option<PortCheck>, revision: string, sight: PortSight, grace: int,
                       now: int)
    : PortOutcome
  {
    if !sight.enabled || ports == [] then PortOutcome(None, false, 0)
    else if sight.answer.None? then
      PortOutcome(pc, AlreadyFailed(pc, revision, grace, now),
                  if sight.accepted || sight.podFound then PORT_REQUEUE else 0)
    else if AllOpen(sight.answer.value) then
      PortOutcome(Some(PortCheck(revision, false, [], None)), false, 0)
    else
      var start := GraceClockStart(pc, revision);
      var since := if start.Some? then start.value else now;
      var failed := now - since >= grace;
      PortOutcome(Some(PortCheck(revision, true, ClosedPorts(sight.answer.value), Some(since))),
                  failed, if failed then 0 else PORT_REQUEUE)
  }

  predicate DiagnosisAllowed(details: seq<FailureDetail>) {
    details == [] || details[0].kind == READINESS_FAILURE
  }

  /** Branch of one status evaluation: the new pass state and the wait it asks for. */
  function CheckPorts(obj: Object, st: PassState, revision: string, serving: bool, sight: PortSight, grace: int,
                      now: int)
    : (PassState, int)
  {
    if !DiagnosisAllowed(st.status.failureDetails) then (st.(status := st.status.(portCheck := None)), 0)
    else
      var out := VerifyPorts(obj.spec.ports, st.status.portCheck, revision, sight, grace, now);
      var st1 := st.(status := st.status.(portCheck := out.portCheck));
      if !out.failed then (st1.(status := st1.status.(failureDetails := [])), out.requeueAfter)
      else
        var st2 := st1.(status := st1.status.(failureDetails :=
          [FailureDetail(READINESS_FAILURE, PORT_NOT_LISTENING, "")]));
        var st3 := Set(obj, st2, WorkloadConverged, false, PORT_NOT_LISTENING, now);
        (ReportFailed(st3, PORT_NOT_LISTENING),
         if !serving then 0
         else if out.requeueAfter > 0 then out.requeueAfter
         else RetryAfter(out.portCheck, grace, now))
  }

  // ----- who owns the diagnosis -----

  /** The first failure detail was not written by the port check: the containers crashed. */
  predicate CrashFirst(details: seq<FailureDetail>) { details != [] && details[0].kind != "readiness_failure" }

  /** The port check holds the diagnosis: it found the ports dead. */
  predicate PortBlamed(details: seq<FailureDetail>) { details != [] && details[0].kind == "readiness_failure" }

  /** The record that an answer leaves: none without a verifier or ports, the old one without
      an answer, a clean one when every port accepts, and otherwise the refused ports with a
      clock that keeps running within the revision. */
  ghost predicate RecordOfAnswer(ports: seq<Port>, pc: Option<PortCheck>, revision: string, sight: PortSight, now: int,
                                 pc': Option<PortCheck>) {
    if !sight.enabled || ports == [] then pc' == None
    else if sight.answer.None? then pc' == pc
    else if forall i :: 0 <= i < |sight.answer.value| ==> sight.answer.value[i].open then
      pc' == Some(PortCheck(revision, false, [], None))
    else
      && pc'.Some? && pc'.value.revision == revision && pc'.value.failure
      && (forall p :: p in pc'.value.failingPorts <==> PortResult(p, false) in sight.answer.value)
      && pc'.value.failingSince == if pc.Some? && pc.value.revision == revision && pc.value.failingSince.Some?
                                   then pc.value.failingSince else Some(now)
  }

  /** The record says that this revision refused a port for at least the grace period. */
  predicate Dead(pc: Option<PortCheck>, revision: string, grace: int, now: int) {
    && pc.Some? && pc.value.revision == revision && pc.value.failingPorts != []
    && pc.value.failingSince.Some? && now - pc.value.failingSince.value >= grace
  }

  /** A dial is on its way, or a refusal was just judged. */
  predicate AnswerPending(ports: seq<Port>, sight: PortSight) {
    && sight.enabled && ports != []
    && if sight.answer.None? then sight.accepted || sight.podFound
       else exists i :: 0 <= i < |sight.answer.value| && !sight.answer.value[i].open
  }

  /** How long the check waits: thirty seconds for an answer while the revision may live, and
      for a dead one that serves, as long as it has been dead, from one to ten minutes. */
  predicate WaitOf(ports: seq<Port>, dead: bool, serving: bool, sight: PortSight, since: int, grace: int, now: int,
                   wait: int) {
    if !dead then wait == if AnswerPending(ports, sight) then 30 else 0
    else if !serving then wait == 0
    else if sight.answer.None? && AnswerPending(ports, sight) then wait == 30
    else
      && 60 <= wait <= 600
      && (60 <= now - since - grace <= 600 ==> wait == now - since - grace)
      && (now - since - grace < 60 ==> wait == 60) && (now - since - grace > 600 ==> wait == 600)
  }

  lemma VerifyMeaning(ports: seq<Port>, pc: Option<PortCheck>, revision: string, sight: PortSight, grace: int, now: int)
    requires WellFormed(pc)
    ensures var out := VerifyPorts(ports, pc, revision, sight, grace, now);
            && RecordOfAnswer(ports, pc, revision, sight, now, out.portCheck)
            && (out.failed <==> Dead(out.portCheck, revision, grace, now))
            && out.requeueAfter
               == (if AnswerPending(ports, sight) && (out.failed ==> sight.answer.None?) then 30 else 0)
  {
    if sight.answer.Some? {
      ClosedPortsMeaning(sight.answer.value);
    }
    VerdictReadsBack(ports, pc, revision, sight, grace, now);
  }

  /** Behind a crash the check drops its record, touches nothing else and asks for nothing. */
  predicate CrashOutcome(st: PassState, st': PassState, wait: int) {
    st' == st.(status := st.status.(portCheck := None)) && wait == 0
  }

  /** Otherwise the check leaves the record of the answer; it blames the ports and takes
      WorkloadConverged away exactly when that record is dead, and else leaves no detail. */
  ghost predicate CheckOutcome(obj: Object, st: PassState, revision: string, sight: PortSight, grace: int, now: int,
                               st': PassState) {
    var s, s', v := st.status, st'.status, st.verdicts;
    var dead := Dead(s'.portCheck, revision, grace, now);
    && RecordOfAnswer(obj.spec.ports, s.portCheck, revision, sight, now, s'.portCheck)
    && (dead <==> PortBlamed(s'.failureDetails)) && (!dead <==> s'.failureDetails == [])
    && st'.verdicts == (if dead && v.failed.None? then v.(failed := Some(Verdict("PortNotListening"))) else v)
    && (dead ==>
          && Holds(s'.conditions, WorkloadConverged, false, obj.generation)
          && s'.conditions[WorkloadConverged].reason == "PortNotListening")
    && (!dead ==> s'.conditions == s.conditions)
  }

  lemma CrashMeaning(obj: Object, st: PassState, revision: string, serving: bool, sight: PortSight, grace: int,
                     now: int)
    requires CrashFirst(st.status.failureDetails)
    ensures var (st', wait) := CheckPorts(obj, st, revision, serving, sight, grace, now); CrashOutcome(st, st', wait)
  {
  }

  lemma CheckMeaning(obj: Object, st: PassState, revision: string, serving: bool, sight: PortSight, grace: int,
                     now: int)
    requires WellFormed(st.status.portCheck) && !CrashFirst(st.status.failureDetails)
    ensures var st' := CheckPorts(obj, st, revision, serving, sight, grace, now).0;
            CheckOutcome(obj, st, revision, sight, grace, now, st')
  {
    VerifyMeaning(obj.spec.ports, st.status.portCheck, revision, sight, grace, now);
  }

  lemma WaitMeaning(obj: Object, st: PassState, revision: string, serving: bool, sight: PortSight, grace: int,
                    now: int)
    requires WellFormed(st.status.portCheck) && !CrashFirst(st.status.failureDetails)
    ensures var (st', wait) := CheckPorts(obj, st, revision, serving, sight, grace, now);
            var pc := st'.status.portCheck;
            var since := if pc.Some? && pc.value.failingSince.Some? then pc.value.failingSince.value else now;
            WaitOf(obj.spec.ports, Dead(pc, revision, grace, now), serving, sight, since, grace, now, wait)
  {
    VerifyMeaning(obj.spec.ports, st.status.portCheck, revision, sight, grace, now);
  }

  // ----- the verdict is a function of what the pass leaves behind -----

  /** Records are written whole: a running clock is a failure that names a port. */
  predicate WellFormed(pc: Option<PortCheck>) {
    pc.Some? ==>
      && (pc.value.failingSince.Some? <==> pc.value.failure)
      && (pc.value.failure <==> pc.value.failingPorts != [])
  }

  lemma VerifyKeepsWellFormed(ports: seq<Port>, pc: Option<PortCheck>, revision: string, sight: PortSight, grace: int,
                              now: int)
    requires WellFormed(pc)
    ensures WellFormed(VerifyPorts(ports, pc, revision, sight, grace, now).portCheck)
  {
    if sight.answer.Some? {
      ClosedPortsMeaning(sight.answer.value);
    }
  }

  /** On every branch the check fails exactly when the record it leaves is a failure for
      this revision, naming a port, whose clock is at least the grace period old. */
  lemma VerdictReadsBack(ports: seq<Port>, pc: Option<PortCheck>, revision: string, sight: PortSight, grace: int,
                         now: int)
    requires WellFormed(pc)
    ensures var out := VerifyPorts(ports, pc, revision, sight, grace, now);
            out.failed <==>
              && out.portCheck.Some?
              && out.portCheck.value.revision == revision
              && out.portCheck.value.failure
              && out.portCheck.value.failingPorts != []
              && out.portCheck.value.failingSince.Some?
              && now - out.portCheck.value.failingSince.value >= grace
  {
    VerifyKeepsWellFormed(ports, pc, revision, sight, grace, now);
    if sight.answer.Some? {
      ClosedPortsMeaning(sight.answer.value);
    }
  }

  lemma VerifyNeverStalls(ports: seq<Port>, pc: Option<PortCheck>, revision: string, sight: PortSight, grace: int,
                          now: int)
    requires WellFormed(pc)
    ensures var out := VerifyPorts(ports, pc, revision, sight, grace, now);
            && out.requeueAfter >= 0
            && (out.failed <==> AlreadyFailed(out.portCheck, revision, grace, now))
            && (out.portCheck.Some? && out.portCheck.value.failingSince.Some? && !out.failed
                && (sight.answer.Some? || sight.podFound)
                ==> out.requeueAfter == PORT_REQUEUE)
            && (out.requeueAfter > 0 ==> out.requeueAfter == PORT_REQUEUE)
  {
    VerdictReadsBack(ports, pc, revision, sight, grace, now);
  }

  lemma CondemnedIsNotConverged(obj: Object, st: PassState, now: int)
    ensures var st' := ReportFailed(Set(obj, st, WorkloadConverged, false, PORT_NOT_LISTENING, now),
                                    PORT_NOT_LISTENING);
            && st'.verdicts.failed.Some? && !CondTrue(obj, st'.status, WorkloadConverged)
            && st'.status.portCheck == st.status.portCheck
  {
  }

  /** The check cannot stall. A pass that does not fail and leaves a running clock comes
      back if it had an answer or a pod, and a failed serving workload always comes back. */
  lemma CheckNeverStalls(obj: Object, st: PassState, revision: string, serving: bool, sight: PortSight, grace: int,
                         now: int)
    requires WellFormed(st.status.portCheck)
    ensures var (st', wait) := CheckPorts(obj, st, revision, serving, sight, grace, now);
            && wait >= 0
            && (st'.status.portCheck.Some? && st'.status.portCheck.value.failingSince.Some?
                && !AlreadyFailed(st'.status.portCheck, revision, grace, now)
                && (sight.answer.Some? || sight.podFound)
                ==> wait == PORT_REQUEUE)
            && (serving && AlreadyFailed(st'.status.portCheck, revision, grace, now) ==> wait >= PORT_REQUEUE)
            && (!AlreadyFailed(st'.status.portCheck, revision, grace, now) ==> st'.verdicts == st.verdicts)
            && (AlreadyFailed(st'.status.portCheck, revision, grace, now) ==>
                  st'.verdicts.failed.Some? && !CondTrue(obj, st'.status, WorkloadConverged))
  {
    if DiagnosisAllowed(st.status.failureDetails) {
      var out := VerifyPorts(obj.spec.ports, st.status.portCheck, revision, sight, grace, now);
      VerifyNeverStalls(obj.spec.ports, st.status.portCheck, revision, sight, grace, now);
      if out.failed {
        var st1 := st.(status := st.status.(portCheck := out.portCheck));
        var st2 := st1.(status := st1.status.(failureDetails :=
          [FailureDetail(READINESS_FAILURE, PORT_NOT_LISTENING, "")]));
        CondemnedIsNotConverged(obj, st2, now);
      }
    }
  }

  /** The port verdict never touches what serves traffic. */
  lemma CheckKeepsAvailability(obj: Object, st: PassState, revision: string, serving: bool, sight: PortSight,
                               grace: int, now: int)
    ensures var st' := CheckPorts(obj, st, revision, serving, sight, grace, now).0;
            && st'.verdicts.notReady == st.verdicts.notReady
            && st'.status.conditions - {WorkloadConverged} == st.status.conditions - {WorkloadConverged}
            && (CondTrue(obj, st'.status, WorkloadConverged) ==> CondTrue(obj, st.status, WorkloadConverged))
  {
  }

  // ----- mutable form -----

  /** What the methods below see in the verifier object before they change it. */
  ghost function SightOf(v: Verifier?, key: Key, podIP: Option<string>, ports: seq<int>): PortSight
    reads v
  {
    if v == null then PortSight(false, None, false, false)
    else
      PortSight(true, Lookup(v.View(), key), podIP.Some?,
                podIP.Some? && (Enqueued(v.View(), Job(key, podIP.value, ports)).1
                                || key.Owner() in Enqueued(v.View(), Job(key, podIP.value, ports)).0.pending))
  }

  function KeyOf(obj: Object, revision: string): Key { Key(obj.namespace, obj.name, revision) }

  function Numbers(ports: seq<Port>): seq<int> { seq(|ports|, i requires 0 <= i < |ports| => ports[i].number) }

  /** Whatever other goroutines do to the verifier between two calls, if there are any. */
  method Others(v: Verifier, busy: bool)
    modifies v
    ensures !busy ==> v.View() == old(v.View())
  {
    if busy {
      v.results, v.pending, v.queue := *, *, *;
    }
  }

  /** An answer is coming exactly when the dial was admitted, as the verifier stood on entry,
      or another one for the resource is in flight, as it stands on return. */
  method SchedulePortCheck(v: Verifier, key: Key, podIP: Option<string>, ports: seq<int>, busy: bool)
    returns (podFound: bool, accepted: bool)
    modifies v
    ensures podFound == podIP.Some?
    ensures accepted == (podFound && (old(Enqueued(v.View(), Job(key, podIP.value, ports)).1)
                                      || key.Owner() in v.View().pending))
    ensures !busy ==> accepted == old(SightOf(v, key, podIP, ports)).accepted
    ensures !busy ==>
              v.View() == if podFound then old(Enqueued(v.View(), Job(key, podIP.value, ports)).0) else old(v.View())
  {
    if podIP == None {
      return false, false;
    }
    accepted := v.Enqueue(key, podIP.value, ports);
    if !accepted {
      Others(v, busy);
      accepted := v.Pending(key);
    }
    podFound := true;
  }

  /** Reads the stored answer and lines up the next dial. Other goroutines may use the verifier
      between any two of its calls: status, verdict and wait depend only on the answer read
      first, and a refusal that was judged is gone on return. Undisturbed, only all-open
      answers stay stored. */
  method VerifyPortsInPlace(r: StackResource, v: Verifier?, revision: string, podIP: Option<string>, grace: int,
                            now: int, busy: bool)
    returns (failed: bool, requeueAfter: int)
    modifies r, v
    ensures var out := old(VerifyPorts(r.obj.spec.ports, r.status.portCheck, revision,
                                       SightOf(v, KeyOf(r.obj, revision), podIP, Numbers(r.obj.spec.ports)),
                                       grace, now));
            && r.status == old(r.status).(portCheck := out.portCheck)
            && failed == out.failed && requeueAfter == out.requeueAfter
    ensures v != null && r.obj.spec.ports != [] && old(v != null && Lookup(v.View(), KeyOf(r.obj, revision)).Some?) ==>
              var left := Lookup(v.View(), KeyOf(r.obj, revision));
              left.Some? ==> AllOpen(left.value) && v.View() == old(v.View())
    ensures v != null && r.obj.spec.ports != [] && !busy ==>
              var left := Lookup(v.View(), KeyOf(r.obj, revision));
              left.Some? ==> AllOpen(left.value) && v.View() == old(v.View())
  {
    if v == null || r.obj.spec.ports == [] {
      r.status := r.status.(portCheck := None);
      return false, 0;
    }
    var key := KeyOf(r.obj, revision);
    var answer := v.Get(key);
    if answer.None? {
      Others(v, busy);
      var podFound, accepted := SchedulePortCheck(v, key, podIP, Numbers(r.obj.spec.ports), busy);
      failed := AlreadyFailed(r.status.portCheck, revision, grace, now);
      if accepted || podFound {
        return failed, PORT_REQUEUE;
      }
      return failed, 0;
    }
    if AllOpen(answer.value) {
      r.status := r.status.(portCheck := Some(PortCheck(revision, false, [], None)));
      return false, 0;
    }
    var clockStartedAt := GraceClockStart(r.status.portCheck, revision);
    if clockStartedAt.None? {
      clockStartedAt := Some(now);
    }
    var closed := CollectClosedPorts(answer.value);
    r.status := r.status.(portCheck := Some(PortCheck(revision, true, closed, clockStartedAt)));
    Others(v, busy);
    v.Forget(key);
    if now - clockStartedAt.value < grace {
      return false, PORT_REQUEUE;
    }
    return true, 0;
  }

  method CheckPortsInPlace(r: StackResource, c: VerdictCollector, v: Verifier?, revision: string, serving: bool,
                           podIP: Option<string>, grace: int, now: int)
    returns (wait: int)
    modifies r, c, v
    ensures (View(r, c), wait)
         == old(CheckPorts(r.obj, View(r, c), revision, serving,
                           SightOf(v, KeyOf(r.obj, revision), podIP, Numbers(r.obj.spec.ports)), grace, now))
  {
    if !DiagnosisAllowed(r.status.failureDetails) {
      r.status := r.status.(portCheck := None);
      return 0;
    }
    var failed, requeueAfter := VerifyPortsInPlace(r, v, revision, podIP, grace, now, true);
    if !failed {
      r.status := r.status.(failureDetails := []);
      return requeueAfter;
    }
    r.status := r.status.(failureDetails := [FailureDetail(READINESS_FAILURE, PORT_NOT_LISTENING, "")]);
    r.SetCondition(WorkloadConverged, false, PORT_NOT_LISTENING, now);
    c.ReportFailed(PORT_NOT_LISTENING);
    if serving {
      if requeueAfter > 0 {
        return requeueAfter;
      }
      return RetryAfter(r.status.portCheck, grace, now);
    }
    return 0;
  }
}
