/** The only writer of the summary status. */
module Derive {
  import opened Meta
  import opened Sorting
  import opened Resource

  // ----- verdicts collected over a pass -----

  datatype Report = NotReadyReport(reason: string) | FailedReport(reason: string)

  function Reporting(st: PassState, r: Report): PassState {
    match r
    case NotReadyReport(reason) => ReportNotReady(st, reason)
    case FailedReport(reason) => ReportFailed(st, reason)
  }

  function ReportAll(st: PassState, reports: seq<Report>): PassState {
    if reports == [] then st else Reporting(ReportAll(st, reports[..|reports| - 1]), reports[|reports| - 1])
  }

  lemma {:induction false} ReportsKeepStatus(status: Status, reports: seq<Report>)
    ensures ReportAll(PassState(status, NoVerdicts()), reports).status == status
  {
    if reports != [] {
      ReportsKeepStatus(status, reports[..|reports| - 1]);
    }
  }

  lemma {:induction false} FirstFailureWins(status: Status, reports: seq<Report>)
    ensures var v := ReportAll(PassState(status, NoVerdicts()), reports).verdicts;
            && (v.failed.Some? <==> exists i :: 0 <= i < |reports| && reports[i].FailedReport?)
            && (forall i :: 0 <= i < |reports| && reports[i].FailedReport?
                  && (forall j :: 0 <= j < i ==> !reports[j].FailedReport?)
                  ==> v.failed == Some(Verdict(reports[i].reason)))
  {
    if reports != [] {
      var front, last := reports[..|reports| - 1], reports[|reports| - 1];
      FirstFailureWins(status, front);
      assert forall i :: 0 <= i < |front| ==> reports[i] == front[i];
      assert reports[|front|] == last;
    }
  }

  lemma {:induction false} FirstWaitWins(status: Status, reports: seq<Report>)
    ensures var v := ReportAll(PassState(status, NoVerdicts()), reports).verdicts;
            && (v.notReady.Some? <==> exists i :: 0 <= i < |reports| && reports[i].NotReadyReport?)
            && (forall i :: 0 <= i < |reports| && reports[i].NotReadyReport?
                  && (forall j :: 0 <= j < i ==> !reports[j].NotReadyReport?)
                  ==> v.notReady == Some(Verdict(reports[i].reason)))
  {
    if reports != [] {
      var front, last := reports[..|reports| - 1], reports[|reports| - 1];
      FirstWaitWins(status, front);
      assert forall i :: 0 <= i < |front| ==> reports[i] == front[i];
      assert reports[|front|] == last;
    }
  }

  /** The first report of each kind wins and the status is left alone. */
  lemma FirstReportWins(status: Status, reports: seq<Report>)
    ensures var st := ReportAll(PassState(status, NoVerdicts()), reports);
            && st.status == status
            && (st.verdicts.failed.Some? <==> exists i :: 0 <= i < |reports| && reports[i].FailedReport?)
            && (st.verdicts.notReady.Some? <==> exists i :: 0 <= i < |reports| && reports[i].NotReadyReport?)
            && (forall i :: 0 <= i < |reports| && reports[i].FailedReport?
                  && (forall j :: 0 <= j < i ==> !reports[j].FailedReport?)
                  ==> st.verdicts.failed == Some(Verdict(reports[i].reason)))
            && (forall i :: 0 <= i < |reports| && reports[i].NotReadyReport?
                  && (forall j :: 0 <= j < i ==> !reports[j].NotReadyReport?)
                  ==> st.verdicts.notReady == Some(Verdict(reports[i].reason)))
  {
    ReportsKeepStatus(status, reports);
    FirstFailureWins(status, reports);
    FirstWaitWins(status, reports);
  }

  // ----- derivation -----

  function DeriveFailed(obj: Object, st: PassState, v: Verdict, now: int): PassState {
    var st1 := st.(status := st.status.(phase := Failed));
    var st2 := Set(obj, st1, Stalled, true, v.reason, now);
    var st3 := Set(obj, st2, Converged, false, v.reason, now);
    if CondTrue(obj, st3.status, WorkloadAvailable) then Set(obj, st3, Available, true, "ServingButStalled", now)
    else Set(obj, st3, Available, false, v.reason, now)
  }

  function DeriveNotReady(obj: Object, st: PassState, v: Verdict, now: int): PassState {
    var st1 := st.(status := st.status.(phase := Pending));
    var st2 := Set(obj, st1, Available, false, v.reason, now);
    var st3 := Set(obj, st2, Converged, false, v.reason, now);
    Set(obj, st3, Stalled, false, v.reason, now)
  }

  function CurrentReason(obj: Object, s: Status, t: ConditionType, fallback: string): string {
    if t in s.conditions && s.conditions[t].generation == obj.generation then s.conditions[t].reason else fallback
  }

  function DeriveNoVerdict(obj: Object, st: PassState, now: int): PassState {
    var st1 := st.(status := st.status.(imageRevision :=
      if obj.spec.buildRevision.Some? then obj.spec.buildRevision.value else st.status.imageRevision));
    var converged := CondTrue(obj, st1.status, WorkloadConverged);
    var available := CondTrue(obj, st1.status, WorkloadAvailable);
    var st2 := Set(obj, st1, Converged, converged,
                   CurrentReason(obj, st1.status, WorkloadConverged, "WorkloadNotConverged"), now);
    var st3 := st2.(status := st2.status.(phase := if converged then Ready else Degraded));
    var reason := if available then "StackResourceAvailable" else "WorkloadNotAvailable";
    Set(obj, Set(obj, st3, Available, available, reason, now), Stalled, false, reason, now)
  }

  function DeclaredFailingPorts(ports: seq<Port>, pc: Option<PortCheck>): seq<int> {
    if pc.None? || !pc.value.failure then [] else Declared(ports, pc.value.failingPorts)
  }

  function Declared(ports: seq<Port>, failing: seq<int>): seq<int> {
    if failing == [] then []
    else
      var rest := Declared(ports, failing[..|failing| - 1]);
      var n := failing[|failing| - 1];
      if DeclaresPort(ports, n) then rest + [n] else rest
  }

  predicate DeclaresPort(ports: seq<Port>, n: int) { exists i :: 0 <= i < |ports| && ports[i].number == n }

  lemma {:induction false} DeclaredCounts(ports: seq<Port>, failing: seq<int>, n: int)
    ensures var r := Declared(ports, failing);
            && multiset(r)[n] == (if DeclaresPort(ports, n) then multiset(failing)[n] else 0)
            && (n in r <==> n in failing && DeclaresPort(ports, n))
  {
    if failing != [] {
      DeclaredCounts(ports, failing[..|failing| - 1], n);
      assert failing == failing[..|failing| - 1] + [failing[|failing| - 1]];
    }
  }

  lemma {:induction false} DeclaredStaysSorted(ports: seq<Port>, failing: seq<int>)
    requires Sorted(failing, IntLeq)
    ensures Sorted(Declared(ports, failing), IntLeq)
  {
    if failing != [] {
      var front, last := failing[..|failing| - 1], failing[|failing| - 1];
      DeclaredStaysSorted(ports, front);
      var rest := Declared(ports, front);
      forall j | 0 <= j < |rest| ensures IntLeq(rest[j], last) {
        DeclaredCounts(ports, front, rest[j]);
        assert rest[j] in front;
      }
    }
  }

  /** The ports blamed are exactly the recorded refusals that the spec still declares, as
      often as recorded, and ascending when the record is. */
  lemma DeclaredFailingPortsMeaning(ports: seq<Port>, pc: Option<PortCheck>, n: int)
    ensures var r := DeclaredFailingPorts(ports, pc);
            && (n in r <==> pc.Some? && pc.value.failure && n in pc.value.failingPorts && DeclaresPort(ports, n))
            && (n in r ==> multiset(r)[n] == multiset(pc.value.failingPorts)[n])
            && (pc.Some? && Sorted(pc.value.failingPorts, IntLeq) ==> Sorted(r, IntLeq))
  {
    if pc.Some? {
      DeclaredCounts(ports, pc.value.failingPorts, n);
      if Sorted(pc.value.failingPorts, IntLeq) {
        DeclaredStaysSorted(ports, pc.value.failingPorts);
      }
    }
  }

  function FirstCrash(details: seq<FailureDetail>): Option<FailureDetail> {
    if details == [] then None
    else if details[0].kind == RUNTIME_CRASH && (details[0].reason != "" || details[0].message != "")
      then Some(details[0])
    else FirstCrash(details[1..])
  }

  function Classify(obj: Object, st: PassState): (SummaryState, string) {
    var s, v := st.status, st.verdicts;
    var crash := FirstCrash(s.failureDetails);
    if v.failed.Some? then (SummaryFailed, v.failed.value.reason)
    else if v.notReady.Some? && CondFalse(obj, s, BuildReady) then (SummaryBuilding, Reason(s.conditions, BuildReady))
    else if v.notReady.Some? && CondFalse(obj, s, DependenciesReady)
      then (SummaryWaiting, Reason(s.conditions, DependenciesReady))
    else if v.notReady.Some? && crash.Some? then (SummaryFailed, crash.value.reason)
    else if v.notReady.None? && CondTrue(obj, s, WorkloadConverged) && CondTrue(obj, s, WorkloadAvailable) then
      (SummaryReady, Reason(s.conditions, WorkloadConverged))
    else
      (SummaryDeploying,
       if DeclaredFailingPorts(obj.spec.ports, s.portCheck) != [] then "PortNotListening"
       else if v.notReady.Some? then v.notReady.value.reason
       else CurrentReason(obj, s, WorkloadConverged, "WorkloadNotConverged"))
  }

  function Observed(obj: Object, st: PassState): PassState {
    st.(status := st.status.(observedGeneration := obj.generation,
                             observedRevision := if obj.revision.Some? then obj.revision.value
                                                 else st.status.observedRevision))
  }

  function DeriveConditions(obj: Object, st: PassState, now: int): PassState {
    if st.verdicts.failed.Some? then DeriveFailed(obj, st, st.verdicts.failed.value, now)
    else if st.verdicts.notReady.Some? then DeriveNotReady(obj, st, st.verdicts.notReady.value, now)
    else DeriveNoVerdict(obj, st, now)
  }

  function DeriveSummary(obj: Object, st: PassState, now: int): Status {
    var st1 := DeriveConditions(obj, Observed(obj, st), now);
    var (state, reason) := Classify(obj, st1);
    st1.status.(summary := Some(Summary(state, reason, obj.generation)))
  }

  // ----- what the summary means -----

  /** The summary written for this generation, in terms of verdicts and of the domain
      conditions that are current. */
  ghost predicate SummaryOf(obj: Object, before: Status, v: Verdicts, s: Status) {
    var serving, converged := CondTrue(obj, before, WorkloadAvailable), CondTrue(obj, before, WorkloadConverged);
    && (s.phase == Failed <==> v.failed.Some?)
    && (s.phase == Pending <==> v.failed.None? && v.notReady.Some?)
    && (s.phase == Ready <==> !Reported(v) && converged)
    && (s.phase == Degraded <==> !Reported(v) && !converged)
    && Holds(s.conditions, Available, serving && (v.failed.Some? || v.notReady.None?), obj.generation)
    && Holds(s.conditions, Stalled, v.failed.Some?, obj.generation)
    && Holds(s.conditions, Converged, !Reported(v) && converged, obj.generation)
    && s.observedGeneration == obj.generation
    && (obj.revision.Some? ==> s.observedRevision == obj.revision.value)
  }

  /** The derivation writes the summary and nothing else the chain reads. */
  ghost predicate SummaryOnly(before: Status, s: Status) {
    && s.conditions - {Available, Stalled, Converged} == before.conditions - {Available, Stalled, Converged}
    && s.portCheck == before.portCheck
    && s.certWaitingSince == before.certWaitingSince && s.referencedTLS == before.referencedTLS
    && s.addresses == before.addresses
  }

  lemma DeriveFailedMeaning(obj: Object, st: PassState, now: int)
    requires st.verdicts.failed.Some?
    ensures var d := DeriveFailed(obj, Observed(obj, st), st.verdicts.failed.value, now);
            SummaryOf(obj, st.status, st.verdicts, d.status)
            && SummaryOnly(st.status, d.status) && d.verdicts == st.verdicts
  {
  }

  lemma DeriveNotReadyMeaning(obj: Object, st: PassState, now: int)
    requires st.verdicts.failed.None? && st.verdicts.notReady.Some?
    ensures var d := DeriveNotReady(obj, Observed(obj, st), st.verdicts.notReady.value, now);
            SummaryOf(obj, st.status, st.verdicts, d.status)
            && SummaryOnly(st.status, d.status) && d.verdicts == st.verdicts
  {
  }

  lemma DeriveNoVerdictMeaning(obj: Object, st: PassState, now: int)
    requires !Reported(st.verdicts)
    ensures var d := DeriveNoVerdict(obj, Observed(obj, st), now);
            SummaryOf(obj, st.status, st.verdicts, d.status)
            && SummaryOnly(st.status, d.status) && d.verdicts == st.verdicts
  {
  }

  lemma DomainConditionsKept(obj: Object, before: Status, s: Status, t: ConditionType)
    requires SummaryOnly(before, s) && t != Available && t != Stalled && t != Converged
    ensures CondTrue(obj, s, t) == CondTrue(obj, before, t) && CondFalse(obj, s, t) == CondFalse(obj, before, t)
    ensures t in s.conditions <==> t in before.conditions
    ensures t in s.conditions ==> s.conditions[t] == before.conditions[t]
  {
    var summary := {Available, Stalled, Converged};
    assert t in s.conditions <==> t in s.conditions - summary;
    assert t in before.conditions <==> t in before.conditions - summary;
    assert t in s.conditions ==> s.conditions[t] == (s.conditions - summary)[t];
    assert t in before.conditions ==> before.conditions[t] == (before.conditions - summary)[t];
  }

  /** Exact meaning of phase, conditions and summary for any verdicts and conditions. */
  lemma SummaryMeaning(obj: Object, st: PassState, now: int)
    ensures var s := DeriveSummary(obj, st, now);
            && SummaryOf(obj, st.status, st.verdicts, s)
            && !(CondTrue(obj, s, Stalled) && CondTrue(obj, s, Converged))
            && s.summary.Some? && s.summary.value.generation == obj.generation
            && (s.summary.value.state == SummaryReady <==> s.phase == Ready && CondTrue(obj, s, Available))
            && (s.phase == Failed ==> s.summary.value.state == SummaryFailed)
            && (s.summary.value.state == SummaryBuilding || s.summary.value.state == SummaryWaiting ==>
                  s.phase == Pending)
            && SummaryOnly(st.status, s)
  {
    if st.verdicts.failed.Some? {
      DeriveFailedMeaning(obj, st, now);
    } else if st.verdicts.notReady.Some? {
      DeriveNotReadyMeaning(obj, st, now);
    } else {
      DeriveNoVerdictMeaning(obj, st, now);
    }
    var d := DeriveConditions(obj, Observed(obj, st), now);
    DomainConditionsKept(obj, st.status, d.status, WorkloadAvailable);
    DomainConditionsKept(obj, st.status, d.status, WorkloadConverged);
  }

  // ----- which state the summary names -----

  /** Detail i is the first crash that says something about itself. */
  predicate FirstTelling(details: seq<FailureDetail>, i: int) {
    && 0 <= i < |details| && Tells(details[i])
    && forall j :: 0 <= j < i ==> !Tells(details[j])
  }

  predicate Tells(d: FailureDetail) { d.kind == "runtime_crash" && !(d.reason == "" && d.message == "") }

  lemma {:induction false} FirstCrashMeaning(details: seq<FailureDetail>)
    ensures FirstCrash(details).None? <==> forall i :: 0 <= i < |details| ==> !Tells(details[i])
    ensures FirstCrash(details).Some? ==>
              exists i :: FirstTelling(details, i) && details[i] == FirstCrash(details).value
  {
    if details != [] {
      var rest := details[1..];
      assert forall i :: 0 <= i < |rest| ==> rest[i] == details[i + 1];
      if Tells(details[0]) {
        assert FirstTelling(details, 0);
      } else {
        FirstCrashMeaning(rest);
        if FirstCrash(rest).Some? {
          var i :| FirstTelling(rest, i) && rest[i] == FirstCrash(rest).value;
          assert FirstTelling(details, i + 1);
        }
        forall i | 0 < i < |details| ensures Tells(details[i]) <==> Tells(rest[i - 1]) { }
      }
    }
  }

  /** The condition is there, is about this generation, and is not true. */
  predicate SaysNo(obj: Object, s: Status, t: ConditionType) {
    t in s.conditions && s.conditions[t].generation == obj.generation && !s.conditions[t].status
  }

  /** While nothing has failed but something is not ready: the build comes first, then the
      dependencies, then a crash. */
  ghost predicate StateOf(obj: Object, s: Status, v: Verdicts, state: SummaryState) {
    var crash := exists i :: 0 <= i < |s.failureDetails| && Tells(s.failureDetails[i]);
    var building, waiting := SaysNo(obj, s, BuildReady), SaysNo(obj, s, DependenciesReady);
    var hold := v.failed.None? && v.notReady.Some?;
    && (state == SummaryBuilding <==> hold && building)
    && (state == SummaryWaiting <==> hold && !building && waiting)
    && (state == SummaryFailed <==> v.failed.Some? || (hold && !building && !waiting && crash))
    && (state == SummaryReady <==>
          !Reported(v) && CondTrue(obj, s, WorkloadConverged) && CondTrue(obj, s, WorkloadAvailable))
  }

  /** The record says that the port was refused, and the spec still declares it. */
  predicate StillRefused(ports: seq<Port>, pc: Option<PortCheck>, n: int) {
    && pc.Some? && pc.value.failure && n in pc.value.failingPorts
    && exists i :: 0 <= i < |ports| && ports[i].number == n
  }

  /** The reason that goes with a state. */
  ghost predicate ReasonOf(obj: Object, s: Status, v: Verdicts, state: SummaryState, reason: string) {
    match state
    case SummaryBuilding => reason == Reason(s.conditions, BuildReady)
    case SummaryWaiting => reason == Reason(s.conditions, DependenciesReady)
    case SummaryReady => reason == Reason(s.conditions, WorkloadConverged)
    case SummaryFailed =>
      if v.failed.Some? then reason == v.failed.value.reason
      else exists i :: FirstTelling(s.failureDetails, i) && reason == s.failureDetails[i].reason
    case SummaryDeploying =>
      if exists n :: StillRefused(obj.spec.ports, s.portCheck, n) then reason == "PortNotListening"
      else if v.notReady.Some? then reason == v.notReady.value.reason
      else RolloutReason(obj, s, reason)
  }

  /** The reason of WorkloadConverged, if it is about this generation. */
  predicate RolloutReason(obj: Object, s: Status, reason: string) {
    if WorkloadConverged in s.conditions && s.conditions[WorkloadConverged].generation == obj.generation
      then reason == s.conditions[WorkloadConverged].reason
    else reason == "WorkloadNotConverged"
  }

  lemma ClassifyMeaning(obj: Object, st: PassState)
    ensures var (state, reason) := Classify(obj, st);
            StateOf(obj, st.status, st.verdicts, state) && ReasonOf(obj, st.status, st.verdicts, state, reason)
  {
    FirstCrashMeaning(st.status.failureDetails);
    SomePortBlamed(obj.spec.ports, st.status.portCheck);
  }

  lemma SomePortBlamed(ports: seq<Port>, pc: Option<PortCheck>)
    ensures DeclaredFailingPorts(ports, pc) != [] <==> exists n :: StillRefused(ports, pc, n)
  {
    var blamed := DeclaredFailingPorts(ports, pc);
    if blamed != [] {
      DeclaredFailingPortsMeaning(ports, pc, blamed[0]);
      assert StillRefused(ports, pc, blamed[0]);
    }
    if n :| StillRefused(ports, pc, n) {
      DeclaredFailingPortsMeaning(ports, pc, n);
    }
  }

  /** What Classify reads of a status. */
  ghost predicate ReadsSame(a: Status, b: Status) {
    && a.failureDetails == b.failureDetails && a.portCheck == b.portCheck
    && forall t :: t == BuildReady || t == DependenciesReady || t == WorkloadAvailable || t == WorkloadConverged ==>
         (t in a.conditions <==> t in b.conditions) && (t in a.conditions ==> a.conditions[t] == b.conditions[t])
  }

  lemma DerivationKeepsMemory(obj: Object, st: PassState, now: int)
    ensures var d := DeriveConditions(obj, Observed(obj, st), now);
            d.status.failureDetails == st.status.failureDetails && d.verdicts == st.verdicts
  {
  }

  lemma DerivationReadsSame(obj: Object, st: PassState, now: int)
    ensures var d := DeriveConditions(obj, Observed(obj, st), now);
            ReadsSame(st.status, d.status) && d.verdicts == st.verdicts
  {
    var d := DeriveConditions(obj, Observed(obj, st), now);
    DerivationKeepsMemory(obj, st, now);
    DerivationWritesSummary(obj, st, now);
    forall t | t == BuildReady || t == DependenciesReady || t == WorkloadAvailable || t == WorkloadConverged
      ensures (t in st.status.conditions <==> t in d.status.conditions)
              && (t in st.status.conditions ==> st.status.conditions[t] == d.status.conditions[t])
    {
      DomainConditionsKept(obj, st.status, d.status, t);
    }
  }

  lemma DerivationWritesSummary(obj: Object, st: PassState, now: int)
    ensures SummaryOnly(st.status, DeriveConditions(obj, Observed(obj, st), now).status)
  {
    if st.verdicts.failed.Some? {
      DeriveFailedMeaning(obj, st, now);
    } else if st.verdicts.notReady.Some? {
      DeriveNotReadyMeaning(obj, st, now);
    } else {
      DeriveNoVerdictMeaning(obj, st, now);
    }
  }

  lemma SameClassification(obj: Object, a: Status, b: Status, v: Verdicts, state: SummaryState, reason: string)
    requires ReadsSame(a, b) && StateOf(obj, b, v, state) && ReasonOf(obj, b, v, state, reason)
    ensures StateOf(obj, a, v, state) && ReasonOf(obj, a, v, state, reason)
  {
  }

  /** The summary names exactly one state, and the reason for it, from the verdicts, the current
      domain conditions, the crash details and the port record that the pass ended with. */
  lemma SummaryNamesState(obj: Object, st: PassState, now: int)
    ensures var summary := DeriveSummary(obj, st, now).summary;
            && summary.Some?
            && StateOf(obj, st.status, st.verdicts, summary.value.state)
            && ReasonOf(obj, st.status, st.verdicts, summary.value.state, summary.value.reason)
  {
    var d := DeriveConditions(obj, Observed(obj, st), now);
    ClassifyMeaning(obj, d);
    DerivationReadsSame(obj, st, now);
    var (state, reason) := Classify(obj, d);
    SameClassification(obj, st.status, d.status, st.verdicts, state, reason);
  }

  /** The order of reports within a pass never changes phase, the three conditions or
      whether the summary says ready. */
  lemma ReportOrderIsIrrelevant(obj: Object, status: Status, a: seq<Report>, b: seq<Report>, now: int)
    requires multiset(a) == multiset(b)
    ensures var x := DeriveSummary(obj, ReportAll(PassState(status, NoVerdicts()), a), now);
            var y := DeriveSummary(obj, ReportAll(PassState(status, NoVerdicts()), b), now);
            && x.phase == y.phase
            && (forall t :: t == Available || t == Stalled || t == Converged ==>
                  CondTrue(obj, x, t) == CondTrue(obj, y, t))
            && (x.summary.value.state == SummaryReady <==> y.summary.value.state == SummaryReady)
  {
    var sa, sb := ReportAll(PassState(status, NoVerdicts()), a), ReportAll(PassState(status, NoVerdicts()), b);
    SameKinds(status, a, b);
    SameKinds(status, b, a);
    FirstReportWins(status, a);
    FirstReportWins(status, b);
    SummaryMeaning(obj, sa, now);
    SummaryMeaning(obj, sb, now);
  }

  lemma SameKinds(status: Status, a: seq<Report>, b: seq<Report>)
    requires multiset(a) == multiset(b)
    ensures var sa, sb := ReportAll(PassState(status, NoVerdicts()), a), ReportAll(PassState(status, NoVerdicts()), b);
            (sa.verdicts.failed.Some? ==> sb.verdicts.failed.Some?)
            && (sa.verdicts.notReady.Some? ==> sb.verdicts.notReady.Some?)
  {
    FirstReportWins(status, a);
    FirstReportWins(status, b);
    if i :| 0 <= i < |a| && a[i].FailedReport? {
      assert a[i] in multiset(b);
      var j :| 0 <= j < |b| && b[j] == a[i];
    }
    if i :| 0 <= i < |a| && a[i].NotReadyReport? {
      assert a[i] in multiset(b);
      var j :| 0 <= j < |b| && b[j] == a[i];
    }
  }

  // ----- why the conditions say so -----

  predicate Because(s: Status, t: ConditionType, reason: string) {
    t in s.conditions && s.conditions[t].reason == reason
  }

  /** The reasons of the three conditions: that of the verdict, but that a failed workload still
      serves; without one, that of the rollout, and whether the workload serves. Without a
      verdict the status also names the revision the image was built from. */
  lemma SummaryReasons(obj: Object, st: PassState, now: int)
    ensures var s, v, serving := DeriveSummary(obj, st, now), st.verdicts, CondTrue(obj, st.status, WorkloadAvailable);
            if v.failed.Some? then
              && Because(s, Stalled, v.failed.value.reason) && Because(s, Converged, v.failed.value.reason)
              && Because(s, Available, if serving then "ServingButStalled" else v.failed.value.reason)
            else if v.notReady.Some? then
              && Because(s, Stalled, v.notReady.value.reason) && Because(s, Converged, v.notReady.value.reason)
              && Because(s, Available, v.notReady.value.reason)
            else
              && Converged in s.conditions && RolloutReason(obj, st.status, s.conditions[Converged].reason)
              && Because(s, Available, if serving then "StackResourceAvailable" else "WorkloadNotAvailable")
              && Because(s, Stalled, if serving then "StackResourceAvailable" else "WorkloadNotAvailable")
    ensures var s := DeriveSummary(obj, st, now);
            s.imageRevision == match obj.spec.buildRevision {
                                 case None => st.status.imageRevision
                                 case Some(r) => if Reported(st.verdicts) then st.status.imageRevision else r
                               }
  {
  }
}
