/** The Stack status computed from its children. */
module Aggregate {
  import opened Meta
  import opened Sorting
  import opened Resource

  datatype Child = Child(obj: Object, status: Status)

  datatype Why =
    | NoRevision
    | PreviousRevision
    | PreviousRelease
    | StalledBecause(reason: string)
    | ServingNotConverged
    | NoStatus
    | NotAvailable(reason: string)

  datatype ChildSummary =
    | MissingChild(name: string)
    | PresentChild(name: string, phase: Phase, observedRevision: string, lastConverged: Option<Convergence>,
                   replicas: Replicas, convergedRevision: string, why: Option<Why>)

  datatype StackCondition =
    StackStalled | ResourcesReady | StackAvailable | StackConverged | StackDegraded | StackProgressing

  datatype StackPhase = PhaseReady | PhasePending | PhaseFailed | PhaseDegraded | PhaseProgressing

  datatype ConvergenceRecord = ConvergenceRecord(revision: string, releaseID: string, at: int)

  datatype StackStatus = StackStatus(
    observedGeneration: int,
    targetRevision: string,
    conditions: map<StackCondition, Condition>,
    phase: StackPhase,
    lastConverged: Option<ConvergenceRecord>,
    resources: seq<ChildSummary>,
    orphans: seq<string>)

  /** An empty revision means that no release hub manages the Stack. */
  datatype Stack = Stack(generation: int, revision: string, releaseID: string, resourceNames: seq<string>,
                         status: StackStatus)

  datatype Stats = Stats(
    summaries: seq<ChildSummary>,
    missing: seq<string>,
    notServing: seq<string>,
    stalled: seq<string>,
    orphans: seq<string>,
    converged: nat,
    available: nat,
    desired: nat)

  // ----- one child -----

  function ChildRevision(c: Child): string { if c.obj.revision.Some? then c.obj.revision.value else "" }

  predicate ChildIs(c: Child, t: ConditionType) { CondTrue(c.obj, c.status, t) }

  predicate ChildConverged(c: Child, managed: bool, releaseID: string) {
    && ChildIs(c, Converged)
    && (managed ==>
          && ChildRevision(c) != "" && c.status.observedRevision == ChildRevision(c)
          && (releaseID == "" || c.obj.releaseID == releaseID))
  }

  /** None for a converged child, otherwise the most specific reason. */
  function ChildConvergence(c: Child, managed: bool, releaseID: string): (why: Option<Why>)
    ensures why.None? <==> ChildConverged(c, managed, releaseID)
  {
    if ChildConverged(c, managed, releaseID) then None
    else if managed && ChildRevision(c) == "" then Some(NoRevision)
    else if managed && ChildIs(c, Available) && c.status.observedRevision != ChildRevision(c)
      then Some(PreviousRevision)
    else if managed && ChildIs(c, Available) && releaseID != "" && c.obj.releaseID != releaseID
      then Some(PreviousRelease)
    else if ChildIs(c, Stalled) then Some(StalledBecause(Reason(c.status.conditions, Stalled)))
    else if ChildIs(c, Available) then Some(ServingNotConverged)
    else if !CondFalse(c.obj, c.status, Available) then Some(NoStatus)
    else Some(NotAvailable(Reason(c.status.conditions, Available)))
  }

  /** The last child of that name, as a map filled in list order holds it. */
  function ChildNamed(children: seq<Child>, name: string): Option<Child> {
    if children == [] then None
    else if children[|children| - 1].obj.name == name then Some(children[|children| - 1])
    else ChildNamed(children[..|children| - 1], name)
  }

  // ----- the pass over the children -----

  function Summarize(c: Child, managed: bool, releaseID: string): ChildSummary {
    var why := ChildConvergence(c, managed, releaseID);
    PresentChild(c.obj.name, c.status.phase, c.status.observedRevision, c.status.lastConverged, c.status.replicas,
                 if why.None? && managed then ChildRevision(c) else "", why)
  }

  function AddName(stats: Stats, name: string, child: Option<Child>, managed: bool, releaseID: string): Stats {
    if child.None? then stats.(missing := stats.missing + [name], summaries := stats.summaries + [MissingChild(name)])
    else
      var c := child.value;
      stats.(converged := if ChildConverged(c, managed, releaseID) then stats.converged + 1 else stats.converged,
             available := if ChildIs(c, Available) then stats.available + 1 else stats.available,
             notServing := if ChildIs(c, Available) then stats.notServing else stats.notServing + [name],
             stalled := if ChildIs(c, Stalled) then stats.stalled + [name] else stats.stalled,
             summaries := stats.summaries + [Summarize(c, managed, releaseID)])
  }

  function ScanNames(names: seq<string>, desired: nat, children: seq<Child>, managed: bool, releaseID: string): Stats {
    if names == [] then Stats([], [], [], [], [], 0, 0, desired)
    else
      var last := names[|names| - 1];
      AddName(ScanNames(names[..|names| - 1], desired, children, managed, releaseID), last, ChildNamed(children, last),
              managed, releaseID)
  }

  function OrphanNames(names: seq<string>, children: seq<Child>): seq<string> {
    if children == [] then []
    else
      var rest, last := OrphanNames(names, children[..|children| - 1]), children[|children| - 1].obj.name;
      if last in names then rest else rest + [last]
  }

  function CollectStats(names: seq<string>, children: seq<Child>, managed: bool, releaseID: string): Stats {
    var s := ScanNames(names, |names|, children, managed, releaseID);
    s.(missing := Sort(s.missing, LexLeq), notServing := Sort(s.notServing, LexLeq),
       stalled := Sort(s.stalled, LexLeq), orphans := Sort(OrphanNames(names, children), LexLeq))
  }

  // ----- derivation -----

  datatype StackState = StackState(
    stalled: bool, progressing: bool, degraded: bool,
    progressingReason: string, notReadyReason: string, notConvergedReason: string, notServingReason: string)

  function DeriveState(stats: Stats, managed: bool, revision: string, lc: Option<ConvergenceRecord>): StackState {
    var ready := stats.converged == stats.desired;
    var stalled := stats.stalled != [];
    var cleanup := ready && stats.orphans != [] && !stalled;
    var notReadyReason := if stats.missing != [] then "MissingResources"
                          else if stalled then "ResourceStalled" else "ResourcesNotReady";
    StackState(
      stalled,
      cleanup || (!ready && stats.missing == [] && !stalled && (!managed || lc.None? || lc.value.revision != revision)),
      stats.missing == [] && stats.desired > 0 && stats.available == stats.desired && !ready && !stalled && lc.Some?,
      if cleanup then "OrphanCleanup" else "RolloutInProgress",
      notReadyReason,
      if stats.orphans != [] && ready then "OrphanedResources" else notReadyReason,
      if stats.missing != [] then "MissingResources" else "ResourcesNotServing")
  }

  predicate Managed(stack: Stack) { stack.revision != "" }

  function StackStats(stack: Stack, children: seq<Child>): Stats {
    CollectStats(stack.resourceNames, children, Managed(stack), stack.releaseID)
  }

  /** Every desired child converged and no orphan is left. */
  predicate Settled(stats: Stats) { stats.converged == stats.desired && stats.orphans == [] }

  function Stamp(stack: Stack, stats: Stats, now: int): Option<ConvergenceRecord> {
    var lc := stack.status.lastConverged;
    if Settled(stats) && Managed(stack)
       && (lc.None? || lc.value.revision != stack.revision || lc.value.releaseID != stack.releaseID)
    then Some(ConvergenceRecord(stack.revision, stack.releaseID, now))
    else lc
  }

  /** What the six conditions are to say, in the order in which they are written. */
  function Claims(stats: Stats, state: StackState): seq<(StackCondition, bool, string)> {
    var ready, converged, serving := stats.converged == stats.desired, Settled(stats),
                                     stats.missing == [] && stats.notServing == [];
    [Claim(StackStalled, state.stalled, "ResourceStalled", "NotStalled"),
     Claim(ResourcesReady, ready, "AllResourcesReady", state.notReadyReason),
     Claim(StackAvailable, serving, "AllResourcesServing", state.notServingReason),
     Claim(StackConverged, converged, "AllResourcesConverged", state.notConvergedReason),
     Claim(StackDegraded, state.degraded, "ServingButNotConverged", "NotDegraded"),
     Claim(StackProgressing, state.progressing, state.progressingReason, "NotProgressing")]
  }

  function Claim(t: StackCondition, holds: bool, yes: string, no: string): (StackCondition, bool, string) {
    (t, holds, if holds then yes else no)
  }

  function SetAll(conds: map<StackCondition, Condition>, claims: seq<(StackCondition, bool, string)>, generation: int,
                  now: int)
    : map<StackCondition, Condition>
  {
    if claims == [] then conds
    else Put(SetAll(conds, claims[..|claims| - 1], generation, now), claims[|claims| - 1], generation, now)
  }

  function Put(conds: map<StackCondition, Condition>, claim: (StackCondition, bool, string), generation: int, now: int)
    : map<StackCondition, Condition>
  {
    SetCondition(conds, claim.0, claim.1, generation, claim.2, now)
  }

  function PickPhase(state: StackState, settled: bool): StackPhase {
    if state.stalled then PhaseFailed
    else if state.progressing then PhaseProgressing
    else if state.degraded then PhaseDegraded
    else if settled then PhaseReady
    else PhasePending
  }

  function AggregateStatus(stack: Stack, children: seq<Child>, now: int): StackStatus {
    StatusOf(stack, StackStats(stack, children), now)
  }

  /** The status as a function of the stats alone. */
  function StatusOf(stack: Stack, stats: Stats, now: int): StackStatus {
    var lc := Stamp(stack, stats, now);
    var state := DeriveState(stats, Managed(stack), stack.revision, lc);
    StackStatus(stack.generation, stack.revision,
                SetAll(stack.status.conditions, Claims(stats, state), stack.generation, now),
                PickPhase(state, Settled(stats)), lc, stats.summaries, stats.orphans)
  }

  // ----- meaning of the counts -----

  predicate Desired(children: seq<Child>, n: string, managed: bool, releaseID: string) {
    ChildNamed(children, n).Some? && ChildConverged(ChildNamed(children, n).value, managed, releaseID)
  }

  lemma {:induction false} ScanCounts(names: seq<string>, desired: nat, children: seq<Child>, managed: bool,
                                      releaseID: string)
    ensures var s := ScanNames(names, desired, children, managed, releaseID);
            && |s.missing| + |s.notServing| + s.available == |names| && |s.summaries| == |names|
            && s.converged <= |names| && s.desired == desired && s.orphans == []
  {
    if names != [] {
      ScanCounts(names[..|names| - 1], desired, children, managed, releaseID);
    }
  }

  ghost predicate AllDesired(names: seq<string>, children: seq<Child>, managed: bool, releaseID: string) {
    forall n :: n in names ==> Desired(children, n, managed, releaseID)
  }

  lemma AllDesiredStep(front: seq<string>, last: string, children: seq<Child>, managed: bool, releaseID: string)
    ensures AllDesired(front + [last], children, managed, releaseID) <==>
              AllDesired(front, children, managed, releaseID) && Desired(children, last, managed, releaseID)
  {
    assert last in front + [last];
  }

  lemma {:induction false} ScanConverged(names: seq<string>, desired: nat, children: seq<Child>, managed: bool,
                                         releaseID: string)
    ensures ScanNames(names, desired, children, managed, releaseID).converged == |names| <==>
              AllDesired(names, children, managed, releaseID)
  {
    if names != [] {
      var front, last := names[..|names| - 1], names[|names| - 1];
      assert names == front + [last];
      ScanCounts(front, desired, children, managed, releaseID);
      ScanConverged(front, desired, children, managed, releaseID);
      AllDesiredStep(front, last, children, managed, releaseID);
    }
  }

  lemma {:induction false} ScanLists(names: seq<string>, desired: nat, children: seq<Child>, managed: bool,
                                     releaseID: string, n: string)
    ensures var s := ScanNames(names, desired, children, managed, releaseID);
            && (n in s.missing <==> n in names && ChildNamed(children, n).None?)
            && (n in s.stalled <==>
                  n in names && ChildNamed(children, n).Some? && ChildIs(ChildNamed(children, n).value, Stalled))
            && (n in s.notServing <==>
                  n in names && ChildNamed(children, n).Some? && !ChildIs(ChildNamed(children, n).value, Available))
  {
    if names != [] {
      var front, last := names[..|names| - 1], names[|names| - 1];
      assert names == front + [last];
      ScanLists(front, desired, children, managed, releaseID, n);
    }
  }

  lemma SortKeepsMembers(s: seq<string>)
    ensures |Sort(s, LexLeq)| == |s|
    ensures forall n :: n in Sort(s, LexLeq) <==> n in s
  {
    var r := Sort(s, LexLeq);
    assert |r| == |multiset(r)| == |multiset(s)| == |s|;
    forall n ensures n in r <==> n in s {
      assert n in multiset(r) <==> n in multiset(s);
    }
  }

  lemma {:induction false} OrphanMeaning(names: seq<string>, children: seq<Child>)
    ensures OrphanNames(names, children) == [] <==> forall i :: 0 <= i < |children| ==> children[i].obj.name in names
  {
    if children != [] {
      OrphanMeaning(names, children[..|children| - 1]);
    }
  }

  ghost predicate Lists(stats: Stats, names: seq<string>, children: seq<Child>, n: string) {
    var child := ChildNamed(children, n);
    && (n in stats.missing <==> n in names && child.None?)
    && (n in stats.stalled <==> n in names && child.Some? && ChildIs(child.value, Stalled))
    && (n in stats.notServing <==> n in names && child.Some? && !ChildIs(child.value, Available))
  }

  /** Missing, not serving and available partition the desired children, the lists name
      exactly the children they should, and everything is settled exactly when each desired
      child exists converged and there is no other. */
  lemma StatsMeaning(names: seq<string>, children: seq<Child>, managed: bool, releaseID: string)
    ensures var s := CollectStats(names, children, managed, releaseID);
            && |s.missing| + |s.notServing| + s.available == s.desired == |names|
            && (s.converged == s.desired <==> AllDesired(names, children, managed, releaseID))
            && (s.orphans == [] <==> forall i :: 0 <= i < |children| ==> children[i].obj.name in names)
    ensures forall n :: Lists(CollectStats(names, children, managed, releaseID), names, children, n)
  {
    var s := ScanNames(names, |names|, children, managed, releaseID);
    ScanCounts(names, |names|, children, managed, releaseID);
    ScanConverged(names, |names|, children, managed, releaseID);
    OrphanMeaning(names, children);
    SortKeepsMembers(s.missing);
    SortKeepsMembers(s.notServing);
    SortKeepsMembers(s.stalled);
    SortKeepsMembers(OrphanNames(names, children));
    forall n ensures Lists(CollectStats(names, children, managed, releaseID), names, children, n) {
      ScanLists(names, |names|, children, managed, releaseID, n);
    }
  }

  // ----- order-blind -----

  ghost predicate UniquelyNamed(children: seq<Child>) {
    forall i, j :: 0 <= i < j < |children| ==> children[i].obj.name != children[j].obj.name
  }

  lemma {:induction false} ChildNamedFound(children: seq<Child>, name: string)
    ensures var c := ChildNamed(children, name); c.Some? ==> c.value in children && c.value.obj.name == name
    ensures ChildNamed(children, name).None? ==> forall c :: c in children ==> c.obj.name != name
  {
    if children != [] {
      var front, last := children[..|children| - 1], children[|children| - 1];
      ChildNamedFound(front, name);
      assert children == front + [last];
    }
  }

  lemma ChildNamedByMembers(a: seq<Child>, b: seq<Child>, name: string)
    requires UniquelyNamed(b) && forall c :: c in a <==> c in b
    ensures ChildNamed(a, name) == ChildNamed(b, name)
  {
    ChildNamedFound(a, name);
    ChildNamedFound(b, name);
  }

  lemma {:induction false} ScanByNamed(names: seq<string>, desired: nat, a: seq<Child>, b: seq<Child>, managed: bool,
                                       releaseID: string)
    requires forall n :: n in names ==> ChildNamed(a, n) == ChildNamed(b, n)
    ensures ScanNames(names, desired, a, managed, releaseID) == ScanNames(names, desired, b, managed, releaseID)
  {
    if names != [] {
      ScanByNamed(names[..|names| - 1], desired, a, b, managed, releaseID);
    }
  }

  function Names(children: seq<Child>): seq<string> { seq(|children|,
                                                          i requires 0 <= i < |children| => children[i].obj.name) }

  lemma {:induction false} OrphanCounts(names: seq<string>, children: seq<Child>, n: string)
    ensures multiset(OrphanNames(names, children))[n] == if n in names then 0 else multiset(Names(children))[n]
  {
    if children != [] {
      var front, last := children[..|children| - 1], children[|children| - 1];
      OrphanCounts(names, front, n);
      assert Names(children) == Names(front) + [last.obj.name];
    }
  }

  lemma NamesWithout(a: seq<Child>, i: nat) returns (rest: seq<Child>)
    requires i < |a|
    ensures |rest| == |a| - 1 && multiset(rest) == multiset(a) - multiset{a[i]}
    ensures multiset(Names(a)) == multiset(Names(rest)) + multiset{a[i].obj.name}
  {
    rest := a[..i] + a[i + 1..];
    assert a == a[..i] + [a[i]] + a[i + 1..];
    assert Names(a) == Names(a[..i]) + [a[i].obj.name] + Names(a[i + 1..]);
    assert Names(rest) == Names(a[..i]) + Names(a[i + 1..]);
  }

  lemma FirstIsListed(a: seq<Child>, b: seq<Child>) returns (i: nat)
    requires multiset(a) == multiset(b) && a != []
    ensures i < |b| && b[i] == a[0]
  {
    assert a[0] in multiset(b);
    i :| 0 <= i < |b| && b[i] == a[0];
  }

  lemma {:induction false} NamesByMultiset(a: seq<Child>, b: seq<Child>)
    requires multiset(a) == multiset(b)
    ensures multiset(Names(a)) == multiset(Names(b))
    decreases |a|
  {
    if a != [] {
      var i := FirstIsListed(a, b);
      var restOfA := NamesWithout(a, 0);
      var restOfB := NamesWithout(b, i);
      NamesByMultiset(restOfA, restOfB);
    } else {
      assert |b| == |multiset(b)| == 0;
    }
  }

  lemma OrphansByMultiset(names: seq<string>, a: seq<Child>, b: seq<Child>)
    requires multiset(a) == multiset(b)
    ensures Sort(OrphanNames(names, a), LexLeq) == Sort(OrphanNames(names, b), LexLeq)
  {
    NamesByMultiset(a, b);
    forall n ensures multiset(OrphanNames(names, a))[n] == multiset(OrphanNames(names, b))[n] {
      OrphanCounts(names, a, n);
      OrphanCounts(names, b, n);
    }
    LexTotalOrder();
    SortOrderBlind(OrphanNames(names, a), OrphanNames(names, b), LexLeq);
  }

  /** The order in which children are listed changes nothing. */
  lemma OrderBlind(stack: Stack, a: seq<Child>, b: seq<Child>, now: int)
    requires multiset(a) == multiset(b) && UniquelyNamed(b)
    ensures AggregateStatus(stack, a, now) == AggregateStatus(stack, b, now)
  {
    forall c ensures c in a <==> c in b {
      assert c in multiset(a) <==> c in multiset(b);
    }
    forall n | n in stack.resourceNames ensures ChildNamed(a, n) == ChildNamed(b, n) {
      ChildNamedByMembers(a, b, n);
    }
    ScanByNamed(stack.resourceNames, |stack.resourceNames|, a, b, Managed(stack), stack.releaseID);
    OrphansByMultiset(stack.resourceNames, a, b);
  }

  // ----- orphan-blind -----

  ghost predicate SameDesired(stack: Stack, a: seq<Child>, b: seq<Child>) {
    forall n :: n in stack.resourceNames ==> ChildNamed(a, n) == ChildNamed(b, n)
  }

  lemma StatusIgnoresOrphans(stack: Stack, stats: Stats, orphans: seq<string>, now: int)
    requires stats.converged != stats.desired
    ensures StatusOf(stack, stats.(orphans := orphans), now) == StatusOf(stack, stats, now).(orphans := orphans)
  {
    var lc := Stamp(stack, stats, now);
    var other := stats.(orphans := orphans);
    var state, state' := DeriveState(stats, Managed(stack), stack.revision, lc),
                         DeriveState(other, Managed(stack), stack.revision, lc);
    assert state == state';
    assert Claims(stats, state) == Claims(other, state);
  }

  /** While some desired child is not converged, any change to the undesired children
      changes the orphan list and nothing else. */
  lemma OrphanBlind(stack: Stack, a: seq<Child>, b: seq<Child>, now: int)
    requires SameDesired(stack, a, b)
    requires exists n :: n in stack.resourceNames && !Desired(a, n, Managed(stack), stack.releaseID)
    ensures AggregateStatus(stack, a, now) == AggregateStatus(stack, b, now).(orphans := StackStats(stack, a).orphans)
  {
    ScanByNamed(stack.resourceNames, |stack.resourceNames|, a, b, Managed(stack), stack.releaseID);
    StatsMeaning(stack.resourceNames, a, Managed(stack), stack.releaseID);
    StatusIgnoresOrphans(stack, StackStats(stack, b), StackStats(stack, a).orphans, now);
  }

  // ----- fixed point -----

  /** Writing a claim that a condition list already makes changes nothing, at any time. */
  ghost predicate Makes(conds: map<StackCondition, Condition>, claim: (StackCondition, bool, string), generation: int) {
    && Holds(conds, claim.0, claim.1, generation)
    && conds[claim.0].reason == claim.2
  }

  predicate DistinctClaims(claims: seq<(StackCondition, bool, string)>) {
    forall i, j :: 0 <= i < j < |claims| ==> claims[i].0 != claims[j].0
  }

  lemma {:induction false} SetAllMakes(conds: map<StackCondition, Condition>,
                                       claims: seq<(StackCondition, bool, string)>, generation: int, now: int, i: nat)
    requires DistinctClaims(claims) && i < |claims|
    ensures Makes(SetAll(conds, claims, generation, now), claims[i], generation)
  {
    if i < |claims| - 1 {
      SetAllMakes(conds, claims[..|claims| - 1], generation, now, i);
    }
  }

  lemma {:induction false} SetAllAgain(conds: map<StackCondition, Condition>,
                                       claims: seq<(StackCondition, bool, string)>, generation: int, now: int)
    requires forall i :: 0 <= i < |claims| ==> Makes(conds, claims[i], generation)
    ensures SetAll(conds, claims, generation, now) == conds
  {
    if claims != [] {
      SetAllAgain(conds, claims[..|claims| - 1], generation, now);
      assert Makes(conds, claims[|claims| - 1], generation);
    }
  }

  lemma ClaimsDistinct(stats: Stats, state: StackState)
    ensures DistinctClaims(Claims(stats, state))
  {
  }

  /** Aggregating again over the same children, at any later time, changes nothing, so the
      controller's own status write never triggers another one. */
  lemma FixedPoint(stack: Stack, children: seq<Child>, now: int, later: int)
    ensures var s := AggregateStatus(stack, children, now); AggregateStatus(stack.(status := s), children, later) == s
  {
    var stats := StackStats(stack, children);
    var s := AggregateStatus(stack, children, now);
    assert Stamp(stack.(status := s), stats, later) == s.lastConverged;
    var claims := Claims(stats, DeriveState(stats, Managed(stack), stack.revision, s.lastConverged));
    ClaimsDistinct(stats, DeriveState(stats, Managed(stack), stack.revision, s.lastConverged));
    forall i | 0 <= i < |claims| ensures Makes(s.conditions, claims[i], stack.generation) {
      SetAllMakes(stack.status.conditions, claims, stack.generation, now, i);
    }
    SetAllAgain(s.conditions, claims, stack.generation, later);
  }

  // ----- the convergence record over runs -----

  /** One aggregation of a run: the Stack's spec and annotations may change in between. */
  datatype Round = Round(generation: int, revision: string, releaseID: string, resourceNames: seq<string>,
                         children: seq<Child>, now: int)

  function AsStack(r: Round, status: StackStatus): Stack { Stack(r.generation, r.revision, r.releaseID, r.resourceNames,
                                                                 status) }

  function AfterRounds(start: StackStatus, rounds: seq<Round>): StackStatus {
    if rounds == [] then start
    else
      var last := rounds[|rounds| - 1];
      AggregateStatus(AsStack(last, AfterRounds(start, rounds[..|rounds| - 1])), last.children, last.now)
  }

  /** The round converged as part of a release other than the recorded one. */
  ghost predicate Stamps(start: StackStatus, rounds: seq<Round>, k: nat)
    requires k < |rounds|
  {
    var r, before := rounds[k], AfterRounds(start, rounds[..k]);
    && r.revision != ""
    && Settled(StackStats(AsStack(r, before), r.children))
    && (before.lastConverged.Some? ==>
          before.lastConverged.value.revision != r.revision || before.lastConverged.value.releaseID != r.releaseID)
  }

  /** The record is never cleared, and it changes exactly on a converged managed round for a
      different (revision, release) pair, which it then records. */
  lemma RecordChangesOnlyOnConvergence(start: StackStatus, rounds: seq<Round>, k: nat)
    requires k < |rounds|
    ensures var before, after := AfterRounds(start, rounds[..k]).lastConverged,
                                 AfterRounds(start, rounds[..k + 1]).lastConverged;
            && (before.Some? ==> after.Some?)
            && (Stamps(start, rounds, k) <==>
                  after.Some? && (before.Some? ==> before.value.revision != after.value.revision
                                                   || before.value.releaseID != after.value.releaseID))
            && (!Stamps(start, rounds, k) ==> after == before)
            && (Stamps(start, rounds, k) ==>
                  after == Some(ConvergenceRecord(rounds[k].revision, rounds[k].releaseID, rounds[k].now)))
  {
    assert rounds[..k + 1][..k] == rounds[..k];
  }

  ghost predicate Quiet(start: StackStatus, rounds: seq<Round>, i: int, j: nat)
    requires j <= |rounds|
  {
    forall k :: i < k < j && 0 <= k ==> !Stamps(start, rounds, k)
  }

  /** The record after j rounds comes from round i, or from the start when i is -1. */
  ghost predicate Origin(start: StackStatus, rounds: seq<Round>, i: int, j: nat)
    requires -1 <= i < j <= |rounds| || (i == -1 && j == 0)
  {
    && Quiet(start, rounds, i, j)
    && (i >= 0 ==> Stamps(start, rounds, i))
    && AfterRounds(start, rounds[..j]).lastConverged
       == if i == -1 then start.lastConverged
          else Some(ConvergenceRecord(rounds[i].revision, rounds[i].releaseID, rounds[i].now))
  }

  lemma OriginStays(start: StackStatus, rounds: seq<Round>, i: int, j: nat)
    requires -1 <= i < j <= |rounds| || (i == -1 && j == 0)
    requires j < |rounds| && Origin(start, rounds, i, j) && !Stamps(start, rounds, j)
    ensures Origin(start, rounds, i, j + 1)
  {
    RecordChangesOnlyOnConvergence(start, rounds, j);
  }

  lemma StampIsOrigin(start: StackStatus, rounds: seq<Round>, j: nat)
    requires j < |rounds| && Stamps(start, rounds, j)
    ensures Origin(start, rounds, j, j + 1)
  {
    RecordChangesOnlyOnConvergence(start, rounds, j);
  }

  lemma StartIsOrigin(start: StackStatus, rounds: seq<Round>)
    ensures Origin(start, rounds, -1, 0)
  {
  }

  /** A recorded convergence happened: it was there at the start, or some round stamped it
      and no later round stamped another. */
  lemma {:induction false} RecordHasOrigin(start: StackStatus, rounds: seq<Round>, j: nat) returns (i: int)
    requires j <= |rounds|
    ensures -1 <= i < j || (i == -1 && j == 0)
    ensures Origin(start, rounds, i, j)
    decreases j
  {
    if j == 0 {
      StartIsOrigin(start, rounds);
      i := -1;
    } else if Stamps(start, rounds, j - 1) {
      StampIsOrigin(start, rounds, j - 1);
      i := j - 1;
    } else {
      i := RecordHasOrigin(start, rounds, j - 1);
      OriginStays(start, rounds, i, j - 1);
    }
  }

  // ----- mutable form -----

  method IndexByName(children: seq<Child>) returns (byName: map<string, Child>)
    ensures forall n :: ChildNamed(children, n) == if n in byName then Some(byName[n]) else None
  {
    byName := map[];
    for i := 0 to |children|
      invariant forall n :: ChildNamed(children[..i], n) == if n in byName then Some(byName[n]) else None
    {
      assert children[..i + 1][..i] == children[..i];
      byName := byName[children[i].obj.name := children[i]];
    }
    assert children[..|children|] == children;
  }

  method CollectOrphans(names: seq<string>, children: seq<Child>) returns (orphans: seq<string>)
    ensures orphans == OrphanNames(names, children)
  {
    var desired: set<string> := {};
    for i := 0 to |names|
      invariant forall n :: n in desired <==> n in names[..i]
    {
      desired := desired + {names[i]};
    }
    assert names[..|names|] == names;
    orphans := [];
    for i := 0 to |children|
      invariant orphans == OrphanNames(names, children[..i])
    {
      assert children[..i + 1][..i] == children[..i];
      if children[i].obj.name !in desired {
        orphans := orphans + [children[i].obj.name];
      }
    }
    assert children[..|children|] == children;
  }

  method CollectChildStats(names: seq<string>, children: seq<Child>, managed: bool, releaseID: string)
    returns (stats: Stats)
    ensures stats == CollectStats(names, children, managed, releaseID)
  {
    var byName := IndexByName(children);
    var summaries: seq<ChildSummary> := [];
    var missing: seq<string>, notServing: seq<string>, stalled: seq<string> := [], [], [];
    var converged, available := 0, 0;
    for i := 0 to |names|
      invariant Stats(summaries, missing, notServing, stalled, [], converged, available, |names|)
             == ScanNames(names[..i], |names|, children, managed, releaseID)
    {
      assert names[..i + 1][..i] == names[..i];
      var name := names[i];
      assert ChildNamed(children, name) == if name in byName then Some(byName[name]) else None;
      if name !in byName {
        missing := missing + [name];
        summaries := summaries + [MissingChild(name)];
        continue;
      }
      var child := byName[name];
      var why := ChildConvergence(child, managed, releaseID);
      var summary := PresentChild(child.obj.name, child.status.phase, child.status.observedRevision,
                                  child.status.lastConverged, child.status.replicas, "", None);
      if why.None? {
        converged := converged + 1;
        if managed {
          summary := summary.(convergedRevision := ChildRevision(child));
        }
      } else {
        summary := summary.(why := why);
      }
      if ChildIs(child, Available) {
        available := available + 1;
      } else {
        notServing := notServing + [name];
      }
      if ChildIs(child, Stalled) {
        stalled := stalled + [name];
      }
      summaries := summaries + [summary];
    }
    assert names[..|names|] == names;
    var orphans := CollectOrphans(names, children);
    stats := Stats(summaries, Sort(missing, LexLeq), Sort(notServing, LexLeq), Sort(stalled, LexLeq),
                   Sort(orphans, LexLeq), converged, available, |names|);
  }

  lemma SixPuts(c0: map<StackCondition, Condition>, claims: seq<(StackCondition, bool, string)>, g: int, now: int)
    requires |claims| == 6
    ensures SetAll(c0, claims, g, now)
         == Put(Put(Put(Put(Put(Put(c0, claims[0], g, now), claims[1], g, now), claims[2], g, now), claims[3], g, now),
                    claims[4], g, now), claims[5], g, now)
  {
    PutStep(c0, claims, g, now, 5);
    PutStep(c0, claims, g, now, 4);
    PutStep(c0, claims, g, now, 3);
    PutStep(c0, claims, g, now, 2);
    PutStep(c0, claims, g, now, 1);
    PutStep(c0, claims, g, now, 0);
    assert claims[..6] == claims;
  }

  lemma PutStep(c0: map<StackCondition, Condition>, claims: seq<(StackCondition, bool, string)>, g: int, now: int,
                k: nat)
    requires k < |claims|
    ensures SetAll(c0, claims[..k + 1], g, now) == Put(SetAll(c0, claims[..k], g, now), claims[k], g, now)
  {
    assert claims[..k + 1][..k] == claims[..k];
  }

  method SetStackCondition(conditions: map<StackCondition, Condition>, t: StackCondition, holds: bool, yes: string,
                           no: string,
                           generation: int, now: int)
    returns (conds: map<StackCondition, Condition>)
    ensures conds == Put(conditions, Claim(t, holds, yes, no), generation, now)
  {
    if holds {
      conds := SetCondition(conditions, t, true, generation, yes, now);
    } else {
      conds := SetCondition(conditions, t, false, generation, no, now);
    }
  }

  /** Writes the six conditions one after the other. */
  method SetStackConditions(conditions: map<StackCondition, Condition>, stats: Stats, state: StackState,
                            generation: int, now: int)
    returns (conds: map<StackCondition, Condition>)
    ensures conds == SetAll(conditions, Claims(stats, state), generation, now)
  {
    var ready := stats.converged == stats.desired;
    var settled := ready && |stats.orphans| == 0;
    var serving := |stats.missing| == 0 && |stats.notServing| == 0;
    conds := SetStackCondition(conditions, StackStalled, state.stalled, "ResourceStalled", "NotStalled", generation,
                               now);
    conds := SetStackCondition(conds, ResourcesReady, ready, "AllResourcesReady", state.notReadyReason, generation,
                               now);
    conds := SetStackCondition(conds, StackAvailable, serving, "AllResourcesServing", state.notServingReason,
                               generation, now);
    conds := SetStackCondition(conds, StackConverged, settled, "AllResourcesConverged", state.notConvergedReason,
                               generation, now);
    conds := SetStackCondition(conds, StackDegraded, state.degraded, "ServingButNotConverged", "NotDegraded",
                               generation, now);
    conds := SetStackCondition(conds, StackProgressing, state.progressing, state.progressingReason, "NotProgressing",
                               generation, now);
    SixPuts(conditions, Claims(stats, state), generation, now);
  }

  method AggregateStackStatus(stack: Stack, children: seq<Child>, now: int) returns (status: StackStatus)
    ensures status == AggregateStatus(stack, children, now)
  {
    var managed := stack.revision != "";
    var stats := CollectChildStats(stack.resourceNames, children, managed, stack.releaseID);
    status := StackStatus(stack.generation, stack.revision, stack.status.conditions, PhasePending,
                          stack.status.lastConverged, stats.summaries, stats.orphans);
    var settled := stats.converged == stats.desired && |stats.orphans| == 0;
    if settled && managed {
      var lc := status.lastConverged;
      if lc.None? || lc.value.revision != stack.revision || lc.value.releaseID != stack.releaseID {
        status := status.(lastConverged := Some(ConvergenceRecord(stack.revision, stack.releaseID, now)));
      }
    }
    var state := DeriveState(stats, managed, stack.revision, status.lastConverged);
    var conds := SetStackConditions(status.conditions, stats, state, stack.generation, now);
    status := status.(conditions := conds);
    if state.stalled {
      status := status.(phase := PhaseFailed);
    } else if state.progressing {
      status := status.(phase := PhaseProgressing);
    } else if state.degraded {
      status := status.(phase := PhaseDegraded);
    } else if settled {
      status := status.(phase := PhaseReady);
    }
  }
}
