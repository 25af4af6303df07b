/** What the Stack status says, from the children, the record and the spec alone. */
module StackReports {
  import opened Resource
  import opened Aggregate

  // ----- what the children show -----

  ghost predicate Has(children: seq<Child>, n: string, t: ConditionType) {
    var c := ChildNamed(children, n);
    c.Some? && t in c.value.status.conditions && c.value.status.conditions[t].status
    && c.value.status.conditions[t].generation == c.value.obj.generation
  }

  ghost predicate SomeStalled(stack: Stack, children: seq<Child>) {
    exists n :: n in stack.resourceNames && Has(children, n, Stalled)
  }

  ghost predicate SomeMissing(stack: Stack, children: seq<Child>) {
    exists n :: n in stack.resourceNames && forall c :: c in children ==> c.obj.name != n
  }

  ghost predicate AllServe(stack: Stack, children: seq<Child>) {
    forall n :: n in stack.resourceNames ==> Has(children, n, Available)
  }

  /** The child is of this release: it has observed the revision it is annotated with, and its
      release is the Stack's, if that has one. An unmanaged Stack asks for nothing. */
  predicate OfThisRelease(stack: Stack, c: Child) {
    stack.revision != "" ==>
      && c.obj.revision.Some? && c.obj.revision.value != "" && c.status.observedRevision == c.obj.revision.value
      && (stack.releaseID == "" || c.obj.releaseID == stack.releaseID)
  }

  ghost predicate UpToDate(stack: Stack, children: seq<Child>, n: string) {
    Has(children, n, Converged) && OfThisRelease(stack, ChildNamed(children, n).value)
  }

  ghost predicate AllUpToDate(stack: Stack, children: seq<Child>) {
    forall n :: n in stack.resourceNames ==> UpToDate(stack, children, n)
  }

  ghost predicate SomeOrphan(stack: Stack, children: seq<Child>) {
    exists c :: c in children && c.obj.name !in stack.resourceNames
  }

  /** The Stack has converged before, in this revision or not. */
  predicate ConvergedBefore(stack: Stack) { stack.status.lastConverged.Some? }

  predicate ConvergedAtThisRevision(stack: Stack) {
    ConvergedBefore(stack) && stack.status.lastConverged.value.revision == stack.revision
  }

  // ----- what the Stack says -----

  /** Orphans are left to be removed, or a rollout is under way: all children exist, some are
      not up to date, and not because a converged revision fell back. */
  ghost predicate Progresses(stack: Stack, children: seq<Child>) {
    && !SomeStalled(stack, children)
    && if AllUpToDate(stack, children) then SomeOrphan(stack, children)
       else !SomeMissing(stack, children) && (stack.revision == "" || !ConvergedAtThisRevision(stack))
  }

  /** Everything serves, but not what was converged once. */
  ghost predicate Degrades(stack: Stack, children: seq<Child>) {
    && !SomeStalled(stack, children) && !AllUpToDate(stack, children)
    && AllServe(stack, children) && stack.resourceNames != [] && ConvergedBefore(stack)
  }

  ghost predicate Complete(stack: Stack, children: seq<Child>) {
    AllUpToDate(stack, children) && !SomeOrphan(stack, children)
  }

  ghost function PhaseOf(stack: Stack, children: seq<Child>): StackPhase {
    if SomeStalled(stack, children) then PhaseFailed
    else if Progresses(stack, children) then PhaseProgressing
    else if Degrades(stack, children) then PhaseDegraded
    else if Complete(stack, children) then PhaseReady
    else PhasePending
  }

  ghost function WhyNotReady(stack: Stack, children: seq<Child>): string {
    if SomeMissing(stack, children) then "MissingResources"
    else if SomeStalled(stack, children) then "ResourceStalled"
    else "ResourcesNotReady"
  }

  // ----- from the counts to the children -----

  lemma UpToDateIsDesired(stack: Stack, children: seq<Child>, n: string)
    ensures UpToDate(stack, children, n) <==> Desired(children, n, Managed(stack), stack.releaseID)
  {
  }

  lemma EmptyHasNoMember(s: seq<string>)
    ensures s == [] <==> forall n :: n !in s
  {
    if s != [] {
      assert s[0] in s;
    }
  }

  /** The counts and lists, in terms of the children. */
  ghost predicate Counted(stack: Stack, children: seq<Child>, stats: Stats) {
    && (stats.converged == stats.desired <==> AllUpToDate(stack, children))
    && (stats.orphans == [] <==> !SomeOrphan(stack, children))
    && (stats.stalled == [] <==> !SomeStalled(stack, children))
    && (stats.missing == [] <==> !SomeMissing(stack, children))
    && (stats.missing == [] && stats.notServing == [] <==> AllServe(stack, children))
    && (stats.available == stats.desired <==> AllServe(stack, children))
    && stats.desired == |stack.resourceNames|
  }

  lemma MissingMeans(children: seq<Child>, n: string)
    ensures ChildNamed(children, n).None? <==> forall c :: c in children ==> c.obj.name != n
  {
    ChildNamedFound(children, n);
  }

  lemma StalledCounted(stack: Stack, children: seq<Child>, stats: Stats)
    requires forall n :: Lists(stats, stack.resourceNames, children, n)
    ensures stats.stalled == [] <==> !SomeStalled(stack, children)
  {
    EmptyHasNoMember(stats.stalled);
    forall n ensures n in stats.stalled <==> n in stack.resourceNames && Has(children, n, Stalled) {
      assert Lists(stats, stack.resourceNames, children, n);
    }
  }

  lemma MissingCounted(stack: Stack, children: seq<Child>, stats: Stats)
    requires forall n :: Lists(stats, stack.resourceNames, children, n)
    ensures stats.missing == [] <==> !SomeMissing(stack, children)
  {
    EmptyHasNoMember(stats.missing);
    forall n ensures n in stats.missing <==>
                     n in stack.resourceNames && forall c :: c in children ==> c.obj.name != n
    {
      assert Lists(stats, stack.resourceNames, children, n);
      MissingMeans(children, n);
    }
  }

  lemma ServingCounted(stack: Stack, children: seq<Child>, stats: Stats)
    requires forall n :: Lists(stats, stack.resourceNames, children, n)
    ensures stats.missing == [] && stats.notServing == [] <==> AllServe(stack, children)
  {
    EmptyHasNoMember(stats.missing);
    EmptyHasNoMember(stats.notServing);
    forall n ensures n in stats.missing || n in stats.notServing <==>
                     n in stack.resourceNames && !Has(children, n, Available)
    {
      assert Lists(stats, stack.resourceNames, children, n);
    }
  }

  lemma OrphansCounted(stack: Stack, children: seq<Child>)
    ensures SomeOrphan(stack, children) <==>
            !forall i :: 0 <= i < |children| ==> children[i].obj.name in stack.resourceNames
  {
    if c :| c in children && c.obj.name !in stack.resourceNames {
      var i :| 0 <= i < |children| && children[i] == c;
    }
    if i :| 0 <= i < |children| && children[i].obj.name !in stack.resourceNames {
      assert children[i] in children;
    }
  }

  lemma ConvergedCounted(stack: Stack, children: seq<Child>)
    ensures AllUpToDate(stack, children) <==>
            AllDesired(stack.resourceNames, children, Managed(stack), stack.releaseID)
  {
    forall n ensures UpToDate(stack, children, n) <==> Desired(children, n, Managed(stack), stack.releaseID) {
      UpToDateIsDesired(stack, children, n);
    }
  }

  lemma StatsCounted(stack: Stack, children: seq<Child>)
    ensures Counted(stack, children, StackStats(stack, children))
  {
    var stats := StackStats(stack, children);
    StatsMeaning(stack.resourceNames, children, Managed(stack), stack.releaseID);
    ConvergedCounted(stack, children);
    OrphansCounted(stack, children);
    StalledCounted(stack, children, stats);
    MissingCounted(stack, children, stats);
    ServingCounted(stack, children, stats);
  }

  // ----- the whole status -----

  lemma StateMeaning(stack: Stack, children: seq<Child>, stats: Stats, now: int)
    requires Counted(stack, children, stats)
    ensures var state := DeriveState(stats, Managed(stack), stack.revision, Stamp(stack, stats, now));
            && state.stalled == SomeStalled(stack, children)
            && state.progressing == Progresses(stack, children)
            && state.degraded == Degrades(stack, children)
            && state.notReadyReason == WhyNotReady(stack, children)
            && (state.progressing ==>
                  state.progressingReason
                  == if AllUpToDate(stack, children) then "OrphanCleanup" else "RolloutInProgress")
            && (!Complete(stack, children) ==>
                  state.notConvergedReason
                  == if AllUpToDate(stack, children) then "OrphanedResources" else WhyNotReady(stack, children))
            && state.notServingReason
               == (if SomeMissing(stack, children) then "MissingResources" else "ResourcesNotServing")
            && Settled(stats) == Complete(stack, children)
  {
  }

  /** What the six claims are to be. */
  ghost function Expected(stack: Stack, children: seq<Child>): seq<(StackCondition, bool, string)> {
    var stalled, ready, serve := SomeStalled(stack, children), AllUpToDate(stack, children), AllServe(stack, children);
    var complete, degraded := Complete(stack, children), Degrades(stack, children);
    [(StackStalled, stalled, if stalled then "ResourceStalled" else "NotStalled"),
     (ResourcesReady, ready, if ready then "AllResourcesReady" else WhyNotReady(stack, children)),
     (StackAvailable, serve, if serve then "AllResourcesServing"
                             else if SomeMissing(stack, children) then "MissingResources" else "ResourcesNotServing"),
     (StackConverged, complete, if complete then "AllResourcesConverged"
                                else if ready then "OrphanedResources" else WhyNotReady(stack, children)),
     (StackDegraded, degraded, if degraded then "ServingButNotConverged" else "NotDegraded"),
     (StackProgressing, Progresses(stack, children), if !Progresses(stack, children) then "NotProgressing"
                                                     else if ready then "OrphanCleanup" else "RolloutInProgress")]
  }

  lemma ClaimsExpected(stack: Stack, children: seq<Child>, stats: Stats, now: int)
    requires Counted(stack, children, stats)
    ensures var state := DeriveState(stats, Managed(stack), stack.revision, Stamp(stack, stats, now));
            Claims(stats, state) == Expected(stack, children)
  {
    var claims := Claims(stats, DeriveState(stats, Managed(stack), stack.revision, Stamp(stack, stats, now)));
    StateMeaning(stack, children, stats, now);
    forall i | 0 <= i < 6 ensures claims[i] == Expected(stack, children)[i] { }
  }

  lemma PhaseMeaning(stack: Stack, children: seq<Child>, stats: Stats, now: int)
    requires Counted(stack, children, stats)
    ensures StatusOf(stack, stats, now).phase == PhaseOf(stack, children)
  {
    StateMeaning(stack, children, stats, now);
  }

  /** Phase and all six conditions of a Stack follow from its children, its record and its spec:
      Failed for a stalled child; Progressing while orphans are left or a revision that has not
      converged rolls out; Degraded when everything serves but is no longer converged; Ready
      when every child is up to date and no other is left; and Pending otherwise. */
  lemma StackMeaning(stack: Stack, children: seq<Child>, now: int)
    ensures var s := AggregateStatus(stack, children, now);
            && s.phase == PhaseOf(stack, children)
            && forall i :: 0 <= i < 6 ==> Makes(s.conditions, Expected(stack, children)[i], stack.generation)
  {
    var stats := StackStats(stack, children);
    StatsCounted(stack, children);
    PhaseMeaning(stack, children, stats, now);
    ClaimsExpected(stack, children, stats, now);
    var state := DeriveState(stats, Managed(stack), stack.revision, Stamp(stack, stats, now));
    ClaimsDistinct(stats, state);
    forall i | 0 <= i < 6
      ensures Makes(AggregateStatus(stack, children, now).conditions, Expected(stack, children)[i], stack.generation)
    {
      SetAllMakes(stack.status.conditions, Claims(stats, state), stack.generation, now, i);
    }
  }

  // ----- the listed resources -----

  /** The entry of a resource shows its child's status, and why it is not up to date. */
  predicate Shows(stack: Stack, children: seq<Child>, n: string, entry: ChildSummary) {
    var c := ChildNamed(children, n);
    if c.None? then entry == MissingChild(n)
    else
      && entry.PresentChild? && entry.name == n
      && entry.phase == c.value.status.phase && entry.observedRevision == c.value.status.observedRevision
      && entry.lastConverged == c.value.status.lastConverged && entry.replicas == c.value.status.replicas
      && entry.why == ChildConvergence(c.value, stack.revision != "", stack.releaseID)
      && entry.convergedRevision
         == if entry.why.None? && stack.revision != "" && c.value.obj.revision.Some? then c.value.obj.revision.value
            else ""
  }

  lemma {:induction false} ScanShows(stack: Stack, names: seq<string>, desired: nat, children: seq<Child>, i: nat)
    requires i < |names|
    ensures var s := ScanNames(names, desired, children, Managed(stack), stack.releaseID).summaries;
            |s| == |names| && Shows(stack, children, names[i], s[i])
  {
    var front, last := names[..|names| - 1], names[|names| - 1];
    ScanCounts(front, desired, children, Managed(stack), stack.releaseID);
    ChildNamedFound(children, last);
    if i < |front| {
      ScanShows(stack, front, desired, children, i);
    }
  }

  /** The listed resources are those of the spec, in its order, each as its child stands. */
  lemma ResourcesShowChildren(stack: Stack, children: seq<Child>, now: int, i: nat)
    requires i < |stack.resourceNames|
    ensures var r := AggregateStatus(stack, children, now).resources;
            |r| == |stack.resourceNames| && Shows(stack, children, stack.resourceNames[i], r[i])
  {
    ScanShows(stack, stack.resourceNames, |stack.resourceNames|, children, i);
  }
}
