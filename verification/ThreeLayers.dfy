/** Readiness across the three layers: workload conditions, the child summary derived from
    them, and the Stack phase derived from the children. */
module ThreeLayers {
  import opened Meta
  import opened Resource
  import opened PassTheorems
  import opened PortRuns
  import opened Aggregate
  import opened PassReports
  import opened RolloutRuns

  /** Some run of passes wrote this status. */
  ghost predicate Written(s: Status) { exists passes :: s == StatusAfter(passes) }

  lemma {:induction false} RunsAreCoherent(passes: seq<Input>)
    ensures Coherent(StatusAfter(passes))
  {
    if passes != [] {
      var front, last := passes[..|passes| - 1], passes[|passes| - 1];
      RunsAreCoherent(front);
      PassKeepsCoherent(last.obj, StatusAfter(front), last.sight);
    }
  }

  lemma WrittenIsCoherent(s: Status)
    requires Written(s)
    ensures Coherent(s)
  {
    var passes :| s == StatusAfter(passes);
    RunsAreCoherent(passes);
  }

  /** Ready in every layer, at the child's current generation. */
  ghost predicate SolidChild(c: Child) {
    && c.status.phase == Ready
    && ChildIs(c, Converged) && ChildIs(c, Available) && !ChildIs(c, Stalled)
    && ChildIs(c, WorkloadConverged) && ChildIs(c, WorkloadAvailable)
  }

  lemma ConvergedChildIsSolid(c: Child, managed: bool, releaseID: string)
    requires Written(c.status) && ChildConverged(c, managed, releaseID)
    ensures SolidChild(c)
  {
    WrittenIsCoherent(c.status);
  }

  /** What an explanation says of a child. */
  predicate Says(why: Why, c: Child, managed: bool, releaseID: string) {
    match why
    case NoRevision => managed && ChildRevision(c) == ""
    case PreviousRevision => managed && ChildIs(c, Available) && c.status.observedRevision != ChildRevision(c)
    case PreviousRelease => managed && ChildIs(c, Available) && releaseID != "" && c.obj.releaseID != releaseID
    case StalledBecause(_) => ChildIs(c, Stalled)
    case ServingNotConverged => ChildIs(c, Available) && !ChildIs(c, Converged)
    case NoStatus => Available in c.status.conditions ==> c.status.conditions[Available].generation != c.obj.generation
    case NotAvailable(_) =>
      && Available in c.status.conditions && !c.status.conditions[Available].status
      && c.status.conditions[Available].generation == c.obj.generation
  }

  /** Deciding and explaining never drift apart: an explanation is given exactly for a child
      that is not converged, what it says is true, and for a status written by the child
      controller that alone rules convergence out. */
  lemma ExplanationIsTheReason(c: Child, managed: bool, releaseID: string, why: Why)
    requires Written(c.status)
    ensures ChildConvergence(c, managed, releaseID).None? <==> ChildConverged(c, managed, releaseID)
    ensures ChildConvergence(c, managed, releaseID) == Some(why) ==> Says(why, c, managed, releaseID)
    ensures Says(why, c, managed, releaseID) ==> !ChildConverged(c, managed, releaseID)
  {
    WrittenIsCoherent(c.status);
  }

  /** Converged desired children leave nothing stalled and nothing that does not serve. */
  lemma ConvergedChildrenServe(stack: Stack, children: seq<Child>)
    requires forall c :: c in children ==> Written(c.status)
    requires StackStats(stack, children).converged == StackStats(stack, children).desired
    ensures var stats := StackStats(stack, children);
            stats.stalled == [] && stats.missing == [] && stats.notServing == []
    ensures forall n :: n in stack.resourceNames ==>
              ChildNamed(children, n).Some? && ChildNamed(children, n).value in children
              && ChildNamed(children, n).value.obj.name == n && SolidChild(ChildNamed(children, n).value)
  {
    var stats := StackStats(stack, children);
    StatsMeaning(stack.resourceNames, children, Managed(stack), stack.releaseID);
    forall n | n in stack.resourceNames
      ensures ChildNamed(children, n).Some? && ChildNamed(children, n).value in children
              && ChildNamed(children, n).value.obj.name == n && SolidChild(ChildNamed(children, n).value)
    {
      assert Desired(children, n, Managed(stack), stack.releaseID);
      ChildNamedFound(children, n);
      ConvergedChildIsSolid(ChildNamed(children, n).value, Managed(stack), stack.releaseID);
    }
    NothingListed(stats, stack.resourceNames, children);
  }

  lemma NothingListed(stats: Stats, names: seq<string>, children: seq<Child>)
    requires forall n :: Lists(stats, names, children, n)
    requires forall n :: n in names ==> ChildNamed(children, n).Some? && SolidChild(ChildNamed(children, n).value)
    ensures stats.stalled == [] && stats.missing == [] && stats.notServing == []
  {
    forall n ensures n !in stats.stalled && n !in stats.missing && n !in stats.notServing {
      assert Lists(stats, names, children, n);
    }
    HasMember(stats.stalled);
    HasMember(stats.missing);
    HasMember(stats.notServing);
  }

  lemma HasMember(s: seq<string>)
    ensures s == [] || s[0] in s
  {
  }

  /** What the written conditions claim. */
  lemma ClaimsHold(stack: Stack, stats: Stats, now: int)
    ensures var s := StatusOf(stack, stats, now);
            && (TrueAt(s.conditions, StackConverged, stack.generation) <==> Settled(stats))
            && (TrueAt(s.conditions, StackAvailable, stack.generation) <==>
                  stats.missing == [] && stats.notServing == [])
            && (TrueAt(s.conditions, StackStalled, stack.generation) <==> stats.stalled != [])
  {
    var state := DeriveState(stats, Managed(stack), stack.revision, Stamp(stack, stats, now));
    ClaimsDistinct(stats, state);
    SetAllMakes(stack.status.conditions, Claims(stats, state), stack.generation, now, 0);
    SetAllMakes(stack.status.conditions, Claims(stats, state), stack.generation, now, 2);
    SetAllMakes(stack.status.conditions, Claims(stats, state), stack.generation, now, 3);
  }

  lemma ReadyIsSettled(stack: Stack, stats: Stats, now: int)
    requires stats.converged == stats.desired ==> stats.stalled == []
    ensures StatusOf(stack, stats, now).phase == PhaseReady <==> Settled(stats)
  {
  }

  ghost predicate NoOrphans(stack: Stack, children: seq<Child>) {
    forall i :: 0 <= i < |children| ==> children[i].obj.name in stack.resourceNames
  }

  ghost predicate AllSolid(stack: Stack, children: seq<Child>) {
    forall n :: n in stack.resourceNames ==> exists c :: c in children && c.obj.name == n && SolidChild(c)
  }

  /** When every child status was written by the child controller, the Stack is Ready
      exactly when it reports Converged, and exactly when each desired child exists and
      converged and no other child is left. Then every desired child is Ready, Available
      and not Stalled at its current generation over a converged, available workload, and
      the Stack itself is Available and not Stalled. */
  lemma ReadyMeansReadyInEveryLayer(stack: Stack, children: seq<Child>, now: int)
    requires forall c :: c in children ==> Written(c.status)
    ensures var s := AggregateStatus(stack, children, now);
            && (s.phase == PhaseReady <==> TrueAt(s.conditions, StackConverged, stack.generation))
            && (s.phase == PhaseReady <==>
                  AllDesired(stack.resourceNames, children, Managed(stack), stack.releaseID)
                  && NoOrphans(stack, children))
            && (s.phase == PhaseReady ==>
                  && s.orphans == []
                  && AllSolid(stack, children)
                  && TrueAt(s.conditions, StackAvailable, stack.generation)
                  && !TrueAt(s.conditions, StackStalled, stack.generation))
  {
    var stats := StackStats(stack, children);
    StatsMeaning(stack.resourceNames, children, Managed(stack), stack.releaseID);
    ClaimsHold(stack, stats, now);
    if stats.converged == stats.desired {
      ConvergedChildrenServe(stack, children);
    }
    ReadyIsSettled(stack, stats, now);
  }

  // ----- down to the replicas -----

  /** Passes over the same generation saw the same spec, as the API server guarantees. */
  ghost predicate SpecFixed(passes: seq<Input>, obj: Object) {
    forall k :: 0 <= k < |passes| && passes[k].obj.generation == obj.generation ==> passes[k].obj.spec == obj.spec
  }

  /** The child's status was written by passes over it. */
  ghost predicate WrittenFor(c: Child) { exists passes :: c.status == StatusAfter(passes) && SpecFixed(passes, c.obj) }

  /** The last stored look at the child's workload was at its current generation and saw it
      rolled out: for a Deployment, every wanted replica updated, ready and available. */
  ghost predicate RolloutSeen(c: Child, passes: seq<Input>, k: int) {
    && c.status == StatusAfter(passes) && 0 <= k < |passes| && LastSet(LooksOf(passes), k, |passes|)
    && passes[k].obj.generation == c.obj.generation && passes[k].obj.spec == c.obj.spec
    && ShowsRolledOut(c.obj, passes[k].sight.workload)
  }

  lemma SolidChildWasSeen(c: Child)
    requires WrittenFor(c) && ChildIs(c, WorkloadConverged)
    ensures exists passes, k :: RolloutSeen(c, passes, k)
  {
    var passes :| c.status == StatusAfter(passes) && SpecFixed(passes, c.obj);
    var k := ConvergedWasRolledOut(passes, c.obj.generation);
    assert RolloutSeen(c, passes, k);
  }

  ghost predicate AllRolloutsSeen(stack: Stack, children: seq<Child>) {
    forall n :: n in stack.resourceNames ==>
      exists c :: c in children && c.obj.name == n && exists passes, k :: RolloutSeen(c, passes, k)
  }

  /** A Stack is Ready only over rollouts that were seen complete: the last stored look at the
      workload of each desired child, at its current generation, saw it rolled out. */
  lemma ReadyStackSawRollouts(stack: Stack, children: seq<Child>, now: int)
    requires forall c :: c in children ==> WrittenFor(c)
    requires AggregateStatus(stack, children, now).phase == PhaseReady
    ensures AllRolloutsSeen(stack, children)
  {
    forall c | c in children ensures Written(c.status) {
      assert WrittenFor(c);
    }
    ReadyMeansReadyInEveryLayer(stack, children, now);
    forall n | n in stack.resourceNames
      ensures exists c :: c in children && c.obj.name == n && exists passes, k :: RolloutSeen(c, passes, k)
    {
      var c :| c in children && c.obj.name == n && SolidChild(c);
      SolidChildWasSeen(c);
    }
  }
}
