/** The workload conditions over runs of passes: they are those of the last stored look. */
module RolloutRuns {
  import opened Meta
  import opened Resource
  import opened Readiness
  import opened PortRuns
  import opened PassReports

  /** Pass k was stored and evaluated the workload. */
  predicate LookAt(passes: seq<Input>, k: nat)
    requires k < |passes|
  {
    PassAt(passes, k).persisted && Looks(passes[k].obj, StatusAfter(passes[..k]), passes[k].sight)
  }

  function LooksOf(passes: seq<Input>): (looks: seq<bool>)
    ensures |looks| == |passes| && forall k: nat :: k < |passes| ==> looks[k] == LookAt(passes, k)
  {
    seq(|passes|, k requires 0 <= k < |passes| => LookAt(passes, k))
  }

  /** The two workload conditions. */
  datatype Pair = Pair(available: Option<Condition>, converged: Option<Condition>)

  function Lookup<T>(conds: map<T, Condition>, t: T): Option<Condition> {
    if t in conds then Some(conds[t]) else None
  }

  function PairOf(s: Status): Pair {
    Pair(Lookup(s.conditions, WorkloadAvailable), Lookup(s.conditions, WorkloadConverged))
  }

  function PairsOf(passes: seq<Input>): (pairs: seq<Pair>)
    ensures |pairs| == |passes| + 1
    ensures forall k :: 0 <= k <= |passes| ==> pairs[k] == PairOf(StatusAfter(passes[..k]))
  {
    seq(|passes| + 1, k requires 0 <= k <= |passes| => PairOf(StatusAfter(passes[..k])))
  }

  // ----- the last look -----

  /** Flag k is the last one that is set before j. */
  ghost predicate LastSet(flags: seq<bool>, k: int, j: nat) {
    && -1 <= k < j <= |flags| && (k >= 0 ==> flags[k])
    && forall i :: k < i < j ==> !flags[i]
  }

  ghost predicate ChangesWhenSet<T>(flags: seq<bool>, states: seq<T>) {
    |states| == |flags| + 1 && forall i :: 0 <= i < |flags| && !flags[i] ==> states[i + 1] == states[i]
  }

  lemma {:induction false} FindLastSet<T>(flags: seq<bool>, states: seq<T>, j: nat) returns (k: int)
    requires ChangesWhenSet(flags, states) && j <= |flags|
    ensures (j == 0 && k == -1) || LastSet(flags, k, j)
    ensures states[j] == states[k + 1]
    decreases j
  {
    if j == 0 {
      k := -1;
    } else if flags[j - 1] {
      k := j - 1;
    } else {
      k := FindLastSet(flags, states, j - 1);
    }
  }

  /** What a pass read and reported, for its generation; `details` are those it left. */
  ghost predicate AsRead(pair: Pair, input: Input, details: seq<FailureDetail>) {
    var obj, w := input.obj, input.sight.workload;
    && pair.available.Some? && pair.converged.Some?
    && pair.available.value.generation == obj.generation && pair.available.value.status == ShowsServing(obj, w)
    && pair.converged.value.generation == obj.generation
    && pair.converged.value.status
       == (ShowsRolledOut(obj, w) && !(HasPorts(obj.spec.workloadType) && PortBlamed(details)))
  }

  lemma LookStep(passes: seq<Input>, j: nat)
    requires j < |passes|
    ensures var before, after := StatusAfter(passes[..j]), StatusAfter(passes[..j + 1]);
            if LookAt(passes, j) then AsRead(PairOf(after), passes[j], after.failureDetails)
            else PairOf(after) == PairOf(before)
  {
    assert passes[..j + 1][..j] == passes[..j];
    RecordsWellFormed(passes[..j]);
    if PassAt(passes, j).persisted {
      PassReportsWorkload(passes[j].obj, StatusAfter(passes[..j]), passes[j].sight);
    }
  }

  lemma PairsChangeOnLooks(passes: seq<Input>)
    ensures ChangesWhenSet(LooksOf(passes), PairsOf(passes))
  {
    var looks, pairs := LooksOf(passes), PairsOf(passes);
    forall i | 0 <= i < |looks| && !looks[i] ensures pairs[i + 1] == pairs[i] {
      LookStep(passes, i);
    }
  }

  /** The conditions after j passes are what pass k read, and no pass since has looked. */
  ghost predicate SeenBy(passes: seq<Input>, k: nat, j: nat)
    requires j <= |passes|
  {
    && LastSet(LooksOf(passes), k, j)
    && AsRead(PairsOf(passes)[j], passes[k], StatusAfter(passes[..k + 1]).failureDetails)
  }

  /** Over any run the workload conditions are those that the last stored look at the workload
      read from it, and they are absent before the first. */
  lemma LastLookDecides(passes: seq<Input>, j: nat) returns (k: int)
    requires j <= |passes|
    ensures if k == -1 then PairsOf(passes)[j] == Pair(None, None) else k >= 0 && SeenBy(passes, k, j)
  {
    PairsChangeOnLooks(passes);
    k := FindLastSet(LooksOf(passes), PairsOf(passes), j);
    if k == -1 {
      assert passes[..0] == [];
    } else {
      LookStep(passes, k);
    }
  }

  /** A generation that is reported as converged was seen rolled out by the last stored look. */
  lemma ConvergedWasRolledOut(passes: seq<Input>, generation: int) returns (k: int)
    requires TrueAt(StatusAfter(passes).conditions, WorkloadConverged, generation)
    ensures k >= 0 && LastSet(LooksOf(passes), k, |passes|) && passes[k].obj.generation == generation
    ensures ShowsRolledOut(passes[k].obj, passes[k].sight.workload)
  {
    assert passes[..|passes|] == passes;
    k := LastLookDecides(passes, |passes|);
  }
}
