/** The gate between sibling resources. */
module Dependencies {
  import opened Meta
  import opened Resource

  /** A sibling as the listing shows it. */
  datatype Sibling = Sibling(name: string, generation: int, conditions: map<ConditionType, Condition>)

  /** The listing failed or is short, some dependency is not available, or all are. */
  datatype GateResult = GateError | Blocked | Open

  predicate SiblingAvailable(s: Sibling) {
    TrueAt(s.conditions, Available, s.generation)
  }

  predicate IsDependency(self: string, dependsOn: seq<string>, s: Sibling) {
    s.name != self && s.name in dependsOn
  }

  function Matching(self: string, dependsOn: seq<string>, listing: seq<Sibling>): seq<Sibling> {
    if listing == [] then []
    else
      var rest := Matching(self, dependsOn, listing[..|listing| - 1]);
      var last := listing[|listing| - 1];
      if IsDependency(self, dependsOn, last) then rest + [last] else rest
  }

  function DependenciesAvailable(self: string, dependsOn: seq<string>, listing: Option<seq<Sibling>>): GateResult {
    if dependsOn == [] then Open
    else if listing.None? then GateError
    else
      var deps := Matching(self, dependsOn, listing.value);
      if |deps| != |dependsOn| then GateError
      else if forall i :: 0 <= i < |deps| ==> SiblingAvailable(deps[i]) then Open
      else Blocked
  }

  /** Names are unique within a namespace. */
  ghost predicate UniqueNames(listing: seq<Sibling>) {
    forall i, j :: 0 <= i < j < |listing| ==> listing[i].name != listing[j].name
  }

  function NameSet(listing: seq<Sibling>): set<string> { set i | 0 <= i < |listing| :: listing[i].name }

  lemma {:induction false} MatchingExact(self: string, dependsOn: seq<string>, listing: seq<Sibling>)
    requires UniqueNames(listing)
    ensures var deps := Matching(self, dependsOn, listing);
            && UniqueNames(deps)
            && forall s :: s in deps <==> s in listing && IsDependency(self, dependsOn, s)
  {
    if listing != [] {
      var front, last := listing[..|listing| - 1], listing[|listing| - 1];
      MatchingExact(self, dependsOn, front);
      assert listing == front + [last];
      var rest := Matching(self, dependsOn, front);
      forall i | 0 <= i < |rest| ensures rest[i].name != last.name {
        assert rest[i] in rest;
      }
    }
  }

  lemma {:induction false} NameSetSize(listing: seq<Sibling>)
    requires UniqueNames(listing)
    ensures |NameSet(listing)| == |listing|
  {
    if listing != [] {
      var front, last := listing[..|listing| - 1], listing[|listing| - 1];
      NameSetSize(front);
      assert NameSet(listing) == NameSet(front) + {last.name};
      assert last.name !in NameSet(front);
    }
  }

  lemma {:induction false} SeqCoversSet(s: seq<string>, names: set<string>)
    requires forall n :: n in names ==> n in s
    ensures |names| <= |s|
    ensures |names| == |s| ==> (forall i, j :: 0 <= i < j < |s| ==> s[i] != s[j]) && (forall n :: n in s ==> n in names)
  {
    if s != [] {
      var front, last := s[..|s| - 1], s[|s| - 1];
      assert s == front + [last];
      SeqCoversSet(front, names - {last});
      if |names| == |s| {
        assert last in names;
        assert |names - {last}| == |front|;
        forall n | n in s ensures n in names {
          assert n in front || n == last;
        }
        forall i, j | 0 <= i < j < |s| ensures s[i] != s[j] {
          if j == |s| - 1 {
            assert s[i] in front;
            assert s[i] in names - {last};
          }
        }
      }
    }
  }

  /** Comparing two lengths is a complete existence check: when the counts agree, every
      listed name exists among the siblings, is listed once and is not the resource itself. */
  lemma CountCheckIsComplete(self: string, dependsOn: seq<string>, listing: seq<Sibling>)
    requires UniqueNames(listing)
    ensures |Matching(self, dependsOn, listing)| == |dependsOn| <==>
              && (forall d :: d in dependsOn ==> d != self && exists s :: s in listing && s.name == d)
              && (forall i, j :: 0 <= i < j < |dependsOn| ==> dependsOn[i] != dependsOn[j])
  {
    var deps := Matching(self, dependsOn, listing);
    MatchingExact(self, dependsOn, listing);
    NameSetSize(deps);
    forall n | n in NameSet(deps) ensures n in dependsOn {
      var i :| 0 <= i < |deps| && deps[i].name == n;
      assert deps[i] in deps;
    }
    SeqCoversSet(dependsOn, NameSet(deps));
    if |deps| == |dependsOn| {
      forall d | d in dependsOn ensures d != self && exists s :: s in listing && s.name == d {
        var i :| 0 <= i < |deps| && deps[i].name == d;
        assert deps[i] in deps;
      }
    }
    if (forall d :: d in dependsOn ==> d != self && exists s :: s in listing && s.name == d)
       && (forall i, j :: 0 <= i < j < |dependsOn| ==> dependsOn[i] != dependsOn[j]) {
      forall d | d in dependsOn ensures d in NameSet(deps) {
        var s :| s in listing && s.name == d;
        assert s in deps;
      }
      DistinctSeqSize(dependsOn);
      assert NameSet(deps) == (set d | d in dependsOn);
    }
  }

  lemma {:induction false} DistinctSeqSize(s: seq<string>)
    requires forall i, j :: 0 <= i < j < |s| ==> s[i] != s[j]
    ensures |set d | d in s| == |s|
  {
    if s != [] {
      var front, last := s[..|s| - 1], s[|s| - 1];
      DistinctSeqSize(front);
      assert (set d | d in s) == (set d | d in front) + {last};
    }
  }

  // ----- the decision, from names and conditions alone -----

  /** The listing is there, no dependency repeats, and each is another listed sibling. */
  ghost predicate AllListed(self: string, dependsOn: seq<string>, listing: Option<seq<Sibling>>) {
    && listing.Some?
    && (forall i, j :: 0 <= i < j < |dependsOn| ==> dependsOn[i] != dependsOn[j])
    && (forall d :: d in dependsOn ==> d != self && exists s :: s in listing.value && s.name == d)
  }

  /** The sibling says Available, about its current generation. */
  predicate SaysAvailable(s: Sibling) {
    && Available in s.conditions && s.conditions[Available].status
    && s.conditions[Available].generation == s.generation
  }

  ghost predicate AllSayAvailable(dependsOn: seq<string>, listing: seq<Sibling>) {
    forall s :: s in listing && s.name in dependsOn ==> SaysAvailable(s)
  }

  /** The gate is open without dependencies, or when each is another listed sibling that is
      available; blocked when all are listed and some is not available; and an error otherwise. */
  lemma GateMeaning(self: string, dependsOn: seq<string>, listing: Option<seq<Sibling>>)
    requires listing.Some? ==> UniqueNames(listing.value)
    ensures var gate := DependenciesAvailable(self, dependsOn, listing);
            && (gate.Open? <==>
                  dependsOn == [] || (AllListed(self, dependsOn, listing) && AllSayAvailable(dependsOn, listing.value)))
            && (gate.Blocked? <==>
                  dependsOn != [] && AllListed(self, dependsOn, listing) && !AllSayAvailable(dependsOn, listing.value))
            && (gate.GateError? <==> dependsOn != [] && !AllListed(self, dependsOn, listing))
  {
    if listing.Some? {
      CountCheckIsComplete(self, dependsOn, listing.value);
      MatchingExact(self, dependsOn, listing.value);
      if AllListed(self, dependsOn, listing) {
        AvailabilityMatches(self, dependsOn, listing.value);
      }
    }
  }

  lemma AvailabilityMatches(self: string, dependsOn: seq<string>, listing: seq<Sibling>)
    requires UniqueNames(listing) && self !in dependsOn
    ensures var deps := Matching(self, dependsOn, listing);
            AllSayAvailable(dependsOn, listing) <==> forall i :: 0 <= i < |deps| ==> SiblingAvailable(deps[i])
  {
    var deps := Matching(self, dependsOn, listing);
    MatchingExact(self, dependsOn, listing);
    if AllSayAvailable(dependsOn, listing) {
      forall i | 0 <= i < |deps| ensures SiblingAvailable(deps[i]) {
        assert deps[i] in deps;
      }
    }
    if forall i :: 0 <= i < |deps| ==> SiblingAvailable(deps[i]) {
      forall s | s in listing && s.name in dependsOn ensures SaysAvailable(s) {
        assert s in deps;
      }
    }
  }

  /** An open gate means every listed dependency was seen available at its own generation. */
  lemma OpenGateMeaning(self: string, dependsOn: seq<string>, listing: Option<seq<Sibling>>)
    requires listing.Some? ==> UniqueNames(listing.value)
    ensures DependenciesAvailable(self, dependsOn, listing).Open? ==>
              forall d :: d in dependsOn ==>
                d != self && listing.Some? && exists s :: s in listing.value && s.name == d && SiblingAvailable(s)
  {
    if DependenciesAvailable(self, dependsOn, listing).Open? && dependsOn != [] {
      CountCheckIsComplete(self, dependsOn, listing.value);
      MatchingExact(self, dependsOn, listing.value);
      var deps := Matching(self, dependsOn, listing.value);
      forall d | d in dependsOn ensures exists s :: s in listing.value && s.name == d && SiblingAvailable(s) {
        var s :| s in listing.value && s.name == d;
        assert s in deps;
      }
    }
  }

  // ----- mutable form -----

  method GetDependencies(self: string, dependsOn: seq<string>, listing: seq<Sibling>)
    returns (res: Option<seq<Sibling>>)
    ensures res == if |Matching(self, dependsOn, listing)| == |dependsOn|
                   then Some(Matching(self, dependsOn, listing)) else None
  {
    var found: seq<Sibling> := [];
    for i := 0 to |listing|
      invariant found == Matching(self, dependsOn, listing[..i])
    {
      assert listing[..i + 1][..i] == listing[..i];
      if listing[i].name != self && listing[i].name in dependsOn {
        found := found + [listing[i]];
      }
    }
    assert listing[..|listing|] == listing;
    if |found| != |dependsOn| {
      return None;
    }
    return Some(found);
  }

  method CheckDependencies(self: string, dependsOn: seq<string>, listing: Option<seq<Sibling>>)
    returns (res: GateResult)
    ensures res == DependenciesAvailable(self, dependsOn, listing)
  {
    if |dependsOn| == 0 {
      return Open;
    }
    if listing.None? {
      return GateError;
    }
    var deps := GetDependencies(self, dependsOn, listing.value);
    if deps.None? {
      return GateError;
    }
    for i := 0 to |deps.value|
      invariant forall j :: 0 <= j < i ==> SiblingAvailable(deps.value[j])
    {
      if !SiblingAvailable(deps.value[i]) {
        return Blocked;
      }
    }
    return Open;
  }
}
