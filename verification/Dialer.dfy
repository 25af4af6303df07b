/** Outcome of dialing the declared ports of one workload. */
module Dialer {
  import opened Sorting

  datatype PortResult = PortResult(port: int, open: bool)
  type DialResult = seq<PortResult>

  predicate AllOpen(r: DialResult) {
    forall i :: 0 <= i < |r| ==> r[i].open
  }

  function Refused(r: DialResult): seq<int> {
    if r == [] then []
    else if r[|r| - 1].open then Refused(r[..|r| - 1])
    else Refused(r[..|r| - 1]) + [r[|r| - 1].port]
  }

  function ClosedPorts(r: DialResult): seq<int> {
    Sort(Refused(r), IntLeq)
  }

  /** The reported ports are ascending, are exactly the refused ones, and are absent
      exactly when every port accepted. */
  lemma {:induction false} ClosedPortsMeaning(r: DialResult)
    ensures Sorted(ClosedPorts(r), IntLeq)
    ensures forall p :: p in ClosedPorts(r) <==> PortResult(p, false) in r
    ensures ClosedPorts(r) == [] <==> AllOpen(r)
  {
    SortSorted(Refused(r), IntLeq);
    RefusedMeaning(r);
    var c := ClosedPorts(r);
    forall p ensures p in c <==> p in Refused(r) {
      assert p in c <==> p in multiset(c);
      assert p in Refused(r) <==> p in multiset(Refused(r));
    }
    if c == [] {
      forall i | 0 <= i < |r| ensures r[i].open {
        assert r[i] in r;
        assert r[i].port !in c;
      }
    } else {
      assert c[0] in c;
    }
  }

  lemma {:induction false} RefusedMeaning(r: DialResult)
    ensures forall p :: p in Refused(r) <==> PortResult(p, false) in r
  {
    if r != [] {
      RefusedMeaning(r[..|r| - 1]);
      assert r == r[..|r| - 1] + [r[|r| - 1]];
    }
  }

  /** The scan that collects and then sorts the refused ports. */
  method CollectClosedPorts(r: DialResult) returns (closed: seq<int>)
    ensures closed == ClosedPorts(r)
  {
    closed := [];
    for i := 0 to |r|
      invariant closed == Refused(r[..i])
    {
      assert r[..i + 1][..i] == r[..i];
      if !r[i].open {
        closed := closed + [r[i].port];
      }
    }
    assert r[..|r|] == r;
    closed := Sort(closed, IntLeq);
  }
}
