/** Splitting the public ports over the standard and the referenced-Secret Ingress. */
module Routes {
  import opened Meta
  import opened Resource
  import Names

  /** A DNS subdomain as section 2.1 of RFC 1123 allows it. */
  predicate ValidSecretName(s: string) {
    && 0 < |s| <= 253
    && (forall i :: 0 <= i < |s| ==> Names.Alnum(s[i]) || s[i] == '-' || s[i] == '.')
    && Names.Alnum(s[0]) && Names.Alnum(s[|s| - 1])
    && (forall i :: 0 < i < |s| - 1 && s[i] == '.' ==> Names.Alnum(s[i - 1]) && Names.Alnum(s[i + 1]))
  }

  function PortSecretRef(p: Port): Option<string> {
    if p.tls && ValidSecretName(p.tlsSecretRef) then Some(p.tlsSecretRef) else None
  }

  datatype PortRoutes = PortRoutes(
    all: map<int, string>,
    standard: map<int, string>,
    certHosts: seq<string>,
    reference: string,
    referenced: map<int, string>,
    referencedHosts: seq<string>)

  function AddRoute(routes: PortRoutes, p: Port): Option<PortRoutes> {
    if !p.exposed then Some(routes)
    else
      var r := routes.(all := routes.all[p.number := p.fqdn]);
      var ref := PortSecretRef(p);
      if ref.Some? then
        if routes.reference != "" && routes.reference != ref.value then None
        else Some(r.(reference := ref.value,
                     referenced := r.referenced[p.number := p.fqdn],
                     referencedHosts := r.referencedHosts + [p.fqdn]))
      else
        Some(r.(standard := r.standard[p.number := p.fqdn],
                certHosts := if p.tls then r.certHosts + [p.fqdn] else r.certHosts))
  }

  /** None when two ports name different Secrets. */
  function CollectRoutes(ports: seq<Port>): Option<PortRoutes> {
    if ports == [] then Some(PortRoutes(map[], map[], [], "", map[], []))
    else
      var rest := CollectRoutes(ports[..|ports| - 1]);
      if rest.None? then None else AddRoute(rest.value, ports[|ports| - 1])
  }

  predicate HasExposedPort(ports: seq<Port>) {
    exists i :: 0 <= i < |ports| && ports[i].exposed
  }

  ghost predicate Exposes(ports: seq<Port>, n: int, referenced: bool) {
    exists i :: 0 <= i < |ports| && ports[i].exposed && ports[i].number == n
      && (PortSecretRef(ports[i]).Some? <==> referenced)
  }

  /** Where a port goes, for any list of ports. */
  lemma {:induction false} RoutesByPort(ports: seq<Port>)
    requires CollectRoutes(ports).Some?
    ensures var r := CollectRoutes(ports).value;
            && (forall n :: n in r.standard <==> Exposes(ports, n, false))
            && (forall n :: n in r.referenced <==> Exposes(ports, n, true))
            && r.all.Keys == r.standard.Keys + r.referenced.Keys
            && (r.referenced != map[] <==> r.reference != "")
            && (r.reference != "" ==> ValidSecretName(r.reference))
  {
    if ports != [] {
      var front, last := ports[..|ports| - 1], ports[|ports| - 1];
      RoutesByPort(front);
      forall n, b ensures Exposes(ports, n, b) <==>
                          Exposes(front, n, b)
                          || (last.exposed && last.number == n && (PortSecretRef(last).Some? <==> b))
      {
        if Exposes(front, n, b) {
          var i :| 0 <= i < |front| && front[i].exposed && front[i].number == n
            && (PortSecretRef(front[i]).Some? <==> b);
          assert ports[i] == front[i];
        }
        if Exposes(ports, n, b) {
          var i :| 0 <= i < |ports| && ports[i].exposed && ports[i].number == n
            && (PortSecretRef(ports[i]).Some? <==> b);
          assert i < |front| ==> front[i] == ports[i];
        }
        if last.exposed && last.number == n && (PortSecretRef(last).Some? <==> b) {
          assert ports[|ports| - 1].number == n;
        }
      }
      var r, r' := CollectRoutes(front).value, CollectRoutes(ports).value;
      if last.exposed && PortSecretRef(last).Some? {
        assert last.number in r'.referenced;
      }
    }
  }

  ghost predicate Disjoint(r: PortRoutes) {
    forall n :: n in r.standard ==> n !in r.referenced
  }

  /** The two Ingresses route every public port, and they never share one exactly when no
      number is public both with and without a referenced Secret. */
  lemma IngressesPartitionPorts(ports: seq<Port>)
    requires CollectRoutes(ports).Some?
    ensures var r := CollectRoutes(ports).value;
            && r.all.Keys == r.standard.Keys + r.referenced.Keys
            && (Disjoint(r) <==> forall n :: Exposes(ports, n, false) ==> !Exposes(ports, n, true))
            && (Distinct(ports) ==> Disjoint(r))
  {
    RoutesByPort(ports);
  }

  /** Two ports on one number can land on both Ingresses. */
  lemma SharedNumberOverlaps()
    ensures exists ports :: CollectRoutes(ports).Some? && !Disjoint(CollectRoutes(ports).value)
  {
    var plain, tls := Port(80, true, "a", false, ""), Port(80, true, "b", true, "s");
    var ports := [plain, tls];
    assert ports[..1] == [plain] && [plain][..0] == [];
    assert CollectRoutes([plain]).Some?;
    assert CollectRoutes(ports).Some?;
    assert 80 in CollectRoutes(ports).value.standard && 80 in CollectRoutes(ports).value.referenced;
  }

  ghost predicate Distinct(ports: seq<Port>) {
    forall i, j :: 0 <= i < j < |ports| ==> ports[i].number != ports[j].number
  }

  /** The host of a distinct public port, and the TLS host list it is in. */
  lemma {:induction false} RouteOfPort(ports: seq<Port>, k: nat)
    requires CollectRoutes(ports).Some? && Distinct(ports) && k < |ports| && ports[k].exposed
    ensures var r, p := CollectRoutes(ports).value, ports[k];
            && p.number in r.all && r.all[p.number] == p.fqdn
            && (PortSecretRef(p).Some? ==>
                  p.number in r.referenced && r.referenced[p.number] == p.fqdn
                  && p.fqdn in r.referencedHosts && r.reference == PortSecretRef(p).value)
            && (PortSecretRef(p).None? ==>
                  p.number in r.standard && r.standard[p.number] == p.fqdn && (p.tls ==> p.fqdn in r.certHosts))
  {
    var front, last := ports[..|ports| - 1], ports[|ports| - 1];
    if k < |ports| - 1 {
      RouteOfPort(front, k);
      assert last.number != ports[k].number;
      RoutesByPort(front);
    } else {
      assert last == ports[k];
    }
  }

  function GetPort(ports: seq<Port>, n: int): Option<Port> {
    if ports == [] then None else if ports[0].number == n then Some(ports[0]) else GetPort(ports[1..], n)
  }

  lemma {:induction false} GetPortExact(ports: seq<Port>, k: nat)
    requires Distinct(ports) && k < |ports|
    ensures GetPort(ports, ports[k].number) == Some(ports[k])
  {
    if k > 0 {
      GetPortExact(ports[1..], k - 1);
    }
  }

  // ----- mutable form -----

  method CollectExposedPortRoutes(ports: seq<Port>) returns (res: Option<PortRoutes>)
    ensures res == CollectRoutes(ports)
  {
    var routes := PortRoutes(map[], map[], [], "", map[], []);
    for i := 0 to |ports|
      invariant CollectRoutes(ports[..i]) == Some(routes)
    {
      assert ports[..i + 1][..i] == ports[..i];
      var port := ports[i];
      if !port.exposed {
        continue;
      }
      routes := routes.(all := routes.all[port.number := port.fqdn]);
      var ref := PortSecretRef(port);
      if ref.Some? {
        if routes.reference != "" && routes.reference != ref.value {
          ConflictIsFinal(ports, i + 1);
          return None;
        }
        routes := routes.(reference := ref.value,
                          referenced := routes.referenced[port.number := port.fqdn],
                          referencedHosts := routes.referencedHosts + [port.fqdn]);
        continue;
      }
      if port.tls {
        routes := routes.(certHosts := routes.certHosts + [port.fqdn]);
      }
      routes := routes.(standard := routes.standard[port.number := port.fqdn]);
    }
    assert ports[..|ports|] == ports;
    return Some(routes);
  }

  lemma {:induction false} ConflictIsFinal(ports: seq<Port>, n: nat)
    requires n <= |ports| && CollectRoutes(ports[..n]).None?
    ensures CollectRoutes(ports).None?
    decreases |ports|
  {
    if n < |ports| {
      assert ports[..|ports| - 1][..n] == ports[..n];
      ConflictIsFinal(ports[..|ports| - 1], n);
    } else {
      assert ports[..n] == ports;
    }
  }

  // ----- secret names, label by label -----

  /** The parts between the dots. */
  function Labels(s: string): (labels: seq<string>)
    ensures labels != []
  {
    if s == "" then [""]
    else
      var rest, c := Labels(s[..|s| - 1]), s[|s| - 1];
      if c == '.' then rest + [""] else rest[|rest| - 1 := rest[|rest| - 1] + [c]]
  }

  /** Letters, digits and dashes, with a letter or digit at both ends. */
  predicate Label(s: string) {
    && s != "" && s[0] != '-' && s[|s| - 1] != '-'
    && forall i :: 0 <= i < |s| ==> Names.Alnum(s[i]) || s[i] == '-'
  }

  /** All labels are complete, but for the last one. */
  predicate LabelsSoFar(labels: seq<string>)
    requires labels != []
  {
    && (forall i :: 0 <= i < |labels| - 1 ==> Label(labels[i]))
    && var last := labels[|labels| - 1];
       last != "" ==> last[0] != '-' && forall i :: 0 <= i < |last| ==> Names.Alnum(last[i]) || last[i] == '-'
  }

  /** The text is a subdomain as far as it goes. */
  predicate SubdomainSoFar(s: string) {
    && (forall i :: 0 <= i < |s| ==> Names.Alnum(s[i]) || s[i] == '-' || s[i] == '.')
    && (s != "" ==> Names.Alnum(s[0]))
    && (forall i :: 0 < i < |s| && s[i] == '.' ==> Names.Alnum(s[i - 1]))
    && (forall i :: 0 < i < |s| && s[i - 1] == '.' ==> Names.Alnum(s[i]))
  }

  lemma {:induction false} LastLabel(s: string)
    ensures var last := Labels(s)[|Labels(s)| - 1];
            && (last == "" <==> s == "" || s[|s| - 1] == '.')
            && (last != "" ==> last[|last| - 1] == s[|s| - 1])
  {
    if s != "" {
      LastLabel(s[..|s| - 1]);
    }
  }

  lemma {:induction false} LabelsGrow(s: string)
    ensures LabelsSoFar(Labels(s)) <==> SubdomainSoFar(s)
  {
    if s != "" {
      var front, c := s[..|s| - 1], s[|s| - 1];
      LabelsGrow(front);
      LastLabel(front);
      SubdomainStep(front, c);
      assert s == front + [c];
      LabelsStep(Labels(front), c);
    }
  }

  /** When one more character keeps the text a subdomain. */
  lemma SubdomainStep(front: string, c: char)
    ensures SubdomainSoFar(front + [c]) <==>
            && SubdomainSoFar(front)
            && if c == '.' then front != "" && Names.Alnum(front[|front| - 1])
               else Names.Alnum(c) || (c == '-' && front != "" && front[|front| - 1] != '.')
  {
    var s := front + [c];
    assert forall i :: 0 <= i < |front| ==> s[i] == front[i];
    if SubdomainSoFar(s) {
      assert SubdomainSoFar(front);
      assert s[|front|] == c;
    }
  }

  lemma LabelsStep(labels: seq<string>, c: char)
    requires labels != []
    ensures var last := labels[|labels| - 1];
            var next := if c == '.' then labels + [""] else labels[|labels| - 1 := last + [c]];
            LabelsSoFar(next) <==>
            && LabelsSoFar(labels)
            && if c == '.' then last != "" && Names.Alnum(last[|last| - 1])
               else Names.Alnum(c) || (c == '-' && last != "")
  {
    var last := labels[|labels| - 1];
    var next := if c == '.' then labels + [""] else labels[|labels| - 1 := last + [c]];
    assert forall i :: 0 <= i < |labels| - 1 ==> next[i] == labels[i];
    if c == '.' {
      assert next[|labels| - 1] == last;
      if LabelsSoFar(next) {
        assert Label(next[|labels| - 1]);
      }
    } else {
      var grown := next[|next| - 1];
      assert grown == last + [c] && forall i :: 0 <= i < |last| ==> grown[i] == last[i];
      assert grown[|last|] == c;
      if LabelsSoFar(next) {
        assert forall i :: 0 <= i < |labels| - 1 ==> Label(next[i]);
      }
    }
  }

  /** A Secret name is valid exactly when it has at most 253 characters and every part between
      its dots is a label. */
  lemma SecretNameIsLabels(s: string)
    ensures ValidSecretName(s) <==> |s| <= 253 && forall i :: 0 <= i < |Labels(s)| ==> Label(Labels(s)[i])
  {
    LabelsGrow(s);
    LastLabel(s);
  }
}
