/** address/picker.go: choosing the host-only subnet for a new VM.

    The allow-list of subnet IPs is a parameter (its table is not part of this model), and so
    are the two collaborators: the live host interfaces are the answer of `Network.Interfaces`,
    and `Driver.IsInterfaceInUse` is a function from interface name to its answer. */
module AddressPicker {
  import opened Results

  /** A host network interface (network.Interface). */
  datatype Interface = Interface(name: string, ip: string, hardwareAddress: string)

  /** The collaborator calls the picker makes, in the order it makes them. */
  datatype Call = NetworkInterfaces | IsInterfaceInUse(name: string)

  const AllTakenError := "all allowed network interfaces are currently taken"

  /** An interface is reusable when one of the reusable interfaces has its hardware address. */
  predicate IsReusable(iface: Interface, reusable: seq<Interface>)
  {
    exists r :: r in reusable && r.hardwareAddress == iface.hardwareAddress
  }

  /** Some live interface that is not reusable already holds `ip`. */
  predicate HeldByForeign(ip: string, reusable: seq<Interface>, live: seq<Interface>)
  {
    exists iface :: iface in live && iface.ip == ip && !IsReusable(iface, reusable)
  }

  /** The interfaces of `candidates` whose IP is `ip`, in their original order. */
  function Matching(ip: string, candidates: seq<Interface>): (r: seq<Interface>)
    ensures |r| <= |candidates|
    ensures forall x :: x in r <==> x in candidates && x.ip == ip
  {
    if candidates == [] then []
    else
      var last := candidates[|candidates| - 1];
      Matching(ip, candidates[..|candidates| - 1]) + (if last.ip == ip then [last] else [])
  }

  /** Filtering works element by element: it keeps the order and the number of copies of
      every interface it keeps. */
  lemma {:induction false} MatchingAppend(ip: string, a: seq<Interface>, b: seq<Interface>)
    ensures Matching(ip, a + b) == Matching(ip, a) + Matching(ip, b)
  {
    if b == [] {
      assert a + b == a;
    } else {
      assert (a + b)[|a + b| - 1] == b[|b| - 1];
      assert (a + b)[..|a + b| - 1] == a + b[..|b| - 1];
      MatchingAppend(ip, a, b[..|b| - 1]);
    }
  }

  /** A single interface is kept exactly when its IP matches. */
  lemma MatchingOne(ip: string, x: Interface)
    ensures Matching(ip, [x]) == if x.ip == ip then [x] else []
  {
    assert [x][..0] == [];
  }

  /** What examining one subnet decides. */
  datatype Verdict = Skip | Take(ip: string) | Abort(error: string)

  /** The name passed to `IsInterfaceInUse` while examining `subnet`, if that call is made:
      only when no foreign interface holds the subnet and exactly one reusable one has it. */
  function Probe(subnet: string, reusable: seq<Interface>, live: seq<Interface>): (r: Option<string>)
    ensures r.Some? ==> !HeldByForeign(subnet, reusable, live) && |Matching(subnet, reusable)| == 1
  {
    if HeldByForeign(subnet, reusable, live) then None
    else
      var m := Matching(subnet, reusable);
      if |m| == 1 then Some(m[0].name) else None
  }

  /** The decision for one subnet of the allow-list. */
  function Consider(subnet: string, reusable: seq<Interface>, live: seq<Interface>,
                    inUse: string -> Result<bool>): (v: Verdict)
    ensures v.Take? ==> v.ip == subnet
    ensures HeldByForeign(subnet, reusable, live) ==> v == Skip
    ensures |Matching(subnet, reusable)| > 1 ==> v == Skip
    ensures v.Abort? <==> Probe(subnet, reusable, live).Some? && inUse(Probe(subnet, reusable, live).value).Err?
    ensures v.Abort? ==> v.error == inUse(Probe(subnet, reusable, live).value).error
  {
    if HeldByForeign(subnet, reusable, live) then Skip
    else
      var m := Matching(subnet, reusable);
      if |m| == 1 then
        assert m[0] in m;
        match inUse(m[0].name)
        case Err(e) => Abort(e)
        case Ok(used) => if used then Skip else Take(m[0].ip)
      else if |m| > 1 then Skip
      else Take(subnet)
  }

  function ProbeCalls(subnet: string, reusable: seq<Interface>, live: seq<Interface>): seq<Call>
  {
    match Probe(subnet, reusable, live)
    case None => []
    case Some(name) => [IsInterfaceInUse(name)]
  }

  /** The result of a scan, and the `IsInterfaceInUse` calls it made. */
  datatype Scan = Scan(ip: Result<string>, calls: seq<Call>)

  /** First fit over the allow-list: the first subnet not skipped decides. */
  function ScanSubnets(subnets: seq<string>, reusable: seq<Interface>, live: seq<Interface>,
                       inUse: string -> Result<bool>): (r: Scan)
    ensures r.ip.Ok? ==> r.ip.value in subnets
    ensures |r.calls| <= |subnets|
    ensures forall c :: c in r.calls ==> c.IsInterfaceInUse?
  {
    if subnets == [] then Scan(Err(AllTakenError), [])
    else
      var probe := ProbeCalls(subnets[0], reusable, live);
      match Consider(subnets[0], reusable, live, inUse)
      case Take(ip) => Scan(Ok(ip), probe)
      case Abort(e) => Scan(Err(e), probe)
      case Skip =>
        var rest := ScanSubnets(subnets[1..], reusable, live, inUse);
        Scan(rest.ip, probe + rest.calls)
  }

  /** The probe calls of every subnet of `subnets`, in order. */
  function Probes(subnets: seq<string>, reusable: seq<Interface>, live: seq<Interface>): seq<Call>
  {
    if subnets == [] then [] else ProbeCalls(subnets[0], reusable, live) + Probes(subnets[1..], reusable, live)
  }

  function VerdictResult(v: Verdict): Result<string>
    requires !v.Skip?
  {
    if v.Take? then Ok(v.ip) else Err(v.error)
  }

  /** The first subnet that is not skipped decides the result, and no subnet after it is
      examined: the calls are exactly the probes of the subnets up to and including it. */
  lemma {:induction false} FirstFitDecides(subnets: seq<string>, reusable: seq<Interface>, live: seq<Interface>,
                                            inUse: string -> Result<bool>, k: nat)
    requires k < |subnets|
    requires forall j :: 0 <= j < k ==> Consider(subnets[j], reusable, live, inUse) == Skip
    requires !Consider(subnets[k], reusable, live, inUse).Skip?
    ensures ScanSubnets(subnets, reusable, live, inUse).ip == VerdictResult(Consider(subnets[k], reusable, live, inUse))
    ensures ScanSubnets(subnets, reusable, live, inUse).calls == Probes(subnets[..k + 1], reusable, live)
  {
    assert subnets[..k + 1][0] == subnets[0];
    if k == 0 {
      assert subnets[..1][1..] == [];
    } else {
      assert subnets[1..][..k] == subnets[..k + 1][1..];
      FirstFitDecides(subnets[1..], reusable, live, inUse, k - 1);
    }
  }

  /** When every subnet is skipped the scan reports that all are taken, after probing each. */
  lemma {:induction false} AllSkippedMeansAllTaken(subnets: seq<string>, reusable: seq<Interface>,
                                                     live: seq<Interface>, inUse: string -> Result<bool>)
    requires forall j :: 0 <= j < |subnets| ==> Consider(subnets[j], reusable, live, inUse) == Skip
    ensures ScanSubnets(subnets, reusable, live, inUse) == Scan(Err(AllTakenError), Probes(subnets, reusable, live))
  {
    if subnets != [] {
      AllSkippedMeansAllTaken(subnets[1..], reusable, live, inUse);
    }
  }

  /** A subnet that no foreign interface holds and no reusable interface has is taken as it is. */
  lemma FreeSubnetIsTaken(subnet: string, reusable: seq<Interface>, live: seq<Interface>,
                          inUse: string -> Result<bool>)
    requires !HeldByForeign(subnet, reusable, live)
    requires forall k :: 0 <= k < |reusable| ==> reusable[k].ip != subnet
    ensures Consider(subnet, reusable, live, inUse) == Take(subnet)
  {
    NothingMatches(subnet, reusable);
  }

  lemma {:induction false} NothingMatches(ip: string, candidates: seq<Interface>)
    requires forall k :: 0 <= k < |candidates| ==> candidates[k].ip != ip
    ensures Matching(ip, candidates) == []
  {
    if candidates != [] {
      NothingMatches(ip, candidates[..|candidates| - 1]);
    }
  }

  /** With exactly one matching reusable interface and no foreign holder, the subnet is taken
      exactly when the driver says that interface is not in use. */
  lemma SingleReusableDecidedByDriver(subnet: string, reusable: seq<Interface>, live: seq<Interface>,
                                      inUse: string -> Result<bool>, iface: Interface)
    requires !HeldByForeign(subnet, reusable, live)
    requires Matching(subnet, reusable) == [iface]
    ensures Consider(subnet, reusable, live, inUse) == Take(subnet) <==> inUse(iface.name) == Ok(false)
    ensures Consider(subnet, reusable, live, inUse) == Skip <==> inUse(iface.name) == Ok(true)
  {
  }

  lemma ScanSkips(subnets: seq<string>, reusable: seq<Interface>, live: seq<Interface>,
                  inUse: string -> Result<bool>)
    requires subnets != [] && Consider(subnets[0], reusable, live, inUse) == Skip
    ensures ScanSubnets(subnets, reusable, live, inUse).ip == ScanSubnets(subnets[1..], reusable, live, inUse).ip
    ensures ScanSubnets(subnets, reusable, live, inUse).calls
         == ProbeCalls(subnets[0], reusable, live) + ScanSubnets(subnets[1..], reusable, live, inUse).calls
  {
  }

  lemma ScanStops(subnets: seq<string>, reusable: seq<Interface>, live: seq<Interface>,
                  inUse: string -> Result<bool>)
    requires subnets != [] && !Consider(subnets[0], reusable, live, inUse).Skip?
    ensures ScanSubnets(subnets, reusable, live, inUse)
         == Scan(VerdictResult(Consider(subnets[0], reusable, live, inUse)), ProbeCalls(subnets[0], reusable, live))
  {
  }

  /** nonReusableInterfaceExists: nested scans with a `reusable` flag. */
  method NonReusableInterfaceExists(ip: string, reusable: seq<Interface>, all: seq<Interface>)
    returns (found: bool)
    ensures found <==> HeldByForeign(ip, reusable, all)
  {
    for i := 0 to |all|
      invariant forall j :: 0 <= j < i ==> !(all[j].ip == ip && !IsReusable(all[j], reusable))
    {
      var iface := all[i];
      var isReusable := false;
      for j := 0 to |reusable|
        invariant isReusable <==> exists r :: r in reusable[..j] && r.hardwareAddress == iface.hardwareAddress
      {
        assert reusable[..j + 1] == reusable[..j] + [reusable[j]];
        if iface.hardwareAddress == reusable[j].hardwareAddress {
          isReusable := true;
        }
      }
      assert reusable[..|reusable|] == reusable;
      if !isReusable && ip == iface.ip {
        return true;
      }
    }
    found := false;
  }

  /** addrsInSet: collects the interfaces whose IP is `ip`. */
  method AddrsInSet(ip: string, candidates: seq<Interface>) returns (addrs: seq<Interface>)
    ensures addrs == Matching(ip, candidates)
  {
    addrs := [];
    for i := 0 to |candidates|
      invariant addrs == Matching(ip, candidates[..i])
    {
      assert candidates[..i + 1][..i] == candidates[..i];
      if candidates[i].ip == ip {
        addrs := addrs + [candidates[i]];
      }
    }
    assert candidates[..|candidates|] == candidates;
  }

  /** The body of the loop of SelectAvailableIP for one subnet: the foreign-holder check, the
      reusable matches, and the driver query when exactly one matches. */
  method ExamineSubnet(subnetIP: string, reusable: seq<Interface>, all: seq<Interface>,
                       inUse: string -> Result<bool>)
    returns (verdict: Verdict, probe: seq<Call>)
    ensures verdict == Consider(subnetIP, reusable, all, inUse)
    ensures probe == ProbeCalls(subnetIP, reusable, all)
  {
    var foreign := NonReusableInterfaceExists(subnetIP, reusable, all);
    if foreign {
      return Skip, [];
    }
    var matching := AddrsInSet(subnetIP, reusable);
    if |matching| == 1 {
      probe := [IsInterfaceInUse(matching[0].name)];
      var used := inUse(matching[0].name);
      if used.Err? {
        return Abort(used.error), probe;
      }
      if used.value {
        return Skip, probe;
      }
      assert matching[0] in matching;
      return Take(matching[0].ip), probe;
    }
    if |matching| > 1 {
      return Skip, [];
    }
    return Take(subnetIP), [];
  }

  /** Picker.SelectAvailableIP. `interfaces` is the answer of `Network.Interfaces`; its error
      is returned unchanged. Otherwise the loop over the allow-list computes the first fit. */
  method SelectAvailableIP(allowedSubnets: seq<string>, reusable: seq<Interface>,
                           interfaces: Result<seq<Interface>>, inUse: string -> Result<bool>)
    returns (ip: Result<string>, calls: seq<Call>)
    ensures interfaces.Err? ==> ip == Err(interfaces.error) && calls == [NetworkInterfaces]
    ensures interfaces.Ok? ==>
      var scan := ScanSubnets(allowedSubnets, reusable, interfaces.value, inUse);
      ip == scan.ip && calls == [NetworkInterfaces] + scan.calls
  {
    if interfaces.Err? {
      return Err(interfaces.error), [NetworkInterfaces];
    }
    var all := interfaces.value;
    var probes: seq<Call> := [];
    ghost var scan := ScanSubnets(allowedSubnets, reusable, all, inUse);
    assert allowedSubnets[0..] == allowedSubnets;
    for i := 0 to |allowedSubnets|
      invariant scan.ip == ScanSubnets(allowedSubnets[i..], reusable, all, inUse).ip
      invariant scan.calls == probes + ScanSubnets(allowedSubnets[i..], reusable, all, inUse).calls
    {
      ghost var here := allowedSubnets[i..];
      assert here[0] == allowedSubnets[i] && here[1..] == allowedSubnets[i + 1..];
      var verdict, probe := ExamineSubnet(allowedSubnets[i], reusable, all, inUse);
      match verdict {
        case Skip =>
          ScanSkips(here, reusable, all, inUse);
          probes := probes + probe;
        case Take(subnet) =>
          ScanStops(here, reusable, all, inUse);
          return Ok(subnet), [NetworkInterfaces] + probes + probe;
        case Abort(e) =>
          ScanStops(here, reusable, all, inUse);
          return Err(e), [NetworkInterfaces] + probes + probe;
      }
    }
    assert allowedSubnets[|allowedSubnets|..] == [];
    return Err(AllTakenError), [NetworkInterfaces] + probes;
  }
}
