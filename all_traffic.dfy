/** allTraffic (src/support/allTraffic.ts): ports opened to everyone. */
module AllTrafficSupport {
  import opened SecurityGroupRules
  import opened IngressPermissions
  import opened Cidr

  /** `ports.map(it => ({ ports: it, type: ALL_TRAFFIC }))`. */
  function AllTraffic(ports: seq<Ports>): (rules: seq<SecurityGroupRule>)
    ensures |rules| == |ports|
    ensures forall i :: 0 <= i < |ports| ==> rules[i] == AllTrafficRule(ports[i])
  {
    if ports == [] then [] else [AllTrafficRule(ports[0])] + AllTraffic(ports[1..])
  }

  /** Authorizing `allTraffic(ports)` opens each listed port, in order, to
      every IPv4 and IPv6 source and to no peer group. */
  lemma {:induction false} AllTrafficOpensToEveryone(ports: seq<Ports>)
    ensures |Permissions(AllTraffic(ports))| == |ports|
    ensures forall i :: 0 <= i < |ports| ==>
      var p := Permissions(AllTraffic(ports))[i];
      && p.ipProtocol == "tcp"
      && (p.fromPort, p.toPort) == PortBounds(ports[i])
      && p.ipRanges == [AnyIpv4]
      && p.ipv6Ranges == [AnyIpv6]
      && p.sourceSecurityGroup.None?
  {
  }
}
