/** openSecurityGroupPorts (src/functions/openSecurityGroupPort.ts): every
    rule becomes one TCP ingress permission, sent in one authorize call. */
module IngressPermissions {
  import opened Common
  import opened SecurityGroupRules
  import opened Cidr

  /** The IpPermission object built for one rule; `sourceSecurityGroup` is
      None when the property is never set. */
  datatype IpPermission = IpPermission(
    ipProtocol: string,
    fromPort: int,
    toPort: int,
    ipRanges: seq<string>,
    ipv6Ranges: seq<string>,
    sourceSecurityGroup: Option<string>)

  /** The parameters of one `authorizeSecurityGroupIngress` call. */
  datatype AuthorizeRequest = AuthorizeRequest(groupId: string, ipPermissions: seq<IpPermission>)

  const AuthorizeContext := "Trying to authorize an inbound rule on "

  /** `{ from, to }` of a rule's ports: a single port p is the range p..p. */
  function PortBounds(ports: Ports): (bounds: (int, int))
    ensures ports.Port? ==> bounds.0 == ports.port && bounds.1 == ports.port
    ensures ports.Range? ==> bounds == (ports.range.from, ports.range.to)
  {
    match ports
    case Port(p) => (p, p)
    case Range(r) => (r.from, r.to)
  }

  function Ipv4Ranges(rule: SecurityGroupRule): seq<string> {
    match rule
    case AllTrafficRule(_) => [AnyIpv4]
    case AddressRule(_, addresses) => HostCidrs(addresses)
    case GroupRule(_, _) => []
  }

  function Ipv6Ranges(rule: SecurityGroupRule): seq<string> {
    if rule.AllTrafficRule? then [AnyIpv6] else []
  }

  /** The permission one rule becomes. */
  function Permission(rule: SecurityGroupRule): (p: IpPermission)
    ensures p.ipProtocol == "tcp"
    ensures (p.fromPort, p.toPort) == PortBounds(rule.ports)
    ensures rule.AllTrafficRule? ==> p.ipRanges == [AnyIpv4] && p.ipv6Ranges == [AnyIpv6]
    ensures rule.AddressRule? ==>
      && |p.ipRanges| == |rule.sourceAddresses|
      && (forall i :: 0 <= i < |p.ipRanges| ==> p.ipRanges[i] == HostCidr(rule.sourceAddresses[i]))
      && p.ipv6Ranges == []
    ensures rule.GroupRule? ==> p.ipRanges == [] && p.ipv6Ranges == []
    ensures p.sourceSecurityGroup.Some? <==> rule.GroupRule?
    ensures rule.GroupRule? ==> p.sourceSecurityGroup == Some(rule.sourceGroup)
  {
    var bounds := PortBounds(rule.ports);
    IpPermission(
      "tcp", bounds.0, bounds.1, Ipv4Ranges(rule), Ipv6Ranges(rule),
      if rule.GroupRule? then Some(rule.sourceGroup) else None)
  }

  /** `rules.map(...)`: one permission per rule, in the rules' order. */
  function Permissions(rules: seq<SecurityGroupRule>): (ps: seq<IpPermission>)
    ensures |ps| == |rules|
    ensures forall i :: 0 <= i < |rules| ==> ps[i] == Permission(rules[i])
  {
    if rules == [] then [] else [Permission(rules[0])] + Permissions(rules[1..])
  }

  /** Authorizes every rule on group `id` in one call; `authorize` is the
      SDK's answer to that call (None when the callback got no error). */
  function OpenSecurityGroupPorts(
    id: string,
    rules: seq<SecurityGroupRule>,
    authorize: AuthorizeRequest -> Option<SdkError>
  ): (r: Result<()>)
    ensures r.Ok? <==> authorize(AuthorizeRequest(id, Permissions(rules))).None?
    ensures r.Err? ==>
      r.failure == Wrapped(authorize(AuthorizeRequest(id, Permissions(rules))).value, AuthorizeContext + id)
  {
    var outcome := authorize(AuthorizeRequest(id, Permissions(rules)));
    if outcome.Some? then Err(Wrapped(outcome.value, AuthorizeContext + id)) else Ok(())
  }

  /** No permission is open to a peer group unless its rule names that group. */
  lemma {:induction false} OnlyGroupRulesReferenceGroups(rules: seq<SecurityGroupRule>, i: nat)
    requires i < |rules|
    ensures Permissions(rules)[i].sourceSecurityGroup.Some?
        <==> rules[i].GroupRule?
    ensures Permissions(rules)[i].ipRanges == [] <==>
      (rules[i].GroupRule? || (rules[i].AddressRule? && rules[i].sourceAddresses == []))
  {
  }
}
