/** createSecurityGroup (src/functions/createSecurityGroup.ts): create a
    group, then authorize one TCP permission per port entry. */
module SecurityGroups {
  import opened Common
  import opened SecurityGroupRules
  import opened Cidr
  import IngressPermissions
  import AllTrafficSupport

  /** The permission object of this older form: no IPv6 ranges and no peer group. */
  datatype TcpPermission = TcpPermission(ipProtocol: string, fromPort: int, toPort: int, ipRanges: seq<string>)

  datatype CreateGroupRequest = CreateGroupRequest(groupName: string, description: string, vpcId: string)

  /** The SDK calls made, in the order they are made. */
  datatype Call =
    | CreateGroup(request: CreateGroupRequest)
    | Authorize(groupId: string, permissions: seq<TcpPermission>)

  /** The sources of every permission: everyone when `addresses` is empty
      (its default), otherwise one `/32` block per address, in order. */
  function SourceRanges(addresses: seq<string>): (ranges: seq<string>)
    ensures addresses == [] ==> ranges == [AnyIpv4]
    ensures addresses != [] ==>
      && |ranges| == |addresses|
      && forall i :: 0 <= i < |addresses| ==> HostAddress(ranges[i]) == Some(addresses[i])
  {
    if |addresses| == 0 then [AnyIpv4] else HostCidrs(addresses)
  }

  function TcpPermissionFor(ports: Ports, addresses: seq<string>): TcpPermission {
    TcpPermission(
      "tcp",
      if ports.Port? then ports.port else ports.range.from,
      if ports.Port? then ports.port else ports.range.to,
      SourceRanges(addresses))
  }

  /** `ports.map(...)`: one permission per port entry, in order, all sharing
      the same source ranges. */
  function TcpPermissions(ports: seq<Ports>, addresses: seq<string>): (ps: seq<TcpPermission>)
    ensures |ps| == |ports|
    ensures forall i :: 0 <= i < |ports| ==>
      && ps[i].ipProtocol == "tcp"
      && (ports[i].Port? ==> ps[i].fromPort == ps[i].toPort == ports[i].port)
      && (ports[i].Range? ==> ps[i].fromPort == ports[i].range.from && ps[i].toPort == ports[i].range.to)
      && ps[i].ipRanges == SourceRanges(addresses)
  {
    if ports == [] then []
    else
      var rest := TcpPermissions(ports[1..], addresses);
      var ps := [TcpPermissionFor(ports[0], addresses)] + rest;
      assert forall i :: 1 <= i < |ps| ==> ps[i] == rest[i - 1] && ports[i] == ports[1..][i - 1];
      ps
  }

  /** The calls made and the outcome: `create` and `authorize` are the SDK's
      answers. Authorize is only called with the id a successful create
      returned, and the id is returned only once authorize succeeded. */
  function CreateSecurityGroup(
    vpc: string,
    name: string,
    description: string,
    ports: seq<Ports>,
    addresses: seq<string>,
    create: CreateGroupRequest -> Reply<string>,
    authorize: (string, seq<TcpPermission>) -> Option<SdkError>
  ): (out: (seq<Call>, Result<string>))
    ensures |out.0| >= 1 && out.0[0] == CreateGroup(CreateGroupRequest(name, description, vpc))
    ensures create(CreateGroupRequest(name, description, vpc)).Error? ==>
      out == ([CreateGroup(CreateGroupRequest(name, description, vpc))],
              Err(Sdk(create(CreateGroupRequest(name, description, vpc)).err)))
    ensures create(CreateGroupRequest(name, description, vpc)).Data? ==>
      var groupId := create(CreateGroupRequest(name, description, vpc)).data;
      && out.0 == [CreateGroup(CreateGroupRequest(name, description, vpc)),
                   Authorize(groupId, TcpPermissions(ports, addresses))]
      && (out.1.Ok? <==> authorize(groupId, TcpPermissions(ports, addresses)).None?)
      && (out.1.Ok? ==> out.1.value == groupId)
      && (out.1.Err? ==> out.1.failure == Sdk(authorize(groupId, TcpPermissions(ports, addresses)).value))
  {
    var request := CreateGroupRequest(name, description, vpc);
    match create(request)
    case Error(err) => ([CreateGroup(request)], Err(Sdk(err)))
    case Data(groupId) =>
      var permissions := TcpPermissions(ports, addresses);
      var calls := [CreateGroup(request), Authorize(groupId, permissions)];
      match authorize(groupId, permissions)
      case Some(err) => (calls, Err(Sdk(err)))
      case None => (calls, Ok(groupId))
  }

  /** With no addresses, the older form grants each port what the newer form
      grants `allTraffic(ports)` over IPv4: the same protocol, the same
      bounds and the range 0.0.0.0/0. */
  lemma {:induction false} OlderFormAgreesWithAllTraffic(ports: seq<Ports>, i: nat)
    requires i < |ports|
    ensures var older := TcpPermissions(ports, [])[i];
      var newer := IngressPermissions.Permissions(AllTrafficSupport.AllTraffic(ports))[i];
      && older.ipProtocol == newer.ipProtocol
      && older.fromPort == newer.fromPort
      && older.toPort == newer.toPort
      && older.ipRanges == newer.ipRanges
  {
  }
}
