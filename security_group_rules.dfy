/** The declarative ingress rules of src/interfaces/SecurityGroupRule.ts. */
module SecurityGroupRules {
  /** `{ from, to }`: an inclusive range of ports. */
  datatype PortRange = PortRange(from: int, to: int)

  /** `number | PortRange`: one port, or a range of ports. */
  datatype Ports = Port(port: int) | Range(range: PortRange)

  /** A rule is exactly one of three variants; each carries its ports. */
  datatype SecurityGroupRule =
      /** open to every IPv4 and IPv6 source */
    | AllTrafficRule(ports: Ports)
      /** open to a list of single source addresses */
    | AddressRule(ports: Ports, sourceAddresses: seq<string>)
      /** open to the members of one other security group */
    | GroupRule(ports: Ports, sourceGroup: string)
}
