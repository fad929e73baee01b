/** The CIDR blocks the provider writes into ingress permissions
    (CIDR notation as in section 3.1 of RFC 4632). */
module Cidr {
  import opened Common

  /** Every IPv4 address. */
  const AnyIpv4 := "0.0.0.0/0"
  /** Every IPv6 address. */
  const AnyIpv6 := "::/0"
  const HostSuffix := "/32"

  /** The block holding exactly one IPv4 host: `<address>/32`. */
  function HostCidr(address: string): (cidr: string)
    ensures |cidr| == |address| + |HostSuffix|
    ensures HostAddress(cidr) == Some(address)
  {
    var cidr := address + HostSuffix;
    assert cidr[..|address|] == address && cidr[|address|..] == HostSuffix;
    cidr
  }

  /** The host address of a `/32` block; None for any other text. */
  function HostAddress(cidr: string): Option<string> {
    if |cidr| >= |HostSuffix| && cidr[|cidr| - |HostSuffix|..] == HostSuffix
    then Some(cidr[..|cidr| - |HostSuffix|])
    else None
  }

  /** `addresses.map(it => `${it}/32`)`. */
  function HostCidrs(addresses: seq<string>): (cidrs: seq<string>)
    ensures |cidrs| == |addresses|
    ensures forall i :: 0 <= i < |addresses| ==> cidrs[i] == HostCidr(addresses[i])
  {
    if addresses == [] then [] else [HostCidr(addresses[0])] + HostCidrs(addresses[1..])
  }
}
