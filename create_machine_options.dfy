/** The records a machine launch takes and returns: CreateMachineOptions
    (src/interfaces/CreateMachineOptions.ts) and the Machine, Snapshot and
    elastic IP values it refers to. Datatype values are immutable, as the
    source's `readonly` fields are. */
module LaunchOptions {
  import opened Common

  datatype Snapshot = Snapshot(id: string)

  /** A provisioned machine: its instance id and public address. */
  datatype Machine = Machine(id: string, address: string)

  /** An allocated elastic IP. */
  datatype ElasticIp = ElasticIp(allocationId: string, address: string)

  /** Seven required fields; post-init commands, snapshot and elastic-IP
      allocation are optional. */
  datatype CreateMachineOptions = CreateMachineOptions(
    appName: string,
    machineName: string,
    subnetId: string,
    securityGroupId: string,
    size: string,
    initCommands: seq<string>,
    region: string,
    postInitCommands: Option<seq<string>>,
    snapshot: Option<Snapshot>,
    elasticIpAllocationId: Option<string>)
}
