/** What depends on the kind of machine: its display name
    (src/support/getInstanceName.ts), the configuration key of its size
    (src/support/getInstanceSize.ts) and of its security group
    (src/EC2MachineProvider.ts). */
module MachineTypes {
  import opened Common
  import opened ConfigKeys

  datatype MachineType = Parent | Build | Child

  /** getInstanceName. */
  function InstanceName(machineType: MachineType): (name: string)
    ensures machineType == Parent ==> name == "iepaas parent"
    ensures machineType == Build ==> name == "iepaas build"
    ensures machineType == Child ==> name == "iepaas child"
  {
    match machineType
    case Parent => "iepaas parent"
    case Build => "iepaas build"
    case Child => "iepaas child"
  }

  /** Different kinds of machine get different names. */
  lemma InstanceNameInjective(a: MachineType, b: MachineType)
    requires a != b
    ensures InstanceName(a) != InstanceName(b)
  {
  }

  /** The key getInstanceSize reads for each kind of machine. */
  function SizeKey(machineType: MachineType): string {
    match machineType
    case Parent => ParentMachineSize
    case Build => BuildMachineSize
    case Child => ChildMachineSize
  }

  /** getInstanceSize: the value stored under the kind's size key, as the
      lookup returns it (possibly absent: the source does not check). */
  function InstanceSize(machineType: MachineType, getConfigValue: string -> Option<string>): (size: Option<string>)
    ensures machineType == Parent ==> size == getConfigValue(ParentMachineSize)
    ensures machineType == Build ==> size == getConfigValue(BuildMachineSize)
    ensures machineType == Child ==> size == getConfigValue(ChildMachineSize)
  {
    getConfigValue(SizeKey(machineType))
  }

  /** getInstanceSize reads exactly one key: two lookups that agree on it
      give the same size, whatever they say about every other key. */
  lemma InstanceSizeReadsOneKey(
    machineType: MachineType,
    lookup1: string -> Option<string>,
    lookup2: string -> Option<string>)
    requires lookup1(SizeKey(machineType)) == lookup2(SizeKey(machineType))
    ensures InstanceSize(machineType, lookup1) == InstanceSize(machineType, lookup2)
  {
  }

  /** The switch in EC2MachineProvider.createMachine: the key of the
      security-group id for each kind of machine. */
  function SecurityGroupKey(machineType: MachineType): (key: string)
    ensures machineType == Build ==> key == SecurityGroupBuildId
    ensures machineType == Parent ==> key == SecurityGroupParentId
    ensures machineType == Child ==> key == SecurityGroupChildId
  {
    match machineType
    case Build => SecurityGroupBuildId
    case Parent => SecurityGroupParentId
    case Child => SecurityGroupChildId
  }

  /** Kinds never share a size key or a security-group key. */
  lemma KeysInjective(a: MachineType, b: MachineType)
    requires a != b
    ensures SizeKey(a) != SizeKey(b)
    ensures SecurityGroupKey(a) != SecurityGroupKey(b)
  {
  }
}
