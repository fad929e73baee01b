/** EC2MachineProvider (src/EC2MachineProvider.ts): the façade the platform
    drives. It registers the operator prompts, copies their answers into the
    configuration store, builds the cloud session once, and assembles the
    options of every launch. */
module Provider {
  import opened Common
  import opened ConfigKeys
  import opened MachineTypes
  import opened LaunchOptions
  import opened SecurityGroupRules
  import opened Cidr
  import Store
  import SecurityGroups
  import MachineLaunch
  import Amis

  // ------------------------------------------------------------------ prompts

  datatype PromptType = Text | Password | Select(choices: seq<string>)

  datatype UserPrompt = UserPrompt(name: string, promptType: PromptType, required: bool)

  datatype FilledUserPrompt = FilledUserPrompt(name: string, value: string)

  function Names(prompts: seq<UserPrompt>): seq<string> {
    seq(|prompts|, i requires 0 <= i < |prompts| => prompts[i].name)
  }

  /** registerPrompts: the six settings the operator is asked for. The region
      and size choices (src/resources/) are parameters. */
  function RegisterPrompts(regions: seq<string>, sizes: seq<string>): (prompts: seq<UserPrompt>)
    ensures Names(prompts) ==
      ["accessKeyId", "secretAccessKey", "region", "parentMachineSize", "buildMachineSize", "childMachineSize"]
    ensures forall i :: 0 <= i < |prompts| ==> prompts[i].required
    ensures prompts[0].promptType == Text && prompts[1].promptType == Password
    ensures prompts[2].promptType == Select(regions)
    ensures forall i :: 3 <= i < |prompts| ==> prompts[i].promptType == Select(sizes)
  {
    [ UserPrompt("accessKeyId", Text, true),
      UserPrompt("secretAccessKey", Password, true),
      UserPrompt("region", Select(regions), true),
      UserPrompt("parentMachineSize", Select(sizes), true),
      UserPrompt("buildMachineSize", Select(sizes), true),
      UserPrompt("childMachineSize", Select(sizes), true) ]
  }

  function PromptMissing(name: string): string {
    "The prompt " + name + " is not defined!"
  }

  /** init's `get`: the value of the first prompt called `name`. */
  function FindPrompt(prompts: seq<FilledUserPrompt>, name: string): (r: Result<string>)
    ensures r.Ok? <==> exists i :: 0 <= i < |prompts| && prompts[i].name == name
    ensures r.Ok? ==> exists i :: 0 <= i < |prompts| && prompts[i].name == name && prompts[i].value == r.value
                                && (forall j :: 0 <= j < i ==> prompts[j].name != name)
    ensures r.Err? ==> r.failure == Plain(PromptMissing(name))
  {
    if prompts == [] then Err(Plain(PromptMissing(name)))
    else if prompts[0].name == name then Ok(prompts[0].value)
    else
      var r := FindPrompt(prompts[1..], name);
      assert forall i :: 0 <= i < |prompts| - 1 ==> prompts[1..][i] == prompts[i + 1];
      r
  }

  /** The configuration key init writes and the prompt it reads, in the order
      of the source's list. */
  const InitFields: seq<(string, string)> := [
    (RepoUrl, "repoUrl"),
    (AccessKeyId, "accessKeyId"),
    (SecretAccessKey, "secretAccessKey"),
    (Region, "region"),
    (ParentMachineSize, "parentMachineSize"),
    (ChildMachineSize, "childMachineSize"),
    (BuildMachineSize, "buildMachineSize")]

  /** `entry` stores, under the field's key, the answer to the field's prompt. */
  predicate Answers(prompts: seq<FilledUserPrompt>, field: (string, string), entry: Store.Entry) {
    entry.key == field.0 && FindPrompt(prompts, field.1) == Ok(entry.value)
  }

  /** The writes init makes and its outcome. The list's elements are built
      left to right, so each `setConfigValue` is started before the next
      prompt is looked up: a missing prompt stops the list there, after the
      writes before it. */
  function InitOutcome(prompts: seq<FilledUserPrompt>, fields: seq<(string, string)>): (out: (seq<Store.Entry>, Result<()>))
    ensures |out.0| <= |fields|
    ensures forall i :: 0 <= i < |out.0| ==> Answers(prompts, fields[i], out.0[i])
    ensures out.1.Ok? <==> |out.0| == |fields|
    ensures out.1.Err? ==> FindPrompt(prompts, fields[|out.0|].1) == Err(out.1.failure)
  {
    if fields == [] then ([], Ok(()))
    else match FindPrompt(prompts, fields[0].1)
      case Err(failure) => ([], Err(failure))
      case Ok(value) =>
        var rest := InitOutcome(prompts, fields[1..]);
        ([Store.Entry(fields[0].0, value)] + rest.0, rest.1)
  }

  /** init succeeds exactly when every prompt it reads is present. */
  lemma {:induction false} InitSucceedsIffAllPrompts(prompts: seq<FilledUserPrompt>, fields: seq<(string, string)>)
    ensures InitOutcome(prompts, fields).1.Ok? <==> forall i :: 0 <= i < |fields| ==> FindPrompt(prompts, fields[i].1).Ok?
  {
  }

  /** The store after `writes`, applied in order. */
  function Apply(m: map<string, string>, writes: seq<Store.Entry>): map<string, string>
    decreases |writes|
  {
    if writes == [] then m else Apply(m[writes[0].key := writes[0].value], writes[1..])
  }

  /** The store's key order after `writes`, applied in order: a key not yet
      stored is appended when first written; a stored one keeps its place. */
  function ApplyOrder(order: seq<string>, writes: seq<Store.Entry>): seq<string>
    decreases |writes|
  {
    if writes == [] then order
    else ApplyOrder(if writes[0].key in order then order else order + [writes[0].key], writes[1..])
  }

  /** The keys of `writes`, in order. */
  function WrittenKeys(writes: seq<Store.Entry>): (keys: seq<string>)
    ensures |keys| == |writes|
    ensures forall i :: 0 <= i < |writes| ==> keys[i] == writes[i].key
  {
    if writes == [] then [] else [writes[0].key] + WrittenKeys(writes[1..])
  }

  /** The writes' keys are distinct and none of them is in `order`. */
  predicate NewDistinctKeys(order: seq<string>, writes: seq<Store.Entry>) {
    && (forall j :: 0 <= j < |writes| ==> writes[j].key !in order)
    && (forall i, j :: 0 <= i < j < |writes| ==> writes[i].key != writes[j].key)
  }

  lemma NewDistinctKeysOfRest(order: seq<string>, writes: seq<Store.Entry>)
    requires writes != [] && NewDistinctKeys(order, writes)
    ensures NewDistinctKeys(order + [writes[0].key], writes[1..])
  {
    var rest := writes[1..];
    forall j | 0 <= j < |rest|
      ensures rest[j].key !in order + [writes[0].key]
    {
      assert rest[j] == writes[j + 1];
    }
  }

  lemma AppendAssociates(a: seq<string>, b: seq<string>, c: seq<string>)
    ensures (a + b) + c == a + (b + c)
  {
  }

  /** Writes of distinct keys that are not yet stored append those keys to
      the key order, in the order they are written. */
  lemma {:induction false} ApplyOrderAppendsNewKeys(order: seq<string>, writes: seq<Store.Entry>)
    requires NewDistinctKeys(order, writes)
    ensures ApplyOrder(order, writes) == order + WrittenKeys(writes)
    decreases |writes|
  {
    if writes != [] {
      var first := writes[0].key;
      var rest := writes[1..];
      assert first !in order;
      assert ApplyOrder(order, writes) == ApplyOrder(order + [first], rest);
      NewDistinctKeysOfRest(order, writes);
      ApplyOrderAppendsNewKeys(order + [first], rest);
      assert WrittenKeys(writes) == [first] + WrittenKeys(rest);
      AppendAssociates(order, [first], WrittenKeys(rest));
    } else {
      assert order + WrittenKeys(writes) == order;
    }
  }

  /** A key no write touches keeps its value. */
  lemma {:induction false} ApplyUntouched(m: map<string, string>, writes: seq<Store.Entry>, key: string)
    requires forall j :: 0 <= j < |writes| ==> writes[j].key != key
    ensures key in Apply(m, writes) <==> key in m
    ensures key in m ==> Apply(m, writes)[key] == m[key]
    decreases |writes|
  {
    if writes != [] {
      ApplyUntouched(m[writes[0].key := writes[0].value], writes[1..], key);
    }
  }

  /** The last write of a key decides its value. */
  lemma {:induction false} ApplyLast(m: map<string, string>, writes: seq<Store.Entry>, i: nat)
    requires i < |writes|
    requires forall j :: i < j < |writes| ==> writes[j].key != writes[i].key
    ensures writes[i].key in Apply(m, writes) && Apply(m, writes)[writes[i].key] == writes[i].value
    decreases |writes|
  {
    var m' := m[writes[0].key := writes[0].value];
    if i == 0 {
      ApplyUntouched(m', writes[1..], writes[0].key);
    } else {
      ApplyLast(m', writes[1..], i - 1);
    }
  }

  /** The prompts registerPrompts lists, answered with `values`. */
  function Fill(prompts: seq<UserPrompt>, values: seq<string>): (filled: seq<FilledUserPrompt>)
    requires |values| == |prompts|
    ensures |filled| == |prompts|
    ensures forall i :: 0 <= i < |prompts| ==> filled[i] == FilledUserPrompt(prompts[i].name, values[i])
  {
    seq(|prompts|, i requires 0 <= i < |prompts| => FilledUserPrompt(prompts[i].name, values[i]))
  }

  /** init reads a "repoUrl" prompt that registerPrompts does not list: the
      registered prompts alone make init fail first thing, before any write. */
  lemma RegisteredPromptsLackRepoUrl(regions: seq<string>, sizes: seq<string>, values: seq<string>)
    requires |values| == 6
    ensures InitOutcome(Fill(RegisterPrompts(regions, sizes), values), InitFields)
      == ([], Err(Plain(PromptMissing("repoUrl"))))
  {
  }

  /** With a "repoUrl" answer added, the registered prompts are enough. */
  lemma RegisteredPromptsWithRepoUrlSuffice(regions: seq<string>, sizes: seq<string>, values: seq<string>, repoUrl: string)
    requires |values| == 6
    ensures InitOutcome(Fill(RegisterPrompts(regions, sizes), values) + [FilledUserPrompt("repoUrl", repoUrl)], InitFields).1.Ok?
  {
    var prompts := RegisterPrompts(regions, sizes);
    var filled := Fill(prompts, values) + [FilledUserPrompt("repoUrl", repoUrl)];
    var at := [6, 0, 1, 2, 3, 5, 4];
    forall i | 0 <= i < |InitFields| ensures FindPrompt(filled, InitFields[i].1).Ok? {
      assert filled[at[i]].name == InitFields[i].1;
    }
    InitSucceedsIffAllPrompts(filled, InitFields);
  }

  /** No two fields of init share a key. */
  lemma InitKeysDistinct()
    ensures forall i, j :: 0 <= i < j < |InitFields| ==> InitFields[i].0 != InitFields[j].0
  {
  }

  /** Init on an empty store lists its keys in the order of its fields, so
      getAll later yields them in that order. */
  lemma InitOrdersKeys(prompts: seq<FilledUserPrompt>)
    ensures var writes := InitOutcome(prompts, InitFields).0;
      && |ApplyOrder([], writes)| == |writes| <= |InitFields|
      && forall i :: 0 <= i < |writes| ==> ApplyOrder([], writes)[i] == InitFields[i].0
  {
    InitKeysDistinct();
    ApplyOrderAppendsNewKeys([], InitOutcome(prompts, InitFields).0);
  }

  /** After a successful init, each field's key holds its prompt's answer. */
  lemma InitStoresPromptValues(prompts: seq<FilledUserPrompt>, m: map<string, string>, i: nat)
    requires InitOutcome(prompts, InitFields).1.Ok?
    requires i < |InitFields|
    ensures var after := Apply(m, InitOutcome(prompts, InitFields).0);
      InitFields[i].0 in after && after[InitFields[i].0] == FindPrompt(prompts, InitFields[i].1).value
  {
    InitKeysDistinct();
    ApplyLast(m, InitOutcome(prompts, InitFields).0, i);
  }

  /** The prompt whose answer becomes the size of each kind of machine. */
  function SizePrompt(machineType: MachineType): string {
    match machineType
    case Parent => "parentMachineSize"
    case Build => "buildMachineSize"
    case Child => "childMachineSize"
  }

  /** init and getInstanceSize are wired to each other: after a successful
      init, the size of each kind of machine is the answer to its own size
      prompt ("" reading as absent). */
  lemma InitThenInstanceSize(prompts: seq<FilledUserPrompt>, m: map<string, string>, machineType: MachineType)
    requires InitOutcome(prompts, InitFields).1.Ok?
    ensures var after := Apply(m, InitOutcome(prompts, InitFields).0);
      var found := FindPrompt(prompts, SizePrompt(machineType));
      && found.Ok?
      && SizeIn(after, machineType) == if found.value == "" then None else Some(found.value)
  {
    var i := match machineType case Parent => 4 case Child => 5 case Build => 6;
    InitStoresPromptValues(prompts, m, i);
  }

  /** getInstanceSize over the store's values. */
  function SizeIn(m: map<string, string>, machineType: MachineType): Option<string> {
    InstanceSize(machineType, k => Store.GetFrom(m, k))
  }

  // ------------------------------------------------------------------ session

  /** The client getEC2 builds: the credentials, the region and the API version. */
  datatype Session = Session(accessKeyId: string, secretAccessKey: string, region: string, apiVersion: string)

  const ApiVersion := "2016-11-15"

  const MissingCredentials := "Either the aws access key id, the secret, or" + " the region are missing!"

  /** JavaScript truthiness of a stored value: present and not "". */
  predicate Truthy(value: Option<string>) {
    value.Some? && value.value != ""
  }

  /** A session from the three stored values; a missing or "" value is a
      configuration error raised before any client exists. */
  function SessionFrom(accessKeyId: Option<string>, secretAccessKey: Option<string>, region: Option<string>): (r: Result<Session>)
    ensures r.Ok? <==>
      && accessKeyId.Some? && accessKeyId.value != ""
      && secretAccessKey.Some? && secretAccessKey.value != ""
      && region.Some? && region.value != ""
    ensures r.Ok? ==> r.value == Session(accessKeyId.value, secretAccessKey.value, region.value, ApiVersion)
    ensures r.Err? ==> r.failure == Plain(MissingCredentials)
  {
    if Truthy(accessKeyId) && Truthy(secretAccessKey) && Truthy(region) then
      Ok(Session(accessKeyId.value, secretAccessKey.value, region.value, ApiVersion))
    else Err(Plain(MissingCredentials))
  }

  // ------------------------------------------------------------------ launch options

  /** The options of `createMachine(type, initCommands, snapshot)` as the
      source builds them: no region is passed, so the default image is looked
      up under the key "undefined". */
  function MachineOptionsAsWritten(
    appName: string, machineType: MachineType, initCommands: seq<string>, snapshot: Option<Snapshot>,
    size: string, subnetId: string, securityGroupId: string
  ): (options: CreateMachineOptions)
    ensures options.region == "undefined"
  {
    CreateMachineOptions(appName, InstanceName(machineType), subnetId, securityGroupId, size,
      initCommands, "undefined", None, snapshot, None)
  }

  /** Without a snapshot the as-written options launch with no image id. */
  lemma AsWrittenLaunchHasNoImage(
    appName: string, machineType: MachineType, initCommands: seq<string>,
    size: string, subnetId: string, securityGroupId: string)
    ensures MachineLaunch.LaunchRequest(
      MachineOptionsAsWritten(appName, machineType, initCommands, None, size, subnetId, securityGroupId)).imageId == None
  {
    Amis.KnownAndUnknownRegions();
  }

  /** The corrected options: those of the as-written form, with the region of
      the session. */
  function MachineOptions(
    appName: string, machineType: MachineType, initCommands: seq<string>, snapshot: Option<Snapshot>,
    size: string, subnetId: string, securityGroupId: string, region: string
  ): (options: CreateMachineOptions)
    ensures options == MachineOptionsAsWritten(appName, machineType, initCommands, snapshot, size, subnetId, securityGroupId)
      .(region := region)
  {
    CreateMachineOptions(appName, InstanceName(machineType), subnetId, securityGroupId, size,
      initCommands, region, None, snapshot, None)
  }

  /** The corrected options launch a machine of the requested kind, tagged with
      its name and the app, from the snapshot when there is one and otherwise
      from the region's default image. */
  lemma MachineOptionsLaunch(
    appName: string, machineType: MachineType, initCommands: seq<string>, snapshot: Option<Snapshot>,
    size: string, subnetId: string, securityGroupId: string, region: string)
    ensures var request := MachineLaunch.LaunchRequest(
      MachineOptions(appName, machineType, initCommands, snapshot, size, subnetId, securityGroupId, region));
      && request.imageId == (if snapshot.Some? then Some(snapshot.value.id) else Amis.FindDefaultAmiId(region))
      && request.instanceType == size
      && request.subnetId == subnetId
      && request.securityGroupIds == [securityGroupId]
      && request.tags == [MachineLaunch.Tag("Name", InstanceName(machineType)), MachineLaunch.Tag("iepaas-app", appName)]
      && request.userData == MachineLaunch.UserData(initCommands, [])
  {
  }

  // ------------------------------------------------------------------ infrastructure

  /** A security group of the infrastructure: its name, description, ports
      and the addresses allowed in (none: everyone). */
  datatype GroupPlan = GroupPlan(name: string, description: string, ports: seq<Ports>, addresses: seq<string>)

  const ParentGroup := GroupPlan("iepaas-parent", "iepaas parent machine", [Port(80), Port(443), Port(3000), Port(4898)], [])

  function BuildGroup(address: string): GroupPlan {
    GroupPlan("iepaas-build", "iepaas build machine", [Port(3000)], [address])
  }

  function ChildGroup(address: string): GroupPlan {
    GroupPlan("iepaas-child", "iepaas child machine", [Range(PortRange(3000, 4000))], [address])
  }

  function GroupPermissions(group: GroupPlan): seq<SecurityGroups.TcpPermission> {
    SecurityGroups.TcpPermissions(group.ports, group.addresses)
  }

  /** The parent group opens 80, 443, 3000 and 4898 to everyone; the build
      group opens 3000 and the child group 3000 to 4000 to the elastic IP's
      address only. */
  lemma InfrastructureGroups(address: string)
    ensures GroupPermissions(ParentGroup) == [
      SecurityGroups.TcpPermission("tcp", 80, 80, [AnyIpv4]),
      SecurityGroups.TcpPermission("tcp", 443, 443, [AnyIpv4]),
      SecurityGroups.TcpPermission("tcp", 3000, 3000, [AnyIpv4]),
      SecurityGroups.TcpPermission("tcp", 4898, 4898, [AnyIpv4])]
    ensures GroupPermissions(BuildGroup(address)) == [SecurityGroups.TcpPermission("tcp", 3000, 3000, [HostCidr(address)])]
    ensures GroupPermissions(ChildGroup(address)) == [SecurityGroups.TcpPermission("tcp", 3000, 4000, [HostCidr(address)])]
  {
    assert SecurityGroups.SourceRanges([address]) == [HostCidr(address)];
  }

  const InstallCommand := "curl -o- https://raw.githubusercontent.com/iepaas/iepaas/master/install.sh | bash"
  const SetProviderCommand := "cd /iepaas && npm run set-machine-provider @iepaas/machine-provider-ec2"
  const ChownCommand := "sudo chown -R ubuntu:ubuntu /iepaas"

  function SetConfigCommand(entry: Store.Entry): string {
    "cd /iepaas && npm run set-config " + entry.key + " " + entry.value
  }

  /** The parent's boot commands: install, select this provider, copy every
      stored setting, in getAll order, then hand the directory to the login user. */
  function ParentInitCommands(entries: seq<Store.Entry>): (commands: seq<string>)
    ensures |commands| == |entries| + 3
    ensures commands[0] == InstallCommand && commands[1] == SetProviderCommand
    ensures forall i :: 0 <= i < |entries| ==> commands[i + 2] == SetConfigCommand(entries[i])
    ensures commands[|commands| - 1] == ChownCommand
  {
    [InstallCommand, SetProviderCommand]
      + seq(|entries|, i requires 0 <= i < |entries| => SetConfigCommand(entries[i]))
      + [ChownCommand]
  }

  /** A template literal renders an absent value as "null". */
  function Rendered(value: Option<string>): string {
    if value.Some? then value.value else "null"
  }

  /** The parent's post-init commands: one set-repo-url with the stored URL. */
  function ParentPostInitCommands(repoUrl: Option<string>): (commands: seq<string>)
    ensures |commands| == 1
    ensures repoUrl.None? ==> commands[0] == "cd /iepaas && npm run set-repo-url null"
    ensures repoUrl.Some? ==> commands[0] == "cd /iepaas && npm run set-repo-url " + repoUrl.value
  {
    ["cd /iepaas && npm run set-repo-url " + Rendered(repoUrl)]
  }

  /** The parent's launch options as the source builds them: like every
      launch, without a region, which the template literal reads back as
      "undefined". */
  function ParentOptionsAsWritten(
    appName: string, subnetId: string, securityGroupId: string, size: string,
    entries: seq<Store.Entry>, repoUrl: Option<string>, allocationId: string
  ): (options: CreateMachineOptions)
    ensures options.region == "undefined"
  {
    CreateMachineOptions(appName, "iepaas parent", subnetId, securityGroupId, size,
      ParentInitCommands(entries), "undefined", Some(ParentPostInitCommands(repoUrl)), None, Some(allocationId))
  }

  /** The parent launched as written has no snapshot and no region, so its
      request carries no image id. */
  lemma AsWrittenParentLaunchHasNoImage(
    appName: string, subnetId: string, securityGroupId: string, size: string,
    entries: seq<Store.Entry>, repoUrl: Option<string>, allocationId: string)
    ensures MachineLaunch.LaunchRequest(
      ParentOptionsAsWritten(appName, subnetId, securityGroupId, size, entries, repoUrl, allocationId)).imageId == None
  {
    Amis.KnownAndUnknownRegions();
  }

  /** The parent machine's options, in the session's region: the network's
      subnet, the parent group, the stored parent size, the parent init and
      post-init commands and the infrastructure's allocation. */
  function ParentOptions(
    appName: string, subnetId: string, securityGroupId: string, size: string,
    entries: seq<Store.Entry>, repoUrl: Option<string>, allocationId: string, region: string
  ): (options: CreateMachineOptions)
    ensures options == ParentOptionsAsWritten(appName, subnetId, securityGroupId, size, entries, repoUrl, allocationId)
      .(region := region)
    ensures options.appName == appName && options.machineName == InstanceName(Parent)
    ensures options.subnetId == subnetId && options.securityGroupId == securityGroupId && options.size == size
    ensures options.region == region
    ensures options.snapshot == None && options.elasticIpAllocationId == Some(allocationId)
    ensures options.initCommands == ParentInitCommands(entries)
    ensures options.postInitCommands == Some(ParentPostInitCommands(repoUrl))
  {
    CreateMachineOptions(appName, "iepaas parent", subnetId, securityGroupId, size,
      ParentInitCommands(entries), region, Some(ParentPostInitCommands(repoUrl)), None, Some(allocationId))
  }

  /** The parent launched with the corrected options uses the region's
      default image. */
  lemma ParentOptionsLaunch(
    appName: string, subnetId: string, securityGroupId: string, size: string,
    entries: seq<Store.Entry>, repoUrl: Option<string>, allocationId: string, region: string)
    ensures var request := MachineLaunch.LaunchRequest(
      ParentOptions(appName, subnetId, securityGroupId, size, entries, repoUrl, allocationId, region));
      && request.imageId == Amis.FindDefaultAmiId(region)
      && request.instanceType == size
      && request.subnetId == subnetId
      && request.securityGroupIds == [securityGroupId]
  {
  }

  /** The parent machine is bound to the infrastructure's elastic IP, the one
      the build and child groups admit: its launch never allocates another
      and associates only that one. */
  lemma ParentUsesInfrastructureAddress(
    cloud: MachineLaunch.Cloud, appName: string, subnetId: string, securityGroupId: string, size: string,
    entries: seq<Store.Entry>, repoUrl: Option<string>, allocationId: string, region: string)
    requires allocationId != ""
    ensures var steps := MachineLaunch.CreateMachineRun(cloud,
      ParentOptions(appName, subnetId, securityGroupId, size, entries, repoUrl, allocationId, region)).0;
      forall s :: s in steps ==> !s.AllocateAddress? && (s.Associate? ==> s.allocationId == allocationId)
  {
    MachineLaunch.GivenAllocationIsUsed(cloud,
      ParentOptions(appName, subnetId, securityGroupId, size, entries, repoUrl, allocationId, region));
  }

  /** The network buildVpc creates. */
  datatype Network = Network(vpcId: string, subnetId: string)

  /** The answers of the cloud to the infrastructure calls: buildVpc and
      allocateElasticIp as whole results, and the two SDK calls of
      createSecurityGroup. */
  datatype Infrastructure = Infrastructure(
    buildVpc: Result<Network>,
    createGroup: SecurityGroups.CreateGroupRequest -> Reply<string>,
    authorize: (string, seq<SecurityGroups.TcpPermission>) -> Option<SdkError>,
    allocateAddress: Reply<ElasticIp>)

  function CreateGroup(infra: Infrastructure, vpcId: string, group: GroupPlan): Result<string> {
    SecurityGroups.CreateSecurityGroup(vpcId, group.name, group.description, group.ports, group.addresses,
      infra.createGroup, infra.authorize).1
  }

  /** The three groups and the elastic IP, once all four succeeded. */
  datatype Groups = Groups(parent: string, build: string, child: string, eip: ElasticIp)

  /** The two `Promise.all` rounds: the parent group and the elastic IP, then
      the build and child groups, which admit the IP's address. A failure is
      reported in that order. */
  function ProvisionGroups(infra: Infrastructure, vpcId: string): (r: Result<Groups>)
    ensures r.Ok? <==>
      && CreateGroup(infra, vpcId, ParentGroup).Ok?
      && infra.allocateAddress.Data?
      && CreateGroup(infra, vpcId, BuildGroup(infra.allocateAddress.data.address)).Ok?
      && CreateGroup(infra, vpcId, ChildGroup(infra.allocateAddress.data.address)).Ok?
    ensures r.Ok? ==>
      && r.value.eip == infra.allocateAddress.data
      && r.value.parent == CreateGroup(infra, vpcId, ParentGroup).value
      && r.value.build == CreateGroup(infra, vpcId, BuildGroup(r.value.eip.address)).value
      && r.value.child == CreateGroup(infra, vpcId, ChildGroup(r.value.eip.address)).value
    ensures CreateGroup(infra, vpcId, ParentGroup).Err? ==> r == Err(CreateGroup(infra, vpcId, ParentGroup).failure)
    ensures CreateGroup(infra, vpcId, ParentGroup).Ok? && infra.allocateAddress.Error? ==>
      r == Err(Sdk(infra.allocateAddress.err))
    ensures CreateGroup(infra, vpcId, ParentGroup).Ok? && infra.allocateAddress.Data? ==>
      var build := CreateGroup(infra, vpcId, BuildGroup(infra.allocateAddress.data.address));
      var child := CreateGroup(infra, vpcId, ChildGroup(infra.allocateAddress.data.address));
      && (build.Err? ==> r == Err(build.failure))
      && (build.Ok? && child.Err? ==> r == Err(child.failure))
  {
    var parent := CreateGroup(infra, vpcId, ParentGroup);
    if parent.Err? then Err(parent.failure)
    else if infra.allocateAddress.Error? then Err(Sdk(infra.allocateAddress.err))
    else
      var eip := infra.allocateAddress.data;
      var build := CreateGroup(infra, vpcId, BuildGroup(eip.address));
      if build.Err? then Err(build.failure)
      else
        var child := CreateGroup(infra, vpcId, ChildGroup(eip.address));
        if child.Err? then Err(child.failure)
        else Ok(Groups(parent.value, build.value, child.value, eip))
  }

  /** Recording the groups stores each group's id under its own key. */
  lemma {:induction false} GroupWritesRecordIds(m: map<string, string>, groups: Groups)
    ensures var after := Apply(m, GroupWrites(groups));
      && SecurityGroupParentId in after && after[SecurityGroupParentId] == groups.parent
      && SecurityGroupBuildId in after && after[SecurityGroupBuildId] == groups.build
      && SecurityGroupChildId in after && after[SecurityGroupChildId] == groups.child
  {
    var writes := GroupWrites(groups);
    var m1 := m[SecurityGroupParentId := groups.parent];
    var m2 := m1[SecurityGroupBuildId := groups.build];
    var m3 := m2[SecurityGroupChildId := groups.child];
    assert writes[1..][1..][1..] == [];
    assert Apply(m, writes) == Apply(m1, writes[1..]) == Apply(m2, writes[1..][1..]) == Apply(m3, writes[1..][1..][1..]) == m3;
  }

  /** The ids buildIepaasInfrastructure records, network first. */
  function NetworkWrites(network: Network): (writes: seq<Store.Entry>)
    ensures forall i :: 0 <= i < |writes| ==> writes[i].key != ParentMachineSize && writes[i].key != RepoUrl
  {
    [Store.Entry(VpcId, network.vpcId), Store.Entry(SubnetId, network.subnetId)]
  }

  function GroupWrites(groups: Groups): (writes: seq<Store.Entry>)
    ensures forall i :: 0 <= i < |writes| ==> writes[i].key != ParentMachineSize && writes[i].key != RepoUrl
  {
    [ Store.Entry(SecurityGroupParentId, groups.parent),
      Store.Entry(SecurityGroupBuildId, groups.build),
      Store.Entry(SecurityGroupChildId, groups.child)]
  }

  // ------------------------------------------------------------------ the provider

  class EC2MachineProvider {
    const appName: string
    /** The configuration store; getConfigValue and setConfigValue of the
        base class read and write it directly. */
    const store: Store.SimpleStore
    /** `this.ec2`: the session, once built. */
    var ec2: Option<Session>

    constructor (appName: string, store: Store.SimpleStore)
      ensures this.appName == appName && this.store == store && ec2 == None
    {
      this.appName := appName;
      this.store := store;
      ec2 := None;
    }

    /** The session getEC2 returns in this state: the cached one, or one
        built from the store. */
    function Client(): (r: Result<Session>)
      reads this, store
      ensures ec2.Some? ==> r == Ok(ec2.value)
      ensures ec2.None? ==>
        (r.Ok? <==> Truthy(store.Get(AccessKeyId)) && Truthy(store.Get(SecretAccessKey)) && Truthy(store.Get(Region)))
      ensures r.Err? ==> r.failure == Plain(MissingCredentials)
    {
      if ec2.Some? then Ok(ec2.value) else SessionFrom(store.Get(AccessKeyId), store.Get(SecretAccessKey), store.Get(Region))
    }

    /** getEC2: builds the session at most once; afterwards the store is not
        read again, and a failed build caches nothing. */
    method GetEC2() returns (r: Result<Session>)
      modifies this
      ensures r == old(Client())
      ensures ec2 == if r.Ok? then Some(r.value) else None
      ensures Client() == r
    {
      if ec2.None? {
        var built := SessionFrom(store.Get(AccessKeyId), store.Get(SecretAccessKey), store.Get(Region));
        if built.Err? {
          return built;
        }
        ec2 := Some(built.value);
      }
      return Ok(ec2.value);
    }

    /** init: each prompt's answer stored under its key, stopping at the
        first missing prompt. */
    method Init(prompts: seq<FilledUserPrompt>) returns (r: Result<()>)
      requires store.Valid()
      modifies store
      ensures store.Valid()
      ensures store.store == Apply(old(store.store), InitOutcome(prompts, InitFields).0)
      ensures store.order == ApplyOrder(old(store.order), InitOutcome(prompts, InitFields).0)
      ensures r == InitOutcome(prompts, InitFields).1
    {
      var i := 0;
      while i < |InitFields|
        invariant 0 <= i <= |InitFields|
        invariant store.Valid()
        invariant Apply(store.store, InitOutcome(prompts, InitFields[i..]).0)
          == Apply(old(store.store), InitOutcome(prompts, InitFields).0)
        invariant ApplyOrder(store.order, InitOutcome(prompts, InitFields[i..]).0)
          == ApplyOrder(old(store.order), InitOutcome(prompts, InitFields).0)
        invariant InitOutcome(prompts, InitFields[i..]).1 == InitOutcome(prompts, InitFields).1
      {
        assert InitFields[i..][0] == InitFields[i] && InitFields[i..][1..] == InitFields[i + 1..];
        var found := FindPrompt(prompts, InitFields[i].1);
        if found.Err? {
          return Err(found.failure);
        }
        store.Set(InitFields[i].0, found.value);
        i := i + 1;
      }
      return Ok(());
    }

    /** createMachine(type, initCommands, snapshot), with the corrected
        options: the launch createMachine makes with the session's region. */
    method CreateMachine(cloud: MachineLaunch.Cloud, machineType: MachineType, initCommands: seq<string>, snapshot: Option<Snapshot>)
      returns (steps: seq<MachineLaunch.Step>, r: Result<Machine>)
      requires SizeIn(store.store, machineType).Some?
      requires store.Get(SubnetId).Some? && store.Get(SecurityGroupKey(machineType)).Some?
      modifies this
      ensures ec2 == if old(Client()).Ok? then Some(old(Client()).value) else None
      ensures old(Client()).Err? ==> steps == [] && r == Err(old(Client()).failure)
      ensures old(Client()).Ok? ==> (steps, r) == MachineLaunch.CreateMachineRun(cloud, MachineOptions(
        appName, machineType, initCommands, snapshot, SizeIn(store.store, machineType).value,
        store.Get(SubnetId).value, store.Get(SecurityGroupKey(machineType)).value, old(Client()).value.region))
    {
      var session := GetEC2();
      if session.Err? {
        return [], Err(session.failure);
      }
      var options := MachineOptions(appName, machineType, initCommands, snapshot,
        SizeIn(store.store, machineType).value, store.Get(SubnetId).value,
        store.Get(SecurityGroupKey(machineType)).value, session.value.region);
      steps, r := MachineLaunch.CreateMachine(cloud, options);
    }

    /** setConfigValue for each write, in order. */
    method SetConfigValues(writes: seq<Store.Entry>)
      requires store.Valid()
      modifies store
      ensures store.Valid()
      ensures store.store == Apply(old(store.store), writes)
      ensures store.order == ApplyOrder(old(store.order), writes)
    {
      var i := 0;
      while i < |writes|
        invariant 0 <= i <= |writes|
        invariant store.Valid()
        invariant Apply(store.store, writes[i..]) == Apply(old(store.store), writes)
        invariant ApplyOrder(store.order, writes[i..]) == ApplyOrder(old(store.order), writes)
      {
        assert writes[i..][0] == writes[i] && writes[i..][1..] == writes[i + 1..];
        store.Set(writes[i].key, writes[i].value);
        i := i + 1;
      }
    }

    /** buildIepaasInfrastructure: network, groups and elastic IP, the ids
        recorded in the store, then the parent machine launched with every
        stored setting. */
    method BuildIepaasInfrastructure(infra: Infrastructure, cloud: MachineLaunch.Cloud)
      returns (steps: seq<MachineLaunch.Step>, r: Result<Machine>)
      requires store.Valid()
      requires store.Get(ParentMachineSize).Some?
      modifies this, store
      ensures store.Valid()
      ensures ec2 == if old(Client()).Ok? then Some(old(Client()).value) else None
      ensures old(Client()).Err? ==>
        steps == [] && r == Err(old(Client()).failure) && store.store == old(store.store) && store.order == old(store.order)
      ensures old(Client()).Ok? && infra.buildVpc.Err? ==>
        steps == [] && r == Err(infra.buildVpc.failure) && store.store == old(store.store) && store.order == old(store.order)
      ensures old(Client()).Ok? && infra.buildVpc.Ok? ==>
        var network := infra.buildVpc.value;
        var groups := ProvisionGroups(infra, network.vpcId);
        var recorded := Apply(old(store.store), NetworkWrites(network));
        var recordedOrder := ApplyOrder(old(store.order), NetworkWrites(network));
        && (groups.Err? ==>
              steps == [] && r == Err(groups.failure) && store.store == recorded && store.order == recordedOrder)
        && (groups.Ok? ==>
          && store.store == Apply(recorded, GroupWrites(groups.value))
          && store.order == ApplyOrder(recordedOrder, GroupWrites(groups.value))
          && (steps, r) == MachineLaunch.CreateMachineRun(cloud, ParentOptions(
            appName, network.subnetId, groups.value.parent, old(store.Get(ParentMachineSize)).value,
            store.GetAll(), store.Get(RepoUrl), groups.value.eip.allocationId, old(Client()).value.region)))
    {
      var session := GetEC2();
      if session.Err? {
        return [], Err(session.failure);
      }
      if infra.buildVpc.Err? {
        return [], Err(infra.buildVpc.failure);
      }
      var network := infra.buildVpc.value;
      var size := store.Get(ParentMachineSize).value;
      SetConfigValues(NetworkWrites(network));

      var groups := ProvisionGroups(infra, network.vpcId);
      if groups.Err? {
        return [], Err(groups.failure);
      }
      ApplyUntouched(old(store.store), NetworkWrites(network), ParentMachineSize);
      SetConfigValues(GroupWrites(groups.value));
      ApplyUntouched(Apply(old(store.store), NetworkWrites(network)), GroupWrites(groups.value), ParentMachineSize);
      var options := ParentOptions(appName, network.subnetId, groups.value.parent, size,
        store.GetAll(), store.Get(RepoUrl), groups.value.eip.allocationId, session.value.region);
      steps, r := MachineLaunch.CreateMachine(cloud, options);
    }
  }
}
