# machine-provider-ec2, modelled in Dafny

`@iepaas/machine-provider-ec2` is the machine provider of the iepaas platform
for Amazon EC2. It turns security-group rules into EC2 ingress permissions,
launches an instance with a boot script, attaches an elastic IP, and polls a
one-shot beacon on port 3000 until the boot script has finished. It also runs
commands over ssh, stops at the first one that fails, and keeps its settings in
a key-value store. The `EC2MachineProvider` façade asks the operator for
credentials and sizes, builds one cloud session lazily, and assembles the
options of every launch and of the initial infrastructure.

The model has one Dafny module per source file or concern:

| module | file | form |
|---|---|---|
| `Common` | shared results and errors | datatypes |
| `SecurityGroupRules` | `src/interfaces/SecurityGroupRule.ts` | datatypes |
| `Cidr` | the `/32` and `0.0.0.0/0` blocks written into permissions | functions |
| `IngressPermissions` | `src/functions/openSecurityGroupPort.ts` | functions, lemmas |
| `AllTrafficSupport` | `src/support/allTraffic.ts` | functions, lemmas |
| `SecurityGroups` | `src/functions/createSecurityGroup.ts` | functions, lemmas |
| `Amis` | `src/functions/findDefaultAmiId.ts` | constant table, lookup, lemmas |
| `Lines` | `join("\n")` and its inverse, to read back a boot script | functions, lemmas |
| `LaunchOptions` | `src/interfaces/CreateMachineOptions.ts` | datatypes |
| `MachineLaunch` | `src/functions/createMachine.ts` | functions, methods with loops, lemmas |
| `RemoteCommands` | `src/functions/executeCommandsInMachine.ts` | methods with loops, lemmas |
| `Store` | `src/SimpleStore.ts` | a class with `modifies` methods |
| `ConfigKeys` | the configuration key names | constants |
| `MachineTypes` | `src/support/getInstanceName.ts`, `src/support/getInstanceSize.ts` | functions, lemmas |
| `Credentials` | `src/functions/verifyCredentials.ts` | function |
| `RandomNames` | `src/support/randomString.ts` | functions, lemmas |
| `Provider` | `src/EC2MachineProvider.ts` | a class with `modifies` methods, functions, lemmas |

Every AWS SDK call, every `fetch` of the beacon and every ssh event is an
oracle: a function-typed parameter, or a value bundled in a datatype (`Cloud`,
`Infrastructure`), that gives the answer the call would get. An error from the
SDK is an `SdkError` with its code. `createError(err, context)` from
`src/support/AWSProviderError.ts` becomes `Wrapped(base, context)` when `err`
is an SDK error. When `err` is null, `createError` throws at
`Object.getPrototypeOf(null)` inside the SDK's callback, so that promise never
settles (the SDK re-throws the error, which most likely ends the process as an
uncaught exception); the as-written checks model this as `NeverSettles`, and the corrected
checks reject with `NoData(context)` instead. A plain
`new Error(message)` becomes `Plain(message)`. A failing command becomes
`CommandFailed(command, result)`.

`allocateElasticIp` in `src/functions/allocateElasticIp.ts` resolves with the
allocation id alone. Its callers (`src/functions/createMachine.ts:216` and
`src/EC2MachineProvider.ts:162,170,199`) read `.allocationId` and `.address`
from the result. The model follows the callers and lets the allocation answer
with an `ElasticIp(allocationId, address)` record.

## Model

| member | source | states |
|---|---|---|
| Cidr.HostCidr | src/functions/openSecurityGroupPort.ts:34-36 | the block of one host is the address followed by `/32`, and the address can be read back from it |
| Cidr.HostCidrs | src/functions/createSecurityGroup.ts:39-41 | one `/32` block per address, in the addresses' order |
| IngressPermissions.PortBounds | src/functions/openSecurityGroupPort.ts:16-19 | a single port p is the range p..p; a range keeps its own bounds |
| IngressPermissions.Permission | src/functions/openSecurityGroupPort.ts:15-59 | each rule gives a TCP permission with the rule's bounds. All-traffic rules give `0.0.0.0/0` and `::/0`. Address rules give one `/32` per address and no IPv6. Group rules give no ranges. A source group is set exactly for group rules and names the rule's group |
| IngressPermissions.Permissions | src/functions/openSecurityGroupPort.ts:15-60 | one permission per rule, in the rules' order |
| IngressPermissions.OpenSecurityGroupPorts | src/functions/openSecurityGroupPort.ts:6-72 | succeeds exactly when the single authorize call with every rule's permission succeeds; otherwise the SDK error is wrapped with "Trying to authorize an inbound rule on <id>" |
| IngressPermissions.OnlyGroupRulesReferenceGroups | src/functions/openSecurityGroupPort.ts:25-57 | a permission references a peer group iff its rule is a group rule; it has no IPv4 range iff its rule is a group rule or an address rule with no addresses |
| AllTrafficSupport.AllTraffic | src/support/allTraffic.ts:8-18 | one all-traffic rule per port entry, in order |
| AllTrafficSupport.AllTrafficOpensToEveryone | src/support/allTraffic.ts:8-18 | authorizing `allTraffic(ports)` opens each entry's bounds over TCP to every IPv4 and IPv6 source and to no peer group |
| SecurityGroups.SourceRanges | src/functions/createSecurityGroup.ts:36-41 | no addresses means `0.0.0.0/0`; otherwise one `/32` block per address, from which each address can be read back |
| SecurityGroups.TcpPermissions | src/functions/createSecurityGroup.ts:32-42 | one TCP permission per port entry, with a number's value as both bounds or a range's from/to, all sharing the same sources |
| SecurityGroups.CreateSecurityGroup | src/functions/createSecurityGroup.ts:8-55 | create comes first. A create error is returned unwrapped and nothing is authorized. Otherwise exactly the new group's permissions are authorized. The group id is returned iff that succeeds, else the authorize error, unwrapped |
| SecurityGroups.OlderFormAgreesWithAllTraffic | src/functions/createSecurityGroup.ts:32-42 | with no addresses, each permission of the older form has the protocol, bounds and IPv4 range that `allTraffic` gives through the newer form |
| Amis.Lookup | src/functions/findDefaultAmiId.ts:33 | a value is found iff some entry has the key, and the pair found is in the table |
| Amis.FindDefaultAmiId | src/functions/findDefaultAmiId.ts:12-33 | an image id exactly for the regions of the table, the one listed for that region |
| Amis.TableShape | src/functions/findDefaultAmiId.ts:12-31 | 18 regions, none listed twice, no image listed twice, every id starting with "ami-" |
| Amis.KnownAndUnknownRegions | src/functions/findDefaultAmiId.ts:12-33 | us-east-1 gives ami-0b383171; the key "undefined" gives no image |
| Lines.SplitJoin | src/functions/createMachine.ts:104-116 | lines joined with "\n" split back into the same lines when none holds a newline |
| MachineLaunch.ScriptLiteralsAreSingleLines | src/functions/createMachine.ts:106-114 | the shebang and the beacon command are single lines |
| MachineLaunch.BootScriptLayout | src/functions/createMachine.ts:104-118 | read back line by line, the user data is the shebang, the init commands, the `nc -l 3000` beacon, then the post-init commands |
| MachineLaunch.LaunchRequest | src/functions/createMachine.ts:82-120 | one instance. The image is the snapshot's id, else the region's default image. The size, subnet, single security group, Name and iepaas-app tags, and the boot script come from the options; missing post-init commands mean none |
| MachineLaunch.LaunchedIdAsWritten | src/functions/createMachine.ts:121-133 | the launch check as written rejects exactly on an SDK error, wrapped with the subnet; when it resolves, the reply listed at least one instance, the first has an id, and that non-empty id is the result |
| MachineLaunch.UnusableLaunchReplyNeverSettles | src/functions/createMachine.ts:122-131 | a reply without an error but with no `Instances`, an entry without an id, or an empty list leaves the launch as written unsettled; the corrected check rejects each with `NoData` |
| MachineLaunch.LaunchedId | src/functions/createMachine.ts:122-131 | an id iff the call succeeded and returned at least one instance, each with an id; it is the first one and is not empty. Otherwise an SDK error is wrapped with the subnet, and a reply without an error is rejected with `NoData` and the subnet |
| MachineLaunch.LaunchedIdRefinesAsWritten | src/functions/createMachine.ts:122-131 | the corrected check resolves exactly where the source resolves, with the same id. The source rejects exactly on an SDK error, and the corrected check rejects with the same failure. The source leaves the launch unsettled exactly for a reply without an error that lacks a non-empty list of instances with ids, and exactly there the corrected check rejects with `NoData` |
| MachineLaunch.IsCloudInitFinished | src/functions/createMachine.ts:160-178 | finished iff the fetch failed with ECONNRESET; not yet iff it got an answer or ECONNREFUSED; any other failure is rethrown |
| MachineLaunch.PollBudget | src/functions/createMachine.ts:181-202 | probe k starts before the timer fires iff k pauses of 500 ms are shorter than the timeout |
| MachineLaunch.PollFromOutcome | src/functions/createMachine.ts:197-202 | readiness is reported at the first probe that saw a reset, after only "not yet"; the timeout iff every probe in the budget said "not yet"; any other error is that of the first probe that was neither |
| MachineLaunch.WaitForCloudInitFinished | src/functions/createMachine.ts:159-204 | the loop of probes raced against the timer ends as the poll specification does |
| MachineLaunch.InstanceInformationAsWritten | src/functions/createMachine.ts:243-259 | getInstanceInformation as written rejects exactly on an SDK error, wrapped with the instance id, and resolves exactly when the reply has a first instance of a first reservation, with that instance's id and public address |
| MachineLaunch.DescribeWithoutInstanceNeverSettles | src/functions/createMachine.ts:244-251 | a describe reply without an error but with no `Reservations`, no reservation, no `Instances` or no instance leaves getInstanceInformation as written unsettled; the corrected check rejects with `NoData` |
| MachineLaunch.InstanceInformation | src/functions/createMachine.ts:237-262 | a machine iff the call succeeded and the first reservation has a first instance, whose id and public address it carries. Otherwise an SDK error is wrapped with the instance id, and a reply without an error is rejected with `NoData` |
| MachineLaunch.InstanceInformationRefinesAsWritten | src/functions/createMachine.ts:237-262 | the corrected check resolves exactly where the source resolves, with the same machine. The source rejects exactly on an SDK error, with the same failure. It never settles exactly for a reply without an error and without a first instance, where the corrected check rejects with `NoData` |
| MachineLaunch.AssociateRun | src/functions/createMachine.ts:39-45 | the association stage takes one to three steps, starting with the association; it stops after that step exactly when the association fails; the second step is the describe; on success the steps are associate, describe, await the beacon at the described address, and the machine is the described one |
| MachineLaunch.CreateMachineRun | src/functions/createMachine.ts:26-45 | the workflow takes one to six steps, starting with the launch of the request built from the options; it stops after the launch exactly when the launch check fails; on success the launch gave an id, the instance became running, the second step waited for it and the last awaited the beacon at the machine's address |
| MachineLaunch.CreateMachine | src/functions/createMachine.ts:9-67 | the awaited workflow takes the steps, and ends with the outcome, of the workflow specification. It rejects with `NoData` exactly where the source's createMachine never settles |
| MachineLaunch.AssociateAndAwait | src/functions/createMachine.ts:38-45 | associating the address, describing the instance and awaiting the beacon, each awaited before the next, take the steps and end with the outcome of the association stage of the workflow specification. It rejects with `NoData` exactly where the source's stage never settles: the association succeeded and the describe reply, without an error, has no first instance |
| MachineLaunch.PollFailureKinds | src/functions/createMachine.ts:159-204 | the poll fails only with a fetch's network error or with the timeout |
| MachineLaunch.AssociateRunRejectsWhereSourceHangs | src/functions/createMachine.ts:38-45 | the association stage rejects with `NoData` exactly where the source's associate-and-describe never settles |
| MachineLaunch.CreateMachineRejectsWhereSourceHangs | src/functions/createMachine.ts:9-67 | the corrected workflow rejects with `NoData` exactly where the source's never settles, at the launch check or at the describe check; every other outcome is one the source reaches too |
| MachineLaunch.StepsInOrder | src/functions/createMachine.ts:26-45 | the launch comes first; then waiting, allocating, associating, describing and awaiting the beacon follow in that order, each at most once |
| MachineLaunch.GivenAllocationIsUsed | src/functions/createMachine.ts:206-216 | with a non-empty allocation id given, no address is allocated and only the given allocation is associated |
| MachineLaunch.SuccessfulLaunch | src/functions/createMachine.ts:26-66 | a successful launch took every step. It allocated an address iff no allocation id was given. It returns the described machine, whose beacon reset within the ten-minute budget |
| RemoteCommands.StdoutOfConcatenation | src/functions/executeCommandsInMachine.ts:75-80 | stdout gathered over two stretches of events is the first stretch's stdout followed by the second's |
| RemoteCommands.StderrOfConcatenation | src/functions/executeCommandsInMachine.ts:75-80 | stderr gathered over two stretches of events is the first stretch's stderr followed by the second's |
| RemoteCommands.SendCommand | src/functions/executeCommandsInMachine.ts:59-83 | an exec error rejects. Otherwise the result is the close event's exit code with all stdout data and all stderr data, each in arrival order |
| RemoteCommands.StopsAtFirstFailure | src/functions/executeCommandsInMachine.ts:17-22 | for the commands "true", "false", "true", where only "false" exits with 1, the first two are sent, the third is not, the connection is left open and the failure names "false" with its result |
| RemoteCommands.InitConnection | src/functions/executeCommandsInMachine.ts:28-57 | attempts count from 1 and stop at the first ready. Earlier attempts all failed. It connects iff some attempt up to the maximum is ready, else it rejects with the last attempt's error |
| RemoteCommands.ExecuteCommandsInMachine | src/functions/executeCommandsInMachine.ts:10-26 | commands are sent in list order, each after the previous exited with 0. The first failure is the last sent and is reported with its result. It succeeds and closes the connection iff it connected and every command exited with 0. When no handshake within the allowed attempts is ready, nothing is sent and it rejects with the last attempt's error |
| Store.GetFrom | src/SimpleStore.ts:6-8 | a value iff the key is stored with a non-empty value, and then that value |
| Store.WithoutKeepsDistinct | src/SimpleStore.ts:21-23 | removing a key from a list of distinct keys leaves the others distinct |
| Store.EntriesOf | src/SimpleStore.ts:10-15 | one entry per listed key, in order, with its stored value |
| Store.DistinctKeysCount | src/SimpleStore.ts:10-15 | distinct keys that are exactly the map's keys are as many as the map's entries |
| Store.SimpleStore.constructor | src/SimpleStore.ts:4 | the store starts empty |
| Store.SimpleStore.Get | src/SimpleStore.ts:6-8 | a key never set, deleted, or set to "" reads as absent; any other key reads its value |
| Store.SimpleStore.GetAll | src/SimpleStore.ts:10-15 | exactly one entry per stored key, including those whose value is "", each with its stored value, no key twice, listed in the store's key order (the order in which the keys were first set, as `Object.keys` lists them) |
| Store.SimpleStore.Set | src/SimpleStore.ts:17-19 | the key now holds the value and reads back as it (absent if ""). Every other key is unchanged. A new key joins the end of the key order |
| Store.SimpleStore.Delete | src/SimpleStore.ts:21-23 | the key reads as absent and leaves the key order. Every other key is unchanged. Deleting an absent key changes nothing |
| MachineTypes.InstanceName | src/support/getInstanceName.ts:3-12 | PARENT, BUILD and CHILD are named "iepaas parent", "iepaas build" and "iepaas child" |
| MachineTypes.InstanceNameInjective | src/support/getInstanceName.ts:4-11 | different kinds get different names |
| MachineTypes.InstanceSize | src/support/getInstanceSize.ts:8-20 | each kind's size is the lookup of its own size key, unchecked |
| MachineTypes.InstanceSizeReadsOneKey | src/support/getInstanceSize.ts:12-19 | two lookups that agree on the kind's size key give the same size |
| MachineTypes.SecurityGroupKey | src/EC2MachineProvider.ts:214-223 | BUILD, PARENT and CHILD map to their own security-group key |
| MachineTypes.KeysInjective | src/EC2MachineProvider.ts:214-223 | different kinds never share a size key or a security-group key |
| Credentials.VerifyCredentials | src/functions/verifyCredentials.ts:3-16 | no error gives true; exactly the code "AuthFailure" gives false; any other error is rejected, unwrapped |
| RandomNames.HexEncode | src/support/randomString.ts:5 | two lowercase hex digits per byte |
| RandomNames.HexRoundTrip | src/support/randomString.ts:4-5 | decoding the hex of some bytes gives the bytes back |
| RandomNames.DefaultRandomString | src/support/randomString.ts:3-7 | called without a length, it gives ten lowercase hex characters from five random bytes |
| RandomNames.RandomString | src/support/randomString.ts:3-7 | an error iff the length is negative. Otherwise there are 2·floor(length/2) lowercase hex characters, one fewer than an odd length, never cut by `substr`. They decode to the floor(length/2) bytes drawn |
| Provider.RegisterPrompts | src/EC2MachineProvider.ts:50-87 | six required prompts: accessKeyId as text, secretAccessKey as password, and region, parentMachineSize, buildMachineSize and childMachineSize as selects over the regions and sizes |
| Provider.FindPrompt | src/EC2MachineProvider.ts:90-96 | a value iff some prompt has the name, and then the first such prompt's value; otherwise "The prompt <name> is not defined!" |
| Provider.ApplyOrderAppendsNewKeys | src/SimpleStore.ts:17-19 | writes of distinct keys not yet stored append them to the key order in the order written |
| Provider.InitOrdersKeys | src/EC2MachineProvider.ts:98-106 | init on an empty store lists its keys in the order of its fields |
| Provider.InitOutcome | src/EC2MachineProvider.ts:98-106 | the writes are the fields before the first missing prompt, each key with its prompt's value. Success iff no prompt is missing; otherwise the first missing prompt's error |
| Provider.InitSucceedsIffAllPrompts | src/EC2MachineProvider.ts:89-107 | init succeeds iff every prompt it reads is present |
| Provider.RegisteredPromptsLackRepoUrl | src/EC2MachineProvider.ts:50-107 | answering exactly the registered prompts makes init fail on "repoUrl" before any write |
| Provider.RegisteredPromptsWithRepoUrlSuffice | src/EC2MachineProvider.ts:50-107 | the registered prompts plus a "repoUrl" answer make init succeed |
| Provider.InitKeysDistinct | src/EC2MachineProvider.ts:98-106 | init writes seven different keys |
| Provider.InitStoresPromptValues | src/EC2MachineProvider.ts:98-106 | after a successful init, each key holds its own prompt's answer |
| Provider.InitThenInstanceSize | src/EC2MachineProvider.ts:103-105 | after a successful init, each kind's size is the answer to that kind's own size prompt |
| Provider.SessionFrom | src/EC2MachineProvider.ts:111-131 | a session iff key id, secret and region are all truthy (present and not ""), carrying them and API version 2016-11-15; otherwise the missing-credentials error |
| Provider.MachineOptionsAsWritten | src/EC2MachineProvider.ts:208-227 | the options the source passes carry no region, read as "undefined" |
| Provider.AsWrittenLaunchHasNoImage | src/EC2MachineProvider.ts:208-227 | without a snapshot, the launch the source requests has no image id |
| Provider.MachineOptions | src/EC2MachineProvider.ts:208-227 | the source's options with the session's region |
| Provider.MachineOptionsLaunch | src/EC2MachineProvider.ts:208-227 | the corrected launch uses the snapshot or else the region's default image. It has the stored size, the stored subnet and the kind's security group, is tagged with the kind's name and the app, and its boot script holds the given init commands |
| Provider.InfrastructureGroups | src/EC2MachineProvider.ts:144-172 | the parent group opens 80, 443, 3000 and 4898 to everyone. The build group opens 3000, and the child group 3000 to 4000, only to the elastic IP's `/32` |
| Provider.ProvisionGroups | src/EC2MachineProvider.ts:144-172 | succeeds iff the parent group, the elastic IP, and the build and child groups on that IP's address all succeed; on success the parent, build and child ids are those of the groups created from the parent, build and child plans, and the IP is the allocated one. Failures are reported in the order parent group, elastic IP (its SDK error), build group, child group |
| Provider.GroupWritesRecordIds | src/EC2MachineProvider.ts:174-178 | after the group ids are recorded, SECURITY_GROUP_PARENT_ID holds the parent group's id, SECURITY_GROUP_BUILD_ID the build group's and SECURITY_GROUP_CHILD_ID the child group's |
| Provider.ParentInitCommands | src/EC2MachineProvider.ts:186-193 | install, select this provider, one set-config per stored entry in getAll order, then chown |
| Provider.ParentPostInitCommands | src/EC2MachineProvider.ts:194-198 | a single `cd /iepaas && npm run set-repo-url <url>` command with the stored URL, or with "null" when none is stored |
| Provider.ParentOptionsAsWritten | src/EC2MachineProvider.ts:180-200 | the parent's options as the source builds them have no region, read as "undefined" |
| Provider.AsWrittenParentLaunchHasNoImage | src/EC2MachineProvider.ts:180-200 | the parent launched as written carries no image id |
| Provider.ParentOptions | src/EC2MachineProvider.ts:180-200 | the as-written parent options with the session's region. The parent machine is named "iepaas parent" and gets the app name, the network's subnet, the parent group, the given size, no snapshot, the infrastructure's allocation id, and the parent init and post-init commands |
| Provider.ParentOptionsLaunch | src/EC2MachineProvider.ts:180-200 | the parent launched with the corrected options uses the region's default image, the stored size, the subnet and the parent group |
| Provider.ParentUsesInfrastructureAddress | src/EC2MachineProvider.ts:180-200 | the parent's launch never allocates an address and associates only the infrastructure's elastic IP |
| Provider.EC2MachineProvider.constructor | src/EC2MachineProvider.ts:46-48 | keeps the app name and store; no session yet |
| Provider.EC2MachineProvider.Client | src/EC2MachineProvider.ts:110-121 | with a cached session, that session; otherwise a session exactly when the stored key id, secret and region are all truthy, and the missing-credentials error otherwise |
| Provider.EC2MachineProvider.GetEC2 | src/EC2MachineProvider.ts:109-135 | returns the cached session if there is one, without reading the store; otherwise it builds one from the store. It caches a session built successfully and nothing else, so a second call returns the same result |
| Provider.EC2MachineProvider.SetConfigValues | src/EC2MachineProvider.ts:139-142 | the store afterwards holds every write applied in order, the last write to a key winning; a key not yet stored joins the end of the key order and a stored key keeps its place |
| Provider.EC2MachineProvider.Init | src/EC2MachineProvider.ts:89-107 | the store afterwards is the old store with init's writes applied in order, both its values and its key order; the outcome is init's |
| Provider.EC2MachineProvider.CreateMachine | src/EC2MachineProvider.ts:203-228 | the session is cached exactly when getEC2 succeeds. A session error is returned before any step. Otherwise the launch is that of the corrected options: the stored size, subnet and the kind's security group, in the session's region |
| Provider.EC2MachineProvider.BuildIepaasInfrastructure | src/EC2MachineProvider.ts:137-201 | the session is cached exactly when getEC2 succeeds. The network ids are stored, then the three group ids, in the store's values and its key order. The parent is launched with the corrected parent options (`ParentOptions`, in the session's region; "## Findings" row 4) built from the store after those writes. Each failure stops the build with the writes made so far |

## Left out

- The AWS SDK client, its waiters (`waitFor("instanceRunning")`), `node-fetch`, the `ssh2` client and `crypto.randomBytes` are oracles. Their latency and retries are not modelled.
- The UTF-8 and base64 encoding of the user data: `MachineLaunch.UserData` is the text before encoding.
- `Promise.all` runs its members concurrently and rejects with whichever rejection comes first. The model runs them in list order and reports the first failure in that order. This covers init's writes, getEC2's three reads and the two rounds of buildIepaasInfrastructure.
- `Promise.race` and `setTimeout` are not modelled as time. The ten-minute timer becomes a budget of probes spaced 500 ms apart. The time each fetch takes is not counted.
- MachineLaunch.WaitForCloudInitFinished: requires a positive timeout. The source's branch without a timeout polls forever and is not modelled.
- RemoteCommands.InitConnection: requires at least one attempt. `SSH_MAX_ATTEMPTS` lives in `src/config.ts`, which is not part of this model. With 0 the source would retry forever. The retry delay and the ready timeout are not modelled.
- RemoteCommands.SendCommand: `Buffer.toString()` of each chunk is taken as given text.
- Store: `Object.keys` lists integer-like keys first, in numeric order. The model keeps insertion order for every key. No configuration key is integer-like.
- ConfigKeys: `src/configKeys.ts` is not part of this model. The key strings are stand-ins, and the model relies only on their being distinct.
- The base class of the provider (`@iepaas/machine-provider-abstract`) is not part of this model. `getConfigValue`, `setConfigValue` and `getAllConfigValues` are modelled as direct calls on the store, with no key prefix.
- Provider.EC2MachineProvider.Init: the writes before a missing prompt are modelled as done. In the source they are started before the prompt that throws, and finishing them depends on the base class.
- Provider.EC2MachineProvider.GetEC2: `AWS.config.update` is a process-wide side effect and is not modelled. The race between two concurrent first calls is not modelled.
- Provider.EC2MachineProvider.CreateMachine: requires the size, the subnet id and the kind's security-group id to be stored. The source asserts this with `!` and would pass `null` on to the SDK.
- Provider.EC2MachineProvider.BuildIepaasInfrastructure: requires a stored parent size, for the same reason. The repeated `getEC2()` calls return the cached session and are modelled as one. `buildVpc` and `allocateElasticIp` are whole answers.
- MachineLaunch.AssociateRun, Provider.ProvisionGroups: `allocateElasticIp` as shown resolves with the allocation id string alone, so the callers' `.allocationId` and `.address` (`src/functions/createMachine.ts:216`, `src/EC2MachineProvider.ts:162,170,199`) read `undefined`. The model follows the callers' `{allocationId, address}` shape instead.
- Provider.ProvisionGroups: when several calls of one `Promise.all` round fail, the source reports whichever fails first in time. The model reports them in list order.
- RandomNames.RandomString: requires enough random bytes for the requested length. The error for a negative length stands for the `RangeError` of `randomBytes`. A non-integer length is not modelled.
- `destroyMachine`, `takeSnapshot` and `deleteSnapshot` of the façade forward to `src/functions/destroyMachine.ts`, `src/functions/takeSnapshotOfMachine.ts` and `src/functions/deleteSnapshotOfMachine.ts`, which are not part of this model. `verifyCredentials` forwards to `Credentials.VerifyCredentials`.
- These files sequence a few SDK calls with no local logic and are not part of this model: `src/functions/createVpc.ts`, `src/functions/allocateElasticIp.ts`, `src/functions/createKeyPair.ts` and `src/functions/deleteKeyPair.ts`.
- `src/functions/selectSubnet.ts` picks with `Math.random()`, a floating-point selection, and is not part of this model.
- `src/support/AWSProviderError.ts` copies the SDK error's fields and prototype. An error is modelled as its code with a context string; the throw on a null error is modelled as a promise that never settles.
- The commented-out `modifyInstanceAttribute` call in `src/functions/createMachine.ts:47-64` does nothing and is left out.
- MachineLaunch.InstanceInformation: the `!` on the instance id and public address is taken as a promise that both are present.
- MachineLaunch.CreateMachine: where the source's createMachine never settles (a reply without an error fails the launch or the describe check), the model rejects with `NoData`, following the corrected checks; `SourceHangs` names those inputs.
- MachineLaunch.AssociateAndAwait: where the source's describe never settles, the model rejects with `NoData`, following the corrected check; `AssociationHangs` names those inputs.
- Store.GetFrom: the source's store is a plain object, which inherits from `Object.prototype`. The map models only keys that are not `Object.prototype` names: `this._store["constructor"]` finds an inherited function where the model finds nothing. No configuration key is such a name.
- Store.SimpleStore.Get: the same restriction; `get("toString")` returns an inherited function in the source.
- Store.SimpleStore.Set: the same restriction; `set("__proto__", v)` with a string `v` goes to the inherited `__proto__` setter, which ignores a value that is neither an object nor null. So the prototype stays, no own key is stored, `getAll` does not list it, and a later `get("__proto__")` returns `Object.prototype`, where the model stores and returns `v`.
- Store.SimpleStore.GetAll: the same restriction; `Object.keys` lists own keys only.
- Amis.FindDefaultAmiId: `amisByRegion` is a plain object too, so `findDefaultAmiId("toString")` returns an inherited function in the source. The model covers region names that are not `Object.prototype` names, which every AWS region is.

## Findings

| source | as written | input that shows it | evidently intended | confidence | as-written member | corrected member |
|---|---|---|---|---|---|---|
| src/functions/createMachine.ts:122-131 | a missing `Instances` or an entry without an id is passed to `reject(createError(err, …))` with `err` null, and an empty list passes the check before `Instances[0].InstanceId` is read | a `runInstances` reply without an error and with no `Instances`, `[{}]` or `[]`: `Object.getPrototypeOf(null)` throws, or the read of the absent first entry does, inside the SDK callback, and the launch promise never settles; the SDK re-throws an error raised in its callback, so the throw most likely escapes as an uncaught exception that ends the process | reject when no usable instance came back, since exactly one id must come back | high (not executed) | MachineLaunch.UnusableLaunchReplyNeverSettles | MachineLaunch.LaunchedId |
| src/functions/createMachine.ts:244-251 | a reply without a first instance of a first reservation is passed to `reject(createError(err, …))` with `err` null | a `describeInstances` reply without an error and with `Reservations: []`: `Object.getPrototypeOf(null)` throws inside the SDK callback, and the describe promise never settles; the SDK re-throws it, so it most likely ends the process as an uncaught exception | reject with the describe context | high (not executed) | MachineLaunch.DescribeWithoutInstanceNeverSettles | MachineLaunch.InstanceInformation |
| src/EC2MachineProvider.ts:208-227 | `createMachine` builds the options without `region`, which the options interface requires | any launch without a snapshot: `findDefaultAmiId(undefined)` reads `amisByRegion["undefined"]`, so the request carries no image id | pass the session's region, so the default image of that region is used | high (not executed) | Provider.AsWrittenLaunchHasNoImage | Provider.MachineOptionsLaunch |
| src/EC2MachineProvider.ts:180-200 | `buildIepaasInfrastructure` builds the parent's options without `region` as well | the parent's launch, which never has a snapshot: its request carries no image id | pass the session's region | high (not executed) | Provider.AsWrittenParentLaunchHasNoImage | Provider.ParentOptionsLaunch |
