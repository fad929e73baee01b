/** createMachine (src/functions/createMachine.ts): launch one instance with a
    boot script, wait until it runs, attach an elastic IP, read its address,
    and poll the boot script's one-shot beacon until it answers. Every SDK
    call and every fetch of the beacon is an oracle held in a Cloud value. */
module MachineLaunch {
  import opened Common
  import opened Lines
  import opened LaunchOptions
  import Amis

  // ---------------------------------------------------------------- boot script

  const Shebang := "#!/bin/bash"
  /** A one-request web server on port 3000 that the boot script starts once
      the init commands are done. */
  const BeaconCommand := "echo \"HTTP/1.1 200 OK\"" + " | nc -l 3000" + " > /dev/null"

  function BootScriptLines(initCommands: seq<string>, postInitCommands: seq<string>): seq<string> {
    [Shebang] + initCommands + [BeaconCommand] + postInitCommands
  }

  /** The user data before its UTF-8 and base64 encoding. */
  function UserData(initCommands: seq<string>, postInitCommands: seq<string>): string {
    JoinLines(BootScriptLines(initCommands, postInitCommands))
  }

  lemma ScriptLiteralsAreSingleLines()
    ensures SingleLine(Shebang) && SingleLine(BeaconCommand)
  {
  }

  /** Read back line by line, the boot script is the shebang, the init
      commands, the beacon, then the post-init commands. */
  lemma BootScriptLayout(initCommands: seq<string>, postInitCommands: seq<string>)
    requires forall i :: 0 <= i < |initCommands| ==> SingleLine(initCommands[i])
    requires forall i :: 0 <= i < |postInitCommands| ==> SingleLine(postInitCommands[i])
    ensures SplitLines(UserData(initCommands, postInitCommands))
         == [Shebang] + initCommands + [BeaconCommand] + postInitCommands
    ensures SplitLines(UserData(initCommands, postInitCommands))[0] == Shebang
    ensures SplitLines(UserData(initCommands, postInitCommands))[|initCommands| + 1] == BeaconCommand
  {
    var lines := BootScriptLines(initCommands, postInitCommands);
    ScriptLiteralsAreSingleLines();
    forall i | 0 <= i < |lines| ensures SingleLine(lines[i]) {
      if i == 0 {
        assert lines[i] == Shebang;
      } else if i <= |initCommands| {
        assert lines[i] == initCommands[i - 1];
      } else if i == |initCommands| + 1 {
        assert lines[i] == BeaconCommand;
      } else {
        assert lines[i] == postInitCommands[i - |initCommands| - 2];
      }
    }
    SplitJoin(lines);
  }

  // ---------------------------------------------------------------- launch

  datatype Tag = Tag(key: string, value: string)

  /** The parameters of `runInstances`; `userData` is the script before it is
      encoded, `imageId` None when the region has no default image. */
  datatype RunInstancesRequest = RunInstancesRequest(
    imageId: Option<string>,
    instanceType: string,
    minCount: int,
    maxCount: int,
    securityGroupIds: seq<string>,
    tags: seq<Tag>,
    userData: string,
    subnetId: string)

  /** The image to boot: the snapshot when one is given, else the region's default. */
  function ImageId(snapshot: Option<Snapshot>, region: string): Option<string> {
    if snapshot.Some? then Some(snapshot.value.id) else Amis.FindDefaultAmiId(region)
  }

  function LaunchRequest(options: CreateMachineOptions): (request: RunInstancesRequest)
    ensures request.minCount == 1 && request.maxCount == 1
    ensures options.snapshot.Some? ==> request.imageId == Some(options.snapshot.value.id)
    ensures options.snapshot.None? ==> request.imageId == Amis.FindDefaultAmiId(options.region)
    ensures request.instanceType == options.size && request.subnetId == options.subnetId
    ensures request.securityGroupIds == [options.securityGroupId]
    ensures request.tags == [Tag("Name", options.machineName), Tag("iepaas-app", options.appName)]
    ensures options.postInitCommands.None? ==> request.userData == UserData(options.initCommands, [])
    ensures options.postInitCommands.Some? ==>
      request.userData == UserData(options.initCommands, options.postInitCommands.value)
  {
    var postInit := if options.postInitCommands.Some? then options.postInitCommands.value else [];
    RunInstancesRequest(
      ImageId(options.snapshot, options.region),
      options.size, 1, 1,
      [options.securityGroupId],
      [Tag("Name", options.machineName), Tag("iepaas-app", options.appName)],
      UserData(options.initCommands, postInit),
      options.subnetId)
  }

  datatype LaunchedInstance = LaunchedInstance(instanceId: Option<string>)
  datatype RunInstancesResponse = RunInstancesResponse(instances: Option<seq<LaunchedInstance>>)

  /** `it.InstanceId` is truthy: present and not empty. */
  predicate HasId(instance: LaunchedInstance) {
    instance.instanceId.Some? && instance.instanceId.value != ""
  }

  function LaunchContext(subnetId: string): string {
    "When running an instance on subnet " + subnetId
  }

  /** The rejection of a launch reply: the SDK error wrapped with the launch
      context, or, for a reply without an error, the corrected rejection. */
  function LaunchFailure(reply: Reply<RunInstancesResponse>, subnetId: string): Failure {
    if reply.Error? then Wrapped(reply.err, LaunchContext(subnetId)) else NoData(LaunchContext(subnetId))
  }

  /** How a promise of the source ends. */
  datatype Settlement<T> = Resolved(value: T) | Rejected(failure: Failure) | NeverSettles

  /** The check of the launch response as the source writes it. An SDK error
      rejects, wrapped with the launch context. A reply without an error that
      fails the check (no `Instances`, or an entry without an id) hands a
      null error to `createError`, whose `Object.getPrototypeOf(null)` throws
      inside the SDK's callback; an empty list passes the check, and reading
      the id of the absent first entry throws there too. Either way neither
      `resolve` nor `reject` is reached. */
  function LaunchedIdAsWritten(reply: Reply<RunInstancesResponse>, subnetId: string): (s: Settlement<string>)
    ensures s.Rejected? <==> reply.Error?
    ensures s.Rejected? ==> s.failure == Wrapped(reply.err, LaunchContext(subnetId))
    ensures s.Resolved? ==>
      && reply.Data? && reply.data.instances.Some? && |reply.data.instances.value| > 0
      && HasId(reply.data.instances.value[0]) && s.value == reply.data.instances.value[0].instanceId.value
      && s.value != ""
  {
    if reply.Error? then Rejected(Wrapped(reply.err, LaunchContext(subnetId)))
    else if reply.data.instances.None? then NeverSettles
    else
      var instances := reply.data.instances.value;
      if exists i :: 0 <= i < |instances| && !HasId(instances[i]) then NeverSettles
      else if |instances| == 0 then NeverSettles
      else Resolved(instances[0].instanceId.value)
  }

  /** A reply without an error but without a usable instance leaves the
      launch as written unsettled, where the corrected check rejects it:
      no `Instances`, an entry without an id, or an empty list. */
  lemma UnusableLaunchReplyNeverSettles(subnetId: string)
    ensures LaunchedIdAsWritten(Data(RunInstancesResponse(None)), subnetId) == NeverSettles
    ensures LaunchedIdAsWritten(Data(RunInstancesResponse(Some([LaunchedInstance(None)]))), subnetId) == NeverSettles
    ensures LaunchedIdAsWritten(Data(RunInstancesResponse(Some([]))), subnetId) == NeverSettles
    ensures LaunchedId(Data(RunInstancesResponse(None)), subnetId) == Err(NoData(LaunchContext(subnetId)))
    ensures LaunchedId(Data(RunInstancesResponse(Some([LaunchedInstance(None)]))), subnetId) == Err(NoData(LaunchContext(subnetId)))
    ensures LaunchedId(Data(RunInstancesResponse(Some([]))), subnetId) == Err(NoData(LaunchContext(subnetId)))
  {
    var noId := [LaunchedInstance(None)];
    assert !HasId(noId[0]);
  }

  /** The check of the launch response, rejecting where the source hangs:
      it succeeds exactly when the call succeeded and returned at least one
      instance, each with an id, and then yields the first id. */
  function LaunchedId(reply: Reply<RunInstancesResponse>, subnetId: string): (r: Result<string>)
    ensures r.Ok? <==>
      && reply.Data?
      && reply.data.instances.Some?
      && |reply.data.instances.value| >= 1
      && forall i :: 0 <= i < |reply.data.instances.value| ==> HasId(reply.data.instances.value[i])
    ensures r.Ok? ==> r.value == reply.data.instances.value[0].instanceId.value && r.value != ""
    ensures r.Err? ==> r.failure == LaunchFailure(reply, subnetId)
  {
    match LaunchedIdAsWritten(reply, subnetId)
    case Resolved(id) => Ok(id)
    case Rejected(f) => Err(f)
    case NeverSettles => Err(NoData(LaunchContext(subnetId)))
  }

  /** The corrected check agrees with the source wherever the source's
      promise settles, and rejects where it does not. */
  lemma {:induction false} LaunchedIdRefinesAsWritten(reply: Reply<RunInstancesResponse>, subnetId: string)
    ensures LaunchedId(reply, subnetId).Ok? <==> LaunchedIdAsWritten(reply, subnetId).Resolved?
    ensures LaunchedId(reply, subnetId).Ok? ==>
      LaunchedIdAsWritten(reply, subnetId) == Resolved(LaunchedId(reply, subnetId).value)
    ensures LaunchedIdAsWritten(reply, subnetId).Rejected? <==> reply.Error?
    ensures LaunchedIdAsWritten(reply, subnetId).Rejected? ==>
      LaunchedId(reply, subnetId) == Err(LaunchedIdAsWritten(reply, subnetId).failure)
    ensures LaunchedIdAsWritten(reply, subnetId).NeverSettles? <==>
      && reply.Data?
      && !(&& reply.data.instances.Some?
           && |reply.data.instances.value| >= 1
           && forall i :: 0 <= i < |reply.data.instances.value| ==> HasId(reply.data.instances.value[i]))
    ensures LaunchedIdAsWritten(reply, subnetId).NeverSettles? <==>
      LaunchedId(reply, subnetId) == Err(NoData(LaunchContext(subnetId)))
  {
  }

  // ---------------------------------------------------------------- readiness probe

  /** The outcome of one `fetch` of `http://<address>:3000`. */
  datatype FetchOutcome = Fetched | FetchFailed(code: string)

  /** isCloudInitFinished: a refused connection or an answer means the boot
      script is still running; a reset means the beacon was reached; any
      other error is rethrown. */
  function IsCloudInitFinished(outcome: FetchOutcome): (r: Result<bool>)
    ensures r == Ok(true) <==> outcome == FetchFailed("ECONNRESET")
    ensures r == Ok(false) <==> (outcome == Fetched || outcome == FetchFailed("ECONNREFUSED"))
    ensures r.Err? <==> outcome.FetchFailed? && outcome.code != "ECONNREFUSED" && outcome.code != "ECONNRESET"
    ensures r.Err? ==> r.failure == Network(outcome.code)
  {
    match outcome
    case Fetched => Ok(false)
    case FetchFailed(code) =>
      if code == "ECONNREFUSED" then Ok(false)
      else if code == "ECONNRESET" then Ok(true)
      else Err(Network(code))
  }

  predicate NotYet(outcome: FetchOutcome) {
    IsCloudInitFinished(outcome) == Ok(false)
  }

  const PollIntervalMs := 500
  /** The timeout createMachine passes: ten minutes. */
  const CloudInitTimeoutMs := 10 * 60 * 1000
  const TimeoutMessage := "The wait for cloud-init to finish timed out"

  /** How many probes start before a timer of `timeoutMs` fires when probe k
      starts k pauses after the first (the time a fetch takes is not counted). */
  function PollBudget(timeoutMs: nat): (budget: nat)
    ensures forall k: nat :: k < budget <==> k * PollIntervalMs < timeoutMs
  {
    var budget := (timeoutMs + PollIntervalMs - 1) / PollIntervalMs;
    assert budget * PollIntervalMs >= timeoutMs;
    assert budget == 0 || (budget - 1) * PollIntervalMs < timeoutMs;
    forall k: nat ensures k < budget <==> k * PollIntervalMs < timeoutMs {
      if k < budget {
        assert k * PollIntervalMs <= (budget - 1) * PollIntervalMs;
      } else {
        assert k * PollIntervalMs >= budget * PollIntervalMs;
      }
    }
    budget
  }

  /** The outcome of polling from probe `i` on, with `budget` probes before
      the timer: Ok(k) when probe k saw the beacon. */
  function PollFrom(probe: nat -> FetchOutcome, i: nat, budget: nat): Result<nat>
    decreases budget - i
  {
    if i >= budget then Err(Plain(TimeoutMessage))
    else
      match IsCloudInitFinished(probe(i))
      case Err(f) => Err(f)
      case Ok(finished) => if finished then Ok(i) else PollFrom(probe, i + 1, budget)
  }

  /** Polling reports readiness at the first probe that saw the beacon and
      never earlier; it times out exactly when every probe within the budget
      was refused or answered; any other error is that of the first probe
      that was neither. */
  lemma {:induction false} PollFromOutcome(probe: nat -> FetchOutcome, i: nat, budget: nat)
    ensures var r := PollFrom(probe, i, budget);
      && (r.Ok? ==>
            && i <= r.value < budget
            && probe(r.value) == FetchFailed("ECONNRESET")
            && forall j :: i <= j < r.value ==> NotYet(probe(j)))
      && (r == Err(Plain(TimeoutMessage)) <==> forall j :: i <= j < budget ==> NotYet(probe(j)))
      && (r.Err? && r.failure.Network? ==>
            exists k :: && i <= k < budget
                        && IsCloudInitFinished(probe(k)) == Err(r.failure)
                        && forall j :: i <= j < k ==> NotYet(probe(j)))
    decreases budget - i
  {
    var r := PollFrom(probe, i, budget);
    if i < budget {
      if NotYet(probe(i)) {
        assert r == PollFrom(probe, i + 1, budget);
        PollFromOutcome(probe, i + 1, budget);
        if r.Err? && r.failure.Network? {
          var k :| && i + 1 <= k < budget
                   && IsCloudInitFinished(probe(k)) == Err(r.failure)
                   && forall j :: i + 1 <= j < k ==> NotYet(probe(j));
          assert forall j :: i <= j < k ==> NotYet(probe(j));
        }
      } else {
        assert !(forall j :: i <= j < budget ==> NotYet(probe(j)));
        if r.Err? {
          assert IsCloudInitFinished(probe(i)) == Err(r.failure);
        }
      }
    }
  }

  /** waitForCloudInitFinished with a timeout: the `poll` loop, one probe per
      round, raced against the timer; Ok(k) when probe k saw the beacon. */
  method WaitForCloudInitFinished(probe: nat -> FetchOutcome, timeoutMs: nat) returns (r: Result<nat>)
    requires timeoutMs > 0
    ensures r == PollFrom(probe, 0, PollBudget(timeoutMs))
  {
    var budget := PollBudget(timeoutMs);
    var i := 0;
    while i < budget
      invariant i <= budget
      invariant PollFrom(probe, 0, budget) == PollFrom(probe, i, budget)
      decreases budget - i
    {
      var finished := IsCloudInitFinished(probe(i));
      if finished.Err? {
        return Err(finished.failure);
      }
      if finished.value {
        return Ok(i);
      }
      i := i + 1;
    }
    r := Err(Plain(TimeoutMessage));
  }

  // ---------------------------------------------------------------- elastic IP and description

  /** `ipAllocationId || ...`: a given, non-empty allocation id is used as it is. */
  predicate UsesGivenAllocation(given: Option<string>) {
    given.Some? && given.value != ""
  }

  function AssociateContext(instanceId: string): string {
    "Associating an elastic IP to instance " + instanceId
  }

  datatype DescribedInstance = DescribedInstance(instanceId: string, publicIpAddress: string)
  datatype Reservation = Reservation(instances: Option<seq<DescribedInstance>>)
  datatype DescribeResponse = DescribeResponse(reservations: Option<seq<Reservation>>)

  predicate HasFirstInstance(response: DescribeResponse) {
    && response.reservations.Some?
    && |response.reservations.value| > 0
    && response.reservations.value[0].instances.Some?
    && |response.reservations.value[0].instances.value| > 0
  }

  function DescribeContext(instanceId: string): string {
    "querying instance info for instance " + instanceId
  }

  /** getInstanceInformation as the source writes it. An SDK error rejects,
      wrapped with the describe context; a reply without an error that lacks
      a first instance of a first reservation hands a null error to
      `createError`, which throws inside the SDK's callback, so the promise
      never settles. */
  function InstanceInformationAsWritten(instanceId: string, reply: Reply<DescribeResponse>): (s: Settlement<Machine>)
    ensures s.Rejected? <==> reply.Error?
    ensures s.Rejected? ==> s.failure == Wrapped(reply.err, DescribeContext(instanceId))
    ensures s.Resolved? <==> reply.Data? && HasFirstInstance(reply.data)
    ensures s.Resolved? ==>
      var first := reply.data.reservations.value[0].instances.value[0];
      s.value.id == first.instanceId && s.value.address == first.publicIpAddress
  {
    if reply.Error? then Rejected(Wrapped(reply.err, DescribeContext(instanceId)))
    else if !HasFirstInstance(reply.data) then NeverSettles
    else
      var first := reply.data.reservations.value[0].instances.value[0];
      Resolved(Machine(first.instanceId, first.publicIpAddress))
  }

  /** A describe reply without an error but without a first instance leaves
      the source unsettled, where the corrected check rejects it: no
      `Reservations`, none, no `Instances` in the first, or none there. */
  lemma DescribeWithoutInstanceNeverSettles(instanceId: string)
    ensures InstanceInformationAsWritten(instanceId, Data(DescribeResponse(None))) == NeverSettles
    ensures InstanceInformationAsWritten(instanceId, Data(DescribeResponse(Some([])))) == NeverSettles
    ensures InstanceInformationAsWritten(instanceId, Data(DescribeResponse(Some([Reservation(None)])))) == NeverSettles
    ensures InstanceInformationAsWritten(instanceId, Data(DescribeResponse(Some([Reservation(Some([]))])))) == NeverSettles
    ensures InstanceInformation(instanceId, Data(DescribeResponse(None))) == Err(NoData(DescribeContext(instanceId)))
    ensures InstanceInformation(instanceId, Data(DescribeResponse(Some([Reservation(Some([]))]))))
      == Err(NoData(DescribeContext(instanceId)))
  {
  }

  /** getInstanceInformation, rejecting where the source hangs: the first
      instance of the first reservation, rejected when the call failed or
      either is missing. */
  function InstanceInformation(instanceId: string, reply: Reply<DescribeResponse>): (r: Result<Machine>)
    ensures r.Ok? <==> reply.Data? && HasFirstInstance(reply.data)
    ensures r.Ok? ==>
      var first := reply.data.reservations.value[0].instances.value[0];
      r.value == Machine(first.instanceId, first.publicIpAddress)
    ensures r.Err? ==>
      r.failure == if reply.Error? then Wrapped(reply.err, DescribeContext(instanceId)) else NoData(DescribeContext(instanceId))
  {
    match InstanceInformationAsWritten(instanceId, reply)
    case Resolved(machine) => Ok(machine)
    case Rejected(f) => Err(f)
    case NeverSettles => Err(NoData(DescribeContext(instanceId)))
  }

  /** The corrected getInstanceInformation agrees with the source wherever
      the source's promise settles, and rejects where it does not. */
  lemma InstanceInformationRefinesAsWritten(instanceId: string, reply: Reply<DescribeResponse>)
    ensures InstanceInformation(instanceId, reply).Ok? <==> InstanceInformationAsWritten(instanceId, reply).Resolved?
    ensures InstanceInformation(instanceId, reply).Ok? ==>
      InstanceInformationAsWritten(instanceId, reply) == Resolved(InstanceInformation(instanceId, reply).value)
    ensures InstanceInformationAsWritten(instanceId, reply).Rejected? <==> reply.Error?
    ensures InstanceInformationAsWritten(instanceId, reply).Rejected? ==>
      InstanceInformation(instanceId, reply) == Err(InstanceInformationAsWritten(instanceId, reply).failure)
    ensures InstanceInformationAsWritten(instanceId, reply).NeverSettles? <==> reply.Data? && !HasFirstInstance(reply.data)
    ensures InstanceInformationAsWritten(instanceId, reply).NeverSettles? <==>
      InstanceInformation(instanceId, reply) == Err(NoData(DescribeContext(instanceId)))
  {
  }

  // ---------------------------------------------------------------- the workflow

  /** The answers of the cloud: one per SDK call, and the outcome of the k-th
      fetch of the beacon at an address. */
  datatype Cloud = Cloud(
    runInstances: RunInstancesRequest -> Reply<RunInstancesResponse>,
    waitForRunning: string -> Option<SdkError>,
    allocateAddress: Reply<ElasticIp>,
    associateAddress: (string, string) -> Option<SdkError>,
    describeInstances: string -> Reply<DescribeResponse>,
    fetchBeacon: string -> nat -> FetchOutcome)

  /** The steps of a launch, in the order they are taken. */
  datatype Step =
    | Launch(request: RunInstancesRequest)
    | WaitRunning(instanceId: string)
    | AllocateAddress
    | Associate(allocationId: string, instanceId: string)
    | Describe(instanceId: string)
    | AwaitBeacon(address: string)

  function Rank(step: Step): nat {
    match step
    case Launch(_) => 0
    case WaitRunning(_) => 1
    case AllocateAddress => 2
    case Associate(_, _) => 3
    case Describe(_) => 4
    case AwaitBeacon(_) => 5
  }

  function RunningContext(instanceId: string): string {
    "waiting for the instance " + instanceId + " to be running"
  }

  /** The steps from the association of the address on, and their outcome:
      associate, describe, then poll the beacon at the described address. */
  function AssociateRun(cloud: Cloud, allocationId: string, id: string): (run: (seq<Step>, Result<Machine>))
    ensures 1 <= |run.0| <= 3 && run.0[0] == Associate(allocationId, id)
    ensures |run.0| == 1 <==> cloud.associateAddress(allocationId, id).Some?
    ensures |run.0| >= 2 ==> run.0[1] == Describe(id)
    ensures run.1.Ok? ==>
      && run.0 == [Associate(allocationId, id), Describe(id), AwaitBeacon(run.1.value.address)]
      && InstanceInformation(id, cloud.describeInstances(id)) == run.1
  {
    var association := cloud.associateAddress(allocationId, id);
    if association.Some? then ([Associate(allocationId, id)], Err(Wrapped(association.value, AssociateContext(id))))
    else
      var info := InstanceInformation(id, cloud.describeInstances(id));
      if info.Err? then ([Associate(allocationId, id), Describe(id)], Err(info.failure))
      else
        var machine := info.value;
        var polled := PollFrom(cloud.fetchBeacon(machine.address), 0, PollBudget(CloudInitTimeoutMs));
        ( [Associate(allocationId, id), Describe(id), AwaitBeacon(machine.address)],
          if polled.Err? then Err(polled.failure) else Ok(machine))
  }

  /** The steps createMachine takes and its outcome; it stops at the first failure. */
  function CreateMachineRun(cloud: Cloud, options: CreateMachineOptions): (run: (seq<Step>, Result<Machine>))
    ensures 1 <= |run.0| <= 6 && run.0[0] == Launch(LaunchRequest(options))
    ensures |run.0| == 1 <==> LaunchedId(cloud.runInstances(LaunchRequest(options)), options.subnetId).Err?
    ensures run.1.Ok? ==>
      var launched := LaunchedId(cloud.runInstances(LaunchRequest(options)), options.subnetId);
      && launched.Ok? && cloud.waitForRunning(launched.value).None?
      && run.0[1] == WaitRunning(launched.value)
      && run.0[|run.0| - 1] == AwaitBeacon(run.1.value.address)
  {
    var request := LaunchRequest(options);
    var launched := LaunchedId(cloud.runInstances(request), options.subnetId);
    if launched.Err? then ([Launch(request)], Err(launched.failure))
    else
      var id := launched.value;
      var running := cloud.waitForRunning(id);
      if running.Some? then ([Launch(request), WaitRunning(id)], Err(Wrapped(running.value, RunningContext(id))))
      else
        var given := options.elasticIpAllocationId;
        if !UsesGivenAllocation(given) && cloud.allocateAddress.Error? then
          ([Launch(request), WaitRunning(id), AllocateAddress], Err(Sdk(cloud.allocateAddress.err)))
        else
          var allocating := if UsesGivenAllocation(given) then [] else [AllocateAddress];
          var allocationId := if UsesGivenAllocation(given) then given.value else cloud.allocateAddress.data.allocationId;
          var tail := AssociateRun(cloud, allocationId, id);
          ([Launch(request), WaitRunning(id)] + allocating + tail.0, tail.1)
  }

  /** createMachine: each step awaited before the next. */
  method CreateMachine(cloud: Cloud, options: CreateMachineOptions) returns (steps: seq<Step>, r: Result<Machine>)
    ensures (steps, r) == CreateMachineRun(cloud, options)
    ensures r.Err? && r.failure.NoData? <==> SourceHangs(cloud, options)
  {
    CreateMachineRejectsWhereSourceHangs(cloud, options);
    var request := LaunchRequest(options);
    steps := [Launch(request)];
    var launched := LaunchedId(cloud.runInstances(request), options.subnetId);
    if launched.Err? {
      return steps, Err(launched.failure);
    }
    var id := launched.value;

    steps := steps + [WaitRunning(id)];
    assert steps == [Launch(request), WaitRunning(id)];
    var running := cloud.waitForRunning(id);
    if running.Some? {
      return steps, Err(Wrapped(running.value, RunningContext(id)));
    }

    var allocationId: string;
    if UsesGivenAllocation(options.elasticIpAllocationId) {
      allocationId := options.elasticIpAllocationId.value;
    } else {
      steps := steps + [AllocateAddress];
      assert steps == [Launch(request), WaitRunning(id), AllocateAddress];
      match cloud.allocateAddress
      case Error(err) =>
        return steps, Err(Sdk(err));
      case Data(eip) =>
        allocationId := eip.allocationId;
    }
    var allocating := if UsesGivenAllocation(options.elasticIpAllocationId) then [] else [AllocateAddress];
    assert steps == [Launch(request), WaitRunning(id)] + allocating;
    var tail;
    tail, r := AssociateAndAwait(cloud, allocationId, id);
    steps := steps + tail;
  }

  /** associateElasticIp, getInstanceInformation and waitForCloudInitFinished,
      each awaited before the next. */
  method AssociateAndAwait(cloud: Cloud, allocationId: string, id: string) returns (steps: seq<Step>, r: Result<Machine>)
    ensures (steps, r) == AssociateRun(cloud, allocationId, id)
    ensures r.Err? && r.failure.NoData? <==> AssociationHangs(cloud, allocationId, id)
  {
    AssociateRunRejectsWhereSourceHangs(cloud, allocationId, id);
    steps := [Associate(allocationId, id)];
    var association := cloud.associateAddress(allocationId, id);
    if association.Some? {
      return steps, Err(Wrapped(association.value, AssociateContext(id)));
    }

    steps := steps + [Describe(id)];
    assert steps == [Associate(allocationId, id), Describe(id)];
    var info := InstanceInformation(id, cloud.describeInstances(id));
    if info.Err? {
      return steps, Err(info.failure);
    }
    var machine := info.value;

    steps := steps + [AwaitBeacon(machine.address)];
    assert steps == [Associate(allocationId, id), Describe(id), AwaitBeacon(machine.address)];
    var polled := WaitForCloudInitFinished(cloud.fetchBeacon(machine.address), CloudInitTimeoutMs);
    if polled.Err? {
      return steps, Err(polled.failure);
    }
    r := Ok(machine);
  }

  /** Each step ranks strictly after every step before it. */
  predicate InOrder(steps: seq<Step>) {
    forall i, j :: 0 <= i < j < |steps| ==> Rank(steps[i]) < Rank(steps[j])
  }

  /** Every step a launch can take, the allocation being optional. */
  function FullRun(request: RunInstancesRequest, id: string, allocating: seq<Step>, allocationId: string, address: string): seq<Step> {
    [Launch(request), WaitRunning(id)] + allocating + [Associate(allocationId, id), Describe(id), AwaitBeacon(address)]
  }

  lemma FullRunInOrder(request: RunInstancesRequest, id: string, allocating: seq<Step>, allocationId: string, address: string)
    requires allocating == [] || allocating == [AllocateAddress]
    ensures InOrder(FullRun(request, id, allocating, allocationId, address))
  {
    var full := FullRun(request, id, allocating, allocationId, address);
    if allocating == [] {
      assert full == [Launch(request), WaitRunning(id), Associate(allocationId, id), Describe(id), AwaitBeacon(address)];
    } else {
      assert full == [Launch(request), WaitRunning(id), AllocateAddress, Associate(allocationId, id), Describe(id), AwaitBeacon(address)];
    }
  }

  /** Whatever happens, the steps taken follow the order launch, wait until
      running, allocate, associate, describe, await the beacon, each at most
      once, and the first is the launch of the request built from the options. */
  lemma StepsInOrder(cloud: Cloud, options: CreateMachineOptions)
    ensures var steps := CreateMachineRun(cloud, options).0;
      && |steps| >= 1
      && steps[0] == Launch(LaunchRequest(options))
      && InOrder(steps)
  {
    var request := LaunchRequest(options);
    var launched := LaunchedId(cloud.runInstances(request), options.subnetId);
    var steps := CreateMachineRun(cloud, options).0;
    if launched.Err? {
      assert steps == [Launch(request)];
    } else {
      var id := launched.value;
      var given := options.elasticIpAllocationId;
      if cloud.waitForRunning(id).Some? {
        assert steps == [Launch(request), WaitRunning(id)];
      } else if !UsesGivenAllocation(given) && cloud.allocateAddress.Error? {
        assert steps == [Launch(request), WaitRunning(id), AllocateAddress];
      } else {
        AssociatedStepsInOrder(cloud, options, request, id);
      }
    }
  }

  /** StepsInOrder, once an address is there to associate: the steps are a
      prefix of the full run. */
  lemma AssociatedStepsInOrder(cloud: Cloud, options: CreateMachineOptions, request: RunInstancesRequest, id: string)
    requires request == LaunchRequest(options)
    requires LaunchedId(cloud.runInstances(request), options.subnetId) == Ok(id)
    requires cloud.waitForRunning(id).None?
    requires UsesGivenAllocation(options.elasticIpAllocationId) || cloud.allocateAddress.Data?
    ensures var steps := CreateMachineRun(cloud, options).0;
      && |steps| >= 1
      && steps[0] == Launch(request)
      && InOrder(steps)
  {
    var given := options.elasticIpAllocationId;
    var allocationId := if UsesGivenAllocation(given) then given.value else cloud.allocateAddress.data.allocationId;
    var allocating := if UsesGivenAllocation(given) then [] else [AllocateAddress];
    var tail := AssociateRun(cloud, allocationId, id).0;
    var address := AssociateRunIsPrefix(cloud, allocationId, id);
    var head := [Launch(request), WaitRunning(id)] + allocating;
    var rest := [Associate(allocationId, id), Describe(id), AwaitBeacon(address)];
    var full := FullRun(request, id, allocating, allocationId, address);
    assert full == head + rest;
    FullRunInOrder(request, id, allocating, allocationId, address);
    assert CreateMachineRun(cloud, options).0 == head + tail;
    ExtendedPrefix(head, rest, |tail|);
    PrefixInOrder(full, |head| + |tail|);
  }

  /** The steps from the association on are a non-empty prefix of associate,
      describe, await the beacon at some address. */
  lemma AssociateRunIsPrefix(cloud: Cloud, allocationId: string, id: string) returns (address: string)
    ensures var tail := AssociateRun(cloud, allocationId, id).0;
      1 <= |tail| <= 3 && tail == [Associate(allocationId, id), Describe(id), AwaitBeacon(address)][..|tail|]
  {
    var info := InstanceInformation(id, cloud.describeInstances(id));
    address := if info.Ok? then info.value.address else "";
  }

  lemma ExtendedPrefix(head: seq<Step>, rest: seq<Step>, n: nat)
    requires n <= |rest|
    ensures head + rest[..n] == (head + rest)[..|head| + n]
  {
  }

  lemma PrefixInOrder(steps: seq<Step>, n: nat)
    requires InOrder(steps) && n <= |steps|
    ensures InOrder(steps[..n])
  {
  }

  /** A launch that succeeds took every step; it allocated an address exactly
      when no allocation id was given, associated exactly one, and returns
      the described machine, whose beacon answered with a reset within the
      ten-minute budget after only refusals or answers. */
  lemma {:induction false} SuccessfulLaunch(cloud: Cloud, options: CreateMachineOptions)
    requires CreateMachineRun(cloud, options).1.Ok?
    ensures var (steps, r) := CreateMachineRun(cloud, options);
      var id := LaunchedId(cloud.runInstances(LaunchRequest(options)), options.subnetId).value;
      && (UsesGivenAllocation(options.elasticIpAllocationId) ==>
            steps == [Launch(LaunchRequest(options)), WaitRunning(id),
                      Associate(options.elasticIpAllocationId.value, id), Describe(id), AwaitBeacon(r.value.address)])
      && (!UsesGivenAllocation(options.elasticIpAllocationId) ==>
            steps == [Launch(LaunchRequest(options)), WaitRunning(id), AllocateAddress,
                      Associate(cloud.allocateAddress.data.allocationId, id), Describe(id), AwaitBeacon(r.value.address)])
      && Some(r.value) == (var info := InstanceInformation(id, cloud.describeInstances(id)); if info.Ok? then Some(info.value) else None)
      && exists k: nat :: && k < PollBudget(CloudInitTimeoutMs)
                    && cloud.fetchBeacon(r.value.address)(k) == FetchFailed("ECONNRESET")
                    && forall j :: 0 <= j < k ==> NotYet(cloud.fetchBeacon(r.value.address)(j))
  {
    var r := CreateMachineRun(cloud, options).1;
    var id := LaunchedId(cloud.runInstances(LaunchRequest(options)), options.subnetId).value;
    var given := options.elasticIpAllocationId;
    var allocationId := if UsesGivenAllocation(given) then given.value else cloud.allocateAddress.data.allocationId;
    AssociateRunSucceeded(cloud, allocationId, id);
    var probe := cloud.fetchBeacon(r.value.address);
    var budget := PollBudget(CloudInitTimeoutMs);
    PollFromOutcome(probe, 0, budget);
    var k := PollFrom(probe, 0, budget).value;
    assert k < budget && probe(k) == FetchFailed("ECONNRESET");
  }

  /** The association stage of a successful launch: all three steps, the
      described machine, and a poll that saw the reset. */
  lemma AssociateRunSucceeded(cloud: Cloud, allocationId: string, id: string)
    requires AssociateRun(cloud, allocationId, id).1.Ok?
    ensures var (tail, r) := AssociateRun(cloud, allocationId, id);
      && tail == [Associate(allocationId, id), Describe(id), AwaitBeacon(r.value.address)]
      && InstanceInformation(id, cloud.describeInstances(id)) == r
      && PollFrom(cloud.fetchBeacon(r.value.address), 0, PollBudget(CloudInitTimeoutMs)).Ok?
  {
  }

  /** No step allocates an address, and every association uses `allocationId`. */
  predicate AssociatesOnly(steps: seq<Step>, allocationId: string) {
    forall s :: s in steps ==> !s.AllocateAddress? && (s.Associate? ==> s.allocationId == allocationId)
  }

  /** The runs that allocate nothing associate only the given allocation. */
  lemma RunsWithoutAllocation(request: RunInstancesRequest, id: string, allocationId: string, address: string, tail: seq<Step>)
    requires |tail| <= 3 && tail == [Associate(allocationId, id), Describe(id), AwaitBeacon(address)][..|tail|]
    ensures AssociatesOnly([Launch(request)], allocationId)
    ensures AssociatesOnly([Launch(request), WaitRunning(id)], allocationId)
    ensures AssociatesOnly([Launch(request), WaitRunning(id)] + tail, allocationId)
  {
    var run := [Launch(request), WaitRunning(id)] + tail;
    forall i | 0 <= i < |run|
      ensures !run[i].AllocateAddress? && (run[i].Associate? ==> run[i].allocationId == allocationId)
    {
      if i >= 2 {
        assert run[i] == tail[i - 2];
      }
    }
  }

  /** With an allocation id given, createMachine allocates no address and
      associates only the given one. */
  lemma GivenAllocationIsUsed(cloud: Cloud, options: CreateMachineOptions)
    requires UsesGivenAllocation(options.elasticIpAllocationId)
    ensures AssociatesOnly(CreateMachineRun(cloud, options).0, options.elasticIpAllocationId.value)
  {
    var request := LaunchRequest(options);
    var launched := LaunchedId(cloud.runInstances(request), options.subnetId);
    var allocationId := options.elasticIpAllocationId.value;
    var steps := CreateMachineRun(cloud, options).0;
    if launched.Err? {
      RunsWithoutAllocation(request, "", allocationId, "", []);
      assert steps == [Launch(request)];
    } else {
      var id := launched.value;
      var address := AssociateRunIsPrefix(cloud, allocationId, id);
      var tail := AssociateRun(cloud, allocationId, id).0;
      RunsWithoutAllocation(request, id, allocationId, address, tail);
      if cloud.waitForRunning(id).Some? {
        assert steps == [Launch(request), WaitRunning(id)];
      } else {
        assert steps == [Launch(request), WaitRunning(id)] + tail;
      }
    }
  }

  /** Polling fails only with a fetch's network error or the timeout. */
  lemma {:induction false} PollFailureKinds(probe: nat -> FetchOutcome, i: nat, budget: nat)
    ensures var r := PollFrom(probe, i, budget);
      r.Err? ==> r.failure.Network? || r.failure == Plain(TimeoutMessage)
    decreases budget - i
  {
    if i < budget && IsCloudInitFinished(probe(i)) == Ok(false) {
      PollFailureKinds(probe, i + 1, budget);
    }
  }

  /** The source's association stage never settles: the association
      succeeded and the describe reply, carrying no error, lacks a first
      instance. */
  predicate AssociationHangs(cloud: Cloud, allocationId: string, id: string) {
    && cloud.associateAddress(allocationId, id).None?
    && InstanceInformationAsWritten(id, cloud.describeInstances(id)).NeverSettles?
  }

  /** The source's createMachine never settles: its launch check hangs, or
      every step before the describe succeeded and the describe check hangs. */
  predicate SourceHangs(cloud: Cloud, options: CreateMachineOptions) {
    var launched := LaunchedIdAsWritten(cloud.runInstances(LaunchRequest(options)), options.subnetId);
    var given := options.elasticIpAllocationId;
    || launched.NeverSettles?
    || (&& launched.Resolved?
        && cloud.waitForRunning(launched.value).None?
        && (UsesGivenAllocation(given) || cloud.allocateAddress.Data?)
        && AssociationHangs(cloud,
             if UsesGivenAllocation(given) then given.value else cloud.allocateAddress.data.allocationId,
             launched.value))
  }

  /** The association stage rejects with the corrected `NoData` exactly where
      the source's hangs. */
  lemma AssociateRunRejectsWhereSourceHangs(cloud: Cloud, allocationId: string, id: string)
    ensures var r := AssociateRun(cloud, allocationId, id).1;
      r.Err? && r.failure.NoData? <==> AssociationHangs(cloud, allocationId, id)
  {
    var info := InstanceInformation(id, cloud.describeInstances(id));
    InstanceInformationRefinesAsWritten(id, cloud.describeInstances(id));
    if info.Ok? {
      PollFailureKinds(cloud.fetchBeacon(info.value.address), 0, PollBudget(CloudInitTimeoutMs));
    }
  }

  /** The corrected workflow departs from the source only where the source
      never settles: there, and only there, it rejects with `NoData`. Every
      other rejection is one the source makes too. */
  lemma CreateMachineRejectsWhereSourceHangs(cloud: Cloud, options: CreateMachineOptions)
    ensures var r := CreateMachineRun(cloud, options).1;
      r.Err? && r.failure.NoData? <==> SourceHangs(cloud, options)
  {
    var reply := cloud.runInstances(LaunchRequest(options));
    LaunchedIdRefinesAsWritten(reply, options.subnetId);
    var launched := LaunchedId(reply, options.subnetId);
    var given := options.elasticIpAllocationId;
    if launched.Ok? && cloud.waitForRunning(launched.value).None? && (UsesGivenAllocation(given) || cloud.allocateAddress.Data?) {
      var allocationId := if UsesGivenAllocation(given) then given.value else cloud.allocateAddress.data.allocationId;
      AssociateRunRejectsWhereSourceHangs(cloud, allocationId, launched.value);
    }
  }
}
