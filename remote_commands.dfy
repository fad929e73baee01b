/** executeCommandsInMachine (src/functions/executeCommandsInMachine.ts):
    connect over ssh with a bounded number of attempts, then run commands
    one at a time, stopping at the first that does not exit with 0. The ssh
    handshakes and the remote streams are oracles. */
module RemoteCommands {
  import opened Common

  /** How one connection attempt ends: a "ready" or an "error" event. */
  datatype Handshake = Ready | HandshakeError(code: string)

  /** One "data" event of the command's stream: on stdout or on stderr. */
  datatype Chunk = Stdout(data: string) | Stderr(data: string)

  /** The answer to one `exec`: an error, or the chunks in arrival order and
      the exit code the "close" event carries. */
  datatype ExecReply = ExecError(code: string) | Stream(chunks: seq<Chunk>, exitCode: int)

  /** Everything the command wrote on stdout, in arrival order. */
  function StdoutOf(chunks: seq<Chunk>): string {
    if chunks == [] then ""
    else (if chunks[0].Stdout? then chunks[0].data else "") + StdoutOf(chunks[1..])
  }

  /** Everything the command wrote on stderr, in arrival order. */
  function StderrOf(chunks: seq<Chunk>): string {
    if chunks == [] then ""
    else (if chunks[0].Stderr? then chunks[0].data else "") + StderrOf(chunks[1..])
  }

  /** Output gathered over two stretches of events is the output of the
      first followed by that of the second. */
  lemma {:induction false} StdoutOfConcatenation(a: seq<Chunk>, b: seq<Chunk>)
    ensures StdoutOf(a + b) == StdoutOf(a) + StdoutOf(b)
  {
    if a == [] {
      assert a + b == b;
    } else {
      assert (a + b)[0] == a[0] && (a + b)[1..] == a[1..] + b;
      StdoutOfConcatenation(a[1..], b);
    }
  }

  lemma {:induction false} StderrOfConcatenation(a: seq<Chunk>, b: seq<Chunk>)
    ensures StderrOf(a + b) == StderrOf(a) + StderrOf(b)
  {
    if a == [] {
      assert a + b == b;
    } else {
      assert (a + b)[0] == a[0] && (a + b)[1..] == a[1..] + b;
      StderrOfConcatenation(a[1..], b);
    }
  }

  /** sendCommand: stdout and stderr start empty and each "data" event
      appends to its own stream; an exec error rejects with no result. */
  method SendCommand(reply: ExecReply) returns (r: Result<CommandResult>)
    ensures reply.ExecError? ==> r == Err(Network(reply.code))
    ensures reply.Stream? ==>
      r == Ok(CommandResult(reply.exitCode, StdoutOf(reply.chunks), StderrOf(reply.chunks)))
  {
    if reply.ExecError? {
      return Err(Network(reply.code));
    }
    var chunks := reply.chunks;
    var stdout, stderr := "", "";
    var i := 0;
    while i < |chunks|
      invariant i <= |chunks|
      invariant stdout == StdoutOf(chunks[..i])
      invariant stderr == StderrOf(chunks[..i])
    {
      match chunks[i] {
        case Stdout(data) => stdout := stdout + data;
        case Stderr(data) => stderr := stderr + data;
      }
      StdoutOfConcatenation(chunks[..i], [chunks[i]]);
      StderrOfConcatenation(chunks[..i], [chunks[i]]);
      assert chunks[..i + 1] == chunks[..i] + [chunks[i]];
      i := i + 1;
    }
    assert chunks[..i] == chunks;
    r := Ok(CommandResult(reply.exitCode, stdout, stderr));
  }

  /** Some attempt, from the first to the last allowed, gets a "ready". */
  predicate Connects(handshake: nat -> Handshake, maxAttempts: nat) {
    exists attempt :: 1 <= attempt <= maxAttempts && handshake(attempt) == Ready
  }

  /** initConnection: attempts count from 1; an error on the last allowed
      attempt rejects with that error, an error before it retries with the
      next attempt, and the first "ready" resolves. `maxAttempts` stands for
      SSH_MAX_ATTEMPTS, which must be at least 1 for the retries to stop. */
  method InitConnection(handshake: nat -> Handshake, maxAttempts: nat) returns (attempts: nat, r: Result<()>)
    requires maxAttempts >= 1
    ensures 1 <= attempts <= maxAttempts
    ensures forall a :: 1 <= a < attempts ==> handshake(a).HandshakeError?
    ensures r.Ok? <==> handshake(attempts) == Ready
    ensures r.Ok? <==> Connects(handshake, maxAttempts)
    ensures r.Err? ==> attempts == maxAttempts && r.failure == Network(handshake(attempts).code)
  {
    attempts := 1;
    while true
      invariant 1 <= attempts <= maxAttempts
      invariant forall a :: 1 <= a < attempts ==> handshake(a).HandshakeError?
      decreases maxAttempts - attempts
    {
      match handshake(attempts) {
        case Ready =>
          return attempts, Ok(());
        case HandshakeError(code) =>
          if attempts == maxAttempts {
            return attempts, Err(Network(code));
          }
      }
      attempts := attempts + 1;
    }
  }

  /** The command exited with 0. */
  predicate Succeeds(reply: ExecReply) {
    reply.Stream? && reply.exitCode == 0
  }

  /** The failure a command that did not succeed rejects with. */
  function CommandFailure(command: string, reply: ExecReply): Failure {
    match reply
    case ExecError(code) => Network(code)
    case Stream(chunks, exitCode) =>
      CommandFailed(command, CommandResult(exitCode, StdoutOf(chunks), StderrOf(chunks)))
  }

  /** executeCommandsInMachine: `reply(k, c)` answers the k-th command sent,
      `c`. Returns the commands sent, in order, and whether the connection
      was closed. Commands go out in list order, each after the previous one
      exited with 0; the first that does not is the last sent, and the
      connection is closed only when all of them exited with 0. */
  method ExecuteCommandsInMachine(
    commands: seq<string>,
    handshake: nat -> Handshake,
    maxAttempts: nat,
    reply: (nat, string) -> ExecReply
  ) returns (sent: seq<string>, closed: bool, r: Result<()>)
    requires maxAttempts >= 1
    ensures |sent| <= |commands| && sent == commands[..|sent|]
    ensures forall k :: 0 <= k < |sent| - 1 ==> Succeeds(reply(k, sent[k]))
    ensures !Connects(handshake, maxAttempts) ==>
      && sent == [] && !closed
      && handshake(maxAttempts).HandshakeError?
      && r == Err(Network(handshake(maxAttempts).code))
    ensures Connects(handshake, maxAttempts) && commands != [] ==> sent != []
    ensures r.Ok? <==>
      && Connects(handshake, maxAttempts)
      && forall k :: 0 <= k < |commands| ==> Succeeds(reply(k, commands[k]))
    ensures r.Ok? ==> sent == commands
    ensures closed <==> r.Ok?
    ensures r.Err? && sent != [] ==>
      && !Succeeds(reply(|sent| - 1, sent[|sent| - 1]))
      && r.failure == CommandFailure(sent[|sent| - 1], reply(|sent| - 1, sent[|sent| - 1]))
  {
    sent, closed := [], false;
    var attempts, connection := InitConnection(handshake, maxAttempts);
    if connection.Err? {
      return sent, closed, Err(connection.failure);
    }
    var k := 0;
    while k < |commands|
      invariant k <= |commands|
      invariant sent == commands[..k]
      invariant forall j :: 0 <= j < k ==> Succeeds(reply(j, commands[j]))
    {
      var command := commands[k];
      sent := sent + [command];
      var answer := reply(k, command);
      var result := SendCommand(answer);
      if result.Err? {
        return sent, closed, Err(result.failure);
      }
      if result.value.exitCode != 0 {
        return sent, closed, Err(CommandFailed(command, result.value));
      }
      assert commands[..k + 1] == commands[..k] + [command];
      k := k + 1;
    }
    assert commands[..k] == commands;
    closed := true;
    r := Ok(());
  }

  /** Given ["true", "false", "true"], where only "false" exits with 1, the
      executor sends the first two commands, fails on the second and never
      sends the third. */
  method StopsAtFirstFailure() returns (sent: seq<string>, closed: bool, r: Result<()>)
    ensures sent == ["true", "false"] && !closed
    ensures r == Err(CommandFailed("false", CommandResult(1, "", "")))
  {
    var commands := ["true", "false", "true"];
    var handshake: nat -> Handshake := _ => Ready;
    var reply: (nat, string) -> ExecReply := (_, c) => if c == "false" then Stream([], 1) else Stream([], 0);
    assert handshake(1) == Ready;
    sent, closed, r := ExecuteCommandsInMachine(commands, handshake, 1, reply);
    assert !Succeeds(reply(1, commands[1]));
    assert r.Err? && sent != [];
    assert Succeeds(reply(0, commands[0]));
    assert |sent| == 2;
  }
}
