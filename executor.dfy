/** The test doubles the buildd base is driven through: the recording executor
    of the unit tests, the registry of fake processes it issues its commands
    to, and the wall clock. */
module Fakes {
  import opened Wrappers

  /** An environment passed with a command: `Dict[str, Optional[str]]` in
      insertion order; `None` unsets a variable. */
  type Env = seq<(string, Option<string>)>

  /** `env_cmd.formulate_command`: the argument prefix that applies an
      environment and an optional working directory. */
  type EnvFormatter = (Env, Option<string>) -> seq<string>

  /** One `push_file_io` call: destination, decoded content, mode and owner. */
  datatype FileRecord = FileRecord(destination: string, content: string, fileMode: string, group: string, user: string)

  /** One `pull_file` or `push_file` call. */
  datatype TransferRecord = TransferRecord(source: string, destination: string)

  /** A registered answer for one invocation of a command. */
  datatype Response = Response(returnCode: int, stdout: string)

  /** A finished process, as `subprocess.run` returns it. */
  datatype Completed = Completed(args: seq<string>, returnCode: int, stdout: string)

  /** What invoking a command gives: its process, or the registry's refusal
      of a command with no answer left (`ProcessNotRegisteredError`). */
  datatype RunResult = Ran(process: Completed) | NotRegistered(args: seq<string>)

  /** The fake process registry: the answers still queued per command line,
      and every command line answered so far. */
  datatype Registry = Registry(responses: map<seq<string>, seq<Response>>, calls: seq<seq<string>>)

  /** The arguments that apply `env` (and `cwd`): none at all without an environment. */
  function EnvArgs(formulate: EnvFormatter, env: Option<Env>, cwd: Option<string>): seq<string> {
    match env
    case None => []
    case Some(e) => formulate(e, cwd)
  }

  /** The command line the fake executor hands to `subprocess`. */
  function IssuedCommand(formulate: EnvFormatter, env: Option<Env>, cwd: Option<string>,
                         command: seq<string>): (argv: seq<string>)
    ensures |argv| == 1 + |EnvArgs(formulate, env, cwd)| + |command|
    ensures argv[0] == "fake-executor"
    ensures argv[|argv| - |command|..] == command
  {
    ["fake-executor"] + EnvArgs(formulate, env, cwd) + command
  }

  /** Without an environment the command runs as given behind the executor's
      name, whatever the working directory. */
  lemma IssuedWithoutEnv(formulate: EnvFormatter, cwd: Option<string>, command: seq<string>)
    ensures IssuedCommand(formulate, None, cwd, command) == ["fake-executor"] + command
  {
  }

  /** The prefix a command line gets does not depend on the command. */
  lemma IssuedPrefix(formulate: EnvFormatter, env: Option<Env>, cwd: Option<string>, command: seq<string>)
    ensures IssuedCommand(formulate, env, cwd, command) == IssuedCommand(formulate, env, cwd, []) + command
  {
  }

  /** How many answers are still queued for `argv`. */
  function Pending(responses: map<seq<string>, seq<Response>>, argv: seq<string>): nat {
    if argv in responses then |responses[argv]| else 0
  }

  /** The answer the next invocation of `argv` gets, if any is left. */
  function Head(responses: map<seq<string>, seq<Response>>, argv: seq<string>): Option<Response> {
    if Pending(responses, argv) > 0 then Some(responses[argv][0]) else None
  }

  /** The registry answering `argv`: the first queued answer is consumed and the
      call recorded; a command with none left is refused and nothing changes. */
  function Dispatch(reg: Registry, argv: seq<string>): (out: (RunResult, Registry))
    ensures Head(reg.responses, argv).Some? <==> out.0.Ran?
    ensures out.0.Ran? ==>
              var h := Head(reg.responses, argv).value;
              && out.0.process == Completed(argv, h.returnCode, h.stdout)
              && Pending(out.1.responses, argv) == Pending(reg.responses, argv) - 1
              && out.1.calls == reg.calls + [argv]
    ensures out.0.NotRegistered? ==> out.0.args == argv && out.1 == reg
  {
    match Head(reg.responses, argv)
    case None => (NotRegistered(argv), reg)
    case Some(h) =>
      (Ran(Completed(argv, h.returnCode, h.stdout)),
       Registry(reg.responses[argv := reg.responses[argv][1..]], reg.calls + [argv]))
  }

  /** Answering `argv` leaves every other command line's answers as they were. */
  lemma DispatchLeavesOthers(reg: Registry, argv: seq<string>, other: seq<string>)
    requires other != argv
    ensures Head(Dispatch(reg, argv).1.responses, other) == Head(reg.responses, other)
    ensures Pending(Dispatch(reg, argv).1.responses, other) == Pending(reg.responses, other)
  {
  }

  /** The `fake_process` fixture of pytest-subprocess. */
  class FakeProcess {
    var responses: map<seq<string>, seq<Response>>
    var calls: seq<seq<string>>

    constructor ()
      ensures responses == map[] && calls == []
    {
      responses := map[];
      calls := [];
    }

    /** `fake_process.register_subprocess(command, stdout=..., returncode=...)`:
        queues one more answer for the command line. */
    method RegisterSubprocess(argv: seq<string>, stdout: string := "", returnCode: int := 0)
      modifies this
      ensures responses == old(responses)[argv := (if argv in old(responses) then old(responses)[argv] else []) + [Response(returnCode, stdout)]]
      ensures calls == old(calls)
    {
      var queued := if argv in responses then responses[argv] else [];
      responses := responses[argv := queued + [Response(returnCode, stdout)]];
    }

    /** Starts the command line: the registry answers it (see `Dispatch`). */
    method Run(argv: seq<string>) returns (r: RunResult)
      modifies this
      ensures (r, Registry(responses, calls)) == Dispatch(old(Registry(responses, calls)), argv)
    {
      if argv in responses && |responses[argv]| > 0 {
        var h := responses[argv][0];
        responses := responses[argv := responses[argv][1..]];
        calls := calls + [argv];
        r := Ran(Completed(argv, h.returnCode, h.stdout));
      } else {
        r := NotRegistered(argv);
      }
    }
  }

  /** The `FakeExecutor` of the unit tests: it records every file operation
      and runs every command through the fake process registry, behind its
      own name and the environment prefix. */
  class FakeExecutor {
    const formulate: EnvFormatter
    var recordsOfPushFileIo: seq<FileRecord>
    var recordsOfPullFile: seq<TransferRecord>
    var recordsOfPushFile: seq<TransferRecord>

    constructor (formulate: EnvFormatter)
      ensures this.formulate == formulate
      ensures recordsOfPushFileIo == [] && recordsOfPullFile == [] && recordsOfPushFile == []
    {
      this.formulate := formulate;
      recordsOfPushFileIo := [];
      recordsOfPullFile := [];
      recordsOfPushFile := [];
    }

    /** Records the file written; the owner defaults to root:root. */
    method PushFileIo(destination: string, content: string, fileMode: string,
                      group: string := "root", user: string := "root")
      modifies this`recordsOfPushFileIo
      ensures recordsOfPushFileIo == old(recordsOfPushFileIo) + [FileRecord(destination, content, fileMode, group, user)]
    {
      recordsOfPushFileIo := recordsOfPushFileIo + [FileRecord(destination, content, fileMode, group, user)];
    }

    /** `execute_run`: runs the issued command line to completion. */
    method ExecuteRun(fp: FakeProcess, command: seq<string>, cwd: Option<string> := None, env: Option<Env> := None)
      returns (r: RunResult)
      modifies fp
      ensures (r, Registry(fp.responses, fp.calls)) ==
              Dispatch(old(Registry(fp.responses, fp.calls)), IssuedCommand(formulate, env, cwd, command))
    {
      r := fp.Run(IssuedCommand(formulate, env, cwd, command));
    }

    /** `execute_popen`: in the fake, the same registry answer as `execute_run`. */
    method ExecutePopen(fp: FakeProcess, command: seq<string>, cwd: Option<string> := None, env: Option<Env> := None)
      returns (r: RunResult)
      modifies fp
      ensures (r, Registry(fp.responses, fp.calls)) ==
              Dispatch(old(Registry(fp.responses, fp.calls)), IssuedCommand(formulate, env, cwd, command))
    {
      r := fp.Run(IssuedCommand(formulate, env, cwd, command));
    }

    method PullFile(source: string, destination: string)
      modifies this`recordsOfPullFile
      ensures recordsOfPullFile == old(recordsOfPullFile) + [TransferRecord(source, destination)]
    {
      recordsOfPullFile := recordsOfPullFile + [TransferRecord(source, destination)];
    }

    method PushFile(source: string, destination: string)
      modifies this`recordsOfPushFile
      ensures recordsOfPushFile == old(recordsOfPushFile) + [TransferRecord(source, destination)]
    {
      recordsOfPushFile := recordsOfPushFile + [TransferRecord(source, destination)];
    }

    /** `delete` does nothing in the fake. */
    method Delete()
    {
    }

    /** `exists` always answers yes in the fake. */
    method Exists() returns (b: bool)
      ensures b
    {
      b := true;
    }
  }

  /** `time.time` as the tests patch it: the `n`-th reading gives `now(n)`. */
  class Clock {
    const now: nat -> int
    var readings: nat

    constructor (now: nat -> int)
      ensures this.now == now && readings == 0
    {
      this.now := now;
      readings := 0;
    }

    method Time() returns (t: int)
      modifies this
      ensures t == now(old(readings)) && readings == old(readings) + 1
    {
      t := now(readings);
      readings := readings + 1;
    }
  }
}
