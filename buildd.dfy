/** Provisioning a buildd base instance: `setup` and `wait_until_ready`.

    Every operation is a method on the fake executor, the fake process registry
    and the clock, and is specified by a function over a `Machine`, the part
    of that state the base can observe and change: the files written, the
    registry (answers queued per command line, calls made) and how many times
    the clock was read. */
module Buildd {
  import opened Wrappers
  import opened Text
  import opened Fakes
  import opened Bases

  datatype Machine = Machine(files: seq<FileRecord>, registry: Registry, readings: nat)

  /** What a provisioning step raises. */
  datatype Failure =
    | ConfigurationError(brief: string, details: Option<Completed>)  // BaseConfigurationError
    | CompatibilityError(mismatch: Mismatch)                         // BaseCompatibilityError
    | Unregistered(args: seq<string>)                                // a command the registry has no answer for

  type Step = (Outcome<Failure>, Machine)

  ghost function Observe(ex: FakeExecutor, fp: FakeProcess, clock: Clock): Machine
    reads ex, fp, clock
  {
    Machine(ex.recordsOfPushFileIo, Registry(fp.responses, fp.calls), clock.readings)
  }

  // ---------------------------------------------------------------------
  // Constants
  // ---------------------------------------------------------------------

  const EnvironmentPath: string := "/etc/environment"
  const HostnamePath: string := "/etc/hostname"
  const NetworkConfigPath: string := "/etc/systemd/network/10-eth0.network"
  const AptConfigPath: string := "/etc/apt/apt.conf.d/00no-recommends"

  /** systemd-networkd configuration: DHCP on eth0. */
  const NetworkConfig: string :=
    "[Match]\nName=eth0\n\n[Network]\nDHCP=ipv4\nLinkLocalAddressing=ipv6\n\n[DHCP]\nRouteMetric=100\nUseMTU=true\n"
  const AptConfig: string := "Apt::Install-Recommends \"false\";\n"

  const ConfigureTimeout: string := "Timed out configuring environment."
  const HostnameFailed: string := "Failed to set hostname."
  const ResolvedFailed: string := "Failed to setup systemd-resolved."
  const NetworkdFailed: string := "Failed to setup systemd-networkd."
  const AptFailed: string := "Failed to setup apt."
  const SnapdFailed: string := "Failed to setup snapd."

  const OsReleaseCommand: seq<string> := ["cat", "/etc/os-release"]
  const HostnameCommands: seq<seq<string>> := [["hostname", "-F", "/etc/hostname"]]
  const ResolvedCommands: seq<seq<string>> := [
    ["ln", "-sf", "/run/systemd/resolve/resolv.conf", "/etc/resolv.conf"],
    ["systemctl", "enable", "systemd-resolved"],
    ["systemctl", "restart", "systemd-resolved"]]
  const NetworkdCommands: seq<seq<string>> := [
    ["systemctl", "enable", "systemd-networkd"],
    ["systemctl", "restart", "systemd-networkd"]]
  const AptCommands: seq<seq<string>> := [
    ["apt-get", "update"],
    ["apt-get", "install", "-y", "apt-utils"]]
  const SnapdCommands: seq<seq<string>> := [
    ["apt-get", "install", "-y", "fuse", "udev"],
    ["systemctl", "enable", "systemd-udevd"],
    ["systemctl", "start", "systemd-udevd"],
    ["apt-get", "install", "-y", "snapd"],
    ["systemctl", "start", "snapd.socket"],
    ["systemctl", "restart", "snapd.service"],
    ["snap", "wait", "system", "seed.loaded"]]

  /** A configuration file as setup writes it: mode 0644, owned by root:root. */
  function ConfigFile(path: string, content: string): FileRecord {
    FileRecord(path, content, "0644", "root", "root")
  }

  /** /etc/environment: one `KEY=value` line per variable of the base. */
  function EnvironmentFile(b: BuilddBase): FileRecord {
    ConfigFile(EnvironmentPath, RenderPairs(b.commandEnvironment, '='))
  }

  function HostnameFile(b: BuilddBase): FileRecord {
    ConfigFile(HostnamePath, b.hostname + "\n")
  }

  const NetworkFile: FileRecord := ConfigFile(NetworkConfigPath, NetworkConfig)
  const AptFile: FileRecord := ConfigFile(AptConfigPath, AptConfig)

  /** The four files a successful setup writes, in order. */
  function SetupFiles(b: BuilddBase): seq<FileRecord> {
    [EnvironmentFile(b), HostnameFile(b), NetworkFile, AptFile]
  }

  /** The base's environment as commands receive it: every variable set. */
  function CommandEnv(ps: seq<(string, string)>): (env: Env)
    ensures |env| == |ps|
    ensures forall i :: 0 <= i < |ps| ==> env[i] == (ps[i].0, Some(ps[i].1))
    decreases |ps|
  {
    if ps == [] then [] else [(ps[0].0, Some(ps[0].1))] + CommandEnv(ps[1..])
  }

  /** What precedes every command the base runs: the executor's name and the
      arguments that apply the base's environment. */
  function Prefix(formulate: EnvFormatter, b: BuilddBase): seq<string> {
    IssuedCommand(formulate, Some(CommandEnv(b.commandEnvironment)), None, [])
  }

  // ---------------------------------------------------------------------
  // Specification of the steps
  // ---------------------------------------------------------------------

  /** Runs `pre + cmd` without looking at its exit code. */
  function RunSpec(pre: seq<string>, cmd: seq<string>, m: Machine): (RunResult, Machine) {
    var (r, reg) := Dispatch(m.registry, pre + cmd);
    (r, m.(registry := reg))
  }

  /** Runs `pre + cmd`; a non-zero exit fails with `brief` and the process as details. */
  function CheckedRunSpec(pre: seq<string>, cmd: seq<string>, brief: string, m: Machine): Step {
    var (r, m1) := RunSpec(pre, cmd, m);
    match r
    case NotRegistered(a) => (Fail(Unregistered(a)), m1)
    case Ran(c) => (if c.returnCode == 0 then Pass else Fail(ConfigurationError(brief, Some(c))), m1)
  }

  /** Runs the commands in order, stopping at the first failure. */
  function CheckedRunsSpec(pre: seq<string>, cmds: seq<seq<string>>, brief: string, m: Machine): (s: Step)
    ensures s.1.files == m.files && s.1.readings == m.readings
    ensures |s.1.registry.calls| <= |m.registry.calls| + |cmds|
    decreases |cmds|
  {
    if cmds == [] then (Pass, m)
    else
      var (o, m1) := CheckedRunSpec(pre, cmds[0], brief, m);
      if o.Fail? then (o, m1) else CheckedRunsSpec(pre, cmds[1..], brief, m1)
  }

  /** Reads the clock (only when there is a deadline) and fails with `brief`
      once it has reached the deadline. */
  function DeadlineSpec(now: nat -> int, deadline: Option<int>, brief: string, m: Machine): (s: Step)
    ensures s.1.files == m.files && s.1.registry == m.registry
  {
    match deadline
    case None => (Pass, m)
    case Some(d) =>
      (if now(m.readings) >= d then Fail(ConfigurationError(brief, None)) else Pass,
       m.(readings := m.readings + 1))
  }

  /** The deadline is the clock at entry plus the timeout; none without a timeout. */
  function StartSpec(now: nat -> int, timeout: Option<int>, m: Machine): (Option<int>, Machine) {
    match timeout
    case None => (None, m)
    case Some(t) => (Some(now(m.readings) + t), m.(readings := m.readings + 1))
  }

  /** `_setup_environment`: writes /etc/environment from the base's environment. */
  function EnvironmentSpec(b: BuilddBase, now: nat -> int, deadline: Option<int>, m: Machine): Step {
    var (o, m1) := DeadlineSpec(now, deadline, ConfigureTimeout, m);
    if o.Fail? then (o, m1)
    else (Pass, m1.(files := m1.files + [EnvironmentFile(b)]))
  }

  /** The OS check of setup: reads /etc/os-release and refuses another OS. */
  function OsSpec(b: BuilddBase, pre: seq<string>, now: nat -> int, deadline: Option<int>, m: Machine): (s: Step)
    ensures s.1.files == m.files
  {
    var (o, m1) := DeadlineSpec(now, deadline, ConfigureTimeout, m);
    if o.Fail? then (o, m1)
    else
      var (r, m2) := RunSpec(pre, OsReleaseCommand, m1);
      match r
      case NotRegistered(a) => (Fail(Unregistered(a)), m2)
      case Ran(c) =>
        match OsMismatch(c.stdout, b.alias)
        case Some(mm) => (Fail(CompatibilityError(mm)), m2)
        case None => (Pass, m2)
  }

  /** A configuration step: check the deadline, write its file if it has one,
      then run its commands, failing with its brief. */
  function ConfigStepSpec(pre: seq<string>, now: nat -> int, deadline: Option<int>, file: Option<FileRecord>,
                          cmds: seq<seq<string>>, brief: string, m: Machine): (s: Step)
    ensures s.0.Pass? ==> s.1.files == m.files + (if file.Some? then [file.value] else [])
  {
    var (o, m1) := DeadlineSpec(now, deadline, ConfigureTimeout, m);
    if o.Fail? then (o, m1)
    else
      var m2 := if file.Some? then m1.(files := m1.files + [file.value]) else m1;
      CheckedRunsSpec(pre, cmds, brief, m2)
  }

  function HostnameSpec(b: BuilddBase, pre: seq<string>, now: nat -> int, deadline: Option<int>, m: Machine): Step {
    ConfigStepSpec(pre, now, deadline, Some(HostnameFile(b)), HostnameCommands, HostnameFailed, m)
  }

  function ResolvedSpec(pre: seq<string>, now: nat -> int, deadline: Option<int>, m: Machine): Step {
    ConfigStepSpec(pre, now, deadline, None, ResolvedCommands, ResolvedFailed, m)
  }

  function NetworkdSpec(pre: seq<string>, now: nat -> int, deadline: Option<int>, m: Machine): Step {
    ConfigStepSpec(pre, now, deadline, Some(NetworkFile), NetworkdCommands, NetworkdFailed, m)
  }

  function AptSpec(pre: seq<string>, now: nat -> int, deadline: Option<int>, m: Machine): Step {
    ConfigStepSpec(pre, now, deadline, Some(AptFile), AptCommands, AptFailed, m)
  }

  function SnapdSpec(pre: seq<string>, now: nat -> int, deadline: Option<int>, m: Machine): Step {
    ConfigStepSpec(pre, now, deadline, None, SnapdCommands, SnapdFailed, m)
  }

  // ---------------------------------------------------------------------
  // Polling
  // ---------------------------------------------------------------------

  /** The states of `systemctl is-system-running` that count as ready. */
  predicate ReadyState(state: string) {
    state == "degraded" || state == "running"
  }

  /** systemd is ready when it reports a ready state, whatever the exit code. */
  predicate SystemReady(returnCode: int, stdout: string) {
    ReadyState(Trim(stdout))
  }

  /** The network is ready when the name lookup succeeds. */
  predicate NetworkReady(returnCode: int, stdout: string) {
    returnCode == 0
  }

  /** A readiness check of `wait_until_ready`: the command it runs, how it
      reads the answer and what it raises on timing out. */
  datatype Probe = Probe(command: seq<string>, ready: (int, string) -> bool, timeoutBrief: string)

  const SystemProbe: Probe :=
    Probe(["systemctl", "is-system-running"], SystemReady, "Timed out waiting for environment to be ready.")
  const NetworkProbe: Probe :=
    Probe(["getent", "hosts", "snapcraft.io"], NetworkReady, "Timed out waiting for networking to be ready.")

  /** Runs the probe until it reports ready; after each failed attempt the
      deadline is checked. Ends because every attempt consumes an answer. */
  function PollSpec(pre: seq<string>, p: Probe, now: nat -> int, deadline: Option<int>, m: Machine): (s: Step)
    ensures s.1.files == m.files
    decreases Pending(m.registry.responses, pre + p.command)
  {
    var (r, m1) := RunSpec(pre, p.command, m);
    match r
    case NotRegistered(a) => (Fail(Unregistered(a)), m1)
    case Ran(c) =>
      if p.ready(c.returnCode, c.stdout) then (Pass, m1)
      else
        var (o, m2) := DeadlineSpec(now, deadline, p.timeoutBrief, m1);
        if o.Fail? then (o, m2) else PollSpec(pre, p, now, deadline, m2)
  }

  // ---------------------------------------------------------------------
  // setup and wait_until_ready
  // ---------------------------------------------------------------------

  /** The first stage of setup: the OS check, /etc/environment, waiting for
      systemd, and the hostname. */
  function BaseStageSpec(b: BuilddBase, pre: seq<string>, now: nat -> int, deadline: Option<int>, m: Machine): (s: Step)
    ensures s.0.Pass? ==> s.1.files == m.files + [EnvironmentFile(b), HostnameFile(b)]
  {
    var (o1, m1) := OsSpec(b, pre, now, deadline, m);
    if o1.Fail? then (o1, m1) else
    var (o2, m2) := EnvironmentSpec(b, now, deadline, m1);
    if o2.Fail? then (o2, m2) else
    var (o3, m3) := PollSpec(pre, SystemProbe, now, deadline, m2);
    if o3.Fail? then (o3, m3) else
    HostnameSpec(b, pre, now, deadline, m3)
  }

  /** The second stage: systemd-resolved, systemd-networkd, waiting for the network. */
  function NetworkStageSpec(pre: seq<string>, now: nat -> int, deadline: Option<int>, m: Machine): (s: Step)
    ensures s.0.Pass? ==> s.1.files == m.files + [NetworkFile]
  {
    var (o1, m1) := ResolvedSpec(pre, now, deadline, m);
    if o1.Fail? then (o1, m1) else
    var (o2, m2) := NetworkdSpec(pre, now, deadline, m1);
    if o2.Fail? then (o2, m2) else
    PollSpec(pre, NetworkProbe, now, deadline, m2)
  }

  /** The last stage: apt, then snapd. */
  function PackagesStageSpec(pre: seq<string>, now: nat -> int, deadline: Option<int>, m: Machine): (s: Step)
    ensures s.0.Pass? ==> s.1.files == m.files + [AptFile]
  {
    var (o1, m1) := AptSpec(pre, now, deadline, m);
    if o1.Fail? then (o1, m1) else
    SnapdSpec(pre, now, deadline, m1)
  }

  /** `setup`: the three stages in order, under one deadline. */
  function SetupSpec(b: BuilddBase, pre: seq<string>, now: nat -> int, timeout: Option<int>, m: Machine): Step {
    var (deadline, m0) := StartSpec(now, timeout, m);
    var (o1, m1) := BaseStageSpec(b, pre, now, deadline, m0);
    if o1.Fail? then (o1, m1) else
    var (o2, m2) := NetworkStageSpec(pre, now, deadline, m1);
    if o2.Fail? then (o2, m2) else
    PackagesStageSpec(pre, now, deadline, m2)
  }

  /** Polls `first` until it is ready, then `second`, under one deadline. */
  function PollBothSpec(pre: seq<string>, first: Probe, second: Probe, now: nat -> int, deadline: Option<int>,
                        m: Machine): Step
  {
    var s1 := PollSpec(pre, first, now, deadline, m);
    if s1.0.Fail? then s1 else PollSpec(pre, second, now, deadline, s1.1)
  }

  /** `wait_until_ready`: the system, then the network, under one deadline. */
  function WaitUntilReadySpec(pre: seq<string>, now: nat -> int, timeout: Option<int>, m: Machine): Step {
    var (deadline, m0) := StartSpec(now, timeout, m);
    PollBothSpec(pre, SystemProbe, NetworkProbe, now, deadline, m0)
  }

  // ---------------------------------------------------------------------
  // The methods
  // ---------------------------------------------------------------------

  /** `_execute_run`: runs a command under the base's environment. */
  method Run(b: BuilddBase, ex: FakeExecutor, fp: FakeProcess, clock: Clock, cmd: seq<string>) returns (r: RunResult)
    modifies fp
    ensures (r, Observe(ex, fp, clock)) == RunSpec(Prefix(ex.formulate, b), cmd, old(Observe(ex, fp, clock)))
  {
    IssuedPrefix(ex.formulate, Some(CommandEnv(b.commandEnvironment)), None, cmd);
    r := ex.ExecuteRun(fp, cmd, env := Some(CommandEnv(b.commandEnvironment)));
  }

  method RunChecked(b: BuilddBase, ex: FakeExecutor, fp: FakeProcess, clock: Clock, cmd: seq<string>, brief: string)
    returns (o: Outcome<Failure>)
    modifies fp
    ensures (o, Observe(ex, fp, clock)) == CheckedRunSpec(Prefix(ex.formulate, b), cmd, brief, old(Observe(ex, fp, clock)))
  {
    var r := Run(b, ex, fp, clock, cmd);
    match r
    case NotRegistered(a) => o := Fail(Unregistered(a));
    case Ran(c) => o := if c.returnCode == 0 then Pass else Fail(ConfigurationError(brief, Some(c)));
  }

  /** The commands of one step's `try` block, in order. */
  method RunCheckedAll(b: BuilddBase, ex: FakeExecutor, fp: FakeProcess, clock: Clock, cmds: seq<seq<string>>, brief: string)
    returns (o: Outcome<Failure>)
    modifies fp
    ensures (o, Observe(ex, fp, clock)) == CheckedRunsSpec(Prefix(ex.formulate, b), cmds, brief, old(Observe(ex, fp, clock)))
    decreases |cmds|
  {
    if cmds == [] {
      return Pass;
    }
    o := RunChecked(b, ex, fp, clock, cmds[0], brief);
    if o.Pass? {
      o := RunCheckedAll(b, ex, fp, clock, cmds[1..], brief);
    }
  }

  /** `_check_deadline`. */
  method CheckDeadline(ex: FakeExecutor, fp: FakeProcess, clock: Clock, deadline: Option<int>, brief: string)
    returns (o: Outcome<Failure>)
    modifies clock
    ensures (o, Observe(ex, fp, clock)) == DeadlineSpec(clock.now, deadline, brief, old(Observe(ex, fp, clock)))
  {
    o := Pass;
    if deadline.Some? {
      var t := clock.Time();
      if t >= deadline.value {
        o := Fail(ConfigurationError(brief, None));
      }
    }
  }

  method StartDeadline(ex: FakeExecutor, fp: FakeProcess, clock: Clock, timeout: Option<int>)
    returns (deadline: Option<int>)
    modifies clock
    ensures (deadline, Observe(ex, fp, clock)) == StartSpec(clock.now, timeout, old(Observe(ex, fp, clock)))
  {
    deadline := None;
    if timeout.Some? {
      var t := clock.Time();
      deadline := Some(t + timeout.value);
    }
  }

  method SetupEnvironment(b: BuilddBase, ex: FakeExecutor, fp: FakeProcess, clock: Clock, deadline: Option<int>)
    returns (o: Outcome<Failure>)
    modifies ex`recordsOfPushFileIo, clock
    ensures (o, Observe(ex, fp, clock)) == EnvironmentSpec(b, clock.now, deadline, old(Observe(ex, fp, clock)))
  {
    o := CheckDeadline(ex, fp, clock, deadline, ConfigureTimeout);
    if o.Pass? {
      ex.PushFileIo(destination := EnvironmentPath, content := RenderPairs(b.commandEnvironment, '='), fileMode := "0644");
    }
  }

  method EnsureOsCompatible(b: BuilddBase, ex: FakeExecutor, fp: FakeProcess, clock: Clock, deadline: Option<int>)
    returns (o: Outcome<Failure>)
    modifies fp, clock
    ensures (o, Observe(ex, fp, clock)) == OsSpec(b, Prefix(ex.formulate, b), clock.now, deadline, old(Observe(ex, fp, clock)))
  {
    o := CheckDeadline(ex, fp, clock, deadline, ConfigureTimeout);
    if o.Fail? {
      return;
    }
    var r := Run(b, ex, fp, clock, OsReleaseCommand);
    match r
    case NotRegistered(a) => o := Fail(Unregistered(a));
    case Ran(c) =>
      var mismatch := OsMismatch(c.stdout, b.alias);
      o := if mismatch.Some? then Fail(CompatibilityError(mismatch.value)) else Pass;
  }

  method ConfigStep(b: BuilddBase, ex: FakeExecutor, fp: FakeProcess, clock: Clock, deadline: Option<int>,
                    file: Option<FileRecord>, cmds: seq<seq<string>>, brief: string)
    returns (o: Outcome<Failure>)
    modifies ex`recordsOfPushFileIo, fp, clock
    ensures (o, Observe(ex, fp, clock)) ==
            ConfigStepSpec(Prefix(ex.formulate, b), clock.now, deadline, file, cmds, brief, old(Observe(ex, fp, clock)))
  {
    o := CheckDeadline(ex, fp, clock, deadline, ConfigureTimeout);
    if o.Fail? {
      return;
    }
    if file.Some? {
      ex.PushFileIo(file.value.destination, file.value.content, file.value.fileMode, file.value.group, file.value.user);
    }
    o := RunCheckedAll(b, ex, fp, clock, cmds, brief);
  }

  method SetupHostname(b: BuilddBase, ex: FakeExecutor, fp: FakeProcess, clock: Clock, deadline: Option<int>)
    returns (o: Outcome<Failure>)
    modifies ex`recordsOfPushFileIo, fp, clock
    ensures (o, Observe(ex, fp, clock)) == HostnameSpec(b, Prefix(ex.formulate, b), clock.now, deadline, old(Observe(ex, fp, clock)))
  {
    o := ConfigStep(b, ex, fp, clock, deadline, Some(HostnameFile(b)), HostnameCommands, HostnameFailed);
  }

  method SetupResolved(b: BuilddBase, ex: FakeExecutor, fp: FakeProcess, clock: Clock, deadline: Option<int>)
    returns (o: Outcome<Failure>)
    modifies ex`recordsOfPushFileIo, fp, clock
    ensures (o, Observe(ex, fp, clock)) == ResolvedSpec(Prefix(ex.formulate, b), clock.now, deadline, old(Observe(ex, fp, clock)))
  {
    o := ConfigStep(b, ex, fp, clock, deadline, None, ResolvedCommands, ResolvedFailed);
  }

  method SetupNetworkd(b: BuilddBase, ex: FakeExecutor, fp: FakeProcess, clock: Clock, deadline: Option<int>)
    returns (o: Outcome<Failure>)
    modifies ex`recordsOfPushFileIo, fp, clock
    ensures (o, Observe(ex, fp, clock)) == NetworkdSpec(Prefix(ex.formulate, b), clock.now, deadline, old(Observe(ex, fp, clock)))
  {
    o := ConfigStep(b, ex, fp, clock, deadline, Some(NetworkFile), NetworkdCommands, NetworkdFailed);
  }

  method SetupApt(b: BuilddBase, ex: FakeExecutor, fp: FakeProcess, clock: Clock, deadline: Option<int>)
    returns (o: Outcome<Failure>)
    modifies ex`recordsOfPushFileIo, fp, clock
    ensures (o, Observe(ex, fp, clock)) == AptSpec(Prefix(ex.formulate, b), clock.now, deadline, old(Observe(ex, fp, clock)))
  {
    o := ConfigStep(b, ex, fp, clock, deadline, Some(AptFile), AptCommands, AptFailed);
  }

  method SetupSnapd(b: BuilddBase, ex: FakeExecutor, fp: FakeProcess, clock: Clock, deadline: Option<int>)
    returns (o: Outcome<Failure>)
    modifies ex`recordsOfPushFileIo, fp, clock
    ensures (o, Observe(ex, fp, clock)) == SnapdSpec(Prefix(ex.formulate, b), clock.now, deadline, old(Observe(ex, fp, clock)))
  {
    o := ConfigStep(b, ex, fp, clock, deadline, None, SnapdCommands, SnapdFailed);
  }

  /** `_setup_wait_for_system_ready` and `_setup_wait_for_network`: the retry loop. */
  method Poll(b: BuilddBase, ex: FakeExecutor, fp: FakeProcess, clock: Clock, p: Probe, deadline: Option<int>)
    returns (o: Outcome<Failure>)
    modifies fp, clock
    ensures (o, Observe(ex, fp, clock)) == PollSpec(Prefix(ex.formulate, b), p, clock.now, deadline, old(Observe(ex, fp, clock)))
  {
    var pre := Prefix(ex.formulate, b);
    ghost var goal := PollSpec(pre, p, clock.now, deadline, Observe(ex, fp, clock));
    while true
      invariant PollSpec(pre, p, clock.now, deadline, Observe(ex, fp, clock)) == goal
      decreases Pending(fp.responses, pre + p.command)
    {
      ghost var here := Observe(ex, fp, clock);
      var r := Run(b, ex, fp, clock, p.command);
      if r.NotRegistered? {
        return Fail(Unregistered(r.args));
      }
      if p.ready(r.process.returnCode, r.process.stdout) {
        return Pass;
      }
      o := CheckDeadline(ex, fp, clock, deadline, p.timeoutBrief);
      if o.Fail? {
        return;
      }
      assert PollSpec(pre, p, clock.now, deadline, here) == PollSpec(pre, p, clock.now, deadline, Observe(ex, fp, clock));
    }
  }

  method BaseStage(b: BuilddBase, ex: FakeExecutor, fp: FakeProcess, clock: Clock, deadline: Option<int>)
    returns (o: Outcome<Failure>)
    modifies ex`recordsOfPushFileIo, fp, clock
    ensures (o, Observe(ex, fp, clock)) == BaseStageSpec(b, Prefix(ex.formulate, b), clock.now, deadline, old(Observe(ex, fp, clock)))
  {
    o := EnsureOsCompatible(b, ex, fp, clock, deadline);
    if o.Fail? { return; }
    o := SetupEnvironment(b, ex, fp, clock, deadline);
    if o.Fail? { return; }
    o := Poll(b, ex, fp, clock, SystemProbe, deadline);
    if o.Fail? { return; }
    o := SetupHostname(b, ex, fp, clock, deadline);
  }

  method NetworkStage(b: BuilddBase, ex: FakeExecutor, fp: FakeProcess, clock: Clock, deadline: Option<int>)
    returns (o: Outcome<Failure>)
    modifies ex`recordsOfPushFileIo, fp, clock
    ensures (o, Observe(ex, fp, clock)) == NetworkStageSpec(Prefix(ex.formulate, b), clock.now, deadline, old(Observe(ex, fp, clock)))
  {
    o := SetupResolved(b, ex, fp, clock, deadline);
    if o.Fail? { return; }
    o := SetupNetworkd(b, ex, fp, clock, deadline);
    if o.Fail? { return; }
    o := Poll(b, ex, fp, clock, NetworkProbe, deadline);
  }

  method PackagesStage(b: BuilddBase, ex: FakeExecutor, fp: FakeProcess, clock: Clock, deadline: Option<int>)
    returns (o: Outcome<Failure>)
    modifies ex`recordsOfPushFileIo, fp, clock
    ensures (o, Observe(ex, fp, clock)) == PackagesStageSpec(Prefix(ex.formulate, b), clock.now, deadline, old(Observe(ex, fp, clock)))
  {
    o := SetupApt(b, ex, fp, clock, deadline);
    if o.Fail? { return; }
    o := SetupSnapd(b, ex, fp, clock, deadline);
  }

  /** `BuilddBase.setup`. */
  method Setup(b: BuilddBase, ex: FakeExecutor, fp: FakeProcess, clock: Clock, timeout: Option<int> := None)
    returns (o: Outcome<Failure>)
    modifies ex`recordsOfPushFileIo, fp, clock
    ensures (o, Observe(ex, fp, clock)) == SetupSpec(b, Prefix(ex.formulate, b), clock.now, timeout, old(Observe(ex, fp, clock)))
    ensures ex.recordsOfPullFile == old(ex.recordsOfPullFile) && ex.recordsOfPushFile == old(ex.recordsOfPushFile)
  {
    var deadline := StartDeadline(ex, fp, clock, timeout);
    o := BaseStage(b, ex, fp, clock, deadline);
    if o.Fail? { return; }
    o := NetworkStage(b, ex, fp, clock, deadline);
    if o.Fail? { return; }
    o := PackagesStage(b, ex, fp, clock, deadline);
  }

  /** `BuilddBase.wait_until_ready`. */
  method WaitUntilReady(b: BuilddBase, ex: FakeExecutor, fp: FakeProcess, clock: Clock, timeout: Option<int> := None)
    returns (o: Outcome<Failure>)
    modifies fp, clock
    ensures (o, Observe(ex, fp, clock)) == WaitUntilReadySpec(Prefix(ex.formulate, b), clock.now, timeout, old(Observe(ex, fp, clock)))
    ensures ex.recordsOfPushFileIo == old(ex.recordsOfPushFileIo)
    ensures ex.recordsOfPullFile == old(ex.recordsOfPullFile) && ex.recordsOfPushFile == old(ex.recordsOfPushFile)
  {
    var deadline := StartDeadline(ex, fp, clock, timeout);
    o := Poll(b, ex, fp, clock, SystemProbe, deadline);
    if o.Fail? { return; }
    o := Poll(b, ex, fp, clock, NetworkProbe, deadline);
  }
}
