# craft-providers launch and provisioning, as the unit and integration tests pin them down

craft-providers creates build environments for Snapcraft-style tools. It runs
them in LXD containers or Multipass virtual machines. This project models
four pieces of it and proves what the repository's tests assert about them:

- **The LXD `launch` orchestrator** (`LxdLauncher`, `LxdProperties`).
  - `launch` first makes sure the project is listed on the remote. A missing
    project is refused with an `LXDError`, or created and given a copy of the
    default project's default profile.
  - It then reuses the named instance when it exists and passes the base's
    `warmup`, starting it only if it is stopped.
  - An incompatible instance is deleted when auto-clean is on. Without
    auto-clean the `BaseCompatibilityError` ends the launch.
  - Otherwise the instance is provisioned afresh. With snapshots asked for,
    a cached image under the key `snapshot-<remote>-<image>-<compat tag>` is
    used when present. A cache miss launches the raw image, sets it up, stops
    it, publishes it under the key and starts it again.
  - The backend (projects, profiles, images, instances) is explicit state in
    a class `Lxd`. The instance handle is a class `LxdInstance`. Every call
    on the backend, the instance and the base configuration is appended to a
    ghost record, as the unit tests' mocks record them.
- **The Multipass `launch` orchestrator** (`MultipassLauncher`,
  `MultipassProperties`): the same reuse, refuse or auto-clean contract,
  without projects or snapshots.
- **The buildd base** (`Bases`, `Buildd`, `BuilddProperties`).
  - The compatibility check `warmup` makes on an existing instance:
    - the OS name and version in `/etc/os-release`;
    - the compatibility tag in the instance configuration;
    - the exact briefs it raises.
  - `setup` writes four files in order and runs each phase's commands. A
    failing command raises the phase's brief.
  - `wait_until_ready` polls `systemctl is-system-running` and then
    `getent hosts snapcraft.io` under one deadline.
  - Every operation is a method on the fakes. Each method is tied to a pure
    step function over a `Machine`, the observable state:
    - the files written;
    - the fake process registry;
    - the number of clock readings.
  - The properties are proved as lemmas about those step functions.
- **The test doubles** (`Fakes`).
  - The recording `FakeExecutor`, a class with three record lists.
  - The `fake_process` registry: a queue of answers per exact command line,
    plus the list of command lines answered.
  - The patched `time.time`, a class over a function from reading number to
    time.

`Text` holds the string machinery the messages and files need:
- Python's `repr` of a string and of a list of strings, with its round trip;
- line splitting and `key<sep>value` parsing, with its round trip against
  rendering;
- lookup, whitespace trimming and quote stripping.

`Wrappers` holds `Option`, `Result` and `Outcome`.

The production modules are not part of this model's sources. The model is
what the tests assert, read as a specification. Where the tests leave a choice
open, the model makes the one stated here:

- A snapshot hit still calls `setup` once (tests/unit/lxd/test_launcher.py:148-192).
- An instance without an instance configuration file passes the tag check.
  The integration test reuses a freshly made instance that has none
  (tests/integration/lxd/test_launcher.py:266-281).
- `setup` writes exactly the four files of the unit test. No compatibility
  record is written (tests/unit/bases/test_buildd.py:127-171).
- `wait_until_ready` takes one deadline on entry, and both polls share it.
  The private steps the tests call take a `deadline` argument
  (tests/unit/bases/test_buildd.py:204-207, 495-497).
- The OS check also compares VERSION_ID with the alias's release. `test_setup`
  answers `cat /etc/os-release` with exactly that version
  (tests/unit/bases/test_buildd.py:74-84).
- `test_setup` reads `records_of_create_file`, but the fake executor records
  into `records_of_push_file_io`. Both are the one list
  `FakeExecutor.recordsOfPushFileIo` here.

## Model

| member | source | states |
|---|---|---|
| `Text.QuoteFor` | tests/unit/lxd/test_launcher.py:251-255 | `repr` quotes a string with `'` or `"` and nothing else |
| `Text.UnescapeEscape` | tests/unit/lxd/test_launcher.py:251-255 | undoing `repr`'s escaping of a whole string gives the string back |
| `Text.ReprRoundTrip` | tests/unit/lxd/test_launcher.py:251-255 | `repr` is injective: its output reads back as the original string |
| `Text.EscapePlain` | tests/unit/lxd/test_launcher.py:251-255 | a string without quotes, backslashes or control characters is left unescaped |
| `Text.ReprPlain` | tests/unit/lxd/test_launcher.py:251-255 | such a plain string is shown as itself between single quotes |
| `Text.ListReprPair` | tests/unit/lxd/test_launcher.py:255 | a list of two plain strings is shown as `['a', 'b']` |
| `Text.SplitAt` | tests/integration/lxd/test_launcher.py:287-291 | a line splits at its first separator into a prefix without it and the rest; no split exactly when it is absent |
| `Text.ParseRenderPairs` | tests/unit/bases/test_buildd.py:41-52 | parsing rendered `key<sep>value\n` lines gives back the pairs, in order |
| `Text.Lookup` | tests/integration/lxd/test_launcher.py:287-291 | a found value belongs to a pair with that key and no later pair has the key, so the last binding wins; nothing found means no pair has the key |
| `Text.TrimStart` | tests/unit/bases/test_buildd.py:387-403 | a suffix of the input that starts with no blank, only blanks were dropped |
| `Text.TrimEnd` | tests/unit/bases/test_buildd.py:387-403 | a prefix of the input that ends with no blank, only blanks were dropped |
| `Text.Trim` | tests/unit/bases/test_buildd.py:387-403 | the result is no longer than the input and neither starts nor ends with a blank |
| `Text.TrimContent` | tests/unit/bases/test_buildd.py:387-403 | what `Trim` keeps is a slice of the input with only blanks before it and after it |
| `Text.BlankEnds` | tests/unit/bases/test_buildd.py:387-403 | a prefix of a suffix of a string, where only blanks were cut on either side, is a slice of the string with only blanks before and after it |
| `Text.TrimKeeps` | tests/unit/bases/test_buildd.py:387-403 | a string that neither starts nor ends with a blank is its own trim |
| `Text.TrimIdempotent` | tests/unit/bases/test_buildd.py:387-403 | trimming twice is trimming once |
| `Text.Unquote` | tests/unit/bases/test_buildd.py:76-83 | a value between double quotes loses exactly those quotes; any other value is unchanged |
| `Bases.NewBuilddBase` | tests/unit/bases/test_buildd.py:63-70 | the base keeps alias and hostname, carries tag `buildd-base-v0`, and uses the default environment exactly when none is given |
| `Bases.InstanceMismatchIffIncompatible` | tests/integration/lxd/test_launcher.py:266-353 | the check finds no mismatch exactly when the instance is compatible |
| `Bases.LookupUnquoted` | tests/unit/bases/test_buildd.py:76-83 | looking a key up after stripping quotes is stripping the quotes of the value looked up |
| `Bases.OsReleaseLookup` | tests/unit/bases/test_buildd.py:76-83 | a rendered os-release reads back, per key, as the written value without its quotes |
| `Bases.OsNameRefused` | tests/integration/lxd/test_launcher.py:284-305 | an os-release naming another OS is refused for its name, naming the OS found |
| `Bases.OsNameMissing` | tests/integration/lxd/test_launcher.py:284-305 | an os-release without NAME is refused for its name, with `None` found |
| `Bases.OsVersionRefused` | tests/unit/bases/test_buildd.py:74-84 | Ubuntu of another version is refused for its version, naming the version found |
| `Bases.OsAccepted` | tests/unit/bases/test_buildd.py:74-84 | Ubuntu with the alias's VERSION_ID is accepted |
| `Bases.ConfigTagLine` | tests/integration/lxd/test_launcher.py:323-327 | a `compatibility_tag: <tag>` line reads back as the tag |
| `Bases.TagRefusedIffOther` | tests/integration/lxd/test_launcher.py:320-341 | a configuration is refused exactly when its tag differs from the base's, naming the tag found |
| `Bases.FedoraRefused` | tests/integration/lxd/test_launcher.py:287-291 | the test's Fedora os-release is refused for OS name `Fedora` |
| `Bases.OsNameReason` | tests/integration/lxd/test_launcher.py:302-305 | the reason reads `Expected OS 'Ubuntu', found '<name>'` |
| `Bases.TagReason` | tests/integration/lxd/test_launcher.py:338-341 | the reason reads `Expected image compatibility tag '<expected>', found '<found>'` |
| `Bases.OsNameBrief` | tests/integration/lxd/test_launcher.py:302-305 | the brief is `Incompatible base detected: ` + that reason + `.` |
| `Bases.TagBrief` | tests/integration/lxd/test_launcher.py:338-341 | likewise for a tag refusal |
| `Bases.FedoraBriefText` | tests/integration/lxd/test_launcher.py:302-305 | the Fedora brief is exactly the one the test expects |
| `Bases.InvalidTagRefused` | tests/integration/lxd/test_launcher.py:323-327 | the test's `compatibility_tag: invalid` configuration is refused, tag `invalid` found |
| `Bases.InvalidTagBriefText` | tests/integration/lxd/test_launcher.py:338-341 | the `invalid` tag brief is exactly the one the test expects |
| `Bases.ExpectedOsNameRepr` | tests/integration/lxd/test_launcher.py:302-305 | the expected OS is shown as `'Ubuntu'` |
| `Fakes.IssuedCommand` | tests/unit/conftest.py:64-98 | the issued argv is `fake-executor`, then the environment arguments, then the command itself |
| `Fakes.IssuedWithoutEnv` | tests/unit/conftest.py:72-77 | without an environment the argv is `["fake-executor"] + command`, whatever the working directory |
| `Fakes.IssuedPrefix` | tests/unit/conftest.py:75-77 | the argv is a fixed prefix followed by the command |
| `Fakes.Dispatch` | tests/unit/bases/test_buildd.py:392-446 | a command runs exactly when an answer is queued: its process carries that answer, one answer is consumed and the call is recorded; otherwise nothing changes |
| `Fakes.DispatchLeavesOthers` | tests/unit/bases/test_buildd.py:392-446 | running one command line leaves every other line's queue alone |
| `Fakes.FakeProcess.constructor` | tests/unit/bases/test_buildd.py:392-446 | nothing registered and nothing called |
| `Fakes.FakeProcess.RegisterSubprocess` | tests/unit/bases/test_buildd.py:392-411 | one answer is appended to that command line's queue; the calls are unchanged |
| `Fakes.FakeProcess.Run` | tests/unit/bases/test_buildd.py:418-446 | the new registry and the result are those of `Dispatch` |
| `Fakes.FakeExecutor.constructor` | tests/unit/conftest.py:40-43 | all three record lists are empty |
| `Fakes.FakeExecutor.PushFileIo` | tests/unit/conftest.py:45-62 | exactly one record (destination, content, mode, group, user, owner defaulting to root) is appended, and only to its own list |
| `Fakes.FakeExecutor.ExecuteRun` | tests/unit/conftest.py:82-98 | the issued command line is dispatched to the fake process registry; the executor's records are untouched |
| `Fakes.FakeExecutor.ExecutePopen` | tests/unit/conftest.py:64-80 | likewise for `execute_popen` |
| `Fakes.FakeExecutor.PullFile` | tests/unit/conftest.py:100-106 | one record is appended to `records_of_pull_file` only |
| `Fakes.FakeExecutor.PushFile` | tests/unit/conftest.py:108-114 | one record is appended to `records_of_push_file` only |
| `Fakes.FakeExecutor.Exists` | tests/unit/conftest.py:119-120 | always true |
| `Fakes.Clock.constructor` | tests/unit/bases/test_buildd.py:449 | the clock has not been read |
| `Fakes.Clock.Time` | tests/unit/bases/test_buildd.py:449 | the `n`-th reading gives the `n`-th patched time and counts one more reading |
| `Buildd.CommandEnv` | tests/unit/bases/test_buildd.py:72 | every variable of the base is passed, in order, as set |
| `Buildd.CheckedRunsSpec` | tests/unit/bases/test_buildd.py:193-376 | a phase's commands write no file, read no clock, and run at most once each |
| `Buildd.DeadlineSpec` | tests/unit/bases/test_buildd.py:449-513 | a deadline check touches neither files nor registry |
| `Buildd.OsSpec` | tests/unit/bases/test_buildd.py:74-84 | the OS check writes no file |
| `Buildd.ConfigStepSpec` | tests/unit/bases/test_buildd.py:193-376 | a passing step has written exactly its own file, if it has one |
| `Buildd.PollSpec` | tests/unit/bases/test_buildd.py:388-513 | polling writes no file |
| `Buildd.BaseStageSpec` | tests/unit/bases/test_buildd.py:127-141 | a passing first stage has written `/etc/environment`, then `/etc/hostname` |
| `Buildd.NetworkStageSpec` | tests/unit/bases/test_buildd.py:142-161 | a passing second stage has written the networkd file |
| `Buildd.PackagesStageSpec` | tests/unit/bases/test_buildd.py:162-168 | a passing last stage has written the apt file |
| `Buildd.Run` | tests/unit/bases/test_buildd.py:24-27 | a command runs under the base's environment prefix, as `RunSpec` says |
| `Buildd.RunChecked` | tests/unit/bases/test_buildd.py:193-212 | the new state and outcome are those of `CheckedRunSpec` |
| `Buildd.RunCheckedAll` | tests/unit/bases/test_buildd.py:327-376 | the new state and outcome are those of `CheckedRunsSpec` |
| `Buildd.CheckDeadline` | tests/unit/bases/test_buildd.py:449-513 | those of `DeadlineSpec` |
| `Buildd.StartDeadline` | tests/unit/bases/test_buildd.py:449-513 | those of `StartSpec`: the clock once, plus the timeout |
| `Buildd.SetupEnvironment` | tests/unit/bases/test_buildd.py:127-134 | those of `EnvironmentSpec` |
| `Buildd.EnsureOsCompatible` | tests/unit/bases/test_buildd.py:74-84 | those of `OsSpec` |
| `Buildd.ConfigStep` | tests/unit/bases/test_buildd.py:193-376 | those of `ConfigStepSpec` |
| `Buildd.SetupHostname` | tests/unit/bases/test_buildd.py:193-212 | those of `HostnameSpec` |
| `Buildd.SetupResolved` | tests/unit/bases/test_buildd.py:262-324 | those of `ResolvedSpec` |
| `Buildd.SetupNetworkd` | tests/unit/bases/test_buildd.py:215-259 | those of `NetworkdSpec` |
| `Buildd.SetupApt` | tests/unit/bases/test_buildd.py:105-108 | those of `AptSpec` |
| `Buildd.SetupSnapd` | tests/unit/bases/test_buildd.py:327-376 | those of `SnapdSpec` |
| `Buildd.Poll` | tests/unit/bases/test_buildd.py:388-513 | the retry loop ends in the state and outcome of `PollSpec` |
| `Buildd.BaseStage` | tests/unit/bases/test_buildd.py:55-171 | those of `BaseStageSpec` |
| `Buildd.NetworkStage` | tests/unit/bases/test_buildd.py:55-171 | those of `NetworkStageSpec` |
| `Buildd.PackagesStage` | tests/unit/bases/test_buildd.py:55-171 | those of `PackagesStageSpec` |
| `Buildd.Setup` | tests/unit/bases/test_buildd.py:55-171 | those of `SetupSpec`; no `pull_file` or `push_file` record |
| `Buildd.WaitUntilReady` | tests/unit/bases/test_buildd.py:413-417 | those of `WaitUntilReadySpec`; no file record of any kind |
| `BuilddProperties.FirstCommandPasses` | tests/unit/bases/test_buildd.py:237-259 | a succeeding first command moves the phase on to the rest |
| `BuilddProperties.AllCommandsSucceed` | tests/unit/bases/test_buildd.py:55-123 | all commands answered with 0: the phase passes, issues them in order and touches no other queue |
| `BuilddProperties.CommandFails` | tests/unit/bases/test_buildd.py:327-376 | the first failing command ends the phase with its brief and that process as details, after issuing exactly the commands up to it |
| `BuilddProperties.FirstCommandFails` | tests/unit/bases/test_buildd.py:193-212 | a failing first command fails at once, consuming only its answer |
| `BuilddProperties.StepFails` | tests/unit/bases/test_buildd.py:193-376 | a step without deadline fails with its brief at its first failing command |
| `BuilddProperties.StepSucceeds` | tests/unit/bases/test_buildd.py:55-171 | a step whose commands all succeed passes, having written its file |
| `BuilddProperties.HostnameFailure` | tests/unit/bases/test_buildd.py:193-212 | a failing `hostname -F /etc/hostname` gives "Failed to set hostname.", after writing `/etc/hostname` as `hostname\n` |
| `BuilddProperties.ResolvedFailure` | tests/unit/bases/test_buildd.py:262-324 | a failing resolved command gives "Failed to setup systemd-resolved." |
| `BuilddProperties.NetworkdFailure` | tests/unit/bases/test_buildd.py:215-259 | a failing enable or restart of networkd gives "Failed to setup systemd-networkd." |
| `BuilddProperties.AptFailure` | tests/unit/bases/test_buildd.py:105-108 | a failing apt command gives "Failed to setup apt." |
| `BuilddProperties.SnapdFailure` | tests/unit/bases/test_buildd.py:327-376 | whichever of the seven snapd commands fails first gives "Failed to setup snapd.", with its process as details |
| `BuilddProperties.SnapdSuccess` | tests/unit/bases/test_buildd.py:327-376 | the converse: all seven succeeding, the step passes |
| `BuilddProperties.PollUntilReady` | tests/unit/bases/test_buildd.py:388-446 | without deadline, a probe whose first ready answer is the `k`-th passes after exactly `k+1` calls, consuming those answers |
| `BuilddProperties.PollRetries` | tests/unit/bases/test_buildd.py:392-403 | a not-ready answer without deadline means one more attempt |
| `BuilddProperties.PollStops` | tests/unit/bases/test_buildd.py:400-403 | a ready answer ends the poll |
| `BuilddProperties.PollDeadlineRule` | tests/unit/bases/test_buildd.py:449-513 | after a failed attempt the poll times out once the clock has reached the deadline (equality included), and retries otherwise |
| `BuilddProperties.PollLeavesOthers` | tests/unit/bases/test_buildd.py:418-446 | polling one probe leaves every other command line's answers alone |
| `BuilddProperties.WaitWithTimeout` | tests/unit/bases/test_buildd.py:449-480 | with a timeout the deadline is the first clock reading plus the timeout |
| `BuilddProperties.WaitWithoutTimeout` | tests/unit/bases/test_buildd.py:388-413 | without a timeout the clock is never read |
| `BuilddProperties.PollBoth` | tests/unit/bases/test_buildd.py:388-446 | for any two probes on different command lines, without deadline, each runs until its first ready answer, the first probe's calls before the second's, no file written and no clock read |
| `BuilddProperties.WaitUntilReadyCalls` | tests/unit/bases/test_buildd.py:388-446 | the system probe until ready, then the network probe until exit 0: passes, writes no file, calls exactly `ks+1` system then `kn+1` network probes |
| `BuilddProperties.SystemAnswers` | tests/unit/bases/test_buildd.py:387-403 | `not-ready` and `still-not-ready` are not ready; `degraded` and `running` are, whatever the exit code |
| `BuilddProperties.WaitUntilReadyScenario` | tests/unit/bases/test_buildd.py:388-446 | the test's queues give exactly three `is-system-running` then two `getent` calls, and no file |
| `BuilddProperties.WaitUntilReadyTimesOut` | tests/unit/bases/test_buildd.py:449-480 | a not-ready system with the clock past the deadline gives "Timed out waiting for environment to be ready." after two readings |
| `BuilddProperties.FirstPollTimesOut` | tests/unit/bases/test_buildd.py:449-480 | a first probe that is not ready once the deadline has passed ends both polls with its own timeout brief, after one more clock reading |
| `BuilddProperties.NetworkTimesOutAtDeadline` | tests/unit/bases/test_buildd.py:482-513 | a failing network probe with the clock exactly at the deadline gives "Timed out waiting for networking to be ready." |
| `BuilddProperties.SetupTimesOut` | tests/unit/bases/test_buildd.py:174-190 | setup with the clock past the deadline at the first check fails with "Timed out configuring environment." after two readings |
| `BuilddProperties.SetupWritesFourFiles` | tests/unit/bases/test_buildd.py:127-169 | a setup that passes has written exactly the four files, in order |
| `SetupProperties.PhaseRuns` | tests/unit/bases/test_buildd.py:88-123 | a configuration phase whose commands all succeed passes, writes its file, issues its commands once each in order and leaves the answers of later commands untouched |
| `SetupProperties.PhaseAnswered` | tests/unit/bases/test_buildd.py:88-123 | a phase's commands keep the answers registered before setup while earlier phases run |
| `SetupProperties.DispatchKeeps` | tests/unit/bases/test_buildd.py:74-123 | answering one command line leaves the queue of every other line as it was |
| `SetupProperties.OsCheckPasses` | tests/unit/bases/test_buildd.py:74-83 | an os-release naming Ubuntu at the alias's version passes the OS check and `/etc/environment` is written; os-release is answered once and the clock is not read |
| `SetupProperties.BaseChecksPass` | tests/unit/bases/test_buildd.py:74-88 | with `test_setup`'s answers the OS check, `/etc/environment` and the wait for systemd pass without reading the clock, issue os-release and the system probe once each, and leave the later commands' answers alone |
| `SetupProperties.BaseStageSucceeds` | tests/unit/bases/test_buildd.py:74-88 | with `test_setup`'s answers the OS check, the systemd check and the hostname command pass without reading the clock, in that order |
| `SetupProperties.NetworkStageSucceeds` | tests/unit/bases/test_buildd.py:89-104 | with `test_setup`'s answers the resolved and networkd commands and the `getent` probe pass, in that order |
| `SetupProperties.PackagesStageSucceeds` | tests/unit/bases/test_buildd.py:105-123 | with `test_setup`'s answers the apt and snapd commands pass, in that order |
| `SetupProperties.SetupSucceeds` | tests/unit/bases/test_buildd.py:55-171 | `setup` under `test_setup`'s answers passes, writes exactly the four files, reads no clock and issues exactly the test's eighteen command lines once each, in order |
| `BuilddProperties.RenderOnePair` | tests/unit/bases/test_buildd.py:41-44 | one variable renders as one `KEY=value` line |
| `BuilddProperties.DefaultEnvironmentFile` | tests/unit/bases/test_buildd.py:41-44 | without an environment, `/etc/environment` is the single default PATH line |
| `BuilddProperties.EnvironmentFileRoundTrip` | tests/unit/bases/test_buildd.py:45-52 | `/etc/environment` reads back as the base's environment, in order |
| `Providers.BuilddWarmupIffIncompatible` | tests/integration/lxd/test_launcher.py:266-353 | the buildd `warmup` refuses exactly the incompatible instances, with the mismatch's reason |
| `Providers.BaseConfiguration.constructor` | tests/unit/lxd/test_launcher.py:25-30 | a fresh base configuration has no calls recorded |
| `Providers.BaseConfiguration.GetCommandEnvironment` | tests/unit/lxd/test_launcher.py:25-30 | gives the base's environment and records the call |
| `Providers.BaseConfiguration.Setup` | tests/unit/lxd/test_launcher.py:84-88 | records the call |
| `Providers.BaseConfiguration.WaitUntilReady` | tests/unit/lxd/test_launcher.py:141-145 | records the call |
| `Providers.BaseConfiguration.Warmup` | tests/unit/lxd/test_launcher.py:370-450 | passes exactly when the instance's files are compatible, and otherwise fails with the check's reason; records the call |
| `Providers.FedoraBrief` | tests/integration/lxd/test_launcher.py:284-305 | the buildd base refuses the Fedora instance with the exact brief |
| `Providers.InvalidTagBrief` | tests/integration/lxd/test_launcher.py:320-341 | the buildd base refuses the `invalid`-tagged instance with the exact brief |
| `LxdLauncher.EnsureProjectSpec` | tests/unit/lxd/test_launcher.py:236-304 | passes exactly when the project is listed or creation is asked for; afterwards it is listed; instances and images untouched |
| `LxdLauncher.ReuseSpec` | tests/unit/lxd/test_launcher.py:307-450 | a reused instance is running; a provision leaves the name free; projects, images and backend calls untouched |
| `LxdLauncher.ProvisionSpec` | tests/unit/lxd/test_launcher.py:57-192 | a provisioned instance exists and runs; projects untouched |
| `LxdLauncher.LaunchSpec` | tests/integration/lxd/test_launcher.py:60-79 | a successful launch returns the target instance, which exists and runs |
| `LxdLauncher.Lxd.constructor` | tests/unit/lxd/test_launcher.py:33-40 | the backend starts with the given state and no calls |
| `LxdLauncher.Lxd.ProjectList` | tests/unit/lxd/test_launcher.py:68 | the remote's projects, call recorded |
| `LxdLauncher.Lxd.ProjectCreate` | tests/unit/lxd/test_launcher.py:274 | the project is appended to the remote's list, call recorded |
| `LxdLauncher.Lxd.ProfileShow` | tests/unit/lxd/test_launcher.py:275-277 | the profile's configuration, call recorded |
| `LxdLauncher.Lxd.ProfileEdit` | tests/unit/lxd/test_launcher.py:278-283 | the profile's configuration is replaced, call recorded |
| `LxdLauncher.Lxd.HasImage` | tests/unit/lxd/test_launcher.py:110-114 | whether the alias is stored in the project of the remote, call recorded |
| `LxdLauncher.Lxd.Publish` | tests/unit/lxd/test_launcher.py:115-121 | the instance's files are stored under the alias (replacing only when forced), call recorded |
| `LxdLauncher.LxdInstance.constructor` | tests/unit/lxd/test_launcher.py:43-54 | the handle keeps name, project, remote and environment, and its backend name is the sanitized name |
| `LxdLauncher.LxdInstance.Exists` | tests/integration/lxd/test_launcher.py:175-190 | as `ExistsStep` |
| `LxdLauncher.LxdInstance.IsRunning` | tests/unit/lxd/test_launcher.py:307-367 | as `IsRunningStep` |
| `LxdLauncher.LxdInstance.Start` | tests/unit/lxd/test_launcher.py:307-336 | as `StartStep` |
| `LxdLauncher.LxdInstance.Stop` | tests/integration/lxd/test_launcher.py:175-190 | as `StopStep`: an ephemeral instance is removed |
| `LxdLauncher.LxdInstance.Delete` | tests/unit/lxd/test_launcher.py:370-413 | as `DeleteStep` |
| `LxdLauncher.LxdInstance.Launch` | tests/unit/lxd/test_launcher.py:76-82 | as `LaunchImageStep` |
| `LxdLauncher.EnsureProjectExists` | tests/unit/lxd/test_launcher.py:236-304 | state and outcome of `EnsureProjectSpec` |
| `LxdLauncher.CheckExisting` | tests/unit/lxd/test_launcher.py:307-450 | state, calls and outcome of `ReuseSpec` |
| `LxdLauncher.ProvisionFresh` | tests/unit/lxd/test_launcher.py:57-192 | state, calls and outcome of `ProvisionSpec` |
| `LxdLauncher.Launch` | tests/unit/lxd/test_launcher.py:57-450 | state, calls and result of `LaunchSpec`; a returned handle is on this backend and refers to the target |
| `LxdProperties.UnitSnapshotKey` | tests/unit/lxd/test_launcher.py:110-116 | the unit tests' key is `snapshot-image-remote-image-name-mock-compat-tag-v100` |
| `LxdProperties.FocalSnapshotKey` | tests/integration/lxd/test_launcher.py:82-84 | focal from `ubuntu` is cached as `snapshot-ubuntu-20.04-buildd-base-v0` |
| `LxdProperties.MissingProjectBriefQuoted` | tests/unit/lxd/test_launcher.py:251-254 | the brief names project and remote between single quotes |
| `LxdProperties.MissingProjectDetailsPair` | tests/unit/lxd/test_launcher.py:255 | the details show two listed projects as a Python list |
| `LxdProperties.MissingProjectBriefText` | tests/unit/lxd/test_launcher.py:251-254 | the test's brief exactly |
| `LxdProperties.MissingProjectDetailsText` | tests/unit/lxd/test_launcher.py:255 | the test's details exactly |
| `LxdProperties.StopRemovesEphemeral` | tests/integration/lxd/test_launcher.py:175-190 | stopping removes an ephemeral instance and only stops any other |
| `LxdProperties.FreshLaunch` | tests/unit/lxd/test_launcher.py:57-88 | a listed project, no instance, no snapshots: one `project_list`; construct, `exists`, `launch`; `get_command_environment`, `setup`; the new instance runs |
| `LxdProperties.DefaultLaunch` | tests/unit/lxd/test_launcher.py:57-88 | the defaults: project `default`, remote `local`, not ephemeral, no uid mapping, no uid |
| `LxdProperties.SnapshotMiss` | tests/unit/lxd/test_launcher.py:91-145 | `has_image` then `publish(force=True)` of the sanitized name; `launch`, `stop`, `start`; `setup` then `wait_until_ready`; the image holds the instance's files |
| `LxdProperties.SnapshotHit` | tests/unit/lxd/test_launcher.py:148-192 | only `has_image`; `launch` of the key from the remote; `setup` once, no `wait_until_ready`; the instance holds the image's files |
| `LxdProperties.MissingProject` | tests/unit/lxd/test_launcher.py:236-255 | the `LXDError` with the brief and details, after `project_list` and `get_command_environment` only, nothing else changed |
| `LxdProperties.CreateProject` | tests/unit/lxd/test_launcher.py:258-304 | `project_create`, `profile_show` of the default profile, `profile_edit` with that configuration, then the fresh launch; the project is appended to the list |
| `LxdProperties.ExistingCompatible` | tests/unit/lxd/test_launcher.py:307-367 | `exists`, `is_running`, `start` only if stopped; `warmup`, no `launch` or `setup`; the instance runs |
| `LxdProperties.IncompatibleCleaned` | tests/unit/lxd/test_launcher.py:370-413 | with auto-clean: `warmup`, `delete`, `launch`, `setup`, no second `warmup`; the new instance runs |
| `LxdProperties.CleanedReuse` | tests/unit/lxd/test_launcher.py:370-413 | the reuse stage with auto-clean on an incompatible instance: removed after `exists`, `is_running`, maybe `start`, `delete` |
| `LxdProperties.IncompatibleRefused` | tests/unit/lxd/test_launcher.py:416-450 | without auto-clean: the compatibility error with the check's reason, no `delete` or `launch` |
| `LxdProperties.EphemeralGoneAfterStop` | tests/integration/lxd/test_launcher.py:175-190 | an ephemeral instance launched afresh is gone once stopped |
| `LxdProperties.SnapshotReused` | tests/integration/lxd/test_launcher.py:82-112 | after a miss, a delete and a second launch: the snapshot exists, the second launch is a hit and the instance has the same files |
| `LxdProperties.FedoraInstanceLaunch` | tests/integration/lxd/test_launcher.py:284-317 | the Fedora instance is refused with the exact brief, and with auto-clean relaunched running |
| `LxdProperties.InvalidTagInstanceLaunch` | tests/integration/lxd/test_launcher.py:320-353 | the `invalid`-tagged instance is refused with the exact brief, and with auto-clean relaunched running |
| `MultipassLauncher.ReuseSpec` | tests/integration/multipass/test_launch.py:73-156 | a reused instance runs; a provision leaves the name free; a refused instance keeps its files |
| `MultipassLauncher.LaunchSpec` | tests/integration/multipass/test_launch.py:52-88 | a successful launch returns the name, whose instance exists and runs; the only error is the compatibility error |
| `MultipassLauncher.Multipass.constructor` | tests/integration/multipass/test_launch.py:29-40 | the backend starts with the given instances and no calls |
| `MultipassLauncher.MultipassInstance.constructor` | tests/integration/multipass/test_launch.py:35 | the handle keeps the name; its construction is recorded |
| `MultipassLauncher.MultipassInstance.Exists` | tests/integration/multipass/test_launch.py:63 | as `ExistsStep` |
| `MultipassLauncher.MultipassInstance.IsRunning` | tests/integration/multipass/test_launch.py:64 | as `IsRunningStep` |
| `MultipassLauncher.MultipassInstance.Start` | tests/integration/multipass/test_launch.py:73-88 | as `StartStep` |
| `MultipassLauncher.MultipassInstance.Delete` | tests/integration/multipass/test_launch.py:113-122 | as `DeleteStep` |
| `MultipassLauncher.MultipassInstance.Launch` | tests/integration/multipass/test_launch.py:55-59 | as `LaunchImageStep` |
| `MultipassLauncher.CheckExisting` | tests/integration/multipass/test_launch.py:73-156 | state, calls and outcome of `ReuseSpec` |
| `MultipassLauncher.Launch` | tests/integration/multipass/test_launch.py:52-156 | state, calls and result of `LaunchSpec`; a returned handle is on this backend with the name |
| `MultipassProperties.FreshLaunch` | tests/integration/multipass/test_launch.py:52-70 | no instance: construct, `exists`, `launch`, then `setup`; the instance runs with the image's files |
| `MultipassProperties.ExistingCompatible` | tests/integration/multipass/test_launch.py:73-88 | a compatible instance is reused, started only if stopped, checked once, and runs |
| `MultipassProperties.IncompatibleRefused` | tests/integration/multipass/test_launch.py:101-111 | without auto-clean: the compatibility error with the check's reason, the instance kept; the calls are construct, `exists`, `is_running`, then `start` only if it was stopped |
| `MultipassProperties.IncompatibleCleaned` | tests/integration/multipass/test_launch.py:113-122 | with auto-clean: deleted, launched afresh from the image, set up, running |
| `MultipassProperties.FedoraInstanceLaunch` | tests/integration/multipass/test_launch.py:91-122 | the Fedora instance is refused with the exact brief, and with auto-clean relaunched running |
| `MultipassProperties.InvalidTagInstanceLaunch` | tests/integration/multipass/test_launch.py:125-156 | the `invalid`-tagged instance is refused with the exact brief, and with auto-clean relaunched running |

## Left out

- Real processes, LXD, Multipass and the network. The backends are explicit state. The fake process registry answers from queues registered in advance.
- `env_cmd.formulate_command` is not part of this model. It is the function parameter `formulate` of the fake executor.
- The sanitizing hash of instance names: only one sample pair is visible (tests/unit/lxd/test_launcher.py:48-51). It is the function parameter `sanitize`.
- Remote image contents: the function parameter `imageFiles`.
- `time.sleep` and float times: a retry waits for nothing. Times and timeouts are integer ticks. The clock is a function from reading number to time.
- Mounts and uid mapping (tests/integration/lxd/test_launcher.py:195-263): `map_user_uid` and `uid` are only passed on to `launch`.
- The `responses` HTTP mock fixture (tests/unit/conftest.py:128-135) and the integration `tmp_instance` fixtures, which are not part of this model.
- `details_from_called_process_error`: a failure carries the failed process itself as its details.
- Test teardown: `image_delete`, `project.purge`, deleting instances after a test.
- Encodings: file contents and command output are strings, not bytes. `repr` escapes quotes, backslashes and ASCII control characters as Python does. Python's escaping of other non-printable characters is not modelled.
- Multipass's cpus, disk and memory arguments, and the Multipass `get_command_environment` call, which the tests do not show.
- The launchers do not propagate failures of `setup` and `wait_until_ready`. Those are modelled in `Buildd`, where the base configuration is the buildd base itself. In the launchers the base configuration is a descriptor that records the calls made on it.
- `Providers.BaseConfiguration.Setup`: records the call only; what it does to the instance is `Buildd.Setup`.
- `Providers.BaseConfiguration.WaitUntilReady`: records the call only; what it does is `Buildd.WaitUntilReady`.
- `Buildd.Setup`: the order of the phases beyond the order of the files written is inferred. The tests pin the files, not the order of the commands between them. The OS check reads `/etc/os-release` first.
- `BuilddProperties.AptFailure`: the brief "Failed to setup apt." is not pinned by any test.
- `BuilddProperties.NetworkTimesOutAtDeadline`: the test replaces the system wait by a no-op. The lemma instead has the system report ready on its first attempt, which reads no clock, so the clock sequence is the test's.
- `LxdLauncher.LxdInstance.Start`, `LxdLauncher.LxdInstance.Stop` and `LxdLauncher.LxdInstance.Delete` on a missing instance change nothing but the call record; no test calls them on a missing instance, so the backends' failure there is not modelled.
- `MultipassLauncher.MultipassInstance.Start` on a missing instance changes nothing but the call record; no test calls it on a missing instance, so the backend's failure there is not modelled.
- `MultipassLauncher.MultipassInstance.Delete` on a missing instance changes nothing but the call record; no test calls it on a missing instance, so the backend's failure there is not modelled.
- `Text.Trim`: its own contract states only the ends of the result. That the result is the input with only blanks cut off is the lemma `Text.TrimContent`. As an `ensures` of `Trim`, that existential would be in force wherever `Trim` is evaluated, and there the solver runs out of resource.
- `Text.IsSpace`: only the six ASCII whitespace characters. Python's `str.strip()` also removes `\x1c`-`\x1f`, `\x85`, `\xa0` and other Unicode spaces, which the tests never use.
- `LxdLauncher.Lxd.ProfileShow`: a profile the backend lacks reads as an empty configuration.
- `LxdLauncher.Lxd.Publish`: publishing a missing instance, or onto an existing alias without force, fails with a backend failure. The tests show neither case.
- `Fakes.FakeExecutor.Delete`: it has an empty frame, so it changes nothing, and no `ensures` to state it with.
