/** `setup` as a whole: under the answers `test_setup` registers it succeeds,
    writes its four files and runs every command once, in order. */
module SetupProperties {
  import opened Wrappers
  import opened Fakes
  import opened Bases
  import opened Buildd
  import opened BuilddProperties

  /** What a successful setup runs after each of its steps, in order. */
  const AfterApt: seq<seq<string>> := SnapdCommands
  const AfterNetwork: seq<seq<string>> := AptCommands + AfterApt
  const AfterNetworkd: seq<seq<string>> := [NetworkProbe.command] + AfterNetwork
  const AfterResolved: seq<seq<string>> := NetworkdCommands + AfterNetworkd
  const AfterHostname: seq<seq<string>> := ResolvedCommands + AfterResolved
  const AfterSystem: seq<seq<string>> := HostnameCommands + AfterHostname
  const AfterOs: seq<seq<string>> := [SystemProbe.command] + AfterSystem

  /** The registrations of `test_setup`: an os-release naming Ubuntu at the
      base's release, a systemd that reports a ready state, a name lookup
      that succeeds, and success for every command of the five phases. */
  predicate SetupAnswered(reg: Registry, pre: seq<string>, b: BuilddBase) {
    && Head(reg.responses, pre + OsReleaseCommand).Some?
    && OsMismatch(Head(reg.responses, pre + OsReleaseCommand).value.stdout, b.alias).None?
    && Head(reg.responses, pre + SystemProbe.command).Some?
    && SystemReady(Head(reg.responses, pre + SystemProbe.command).value.returnCode,
                   Head(reg.responses, pre + SystemProbe.command).value.stdout)
    && Succeeds(reg, pre + NetworkProbe.command)
    && AllSucceed(reg, pre, HostnameCommands)
    && AllSucceed(reg, pre, ResolvedCommands)
    && AllSucceed(reg, pre, NetworkdCommands)
    && AllSucceed(reg, pre, AptCommands)
    && AllSucceed(reg, pre, SnapdCommands)
  }

  /** Each of `cmds` is answered next with success. */
  predicate AllSucceed(reg: Registry, pre: seq<string>, cmds: seq<seq<string>>) {
    forall i :: 0 <= i < |cmds| ==> Succeeds(reg, pre + cmds[i])
  }

  /** The next answer to each of `cmds` is the same in both registries. */
  predicate Keeps(before: Registry, after: Registry, pre: seq<string>, cmds: seq<seq<string>>) {
    forall c :: c in cmds ==> Head(after.responses, pre + c) == Head(before.responses, pre + c)
  }

  /** No command of the base stage is run again by a later step. */
  lemma BaseStepsApart()
    ensures OsReleaseCommand !in AfterOs
    ensures SystemProbe.command !in AfterSystem
    ensures forall c :: c in AfterHostname ==> c !in HostnameCommands
    ensures Distinct(HostnameCommands)
  {
  }

  /** No command of the network stage is run again by a later step. */
  lemma NetworkStepsApart()
    ensures forall c :: c in AfterResolved ==> c !in ResolvedCommands
    ensures forall c :: c in AfterNetworkd ==> c !in NetworkdCommands
    ensures NetworkProbe.command !in AfterNetwork
    ensures Distinct(ResolvedCommands) && Distinct(NetworkdCommands)
  {
  }

  /** No apt command is run again by the snapd step, and no command twice
      within either. */
  lemma PackagesStepsApart()
    ensures forall c :: c in AfterApt ==> c !in AptCommands
    ensures Distinct(AptCommands) && Distinct(SnapdCommands)
  {
  }

  /** One answered command changes only its own queue. */
  lemma DispatchKeeps(reg: Registry, pre: seq<string>, cmd: seq<string>, rest: seq<seq<string>>)
    requires cmd !in rest
    ensures Keeps(reg, Dispatch(reg, pre + cmd).1, pre, rest)
  {
    forall c | c in rest ensures Head(Dispatch(reg, pre + cmd).1.responses, pre + c) == Head(reg.responses, pre + c) {
      PrefixInjective(pre, c, cmd);
      DispatchLeavesOthers(reg, pre + cmd, pre + c);
    }
  }

  /** A configuration phase whose commands all succeed passes, writes its
      file, issues its commands in order and leaves the later ones alone. */
  lemma PhaseRuns(pre: seq<string>, now: nat -> int, file: Option<FileRecord>, cmds: seq<seq<string>>,
                  brief: string, m: Machine, rest: seq<seq<string>>)
    requires Distinct(cmds)
    requires AllSucceed(m.registry, pre, cmds)
    requires forall c :: c in rest ==> c !in cmds
    ensures var s := ConfigStepSpec(pre, now, None, file, cmds, brief, m);
            && s.0 == Pass
            && s.1.files == m.files + (if file.Some? then [file.value] else [])
            && s.1.readings == m.readings
            && s.1.registry.calls == m.registry.calls + Issued(pre, cmds)
            && Keeps(m.registry, s.1.registry, pre, rest)
  {
    var m2 := if file.Some? then m.(files := m.files + [file.value]) else m;
    AllCommandsSucceed(pre, cmds, brief, m2);
    var after := CheckedRunsSpec(pre, cmds, brief, m2).1;
    forall c | c in rest ensures Head(after.registry.responses, pre + c) == Head(m.registry.responses, pre + c) {
      forall i | 0 <= i < |cmds| ensures pre + c != pre + cmds[i] {
        PrefixInjective(pre, c, cmds[i]);
      }
    }
  }

  /** A phase's commands still have the answers registered before setup. */
  lemma PhaseAnswered(reg0: Registry, reg: Registry, pre: seq<string>, cmds: seq<seq<string>>, rest: seq<seq<string>>)
    requires AllSucceed(reg0, pre, cmds)
    requires Keeps(reg0, reg, pre, cmds + rest)
    ensures AllSucceed(reg, pre, cmds)
  {
    forall i | 0 <= i < |cmds| ensures Succeeds(reg, pre + cmds[i]) {
      assert cmds[i] in cmds + rest;
    }
  }

  /** Under the test's os-release the OS check passes and /etc/environment is
      written: os-release is answered once and the clock is not read. */
  lemma OsCheckPasses(b: BuilddBase, pre: seq<string>, now: nat -> int, m: Machine)
    requires Head(m.registry.responses, pre + OsReleaseCommand).Some?
    requires OsMismatch(Head(m.registry.responses, pre + OsReleaseCommand).value.stdout, b.alias).None?
    ensures var s1 := OsSpec(b, pre, now, None, m);
            var s2 := EnvironmentSpec(b, now, None, s1.1);
            && s1.0 == Pass && s2.0 == Pass
            && s2.1.registry == Dispatch(m.registry, pre + OsReleaseCommand).1
            && s2.1.readings == m.readings
  {
  }

  /** The checks that open setup pass under the test's answers without
      reading the clock: the OS check, /etc/environment and the wait for
      systemd run os-release and the system probe once each, in order, and
      leave the later commands' answers untouched. */
  lemma BaseChecksPass(b: BuilddBase, pre: seq<string>, now: nat -> int, m: Machine)
    requires SetupAnswered(m.registry, pre, b)
    ensures var s1 := OsSpec(b, pre, now, None, m);
            var s2 := EnvironmentSpec(b, now, None, s1.1);
            var s3 := PollSpec(pre, SystemProbe, now, None, s2.1);
            && s1.0 == Pass && s2.0 == Pass && s3.0 == Pass
            && s3.1.readings == m.readings
            && s3.1.registry.calls == m.registry.calls + [pre + OsReleaseCommand, pre + SystemProbe.command]
            && Keeps(m.registry, s3.1.registry, pre, AfterSystem)
  {
    OsCheckPasses(b, pre, now, m);
    BaseStepsApart();
    var r1 := Dispatch(m.registry, pre + OsReleaseCommand).1;
    DispatchKeeps(m.registry, pre, OsReleaseCommand, AfterOs);
    var m2 := EnvironmentSpec(b, now, None, OsSpec(b, pre, now, None, m).1).1;
    assert SystemProbe.command in AfterOs;
    PollStops(pre, SystemProbe, now, None, m2);
    DispatchKeeps(r1, pre, SystemProbe.command, AfterSystem);
  }

  /** The base stage under the test's answers passes without reading the
      clock: os-release, systemd and the hostname command are each run once,
      and the later commands' answers are untouched. */
  lemma BaseStageSucceeds(b: BuilddBase, pre: seq<string>, now: nat -> int, m: Machine)
    requires SetupAnswered(m.registry, pre, b)
    ensures var s := BaseStageSpec(b, pre, now, None, m);
            && s.0 == Pass
            && s.1.readings == m.readings
            && s.1.registry.calls ==
                 m.registry.calls + [pre + OsReleaseCommand, pre + SystemProbe.command] + Issued(pre, HostnameCommands)
            && Keeps(m.registry, s.1.registry, pre, AfterHostname)
  {
    BaseChecksPass(b, pre, now, m);
    BaseStepsApart();
    var m1 := OsSpec(b, pre, now, None, m).1;
    var m2 := EnvironmentSpec(b, now, None, m1).1;
    var m3 := PollSpec(pre, SystemProbe, now, None, m2).1;
    PhaseAnswered(m.registry, m3.registry, pre, HostnameCommands, AfterHostname);
    PhaseRuns(pre, now, Some(HostnameFile(b)), HostnameCommands, HostnameFailed, m3, AfterHostname);
  }

  /** The network stage under the test's answers passes without reading the
      clock: the systemd-resolved and systemd-networkd commands run in order,
      the name lookup once, and the later commands' answers are untouched. */
  lemma NetworkStageSucceeds(b: BuilddBase, reg0: Registry, pre: seq<string>, now: nat -> int, m: Machine)
    requires SetupAnswered(reg0, pre, b)
    requires Keeps(reg0, m.registry, pre, AfterHostname)
    ensures var s := NetworkStageSpec(pre, now, None, m);
            && s.0 == Pass
            && s.1.readings == m.readings
            && s.1.registry.calls ==
                 m.registry.calls + Issued(pre, ResolvedCommands) + Issued(pre, NetworkdCommands) + [pre + NetworkProbe.command]
            && Keeps(reg0, s.1.registry, pre, AfterNetwork)
  {
    NetworkStepsApart();
    PhaseAnswered(reg0, m.registry, pre, ResolvedCommands, AfterResolved);
    PhaseRuns(pre, now, None, ResolvedCommands, ResolvedFailed, m, AfterResolved);
    var m5 := ResolvedSpec(pre, now, None, m).1;
    assert Keeps(reg0, m5.registry, pre, AfterResolved);
    PhaseAnswered(reg0, m5.registry, pre, NetworkdCommands, AfterNetworkd);
    PhaseRuns(pre, now, Some(NetworkFile), NetworkdCommands, NetworkdFailed, m5, AfterNetworkd);
    var m6 := NetworkdSpec(pre, now, None, m5).1;
    assert Keeps(reg0, m6.registry, pre, AfterNetworkd);
    assert NetworkProbe.command in AfterNetworkd;
    PollStops(pre, NetworkProbe, now, None, m6);
    DispatchKeeps(m6.registry, pre, NetworkProbe.command, AfterNetwork);
  }

  /** The packages stage under the test's answers passes without reading the
      clock: the apt commands, then the snapd commands, each once in order. */
  lemma PackagesStageSucceeds(b: BuilddBase, reg0: Registry, pre: seq<string>, now: nat -> int, m: Machine)
    requires SetupAnswered(reg0, pre, b)
    requires Keeps(reg0, m.registry, pre, AfterNetwork)
    ensures var s := PackagesStageSpec(pre, now, None, m);
            && s.0 == Pass
            && s.1.readings == m.readings
            && s.1.registry.calls == m.registry.calls + Issued(pre, AptCommands) + Issued(pre, SnapdCommands)
  {
    PackagesStepsApart();
    PhaseAnswered(reg0, m.registry, pre, AptCommands, AfterApt);
    PhaseRuns(pre, now, Some(AptFile), AptCommands, AptFailed, m, AfterApt);
    var m8 := AptSpec(pre, now, None, m).1;
    assert Keeps(reg0, m8.registry, pre, AfterApt);
    PhaseAnswered(reg0, m8.registry, pre, SnapdCommands, []);
    PhaseRuns(pre, now, None, SnapdCommands, SnapdFailed, m8, []);
  }

  /** `test_setup`: with every command answered as the test registers them and
      no timeout, setup succeeds and writes exactly /etc/environment,
      /etc/hostname, the networkd configuration and the apt configuration, in
      that order. It runs each command once, phase by phase in order, and
      never reads the clock. */
  lemma SetupSucceeds(b: BuilddBase, pre: seq<string>, now: nat -> int, m: Machine)
    requires SetupAnswered(m.registry, pre, b)
    ensures SetupSpec(b, pre, now, None, m).0 == Pass
    ensures SetupSpec(b, pre, now, None, m).1.files == m.files + SetupFiles(b)
    ensures SetupSpec(b, pre, now, None, m).1.readings == m.readings
    ensures SetupSpec(b, pre, now, None, m).1.registry.calls ==
            m.registry.calls + [pre + OsReleaseCommand, pre + SystemProbe.command] + Issued(pre, HostnameCommands) +
            Issued(pre, ResolvedCommands) + Issued(pre, NetworkdCommands) + [pre + NetworkProbe.command] +
            Issued(pre, AptCommands) + Issued(pre, SnapdCommands)
  {
    SetupWritesFourFiles(b, pre, now, None, m);
    BaseStageSucceeds(b, pre, now, m);
    var s1 := BaseStageSpec(b, pre, now, None, m);
    assert s1.0 == Pass;
    NetworkStageSucceeds(b, m.registry, pre, now, s1.1);
    var s2 := NetworkStageSpec(pre, now, None, s1.1);
    assert s2.0 == Pass;
    PackagesStageSucceeds(b, m.registry, pre, now, s2.1);
    var s3 := PackagesStageSpec(pre, now, None, s2.1);
    assert s3.0 == Pass;
  }
}
