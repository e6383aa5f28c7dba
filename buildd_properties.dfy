/** What the buildd base promises about provisioning, proved on its specification. */
module BuilddProperties {
  import opened Wrappers
  import opened Text
  import opened Fakes
  import opened Bases
  import opened Buildd

  /** The next invocation of `argv` is answered with exit code 0. */
  predicate Succeeds(reg: Registry, argv: seq<string>) {
    Head(reg.responses, argv).Some? && Head(reg.responses, argv).value.returnCode == 0
  }

  /** The next invocation of `argv` is answered with a non-zero exit code. */
  predicate FailsNext(reg: Registry, argv: seq<string>) {
    Head(reg.responses, argv).Some? && Head(reg.responses, argv).value.returnCode != 0
  }

  predicate Distinct(cmds: seq<seq<string>>) {
    forall i, j :: 0 <= i < j < |cmds| ==> cmds[i] != cmds[j]
  }

  /** The command lines issued for `cmds`, in order. */
  function Issued(pre: seq<string>, cmds: seq<seq<string>>): (argvs: seq<seq<string>>)
    ensures |argvs| == |cmds|
    decreases |cmds|
  {
    if cmds == [] then [] else [pre + cmds[0]] + Issued(pre, cmds[1..])
  }

  /** `n` invocations of the same command line. */
  function Repeat(argv: seq<string>, n: nat): (argvs: seq<seq<string>>)
    ensures |argvs| == n
  {
    if n == 0 then [] else [argv] + Repeat(argv, n - 1)
  }

  lemma PrefixInjective(pre: seq<string>, x: seq<string>, y: seq<string>)
    ensures pre + x == pre + y ==> x == y
  {
    if pre + x == pre + y {
      assert x == (pre + x)[|pre|..];
      assert y == (pre + y)[|pre|..];
    }
  }

  // ---------------------------------------------------------------------
  // A step's commands
  // ---------------------------------------------------------------------

  lemma FirstCommandPasses(pre: seq<string>, cmds: seq<seq<string>>, brief: string, m: Machine)
    requires cmds != [] && Succeeds(m.registry, pre + cmds[0])
    ensures CheckedRunsSpec(pre, cmds, brief, m) ==
            CheckedRunsSpec(pre, cmds[1..], brief, m.(registry := Dispatch(m.registry, pre + cmds[0]).1))
  {
  }

  /** When every command is answered with success, the step passes, calls each
      command once in order and leaves every other command's answers alone. */
  lemma {:induction false} AllCommandsSucceed(pre: seq<string>, cmds: seq<seq<string>>, brief: string, m: Machine)
    requires Distinct(cmds)
    requires forall i :: 0 <= i < |cmds| ==> Succeeds(m.registry, pre + cmds[i])
    ensures CheckedRunsSpec(pre, cmds, brief, m).0 == Pass
    ensures CheckedRunsSpec(pre, cmds, brief, m).1.registry.calls == m.registry.calls + Issued(pre, cmds)
    ensures forall other :: (forall i :: 0 <= i < |cmds| ==> other != pre + cmds[i]) ==>
              Head(CheckedRunsSpec(pre, cmds, brief, m).1.registry.responses, other) == Head(m.registry.responses, other)
    decreases |cmds|
  {
    if cmds != [] {
      var argv := pre + cmds[0];
      var m1 := m.(registry := Dispatch(m.registry, argv).1);
      assert CheckedRunsSpec(pre, cmds, brief, m) == CheckedRunsSpec(pre, cmds[1..], brief, m1);
      forall i | 0 <= i < |cmds[1..]|
        ensures Succeeds(m1.registry, pre + cmds[1..][i])
      {
        PrefixInjective(pre, cmds[0], cmds[i + 1]);
      }
      AllCommandsSucceed(pre, cmds[1..], brief, m1);
      var after := CheckedRunsSpec(pre, cmds[1..], brief, m1).1;
      forall other | (forall i :: 0 <= i < |cmds| ==> other != pre + cmds[i])
        ensures Head(after.registry.responses, other) == Head(m.registry.responses, other)
      {
        assert other != argv;
        assert forall i :: 0 <= i < |cmds[1..]| ==> other != pre + cmds[1..][i] by {
          forall i | 0 <= i < |cmds[1..]| ensures other != pre + cmds[1..][i] {
            assert cmds[1..][i] == cmds[i + 1];
          }
        }
      }
      assert Issued(pre, cmds) == [argv] + Issued(pre, cmds[1..]);
    }
  }

  /** When the commands before the `k`-th succeed and the `k`-th fails, the
      step fails with its brief and that process as details, having called
      exactly the first `k + 1` commands. */
  lemma {:induction false} CommandFails(pre: seq<string>, cmds: seq<seq<string>>, brief: string, m: Machine, k: nat)
    requires k < |cmds| && Distinct(cmds)
    requires forall i :: 0 <= i < k ==> Succeeds(m.registry, pre + cmds[i])
    requires FailsNext(m.registry, pre + cmds[k])
    ensures var h := Head(m.registry.responses, pre + cmds[k]).value;
            CheckedRunsSpec(pre, cmds, brief, m).0 ==
              Fail(ConfigurationError(brief, Some(Completed(pre + cmds[k], h.returnCode, h.stdout))))
    ensures CheckedRunsSpec(pre, cmds, brief, m).1.registry.calls == m.registry.calls + Issued(pre, cmds[..k + 1])
    decreases k
  {
    var argv := pre + cmds[0];
    var m1 := m.(registry := Dispatch(m.registry, argv).1);
    if k > 0 {
      FirstCommandPasses(pre, cmds, brief, m);
      var rest := cmds[1..];
      assert forall i :: 0 <= i < k - 1 ==> Succeeds(m1.registry, pre + rest[i]) by {
        forall i | 0 <= i < k - 1 ensures Succeeds(m1.registry, pre + rest[i]) {
          PrefixInjective(pre, cmds[0], cmds[i + 1]);
        }
      }
      assert Head(m1.registry.responses, pre + rest[k - 1]) == Head(m.registry.responses, pre + cmds[k]) by {
        PrefixInjective(pre, cmds[0], cmds[k]);
      }
      CommandFails(pre, rest, brief, m1, k - 1);
      assert Issued(pre, cmds[..k + 1]) == [argv] + Issued(pre, rest[..k]) by {
        assert rest[..k] == cmds[..k + 1][1..];
      }
    } else {
      FirstCommandFails(pre, cmds, brief, m);
    }
  }

  lemma FirstCommandFails(pre: seq<string>, cmds: seq<seq<string>>, brief: string, m: Machine)
    requires cmds != [] && FailsNext(m.registry, pre + cmds[0])
    ensures var h := Head(m.registry.responses, pre + cmds[0]).value;
            CheckedRunsSpec(pre, cmds, brief, m) ==
              (Fail(ConfigurationError(brief, Some(Completed(pre + cmds[0], h.returnCode, h.stdout)))),
               m.(registry := Dispatch(m.registry, pre + cmds[0]).1))
    ensures Issued(pre, cmds[..1]) == [pre + cmds[0]]
  {
    assert Issued(pre, cmds[..1]) == [pre + cmds[0]];
  }

  // ---------------------------------------------------------------------
  // The phases of setup and their briefs
  // ---------------------------------------------------------------------

  /** The pattern of the failure tests: no deadline, and the `k`-th command of
      the step is the first whose answer is a failure. */
  predicate FirstFailureAt(reg: Registry, pre: seq<string>, cmds: seq<seq<string>>, k: nat) {
    && k < |cmds|
    && (forall i :: 0 <= i < k ==> Succeeds(reg, pre + cmds[i]))
    && FailsNext(reg, pre + cmds[k])
  }

  lemma StepFails(pre: seq<string>, now: nat -> int, file: Option<FileRecord>, cmds: seq<seq<string>>,
                  brief: string, m: Machine, k: nat)
    requires Distinct(cmds) && FirstFailureAt(m.registry, pre, cmds, k)
    ensures var h := Head(m.registry.responses, pre + cmds[k]).value;
            ConfigStepSpec(pre, now, None, file, cmds, brief, m).0 ==
              Fail(ConfigurationError(brief, Some(Completed(pre + cmds[k], h.returnCode, h.stdout))))
  {
    var m2 := if file.Some? then m.(files := m.files + [file.value]) else m;
    CommandFails(pre, cmds, brief, m2, k);
  }

  lemma StepSucceeds(pre: seq<string>, now: nat -> int, file: Option<FileRecord>, cmds: seq<seq<string>>,
                     brief: string, m: Machine)
    requires Distinct(cmds)
    requires forall i :: 0 <= i < |cmds| ==> Succeeds(m.registry, pre + cmds[i])
    ensures ConfigStepSpec(pre, now, None, file, cmds, brief, m).0 == Pass
    ensures ConfigStepSpec(pre, now, None, file, cmds, brief, m).1.files ==
            m.files + (if file.Some? then [file.value] else [])
  {
    var m2 := if file.Some? then m.(files := m.files + [file.value]) else m;
    AllCommandsSucceed(pre, cmds, brief, m2);
  }

  /** A failing `hostname -F /etc/hostname` fails with "Failed to set hostname.",
      after /etc/hostname was written. */
  lemma HostnameFailure(b: BuilddBase, pre: seq<string>, now: nat -> int, m: Machine)
    requires FailsNext(m.registry, pre + ["hostname", "-F", "/etc/hostname"])
    ensures var h := Head(m.registry.responses, pre + HostnameCommands[0]).value;
            HostnameSpec(b, pre, now, None, m).0 ==
              Fail(ConfigurationError("Failed to set hostname.", Some(Completed(pre + HostnameCommands[0], h.returnCode, h.stdout))))
    ensures HostnameSpec(b, pre, now, None, m).1.files == m.files + [ConfigFile("/etc/hostname", b.hostname + "\n")]
  {
    StepFails(pre, now, Some(HostnameFile(b)), HostnameCommands, HostnameFailed, m, 0);
  }

  /** A failing enable or restart of systemd-resolved (after the resolv.conf
      link) fails with "Failed to setup systemd-resolved.". */
  lemma ResolvedFailure(pre: seq<string>, now: nat -> int, m: Machine, k: nat)
    requires FirstFailureAt(m.registry, pre, ResolvedCommands, k)
    ensures var h := Head(m.registry.responses, pre + ResolvedCommands[k]).value;
            ResolvedSpec(pre, now, None, m).0 ==
              Fail(ConfigurationError("Failed to setup systemd-resolved.", Some(Completed(pre + ResolvedCommands[k], h.returnCode, h.stdout))))
  {
    StepFails(pre, now, None, ResolvedCommands, ResolvedFailed, m, k);
  }

  /** A failing enable or restart of systemd-networkd fails with
      "Failed to setup systemd-networkd.". */
  lemma NetworkdFailure(pre: seq<string>, now: nat -> int, m: Machine, k: nat)
    requires FirstFailureAt(m.registry, pre, NetworkdCommands, k)
    ensures var h := Head(m.registry.responses, pre + NetworkdCommands[k]).value;
            NetworkdSpec(pre, now, None, m).0 ==
              Fail(ConfigurationError("Failed to setup systemd-networkd.", Some(Completed(pre + NetworkdCommands[k], h.returnCode, h.stdout))))
  {
    StepFails(pre, now, Some(NetworkFile), NetworkdCommands, NetworkdFailed, m, k);
  }

  lemma AptFailure(pre: seq<string>, now: nat -> int, m: Machine, k: nat)
    requires FirstFailureAt(m.registry, pre, AptCommands, k)
    ensures var h := Head(m.registry.responses, pre + AptCommands[k]).value;
            AptSpec(pre, now, None, m).0 ==
              Fail(ConfigurationError("Failed to setup apt.", Some(Completed(pre + AptCommands[k], h.returnCode, h.stdout))))
  {
    StepFails(pre, now, Some(AptFile), AptCommands, AptFailed, m, k);
  }

  /** Whichever of the seven snapd commands fails first, the step fails with
      "Failed to setup snapd." and that command's process as details. */
  lemma SnapdFailure(pre: seq<string>, now: nat -> int, m: Machine, k: nat)
    requires FirstFailureAt(m.registry, pre, SnapdCommands, k)
    ensures var h := Head(m.registry.responses, pre + SnapdCommands[k]).value;
            SnapdSpec(pre, now, None, m).0 ==
              Fail(ConfigurationError("Failed to setup snapd.", Some(Completed(pre + SnapdCommands[k], h.returnCode, h.stdout))))
  {
    StepFails(pre, now, None, SnapdCommands, SnapdFailed, m, k);
  }

  /** The converse: when all seven snapd commands succeed, so does the step. */
  lemma SnapdSuccess(pre: seq<string>, now: nat -> int, m: Machine)
    requires forall i :: 0 <= i < |SnapdCommands| ==> Succeeds(m.registry, pre + SnapdCommands[i])
    ensures SnapdSpec(pre, now, None, m).0 == Pass
  {
    StepSucceeds(pre, now, None, SnapdCommands, SnapdFailed, m);
  }

  // ---------------------------------------------------------------------
  // Polling
  // ---------------------------------------------------------------------

  /** Without a deadline, a probe whose `k`-th queued answer is the first ready
      one is invoked exactly `k + 1` times, consuming those answers, without
      reading the clock. */
  lemma {:induction false} PollUntilReady(pre: seq<string>, p: Probe, now: nat -> int, m: Machine, k: nat)
    requires pre + p.command in m.registry.responses
    requires k < |m.registry.responses[pre + p.command]|
    requires forall j :: 0 <= j < k ==>
               !p.ready(m.registry.responses[pre + p.command][j].returnCode, m.registry.responses[pre + p.command][j].stdout)
    requires p.ready(m.registry.responses[pre + p.command][k].returnCode, m.registry.responses[pre + p.command][k].stdout)
    ensures var argv := pre + p.command;
            var q := m.registry.responses[argv];
            PollSpec(pre, p, now, None, m) ==
              (Pass, m.(registry := Registry(m.registry.responses[argv := q[k + 1..]], m.registry.calls + Repeat(argv, k + 1))))
    decreases k
  {
    var argv := pre + p.command;
    var q := m.registry.responses[argv];
    var m1 := m.(registry := Dispatch(m.registry, argv).1);
    assert m1.registry == Registry(m.registry.responses[argv := q[1..]], m.registry.calls + [argv]);
    if k > 0 {
      assert !p.ready(q[0].returnCode, q[0].stdout);
      PollRetries(pre, p, now, m);
      var q1 := m1.registry.responses[argv];
      assert q1 == q[1..];
      assert forall j :: 0 <= j < k - 1 ==> !p.ready(q1[j].returnCode, q1[j].stdout) by {
        forall j | 0 <= j < k - 1 ensures !p.ready(q1[j].returnCode, q1[j].stdout) {
          assert q1[j] == q[j + 1];
        }
      }
      assert q1[k - 1] == q[k];
      PollUntilReady(pre, p, now, m1, k - 1);
      assert q1[k..] == q[k + 1..];
      assert m.registry.responses[argv := q[1..]][argv := q[k + 1..]] == m.registry.responses[argv := q[k + 1..]];
      assert m.registry.calls + [argv] + Repeat(argv, k) == m.registry.calls + Repeat(argv, k + 1) by {
        assert Repeat(argv, k + 1) == [argv] + Repeat(argv, k);
      }
    } else {
      PollStops(pre, p, now, None, m);
      assert Repeat(argv, 1) == [argv];
    }
  }

  /** A probe answer that is not ready, without a deadline, means one more attempt. */
  lemma PollRetries(pre: seq<string>, p: Probe, now: nat -> int, m: Machine)
    requires Head(m.registry.responses, pre + p.command).Some?
    requires !p.ready(Head(m.registry.responses, pre + p.command).value.returnCode,
                    Head(m.registry.responses, pre + p.command).value.stdout)
    ensures PollSpec(pre, p, now, None, m) ==
            PollSpec(pre, p, now, None, m.(registry := Dispatch(m.registry, pre + p.command).1))
  {
  }

  /** A ready answer ends the poll. */
  lemma PollStops(pre: seq<string>, p: Probe, now: nat -> int, deadline: Option<int>, m: Machine)
    requires Head(m.registry.responses, pre + p.command).Some?
    requires p.ready(Head(m.registry.responses, pre + p.command).value.returnCode,
                   Head(m.registry.responses, pre + p.command).value.stdout)
    ensures PollSpec(pre, p, now, deadline, m) ==
            (Pass, m.(registry := Dispatch(m.registry, pre + p.command).1))
  {
  }

  /** The deadline rule of every poll: after a failed attempt the poll times
      out with its brief when the clock has reached the deadline (equality
      included), and otherwise tries again. */
  lemma PollDeadlineRule(pre: seq<string>, p: Probe, now: nat -> int, d: int, m: Machine)
    requires Head(m.registry.responses, pre + p.command).Some?
    requires !p.ready(Head(m.registry.responses, pre + p.command).value.returnCode,
                      Head(m.registry.responses, pre + p.command).value.stdout)
    ensures var next := m.(registry := Dispatch(m.registry, pre + p.command).1, readings := m.readings + 1);
            && (now(m.readings) >= d ==>
                  PollSpec(pre, p, now, Some(d), m) == (Fail(ConfigurationError(p.timeoutBrief, None)), next))
            && (now(m.readings) < d ==> PollSpec(pre, p, now, Some(d), m) == PollSpec(pre, p, now, Some(d), next))
  {
  }

  /** Polling one probe leaves every other command line's answers alone. */
  lemma {:induction false} PollLeavesOthers(pre: seq<string>, p: Probe, now: nat -> int, deadline: Option<int>,
                                            m: Machine, other: seq<string>)
    requires other != pre + p.command
    ensures Head(PollSpec(pre, p, now, deadline, m).1.registry.responses, other) == Head(m.registry.responses, other)
    decreases Pending(m.registry.responses, pre + p.command)
  {
    DispatchLeavesOthers(m.registry, pre + p.command, other);
    var (r, m1) := RunSpec(pre, p.command, m);
    if r.Ran? && !p.ready(r.process.returnCode, r.process.stdout) {
      var (o, m2) := DeadlineSpec(now, deadline, p.timeoutBrief, m1);
      if o.Pass? {
        PollLeavesOthers(pre, p, now, deadline, m2, other);
      }
    }
  }

  /** The system probe's command line and the network probe's differ. */
  lemma ProbesAreDistinct(pre: seq<string>)
    ensures pre + NetworkProbe.command != pre + SystemProbe.command
  {
    PrefixInjective(pre, NetworkProbe.command, SystemProbe.command);
  }

  /** `wait_until_ready` with a timeout reads the clock once for the deadline. */
  lemma WaitWithTimeout(pre: seq<string>, now: nat -> int, t: int, m: Machine)
    ensures WaitUntilReadySpec(pre, now, Some(t), m) ==
            PollBothSpec(pre, SystemProbe, NetworkProbe, now, Some(now(m.readings) + t), m.(readings := m.readings + 1))
  {
    assert StartSpec(now, Some(t), m).0 == Some(now(m.readings) + t);
    assert StartSpec(now, Some(t), m).1 == m.(readings := m.readings + 1);
  }

  /** Without a timeout the clock is not read. */
  lemma WaitWithoutTimeout(pre: seq<string>, now: nat -> int, m: Machine)
    ensures WaitUntilReadySpec(pre, now, None, m) == PollBothSpec(pre, SystemProbe, NetworkProbe, now, None, m)
  {
  }

  /** Both polls: the second runs only once the first has passed. */
  lemma PollBothStages(pre: seq<string>, first: Probe, second: Probe, now: nat -> int, deadline: Option<int>, m: Machine)
    ensures var s1 := PollSpec(pre, first, now, deadline, m);
            PollBothSpec(pre, first, second, now, deadline, m) ==
              if s1.0.Fail? then s1 else PollSpec(pre, second, now, deadline, s1.1)
  {
  }

  /** Both polls without a deadline, for any two probes with different command
      lines: each probe is invoked until its first ready answer, the first
      probe's invocations before the second's; no file is written and the
      clock is not read. */
  lemma PollBoth(pre: seq<string>, first: Probe, second: Probe, now: nat -> int, m: Machine, k1: nat, k2: nat)
    requires pre + first.command != pre + second.command
    requires var a := pre + first.command;
             && a in m.registry.responses && k1 < |m.registry.responses[a]|
             && (forall j :: 0 <= j < k1 ==>
                   !first.ready(m.registry.responses[a][j].returnCode, m.registry.responses[a][j].stdout))
             && first.ready(m.registry.responses[a][k1].returnCode, m.registry.responses[a][k1].stdout)
    requires var a := pre + second.command;
             && a in m.registry.responses && k2 < |m.registry.responses[a]|
             && (forall j :: 0 <= j < k2 ==>
                   !second.ready(m.registry.responses[a][j].returnCode, m.registry.responses[a][j].stdout))
             && second.ready(m.registry.responses[a][k2].returnCode, m.registry.responses[a][k2].stdout)
    ensures var s := PollBothSpec(pre, first, second, now, None, m);
            && s.0 == Pass
            && s.1.files == m.files
            && s.1.readings == m.readings
            && s.1.registry.calls == m.registry.calls + Repeat(pre + first.command, k1 + 1) + Repeat(pre + second.command, k2 + 1)
  {
    var a1 := pre + first.command;
    var a2 := pre + second.command;
    var q := m.registry.responses[a1];
    PollUntilReady(pre, first, now, m, k1);
    var m1 := m.(registry := Registry(m.registry.responses[a1 := q[k1 + 1..]], m.registry.calls + Repeat(a1, k1 + 1)));
    assert a2 in m1.registry.responses && m1.registry.responses[a2] == m.registry.responses[a2];
    PollUntilReady(pre, second, now, m1, k2);
    PollBothStages(pre, first, second, now, None, m);
  }

  /** `wait_until_ready` without a timeout: `is-system-running` until it reports
      ready, then `getent hosts snapcraft.io` until it succeeds; no file is
      written and the clock is not read. */
  lemma WaitUntilReadyCalls(pre: seq<string>, now: nat -> int, m: Machine, ks: nat, kn: nat)
    requires var sys := pre + SystemProbe.command;
             && sys in m.registry.responses && ks < |m.registry.responses[sys]|
             && (forall j :: 0 <= j < ks ==>
                   !SystemReady(m.registry.responses[sys][j].returnCode, m.registry.responses[sys][j].stdout))
             && SystemReady(m.registry.responses[sys][ks].returnCode, m.registry.responses[sys][ks].stdout)
    requires var net := pre + NetworkProbe.command;
             && net in m.registry.responses && kn < |m.registry.responses[net]|
             && (forall j :: 0 <= j < kn ==> m.registry.responses[net][j].returnCode != 0)
             && m.registry.responses[net][kn].returnCode == 0
    ensures var s := WaitUntilReadySpec(pre, now, None, m);
            && s.0 == Pass
            && s.1.files == m.files
            && s.1.readings == m.readings
            && s.1.registry.calls ==
                 m.registry.calls + Repeat(pre + SystemProbe.command, ks + 1) + Repeat(pre + NetworkProbe.command, kn + 1)
  {
    var q := m.registry.responses[pre + SystemProbe.command];
    forall j | 0 <= j < ks ensures !SystemProbe.ready(q[j].returnCode, q[j].stdout) {
      assert !SystemReady(q[j].returnCode, q[j].stdout);
    }
    assert SystemProbe.ready(q[ks].returnCode, q[ks].stdout);
    ProbesAreDistinct(pre);
    PollBoth(pre, SystemProbe, NetworkProbe, now, m, ks, kn);
    WaitWithoutTimeout(pre, now, m);
  }

  /** The answers of the readiness test: `not-ready` and `still-not-ready` are
      not ready states, `degraded` and `running` are. */
  lemma SystemAnswers(first: string, second: string, ready: string)
    requires first == "not-ready" && second == "still-not-ready"
    requires ready == "degraded" || ready == "running"
    ensures !SystemReady(-1, first) && !SystemReady(0, second) && SystemReady(0, ready)
  {
    TrimKeeps(first);
    TrimKeeps(second);
    TrimKeeps(ready);
  }

  /** The readiness test: `is-system-running` answers `not-ready` (exit -1),
      `still-not-ready`, then a ready state; `getent` fails once, then
      succeeds. Three system probes, then two network probes. `SystemAnswers`
      shows that the test's answers meet the first requirement. */
  lemma WaitUntilReadyScenario(pre: seq<string>, now: nat -> int, m: Machine, first: string, second: string, ready: string)
    requires !SystemReady(-1, first) && !SystemReady(0, second) && SystemReady(0, ready)
    requires m.registry.calls == []
    requires pre + SystemProbe.command in m.registry.responses
    requires m.registry.responses[pre + SystemProbe.command] == [Response(-1, first), Response(0, second), Response(0, ready)]
    requires pre + NetworkProbe.command in m.registry.responses
    requires m.registry.responses[pre + NetworkProbe.command] == [Response(-1, ""), Response(0, "")]
    ensures var sys := pre + SystemProbe.command;
            var net := pre + NetworkProbe.command;
            var s := WaitUntilReadySpec(pre, now, None, m);
            s.0 == Pass && s.1.files == m.files && s.1.registry.calls == [sys, sys, sys, net, net]
  {
    var sys := pre + SystemProbe.command;
    var net := pre + NetworkProbe.command;
    ScenarioQueues(SystemReady, m.registry.responses, sys, net, first, second, ready);
    WaitUntilReadyCalls(pre, now, m, 2, 1);
  }

  /** The readiness test's answer queues, as `WaitUntilReadyCalls` asks for them,
      for any readiness test `ready` of the system probe, and the calls they
      lead to: three of `sys`, then two of `net`. */
  lemma ScenarioQueues(isReady: (int, string) -> bool, responses: map<seq<string>, seq<Response>>,
                       sys: seq<string>, net: seq<string>, first: string, second: string, ready: string)
    requires !isReady(-1, first) && !isReady(0, second) && isReady(0, ready)
    requires sys in responses && responses[sys] == [Response(-1, first), Response(0, second), Response(0, ready)]
    requires net in responses && responses[net] == [Response(-1, ""), Response(0, "")]
    ensures 2 < |responses[sys]|
    ensures forall j :: 0 <= j < 2 ==> !isReady(responses[sys][j].returnCode, responses[sys][j].stdout)
    ensures isReady(responses[sys][2].returnCode, responses[sys][2].stdout)
    ensures 1 < |responses[net]|
    ensures forall j :: 0 <= j < 1 ==> responses[net][j].returnCode != 0
    ensures responses[net][1].returnCode == 0
    ensures [] + Repeat(sys, 3) + Repeat(net, 2) == [sys, sys, sys, net, net]
  {
    assert Repeat(sys, 1) == [sys] && Repeat(net, 1) == [net];
    assert Repeat(sys, 3) == [sys, sys, sys];
    assert Repeat(net, 2) == [net, net];
    var q := responses[sys];
    forall j | 0 <= j < 2 ensures !isReady(q[j].returnCode, q[j].stdout) {
      if j == 0 {
        assert q[0] == Response(-1, first);
      } else {
        assert q[1] == Response(0, second);
      }
    }
    assert q[2] == Response(0, ready);
  }

  /** With a timeout the clock has already exhausted at the first check, the
      system probe times out after one attempt that did not report ready. */
  lemma WaitUntilReadyTimesOut(pre: seq<string>, now: nat -> int, t: int, m: Machine)
    requires Head(m.registry.responses, pre + SystemProbe.command).Some?
    requires !SystemReady(Head(m.registry.responses, pre + SystemProbe.command).value.returnCode,
                          Head(m.registry.responses, pre + SystemProbe.command).value.stdout)
    requires now(m.readings + 1) >= now(m.readings) + t
    ensures WaitUntilReadySpec(pre, now, Some(t), m).0 ==
            Fail(ConfigurationError("Timed out waiting for environment to be ready.", None))
    ensures WaitUntilReadySpec(pre, now, Some(t), m).1.readings == m.readings + 2
  {
    var d := now(m.readings) + t;
    var m0 := m.(readings := m.readings + 1);
    assert !SystemProbe.ready(Head(m0.registry.responses, pre + SystemProbe.command).value.returnCode,
                              Head(m0.registry.responses, pre + SystemProbe.command).value.stdout);
    FirstPollTimesOut(pre, SystemProbe, NetworkProbe, now, d, m0);
    WaitWithTimeout(pre, now, t, m);
  }

  /** A first probe that is not ready once the deadline has passed ends both
      polls with its timeout, after one more clock reading. */
  lemma FirstPollTimesOut(pre: seq<string>, first: Probe, second: Probe, now: nat -> int, d: int, m: Machine)
    requires Head(m.registry.responses, pre + first.command).Some?
    requires !first.ready(Head(m.registry.responses, pre + first.command).value.returnCode,
                          Head(m.registry.responses, pre + first.command).value.stdout)
    requires now(m.readings) >= d
    ensures PollBothSpec(pre, first, second, now, Some(d), m).0 == Fail(ConfigurationError(first.timeoutBrief, None))
    ensures PollBothSpec(pre, first, second, now, Some(d), m).1.readings == m.readings + 1
  {
    PollDeadlineRule(pre, first, now, d, m);
  }

  /** Once the system is ready, the network probe times out when the clock
      reaches the deadline exactly: clock 0 then 1 with timeout 1. */
  lemma NetworkTimesOutAtDeadline(pre: seq<string>, now: nat -> int, t: int, m: Machine)
    requires Head(m.registry.responses, pre + SystemProbe.command).Some?
    requires SystemReady(Head(m.registry.responses, pre + SystemProbe.command).value.returnCode,
                         Head(m.registry.responses, pre + SystemProbe.command).value.stdout)
    requires FailsNext(m.registry, pre + NetworkProbe.command)
    requires now(m.readings + 1) == now(m.readings) + t
    ensures WaitUntilReadySpec(pre, now, Some(t), m).0 ==
            Fail(ConfigurationError("Timed out waiting for networking to be ready.", None))
  {
    var sys := pre + SystemProbe.command;
    var net := pre + NetworkProbe.command;
    var d := now(m.readings) + t;
    var m0 := m.(readings := m.readings + 1);
    var m1 := m0.(registry := Dispatch(m0.registry, sys).1);
    assert PollSpec(pre, SystemProbe, now, Some(d), m0) == (Pass, m1) by {
      PollStops(pre, SystemProbe, now, Some(d), m0);
    }
    WaitWithTimeout(pre, now, t, m);
    PollBothStages(pre, SystemProbe, NetworkProbe, now, Some(d), m0);
    assert Head(m1.registry.responses, net) == Head(m.registry.responses, net) by {
      ProbesAreDistinct(pre);
      DispatchLeavesOthers(m0.registry, sys, net);
    }
    assert PollSpec(pre, NetworkProbe, now, Some(d), m1).0 == Fail(ConfigurationError(NetworkProbe.timeoutBrief, None)) by {
      assert !NetworkProbe.ready(Head(m1.registry.responses, net).value.returnCode,
                                 Head(m1.registry.responses, net).value.stdout);
      PollDeadlineRule(pre, NetworkProbe, now, d, m1);
    }
  }

  // ---------------------------------------------------------------------
  // setup as a whole
  // ---------------------------------------------------------------------

  /** With a timeout the clock has exhausted at the first check, setup fails
      with "Timed out configuring environment." having run nothing and written
      nothing: the clock was read twice. */
  lemma SetupTimesOut(b: BuilddBase, pre: seq<string>, now: nat -> int, t: int, m: Machine)
    requires now(m.readings + 1) >= now(m.readings) + t
    ensures SetupSpec(b, pre, now, Some(t), m) ==
            (Fail(ConfigurationError("Timed out configuring environment.", None)), m.(readings := m.readings + 2))
  {
  }

  /** A setup that succeeds has written exactly the four configuration files, in order. */
  lemma SetupWritesFourFiles(b: BuilddBase, pre: seq<string>, now: nat -> int, timeout: Option<int>, m: Machine)
    ensures var s := SetupSpec(b, pre, now, timeout, m);
            s.0.Pass? ==> s.1.files == m.files + SetupFiles(b)
  {
    assert m.files + [EnvironmentFile(b), HostnameFile(b)] + [NetworkFile] + [AptFile] == m.files + SetupFiles(b);
    var s := SetupSpec(b, pre, now, timeout, m);
    var (deadline, m0) := StartSpec(now, timeout, m);
    var (o1, m1) := BaseStageSpec(b, pre, now, deadline, m0);
    var (o2, m2) := NetworkStageSpec(pre, now, deadline, m1);
    var (o3, m3) := PackagesStageSpec(pre, now, deadline, m2);
    if o1.Pass? && o2.Pass? && o3.Pass? {
      assert s == (o3, m3);
      assert m0.files == m.files;
    } else {
      assert s.0.Fail?;
    }
  }

  lemma RenderOnePair(k: string, v: string)
    ensures RenderPairs([(k, v)], '=') == k + "=" + v + "\n"
  {
    assert RenderPairs([(k, v)], '=') == k + ['='] + v + "\n" + RenderPairs([], '=');
  }

  /** Without an environment of its own, /etc/environment holds only the default PATH line. */
  lemma DefaultEnvironmentFile(alias: BuilddBaseAlias, hostname: string)
    ensures EnvironmentFile(NewBuilddBase(alias, hostname, None)) ==
            ConfigFile("/etc/environment", "PATH" + "=" + DefaultPath + "\n")
  {
    RenderOnePair("PATH", DefaultPath);
  }

  /** /etc/environment reads back as the base's environment, in order. */
  lemma EnvironmentFileRoundTrip(b: BuilddBase)
    requires WellFormedPairs(b.commandEnvironment, '=')
    ensures ParsePairs(EnvironmentFile(b).content, '=') == b.commandEnvironment
  {
    ParseRenderPairs(b.commandEnvironment, '=');
  }
}
