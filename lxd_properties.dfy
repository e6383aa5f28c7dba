/** What the LXD launcher's tests pin down, proved of `LaunchSpec`: the calls
    each path makes on the backend, the instance and the base configuration,
    the state it leaves, the snapshot names, and the error texts. */
module LxdProperties {
  import opened Wrappers
  import opened Text
  import opened Bases
  import opened Providers
  import opened LxdLauncher

  // ---------------------------------------------------------------------
  // Names and messages
  // ---------------------------------------------------------------------

  /** The unit tests' snapshot alias. */
  lemma UnitSnapshotKey()
    ensures SnapshotKey("image-remote", "image-name", "mock-compat-tag-v100") ==
            "snapshot-image-remote-image-name-mock-compat-tag-v100"
  {
    assert "snapshot-" + "image-remote" == "snapshot-image-remote";
    assert "snapshot-image-remote" + "-" + "image-name" == "snapshot-image-remote-image-name";
    assert "snapshot-image-remote-image-name" + "-" + "mock-compat-tag-v100" ==
           "snapshot-image-remote-image-name-mock-compat-tag-v100";
  }

  /** A focal buildd base launched from `ubuntu:20.04` is cached as
      `snapshot-ubuntu-20.04-buildd-base-v0`. */
  lemma FocalSnapshotKey(b: BuilddBase)
    requires b.alias == Focal && b.compatibilityTag == BuilddCompatibilityTag
    ensures SnapshotKey("ubuntu", b.alias.Value(), BuilddDescriptor(b).compatibilityTag) ==
            "snapshot-ubuntu-20.04-buildd-base-v0"
  {
  }

  /** The missing-project brief names both with Python's quotes. */
  lemma MissingProjectBriefQuoted(project: string, remote: string)
    requires Plain(project) && Plain(remote)
    ensures MissingProjectBrief(project, remote) ==
            "LXD project '" + project + "' not found on remote '" + remote + "'."
  {
    ReprPlain(project);
    ReprPlain(remote);
    Requote("LXD project ", "'", project, " not found on remote ", remote, ".");
    assert "LXD project " + "'" == "LXD project '";
    assert "'" + " not found on remote " + "'" == "' not found on remote '";
  }

  /** Two listed projects are shown as Python shows a list of two strings. */
  lemma MissingProjectDetailsPair(first: string, second: string)
    requires Plain(first) && Plain(second)
    ensures MissingProjectDetails([first, second]) == "Available projects: ['" + first + "', '" + second + "']"
  {
    ListReprPair(first, second);
    assert "Available projects: " + "['" == "Available projects: ['";
  }

  /** The unit test's refusal of project `invalid-project` on `test-remote`. */
  lemma MissingProjectBriefText()
    ensures MissingProjectBrief("invalid-project", "test-remote") ==
            "LXD project 'invalid-project' not found on remote 'test-remote'."
  {
    PlainNames("invalid-project", "test-remote");
    MissingProjectBriefQuoted("invalid-project", "test-remote");
    MissingProjectBriefJoin();
  }

  /** The test's brief put together from the pieces `MissingProjectBriefQuoted`
      yields; proved on its own because the join costs the solver far more in
      the context of `MissingProjectBriefText`. */
  lemma MissingProjectBriefJoin()
    ensures "LXD project '" + "invalid-project" + "' not found on remote '" + "test-remote" + "'." ==
            "LXD project 'invalid-project' not found on remote 'test-remote'."
  {
    assert "LXD project '" + "invalid-project" == "LXD project 'invalid-project";
    assert "LXD project 'invalid-project" + "' not found on remote '" ==
           "LXD project 'invalid-project' not found on remote '";
    assert "LXD project 'invalid-project' not found on remote '" + "test-remote" ==
           "LXD project 'invalid-project' not found on remote 'test-remote";
  }

  /** The unit test's listing: `default` and `test-project`. */
  lemma MissingProjectDetailsText()
    ensures MissingProjectDetails(["default", "test-project"]) ==
            "Available projects: ['default', 'test-project']"
  {
    assert "Available projects: ['" + "default" + "', '" + "test-project" + "']" ==
           "Available projects: ['default', 'test-project']";
    PlainNames("default", "test-project");
    MissingProjectDetailsPair("default", "test-project");
  }

  lemma PlainNames(x: string, y: string)
    requires forall c | c in x + y :: 'a' <= c <= 'z' || c == '-'
    ensures Plain(x) && Plain(y)
  {
    assert forall k | 0 <= k < |x| :: x[k] in x + y;
    assert forall k | 0 <= k < |y| :: y[k] in x + y;
  }

  // ---------------------------------------------------------------------
  // The backend steps
  // ---------------------------------------------------------------------

  /** Stopping removes an ephemeral instance and stops any other. */
  lemma StopRemovesEphemeral(i: InstanceRef, w: World)
    requires i in w.instances
    ensures w.instances[i].ephemeral ==> i !in StopStep(i, w).instances
    ensures !w.instances[i].ephemeral ==>
              i in StopStep(i, w).instances && StopStep(i, w).instances[i] == w.instances[i].(running := false)
  {
  }

  // ---------------------------------------------------------------------
  // The launch paths
  // ---------------------------------------------------------------------

  /** A fresh launch into a listed project without snapshots: `project_list`
      only; construct, `exists`, `launch` with the arguments as given; then
      `get_command_environment` and `setup`. */
  lemma FreshLaunch(a: LaunchArgs, d: Descriptor, sanitize: string -> string, imageFiles: (string, string) -> Files,
                    w: World, bc: seq<BaseCall>)
    requires a.project in ProjectsOn(w, a.remote)
    requires Target(a, sanitize) !in w.instances
    requires !a.useSnapshots
    ensures var i := Target(a, sanitize);
            var out := LaunchSpec(a, d, sanitize, imageFiles, w, bc);
            && out.0 == Ok(i)
            && out.1.lxcCalls == w.lxcCalls + [ProjectList(a.remote)]
            && out.1.instanceCalls == w.instanceCalls +
                 [Construct(a.name, a.project, a.remote, d.commandEnvironment), Exists,
                  LaunchImage(a.imageName, a.imageRemote, a.ephemeral, a.mapUserUid, a.uid)]
            && out.2 == bc + [GetCommandEnvironment, Setup]
            && out.1.instances ==
                 w.instances[i := InstanceState(true, a.ephemeral, SourceFiles(i, a.imageName, a.imageRemote, imageFiles, w))]
            && out.1.images == w.images && out.1.projects == w.projects
  {
  }

  /** `launch` with only its required arguments goes to project `default` on
      remote `local` and launches non-ephemeral, without uid mapping. */
  lemma DefaultLaunch(name: string, imageName: string, imageRemote: string, d: Descriptor,
                      sanitize: string -> string, imageFiles: (string, string) -> Files, w: World, bc: seq<BaseCall>)
    requires "default" in ProjectsOn(w, "local")
    requires InstanceRef(sanitize(name), "default", "local") !in w.instances
    ensures var out := LaunchSpec(LaunchArgs(name, imageName, imageRemote), d, sanitize, imageFiles, w, bc);
            && out.0 == Ok(InstanceRef(sanitize(name), "default", "local"))
            && out.1.lxcCalls == w.lxcCalls + [ProjectList("local")]
            && out.1.instanceCalls == w.instanceCalls +
                 [Construct(name, "default", "local", d.commandEnvironment), Exists,
                  LaunchImage(imageName, imageRemote, false, false, None)]
            && out.2 == bc + [GetCommandEnvironment, Setup]
  {
    FreshLaunch(LaunchArgs(name, imageName, imageRemote), d, sanitize, imageFiles, w, bc);
  }

  /** A cache miss: `has_image` on the project and remote, then the raw image is
      launched, set up, stopped, published under the key with `force` and
      started again, and `wait_until_ready` follows `setup`. The snapshot then
      holds the provisioned instance's files. */
  lemma SnapshotMiss(a: LaunchArgs, d: Descriptor, sanitize: string -> string, imageFiles: (string, string) -> Files,
                     w: World, bc: seq<BaseCall>)
    requires a.project in ProjectsOn(w, a.remote)
    requires Target(a, sanitize) !in w.instances
    requires a.useSnapshots && !a.ephemeral
    requires ImageRef(SnapshotKey(a.imageRemote, a.imageName, d.compatibilityTag), a.project, a.remote) !in w.images
    ensures var i := Target(a, sanitize);
            var key := SnapshotKey(a.imageRemote, a.imageName, d.compatibilityTag);
            var files := SourceFiles(i, a.imageName, a.imageRemote, imageFiles, w);
            var out := LaunchSpec(a, d, sanitize, imageFiles, w, bc);
            && out.0 == Ok(i)
            && out.1.lxcCalls == w.lxcCalls +
                 [ProjectList(a.remote), HasImage(key, a.project, a.remote),
                  Publish(key, i.instanceName, true, a.project, a.remote)]
            && out.1.instanceCalls == w.instanceCalls +
                 [Construct(a.name, a.project, a.remote, d.commandEnvironment), Exists,
                  LaunchImage(a.imageName, a.imageRemote, false, a.mapUserUid, a.uid), Stop, Start]
            && out.2 == bc + [GetCommandEnvironment, Setup, WaitUntilReady]
            && out.1.images == w.images[ImageRef(key, a.project, a.remote) := files]
            && out.1.instances == w.instances[i := InstanceState(true, false, files)]
            && out.1.projects == w.projects
  {
  }

  /** A cache hit: the snapshot is launched from the project's remote and set up
      once; nothing is published, stopped or started, and there is no
      `wait_until_ready`. */
  lemma SnapshotHit(a: LaunchArgs, d: Descriptor, sanitize: string -> string, imageFiles: (string, string) -> Files,
                    w: World, bc: seq<BaseCall>)
    requires a.project in ProjectsOn(w, a.remote)
    requires Target(a, sanitize) !in w.instances
    requires a.useSnapshots
    requires ImageRef(SnapshotKey(a.imageRemote, a.imageName, d.compatibilityTag), a.project, a.remote) in w.images
    ensures var i := Target(a, sanitize);
            var key := SnapshotKey(a.imageRemote, a.imageName, d.compatibilityTag);
            var out := LaunchSpec(a, d, sanitize, imageFiles, w, bc);
            && out.0 == Ok(i)
            && out.1.lxcCalls == w.lxcCalls + [ProjectList(a.remote), HasImage(key, a.project, a.remote)]
            && out.1.instanceCalls == w.instanceCalls +
                 [Construct(a.name, a.project, a.remote, d.commandEnvironment), Exists,
                  LaunchImage(key, a.remote, a.ephemeral, a.mapUserUid, a.uid)]
            && out.2 == bc + [GetCommandEnvironment, Setup]
            && out.1.instances ==
                 w.instances[i := InstanceState(true, a.ephemeral, w.images[ImageRef(key, a.project, a.remote)])]
            && out.1.images == w.images
  {
  }

  /** A missing project without auto-creation ends the launch after
      `project_list`, naming the project, the remote and the projects listed. */
  lemma MissingProject(a: LaunchArgs, d: Descriptor, sanitize: string -> string, imageFiles: (string, string) -> Files,
                       w: World, bc: seq<BaseCall>)
    requires a.project !in ProjectsOn(w, a.remote)
    requires !a.autoCreateProject
    ensures var out := LaunchSpec(a, d, sanitize, imageFiles, w, bc);
            && out.0 == Err(LxdError(MissingProjectBrief(a.project, a.remote), MissingProjectDetails(ProjectsOn(w, a.remote))))
            && out.1 == w.(lxcCalls := w.lxcCalls + [ProjectList(a.remote)])
            && out.2 == bc + [GetCommandEnvironment]
  {
  }

  /** A missing project with auto-creation is created and given the default
      project's default profile before the launch goes on into it; it is listed
      afterwards. */
  lemma CreateProject(a: LaunchArgs, d: Descriptor, sanitize: string -> string, imageFiles: (string, string) -> Files,
                      w: World, bc: seq<BaseCall>)
    requires a.project !in ProjectsOn(w, a.remote)
    requires a.autoCreateProject && !a.useSnapshots
    requires Target(a, sanitize) !in w.instances
    ensures var config := ProfileConfig(w, ProfileRef("default", "default", a.remote));
            var out := LaunchSpec(a, d, sanitize, imageFiles, w, bc);
            && out.0 == Ok(Target(a, sanitize))
            && out.1.lxcCalls == w.lxcCalls +
                 [ProjectList(a.remote), ProjectCreate(a.project, a.remote),
                  ProfileShow("default", "default", a.remote), ProfileEdit("default", a.project, config, a.remote)]
            && out.1.instanceCalls == w.instanceCalls +
                 [Construct(a.name, a.project, a.remote, d.commandEnvironment), Exists,
                  LaunchImage(a.imageName, a.imageRemote, a.ephemeral, a.mapUserUid, a.uid)]
            && out.2 == bc + [GetCommandEnvironment, Setup]
            && ProjectsOn(out.1, a.remote) == ProjectsOn(w, a.remote) + [a.project]
            && ProfileConfig(out.1, ProfileRef("default", a.project, a.remote)) == config
  {
  }

  /** An existing instance that passes `warmup` is reused: started only if it
      was stopped, never launched or set up, and running afterwards. */
  lemma ExistingCompatible(a: LaunchArgs, d: Descriptor, sanitize: string -> string, imageFiles: (string, string) -> Files,
                           w: World, bc: seq<BaseCall>)
    requires a.project in ProjectsOn(w, a.remote)
    requires Target(a, sanitize) in w.instances
    requires d.incompatibility(w.instances[Target(a, sanitize)].files).None?
    ensures var i := Target(a, sanitize);
            var started := if w.instances[i].running then [] else [Start];
            var out := LaunchSpec(a, d, sanitize, imageFiles, w, bc);
            && out.0 == Ok(i)
            && out.1.lxcCalls == w.lxcCalls + [ProjectList(a.remote)]
            && out.1.instanceCalls == w.instanceCalls +
                 [Construct(a.name, a.project, a.remote, d.commandEnvironment), Exists, IsRunning] + started
            && out.2 == bc + [GetCommandEnvironment, Warmup]
            && out.1.instances == w.instances[i := w.instances[i].(running := true)]
            && out.1.images == w.images
  {
  }

  /** An incompatible existing instance with auto-clean: deleted, launched
      afresh and set up, with no second `warmup`. */
  lemma IncompatibleCleaned(a: LaunchArgs, d: Descriptor, sanitize: string -> string, imageFiles: (string, string) -> Files,
                            w: World, bc: seq<BaseCall>)
    requires a.project in ProjectsOn(w, a.remote)
    requires Target(a, sanitize) in w.instances
    requires d.incompatibility(w.instances[Target(a, sanitize)].files).Some?
    requires a.autoClean && !a.useSnapshots
    ensures var i := Target(a, sanitize);
            var started := if w.instances[i].running then [] else [Start];
            var out := LaunchSpec(a, d, sanitize, imageFiles, w, bc);
            && out.0 == Ok(i)
            && out.1.lxcCalls == w.lxcCalls + [ProjectList(a.remote)]
            && out.1.instanceCalls == w.instanceCalls +
                 [Construct(a.name, a.project, a.remote, d.commandEnvironment), Exists, IsRunning] + started +
                 [Delete, LaunchImage(a.imageName, a.imageRemote, a.ephemeral, a.mapUserUid, a.uid)]
            && out.2 == bc + [GetCommandEnvironment, Warmup, Setup]
            && i in out.1.instances && out.1.instances[i].running
  {
    var i := Target(a, sanitize);
    var w1 := w.(lxcCalls := w.lxcCalls + [ProjectList(a.remote)]);
    assert EnsureProjectSpec(a.autoCreateProject, a.project, a.remote, w) == (Pass, w1);
    var w2 := Note(w1, Construct(a.name, a.project, a.remote, d.commandEnvironment));
    CleanedReuse(d, i, w2, bc + [GetCommandEnvironment]);
  }

  /** The reuse stage with auto-clean on an incompatible instance: checked,
      then deleted, and the launch goes on to provision. */
  lemma CleanedReuse(d: Descriptor, i: InstanceRef, w: World, bc: seq<BaseCall>)
    requires i in w.instances && d.incompatibility(w.instances[i].files).Some?
    ensures var started := if w.instances[i].running then [] else [Start];
            ReuseSpec(true, d, i, w, bc) ==
              (Provision,
               w.(instances := w.instances - {i},
                  instanceCalls := w.instanceCalls + [Exists, IsRunning] + started + [Delete]),
               bc + [Warmup])
  {
    var m := w.instances;
    assert m[i := m[i].(running := true)] - {i} == m - {i};
    if w.instances[i].running {
      assert w.instanceCalls + [Exists] + [IsRunning] + [Delete] == w.instanceCalls + [Exists, IsRunning] + [] + [Delete];
    } else {
      assert w.instanceCalls + [Exists] + [IsRunning] + [Start] + [Delete] ==
             w.instanceCalls + [Exists, IsRunning] + [Start] + [Delete];
    }
  }

  /** An incompatible existing instance without auto-clean: the compatibility
      error propagates and the instance is left running, neither deleted nor
      relaunched. */
  lemma IncompatibleRefused(a: LaunchArgs, d: Descriptor, sanitize: string -> string, imageFiles: (string, string) -> Files,
                            w: World, bc: seq<BaseCall>)
    requires a.project in ProjectsOn(w, a.remote)
    requires Target(a, sanitize) in w.instances
    requires d.incompatibility(w.instances[Target(a, sanitize)].files).Some?
    requires !a.autoClean
    ensures var i := Target(a, sanitize);
            var started := if w.instances[i].running then [] else [Start];
            var out := LaunchSpec(a, d, sanitize, imageFiles, w, bc);
            && out.0 == Err(BaseCompatibilityError(d.incompatibility(w.instances[i].files).value))
            && out.1.lxcCalls == w.lxcCalls + [ProjectList(a.remote)]
            && out.1.instanceCalls == w.instanceCalls +
                 [Construct(a.name, a.project, a.remote, d.commandEnvironment), Exists, IsRunning] + started
            && out.2 == bc + [GetCommandEnvironment, Warmup]
            && out.1.instances == w.instances[i := w.instances[i].(running := true)]
  {
  }

  // ---------------------------------------------------------------------
  // Launch sequences
  // ---------------------------------------------------------------------

  /** An ephemeral instance launched afresh is gone once it is stopped. */
  lemma EphemeralGoneAfterStop(a: LaunchArgs, d: Descriptor, sanitize: string -> string,
                               imageFiles: (string, string) -> Files, w: World, bc: seq<BaseCall>)
    requires a.project in ProjectsOn(w, a.remote)
    requires Target(a, sanitize) !in w.instances
    requires a.ephemeral && !a.useSnapshots
    ensures var out := LaunchSpec(a, d, sanitize, imageFiles, w, bc);
            && out.0 == Ok(Target(a, sanitize))
            && Target(a, sanitize) !in StopStep(Target(a, sanitize), out.1).instances
  {
    FreshLaunch(a, d, sanitize, imageFiles, w, bc);
  }

  /** Launching with snapshots, deleting the instance and launching again: the
      first launch publishes the snapshot, the second finds it and starts the
      new instance from it, with the files the first one was provisioned with. */
  lemma SnapshotReused(a: LaunchArgs, d: Descriptor, sanitize: string -> string,
                       imageFiles: (string, string) -> Files, w: World, bc: seq<BaseCall>)
    requires a.project in ProjectsOn(w, a.remote)
    requires Target(a, sanitize) !in w.instances
    requires a.useSnapshots && !a.ephemeral
    requires ImageRef(SnapshotKey(a.imageRemote, a.imageName, d.compatibilityTag), a.project, a.remote) !in w.images
    ensures var i := Target(a, sanitize);
            var key := SnapshotKey(a.imageRemote, a.imageName, d.compatibilityTag);
            var first := LaunchSpec(a, d, sanitize, imageFiles, w, bc);
            var deleted := DeleteStep(i, first.1);
            var second := LaunchSpec(a, d, sanitize, imageFiles, deleted, first.2);
            && first.0 == Ok(i) && second.0 == Ok(i)
            && ImageRef(key, a.project, a.remote) in deleted.images
            && second.1.lxcCalls == deleted.lxcCalls + [ProjectList(a.remote), HasImage(key, a.project, a.remote)]
            && second.1.instanceCalls[|deleted.instanceCalls| + 2..] == [LaunchImage(key, a.remote, false, a.mapUserUid, a.uid)]
            && second.1.instances[i] == first.1.instances[i]
  {
    var i := Target(a, sanitize);
    var key := SnapshotKey(a.imageRemote, a.imageName, d.compatibilityTag);
    SnapshotMiss(a, d, sanitize, imageFiles, w, bc);
    var first := LaunchSpec(a, d, sanitize, imageFiles, w, bc);
    var deleted := DeleteStep(i, first.1);
    assert ProjectsOn(deleted, a.remote) == ProjectsOn(w, a.remote);
    SnapshotHit(a, d, sanitize, imageFiles, deleted, first.2);
  }

  /** The buildd base against an existing instance whose /etc/os-release names
      Fedora: without auto-clean the launch fails with the OS brief; with it the
      instance is replaced and running. */
  lemma FedoraInstanceLaunch(a: LaunchArgs, b: BuilddBase, sanitize: string -> string,
                             imageFiles: (string, string) -> Files, w: World, bc: seq<BaseCall>)
    requires a.project in ProjectsOn(w, a.remote)
    requires Target(a, sanitize) in w.instances
    requires OsReleasePath in w.instances[Target(a, sanitize)].files
    requires w.instances[Target(a, sanitize)].files[OsReleasePath] == "NAME=Fedora\nVERSION_ID=32\n"
    requires !a.useSnapshots
    ensures var out := LaunchSpec(a, BuilddDescriptor(b), sanitize, imageFiles, w, bc);
            !a.autoClean ==>
              && out.0.Err? && out.0.error.BaseCompatibilityError?
              && CompatibilityBrief(out.0.error.reason) ==
                 "Incompatible base detected: Expected OS 'Ubuntu', found 'Fedora'."
    ensures var out := LaunchSpec(a, BuilddDescriptor(b), sanitize, imageFiles, w, bc);
            a.autoClean ==>
              && out.0 == Ok(Target(a, sanitize))
              && Target(a, sanitize) in out.1.instances && out.1.instances[Target(a, sanitize)].running
  {
    var d := BuilddDescriptor(b);
    FedoraBrief(b, w.instances[Target(a, sanitize)].files);
    if a.autoClean {
      IncompatibleCleaned(a, d, sanitize, imageFiles, w, bc);
    } else {
      IncompatibleRefused(a, d, sanitize, imageFiles, w, bc);
    }
  }

  /** The buildd base against an existing Ubuntu instance of the right release
      whose configuration carries the tag `invalid`: without auto-clean the
      launch fails with the tag brief; with it the instance is replaced and
      running. */
  lemma InvalidTagInstanceLaunch(a: LaunchArgs, b: BuilddBase, sanitize: string -> string,
                                 imageFiles: (string, string) -> Files, w: World, bc: seq<BaseCall>)
    requires b.compatibilityTag == BuilddCompatibilityTag
    requires a.project in ProjectsOn(w, a.remote)
    requires Target(a, sanitize) in w.instances
    requires OsReleasePath in w.instances[Target(a, sanitize)].files
    requires OsMismatch(w.instances[Target(a, sanitize)].files[OsReleasePath], b.alias).None?
    requires InstanceConfigPath in w.instances[Target(a, sanitize)].files
    requires w.instances[Target(a, sanitize)].files[InstanceConfigPath] == "compatibility_tag: invalid\n"
    requires !a.useSnapshots
    ensures var out := LaunchSpec(a, BuilddDescriptor(b), sanitize, imageFiles, w, bc);
            !a.autoClean ==>
              && out.0.Err? && out.0.error.BaseCompatibilityError?
              && CompatibilityBrief(out.0.error.reason) ==
                 "Incompatible base detected: Expected image compatibility tag 'buildd-base-v0', found 'invalid'."
    ensures var out := LaunchSpec(a, BuilddDescriptor(b), sanitize, imageFiles, w, bc);
            a.autoClean ==>
              && out.0 == Ok(Target(a, sanitize))
              && Target(a, sanitize) in out.1.instances && out.1.instances[Target(a, sanitize)].running
  {
    var d := BuilddDescriptor(b);
    InvalidTagBrief(b, w.instances[Target(a, sanitize)].files);
    if a.autoClean {
      IncompatibleCleaned(a, d, sanitize, imageFiles, w, bc);
    } else {
      IncompatibleRefused(a, d, sanitize, imageFiles, w, bc);
    }
  }
}
