/** The LXD launcher: `launch` makes sure the project exists, then reuses the
    named instance when it exists and passes `warmup`, or provisions it afresh
    (from a cached snapshot image when one is asked for and present, seeding
    the cache otherwise). The backend is explicit state; every call the
    launcher makes on the backend, on the instance and on the base
    configuration is recorded, as the unit tests' mocks record them. */
module LxdLauncher {
  import opened Wrappers
  import opened Text
  import opened Providers

  /** An instance on the backend, by its backend-safe name. */
  datatype InstanceRef = InstanceRef(instanceName: string, project: string, remote: string)

  /** A stored image, by alias, in a project of a remote. */
  datatype ImageRef = ImageRef(alias: string, project: string, remote: string)

  /** A profile of a project of a remote. */
  datatype ProfileRef = ProfileRef(profile: string, project: string, remote: string)

  /** One call on the backend-control interface (`LXC`). */
  datatype LxcCall =
    | ProjectList(remote: string)
    | ProjectCreate(project: string, remote: string)
    | ProfileShow(profile: string, project: string, remote: string)
    | ProfileEdit(profile: string, project: string, config: string, remote: string)
    | HasImage(imageName: string, project: string, remote: string)
    | Publish(alias: string, instanceName: string, force: bool, project: string, remote: string)

  /** One call on the instance (`LXDInstance`), its construction included. */
  datatype InstanceCall =
    | Construct(name: string, project: string, remote: string, defaultCommandEnvironment: seq<(string, string)>)
    | Exists
    | IsRunning
    | LaunchImage(image: string, imageRemote: string, ephemeral: bool, mapUserUid: bool, uid: Option<int>)
    | Stop
    | Start
    | Delete

  /** The backend's state and the two call records kept beside it. */
  datatype World = World(
    projects: map<string, seq<string>>,
    profiles: map<ProfileRef, string>,
    images: map<ImageRef, Files>,
    instances: map<InstanceRef, InstanceState>,
    lxcCalls: seq<LxcCall>,
    instanceCalls: seq<InstanceCall>)

  /** The arguments of `launch`, with its defaults. */
  datatype LaunchArgs = LaunchArgs(
    name: string,
    imageName: string,
    imageRemote: string,
    autoClean: bool := false,
    autoCreateProject: bool := false,
    ephemeral: bool := false,
    mapUserUid: bool := false,
    uid: Option<int> := None,
    useSnapshots: bool := false,
    project: string := "default",
    remote: string := "local")

  // ---------------------------------------------------------------------
  // Pure parts: the snapshot key and the missing-project error
  // ---------------------------------------------------------------------

  /** The alias a provisioned instance is cached under. */
  function SnapshotKey(imageRemote: string, imageName: string, compatibilityTag: string): string {
    "snapshot-" + imageRemote + "-" + imageName + "-" + compatibilityTag
  }

  function MissingProjectBrief(project: string, remote: string): string {
    "LXD project " + Repr(project) + " not found on remote " + Repr(remote) + "."
  }

  function MissingProjectDetails(projects: seq<string>): string {
    "Available projects: " + ListRepr(projects)
  }

  // ---------------------------------------------------------------------
  // The backend's operations, as steps on a World
  // ---------------------------------------------------------------------

  /** The projects of a remote, in listing order. */
  function ProjectsOn(w: World, remote: string): seq<string> {
    if remote in w.projects then w.projects[remote] else []
  }

  /** A profile's configuration; a profile the backend lacks reads as empty. */
  function ProfileConfig(w: World, p: ProfileRef): string {
    if p in w.profiles then w.profiles[p] else ""
  }

  function Record(w: World, c: LxcCall): World {
    w.(lxcCalls := w.lxcCalls + [c])
  }

  function Note(w: World, c: InstanceCall): World {
    w.(instanceCalls := w.instanceCalls + [c])
  }

  function ProjectListStep(remote: string, w: World): (seq<string>, World) {
    (ProjectsOn(w, remote), Record(w, ProjectList(remote)))
  }

  function ProjectCreateStep(project: string, remote: string, w: World): World {
    Record(w, ProjectCreate(project, remote)).(projects := w.projects[remote := ProjectsOn(w, remote) + [project]])
  }

  function ProfileShowStep(profile: string, project: string, remote: string, w: World): (string, World) {
    (ProfileConfig(w, ProfileRef(profile, project, remote)), Record(w, ProfileShow(profile, project, remote)))
  }

  /** `profile_edit` replaces the whole configuration of the profile. */
  function ProfileEditStep(profile: string, project: string, config: string, remote: string, w: World): World {
    Record(w, ProfileEdit(profile, project, config, remote)).(profiles := w.profiles[ProfileRef(profile, project, remote) := config])
  }

  function HasImageStep(imageName: string, project: string, remote: string, w: World): (bool, World) {
    (ImageRef(imageName, project, remote) in w.images, Record(w, HasImage(imageName, project, remote)))
  }

  /** `publish` stores the instance's files under the alias; an existing image
      of that alias is replaced only when forced. */
  function PublishStep(alias: string, instanceName: string, force: bool, project: string, remote: string,
                       w: World): (Outcome<LaunchError>, World)
  {
    var w1 := Record(w, Publish(alias, instanceName, force, project, remote));
    var source := InstanceRef(instanceName, project, remote);
    var target := ImageRef(alias, project, remote);
    if source !in w.instances || (target in w.images && !force) then (Fail(BackendFailure("publish")), w1)
    else (Pass, w1.(images := w.images[target := w.instances[source].files]))
  }

  function ExistsStep(i: InstanceRef, w: World): (bool, World) {
    (i in w.instances, Note(w, Exists))
  }

  function IsRunningStep(i: InstanceRef, w: World): (bool, World) {
    (i in w.instances && w.instances[i].running, Note(w, IsRunning))
  }

  function StartStep(i: InstanceRef, w: World): World {
    var w1 := Note(w, Start);
    if i in w.instances then w1.(instances := w.instances[i := w.instances[i].(running := true)]) else w1
  }

  /** Stopping an ephemeral instance removes it. */
  function StopStep(i: InstanceRef, w: World): World {
    var w1 := Note(w, Stop);
    if i !in w.instances then w1
    else if w.instances[i].ephemeral then w1.(instances := w.instances - {i})
    else w1.(instances := w.instances[i := w.instances[i].(running := false)])
  }

  function DeleteStep(i: InstanceRef, w: World): World {
    Note(w, Delete).(instances := w.instances - {i})
  }

  /** The files an instance starts with: those of a stored image of that alias
      in its project on the image's remote, or else those of the remote image. */
  function SourceFiles(i: InstanceRef, image: string, imageRemote: string,
                       imageFiles: (string, string) -> Files, w: World): Files
  {
    var stored := ImageRef(image, i.project, imageRemote);
    if stored in w.images then w.images[stored] else imageFiles(imageRemote, image)
  }

  /** `launch` creates the instance running from the image. */
  function LaunchImageStep(i: InstanceRef, image: string, imageRemote: string, ephemeral: bool, mapUserUid: bool,
                           uid: Option<int>, imageFiles: (string, string) -> Files, w: World): World
  {
    var files := SourceFiles(i, image, imageRemote, imageFiles, w);
    Note(w, LaunchImage(image, imageRemote, ephemeral, mapUserUid, uid))
      .(instances := w.instances[i := InstanceState(true, ephemeral, files)])
  }

  // ---------------------------------------------------------------------
  // The launch, stage by stage
  // ---------------------------------------------------------------------

  /** `_ensure_project_exists`: a listed project passes; a missing one is
      created and given the default project's default profile when asked for,
      and refused otherwise. */
  function EnsureProjectSpec(create: bool, project: string, remote: string, w: World): (out: (Outcome<LaunchError>, World))
    ensures out.0.Pass? <==> project in ProjectsOn(w, remote) || create
    ensures out.0.Pass? ==> project in ProjectsOn(out.1, remote)
    ensures out.1.instances == w.instances && out.1.images == w.images
    ensures out.1.instanceCalls == w.instanceCalls
  {
    var (listed, w1) := ProjectListStep(remote, w);
    if project in listed then (Pass, w1)
    else if !create then (Fail(LxdError(MissingProjectBrief(project, remote), MissingProjectDetails(listed))), w1)
    else
      var w2 := ProjectCreateStep(project, remote, w1);
      var (config, w3) := ProfileShowStep("default", "default", remote, w2);
      (Pass, ProfileEditStep("default", project, config, remote, w3))
  }

  /** What the existence check leaves the launch to do. */
  datatype Reuse = Reused | Refused(reason: string) | Provision

  /** An existing instance is started if stopped and checked by `warmup`; an
      incompatible one is deleted when auto-clean is on. */
  function ReuseSpec(autoClean: bool, d: Descriptor, i: InstanceRef, w: World, bc: seq<BaseCall>)
    : (out: (Reuse, World, seq<BaseCall>))
    ensures out.0.Reused? ==> i in out.1.instances && out.1.instances[i].running
    ensures out.0.Provision? ==> i !in out.1.instances
    ensures out.1.images == w.images && out.1.projects == w.projects && out.1.lxcCalls == w.lxcCalls
  {
    var (present, w1) := ExistsStep(i, w);
    if !present then (Provision, w1, bc)
    else
      var (running, w2) := IsRunningStep(i, w1);
      var w3 := if running then w2 else StartStep(i, w2);
      var check := d.incompatibility(w3.instances[i].files);
      if check.None? then (Reused, w3, bc + [Warmup])
      else if autoClean then (Provision, DeleteStep(i, w3), bc + [Warmup])
      else (Refused(check.value), w3, bc + [Warmup])
  }

  /** A fresh instance: launched from the cached snapshot when there is one,
      otherwise from the image, set up, and (when snapshots are asked for)
      stopped, published under the snapshot key and started again. */
  function ProvisionSpec(a: LaunchArgs, d: Descriptor, i: InstanceRef, imageFiles: (string, string) -> Files,
                         w: World, bc: seq<BaseCall>): (out: (Outcome<LaunchError>, World, seq<BaseCall>))
    ensures out.0.Pass? ==> i in out.1.instances && out.1.instances[i].running
    ensures out.1.projects == w.projects
  {
    var key := SnapshotKey(a.imageRemote, a.imageName, d.compatibilityTag);
    var (hit, w1) := if a.useSnapshots then HasImageStep(key, i.project, i.remote, w) else (false, w);
    if hit then
      (Pass, LaunchImageStep(i, key, i.remote, a.ephemeral, a.mapUserUid, a.uid, imageFiles, w1), bc + [Setup])
    else
      var w2 := LaunchImageStep(i, a.imageName, a.imageRemote, a.ephemeral, a.mapUserUid, a.uid, imageFiles, w1);
      if !a.useSnapshots then (Pass, w2, bc + [Setup])
      else
        var w3 := StopStep(i, w2);
        var (published, w4) := PublishStep(key, i.instanceName, true, i.project, i.remote, w3);
        if published.Fail? then (published, w4, bc + [Setup])
        else (Pass, StartStep(i, w4), bc + [Setup] + [WaitUntilReady])
  }

  /** The instance a launch is about: the named one in the project of the remote. */
  function Target(a: LaunchArgs, sanitize: string -> string): InstanceRef {
    InstanceRef(sanitize(a.name), a.project, a.remote)
  }

  /** `launch`: the instance, or why there is none. */
  function LaunchSpec(a: LaunchArgs, d: Descriptor, sanitize: string -> string, imageFiles: (string, string) -> Files,
                      w: World, bc: seq<BaseCall>): (out: (Result<InstanceRef, LaunchError>, World, seq<BaseCall>))
    ensures out.0.Ok? ==> out.0.value == Target(a, sanitize)
    ensures out.0.Ok? ==> Target(a, sanitize) in out.1.instances && out.1.instances[Target(a, sanitize)].running
  {
    var bc1 := bc + [GetCommandEnvironment];
    var (p, w1) := EnsureProjectSpec(a.autoCreateProject, a.project, a.remote, w);
    if p.Fail? then (Err(p.error), w1, bc1)
    else
      var i := Target(a, sanitize);
      var w2 := Note(w1, Construct(a.name, a.project, a.remote, d.commandEnvironment));
      var (reuse, w3, bc2) := ReuseSpec(a.autoClean, d, i, w2, bc1);
      match reuse
      case Reused => (Ok(i), w3, bc2)
      case Refused(reason) => (Err(BaseCompatibilityError(reason)), w3, bc2)
      case Provision =>
        var (o, w4, bc3) := ProvisionSpec(a, d, i, imageFiles, w3, bc2);
        if o.Fail? then (Err(o.error), w4, bc3) else (Ok(i), w4, bc3)
  }

  // ---------------------------------------------------------------------
  // The imperative launcher
  // ---------------------------------------------------------------------

  /** The LXD backend (`LXC` and the server behind it). `imageFiles` gives the
      files of an image of a remote image server. */
  class Lxd {
    const imageFiles: (string, string) -> Files
    var projects: map<string, seq<string>>
    var profiles: map<ProfileRef, string>
    var images: map<ImageRef, Files>
    var instances: map<InstanceRef, InstanceState>
    ghost var lxcCalls: seq<LxcCall>
    ghost var instanceCalls: seq<InstanceCall>

    ghost function Observe(): World
      reads this
    {
      World(projects, profiles, images, instances, lxcCalls, instanceCalls)
    }

    constructor (imageFiles: (string, string) -> Files, projects: map<string, seq<string>>,
                 profiles: map<ProfileRef, string>, images: map<ImageRef, Files>,
                 instances: map<InstanceRef, InstanceState>)
      ensures this.imageFiles == imageFiles
      ensures Observe() == World(projects, profiles, images, instances, [], [])
    {
      this.imageFiles := imageFiles;
      this.projects := projects;
      this.profiles := profiles;
      this.images := images;
      this.instances := instances;
      lxcCalls := [];
      instanceCalls := [];
    }

    method ProjectList(remote: string) returns (names: seq<string>)
      modifies this
      ensures (names, Observe()) == ProjectListStep(remote, old(Observe()))
    {
      names := if remote in projects then projects[remote] else [];
      lxcCalls := lxcCalls + [LxcCall.ProjectList(remote)];
    }

    method ProjectCreate(project: string, remote: string)
      modifies this
      ensures Observe() == ProjectCreateStep(project, remote, old(Observe()))
    {
      var listed := if remote in projects then projects[remote] else [];
      projects := projects[remote := listed + [project]];
      lxcCalls := lxcCalls + [LxcCall.ProjectCreate(project, remote)];
    }

    method ProfileShow(profile: string, project: string, remote: string) returns (config: string)
      modifies this
      ensures (config, Observe()) == ProfileShowStep(profile, project, remote, old(Observe()))
    {
      var p := ProfileRef(profile, project, remote);
      config := if p in profiles then profiles[p] else "";
      lxcCalls := lxcCalls + [LxcCall.ProfileShow(profile, project, remote)];
    }

    method ProfileEdit(profile: string, project: string, config: string, remote: string)
      modifies this
      ensures Observe() == ProfileEditStep(profile, project, config, remote, old(Observe()))
    {
      profiles := profiles[ProfileRef(profile, project, remote) := config];
      lxcCalls := lxcCalls + [LxcCall.ProfileEdit(profile, project, config, remote)];
    }

    method HasImage(imageName: string, project: string, remote: string) returns (found: bool)
      modifies this
      ensures (found, Observe()) == HasImageStep(imageName, project, remote, old(Observe()))
    {
      found := ImageRef(imageName, project, remote) in images;
      lxcCalls := lxcCalls + [LxcCall.HasImage(imageName, project, remote)];
    }

    method Publish(alias: string, instanceName: string, force: bool, project: string, remote: string)
      returns (o: Outcome<LaunchError>)
      modifies this
      ensures (o, Observe()) == PublishStep(alias, instanceName, force, project, remote, old(Observe()))
    {
      var source := InstanceRef(instanceName, project, remote);
      var target := ImageRef(alias, project, remote);
      if source !in instances || (target in images && !force) {
        o := Fail(BackendFailure("publish"));
      } else {
        o := Pass;
        images := images[target := instances[source].files];
      }
      lxcCalls := lxcCalls + [LxcCall.Publish(alias, instanceName, force, project, remote)];
    }
  }

  /** `LXDInstance`: a handle on the named instance in a project of a remote. */
  class LxdInstance {
    const lxc: Lxd
    const name: string
    const instanceName: string
    const project: string
    const remote: string
    const defaultCommandEnvironment: seq<(string, string)>

    function Ref(): InstanceRef {
      InstanceRef(instanceName, project, remote)
    }

    /** The handle's backend name is the sanitized form of its name. */
    constructor (lxc: Lxd, name: string, project: string, remote: string,
                 defaultCommandEnvironment: seq<(string, string)>, sanitize: string -> string)
      modifies lxc
      ensures this.lxc == lxc && this.name == name && this.instanceName == sanitize(name)
      ensures this.project == project && this.remote == remote
      ensures this.defaultCommandEnvironment == defaultCommandEnvironment
      ensures lxc.Observe() == Note(old(lxc.Observe()), Construct(name, project, remote, defaultCommandEnvironment))
    {
      this.lxc := lxc;
      this.name := name;
      this.instanceName := sanitize(name);
      this.project := project;
      this.remote := remote;
      this.defaultCommandEnvironment := defaultCommandEnvironment;
      new;
      lxc.instanceCalls := lxc.instanceCalls + [Construct(name, project, remote, defaultCommandEnvironment)];
    }

    method Exists() returns (b: bool)
      modifies lxc
      ensures (b, lxc.Observe()) == ExistsStep(Ref(), old(lxc.Observe()))
    {
      b := Ref() in lxc.instances;
      lxc.instanceCalls := lxc.instanceCalls + [InstanceCall.Exists];
    }

    method IsRunning() returns (b: bool)
      modifies lxc
      ensures (b, lxc.Observe()) == IsRunningStep(Ref(), old(lxc.Observe()))
    {
      b := Ref() in lxc.instances && lxc.instances[Ref()].running;
      lxc.instanceCalls := lxc.instanceCalls + [InstanceCall.IsRunning];
    }

    method Start()
      modifies lxc
      ensures lxc.Observe() == StartStep(Ref(), old(lxc.Observe()))
    {
      var i := Ref();
      if i in lxc.instances {
        lxc.instances := lxc.instances[i := lxc.instances[i].(running := true)];
      }
      lxc.instanceCalls := lxc.instanceCalls + [InstanceCall.Start];
    }

    method Stop()
      modifies lxc
      ensures lxc.Observe() == StopStep(Ref(), old(lxc.Observe()))
    {
      var i := Ref();
      if i in lxc.instances {
        if lxc.instances[i].ephemeral {
          lxc.instances := lxc.instances - {i};
        } else {
          lxc.instances := lxc.instances[i := lxc.instances[i].(running := false)];
        }
      }
      lxc.instanceCalls := lxc.instanceCalls + [InstanceCall.Stop];
    }

    method Delete()
      modifies lxc
      ensures lxc.Observe() == DeleteStep(Ref(), old(lxc.Observe()))
    {
      lxc.instances := lxc.instances - {Ref()};
      lxc.instanceCalls := lxc.instanceCalls + [InstanceCall.Delete];
    }

    method Launch(image: string, imageRemote: string, ephemeral: bool, mapUserUid: bool, uid: Option<int>)
      modifies lxc
      ensures lxc.Observe() == LaunchImageStep(Ref(), image, imageRemote, ephemeral, mapUserUid, uid,
                                               lxc.imageFiles, old(lxc.Observe()))
    {
      var i := Ref();
      var stored := ImageRef(image, project, imageRemote);
      var files := if stored in lxc.images then lxc.images[stored] else lxc.imageFiles(imageRemote, image);
      lxc.instances := lxc.instances[i := InstanceState(true, ephemeral, files)];
      lxc.instanceCalls := lxc.instanceCalls + [LaunchImage(image, imageRemote, ephemeral, mapUserUid, uid)];
    }

    /** The files of the instance, as `warmup` reads them through the executor. */
    function Files(): Files
      reads lxc
      requires Ref() in lxc.instances
    {
      lxc.instances[Ref()].files
    }
  }

  method EnsureProjectExists(lxc: Lxd, create: bool, project: string, remote: string) returns (o: Outcome<LaunchError>)
    modifies lxc
    ensures (o, lxc.Observe()) == EnsureProjectSpec(create, project, remote, old(lxc.Observe()))
  {
    var listed := lxc.ProjectList(remote);
    if project in listed {
      return Pass;
    }
    if !create {
      return Fail(LxdError(MissingProjectBrief(project, remote), MissingProjectDetails(listed)));
    }
    lxc.ProjectCreate(project, remote);
    var config := lxc.ProfileShow("default", "default", remote);
    lxc.ProfileEdit("default", project, config, remote);
    o := Pass;
  }

  method CheckExisting(instance: LxdInstance, base: BaseConfiguration, autoClean: bool) returns (reuse: Reuse)
    modifies instance.lxc, base
    ensures (reuse, instance.lxc.Observe(), base.calls) ==
            ReuseSpec(autoClean, base.descriptor, instance.Ref(), old(instance.lxc.Observe()), old(base.calls))
  {
    var present := instance.Exists();
    if !present {
      return Provision;
    }
    var running := instance.IsRunning();
    if !running {
      instance.Start();
    }
    var warm := base.Warmup(instance.Files());
    if warm.Pass? {
      return Reused;
    }
    if autoClean {
      instance.Delete();
      return Provision;
    }
    reuse := Refused(warm.error);
  }

  method ProvisionFresh(instance: LxdInstance, base: BaseConfiguration, a: LaunchArgs) returns (o: Outcome<LaunchError>)
    modifies instance.lxc, base
    ensures (o, instance.lxc.Observe(), base.calls) ==
            ProvisionSpec(a, base.descriptor, instance.Ref(), instance.lxc.imageFiles,
                          old(instance.lxc.Observe()), old(base.calls))
  {
    var lxc := instance.lxc;
    var key := SnapshotKey(a.imageRemote, a.imageName, base.descriptor.compatibilityTag);
    var hit := false;
    if a.useSnapshots {
      hit := lxc.HasImage(key, instance.project, instance.remote);
    }
    if hit {
      instance.Launch(key, instance.remote, a.ephemeral, a.mapUserUid, a.uid);
      base.Setup();
      return Pass;
    }
    instance.Launch(a.imageName, a.imageRemote, a.ephemeral, a.mapUserUid, a.uid);
    base.Setup();
    if !a.useSnapshots {
      return Pass;
    }
    instance.Stop();
    o := lxc.Publish(key, instance.instanceName, true, instance.project, instance.remote);
    if o.Fail? {
      return;
    }
    instance.Start();
    base.WaitUntilReady();
  }

  /** `launch`: the instance handle, or the error that ended the launch. */
  method Launch(lxc: Lxd, base: BaseConfiguration, a: LaunchArgs, sanitize: string -> string)
    returns (r: Result<LxdInstance, LaunchError>)
    modifies lxc, base
    ensures var spec := LaunchSpec(a, base.descriptor, sanitize, lxc.imageFiles, old(lxc.Observe()), old(base.calls));
            && lxc.Observe() == spec.1 && base.calls == spec.2
            && r.Ok? == spec.0.Ok?
            && (r.Ok? ==> r.value.lxc == lxc && r.value.Ref() == spec.0.value)
            && (r.Err? ==> r.error == spec.0.error)
  {
    var env := base.GetCommandEnvironment();
    var p := EnsureProjectExists(lxc, a.autoCreateProject, a.project, a.remote);
    if p.Fail? {
      return Err(p.error);
    }
    var instance := new LxdInstance(lxc, a.name, a.project, a.remote, env, sanitize);
    var reuse := CheckExisting(instance, base, a.autoClean);
    match reuse
    case Reused => r := Ok(instance);
    case Refused(reason) => r := Err(BaseCompatibilityError(reason));
    case Provision =>
      var o := ProvisionFresh(instance, base, a);
      r := if o.Fail? then Err(o.error) else Ok(instance);
  }
}
