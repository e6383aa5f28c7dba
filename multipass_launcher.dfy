/** The Multipass launcher: `launch` reuses the named instance when it exists
    and passes `warmup` (starting it first if it is stopped), deletes it when it
    fails the check and auto-clean is on, and otherwise launches it from the
    image and sets it up. There are no projects, remotes or snapshots. Every
    call on the instance and on the base configuration is recorded. */
module MultipassLauncher {
  import opened Wrappers
  import opened Providers

  /** One call on the instance (`MultipassInstance`), its construction included. */
  datatype InstanceCall =
    | Construct(name: string)
    | Exists
    | IsRunning
    | Start
    | Delete
    | LaunchImage(image: string)

  /** The backend's instances, by name, and the record of instance calls. */
  datatype World = World(instances: map<string, InstanceState>, calls: seq<InstanceCall>)

  // ---------------------------------------------------------------------
  // The instance's operations, as steps on a World
  // ---------------------------------------------------------------------

  function Note(w: World, c: InstanceCall): World {
    w.(calls := w.calls + [c])
  }

  function ExistsStep(name: string, w: World): (bool, World) {
    (name in w.instances, Note(w, Exists))
  }

  function IsRunningStep(name: string, w: World): (bool, World) {
    (name in w.instances && w.instances[name].running, Note(w, IsRunning))
  }

  function StartStep(name: string, w: World): World {
    var w1 := Note(w, Start);
    if name in w.instances then w1.(instances := w.instances[name := w.instances[name].(running := true)]) else w1
  }

  function DeleteStep(name: string, w: World): World {
    Note(w, Delete).(instances := w.instances - {name})
  }

  /** `launch` creates the instance, running, with the files of the image. */
  function LaunchImageStep(name: string, image: string, imageFiles: string -> Files, w: World): World {
    Note(w, LaunchImage(image)).(instances := w.instances[name := InstanceState(true, false, imageFiles(image))])
  }

  // ---------------------------------------------------------------------
  // The launch, stage by stage
  // ---------------------------------------------------------------------

  /** What the existence check leaves the launch to do. */
  datatype Reuse = Reused | Refused(reason: string) | Provision

  /** An existing instance is started if stopped and checked by `warmup`; an
      incompatible one is deleted when auto-clean is on. */
  function ReuseSpec(autoClean: bool, d: Descriptor, name: string, w: World, bc: seq<BaseCall>)
    : (out: (Reuse, World, seq<BaseCall>))
    ensures out.0.Reused? ==> name in out.1.instances && out.1.instances[name].running
    ensures out.0.Provision? ==> name !in out.1.instances
    ensures out.0.Refused? ==>
              name in w.instances && name in out.1.instances && out.1.instances[name].files == w.instances[name].files
  {
    var (present, w1) := ExistsStep(name, w);
    if !present then (Provision, w1, bc)
    else
      var (running, w2) := IsRunningStep(name, w1);
      var w3 := if running then w2 else StartStep(name, w2);
      var check := d.incompatibility(w3.instances[name].files);
      if check.None? then (Reused, w3, bc + [Warmup])
      else if autoClean then (Provision, DeleteStep(name, w3), bc + [Warmup])
      else (Refused(check.value), w3, bc + [Warmup])
  }

  /** `launch`: the name of the ready instance, or the compatibility error. */
  function LaunchSpec(name: string, image: string, autoClean: bool, d: Descriptor, imageFiles: string -> Files,
                      w: World, bc: seq<BaseCall>): (out: (Result<string, LaunchError>, World, seq<BaseCall>))
    ensures out.0.Ok? ==> out.0.value == name && name in out.1.instances && out.1.instances[name].running
    ensures out.0.Err? ==> out.0.error.BaseCompatibilityError?
  {
    var w1 := Note(w, Construct(name));
    var (reuse, w2, bc1) := ReuseSpec(autoClean, d, name, w1, bc);
    match reuse
    case Reused => (Ok(name), w2, bc1)
    case Refused(reason) => (Err(BaseCompatibilityError(reason)), w2, bc1)
    case Provision => (Ok(name), LaunchImageStep(name, image, imageFiles, w2), bc1 + [Setup])
  }

  // ---------------------------------------------------------------------
  // The imperative launcher
  // ---------------------------------------------------------------------

  /** The Multipass backend. `imageFiles` gives the files of an image. */
  class Multipass {
    const imageFiles: string -> Files
    var instances: map<string, InstanceState>
    ghost var calls: seq<InstanceCall>

    ghost function Observe(): World
      reads this
    {
      World(instances, calls)
    }

    constructor (imageFiles: string -> Files, instances: map<string, InstanceState>)
      ensures this.imageFiles == imageFiles
      ensures Observe() == World(instances, [])
    {
      this.imageFiles := imageFiles;
      this.instances := instances;
      calls := [];
    }
  }

  /** `MultipassInstance`: a handle on the named instance. */
  class MultipassInstance {
    const multipass: Multipass
    const name: string

    constructor (multipass: Multipass, name: string)
      modifies multipass
      ensures this.multipass == multipass && this.name == name
      ensures multipass.Observe() == Note(old(multipass.Observe()), Construct(name))
    {
      this.multipass := multipass;
      this.name := name;
      new;
      multipass.calls := multipass.calls + [Construct(name)];
    }

    method Exists() returns (b: bool)
      modifies multipass
      ensures (b, multipass.Observe()) == ExistsStep(name, old(multipass.Observe()))
    {
      b := name in multipass.instances;
      multipass.calls := multipass.calls + [InstanceCall.Exists];
    }

    method IsRunning() returns (b: bool)
      modifies multipass
      ensures (b, multipass.Observe()) == IsRunningStep(name, old(multipass.Observe()))
    {
      b := name in multipass.instances && multipass.instances[name].running;
      multipass.calls := multipass.calls + [InstanceCall.IsRunning];
    }

    method Start()
      modifies multipass
      ensures multipass.Observe() == StartStep(name, old(multipass.Observe()))
    {
      if name in multipass.instances {
        multipass.instances := multipass.instances[name := multipass.instances[name].(running := true)];
      }
      multipass.calls := multipass.calls + [InstanceCall.Start];
    }

    method Delete()
      modifies multipass
      ensures multipass.Observe() == DeleteStep(name, old(multipass.Observe()))
    {
      multipass.instances := multipass.instances - {name};
      multipass.calls := multipass.calls + [InstanceCall.Delete];
    }

    method Launch(image: string)
      modifies multipass
      ensures multipass.Observe() == LaunchImageStep(name, image, multipass.imageFiles, old(multipass.Observe()))
    {
      multipass.instances := multipass.instances[name := InstanceState(true, false, multipass.imageFiles(image))];
      multipass.calls := multipass.calls + [LaunchImage(image)];
    }

    /** The files of the instance, as `warmup` reads them through the executor. */
    function Files(): Files
      reads multipass
      requires name in multipass.instances
    {
      multipass.instances[name].files
    }
  }

  method CheckExisting(instance: MultipassInstance, base: BaseConfiguration, autoClean: bool) returns (reuse: Reuse)
    modifies instance.multipass, base
    ensures (reuse, instance.multipass.Observe(), base.calls) ==
            ReuseSpec(autoClean, base.descriptor, instance.name, old(instance.multipass.Observe()), old(base.calls))
  {
    var present := instance.Exists();
    if !present {
      return Provision;
    }
    var running := instance.IsRunning();
    if !running {
      instance.Start();
    }
    var warm := base.Warmup(instance.Files());
    if warm.Pass? {
      return Reused;
    }
    if autoClean {
      instance.Delete();
      return Provision;
    }
    reuse := Refused(warm.error);
  }

  /** `launch`: the instance handle, or the compatibility error that ended the launch. */
  method Launch(multipass: Multipass, base: BaseConfiguration, name: string, image: string, autoClean: bool)
    returns (r: Result<MultipassInstance, LaunchError>)
    modifies multipass, base
    ensures var spec := LaunchSpec(name, image, autoClean, base.descriptor, multipass.imageFiles,
                                   old(multipass.Observe()), old(base.calls));
            && multipass.Observe() == spec.1 && base.calls == spec.2
            && r.Ok? == spec.0.Ok?
            && (r.Ok? ==> r.value.multipass == multipass && r.value.name == name)
            && (r.Err? ==> r.error == spec.0.error)
  {
    var instance := new MultipassInstance(multipass, name);
    var reuse := CheckExisting(instance, base, autoClean);
    match reuse
    case Reused => r := Ok(instance);
    case Refused(reason) => r := Err(BaseCompatibilityError(reason));
    case Provision =>
      instance.Launch(image);
      base.Setup();
      r := Ok(instance);
  }
}
