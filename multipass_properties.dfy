/** What the Multipass launcher promises: a fresh instance is launched and set
    up, a compatible existing one is reused without either, and an incompatible
    one is refused or, with auto-clean, replaced. */
module MultipassProperties {
  import opened Wrappers
  import opened Bases
  import opened Providers
  import opened MultipassLauncher

  /** An absent instance is launched from the image and set up; it exists and
      runs, with the image's files. */
  lemma FreshLaunch(name: string, image: string, autoClean: bool, d: Descriptor, imageFiles: string -> Files,
                    w: World, bc: seq<BaseCall>)
    requires name !in w.instances
    ensures var out := LaunchSpec(name, image, autoClean, d, imageFiles, w, bc);
            && out.0 == Ok(name)
            && out.1.calls == w.calls + [Construct(name), Exists, LaunchImage(image)]
            && out.1.instances == w.instances[name := InstanceState(true, false, imageFiles(image))]
            && out.2 == bc + [Setup]
  {
  }

  /** An existing instance that passes `warmup` is reused: started only if it
      was stopped, neither launched nor set up, its files untouched. */
  lemma ExistingCompatible(name: string, image: string, autoClean: bool, d: Descriptor, imageFiles: string -> Files,
                           w: World, bc: seq<BaseCall>)
    requires name in w.instances && d.incompatibility(w.instances[name].files).None?
    ensures var started := if w.instances[name].running then [] else [Start];
            var out := LaunchSpec(name, image, autoClean, d, imageFiles, w, bc);
            && out.0 == Ok(name)
            && out.1.calls == w.calls + [Construct(name), Exists, IsRunning] + started
            && out.1.instances == w.instances[name := w.instances[name].(running := true)]
            && out.2 == bc + [Warmup]
  {
    if w.instances[name].running {
      assert w.calls + [Construct(name)] + [Exists] + [IsRunning] == w.calls + [Construct(name), Exists, IsRunning] + [];
    } else {
      assert w.calls + [Construct(name)] + [Exists] + [IsRunning] + [Start] ==
             w.calls + [Construct(name), Exists, IsRunning] + [Start];
    }
  }

  /** An incompatible existing instance without auto-clean: the launch fails
      with the reason `warmup` gave after the instance was looked up and
      started if stopped; it is kept, neither deleted nor relaunched, and
      nothing is set up. */
  lemma IncompatibleRefused(name: string, image: string, d: Descriptor, imageFiles: string -> Files,
                            w: World, bc: seq<BaseCall>)
    requires name in w.instances && d.incompatibility(w.instances[name].files).Some?
    ensures var started := if w.instances[name].running then [] else [Start];
            var out := LaunchSpec(name, image, false, d, imageFiles, w, bc);
            && out.0 == Err(BaseCompatibilityError(d.incompatibility(w.instances[name].files).value))
            && out.1.calls == w.calls + [Construct(name), Exists, IsRunning] + started
            && out.1.instances == w.instances[name := w.instances[name].(running := true)]
            && out.2 == bc + [Warmup]
  {
    if w.instances[name].running {
      assert w.calls + [Construct(name)] + [Exists] + [IsRunning] == w.calls + [Construct(name), Exists, IsRunning] + [];
    } else {
      assert w.calls + [Construct(name)] + [Exists] + [IsRunning] + [Start] ==
             w.calls + [Construct(name), Exists, IsRunning] + [Start];
    }
  }

  /** An incompatible existing instance with auto-clean: deleted, launched from
      the image and set up, so that it exists and runs with the image's files. */
  lemma IncompatibleCleaned(name: string, image: string, d: Descriptor, imageFiles: string -> Files,
                            w: World, bc: seq<BaseCall>)
    requires name in w.instances && d.incompatibility(w.instances[name].files).Some?
    ensures var started := if w.instances[name].running then [] else [Start];
            var out := LaunchSpec(name, image, true, d, imageFiles, w, bc);
            && out.0 == Ok(name)
            && out.1.calls == w.calls + [Construct(name), Exists, IsRunning] + started + [Delete, LaunchImage(image)]
            && out.1.instances == w.instances[name := InstanceState(true, false, imageFiles(image))]
            && out.2 == bc + [Warmup, Setup]
  {
    var m := w.instances;
    assert m[name := m[name].(running := true)] - {name} == m - {name};
    assert (m - {name})[name := InstanceState(true, false, imageFiles(image))] ==
           m[name := InstanceState(true, false, imageFiles(image))];
    if w.instances[name].running {
      assert w.calls + [Construct(name)] + [Exists] + [IsRunning] + [Delete] + [LaunchImage(image)] ==
             w.calls + [Construct(name), Exists, IsRunning] + [] + [Delete, LaunchImage(image)];
    } else {
      assert w.calls + [Construct(name)] + [Exists] + [IsRunning] + [Start] + [Delete] + [LaunchImage(image)] ==
             w.calls + [Construct(name), Exists, IsRunning] + [Start] + [Delete, LaunchImage(image)];
    }
  }

  /** The buildd base against an existing instance whose /etc/os-release names
      Fedora: without auto-clean the launch fails with the OS brief; with it the
      instance is replaced and running. */
  lemma FedoraInstanceLaunch(name: string, image: string, autoClean: bool, b: BuilddBase,
                             imageFiles: string -> Files, w: World, bc: seq<BaseCall>)
    requires name in w.instances && OsReleasePath in w.instances[name].files
    requires w.instances[name].files[OsReleasePath] == "NAME=Fedora\nVERSION_ID=32\n"
    ensures var out := LaunchSpec(name, image, autoClean, BuilddDescriptor(b), imageFiles, w, bc);
            !autoClean ==>
              && out.0.Err? && out.0.error.BaseCompatibilityError?
              && CompatibilityBrief(out.0.error.reason) ==
                 "Incompatible base detected: Expected OS 'Ubuntu', found 'Fedora'."
    ensures var out := LaunchSpec(name, image, autoClean, BuilddDescriptor(b), imageFiles, w, bc);
            autoClean ==> out.0 == Ok(name) && name in out.1.instances && out.1.instances[name].running
  {
    FedoraBrief(b, w.instances[name].files);
    if !autoClean {
      IncompatibleRefused(name, image, BuilddDescriptor(b), imageFiles, w, bc);
    }
  }

  /** The buildd base against an existing Ubuntu instance of the right release
      whose configuration carries the tag `invalid`: without auto-clean the
      launch fails with the tag brief; with it the instance is replaced and
      running. */
  lemma InvalidTagInstanceLaunch(name: string, image: string, autoClean: bool, b: BuilddBase,
                                 imageFiles: string -> Files, w: World, bc: seq<BaseCall>)
    requires b.compatibilityTag == BuilddCompatibilityTag
    requires name in w.instances && OsReleasePath in w.instances[name].files
    requires OsMismatch(w.instances[name].files[OsReleasePath], b.alias).None?
    requires InstanceConfigPath in w.instances[name].files
    requires w.instances[name].files[InstanceConfigPath] == "compatibility_tag: invalid\n"
    ensures var out := LaunchSpec(name, image, autoClean, BuilddDescriptor(b), imageFiles, w, bc);
            !autoClean ==>
              && out.0.Err? && out.0.error.BaseCompatibilityError?
              && CompatibilityBrief(out.0.error.reason) ==
                 "Incompatible base detected: Expected image compatibility tag 'buildd-base-v0', found 'invalid'."
    ensures var out := LaunchSpec(name, image, autoClean, BuilddDescriptor(b), imageFiles, w, bc);
            autoClean ==> out.0 == Ok(name) && name in out.1.instances && out.1.instances[name].running
  {
    InvalidTagBrief(b, w.instances[name].files);
    if !autoClean {
      IncompatibleRefused(name, image, BuilddDescriptor(b), imageFiles, w, bc);
    }
  }
}
