/** What both launchers share: the base configuration as the launchers drive it
    (its descriptor and the record of the calls made on it), the state of one
    backend instance, and the errors a launch ends with. */
module Providers {
  import opened Wrappers
  import opened Text
  import opened Bases

  /** An instance's filesystem, path to content, as far as the compatibility check reads it. */
  type Files = map<string, string>

  /** One backend instance: whether it runs, whether it was launched ephemeral,
      and its files. An instance that does not exist has no state at all. */
  datatype InstanceState = InstanceState(running: bool, ephemeral: bool, files: Files)

  /** What a launcher needs to know of a base configuration: its compatibility
      tag (part of the snapshot key), the environment its commands run with, and
      the check `warmup` makes on an existing instance (the reason it is refused,
      if it is). */
  datatype Descriptor = Descriptor(
    compatibilityTag: string,
    commandEnvironment: seq<(string, string)>,
    incompatibility: Files -> Option<string>)

  /** The buildd base as a launcher sees it: `warmup` refuses an instance for the
      first mismatch of its OS identity or its instance configuration. */
  function BuilddDescriptor(b: BuilddBase): Descriptor {
    Descriptor(b.compatibilityTag, b.commandEnvironment,
               files => match InstanceMismatch(files, b)
                        case None => None
                        case Some(m) => Some(Reason(m)))
  }

  /** The buildd check refuses an instance exactly when it is incompatible, and
      then with the reason of the mismatch found. */
  lemma BuilddWarmupIffIncompatible(b: BuilddBase, files: Files)
    ensures BuilddDescriptor(b).incompatibility(files).None? <==> Compatible(files, b)
    ensures InstanceMismatch(files, b).Some? ==>
              BuilddDescriptor(b).incompatibility(files) == Some(Reason(InstanceMismatch(files, b).value))
  {
    InstanceMismatchIffIncompatible(files, b);
  }

  /** One call made on the base configuration; each of the last three receives
      the launched instance as its executor. */
  datatype BaseCall = GetCommandEnvironment | Setup | WaitUntilReady | Warmup

  /** How a launch fails: a backend refusal with its brief and details, or the
      compatibility error `warmup` raised. */
  datatype LaunchError =
    | LxdError(brief: string, details: string)
    | BackendFailure(command: string)
    | BaseCompatibilityError(reason: string)

  /** The base configuration a launcher is handed, recording each call made on it. */
  class BaseConfiguration {
    const descriptor: Descriptor
    ghost var calls: seq<BaseCall>

    constructor (descriptor: Descriptor)
      ensures this.descriptor == descriptor && calls == []
    {
      this.descriptor := descriptor;
      calls := [];
    }

    method GetCommandEnvironment() returns (env: seq<(string, string)>)
      modifies this`calls
      ensures env == descriptor.commandEnvironment
      ensures calls == old(calls) + [BaseCall.GetCommandEnvironment]
    {
      env := descriptor.commandEnvironment;
      calls := calls + [BaseCall.GetCommandEnvironment];
    }

    /** `setup(executor)`: provisions the instance (modelled in `Buildd`). */
    method Setup()
      modifies this`calls
      ensures calls == old(calls) + [BaseCall.Setup]
    {
      calls := calls + [BaseCall.Setup];
    }

    /** `wait_until_ready(executor)` (modelled in `Buildd`). */
    method WaitUntilReady()
      modifies this`calls
      ensures calls == old(calls) + [BaseCall.WaitUntilReady]
    {
      calls := calls + [BaseCall.WaitUntilReady];
    }

    /** `warmup(executor)`: refuses an instance whose files fail the check. */
    method Warmup(files: Files) returns (o: Outcome<string>)
      modifies this`calls
      ensures o.Pass? <==> descriptor.incompatibility(files).None?
      ensures o.Fail? ==> o.error == descriptor.incompatibility(files).value
      ensures calls == old(calls) + [BaseCall.Warmup]
    {
      var check := descriptor.incompatibility(files);
      o := if check.None? then Pass else Fail(check.value);
      calls := calls + [BaseCall.Warmup];
    }
  }

  // ---------------------------------------------------------------------
  // The compatibility briefs a launch reports for the buildd base
  // ---------------------------------------------------------------------

  /** An instance whose /etc/os-release names Fedora is refused with the brief
      `Incompatible base detected: Expected OS 'Ubuntu', found 'Fedora'.`. */
  lemma FedoraBrief(b: BuilddBase, files: Files)
    requires OsReleasePath in files && files[OsReleasePath] == "NAME=Fedora\nVERSION_ID=32\n"
    ensures BuilddDescriptor(b).incompatibility(files).Some?
    ensures CompatibilityBrief(BuilddDescriptor(b).incompatibility(files).value) ==
            "Incompatible base detected: Expected OS 'Ubuntu', found 'Fedora'."
  {
    FedoraRefused(files[OsReleasePath], b.alias);
    assert InstanceMismatch(files, b) == Some(OsName(Some("Fedora")));
    FedoraBriefText();
  }

  /** An Ubuntu instance of the right release whose configuration carries the tag
      `invalid` is refused with the brief `Incompatible base detected: Expected
      image compatibility tag 'buildd-base-v0', found 'invalid'.`. */
  lemma InvalidTagBrief(b: BuilddBase, files: Files)
    requires b.compatibilityTag == BuilddCompatibilityTag
    requires OsReleasePath in files && OsMismatch(files[OsReleasePath], b.alias).None?
    requires InstanceConfigPath in files && files[InstanceConfigPath] == "compatibility_tag: invalid\n"
    ensures BuilddDescriptor(b).incompatibility(files).Some?
    ensures CompatibilityBrief(BuilddDescriptor(b).incompatibility(files).value) ==
            "Incompatible base detected: Expected image compatibility tag 'buildd-base-v0', found 'invalid'."
  {
    InvalidTagRefused(files[InstanceConfigPath]);
    assert InstanceMismatch(files, b) == Some(ConfigTagMismatch(BuilddCompatibilityTag, Some("invalid")));
    InvalidTagBriefText();
  }
}
