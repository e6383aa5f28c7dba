/** The buildd base descriptor and the compatibility contract it checks on an
    instance: the OS identity in /etc/os-release and the compatibility tag of
    the instance configuration file. */
module Bases {
  import opened Wrappers
  import opened Text

  /** The Ubuntu releases a buildd base can be built from. */
  datatype BuilddBaseAlias = Xenial | Bionic | Focal | Jammy {
    /** The release's VERSION_ID. */
    function Value(): string {
      match this
      case Xenial => "16.04"
      case Bionic => "18.04"
      case Focal => "20.04"
      case Jammy => "22.04"
    }
  }

  const BuilddCompatibilityTag: string := "buildd-base-v0"
  const ExpectedOsName: string := "Ubuntu"
  const OsReleasePath: string := "/etc/os-release"
  const InstanceConfigPath: string := "/etc/craft-instance.conf"
  const DefaultPath: string :=
    "/usr/local/sbin:/usr/local/bin:/usr/sbin:/usr/bin:/sbin:/bin:/usr/games:/usr/local/games:/snap/bin"

  /** `default_command_environment()`: only PATH. */
  function DefaultCommandEnvironment(): seq<(string, string)> {
    [("PATH", DefaultPath)]
  }

  /** What a correctly provisioned instance looks like. */
  datatype BuilddBase = BuilddBase(
    alias: BuilddBaseAlias,
    hostname: string,
    commandEnvironment: seq<(string, string)>,
    compatibilityTag: string)

  /** `BuilddBase(alias=..., hostname=..., command_environment=...)`: a missing
      environment means the default one. */
  function NewBuilddBase(alias: BuilddBaseAlias, hostname: string,
                         commandEnvironment: Option<seq<(string, string)>>): (b: BuilddBase)
    ensures b.alias == alias && b.hostname == hostname
    ensures b.compatibilityTag == BuilddCompatibilityTag
    ensures commandEnvironment.None? ==> b.commandEnvironment == DefaultCommandEnvironment()
    ensures commandEnvironment.Some? ==> b.commandEnvironment == commandEnvironment.value
  {
    BuilddBase(alias, hostname,
               if commandEnvironment.None? then DefaultCommandEnvironment() else commandEnvironment.value,
               BuilddCompatibilityTag)
  }

  // ---------------------------------------------------------------------
  // Reading the instance's files
  // ---------------------------------------------------------------------

  function UnquoteValues(ps: seq<(string, string)>): seq<(string, string)>
    decreases |ps|
  {
    if ps == [] then [] else [(ps[0].0, Unquote(ps[0].1))] + UnquoteValues(ps[1..])
  }

  /** The fields of /etc/os-release, with the double quotes around values removed. */
  function OsReleaseFields(content: string): seq<(string, string)> {
    UnquoteValues(ParsePairs(content, '='))
  }

  /** The `compatibility_tag` of an instance configuration file (`key: value` lines). */
  function ConfigTag(content: string): Option<string> {
    match Lookup(ParsePairs(content, ':'), "compatibility_tag")
    case None => None
    case Some(v) => Some(Trim(v))
  }

  function FileOf(files: map<string, string>, path: string): Option<string> {
    if path in files then Some(files[path]) else None
  }

  // ---------------------------------------------------------------------
  // The compatibility check
  // ---------------------------------------------------------------------

  /** Why an instance is refused: the field checked, what was expected and what was found. */
  datatype Mismatch =
    | OsName(foundName: Option<string>)
    | OsVersion(expectedVersion: string, foundVersion: Option<string>)
    | ConfigTagMismatch(expectedTag: string, foundTag: Option<string>)

  /** `BaseCompatibilityError.reason`: both values written as Python's `repr` writes them. */
  function Reason(m: Mismatch): string {
    match m
    case OsName(found) => "Expected OS " + Repr(ExpectedOsName) + ", found " + ReprOption(found)
    case OsVersion(expected, found) => "Expected OS version " + Repr(expected) + ", found " + ReprOption(found)
    case ConfigTagMismatch(expected, found) =>
      "Expected image compatibility tag " + Repr(expected) + ", found " + ReprOption(found)
  }

  /** `BaseCompatibilityError(reason).brief`. */
  function CompatibilityBrief(reason: string): string {
    "Incompatible base detected: " + reason + "."
  }

  /** Why an OS identity is refused, if it is: the name is checked first, then the version. */
  function OsMismatch(osRelease: string, alias: BuilddBaseAlias): Option<Mismatch> {
    var fields := OsReleaseFields(osRelease);
    var name := Lookup(fields, "NAME");
    if name != Some(ExpectedOsName) then Some(OsName(name))
    else
      var version := Lookup(fields, "VERSION_ID");
      if version != Some(alias.Value()) then Some(OsVersion(alias.Value(), version))
      else None
  }

  /** Why an instance configuration is refused, if it is; an instance without
      one is accepted. */
  function TagMismatch(config: Option<string>, tag: string): Option<Mismatch> {
    match config
    case None => None
    case Some(content) =>
      var found := ConfigTag(content);
      if found == Some(tag) then None else Some(ConfigTagMismatch(tag, found))
  }

  /** The check `warmup` makes on an existing instance's files: OS identity
      first, then the compatibility tag. */
  function InstanceMismatch(files: map<string, string>, b: BuilddBase): Option<Mismatch> {
    var os := FileOf(files, OsReleasePath);
    var osReason := OsMismatch(if os.Some? then os.value else "", b.alias);
    if osReason.Some? then osReason else TagMismatch(FileOf(files, InstanceConfigPath), b.compatibilityTag)
  }

  /** An instance is accepted exactly when its OS is the expected Ubuntu release
      and it has no configuration or one with the base's tag. */
  predicate Compatible(files: map<string, string>, b: BuilddBase) {
    var os := if OsReleasePath in files then OsReleaseFields(files[OsReleasePath]) else OsReleaseFields("");
    && Lookup(os, "NAME") == Some(ExpectedOsName)
    && Lookup(os, "VERSION_ID") == Some(b.alias.Value())
    && (InstanceConfigPath in files ==> ConfigTag(files[InstanceConfigPath]) == Some(b.compatibilityTag))
  }

  lemma InstanceMismatchIffIncompatible(files: map<string, string>, b: BuilddBase)
    ensures InstanceMismatch(files, b).None? <==> Compatible(files, b)
  {
  }

  // ---------------------------------------------------------------------
  // Properties of the reading functions and of the messages
  // ---------------------------------------------------------------------

  lemma {:induction false} LookupUnquoted(ps: seq<(string, string)>, key: string)
    ensures Lookup(UnquoteValues(ps), key) ==
            (match Lookup(ps, key) case None => None case Some(v) => Some(Unquote(v)))
    decreases |ps|
  {
    if ps != [] {
      var n := |ps| - 1;
      UnquoteValuesLast(ps);
      LookupUnquoted(ps[..n], key);
    }
  }

  lemma {:induction false} UnquoteValuesLast(ps: seq<(string, string)>)
    requires ps != []
    ensures UnquoteValues(ps) == UnquoteValues(ps[..|ps| - 1]) + [(ps[|ps| - 1].0, Unquote(ps[|ps| - 1].1))]
    decreases |ps|
  {
    if |ps| > 1 {
      UnquoteValuesLast(ps[1..]);
      assert ps[1..][..|ps[1..]| - 1] == ps[..|ps| - 1][1..];
    }
  }

  /** Reading back a written os-release file gives each field's value without its quotes. */
  lemma OsReleaseLookup(ps: seq<(string, string)>, key: string)
    requires WellFormedPairs(ps, '=')
    ensures Lookup(OsReleaseFields(RenderPairs(ps, '=')), key) ==
            (match Lookup(ps, key) case None => None case Some(v) => Some(Unquote(v)))
  {
    ParseRenderPairs(ps, '=');
    LookupUnquoted(ps, key);
  }

  /** A non-Ubuntu OS is refused, naming the OS found. */
  lemma OsNameRefused(ps: seq<(string, string)>, alias: BuilddBaseAlias)
    requires WellFormedPairs(ps, '=')
    requires Lookup(ps, "NAME").Some? && Unquote(Lookup(ps, "NAME").value) != ExpectedOsName
    ensures OsMismatch(RenderPairs(ps, '='), alias) == Some(OsName(Some(Unquote(Lookup(ps, "NAME").value))))
  {
    OsReleaseLookup(ps, "NAME");
  }

  /** An os-release without NAME is refused, naming `None` as the OS found. */
  lemma OsNameMissing(ps: seq<(string, string)>, alias: BuilddBaseAlias)
    requires WellFormedPairs(ps, '=')
    requires Lookup(ps, "NAME").None?
    ensures OsMismatch(RenderPairs(ps, '='), alias) == Some(OsName(None))
  {
    OsReleaseLookup(ps, "NAME");
  }

  /** Ubuntu with another version is refused, naming the version found. */
  lemma OsVersionRefused(ps: seq<(string, string)>, alias: BuilddBaseAlias, found: Option<string>)
    requires WellFormedPairs(ps, '=')
    requires Lookup(ps, "NAME").Some? && Unquote(Lookup(ps, "NAME").value) == ExpectedOsName
    requires found == (match Lookup(ps, "VERSION_ID") case None => None case Some(v) => Some(Unquote(v)))
    requires found != Some(alias.Value())
    ensures OsMismatch(RenderPairs(ps, '='), alias) == Some(OsVersion(alias.Value(), found))
  {
    OsReleaseLookup(ps, "NAME");
    OsReleaseLookup(ps, "VERSION_ID");
  }

  /** The expected Ubuntu release is accepted. */
  lemma OsAccepted(ps: seq<(string, string)>, alias: BuilddBaseAlias)
    requires WellFormedPairs(ps, '=')
    requires Lookup(ps, "NAME").Some? && Unquote(Lookup(ps, "NAME").value) == ExpectedOsName
    requires Lookup(ps, "VERSION_ID").Some? && Unquote(Lookup(ps, "VERSION_ID").value) == alias.Value()
    ensures OsMismatch(RenderPairs(ps, '='), alias) == None
  {
    OsReleaseLookup(ps, "NAME");
    OsReleaseLookup(ps, "VERSION_ID");
  }

  /** The tag is read from its `compatibility_tag: ` line with the surrounding blanks removed. */
  lemma ConfigTagLine(found: string)
    requires '\n' !in found
    requires found != [] ==> !IsSpace(found[0]) && !IsSpace(found[|found| - 1])
    ensures ConfigTag("compatibility_tag: " + found + "\n") == Some(found)
  {
    var ps := [("compatibility_tag", " " + found)];
    ConfigTagRender(ps, found);
    assert WellFormedPairs(ps, ':') by {
      assert '\n' !in " " + found;
    }
    ParseRenderPairs(ps, ':');
    assert Lookup(ps, "compatibility_tag") == Some(" " + found);
    TrimKeeps(found);
    assert Trim(" " + found) == found;
  }

  lemma ConfigTagRender(ps: seq<(string, string)>, found: string)
    requires ps == [("compatibility_tag", " " + found)]
    ensures RenderPairs(ps, ':') == "compatibility_tag: " + found + "\n"
  {
    assert ps[1..] == [];
    assert RenderPairs(ps, ':') == "compatibility_tag" + [':'] + (" " + found) + "\n" + "";
    assert "compatibility_tag" + [':'] + (" " + found) == "compatibility_tag: " + found;
  }

  /** A configuration with another tag is refused, naming the tag found; one
      with the base's tag is accepted. */
  lemma TagRefusedIffOther(tag: string, found: string)
    requires '\n' !in found
    requires found != [] ==> !IsSpace(found[0]) && !IsSpace(found[|found| - 1])
    ensures found != tag ==>
              TagMismatch(Some("compatibility_tag: " + found + "\n"), tag) == Some(ConfigTagMismatch(tag, Some(found)))
    ensures found == tag <==> TagMismatch(Some("compatibility_tag: " + found + "\n"), tag) == None
  {
    ConfigTagLine(found);
  }

  /** A Fedora instance is refused for its OS name. */
  lemma FedoraRefused(osRelease: string, alias: BuilddBaseAlias)
    requires osRelease == "NAME=Fedora\nVERSION_ID=32\n"
    ensures OsMismatch(osRelease, alias) == Some(OsName(Some("Fedora")))
  {
    var ps := [("NAME", "Fedora"), ("VERSION_ID", "32")];
    FedoraOsRelease(ps);
    OsNameRefused(ps, alias);
  }

  lemma FedoraOsRelease(ps: seq<(string, string)>)
    requires ps == [("NAME", "Fedora"), ("VERSION_ID", "32")]
    ensures RenderPairs(ps, '=') == "NAME=Fedora\nVERSION_ID=32\n"
  {
    assert ps[1..][1..] == [];
    assert RenderPairs(ps[1..], '=') == "VERSION_ID=32\n";
    assert RenderPairs(ps, '=') == "NAME=Fedora\n" + "VERSION_ID=32\n";
  }

  /** A refused OS name is reported with both names quoted, as in
      `Expected OS 'Ubuntu', found 'Fedora'`. */
  lemma OsNameReason(found: string)
    requires Plain(found)
    ensures Reason(OsName(Some(found))) == "Expected OS 'Ubuntu', found '" + found + "'"
  {
    ExpectedOsNameRepr();
    ReprPlain(found);
    var p := "Expected OS " + Repr(ExpectedOsName) + ", found ";
    assert p == "Expected OS 'Ubuntu', found ";
    assert p + ("'" + found + "'") == p + "'" + found + "'";
    assert "Expected OS 'Ubuntu', found " + "'" == "Expected OS 'Ubuntu', found '";
  }

  /** A refused tag is reported with both tags quoted, as in
      `Expected image compatibility tag 'buildd-base-v0', found 'invalid'`. */
  lemma TagReason(expected: string, found: string)
    requires Plain(expected) && Plain(found)
    ensures Reason(ConfigTagMismatch(expected, Some(found))) ==
            "Expected image compatibility tag '" + expected + "', found '" + found + "'"
  {
    ReprPlain(expected);
    ReprPlain(found);
    var pre := "Expected image compatibility tag ";
    var mid := ", found ";
    assert pre + "'" == "Expected image compatibility tag '";
    assert "'" + mid + "'" == "', found '";
    Requote(pre, "'", expected, mid, found, []);
    assert "'" + [] == "'";
    var r := pre + ("'" + expected + "'") + mid + ("'" + found + "'");
    assert r + [] == r;
  }

  /** Moves the quotes `q` around `e` and `f` into the text around them; the
      solver regroups such sums cheaply only when the pieces are not literals. */
  lemma Requote<T>(p: seq<T>, q: seq<T>, e: seq<T>, m: seq<T>, f: seq<T>, s: seq<T>)
    ensures p + (q + e + q) + m + (q + f + q) + s == (p + q) + e + (q + m + q) + f + (q + s)
  {
  }

  /** The brief of an OS-name refusal: `Incompatible base detected: ` and then
      `Expected OS 'Ubuntu', found '<name>'` and a full stop. */
  lemma OsNameBrief(found: string)
    requires Plain(found)
    ensures CompatibilityBrief(Reason(OsName(Some(found)))) ==
            "Incompatible base detected: " + "Expected OS 'Ubuntu', found '" + found + "'" + "."
  {
    OsNameReason(found);
    Regroup("Incompatible base detected: ", "Expected OS 'Ubuntu', found '", found, "'", [], [], ".");
  }

  /** The brief of a tag refusal: `Incompatible base detected: ` and then
      `Expected image compatibility tag '<expected>', found '<found>'` and a
      full stop. */
  lemma TagBrief(expected: string, found: string)
    requires Plain(expected) && Plain(found)
    ensures CompatibilityBrief(Reason(ConfigTagMismatch(expected, Some(found)))) ==
            "Incompatible base detected: " + "Expected image compatibility tag '" + expected + "', found '" + found + "'" + "."
  {
    TagReason(expected, found);
    Regroup("Incompatible base detected: ", "Expected image compatibility tag '", expected, "', found '", found, "'", ".");
  }

  /** Drops the brackets around a message `a + e + b + f + c` put between `p`
      and `s`; the solver regroups such sums cheaply only when the pieces are
      not literals. */
  lemma Regroup<T>(p: seq<T>, a: seq<T>, e: seq<T>, b: seq<T>, f: seq<T>, c: seq<T>, s: seq<T>)
    ensures p + (a + e + b + f + c) + s == p + a + e + b + f + c + s
  {
  }

  /** The Fedora refusal's brief, as the integration tests read it. */
  lemma FedoraBriefText()
    ensures CompatibilityBrief(Reason(OsName(Some("Fedora")))) ==
            "Incompatible base detected: Expected OS 'Ubuntu', found 'Fedora'."
  {
    var f := "Fedora";
    assert Plain(f) by {
      forall i | 0 <= i < |f| ensures f[i] != '\\' && f[i] != '\'' && f[i] != '"' && !IsControl(f[i]) { }
    }
    OsNameBrief(f);
    FedoraBriefJoin();
  }

  /** The test's brief put together from the pieces `OsNameBrief` yields;
      proved on its own because the join costs the solver far more in the
      context of `FedoraBriefText`. */
  lemma FedoraBriefJoin()
    ensures "Incompatible base detected: " + "Expected OS 'Ubuntu', found '" + "Fedora" + "'" + "." ==
            "Incompatible base detected: Expected OS 'Ubuntu', found 'Fedora'."
  {
  }

  /** A configuration tagged `invalid` is refused by the buildd tag. */
  lemma InvalidTagRefused(config: string)
    requires config == "compatibility_tag: invalid\n"
    ensures TagMismatch(Some(config), BuilddCompatibilityTag) ==
            Some(ConfigTagMismatch(BuilddCompatibilityTag, Some("invalid")))
  {
    var found := "invalid";
    assert '\n' !in found;
    assert !IsSpace(found[0]) && !IsSpace(found[|found| - 1]);
    assert config == "compatibility_tag: " + found + "\n";
    assert found != BuilddCompatibilityTag by { assert found[0] != BuilddCompatibilityTag[0]; }
    TagRefusedIffOther(BuilddCompatibilityTag, found);
  }

  /** The `invalid` tag refusal's brief, as the integration tests read it. */
  lemma InvalidTagBriefText()
    ensures CompatibilityBrief(Reason(ConfigTagMismatch(BuilddCompatibilityTag, Some("invalid")))) ==
            "Incompatible base detected: Expected image compatibility tag 'buildd-base-v0', found 'invalid'."
  {
    var t := BuilddCompatibilityTag;
    assert Plain(t) by {
      forall i | 0 <= i < |t| ensures t[i] != '\\' && t[i] != '\'' && t[i] != '"' && !IsControl(t[i]) { }
    }
    assert Plain("invalid");
    TagBrief(t, "invalid");
    InvalidTagBriefJoin();
  }

  /** The test's brief put together from the pieces `TagBrief` yields; proved
      on its own because the join costs the solver far more in the context
      of `InvalidTagBriefText`. */
  lemma InvalidTagBriefJoin()
    ensures "Incompatible base detected: " + "Expected image compatibility tag '" + "buildd-base-v0" + "', found '" + "invalid" + "'" + "." ==
            "Incompatible base detected: Expected image compatibility tag 'buildd-base-v0', found 'invalid'."
  {
    assert "Incompatible base detected: " + "Expected image compatibility tag '" ==
           "Incompatible base detected: Expected image compatibility tag '";
    assert "Incompatible base detected: Expected image compatibility tag '" + "buildd-base-v0" ==
           "Incompatible base detected: Expected image compatibility tag 'buildd-base-v0";
    assert "Incompatible base detected: Expected image compatibility tag 'buildd-base-v0" + "', found '" ==
           "Incompatible base detected: Expected image compatibility tag 'buildd-base-v0', found '";
    assert "Incompatible base detected: Expected image compatibility tag 'buildd-base-v0', found '" + "invalid" ==
           "Incompatible base detected: Expected image compatibility tag 'buildd-base-v0', found 'invalid";
    assert "Incompatible base detected: Expected image compatibility tag 'buildd-base-v0', found 'invalid" + "'" ==
           "Incompatible base detected: Expected image compatibility tag 'buildd-base-v0', found 'invalid'";
  }

  lemma ExpectedOsNameRepr()
    ensures Repr(ExpectedOsName) == "'Ubuntu'"
  {
    ReprPlain(ExpectedOsName);
  }

}
