/** The `MinecraftVersion` object and the profile it applies itself to. */
module Minecraft {
  import opened Problems
  import opened Descriptor
  import opened PatchCache

  /** The calls a version makes on a `MinecraftProfile`. How the profile
      consumes them is not part of this model; it only records them.
      `ApplyPatch` stands for `VersionFile::applyTo(profile)`. */
  datatype ProfileCall =
    | ApplyMinecraftVersion(descriptor: string)
    | ApplyMainClass(mainClass: string)
    | ApplyAppletClass(appletClass: string)
    | ApplyMinecraftArguments(arguments: string)
    | ApplyMinecraftVersionType(versionType: string)
    | ApplyTraits(traits: set<string>)
    | ApplyProblemSeverity(severity: ProblemSeverity)
    | ApplyPatch(file: VersionFile)

  /** The profile under construction, as the log of calls made on it. */
  class MinecraftProfile {
    var applied: seq<ProfileCall>

    constructor ()
      ensures applied == []
    {
      applied := [];
    }

    method Apply(call: ProfileCall)
      modifies this
      ensures applied == old(applied) + [call]
    {
      applied := applied + [call];
    }
  }

  /** The argument template of every builtin version: all of them are legacy. */
  const LegacyArguments := " ${auth_player_name} ${auth_session}"

  /** What `applyTo` writes for a builtin version, in order. */
  function BuiltinBundle(descriptor: string, mainClass: string, appletClass: string, versionType: string,
                         traits: set<string>, severity: ProblemSeverity): seq<ProfileCall>
  {
    [ApplyMinecraftVersion(descriptor), ApplyMainClass(mainClass), ApplyAppletClass(appletClass),
     ApplyMinecraftArguments(LegacyArguments), ApplyMinecraftVersionType(versionType),
     ApplyTraits(traits), ApplyProblemSeverity(severity)]
  }

  /** The outcome of applying a version: done, or `VersionIncomplete` with its message. */
  datatype ApplyResult = Applied | VersionIncomplete(message: string)

  /** The message of `applyFileTo`'s failure, built from the version's name. */
  function IncompleteVersionMessage(name: string): string
  {
    "Can't apply incomplete/builtin Minecraft version " + name
  }

  /** The message of `applyTo`'s failure for non-local sources, built from the descriptor. */
  function MissingFilesMessage(descriptor: string): string
  {
    "Minecraft version " + descriptor + " could not be applied: version files are missing."
  }

  class MinecraftVersion {
    const descriptor: string
    const name: string
    const versionType: string
    const traits: set<string>
    const source: VersionSource
    const versionFileUrl: string
    const mainClass: string
    const appletClass: string
    const upstreamUpdate: bool

    var order: int

    var loadedVersionFile: Option<VersionFile>
    var loadedVersionFileTimestamp: Option<int>
    var problems: seq<PatchProblem>
    var problemSeverity: ProblemSeverity
    /** Parse attempts so far; also the serial the next parsed object gets. */
    var parses: nat

    /** The resolver state held in this object's fields. */
    function State(): ResolverState
      reads this
    {
      ResolverState(loadedVersionFile, loadedVersionFileTimestamp, ProblemLog(problems, problemSeverity), parses)
    }

    ghost predicate Valid()
      reads this
    {
      PatchCache.Valid(State())
    }

    constructor (descriptor: string, name: string, versionType: string, traits: set<string>,
                 source: VersionSource, versionFileUrl: string, mainClass: string, appletClass: string,
                 upstreamUpdate: bool, order: int)
      ensures Valid() && State() == InitialState
      ensures this.descriptor == descriptor && this.name == name && this.versionType == versionType
      ensures this.traits == traits && this.source == source && this.versionFileUrl == versionFileUrl
      ensures this.mainClass == mainClass && this.appletClass == appletClass
      ensures this.upstreamUpdate == upstreamUpdate && this.order == order
    {
      this.descriptor := descriptor;
      this.name := name;
      this.versionType := versionType;
      this.traits := traits;
      this.source := source;
      this.versionFileUrl := versionFileUrl;
      this.mainClass := mainClass;
      this.appletClass := appletClass;
      this.upstreamUpdate := upstreamUpdate;
      this.order := order;
      loadedVersionFile := None;
      loadedVersionFileTimestamp := None;
      problems := [];
      problemSeverity := ProblemNone;
      parses := 0;
    }

    function GetOrder(): int
      reads this
    {
      order
    }

    /** The source queries of this version, as `Descriptor` defines them. */
    function Customizable(): bool { IsCustomizable(source) }
    function Custom(): bool { IsCustom(source) }
    function UpdateAvailable(): bool { HasUpdate(source, upstreamUpdate) }
    function UpdateNeeded(): bool { NeedsUpdate(source, upstreamUpdate) }
    function LegacyLauncher(): bool { UsesLegacyLauncher(traits) }
    function TypeLabel(): string { TypeString(versionType) }
    function Url(): string { GetUrl(versionFileUrl, descriptor) }

    /** `setOrder`: only the order changes. */
    method SetOrder(order: int)
      modifies this
      ensures GetOrder() == order
      ensures State() == old(State())
    {
      this.order := order;
    }

    /** `addProblem` on this object's own problem list. */
    method AddProblem(severity: ProblemSeverity, message: string)
      modifies this
      ensures ProblemLog(problems, problemSeverity) ==
              Problems.AddProblem(old(ProblemLog(problems, problemSeverity)), severity, message)
      ensures loadedVersionFile == old(loadedVersionFile) && parses == old(parses)
      ensures loadedVersionFileTimestamp == old(loadedVersionFileTimestamp) && order == old(order)
    {
      var log := Problems.AddProblem(ProblemLog(problems, problemSeverity), severity, message);
      problems := log.entries;
      problemSeverity := log.severity;
    }

    /** `getVersionFile`: resolve the patch file against `fs`. */
    method GetVersionFile(fs: FileSystem) returns (file: Option<VersionFile>)
      requires Valid()
      modifies this
      ensures Valid()
      ensures State() == Resolve(old(State()), descriptor, fs)
      ensures file == loadedVersionFile
      ensures order == old(order)
    {
      var path := VersionFilePath(descriptor);
      problems := [];
      problemSeverity := ProblemNone;
      if path !in fs {
        if loadedVersionFile.Some? {
          loadedVersionFile := None;
        }
        AddProblem(ProblemWarning, MissingFileMessage);
      } else {
        var disk := fs[path];
        if Some(disk.mtime) != loadedVersionFileTimestamp {
          var serial := parses;
          parses := parses + 1;
          match disk.parse
          case Parsed(content) =>
            var loaded := VersionFile(serial, PatchName, true, content);
            loadedVersionFileTimestamp := Some(disk.mtime);
            loadedVersionFile := Some(loaded);
          case ParseFailed(cause) =>
            loadedVersionFile := None;
            AddProblem(ProblemError, UnreadableFileMessage(cause));
        }
      }
      file := loadedVersionFile;
    }

    /** `applyFileTo`: a local version with a resolvable patch applies that
        patch; anything else fails with the version's name in the message.
        Only a local version consults the resolver. */
    method ApplyFileTo(profile: MinecraftProfile, fs: FileSystem) returns (r: ApplyResult)
      requires Valid()
      modifies this, profile
      ensures Valid() && order == old(order)
      ensures source != Local ==>
        State() == old(State()) && profile.applied == old(profile.applied) &&
        r == VersionIncomplete(IncompleteVersionMessage(name))
      ensures source == Local ==> State() == Resolve(old(State()), descriptor, fs)
      ensures source == Local && loadedVersionFile.Some? ==>
        r == Applied && profile.applied == old(profile.applied) + [ApplyPatch(loadedVersionFile.value)]
      ensures source == Local && loadedVersionFile.None? ==>
        r == VersionIncomplete(IncompleteVersionMessage(name)) && profile.applied == old(profile.applied)
    {
      var file: Option<VersionFile> := None;
      if source == Local {
        file := GetVersionFile(fs);
      }
      if source == Local && file.Some? {
        ghost var first := State();
        ResolveAgainAfterLoad(old(State()), descriptor, fs);
        file := GetVersionFile(fs);
        assert State() == first;
        profile.Apply(ApplyPatch(file.value));
        r := Applied;
      } else {
        r := VersionIncomplete(IncompleteVersionMessage(name));
      }
    }

    /** `applyTo`: a local version goes through `applyFileTo`; a builtin one
        writes its fixed bundle without touching the resolver; every other
        source fails with the descriptor in the message. */
    method ApplyTo(profile: MinecraftProfile, fs: FileSystem) returns (r: ApplyResult)
      requires Valid()
      modifies this, profile
      ensures Valid() && order == old(order)
      ensures source == Builtin ==>
        r == Applied && State() == old(State()) &&
        profile.applied == old(profile.applied) +
          BuiltinBundle(descriptor, mainClass, appletClass, versionType, traits, problemSeverity)
      ensures source == Local ==>
        State() == Resolve(old(State()), descriptor, fs) &&
        (r == Applied <==> loadedVersionFile.Some?) &&
        (loadedVersionFile.Some? ==> profile.applied == old(profile.applied) + [ApplyPatch(loadedVersionFile.value)]) &&
        (loadedVersionFile.None? ==>
          r == VersionIncomplete(IncompleteVersionMessage(name)) && profile.applied == old(profile.applied))
      ensures source != Builtin && source != Local ==>
        r == VersionIncomplete(MissingFilesMessage(descriptor)) &&
        State() == old(State()) && profile.applied == old(profile.applied)
    {
      if source == Local {
        r := ApplyFileTo(profile, fs);
        return;
      }
      if source != Builtin {
        r := VersionIncomplete(MissingFilesMessage(descriptor));
        return;
      }
      profile.Apply(ApplyMinecraftVersion(descriptor));
      profile.Apply(ApplyMainClass(mainClass));
      profile.Apply(ApplyAppletClass(appletClass));
      profile.Apply(ApplyMinecraftArguments(LegacyArguments));
      profile.Apply(ApplyMinecraftVersionType(versionType));
      profile.Apply(ApplyTraits(traits));
      profile.Apply(ApplyProblemSeverity(problemSeverity));
      r := Applied;
    }

    /** `getProblems`: a non-builtin version with a resolvable patch reports
        the patch's problems; otherwise the version's own list, which for a
        non-builtin version is the one the resolver just recorded. */
    method GetProblems(fs: FileSystem) returns (ps: seq<PatchProblem>)
      requires Valid()
      modifies this
      ensures Valid() && order == old(order)
      ensures source == Builtin ==> State() == old(State()) && ps == problems
      ensures source != Builtin ==> State() == Resolve(old(State()), descriptor, fs)
      ensures source != Builtin && loadedVersionFile.Some? ==> ps == loadedVersionFile.value.content.problems
      ensures source != Builtin && loadedVersionFile.None? ==> ps == problems
    {
      var file: Option<VersionFile> := None;
      if source != Builtin {
        file := GetVersionFile(fs);
      }
      if source != Builtin && file.Some? {
        ghost var first := State();
        ResolveAgainAfterLoad(old(State()), descriptor, fs);
        file := GetVersionFile(fs);
        assert State() == first;
        ps := file.value.content.problems;
        return;
      }
      ps := problems;
    }

    /** `getProblemSeverity`: the same choice as `getProblems`, for the severity. */
    method GetProblemSeverity(fs: FileSystem) returns (severity: ProblemSeverity)
      requires Valid()
      modifies this
      ensures Valid() && order == old(order)
      ensures source == Builtin ==> State() == old(State()) && severity == problemSeverity
      ensures source != Builtin ==> State() == Resolve(old(State()), descriptor, fs)
      ensures source != Builtin && loadedVersionFile.Some? ==> severity == loadedVersionFile.value.content.severity
      ensures source != Builtin && loadedVersionFile.None? ==> severity == problemSeverity
    {
      var file: Option<VersionFile> := None;
      if source != Builtin {
        file := GetVersionFile(fs);
      }
      if source != Builtin && file.Some? {
        ghost var first := State();
        ResolveAgainAfterLoad(old(State()), descriptor, fs);
        file := GetVersionFile(fs);
        assert State() == first;
        severity := file.value.content.severity;
        return;
      }
      severity := problemSeverity;
    }
  }


  /** A local version whose patch file is absent: the lookup yields nothing
      and one Warning, and applying the version fails with its name. */
  method LocalVersionWithoutFile(descriptor: string, name: string, fs: FileSystem)
    returns (file: Option<VersionFile>, ps: seq<PatchProblem>, r: ApplyResult)
    requires VersionFilePath(descriptor) !in fs
    ensures file == None
    ensures ps == [PatchProblem(ProblemWarning, MissingFileMessage)]
    ensures r == VersionIncomplete(IncompleteVersionMessage(name))
  {
    var v := new MinecraftVersion(descriptor, name, "release", {}, Local, "", "", "", false, 0);
    file := v.GetVersionFile(fs);
    ps := v.GetProblems(fs);
    var profile := new MinecraftProfile();
    r := v.ApplyTo(profile, fs);
  }

  /** A local version whose patch file parses: every lookup against the
      unchanged file returns the one object created by the single parse, and
      applying the version hands that object to the profile. A patch that
      reports an Error makes the version report an Error. */
  method LocalVersionWithFile(descriptor: string, fs: FileSystem, content: PatchContent)
    returns (first: Option<VersionFile>, second: Option<VersionFile>, severity: ProblemSeverity,
             r: ApplyResult, applied: seq<ProfileCall>)
    requires VersionFilePath(descriptor) in fs
    requires fs[VersionFilePath(descriptor)].parse == Parsed(content)
    ensures first == second == Some(VersionFile(0, PatchName, true, content))
    ensures severity == content.severity
    ensures r == Applied && applied == [ApplyPatch(first.value)]
  {
    var v := new MinecraftVersion(descriptor, "Minecraft " + descriptor, "release", {}, Local, "", "", "", false, 0);
    first := v.GetVersionFile(fs);
    second := v.GetVersionFile(fs);
    severity := v.GetProblemSeverity(fs);
    var profile := new MinecraftProfile();
    r := v.ApplyTo(profile, fs);
    applied := profile.applied;
    assert v.parses == 1;
  }

  /** A builtin version applies its fixed bundle whatever the filesystem holds. */
  method BuiltinVersionIgnoresFiles(descriptor: string, mainClass: string, appletClass: string,
                                    traits: set<string>, fs: FileSystem)
    returns (r: ApplyResult, applied: seq<ProfileCall>)
    ensures r == Applied
    ensures applied == BuiltinBundle(descriptor, mainClass, appletClass, "release", traits, ProblemNone)
    ensures applied[3] == ApplyMinecraftArguments(" ${auth_player_name} ${auth_session}")
  {
    var v := new MinecraftVersion(descriptor, descriptor, "release", traits, Builtin, "",
                                  mainClass, appletClass, false, 0);
    var profile := new MinecraftProfile();
    r := v.ApplyTo(profile, fs);
    applied := profile.applied;
  }
}
