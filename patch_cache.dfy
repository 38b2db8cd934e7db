/** The cached patch resolver behind `MinecraftVersion::getVersionFile`, stated
    on values: one call maps the resolver's state and what the filesystem shows
    to the new state, whose `loaded` field is what the call returns. */
module PatchCache {
  import opened Problems

  datatype Option<T> = None | Some(value: T)

  /** What the external parser makes of a patch file: the patch's own
      diagnostics and its attributes, which the profile consumes. */
  datatype PatchContent = PatchContent(problems: seq<PatchProblem>, severity: ProblemSeverity, attributes: seq<string>)

  /** A loaded patch object. Each successful parse creates a new object; its
      `serial` is the number of parses made before it, so two patch objects
      are the same object exactly when their serials agree. */
  datatype VersionFile = VersionFile(serial: nat, name: string, customizable: bool, content: PatchContent)

  /** `ProfileUtils::parseBinaryJsonFile`: a patch, or an exception with a cause. */
  datatype ParseOutcome = Parsed(content: PatchContent) | ParseFailed(cause: string)

  /** A file on disk: its modification time and what parsing it yields. */
  datatype DiskFile = DiskFile(mtime: int, parse: ParseOutcome)

  /** The filesystem as seen by one call: a path exists when it is a key. */
  type FileSystem = map<string, DiskFile>

  /** `versions/<descriptor>/<descriptor>.dat` */
  function VersionFilePath(descriptor: string): string
  {
    "versions/" + descriptor + "/" + descriptor + ".dat"
  }

  const PatchName := "Minecraft"

  const MissingFileMessage := "The patch file doesn't exist locally. It's possible it just needs to be downloaded."

  function UnreadableFileMessage(cause: string): string
  {
    "The patch file couldn't be read:\n" + cause
  }

  /** The descriptor's resolver state: `m_loadedVersionFile`,
      `m_loadedVersionFileTimestamp` (None is the null date before any load),
      `m_problems` with `m_problemSeverity`, and a count of parse attempts. */
  datatype ResolverState = ResolverState(loaded: Option<VersionFile>, stamp: Option<int>, log: ProblemLog, parses: nat)

  const InitialState := ResolverState(None, None, EmptyLog, 0)

  /** A cached patch was parsed successfully at some recorded time, was renamed
      and marked customisable, and came from an earlier parse; the problem
      severity is the worst recorded problem. */
  predicate Valid(st: ResolverState)
  {
    Consistent(st.log) &&
    (st.loaded.Some? ==>
      st.stamp.Some? && st.loaded.value.name == PatchName &&
      st.loaded.value.customizable && st.loaded.value.serial < st.parses)
  }

  /** One call of `getVersionFile` for `descriptor` against `fs`. */
  function Resolve(st: ResolverState, descriptor: string, fs: FileSystem): (r: ResolverState)
    ensures Consistent(r.log) && |r.log.entries| <= 1
    ensures r.parses == st.parses || r.parses == st.parses + 1
    ensures r.loaded.Some? ==> r.log == EmptyLog
  {
    var path := VersionFilePath(descriptor);
    var cleared := st.(log := EmptyLog);
    if path !in fs then
      cleared.(loaded := None, log := AddProblem(EmptyLog, ProblemWarning, MissingFileMessage))
    else if Some(fs[path].mtime) != st.stamp then
      match fs[path].parse
      case Parsed(content) =>
        cleared.(loaded := Some(VersionFile(st.parses, PatchName, true, content)),
                 stamp := Some(fs[path].mtime), parses := st.parses + 1)
      case ParseFailed(cause) =>
        cleared.(loaded := None, parses := st.parses + 1,
                 log := AddProblem(EmptyLog, ProblemError, UnreadableFileMessage(cause)))
    else
      cleared
  }

  lemma ResolveKeepsValid(st: ResolverState, descriptor: string, fs: FileSystem)
    requires Valid(st)
    ensures Valid(Resolve(st, descriptor, fs))
  {
  }

  /** Cache hit: the file exists with the recorded modification time. The
      same object comes back, nothing is parsed, no problem is recorded. */
  lemma CacheHit(st: ResolverState, descriptor: string, fs: FileSystem)
    requires VersionFilePath(descriptor) in fs
    requires Some(fs[VersionFilePath(descriptor)].mtime) == st.stamp
    ensures Resolve(st, descriptor, fs) == st.(log := EmptyLog)
  {
  }

  /** Missing file: the cache is dropped, exactly one Warning is recorded, and
      the recorded timestamp is left as it was. */
  lemma MissingFile(st: ResolverState, descriptor: string, fs: FileSystem)
    requires VersionFilePath(descriptor) !in fs
    ensures var r := Resolve(st, descriptor, fs);
      r.loaded == None && r.stamp == st.stamp && r.parses == st.parses &&
      r.log == ProblemLog([PatchProblem(ProblemWarning, MissingFileMessage)], ProblemWarning)
  {
  }

  /** Changed modification time and a readable file: the fresh object, named
      "Minecraft" and customisable, replaces the cache, and its time is recorded. */
  lemma ParseSucceeds(st: ResolverState, descriptor: string, fs: FileSystem, content: PatchContent)
    requires VersionFilePath(descriptor) in fs
    requires Some(fs[VersionFilePath(descriptor)].mtime) != st.stamp
    requires fs[VersionFilePath(descriptor)].parse == Parsed(content)
    ensures var r := Resolve(st, descriptor, fs);
      r.loaded == Some(VersionFile(st.parses, PatchName, true, content)) &&
      r.stamp == Some(fs[VersionFilePath(descriptor)].mtime) &&
      r.parses == st.parses + 1 && r.log == EmptyLog
  {
  }

  /** A freshly parsed object is never the object that was cached before. */
  lemma ParsedObjectIsNew(st: ResolverState, descriptor: string, fs: FileSystem, content: PatchContent)
    requires Valid(st) && st.loaded.Some?
    requires VersionFilePath(descriptor) in fs
    requires Some(fs[VersionFilePath(descriptor)].mtime) != st.stamp
    requires fs[VersionFilePath(descriptor)].parse == Parsed(content)
    ensures Resolve(st, descriptor, fs).loaded.value.serial != st.loaded.value.serial
  {
  }

  /** Changed modification time and an unreadable file: the cache is dropped,
      exactly one Error carrying the cause is recorded, and the timestamp is
      not updated. */
  lemma ParseFails(st: ResolverState, descriptor: string, fs: FileSystem, cause: string)
    requires VersionFilePath(descriptor) in fs
    requires Some(fs[VersionFilePath(descriptor)].mtime) != st.stamp
    requires fs[VersionFilePath(descriptor)].parse == ParseFailed(cause)
    ensures var r := Resolve(st, descriptor, fs);
      r.loaded == None && r.stamp == st.stamp && r.parses == st.parses + 1 &&
      r.log == ProblemLog([PatchProblem(ProblemError, UnreadableFileMessage(cause))], ProblemError)
  {
  }

  /** Once a call yields a patch, repeating it against the same filesystem
      changes nothing: the second call is a cache hit. */
  lemma ResolveAgainAfterLoad(st: ResolverState, descriptor: string, fs: FileSystem)
    requires Resolve(st, descriptor, fs).loaded.Some?
    ensures Resolve(Resolve(st, descriptor, fs), descriptor, fs) == Resolve(st, descriptor, fs)
  {
  }

  /** The timestamp survives a missing file: when the file comes back with
      the modification time recorded before it vanished, the call returns
      null and records no problem at all. */
  lemma ReappearingFileYieldsNullSilently(st: ResolverState, descriptor: string, gone: FileSystem, back: FileSystem)
    requires VersionFilePath(descriptor) !in gone
    requires VersionFilePath(descriptor) in back
    requires Some(back[VersionFilePath(descriptor)].mtime) == st.stamp
    ensures var r := Resolve(Resolve(st, descriptor, gone), descriptor, back);
      r.loaded == None && r.log == EmptyLog && r.parses == st.parses
  {
  }

  /** A sequence of `getVersionFile` calls, one filesystem view per call. */
  function Run(st: ResolverState, descriptor: string, views: seq<FileSystem>): ResolverState
    decreases |views|
  {
    if views == [] then st else Run(Resolve(st, descriptor, views[0]), descriptor, views[1..])
  }

  /** `n` calls against the same filesystem. */
  function Repeat(fs: FileSystem, n: nat): (r: seq<FileSystem>)
    ensures |r| == n && forall i :: 0 <= i < n ==> r[i] == fs
  {
    seq(n, _ => fs)
  }

  /** Each call parses at most once. */
  lemma {:induction false} ParsesPerRun(st: ResolverState, descriptor: string, views: seq<FileSystem>)
    ensures st.parses <= Run(st, descriptor, views).parses <= st.parses + |views|
    decreases |views|
  {
    if views != [] {
      ParsesPerRun(Resolve(st, descriptor, views[0]), descriptor, views[1..]);
    }
  }

  /** While the file keeps its recorded modification time, any number of
      calls return the same object without parsing. */
  lemma {:induction false} StableFileNeverReparsed(st: ResolverState, descriptor: string, fs: FileSystem, n: nat)
    requires VersionFilePath(descriptor) in fs
    requires Some(fs[VersionFilePath(descriptor)].mtime) == st.stamp
    ensures var r := Run(st, descriptor, Repeat(fs, n));
      r.loaded == st.loaded && r.stamp == st.stamp && r.parses == st.parses &&
      (n > 0 ==> r.log == EmptyLog)
    decreases n
  {
    if n > 0 {
      assert Repeat(fs, n)[1..] == Repeat(fs, n - 1);
      StableFileNeverReparsed(st.(log := EmptyLog), descriptor, fs, n - 1);
    }
  }

  /** After a successful parse, further calls on the unchanged file never
      parse again and keep returning the object that parse created. */
  lemma SettledAfterParse(st: ResolverState, descriptor: string, fs: FileSystem, content: PatchContent, n: nat)
    requires VersionFilePath(descriptor) in fs
    requires Some(fs[VersionFilePath(descriptor)].mtime) != st.stamp
    requires fs[VersionFilePath(descriptor)].parse == Parsed(content)
    ensures var r := Run(st, descriptor, Repeat(fs, n + 1));
      r.loaded == Some(VersionFile(st.parses, PatchName, true, content)) &&
      r.parses == st.parses + 1 && r.log == EmptyLog
  {
    assert Repeat(fs, n + 1)[1..] == Repeat(fs, n);
    StableFileNeverReparsed(Resolve(st, descriptor, fs), descriptor, fs, n);
  }

  /** An unreadable file is parsed again on every call, each time leaving
      no cached object and one Error. */
  lemma {:induction false} UnreadableFileReparsedEveryCall(st: ResolverState, descriptor: string, fs: FileSystem, cause: string, n: nat)
    requires VersionFilePath(descriptor) in fs
    requires Some(fs[VersionFilePath(descriptor)].mtime) != st.stamp
    requires fs[VersionFilePath(descriptor)].parse == ParseFailed(cause)
    ensures var r := Run(st, descriptor, Repeat(fs, n));
      r.parses == st.parses + n && r.stamp == st.stamp &&
      (n > 0 ==> r.loaded == None &&
                 r.log == ProblemLog([PatchProblem(ProblemError, UnreadableFileMessage(cause))], ProblemError))
    decreases n
  {
    if n > 0 {
      assert Repeat(fs, n)[1..] == Repeat(fs, n - 1);
      var next := Resolve(st, descriptor, fs);
      UnreadableFileReparsedEveryCall(next, descriptor, fs, cause, n - 1);
    }
  }
}
