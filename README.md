# MinecraftVersion: a verified model

This project models `MinecraftVersion`, MultiMC's descriptor of one Minecraft
release. A version's definition is bundled with the launcher (Builtin), cached
on disk as `versions/<id>/<id>.dat` (Local), fetchable (Remote) or none of
these (any other source value). The descriptor:

- classifies its source (customisable, custom, has/needs an update, legacy launcher);
- derives its type label and download URL;
- lazily loads and caches the on-disk patch. The cache is invalidated when the
  file's modification time changes. Every lookup clears and re-records the
  descriptor's own problem list;
- applies itself to a `MinecraftProfile`. A builtin version writes a fixed
  attribute bundle. A local version hands over its patch. Every other source fails;
- reports problems, preferring the loaded patch's own over its own.

Modules:

- `Problems` (`problems.dfy`): severities, problem lists and `addProblem`.
- `Descriptor` (`descriptor.dfy`): the pure queries.
- `PatchCache` (`patch_cache.dfy`): `getVersionFile` stated on values as
  `Resolve`, and what sequences of calls do.
- `Minecraft` (`minecraft.dfy`): the `MinecraftVersion` class, whose fields are
  the C++ members and whose methods are proved against `Resolve`; its query
  functions apply the `Descriptor` definitions to its own fields. The profile is
  a class that records the calls made on it.

The filesystem is a parameter: a map from path to the file's modification time
and what parsing it yields. A path exists when it is a key. Each parse attempt
is counted. A parsed patch object carries the count at its creation as a
serial, which stands for its identity. So "the same cached object" is equality
of serials, and "no re-parse" is an unchanged count.

Things the code does that a reader might not expect, modelled as written:

- A missing file drops the cache but keeps the recorded timestamp
  (`MinecraftVersion.cpp:89-96`). If the file later reappears with that same
  modification time, the lookup returns null and records no problem
  (`PatchCache.ReappearingFileYieldsNullSilently`). A failed parse also keeps the
  timestamp, so the file is parsed again on every later lookup while it stays
  present with a modification time other than the recorded one.
- `applyFileTo` names the version by `m_name` (line 69). `applyTo` names it by
  `m_descriptor` (line 166).
- The legacy launcher is selected by `legacyLaunch` and by the misspelled
  `aplhaLaunch` only. The correctly spelled `alphaLaunch` is not recognised.
- The comment at line 226 says `isCustom` is false for any future source kind.
  The code returns true for every source other than Builtin, Local and Remote,
  and the model follows the code.
- Nothing in the code stops a builtin version from holding a cached patch if
  `getVersionFile` is called on it. The model does not assume that it never does.

## Model

| member | source | states |
|---|---|---|
| `Problems.AddProblem` | api/logic/minecraft/MinecraftVersion.cpp:95 | appends exactly the new entry; the new severity is the old one or the entry's, at least as severe as both; a log whose severity is its worst entry stays so |
| `Problems.Worst` | api/logic/minecraft/MinecraftVersion.cpp:87-88 | the recorded severity is an upper bound of every entry and is attained by some entry unless it is None |
| `Problems.WorstAppend` | api/logic/minecraft/MinecraftVersion.cpp:113 | appending a problem raises the worst severity to the maximum of the old worst and the new entry |
| `Problems.SingleProblem` | api/logic/minecraft/MinecraftVersion.cpp:87-95 | after the reset, one recorded problem leaves exactly that entry at its own severity |
| `Descriptor.IsCustomizable` | api/logic/minecraft/MinecraftVersion.cpp:119-134 | customisable exactly when the source is neither Builtin nor custom, i.e. Local or Remote |
| `Descriptor.IsCustom` | api/logic/minecraft/MinecraftVersion.cpp:224-230 | custom exactly for the residual source kind, including any kind added later |
| `Descriptor.SourcePartition` | api/logic/minecraft/MinecraftVersion.cpp:119-134 | every source is builtin, customisable or custom, and never both customisable and custom |
| `Descriptor.HasUpdate` | api/logic/minecraft/MinecraftVersion.cpp:219-222 | only customisable sources have updates; Remote always; Local exactly when the upstream flag is set |
| `Descriptor.NeedsUpdate` | api/logic/minecraft/MinecraftVersion.cpp:214-217 | equals `hasUpdate` for every source and flag |
| `Descriptor.UsesLegacyLauncher` | api/logic/minecraft/MinecraftVersion.cpp:7-10 | true exactly when the traits meet the two keys `legacyLaunch` and `aplhaLaunch` |
| `Descriptor.CorrectSpellingNotRecognised` | api/logic/minecraft/MinecraftVersion.cpp:9 | `alphaLaunch` alone does not select the legacy launcher; `aplhaLaunch` does |
| `Descriptor.TypeString` | api/logic/minecraft/MinecraftVersion.cpp:22-44 | the label is non-empty exactly for snapshot, release, old_alpha and old_beta |
| `Descriptor.TypeStringDistinguishesKnownTypes` | api/logic/minecraft/MinecraftVersion.cpp:22-44 | the four known types get four distinct labels |
| `Descriptor.GetUrl` | api/logic/minecraft/MinecraftVersion.cpp:73-82 | never empty; the stored URL when there is one; otherwise `http://` and the download prefix, then the descriptor, `/`, the descriptor again and `.json` |
| `Descriptor.FallbackUrlDeterminesDescriptor` | api/logic/minecraft/MinecraftVersion.cpp:78 | two descriptors with the same fallback URL are equal |
| `PatchCache.Resolve` | api/logic/minecraft/MinecraftVersion.cpp:84-117 | after every lookup the problems hold at most one entry, and the severity is their worst; at most one parse happens; a returned patch comes with no problems |
| `PatchCache.ResolveKeepsValid` | api/logic/minecraft/MinecraftVersion.cpp:84-117 | a cached patch is always named "Minecraft", customisable, stamped and created by an earlier parse |
| `PatchCache.CacheHit` | api/logic/minecraft/MinecraftVersion.cpp:97-116 | file present with the recorded time: same object, same timestamp, no parse, problems empty |
| `PatchCache.MissingFile` | api/logic/minecraft/MinecraftVersion.cpp:89-96 | file absent: null result, exactly one Warning, timestamp and parse count unchanged |
| `PatchCache.ParseSucceeds` | api/logic/minecraft/MinecraftVersion.cpp:101-108 | changed time, readable file: the new object, named "Minecraft" and customisable, is cached; the file's time is recorded; one parse; no problem |
| `PatchCache.ParsedObjectIsNew` | api/logic/minecraft/MinecraftVersion.cpp:103-107 | a re-parse yields an object other than the previously cached one |
| `PatchCache.ParseFails` | api/logic/minecraft/MinecraftVersion.cpp:103-114 | changed time, unreadable file: null cache, exactly one Error carrying the cause, timestamp unchanged |
| `PatchCache.ResolveAgainAfterLoad` | api/logic/minecraft/MinecraftVersion.cpp:63-65 | once a lookup yields a patch, an immediate second lookup on the same files changes nothing |
| `PatchCache.ReappearingFileYieldsNullSilently` | api/logic/minecraft/MinecraftVersion.cpp:89-101 | missing file, then the file back with the old time: null result, no problem, no parse |
| `PatchCache.ParsesPerRun` | api/logic/minecraft/MinecraftVersion.cpp:101-103 | over any sequence of lookups, the parse count grows by at most one per lookup |
| `PatchCache.StableFileNeverReparsed` | api/logic/minecraft/MinecraftVersion.cpp:101-116 | any number of lookups on a file with the recorded time keep the object and timestamp, never parse, and leave no problems |
| `PatchCache.SettledAfterParse` | api/logic/minecraft/MinecraftVersion.cpp:101-108 | after a successful parse, further lookups on the unchanged file return that object and never parse again |
| `PatchCache.UnreadableFileReparsedEveryCall` | api/logic/minecraft/MinecraftVersion.cpp:103-114 | an unreadable file is parsed on every one of n lookups, leaving null, one Error and the old timestamp |
| `Minecraft.MinecraftVersion.AddProblem` | api/logic/minecraft/MinecraftVersion.cpp:95 | the object's problem list and severity become `Problems.AddProblem` of the old pair; the cache fields and order are untouched |
| `Minecraft.MinecraftVersion.GetVersionFile` | api/logic/minecraft/MinecraftVersion.cpp:84-117 | the fields become `Resolve` of the old fields; the result is the new cached patch; the invariant is kept; order untouched |
| `Minecraft.MinecraftVersion.SetOrder` | api/logic/minecraft/MinecraftVersion.cpp:177-185 | `getOrder` then returns the new order; the cache and problems are untouched |
| `Minecraft.MinecraftVersion.ApplyFileTo` | api/logic/minecraft/MinecraftVersion.cpp:61-71 | only a Local version consults the resolver; it applies exactly the resolved patch, or fails with the name-based message when there is none; any other source fails without touching state or profile |
| `Minecraft.MinecraftVersion.ApplyTo` | api/logic/minecraft/MinecraftVersion.cpp:154-175 | Builtin: succeeds, writes the seven-call bundle in order, and leaves the cache alone. Local: fails iff the resolver yields null. Any other source: fails with the descriptor-based message and changes nothing |
| `Minecraft.MinecraftVersion.GetProblems` | api/logic/minecraft/MinecraftVersion.cpp:136-143 | Builtin: own problems, no lookup; otherwise one net lookup, then the patch's problems if a patch resolved, else the freshly recorded own problems |
| `Minecraft.MinecraftVersion.GetProblemSeverity` | api/logic/minecraft/MinecraftVersion.cpp:145-152 | as `GetProblems`, for the severity: the patch's severity takes precedence whenever a patch resolves |
| `Minecraft.LocalVersionWithoutFile` | api/logic/minecraft/MinecraftVersion.cpp:154-161 | a local version with no file: null lookup, exactly one Warning, and applying fails with the name-based message |
| `Minecraft.LocalVersionWithFile` | api/logic/minecraft/MinecraftVersion.cpp:136-161 | a local version with a readable file: two lookups return the one parsed object; the severity is the patch's; applying hands that object to the profile |
| `Minecraft.BuiltinVersionIgnoresFiles` | api/logic/minecraft/MinecraftVersion.cpp:168-174 | a builtin version applies its fixed bundle, including the legacy argument template, whatever the filesystem holds |

## Left out

- Filesystem access (`QFileInfo::exists`, `lastModified`) is I/O. It is a parameter: a map from path to modification time and parse outcome.
- `ProfileUtils::parseBinaryJsonFile` is a foreign parser. The model only has its outcome: a patch's problems, severity and attributes, or a failure cause.
- `VersionFile::applyTo` and how `MinecraftProfile` consumes attributes belong to other classes. The profile only records the calls, and a patch's `applyTo` is one recorded `ApplyPatch` call.
- `ProfilePatch::addProblem` is not part of this model. It is taken to append the entry and raise the severity to the maximum.
- `QObject::tr` localisation: labels and messages are the untranslated English strings.
- `URLConstants::AWS_DOWNLOAD_VERSIONS` is an uninterpreted constant; no proof depends on its value.
- `QDateTime` is an integer. The null date before the first load is `None`.
- Shared pointers and heap identity of patch objects: a patch is a value whose serial, taken from the parse count, stands for its identity. Setting its name and customisable flag builds the value directly.
- Exceptions: `VersionIncomplete` is a returned `ApplyResult`, not a thrown exception. A parse exception is the `ParseFailed` outcome.
- Minecraft.MinecraftVersion.ApplyFileTo: the code calls `getVersionFile` twice. The model gives both calls the same filesystem snapshot, so the second call is a proven no-op. A file changing between the two calls is not modelled.
- Minecraft.MinecraftVersion.GetProblems: the same single-snapshot simplification for its two `getVersionFile` calls.
- Minecraft.MinecraftVersion.GetProblemSeverity: the same single-snapshot simplification for its two `getVersionFile` calls.
- Trivial constant getters carry no logic and are not modelled: `hasJarMods`, `getJarMods`, `getName`, `getID`, `getFilename`, `getVersion`, `getVersionSource`, `isMinecraftVersion`, `getReleaseDateTime`, `descriptor`, `name`.
- Concurrent use of one descriptor from several threads is the caller's problem, and the model is sequential.
