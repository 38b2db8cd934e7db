/** The side-effect-free queries of a Minecraft version descriptor: where its
    definition comes from, whether it can be customised or updated, whether it
    launches through the legacy launcher, its type label and its download URL. */
module Descriptor {

  /** Where the version's definition lives. `Other` is every value of the
      source enumeration that is none of the three named kinds: the
      `default:` branch of `isCustomizable` and the residue `isCustom` tests for. */
  datatype VersionSource = Builtin | Local | Remote | Other

  /** `isCustomizable`: a locally cached file, or a remote one that can be
      acquired, can be customised; builtins and everything else cannot. */
  function IsCustomizable(s: VersionSource): (r: bool)
    ensures r <==> s != Builtin && !IsCustom(s)
  {
    match s
    case Local => true
    case Remote => true
    case Builtin => false
    case Other => false
  }

  /** `isCustom`: the source is none of Builtin, Local and Remote. */
  function IsCustom(s: VersionSource): (r: bool)
    ensures r <==> s.Other?
  {
    s != Builtin && s != Local && s != Remote
  }

  /** `hasUpdate`: remote versions always have one; local versions when the
      upstream-update flag is set. */
  function HasUpdate(s: VersionSource, upstreamUpdate: bool): (r: bool)
    ensures r ==> IsCustomizable(s)
    ensures s == Remote ==> r
    ensures s == Local ==> (r <==> upstreamUpdate)
  {
    s == Remote || (s == Local && upstreamUpdate)
  }

  /** `needsUpdate`: Remote, or whatever `hasUpdate` says. */
  function NeedsUpdate(s: VersionSource, upstreamUpdate: bool): (r: bool)
    ensures r == HasUpdate(s, upstreamUpdate)
  {
    s == Remote || HasUpdate(s, upstreamUpdate)
  }

  /** Every source is exactly one of: builtin, customisable, custom. */
  lemma SourcePartition(s: VersionSource)
    ensures (s == Builtin) || IsCustomizable(s) || IsCustom(s)
    ensures !(IsCustomizable(s) && IsCustom(s))
    ensures s == Builtin ==> !IsCustomizable(s) && !IsCustom(s)
  {
  }

  /** The two trait keys that select the legacy launcher; the second keeps
      its historical misspelling. */
  const LegacyLaunchTraits: set<string> := {"legacyLaunch", "aplhaLaunch"}

  /** `usesLegacyLauncher`. */
  function UsesLegacyLauncher(traits: set<string>): (r: bool)
    ensures r <==> traits * LegacyLaunchTraits != {}
  {
    assert "legacyLaunch" in traits ==> "legacyLaunch" in traits * LegacyLaunchTraits;
    assert "aplhaLaunch" in traits ==> "aplhaLaunch" in traits * LegacyLaunchTraits;
    "legacyLaunch" in traits || "aplhaLaunch" in traits
  }

  /** Only the misspelled alias is recognised: the correctly spelled
      "alphaLaunch" does not select the legacy launcher. */
  lemma CorrectSpellingNotRecognised()
    ensures !UsesLegacyLauncher({"alphaLaunch"})
    ensures UsesLegacyLauncher({"aplhaLaunch"})
  {
  }

  /** The version type keys that have a label. */
  const KnownVersionTypes: set<string> := {"snapshot", "release", "old_alpha", "old_beta"}

  /** `typeString`: the display label of a version type; empty for unknown keys. */
  function TypeString(versionType: string): (r: string)
    ensures r != "" <==> versionType in KnownVersionTypes
  {
    if versionType == "snapshot" then "Snapshot"
    else if versionType == "release" then "Regular release"
    else if versionType == "old_alpha" then "Alpha"
    else if versionType == "old_beta" then "Beta"
    else ""
  }

  /** Distinct known version types get distinct labels. */
  lemma TypeStringDistinguishesKnownTypes(t1: string, t2: string)
    requires t1 in KnownVersionTypes && t2 in KnownVersionTypes
    requires TypeString(t1) == TypeString(t2)
    ensures t1 == t2
  {
  }

  /** `URLConstants::AWS_DOWNLOAD_VERSIONS`: host and path prefix of the legacy
      download location. Its value is not part of this model, and nothing
      proved here depends on it. */
  const AwsDownloadVersions: string

  const UrlScheme := "http://"

  /** Everything in a fallback URL before the first copy of the descriptor. */
  const FallbackPrefix := UrlScheme + AwsDownloadVersions

  /** `getUrl`: the stored URL when there is one, otherwise the legacy
      fallback `http://<AWS_DOWNLOAD_VERSIONS><descriptor>/<descriptor>.json`. */
  function GetUrl(versionFileUrl: string, descriptor: string): (r: string)
    ensures r != ""
    ensures versionFileUrl != "" ==> r == versionFileUrl
    ensures versionFileUrl == "" ==>
      var n := |FallbackPrefix|;
      |r| == n + 2 * |descriptor| + 6 &&
      r[..n] == FallbackPrefix &&
      r[n..n + |descriptor|] == descriptor &&
      r[n + |descriptor|] == '/' &&
      r[n + |descriptor| + 1..|r| - 5] == descriptor &&
      r[|r| - 5..] == ".json"
  {
    if versionFileUrl == "" then
      FallbackPrefix + descriptor + "/" + descriptor + ".json"
    else
      versionFileUrl
  }

  /** The fallback URL determines the descriptor: two descriptors without a
      stored URL never share a download location. */
  lemma {:induction false} FallbackUrlDeterminesDescriptor(d1: string, d2: string)
    requires GetUrl("", d1) == GetUrl("", d2)
    ensures d1 == d2
  {
    var p := FallbackPrefix;
    var u := GetUrl("", d1);
    assert |d1| == |d2|;
    assert u[|p|..|p| + |d1|] == d1;
    assert GetUrl("", d2)[|p|..|p| + |d2|] == d2;
  }
}
