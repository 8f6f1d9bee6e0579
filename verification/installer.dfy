/** `getGoReleaser` (src/installer.ts:11-45): look up the release, build
    the download URL from its tag and the host's asset name, download,
    extract, store in the tool cache under the normalised tag, and return
    the path of the executable inside the cached directory.

    The collaborators it awaits (the release lookup, the tool-cache
    download, extract and cache operations) are given as total functions;
    a collaborator that throws answers `Err` with the error's message.
    The host platform and architecture, which the source reads once from
    `os.platform()` and `os.arch()`, are parameters. */
module Installer {
  import opened Wrappers
  import opened Text
  import opened AssetName
  import opened ReleaseTag

  /** The tool name under which the tool cache stores every version. */
  const ToolName := "goreleaser-action"

  /** Where the release assets are published; the tag and the asset name
      follow as two more path segments. */
  const DownloadBase := "https://github.com/iann0036/goreleaser/releases/download/"

  /** A release as the lookup describes it; only its tag is used. */
  datatype Release = Release(tagName: string)

  /** One call to a collaborator, as the installer's trace records it. */
  datatype Call =
    | LookupRelease(version: string)
    | Download(url: string)
    | Extract(kind: ArchiveKind, archive: string)
    | CacheDir(sourceDir: string, tool: string, cacheVersion: string)

  /** The collaborators' answers: `github.getRelease` (a release, none, or
      a thrown error), `tc.downloadTool`, `tc.extractZip`, `tc.extractTar`
      and `tc.cacheDir` (a path, or a thrown error). */
  datatype Collaborators = Collaborators(
    getRelease: string -> Result<Option<Release>>,
    downloadTool: string -> Result<string>,
    extractZip: string -> Result<string>,
    extractTar: string -> Result<string>,
    cacheDir: (string, string, string) -> Result<string>)

  /** What one installation returns or throws, and the calls it made. */
  datatype Run = Run(outcome: Result<string>, calls: seq<Call>)

  /** The message thrown when no release matches the requested version. */
  function NotFoundMessage(version: string): string {
    "Cannot find GoReleaser " + version + " release"
  }

  lemma NotFoundNamesVersion(version: string)
    ensures Contains(NotFoundMessage(version), version)
  {
    ContainsMiddle("Cannot find GoReleaser ", version, " release");
  }

  /** `util.format` of the download URL template with the tag and the
      asset name. */
  function DownloadUrl(tag: string, filename: string): string {
    DownloadBase + tag + ("/" + filename)
  }

  /** A download URL can be taken apart again: it starts with the release
      base, its last `/`-separated segment is the asset name, and what lies
      between is the tag. */
  lemma DownloadUrlParts(tag: string, filename: string)
    requires '/' !in filename
    ensures var url := DownloadUrl(tag, filename);
      && |url| == |DownloadBase| + |tag| + 1 + |filename|
      && url[..|DownloadBase|] == DownloadBase
      && url[|DownloadBase|..|DownloadBase| + |tag|] == tag
      && AfterLast(url, '/') == filename
  {
    AfterLastOfJoin(DownloadBase + tag, '/', filename);
  }

  /** Different tags give different URLs for the same asset. */
  lemma DownloadUrlInjective(tag1: string, tag2: string, filename: string)
    requires '/' !in filename
    ensures DownloadUrl(tag1, filename) == DownloadUrl(tag2, filename) <==> tag1 == tag2
  {
    DownloadUrlParts(tag1, filename);
    DownloadUrlParts(tag2, filename);
  }

  /** The executable inside the cached directory. */
  function ExeName(osPlat: string): string {
    if osPlat == "win32" then "goreleaser.exe" else "goreleaser"
  }

  /** Only the Windows executable name ends in `.exe`. */
  lemma ExeNameSuffix(osPlat: string)
    ensures |ExeName(osPlat)| >= 4
    ensures EndsWith(ExeName(osPlat), ".exe") <==> osPlat == "win32"
  {
    var name := ExeName(osPlat);
    if osPlat != "win32" {
      assert name[|name| - 4..] == "aser";
    }
  }

  /** The separator of Node's `path` module on the host: `\` on Windows,
      `/` elsewhere. */
  function PathSeparator(osPlat: string): char {
    if osPlat == "win32" then '\\' else '/'
  }

  /** `path.join(dir, name)` for a single-segment `name`: the directory,
      then one separator unless the directory is empty or already ends
      with one, then the name. */
  function JoinPath(dir: string, name: string, sep: char): (r: string)
    ensures dir <= r && EndsWith(r, name)
    ensures |dir| + |name| <= |r| <= |dir| + 1 + |name|
    ensures |r| == |dir| + 1 + |name| ==> r[|dir|] == sep
    ensures dir != [] ==> |r| > |name| && r[|r| - |name| - 1] == sep
  {
    if dir == [] then name
    else if dir[|dir| - 1] == sep then dir + name
    else dir + [sep] + name
  }

  /** What the installer makes of a collaborator's answer to a call: the
      value it goes on with, or the error that ends the installation. A
      lookup that finds no release ends it with the not-found error. */
  function Answer(env: Collaborators, c: Call): Result<string> {
    match c
    case LookupRelease(version) =>
      (match env.getRelease(version)
       case Err(e) => Err(e)
       case Ok(None) => Err(NotFoundMessage(version))
       case Ok(Some(release)) => Ok(release.tagName))
    case Download(url) => env.downloadTool(url)
    case Extract(kind, archive) =>
      if kind == Zip then env.extractZip(archive) else env.extractTar(archive)
    case CacheDir(dir, tool, version) => env.cacheDir(dir, tool, version)
  }

  /** The position each kind of call takes in a complete installation. */
  function Stage(c: Call): nat {
    match c
    case LookupRelease(_) => 0
    case Download(_) => 1
    case Extract(_, _) => 2
    case CacheDir(_, _, _) => 3
  }

  /** One installation of `version` on a host reporting `osPlat` and
      `osArch`: the value returned or the error thrown, and the calls made,
      in order. */
  function Install(env: Collaborators, version: string, osPlat: string, osArch: string): Run {
    match env.getRelease(version)
    case Err(e) => Run(Err(e), [LookupRelease(version)])
    case Ok(None) => Run(Err(NotFoundMessage(version)), [LookupRelease(version)])
    case Ok(Some(release)) =>
      var url := DownloadUrl(release.tagName, GetFilename(osPlat, osArch));
      match env.downloadTool(url)
      case Err(e) => Run(Err(e), [LookupRelease(version), Download(url)])
      case Ok(downloadPath) =>
        var kind := if osPlat == "win32" then Zip else TarGz;
        var extracted := if osPlat == "win32" then env.extractZip(downloadPath) else env.extractTar(downloadPath);
        match extracted
        case Err(e) => Run(Err(e), [LookupRelease(version), Download(url), Extract(kind, downloadPath)])
        case Ok(extPath) =>
          var cacheVersion := NormalizeTag(release.tagName);
          var calls := [LookupRelease(version), Download(url), Extract(kind, downloadPath), CacheDir(extPath, ToolName, cacheVersion)];
          match env.cacheDir(extPath, ToolName, cacheVersion)
          case Err(e) => Run(Err(e), calls)
          case Ok(cachePath) => Run(Ok(JoinPath(cachePath, ExeName(osPlat), PathSeparator(osPlat))), calls)
  }

  /** The calls always go lookup, download, extract, cache, each at most
      once, starting with the lookup of the requested version. */
  lemma CallOrder(env: Collaborators, version: string, osPlat: string, osArch: string)
    ensures var run := Install(env, version, osPlat, osArch);
      && 1 <= |run.calls| <= 4
      && run.calls[0] == LookupRelease(version)
      && forall i :: 0 <= i < |run.calls| ==> Stage(run.calls[i]) == i
  {
  }

  /** The first failing call ends the installation: every call before the
      last one succeeded, the installation fails exactly when the last call
      failed, it then throws that call's error, and it succeeds only after
      all four calls. */
  lemma StopsAtFirstFailure(env: Collaborators, version: string, osPlat: string, osArch: string)
    ensures var run := Install(env, version, osPlat, osArch);
      && run.calls != []
      && (forall i :: 0 <= i < |run.calls| - 1 ==> Answer(env, run.calls[i]).Ok?)
      && (run.outcome.Err? <==> Answer(env, run.calls[|run.calls| - 1]).Err?)
      && (run.outcome.Err? ==> run.outcome == Answer(env, run.calls[|run.calls| - 1]))
      && (run.outcome.Ok? ==> |run.calls| == 4)
  {
    match env.getRelease(version)
    case Err(_) =>
    case Ok(None) =>
    case Ok(Some(release)) =>
      var url := DownloadUrl(release.tagName, GetFilename(osPlat, osArch));
      assert Answer(env, LookupRelease(version)).Ok?;
      match env.downloadTool(url)
      case Err(_) =>
      case Ok(downloadPath) =>
        var kind := if osPlat == "win32" then Zip else TarGz;
        match Answer(env, Extract(kind, downloadPath))
        case Err(_) =>
        case Ok(extPath) =>
          var cacheVersion := NormalizeTag(release.tagName);
          assert Install(env, version, osPlat, osArch).calls ==
            [LookupRelease(version), Download(url), Extract(kind, downloadPath), CacheDir(extPath, ToolName, cacheVersion)];
  }

  /** A version with no release fails at once with an error naming the
      version, and nothing is downloaded, extracted or cached. */
  lemma NotFoundFailsFast(env: Collaborators, version: string, osPlat: string, osArch: string)
    requires env.getRelease(version) == Ok(None)
    ensures var run := Install(env, version, osPlat, osArch);
      && run.calls == [LookupRelease(version)]
      && run.outcome.Err?
      && Contains(run.outcome.message, version)
  {
    NotFoundNamesVersion(version);
  }

  /** The download is of the host's asset under the release's own tag (not
      the requested version): the URL is the release base, the tag, and the
      asset name as its last segment. */
  lemma DownloadsResolvedTag(env: Collaborators, version: string, osPlat: string, osArch: string)
    ensures var run := Install(env, version, osPlat, osArch);
      |run.calls| >= 2 ==>
        && env.getRelease(version).Ok? && env.getRelease(version).value.Some?
        && var tag := env.getRelease(version).value.value.tagName;
           var url := run.calls[1].url;
           && url[..|DownloadBase|] == DownloadBase
           && url[|DownloadBase|..|DownloadBase| + |tag|] == tag
           && |url| == |DownloadBase| + |tag| + 1 + |GetFilename(osPlat, osArch)|
           && AfterLast(url, '/') == GetFilename(osPlat, osArch)
  {
    var run := Install(env, version, osPlat, osArch);
    if |run.calls| >= 2 {
      var tag := env.getRelease(version).value.value.tagName;
      var filename := GetFilename(osPlat, osArch);
      assert run.calls[1] == Download(DownloadUrl(tag, filename));
      FilenameHasNoSlash(osPlat, osArch);
      DownloadUrlParts(tag, filename);
    }
  }

  /** The requested version matters only to the lookup: two versions that
      resolve to the same release lead to the same later calls and the
      same result (so "latest" and the tag it resolves to install alike). */
  lemma VersionOnlyReachesLookup(env: Collaborators, version1: string, version2: string, osPlat: string, osArch: string)
    requires env.getRelease(version1) == env.getRelease(version2)
    requires env.getRelease(version1).Ok? && env.getRelease(version1).value.Some?
    ensures Install(env, version1, osPlat, osArch).outcome == Install(env, version2, osPlat, osArch).outcome
    ensures Install(env, version1, osPlat, osArch).calls[1..] == Install(env, version2, osPlat, osArch).calls[1..]
  {
  }

  /** The archive is extracted with the extractor its asset name announces:
      the downloaded file goes to `extractZip` exactly on `win32`, where
      the asset is a zip, and to `extractTar` elsewhere, where it is a
      gzipped tar. */
  lemma ExtractorMatchesAsset(env: Collaborators, version: string, osPlat: string, osArch: string)
    ensures var run := Install(env, version, osPlat, osArch);
      |run.calls| >= 3 ==>
        && run.calls[2].archive == Answer(env, run.calls[1]).value
        && (run.calls[2].kind == Zip <==> osPlat == "win32")
        && ArchiveKindOf(AfterLast(run.calls[1].url, '/')) == Some(run.calls[2].kind)
  {
    var run := Install(env, version, osPlat, osArch);
    if |run.calls| >= 3 {
      var tag := env.getRelease(version).value.value.tagName;
      var filename := GetFilename(osPlat, osArch);
      var url := DownloadUrl(tag, filename);
      assert run.calls[1] == Download(url);
      var kind := if osPlat == "win32" then Zip else TarGz;
      assert run.calls[2] == Extract(kind, env.downloadTool(url).value);
      FilenameHasNoSlash(osPlat, osArch);
      DownloadUrlParts(tag, filename);
      AssetArchiveKind(osPlat, osArch);
    }
  }

  /** The extracted directory is cached under the tool name
      `goreleaser-action` and the release tag less one leading `v`. */
  lemma CachesUnderNormalizedTag(env: Collaborators, version: string, osPlat: string, osArch: string)
    ensures var run := Install(env, version, osPlat, osArch);
      |run.calls| == 4 ==>
        && env.getRelease(version).Ok? && env.getRelease(version).value.Some?
        && var tag := env.getRelease(version).value.value.tagName;
           && run.calls[3].sourceDir == Answer(env, run.calls[2]).value
           && run.calls[3].tool == ToolName
           && tag == (if HasVPrefix(tag) then "v" else "") + run.calls[3].cacheVersion
  {
  }

  /** A successful installation returns the cached directory joined with
      the executable's name by the host's separator, and that name ends in
      `.exe` exactly on `win32`. */
  lemma ReturnsExeInCache(env: Collaborators, version: string, osPlat: string, osArch: string)
    ensures var run := Install(env, version, osPlat, osArch);
      run.outcome.Ok? ==>
        && |run.calls| == 4
        && var cachePath := Answer(env, run.calls[3]).value;
           && run.outcome.value == JoinPath(cachePath, ExeName(osPlat), PathSeparator(osPlat))
           && cachePath <= run.outcome.value
           && EndsWith(run.outcome.value, ExeName(osPlat))
           && (EndsWith(run.outcome.value, ".exe") <==> osPlat == "win32")
  {
    var run := Install(env, version, osPlat, osArch);
    if run.outcome.Ok? {
      var tag := env.getRelease(version).value.value.tagName;
      var downloadPath := env.downloadTool(DownloadUrl(tag, GetFilename(osPlat, osArch))).value;
      var extPath := (if osPlat == "win32" then env.extractZip(downloadPath) else env.extractTar(downloadPath)).value;
      var cachePath := env.cacheDir(extPath, ToolName, NormalizeTag(tag)).value;
      assert run.calls[3] == CacheDir(extPath, ToolName, NormalizeTag(tag));
      assert Answer(env, run.calls[3]).value == cachePath;
      var exePath := JoinPath(cachePath, ExeName(osPlat), PathSeparator(osPlat));
      assert run.outcome.value == exePath;
      ExeNameSuffix(osPlat);
      EndsWithOfSuffix(exePath, ExeName(osPlat), ".exe");
    }
  }

  /** With the same collaborator answers, hosts that agree on whether the
      platform is `win32`, whether it is `darwin` and whether the
      architecture is `x64` make the same calls and get the same result. */
  lemma HostClassDecides(env: Collaborators, version: string, plat1: string, arch1: string, plat2: string, arch2: string)
    requires (plat1 == "win32" <==> plat2 == "win32") && (plat1 == "darwin" <==> plat2 == "darwin")
    requires (arch1 == "x64" <==> arch2 == "x64")
    ensures Install(env, version, plat1, arch1) == Install(env, version, plat2, arch2)
  {
    FilenameDistinguishes(plat1, arch1, plat2, arch2);
  }

  /** Collaborators that all succeed: every lookup finds a release tagged
      `tag`, and the cache stores everything at `cachePath`. */
  function SucceedingCollaborators(tag: string, cachePath: string): Collaborators {
    Collaborators(
      version => Ok(Some(Release(tag))),
      url => Ok("download"),
      archive => Ok("extracted"),
      archive => Ok("extracted"),
      (dir, tool, version) => Ok(cachePath))
  }

  /** A Windows host whose collaborators all succeed: the zip extractor is
      used, the cache key drops the `v`, and the result is the cached
      directory and `goreleaser.exe` joined by a backslash. */
  lemma WindowsInstallExample()
    ensures var run := Install(SucceedingCollaborators("v1.2.3", "C:\\cache"), "latest", "win32", "x64");
      && run.outcome == Ok("C:\\cache\\goreleaser.exe")
      && run.calls[2] == Extract(Zip, "download")
      && run.calls[3] == CacheDir("extracted", "goreleaser-action", "1.2.3")
  {
    var env := SucceedingCollaborators("v1.2.3", "C:\\cache");
    assert env.getRelease("latest") == Ok(Some(Release("v1.2.3")));
    var url := DownloadUrl("v1.2.3", GetFilename("win32", "x64"));
    assert env.downloadTool(url) == Ok("download");
    assert env.extractZip("download") == Ok("extracted");
    assert NormalizeTag("v1.2.3") == "1.2.3";
    assert env.cacheDir("extracted", ToolName, "1.2.3") == Ok("C:\\cache");
    assert JoinPath("C:\\cache", "goreleaser.exe", '\\') == "C:\\cache\\goreleaser.exe";
  }

  /** The same on a Linux host: the tar extractor, and a forward slash
      before `goreleaser`. */
  lemma LinuxInstallExample()
    ensures var run := Install(SucceedingCollaborators("v1.2.3", "/cache"), "v1.2.3", "linux", "x64");
      && run.outcome == Ok("/cache/goreleaser")
      && run.calls[2] == Extract(TarGz, "download")
      && run.calls[3] == CacheDir("extracted", "goreleaser-action", "1.2.3")
  {
    var env := SucceedingCollaborators("v1.2.3", "/cache");
    assert env.getRelease("v1.2.3") == Ok(Some(Release("v1.2.3")));
    var url := DownloadUrl("v1.2.3", GetFilename("linux", "x64"));
    assert env.downloadTool(url) == Ok("download");
    assert env.extractTar("download") == Ok("extracted");
    assert NormalizeTag("v1.2.3") == "1.2.3";
    assert env.cacheDir("extracted", ToolName, "1.2.3") == Ok("/cache");
    assert JoinPath("/cache", "goreleaser", '/') == "/cache/goreleaser";
  }

  /** The collaborators with a trace of the calls made to them. */
  class Host {
    const env: Collaborators
    ghost var calls: seq<Call>

    constructor (env: Collaborators)
      ensures this.env == env && calls == []
    {
      this.env := env;
      calls := [];
    }

    method GetRelease(version: string) returns (r: Result<Option<Release>>)
      modifies this
      ensures r == env.getRelease(version)
      ensures calls == old(calls) + [LookupRelease(version)]
    {
      r := env.getRelease(version);
      calls := calls + [LookupRelease(version)];
    }

    method DownloadTool(url: string) returns (r: Result<string>)
      modifies this
      ensures r == env.downloadTool(url)
      ensures calls == old(calls) + [Download(url)]
    {
      r := env.downloadTool(url);
      calls := calls + [Download(url)];
    }

    method ExtractZip(archive: string) returns (r: Result<string>)
      modifies this
      ensures r == env.extractZip(archive)
      ensures calls == old(calls) + [Extract(Zip, archive)]
    {
      r := env.extractZip(archive);
      calls := calls + [Extract(Zip, archive)];
    }

    method ExtractTar(archive: string) returns (r: Result<string>)
      modifies this
      ensures r == env.extractTar(archive)
      ensures calls == old(calls) + [Extract(TarGz, archive)]
    {
      r := env.extractTar(archive);
      calls := calls + [Extract(TarGz, archive)];
    }

    method CacheDir(sourceDir: string, tool: string, version: string) returns (r: Result<string>)
      modifies this
      ensures r == env.cacheDir(sourceDir, tool, version)
      ensures calls == old(calls) + [Call.CacheDir(sourceDir, tool, version)]
    {
      r := env.cacheDir(sourceDir, tool, version);
      calls := calls + [Call.CacheDir(sourceDir, tool, version)];
    }
  }

  /** `getGoReleaser(version)` on a host reporting `osPlat` and `osArch`:
      returns the executable's path or the error thrown, and appends to the
      host's trace exactly the calls `Install` describes. */
  method GetGoReleaser(host: Host, version: string, osPlat: string, osArch: string) returns (r: Result<string>)
    modifies host
    ensures r == Install(host.env, version, osPlat, osArch).outcome
    ensures host.calls == old(host.calls) + Install(host.env, version, osPlat, osArch).calls
    ensures r.Ok? ==> EndsWith(r.value, ExeName(osPlat)) && (EndsWith(r.value, ".exe") <==> osPlat == "win32")
  {
    ghost var before := host.calls;
    var found :- host.GetRelease(version);
    if found.None? {
      return Err(NotFoundMessage(version));
    }
    var release := found.value;
    var filename := GetFilename(osPlat, osArch);
    var downloadUrl := DownloadUrl(release.tagName, filename);
    var downloadPath :- host.DownloadTool(downloadUrl);
    assert host.calls == before + [LookupRelease(version), Download(downloadUrl)];
    var extracted: Result<string>;
    if osPlat == "win32" {
      extracted := host.ExtractZip(downloadPath);
    } else {
      extracted := host.ExtractTar(downloadPath);
    }
    ghost var kind := if osPlat == "win32" then Zip else TarGz;
    assert host.calls == before + [LookupRelease(version), Download(downloadUrl), Extract(kind, downloadPath)];
    var extPath :- extracted;
    var cachePath :- host.CacheDir(extPath, ToolName, NormalizeTag(release.tagName));
    assert host.calls == before + [LookupRelease(version), Download(downloadUrl), Extract(kind, downloadPath),
                                   CacheDir(extPath, ToolName, NormalizeTag(release.tagName))];
    var exePath := JoinPath(cachePath, ExeName(osPlat), PathSeparator(osPlat));
    ExeNameSuffix(osPlat);
    EndsWithOfSuffix(exePath, ExeName(osPlat), ".exe");
    r := Ok(exePath);
  }
}
