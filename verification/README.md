# goreleaser-action installer, modelled in Dafny

This project models the installer of the `goreleaser-action` GitHub Action
(`src/installer.ts`): given a requested GoReleaser version, it looks up the
release, picks the release asset for the host platform and architecture,
downloads it from
`https://github.com/iann0036/goreleaser/releases/download/<tag>/<asset>`,
extracts it (zip on Windows, gzipped tar elsewhere), stores the extracted
directory in the tool cache under `goreleaser-action` and the tag less one
leading `v`, and returns the path of the `goreleaser` (or `goreleaser.exe`)
executable inside the cached directory.

Modules:

- `Wrappers` (`wrappers.dfy`): `Option`, and `Result` whose `Err` carries
  the message of a thrown error; `Result` is failure-compatible, so `:-`
  stands for an `await` that may throw.
- `Text` (`text.dfy`): suffixes, substring occurrence, splitting at the first
  occurrence of a character, the text after the last occurrence.
- `AssetName` (`asset_name.dfy`): `GetFilename`, the asset name for an
  `os.platform()` / `os.arch()` pair, built with the template
  `goreleaser_%s_%s.%s` (`Format`); `ParseAssetName`, an independent reader
  of such names, against which the platform, architecture and extension
  mappings are proved; `ArchiveKindOf`, the archive format a name announces.
- `ReleaseTag` (`release_tag.dfy`): `NormalizeTag`, the `replace(/^v/, '')`
  that makes the cache version, and when two tags share a cache key.
- `Installer` (`installer.dfy`): the collaborators as a value
  (`Collaborators`: `github.getRelease`, `tc.downloadTool`, `tc.extractZip`,
  `tc.extractTar`, `tc.cacheDir`), the download URL, `path.join`, the
  specification `Install` of one installation (result and the calls made),
  lemmas about it, a `Host` class that holds the collaborators and a ghost
  trace of the calls, and the method `GetGoReleaser`, proved to return what
  `Install` returns and to append exactly `Install`'s calls to the trace.

The code has no cache-hit check before downloading: every installation
looks up the release and downloads it. Only the architecture string `x64`
selects `x86_64`; `amd64` gets `i386`.

## Model

| member | source | states |
|---|---|---|
| `AssetName.FilenameFields` | src/installer.ts:47-52 | the asset name reads back as three fields: platform `Windows` exactly for `win32`, `Darwin` exactly for `darwin`, `Linux` for every other platform; arch `x86_64` exactly for `x64`, `i386` for every other arch; extension `zip` exactly for `win32`, `tar.gz` otherwise |
| `AssetName.FilenameDistinguishes` | src/installer.ts:48-51 | two hosts get the same asset name if and only if they agree on "is `win32`", "is `darwin`" and "arch is `x64`" |
| `AssetName.ParseFormat` | src/installer.ts:51 | the name template `goreleaser_%s_%s.%s` filled with a platform free of `_` and an arch free of `.` reads back as exactly those fields |
| `AssetName.ParseSound` | src/installer.ts:51 | every name the reader accepts is the template filled with the fields it returns |
| `AssetName.ParseAssetName` | src/installer.ts:51 | the platform field read from a name has no `_` and the arch field no `.` |
| `AssetName.FormatEndsWithExt` | src/installer.ts:51 | a filled-in template ends with `.` and its extension |
| `AssetName.FormatArchiveKind` | src/installer.ts:50-51 | a name with extension `zip` announces a zip archive, one with `tar.gz` a gzipped tar |
| `AssetName.AssetArchiveKind` | src/installer.ts:50 | the host's asset is a zip exactly on `win32` and a gzipped tar on every other platform |
| `AssetName.FilenameHasNoSlash` | src/installer.ts:47-52 | no asset name contains `/` |
| `AssetName.FormatWithoutSlash` | src/installer.ts:51 | the template filled with `/`-free fields is `/`-free |
| `AssetName.FilenameExamples` | src/installer.ts:47-52 | `win32`/`x64` gives `goreleaser_Windows_x86_64.zip`, `darwin`/`x64` gives `goreleaser_Darwin_x86_64.tar.gz` |
| `AssetName.FilenameFallbackExamples` | src/installer.ts:49 | `linux`/`arm64` and `linux`/`amd64` both give `goreleaser_Linux_i386.tar.gz` |
| `ReleaseTag.NormalizeTag` | src/installer.ts:38 | putting back a `v` exactly when the tag started with one rebuilds the tag from the cache version |
| `ReleaseTag.StripsOneV` | src/installer.ts:38 | `v` followed by any text normalises to that text, so only one `v` is removed |
| `ReleaseTag.NormalizeExamples` | src/installer.ts:38 | `v1.5.0` gives `1.5.0`, `2.0.0` is unchanged, `vv1` gives `v1` (and normalising again gives `1`), the empty tag is unchanged |
| `ReleaseTag.SameCacheKey` | src/installer.ts:38 | two tags share a cache version if and only if they are equal or one is `v` followed by the other, which does not start with `v` |
| `Installer.NotFoundNamesVersion` | src/installer.ts:14 | the not-found error message contains the requested version |
| `Installer.DownloadUrlParts` | src/installer.ts:19-23 | the download URL starts with the release base, continues with the tag, has exactly the length of base, tag, `/` and asset name, and its last `/`-segment is the asset name |
| `Installer.DownloadUrlInjective` | src/installer.ts:19-23 | for one asset, two tags give the same URL if and only if they are equal |
| `Installer.ExeNameSuffix` | src/installer.ts:41 | the executable name ends in `.exe` if and only if the platform is `win32` |
| `Installer.JoinPath` | src/installer.ts:41 | the joined path starts with the directory and ends with the name without the two overlapping, has at most one character between them and that character is the separator, and a separator precedes the name whenever the directory is non-empty |
| `Installer.CallOrder` | src/installer.ts:12-38 | an installation makes one to four calls, the first the lookup of the requested version, in the order lookup, download, extract, cache, each at most once |
| `Installer.StopsAtFirstFailure` | src/installer.ts:11-45 | every call but the last succeeded; the installation fails exactly when its last call failed and then throws that call's error; success needs all four calls |
| `Installer.NotFoundFailsFast` | src/installer.ts:12-15 | when no release is found the only call is the lookup and the thrown error's message contains the requested version |
| `Installer.DownloadsResolvedTag` | src/installer.ts:18-26 | the URL downloaded is exactly the release base, the resolved release's tag (not the requested version), `/` and the host's asset name: it starts with base and tag, ends with the asset name as last segment, and is exactly as long as those four parts |
| `Installer.VersionOnlyReachesLookup` | src/installer.ts:12-44 | two requested versions resolving to the same release give the same result and the same calls after the lookup |
| `Installer.ExtractorMatchesAsset` | src/installer.ts:30-35 | the downloaded file is what gets extracted, with `extractZip` exactly on `win32`, and the extractor matches the archive kind the downloaded asset's name announces |
| `Installer.CachesUnderNormalizedTag` | src/installer.ts:38 | the extracted directory is cached under tool `goreleaser-action` and a version that rebuilds the resolved tag when its removed `v` is put back |
| `Installer.ReturnsExeInCache` | src/installer.ts:41-44 | a successful result is the cached directory joined (`JoinPath`) with the executable name by the host's separator (`\` on `win32`, `/` elsewhere), and ends in `.exe` exactly on `win32` |
| `Installer.HostClassDecides` | src/installer.ts:8-52 | with the same collaborator answers, hosts that agree on "is `win32`", "is `darwin`" and "arch is `x64`" make the same calls and get the same result |
| `Installer.WindowsInstallExample` | src/installer.ts:11-45 | with succeeding collaborators on `win32`, tag `v1.2.3`: zip extraction, cache version `1.2.3`, result `C:\cache\goreleaser.exe` |
| `Installer.LinuxInstallExample` | src/installer.ts:11-45 | the same on `linux`: tar extraction, result `/cache/goreleaser` |
| `Installer.Host.GetRelease` | src/installer.ts:12 | answers the lookup and records it in the trace |
| `Installer.Host.DownloadTool` | src/installer.ts:26 | answers the download and records it |
| `Installer.Host.ExtractZip` | src/installer.ts:32 | answers the zip extraction and records it |
| `Installer.Host.ExtractTar` | src/installer.ts:34 | answers the tar extraction and records it |
| `Installer.Host.CacheDir` | src/installer.ts:38 | answers the caching and records it |
| `Installer.GetGoReleaser` | src/installer.ts:11-45 | returns exactly `Install`'s result and appends exactly `Install`'s calls to the trace; a returned path ends with the executable name, and in `.exe` exactly on `win32` |

## Left out

- Logging through `core.info` and `core.debug`: it has no effect on the result.
- Promises: each awaited call is a plain call; a rejected promise is an `Err` result.
- `os.platform()` and `os.arch()` are not read; the platform and architecture are parameters.
- The body of `github.getRelease` (`src/github.ts` is not part of this model) and the internals of `@actions/tool-cache` (HTTP, archive formats, file system): they are given as functions from their arguments to a result, so a collaborator answers the same arguments the same way; each is called at most once per installation.
- Installer.JoinPath: models `path.join` only at the boundary between the directory and the name; the normalisation of `.`, `..` and repeated separators inside the directory, and the conversion of `/` to `\` on Windows, are not modelled.
- `tc.cacheDir`'s optional fourth argument `arch`, which the call leaves out and the library fills in from `os.arch()` of the host: the model's `cacheDir` takes only the directory, tool and version, so a cache directory that differs with the host architecture is not captured (see `Installer.HostClassDecides`).
- A cache-hit check before downloading: the code has none, so the model has none.
- Concurrent installations racing on one cache slot: outside a single call's behaviour.
