/** The asset file name the installer downloads for a host platform and
    architecture (`getFilename` in src/installer.ts), and a reader that
    takes such a name apart again. */
module AssetName {
  import opened Wrappers
  import opened Text

  /** The two archive formats the release publishes. */
  datatype ArchiveKind = Zip | TarGz

  /** The three fields of a name `goreleaser_<platform>_<arch>.<ext>`. */
  datatype Fields = Fields(platform: string, arch: string, ext: string)

  const Prefix := "goreleaser_"

  /** The name template `goreleaser_%s_%s.%s` filled with the fields. */
  function Format(f: Fields): string {
    Prefix + (f.platform + ("_" + (f.arch + ("." + f.ext))))
  }

  /** The release asset for the host: `osPlat` as reported by Node's
      `os.platform()`, `osArch` as reported by `os.arch()`. */
  function GetFilename(osPlat: string, osArch: string): string
  {
    var platform := if osPlat == "win32" then "Windows" else if osPlat == "darwin" then "Darwin" else "Linux";
    var arch := if osArch == "x64" then "x86_64" else "i386";
    var ext := if osPlat == "win32" then "zip" else "tar.gz";
    Format(Fields(platform, arch, ext))
  }

  /** No asset name contains `/`. */
  lemma FilenameHasNoSlash(osPlat: string, osArch: string)
    ensures '/' !in GetFilename(osPlat, osArch)
  {
    var platform := if osPlat == "win32" then "Windows" else if osPlat == "darwin" then "Darwin" else "Linux";
    var arch := if osArch == "x64" then "x86_64" else "i386";
    var ext := if osPlat == "win32" then "zip" else "tar.gz";
    FormatWithoutSlash(Fields(platform, arch, ext));
  }

  /** A template filled with fields free of `/` is free of `/`. */
  lemma FormatWithoutSlash(f: Fields)
    requires '/' !in f.platform && '/' !in f.arch && '/' !in f.ext
    ensures '/' !in Format(f)
  {
  }

  /** Reads a name of the form `goreleaser_<platform>_<arch>.<ext>` back
      into its fields: the platform ends at the first `_` after the prefix
      and the architecture at the first `.` after that (so an architecture
      may contain `_`, as `x86_64` does, and an extension may contain `.`,
      as `tar.gz` does). */
  function ParseAssetName(name: string): (r: Option<Fields>)
    ensures r.Some? ==> '_' !in r.value.platform && '.' !in r.value.arch
  {
    if !(Prefix <= name) then None
    else
      match SplitFirst(name[|Prefix|..], '_')
      case None => None
      case Some((platform, rest)) =>
        match SplitFirst(rest, '.')
        case None => None
        case Some((arch, ext)) => Some(Fields(platform, arch, ext))
  }

  /** Whatever the reader accepts is exactly the name rebuilt from the
      fields it returns. */
  lemma ParseSound(name: string)
    requires ParseAssetName(name).Some?
    ensures Format(ParseAssetName(name).value) == name
  {
    var tail := name[|Prefix|..];
    assert name == Prefix + tail;
  }

  /** Reading a well-formed name gives back the fields it was built from. */
  lemma ParseFormat(f: Fields)
    requires '_' !in f.platform && '.' !in f.arch
    ensures ParseAssetName(Format(f)) == Some(f)
  {
    var rest := f.arch + ("." + f.ext);
    assert Format(f)[|Prefix|..] == f.platform + ("_" + rest);
    SplitFirstOfJoin(f.platform, '_', rest);
    SplitFirstOfJoin(f.arch, '.', f.ext);
  }

  /** What each field of the host's asset name is, for every platform and
      architecture string: `win32` alone gives Windows and a zip, `darwin`
      alone gives Darwin, everything else Linux and a gzipped tar; `x64`
      alone gives x86_64 and everything else i386. */
  lemma FilenameFields(osPlat: string, osArch: string)
    ensures ParseAssetName(GetFilename(osPlat, osArch)).Some?
    ensures var f := ParseAssetName(GetFilename(osPlat, osArch)).value;
      && (f.platform == "Windows" <==> osPlat == "win32")
      && (f.platform == "Darwin" <==> osPlat == "darwin")
      && (f.platform == "Linux" <==> osPlat != "win32" && osPlat != "darwin")
      && (f.arch == "x86_64" <==> osArch == "x64")
      && (f.arch == "i386" <==> osArch != "x64")
      && (f.ext == "zip" <==> osPlat == "win32")
      && (f.ext == "tar.gz" <==> osPlat != "win32")
  {
    var platform := if osPlat == "win32" then "Windows" else if osPlat == "darwin" then "Darwin" else "Linux";
    var arch := if osArch == "x64" then "x86_64" else "i386";
    var ext := if osPlat == "win32" then "zip" else "tar.gz";
    ParseFormat(Fields(platform, arch, ext));
  }

  /** The name is decided by exactly three things: whether the platform is
      `win32`, whether it is `darwin`, and whether the architecture is
      `x64`. Hosts that agree on these get the same asset; hosts that do
      not get different assets. */
  lemma FilenameDistinguishes(plat1: string, arch1: string, plat2: string, arch2: string)
    ensures GetFilename(plat1, arch1) == GetFilename(plat2, arch2) <==>
      && (plat1 == "win32" <==> plat2 == "win32")
      && (plat1 == "darwin" <==> plat2 == "darwin")
      && (arch1 == "x64" <==> arch2 == "x64")
  {
    FilenameFields(plat1, arch1);
    FilenameFields(plat2, arch2);
  }

  /** A filled-in template ends with a dot and the extension. */
  lemma FormatEndsWithExt(f: Fields)
    ensures EndsWith(Format(f), "." + f.ext)
  {
    var dotExt := "." + f.ext;
    assert EndsWith(dotExt, dotExt);
    EndsWithPrepend(f.arch, dotExt, dotExt);
    EndsWithPrepend("_", f.arch + dotExt, dotExt);
    EndsWithPrepend(f.platform, "_" + (f.arch + dotExt), dotExt);
    EndsWithPrepend(Prefix, f.platform + ("_" + (f.arch + dotExt)), dotExt);
  }

  /** The archive format a release asset name announces by its extension. */
  function ArchiveKindOf(name: string): Option<ArchiveKind>
  {
    if EndsWith(name, ".zip") then Some(Zip)
    else if EndsWith(name, ".tar.gz") then Some(TarGz)
    else None
  }

  /** A filled-in template announces a zip for the extension `zip` and a
      gzipped tar for `tar.gz`. */
  lemma FormatArchiveKind(f: Fields)
    ensures f.ext == "zip" ==> ArchiveKindOf(Format(f)) == Some(Zip)
    ensures f.ext == "tar.gz" ==> ArchiveKindOf(Format(f)) == Some(TarGz)
  {
    var name := Format(f);
    FormatEndsWithExt(f);
    if f.ext == "tar.gz" {
      assert name[|name| - 7..] == ".tar.gz";
      assert name[|name| - 4..] == name[|name| - 7..][3..] == "r.gz";
    }
  }

  /** The asset for `win32` is a zip archive and every other platform's a
      gzipped tar. */
  lemma AssetArchiveKind(osPlat: string, osArch: string)
    ensures ArchiveKindOf(GetFilename(osPlat, osArch)) == if osPlat == "win32" then Some(Zip) else Some(TarGz)
  {
    var platform := if osPlat == "win32" then "Windows" else if osPlat == "darwin" then "Darwin" else "Linux";
    var arch := if osArch == "x64" then "x86_64" else "i386";
    var ext := if osPlat == "win32" then "zip" else "tar.gz";
    FormatArchiveKind(Fields(platform, arch, ext));
  }

  /** Worked cases: a 64-bit Windows host and a 64-bit macOS host. */
  lemma FilenameExamples()
    ensures GetFilename("win32", "x64") == "goreleaser_Windows_x86_64.zip"
    ensures GetFilename("darwin", "x64") == "goreleaser_Darwin_x86_64.tar.gz"
  {
  }

  /** Worked cases: an `arm64` and an `amd64` Linux host both fall to the
      i386 asset, since only `x64` names the 64-bit one. */
  lemma FilenameFallbackExamples()
    ensures GetFilename("linux", "arm64") == "goreleaser_Linux_i386.tar.gz"
    ensures GetFilename("linux", "amd64") == "goreleaser_Linux_i386.tar.gz"
  {
  }
}
