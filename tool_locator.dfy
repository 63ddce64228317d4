/**
 * Locating the rcodesign executable for the running platform (getRcodesign in src/main.js).
 * The platform and architecture names are those reported by Node's `os.platform()` and
 * `os.arch()`; they are parameters here. Downloading and extracting the release archive are
 * left to the caller: `destDir` stands for the directory the archive was extracted into.
 */
module ToolLocator {
  import opened Results

  /** The two extraction strategies of the tool cache. */
  datatype Archive = Tar | Zip

  /** What getRcodesign computes: the download URL, the archive-internal directory,
      the extraction strategy it picks and the executable path it returns. */
  datatype Tool = Tool(url: string, directory: string, archive: Archive, exe: string)

  /** The release-host prefix; `%2F` is part of the literal, the version is not encoded. */
  const ReleasePrefix := "https://github.com/indygreg/apple-platform-rs/releases/download/apple-codesign%2F"

  predicate EndsWith(s: string, suffix: string) {
    |suffix| <= |s| && s[|s| - |suffix|..] == suffix
  }

  /** The (platform, architecture) pairs for which a release archive exists. */
  predicate Supported(platform: string, arch: string) {
    platform == "darwin"
    || (platform == "linux" && (arch == "aarch64" || arch == "x64"))
    || (platform == "win32" && arch == "x64")
  }

  /** The supported targets as an explicit table: the suffix shared by the URL and the
      archive-internal directory, and the archive format; any other pair is an error
      whose message names the offending operating system or architecture. */
  function Target(platform: string, arch: string): Result<(string, Archive)> {
    if platform == "darwin" then Ok(("macos-universal", Tar))
    else if platform == "linux" then
      if arch == "aarch64" then Ok(("aarch64-unknown-linux-musl", Tar))
      else if arch == "x64" then Ok(("x86_64-unknown-linux-musl", Tar))
      else Err("unsupported Linux architecture: " + arch)
    else if platform == "win32" then
      if arch == "x64" then Ok(("x86_64-pc-windows-msvc", Zip))
      else Err("unsupported Windows architecture: " + arch)
    else Err("unsupported operating system: " + platform)
  }

  function Extension(archive: Archive): string {
    match archive
    case Tar => ".tar.gz"
    case Zip => ".zip"
  }

  /** Reference definition of getRcodesign: the URL and directory are built from the version
      and the target's suffix, and the executable sits in that directory under destDir. */
  function Locate(version: string, platform: string, arch: string, destDir: string): Result<Tool> {
    match Target(platform, arch)
    case Err(m) => Err(m)
    case Ok((suffix, archive)) =>
      var directory := "apple-codesign-" + version + "-" + suffix;
      Ok(Tool(ReleasePrefix + version + "/apple-codesign-" + version + "-" + suffix + Extension(archive),
              directory, archive, destDir + "/" + directory + "/rcodesign"))
  }

  /** A JavaScript value as far as the strict comparison at the end of getRcodesign needs:
      that code compares the function `os.platform` itself, not its result, with a string. */
  datatype JsValue = JsString(s: string) | JsFunction(name: string)

  predicate StrictEquals(a: JsValue, b: JsValue) {
    a == b
  }

  /** The extension of a URL decides the extraction strategy exactly as the archive format does. */
  lemma ExtensionDecidesArchive(base: string, archive: Archive)
    ensures EndsWith(base + Extension(archive), ".tar.gz") <==> archive == Tar
  {
    var url := base + Extension(archive);
    match archive
    case Tar =>
      assert url[|url| - 7..] == ".tar.gz";
    case Zip =>
      assert url[|url| - 1] == 'p';
      if |url| >= 7 {
        assert url[|url| - 7..][6] == url[|url| - 1];
      }
  }

  /** Each literal appended to the URL is the target's suffix followed by its extension. */
  lemma UrlLiterals()
    ensures "macos-universal.tar.gz" == "macos-universal" + Extension(Tar)
    ensures "aarch64-unknown-linux-musl.tar.gz" == "aarch64-unknown-linux-musl" + Extension(Tar)
    ensures "x86_64-unknown-linux-musl.tar.gz" == "x86_64-unknown-linux-musl" + Extension(Tar)
    ensures "x86_64-pc-windows-msvc.zip" == "x86_64-pc-windows-msvc" + Extension(Zip)
  {
  }

  /** getRcodesign, with the nested switch of the source building `url` and `directory`
      step by step; the download itself is not modelled. */
  method GetRcodesign(version: string, platform: string, arch: string, destDir: string)
    returns (r: Result<Tool>)
    ensures r == Locate(version, platform, arch, destDir)
  {
    var url := ReleasePrefix;
    url := url + version + "/apple-codesign-" + version + "-";
    var directory := "apple-codesign-" + version + "-";
    ghost var stem := url;
    ghost var suffix, kind;
    UrlLiterals();

    if platform == "darwin" {
      suffix, kind := "macos-universal", Tar;
      url := url + "macos-universal.tar.gz";
      directory := directory + "macos-universal";
    } else if platform == "linux" {
      if arch == "aarch64" {
        suffix, kind := "aarch64-unknown-linux-musl", Tar;
        url := url + "aarch64-unknown-linux-musl.tar.gz";
        directory := directory + "aarch64-unknown-linux-musl";
      } else if arch == "x64" {
        suffix, kind := "x86_64-unknown-linux-musl", Tar;
        url := url + "x86_64-unknown-linux-musl.tar.gz";
        directory := directory + "x86_64-unknown-linux-musl";
      } else {
        return Err("unsupported Linux architecture: " + arch);
      }
    } else if platform == "win32" {
      if arch == "x64" {
        suffix, kind := "x86_64-pc-windows-msvc", Zip;
        url := url + "x86_64-pc-windows-msvc.zip";
        directory := directory + "x86_64-pc-windows-msvc";
      } else {
        return Err("unsupported Windows architecture: " + arch);
      }
    } else {
      return Err("unsupported operating system: " + platform);
    }

    assert Target(platform, arch) == Ok((suffix, kind));
    assert url == stem + (suffix + Extension(kind));
    assert url == (stem + suffix) + Extension(kind);
    ExtensionDecidesArchive(stem + suffix, kind);
    var archive := if EndsWith(url, ".tar.gz") then Tar else Zip;

    var exe := destDir + "/" + directory + "/rcodesign";
    if StrictEquals(JsFunction("platform"), JsString("win32")) {
      exe := exe + ".exe";
    }
    return Ok(Tool(url, directory, archive, exe));
  }

  /** Exactly the four supported pairs resolve; every other pair is an error naming the
      unsupported architecture (Linux, Windows) or operating system. */
  lemma LocateSucceedsIff(version: string, platform: string, arch: string, destDir: string)
    ensures Locate(version, platform, arch, destDir).Ok? <==> Supported(platform, arch)
    ensures platform == "linux" && !Supported(platform, arch) ==>
      Locate(version, platform, arch, destDir) == Err("unsupported Linux architecture: " + arch)
    ensures platform == "win32" && !Supported(platform, arch) ==>
      Locate(version, platform, arch, destDir) == Err("unsupported Windows architecture: " + arch)
    ensures platform != "darwin" && platform != "linux" && platform != "win32" ==>
      Locate(version, platform, arch, destDir) == Err("unsupported operating system: " + platform)
  {
  }

  /** The comparison at the Linux branch is with the literal `aarch64`; `arm64`, the name
      Node gives 64-bit ARM, is rejected. */
  lemma LinuxArm64Rejected(version: string, destDir: string)
    ensures Locate(version, "linux", "arm64", destDir) == Err("unsupported Linux architecture: arm64")
    ensures Locate(version, "linux", "aarch64", destDir).Ok?
  {
    LocateSucceedsIff(version, "linux", "arm64", destDir);
  }

  /** On success the URL is the prefix, the version, and the archive-internal directory
      followed by the archive's extension; the directory is `apple-codesign-<version>-<suffix>`
      for the one suffix of the target, and the architecture does not matter on macOS. */
  lemma UrlAndDirectoryShareSuffix(version: string, platform: string, arch: string, destDir: string)
    requires Supported(platform, arch)
    ensures var t := Locate(version, platform, arch, destDir).value;
      var suffix := if platform == "darwin" then "macos-universal"
                    else if platform == "win32" then "x86_64-pc-windows-msvc"
                    else if arch == "aarch64" then "aarch64-unknown-linux-musl"
                    else "x86_64-unknown-linux-musl";
      && t.directory == "apple-codesign-" + version + "-" + suffix
      && t.url == ReleasePrefix + version + "/apple-codesign-" + version + "-" + suffix
                  + (if platform == "win32" then ".zip" else ".tar.gz")
  {
  }

  /** The archive is extracted with tar exactly when the URL ends in `.tar.gz`, which happens
      on macOS and Linux; Windows gets zip. */
  lemma ArchiveKind(version: string, platform: string, arch: string, destDir: string)
    requires Locate(version, platform, arch, destDir).Ok?
    ensures var t := Locate(version, platform, arch, destDir).value;
      && (t.archive == Tar <==> EndsWith(t.url, ".tar.gz"))
      && (t.archive == Zip <==> platform == "win32")
  {
    var (suffix, archive) := Target(platform, arch).value;
    ExtensionDecidesArchive(ReleasePrefix + version + "/apple-codesign-" + version + "-" + suffix, archive);
  }

  /** The executable is `<destDir>/<directory>/rcodesign` on every platform, Windows included:
      the `.exe` suffix is never appended. */
  lemma ExecutablePath(version: string, platform: string, arch: string, destDir: string)
    requires Locate(version, platform, arch, destDir).Ok?
    ensures var t := Locate(version, platform, arch, destDir).value;
      && t.exe == destDir + "/" + t.directory + "/rcodesign"
      && EndsWith(t.exe, "/rcodesign")
      && !EndsWith(t.exe, ".exe")
  {
    var t := Locate(version, platform, arch, destDir).value;
    assert t.exe[|t.exe| - 10..] == "/rcodesign";
    assert t.exe[|t.exe| - 1] == 'n';
    if |t.exe| >= 4 {
      assert t.exe[|t.exe| - 4..][3] == t.exe[|t.exe| - 1];
    }
  }
}
