/** Choosing which Bicep release binary to download (pkg/cli/bicep/tools/download_tools.go):
    the supported OS/architecture table and the OS-dependent file name. The running
    program's GOOS and GOARCH are parameters here. */
module BicepTools {
  import opened Wrappers

  /** The supported platforms, keyed by GOOS + "-" + GOARCH, with the release asset
      name for each. */
  const VALID_PLATFORMS: map<string, string> := map[
    "windows-amd64" := "bicep-win-x64",
    "windows-arm64" := "bicep-win-arm64",
    "linux-amd64" := "bicep-linux-x64",
    "linux-arm64" := "bicep-linux-arm64",
    "darwin-amd64" := "bicep-osx-x64",
    "darwin-arm64" := "bicep-osx-arm64"]

  const SUPPORTED_OSES: set<string> := {"windows", "linux", "darwin"}
  const SUPPORTED_ARCHES: set<string> := {"amd64", "arm64"}

  /** The error message both lookups produce: "unsupported platform <os>/<arch>". */
  function UnsupportedPlatform(os: string, arch: string): string {
    "unsupported platform " + os + "/" + arch
  }

  predicate NoDash(s: string) { forall i :: 0 <= i < |s| ==> s[i] != '-' }

  /** GetValidPlatform: the asset name for a supported (os, arch) pair, or an empty
      name and an error for any other pair. */
  function GetValidPlatform(os: string, arch: string): (r: (string, Option<string>))
    ensures os + "-" + arch in VALID_PLATFORMS ==> r == (VALID_PLATFORMS[os + "-" + arch], None)
    ensures os + "-" + arch !in VALID_PLATFORMS ==> r == ("", Some(UnsupportedPlatform(os, arch)))
  {
    var key := os + "-" + arch;
    if key in VALID_PLATFORMS then (VALID_PLATFORMS[key], None)
    else ("", Some(UnsupportedPlatform(os, arch)))
  }

  /** c + "-" + d with dash-free c and d has its only dash right after c. */
  lemma OnlyDash(c: string, d: string)
    requires NoDash(c) && NoDash(d)
    ensures (c + "-" + d)[|c|] == '-'
    ensures forall i :: 0 <= i < |c + "-" + d| && i != |c| ==> (c + "-" + d)[i] != '-'
  {
    var s := c + "-" + d;
    forall i | 0 <= i < |s| && i != |c|
      ensures s[i] != '-'
    {
      if i < |c| { assert s[i] == c[i]; } else { assert s[i] == d[i - |c| - 1]; }
    }
  }

  /** Splitting at the dash recovers both parts when the right-hand join has a single dash. */
  lemma DashJoinInjective(a: string, b: string, c: string, d: string)
    requires NoDash(c) && NoDash(d)
    requires a + "-" + b == c + "-" + d
    ensures a == c && b == d
  {
    var s := a + "-" + b;
    OnlyDash(c, d);
    assert s[|a|] == '-';
    assert a == s[..|a|] && c == s[..|c|];
    assert b == s[|a| + 1..] && d == s[|c| + 1..];
  }

  /** GetValidPlatform succeeds exactly for the six combinations of a supported OS and a
      supported architecture, whatever the strings otherwise contain. */
  lemma ValidPlatformIffSupported(os: string, arch: string)
    ensures GetValidPlatform(os, arch).1.None? <==> os in SUPPORTED_OSES && arch in SUPPORTED_ARCHES
  {
    var key := os + "-" + arch;
    if key in VALID_PLATFORMS {
      var o, a :| o in SUPPORTED_OSES && a in SUPPORTED_ARCHES && key == o + "-" + a by {
        if key == "windows-amd64" { assert key == "windows" + "-" + "amd64"; }
        else if key == "windows-arm64" { assert key == "windows" + "-" + "arm64"; }
        else if key == "linux-amd64" { assert key == "linux" + "-" + "amd64"; }
        else if key == "linux-arm64" { assert key == "linux" + "-" + "arm64"; }
        else if key == "darwin-amd64" { assert key == "darwin" + "-" + "amd64"; }
        else { assert key == "darwin" + "-" + "arm64"; }
      }
      assert NoDash(o) && NoDash(a);
      DashJoinInjective(os, arch, o, a);
    }
    if os in SUPPORTED_OSES && arch in SUPPORTED_ARCHES {
      if os == "windows" {
        if arch == "amd64" { assert key == "windows-amd64"; } else { assert key == "windows-arm64"; }
      } else if os == "linux" {
        if arch == "amd64" { assert key == "linux-amd64"; } else { assert key == "linux-arm64"; }
      } else {
        if arch == "amd64" { assert key == "darwin-amd64"; } else { assert key == "darwin-arm64"; }
      }
    }
  }

  /** getFilename: the asset name unchanged on darwin and linux, with ".exe" on windows,
      and an "unsupported platform" error on any other OS. */
  function GetFilename(goos: string, goarch: string, base: string): (r: (string, Option<string>))
    ensures goos == "darwin" || goos == "linux" ==> r == (base, None)
    ensures goos == "windows" ==> r == (base + ".exe", None)
    ensures goos !in SUPPORTED_OSES ==> r == ("", Some(UnsupportedPlatform(goos, goarch)))
  {
    if goos == "darwin" || goos == "linux" then (base, None)
    else if goos == "windows" then (base + ".exe", None)
    else ("", Some(UnsupportedPlatform(goos, goarch)))
  }

  /** On a platform GetValidPlatform accepts, the file name can always be formed, and it
      ends with ".exe" exactly on windows. */
  lemma FilenameOnValidPlatform(goos: string, goarch: string)
    requires GetValidPlatform(goos, goarch).1.None?
    ensures var base := GetValidPlatform(goos, goarch).0;
      && GetFilename(goos, goarch, base).1.None?
      && (goos == "windows" <==> GetFilename(goos, goarch, base).0 == base + ".exe")
  {
    ValidPlatformIffSupported(goos, goarch);
    var base := GetValidPlatform(goos, goarch).0;
    if goos != "windows" {
      assert GetFilename(goos, goarch, base).0 == base;
      assert |base + ".exe"| != |base|;
    }
  }
}
