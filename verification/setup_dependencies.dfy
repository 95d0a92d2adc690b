/**
 * The platform classification and the package and command lists of
 * scripts/setup_dependencies.py.
 *
 * `platform.system()`, the Linux distribution name and `shutil.which` are the
 * outside world: the system and distribution names are parameters, and the
 * commands found on the search path are a set. Running the installers is not
 * modelled; what is modelled is which package list each platform selects.
 */
module SetupDependencies {
  import opened Wrappers
  import opened Text

  const OsNames: set<string> := {"debian", "redhat", "macos", "unknown"}

  /** A Debian-family distribution name, already lower-cased. */
  predicate DebianFamily(d: string) {
    Contains(d, "ubuntu") || Contains(d, "debian")
  }

  /** A Red Hat-family distribution name, already lower-cased. */
  predicate RedHatFamily(d: string) {
    Contains(d, "centos") || Contains(d, "fedora") || Contains(d, "red hat")
  }

  /**
   * `detect_os`: the standard name of the platform. On Linux the distribution
   * name is lower-cased, then checked for the Debian family before the Red Hat
   * family.
   */
  function DetectOs(system: string, distro: string): (r: string)
    ensures r in OsNames
    ensures r == "macos" <==> system == "Darwin"
    ensures system != "Linux" && system != "Darwin" ==> r == "unknown"
  {
    if system == "Linux" then
      var d := Lower(distro);
      if DebianFamily(d) then "debian"
      else if RedHatFamily(d) then "redhat"
      else "unknown"
    else if system == "Darwin" then "macos"
    else "unknown"
  }

  /** Linux distributions are classified by family, the Debian family winning over the Red Hat one. */
  lemma DetectLinux(distro: string)
    ensures DetectOs("Linux", distro) == "debian" <==> DebianFamily(Lower(distro))
    ensures DetectOs("Linux", distro) == "redhat" <==> !DebianFamily(Lower(distro)) && RedHatFamily(Lower(distro))
    ensures DetectOs("Linux", distro) == "unknown" <==> !DebianFamily(Lower(distro)) && !RedHatFamily(Lower(distro))
  {
  }

  /** The classification ignores letter case: a name and its lower-cased form are classified alike. */
  lemma DetectOsIgnoresCase(system: string, distro: string)
    ensures DetectOs(system, Lower(distro)) == DetectOs(system, distro)
  {
    LowerIdempotent(distro);
  }

  /** A name of each family, in the capitalisation the distributions use. */
  lemma DetectKnownDistributions()
    ensures DetectOs("Linux", "Ubuntu") == "debian"
    ensures DetectOs("Darwin", "") == "macos"
    ensures DetectOs("Windows", "Ubuntu") == "unknown"
  {
    assert Lower("Ubuntu") == "ubuntu";
    assert StartsWith("ubuntu", "ubuntu");
  }

  /** Both Debian markers hold a 'b', so a name without one is not of the Debian family. */
  lemma NotDebianWithoutB(d: string)
    requires 'b' !in d
    ensures !DebianFamily(d)
  {
    MissingCharNotContained(d, "ubuntu", 'b');
    MissingCharNotContained(d, "debian", 'b');
  }

  /** A name with none of 'c', 'f' and 'h' holds no Red Hat marker. */
  lemma NotRedHatWithoutCFH(d: string)
    requires 'c' !in d && 'f' !in d && 'h' !in d
    ensures !RedHatFamily(d)
  {
    MissingCharNotContained(d, "centos", 'c');
    MissingCharNotContained(d, "fedora", 'f');
    MissingCharNotContained(d, "red hat", 'h');
  }

  /** A Red Hat name is not taken for Debian. */
  lemma DetectFedora()
    ensures DetectOs("Linux", "Fedora") == "redhat"
  {
    var d := Lower("Fedora");
    assert d == "fedora";
    NotDebianWithoutB(d);
    assert StartsWith(d, "fedora");
  }

  /** A Linux name of neither family is unknown. */
  lemma DetectGentoo()
    ensures DetectOs("Linux", "Gentoo") == "unknown"
  {
    var d := Lower("Gentoo");
    assert d == "gentoo";
    NotDebianWithoutB(d);
    NotRedHatWithoutCFH(d);
  }

  // ---------------------------------------------------------------------
  // The package lists of install_system_dependencies

  /** The seven packages every platform installs, with the platform's own Java package fourth. */
  function PackagesWith(java: string): (r: seq<string>)
    ensures |r| == 7 && r[3] == java
  {
    ["nmap", "nikto", "mutt", java, "wget", "curl", "unzip"]
  }

  const UnsupportedOs := "Error: Unsupported operating system."

  /** The package list `install_system_dependencies` installs for `osName`, or the error it exits with. */
  function SystemPackages(osName: string): (r: Result<seq<string>, string>)
    ensures r.Failure? <==> osName !in {"debian", "redhat", "macos"}
    ensures r.Failure? ==> r.error == UnsupportedOs
  {
    if osName == "debian" then Success(PackagesWith("default-jdk"))
    else if osName == "redhat" then Success(PackagesWith("java-11-openjdk"))
    else if osName == "macos" then Success(PackagesWith("java"))
    else Failure(UnsupportedOs)
  }

  /** The supported platforms' lists differ only in the Java package, and there each is different. */
  lemma PackageListsDifferOnlyInJava(a: string, b: string)
    requires SystemPackages(a).Success? && SystemPackages(b).Success?
    ensures |SystemPackages(a).value| == |SystemPackages(b).value| == 7
    ensures forall i :: 0 <= i < 7 && i != 3 ==> SystemPackages(a).value[i] == SystemPackages(b).value[i]
    ensures SystemPackages(a).value[3] == SystemPackages(b).value[3] <==> a == b
  {
  }

  /** Exactly the platforms `detect_os` cannot name are refused. */
  lemma DetectedPlatformSupported(system: string, distro: string)
    ensures SystemPackages(DetectOs(system, distro)).Failure? <==> DetectOs(system, distro) == "unknown"
  {
  }

  // ---------------------------------------------------------------------
  // verify_installations

  const RequiredCommands := ["nmap", "nikto", "mutt", "java", "zap.sh"]

  /** The commands of `commands` that are not on the search path, in order. */
  function MissingAmong(commands: seq<string>, available: set<string>): seq<string>
    decreases |commands|
  {
    if |commands| == 0 then []
    else
      var last := commands[|commands| - 1];
      MissingAmong(commands[..|commands| - 1], available) + (if last in available then [] else [last])
  }

  /** `verify_installations`: collects the required commands `which` cannot find. */
  method VerifyInstallations(available: set<string>) returns (missing: seq<string>)
    ensures missing == MissingAmong(RequiredCommands, available)
  {
    missing := [];
    for i := 0 to |RequiredCommands|
      invariant missing == MissingAmong(RequiredCommands[..i], available)
    {
      assert RequiredCommands[..i + 1][..i] == RequiredCommands[..i];
      if RequiredCommands[i] !in available {
        missing := missing + [RequiredCommands[i]];
      }
    }
    assert RequiredCommands[..|RequiredCommands|] == RequiredCommands;
  }

  /** A command is reported missing exactly when it is required and not available. */
  lemma {:induction false} MissingAmongMembers(commands: seq<string>, available: set<string>, c: string)
    ensures c in MissingAmong(commands, available) <==> c in commands && c !in available
    decreases |commands|
  {
    if |commands| > 0 {
      var init := commands[..|commands| - 1];
      MissingAmongMembers(init, available, c);
      assert commands == init + [commands[|commands| - 1]];
    }
  }

  /** The missing commands keep the required order: the report for a concatenation is the concatenation of the reports. */
  lemma {:induction false} MissingAmongAppend(a: seq<string>, b: seq<string>, available: set<string>)
    ensures MissingAmong(a + b, available) == MissingAmong(a, available) + MissingAmong(b, available)
    decreases |b|
  {
    if |b| == 0 {
      assert a + b == a;
    } else {
      var init := b[..|b| - 1];
      MissingAmongAppend(a, init, available);
      assert (a + b)[..|a + b| - 1] == a + init;
    }
  }

  /** Nothing is reported when every required command is available. */
  lemma {:induction false} NothingMissing(commands: seq<string>, available: set<string>)
    requires forall i :: 0 <= i < |commands| ==> commands[i] in available
    ensures MissingAmong(commands, available) == []
    decreases |commands|
  {
    if |commands| > 0 {
      NothingMissing(commands[..|commands| - 1], available);
    }
  }
}
