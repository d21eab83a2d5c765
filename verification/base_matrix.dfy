/** The base matrix of one recipe directory: which catalog compilers a
    platform builds for a kind of recipe, the optional Release/Debug split,
    and the choice between the full and the minimal build set. */
module BaseMatrix {
  import opened Jobs
  import opened Text
  import Catalog

  const Installer := "installer"
  const UnconditionalHeaderOnly := "unconditional_header_only"
  /** The recipe type used when duplicate build ids are not discarded: it
      asks for the full matrix whatever the recipe really is. */
  const ManualFullMatrix := "recipe_manual_full_matrix"

  /** Answers of the repository-file checks the builder consults: whether
      macOS and Windows jobs belong on GitHub Actions (they do unless another
      CI configuration already runs them) and whether a GitHub Actions
      workflow using the tools exists. */
  datatype Probes = Probes(runMacosOnGha: bool, runWindowsOnGha: bool, ghaWorkflowExists: bool)

  /** The probes, computed from the repository's files the way the builder
      checks them: `fileContains(path, text)` answers whether the file at
      `path` contains `text`. macOS and Windows jobs move off GitHub
      Actions when `azure-pipelines.yml` uses the shared templates, and
      Windows jobs also when AppVeyor installs the tools; the workflow
      counts when it names the tools in both spellings. */
  function ProbeRepository(fileContains: (string, string) -> bool): (p: Probes)
    ensures p.runMacosOnGha == !(fileContains("azure-pipelines.yml", "name: bincrafters/templates")
                                 && fileContains("azure-pipelines.yml", "template: .ci/azure.yml@templates"))
    ensures p.runWindowsOnGha == (p.runMacosOnGha && !fileContains("appveyor.yml", "pip install bincrafters_package_tools"))
    ensures p.ghaWorkflowExists == (fileContains(".github/workflows/conan.yml", "bincrafters-package-tools")
                                    && fileContains(".github/workflows/conan.yml", "bincrafters_package_tools"))
    ensures p.runWindowsOnGha ==> p.runMacosOnGha
  {
    var azureTemplates := fileContains("azure-pipelines.yml", "name: bincrafters/templates")
                          && fileContains("azure-pipelines.yml", "template: .ci/azure.yml@templates");
    var appveyorTools := fileContains("appveyor.yml", "pip install bincrafters_package_tools");
    var ghaWorkflow := fileContains(".github/workflows/conan.yml", "bincrafters-package-tools")
                       && fileContains(".github/workflows/conan.yml", "bincrafters_package_tools");
    Probes(!azureTemplates, !azureTemplates && !appveyorTools, ghaWorkflow)
  }

  /** The probe answers a repository can give are exactly those in which
      Windows jobs stay on GitHub Actions only together with macOS jobs. */
  lemma ProbesReachable(p: Probes)
    ensures (exists fileContains: (string, string) -> bool :: ProbeRepository(fileContains) == p)
            <==> (p.runWindowsOnGha ==> p.runMacosOnGha)
  {
    if p.runWindowsOnGha ==> p.runMacosOnGha {
      var files := (path: string, text: string) =>
        (path == "azure-pipelines.yml" && !p.runMacosOnGha)
        || (path == "appveyor.yml" && !p.runWindowsOnGha)
        || (path == ".github/workflows/conan.yml" && p.ghaWorkflowExists);
      assert ProbeRepository(files) == p;
    }
  }

  /** The two switches that the tools otherwise read from environment
      variables. */
  datatype Settings = Settings(splitByBuildTypes: bool, discardDuplicateBuildIds: bool)

  /** The full and the minimal build set of one recipe. */
  datatype Sets = Sets(full: seq<Job>, minimal: seq<Job>)

  /** The recipe type actually used: an explicit type wins; otherwise the
      autodetected one when duplicate build ids are discarded, and the
      full-matrix type when they are not. */
  function ResolveRecipeType(recipeType: string, discard: bool, detected: string): string {
    if recipeType != "" then recipeType
    else if discard then detected
    else ManualFullMatrix
  }

  const InstallerIdsAsWritten: seq<string> := ["ubuntu-gcc-11", "win-xcode-13", "win-vs-2022"]
  const InstallerIds: seq<string> := ["ubuntu-gcc-11", "macos-xcode-13", "win-vs-2022"]
  const HeaderOnlyIds: seq<string> := ["ubuntu-clang-12", "win-vs-2022"]
  const GccIds: seq<string> := ["ubuntu-gcc-8", "ubuntu-gcc-9", "ubuntu-gcc-10", "ubuntu-gcc-11", "ubuntu-gcc-12"]
  const ClangOlderIds: seq<string> := [
    "ubuntu-clang-7", "ubuntu-clang-8", "ubuntu-clang-9", "ubuntu-clang-10", "ubuntu-clang-11"]
  const ClangNewerIds: seq<string> := [
    "ubuntu-clang-12", "ubuntu-clang-13", "ubuntu-clang-14", "ubuntu-clang-15", "ubuntu-clang-16"]
  /** The fifteen Linux ids, asked for in one lookup; they are grouped here
      only to keep the proofs about them small. */
  const LinuxIds: seq<string> := GccIds + ClangOlderIds + ClangNewerIds
  const LinuxMinimalIds: seq<string> := ["ubuntu-gcc-12", "ubuntu-clang-16"]
  const MacosIds: seq<string> := ["macos-xcode-11", "macos-xcode-12", "macos-xcode-13", "macos-xcode-14"]
  const MacosMinimalIds: seq<string> := ["macos-xcode-14"]
  const WindowsIds: seq<string> := ["win-vs-2019", "win-vs-2022"]
  const WindowsMinimalIds: seq<string> := ["win-vs-2022"]

  /** The fixed Azure Pipelines full set, written out rather than taken
      from the catalog. */
  const AzpFull: seq<Job> := [
    Catalog.Hosted("macOS Apple-Clang 10", "APPLE_CLANG", "10.0", "macOS-10.15"),
    Catalog.Hosted("macOS Apple-Clang 11", "APPLE_CLANG", "11.0", "macOS-10.15"),
    Catalog.Hosted("macOS Apple-Clang 12", "APPLE_CLANG", "12.0", "macOS-10.15"),
    Catalog.Hosted("Windows VS 2017", "VISUAL", "15", "vs2017-win2016"),
    Catalog.Hosted("Windows VS 2019", "VISUAL", "16", "windows-2019"),
    Catalog.Hosted("Windows VS 2022", "VISUAL", "17", "windows-2022")]

  const AzpMinimal: seq<Job> := [
    Catalog.Hosted("macOS Apple-Clang 11", "APPLE_CLANG", "11.0", "macOS-10.15"),
    Catalog.Hosted("Windows VS 2019", "VISUAL", "16", "windows-2019")]

  /** Adds one compiler family to both sets when it is enabled. */
  function AddFamily(s: Sets, enabled: bool, fullIds: seq<string>, minimalIds: seq<string>): Result<Sets> {
    if !enabled then Ok(s)
    else
      var full :- Catalog.GetConfigs(fullIds);
      var minimal :- Catalog.GetConfigs(minimalIds);
      Ok(Sets(s.full + full, s.minimal + minimal))
  }

  /** Subset selection, parameterised by the id list used for installers on
      GitHub Actions (see `SubsetsAsWritten` and `Subsets`). */
  function SubsetsFrom(installerIds: seq<string>, platform: Platform, recipeType: string, probes: Probes): Result<Sets> {
    match platform
    case Gha =>
      if recipeType == Installer then
        var full :- Catalog.GetConfigs(installerIds);
        Ok(Sets(full, full))
      else if recipeType == UnconditionalHeaderOnly then
        var full :- Catalog.GetConfigs(HeaderOnlyIds);
        Ok(Sets(full, full))
      else
        var full :- Catalog.GetConfigs(LinuxIds);
        var minimal :- Catalog.GetConfigs(LinuxMinimalIds);
        var withMacos :- AddFamily(Sets(full, minimal), probes.runMacosOnGha, MacosIds, MacosMinimalIds);
        AddFamily(withMacos, probes.runWindowsOnGha, WindowsIds, WindowsMinimalIds)
    case Azp =>
      if probes.ghaWorkflowExists && recipeType in {Installer, UnconditionalHeaderOnly, ManualFullMatrix} then
        Ok(Sets([], []))
      else
        Ok(Sets(AzpFull, AzpMinimal))
  }

  /** Subset selection exactly as the source writes it: installers on GitHub
      Actions ask the catalog for `win-xcode-13`. */
  function SubsetsAsWritten(platform: Platform, recipeType: string, probes: Probes): Result<Sets> {
    SubsetsFrom(InstallerIdsAsWritten, platform, recipeType, probes)
  }

  /** Subset selection with the installer macOS job named by its catalog id
      `macos-xcode-13`. The rest of the model uses this definition. */
  function Subsets(platform: Platform, recipeType: string, probes: Probes): Result<Sets> {
    SubsetsFrom(InstallerIds, platform, recipeType, probes)
  }

  /** As written, every installer recipe on GitHub Actions fails the catalog
      lookup, whatever the probes say, because `win-xcode-13` is not a
      catalog id. */
  lemma InstallerLookupFailsAsWritten(probes: Probes)
    ensures SubsetsAsWritten(Gha, Installer, probes) == Err(UnknownConfig("win-xcode-13"))
  {
    assert Catalog.Lookup(InstallerIdsAsWritten[0]).Some?;
    assert Catalog.Lookup(InstallerIdsAsWritten[1]).None?;
  }

  /** The correction changes nothing but the GitHub Actions installer
      branch. */
  lemma SubsetsAgreeOutsideGhaInstallers(platform: Platform, recipeType: string, probes: Probes)
    requires platform == Azp || recipeType != Installer
    ensures SubsetsAsWritten(platform, recipeType, probes) == Subsets(platform, recipeType, probes)
  {
  }

  /** With the correction, an installer on GitHub Actions builds one Linux,
      one macOS and one Windows job, and its minimal set is its full set. */
  lemma InstallerSubsetCorrected(probes: Probes)
    ensures Subsets(Gha, Installer, probes).Ok?
    ensures var s := Subsets(Gha, Installer, probes).value;
      && s.minimal == s.full
      && |s.full| == 3
      && Runs(s.full[0], "GCC", 11, "ubuntu-latest")
      && Runs(s.full[1], "APPLE_CLANG", 13, "macOS-latest")
      && Runs(s.full[2], "VISUAL", 17, "windows-2022")
  {
    Catalog.GetConfigsOf(InstallerIds, [
      Catalog.Linux("GCC 11", "GCC", "11", "teeks99/gcc-ubuntu:11"),
      Catalog.Hosted("macOS Apple-Clang 13", "APPLE_CLANG", "13.2.1", "macOS-latest"),
      Catalog.Hosted("Windows VS 2022", "VISUAL", "17", "windows-2022")]);
  }

  /** `j` is the given compiler, at the given major version, on the given
      host image. */
  predicate Runs(j: Job, compiler: string, major: nat, os: string) {
    j.compiler == compiler && Major(j.version) == major && j.os == os
  }

  /** An unconditionally header-only recipe on GitHub Actions builds with
      Clang 12 on Linux and Visual Studio 2022, and its minimal set is its
      full set. */
  lemma HeaderOnlySubsets(probes: Probes)
    ensures Subsets(Gha, UnconditionalHeaderOnly, probes).Ok?
    ensures var s := Subsets(Gha, UnconditionalHeaderOnly, probes).value;
      && s.minimal == s.full
      && |s.full| == 2
      && Runs(s.full[0], "CLANG", 12, "ubuntu-latest")
      && Runs(s.full[1], "VISUAL", 17, "windows-2022")
  {
    Catalog.GetConfigsOf(HeaderOnlyIds, [
      Catalog.Linux("CLANG 12", "CLANG", "12", "teeks99/clang-ubuntu:12"),
      Catalog.Hosted("Windows VS 2022", "VISUAL", "17", "windows-2022")]);
  }

  /** GCC 8 to 12, in that order. */
  lemma GccProfiles()
    ensures Catalog.GetConfigs(GccIds).Ok?
    ensures var r := Catalog.GetConfigs(GccIds).value;
      |r| == 5 && forall i :: 0 <= i < 5 ==> Runs(r[i], "GCC", i + 8, "ubuntu-latest")
  {
    Catalog.GetConfigsOf(GccIds, [
      Catalog.Linux("GCC 8", "GCC", "8", "teeks99/gcc-ubuntu:8"),
      Catalog.Linux("GCC 9", "GCC", "9", "teeks99/gcc-ubuntu:9"),
      Catalog.Linux("GCC 10", "GCC", "10", "teeks99/gcc-ubuntu:10"),
      Catalog.Linux("GCC 11", "GCC", "11", "teeks99/gcc-ubuntu:11"),
      Catalog.Linux("GCC 12", "GCC", "12", "teeks99/gcc-ubuntu:12_20221001_1312")]);
  }

  /** Clang 7 to 11, in that order. */
  lemma ClangOlderProfiles()
    ensures Catalog.GetConfigs(ClangOlderIds).Ok?
    ensures var r := Catalog.GetConfigs(ClangOlderIds).value;
      |r| == 5 && forall i :: 0 <= i < 5 ==> Runs(r[i], "CLANG", i + 7, "ubuntu-latest")
  {
    Catalog.GetConfigsOf(ClangOlderIds, [
      Catalog.Linux("CLANG 7", "CLANG", "7", "teeks99/clang-ubuntu:7"),
      Catalog.Linux("CLANG 8", "CLANG", "8", "teeks99/clang-ubuntu:8"),
      Catalog.Linux("CLANG 9", "CLANG", "9", "teeks99/clang-ubuntu:9"),
      Catalog.Linux("CLANG 10", "CLANG", "10", "teeks99/clang-ubuntu:10"),
      Catalog.Linux("CLANG 11", "CLANG", "11", "teeks99/clang-ubuntu:11")]);
  }

  /** Clang 12 to 16, in that order. */
  lemma ClangNewerProfiles()
    ensures Catalog.GetConfigs(ClangNewerIds).Ok?
    ensures var r := Catalog.GetConfigs(ClangNewerIds).value;
      |r| == 5 && forall i :: 0 <= i < 5 ==> Runs(r[i], "CLANG", i + 12, "ubuntu-latest")
  {
    Catalog.GetConfigsOf(ClangNewerIds, [
      Catalog.Linux("CLANG 12", "CLANG", "12", "teeks99/clang-ubuntu:12"),
      Catalog.Linux("CLANG 13", "CLANG", "13", "teeks99/clang-ubuntu:13"),
      Catalog.Linux("CLANG 14", "CLANG", "14", "teeks99/clang-ubuntu:14"),
      Catalog.Linux("CLANG 15", "CLANG", "15", "teeks99/clang-ubuntu:15"),
      Catalog.Linux("CLANG 16", "CLANG", "16", "teeks99/clang-ubuntu:16_20221004_0023")]);
  }

  /** The fifteen Linux profiles: GCC 8 to 12, then Clang 7 to 16. */
  lemma LinuxProfiles()
    ensures Catalog.GetConfigs(LinuxIds).Ok?
    ensures var r := Catalog.GetConfigs(LinuxIds).value;
      && |r| == 15
      && (forall i :: 0 <= i < 5 ==> Runs(r[i], "GCC", i + 8, "ubuntu-latest"))
      && (forall i :: 5 <= i < 15 ==> Runs(r[i], "CLANG", i + 2, "ubuntu-latest"))
  {
    GccProfiles();
    ClangOlderProfiles();
    ClangNewerProfiles();
    Catalog.GetConfigsAppend(GccIds, ClangOlderIds);
    Catalog.GetConfigsAppend(GccIds + ClangOlderIds, ClangNewerIds);
    var g := Catalog.GetConfigs(GccIds).value;
    var o := Catalog.GetConfigs(ClangOlderIds).value;
    var n := Catalog.GetConfigs(ClangNewerIds).value;
    var r := g + o + n;
    assert Catalog.GetConfigs(LinuxIds) == Ok(r);
    forall i | 0 <= i < 15
      ensures i < 5 ==> r[i] == g[i]
      ensures 5 <= i < 10 ==> r[i] == o[i - 5]
      ensures 10 <= i ==> r[i] == n[i - 10]
    {
    }
  }

  /** Apple-Clang 11 to 14, in that order; the newest runs on macOS 12. */
  lemma MacosProfiles()
    ensures Catalog.GetConfigs(MacosIds).Ok?
    ensures var r := Catalog.GetConfigs(MacosIds).value;
      |r| == 4 && forall i :: 0 <= i < 4 ==> Runs(r[i], "APPLE_CLANG", i + 11, if i < 3 then "macOS-latest" else "macOS-12")
  {
    Catalog.GetConfigsOf(MacosIds, [
      Catalog.Hosted("macOS Apple-Clang 11", "APPLE_CLANG", "11.7", "macOS-latest"),
      Catalog.Hosted("macOS Apple-Clang 12", "APPLE_CLANG", "12.5.1", "macOS-latest"),
      Catalog.Hosted("macOS Apple-Clang 13", "APPLE_CLANG", "13.2.1", "macOS-latest"),
      Catalog.Hosted("macOS Apple-Clang 14", "APPLE_CLANG", "14.0.1", "macOS-12")]);
  }

  /** Visual Studio 2019 and 2022. */
  lemma WindowsProfiles()
    ensures Catalog.GetConfigs(WindowsIds).Ok?
    ensures var r := Catalog.GetConfigs(WindowsIds).value;
      && |r| == 2
      && Runs(r[0], "VISUAL", 16, "windows-2019")
      && Runs(r[1], "VISUAL", 17, "windows-2022")
  {
    Catalog.GetConfigsOf(WindowsIds, [
      Catalog.Hosted("Windows VS 2019", "VISUAL", "16", "windows-2019"),
      Catalog.Hosted("Windows VS 2022", "VISUAL", "17", "windows-2022")]);
  }

  /** The minimal Linux lookup picks GCC 12 and Clang 16 out of the full
      one. */
  lemma LinuxMinimalProfiles()
    ensures Catalog.GetConfigs(LinuxIds).Ok? && |Catalog.GetConfigs(LinuxIds).value| == 15
    ensures Catalog.GetConfigs(LinuxMinimalIds)
         == Ok([Catalog.GetConfigs(LinuxIds).value[4], Catalog.GetConfigs(LinuxIds).value[14]])
  {
    LinuxProfiles();
    Catalog.GetConfigsSpec(LinuxIds);
    Catalog.GetConfigsSpec(LinuxMinimalIds);
    assert LinuxIds[4] == LinuxMinimalIds[0] && LinuxIds[14] == LinuxMinimalIds[1];
    var m := Catalog.GetConfigs(LinuxMinimalIds).value;
    assert m == [m[0], m[1]];
  }

  /** The minimal macOS lookup picks Apple-Clang 14 and the minimal Windows
      lookup Visual Studio 2022 out of the full ones. */
  lemma HostedMinimalProfiles()
    ensures Catalog.GetConfigs(MacosIds).Ok? && |Catalog.GetConfigs(MacosIds).value| == 4
    ensures Catalog.GetConfigs(WindowsIds).Ok? && |Catalog.GetConfigs(WindowsIds).value| == 2
    ensures Catalog.GetConfigs(MacosMinimalIds) == Ok([Catalog.GetConfigs(MacosIds).value[3]])
    ensures Catalog.GetConfigs(WindowsMinimalIds) == Ok([Catalog.GetConfigs(WindowsIds).value[1]])
  {
    MacosProfiles();
    WindowsProfiles();
    Catalog.GetConfigsSpec(MacosIds);
    Catalog.GetConfigsSpec(WindowsIds);
    Catalog.GetConfigsSpec(MacosMinimalIds);
    Catalog.GetConfigsSpec(WindowsMinimalIds);
    assert MacosIds[3] == MacosMinimalIds[0];
    assert WindowsIds[1] == WindowsMinimalIds[0];
    var m := Catalog.GetConfigs(MacosMinimalIds).value;
    assert m == [m[0]];
    var w := Catalog.GetConfigs(WindowsMinimalIds).value;
    assert w == [w[0]];
  }

  /** Any other recipe type on GitHub Actions: GCC 8 to 12 and Clang 7 to 16
      on Linux, in that order, then Apple-Clang 11 to 14 only when macOS jobs
      run here, then Visual Studio 2019 and 2022 only when Windows jobs run
      here. The minimal set picks GCC 12 and Clang 16, then the newest
      Apple-Clang and the newest Visual Studio when those families run. */
  lemma GhaOrdinarySubsets(recipeType: string, probes: Probes)
    requires recipeType != Installer && recipeType != UnconditionalHeaderOnly
    ensures Subsets(Gha, recipeType, probes).Ok?
    ensures var s := Subsets(Gha, recipeType, probes).value;
      var mac, win := probes.runMacosOnGha, probes.runWindowsOnGha;
      && |s.full| == 15 + (if mac then 4 else 0) + (if win then 2 else 0)
      && (forall i :: 0 <= i < 5 ==> Runs(s.full[i], "GCC", i + 8, "ubuntu-latest"))
      && (forall i :: 5 <= i < 15 ==> Runs(s.full[i], "CLANG", i + 2, "ubuntu-latest"))
      && (mac ==> forall i :: 15 <= i < 19 ==> Runs(s.full[i], "APPLE_CLANG", i - 4, if i < 18 then "macOS-latest" else "macOS-12"))
      && (win ==> (Runs(s.full[|s.full| - 2], "VISUAL", 16, "windows-2019")
                   && Runs(s.full[|s.full| - 1], "VISUAL", 17, "windows-2022")))
      && s.minimal == [s.full[4], s.full[14]] + (if mac then [s.full[18]] else [])
                      + (if win then [s.full[|s.full| - 1]] else [])
  {
    LinuxProfiles();
    MacosProfiles();
    WindowsProfiles();
    LinuxMinimalProfiles();
    HostedMinimalProfiles();
    var linux := Catalog.GetConfigs(LinuxIds).value;
    var macos := Catalog.GetConfigs(MacosIds).value;
    var windows := Catalog.GetConfigs(WindowsIds).value;
    var base := Sets(linux, [linux[4], linux[14]]);
    var withMacos := if probes.runMacosOnGha then Sets(linux + macos, base.minimal + [macos[3]]) else base;
    assert AddFamily(base, probes.runMacosOnGha, MacosIds, MacosMinimalIds) == Ok(withMacos);
    var s := if probes.runWindowsOnGha then Sets(withMacos.full + windows, withMacos.minimal + [windows[1]]) else withMacos;
    assert AddFamily(withMacos, probes.runWindowsOnGha, WindowsIds, WindowsMinimalIds) == Ok(s);
    assert Subsets(Gha, recipeType, probes) == Ok(s);
    forall i | 0 <= i < 15
      ensures s.full[i] == linux[i]
    {
    }
    if probes.runMacosOnGha {
      forall i | 15 <= i < 19
        ensures s.full[i] == macos[i - 15]
      {
      }
    }
  }

  /** The fixed Azure Pipelines lists: Apple-Clang 10 to 12 on macOS
      10.15, then Visual Studio 2017, 2019 and 2022; the minimal list is
      Apple-Clang 11 and Visual Studio 2019 taken from it. */
  lemma AzpFixedProfiles()
    ensures |AzpFull| == 6
    ensures forall i :: 0 <= i < 3 ==> Runs(AzpFull[i], "APPLE_CLANG", i + 10, "macOS-10.15")
    ensures forall i :: 3 <= i < 6 ==> AzpFull[i].compiler == "VISUAL" && Major(AzpFull[i].version) == i + 12
    ensures AzpMinimal == [AzpFull[1], AzpFull[4]]
  {
  }

  /** Azure Pipelines: nothing at all when a GitHub Actions workflow already
      covers an installer, header-only or full-matrix recipe; otherwise the
      fixed lists. */
  lemma AzpSubsets(recipeType: string, probes: Probes)
    ensures Subsets(Azp, recipeType, probes).Ok?
    ensures var s := Subsets(Azp, recipeType, probes).value;
      if probes.ghaWorkflowExists && recipeType in {Installer, UnconditionalHeaderOnly, ManualFullMatrix} then
        s.full == [] && s.minimal == []
      else
        s.full == AzpFull && s.minimal == AzpMinimal
  {
  }

  /** Every job of a minimal set is also a job of the full set. */
  lemma MinimalWithinFull(platform: Platform, recipeType: string, probes: Probes)
    requires Subsets(platform, recipeType, probes).Ok?
    ensures var s := Subsets(platform, recipeType, probes).value;
      forall j :: j in s.minimal ==> j in s.full
  {
    if platform == Azp {
      AzpSubsets(recipeType, probes);
      AzpFixedProfiles();
    } else if recipeType == Installer {
      InstallerSubsetCorrected(probes);
    } else if recipeType == UnconditionalHeaderOnly {
      HeaderOnlySubsets(probes);
    } else {
      GhaOrdinarySubsets(recipeType, probes);
    }
  }

  /** The job `j` built with the given build type: the type is appended to
      its name and recorded in `buildType`. */
  function WithBuildType(j: Job, buildType: string): Job {
    j.(name := j.name + " " + buildType, buildType := Some(buildType))
  }

  /** Duplicates every job into a Release entry immediately followed by a
      Debug entry. */
  function SplitByBuildType(jobs: seq<Job>): (r: seq<Job>)
    ensures |r| == 2 * |jobs|
    ensures forall i :: 0 <= i < |jobs| ==>
      r[2 * i] == WithBuildType(jobs[i], "Release") && r[2 * i + 1] == WithBuildType(jobs[i], "Debug")
    ensures forall i :: 0 <= i < |jobs| ==>
      r[2 * i].(name := jobs[i].name, buildType := None) == r[2 * i + 1].(name := jobs[i].name, buildType := None)
  {
    if |jobs| == 0 then []
    else [WithBuildType(jobs[0], "Release"), WithBuildType(jobs[0], "Debug")] + SplitByBuildType(jobs[1..])
  }

  /** `s` with `suffix` removed from its end, when it ends with it. */
  function DropSuffix(s: string, suffix: string): string {
    if |suffix| <= |s| && s[|s| - |suffix|..] == suffix then s[..|s| - |suffix|] else s
  }

  /** Undoes the split: keeps the Release entry of every pair and takes the
      build type back off it. */
  function Unsplit(jobs: seq<Job>): seq<Job>
    decreases |jobs|
  {
    if |jobs| < 2 then []
    else [jobs[0].(name := DropSuffix(jobs[0].name, " Release"), buildType := None)] + Unsplit(jobs[2..])
  }

  /** The Release entry of a split pair gives back the original job. */
  lemma RestoreRelease(j: Job)
    requires j.buildType.None?
    ensures var r := WithBuildType(j, "Release");
      r.(name := DropSuffix(r.name, " Release"), buildType := None) == j
  {
    var n := j.name + " Release";
    assert n[|n| - |" Release"|..] == " Release";
    assert n[..|n| - |" Release"|] == j.name;
  }

  /** The split loses nothing: jobs that carry no build type yet, as every
      catalog profile does, are recovered from the split matrix. */
  lemma {:induction false} UnsplitSplit(jobs: seq<Job>)
    requires forall i :: 0 <= i < |jobs| ==> jobs[i].buildType.None?
    ensures Unsplit(SplitByBuildType(jobs)) == jobs
    decreases |jobs|
  {
    if |jobs| > 0 {
      var r := SplitByBuildType(jobs);
      var rest := SplitByBuildType(jobs[1..]);
      assert r == [WithBuildType(jobs[0], "Release"), WithBuildType(jobs[0], "Debug")] + rest;
      assert r[2..] == rest;
      RestoreRelease(jobs[0]);
      UnsplitSplit(jobs[1..]);
      assert Unsplit(r) == [jobs[0]] + Unsplit(rest);
      assert jobs == [jobs[0]] + jobs[1..];
    }
  }

  /** The build set a version asks for: `full`, `minimal`, or nothing for
      any other value. */
  function SelectBuildSet(buildSet: string, s: Sets): seq<Job> {
    if buildSet == "full" then s.full
    else if buildSet == "minimal" then s.minimal
    else []
  }

  /** The base matrix of one recipe directory whose autodetected recipe type
      is `detected`, parameterised like `SubsetsFrom` by the id list used
      for installers on GitHub Actions. */
  function BaseConfigFrom(installerIds: seq<string>, platform: Platform, settings: Settings, probes: Probes,
                          buildSet: string, recipeType: string, detected: string): Result<seq<Job>>
  {
    var s :- SubsetsFrom(installerIds, platform, ResolveRecipeType(recipeType, settings.discardDuplicateBuildIds, detected), probes);
    var split := if settings.splitByBuildTypes then Sets(SplitByBuildType(s.full), SplitByBuildType(s.minimal)) else s;
    Ok(SelectBuildSet(buildSet, split))
  }

  /** The base matrix the generator uses, built on the corrected installer
      ids. */
  function BaseConfig(platform: Platform, settings: Settings, probes: Probes, buildSet: string,
                      recipeType: string, detected: string): (r: Result<seq<Job>>)
    ensures r.Ok? <==> Subsets(platform, ResolveRecipeType(recipeType, settings.discardDuplicateBuildIds, detected), probes).Ok?
    ensures r.Ok? && buildSet != "full" && buildSet != "minimal" ==> r.value == []
  {
    BaseConfigFrom(InstallerIds, platform, settings, probes, buildSet, recipeType, detected)
  }

  /** As written, the base matrix of every recipe that resolves to an
      installer fails on GitHub Actions with the unknown `win-xcode-13`,
      whatever the build set, the split or the probes, where the corrected
      one succeeds; on every other input the two agree. */
  lemma BaseConfigAsWritten(platform: Platform, settings: Settings, probes: Probes, buildSet: string,
                            recipeType: string, detected: string)
    ensures var asWritten := BaseConfigFrom(InstallerIdsAsWritten, platform, settings, probes, buildSet, recipeType, detected);
      var resolved := ResolveRecipeType(recipeType, settings.discardDuplicateBuildIds, detected);
      && (platform == Gha && resolved == Installer ==>
            asWritten == Err(UnknownConfig("win-xcode-13"))
            && BaseConfig(platform, settings, probes, buildSet, recipeType, detected).Ok?)
      && (platform == Azp || resolved != Installer ==>
            asWritten == BaseConfig(platform, settings, probes, buildSet, recipeType, detected))
  {
    var resolved := ResolveRecipeType(recipeType, settings.discardDuplicateBuildIds, detected);
    if platform == Gha && resolved == Installer {
      InstallerLookupFailsAsWritten(probes);
      InstallerSubsetCorrected(probes);
    } else {
      SubsetsAgreeOutsideGhaInstallers(platform, resolved, probes);
    }
  }

  /** The full build set is the whole subset and the minimal one the
      minimal subset, whichever platform and recipe type. */
  lemma BuildSetChoice(platform: Platform, recipeType: string, probes: Probes, detected: string, discard: bool)
    requires Subsets(platform, ResolveRecipeType(recipeType, discard, detected), probes).Ok?
    ensures var s := Subsets(platform, ResolveRecipeType(recipeType, discard, detected), probes).value;
      var unsplit := Settings(false, discard);
      && BaseConfig(platform, unsplit, probes, "full", recipeType, detected) == Ok(s.full)
      && BaseConfig(platform, unsplit, probes, "minimal", recipeType, detected) == Ok(s.minimal)
  {
  }

  /** Splitting by build type turns the n jobs of any build set into 2n
      jobs: entries 2i and 2i+1 are job i as Release and as Debug, so the
      order of the compilers is kept. */
  lemma SplitDoublesBaseConfig(platform: Platform, discard: bool, probes: Probes, buildSet: string,
                               recipeType: string, detected: string)
    ensures var plain := BaseConfig(platform, Settings(false, discard), probes, buildSet, recipeType, detected);
      var split := BaseConfig(platform, Settings(true, discard), probes, buildSet, recipeType, detected);
      && (plain.Ok? <==> split.Ok?)
      && (plain.Ok? ==>
            && |split.value| == 2 * |plain.value|
            && forall i :: 0 <= i < |plain.value| ==>
                 split.value[2 * i] == WithBuildType(plain.value[i], "Release")
                 && split.value[2 * i + 1] == WithBuildType(plain.value[i], "Debug"))
  {
    var plain := BaseConfig(platform, Settings(false, discard), probes, buildSet, recipeType, detected);
    if plain.Ok? {
      assert plain.value == [] ==> SplitByBuildType([]) == [];
    }
  }

  /** Without an explicit recipe type, the directory's autodetected type is
      used when duplicate build ids are discarded; otherwise the result is
      the full-matrix one and the detected type plays no part. */
  lemma UntypedRecipeResolution(platform: Platform, settings: Settings, probes: Probes, buildSet: string,
                                detected: string, other: string)
    ensures settings.discardDuplicateBuildIds && detected != "" ==>
      BaseConfig(platform, settings, probes, buildSet, "", detected)
        == BaseConfig(platform, settings, probes, buildSet, detected, other)
    ensures !settings.discardDuplicateBuildIds ==>
      BaseConfig(platform, settings, probes, buildSet, "", detected)
        == BaseConfig(platform, settings, probes, buildSet, ManualFullMatrix, other)
        == BaseConfig(platform, settings, probes, buildSet, "", other)
  {
  }
}
