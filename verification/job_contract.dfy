/** The hand-over between the two tools: every job the generator emits can
    be prepared, the Azure Pipelines table is selected by job name, and the
    Apple-Clang versions of the fixed Azure Pipelines matrix are the ones
    the Xcode mapping knows. */
module JobContract {
  import opened Jobs
  import Dict
  import opened BaseMatrix
  import opened Generate
  import opened PrepareEnv

  /** Every entry of a GitHub Actions matrix is prepared from itself, and
      the preparation succeeds. */
  lemma GhaJobsPrepare(settings: Settings, ws: Workspace)
    requires GenerateCiJobs("gha", settings, ws).Ok?
    ensures var out := GenerateCiJobs("gha", settings, ws).value;
      && out.GhaMatrix?
      && forall j :: j in out.config ==> Prepare("gha", SingleJob(j), None) == Derive(j) && Derive(j).Ok?
  {
    RenderedMatrix("gha", settings, ws);
    AssembledJobsAreComplete(Gha, settings, ws);
    var out := GenerateCiJobs("gha", settings, ws).value;
    forall j | j in out.config
      ensures Prepare("gha", SingleJob(j), None) == Derive(j) && Derive(j).Ok?
    {
      PrepareSelected(SingleJob(j), None, j);
    }
  }

  /** Selecting an Azure Pipelines job by its (non-empty) name prepares the
      job stored under that name, and the preparation succeeds. */
  lemma AzpJobsPrepare(settings: Settings, ws: Workspace)
    requires GenerateCiJobs("azp", settings, ws).Ok?
    ensures var out := GenerateCiJobs("azp", settings, ws).value;
      && out.AzpMatrix?
      && forall e :: e in out.entries && e.0 != "" ==>
           Prepare("azp", JobTable(out.entries), Some(e.0)) == Derive(e.1) && Derive(e.1).Ok?
  {
    RenderedMatrix("azp", settings, ws);
    AssembledJobsAreComplete(Azp, settings, ws);
    var jobs := Assemble(Azp, settings, ws).value;
    var out := GenerateCiJobs("azp", settings, ws).value;
    forall e | e in out.entries && e.0 != ""
      ensures Prepare("azp", JobTable(out.entries), Some(e.0)) == Derive(e.1) && Derive(e.1).Ok?
    {
      assert LastOfItsName(jobs, e.1);
      assert e.1 in jobs;
      PrepareSelected(JobTable(out.entries), Some(e.0), e.1);
    }
  }

  /** The Apple-Clang jobs of the fixed Azure Pipelines matrix switch to
      Xcode 10.3, 11.5 and 12.4. */
  lemma AzpAppleClangXcode()
    ensures |AzpFull| == 6
    ensures XcodePath(AzpFull[0].compiler, NormaliseVersion(AzpFull[0].compiler, AzpFull[0].version))
      == Some("/Applications/Xcode_10.3.app")
    ensures XcodePath(AzpFull[1].compiler, NormaliseVersion(AzpFull[1].compiler, AzpFull[1].version))
      == Some("/Applications/Xcode_11.5.app")
    ensures XcodePath(AzpFull[2].compiler, NormaliseVersion(AzpFull[2].compiler, AzpFull[2].version))
      == Some("/Applications/Xcode_12.4.app")
  {
    assert AzpFull[0].version == "10.0" && AzpFull[1].version == "11.0" && AzpFull[2].version == "12.0";
  }

  /** The GitHub Actions macOS jobs name full Apple-Clang versions that are
      not keys of the Xcode mapping, so they keep the runner's default
      Xcode. */
  lemma GhaAppleClangKeepsDefaultXcode()
    ensures Catalog.GetConfigs(MacosIds).Ok?
    ensures var macos := Catalog.GetConfigs(MacosIds).value;
      forall j :: j in macos ==> j.compiler == "APPLE_CLANG" && XcodePath(j.compiler, NormaliseVersion(j.compiler, j.version)).None?
  {
    Catalog.GetConfigsOf(MacosIds, [
      Catalog.Hosted("macOS Apple-Clang 11", "APPLE_CLANG", "11.7", "macOS-latest"),
      Catalog.Hosted("macOS Apple-Clang 12", "APPLE_CLANG", "12.5.1", "macOS-latest"),
      Catalog.Hosted("macOS Apple-Clang 13", "APPLE_CLANG", "13.2.1", "macOS-latest"),
      Catalog.Hosted("macOS Apple-Clang 14", "APPLE_CLANG", "14.0.1", "macOS-12")]);
  }
}
