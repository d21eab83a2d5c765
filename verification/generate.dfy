/** `generate_ci_jobs`: walks the repository's recipe layout, builds the base
    matrix of every version that has to be built, stamps each job with its
    working directory, recipe version and display name, and renders the
    collected jobs for the target CI service. Everything the tool reads from
    git, YAML files, the file system and autodetection arrives in a
    `Workspace`. */
module Generate {
  import opened Jobs
  import opened Text
  import Dict
  import opened BaseMatrix

  /** The repository layouts the directory autodetection tells apart. */
  datatype Structure =
    | OneRecipeOneVersion     // a recipe at the root whose version is fixed in the recipe
    | OneRecipeManyVersions   // config.yml at the root, one folder per group of versions
    | ConanCenterIndex        // recipes/<name>/config.yml for every recipe
    | StandaloneManyVersions  // a recipe at the root, its versions listed in conandata.yml
    | Unrecognised            // any other layout: no jobs at all

  /** One entry of the `versions` map of a config.yml: the version, and its
      `folder` and `build` attributes when they are set. */
  datatype VersionEntry = VersionEntry(version: string, folder: Option<string>, build: Option<string>)

  /** One directory `recipes/<name>` of the index layout with the versions
      of its config.yml. */
  datatype Recipe = Recipe(name: string, versions: seq<VersionEntry>)

  /** What git reports: the current and the default branch, the paths
      changed by the current commit, and the paths that differ between the
      default branch and the current commit. */
  datatype GitState = GitState(
    currentBranch: string,
    defaultBranch: string,
    changedAtHead: seq<string>,
    changedAgainstDefault: seq<string>)

  /** The answer of the CI-configuration compatibility check and the two
      versions its error message quotes. */
  datatype Compatibility = Compatibility(compatible: bool, minimumVersion: string, currentVersion: string)

  /** Everything the generator reads from outside. `classify(dir)` is the
      recipe type autodetected inside `dir`; `ciVersion` is the version the
      CI branch pins, or "" on an unversioned branch; `fileContains(path,
      text)` answers the repository-file checks. */
  datatype Workspace = Workspace(
    structure: Structure,
    cwd: string,
    fixedVersion: string,
    versions: seq<VersionEntry>,
    recipes: seq<Recipe>,
    sources: seq<string>,
    git: GitState,
    ciVersion: string,
    compatibility: Compatibility,
    fileContains: (string, string) -> bool,
    classify: string -> string)
  {
    /** The probe answers of the repository's files. */
    function RepositoryProbes(): Probes {
      ProbeRepository(fileContains)
    }
  }

  /** The rendered matrix: nothing for an unsupported platform, the job list
      for GitHub Actions, and the jobs keyed by name for Azure Pipelines. */
  datatype Output =
    | NoMatrix
    | GhaMatrix(config: seq<Job>)
    | AzpMatrix(entries: seq<(string, Job)>)

  /** Where the versions of one config.yml live: its directory, the prefix
      its changed paths must contain ("" for none), and the recipe name shown
      in job names ("" for none). */
  datatype Scope = Scope(path: string, filter: string, display: string)

  // ---------------------------------------------------------------------
  // Changed directories

  /** The changed paths: those of the current commit, plus those against
      the default branch when another branch is checked out. */
  function RawChanges(git: GitState): seq<string> {
    git.changedAtHead + (if git.defaultBranch != git.currentBranch then git.changedAgainstDefault else [])
  }

  /** Keeps the paths that contain `filter`, with every occurrence of it
      removed. */
  function FilterPaths(paths: seq<string>, filter: string): seq<string> {
    if |paths| == 0 then []
    else (if Contains(paths[0], filter) then [RemoveAll(paths[0], filter)] else []) + FilterPaths(paths[1..], filter)
  }

  /** A path survives the filter exactly when some changed path contains the
      filter and becomes that path once the filter is removed from it. */
  lemma {:induction false} FilterPathsSpec(paths: seq<string>, filter: string, x: string)
    ensures x in FilterPaths(paths, filter) <==> exists p :: p in paths && Contains(p, filter) && RemoveAll(p, filter) == x
  {
    if |paths| > 0 {
      FilterPathsSpec(paths[1..], filter, x);
      assert paths == [paths[0]] + paths[1..];
    }
  }

  /** The set of changed directories: the directory part of every changed
      path, after the filter when one is given. */
  function ChangedDirectories(git: GitState, filter: string): set<string> {
    var kept := if filter != "" then FilterPaths(RawChanges(git), filter) else RawChanges(git);
    set p | p in kept :: Dirname(p)
  }

  /** A directory is reported exactly when some changed path yields it. */
  lemma ChangedDirectoriesSpec(git: GitState, filter: string, d: string)
    ensures d in ChangedDirectories(git, filter) <==>
      exists p :: p in RawChanges(git)
        && (if filter == "" then Dirname(p) == d else Contains(p, filter) && Dirname(RemoveAll(p, filter)) == d)
  {
    if filter != "" {
      var kept := FilterPaths(RawChanges(git), filter);
      if d in ChangedDirectories(git, filter) {
        var x :| x in kept && Dirname(x) == d;
        FilterPathsSpec(RawChanges(git), filter, x);
      } else {
        forall p | p in RawChanges(git) && Contains(p, filter)
          ensures Dirname(RemoveAll(p, filter)) != d
        {
          FilterPathsSpec(RawChanges(git), filter, RemoveAll(p, filter));
        }
      }
    }
  }

  /** A changed path `<filter><folder>/<leaf>` marks `folder` as changed,
      provided the filter does not occur again after its prefix. */
  lemma TouchedFolderIsChanged(git: GitState, filter: string, folder: string, leaf: string)
    requires filter + folder + "/" + leaf in RawChanges(git)
    requires |folder| > 0 && folder[|folder| - 1] != '/'
    requires forall k :: 0 <= k < |leaf| ==> leaf[k] != '/'
    requires filter != "" ==> !Contains(folder + "/" + leaf, filter)
    ensures folder in ChangedDirectories(git, filter)
  {
    var rest := folder + "/" + leaf;
    var p := filter + folder + "/" + leaf;
    assert p == filter + rest;
    DirnameOfChild(folder, leaf);
    if filter != "" {
      assert OccursAt(p, filter, 0) by {
        assert p[..|filter|] == filter;
      }
      RemoveAllPrefix(filter, rest);
      ChangedDirectoriesSpec(git, filter, folder);
    } else {
      assert p == rest;
      ChangedDirectoriesSpec(git, filter, folder);
    }
  }

  // ---------------------------------------------------------------------
  // Jobs of one version

  /** Whether a version is built: on an unversioned branch when its folder
      changed, and in any case when it is the version the branch pins.
      Reading the folder of an entry that has none is a KeyError. */
  function Selected(ciVersion: string, changed: set<string>, e: VersionEntry): (r: Result<bool>)
    ensures r.Err? <==> ciVersion == "" && e.folder.None?
    ensures r.Err? ==> r.error == MissingKey("folder")
    ensures r.Ok? ==> (r.value <==> (ciVersion == "" && e.folder.Some? && e.folder.value in changed) || ciVersion == e.version)
  {
    if ciVersion == "" then
      match e.folder
      case None => Err(MissingKey("folder"))
      case Some(f) => Ok(f in changed || ciVersion == e.version)
    else Ok(ciVersion == e.version)
  }

  /** Stamps every base job with a working directory, a name prefix and a
      recipe version, one output job per base job and in the same order. */
  function Annotate(base: seq<Job>, cwd: string, prefix: string, recipeVersion: string): (r: seq<Job>)
    ensures |r| == |base|
    ensures forall i :: 0 <= i < |base| ==>
      && r[i].name == prefix + base[i].name
      && r[i].cwd == Some(cwd)
      && r[i].recipeVersion == Some(recipeVersion)
      && r[i].(name := base[i].name, cwd := base[i].cwd, recipeVersion := base[i].recipeVersion) == base[i]
  {
    if |base| == 0 then []
    else
      [base[0].(name := prefix + base[0].name, cwd := Some(cwd), recipeVersion := Some(recipeVersion))]
      + Annotate(base[1..], cwd, prefix, recipeVersion)
  }

  /** The name prefix of a version's jobs: the version, preceded by the
      recipe's display name in the index layout. */
  function NamePrefix(scope: Scope, version: string): string {
    if scope.filter == "" then version + " " else scope.display + "/" + version + " "
  }

  /** The jobs one config.yml entry contributes. */
  function VersionJobs(platform: Platform, settings: Settings, ws: Workspace, scope: Scope,
                       changed: set<string>, e: VersionEntry): (r: Result<seq<Job>>)
    ensures Selected(ws.ciVersion, changed, e).Err? ==> r == Err(MissingKey("folder"))
    ensures Selected(ws.ciVersion, changed, e) == Ok(false) ==> r == Ok([])
    ensures Selected(ws.ciVersion, changed, e) == Ok(true) && e.build == Some("none") ==> r == Ok([])
    ensures r.Ok? && |r.value| > 0 ==>
      && Selected(ws.ciVersion, changed, e) == Ok(true)
      && e.build.GetOr("full") in {"full", "minimal"}
      && e.folder.Some?
    ensures Selected(ws.ciVersion, changed, e) == Ok(true) && e.build.GetOr("full") !in {"none", "full", "minimal"} ==>
      r == Err(UnknownBuildValue(e.version))
    ensures (Selected(ws.ciVersion, changed, e) == Ok(true) && e.build.GetOr("full") in {"full", "minimal"}
             && e.folder.None?) ==> r == Err(MissingKey("folder"))
    ensures r.Ok? ==> forall j :: j in r.value ==>
      && j.recipeVersion == Some(e.version)
      && j.cwd == Some(scope.filter + e.folder.value)
      && NamePrefix(scope, e.version) <= j.name
  {
    var selected :- Selected(ws.ciVersion, changed, e);
    if !selected then Ok([])
    else
      var buildSet := e.build.GetOr("full");
      if buildSet == "none" then Ok([])
      else if buildSet != "full" && buildSet != "minimal" then Err(UnknownBuildValue(e.version))
      else
        match e.folder
        case None => Err(MissingKey("folder"))
        case Some(folder) =>
          var base :- BaseConfig(platform, settings, ws.RepositoryProbes(), buildSet, "", ws.classify(Join(scope.path, folder)));
          Ok(Annotate(base, scope.filter + folder, NamePrefix(scope, e.version), e.version))
  }

  /** A selected version with a `full` or `minimal` build value gets its base
      matrix, each job stamped with the version's folder below the filter,
      its name prefix and the version, or the base matrix's error. */
  lemma SelectedVersionGetsBaseMatrix(platform: Platform, settings: Settings, ws: Workspace, scope: Scope,
                                      changed: set<string>, e: VersionEntry)
    requires Selected(ws.ciVersion, changed, e) == Ok(true)
    requires e.build.GetOr("full") in {"full", "minimal"} && e.folder.Some?
    ensures var base := BaseConfig(platform, settings, ws.RepositoryProbes(), e.build.GetOr("full"), "",
                                   ws.classify(Join(scope.path, e.folder.value)));
      var r := VersionJobs(platform, settings, ws, scope, changed, e);
      && (r.Ok? <==> base.Ok?)
      && (base.Err? ==> r == Err(base.error))
      && (base.Ok? ==> r == Ok(Annotate(base.value, scope.filter + e.folder.value, NamePrefix(scope, e.version), e.version)))
  {
    var base := BaseConfig(platform, settings, ws.RepositoryProbes(), e.build.GetOr("full"), "",
                           ws.classify(Join(scope.path, e.folder.value)));
    var r := VersionJobs(platform, settings, ws, scope, changed, e);
    if base.Ok? {
      assert r == Ok(Annotate(base.value, scope.filter + e.folder.value, NamePrefix(scope, e.version), e.version));
    } else {
      assert r == Err(base.error);
    }
  }

  /** The jobs of a config.yml's versions, in the order of the file; the
      first failing version aborts. */
  function VersionsJobs(platform: Platform, settings: Settings, ws: Workspace, scope: Scope,
                        changed: set<string>, versions: seq<VersionEntry>): Result<seq<Job>>
  {
    Concat(VersionSteps(platform, settings, ws, scope, changed, versions))
  }

  /** The outcome of each version entry on its own. */
  function VersionSteps(platform: Platform, settings: Settings, ws: Workspace, scope: Scope,
                        changed: set<string>, versions: seq<VersionEntry>): seq<Result<seq<Job>>>
  {
    Steps(VersionStep(platform, settings, ws, scope, changed), versions)
  }

  /** `VersionJobs` as a step of the walk over a config.yml's entries. */
  function VersionStep(platform: Platform, settings: Settings, ws: Workspace, scope: Scope,
                       changed: set<string>): VersionEntry -> Result<seq<Job>>
  {
    (e: VersionEntry) => VersionJobs(platform, settings, ws, scope, changed, e)
  }

  /** `_parse_recipe_directory`: the changed directories below the scope's
      filter decide, together with the pinned version, which versions are
      built. */
  function ParseRecipeDirectory(platform: Platform, settings: Settings, ws: Workspace, scope: Scope,
                                versions: seq<VersionEntry>): Result<seq<Job>>
  {
    VersionsJobs(platform, settings, ws, scope, ChangedDirectories(ws.git, scope.filter), versions)
  }

  /** `j` was produced for the config.yml entry `e`: the entry was
      selected, names a folder, and `j` carries its version and its folder
      below `filter`. */
  predicate BuiltFrom(j: Job, ciVersion: string, changed: set<string>, filter: string, e: VersionEntry) {
    && Selected(ciVersion, changed, e) == Ok(true)
    && e.folder.Some?
    && j.recipeVersion == Some(e.version)
    && j.cwd == Some(filter + e.folder.value)
  }

  /** Every job of a recipe directory belongs to one of its selected
      versions: it carries that version and that version's folder. */
  lemma VersionsJobsOrigin(platform: Platform, settings: Settings, ws: Workspace, scope: Scope,
                           changed: set<string>, versions: seq<VersionEntry>)
    requires VersionsJobs(platform, settings, ws, scope, changed, versions).Ok?
    ensures forall j :: j in VersionsJobs(platform, settings, ws, scope, changed, versions).value ==>
      exists k :: 0 <= k < |versions| && BuiltFrom(j, ws.ciVersion, changed, scope.filter, versions[k])
  {
    var steps := VersionSteps(platform, settings, ws, scope, changed, versions);
    ConcatOk(steps);
    forall j: Job | j in Concat(steps).value
      ensures exists k :: 0 <= k < |versions| && BuiltFrom(j, ws.ciVersion, changed, scope.filter, versions[k])
    {
      var k :| 0 <= k < |steps| && steps[k].Ok? && j in steps[k].value;
      assert |steps[k].value| > 0;
      assert BuiltFrom(j, ws.ciVersion, changed, scope.filter, versions[k]);
    }
  }

  /** When the walk succeeds, every entry contributes all of its own jobs,
      in place: the jobs of the entries before it, then its own, then those
      of the entries after it. */
  lemma VersionsJobsAt(platform: Platform, settings: Settings, ws: Workspace, scope: Scope,
                       changed: set<string>, versions: seq<VersionEntry>, k: nat)
    requires k < |versions|
    requires VersionsJobs(platform, settings, ws, scope, changed, versions).Ok?
    ensures var before := VersionsJobs(platform, settings, ws, scope, changed, versions[..k]);
      var own := VersionJobs(platform, settings, ws, scope, changed, versions[k]);
      var after := VersionsJobs(platform, settings, ws, scope, changed, versions[k + 1..]);
      && before.Ok? && own.Ok? && after.Ok?
      && VersionsJobs(platform, settings, ws, scope, changed, versions).value == before.value + own.value + after.value
  {
    ConcatStepsAt(VersionStep(platform, settings, ws, scope, changed), versions, k);
  }

  /** The versions of a config.yml are walked in order: the jobs of two
      consecutive runs of entries are the jobs of the first run followed by
      those of the second, and a failure in the first run is the result. */
  lemma VersionsJobsAppend(platform: Platform, settings: Settings, ws: Workspace, scope: Scope,
                           changed: set<string>, a: seq<VersionEntry>, b: seq<VersionEntry>)
    ensures var ra := VersionsJobs(platform, settings, ws, scope, changed, a);
      var rb := VersionsJobs(platform, settings, ws, scope, changed, b);
      var rab := VersionsJobs(platform, settings, ws, scope, changed, a + b);
      && (ra.Err? ==> rab == ra)
      && (ra.Ok? ==> (rab.Ok? <==> rb.Ok?))
      && (ra.Ok? && rb.Ok? ==> rab == Ok(ra.value + rb.value))
  {
    ConcatStepsAppend(VersionStep(platform, settings, ws, scope, changed), a, b);
  }

  // ---------------------------------------------------------------------
  // Layouts

  /** The index layout: each directory under `recipes/` is parsed with the
      path filter `recipes/<name>/` and shown under the name that remains
      once `recipes/` is removed from its path. */
  function IndexScope(name: string): Scope {
    var folder := "recipes/" + name;
    Scope(folder, folder + "/", RemoveAll(folder, "recipes/"))
  }

  /** The jobs of the index layout, recipe after recipe in scan order; the
      first failing recipe aborts. */
  function RecipesJobs(platform: Platform, settings: Settings, ws: Workspace, recipes: seq<Recipe>): Result<seq<Job>>
  {
    Concat(RecipeSteps(platform, settings, ws, recipes))
  }

  /** The outcome of each recipe directory on its own. */
  function RecipeSteps(platform: Platform, settings: Settings, ws: Workspace, recipes: seq<Recipe>): seq<Result<seq<Job>>>
  {
    Steps(RecipeStep(platform, settings, ws), recipes)
  }

  /** One recipe directory of the index as a step of the walk over
      `recipes/`. */
  function RecipeStep(platform: Platform, settings: Settings, ws: Workspace): Recipe -> Result<seq<Job>>
  {
    (rc: Recipe) => ParseRecipeDirectory(platform, settings, ws, IndexScope(rc.name), rc.versions)
  }

  /** `_parse_standalone_recipe`: the full base matrix of the working
      directory once per source version, in the order of conandata.yml. */
  function StandaloneJobs(platform: Platform, settings: Settings, ws: Workspace, sources: seq<string>): Result<seq<Job>>
  {
    Concat(Steps(SourceStep(platform, settings, ws), sources))
  }

  /** One source version as a step of the standalone walk. */
  function SourceStep(platform: Platform, settings: Settings, ws: Workspace): string -> Result<seq<Job>>
  {
    (source: string) => SourceJobs(platform, settings, ws, source)
  }

  /** The jobs of one source version of a standalone recipe. The working
      directory is removed from itself to give each job's `cwd`. */
  function SourceJobs(platform: Platform, settings: Settings, ws: Workspace, source: string): Result<seq<Job>>
  {
    var base :- BaseConfig(platform, settings, ws.RepositoryProbes(), "full", "", ws.classify(ws.cwd));
    Ok(Annotate(base, RemoveAll(ws.cwd, ws.cwd), source + " ", source))
  }

  /** The jobs of the whole repository, by layout. */
  function Assemble(platform: Platform, settings: Settings, ws: Workspace): Result<seq<Job>> {
    match ws.structure
    case OneRecipeOneVersion =>
      var base :- BaseConfig(platform, settings, ws.RepositoryProbes(), "full", "", ws.classify("."));
      Ok(Annotate(base, "./", "", ws.fixedVersion))
    case OneRecipeManyVersions =>
      ParseRecipeDirectory(platform, settings, ws, Scope(ws.cwd, "", ""), ws.versions)
    case ConanCenterIndex =>
      RecipesJobs(platform, settings, ws, ws.recipes)
    case StandaloneManyVersions =>
      StandaloneJobs(platform, settings, ws, ws.sources)
    case Unrecognised =>
      Ok([])
  }

  /** A directory entry under `recipes/` is shown under its own name, and
      its jobs are named `<name>/<version> <compiler>`. */
  lemma IndexDisplayName(name: string, version: string)
    requires forall k :: 0 <= k < |name| ==> name[k] != '/'
    ensures IndexScope(name).display == name
    ensures NamePrefix(IndexScope(name), version) == name + "/" + version + " "
  {
    assert "recipes/"[7] == '/';
    AbsentChar(name, "recipes/", 7);
    RemoveAllPrefix("recipes/", name);
  }

  /** Every job of the index layout comes from a selected version of one of
      the recipes, and runs in that version's folder below the recipe. */
  lemma RecipesJobsOrigin(platform: Platform, settings: Settings, ws: Workspace, recipes: seq<Recipe>)
    requires RecipesJobs(platform, settings, ws, recipes).Ok?
    ensures forall j :: j in RecipesJobs(platform, settings, ws, recipes).value ==>
      exists i :: 0 <= i < |recipes| && RecipeBuilt(j, ws, recipes[i])
  {
    var steps := RecipeSteps(platform, settings, ws, recipes);
    ConcatOk(steps);
    forall j: Job | j in Concat(steps).value
      ensures exists i :: 0 <= i < |recipes| && RecipeBuilt(j, ws, recipes[i])
    {
      var i :| 0 <= i < |steps| && steps[i].Ok? && j in steps[i].value;
      var scope := IndexScope(recipes[i].name);
      VersionsJobsOrigin(platform, settings, ws, scope, ChangedDirectories(ws.git, scope.filter), recipes[i].versions);
      assert RecipeBuilt(j, ws, recipes[i]);
    }
  }

  /** When the index walk succeeds, every recipe contributes all of its own
      jobs, in scan order: the jobs of the recipes before it, then its own,
      then those of the recipes after it. */
  lemma RecipesJobsAt(platform: Platform, settings: Settings, ws: Workspace, recipes: seq<Recipe>, k: nat)
    requires k < |recipes|
    requires RecipesJobs(platform, settings, ws, recipes).Ok?
    ensures var before := RecipesJobs(platform, settings, ws, recipes[..k]);
      var own := ParseRecipeDirectory(platform, settings, ws, IndexScope(recipes[k].name), recipes[k].versions);
      var after := RecipesJobs(platform, settings, ws, recipes[k + 1..]);
      && before.Ok? && own.Ok? && after.Ok?
      && RecipesJobs(platform, settings, ws, recipes).value == before.value + own.value + after.value
  {
    ConcatStepsAt(RecipeStep(platform, settings, ws), recipes, k);
  }

  /** `j` was produced for one of the versions of the index recipe `rc`,
      chosen by the paths changed below `recipes/<name>/`. */
  predicate RecipeBuilt(j: Job, ws: Workspace, rc: Recipe) {
    var filter := "recipes/" + rc.name + "/";
    exists k :: 0 <= k < |rc.versions| && BuiltFrom(j, ws.ciVersion, ChangedDirectories(ws.git, filter), filter, rc.versions[k])
  }

  /** The standalone layout in order: block `i` of its jobs is the base
      matrix of the working directory stamped with the `i`-th source version
      of conandata.yml, as name prefix and recipe version, and the empty
      working directory; nothing else in the jobs changes. */
  lemma StandaloneJobsBlocks(platform: Platform, settings: Settings, ws: Workspace, sources: seq<string>)
    requires BaseConfig(platform, settings, ws.RepositoryProbes(), "full", "", ws.classify(ws.cwd)).Ok?
    ensures var base := BaseConfig(platform, settings, ws.RepositoryProbes(), "full", "", ws.classify(ws.cwd)).value;
      var r := StandaloneJobs(platform, settings, ws, sources);
      && r.Ok? && |r.value| == |sources| * |base|
      && forall i :: 0 <= i < |sources| ==>
           Block(r.value, |base|, i) == Annotate(base, "", sources[i] + " ", sources[i])
  {
    var base := BaseConfig(platform, settings, ws.RepositoryProbes(), "full", "", ws.classify(ws.cwd)).value;
    var steps := Steps(SourceStep(platform, settings, ws), sources);
    assert StandaloneJobs(platform, settings, ws, sources) == Concat(steps);
    RemoveAllSelf(ws.cwd);
    ConcatUniform(steps, |base|);
    forall i | 0 <= i < |sources|
      ensures Block(Concat(steps).value, |base|, i) == Annotate(base, "", sources[i] + " ", sources[i])
    {
      ConcatUniformBlock(steps, |base|, i);
    }
  }

  /** The standalone layout repeats the base matrix of the working
      directory for every source version: it fails only when that matrix
      does, yields one copy of it per version, and every job carries one of
      the versions, in its name too, and an empty working directory. */
  lemma StandaloneJobsShape(platform: Platform, settings: Settings, ws: Workspace, sources: seq<string>)
    ensures var base := BaseConfig(platform, settings, ws.RepositoryProbes(), "full", "", ws.classify(ws.cwd));
      var r := StandaloneJobs(platform, settings, ws, sources);
      && (r.Ok? <==> |sources| == 0 || base.Ok?)
      && (base.Ok? ==> |r.value| == |sources| * |base.value|)
      && (r.Ok? ==> forall j :: j in r.value ==>
            && j.cwd == Some("")
            && exists i :: 0 <= i < |sources| && j.recipeVersion == Some(sources[i]) && sources[i] + " " <= j.name)
  {
    var base := BaseConfig(platform, settings, ws.RepositoryProbes(), "full", "", ws.classify(ws.cwd));
    var steps := Steps(SourceStep(platform, settings, ws), sources);
    ConcatOk(steps);
    if base.Ok? {
      ConcatUniform(steps, |base.value|);
    } else if |sources| > 0 {
      assert !steps[0].Ok?;
    }
    if Concat(steps).Ok? {
      forall j: Job | j in Concat(steps).value
        ensures && j.cwd == Some("")
                && exists i :: 0 <= i < |sources| && j.recipeVersion == Some(sources[i]) && sources[i] + " " <= j.name
      {
        var i :| 0 <= i < |steps| && steps[i].Ok? && j in steps[i].value;
        SourceJobsStamp(platform, settings, ws, sources[i]);
      }
    }
  }

  /** Every job of one source version runs in the empty working directory
      and carries the version, in its name too. */
  lemma SourceJobsStamp(platform: Platform, settings: Settings, ws: Workspace, source: string)
    ensures var r := SourceJobs(platform, settings, ws, source);
      r.Ok? ==> forall j :: j in r.value ==> j.cwd == Some("") && j.recipeVersion == Some(source) && source + " " <= j.name
  {
    RemoveAllSelf(ws.cwd);
  }

  /** The single-recipe layout is the base matrix of the repository root,
      each job unchanged except that it runs in `./` and carries the
      version fixed in the recipe. */
  lemma SingleRecipeJobs(platform: Platform, settings: Settings, ws: Workspace)
    requires ws.structure == OneRecipeOneVersion
    ensures var base := BaseConfig(platform, settings, ws.RepositoryProbes(), "full", "", ws.classify("."));
      var r := Assemble(platform, settings, ws);
      && (r.Ok? <==> base.Ok?)
      && (r.Ok? ==> |r.value| == |base.value|
                    && forall i :: 0 <= i < |base.value| ==>
                         r.value[i] == base.value[i].(cwd := Some("./"), recipeVersion := Some(ws.fixedVersion)))
  {
    var base := BaseConfig(platform, settings, ws.RepositoryProbes(), "full", "", ws.classify("."));
    if base.Ok? {
      var r := Assemble(platform, settings, ws).value;
      forall i | 0 <= i < |base.value|
        ensures r[i] == base.value[i].(cwd := Some("./"), recipeVersion := Some(ws.fixedVersion))
      {
        assert r[i].name == "" + base.value[i].name;
        assert "" + base.value[i].name == base.value[i].name;
      }
    }
  }

  /** On a branch that pins a version, the config.yml layouts build that
      version only. */
  lemma PinnedVersionOnly(platform: Platform, settings: Settings, ws: Workspace)
    requires ws.ciVersion != ""
    requires ws.structure == OneRecipeManyVersions || ws.structure == ConanCenterIndex
    requires Assemble(platform, settings, ws).Ok?
    ensures forall j :: j in Assemble(platform, settings, ws).value ==> j.recipeVersion == Some(ws.ciVersion)
  {
    if ws.structure == OneRecipeManyVersions {
      var scope := Scope(ws.cwd, "", "");
      VersionsJobsOrigin(platform, settings, ws, scope, ChangedDirectories(ws.git, scope.filter), ws.versions);
    } else {
      RecipesJobsOrigin(platform, settings, ws, ws.recipes);
    }
  }

  /** Every assembled job knows its working directory and its recipe
      version, whatever the layout. */
  lemma AssembledJobsAreComplete(platform: Platform, settings: Settings, ws: Workspace)
    requires Assemble(platform, settings, ws).Ok?
    ensures forall j :: j in Assemble(platform, settings, ws).value ==> Complete(j)
  {
    match ws.structure
    case OneRecipeOneVersion =>
    case OneRecipeManyVersions =>
      var scope := Scope(ws.cwd, "", "");
      VersionsJobsOrigin(platform, settings, ws, scope, ChangedDirectories(ws.git, scope.filter), ws.versions);
    case ConanCenterIndex =>
      RecipesJobsOrigin(platform, settings, ws, ws.recipes);
    case StandaloneManyVersions =>
      StandaloneJobsShape(platform, settings, ws, ws.sources);
    case Unrecognised =>
  }

  // ---------------------------------------------------------------------
  // Rendering

  /** The Azure Pipelines map: every job stored under its name, in order, so
      that a later job replaces an earlier one of the same name. */
  function ByName(jobs: seq<Job>): seq<(string, Job)> {
    if |jobs| == 0 then []
    else
      var last := jobs[|jobs| - 1];
      Dict.Put(ByName(jobs[..|jobs| - 1]), last.name, last)
  }

  /** The names of the jobs. */
  function Names(jobs: seq<Job>): set<string> {
    set i | 0 <= i < |jobs| :: jobs[i].name
  }

  /** `j` is the last job of `jobs` with its name. */
  predicate LastOfItsName(jobs: seq<Job>, j: Job) {
    exists i :: 0 <= i < |jobs| && jobs[i] == j && forall k :: i < k < |jobs| ==> jobs[k].name != j.name
  }

  /** The names of all jobs but the last, and the last one's. */
  lemma NamesOfInit(jobs: seq<Job>)
    requires |jobs| > 0
    ensures Names(jobs) == Names(jobs[..|jobs| - 1]) + {jobs[|jobs| - 1].name}
  {
    var init := jobs[..|jobs| - 1];
    forall x | x in Names(jobs)
      ensures x in Names(init) + {jobs[|jobs| - 1].name}
    {
      var i :| 0 <= i < |jobs| && jobs[i].name == x;
      if i < |jobs| - 1 {
        assert init[i].name == x;
      }
    }
    forall x | x in Names(init)
      ensures x in Names(jobs)
    {
      var i :| 0 <= i < |init| && init[i].name == x;
      assert jobs[i].name == x;
    }
  }

  /** The Azure Pipelines map has one entry per distinct job name. */
  lemma {:induction false} ByNameKeys(jobs: seq<Job>)
    ensures Dict.DistinctKeys(ByName(jobs))
    ensures Dict.KeySet(ByName(jobs)) == Names(jobs)
    ensures |ByName(jobs)| == |Names(jobs)|
  {
    if |jobs| > 0 {
      var init := jobs[..|jobs| - 1];
      var last := jobs[|jobs| - 1];
      ByNameKeys(init);
      Dict.PutKeys(ByName(init), last.name, last);
      Dict.PutDistinct(ByName(init), last.name, last);
      NamesOfInit(jobs);
    }
    Dict.DistinctKeysCount(ByName(jobs));
  }

  /** Later jobs overwrite earlier ones: the entry under a name is the last
      job of that name. */
  lemma {:induction false} ByNameKeepsLast(jobs: seq<Job>)
    ensures forall e :: e in ByName(jobs) ==> e.1.name == e.0 && LastOfItsName(jobs, e.1)
  {
    if |jobs| > 0 {
      var init := jobs[..|jobs| - 1];
      var last := jobs[|jobs| - 1];
      var prev := ByName(init);
      var m := ByName(jobs);
      assert jobs == init + [last];
      ByNameKeepsLast(init);
      ByNameKeys(init);
      Dict.PutDistinct(prev, last.name, last);
      Dict.PutEntries(prev, last.name, last);
      forall e | e in m
        ensures e.1.name == e.0 && LastOfItsName(jobs, e.1)
      {
        if e.0 == last.name {
          Dict.SameKeySameEntry(m, e, (last.name, last));
          assert jobs[|jobs| - 1] == last;
        } else {
          LastOfItsNameExtend(init, last, e.1);
        }
      }
    }
  }

  /** A job that is the last of its name stays so when a job of another
      name follows. */
  lemma LastOfItsNameExtend(init: seq<Job>, last: Job, j: Job)
    requires LastOfItsName(init, j) && j.name != last.name
    ensures LastOfItsName(init + [last], j)
  {
    var jobs := init + [last];
    var i :| 0 <= i < |init| && init[i] == j && forall k :: i < k < |init| ==> init[k].name != j.name;
    assert jobs[i] == j;
    forall k | i < k < |jobs|
      ensures jobs[k].name != j.name
    {
      if k < |init| {
        assert jobs[k] == init[k];
      }
    }
  }

  /** Renders the jobs for the platform. */
  function Render(platform: Platform, jobs: seq<Job>): Output {
    match platform
    case Gha => GhaMatrix(jobs)
    case Azp => AzpMatrix(ByName(jobs))
  }

  /** `generate_ci_jobs`: nothing for an unsupported platform; an error
      before anything is read when the CI configuration is too old;
      otherwise the rendered jobs of the repository. */
  function GenerateCiJobs(platformArg: string, settings: Settings, ws: Workspace): (r: Result<Output>)
    ensures ParsePlatform(platformArg).None? ==> r == Ok(NoMatrix)
    ensures ParsePlatform(platformArg).Some? && !ws.compatibility.compatible ==>
      r == Err(IncompatibleConfig(platformArg, ws.compatibility.minimumVersion, ws.compatibility.currentVersion))
    ensures r.Ok? && r.value.GhaMatrix? ==> platformArg == "gha"
    ensures r.Ok? && r.value.AzpMatrix? ==> platformArg == "azp"
  {
    match ParsePlatform(platformArg)
    case None => Ok(NoMatrix)
    case Some(platform) =>
      if !ws.compatibility.compatible then
        Err(IncompatibleConfig(platformArg, ws.compatibility.minimumVersion, ws.compatibility.currentVersion))
      else
        var jobs :- Assemble(platform, settings, ws);
        Ok(Render(platform, jobs))
  }

  /** For a supported platform and a compatible configuration the tool
      succeeds exactly when assembling the jobs does; GitHub Actions gets
      the jobs as they are, in order, and Azure Pipelines one entry per
      distinct name holding the last job of that name. */
  lemma RenderedMatrix(platformArg: string, settings: Settings, ws: Workspace)
    requires ParsePlatform(platformArg).Some? && ws.compatibility.compatible
    ensures var platform := ParsePlatform(platformArg).value;
      var jobs := Assemble(platform, settings, ws);
      var r := GenerateCiJobs(platformArg, settings, ws);
      && (r.Ok? <==> jobs.Ok?)
      && (r.Ok? && platform == Gha ==> r.value == GhaMatrix(jobs.value))
      && (r.Ok? && platform == Azp ==>
            && r.value.AzpMatrix?
            && Dict.DistinctKeys(r.value.entries)
            && Dict.KeySet(r.value.entries) == Names(jobs.value)
            && forall e :: e in r.value.entries ==> e.1.name == e.0 && LastOfItsName(jobs.value, e.1))
  {
    var platform := ParsePlatform(platformArg).value;
    var jobs := Assemble(platform, settings, ws);
    if jobs.Ok? {
      ByNameKeys(jobs.value);
      ByNameKeepsLast(jobs.value);
    }
  }
}
