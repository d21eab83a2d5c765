/** `prepare_env`: checks its arguments, picks the job to run, and derives
    from it the environment variables, the Docker image and the Xcode
    installation the CI step uses. The variables are returned in the order
    they are set; the commands that export them are not modelled. */
module PrepareEnv {
  import opened Jobs
  import opened Text
  import Dict

  /** The descriptor handed to the tool: one job (a GitHub Actions matrix
      entry), or the name-keyed jobs of an Azure Pipelines matrix. */
  datatype Descriptor =
    | SingleJob(job: Job)
    | JobTable(entries: seq<(string, Job)>)

  /** One environment variable set to a value. */
  datatype Assignment = Assignment(variable: string, value: string)

  /** What the preparation yields: the variables in the order they are set,
      the Docker image the job runs in ("" for none), and the Xcode
      installation to switch to, if any. */
  datatype Environment = Environment(assignments: seq<Assignment>, dockerImage: string, xcodePath: Option<string>)

  /** The keys a job descriptor holds. */
  function JobKeys(j: Job): set<string> {
    {"name", "compiler", "version", "os"}
    + (if j.dockerImage.Some? then {"dockerImage"} else {})
    + (if j.buildType.Some? then {"buildType"} else {})
    + (if j.cwd.Some? then {"cwd"} else {})
    + (if j.recipeVersion.Some? then {"recipe_version"} else {})
  }

  /** `config[select_config]` when `select_config` is a non-empty name,
      otherwise the descriptor itself, which must then be a job. Indexing a
      single job by one of its own keys yields a text, which the first
      field read then rejects. */
  function SelectJob(d: Descriptor, select: Option<string>): (r: Result<Job>)
    ensures select.Some? && select.value != "" && d.JobTable? ==>
      (r.Ok? <==> select.value in Dict.KeySet(d.entries))
    ensures select.Some? && select.value != "" && d.SingleJob? ==> r.Err?
    ensures (select.None? || select.value == "") ==> (r.Ok? <==> d.SingleJob?)
    ensures r.Ok? && d.SingleJob? ==> r.value == d.job
    ensures r.Ok? && d.JobTable? ==> (select.value, r.value) in d.entries
  {
    if select.Some? && select.value != "" then
      match d
      case JobTable(entries) =>
        Dict.GetSpec(entries, select.value);
        (match Dict.Get(entries, select.value)
         case None => Err(MissingKey(select.value))
         case Some(j) => Ok(j))
      case SingleJob(j) =>
        if select.value in JobKeys(j) then Err(NotAJob(select.value)) else Err(MissingKey(select.value))
    else
      match d
      case SingleJob(j) => Ok(j)
      case JobTable(_) => Err(MissingKey("compiler"))
  }

  /** The compilers that run in a Linux container. */
  predicate IsContainerCompiler(compiler: string) {
    compiler == "GCC" || compiler == "CLANG"
  }

  /** Apple-Clang versions are written with a minor part: `11` becomes
      `11.0`. Every other version is kept as it is. */
  function NormaliseVersion(compiler: string, version: string): (r: string)
    ensures compiler != "APPLE_CLANG" || '.' in version ==> r == version
    ensures compiler == "APPLE_CLANG" ==> '.' in r && version <= r
    ensures compiler == "APPLE_CLANG" && '.' !in version ==> r == version + ".0"
  {
    if compiler == "APPLE_CLANG" && '.' !in version then version + ".0" else version
  }

  /** Normalising twice is normalising once. */
  lemma NormaliseIdempotent(compiler: string, version: string)
    ensures NormaliseVersion(compiler, NormaliseVersion(compiler, version)) == NormaliseVersion(compiler, version)
  {
  }

  /** A whole-number Apple-Clang version keeps its value: `n` becomes `n.0`. */
  lemma NormaliseKeepsMajor(version: string)
    requires forall k :: 0 <= k < |version| ==> IsDigit(version[k])
    ensures Major(NormaliseVersion("APPLE_CLANG", version)) == Major(version)
  {
    if '.' !in version {
      assert version + ".0" == version + "." + "0";
      MajorOfDottedVersion(version, "0", 0);
    }
  }

  /** The compilers for which a newer, Ubuntu 16.04 based image exists:
      GCC from 11 and Clang from 12. `float(v) >= n` is read through the
      integer part of `v`. */
  predicate UsesModernImage(compiler: string, version: string) {
    (compiler == "GCC" && Major(version) >= 11) || (compiler == "CLANG" && Major(version) >= 12)
  }

  /** The lower-case compiler name used in image names. */
  function ImageFamily(compiler: string): string
    requires IsContainerCompiler(compiler)
  {
    if compiler == "GCC" then "gcc" else "clang"
  }

  const ModernSuffix: string := "-ubuntu16.04"

  /** The Docker image: the one the job names, or, for a container compiler
      whose job names none, `conanio/<compiler><version without dots>`
      with the modern suffix for newer compilers. */
  function DockerImage(compiler: string, version: string, given: string): (r: string)
  {
    if IsContainerCompiler(compiler) && given == "" then
      "conanio/" + ImageFamily(compiler) + RemoveChar(version, '.') + (if UsesModernImage(compiler, version) then ModernSuffix else "")
    else given
  }

  /** A named image is kept, and so is the given one of any other compiler;
      a derived one is the family and the dotless version, followed by the
      modern suffix exactly for the newer compilers and by nothing else. */
  lemma DockerImageSpec(compiler: string, version: string, given: string)
    ensures given != "" ==> DockerImage(compiler, version, given) == given
    ensures !IsContainerCompiler(compiler) ==> DockerImage(compiler, version, given) == given
    ensures IsContainerCompiler(compiler) && given == "" ==>
      var r := DockerImage(compiler, version, given);
      var stem := "conanio/" + ImageFamily(compiler) + RemoveChar(version, '.');
      && stem <= r
      && |r| == |stem| + (if UsesModernImage(compiler, version) then |ModernSuffix| else 0)
      && (UsesModernImage(compiler, version) <==> (|r| >= |ModernSuffix| && r[|r| - |ModernSuffix|..] == ModernSuffix))
  {
    if IsContainerCompiler(compiler) && given == "" {
      var r := DockerImage(compiler, version, given);
      var stem := "conanio/" + ImageFamily(compiler) + RemoveChar(version, '.');
      if UsesModernImage(compiler, version) {
        assert r == stem + ModernSuffix;
        assert r[|r| - |ModernSuffix|..] == ModernSuffix;
      } else {
        assert r == stem;
        DerivedStemHasNoDot(compiler, version);
        if |r| >= |ModernSuffix| {
          assert r[|r| - |ModernSuffix|..][9] == r[|r| - 3];
          assert ModernSuffix[9] == '.';
        }
      }
    }
  }

  /** The derived image without its suffix holds no dot, so it cannot end
      with the modern suffix by accident. */
  lemma DerivedStemHasNoDot(compiler: string, version: string)
    requires IsContainerCompiler(compiler)
    ensures var stem := "conanio/" + ImageFamily(compiler) + RemoveChar(version, '.');
      forall k :: 0 <= k < |stem| ==> stem[k] != '.'
  {
    var family := "conanio/" + ImageFamily(compiler);
    var stem := family + RemoveChar(version, '.');
    assert forall k :: 0 <= k < |family| ==> family[k] != '.';
    forall k | |family| <= k < |stem|
      ensures stem[k] != '.'
    {
      assert stem[k] == RemoveChar(version, '.')[k - |family|];
    }
  }

  /** The Xcode installations the preparer switches to, by normalised
      Apple-Clang version. */
  const XcodeMapping: map<string, string> := map[
    "9.1" := "/Applications/Xcode_9.4.1.app",
    "10.0" := "/Applications/Xcode_10.3.app",
    "11.0" := "/Applications/Xcode_11.5.app",
    "12.0" := "/Applications/Xcode_12.4.app"]

  /** The Xcode installation for a job: only Apple-Clang versions that are
      keys of the mapping switch. */
  function XcodePath(compiler: string, version: string): (r: Option<string>)
    ensures r.Some? <==> compiler == "APPLE_CLANG" && version in {"9.1", "10.0", "11.0", "12.0"}
    ensures compiler == "APPLE_CLANG" && version == "9.1" ==> r == Some("/Applications/Xcode_9.4.1.app")
    ensures compiler == "APPLE_CLANG" && version == "10.0" ==> r == Some("/Applications/Xcode_10.3.app")
    ensures compiler == "APPLE_CLANG" && version == "11.0" ==> r == Some("/Applications/Xcode_11.5.app")
    ensures compiler == "APPLE_CLANG" && version == "12.0" ==> r == Some("/Applications/Xcode_12.4.app")
  {
    if compiler == "APPLE_CLANG" && version in XcodeMapping then Some(XcodeMapping[version]) else None
  }

  /** The environment of one job. The working directory and the recipe
      version are read with a plain key lookup, so a job without either
      stops the preparation. */
  function Derive(j: Job): (r: Result<Environment>)
    ensures r.Ok? <==> Complete(j)
    ensures j.cwd.None? ==> r == Err(MissingKey("cwd"))
    ensures j.cwd.Some? && j.recipeVersion.None? ==> r == Err(MissingKey("recipe_version"))
  {
    match j.cwd
    case None => Err(MissingKey("cwd"))
    case Some(cwd) =>
      match j.recipeVersion
      case None => Err(MissingKey("recipe_version"))
      case Some(recipeVersion) =>
        var version := NormaliseVersion(j.compiler, j.version);
        var image := DockerImage(j.compiler, version, j.dockerImage.GetOr(""));
        var buildType := j.buildType.GetOr("");
        Ok(Environment(
          [ Assignment("BPT_CWD", cwd),
            Assignment("CONAN_VERSION", recipeVersion),
            Assignment("CONAN_DOCKER_IMAGE_SKIP_PULL", "True"),
            Assignment("CONAN_" + j.compiler + "_VERSIONS", version) ]
          + (if IsContainerCompiler(j.compiler) then [Assignment("CONAN_DOCKER_IMAGE", image)] else [])
          + (if buildType != "" then [Assignment("CONAN_BUILD_TYPES", buildType)] else []),
          image,
          XcodePath(j.compiler, version)))
  }

  /** `prepare_env`: the platform and `select_config` checks, then the
      selected job's environment. */
  function Prepare(platformArg: string, d: Descriptor, select: Option<string>): (r: Result<Environment>)
    ensures ParsePlatform(platformArg).None? ==> r == Err(UnsupportedPlatform(platformArg))
    ensures platformArg == "gha" && select.Some? ==> r == Err(SelectConfigRequiresAzp)
    ensures r.Ok? ==> ParsePlatform(platformArg).Some? && (platformArg == "azp" || select.None?)
  {
    if ParsePlatform(platformArg).None? then Err(UnsupportedPlatform(platformArg))
    else if platformArg != "azp" && select.Some? then Err(SelectConfigRequiresAzp)
    else
      var j :- SelectJob(d, select);
      Derive(j)
  }

  /** The argument checks come first: when one fails, the outcome is the
      same whatever descriptor was handed in. */
  lemma ChecksComeFirst(platformArg: string, d1: Descriptor, d2: Descriptor, select: Option<string>)
    requires ParsePlatform(platformArg).None? || (platformArg != "azp" && select.Some?)
    ensures Prepare(platformArg, d1, select) == Prepare(platformArg, d2, select)
    ensures Prepare(platformArg, d1, select).Err?
  {
  }

  /** A job that carries its working directory and recipe version is
      prepared from itself on GitHub Actions, and from its entry when
      Azure Pipelines selects it by name. */
  lemma PrepareSelected(d: Descriptor, select: Option<string>, j: Job)
    requires Complete(j)
    requires (d == SingleJob(j) && select.None?)
          || (d.JobTable? && Dict.DistinctKeys(d.entries) && select.Some? && (select.value, j) in d.entries && select.value != "")
    ensures Prepare("azp", d, select) == Derive(j)
    ensures select.None? ==> Prepare("gha", d, select) == Derive(j)
    ensures Derive(j).Ok?
  {
    if d.JobTable? {
      Dict.GetEntry(d.entries, select.value, j);
    }
  }

  /** The variables in the order they are set. */
  function Variables(a: seq<Assignment>): seq<string> {
    seq(|a|, i requires 0 <= i < |a| => a[i].variable)
  }

  /** The assignments of a prepared job: the working directory, the recipe
      version, the pull switch and the compiler version come first, in that
      order; then the image for container compilers, then the build type
      when the job has a non-empty one. */
  lemma AssignmentsSpec(j: Job)
    requires Complete(j)
    ensures var env := Derive(j).value;
      var a := env.assignments;
      var buildType := j.buildType.GetOr("");
      && |a| == 4 + (if IsContainerCompiler(j.compiler) then 1 else 0) + (if buildType != "" then 1 else 0)
      && a[0] == Assignment("BPT_CWD", j.cwd.value)
      && a[1] == Assignment("CONAN_VERSION", j.recipeVersion.value)
      && a[2] == Assignment("CONAN_DOCKER_IMAGE_SKIP_PULL", "True")
      && a[3] == Assignment("CONAN_" + j.compiler + "_VERSIONS", NormaliseVersion(j.compiler, j.version))
      && (IsContainerCompiler(j.compiler) ==> a[4] == Assignment("CONAN_DOCKER_IMAGE", env.dockerImage))
      && (buildType != "" ==> a[|a| - 1] == Assignment("CONAN_BUILD_TYPES", buildType))
      && env.dockerImage == DockerImage(j.compiler, NormaliseVersion(j.compiler, j.version), j.dockerImage.GetOr(""))
      && env.xcodePath == XcodePath(j.compiler, NormaliseVersion(j.compiler, j.version))
  {
  }

  /** Derived images for concrete jobs: GCC 11 gets the modern image, GCC 10
      the older one, and a job that names its image keeps it. */
  lemma DockerImageExamples()
    ensures DockerImage("GCC", "11", "") == "conanio/gcc11-ubuntu16.04"
    ensures DockerImage("GCC", "10", "") == "conanio/gcc10"
    ensures DockerImage("GCC", "12", "teeks99/gcc-ubuntu:12") == "teeks99/gcc-ubuntu:12"
  {
    assert Major("11") == 11 && RemoveChar("11", '.') == "11";
    assert Major("10") == 10 && RemoveChar("10", '.') == "10";
    assert ImageFamily("GCC") == "gcc";
    assert "conanio/" + "gcc" + "11" + ModernSuffix == "conanio/gcc11-ubuntu16.04";
    assert "conanio/" + "gcc" + "10" + "" == "conanio/gcc10";
  }

  /** The image variable is set exactly for container compilers, and the
      build-type variable exactly for a job with a non-empty build type. */
  lemma OptionalAssignments(j: Job)
    requires Complete(j)
    ensures var a := Derive(j).value.assignments;
      && ("CONAN_DOCKER_IMAGE" in Variables(a) <==> IsContainerCompiler(j.compiler))
      && ("CONAN_BUILD_TYPES" in Variables(a) <==> j.buildType.GetOr("") != "")
  {
    var env := Derive(j).value;
    var a := env.assignments;
    var v := "CONAN_" + j.compiler + "_VERSIONS";
    VersionVariableIsNew(j.compiler);
    var head := [Assignment("BPT_CWD", j.cwd.value), Assignment("CONAN_VERSION", j.recipeVersion.value),
                 Assignment("CONAN_DOCKER_IMAGE_SKIP_PULL", "True"), Assignment(v, NormaliseVersion(j.compiler, j.version))];
    var image := if IsContainerCompiler(j.compiler) then [Assignment("CONAN_DOCKER_IMAGE", env.dockerImage)] else [];
    var buildType := j.buildType.GetOr("");
    var types := if buildType != "" then [Assignment("CONAN_BUILD_TYPES", buildType)] else [];
    assert a == head + image + types;
    assert Variables(a) == Variables(head) + Variables(image) + Variables(types);
    assert Variables(head) == ["BPT_CWD", "CONAN_VERSION", "CONAN_DOCKER_IMAGE_SKIP_PULL", v];
    assert v != "CONAN_DOCKER_IMAGE" && v != "CONAN_BUILD_TYPES";
    if IsContainerCompiler(j.compiler) {
      assert Variables(image)[0] == "CONAN_DOCKER_IMAGE";
    }
    if buildType != "" {
      assert Variables(types)[0] == "CONAN_BUILD_TYPES";
    }
  }

  /** No variable is set twice, so every value stays visible. */
  lemma AssignmentsDistinct(j: Job)
    requires Complete(j)
    ensures var a := Derive(j).value.assignments;
      forall p, q :: 0 <= p < q < |a| ==> a[p].variable != a[q].variable
  {
    var env := Derive(j).value;
    var a := env.assignments;
    var v := "CONAN_" + j.compiler + "_VERSIONS";
    VersionVariableIsNew(j.compiler);
    var names := ["BPT_CWD", "CONAN_VERSION", "CONAN_DOCKER_IMAGE_SKIP_PULL", v]
      + (if IsContainerCompiler(j.compiler) then ["CONAN_DOCKER_IMAGE"] else [])
      + (if j.buildType.GetOr("") != "" then ["CONAN_BUILD_TYPES"] else []);
    assert |names| == |a|;
    assert forall p :: 0 <= p < |a| ==> a[p].variable == names[p];
  }

  /** The compiler-version variable never collides with the fixed ones. */
  lemma VersionVariableIsNew(compiler: string)
    ensures var v := "CONAN_" + compiler + "_VERSIONS";
      v !in {"BPT_CWD", "CONAN_VERSION", "CONAN_DOCKER_IMAGE_SKIP_PULL", "CONAN_DOCKER_IMAGE", "CONAN_BUILD_TYPES"}
  {
    var v := "CONAN_" + compiler + "_VERSIONS";
    assert v[|v| - 1] == 'S' && v[|v| - 2] == 'N' && |v| >= 15;
  }

  /** `11` selects Xcode 11.5 and is exported as `11.0`. */
  lemma AppleClang11(j: Job)
    requires Complete(j) && j.compiler == "APPLE_CLANG" && j.version == "11"
    ensures Derive(j).value.xcodePath == Some("/Applications/Xcode_11.5.app")
    ensures Derive(j).value.assignments[3] == Assignment("CONAN_APPLE_CLANG_VERSIONS", "11.0")
  {
    assert '.' !in j.version;
    assert NormaliseVersion(j.compiler, j.version) == "11.0";
    AssignmentsSpec(j);
  }
}
