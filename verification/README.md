# CI job generation and environment preparation, in Dafny

This project models the two halves of the Conan package tools' CI support.

- **`generate_ci_jobs`** finds the recipe versions a CI run has to build. It works out which versions are affected by the changed paths or pinned by the branch. For each one it builds the base matrix: the catalog compilers a platform runs for a kind of recipe, optionally split into Release and Debug jobs, in the full or the minimal build set. It stamps every job with a working directory, a recipe version and a display name. The result is rendered for GitHub Actions as a list, and for Azure Pipelines as a map keyed by job name.
- **`prepare_env`** takes one such job and does four things:
  - it checks its arguments;
  - on Azure Pipelines it selects the job by name;
  - it normalises Apple-Clang versions;
  - it derives the Docker image, the ordered environment-variable assignments and the Xcode installation to switch to.

Modules:

- `Jobs` (`jobs.dfy`): the shared vocabulary. It holds the option and result types, the errors the tools raise, the platform, and the job descriptor. It also has `Concat`, the "run steps in order, first failure wins" combinator every traversal uses.
- `Text` (`text.dfy`): the Python string and path operations involved, written out over `seq<char>`. These are `in`, `str.replace`, `posixpath.dirname`, `posixpath.join` and the integer part of a version.
- `Dict` (`dict.dfy`): an insertion-ordered dictionary as a sequence of entries, with `d[k] = v` and `d.get(k)`.
- `Catalog` (`catalog.dfy`): the compiler catalog and its lookup by id.
- `BaseMatrix` (`base_matrix.dfy`): `_get_base_config` and the repository probes it consults.
- `Generate` (`generate.dfy`): `generate_ci_jobs` and its nested helpers. These are the changed-directory detection, the config.yml walk, the standalone walk, the layout dispatch and the rendering.
- `PrepareEnv` (`prepare_env.dfy`): `prepare_env` up to the point where it would start emitting commands.
- `JobContract` (`job_contract.dfy`): what connects the two. Every emitted job can be prepared; Azure Pipelines selection by name finds the emitted job; and the Xcode mapping matches the fixed Azure Pipelines macOS jobs.

Everything the code reads from outside arrives as a value instead. That covers git, YAML files, the directory scan, autodetection, the CI version, the compatibility check, file-content probes and environment switches. It is gathered in `Generate.Workspace` and `BaseMatrix.Settings`. The workspace holds the file-content oracle `fileContains` and the autodetection `classify` as functions, and the probe answers are derived from `fileContains` by `BaseMatrix.ProbeRepository`.

## Model

| member | source | states |
|---|---|---|
| `Jobs.ParsePlatform` | bincrafters/generate_ci_jobs.py:167-168 | exactly `gha` and `azp` are platforms; every other argument is unsupported |
| `Jobs.ConcatAppend` | bincrafters/generate_ci_jobs.py:211-238 | steps run in two batches: a failure in the first batch is the result, otherwise it succeeds exactly when the second does, with the outputs in batch order |
| `Jobs.ConcatOk` | bincrafters/generate_ci_jobs.py:271-276 | a run of steps succeeds exactly when every step does, and every output comes from a successful step |
| `Jobs.ConcatUniform` | bincrafters/generate_ci_jobs.py:243-255 | steps that each yield n outputs yield n per step in total |
| `Jobs.ConcatSplitAt` | bincrafters/generate_ci_jobs.py:211-238 | in a successful run, step k contributes all of its outputs in place: after those of the steps before it and before those of the steps after it |
| `Jobs.ConcatUniformBlock` | bincrafters/generate_ci_jobs.py:243-255 | when every step yields n outputs, block i of the result, positions i·n to (i+1)·n, is exactly the outputs of step i |
| `Jobs.StepsAppend` | bincrafters/generate_ci_jobs.py:211 | the per-input outcomes of two runs of inputs are those of the first run followed by those of the second |
| `Jobs.ConcatStepsAppend` | bincrafters/generate_ci_jobs.py:211-238 | a loop over two runs of inputs: a failure in the first run is the result, otherwise it succeeds exactly when the second run does, with the outputs in run order |
| `Jobs.ConcatStepsAt` | bincrafters/generate_ci_jobs.py:211-238 | a successful loop yields the outputs for the inputs before input k, then those of input k, then those of the inputs after it |
| `Text.RemoveAllPrefix` | bincrafters/generate_ci_jobs.py:200 | removing a path filter from a path that starts with it, and holds it nowhere else, leaves exactly the rest of the path |
| `Text.RemoveAllSelf` | bincrafters/generate_ci_jobs.py:252 | removing the working directory from itself leaves the empty text |
| `Text.DirnameOfChild` | bincrafters/generate_ci_jobs.py:203 | the directory name of `folder/leaf` is `folder` |
| `Text.Join` | bincrafters/generate_ci_jobs.py:221 | an absolute second component replaces the first; otherwise the first is a prefix of the result, which ends with the second |
| `Text.RemoveChar` | bincrafters/prepare_env.py:63 | the result holds no dot and keeps every other character of the version; a version without a dot is unchanged |
| `Text.RemoveCharAppend` | bincrafters/prepare_env.py:63 | removal keeps the order of what stays: the result for `a + b` is the result for `a` followed by that for `b`, and a single character is dropped exactly when it is the dot |
| `Text.MajorOfDottedVersion` | bincrafters/prepare_env.py:64 | the integer part of `whole.fraction` is read from `whole` alone |
| `Catalog.Lookup` | bincrafters/generate_ci_jobs.py:43-67 | catalog profiles carry no build type, working directory or recipe version; a profile names a Docker image exactly when it runs on the Linux host |
| `Catalog.GetConfigsFromSpec` | bincrafters/generate_ci_jobs.py:70-74 | looking up a suffix of the ids yields one profile per id, in order, or fails naming the first unknown id |
| `Catalog.GetConfigsSpec` | bincrafters/generate_ci_jobs.py:70-74 | the lookup succeeds exactly when every id is known; it then yields each id's profile in the order asked, and otherwise fails with the first unknown id |
| `Catalog.GetConfigsOf` | bincrafters/generate_ci_jobs.py:70-74 | ids whose profiles are given one by one look up to exactly that list |
| `Catalog.GetConfigsAppend` | bincrafters/generate_ci_jobs.py:110-116 | looking up two id lists and concatenating the results is looking up the concatenated list |
| `BaseMatrix.ProbeRepository` | bincrafters/generate_ci_jobs.py:13-37 | macOS jobs leave GitHub Actions exactly when `azure-pipelines.yml` uses the shared templates; Windows jobs stay exactly when macOS jobs do and AppVeyor does not install the tools; a workflow exists exactly when `conan.yml` names the tools in both spellings |
| `BaseMatrix.ProbesReachable` | bincrafters/generate_ci_jobs.py:21-37 | a repository can produce exactly the probe answers in which Windows jobs stay on GitHub Actions only together with macOS jobs |
| `BaseMatrix.InstallerLookupFailsAsWritten` | bincrafters/generate_ci_jobs.py:94-96 | as written, every installer recipe on GitHub Actions fails with an unknown-config error for `win-xcode-13`, whatever the probes |
| `BaseMatrix.SubsetsAgreeOutsideGhaInstallers` | bincrafters/generate_ci_jobs.py:91-133 | the corrected selection agrees with the written one everywhere except the GitHub Actions installer branch |
| `BaseMatrix.InstallerSubsetCorrected` | bincrafters/generate_ci_jobs.py:94-96 | corrected, an installer builds GCC 11 on Linux, Apple-Clang 13 and Visual Studio 2022, with minimal set equal to full set |
| `BaseMatrix.HeaderOnlySubsets` | bincrafters/generate_ci_jobs.py:97-99 | a header-only recipe builds Clang 12 on Linux and Visual Studio 2022, with minimal set equal to full set |
| `BaseMatrix.GccProfiles` | bincrafters/generate_ci_jobs.py:103-104 | GCC 8 to 12 on the Linux host, in that order |
| `BaseMatrix.ClangOlderProfiles` | bincrafters/generate_ci_jobs.py:105-106 | Clang 7 to 11 on the Linux host, in that order |
| `BaseMatrix.ClangNewerProfiles` | bincrafters/generate_ci_jobs.py:106-108 | Clang 12 to 16 on the Linux host, in that order |
| `BaseMatrix.LinuxProfiles` | bincrafters/generate_ci_jobs.py:100-108 | the Linux lookup yields fifteen jobs: GCC 8 to 12, then Clang 7 to 16 |
| `BaseMatrix.MacosProfiles` | bincrafters/generate_ci_jobs.py:110-112 | Apple-Clang 11 to 14 in order, the newest on macOS 12 |
| `BaseMatrix.WindowsProfiles` | bincrafters/generate_ci_jobs.py:114-115 | Visual Studio 2019 then 2022 |
| `BaseMatrix.LinuxMinimalProfiles` | bincrafters/generate_ci_jobs.py:109 | the minimal Linux jobs are GCC 12 and Clang 16, taken from the full list |
| `BaseMatrix.HostedMinimalProfiles` | bincrafters/generate_ci_jobs.py:113-116 | the minimal macOS job is the newest Apple-Clang and the minimal Windows job the newest Visual Studio, both from the full lists |
| `BaseMatrix.GhaOrdinarySubsets` | bincrafters/generate_ci_jobs.py:100-116 | any other recipe on GitHub Actions: the full list's length and, at each position, the compiler, major version and host (GCC 8 to 12, Clang 7 to 16, then Apple-Clang 11 to 14 and Visual Studio 2019 and 2022 exactly when their probes allow); the minimal list exactly, as entries of the full list |
| `BaseMatrix.AzpFixedProfiles` | bincrafters/generate_ci_jobs.py:121-133 | the fixed Azure Pipelines list is Apple-Clang 10 to 12 on macOS 10.15, then Visual Studio 2017, 2019, 2022; the minimal list is its second and fifth job |
| `BaseMatrix.AzpSubsets` | bincrafters/generate_ci_jobs.py:117-133 | Azure Pipelines builds nothing for installer, header-only or full-matrix recipes once a GitHub Actions workflow exists, otherwise the fixed lists |
| `BaseMatrix.MinimalWithinFull` | bincrafters/generate_ci_jobs.py:91-133 | on every platform and recipe type, each minimal job is also a full job |
| `BaseMatrix.SplitByBuildType` | bincrafters/generate_ci_jobs.py:144-156 | the split doubles the jobs; entry 2i is job i as Release and 2i+1 as Debug, the two differing only in name and build type |
| `BaseMatrix.RestoreRelease` | bincrafters/generate_ci_jobs.py:151-153 | the Release copy of a job, with its suffix and build type taken off, is the job |
| `BaseMatrix.UnsplitSplit` | bincrafters/generate_ci_jobs.py:144-156 | the split loses nothing: untyped jobs are recovered from the split list |
| `BaseMatrix.BaseConfig` | bincrafters/generate_ci_jobs.py:76-163 | the base matrix, built on the corrected installer ids, fails exactly when the subset lookup fails; a build value other than full or minimal gives no jobs |
| `BaseMatrix.BaseConfigAsWritten` | bincrafters/generate_ci_jobs.py:76-96 | as written, every recipe that resolves to an installer fails on GitHub Actions with the unknown `win-xcode-13`, whatever the build set, split or probes, where the corrected matrix succeeds; on every other input the two agree |
| `BaseMatrix.BuildSetChoice` | bincrafters/generate_ci_jobs.py:158-163 | without the split, `full` returns the full subset and `minimal` the minimal subset |
| `BaseMatrix.SplitDoublesBaseConfig` | bincrafters/generate_ci_jobs.py:144-163 | with the split, any build set has twice the jobs, as Release/Debug pairs in the unsplit order, and fails exactly when the unsplit one does |
| `BaseMatrix.UntypedRecipeResolution` | bincrafters/generate_ci_jobs.py:77-86 | without an explicit recipe type, the detected type is used when duplicates are discarded; otherwise the full-matrix type, regardless of what was detected |
| `Generate.FilterPathsSpec` | bincrafters/generate_ci_jobs.py:196-200 | a path survives the filter exactly when some changed path contains the filter and becomes it once the filter is removed |
| `Generate.ChangedDirectoriesSpec` | bincrafters/generate_ci_jobs.py:182-205 | a directory is reported exactly when some changed path, filtered if a filter is given, has it as its directory name; the default-branch diff counts only off the default branch |
| `Generate.TouchedFolderIsChanged` | bincrafters/generate_ci_jobs.py:196-205 | a changed file `<filter><folder>/<leaf>` marks `folder` as changed |
| `Generate.Selected` | bincrafters/generate_ci_jobs.py:216-217 | a version is built iff its folder changed on an unversioned branch, or the branch pins it; a missing folder on an unversioned branch is a key error |
| `Generate.Annotate` | bincrafters/generate_ci_jobs.py:229-238 | one job per base job, in order, each with the prefixed name, the working directory and the recipe version, and nothing else changed |
| `Generate.VersionJobs` | bincrafters/generate_ci_jobs.py:211-238 | an unselected entry, or a selected one whose build value is `none`, contributes no jobs; jobs come only from a selected entry with a full or minimal build value and a folder; another build value is a ValueError; a missing folder is a key error; every job carries the version, its folder and the name prefix |
| `Generate.SelectedVersionGetsBaseMatrix` | bincrafters/generate_ci_jobs.py:218-238 | a selected full or minimal entry yields its base matrix stamped with its folder below the filter, its name prefix and its version, or the base matrix's error |
| `Generate.VersionsJobsOrigin` | bincrafters/generate_ci_jobs.py:207-238 | every job of a recipe directory comes from one of its selected entries and carries that entry's version and folder |
| `Generate.VersionsJobsAppend` | bincrafters/generate_ci_jobs.py:211 | versions are walked in file order: the jobs of two runs of entries are concatenated, and a failure in the first run is the result |
| `Generate.VersionsJobsAt` | bincrafters/generate_ci_jobs.py:211-238 | when a recipe directory succeeds, every entry contributes all of its own jobs in place: after the entries before it and before the entries after it |
| `Generate.IndexDisplayName` | bincrafters/generate_ci_jobs.py:270-276 | a recipe directory is shown under its own name, and its jobs are named `<name>/<version> <compiler>` |
| `Generate.RecipesJobsAt` | bincrafters/generate_ci_jobs.py:269-276 | when the index layout succeeds, every recipe contributes all of its own jobs, in scan order |
| `Generate.RecipesJobsOrigin` | bincrafters/generate_ci_jobs.py:269-276 | every job of the index layout comes from a selected version of one recipe and runs in that version's folder below `recipes/<name>/` |
| `Generate.StandaloneJobsBlocks` | bincrafters/generate_ci_jobs.py:240-255 | block i of the standalone jobs is the base matrix stamped with the i-th source version, as name prefix and recipe version, and the empty working directory, in conandata.yml order and with nothing else changed |
| `Generate.StandaloneJobsShape` | bincrafters/generate_ci_jobs.py:240-255 | the standalone layout fails only with the base matrix, has one base matrix's worth of jobs per source version, and every job carries a source version in its name and version, with an empty working directory |
| `Generate.SourceJobsStamp` | bincrafters/generate_ci_jobs.py:243-255 | every job of one source version runs in the empty working directory and carries that version, in its name too |
| `Generate.SingleRecipeJobs` | bincrafters/generate_ci_jobs.py:257-264 | the single-recipe layout is the root's base matrix, each job unchanged except that it runs in `./` with the fixed version |
| `Generate.PinnedVersionOnly` | bincrafters/generate_ci_jobs.py:213-217 | on a branch that pins a version, the config.yml layouts build only that version |
| `Generate.AssembledJobsAreComplete` | bincrafters/generate_ci_jobs.py:257-279 | every assembled job, in any layout, has a working directory and a recipe version |
| `Generate.ByNameKeys` | bincrafters/generate_ci_jobs.py:288-290 | the Azure Pipelines map has distinct keys, exactly the job names, and one entry per distinct name |
| `Generate.ByNameKeepsLast` | bincrafters/generate_ci_jobs.py:288-290 | each map entry is keyed by its job's name and holds the last job of that name |
| `Generate.GenerateCiJobs` | bincrafters/generate_ci_jobs.py:166-179 | an unsupported platform gives no matrix; an incompatible configuration fails before anything is read; the output kind follows the platform |
| `Generate.RenderedMatrix` | bincrafters/generate_ci_jobs.py:283-291 | for a supported, compatible platform the tool succeeds iff assembly does; GitHub Actions gets the jobs in order, Azure Pipelines one entry per distinct name holding the last job of that name |
| `Dict.PutKeys` | bincrafters/generate_ci_jobs.py:290 | storing adds the key to the keys, and a new key goes at the end |
| `Dict.PutEntries` | bincrafters/generate_ci_jobs.py:290 | after storing, the new entry is present and entries under other keys are neither lost nor invented |
| `Dict.PutDistinct` | bincrafters/generate_ci_jobs.py:290 | storing keeps keys distinct |
| `Dict.DistinctKeysCount` | bincrafters/generate_ci_jobs.py:288-291 | with distinct keys, there are as many entries as keys |
| `Dict.GetSpec` | bincrafters/prepare_env.py:19-20 | a key is found exactly when it is a key, and what is found is one of its entries |
| `Dict.GetEntry` | bincrafters/prepare_env.py:19-20 | with distinct keys, the value found under a key is the one its entry holds |
| `Dict.GetPut` | bincrafters/generate_ci_jobs.py:290 | after `d[k] = v`, reading `k` gives `v` and every other key its old value |
| `PrepareEnv.SelectJob` | bincrafters/prepare_env.py:19-20 | a non-empty selection succeeds on a table exactly when it is a key, returning that entry's job, and always fails on a single job; otherwise the descriptor must be a single job, which is used as it is |
| `PrepareEnv.NormaliseVersion` | bincrafters/prepare_env.py:54-56 | other compilers and dotted versions are unchanged; an undotted Apple-Clang version gets exactly `.0` appended, so an Apple-Clang result always holds a dot |
| `PrepareEnv.NormaliseIdempotent` | bincrafters/prepare_env.py:54-56 | normalising twice is normalising once |
| `PrepareEnv.NormaliseKeepsMajor` | bincrafters/prepare_env.py:54-56 | a whole-number Apple-Clang version keeps its integer value |
| `PrepareEnv.DockerImageSpec` | bincrafters/prepare_env.py:60-69 | a named image is kept, and so is any image of a compiler other than GCC and Clang; a derived one is `conanio/<family><dotless version>`, followed by `-ubuntu16.04` exactly for GCC from 11 and Clang from 12 and by nothing else |
| `PrepareEnv.DerivedStemHasNoDot` | bincrafters/prepare_env.py:62-69 | the derived image without its suffix holds no dot |
| `PrepareEnv.DockerImageExamples` | bincrafters/prepare_env.py:60-69 | GCC 11 gets `conanio/gcc11-ubuntu16.04`, GCC 10 `conanio/gcc10`, and a job that names its image keeps it |
| `PrepareEnv.XcodePath` | bincrafters/prepare_env.py:75-86 | an Xcode switch happens exactly for Apple-Clang versions 9.1, 10.0, 11.0 and 12.0, which switch to Xcode 9.4.1, 10.3, 11.5 and 12.4 respectively |
| `PrepareEnv.Derive` | bincrafters/prepare_env.py:45-73 | preparation succeeds exactly for a job with a working directory and a recipe version; a missing one is a key error, the working directory first |
| `PrepareEnv.Prepare` | bincrafters/prepare_env.py:12-20 | an unsupported platform and a selection outside Azure Pipelines are refused; success implies both checks passed |
| `PrepareEnv.ChecksComeFirst` | bincrafters/prepare_env.py:13-17 | when an argument check fails, the outcome is an error and does not depend on the descriptor |
| `PrepareEnv.PrepareSelected` | bincrafters/prepare_env.py:12-20 | a complete job is prepared from itself on either platform, or from its entry when selected by name on Azure Pipelines, and that succeeds |
| `PrepareEnv.AssignmentsSpec` | bincrafters/prepare_env.py:50-86 | the exact count and order of assignments: working directory, recipe version, pull switch and compiler version first, then the image for GCC and Clang, then a non-empty build type; the prepared image and Xcode path are those derived from the normalised version |
| `PrepareEnv.OptionalAssignments` | bincrafters/prepare_env.py:60-73 | the image variable is set exactly for GCC and Clang, and the build-type variable exactly for a non-empty build type |
| `PrepareEnv.AssignmentsDistinct` | bincrafters/prepare_env.py:50-73 | no variable is set twice |
| `PrepareEnv.VersionVariableIsNew` | bincrafters/prepare_env.py:58 | `CONAN_<COMPILER>_VERSIONS` never coincides with another variable the preparer sets |
| `PrepareEnv.AppleClang11` | bincrafters/prepare_env.py:54-86 | Apple-Clang `11` is exported as `11.0` and switches to Xcode 11.5 |
| `JobContract.GhaJobsPrepare` | bincrafters/prepare_env.py:45-51 | every job of a GitHub Actions matrix is prepared from itself, and successfully |
| `JobContract.AzpJobsPrepare` | bincrafters/prepare_env.py:19-20 | selecting an Azure Pipelines job by its non-empty name prepares the job stored under it, and successfully |
| `JobContract.AzpAppleClangXcode` | bincrafters/prepare_env.py:77-83 | the fixed Azure Pipelines Apple-Clang jobs switch to Xcode 10.3, 11.5 and 12.4 |
| `JobContract.GhaAppleClangKeepsDefaultXcode` | bincrafters/prepare_env.py:83 | the GitHub Actions Apple-Clang jobs name versions outside the Xcode mapping, so they never switch |

## Left out

- Environment reads are not modelled. The split switch and the duplicate-discard switch are explicit `Settings`, and the tool's defaults are not modelled.
- Git, YAML, the directory scan, autodetection, `get_version_from_ci`, `get_conan_vars` and the compatibility check are not modelled either. They are inputs in `Workspace`; the repository-file checks are answered by its `fileContains` function.
- `build_autodetect.py` is not part of this model.
- Python heap aliasing is not modelled: the model uses value semantics. In the source, `_get_configs` returns the catalog's own dictionaries. The Release/Debug split then renames the even entries in place. The full and minimal sets share entries, so a shared entry, or the catalog across calls, can pick up repeated ` Release` suffixes.
- Serialisation is not modelled: the outputs are the list and the ordered map, not `json.dumps` text or its key order.
- Emission is not modelled: shell commands, Docker commands, PowerShell, `GITHUB_ENV` and `##vso` output.
- `PrepareEnv.UsesModernImage` compares the integer part of the version in place of `float(version)`. The two agree for `digits[.digits]` versions. A version `float` rejects is not an error in the model.
- `PrepareEnv.Derive` returns only the error when `recipe_version` is missing. The source sets `BPT_CWD` before failing, and that earlier assignment is not modelled.
- `PrepareEnv.SelectJob`: a job table given without a selection fails as a missing `compiler` key. The case of a table that has a job named `compiler` is not modelled.
- `Generate.Workspace` carries the config.yml versions as text. YAML keys that load as numbers are not modelled.
- `Generate.StandaloneJobs`: the source computes each job's `cwd` as the working directory with itself removed. That is always the empty text, not a path relative to the root, and the model follows the code.
- `BaseMatrix.LinuxIds` is one lookup of fifteen ids in the source. The model writes it as three concatenated lists to keep the proofs small. `Catalog.GetConfigsAppend` shows that this gives the same result.
- `BaseMatrix.BaseConfig`, and through it every layout of `Generate`, uses the corrected installer ids (`macos-xcode-13`), not the `win-xcode-13` the source asks for. As written, `generate_ci_jobs` on GitHub Actions fails with a KeyError for every recipe whose type resolves to `installer`. The model shows that failure once, at the base-matrix level, in `BaseMatrix.BaseConfigAsWritten`; the layouts are not restated over the as-written ids.
- The `recipe_type` argument of `generate_ci_jobs` is not modelled. The source never passes it on, so every base matrix is built with an empty recipe type.

## Findings

| source | as written | input that shows it | evidently intended | confidence | as-written member | corrected member |
|---|---|---|---|---|---|---|
| bincrafters/generate_ci_jobs.py:95 | installer recipes on GitHub Actions ask the catalog for `win-xcode-13`, which is not a catalog id | any recipe whose type is `installer`, platform `gha` | the macOS Apple-Clang 13 job, id `macos-xcode-13` | high, not executed | `BaseMatrix.InstallerLookupFailsAsWritten` | `BaseMatrix.InstallerSubsetCorrected` |
