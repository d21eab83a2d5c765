/** The static compiler catalog of the matrix generator and its lookup by
    symbolic id. */
module Catalog {
  import opened Jobs

  /** A containerised Linux compiler. */
  function Linux(name: string, compiler: string, version: string, image: string): Job {
    Job(name, compiler, version, "ubuntu-latest", Some(image), None, None, None)
  }

  /** A compiler that runs directly on a hosted macOS or Windows image. */
  function Hosted(name: string, compiler: string, version: string, os: string): Job {
    Job(name, compiler, version, os, None, None, None, None)
  }

  /** The catalog: one profile per known id, nothing for any other text.
      Every profile is a fresh template, with no build type, working
      directory or recipe version attached yet, and it names a Docker image
      exactly when it runs on the Linux image. */
  function Lookup(id: string): (r: Option<Job>)
    ensures r.Some? ==> r.value.buildType.None? && r.value.cwd.None? && r.value.recipeVersion.None?
    ensures r.Some? ==> (r.value.dockerImage.Some? <==> r.value.os == "ubuntu-latest")
  {
    match id
    case "ubuntu-gcc-5" => Some(Linux("GCC 5", "GCC", "5", "teeks99/gcc-ubuntu:5"))
    case "ubuntu-gcc-6" => Some(Linux("GCC 6", "GCC", "6", "teeks99/gcc-ubuntu:6"))
    case "ubuntu-gcc-7" => Some(Linux("GCC 7", "GCC", "7", "teeks99/gcc-ubuntu:7"))
    case "ubuntu-gcc-8" => Some(Linux("GCC 8", "GCC", "8", "teeks99/gcc-ubuntu:8"))
    case "ubuntu-gcc-9" => Some(Linux("GCC 9", "GCC", "9", "teeks99/gcc-ubuntu:9"))
    case "ubuntu-gcc-10" => Some(Linux("GCC 10", "GCC", "10", "teeks99/gcc-ubuntu:10"))
    case "ubuntu-gcc-11" => Some(Linux("GCC 11", "GCC", "11", "teeks99/gcc-ubuntu:11"))
    case "ubuntu-gcc-12" => Some(Linux("GCC 12", "GCC", "12", "teeks99/gcc-ubuntu:12_20221001_1312"))
    case "ubuntu-clang-7" => Some(Linux("CLANG 7", "CLANG", "7", "teeks99/clang-ubuntu:7"))
    case "ubuntu-clang-8" => Some(Linux("CLANG 8", "CLANG", "8", "teeks99/clang-ubuntu:8"))
    case "ubuntu-clang-9" => Some(Linux("CLANG 9", "CLANG", "9", "teeks99/clang-ubuntu:9"))
    case "ubuntu-clang-10" => Some(Linux("CLANG 10", "CLANG", "10", "teeks99/clang-ubuntu:10"))
    case "ubuntu-clang-11" => Some(Linux("CLANG 11", "CLANG", "11", "teeks99/clang-ubuntu:11"))
    case "ubuntu-clang-12" => Some(Linux("CLANG 12", "CLANG", "12", "teeks99/clang-ubuntu:12"))
    case "ubuntu-clang-13" => Some(Linux("CLANG 13", "CLANG", "13", "teeks99/clang-ubuntu:13"))
    case "ubuntu-clang-14" => Some(Linux("CLANG 14", "CLANG", "14", "teeks99/clang-ubuntu:14"))
    case "ubuntu-clang-15" => Some(Linux("CLANG 15", "CLANG", "15", "teeks99/clang-ubuntu:15"))
    case "ubuntu-clang-16" => Some(Linux("CLANG 16", "CLANG", "16", "teeks99/clang-ubuntu:16_20221004_0023"))
    case "macos-xcode-11" => Some(Hosted("macOS Apple-Clang 11", "APPLE_CLANG", "11.7", "macOS-latest"))
    case "macos-xcode-12" => Some(Hosted("macOS Apple-Clang 12", "APPLE_CLANG", "12.5.1", "macOS-latest"))
    case "macos-xcode-13" => Some(Hosted("macOS Apple-Clang 13", "APPLE_CLANG", "13.2.1", "macOS-latest"))
    case "macos-xcode-14" => Some(Hosted("macOS Apple-Clang 14", "APPLE_CLANG", "14.0.1", "macOS-12"))
    case "win-vs-2019" => Some(Hosted("Windows VS 2019", "VISUAL", "16", "windows-2019"))
    case "win-vs-2022" => Some(Hosted("Windows VS 2022", "VISUAL", "17", "windows-2022"))
    case _ => None
  }

  /** Looks up each id in turn; the first id the catalog does not know
      aborts the lookup. */
  function GetConfigs(ids: seq<string>): Result<seq<Job>> {
    GetConfigsFrom(ids, 0)
  }

  /** The lookup of `ids[k..]`. */
  function GetConfigsFrom(ids: seq<string>, k: nat): Result<seq<Job>>
    decreases |ids| - k
  {
    if k >= |ids| then Ok([])
    else match Lookup(ids[k])
      case None => Err(UnknownConfig(ids[k]))
      case Some(profile) =>
        var rest :- GetConfigsFrom(ids, k + 1);
        Ok([profile] + rest)
  }

  /** The lookup of `ids[k..]` yields one profile per id, in order, and fails
      exactly when some id is unknown, naming the first such id. */
  lemma {:induction false} GetConfigsFromSpec(ids: seq<string>, k: nat)
    requires k <= |ids|
    ensures var r := GetConfigsFrom(ids, k);
      && (r.Ok? <==> forall i :: k <= i < |ids| ==> Lookup(ids[i]).Some?)
      && (r.Ok? ==> |r.value| == |ids| - k && forall i :: k <= i < |ids| ==> Lookup(ids[i]) == Some(r.value[i - k]))
      && (r.Err? ==> exists j :: k <= j < |ids| && Lookup(ids[j]).None? && r.error == UnknownConfig(ids[j])
                                 && forall i :: k <= i < j ==> Lookup(ids[i]).Some?)
    decreases |ids| - k
  {
    if k < |ids| && Lookup(ids[k]).Some? {
      GetConfigsFromSpec(ids, k + 1);
      var r := GetConfigsFrom(ids, k);
      var rest := GetConfigsFrom(ids, k + 1);
      if rest.Ok? {
        assert r.value == [Lookup(ids[k]).value] + rest.value;
        forall i | k <= i < |ids|
          ensures Lookup(ids[i]) == Some(r.value[i - k])
        {
          if i > k {
            assert r.value[i - k] == rest.value[i - (k + 1)];
          }
        }
      }
    }
  }

  /** The lookup yields one profile per id, in the order asked for, and
      fails exactly when some id is unknown, naming the first such id. */
  lemma GetConfigsSpec(ids: seq<string>)
    ensures var r := GetConfigs(ids);
      && (r.Ok? <==> forall i :: 0 <= i < |ids| ==> Lookup(ids[i]).Some?)
      && (r.Ok? ==> |r.value| == |ids| && forall i :: 0 <= i < |ids| ==> Lookup(ids[i]) == Some(r.value[i]))
      && (r.Err? ==> exists k :: 0 <= k < |ids| && Lookup(ids[k]).None? && r.error == UnknownConfig(ids[k])
                                 && forall i :: 0 <= i < k ==> Lookup(ids[i]).Some?)
  {
    GetConfigsFromSpec(ids, 0);
  }

  /** Conversely, ids whose profiles are `js`, one by one, look up to `js`. */
  lemma GetConfigsOf(ids: seq<string>, js: seq<Job>)
    requires |ids| == |js|
    requires forall i :: 0 <= i < |ids| ==> Lookup(ids[i]) == Some(js[i])
    ensures GetConfigs(ids) == Ok(js)
  {
    GetConfigsSpec(ids);
    var r := GetConfigs(ids);
    assert r.Ok?;
    assert r.value == js;
  }

  /** Looking up two id lists one after the other and concatenating the
      results is looking up their concatenation. */
  lemma GetConfigsAppend(a: seq<string>, b: seq<string>)
    requires GetConfigs(a).Ok? && GetConfigs(b).Ok?
    ensures GetConfigs(a + b) == Ok(GetConfigs(a).value + GetConfigs(b).value)
  {
    GetConfigsSpec(a);
    GetConfigsSpec(b);
    GetConfigsSpec(a + b);
    var ra, rb := GetConfigs(a).value, GetConfigs(b).value;
    assert forall i :: 0 <= i < |a + b| ==> Lookup((a + b)[i]) == Some((ra + rb)[i]) by {
      forall i | 0 <= i < |a + b|
        ensures Lookup((a + b)[i]) == Some((ra + rb)[i])
      {
        if i < |a| {
          assert (a + b)[i] == a[i];
        } else {
          assert (a + b)[i] == b[i - |a|];
        }
      }
    }
    var r := GetConfigs(a + b);
    assert r.Ok?;
    assert |r.value| == |ra + rb|;
    forall i | 0 <= i < |r.value|
      ensures r.value[i] == (ra + rb)[i]
    {
      assert Lookup((a + b)[i]) == Some(r.value[i]);
    }
    assert r.value == ra + rb;
  }
}
