/** Shared vocabulary of the build-matrix generator and the environment
    preparer: optional values, the errors the two tools raise, the target CI
    platform and the job descriptor that flows from one to the other. */
module Jobs {

  /** A value that may be absent (a dictionary key that is not set). */
  datatype Option<+T> = None | Some(value: T) {
    function GetOr(default: T): T {
      match this
      case Some(v) => v
      case None => default
    }
  }

  /** Every way the modelled code stops with an exception. */
  datatype Error =
    | UnknownConfig(id: string)                         // KeyError on the compiler catalog
    | UnknownBuildValue(version: string)                // ValueError for a `build` value of config.yml
    | IncompatibleConfig(platform: string, minimum: string, current: string)
    | UnsupportedPlatform(platform: string)             // prepare_env: neither gha nor azp
    | SelectConfigRequiresAzp                           // prepare_env: --select-config outside azp
    | MissingKey(key: string)                           // KeyError on a job descriptor
    | NotAJob(key: string)                              // TypeError: the selected value is a field, not a job

  /** Success with a value, or the error that aborted the computation. */
  datatype Result<+T> = Ok(value: T) | Err(error: Error) {
    predicate IsFailure() {
      Err?
    }

    function PropagateFailure<U>(): Result<U>
      requires Err?
    {
      Err(error)
    }

    function Extract(): T
      requires Ok?
    {
      value
    }
  }

  /** The two CI services the generator knows how to feed. */
  datatype Platform = Gha | Azp {
    function Tag(): string {
      match this
      case Gha => "gha"
      case Azp => "azp"
    }
  }

  /** Reads a platform argument; any other text is unsupported. */
  function ParsePlatform(s: string): (r: Option<Platform>)
    ensures r.Some? <==> s == "gha" || s == "azp"
    ensures r.Some? ==> r.value.Tag() == s
  {
    if s == "gha" then Some(Gha)
    else if s == "azp" then Some(Azp)
    else None
  }

  /** One CI job descriptor. The catalog fills the first five fields, the
      build-type split adds `buildType`, and the assembler adds `cwd` and
      `recipeVersion` (the descriptor's `recipe_version` key). */
  datatype Job = Job(
    name: string,
    compiler: string,
    version: string,
    os: string,
    dockerImage: Option<string>,
    buildType: Option<string>,
    cwd: Option<string>,
    recipeVersion: Option<string>)

  /** True when the job carries the fields the environment preparer reads
      with a plain key lookup. */
  predicate Complete(j: Job) {
    j.cwd.Some? && j.recipeVersion.Some?
  }

  /** Runs job-producing steps one after the other: the first failure is the
      result, otherwise their outputs are concatenated in order. The steps
      are pure, so computing them all first gives the same answer as
      stopping at the first failure. */
  function Concat<T>(rs: seq<Result<seq<T>>>): Result<seq<T>> {
    if |rs| == 0 then Ok([])
    else
      var first :- rs[0];
      var rest :- Concat(rs[1..]);
      Ok(first + rest)
  }

  /** Steps run in two batches give the outputs of the first batch followed
      by those of the second; a failure in the first batch is the result. */
  lemma {:induction false} ConcatAppend<T>(a: seq<Result<seq<T>>>, b: seq<Result<seq<T>>>)
    ensures Concat(a).Err? ==> Concat(a + b) == Concat(a)
    ensures Concat(a).Ok? ==> (Concat(a + b).Ok? <==> Concat(b).Ok?)
    ensures Concat(a).Ok? && Concat(b).Ok? ==> Concat(a + b) == Ok(Concat(a).value + Concat(b).value)
  {
    if |a| == 0 {
      assert a + b == b;
      if Concat(b).Ok? {
        assert [] + Concat(b).value == Concat(b).value;
      }
    } else {
      assert (a + b)[0] == a[0];
      assert (a + b)[1..] == a[1..] + b;
      ConcatAppend(a[1..], b);
      if a[0].Ok? && Concat(a[1..]).Ok? && Concat(b).Ok? {
        var x, y, z := a[0].value, Concat(a[1..]).value, Concat(b).value;
        assert x + (y + z) == (x + y) + z;
      }
    }
  }

  /** Concatenation succeeds exactly when every step does, and then every
      output element comes from one of the steps. */
  lemma {:induction false} ConcatOk<T>(rs: seq<Result<seq<T>>>)
    ensures Concat(rs).Ok? <==> forall k :: 0 <= k < |rs| ==> rs[k].Ok?
    ensures Concat(rs).Ok? ==> forall x :: x in Concat(rs).value ==> exists k :: 0 <= k < |rs| && rs[k].Ok? && x in rs[k].value
  {
    if |rs| > 0 {
      ConcatOk(rs[1..]);
      if Concat(rs).Ok? {
        forall x | x in Concat(rs).value
          ensures exists k :: 0 <= k < |rs| && rs[k].Ok? && x in rs[k].value
        {
          if x !in rs[0].value {
            var k :| 0 <= k < |rs[1..]| && rs[1..][k].Ok? && x in rs[1..][k].value;
            assert rs[k + 1] == rs[1..][k];
          }
        }
      } else if rs[0].Ok? {
        var k :| 0 <= k < |rs[1..]| && !rs[1..][k].Ok?;
        assert rs[k + 1] == rs[1..][k];
      }
    }
  }

  /** A successful run is the outputs of the steps before step `k`, then
      those of step `k`, then those of the steps after it: every step
      contributes all of its outputs, in place. */
  lemma {:induction false} ConcatSplitAt<T>(rs: seq<Result<seq<T>>>, k: nat)
    requires k < |rs| && Concat(rs).Ok?
    ensures Concat(rs[..k]).Ok? && rs[k].Ok? && Concat(rs[k + 1..]).Ok?
    ensures Concat(rs).value == Concat(rs[..k]).value + rs[k].value + Concat(rs[k + 1..]).value
  {
    var rest := rs[1..];
    if k == 0 {
      assert rs[..0] == [] && rest == rs[k + 1..];
    } else {
      ConcatSplitAt(rest, k - 1);
      assert rs[..k][0] == rs[0] && rs[..k][1..] == rest[..k - 1];
      assert rest[k - 1] == rs[k] && rest[k..] == rs[k + 1..];
      var x, y, z, w := rs[0].value, Concat(rest[..k - 1]).value, rs[k].value, Concat(rs[k + 1..]).value;
      assert x + (y + z + w) == (x + y) + z + w;
    }
  }

  /** Steps that all succeed with `n` outputs each give `n` outputs per
      step. */
  lemma {:induction false} ConcatUniform<T>(rs: seq<Result<seq<T>>>, n: nat)
    requires forall k :: 0 <= k < |rs| ==> rs[k].Ok? && |rs[k].value| == n
    ensures Concat(rs).Ok? && |Concat(rs).value| == |rs| * n
  {
    if |rs| > 0 {
      assert forall k :: 0 <= k < |rs[1..]| ==> rs[1..][k] == rs[k + 1];
      ConcatUniform(rs[1..], n);
      assert |rs| * n == n + (|rs| - 1) * n;
    }
  }

  /** The `i`-th run of `n` consecutive elements of `xs`, positions `i * n`
      up to `(i + 1) * n`; empty when `xs` is too short to hold it. */
  function Block<T>(xs: seq<T>, n: nat, i: nat): seq<T> {
    if (i + 1) * n <= |xs| then xs[i * n..(i + 1) * n] else []
  }

  /** Steps that all succeed with `n` outputs each: block `i` of the
      outputs is exactly the outputs of step `i`. */
  lemma {:induction false} ConcatUniformBlock<T>(rs: seq<Result<seq<T>>>, n: nat, i: nat)
    requires forall k :: 0 <= k < |rs| ==> rs[k].Ok? && |rs[k].value| == n
    requires i < |rs|
    ensures Concat(rs).Ok? && |Concat(rs).value| == |rs| * n
    ensures Block(Concat(rs).value, n, i) == rs[i].value
  {
    ConcatUniform(rs, n);
    var all := Concat(rs).value;
    assert all == rs[0].value + Concat(rs[1..]).value;
    assert |rs| * n == n + (|rs| - 1) * n;
    if i == 0 {
      assert all[0..n] == rs[0].value;
    } else {
      assert forall k :: 0 <= k < |rs[1..]| ==> rs[1..][k] == rs[k + 1];
      ConcatUniformBlock(rs[1..], n, i - 1);
      var rest := Concat(rs[1..]).value;
      assert i * n == n + (i - 1) * n;
      assert (i + 1) * n == n + i * n;
      assert i * n <= |rest|;
      assert all[i * n..(i + 1) * n] == rest[(i - 1) * n..i * n];
    }
  }

  /** The outcome of `f` on each input, in order. */
  function Steps<A, T>(f: A -> Result<seq<T>>, xs: seq<A>): (r: seq<Result<seq<T>>>)
    ensures |r| == |xs| && forall i :: 0 <= i < |xs| ==> r[i] == f(xs[i])
  {
    seq(|xs|, i requires 0 <= i < |xs| => f(xs[i]))
  }

  /** The steps of two runs of inputs are the steps of the first run
      followed by those of the second. */
  lemma StepsAppend<A, T>(f: A -> Result<seq<T>>, a: seq<A>, b: seq<A>)
    ensures Steps(f, a + b) == Steps(f, a) + Steps(f, b)
  {
    assert forall i :: 0 <= i < |a| ==> (a + b)[i] == a[i];
    assert forall i :: |a| <= i < |a + b| ==> (a + b)[i] == b[i - |a|];
  }

  /** Running `f` over inputs given in two runs: a failure in the first
      run is the result, otherwise the whole succeeds exactly when the
      second run does, with the outputs in run order. */
  lemma ConcatStepsAppend<A, T>(f: A -> Result<seq<T>>, a: seq<A>, b: seq<A>)
    ensures var ra, rb, rab := Concat(Steps(f, a)), Concat(Steps(f, b)), Concat(Steps(f, a + b));
      && (ra.Err? ==> rab == ra)
      && (ra.Ok? ==> (rab.Ok? <==> rb.Ok?))
      && (ra.Ok? && rb.Ok? ==> rab == Ok(ra.value + rb.value))
  {
    StepsAppend(f, a, b);
    ConcatAppend(Steps(f, a), Steps(f, b));
  }

  /** A successful run over `xs` is the outputs for the inputs before
      input `k`, then those of input `k`, then those of the inputs after
      it. */
  lemma ConcatStepsAt<A, T>(f: A -> Result<seq<T>>, xs: seq<A>, k: nat)
    requires k < |xs| && Concat(Steps(f, xs)).Ok?
    ensures Concat(Steps(f, xs[..k])).Ok? && f(xs[k]).Ok? && Concat(Steps(f, xs[k + 1..])).Ok?
    ensures Concat(Steps(f, xs)).value
         == Concat(Steps(f, xs[..k])).value + f(xs[k]).value + Concat(Steps(f, xs[k + 1..])).value
  {
    var steps := Steps(f, xs);
    ConcatSplitAt(steps, k);
    assert steps[..k] == Steps(f, xs[..k]);
    assert steps[k + 1..] == Steps(f, xs[k + 1..]);
  }
}
