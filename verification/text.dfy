/** The few Python string and path operations the generator relies on,
    written out over `seq<char>`: substring test (`pat in s`),
    `s.replace(pat, "")`, `posixpath.dirname`, `posixpath.join`,
    `s.replace(".", "")`, and the integer part of a version number. */
module Text {

  predicate IsDigit(c: char) {
    '0' <= c <= '9'
  }

  function DigitValue(c: char): nat
    requires IsDigit(c)
  {
    c as int - '0' as int
  }

  /** `pat` occurs in `s` starting at index `i`. */
  predicate OccursAt(s: string, pat: string, i: nat) {
    i + |pat| <= |s| && s[i..i + |pat|] == pat
  }

  /** Python's `pat in s`. */
  predicate Contains(s: string, pat: string) {
    exists i: nat | i <= |s| :: OccursAt(s, pat, i)
  }

  /** Python's `s.replace(pat, "")`: occurrences are found left to right and
      do not overlap. An empty pattern leaves `s` as it is. */
  function RemoveAll(s: string, pat: string): (r: string)
    ensures |r| <= |s|
    decreases |s|
  {
    if |pat| == 0 || |s| < |pat| then s
    else if s[..|pat|] == pat then RemoveAll(s[|pat|..], pat)
    else [s[0]] + RemoveAll(s[1..], pat)
  }

  /** Text that holds no occurrence of `pat` is left unchanged. */
  lemma {:induction false} RemoveAllAbsent(s: string, pat: string)
    requires !Contains(s, pat)
    ensures RemoveAll(s, pat) == s
    decreases |s|
  {
    if |pat| == 0 || |s| < |pat| {
    } else {
      assert !OccursAt(s, pat, 0);
      assert !Contains(s[1..], pat) by {
        forall i: nat | OccursAt(s[1..], pat, i)
          ensures false
        {
          assert s[1..][i..i + |pat|] == s[i + 1..i + 1 + |pat|];
          assert OccursAt(s, pat, i + 1);
        }
      }
      RemoveAllAbsent(s[1..], pat);
    }
  }

  /** Removing a leading `pat` from text that holds no further occurrence of
      it yields exactly the rest: how a `recipes/<name>/` filter turns a
      changed path into a path relative to the recipe. */
  lemma RemoveAllPrefix(pat: string, rest: string)
    requires |pat| > 0
    requires !Contains(rest, pat)
    ensures RemoveAll(pat + rest, pat) == rest
  {
    assert (pat + rest)[..|pat|] == pat;
    assert (pat + rest)[|pat|..] == rest;
    RemoveAllAbsent(rest, pat);
  }

  /** Removing a text from itself leaves nothing. */
  lemma RemoveAllSelf(s: string)
    ensures RemoveAll(s, s) == ""
  {
    if |s| > 0 {
      assert s[..|s|] == s;
      assert s[|s|..] == "";
    }
  }

  /** A text that lacks one of the characters of `pat` cannot contain
      `pat`. */
  lemma AbsentChar(s: string, pat: string, k: nat)
    requires k < |pat|
    requires forall i :: 0 <= i < |s| ==> s[i] != pat[k]
    ensures !Contains(s, pat)
  {
    forall i: nat | i <= |s|
      ensures !OccursAt(s, pat, i)
    {
      if i + |pat| <= |s| {
        assert s[i..i + |pat|][k] == s[i + k] != pat[k];
      }
    }
  }

  /** Index just past the last `/` of `s`, or 0 when there is none. */
  function AfterLastSlash(s: string): (i: nat)
    ensures i <= |s|
    ensures i > 0 ==> s[i - 1] == '/'
    ensures forall j :: i <= j < |s| ==> s[j] != '/'
  {
    if |s| == 0 then 0
    else if s[|s| - 1] == '/' then |s|
    else AfterLastSlash(s[..|s| - 1])
  }

  predicate AllSlashes(s: string) {
    forall k :: 0 <= k < |s| ==> s[k] == '/'
  }

  /** Python's `s.rstrip("/")`. */
  function TrimTrailingSlashes(s: string): (r: string)
    ensures r <= s
    ensures |r| > 0 ==> r[|r| - 1] != '/'
    ensures forall k :: |r| <= k < |s| ==> s[k] == '/'
  {
    if |s| > 0 && s[|s| - 1] == '/' then TrimTrailingSlashes(s[..|s| - 1]) else s
  }

  /** Python's `posixpath.dirname`: everything before the last `/`, with the
      separating slashes removed unless the head is made of slashes only. */
  function Dirname(p: string): (r: string)
    ensures r <= p
    ensures (forall k :: 0 <= k < |p| ==> p[k] != '/') ==> r == ""
  {
    var head := p[..AfterLastSlash(p)];
    if |head| > 0 && !AllSlashes(head) then TrimTrailingSlashes(head) else head
  }

  /** A path `folder/leaf`, or `folder/` itself, has `folder` as its
      directory name. */
  lemma DirnameOfChild(folder: string, leaf: string)
    requires |folder| > 0 && folder[|folder| - 1] != '/'
    requires forall k :: 0 <= k < |leaf| ==> leaf[k] != '/'
    ensures Dirname(folder + "/" + leaf) == folder
  {
    var p := folder + "/" + leaf;
    AfterLastSlashSkipsLeaf(folder + "/", leaf);
    assert p[..|folder| + 1] == folder + "/";
    assert !AllSlashes(folder + "/") by {
      assert (folder + "/")[|folder| - 1] == folder[|folder| - 1];
    }
    assert (folder + "/")[..|folder|] == folder;
  }

  /** A trailing run without `/` does not move the last slash. */
  lemma {:induction false} AfterLastSlashSkipsLeaf(a: string, leaf: string)
    requires |a| > 0 && a[|a| - 1] == '/'
    requires forall k :: 0 <= k < |leaf| ==> leaf[k] != '/'
    ensures AfterLastSlash(a + leaf) == |a|
    decreases |leaf|
  {
    if |leaf| == 0 {
      assert a + leaf == a;
    } else {
      assert (a + leaf)[..|a + leaf| - 1] == a + leaf[..|leaf| - 1];
      AfterLastSlashSkipsLeaf(a, leaf[..|leaf| - 1]);
    }
  }

  /** Python's `posixpath.join(a, b)` for two components. */
  function Join(a: string, b: string): (r: string)
    ensures |b| > 0 && b[0] == '/' ==> r == b
    ensures |b| <= |r| && r[|r| - |b|..] == b
    ensures (|b| == 0 || b[0] != '/') ==> a <= r
  {
    if |b| > 0 && b[0] == '/' then b
    else if |a| == 0 || a[|a| - 1] == '/' then a + b
    else a + "/" + b
  }

  /** Python's `s.replace(c, "")` for a single character. */
  function RemoveChar(s: string, c: char): (r: string)
    ensures |r| <= |s|
    ensures forall k :: 0 <= k < |r| ==> r[k] != c
    ensures forall k :: 0 <= k < |s| && s[k] != c ==> s[k] in r
    ensures c !in s ==> r == s
  {
    if |s| == 0 then ""
    else if s[0] == c then RemoveChar(s[1..], c)
    else [s[0]] + RemoveChar(s[1..], c)
  }

  /** Removal works piece by piece and keeps the order of what stays: the
      result for `a + b` is the result for `a` followed by that for `b`, and
      a single character disappears exactly when it is `c`. */
  lemma {:induction false} RemoveCharAppend(a: string, b: string, c: char)
    ensures RemoveChar(a + b, c) == RemoveChar(a, c) + RemoveChar(b, c)
    ensures forall x: char :: RemoveChar([x], c) == (if x == c then [] else [x])
    decreases |a|
  {
    if |a| > 0 {
      assert (a + b)[0] == a[0];
      assert (a + b)[1..] == a[1..] + b;
      RemoveCharAppend(a[1..], b, c);
    } else {
      assert a + b == b;
    }
    forall x: char
      ensures RemoveChar([x], c) == (if x == c then [] else [x])
    {
      assert [x][1..] == [];
    }
  }

  /** Value of the run of decimal digits at the front of `s`, continuing a
      number whose digits so far are worth `acc`. */
  function Accumulate(s: string, acc: nat): (r: nat)
    ensures r >= acc
  {
    if |s| > 0 && IsDigit(s[0]) then Accumulate(s[1..], acc * 10 + DigitValue(s[0])) else acc
  }

  /** The integer part of a version such as `11`, `11.7` or `12.5.1`. For a
      `digits[.digits]` version, `float(v) >= n` holds exactly when
      `Major(v) >= n` for a whole number `n`. */
  function Major(v: string): nat {
    Accumulate(v, 0)
  }

  /** The integer part reads only the leading digits: a dot ends it. */
  lemma {:induction false} MajorOfDottedVersion(whole: string, fraction: string, acc: nat)
    requires forall k :: 0 <= k < |whole| ==> IsDigit(whole[k])
    ensures Accumulate(whole + "." + fraction, acc) == Accumulate(whole, acc)
    decreases |whole|
  {
    if |whole| > 0 {
      assert (whole + "." + fraction)[1..] == whole[1..] + "." + fraction;
      MajorOfDottedVersion(whole[1..], fraction, acc * 10 + DigitValue(whole[0]));
    } else {
      assert (whole + "." + fraction)[0] == '.';
    }
  }
}
