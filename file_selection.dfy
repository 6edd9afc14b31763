/** Choosing the files to move: the entries of a directory listing whose base
    name matches the user's pattern and that are regular files. Pattern
    matching and the file-system test are given as predicates, since both
    belong to the host (its regular-expression engine and its file system). */
module FileSelection {

  /** `os.path.basename` on POSIX paths: everything after the last `/`. */
  function Basename(path: string): (name: string)
    ensures '/' !in name
    ensures |name| <= |path| && name == path[|path| - |name|..]
    ensures |name| < |path| ==> path[|path| - |name| - 1] == '/'
    decreases |path|
  {
    if path == [] || path[|path| - 1] == '/' then []
    else Basename(path[..|path| - 1]) + [path[|path| - 1]]
  }

  /** The test `getValidFiles` applies to one entry: the pattern matches at
      the start of its base name, and the entry is a regular file. */
  function SelectionTest(nameMatches: string -> bool, isFile: string -> bool): (test: string -> bool)
    ensures forall path :: test(path) ==> isFile(path)
    ensures forall path :: test(path) <==> nameMatches(Basename(path)) && isFile(path)
  {
    path => nameMatches(Basename(path)) && isFile(path)
  }

  /** The entries of a list that pass `keep`, in list order. */
  function Filter<T>(xs: seq<T>, keep: T -> bool): (r: seq<T>)
    ensures |r| <= |xs|
    ensures forall i :: 0 <= i < |r| ==> keep(r[i])
    decreases |xs|
  {
    if xs == [] then []
    else
      var last := xs[|xs| - 1];
      Filter(xs[..|xs| - 1], keep) + (if keep(last) then [last] else [])
  }

  /** `sub` is `s` with some entries left out, the rest kept in order. */
  predicate IsSubsequence<T(==)>(sub: seq<T>, s: seq<T>)
    decreases |s|
  {
    sub == [] ||
    (s != [] &&
     ((sub[|sub| - 1] == s[|s| - 1] && IsSubsequence(sub[..|sub| - 1], s[..|s| - 1])) ||
      IsSubsequence(sub, s[..|s| - 1])))
  }

  /** Filtering one more entry of a list. */
  lemma FilterStep<T>(xs: seq<T>, keep: T -> bool, i: nat)
    requires i < |xs|
    ensures Filter(xs[..i + 1], keep) == Filter(xs[..i], keep) + (if keep(xs[i]) then [xs[i]] else [])
  {
    assert xs[..i + 1][..i] == xs[..i];
  }

  /** An entry is in the filtered list exactly when it is in the list and passes. */
  lemma {:induction false} FilterMembership<T>(xs: seq<T>, keep: T -> bool, x: T)
    ensures x in Filter(xs, keep) <==> x in xs && keep(x)
    decreases |xs|
  {
    if xs != [] {
      var init := xs[..|xs| - 1];
      assert xs == init + [xs[|xs| - 1]];
      FilterMembership(init, keep, x);
    }
  }

  /** Filtering keeps the list's order and invents nothing. */
  lemma {:induction false} FilterIsSubsequence<T>(xs: seq<T>, keep: T -> bool)
    ensures IsSubsequence(Filter(xs, keep), xs)
    decreases |xs|
  {
    if xs != [] {
      var init, last := xs[..|xs| - 1], xs[|xs| - 1];
      var rest := Filter(init, keep);
      FilterIsSubsequence(init, keep);
      var r := Filter(xs, keep);
      if keep(last) {
        assert r == rest + [last];
        assert r[..|r| - 1] == rest;
      } else {
        assert r == rest;
      }
    }
  }

  /** A list whose every entry passes is its own filtered list. */
  lemma {:induction false} FilterKeepsPassing<T>(xs: seq<T>, keep: T -> bool)
    requires forall i :: 0 <= i < |xs| ==> keep(xs[i])
    ensures Filter(xs, keep) == xs
    decreases |xs|
  {
    if xs != [] {
      var init, last := xs[..|xs| - 1], xs[|xs| - 1];
      assert forall i :: 0 <= i < |init| ==> init[i] == xs[i];
      FilterKeepsPassing(init, keep);
      assert xs == init + [last];
    }
  }

  /** Filtering a filtered list again changes nothing. */
  lemma FilterIdempotent<T>(xs: seq<T>, keep: T -> bool)
    ensures Filter(Filter(xs, keep), keep) == Filter(xs, keep)
  {
    var once := Filter(xs, keep);
    forall i | 0 <= i < |once| ensures keep(once[i]) {
      FilterMembership(xs, keep, once[i]);
    }
    FilterKeepsPassing(once, keep);
  }

  /** The selection from a listing holds exactly the listed entries whose base
      name matches and that are regular files, in listing order. */
  lemma SelectionFacts(allFinds: seq<string>, nameMatches: string -> bool, isFile: string -> bool)
    ensures var matching := Filter(allFinds, SelectionTest(nameMatches, isFile));
      |matching| <= |allFinds| &&
      (forall x :: x in matching <==> x in allFinds && nameMatches(Basename(x)) && isFile(x)) &&
      IsSubsequence(matching, allFinds)
  {
    var keep := SelectionTest(nameMatches, isFile);
    var matching := Filter(allFinds, keep);
    forall x | x in matching || x in allFinds
      ensures x in matching <==> x in allFinds && nameMatches(Basename(x)) && isFile(x)
    {
      FilterMembership(allFinds, keep, x);
    }
    FilterIsSubsequence(allFinds, keep);
    SubsequenceLength(matching, allFinds);
  }

  /** A subsequence is never longer than the list it is taken from. */
  lemma {:induction false} SubsequenceLength<T>(sub: seq<T>, s: seq<T>)
    requires IsSubsequence(sub, s)
    ensures |sub| <= |s|
    decreases |s|
  {
    if sub != [] {
      if sub[|sub| - 1] == s[|s| - 1] && IsSubsequence(sub[..|sub| - 1], s[..|s| - 1]) {
        SubsequenceLength(sub[..|sub| - 1], s[..|s| - 1]);
      } else {
        SubsequenceLength(sub, s[..|s| - 1]);
      }
    }
  }

  /** `getValidFiles`: walks the listing `allFinds` (what globbing every name
      in the source directory yields) and appends each entry whose base name
      the pattern matches and that is a regular file to `matching`. */
  method GetValidFiles(allFinds: seq<string>, nameMatches: string -> bool, isFile: string -> bool)
    returns (matching: seq<string>)
    ensures matching == Filter(allFinds, SelectionTest(nameMatches, isFile))
    ensures |matching| <= |allFinds|
    ensures forall x :: x in matching <==> x in allFinds && nameMatches(Basename(x)) && isFile(x)
    ensures IsSubsequence(matching, allFinds)
  {
    ghost var keep := SelectionTest(nameMatches, isFile);
    matching := [];
    for i := 0 to |allFinds|
      invariant matching == Filter(allFinds[..i], keep)
    {
      var obj := allFinds[i];
      FilterStep(allFinds, keep, i);
      assert keep(obj) == (nameMatches(Basename(obj)) && isFile(obj));
      if nameMatches(Basename(obj)) && isFile(obj) {
        matching := matching + [obj];
      }
    }
    assert allFinds[..|allFinds|] == allFinds;
    SelectionFacts(allFinds, nameMatches, isFile);
  }
}
