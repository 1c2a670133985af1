/**
 * The parts of Go's `strings` and `path` packages that event/event.go relies on,
 * stated over Dafny strings (sequences of characters).
 */
module GoStrings {

  /** strings.HasPrefix: `s` begins with `prefix`. */
  predicate HasPrefix(s: string, prefix: string)
  {
    |prefix| <= |s| && s[..|prefix|] == prefix
  }

  /** `p` with every trailing '/' removed (the first loop of path.Base). */
  function TrimTrailingSlashes(p: string): (r: string)
    ensures |r| <= |p| && r == p[..|r|]
    ensures r == [] || r[|r| - 1] != '/'
    ensures forall i :: |r| <= i < |p| ==> p[i] == '/'
  {
    if p != [] && p[|p| - 1] == '/' then TrimTrailingSlashes(p[..|p| - 1]) else p
  }

  /** The text after the last '/' of `p`, or all of `p` when it has none. */
  function AfterLastSlash(p: string): (r: string)
    ensures |r| <= |p| && r == p[|p| - |r|..]
    ensures '/' !in r
    ensures |r| < |p| ==> p[|p| - |r| - 1] == '/'
  {
    if p == [] || p[|p| - 1] == '/' then []
    else AfterLastSlash(p[..|p| - 1]) + [p[|p| - 1]]
  }

  /** Every character of `p` is '/'. */
  predicate AllSlashes(p: string)
  {
    forall i :: 0 <= i < |p| ==> p[i] == '/'
  }

  /**
   * path.Base: the last element of a slash-separated path. Trailing slashes are
   * dropped first; the empty path gives "." and a path of slashes only gives "/".
   */
  function Base(p: string): (r: string)
    ensures r != []
    ensures r == "/" || '/' !in r
    ensures p == [] ==> r == "."
    ensures r == "/" <==> p != [] && AllSlashes(p)
    ensures p != [] && p[|p| - 1] != '/' && r != "/" ==>
              |r| <= |p| && r == p[|p| - |r|..] && (|r| == |p| || p[|p| - |r| - 1] == '/')
  {
    if p == [] then "."
    else
      var last := AfterLastSlash(TrimTrailingSlashes(p));
      if last == [] then "/" else last
  }

  /** A name without '/', such as "main.main", is its own base. */
  lemma BaseOfPlainName(n: string)
    requires n != [] && '/' !in n
    ensures Base(n) == n
  {
    assert n[|n| - 1] != '/';
    assert TrimTrailingSlashes(n) == n;
  }

  /** Trailing slashes do not change the base of a non-empty path. */
  lemma BaseIgnoresTrailingSlash(p: string)
    requires p != []
    ensures Base(p + "/") == Base(p)
  {
    assert (p + "/")[..|p|] == p;
    assert TrimTrailingSlashes(p + "/") == TrimTrailingSlashes(p);
  }

  /** `r` is what follows the first `sep` of `s`: a suffix right after a `sep`, with none before it. */
  predicate FollowsFirst(s: string, sep: char, r: string)
  {
    && |r| < |s| && r == s[|s| - |r|..]
    && s[|s| - |r| - 1] == sep
    && (forall i :: 0 <= i < |s| - |r| - 1 ==> s[i] != sep)
  }

  /**
   * strings.SplitN(s, [sep], 2)[1]: everything after the first `sep`. The index
   * exists only when `s` contains `sep` (SplitN then returns two parts).
   */
  function AfterFirst(s: string, sep: char): (r: string)
    requires sep in s
    ensures FollowsFirst(s, sep, r)
  {
    if s[0] == sep then s[1..] else AfterFirst(s[1..], sep)
  }

  /** Cutting at the first separator and gluing the parts back gives the input. */
  lemma AfterFirstSplits(s: string, sep: char, r: string)
    requires sep in s && r == AfterFirst(s, sep)
    ensures s == s[..|s| - |r| - 1] + [sep] + r
  {
  }
}
