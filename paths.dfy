/** Simplified path handling over `/`-separated strings: `path.join` of two
    segments, `path.basename`, and `Array.prototype.join(" ")`. */
module Paths {

  /** `path.join(a, b)` without normalisation: an empty side contributes nothing. */
  function Join(a: string, b: string): string {
    if a == [] then b else if b == [] then a else a + "/" + b
  }

  /** The characters after the last `/` (the whole string when it has none). */
  function LastSegment(p: string): (s: string)
    ensures '/' !in s
    ensures |s| <= |p|
  {
    if p == [] || p[|p| - 1] == '/' then [] else LastSegment(p[..|p| - 1]) + [p[|p| - 1]]
  }

  /** `path.basename(p)`: trailing separators are ignored, then the last segment is taken. */
  function Basename(p: string): (b: string)
    ensures '/' !in b
  {
    if p != [] && p[|p| - 1] == '/' then Basename(p[..|p| - 1]) else LastSegment(p)
  }

  /** A string without separators is its own last segment. */
  lemma {:induction false} LastSegmentOfPlainName(prefix: string, n: string)
    requires '/' !in n
    requires prefix == [] || prefix[|prefix| - 1] == '/'
    ensures LastSegment(prefix + n) == n
    decreases |n|
  {
    if n == [] {
      assert prefix + n == prefix;
    } else {
      var p := prefix + n;
      assert p[|p| - 1] == n[|n| - 1];
      assert p[..|p| - 1] == prefix + n[..|n| - 1];
      assert n[|n| - 1] in n;
      LastSegmentOfPlainName(prefix, n[..|n| - 1]);
      assert n[..|n| - 1] + [n[|n| - 1]] == n;
    }
  }

  /** Joining a directory with a plain file name and taking the basename gives the name back. */
  lemma BasenameOfJoin(dir: string, n: string)
    requires n != [] && '/' !in n
    ensures Basename(Join(dir, n)) == n
  {
    var p := Join(dir, n);
    var prefix := if dir == [] then [] else dir + "/";
    assert p == prefix + n;
    assert p[|p| - 1] == n[|n| - 1];
    assert n[|n| - 1] in n;
    LastSegmentOfPlainName(prefix, n);
  }

  /** The entries of `xs` separated by single spaces (`xs.join(" ")`). */
  function SpaceJoin(xs: seq<string>): string {
    if xs == [] then [] else if |xs| == 1 then xs[0] else xs[0] + " " + SpaceJoin(xs[1..])
  }
}
