/**
 * Slash-separated paths in the working directory of a staged collection:
 * every file is a directory entry named by its id, so an absolute path is
 * the working directory followed by the ids from the root down to the file.
 */
module Paths {

  /** A directory entry name: it holds no '/'. */
  predicate IsSegment(s: string)
  {
    '/' !in s
  }

  type Segment = s: string | IsSegment(s)

  /** The path of the entry reached from directory `dir` through `names`, one '/' before each name. */
  function Under(dir: string, names: seq<string>): string
  {
    if |names| == 0 then dir
    else Under(dir, names[..|names| - 1]) + "/" + names[|names| - 1]
  }

  /** The text after the last '/' of `p` (`File.basename` of a path without a trailing slash). */
  function Basename(p: string): (b: string)
    ensures IsSegment(b)
    ensures |b| <= |p| && b == p[|p| - |b|..]
    ensures |b| < |p| ==> p[|p| - |b| - 1] == '/'
  {
    if p == [] || p[|p| - 1] == '/' then []
    else Basename(p[..|p| - 1]) + [p[|p| - 1]]
  }

  /** The text before the last '/' of `p`, empty when it has none. */
  function Dirname(p: string): (d: string)
    ensures |d| <= |p| && d == p[..|d|]
    ensures p != [] ==> |d| < |p|
  {
    if p == [] then []
    else if p[|p| - 1] == '/' then p[..|p| - 1]
    else Dirname(p[..|p| - 1])
  }

  /** Appending `"/" + name` is undone by `Dirname` and `Basename`. */
  lemma {:induction false} SplitLast(dir: string, name: string)
    requires IsSegment(name)
    ensures Basename(dir + "/" + name) == name
    ensures Dirname(dir + "/" + name) == dir
    decreases |name|
  {
    var p := dir + "/" + name;
    if name != [] {
      var init := name[..|name| - 1];
      assert p[..|p| - 1] == dir + "/" + init;
      assert p[|p| - 1] == name[|name| - 1];
      SplitLast(dir, init);
      assert init + [name[|name| - 1]] == name;
    } else {
      assert p[..|p| - 1] == dir;
    }
  }

  /** Conversely, a path with a '/' in it is its `Dirname`, a '/', and its `Basename`. */
  lemma {:induction false} SplitJoin(p: string)
    requires '/' in p
    ensures Dirname(p) + "/" + Basename(p) == p
    decreases |p|
  {
    if p[|p| - 1] != '/' {
      var init := p[..|p| - 1];
      assert '/' in init by {
        var k :| 0 <= k < |p| && p[k] == '/';
        assert init[k] == '/';
      }
      SplitJoin(init);
      assert init + [p[|p| - 1]] == p;
    }
  }

  /**
   * The last name of a path below `dir` is its `Basename`, and its `Dirname`
   * is the path through the names before the last one.
   */
  lemma UnderLast(dir: string, names: seq<string>)
    requires |names| >= 1 && IsSegment(names[|names| - 1])
    ensures Basename(Under(dir, names)) == names[|names| - 1]
    ensures Dirname(Under(dir, names)) == Under(dir, names[..|names| - 1])
  {
    SplitLast(Under(dir, names[..|names| - 1]), names[|names| - 1]);
  }
}
