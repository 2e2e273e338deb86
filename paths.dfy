/** The parts of Go's `path/filepath` used by the core, for '/'-separated paths.

    `Join` glues two elements with one separator and drops trailing separators, as
    filepath.Join's cleaning does; `Dir` and `Base` split a path at its last separator. The rest
    of lexical cleaning ("." and ".." elements, separators doubled inside a path) is not modelled.
 */
module Paths {

  /** A single path element: non-empty and free of separators ("audio.wav", "20240101-0930"). */
  predicate IsName(n: string)
  {
    n != [] && '/' !in n
  }

  /** A directory path that `Dir` gives back unchanged after a `Join`: the root, or a
      non-empty path that does not end with a separator. */
  predicate IsCleanDir(d: string)
  {
    d == "/" || (d != [] && d[|d| - 1] != '/')
  }

  /** `p` without the separators it ends with. */
  function StripTrailing(p: string): (r: string)
    ensures |r| <= |p| && r == p[..|r|]
    ensures forall i :: |r| <= i < |p| ==> p[i] == '/'
    ensures r == [] || r[|r| - 1] != '/'
  {
    if p != [] && p[|p| - 1] == '/' then StripTrailing(p[..|p| - 1]) else p
  }

  /** filepath.Clean as far as trailing separators go: "." for the empty path, the root for a
      path made of separators, and otherwise the path without its trailing separators. */
  function Clean(p: string): (c: string)
    ensures IsCleanDir(c)
    ensures IsCleanDir(p) ==> c == p
    ensures p != [] ==> c[0] == p[0]
  {
    if p == [] then "."
    else if StripTrailing(p) == [] then "/"
    else StripTrailing(p)
  }

  /** filepath.Join of two elements: empty elements are ignored and the result is cleaned of
      trailing separators. */
  function Join(dir: string, name: string): (r: string)
    ensures dir != [] || name != [] ==> IsCleanDir(r)
  {
    if dir == [] then (if name == [] then [] else Clean(name))
    else if StripTrailing(name) == [] then Clean(dir)
    else StripTrailing(dir) + "/" + StripTrailing(name)
  }

  /** Index of the last separator of `p`, or -1 when it has none. */
  function LastSlash(p: string): (i: int)
    ensures -1 <= i < |p|
    ensures i >= 0 ==> p[i] == '/'
    ensures forall j :: i < j < |p| ==> p[j] != '/'
  {
    if p == [] then -1
    else if p[|p| - 1] == '/' then |p| - 1
    else LastSlash(p[..|p| - 1])
  }

  /** filepath.Dir: everything before the last separator; "." without one, "/" for a root entry. */
  function Dir(p: string): string
  {
    var i := LastSlash(p);
    if i < 0 then "." else if i == 0 then "/" else p[..i]
  }

  /** filepath.Base: everything after the last separator; "." for the empty path. */
  function Base(p: string): string
  {
    if p == [] then "." else p[LastSlash(p) + 1..]
  }

  /** Joining a name onto a directory gives a path whose base is that name and whose parent is
      the cleaned directory: the file lands where MkdirAll of that directory put it. */
  lemma JoinSplits(dir: string, name: string)
    requires IsName(name)
    ensures Base(Join(dir, name)) == name
    ensures Dir(Join(dir, name)) == Clean(dir)
    ensures IsCleanDir(dir) ==> Dir(Join(dir, name)) == dir
  {
    NameIsStripped(name);
    var p := Join(dir, name);
    if dir == [] {
      LastSlashUnique(name, -1);
    } else {
      var d := StripTrailing(dir);
      assert p == d + "/" + name;
      var k := |d| + 1;
      assert p[k - 1] == '/';
      assert forall j :: k <= j < |p| ==> p[j] == name[j - k];
      LastSlashUnique(p, k - 1);
      assert p[k..] == name;
      if d != [] {
        assert p[..k - 1] == d;
      }
    }
  }

  /** A name ends with no separator, so Join keeps it whole. */
  lemma NameIsStripped(name: string)
    requires IsName(name)
    ensures StripTrailing(name) == name && Clean(name) == name
  {
    assert name[|name| - 1] in name;
  }

  /** A joined path is longer than its cleaned directory, so it is never that directory itself. */
  lemma JoinIsLonger(dir: string, name: string)
    requires IsName(name)
    ensures dir != [] ==> |Join(dir, name)| > |Clean(dir)|
    ensures dir == [] ==> Join(dir, name) == name
  {
    NameIsStripped(name);
  }

  /** Joining a non-empty name onto anything yields a clean directory, so the session directory
      `Join(sessionsDir, timestamp)` can itself hold files addressed by `Join`. */
  lemma JoinIsClean(dir: string, name: string)
    requires name != []
    ensures IsCleanDir(Join(dir, name)) && Clean(Join(dir, name)) == Join(dir, name)
  {
  }

  /** Joining a name onto a clean directory other than the root puts one separator between them. */
  lemma JoinPlain(dir: string, name: string)
    requires IsName(name) && IsCleanDir(dir) && dir != "/"
    ensures Join(dir, name) == dir + "/" + name
  {
    NameIsStripped(name);
    assert StripTrailing(dir) == dir;
  }

  /** Appending a suffix without separators keeps the directory: `<audio>.tmp.wav` is a sibling
      of `<audio>`. */
  lemma SuffixKeepsDir(p: string, suffix: string)
    requires p != [] && IsName(suffix)
    ensures Dir(p + suffix) == Dir(p)
    ensures Base(p + suffix) == Base(p) + suffix
  {
    var q := p + suffix;
    var i := LastSlash(p);
    SuffixKeepsLastSlash(p, suffix);
    if i > 0 {
      assert q[..i] == p[..i];
    }
    assert q[i + 1..] == p[i + 1..] + suffix;
  }

  /** A suffix without separators leaves the last separator where it was. */
  lemma SuffixKeepsLastSlash(p: string, suffix: string)
    requires IsName(suffix)
    ensures LastSlash(p + suffix) == LastSlash(p)
  {
    var q := p + suffix;
    var i := LastSlash(p);
    forall j | i < j < |q|
      ensures q[j] != '/'
    {
      if j < |p| {
        assert q[j] == p[j];
      } else {
        assert q[j] == suffix[j - |p|];
      }
    }
    if i >= 0 {
      assert q[i] == p[i];
    }
    LastSlashUnique(q, i);
  }

  /** A base name never holds a separator. */
  lemma BaseHasNoSlash(p: string)
    ensures '/' !in Base(p)
  {
    if p != [] {
      var i := LastSlash(p);
      forall k | 0 <= k < |Base(p)| ensures Base(p)[k] != '/' {
        assert Base(p)[k] == p[i + 1 + k];
      }
    }
  }

  /** The three properties of LastSlash determine it. */
  lemma LastSlashUnique(p: string, i: int)
    requires -1 <= i < |p|
    requires i >= 0 ==> p[i] == '/'
    requires forall j :: i < j < |p| ==> p[j] != '/'
    ensures LastSlash(p) == i
  {
  }
}
