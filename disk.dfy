/** The filesystem the core works on, as a value and as the mutable disk that holds it.

    A `Tree` maps every directory path to its listing (file name to content). A file path `p`
    lives in the listing of `Dir(p)` under the name `Base(p)`, so renaming a directory moves its
    files with it. Paths in `locked` stand for files and directories the process may not touch:
    every call on them fails with a permission error.
 */
module Disk {
  import opened Errors
  import opened Paths
  import opened Record

  /** The content of a file: text, or a session record that the program encoded itself. */
  datatype Data = Raw(text: string) | Json(state: State)

  /** The text of a file as read back by the session package. The JSON text of an encoded record
      is not modelled; read as text, it is empty. */
  function TextOf(d: Data): string
  {
    match d
    case Raw(t) => t
    case Json(_) => ""
  }

  type Listing = map<string, Data>

  /** The outcome of an operation: the new tree and whether the call succeeded. */
  datatype Effect = Effect(tree: Tree, outcome: Outcome)

  /** `p` and `q` name the same entry of the same directory listing. */
  predicate SameFile(p: string, q: string)
  {
    Dir(p) == Dir(q) && Base(p) == Base(q)
  }

  datatype Tree = Tree(dirs: map<string, Listing>, locked: set<string>)
  {
    predicate IsDir(p: string) { p in dirs }

    predicate IsFile(p: string) { Dir(p) in dirs && Base(p) in dirs[Dir(p)] }

    /** Something is at `p`. */
    predicate Exists(p: string) { IsDir(p) || IsFile(p) }

    /** os.Stat fails with an error for which os.IsNotExist holds. A path the process may not
        touch fails with a permission error instead, which is not "not exist". */
    predicate Missing(p: string) { p !in locked && !Exists(p) }

    /** The content of the file at `p`, if there is one. */
    function Get(p: string): Option<Data>
    {
      if IsFile(p) then Some(dirs[Dir(p)][Base(p)]) else None
    }

    /** os.ReadFile. */
    function Read(p: string): (r: Result<Data>)
      ensures r.Ok? <==> p !in locked && IsFile(p)
      ensures r.Ok? ==> Get(p) == Some(r.value)
      ensures r.Err? && r.error.IsNotExist() <==> p !in locked && !Exists(p)
    {
      if p in locked then Err(Io("open", p, Denied))
      else if IsFile(p) then Ok(dirs[Dir(p)][Base(p)])
      else if IsDir(p) then Err(Io("read", p, IsDirectory))
      else Err(Io("open", p, NotExist))
    }

    function Put(p: string, d: Data): (t: Tree)
      requires Dir(p) in dirs
      ensures t.Get(p) == Some(d) && t.dirs.Keys == dirs.Keys && t.locked == locked
      ensures forall q :: !SameFile(q, p) ==> t.Get(q) == Get(q)
    {
      Tree(dirs[Dir(p) := dirs[Dir(p)][Base(p) := d]], locked)
    }

    function Delete(p: string): (t: Tree)
      requires IsFile(p)
      ensures t.Get(p) == None && t.dirs.Keys == dirs.Keys && t.locked == locked
      ensures forall q :: !SameFile(q, p) ==> t.Get(q) == Get(q)
    {
      Tree(dirs[Dir(p) := dirs[Dir(p)] - {Base(p)}], locked)
    }

    /** os.WriteFile: creates or truncates the file; its directory must exist. */
    function Write(p: string, d: Data): (r: Effect)
      ensures r.outcome.Pass? <==> p !in locked && !IsDir(p) && Dir(p) in dirs
      ensures r.outcome.Pass? ==> r.tree.Get(p) == Some(d)
      ensures r.outcome.Fail? ==> r.tree == this
      ensures r.tree.dirs.Keys == dirs.Keys && r.tree.locked == locked
      ensures forall q :: !SameFile(q, p) ==> r.tree.Get(q) == Get(q)
    {
      if p in locked then Effect(this, Fail(Io("open", p, Denied)))
      else if IsDir(p) then Effect(this, Fail(Io("open", p, IsDirectory)))
      else if Dir(p) !in dirs then Effect(this, Fail(Io("open", p, NotExist)))
      else Effect(Put(p, d), Pass)
    }

    /** A directory with no files and no directory below it: the only kind rmdir removes. */
    predicate IsEmptyDir(p: string)
    {
      IsDir(p) && dirs[p] == map[] && forall k :: k in dirs ==> !(p + "/" <= k)
    }

    /** os.Remove: unlinks a file, or removes an empty directory. */
    function Remove(p: string): (r: Effect)
      ensures r.outcome.Pass? <==> p !in locked && (IsFile(p) || IsEmptyDir(p))
      ensures r.outcome.Fail? && r.outcome.error.IsNotExist() <==> p !in locked && !Exists(p)
      ensures r.outcome.Pass? ==> r.tree.Get(p) == None
      ensures r.outcome.Pass? && !IsFile(p) ==> r.tree.dirs == dirs - {p}
      ensures r.outcome.Fail? ==> r.tree == this
      ensures IsFile(p) ==> r.tree.dirs.Keys == dirs.Keys
      ensures r.tree.locked == locked && r.tree.dirs.Keys <= dirs.Keys
      ensures forall d :: d != p ==> (r.tree.IsDir(d) <==> IsDir(d))
      ensures forall q :: !SameFile(q, p) ==> r.tree.Get(q) == Get(q)
    {
      if p in locked then Effect(this, Fail(Io("remove", p, Denied)))
      else if IsFile(p) then Effect(Delete(p), Pass)
      else if IsEmptyDir(p) then Effect(Tree(dirs - {p}, locked), Pass)
      else if IsDir(p) then Effect(this, Fail(Io("remove", p, NotEmpty)))
      else Effect(this, Fail(Io("remove", p, NotExist)))
    }

    /** os.Rename: moves a file (replacing any file at `dst`) or a whole directory (onto a path
        that does not exist yet). */
    function Rename(src: string, dst: string): (r: Effect)
      ensures r.outcome.Fail? ==> r.tree == this
      ensures r.tree.locked == locked
      ensures r.outcome.Pass? && IsFile(src) ==> r.tree.Get(dst) == Get(src)
      ensures r.outcome.Pass? && IsFile(src) && !SameFile(src, dst) ==> r.tree.Get(src) == None
      ensures r.outcome.Pass? && !IsFile(src) ==> IsDir(src) && r.tree.dirs == dirs - {src} + map[dst := dirs[src]]
      ensures IsFile(src) ==> r.tree.dirs.Keys == dirs.Keys
      ensures IsFile(src) ==> forall q :: !SameFile(q, src) && !SameFile(q, dst) ==> r.tree.Get(q) == Get(q)
      ensures !IsFile(src) ==> forall q :: Dir(q) != src && Dir(q) != dst ==> r.tree.Get(q) == Get(q)
    {
      if src in locked || dst in locked then Effect(this, Fail(Io("rename", src + " " + dst, Denied)))
      else if IsFile(src) then
        if IsDir(dst) then Effect(this, Fail(Io("rename", src + " " + dst, Conflict)))
        else if Dir(dst) !in dirs then Effect(this, Fail(Io("rename", src + " " + dst, NotExist)))
        else Effect(Delete(src).Put(dst, dirs[Dir(src)][Base(src)]), Pass)
      else if IsDir(src) then
        if IsDir(dst) then Effect(this, Fail(Io("rename", src + " " + dst, Conflict)))
        else if IsFile(dst) then Effect(this, Fail(Io("rename", src + " " + dst, NotDirectory)))
        else Effect(Tree(dirs - {src} + map[dst := dirs[src]], locked), Pass)
      else Effect(this, Fail(Io("rename", src + " " + dst, NotExist)))
    }

    /** The lowest ancestor of `d` that exists, when that ancestor is a file: os.MkdirAll walks
        up from a missing directory and fails there with "not a directory". */
    function FileOnTheWay(d: string): (r: Option<string>)
      ensures r.Some? ==> IsFile(r.value) && !IsDir(r.value)
      ensures r.Some? ==> |r.value| < |d| && r.value + "/" <= d
      decreases |d|
    {
      var i := LastSlash(d);
      if i <= 0 then None
      else
        var parent := d[..i];
        assert parent + "/" <= d by { assert (parent + "/")[..] == d[..i + 1]; }
        if IsDir(parent) then None
        else if IsFile(parent) then Some(parent)
        else FileOnTheWay(parent)
    }

    /** os.MkdirAll: fails on the empty path, succeeds at once on an existing directory, fails
        with "not a directory" on a file or on a file met on the way up, and otherwise creates
        the directory empty. Trailing separators name the same directory. */
    function MkdirAll(p: string): (r: Effect)
      ensures r.outcome.Pass? <==>
        p != [] && (IsDir(Clean(p)) || (Clean(p) !in locked && !IsFile(Clean(p)) && FileOnTheWay(Clean(p)).None?))
      ensures p != [] && !IsDir(Clean(p)) && Clean(p) !in locked && IsFile(Clean(p)) ==>
        r.outcome == Fail(Io("mkdir", p, NotDirectory))
      ensures p != [] && !IsDir(Clean(p)) && !IsFile(Clean(p)) && FileOnTheWay(Clean(p)).Some? ==>
        r.outcome == Fail(Io("mkdir", FileOnTheWay(Clean(p)).value, NotDirectory))
      ensures r.outcome.Pass? ==> r.tree.IsDir(Clean(p))
      ensures r.outcome.Pass? && IsDir(Clean(p)) ==> r.tree == this
      ensures r.outcome.Fail? ==> r.tree == this
      ensures r.tree.locked == locked
      ensures forall q :: r.tree.Get(q) == Get(q)
      ensures forall d :: IsDir(d) ==> r.tree.IsDir(d)
    {
      if p == [] then Effect(this, Fail(Io("mkdir", p, NotExist)))
      else
        var d := Clean(p);
        if IsDir(d) then Effect(this, Pass)
        else if d !in locked && IsFile(d) then Effect(this, Fail(Io("mkdir", p, NotDirectory)))
        else if FileOnTheWay(d).Some? then Effect(this, Fail(Io("mkdir", FileOnTheWay(d).value, NotDirectory)))
        else if d in locked then Effect(this, Fail(Io("mkdir", p, Denied)))
        else Effect(Tree(dirs[d := map[]], locked), Pass)
    }
  }

  /** Parents and base names of the sample paths below. */
  lemma SamplePaths()
    ensures Dir("/a/b") == "/a" && Base("/a/b") == "b"
    ensures Dir("/a/b/c") == "/a/b" && Base("/a/b/c") == "c"
    ensures Dir("/a/c") == "/a" && Base("/a/c") == "c"
    ensures "/a/b/c/d"[..LastSlash("/a/b/c/d")] == "/a/b/c"
    ensures "/a/b/c"[..LastSlash("/a/b/c")] == "/a/b"
    ensures LastSlash("/a/c") == 2 && "/a/c"[..2] == "/a"
    ensures Clean("/a/b/c/d") == "/a/b/c/d" && Clean("/a/b") == "/a/b" && Clean("/a/c/") == "/a/c"
    ensures Dir("/s") == "/"
  {
    assert LastSlash("/a/b") == 2;
    assert LastSlash("/a/b/c") == 4;
    assert LastSlash("/a/b/c/d") == 6;
    assert LastSlash("/a/c") == 2;
    assert LastSlash("/s") == 0;
    assert StripTrailing("/a/c") == "/a/c";
  }

  /** A file on the way up stops os.MkdirAll at that file. */
  lemma MkdirAllBelowFile()
    ensures Tree(map["/a" := map["b" := Raw("")]], {}).MkdirAll("/a/b/c/d").outcome
      == Fail(Io("mkdir", "/a/b", NotDirectory))
  {
    var t := Tree(map["/a" := map["b" := Raw("")]], {});
    SamplePaths();
    assert t.IsFile("/a/b") && !t.IsDir("/a/b");
    assert t.FileOnTheWay("/a/b/c") == Some("/a/b");
    assert t.FileOnTheWay("/a/b/c/d") == Some("/a/b");
  }

  /** A file in the place of the directory stops os.MkdirAll at the path itself. */
  lemma MkdirAllOverFile()
    ensures Tree(map["/a" := map["b" := Raw("")]], {}).MkdirAll("/a/b").outcome
      == Fail(Io("mkdir", "/a/b", NotDirectory))
  {
    SamplePaths();
  }

  /** Beside that file, a directory is created; a trailing separator does not matter. */
  lemma MkdirAllBesideFile()
    ensures Tree(map["/a" := map["b" := Raw("")]], {}).MkdirAll("/a/c/").outcome.Pass?
  {
    var t := Tree(map["/a" := map["b" := Raw("")]], {});
    SamplePaths();
    assert !t.IsFile("/a/c");
    assert t.FileOnTheWay("/a/c") == None;
  }

  /** os.Remove removes an empty directory and refuses one that still holds a file. */
  lemma RemoveDirectories()
    ensures Tree(map["/s" := map[]], {}).Remove("/s") == Effect(Tree(map[], {}), Pass)
    ensures Tree(map["/s" := map["x" := Raw("")]], {}).Remove("/s").outcome == Fail(Io("remove", "/s", NotEmpty))
  {
    SamplePaths();
    var t := Tree(map["/s" := map["x" := Raw("")]], {});
    assert "x" in t.dirs["/s"];
    assert !t.IsFile("/s") && !t.IsEmptyDir("/s");
  }

  /** The disk: one mutable tree that every operation of the program reads and changes. */
  class FileSystem {
    var tree: Tree

    constructor (initial: Tree)
      ensures tree == initial
    {
      tree := initial;
    }

    /** os.Stat followed by os.IsNotExist on its error. */
    method StatMissing(p: string) returns (missing: bool)
      ensures missing == tree.Missing(p)
    {
      missing := tree.Missing(p);
    }

    method ReadFile(p: string) returns (r: Result<Data>)
      ensures r == tree.Read(p)
    {
      r := tree.Read(p);
    }

    method WriteFile(p: string, d: Data) returns (o: Outcome)
      modifies this
      ensures Effect(tree, o) == old(tree).Write(p, d)
    {
      var e := tree.Write(p, d);
      tree, o := e.tree, e.outcome;
    }

    method Remove(p: string) returns (o: Outcome)
      modifies this
      ensures Effect(tree, o) == old(tree).Remove(p)
    {
      var e := tree.Remove(p);
      tree, o := e.tree, e.outcome;
    }

    method Rename(src: string, dst: string) returns (o: Outcome)
      modifies this
      ensures Effect(tree, o) == old(tree).Rename(src, dst)
    {
      var e := tree.Rename(src, dst);
      tree, o := e.tree, e.outcome;
    }

    method MkdirAll(p: string) returns (o: Outcome)
      modifies this
      ensures Effect(tree, o) == old(tree).MkdirAll(p)
    {
      var e := tree.MkdirAll(p);
      tree, o := e.tree, e.outcome;
    }
  }
}
