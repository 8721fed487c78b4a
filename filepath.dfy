/**
 * The path arithmetic of `dotRename`: `filepath.Dir`, `filepath.Base` and
 * `filepath.Join` on clean slash-separated paths, and the marker name that the
 * loader renames a finished file to.
 */
module FilePath {
  import opened GoStrings

  /** A path component that `filepath.Clean` keeps as it is. */
  predicate NormalName(c: string) {
    c != "" && c != "." && c != ".."
  }

  /**
   * A clean path naming a file: relative ("a/b") or absolute ("/a/b"), with no
   * empty, "." or ".." component and no trailing slash.
   */
  predicate SimplePath(p: string) {
    var cs := Split(p, '/');
    NormalName(cs[|cs| - 1]) &&
    forall i :: 0 <= i < |cs| - 1 ==> NormalName(cs[i]) || (i == 0 && cs[i] == "")
  }

  /** `filepath.Base`: the last component. */
  function Base(p: string): (b: string)
    requires SimplePath(p)
    ensures NormalName(b) && '/' !in b
  {
    var cs := Split(p, '/');
    cs[|cs| - 1]
  }

  /** `filepath.Dir`: everything but the last component, "." for a bare name, "/" under the root. */
  function Dir(p: string): string
    requires SimplePath(p)
  {
    var cs := Split(p, '/');
    if |cs| == 1 then "."
    else if |cs| == 2 && cs[0] == "" then "/"
    else Join(cs[..|cs| - 1], '/')
  }

  /** `filepath.Join(dir, name)` for a directory as Dir returns it and a plain name. */
  function PathJoin(dir: string, name: string): string {
    if dir == "." then name
    else if dir == "/" then "/" + name
    else dir + "/" + name
  }

  /**
   * The target of `dotRename`: the same directory, with "." put in front of the
   * base name.
   */
  function DotRename(p: string): (q: string)
    requires SimplePath(p)
    ensures SimplePath(q)
    ensures Dir(q) == Dir(p) && Base(q) == "." + Base(p)
  {
    var cs := Split(p, '/');
    var n := |cs|;
    var marked := cs[..n - 1] + ["." + Base(p)];
    assert ("." + Base(p))[1..] == Base(p);
    var q := PathJoin(Dir(p), "." + Base(p));
    assert q == Join(marked, '/') by { RejoinLast(p, "." + Base(p)); }
    SplitJoin(marked, '/');
    assert marked[..n - 1] == cs[..n - 1];
    q
  }

  /** Splitting to components and joining them back with Dir and Base gives the path. */
  lemma JoinDirBase(p: string)
    requires SimplePath(p)
    ensures PathJoin(Dir(p), Base(p)) == p
  {
    var cs := Split(p, '/');
    RejoinLast(p, Base(p));
    assert cs[..|cs| - 1] + [Base(p)] == cs;
  }

  /** PathJoin(Dir(p), name) joins the directory components of p and then `name`. */
  lemma RejoinLast(p: string, name: string)
    requires SimplePath(p)
    ensures PathJoin(Dir(p), name) == Join(Split(p, '/')[..|Split(p, '/')| - 1] + [name], '/')
  {
    var cs := Split(p, '/');
    var n := |cs|;
    var ds := cs[..n - 1];
    if n == 1 {
      assert Dir(p) == "." && ds + [name] == [name];
    } else if n == 2 && cs[0] == "" {
      assert Dir(p) == "/" && ds + [name] == ["", name];
      assert ["", name][1..] == [name];
    } else {
      assert Dir(p) == Join(ds, '/');
      JoinSnoc(ds, name, '/');
      DirNotSpecial(ds);
    }
  }

  /**
   * The directory components of a path with at least one directory join to
   * neither "." nor "/", so PathJoin puts a slash between them and the name.
   */
  lemma DirNotSpecial(ds: seq<string>)
    requires |ds| >= 1 && '/' !in ds[0]
    requires |ds| == 1 ==> NormalName(ds[0])
    requires |ds| >= 2 ==> NormalName(ds[1])
    ensures Join(ds, '/') != "." && Join(ds, '/') != "/"
  {
    if |ds| == 1 {
      assert ds[0] != "/" by { assert '/' in "/"; }
    } else {
      JoinPrefix(ds[1..], '/');
      assert |Join(ds, '/')| >= 2;
    }
  }

  /** Join(parts + [x]) adds one separator and x to Join(parts). */
  lemma {:induction false} JoinSnoc(parts: seq<string>, x: string, sep: char)
    requires |parts| >= 1
    ensures Join(parts + [x], sep) == Join(parts, sep) + [sep] + x
    decreases |parts|
  {
    var ps := parts + [x];
    assert ps[1..] == parts[1..] + [x];
    if |parts| == 1 {
      assert ps[1..] == [x];
    } else {
      JoinSnoc(parts[1..], x, sep);
    }
  }

  /** The first piece of a join is at the front of it. */
  lemma {:induction false} JoinPrefix(parts: seq<string>, sep: char)
    requires |parts| >= 1
    ensures |Join(parts, sep)| >= |parts[0]|
  {
  }
}
