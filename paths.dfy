/**
 * The parts of Go's path/filepath the source package uses, for Unix paths.
 * Join and Dir here do not apply filepath.Clean: `.` and `..` segments and
 * doubled slashes in their input are kept.
 */
module Paths {
  import opened Strs

  /** filepath.IsAbs */
  predicate IsAbs(p: string) {
    HasPrefix(p, "/")
  }

  /** filepath.Join of a directory and a file name. */
  function JoinPath(dir: string, name: string): (r: string)
    ensures HasSuffix(r, name)
  {
    if dir == "" then name else if HasSuffix(dir, "/") then dir + name else dir + "/" + name
  }

  /** The index of the last `/` in `p`, or -1. */
  function LastSlash(p: string): (i: int)
    ensures -1 <= i < |p|
    ensures i >= 0 ==> p[i] == '/'
    ensures forall j :: i < j < |p| ==> p[j] != '/'
  {
    if p == [] then -1
    else if p[|p| - 1] == '/' then |p| - 1
    else LastSlash(p[..|p| - 1])
  }

  /** filepath.Dir: everything before the last `/`; `.` when there is none. */
  function DirOf(p: string): string
  {
    var i := LastSlash(p);
    if i < 0 then "." else if i == 0 then "/" else p[..i]
  }

  /** filepath.Base for a path not ending in `/`: everything after the last `/`. */
  function BaseName(p: string): (b: string)
    ensures HasSuffix(p, b) && '/' !in b
  {
    var i := LastSlash(p);
    TailAfter(p, i);
    p[i + 1..]
  }

  /** The text after an index past which no `/` occurs is a suffix without `/`. */
  lemma TailAfter(p: string, i: int)
    requires -1 <= i < |p|
    requires forall j :: i < j < |p| ==> p[j] != '/'
    ensures HasSuffix(p, p[i + 1..]) && '/' !in p[i + 1..]
  {
    var b := p[i + 1..];
    forall k | 0 <= k < |b|
      ensures b[k] != '/'
    {
      assert b[k] == p[i + 1 + k];
    }
    assert p[|p| - |b|..] == b;
  }

  /** The base name of a joined path is the joined name. */
  lemma BaseOfJoin(dir: string, name: string)
    requires '/' !in name
    ensures BaseName(JoinPath(dir, name)) == name
  {
    var p := JoinPath(dir, name);
    var i := LastSlash(p);
    assert p[|p| - |name|..] == name;
    forall j | |p| - |name| <= j < |p|
      ensures p[j] != '/'
    {
      assert p[j] == name[j - (|p| - |name|)];
    }
    if dir != "" {
      assert p[|p| - |name| - 1] == '/';
    }
    assert i == |p| - |name| - 1;
  }

  /** The directory of a name joined onto a directory not ending in `/` is that directory. */
  lemma DirOfJoin(dir: string, name: string)
    requires dir != "" && !HasSuffix(dir, "/") && '/' !in name
    ensures DirOf(JoinPath(dir, name)) == dir
  {
    var p := JoinPath(dir, name);
    assert p == dir + "/" + name;
    forall j | |dir| < j < |p|
      ensures p[j] != '/'
    {
      assert p[j] == name[j - |dir| - 1];
    }
    assert p[|dir|] == '/';
    assert LastSlash(p) == |dir|;
    assert p[..|dir|] == dir;
  }

  /** filepath.Ext: the suffix from the last `.` of the final element, or "". */
  function Ext(p: string): (e: string)
    ensures HasSuffix(p, e)
    ensures e == "" || e[0] == '.'
  {
    if p == [] then ""
    else
      var last := p[|p| - 1];
      if last == '/' then ""
      else if last == '.' then "."
      else
        var e := Ext(p[..|p| - 1]);
        if e == "" then "" else e + [last]
  }

  /** strings.TrimSuffix */
  function TrimSuffix(s: string, suffix: string): (r: string)
    ensures HasSuffix(s, suffix) ==> r + suffix == s
    ensures !HasSuffix(s, suffix) ==> r == s
  {
    if HasSuffix(s, suffix) then s[..|s| - |suffix|] else s
  }

  /** The extension of a `.tar` file is `.tar`. */
  lemma ExtOfTar(p: string)
    requires HasSuffix(p, ".tar")
    ensures Ext(p) == ".tar"
  {
    var w := p[..|p| - 4];
    assert p == w + ".tar";
    assert p[..|p| - 1] == w + ".ta";
    assert (w + ".ta")[..|w| + 2] == w + ".t";
    assert (w + ".t")[..|w| + 1] == w + ".";
    assert Ext(w + ".") == ".";
    assert Ext(w + ".t") == ".t";
    assert Ext(w + ".ta") == ".ta";
  }

  /** The directory a `.tar` is extracted to is the tar path without `.tar`. */
  lemma TarDestDir(tarPath: string)
    requires HasSuffix(tarPath, ".tar")
    ensures TrimSuffix(tarPath, Ext(tarPath)) + ".tar" == tarPath
  {
    ExtOfTar(tarPath);
  }
}
