/**
 * The part of Kubernetes' runtime/schema package the core calls: splitting
 * an apiVersion into group and version, and the printed form of a
 * group-version-kind.
 */
module Schema {
  import opened Wrappers
  import opened Strs

  datatype GroupVersion = GroupVersion(group: string, version: string)
  datatype GroupVersionKind = GroupVersionKind(group: string, version: string, kind: string)
  datatype GroupKind = GroupKind(group: string, kind: string)

  /** The number of occurrences of `c` in `s` (strings.Count for one character). */
  function CountChar(s: string, c: char): nat
  {
    if s == [] then 0 else (if s[0] == c then 1 else 0) + CountChar(s[1..], c)
  }

  /** Counting distributes over concatenation. */
  lemma {:induction false} CountCharAppend(a: string, b: string, c: char)
    ensures CountChar(a + b, c) == CountChar(a, c) + CountChar(b, c)
  {
    if a == [] {
      assert a + b == b;
    } else {
      assert (a + b)[1..] == a[1..] + b;
      CountCharAppend(a[1..], b, c);
    }
  }

  /** A string without `c` counts none. */
  lemma {:induction false} CountCharAbsent(s: string, c: char)
    requires c !in s
    ensures CountChar(s, c) == 0
  {
    if s != [] {
      assert c !in s[1..];
      CountCharAbsent(s[1..], c);
    }
  }

  /** `group/version` with a slash-free group and version parses back into the two. */
  lemma ParseJoined(group: string, version: string)
    requires group != "" && '/' !in group && '/' !in version
    ensures ParseGroupVersion(group + "/" + version) == Ok(GroupVersion(group, version))
  {
    var gv := group + "/" + version;
    CountCharAppend(group + "/", version, '/');
    CountCharAppend(group, "/", '/');
    CountCharAbsent(group, '/');
    CountCharAbsent(version, '/');
    assert CountChar("/", '/') == 1;
    assert gv[|group|] == '/';
    assert forall j :: 0 <= j < |group| ==> gv[j] == group[j];
    ParseOneSlash(gv, |group|);
    assert gv[..|group|] == group && gv[|group| + 1..] == version;
  }

  /** A character that is counted can be found. */
  lemma {:induction false} CountCharPositive(s: string, c: char)
    requires CountChar(s, c) > 0
    ensures IndexOf(s, c) < |s|
  {
    if s[0] != c {
      CountCharPositive(s[1..], c);
      assert IndexOf(s, c) == 1 + IndexOf(s[1..], c);
    }
  }

  /** schema.ParseGroupVersion */
  function ParseGroupVersion(gv: string): (r: Result<GroupVersion>)
    ensures r.Err? <==> CountChar(gv, '/') > 1 && gv != "/"
  {
    if gv == "" || gv == "/" then Ok(GroupVersion("", ""))
    else if CountChar(gv, '/') == 0 then Ok(GroupVersion("", gv))
    else if CountChar(gv, '/') == 1 then
      var i := IndexOf(gv, '/');
      CountCharPositive(gv, '/');
      Ok(GroupVersion(gv[..i], gv[i + 1..]))
    else Err("unexpected GroupVersion string: " + gv)
  }

  /** schema.FromAPIVersionAndKind: an unparsable apiVersion gives an empty group and version. */
  function FromAPIVersionAndKind(apiVersion: string, kind: string): GroupVersionKind
  {
    match ParseGroupVersion(apiVersion)
    case Ok(gv) => GroupVersionKind(gv.group, gv.version, kind)
    case Err(_) => GroupVersionKind("", "", kind)
  }

  /** GroupVersionKind.String */
  function GvkString(gvk: GroupVersionKind): string
  {
    gvk.group + "/" + gvk.version + ", Kind=" + gvk.kind
  }

  /** An apiVersion with one `/` splits into the group before it and the version after it. */
  lemma ParseOneSlash(gv: string, i: nat)
    requires i < |gv| && gv[i] == '/' && CountChar(gv, '/') == 1
    requires forall j :: 0 <= j < i ==> gv[j] != '/'
    ensures ParseGroupVersion(gv) == Ok(GroupVersion(gv[..i], gv[i + 1..]))
  {
  }

  /** An apiVersion without `/` is a version of the core (empty) group. */
  lemma ParseNoSlash(gv: string)
    requires gv != "" && CountChar(gv, '/') == 0
    ensures ParseGroupVersion(gv) == Ok(GroupVersion("", gv))
  {
  }
}
