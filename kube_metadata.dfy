/**
 * pkg/kube/metadata.go: the identifying metadata of an object and the
 * `<kind>/<namespace>/<name>` identifier built from it.
 */
module KubeMetadata {
  import opened Values
  import opened Strs
  import opened Schema

  datatype ObjMetadata = ObjMetadata(namespace: string, name: string, groupKind: GroupKind)

  /**
   * Unstructured.GroupVersionKind: the apiVersion split into group and
   * version, with the kind; an apiVersion that does not parse gives an
   * entirely empty group-version-kind, kind included.
   */
  function UnstructuredGvk(obj: map<string, Value>): GroupVersionKind
  {
    var apiVersion := NestedString(obj, ["apiVersion"]);
    match ParseGroupVersion(apiVersion)
    case Ok(gv) => GroupVersionKind(gv.group, gv.version, NestedString(obj, ["kind"]))
    case Err(_) => GroupVersionKind("", "", "")
  }

  /** UnstructuredToObjMetadata: namespace, name and group-kind of the object. */
  function UnstructuredToObjMetadata(obj: map<string, Value>): (m: ObjMetadata)
    ensures m.namespace == NestedString(obj, ["metadata", "namespace"])
    ensures m.name == NestedString(obj, ["metadata", "name"])
    ensures m.groupKind == GroupKind(UnstructuredGvk(obj).group, UnstructuredGvk(obj).kind)
  {
    var gvk := UnstructuredGvk(obj);
    ObjMetadata(NestedString(obj, ["metadata", "namespace"]), NestedString(obj, ["metadata", "name"]), GroupKind(gvk.group, gvk.kind))
  }

  /** An object of a named group keeps that group and its kind. */
  lemma MetadataOfGroupedObject(obj: map<string, Value>, group: string, version: string)
    requires group != "" && '/' !in group && '/' !in version
    requires "apiVersion" in obj && obj["apiVersion"] == Str(group + "/" + version)
    ensures UnstructuredToObjMetadata(obj).groupKind == GroupKind(group, NestedString(obj, ["kind"]))
  {
    ParseJoined(group, version);
  }

  /** An apiVersion with two or more `/` loses the kind as well as the group. */
  lemma MalformedApiVersionLosesKind(obj: map<string, Value>)
    requires "apiVersion" in obj && obj["apiVersion"] == Str("a/b/c")
    ensures UnstructuredToObjMetadata(obj).groupKind == GroupKind("", "")
  {
    assert "a/b/c" == "a/" + "b/c";
    CountCharAppend("a/", "b/c", '/');
    assert "b/c" == "b/" + "c";
    CountCharAppend("b/", "c", '/');
    assert CountChar("a/", '/') == 1 by {
      assert "a/"[1..] == "/";
      assert "/"[1..] == "";
    }
    assert CountChar("b/", '/') == 1 by {
      assert "b/"[1..] == "/";
      assert "/"[1..] == "";
    }
  }

  /** The identifier ID returns: kind, then the namespace when there is one, then the name. */
  function ObjectId(m: ObjMetadata): (id: string)
    ensures HasPrefix(id, m.groupKind.kind + "/")
    ensures HasSuffix(id, m.name)
  {
    var head := m.groupKind.kind + "/" + (if m.namespace != "" then m.namespace + "/" else "");
    assert (head + m.name)[..|m.groupKind.kind + "/"|] == m.groupKind.kind + "/";
    assert (head + m.name)[|head|..] == m.name;
    head + m.name
  }

  /** ObjMetadata.ID: written piece by piece into a builder. */
  method ID(m: ObjMetadata) returns (id: string)
    ensures id == ObjectId(m)
    ensures m.namespace == "" ==> id == m.groupKind.kind + "/" + m.name
    ensures m.namespace != "" ==> id == m.groupKind.kind + "/" + m.namespace + "/" + m.name
  {
    var builder := "";
    builder := builder + (m.groupKind.kind + "/");
    if m.namespace != "" {
      builder := builder + (m.namespace + "/");
    }
    builder := builder + m.name;
    return builder;
  }

  /** Splitting `a + "/" + b` at its first `/`, when `a` has none. */
  lemma FirstSlash(a: string, b: string)
    requires '/' !in a
    ensures IndexOf(a + "/" + b, '/') == |a|
    ensures (a + "/" + b)[..|a|] == a && (a + "/" + b)[|a| + 1..] == b
  {
    var s := a + "/" + b;
    assert s[|a|] == '/';
    assert forall j :: 0 <= j < |a| ==> s[j] == a[j];
  }

  /** The identifier of an object without `/` in kind, namespace and name. */
  predicate SlashFree(m: ObjMetadata) {
    '/' !in m.groupKind.kind && '/' !in m.namespace && '/' !in m.name
  }

  /** The part of the identifier after the kind. */
  function IdRest(m: ObjMetadata): string {
    (if m.namespace != "" then m.namespace + "/" else "") + m.name
  }

  /** The identifier is the kind, a `/`, and the rest. */
  lemma ObjectIdParts(m: ObjMetadata)
    ensures ObjectId(m) == m.groupKind.kind + "/" + IdRest(m)
  {
  }

  /** The rest holds a `/` exactly when there is a namespace, and splits there into namespace and name. */
  lemma RestSplits(m: ObjMetadata)
    requires SlashFree(m)
    ensures m.namespace == "" ==> IdRest(m) == m.name && '/' !in IdRest(m)
    ensures m.namespace != "" ==> ('/' in IdRest(m)
      && IdRest(m)[..IndexOf(IdRest(m), '/')] == m.namespace
      && IdRest(m)[IndexOf(IdRest(m), '/') + 1..] == m.name)
  {
    if m.namespace != "" {
      FirstSlash(m.namespace, m.name);
      assert IdRest(m)[|m.namespace|] == '/';
    }
  }

  /** Without `/` in its parts, the identifier determines kind, namespace and name. */
  lemma ObjectIdInjective(m1: ObjMetadata, m2: ObjMetadata)
    requires SlashFree(m1) && SlashFree(m2)
    requires ObjectId(m1) == ObjectId(m2)
    ensures m1.groupKind.kind == m2.groupKind.kind && m1.namespace == m2.namespace && m1.name == m2.name
  {
    ObjectIdParts(m1);
    ObjectIdParts(m2);
    FirstSlash(m1.groupKind.kind, IdRest(m1));
    FirstSlash(m2.groupKind.kind, IdRest(m2));
    assert m1.groupKind.kind == m2.groupKind.kind;
    assert IdRest(m1) == IdRest(m2);
    RestSplits(m1);
    RestSplits(m2);
  }

  /** The group is not part of the identifier: objects of different groups can share one. */
  lemma ObjectIdIgnoresGroup(m: ObjMetadata, group: string)
    ensures ObjectId(m) == ObjectId(m.(groupKind := GroupKind(group, m.groupKind.kind)))
  {
  }
}
