/**
 * The JSON-like object tree the core works on. It stands for kyaml's
 * RNode trees, the kpt SDK's KubeObject, and the `interface{}` trees of
 * apimachinery's `unstructured` package.
 *   - `StrMap` is a mapping with string keys (`map[string]interface{}`).
 *   - `AnyMap` is a mapping whose keys may be any YAML scalar
 *     (`map[interface{}]interface{}`).
 * A kyaml mapping node finds its fields by the text of their key nodes,
 * whatever the keys' tags, so a kyaml mapping is always a `StrMap` keyed by
 * that text (`1: x` has the key "1"). `AnyMap` stands only for the decoded
 * `interface{}` trees of `pkg/kube`, which the kyaml readers below never see.
 *   - `List` is a sequence (`[]interface{}`).
 */
module Values {
  import opened Wrappers

  /** A scalar YAML mapping key. */
  datatype Key = KStr(s: string) | KInt(i: int) | KBool(b: bool)

  datatype Value =
    | Null
    | Bool(b: bool)
    | Int(i: int)
    | Str(s: string)
    | List(elems: seq<Value>)
    | StrMap(fields: map<string, Value>)
    | AnyMap(entries: map<Key, Value>)

  /** The string held by a top-level field of a mapping, or "" (RNode.GetKind, GetApiVersion). */
  function StringField(v: Value, name: string): (s: string)
    ensures s != "" ==> v.StrMap? && name in v.fields && v.fields[name] == Str(s)
  {
    if v.StrMap? && name in v.fields && v.fields[name].Str? then v.fields[name].s else ""
  }

  /**
   * The value under a path of string-keyed mappings, as unstructured's
   * NestedFieldNoCopy: every step but the last must be a `StrMap`.
   */
  function NestedField(obj: map<string, Value>, path: seq<string>): Option<Value>
    requires |path| > 0
    decreases |path|
  {
    if path[0] !in obj then None
    else if |path| == 1 then Some(obj[path[0]])
    else if obj[path[0]].StrMap? then NestedField(obj[path[0]].fields, path[1..])
    else None
  }

  /** unstructured's getNestedString: the string at `path`, or "". */
  function NestedString(obj: map<string, Value>, path: seq<string>): string
    requires |path| > 0
  {
    match NestedField(obj, path)
    case Some(Str(s)) => s
    case _ => ""
  }

  /**
   * unstructured's NestedStringMap as GetLabels and GetAnnotations use it:
   * a mapping whose values are all strings, or the empty map (nil) otherwise.
   */
  function NestedStringMap(obj: map<string, Value>, path: seq<string>): map<string, string>
    requires |path| > 0
  {
    match NestedField(obj, path)
    case Some(StrMap(m)) =>
      if forall k :: k in m ==> m[k].Str? then map k | k in m :: m[k].s else map[]
    case _ => map[]
  }

  /**
   * kyaml's Lookup of one field: the field's node, None when it is missing,
   * and an error when the node is neither a mapping (a `StrMap`) nor null.
   */
  function Lookup(v: Value, name: string): (r: Result<Option<Value>>)
    ensures r.Ok? && r.value.Some? ==> v.StrMap? && name in v.fields && r.value.value == v.fields[name]
    ensures r.Err? <==> !v.StrMap? && !v.Null?
  {
    match v
    case StrMap(m) => if name in m then Ok(Some(m[name])) else Ok(None)
    case Null => Ok(None)
    case _ => Err("wrong node kind: expected MappingNode")
  }

  /** kyaml's Lookup of a field path; a missing step ends the walk with None. */
  function LookupPath(v: Option<Value>, path: seq<string>): Result<Option<Value>>
    decreases |path|
  {
    if v.None? || path == [] then Ok(v)
    else
      var next :- Lookup(v.value, path[0]);
      LookupPath(next, path[1..])
  }

  /** kyaml's RNode.Elements: a nil or null node has no elements; a non-sequence is an error. */
  function Elements(v: Option<Value>): (r: Result<seq<Value>>)
    ensures v.Some? && v.value.List? ==> r == Ok(v.value.elems)
  {
    match v
    case None => Ok([])
    case Some(Null) => Ok([])
    case Some(List(es)) => Ok(es)
    case Some(_) => Err("wrong node kind: expected SequenceNode")
  }
}
