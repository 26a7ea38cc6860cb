/**
 * pkg/kube/resource_list.go: decoding a ResourceList document into its
 * items and optional function config. YAML parsing is given as a function.
 */
module KubeResourceList {
  import opened Wrappers
  import opened Values
  import opened Api
  import opened KubeObjects

  /** Go's `%q` for a string without characters that need escaping. */
  function Quote(s: string): string {
    "\"" + s + "\""
  }

  /** The error for a document of another kind. */
  function UnexpectedKindMsg(kind: string): string {
    "input was of unexpected kind " + Quote(kind) + "; expected ResourceList"
  }

  /**
   * GetNestedMap("functionConfig"): a KubeObject around the looked-up node,
   * which is nil when the field is missing; nothing when the lookup fails.
   */
  function FunctionConfigOf(o: Value): (fc: Option<KubeObject>)
    ensures o.StrMap? && "functionConfig" in o.fields ==> fc == Some(KubeObject(Some(o.fields["functionConfig"])))
    ensures o.StrMap? && "functionConfig" !in o.fields ==> fc == Some(KubeObject(None))
  {
    match Lookup(o, "functionConfig")
    case Ok(node) => Some(KubeObject(node))
    case Err(_) => None
  }

  /** One KubeObject per node. */
  function Wrap(nodes: seq<Value>): (objs: seq<KubeObject>)
    ensures |objs| == |nodes|
    ensures forall k :: 0 <= k < |nodes| ==> objs[k] == KubeObject(Some(nodes[k]))
  {
    if nodes == [] then [] else Wrap(nodes[..|nodes| - 1]) + [KubeObject(Some(nodes[|nodes| - 1]))]
  }

  /** GetNestedSlice("items"): the elements of the looked-up node; nothing when either step fails. */
  function ItemsOf(o: Value): Option<seq<KubeObject>>
  {
    match Lookup(o, "items")
    case Err(_) => None
    case Ok(node) =>
      match Elements(node)
      case Err(_) => None
      case Ok(nodes) => Some(Wrap(nodes))
  }

  /** The parsed document's items: one object per element of a sequence `items`, none when it is missing. */
  lemma ItemsOfList(o: Value)
    requires o.StrMap?
    ensures "items" !in o.fields ==> ItemsOf(o) == Some([])
    ensures "items" in o.fields && o.fields["items"].List? ==>
      ItemsOf(o).Some? && |ItemsOf(o).value| == |o.fields["items"].elems|
      && forall k :: 0 <= k < |o.fields["items"].elems| ==> ItemsOf(o).value[k] == KubeObject(Some(o.fields["items"].elems[k]))
    ensures "items" in o.fields && !o.fields["items"].List? && o.fields["items"] != Null ==> ItemsOf(o).None?
  {
  }

  /** kube.ResourceList */
  class ResourceList {
    var items: seq<KubeObject>
    var functionConfig: Option<KubeObject>

    constructor ()
      ensures items == [] && functionConfig == None
    {
      items := [];
      functionConfig := None;
    }
  }

  /**
   * ParseResourceList: parse the document, insist on kind ResourceList,
   * and take its function config and items when they can be read.
   */
  method ParseResourceList(input: string, parse: string -> Result<Value>) returns (r: Result<ResourceList>)
    ensures parse(input).Err? ==> r == Err("failed to parse input bytes: " + parse(input).msg)
    ensures parse(input).Ok? && StringField(parse(input).value, "kind") != ResourceListKind ==>
      r == Err(UnexpectedKindMsg(StringField(parse(input).value, "kind")))
    ensures parse(input).Ok? && StringField(parse(input).value, "kind") == ResourceListKind ==>
      var o := parse(input).value;
      r.Ok? && fresh(r.value)
      && r.value.functionConfig == FunctionConfigOf(o)
      && r.value.items == (if ItemsOf(o).Some? then ItemsOf(o).value else [])
  {
    var rl := new ResourceList();
    var o := parse(input);
    if o.Err? {
      return Err("failed to parse input bytes: " + o.msg);
    }
    var kind := StringField(o.value, "kind");
    if kind != ResourceListKind {
      return Err(UnexpectedKindMsg(kind));
    }
    var fc := FunctionConfigOf(o.value);
    if fc.Some? {
      rl.functionConfig := fc;
    }
    var items := ItemsOf(o.value);
    if items.Some? {
      rl.items := items.value;
    }
    return Ok(rl);
  }

  /** A document of kind ResourceList is a mapping, so its function config is always attached. */
  lemma ResourceListHasFunctionConfig(o: Value)
    requires StringField(o, "kind") == ResourceListKind
    ensures FunctionConfigOf(o).Some?
    ensures "functionConfig" in o.fields ==> FunctionConfigOf(o).value.node == Some(o.fields["functionConfig"])
  {
  }
}
