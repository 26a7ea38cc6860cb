/**
 * pkg/edit/bootstrap.go: turning a YAML node into the text of a KCL
 * top-level argument. The node is marshalled to JSON (a parameter here)
 * and the JSON literals `true`, `false` and `null` that follow `: ` are
 * rewritten to KCL's `True`, `False` and `None`. The rewrite is purely
 * textual: it also applies inside JSON string values.
 */
module EditBootstrap {
  import opened Wrappers
  import opened Values
  import opened Strs

  const ResourceListOptionName := "resource_list"

  const JsonTrue := ": true"
  const KclTrue := ": True"
  const JsonFalse := ": false"
  const KclFalse := ": False"
  const JsonNull := ": null"
  const KclNone := ": None"

  /** The three strings.Replace calls of ToKCLValueString, in their order. */
  function ToKclLiterals(json: string): string
  {
    var r1 := ReplaceAll(json, JsonTrue, KclTrue);
    var r2 := ReplaceAll(r1, JsonFalse, KclFalse);
    ReplaceAll(r2, JsonNull, KclNone)
  }

  lemma PatternsHeaded()
    ensures Headed(JsonTrue, ':') && Headed(KclTrue, ':')
    ensures Headed(JsonFalse, ':') && Headed(KclFalse, ':')
    ensures Headed(JsonNull, ':') && Headed(KclNone, ':')
  {
  }

  /** No JSON literal after `: ` survives the rewrite. */
  lemma NoJsonLiteralsLeft(json: string)
    ensures !Occurs(ToKclLiterals(json), JsonTrue)
    ensures !Occurs(ToKclLiterals(json), JsonFalse)
    ensures !Occurs(ToKclLiterals(json), JsonNull)
  {
    PatternsHeaded();
    var r1 := ReplaceAll(json, JsonTrue, KclTrue);
    var r2 := ReplaceAll(r1, JsonFalse, KclFalse);
    NoOccurrenceAfterReplace(json, JsonTrue, KclTrue, JsonTrue, ':', 2);
    NoOccurrenceAfterReplace(r1, JsonFalse, KclFalse, JsonTrue, ':', 2);
    NoOccurrenceAfterReplace(r1, JsonFalse, KclFalse, JsonFalse, ':', 2);
    NoOccurrenceAfterReplace(r2, JsonNull, KclNone, JsonTrue, ':', 2);
    NoOccurrenceAfterReplace(r2, JsonNull, KclNone, JsonFalse, ':', 2);
    NoOccurrenceAfterReplace(r2, JsonNull, KclNone, JsonNull, ':', 2);
  }

  /** Each replacement has the length of its pattern, so the text keeps its length. */
  lemma ToKclLiteralsLength(json: string)
    ensures |ToKclLiterals(json)| == |json|
  {
    var r1 := ReplaceAll(json, JsonTrue, KclTrue);
    var r2 := ReplaceAll(r1, JsonFalse, KclFalse);
    ReplaceAllSameLength(json, JsonTrue, KclTrue);
    ReplaceAllSameLength(r1, JsonFalse, KclFalse);
    ReplaceAllSameLength(r2, JsonNull, KclNone);
  }

  /** Text holding none of the three patterns passes through unchanged. */
  lemma ToKclLiteralsIdentity(json: string)
    requires !Occurs(json, JsonTrue) && !Occurs(json, JsonFalse) && !Occurs(json, JsonNull)
    ensures ToKclLiterals(json) == json
  {
    ReplaceAllAbsent(json, JsonTrue, KclTrue);
    ReplaceAllAbsent(json, JsonFalse, KclFalse);
    ReplaceAllAbsent(json, JsonNull, KclNone);
  }

  /**
   * ToKCLValueString(node, default) as opts.go calls it: a missing node is
   * given the default text; a present node is marshalled and rewritten.
   */
  function ToKclValueString(node: Option<Value>, default: string, marshal: Value -> Result<string>): (r: Result<string>)
    ensures node.None? ==> r == Ok(default)
    ensures node.Some? ==> (r.Ok? <==> marshal(node.value).Ok?)
  {
    match node
    case None => Ok(default)
    case Some(v) =>
      var json :- marshal(v);
      Ok(ToKclLiterals(json))
  }

  /** A marshalled node's text is free of the JSON literals. */
  lemma ToKclValueStringClean(v: Value, default: string, marshal: Value -> Result<string>)
    requires marshal(v).Ok?
    ensures var r := ToKclValueString(Some(v), default, marshal);
      r.Ok? && |r.value| == |marshal(v).value|
      && !Occurs(r.value, JsonTrue) && !Occurs(r.value, JsonFalse) && !Occurs(r.value, JsonNull)
  {
    NoJsonLiteralsLeft(marshal(v).value);
    ToKclLiteralsLength(marshal(v).value);
  }

  /** The `name=value` form of a KCL option argument (fmt.Sprintf("%s=%s", ...)). */
  function Binding(name: string, value: string): (b: string)
    ensures HasPrefix(b, name + "=") && HasSuffix(b, value)
    ensures |b| == |name| + 1 + |value|
  {
    name + "=" + value
  }

  /** The option RunKCL passes to the program: `resource_list=<value>`. */
  function ResourceListOption(value: string): (opt: string)
    ensures HasPrefix(opt, "resource_list=") && opt[|"resource_list="|..] == value
  {
    Binding(ResourceListOptionName, value)
  }
}
