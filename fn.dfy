/**
 * The kpt function SDK's ResourceList as the core uses it: the input
 * resources, the function config, and the results reported back.
 */
module Fn {
  import opened Values

  datatype Severity = Error | Warning | Info

  /** fn.Result: one reported message. */
  datatype FnResult = FnResult(message: string, severity: Severity)

  /** fn.KubeObject.IsEmpty: the object has no fields. */
  predicate IsEmptyObject(v: Value) {
    v == Null || v == StrMap(map[])
  }

  /** fn.ResourceList */
  class ResourceList {
    var items: seq<Value>
    var functionConfig: Value
    var results: seq<FnResult>

    constructor (items: seq<Value>, functionConfig: Value)
      ensures this.items == items && this.functionConfig == functionConfig && results == []
    {
      this.items := items;
      this.functionConfig := functionConfig;
      results := [];
    }
  }
}
