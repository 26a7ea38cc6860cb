/**
 * pkg/config/config.go: the KCLRun record a function config is turned
 * into, the exact-match resource rules of this revision, and the
 * transformation of a ResourceList with a configured KCLRun.
 *
 * Decoding a ConfigMap or a KCLRun from a node (KubeObject.As) and the
 * YAML text round trip of the resources (Parse of String) are parameters.
 */
module KclRunConfig {
  import opened Wrappers
  import Api
  import opened Values
  import opened Strs
  import opened Schema
  import opened Fn
  import opened EditTransformer
  import MatchRules

  /** ResourceRule of this revision: exact apiGroups, apiVersions and resources lists. */
  datatype ResourceRule = ResourceRule(apiGroups: seq<string>, apiVersions: seq<string>, resources: seq<string>)

  /** MatchConstraints; `None` is a nil ResourceRules slice, `Some([])` an empty one. */
  datatype MatchConstraints = MatchConstraints(resourceRules: Option<seq<ResourceRule>>)

  /** The fields of a KCLRun that the core reads or writes. */
  datatype KclRunState = KclRunState(
    name: string,
    namespace: string,
    annotations: map<string, string>,
    source: string,
    params: map<string, Value>,
    matchConstraints: MatchConstraints)

  /** The fields of a corev1.ConfigMap that Config reads. */
  datatype ConfigMap = ConfigMap(name: string, namespace: string, data: map<string, string>)

  type ConfigMapDecoder = Value -> Result<ConfigMap>
  type KclRunDecoder = Value -> Result<KclRunState>

  /** The YAML text round trip of a node (yaml.Parse of its String, fn.ParseKubeObject of MustString). */
  type Reparse = Value -> Result<Value>

  const MissingConfigMsg := "FunctionConfig is missing. Expect `ConfigMap` or `KCLRun`"
  const EmptySourceMsg := "`source` must not be empty"

  function ZeroState(): KclRunState {
    KclRunState("", "", map[], "", map[], MatchConstraints(None))
  }

  /** The rules of this revision: exact membership (containsString). */
  function ContainsString(slice: seq<string>, str: string): bool
  {
    if slice == [] then false
    else if slice[0] == str then true
    else ContainsString(slice[1..], str)
  }

  lemma {:induction false} ContainsStringIsMembership(slice: seq<string>, str: string)
    ensures ContainsString(slice, str) <==> str in slice
  {
    if slice != [] && slice[0] != str {
      ContainsStringIsMembership(slice[1..], str);
      assert str in slice <==> str in slice[1..];
    }
  }

  /** isEmptyStruct: every field of MatchConstraints is its zero value, that is ResourceRules is nil. */
  function IsEmptyStruct(mc: MatchConstraints): bool
  {
    mc.resourceRules == None
  }

  /** The group of an object's apiVersion (KubeObject.GroupKind().Group). */
  function GroupOf(obj: Value): string
  {
    FromAPIVersionAndKind(StringField(obj, "apiVersion"), StringField(obj, "kind")).group
  }

  predicate RuleMatches(rule: ResourceRule, obj: Value) {
    ContainsString(rule.apiGroups, GroupOf(obj))
    && ContainsString(rule.apiVersions, StringField(obj, "apiVersion"))
    && ContainsString(rule.resources, StringField(obj, "kind"))
  }

  /** The rule loop, returning on the first matching rule. */
  function AnyRuleMatches(rules: seq<ResourceRule>, obj: Value): bool
  {
    if rules == [] then false
    else if RuleMatches(rules[0], obj) then true
    else AnyRuleMatches(rules[1..], obj)
  }

  /** KCLRun.MatchResourceRules */
  function MatchResourceRules(mc: MatchConstraints, obj: Value): bool
  {
    if IsEmptyStruct(mc) then true
    else if |mc.resourceRules.value| == 0 then true
    else AnyRuleMatches(mc.resourceRules.value, obj)
  }

  /** With no constraints, or a nil or empty rule list, every object matches. */
  lemma UnconstrainedMatchesAll(mc: MatchConstraints, obj: Value)
    requires mc.resourceRules.None? || mc.resourceRules == Some([])
    ensures MatchResourceRules(mc, obj)
  {
  }

  lemma {:induction false} AnyRuleMatchesIff(rules: seq<ResourceRule>, obj: Value)
    ensures AnyRuleMatches(rules, obj) <==> exists i :: 0 <= i < |rules| && RuleMatches(rules[i], obj)
  {
    if rules != [] {
      AnyRuleMatchesIff(rules[1..], obj);
      if !RuleMatches(rules[0], obj) {
        forall i | 0 <= i < |rules| && RuleMatches(rules[i], obj)
          ensures 0 <= i - 1 < |rules[1..]| && RuleMatches(rules[1..][i - 1], obj)
        {
        }
      }
    }
  }

  /** With rules, an object matches iff some rule lists its group, apiVersion and kind. */
  lemma MatchIff(rules: seq<ResourceRule>, obj: Value)
    requires |rules| > 0
    ensures MatchResourceRules(MatchConstraints(Some(rules)), obj)
        <==> exists i :: 0 <= i < |rules|
               && GroupOf(obj) in rules[i].apiGroups
               && StringField(obj, "apiVersion") in rules[i].apiVersions
               && StringField(obj, "kind") in rules[i].resources
  {
    AnyRuleMatchesIff(rules, obj);
    forall i | 0 <= i < |rules|
      ensures RuleMatches(rules[i], obj)
          <==> (GroupOf(obj) in rules[i].apiGroups
                && StringField(obj, "apiVersion") in rules[i].apiVersions
                && StringField(obj, "kind") in rules[i].resources)
    {
      ContainsStringIsMembership(rules[i].apiGroups, GroupOf(obj));
      ContainsStringIsMembership(rules[i].apiVersions, StringField(obj, "apiVersion"));
      ContainsStringIsMembership(rules[i].resources, StringField(obj, "kind"));
    }
  }

  /** A rule with an empty field list matches nothing: empty is not a wildcard here. */
  lemma EmptyFieldNeverMatches(rule: ResourceRule, obj: Value)
    requires rule.apiGroups == [] || rule.apiVersions == [] || rule.resources == []
    ensures !RuleMatches(rule, obj)
  {
  }

  /** An object of the core group (apiVersion without `/`) matches only a rule listing the empty group. */
  lemma CoreGroupNeedsEmptyGroup(rule: ResourceRule, obj: Value)
    requires StringField(obj, "apiVersion") != "" && CountChar(StringField(obj, "apiVersion"), '/') == 0
    requires RuleMatches(rule, obj)
    ensures "" in rule.apiGroups
  {
    ParseNoSlash(StringField(obj, "apiVersion"));
    ContainsStringIsMembership(rule.apiGroups, GroupOf(obj));
  }

  /** DealAnnotations: whether plain-HTTP OCI access is to be switched on. */
  function PlainHttpRequested(annotations: map<string, string>): bool
  {
    Api.AnnotationAllowInsecureSource in annotations && MatchRules.IsOk(annotations[Api.AnnotationAllowInsecureSource])
  }

  /** The error for a function config of the wrong kind. */
  function KindMismatchMsg(apiVersion: string, kind: string): string
  {
    "`functionConfig` must be either "
      + GvkString(FromAPIVersionAndKind(Api.ConfigMapApiVersion, Api.ConfigMapKind)) + " or "
      + GvkString(FromAPIVersionAndKind(Api.KclRunApiVersion, Api.KclRunKind)) + ", but we got: "
      + GvkString(FromAPIVersionAndKind(apiVersion, kind))
  }

  /** The printed group-version-kinds of the two accepted function configs. */
  const ConfigMapGvkText := "/v1, Kind=ConfigMap"
  const KclRunGvkText := "krm.kcl.dev/v1alpha1, Kind=KCLRun"

  lemma ConfigMapGvk()
    ensures GvkString(FromAPIVersionAndKind(Api.ConfigMapApiVersion, Api.ConfigMapKind)) == ConfigMapGvkText
  {
    ParseNoSlash(Api.ConfigMapApiVersion);
  }

  lemma KclRunGvk()
    ensures GvkString(FromAPIVersionAndKind(Api.KclRunApiVersion, Api.KclRunKind)) == KclRunGvkText
  {
    ParseJoined(Api.KclRunGroup, Api.KclRunVersion);
  }

  /** The message names both accepted kinds, then the one it got. */
  lemma KindMismatchMsgNamesBoth(apiVersion: string, kind: string)
    ensures KindMismatchMsg(apiVersion, kind)
         == "`functionConfig` must be either " + ConfigMapGvkText + " or " + KclRunGvkText + ", but we got: "
            + GvkString(FromAPIVersionAndKind(apiVersion, kind))
  {
    ConfigMapGvk();
    KclRunGvk();
  }

  /** The ConfigMap branch: name and namespace copied, params from data, source from data["source"]. */
  function FromConfigMap(s: KclRunState, cm: ConfigMap): KclRunState
  {
    s.(name := cm.name, namespace := cm.namespace,
       params := map k | k in cm.data :: Str(cm.data[k]),
       source := if Api.SourceKey in cm.data then cm.data[Api.SourceKey] else s.source)
  }

  /** Defaulting of the name, then validation of the source. */
  function Finish(s: KclRunState): (KclRunState, Option<string>)
  {
    var d := if s.name == "" then s.(name := Api.DefaultProgramName) else s;
    (d, if d.source == "" then Some(EmptySourceMsg) else None)
  }

  /** KCLRun.Config as a function of the record before the call. */
  function ConfigOutcome(s: KclRunState, fnCfg: Value, asConfigMap: ConfigMapDecoder, asKclRun: KclRunDecoder)
    : (KclRunState, Option<string>)
  {
    var kind := StringField(fnCfg, "kind");
    var apiVersion := StringField(fnCfg, "apiVersion");
    if IsEmptyObject(fnCfg) then (s, Some(MissingConfigMsg))
    else if apiVersion == Api.ConfigMapApiVersion && kind == Api.ConfigMapKind then
      match asConfigMap(fnCfg)
      case Err(e) => (s, Some(e))
      case Ok(cm) => Finish(FromConfigMap(s, cm))
    else if apiVersion == Api.KclRunApiVersion && kind == Api.KclRunKind then
      match asKclRun(fnCfg)
      case Err(e) => (s, Some(e))
      case Ok(r) => Finish(r)
    else (s, Some(KindMismatchMsg(apiVersion, kind)))
  }

  /** An empty function config is reported as missing. */
  lemma ConfigEmpty(s: KclRunState, fnCfg: Value, asConfigMap: ConfigMapDecoder, asKclRun: KclRunDecoder)
    requires IsEmptyObject(fnCfg)
    ensures ConfigOutcome(s, fnCfg, asConfigMap, asKclRun).1 == Some(MissingConfigMsg)
  {
  }

  /** A config that is neither a ConfigMap nor a KCLRun is rejected with KindMismatchMsg. */
  lemma ConfigWrongKind(s: KclRunState, fnCfg: Value, asConfigMap: ConfigMapDecoder, asKclRun: KclRunDecoder)
    requires !IsEmptyObject(fnCfg)
    requires !(StringField(fnCfg, "apiVersion") == "v1" && StringField(fnCfg, "kind") == "ConfigMap")
    requires !(StringField(fnCfg, "apiVersion") == "krm.kcl.dev/v1alpha1" && StringField(fnCfg, "kind") == "KCLRun")
    ensures ConfigOutcome(s, fnCfg, asConfigMap, asKclRun).1
         == Some(KindMismatchMsg(StringField(fnCfg, "apiVersion"), StringField(fnCfg, "kind")))
  {
  }

  /** A decoded ConfigMap gives params equal to its data, its source, namespace and (defaulted) name. */
  lemma ConfigFromConfigMap(s: KclRunState, fnCfg: Value, asConfigMap: ConfigMapDecoder, asKclRun: KclRunDecoder)
    requires !IsEmptyObject(fnCfg)
    requires StringField(fnCfg, "apiVersion") == "v1" && StringField(fnCfg, "kind") == "ConfigMap"
    requires asConfigMap(fnCfg).Ok?
    ensures var cm, r := asConfigMap(fnCfg).value, ConfigOutcome(s, fnCfg, asConfigMap, asKclRun).0;
      (forall k :: k in r.params <==> k in cm.data)
      && (forall k :: k in cm.data ==> r.params[k] == Str(cm.data[k]))
      && ("source" in cm.data ==> r.source == cm.data["source"])
      && r.namespace == cm.namespace
      && r.name == (if cm.name == "" then "kcl-function-run" else cm.name)
  {
  }

  /** A successful Config leaves a non-empty name and source. */
  lemma ConfigSuccess(s: KclRunState, fnCfg: Value, asConfigMap: ConfigMapDecoder, asKclRun: KclRunDecoder)
    requires ConfigOutcome(s, fnCfg, asConfigMap, asKclRun).1.None?
    ensures ConfigOutcome(s, fnCfg, asConfigMap, asKclRun).0.name != ""
    ensures ConfigOutcome(s, fnCfg, asConfigMap, asKclRun).0.source != ""
  {
  }

  /** Once the record is filled, the only failure left is an empty source. */
  lemma FinishFailsIffEmptySource(s: KclRunState)
    ensures Finish(s).1.Some? <==> s.source == ""
    ensures Finish(s).1.Some? ==> Finish(s).1.value == EmptySourceMsg
    ensures Finish(s).0.name == (if s.name == "" then "kcl-function-run" else s.name)
  {
  }

  /** The objects that satisfy the rules, in their order. */
  function KeepMatching(objs: seq<Value>, mc: MatchConstraints): (r: seq<Value>)
    ensures |r| <= |objs|
    ensures forall o :: o in r ==> o in objs && MatchResourceRules(mc, o)
  {
    if objs == [] then []
    else
      var last := objs[|objs| - 1];
      KeepMatching(objs[..|objs| - 1], mc) + (if MatchResourceRules(mc, last) then [last] else [])
  }

  /** No matching object is dropped. */
  lemma {:induction false} KeepMatchingKeeps(objs: seq<Value>, mc: MatchConstraints, o: Value)
    requires o in objs && MatchResourceRules(mc, o)
    ensures o in KeepMatching(objs, mc)
  {
    if objs[|objs| - 1] != o {
      assert o in objs[..|objs| - 1];
      KeepMatchingKeeps(objs[..|objs| - 1], mc, o);
    }
  }

  /** The filter distributes over concatenation, so it keeps order and multiplicity. */
  lemma {:induction false} KeepMatchingAppend(a: seq<Value>, b: seq<Value>, mc: MatchConstraints)
    ensures KeepMatching(a + b, mc) == KeepMatching(a, mc) + KeepMatching(b, mc)
    decreases |b|
  {
    if b == [] {
      assert a + b == a;
    } else {
      var init := b[..|b| - 1];
      assert (a + b)[..|a + b| - 1] == a + init;
      assert (a + b)[|a + b| - 1] == b[|b| - 1];
      KeepMatchingAppend(a, init, mc);
    }
  }

  /** One object is kept exactly when it passes the test. */
  lemma KeepMatchingSingle(o: Value, mc: MatchConstraints)
    ensures KeepMatching([o], mc) == (if MatchResourceRules(mc, o) then [o] else [])
  {
    assert [o][..0] == [];
  }

  /** Without constraints every object is kept, in order. */
  lemma {:induction false} KeepMatchingUnconstrained(objs: seq<Value>, mc: MatchConstraints)
    requires mc.resourceRules.None? || mc.resourceRules == Some([])
    ensures KeepMatching(objs, mc) == objs
  {
    if objs != [] {
      KeepMatchingUnconstrained(objs[..|objs| - 1], mc);
      assert objs[..|objs| - 1] + [objs[|objs| - 1]] == objs;
    }
  }

  /** Parsing every node in turn; the first failure is the result. */
  function ReparseAll(xs: seq<Value>, reparse: Reparse): (r: Result<seq<Value>>)
    ensures r.Ok? ==> |r.value| == |xs|
  {
    if xs == [] then Ok([])
    else
      var pre :- ReparseAll(xs[..|xs| - 1], reparse);
      var x :- reparse(xs[|xs| - 1]);
      Ok(pre + [x])
  }

  lemma {:induction false} ReparsePrefixFails(xs: seq<Value>, n: nat, reparse: Reparse)
    requires n <= |xs| && ReparseAll(xs[..n], reparse).Err?
    ensures ReparseAll(xs, reparse) == Err(ReparseAll(xs[..n], reparse).msg)
    decreases |xs| - n
  {
    if n == |xs| {
      assert xs[..n] == xs;
    } else {
      var e := xs[..n + 1];
      assert e[..|e| - 1] == xs[..n];
      ReparsePrefixFails(xs, n + 1, reparse);
    }
  }

  /** The transformer Transform builds from the record and the parsed function config. */
  function TransformerOf(s: KclRunState, fc: Value): SimpleTransformer
  {
    SimpleTransformer(s.name, s.source, [], Some(fc), None)
  }

  /** KCLRun.Transform as a function: the new items, or the first error. */
  function TransformOutcome(s: KclRunState, fnConfig: Value, items: seq<Value>, eval: Evaluator, reparse: Reparse)
    : Result<seq<Value>>
  {
    var fc :- reparse(fnConfig);
    var nodes :- ReparseAll(items, reparse);
    var transformed :- Transform(TransformerOf(s, fc), nodes, eval);
    var objs :- ReparseAll(transformed, reparse);
    Ok(KeepMatching(objs, s.matchConstraints))
  }

  /** The new items are exactly the transformed objects that satisfy the rules, in order. */
  lemma TransformKeepsMatching(s: KclRunState, fnConfig: Value, items: seq<Value>, eval: Evaluator, reparse: Reparse)
    requires TransformOutcome(s, fnConfig, items, eval, reparse).Ok?
    ensures var fc := reparse(fnConfig).value;
      var nodes := ReparseAll(items, reparse).value;
      var objs := ReparseAll(Transform(TransformerOf(s, fc), nodes, eval).value, reparse).value;
      var r := TransformOutcome(s, fnConfig, items, eval, reparse).value;
      && r == KeepMatching(objs, s.matchConstraints)
      && forall o :: o in r <==> o in objs && MatchResourceRules(s.matchConstraints, o)
  {
    var fc := reparse(fnConfig).value;
    var nodes := ReparseAll(items, reparse).value;
    var objs := ReparseAll(Transform(TransformerOf(s, fc), nodes, eval).value, reparse).value;
    forall o | o in objs && MatchResourceRules(s.matchConstraints, o)
      ensures o in KeepMatching(objs, s.matchConstraints)
    {
      KeepMatchingKeeps(objs, s.matchConstraints, o);
    }
  }

  /** The loop of Transform that parses every item, stopping at the first failure. */
  method ParseItems(items: seq<Value>, reparse: Reparse) returns (r: Result<seq<Value>>)
    ensures r == ReparseAll(items, reparse)
  {
    var nodes: seq<Value> := [];
    var i := 0;
    while i < |items|
      invariant 0 <= i <= |items|
      invariant ReparseAll(items[..i], reparse) == Ok(nodes)
    {
      var objRN := reparse(items[i]);
      assert items[..i + 1][..i] == items[..i];
      if objRN.Err? {
        ReparsePrefixFails(items, i + 1, reparse);
        return Err(objRN.msg);
      }
      nodes := nodes + [objRN.value];
      i := i + 1;
    }
    assert items[..i] == items;
    return Ok(nodes);
  }

  /** The loop of Transform that parses every transformed node and keeps the objects that satisfy the rules. */
  method KeepTransformed(tn: seq<Value>, mc: MatchConstraints, reparse: Reparse) returns (r: Result<seq<Value>>)
    ensures ReparseAll(tn, reparse).Err? ==> r == Err(ReparseAll(tn, reparse).msg)
    ensures ReparseAll(tn, reparse).Ok? ==> r == Ok(KeepMatching(ReparseAll(tn, reparse).value, mc))
  {
    var transformedObjects: seq<Value> := [];
    ghost var parsed: seq<Value> := [];
    var j := 0;
    while j < |tn|
      invariant 0 <= j <= |tn|
      invariant ReparseAll(tn[..j], reparse) == Ok(parsed)
      invariant transformedObjects == KeepMatching(parsed, mc)
    {
      var obj := reparse(tn[j]);
      assert tn[..j + 1][..j] == tn[..j];
      if obj.Err? {
        ReparsePrefixFails(tn, j + 1, reparse);
        return Err(obj.msg);
      }
      assert (parsed + [obj.value])[..|parsed|] == parsed;
      if MatchResourceRules(mc, obj.value) {
        transformedObjects := transformedObjects + [obj.value];
      }
      parsed := parsed + [obj.value];
      j := j + 1;
    }
    assert tn[..j] == tn;
    return Ok(transformedObjects);
  }

  /** KCLRun */
  class KclRun {
    var name: string
    var namespace: string
    var annotations: map<string, string>
    var source: string
    var params: map<string, Value>
    var matchConstraints: MatchConstraints

    function State(): KclRunState
      reads this
    {
      KclRunState(name, namespace, annotations, source, params, matchConstraints)
    }

    /** &config.KCLRun{}: the zero record. */
    constructor ()
      ensures State() == ZeroState()
    {
      name, namespace, annotations, source, params := "", "", map[], "", map[];
      matchConstraints := MatchConstraints(None);
    }

    /** Config: fill the record from a ConfigMap or a KCLRun, default the name, validate the source. */
    method Config(fnCfg: Value, asConfigMap: ConfigMapDecoder, asKclRun: KclRunDecoder) returns (err: Option<string>)
      modifies this
      ensures (State(), err) == ConfigOutcome(old(State()), fnCfg, asConfigMap, asKclRun)
    {
      var kind := StringField(fnCfg, "kind");
      var apiVersion := StringField(fnCfg, "apiVersion");
      if IsEmptyObject(fnCfg) {
        return Some(MissingConfigMsg);
      } else if apiVersion == Api.ConfigMapApiVersion && kind == Api.ConfigMapKind {
        var cm := asConfigMap(fnCfg);
        if cm.Err? {
          return Some(cm.msg);
        }
        var data := cm.value.data;
        ghost var source0 := source;
        name := cm.value.name;
        namespace := cm.value.namespace;
        params := map[];
        var keys := data.Keys;
        while keys != {}
          invariant keys <= data.Keys
          invariant params == map k | k in data.Keys - keys :: Str(data[k])
          invariant source == if Api.SourceKey in data.Keys - keys then data[Api.SourceKey] else source0
          invariant name == cm.value.name && namespace == cm.value.namespace
          invariant annotations == old(annotations) && matchConstraints == old(matchConstraints)
          decreases keys
        {
          var k :| k in keys;
          if k == Api.SourceKey {
            source := data[k];
          }
          params := params[k := Str(data[k])];
          keys := keys - {k};
        }
        assert data.Keys - keys == data.Keys;
        assert State() == FromConfigMap(old(State()), cm.value);
      } else if apiVersion == Api.KclRunApiVersion && kind == Api.KclRunKind {
        var r := asKclRun(fnCfg);
        if r.Err? {
          return Some(r.msg);
        }
        name, namespace, annotations := r.value.name, r.value.namespace, r.value.annotations;
        source, params, matchConstraints := r.value.source, r.value.params, r.value.matchConstraints;
      } else {
        return Some(KindMismatchMsg(apiVersion, kind));
      }
      if name == "" {
        name := Api.DefaultProgramName;
      }
      if source == "" {
        return Some(EmptySourceMsg);
      }
      return None;
    }

    /**
     * Transform: parse the function config and the items, run the
     * transformer, and keep the output objects that satisfy the rules.
     * The returned flag is DealAnnotations' plain-HTTP switch.
     */
    method Transform(rl: ResourceList, eval: Evaluator, reparse: Reparse) returns (plainHttp: bool, err: Option<string>)
      modifies rl
      ensures plainHttp == PlainHttpRequested(annotations)
      ensures rl.functionConfig == old(rl.functionConfig) && rl.results == old(rl.results)
      ensures var out := TransformOutcome(State(), old(rl.functionConfig), old(rl.items), eval, reparse);
        (out.Ok? ==> err.None? && rl.items == out.value)
        && (out.Err? ==> err == Some(out.msg) && rl.items == old(rl.items))
    {
      plainHttp := PlainHttpRequested(annotations);
      var fc := reparse(rl.functionConfig);
      if fc.Err? {
        return plainHttp, Some(fc.msg);
      }
      var nodes := ParseItems(rl.items, reparse);
      if nodes.Err? {
        return plainHttp, Some(nodes.msg);
      }
      var st := TransformerOf(State(), fc.value);
      var transformedNodes := EditTransformer.Transform(st, nodes.value, eval);
      if transformedNodes.Err? {
        return plainHttp, Some(transformedNodes.msg);
      }
      var transformedObjects := KeepTransformed(transformedNodes.value, matchConstraints, reparse);
      if transformedObjects.Err? {
        return plainHttp, Some(transformedObjects.msg);
      }
      rl.items := transformedObjects.value;
      return plainHttp, None;
    }
  }
}
