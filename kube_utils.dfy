/**
 * pkg/kube/utils.go: key normalisation of decoded YAML trees, removal of
 * the fields a server sets, and drift detection between two objects.
 */
module KubeUtils {
  import opened Wrappers
  import opened Values

  const NonStringKeyMsg := "found non-string key in the map"

  /** The metadata fields a server sets and NormalizeServerSideFields removes. */
  const ServerSideMetadataKeys: set<string> :=
    {"resourceVersion", "creationTimestamp", "selfLink", "uid", "generation", "managedFields"}

  /**
   * unstructured.RemoveNestedField: walk the string-keyed mappings along all
   * but the last field and delete the last one; stop without change when a
   * step is missing or not a mapping.
   */
  function RemoveNestedField(obj: map<string, Value>, fields: seq<string>): (r: map<string, Value>)
    requires |fields| > 0
    ensures r.Keys <= obj.Keys
    decreases |fields|
  {
    if |fields| == 1 then obj - {fields[0]}
    else if fields[0] in obj && obj[fields[0]].StrMap? then
      obj[fields[0] := StrMap(RemoveNestedField(obj[fields[0]].fields, fields[1..]))]
    else obj
  }

  /** After RemoveNestedField the path leads nowhere. */
  lemma {:induction false} RemoveNestedFieldRemoves(obj: map<string, Value>, fields: seq<string>)
    requires |fields| > 0
    ensures NestedField(RemoveNestedField(obj, fields), fields).None?
    decreases |fields|
  {
    if |fields| > 1 && fields[0] in obj && obj[fields[0]].StrMap? {
      RemoveNestedFieldRemoves(obj[fields[0]].fields, fields[1..]);
    }
  }

  /** `obj` with the `keys` removed from its `metadata` mapping, if it has one. */
  function WithoutMetadataFields(obj: map<string, Value>, keys: set<string>): map<string, Value>
  {
    if "metadata" in obj && obj["metadata"].StrMap? then obj["metadata" := StrMap(obj["metadata"].fields - keys)]
    else obj
  }

  /** An object without `status` and with the server-set metadata fields removed. */
  function StripServerSide(obj: map<string, Value>): map<string, Value>
  {
    WithoutMetadataFields(obj - {"status"}, ServerSideMetadataKeys)
  }

  /** Removing no metadata field changes nothing. */
  lemma WithoutNoMetadataFields(obj: map<string, Value>)
    ensures WithoutMetadataFields(obj, {}) == obj
  {
    if "metadata" in obj && obj["metadata"].StrMap? {
      assert obj["metadata"].fields - {} == obj["metadata"].fields;
      assert obj["metadata" := obj["metadata"]] == obj;
    }
  }

  /** Removing one more metadata field. */
  lemma RemoveMetadataField(obj: map<string, Value>, keys: set<string>, key: string)
    ensures RemoveNestedField(WithoutMetadataFields(obj, keys), ["metadata", key])
      == WithoutMetadataFields(obj, keys + {key})
  {
    assert ["metadata", key][1..] == [key];
    if "metadata" in obj && obj["metadata"].StrMap? {
      var f := obj["metadata"].fields;
      assert f - keys - {key} == f - (keys + {key});
    }
  }

  /** A decoded object (unstructured.Unstructured); `obj` is its Object map. */
  class Unstructured {
    var obj: map<string, Value>

    constructor (obj: map<string, Value>)
      ensures this.obj == obj
    {
      this.obj := obj;
    }

    /** NormalizeServerSideFields: remove `status` and the server-set metadata fields in place. */
    method NormalizeServerSideFields() returns (self: Unstructured)
      modifies this
      ensures self == this
      ensures obj == StripServerSide(old(obj))
    {
      obj := RemoveNestedField(obj, ["status"]);
      ghost var base := obj;
      WithoutNoMetadataFields(base);
      obj := RemoveNestedField(obj, ["metadata", "resourceVersion"]);
      RemoveMetadataField(base, {}, "resourceVersion");
      ghost var k1 := {} + {"resourceVersion"};
      obj := RemoveNestedField(obj, ["metadata", "creationTimestamp"]);
      RemoveMetadataField(base, k1, "creationTimestamp");
      ghost var k2 := k1 + {"creationTimestamp"};
      obj := RemoveNestedField(obj, ["metadata", "selfLink"]);
      RemoveMetadataField(base, k2, "selfLink");
      ghost var k3 := k2 + {"selfLink"};
      obj := RemoveNestedField(obj, ["metadata", "uid"]);
      RemoveMetadataField(base, k3, "uid");
      ghost var k4 := k3 + {"uid"};
      obj := RemoveNestedField(obj, ["metadata", "generation"]);
      RemoveMetadataField(base, k4, "generation");
      ghost var k5 := k4 + {"generation"};
      obj := RemoveNestedField(obj, ["metadata", "managedFields"]);
      RemoveMetadataField(base, k5, "managedFields");
      assert k5 + {"managedFields"} == ServerSideMetadataKeys;
      self := this;
    }
  }

  /**
   * CopyAndRemoveMetadataAndStatus: a stripped deep copy; the argument keeps
   * its fields. Go's DeepCopy panics on a non-JSON value; that is not modelled.
   */
  method CopyAndRemoveMetadataAndStatus(u: Unstructured) returns (c: Unstructured)
    ensures fresh(c)
    ensures c.obj == StripServerSide(u.obj)
    ensures u.obj == old(u.obj)
  {
    c := new Unstructured(u.obj);
    c := c.NormalizeServerSideFields();
  }

  /**
   * StripServerSide drops `status` and the six server-set metadata fields
   * and keeps every other field with its value.
   */
  lemma StripServerSideFields(obj: map<string, Value>)
    ensures var r := StripServerSide(obj);
      "status" !in r
      && (forall k :: k in r <==> k in obj && k != "status")
      && (forall k :: k in r && k != "metadata" ==> r[k] == obj[k])
      && ("metadata" in r && r["metadata"].StrMap? ==>
            obj["metadata"].StrMap?
            && (forall k :: k in r["metadata"].fields <==> k in obj["metadata"].fields && k !in ServerSideMetadataKeys)
            && (forall k :: k in r["metadata"].fields ==> r["metadata"].fields[k] == obj["metadata"].fields[k]))
      && ("metadata" in r && !r["metadata"].StrMap? ==> r["metadata"] == obj["metadata"])
  {
  }

  /** Stripping twice is stripping once. */
  lemma StripServerSideIdempotent(obj: map<string, Value>)
    ensures StripServerSide(StripServerSide(obj)) == StripServerSide(obj)
  {
    var r := StripServerSide(obj);
    if "metadata" in r && r["metadata"].StrMap? {
      var f := r["metadata"].fields;
      assert f - ServerSideMetadataKeys == f;
    }
    assert r - {"status"} == r;
  }

  function ResourceVersion(obj: map<string, Value>): string {
    NestedString(obj, ["metadata", "resourceVersion"])
  }

  function Labels(obj: map<string, Value>): map<string, string> {
    NestedStringMap(obj, ["metadata", "labels"])
  }

  function Annotations(obj: map<string, Value>): map<string, string> {
    NestedStringMap(obj, ["metadata", "annotations"])
  }

  /**
   * HasDrifted: an object without resourceVersion has drifted; so has one
   * whose labels, annotations, or fields other than the server-set ones differ.
   */
  predicate HasDrifted(existing: map<string, Value>, current: map<string, Value>) {
    ResourceVersion(current) == ""
    || Labels(current) != Labels(existing)
    || Annotations(current) != Annotations(existing)
    || StripServerSide(current) != StripServerSide(existing)
  }

  /** Labels and annotations are not server-set fields: stripping keeps them. */
  lemma StripKeepsLabelsAndAnnotations(obj: map<string, Value>)
    ensures Labels(StripServerSide(obj)) == Labels(obj)
    ensures Annotations(StripServerSide(obj)) == Annotations(obj)
  {
    assert ["metadata", "labels"][1..] == ["labels"];
    assert ["metadata", "annotations"][1..] == ["annotations"];
    assert NestedField(StripServerSide(obj), ["metadata", "labels"]) == NestedField(obj, ["metadata", "labels"]);
    assert NestedField(StripServerSide(obj), ["metadata", "annotations"]) == NestedField(obj, ["metadata", "annotations"]);
  }

  /** Objects that differ only in server-set fields have not drifted, given a resourceVersion. */
  lemma DriftIgnoresServerSideFields(existing: map<string, Value>, current: map<string, Value>)
    requires ResourceVersion(current) != ""
    requires StripServerSide(current) == StripServerSide(existing)
    ensures !HasDrifted(existing, current)
  {
    StripKeepsLabelsAndAnnotations(current);
    StripKeepsLabelsAndAnnotations(existing);
  }

  /** A changed status alone is not drift. */
  lemma StatusChangeIsNoDrift(existing: map<string, Value>, status: Value)
    requires ResourceVersion(existing) != ""
    ensures !HasDrifted(existing, existing["status" := status])
  {
    var current := existing["status" := status];
    assert ["metadata", "resourceVersion"][1..] == ["resourceVersion"];
    assert NestedField(current, ["metadata", "resourceVersion"]) == NestedField(existing, ["metadata", "resourceVersion"]);
    assert current - {"status"} == existing - {"status"};
    DriftIgnoresServerSideFields(existing, current);
  }

  /** Once both objects carry a resourceVersion, drift does not depend on which one is current. */
  lemma DriftSymmetric(existing: map<string, Value>, current: map<string, Value>)
    requires ResourceVersion(existing) != "" && ResourceVersion(current) != ""
    ensures HasDrifted(existing, current) == HasDrifted(current, existing)
  {
  }

  /** An object with a resourceVersion has not drifted from itself. */
  lemma NoDriftFromItself(obj: map<string, Value>)
    ensures !HasDrifted(obj, obj) <==> ResourceVersion(obj) != ""
  {
  }

  /**
   * What NormalizeMap accepts as written: every non-string-keyed mapping it
   * reaches has string keys only. It walks sequences and non-string-keyed
   * mappings, and returns a string-keyed mapping without looking inside.
   */
  predicate Convertible(v: Value) {
    match v
    case AnyMap(m) => forall k :: k in m ==> k.KStr? && Convertible(m[k])
    case List(es) => forall i :: 0 <= i < |es| ==> Convertible(es[i])
    case _ => true
  }

  /** The strings among a set of mapping keys. */
  function StrKeys(keys: set<Key>): (r: set<string>)
    ensures forall t :: t in r <==> KStr(t) in keys
  {
    var r := set k | k in keys && k.KStr? :: k.s;
    assert forall t :: KStr(t) in keys ==> KStr(t).s in r;
    r
  }

  /** The tree NormalizeMap returns as written when it succeeds. */
  function Normalized(v: Value): Value {
    match v
    case AnyMap(m) => StrMap(map t | t in StrKeys(m.Keys) :: Normalized(m[KStr(t)]))
    case List(es) => List(seq(|es|, i requires 0 <= i < |es| => Normalized(es[i])))
    case _ => v
  }

  /** NormalizeMap as written: fails exactly when an entry it reaches has a non-string key. */
  function NormalizeOutcome(v: Value): Result<Value> {
    if Convertible(v) then Ok(Normalized(v)) else Err(NonStringKeyMsg)
  }

  /** NormalizeMap: convert non-string-keyed mappings to string-keyed ones, rewriting sequences element by element. */
  method NormalizeMap(input: Value) returns (r: Result<Value>)
    ensures r == NormalizeOutcome(input)
    decreases input
  {
    match input
    case AnyMap(m) =>
      var normalized: map<string, Value> := map[];
      var keys := m.Keys;
      while keys != {}
        invariant keys <= m.Keys
        invariant forall k :: k in m.Keys - keys ==> k.KStr? && Convertible(m[k])
        invariant normalized == map t | t in StrKeys(m.Keys - keys) :: Normalized(m[KStr(t)])
        decreases keys
      {
        var key :| key in keys;
        if !key.KStr? {
          return Err(NonStringKeyMsg);
        }
        var value := NormalizeMap(m[key]);
        if value.Err? {
          return Err(value.msg);
        }
        normalized := normalized[key.s := value.value];
        assert StrKeys(m.Keys - (keys - {key})) == StrKeys(m.Keys - keys) + {key.s};
        keys := keys - {key};
      }
      assert m.Keys - keys == m.Keys;
      assert StrKeys(m.Keys - keys) == StrKeys(m.Keys);
      assert Convertible(input);
      assert normalized == Normalized(input).fields;
      return Ok(StrMap(normalized));
    case List(es) =>
      var elems := es;
      for i := 0 to |es|
        invariant |elems| == |es|
        invariant forall j :: 0 <= j < i ==> Convertible(es[j]) && elems[j] == Normalized(es[j])
        invariant forall j :: i <= j < |es| ==> elems[j] == es[j]
      {
        var value := NormalizeMap(es[i]);
        if value.Err? {
          return Err(value.msg);
        }
        elems := elems[i := value.value];
      }
      assert elems == seq(|es|, i requires 0 <= i < |es| => Normalized(es[i]));
      return Ok(List(elems));
    case _ =>
      return Ok(input);
  }

  /** No non-string-keyed mapping outside the string-keyed ones (which NormalizeMap does not enter). */
  predicate NoAnyMapOutsideStrMap(v: Value) {
    match v
    case AnyMap(_) => false
    case List(es) => forall i :: 0 <= i < |es| ==> NoAnyMapOutsideStrMap(es[i])
    case _ => true
  }

  /**
   * On success every mapping NormalizeMap reached has been converted, with the
   * same keys and normalised values; sequences keep their length.
   */
  lemma {:induction false} NormalizedShape(v: Value)
    requires Convertible(v)
    ensures NoAnyMapOutsideStrMap(Normalized(v))
    ensures v.AnyMap? ==> (Normalized(v).StrMap?
      && (forall s :: s in Normalized(v).fields <==> KStr(s) in v.entries)
      && (forall s :: s in Normalized(v).fields ==> Normalized(v).fields[s] == Normalized(v.entries[KStr(s)])))
    ensures v.List? ==> Normalized(v).List? && |Normalized(v).elems| == |v.elems|
    ensures !v.AnyMap? && !v.List? ==> Normalized(v) == v
    decreases v
  {
    match v
    case AnyMap(m) =>
    case List(es) =>
      forall i | 0 <= i < |es|
        ensures NoAnyMapOutsideStrMap(Normalized(v).elems[i])
      {
        NormalizedShape(es[i]);
      }
    case _ =>
  }

  /** Normalising an already normalised tree changes nothing. */
  lemma {:induction false} NormalizeIdempotent(v: Value)
    requires Convertible(v)
    ensures Convertible(Normalized(v)) && Normalized(Normalized(v)) == Normalized(v)
    decreases v
  {
    match v
    case AnyMap(m) =>
    case List(es) =>
      var n := Normalized(v).elems;
      forall i | 0 <= i < |es|
        ensures Convertible(n[i]) && Normalized(n[i]) == n[i]
      {
        NormalizeIdempotent(es[i]);
      }
      assert Normalized(Normalized(v)).elems == n;
    case _ =>
  }

  /** A non-string-keyed mapping that is an entry of a string-keyed mapping. */
  const NestedUnderStrMap: Value := StrMap(map["a" := AnyMap(map[KStr("b") := Null])])

  /**
   * As written, a non-string-keyed mapping below a string-keyed one is passed
   * through unconverted, although all its keys are strings.
   */
  lemma NestedMapNotConverted()
    ensures NormalizeOutcome(NestedUnderStrMap) == Ok(NestedUnderStrMap)
    ensures NestedUnderStrMap.fields["a"].AnyMap?
  {
  }

  /** A mapping with an integer key, as an entry of a string-keyed mapping. */
  const IntKeyUnderStrMap: Value := StrMap(map["a" := AnyMap(map[KInt(1) := Null])])

  /** As written, that non-string key is not noticed: NormalizeMap succeeds and returns the tree unchanged. */
  lemma IntKeyNotRejected()
    ensures NormalizeOutcome(IntKeyUnderStrMap) == Ok(IntKeyUnderStrMap)
    ensures KInt(1) in IntKeyUnderStrMap.fields["a"].entries
  {
  }

  /** Every mapping in the tree, whatever its kind, has string keys only. */
  predicate DeepConvertible(v: Value) {
    match v
    case AnyMap(m) => forall k :: k in m ==> k.KStr? && DeepConvertible(m[k])
    case StrMap(m) => forall k :: k in m ==> DeepConvertible(m[k])
    case List(es) => forall i :: 0 <= i < |es| ==> DeepConvertible(es[i])
    case _ => true
  }

  /** No non-string-keyed mapping anywhere in the tree. */
  predicate NoAnyMap(v: Value) {
    match v
    case AnyMap(_) => false
    case StrMap(m) => forall k :: k in m ==> NoAnyMap(m[k])
    case List(es) => forall i :: 0 <= i < |es| ==> NoAnyMap(es[i])
    case _ => true
  }

  /** The tree NormalizeMap evidently intends: string-keyed mappings are entered too. */
  function NormalizedDeep(v: Value): Value {
    match v
    case AnyMap(m) => StrMap(map t | t in StrKeys(m.Keys) :: NormalizedDeep(m[KStr(t)]))
    case StrMap(m) => StrMap(map k | k in m :: NormalizedDeep(m[k]))
    case List(es) => List(seq(|es|, i requires 0 <= i < |es| => NormalizedDeep(es[i])))
    case _ => v
  }

  /** The corrected NormalizeMap: fails exactly when some mapping at any depth has a non-string key. */
  function NormalizeDeep(v: Value): (r: Result<Value>)
    ensures r.Ok? <==> DeepConvertible(v)
    ensures r.Err? ==> r.msg == NonStringKeyMsg
  {
    if DeepConvertible(v) then Ok(NormalizedDeep(v)) else Err(NonStringKeyMsg)
  }

  /** The corrected normalisation leaves no non-string-keyed mapping anywhere. */
  lemma {:induction false} NormalizeDeepConverts(v: Value)
    requires DeepConvertible(v)
    ensures NoAnyMap(NormalizedDeep(v))
    decreases v
  {
    match v
    case AnyMap(m) =>
      var r := NormalizedDeep(v).fields;
      forall t | t in r
        ensures NoAnyMap(r[t])
      {
        NormalizeDeepConverts(m[KStr(t)]);
      }
    case StrMap(m) =>
      forall k | k in m
        ensures NoAnyMap(NormalizedDeep(m[k]))
      {
        NormalizeDeepConverts(m[k]);
      }
    case List(es) =>
      forall i | 0 <= i < |es|
        ensures NoAnyMap(NormalizedDeep(es[i]))
      {
        NormalizeDeepConverts(es[i]);
      }
    case _ =>
  }

  /** The corrected normalisation rejects the integer key below the string-keyed mapping. */
  lemma IntKeyRejectedDeep()
    ensures NormalizeDeep(IntKeyUnderStrMap) == Err(NonStringKeyMsg)
  {
    var inner := AnyMap(map[KInt(1) := Null]);
    assert KInt(1) in inner.entries && !KInt(1).KStr?;
    assert !DeepConvertible(inner);
    assert IntKeyUnderStrMap.fields["a"] == inner;
  }

  /**
   * The corrected normalisation accepts the example and leaves no
   * non-string-keyed mapping in it, where the written one returned it as is.
   */
  lemma NestedMapConvertedDeep()
    ensures NormalizeDeep(NestedUnderStrMap).Ok?
    ensures NoAnyMap(NormalizeDeep(NestedUnderStrMap).value)
    ensures !NoAnyMap(NestedUnderStrMap)
  {
    var inner := map[KStr("b") := Null];
    assert DeepConvertible(inner[KStr("b")]);
    assert DeepConvertible(AnyMap(inner));
    var outer := NestedUnderStrMap.fields;
    assert outer["a"] == AnyMap(inner);
    assert DeepConvertible(NestedUnderStrMap);
    NormalizeDeepConverts(NestedUnderStrMap);
  }
}
