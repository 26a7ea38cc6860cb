/**
 * pkg/edit/wraper.go: packing resources into a ResourceList envelope for
 * the KCL program, and unpacking the program's output again.
 */
module EditWrap {
  import opened Wrappers
  import opened Api
  import opened Values

  /** A node of apiVersion krm.kcl.dev/v1alpha1 and kind KCLRun. */
  predicate IsKclRun(n: Value) {
    StringField(n, "apiVersion") == KclRunApiVersion && StringField(n, "kind") == KclRunKind
  }

  /** The nodes that are not KCLRun nodes, in input order. */
  function WithoutKclRun(nodes: seq<Value>): (r: seq<Value>)
    ensures |r| <= |nodes|
    ensures forall n :: n in r ==> n in nodes && !IsKclRun(n)
  {
    if nodes == [] then []
    else (if IsKclRun(nodes[0]) then [] else [nodes[0]]) + WithoutKclRun(nodes[1..])
  }

  /** Filtering a concatenation filters each part. */
  lemma {:induction false} WithoutKclRunAppend(a: seq<Value>, b: seq<Value>)
    ensures WithoutKclRun(a + b) == WithoutKclRun(a) + WithoutKclRun(b)
    decreases |a|
  {
    if a == [] {
      assert a + b == b;
    } else {
      assert (a + b)[1..] == a[1..] + b;
      WithoutKclRunAppend(a[1..], b);
    }
  }

  /** One more node extends the filtered prefix by that node unless it is a KCLRun node. */
  lemma WithoutKclRunSnoc(nodes: seq<Value>, i: nat)
    requires i < |nodes|
    ensures WithoutKclRun(nodes[..i + 1])
         == WithoutKclRun(nodes[..i]) + (if IsKclRun(nodes[i]) then [] else [nodes[i]])
  {
    assert nodes[..i + 1] == nodes[..i] + [nodes[i]];
    WithoutKclRunAppend(nodes[..i], [nodes[i]]);
    assert [nodes[i]][1..] == [];
  }

  /** No non-KCLRun node is dropped. */
  lemma {:induction false} WithoutKclRunKeeps(nodes: seq<Value>, n: Value)
    requires n in nodes && !IsKclRun(n)
    ensures n in WithoutKclRun(nodes)
    decreases |nodes|
  {
    if nodes[0] != n {
      WithoutKclRunKeeps(nodes[1..], n);
    }
  }

  /** Filtering twice is filtering once. */
  lemma {:induction false} WithoutKclRunIdempotent(nodes: seq<Value>)
    ensures WithoutKclRun(WithoutKclRun(nodes)) == WithoutKclRun(nodes)
    decreases |nodes|
  {
    if nodes != [] {
      var rest := WithoutKclRun(nodes[1..]);
      WithoutKclRunIdempotent(nodes[1..]);
      if IsKclRun(nodes[0]) {
        assert WithoutKclRun(nodes) == rest;
      } else {
        var w := [nodes[0]] + rest;
        assert WithoutKclRun(nodes) == w;
        assert w[0] == nodes[0] && w[1..] == rest;
        assert WithoutKclRun(w) == [nodes[0]] + WithoutKclRun(rest);
      }
    }
  }

  /**
   * The ResourceList mapping WrapResources builds. kyaml's SetField with a
   * null value clears the field, so a null functionConfig is not set.
   */
  function Envelope(items: seq<Value>, fc: Option<Value>): Value
  {
    var base := map["apiVersion" := Str(ResourceListApiVersion), "kind" := Str(ResourceListKind), "items" := List(items)];
    if fc.Some? && fc.value != Null then StrMap(base["functionConfig" := fc.value]) else StrMap(base)
  }

  /** WrapResources: appends the non-KCLRun nodes to the items of a fresh ResourceList. */
  method WrapResources(nodes: seq<Value>, fc: Option<Value>) returns (out: Value)
    ensures out == Envelope(WithoutKclRun(nodes), fc)
  {
    var ynodes: seq<Value> := [];
    var i := 0;
    while i < |nodes|
      invariant 0 <= i <= |nodes|
      invariant ynodes == WithoutKclRun(nodes[..i])
    {
      var rnode := nodes[i];
      WithoutKclRunSnoc(nodes, i);
      if !IsKclRun(rnode) {
        ynodes := ynodes + [rnode];
      }
      i := i + 1;
    }
    assert nodes[..i] == nodes;
    var m := map["apiVersion" := Str(ResourceListApiVersion), "kind" := Str(ResourceListKind), "items" := List([])];
    assert m["items"].elems + ynodes == ynodes;
    m := m["items" := List(m["items"].elems + ynodes)];
    assert m == map["apiVersion" := Str(ResourceListApiVersion), "kind" := Str(ResourceListKind), "items" := List(ynodes)];
    if fc.Some? && fc.value != Null {
      m := m["functionConfig" := fc.value];
    }
    out := StrMap(m);
  }

  /** The envelope carries the ResourceList constants, the items, and the functionConfig iff it is set. */
  lemma EnvelopeShape(items: seq<Value>, fc: Option<Value>)
    ensures StringField(Envelope(items, fc), "apiVersion") == ResourceListApiVersion
    ensures StringField(Envelope(items, fc), "kind") == ResourceListKind
    ensures Lookup(Envelope(items, fc), "items") == Ok(Some(List(items)))
    ensures Lookup(Envelope(items, fc), "functionConfig")
         == (if fc.Some? && fc.value != Null then Ok(fc) else Ok(None))
  {
  }

  /** A wrapped ResourceList never holds a KCLRun item. */
  lemma WrapHasNoKclRun(nodes: seq<Value>, fc: Option<Value>, n: Value)
    requires n in WithoutKclRun(nodes)
    ensures !IsKclRun(n)
  {
  }

  /**
   * UnwrapResources: the items and functionConfig of a single document, or
   * the document itself when it has no items; several documents are first
   * wrapped (without the KCLRun ones and without a functionConfig).
   */
  function UnwrapResources(nodes: seq<Value>): (r: Result<(seq<Value>, Option<Value>)>)
    ensures |nodes| == 0 ==> r == Ok(([], None))
  {
    if |nodes| == 0 then Ok(([], None))
    else
      var input := if |nodes| == 1 then nodes[0] else Envelope(WithoutKclRun(nodes), None);
      var items :- Lookup(input, "items");
      var outs :- if items.None? then Ok([input]) else Elements(items);
      match Lookup(input, "functionConfig")
      case Err(msg) => Err(msg)
      case Ok(fc) => Ok((outs, fc))
  }

  /** A single mapping document without items is the only output resource. */
  lemma UnwrapSingleWithoutItems(doc: Value)
    requires doc.StrMap? && "items" !in doc.fields
    ensures UnwrapResources([doc]).Ok?
    ensures UnwrapResources([doc]).value.0 == [doc]
    ensures UnwrapResources([doc]).value.1
         == (if "functionConfig" in doc.fields then Some(doc.fields["functionConfig"]) else None)
  {
  }

  /** Several documents come back without the KCLRun ones and without functionConfig. */
  lemma UnwrapMany(nodes: seq<Value>)
    requires |nodes| >= 2
    ensures UnwrapResources(nodes) == Ok((WithoutKclRun(nodes), None))
  {
    EnvelopeShape(WithoutKclRun(nodes), None);
  }

  /** Unwrapping a wrapped ResourceList gives back the filtered nodes and the functionConfig. */
  lemma UnwrapWrap(nodes: seq<Value>, fc: Option<Value>)
    ensures UnwrapResources([Envelope(WithoutKclRun(nodes), fc)])
         == Ok((WithoutKclRun(nodes), if fc.Some? && fc.value != Null then fc else None))
  {
    EnvelopeShape(WithoutKclRun(nodes), fc);
  }
}
