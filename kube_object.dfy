/**
 * pkg/kube/object.go: KubeObject, a handle on a possibly nil YAML node,
 * and KubeObjects, a slice of them with the sort.Interface methods and a
 * multi-document rendering.
 */
module KubeObjects {
  import opened Wrappers
  import opened Values
  import opened Strs

  /** A KubeObject: its node, which is nil when a lookup found nothing. */
  datatype KubeObject = KubeObject(node: Option<Value>)

  /** The YAML document separator MustString puts between objects. */
  const DocumentSeparator := "\n---\n"

  /** KubeObjects.Len */
  function Len(objs: array<KubeObject>): (n: int)
    ensures n == objs.Length && n >= 0
  {
    objs.Length
  }

  /** `s` with the elements at `i` and `j` exchanged. */
  function SwapSeq<T>(s: seq<T>, i: nat, j: nat): (r: seq<T>)
    requires i < |s| && j < |s|
    ensures |r| == |s| && r[i] == s[j] && r[j] == s[i]
    ensures forall k :: 0 <= k < |s| && k != i && k != j ==> r[k] == s[k]
  {
    s[i := s[j]][j := s[i]]
  }

  /** KubeObjects.Swap; an index out of range is a panic in the source. */
  method Swap(objs: array<KubeObject>, i: int, j: int)
    requires 0 <= i < objs.Length && 0 <= j < objs.Length
    modifies objs
    ensures objs[..] == SwapSeq(old(objs[..]), i, j)
  {
    objs[i], objs[j] := objs[j], objs[i];
  }

  /** Swapping the same two positions twice restores the sequence. */
  lemma SwapTwice<T>(s: seq<T>, i: nat, j: nat)
    requires i < |s| && j < |s|
    ensures SwapSeq(SwapSeq(s, i, j), i, j) == s
  {
    var r := SwapSeq(SwapSeq(s, i, j), i, j);
    assert forall k :: 0 <= k < |s| ==> r[k] == s[k];
  }

  /** A swap only reorders: the same objects, as often as before. */
  lemma SwapPermutes<T>(s: seq<T>, i: nat, j: nat)
    requires i < |s| && j < |s|
    ensures multiset(SwapSeq(s, i, j)) == multiset(s)
  {
    var t := s[i := s[j]];
    assert multiset(t) == multiset(s) - multiset{s[i]} + multiset{s[j]};
    assert multiset(t[j := s[i]]) == multiset(t) - multiset{t[j]} + multiset{s[i]};
    assert t[j] == s[j];
  }

  /** The trimmed rendering of each object, in order. */
  function TrimmedDocuments(objs: seq<KubeObject>, render: KubeObject -> string): (docs: seq<string>)
    ensures |docs| == |objs|
    ensures forall k :: 0 <= k < |objs| ==> docs[k] == TrimSpace(render(objs[k]))
  {
    if objs == [] then []
    else TrimmedDocuments(objs[..|objs| - 1], render) + [TrimSpace(render(objs[|objs| - 1]))]
  }

  /**
   * KubeObjects.MustString: every object rendered as YAML (`render`), trimmed,
   * and joined with document separators.
   */
  method MustString(objs: array<KubeObject>, render: KubeObject -> string) returns (s: string)
    ensures s == Join(TrimmedDocuments(objs[..], render), DocumentSeparator)
    ensures objs.Length == 0 ==> s == ""
    ensures objs.Length == 1 ==> s == TrimSpace(render(objs[0]))
  {
    var elems: seq<string> := [];
    for i := 0 to objs.Length
      invariant elems == TrimmedDocuments(objs[..i], render)
    {
      assert objs[..i + 1][..i] == objs[..i];
      elems := elems + [TrimSpace(render(objs[i]))];
    }
    assert objs[..objs.Length] == objs[..];
    s := Join(elems, DocumentSeparator);
  }

  /** The rendering has each trimmed document and one separator between neighbours. */
  lemma MustStringLength(objs: seq<KubeObject>, render: KubeObject -> string)
    requires |objs| > 0
    ensures |Join(TrimmedDocuments(objs, render), DocumentSeparator)|
      == TotalLength(TrimmedDocuments(objs, render)) + 5 * (|objs| - 1)
  {
    JoinLength(TrimmedDocuments(objs, render), DocumentSeparator);
  }
}
