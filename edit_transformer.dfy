/**
 * pkg/edit/transformer.go: a SimpleTransformer wraps the resources, hands
 * them to the KCL program and unwraps the program's output. The KCL run
 * itself is a parameter: a function from the transformer and the wrapped
 * ResourceList to the output documents or an error.
 */
module EditTransformer {
  import opened Wrappers
  import opened Api
  import opened Values
  import opened Strs
  import opened EditWrap

  datatype SimpleTransformer = SimpleTransformer(
    name: string,
    source: string,
    dependencies: seq<string>,
    functionConfig: Option<Value>,
    config: Option<ConfigSpec>)

  /** RunKCLWithConfig: the program run, given the transformer and its input. */
  type Evaluator = (SimpleTransformer, Value) -> Result<seq<Value>>

  /** SimpleTransformer.String */
  function Describe(st: SimpleTransformer): (r: string)
    ensures HasPrefix(r, "name: " + st.name)
    ensures HasSuffix(r, " source: " + st.source)
    ensures |r| == |"name: " + st.name| + |" source: " + st.source|
  {
    "name: " + st.name + " source: " + st.source
  }

  /** The ResourceList the program is run on. */
  function Input(st: SimpleTransformer, nodes: seq<Value>): Value
  {
    Envelope(WithoutKclRun(nodes), st.functionConfig)
  }

  /** SimpleTransformer.Transform: wrap, run, unwrap; the unwrapped functionConfig is dropped. */
  function Transform(st: SimpleTransformer, nodes: seq<Value>, eval: Evaluator): (r: Result<seq<Value>>)
    ensures eval(st, Input(st, nodes)).Err? ==> r == Err(eval(st, Input(st, nodes)).msg)
  {
    var out :- eval(st, Input(st, nodes));
    var unwrapped :- UnwrapResources(out);
    Ok(unwrapped.0)
  }

  /** The program sees nothing but the wrapped input: evaluators that agree on it give the same result. */
  lemma TransformSeesOnlyInput(st: SimpleTransformer, nodes: seq<Value>, e1: Evaluator, e2: Evaluator)
    requires e1(st, Input(st, nodes)) == e2(st, Input(st, nodes))
    ensures Transform(st, nodes, e1) == Transform(st, nodes, e2)
  {
  }

  /** The result is the node list of the unwrapped output. */
  lemma TransformIsUnwrappedOutput(st: SimpleTransformer, nodes: seq<Value>, eval: Evaluator)
    requires eval(st, Input(st, nodes)).Ok?
    ensures var u := UnwrapResources(eval(st, Input(st, nodes)).value);
      (u.Err? ==> Transform(st, nodes, eval) == Err(u.msg))
      && (u.Ok? ==> Transform(st, nodes, eval) == Ok(u.value.0))
  {
  }

  /** A program that echoes its input as one document gives back the non-KCLRun nodes in order. */
  lemma EchoTransform(st: SimpleTransformer, nodes: seq<Value>, eval: Evaluator)
    requires eval(st, Input(st, nodes)) == Ok([Input(st, nodes)])
    ensures Transform(st, nodes, eval) == Ok(WithoutKclRun(nodes))
  {
    UnwrapWrap(nodes, st.functionConfig);
  }
}
