/**
 * pkg/process/process.go: run a KCLRun over a ResourceList and report a
 * failure as one result of severity Error instead of returning it.
 */
module Process {
  import opened Wrappers
  import opened Values
  import opened Fn
  import opened EditTransformer
  import opened KclRunConfig

  /** Process: the first return value says whether processing succeeded; the error is always nil. */
  method Process(rl: ResourceList, asConfigMap: ConfigMapDecoder, asKclRun: KclRunDecoder,
                 eval: Evaluator, reparse: Reparse) returns (ok: bool, err: Option<string>)
    modifies rl
    ensures err.None?
    ensures rl.functionConfig == old(rl.functionConfig)
    ensures var cfg := ConfigOutcome(ZeroState(), old(rl.functionConfig), asConfigMap, asKclRun);
      cfg.1.Some? ==> !ok && rl.results == [FnResult(cfg.1.value, Error)] && rl.items == old(rl.items)
    ensures var cfg := ConfigOutcome(ZeroState(), old(rl.functionConfig), asConfigMap, asKclRun);
      cfg.1.None? ==>
        var out := TransformOutcome(cfg.0, old(rl.functionConfig), old(rl.items), eval, reparse);
        (out.Ok? ==> ok && rl.items == out.value && rl.results == old(rl.results))
        && (out.Err? ==> !ok && rl.results == [FnResult(out.msg, Error)] && rl.items == old(rl.items))
  {
    var r := new KclRun();
    var e := r.Config(rl.functionConfig, asConfigMap, asKclRun);
    if e.None? {
      var _, e2 := r.Transform(rl, eval, reparse);
      e := e2;
    }
    if e.Some? {
      rl.results := [FnResult(e.value, Error)];
      return false, None;
    }
    return true, None;
  }
}
