/**
 * pkg/edit/opts.go: assembling the KCL run options. The process
 * environment (`PATH` and the `NAME=value` entries of os.Environ) is passed
 * in; the JSON marshaller and the kpm client are parameters.
 */
module EditOpts {
  import opened Wrappers
  import opened Api
  import opened Values
  import opened Strs
  import opened EditBootstrap

  /** Option names of the items and params bindings. */
  const ItemsOptionName := "items"
  const ParamsOptionName := "params"

  /** The part of the KCL CLI's RunOptions that constructOptions sets. */
  datatype RunOptions = RunOptions(
    noStyle: bool,
    debug: bool,
    disableNone: bool,
    overrides: seq<string>,
    pathSelectors: seq<string>,
    settings: seq<string>,
    showHidden: bool,
    sortKeys: bool,
    strictRangeCheck: bool,
    vendor: bool,
    arguments: seq<string>)

  /**
   * LoadDepListFromConfig: without a client there are no dependencies and
   * no error. With one, the client resolves the kcl.mod text built from
   * `dependencies` into (name, path) pairs, each given as `name=path`.
   */
  function LoadDepListFromConfig<C>(cli: Option<C>, dependencies: string,
                                    resolve: (C, string) -> Result<seq<(string, string)>>): (r: Result<Option<seq<string>>>)
    ensures cli.None? ==> r == Ok(None)
    ensures cli.Some? && r.Ok? ==> r.value.Some?
  {
    match cli
    case None => Ok(None)
    case Some(c) =>
      var deps :- resolve(c, "[package]\n\n[dependencies]\n" + dependencies);
      Ok(Some(seq(|deps|, i requires 0 <= i < |deps| => Binding(deps[i].0, deps[i].1))))
  }

  /**
   * strings.SplitN(e, "=", 2) followed by pair[0], pair[1]: the key before
   * the first `=` and the rest. Without `=`, pair[1] is out of range (a
   * panic in Go, an error here).
   */
  function SplitEnv(e: string): (r: Result<(string, string)>)
    ensures r.Ok? <==> '=' in e
    ensures r.Ok? ==> '=' !in r.value.0 && e == r.value.0 + "=" + r.value.1
  {
    var i := IndexOf(e, '=');
    if i == |e| then Err("runtime error: index out of range [1] with length 1")
    else
      assert e == e[..i] + "=" + e[i + 1..];
      Ok((e[..i], e[i + 1..]))
  }

  /** Splitting a `key=value` entry whose key has no `=` gives back key and value. */
  lemma SplitBinding(k: string, v: string)
    requires '=' !in k
    ensures SplitEnv(Binding(k, v)) == Ok((k, v))
  {
    var e := Binding(k, v);
    assert e[|k|] == '=';
    var i := IndexOf(e, '=');
    assert forall j :: 0 <= j < |k| ==> e[j] == k[j];
    assert e[..i] == k && e[i + 1..] == v;
  }

  /** The environment map: entries are added in order, so a later key overwrites an earlier one. */
  function EnvMapOf(env: seq<string>): Result<map<string, string>>
  {
    if env == [] then Ok(map[])
    else
      var m :- EnvMapOf(env[..|env| - 1]);
      var kv :- SplitEnv(env[|env| - 1]);
      Ok(m[kv.0 := kv.1])
  }

  /** The environment map fails exactly when some entry has no `=`. */
  lemma {:induction false} EnvMapFailsIff(env: seq<string>)
    ensures EnvMapOf(env).Err? <==> exists i :: 0 <= i < |env| && '=' !in env[i]
  {
    if env != [] {
      var pre := env[..|env| - 1];
      EnvMapFailsIff(pre);
      if exists i :: 0 <= i < |pre| && '=' !in pre[i] {
        var i :| 0 <= i < |pre| && '=' !in pre[i];
        assert env[i] == pre[i];
      }
      if exists i :: 0 <= i < |env| && '=' !in env[i] {
        var i :| 0 <= i < |env| && '=' !in env[i];
        if i < |pre| {
          assert pre[i] == env[i];
        }
      }
    }
  }

  /** No key of the environment map holds `=`. */
  lemma {:induction false} EnvMapKeys(env: seq<string>)
    requires EnvMapOf(env).Ok?
    ensures forall k :: k in EnvMapOf(env).value ==> '=' !in k
  {
    if env != [] {
      EnvMapKeys(env[..|env| - 1]);
    }
  }

  /** An entry appended last decides its key's value. */
  lemma LaterEntryWins(env: seq<string>, k: string, v: string)
    requires EnvMapOf(env).Ok? && '=' !in k
    ensures EnvMapOf(env + [Binding(k, v)]) == Ok(EnvMapOf(env).value[k := v])
  {
    var e := env + [Binding(k, v)];
    assert e[..|e| - 1] == env;
    SplitBinding(k, v);
  }

  /** A failure in a prefix is the failure of the whole environment. */
  lemma {:induction false} EnvMapPrefixFails(env: seq<string>, n: nat)
    requires n <= |env| && EnvMapOf(env[..n]).Err?
    ensures EnvMapOf(env) == Err(EnvMapOf(env[..n]).msg)
    decreases |env| - n
  {
    if n == |env| {
      assert env[..n] == env;
    } else {
      var e := env[..n + 1];
      assert e[..|e| - 1] == env[..n];
      EnvMapPrefixFails(env, n + 1);
    }
  }

  /** The mapping node of an environment map, every value a string. */
  function EnvNode(m: map<string, string>): Value
  {
    StrMap(map k | k in m :: Str(m[k]))
  }

  /** The text of the `env` option. */
  function EnvOptionValue(env: seq<string>, marshal: Value -> Result<string>, emptyConfig: string): Result<string>
  {
    var m :- EnvMapOf(env);
    ToKclValueString(Some(EnvNode(m)), emptyConfig, marshal)
  }

  /** getEnvMapOptionKCLValue: fills the map entry by entry, copies it into a node and converts it. */
  method GetEnvMapOptionValue(env: seq<string>, marshal: Value -> Result<string>, emptyConfig: string)
    returns (r: Result<string>)
    ensures r == EnvOptionValue(env, marshal, emptyConfig)
  {
    var envMap: map<string, string> := map[];
    var i := 0;
    while i < |env|
      invariant 0 <= i <= |env|
      invariant EnvMapOf(env[..i]) == Ok(envMap)
    {
      var pair := SplitEnv(env[i]);
      assert env[..i + 1][..i] == env[..i];
      if pair.Err? {
        EnvMapPrefixFails(env, i + 1);
        return Err(pair.msg);
      }
      envMap := envMap[pair.value.0 := pair.value.1];
      i := i + 1;
    }
    assert env[..i] == env;

    var envMapInterface: map<string, Value> := map[];
    var keys := envMap.Keys;
    while keys != {}
      invariant keys <= envMap.Keys
      invariant envMapInterface == map k | k in envMap.Keys - keys :: Str(envMap[k])
      decreases keys
    {
      var k :| k in keys;
      envMapInterface := envMapInterface[k := Str(envMap[k])];
      keys := keys - {k};
    }
    assert envMapInterface == map k | k in envMap :: Str(envMap[k]);
    r := ToKclValueString(Some(StrMap(envMapInterface)), emptyConfig, marshal);
  }

  /** The texts of the five fixed bindings, in binding order. */
  datatype OptionValues = OptionValues(resourceList: string, items: string, params: string, path: string, env: string)

  /** Steps 1-5 of constructOptions; the first failing step gives the error. */
  function ComputeOptionValues(resourceList: Value, path: string, env: seq<string>,
                               marshal: Value -> Result<string>, emptyConfig: string, emptyList: string): Result<OptionValues>
  {
    var rlValue :- ToKclValueString(Some(resourceList), emptyConfig, marshal);
    var items :- LookupPath(Some(resourceList), ["items"]);
    var itemsValue :- ToKclValueString(items, emptyList, marshal);
    var params :- LookupPath(Some(resourceList), ["functionConfig", "spec", "params"]);
    var paramsValue :- ToKclValueString(params, emptyConfig, marshal);
    var envValue :- EnvOptionValue(env, marshal, emptyConfig);
    Ok(OptionValues(rlValue, itemsValue, paramsValue, path, envValue))
  }

  /** The bindings appended after the user arguments. */
  function FixedBindings(v: OptionValues): (b: seq<string>)
    ensures |b| == 5
  {
    [ Binding(ResourceListOptionName, v.resourceList),
      Binding(ItemsOptionName, v.items),
      Binding(ParamsOptionName, v.params),
      Binding("PATH", v.path),
      Binding("env", v.env) ]
  }

  /** The flags of the options: NoStyle always, the compile config's flags when there is one. */
  function Configured(base: RunOptions, config: Option<ConfigSpec>): RunOptions
  {
    match config
    case None => base.(noStyle := true)
    case Some(c) =>
      base.(noStyle := true, debug := c.debug, disableNone := c.disableNone, overrides := c.overrides,
            pathSelectors := c.pathSelectors, settings := c.settings, showHidden := c.showHidden,
            sortKeys := c.sortKeys, strictRangeCheck := c.strictRangeCheck, vendor := c.vendor,
            arguments := c.arguments)
  }

  /**
   * constructOptions: `base` stands for options.NewRunOptions(). The
   * options get the compile config's flags and the user arguments followed
   * by the five fixed bindings.
   */
  method ConstructOptions(resourceList: Value, config: Option<ConfigSpec>, path: string, env: seq<string>,
                          base: RunOptions, marshal: Value -> Result<string>, emptyConfig: string, emptyList: string)
    returns (r: Result<RunOptions>)
    ensures var vs := ComputeOptionValues(resourceList, path, env, marshal, emptyConfig, emptyList);
      (vs.Err? ==> r == Err(vs.msg))
      && (vs.Ok? ==> r.Ok? && r.value == Configured(base, config).(arguments :=
            Configured(base, config).arguments + FixedBindings(vs.value)))
  {
    var rlValue :- ToKclValueString(Some(resourceList), emptyConfig, marshal);
    var items :- LookupPath(Some(resourceList), ["items"]);
    var itemsValue :- ToKclValueString(items, emptyList, marshal);
    var params :- LookupPath(Some(resourceList), ["functionConfig", "spec", "params"]);
    var paramsValue :- ToKclValueString(params, emptyConfig, marshal);
    var envValue :- GetEnvMapOptionValue(env, marshal, emptyConfig);
    var opts := base;
    opts := opts.(noStyle := true);
    if config.Some? {
      var c := config.value;
      opts := opts.(debug := c.debug);
      opts := opts.(disableNone := c.disableNone);
      opts := opts.(overrides := c.overrides);
      opts := opts.(pathSelectors := c.pathSelectors);
      opts := opts.(settings := c.settings);
      opts := opts.(showHidden := c.showHidden);
      opts := opts.(sortKeys := c.sortKeys);
      opts := opts.(strictRangeCheck := c.strictRangeCheck);
      opts := opts.(vendor := c.vendor);
      opts := opts.(arguments := c.arguments);
    }
    opts := opts.(arguments := opts.arguments + [
      Binding(ResourceListOptionName, rlValue),
      Binding(ItemsOptionName, itemsValue),
      Binding(ParamsOptionName, paramsValue),
      Binding("PATH", path),
      Binding("env", envValue)]);
    r := Ok(opts);
  }

  /** The fixed bindings are resource_list, items, params, PATH, env, each `name=value`. */
  lemma FixedBindingsOrder(v: OptionValues)
    ensures HasPrefix(FixedBindings(v)[0], "resource_list=")
    ensures HasPrefix(FixedBindings(v)[1], "items=")
    ensures HasPrefix(FixedBindings(v)[2], "params=")
    ensures HasPrefix(FixedBindings(v)[3], "PATH=")
    ensures HasPrefix(FixedBindings(v)[4], "env=")
    ensures FixedBindings(v)[3] == "PATH=" + v.path
  {
  }

  /** NoStyle is always set; a config's flags and arguments are copied verbatim, else the defaults stay. */
  lemma ConfiguredFlags(base: RunOptions, config: Option<ConfigSpec>)
    ensures Configured(base, config).noStyle
    ensures config.Some? ==> var o, c := Configured(base, config), config.value;
      o.debug == c.debug && o.disableNone == c.disableNone && o.overrides == c.overrides
      && o.pathSelectors == c.pathSelectors && o.settings == c.settings && o.showHidden == c.showHidden
      && o.sortKeys == c.sortKeys && o.strictRangeCheck == c.strictRangeCheck && o.vendor == c.vendor
      && o.arguments == c.arguments
    ensures config.None? ==> Configured(base, config) == base.(noStyle := true)
  {
  }

  /** Without a config and with no default arguments, the arguments are exactly the five bindings. */
  lemma NilConfigArguments(base: RunOptions, v: OptionValues)
    requires base.arguments == []
    ensures Configured(base, None).arguments + FixedBindings(v) == FixedBindings(v)
  {
  }
}
