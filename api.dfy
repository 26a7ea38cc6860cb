/**
 * Constants and record types of the KCLRun API (pkg/api/spec.go,
 * pkg/api/kcl.go, pkg/api/v1alpha1/kclrun_types.go) and the ResourceList
 * constants of the KRM function protocol.
 */
module Api {

  const KclRunGroup := "krm.kcl.dev"
  const KclRunVersion := "v1alpha1"
  const KclRunApiVersion := KclRunGroup + "/" + KclRunVersion
  const KclRunKind := "KCLRun"
  const SourceKey := "source"
  const ParamsKey := "params"

  const ConfigMapApiVersion := "v1"
  const ConfigMapKind := "ConfigMap"
  const DefaultProgramName := "kcl-function-run"
  const AnnotationAllowInsecureSource := "krm.kcl.dev/allow-insecure-source"

  /** kio.ResourceListAPIVersion and kio.ResourceListKind. */
  const ResourceListApiVersion := "config.kubernetes.io/v1"
  const ResourceListKind := "ResourceList"

  /** api.ConfigSpec: the compile configuration of a run. */
  datatype ConfigSpec = ConfigSpec(
    arguments: seq<string>,
    settings: seq<string>,
    overrides: seq<string>,
    pathSelectors: seq<string>,
    vendor: bool,
    sortKeys: bool,
    showHidden: bool,
    disableNone: bool,
    debug: bool,
    strictRangeCheck: bool)

  /** api.CredSpec */
  datatype CredSpec = CredSpec(url: string, username: string, password: string)

  /** api.ResourceRule: apiVersion and kind patterns; `*` or an empty list matches anything. */
  datatype ResourceRule = ResourceRule(apiVersions: seq<string>, kinds: seq<string>)

  /** api.MatchConstraintsSpec */
  datatype MatchConstraintsSpec = MatchConstraintsSpec(resourceRules: seq<ResourceRule>)
}
