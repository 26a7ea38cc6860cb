# krm-kcl core, modelled in Dafny

krm-kcl is a KRM (Kubernetes Resource Model) function. It reads a
ResourceList, turns its function config (a `ConfigMap` or a `KCLRun`) into
one `KCLRun` record, and runs that record's KCL program over the resources.
It then keeps the output resources that satisfy the record's match rules and
reports any failure as a result of severity Error.

This project models the parts of that pipeline that need no KCL
evaluator, network or cluster:

- the two revisions of the match rules, `pkg/config/utils.go` (module
  `MatchRules`, wildcards) and `pkg/config/config.go` (module
  `KclRunConfig`, exact membership). They are kept apart on purpose;
- `KCLRun.Config` and `KCLRun.Transform`, as a class `KclRunConfig.KclRun`
  whose methods update its fields, and `Process` (module `Process`);
- the classification of source references and the reading of KCL code
  from OCI packages, local directories and entry files (modules `Source`,
  `Entry` and `Paths`). The file system is a map from path to node;
- wrapping and unwrapping ResourceList envelopes, the `SimpleTransformer`
  composition, the rewrite of JSON literals into KCL literals, and the
  assembly of the KCL run options (modules `EditWrap`, `EditTransformer`,
  `EditBootstrap` and `EditOpts`);
- the object-tree utilities of `pkg/kube`: key normalisation,
  server-side field removal, drift detection, object identifiers,
  `KubeObjects` and `ParseResourceList` (modules `KubeUtils`,
  `KubeMetadata`, `KubeObjects` and `KubeResourceList`).

Objects are values of one JSON-like datatype, `Values.Value`. It has a
string-keyed mapping (`StrMap`) and a mapping whose keys may be any YAML
scalar (`AnyMap`). kyaml finds a mapping's fields by the text of the
key nodes, so a kyaml node's mapping is always a `StrMap` keyed by that
text; `AnyMap` occurs only in the decoded `interface{}` trees of
`pkg/kube`. Everything the core gets from outside is a function
parameter:

- the KCL run, the YAML and JSON parsers and marshallers, and the
  `KubeObject.As` decoders;
- the kcl.yaml settings loader, `filepath.Glob`, and the OCI parse, pull
  and untar steps;
- the kpm module-root lookup and the kpm client;
- the process environment (`PATH`, `os.Environ`).

Go library behaviour the core relies on is restated in Dafny. This covers:

- `schema.ParseGroupVersion` (module `Schema`);
- `filepath.Join`, `Dir`, `Base` and `Ext` (module `Paths`, Unix paths);
- the `strings` functions used (module `Strs`);
- kyaml's `Lookup`, `Elements` and `SetField`, and apimachinery's nested
  field accessors (modules `Values` and `KubeUtils`).

## Model

| member | source | states |
|---|---|---|
| MatchRules.ScanPatterns | pkg/config/utils.go:43-48 | the pattern loop: true at the first pattern that is `*` or equals the string, false after the last |
| MatchRules.ContainsString | pkg/config/utils.go:39-49 | containsString: an empty list matches, otherwise the pattern loop decides; EmptyPatternsMatchAll, WildcardMatchesAll and ContainsIsMembership state what that means |
| MatchRules.EmptyPatternsMatchAll | pkg/config/utils.go:40-42 | an empty pattern list matches every string |
| MatchRules.WildcardMatchesAll | pkg/config/utils.go:43-45 | a pattern list holding `*` matches every string |
| MatchRules.ContainsIsMembership | pkg/config/utils.go:43-48 | for a non-empty list without `*`, containsString is exactly membership |
| MatchRules.RuleMatches | pkg/config/utils.go:18-19 | one rule matches when its apiVersions patterns accept the object's apiVersion and its kinds patterns accept its kind |
| MatchRules.AnyRuleMatches | pkg/config/utils.go:17-24 | the rule loop: true at the first matching rule, false after the last; AnyRuleMatchesIff states it as an exists |
| MatchRules.MatchResourceRules | pkg/config/utils.go:11-25 | true for an empty rule list, otherwise the rule loop over the object's apiVersion and kind; MatchIff states both directions |
| MatchRules.EmptyRulesMatchAll | pkg/config/utils.go:13-15 | with no resource rules every object matches |
| MatchRules.AnyRuleMatchesIff | pkg/config/utils.go:17-24 | the rule loop holds iff some rule matches both apiVersion and kind |
| MatchRules.MatchIff | pkg/config/utils.go:11-25 | MatchResourceRules holds iff the rule list is empty or some rule matches the object's apiVersion and kind |
| MatchRules.AppendRuleKeepsMatch | pkg/config/utils.go:17-22 | appending a rule to a non-empty rule list keeps every match |
| MatchRules.AsciiLower | pkg/config/utils.go:31 | strings.ToLower on ASCII letters; against the lower-case ASCII ok words no other rune needs lowering |
| MatchRules.FoldsTo | pkg/config/utils.go:31 | one rune of the value matches one rune of a lower-case ok word under EqualFold(ToLower(value), word): ASCII case, the Kelvin sign for `k`, the long s for `s` |
| MatchRules.FoldEqual | pkg/config/utils.go:31 | the value and the word have the same number of runes and match rune by rune |
| MatchRules.AnyOkWord | pkg/config/utils.go:30-35 | the word loop: true at the first ok word the value matches ignoring case |
| MatchRules.IsOk | pkg/config/utils.go:28-36 | isOk, the word loop over ok, yes, true, 1 and on; IsOkIff states the five cases. config.go:182-190 has the same body and uses this one |
| MatchRules.AnyOkWordIff | pkg/config/utils.go:30-35 | the isOk loop holds iff the value equals some ok word ignoring case |
| MatchRules.IsOkIff | pkg/config/utils.go:28-36 | isOk holds exactly for ok, yes, true, 1 and on, ignoring case |
| MatchRules.IsOkIgnoresAsciiCase | pkg/config/utils.go:31 | every upper- or lower-case spelling of an ok word is ok |
| MatchRules.NotOkExamples | pkg/config/utils.go:28-36 | "", "y", "off" and "0" are not ok |
| KclRunConfig.ContainsString | pkg/config/config.go:193-200 | containsString of this revision: true at the first element equal to the string, false for an empty list; ContainsStringIsMembership states it is membership |
| KclRunConfig.IsEmptyStruct | pkg/config/config.go:203-216 | MatchConstraints has the one field ResourceRules, and reflect.DeepEqual tells a nil slice from an empty one: the struct is zero iff ResourceRules is nil |
| KclRunConfig.GroupOf | pkg/config/config.go:163 | the group of GroupKind(): the apiVersion's part before its `/`, "" for the core group or an apiVersion that does not parse |
| KclRunConfig.RuleMatches | pkg/config/config.go:163-165 | one rule matches when its apiGroups, apiVersions and resources lists hold the object's group, apiVersion and kind |
| KclRunConfig.AnyRuleMatches | pkg/config/config.go:162-170 | the rule loop: true at the first matching rule, false after the last |
| KclRunConfig.MatchResourceRules | pkg/config/config.go:152-171 | true for zero constraints and for a nil or empty rule list, otherwise the rule loop; UnconstrainedMatchesAll and MatchIff state both sides |
| KclRunConfig.ContainsStringIsMembership | pkg/config/config.go:193-200 | containsString of this revision is exact membership; an empty list matches nothing |
| KclRunConfig.UnconstrainedMatchesAll | pkg/config/config.go:154-160 | with zero MatchConstraints, or a nil or empty rule list, every object matches |
| KclRunConfig.AnyRuleMatchesIff | pkg/config/config.go:162-170 | the rule loop holds iff some rule matches |
| KclRunConfig.MatchIff | pkg/config/config.go:152-171 | with rules, an object matches iff some rule lists its group, its apiVersion and its kind |
| KclRunConfig.EmptyFieldNeverMatches | pkg/config/config.go:162-168 | a rule with an empty apiGroups, apiVersions or resources list matches no object |
| KclRunConfig.CoreGroupNeedsEmptyGroup | pkg/config/config.go:163 | an object of the core group (apiVersion without `/`) matches only a rule that lists the empty group |
| KclRunConfig.PlainHttpRequested | pkg/config/config.go:174-179 | the DealAnnotations test: the allow-insecure-source annotation is present and isOk |
| Schema.GvkString | pkg/config/config.go:89-91 | GroupVersionKind.String: group, `/`, version, `, Kind=`, kind |
| Schema.FromAPIVersionAndKind | pkg/config/config.go:89-91 | schema.FromAPIVersionAndKind: the parsed group and version with the kind; an apiVersion that does not parse gives an empty group and version |
| KclRunConfig.KindMismatchMsg | pkg/config/config.go:88-91 | the wrong-kind message: both accepted group-version-kinds, then the received one; KindMismatchMsgNamesBoth spells the first two out |
| KclRunConfig.ConfigMapGvk | pkg/config/config.go:89 | the ConfigMap kind prints as `/v1, Kind=ConfigMap` |
| KclRunConfig.KclRunGvk | pkg/config/config.go:90 | the KCLRun kind prints as `krm.kcl.dev/v1alpha1, Kind=KCLRun` |
| KclRunConfig.KindMismatchMsgNamesBoth | pkg/config/config.go:88-91 | the wrong-kind message names both accepted kinds, then the kind it got |
| Fn.IsEmptyObject | pkg/config/config.go:66 | KubeObject.IsEmpty, assumed from the SDK: a null node or a mapping without fields |
| KclRunConfig.FromConfigMap | pkg/config/config.go:74-82 | name and namespace copied; params replaced by the data, each value a string; source set to data["source"] when that key is present and kept otherwise |
| KclRunConfig.Finish | pkg/config/config.go:94-102 | an empty name becomes kcl-function-run; then an empty source is the error; FinishFailsIffEmptySource states both |
| KclRunConfig.ConfigOutcome | pkg/config/config.go:62-103 | the switch of Config: missing config, ConfigMap decoded and converted, KCLRun decoded, or the wrong-kind error; a decode error keeps the old record; ConfigEmpty, ConfigWrongKind, ConfigFromConfigMap and ConfigSuccess state the branches |
| KclRunConfig.ConfigEmpty | pkg/config/config.go:66-67 | an empty function config gives "FunctionConfig is missing. Expect `ConfigMap` or `KCLRun`" |
| KclRunConfig.ConfigWrongKind | pkg/config/config.go:87-91 | a config that is neither v1/ConfigMap nor krm.kcl.dev/v1alpha1/KCLRun gives the wrong-kind message |
| KclRunConfig.ConfigFromConfigMap | pkg/config/config.go:68-82 | from a ConfigMap: params have exactly the data keys with the same values; source is data["source"]; namespace is copied; the name is copied or defaulted |
| KclRunConfig.ConfigSuccess | pkg/config/config.go:94-102 | after a successful Config, name and source are non-empty |
| KclRunConfig.FinishFailsIffEmptySource | pkg/config/config.go:94-101 | once the record is filled, Config fails iff source is empty, with "`source` must not be empty"; an empty name becomes kcl-function-run |
| KclRunConfig.KeepMatching | pkg/config/config.go:136-147 | every kept object is one of the objects and satisfies the rules, and no more objects come out than went in; KeepMatchingAppend and KeepMatchingSingle fix order and multiplicity |
| KclRunConfig.KeepMatchingAppend | pkg/config/config.go:142-147 | filtering a concatenation is the concatenation of the filtered parts, so the kept objects keep their order and their repetitions |
| KclRunConfig.KeepMatchingSingle | pkg/config/config.go:143-145 | one object is kept exactly when it satisfies the rules |
| KclRunConfig.KeepMatchingKeeps | pkg/config/config.go:143-145 | no object that satisfies the rules is dropped |
| KclRunConfig.KeepMatchingUnconstrained | pkg/config/config.go:154-160 | without constraints every object is kept, in order |
| KclRunConfig.ReparseAll | pkg/config/config.go:119-125 | parsing all items gives one node per item, or the first error |
| KclRunConfig.ReparsePrefixFails | pkg/config/config.go:119-125 | a failing prefix is the failure of the whole parse |
| KclRunConfig.ParseItems | pkg/config/config.go:119-125 | the item loop computes ReparseAll: every item parsed, or the first failure |
| KclRunConfig.KeepTransformed | pkg/config/config.go:136-146 | the output loop gives the first parse failure, or the parsed objects that satisfy the rules, in order |
| KclRunConfig.TransformerOf | pkg/config/config.go:127-131 | the SimpleTransformer of the record's name and source and the parsed function config |
| KclRunConfig.TransformOutcome | pkg/config/config.go:115-147 | parse the function config, parse every item, transform, parse every output node, keep the matching ones; the first error ends it; TransformKeepsMatching states the success case |
| KclRunConfig.TransformKeepsMatching | pkg/config/config.go:136-147 | on success the new items are the filter of the re-parsed transformer output, hence (by KeepMatchingAppend) its matching objects in their order, and an object is among them iff it is an output object satisfying the rules |
| KclRunConfig.ZeroState | pkg/process/process.go:13 | the zero KCLRun record: empty strings and maps and a nil rule list |
| KclRunConfig.KclRun.constructor | pkg/process/process.go:13 | a new KCLRun is the zero record |
| KclRunConfig.KclRun.Config | pkg/config/config.go:62-103 | the new record and the error are those of ConfigOutcome of the old record: a missing config, a decode error, the ConfigMap or KCLRun branch, name defaulting, source validation |
| KclRunConfig.KclRun.Transform | pkg/config/config.go:109-148 | the returned flag is the DealAnnotations test; on success the items become TransformOutcome (the matching transformed objects); on any error the items are unchanged; the function config and results are never changed |
| Process.Process | pkg/process/process.go:11-29 | the error is always nil; a Config or Transform failure sets Results to exactly one Error result with the message and returns false, and a Config failure means Transform never runs; success returns true with Results unchanged |
| Fn.ResourceList.constructor | pkg/process/process.go:11 | a ResourceList holds the given items and function config and no results |
| Strs.HasPrefix | pkg/source/git.go:21 | strings.HasPrefix: the string starts with the prefix |
| Strs.HasSuffix | pkg/source/oci.go:66 | strings.HasSuffix: the string ends with the suffix |
| Source.IsOCI | pkg/source/oci.go:23-25 | the reference starts with `oci://` |
| Paths.IsAbs | pkg/source/local.go:13 | filepath.IsAbs for Unix paths: a leading `/` |
| Source.IsLocal | pkg/source/local.go:12-17 | IsAbs or a leading `.`; IsLocalIff states it as a first-character test |
| Source.IsGit | pkg/source/git.go:20-22 | the reference starts with `git://` |
| Source.IsVCSDomain | pkg/source/git.go:25-27 | the reference starts with `github.com`, `gitlab.com/` or `bitbucket.org/` |
| Source.IsRemoteUrl | pkg/source/http.go:16-18 | the reference starts with `http://` or `https://` |
| Source.ThroughGetter | pkg/source/api.go:13 | the condition of the getter branch: local, remote URL, git or VCS domain |
| Source.LocaleSource | pkg/source/api.go:9-20 | OCI references go to the OCI reader, getter references to the getter, anything else is the code itself with no error; the lemmas below state each branch |
| Source.IsLocalIff | pkg/source/local.go:12-17 | IsLocal holds exactly for strings starting with `/` or `.` |
| Source.ClassificationExtends | pkg/source/git.go:20-27 | IsOCI, IsLocal, IsGit, IsVCSDomain and IsRemoteUrl are prefix tests: extending a matching string keeps it matching |
| Source.OciExcludesOthers | pkg/source/oci.go:23-25 | an `oci://` reference satisfies none of the getter predicates |
| Source.VcsDomainExamples | pkg/source/git.go:12-16 | `github.comx` is a VCS domain; bare `gitlab.com` and `bitbucket.org` are not |
| Source.NotRemoteExamples | pkg/source/http.go:16-18 | `git::https://x` and `HTTP://x` are not remote URLs; `https://x` is |
| Source.LocaleSourceBranches | pkg/source/api.go:9-20 | an OCI reference never reaches the getter; any other never reaches the OCI reader; the rest is returned unchanged with no error |
| Source.LocaleSourceByPrefix | pkg/source/api.go:10-15 | `oci://…` goes to the OCI reader; `./…`, `https://…` and `git://…` go to the getter |
| Source.GetterSyntaxIsInline | pkg/source/api.go:16-19 | a go-getter style `git::https://x` reference is taken as inline code |
| Source.LocaleSourceReadsOci | pkg/source/api.go:10-12 | with ReadFromOCISource as its reader, LocaleSource of an `oci://` reference is OciOutcome |
| Source.OciOutcome | pkg/source/oci.go:34-74 | the steps of ReadFromOCISource with their early returns, each returning the reference as text; OciEarlyReturnsKeepSource and OciReadsExtractedPackage state them |
| Source.ReadFromOCISource | pkg/source/oci.go:34-74 | the result is OciOutcome: parse, temp dir, pull, glob for one tarball, untar into the tar path minus its extension, read that directory |
| Source.OciEarlyReturnsKeepSource | pkg/source/oci.go:36-60 | a parse failure returns the reference with the error; a glob error, or a glob without exactly one match, returns the reference with the glob's error, which may be nil |
| Source.OciReadsExtractedPackage | pkg/source/oci.go:63-73 | with exactly one `.tar` extracted, the package is read from a directory d with d + ".tar" == tar path |
| Paths.JoinPath | pkg/source/oci.go:57 | filepath.Join of a directory and a name, without Clean: the name after the directory, with a `/` between them unless the directory is empty or ends in `/`; the result ends with the name |
| Paths.Ext | pkg/source/oci.go:66 | filepath.Ext: a suffix of the path that is empty or starts with `.` |
| Paths.TrimSuffix | pkg/source/oci.go:66 | strings.TrimSuffix: with the suffix present, the rest plus the suffix is the string; without it, the string itself |
| Paths.ExtOfTar | pkg/source/oci.go:66 | the extension of a `.tar` path is `.tar` |
| Paths.TarDestDir | pkg/source/oci.go:66 | stripping the extension of a `.tar` path and appending ".tar" gives the path back |
| Source.ReadFromLocalSource | pkg/source/local.go:26-39 | the package at the module root; at Dir(src) when there is no module; "" and the error for any other lookup failure |
| Paths.DirOf | pkg/source/local.go:34 | filepath.Dir without Clean: everything before the last `/`, `/` for a file in the root, `.` without a `/` |
| Paths.DirOfJoin | pkg/source/local.go:34 | the directory of a name joined onto a directory not ending in `/` is that directory |
| Source.LocalFallsBackToDir | pkg/source/local.go:29-38 | when there is no module, a file reference is read from its directory; any other lookup failure gives no text and the error |
| Entry.FileExists | pkg/source/entry.go:91-97 | the path is in the file system and is not a directory |
| Entry.ReadFile | pkg/source/entry.go:77 | reading an existing file gives its content; a missing path or a directory gives an error |
| Entry.FileExistsCases | pkg/source/entry.go:91-97 | FileExists is false for missing paths and for directories, and true for every other entry |
| Entry.ConcatFiles | pkg/source/entry.go:74-87 | the buffer loop as a function: the entries' contents in order, or the first read error |
| Entry.ConcatFilesOkIff | pkg/source/entry.go:76-85 | the concatenation succeeds iff every entry can be read |
| Entry.ConcatFilesLength | pkg/source/entry.go:76-87 | the text is exactly as long as all contents together |
| Entry.ConcatFilesHolds | pkg/source/entry.go:76-87 | each entry's content appears in the text, in order, at the offset of the contents before it |
| Entry.ConcatFilesFirstError | pkg/source/entry.go:77-80 | the first unreadable entry's error is the result |
| Entry.ConcatFilesPrefixFails | pkg/source/entry.go:77-80 | a failing prefix makes the whole concatenation fail with the same error |
| Entry.EntryFilesOutcome | pkg/source/entry.go:69-88 | ErrNoEntry for no entries, else the concatenation, with "" as the text on an error |
| Entry.GetSourceFromEntryFiles | pkg/source/entry.go:69-88 | no entries give ErrNoEntry; success iff entries are non-empty and all readable; an error gives no partial text |
| Entry.EntryCandidates | pkg/source/entry.go:58-63 | a match is kept iff its full path starts with neither `_` nor `test_`; EntryCandidatesAppend and EntryCandidatesSingle fix the order |
| Entry.EntryCandidatesAppend | pkg/source/entry.go:58-63 | filtering a concatenation of matches is the concatenation of the filtered parts, so the entries stay in glob order, which decides the order of the concatenated source |
| Entry.EntryCandidatesSingle | pkg/source/entry.go:59-61 | one match is kept exactly when its full path starts with neither `_` nor `test_` |
| Entry.FilterEntries | pkg/source/entry.go:58-63 | the filter loop computes EntryCandidates |
| Entry.SourceFromDir | pkg/source/entry.go:29-66 | kcl.yaml if it exists, else main.k if it exists, else the filtered `*.k` matches; KclYamlTakesPrecedence, MainFileAlone, NoMatchesNoEntry and GlobStep state the branches |
| Entry.GetSourceFromDir | pkg/source/entry.go:29-66 | the result is SourceFromDir: kcl.yaml, else main.k, else the filtered `*.k` matches |
| Entry.KclYamlTakesPrecedence | pkg/source/entry.go:32-43 | with a kcl.yaml, only the files it lists are read; main.k and the glob play no part |
| Entry.MainFileAlone | pkg/source/entry.go:45-52 | without kcl.yaml, an existing main.k alone is the source |
| Entry.NoMatchesNoEntry | pkg/source/entry.go:54-57 | without kcl.yaml and main.k, a failing or empty glob gives ErrNoEntry |
| Entry.GlobStep | pkg/source/entry.go:54-65 | without kcl.yaml and main.k, a non-empty glob result is filtered and concatenated |
| Entry.AbsoluteMatchesAllKept | pkg/source/entry.go:58-63 | matches that start with `/` are all kept, test files included |
| Entry.SlashNotExcluded | pkg/source/entry.go:60 | a path starting with `/` passes both prefix tests |
| Entry.JoinPkg | pkg/source/entry.go:54 | joining a name onto `/pkg` gives `/pkg/` followed by the name |
| Entry.ExampleHasNoConfig | pkg/source/entry.go:32-46 | in the one-file package `/pkg`, neither kcl.yaml nor main.k exists, and the glob's file is `/pkg/test_a.k` |
| Entry.TestFileIsRead | pkg/source/entry.go:58-63 | as written, `/pkg/test_a.k` of the package `/pkg` is read as the source |
| Paths.BaseName | pkg/source/entry.go:60 | filepath.Base of a path not ending in `/`: its suffix after the last `/`, holding no `/` |
| Paths.BaseOfJoin | pkg/source/entry.go:54 | the base name of a joined path is the joined name |
| Entry.EntryCandidatesByBase | pkg/source/entry.go:58-63 | corrected filter: a match is kept iff its base name starts with neither `_` nor `test_` |
| Entry.EntryCandidatesByBaseAppend | pkg/source/entry.go:58-63 | corrected filter: distributes over concatenation, so glob order is kept |
| Entry.EntryCandidatesByBaseSingle | pkg/source/entry.go:59-61 | corrected filter: one match is kept exactly when its base name starts with neither `_` nor `test_` |
| Entry.ByBaseDropsTestFiles | pkg/source/entry.go:58-63 | with the corrected filter, a `_` or `test_` file in any directory is dropped |
| Entry.ByBaseKeepsOrdinaryFiles | pkg/source/entry.go:58-63 | with the corrected filter, any other file in any directory is kept |
| Entry.SourceFromDirByBase | pkg/source/entry.go:29-66 | GetSourceFromDir with the corrected filter agrees with the written one except in the glob step |
| Entry.TestFileIsSkippedByBase | pkg/source/entry.go:58-63 | with the corrected filter, the same package has no entry |
| EditWrap.IsKclRun | pkg/edit/wraper.go:16 | the node's apiVersion is krm.kcl.dev/v1alpha1 and its kind KCLRun |
| EditWrap.WithoutKclRun | pkg/edit/wraper.go:14-20 | the kept nodes are input nodes, none of them a KCLRun |
| EditWrap.WithoutKclRunSnoc | pkg/edit/wraper.go:14-20 | each step of the loop appends the node unless it is a KCLRun node |
| EditWrap.WithoutKclRunAppend | pkg/edit/wraper.go:14-20 | filtering a concatenation filters each part |
| EditWrap.WithoutKclRunKeeps | pkg/edit/wraper.go:14-20 | no non-KCLRun node is dropped |
| EditWrap.WithoutKclRunIdempotent | pkg/edit/wraper.go:14-20 | filtering twice is filtering once |
| EditWrap.WrapResources | pkg/edit/wraper.go:12-45 | the output is the ResourceList envelope of the non-KCLRun nodes, in input order, with the functionConfig |
| EditWrap.Envelope | pkg/edit/wraper.go:21-42 | the mapping with the ResourceList apiVersion and kind and the items; functionConfig is set only for a non-null node, as SetField of a null node clears the field |
| Values.Lookup | pkg/edit/wraper.go:62 | kyaml Lookup of one field: the field, nothing when it is missing or the node is null, and an error exactly when the node is neither a string-keyed mapping nor null (a kyaml mapping is a `StrMap` keyed by its keys' text) |
| Values.Elements | pkg/edit/wraper.go:71 | RNode.Elements: a nil or null node has none, a sequence its elements, any other node is an error |
| Values.LookupPath | pkg/edit/opts.go:66 | kyaml Lookup of a field path: one field at a time, stopping with nothing at a missing step |
| EditWrap.EnvelopeShape | pkg/edit/wraper.go:21-42 | the envelope has the ResourceList apiVersion and kind, the items, and a functionConfig iff one is given |
| EditWrap.WrapHasNoKclRun | pkg/edit/wraper.go:16-18 | a wrapped ResourceList never holds a KCLRun item |
| EditWrap.UnwrapResources | pkg/edit/wraper.go:50-51 | an empty input gives no nodes and no functionConfig |
| EditWrap.UnwrapSingleWithoutItems | pkg/edit/wraper.go:52-53 | a single document without items is the only output, with its functionConfig |
| EditWrap.UnwrapMany | pkg/edit/wraper.go:54-80 | two or more documents come back without the KCLRun ones and without a functionConfig |
| EditWrap.UnwrapWrap | pkg/edit/wraper.go:12-81 | unwrapping a wrapped ResourceList gives back the filtered nodes and the functionConfig |
| EditTransformer.Describe | pkg/edit/transformer.go:40-43 | the description is `name: <name> source: <source>` |
| EditTransformer.Input | pkg/edit/transformer.go:48-54 | the ResourceList the program runs on: the envelope of the non-KCLRun nodes with the transformer's functionConfig |
| EditTransformer.Transform | pkg/edit/transformer.go:56-58 | an evaluator error is the result |
| EditTransformer.TransformSeesOnlyInput | pkg/edit/transformer.go:48-54 | the evaluator receives exactly the wrapped nodes and functionConfig |
| EditTransformer.TransformIsUnwrappedOutput | pkg/edit/transformer.go:61-62 | the result is the node list of the unwrapped output; its functionConfig is dropped |
| EditTransformer.EchoTransform | pkg/edit/transformer.go:46-63 | with an evaluator that echoes its input, Transform returns the non-KCLRun nodes in order |
| Strs.ReplaceAll | pkg/edit/bootstrap.go:67-69 | strings.Replace(s, p, q, -1): leftmost non-overlapping occurrences of p, scanning left to right, become q |
| Strs.NoOccurrenceAfterReplace | pkg/edit/bootstrap.go:67-69 | when pattern, replacement and x all start with the same rune and hold it nowhere else, and x differs from the replacement, replacing leaves no x that was not there, and no pattern at all |
| Strs.ReplaceAllSameLength | pkg/edit/bootstrap.go:67-69 | a same-length replacement keeps the length |
| Strs.ReplaceAllAbsent | pkg/edit/bootstrap.go:67-69 | text without the pattern is unchanged |
| EditBootstrap.PatternsHeaded | pkg/edit/bootstrap.go:67-69 | each of the six literals starts with `:` and holds no other `:` |
| EditBootstrap.ToKclLiterals | pkg/edit/bootstrap.go:67-69 | the three replacements in order: `: true` to `: True`, `: false` to `: False`, `: null` to `: None` |
| EditBootstrap.NoJsonLiteralsLeft | pkg/edit/bootstrap.go:67-69 | the rewritten text holds no `: true`, `: false` or `: null` |
| EditBootstrap.ToKclLiteralsLength | pkg/edit/bootstrap.go:67-69 | the rewrite keeps the text's length |
| EditBootstrap.ToKclLiteralsIdentity | pkg/edit/bootstrap.go:67-69 | text holding none of the three patterns is unchanged |
| EditBootstrap.ToKclValueString | pkg/edit/opts.go:58-70 | a node that Lookup did not find gives the default the call site passes (emptyList, emptyConfig); a present node succeeds iff it marshals, and its text is the JSON with the rewrite of bootstrap.go:62-69 |
| EditBootstrap.ToKclValueStringClean | pkg/edit/bootstrap.go:62-69 | a marshalled node's text has the JSON's length and no JSON literal |
| EditBootstrap.Binding | pkg/edit/opts.go:97-106 | a binding is `name=value` |
| EditBootstrap.ResourceListOption | pkg/edit/bootstrap.go:25 | the evaluator option is `resource_list=<value>` |
| EditOpts.LoadDepListFromConfig | pkg/edit/opts.go:21-23 | with a nil client, the result is nil dependencies and no error |
| EditOpts.SplitEnv | pkg/edit/opts.go:116-117 | an entry splits at its first `=`: the key has no `=`, and key + "=" + value is the entry |
| EditOpts.SplitBinding | pkg/edit/opts.go:116-117 | splitting `key=value` with a key without `=` gives the key and value back |
| EditOpts.EnvMapOf | pkg/edit/opts.go:113-118 | entries added in order, each split at its first `=`, a later key overwriting an earlier one; an entry without `=` is the error |
| Strs.IndexOf | pkg/edit/opts.go:116 | the index of the first `=` that SplitN splits at, or the length when there is none |
| EditOpts.EnvMapFailsIff | pkg/edit/opts.go:115-118 | building the environment map fails iff some entry has no `=` |
| EditOpts.EnvMapKeys | pkg/edit/opts.go:115-118 | no key of the environment map holds `=` |
| EditOpts.LaterEntryWins | pkg/edit/opts.go:115-118 | a later entry overwrites an earlier one with the same key |
| EditOpts.EnvMapPrefixFails | pkg/edit/opts.go:115-118 | a failing prefix is the failure of the whole environment |
| EditOpts.EnvNode | pkg/edit/opts.go:120-125 | the mapping node of the environment map, every value a string |
| EditOpts.EnvOptionValue | pkg/edit/opts.go:112-137 | the environment map, as a node, through ToKCLValueString; GetEnvMapOptionValue is proved equal to it |
| EditOpts.GetEnvMapOptionValue | pkg/edit/opts.go:112-137 | the result is the converted environment map node |
| EditOpts.ComputeOptionValues | pkg/edit/opts.go:54-81 | the five values in order: the ResourceList, items (default emptyList), functionConfig.spec.params (default emptyConfig), PATH and env; the first failing lookup or conversion is the error |
| EditOpts.Configured | pkg/edit/opts.go:82-95 | NoStyle set; with a config, its nine flags and its arguments copied; ConfiguredFlags states it |
| EditOpts.FixedBindings | pkg/edit/opts.go:96-107 | there are exactly five fixed bindings |
| EditOpts.ConstructOptions | pkg/edit/opts.go:53-109 | the first failing conversion is the error; otherwise the options carry the config flags and the user arguments followed by the five bindings |
| EditOpts.FixedBindingsOrder | pkg/edit/opts.go:96-107 | the bindings are resource_list, items, params, PATH and env, in that order, each `name=value` |
| EditOpts.ConfiguredFlags | pkg/edit/opts.go:83-95 | NoStyle is always true; a config's flags and arguments are copied verbatim; without one the defaults stay |
| EditOpts.NilConfigArguments | pkg/edit/opts.go:84-107 | without a config, the arguments are exactly the five bindings |
| Values.StringField | pkg/config/config.go:63-64 | GetKind and GetAPIVersion: the string in a top-level field of a kyaml mapping (a `StrMap`), "" when there is none |
| Values.NestedField | pkg/kube/utils.go:98 | unstructured's nested field lookup: every step but the last must be a string-keyed mapping |
| Values.NestedString | pkg/kube/utils.go:98 | the string at a path, or "" |
| Values.NestedStringMap | pkg/kube/utils.go:102 | a mapping whose values are all strings, or the empty map otherwise |
| KubeUtils.WithoutMetadataFields | pkg/kube/utils.go:130-135 | the keys removed from the metadata mapping when there is one; the object unchanged otherwise |
| KubeUtils.StripServerSide | pkg/kube/utils.go:127-137 | status removed, then the six server-set metadata keys; StripServerSideFields states what stays |
| KubeUtils.RemoveNestedField | pkg/kube/utils.go:129-135 | removing a field never adds a key |
| KubeUtils.RemoveNestedFieldRemoves | pkg/kube/utils.go:129-135 | after the removal, the path leads nowhere |
| KubeUtils.WithoutNoMetadataFields | pkg/kube/utils.go:130-135 | removing no metadata field changes nothing |
| KubeUtils.RemoveMetadataField | pkg/kube/utils.go:130-135 | each metadata removal removes one more key |
| KubeUtils.Unstructured.constructor | pkg/kube/utils.go:115 | an object holds the given fields |
| KubeUtils.Unstructured.NormalizeServerSideFields | pkg/kube/utils.go:127-137 | the object, changed in place and returned, becomes StripServerSide of its old fields |
| KubeUtils.CopyAndRemoveMetadataAndStatus | pkg/kube/utils.go:114-117 | the result is a new object, stripped; the argument is unchanged (DeepCopy's panic on non-JSON values is not modelled, see "## Left out") |
| KubeUtils.StripServerSideFields | pkg/kube/utils.go:129-135 | status and the six server-set metadata fields are removed; every other field keeps its value |
| KubeUtils.StripServerSideIdempotent | pkg/kube/utils.go:129-135 | stripping twice is stripping once |
| KubeUtils.StripKeepsLabelsAndAnnotations | pkg/kube/utils.go:102-110 | stripping keeps labels and annotations |
| KubeUtils.ResourceVersion | pkg/kube/utils.go:98 | GetResourceVersion: the string at metadata.resourceVersion |
| KubeUtils.Labels | pkg/kube/utils.go:102 | GetLabels: the string map at metadata.labels |
| KubeUtils.Annotations | pkg/kube/utils.go:105 | GetAnnotations: the string map at metadata.annotations |
| KubeUtils.HasDrifted | pkg/kube/utils.go:96-111 | drifted when current has no resourceVersion, or labels, annotations or the stripped objects differ; the four lemmas below state its consequences (the DeepCopy panic is not modelled) |
| KubeUtils.DriftIgnoresServerSideFields | pkg/kube/utils.go:96-111 | objects that differ only in server-set fields have not drifted, given a resourceVersion |
| KubeUtils.StatusChangeIsNoDrift | pkg/kube/utils.go:108-110 | a changed status alone is not drift |
| KubeUtils.DriftSymmetric | pkg/kube/utils.go:96-111 | when both objects carry a resourceVersion, drift does not depend on which one is current |
| KubeUtils.NoDriftFromItself | pkg/kube/utils.go:96-111 | an object has not drifted from itself iff it has a resourceVersion |
| KubeUtils.StrKeys | pkg/kube/utils.go:145 | the string keys among a mapping's keys |
| KubeUtils.Convertible | pkg/kube/utils.go:141-167 | as written: every non-string-keyed mapping reached has string keys, walking sequences and such mappings; a string-keyed mapping is not entered |
| KubeUtils.Normalized | pkg/kube/utils.go:141-167 | the tree as written returns it: reached non-string-keyed mappings become string-keyed with the same entries, sequences are rewritten element by element |
| KubeUtils.NormalizeOutcome | pkg/kube/utils.go:140-168 | as written: the error iff the tree is not Convertible, else Normalized; NormalizeMap is proved equal to it |
| KubeUtils.NormalizeMap | pkg/kube/utils.go:140-168 | the result is NormalizeOutcome: an error iff a mapping it reaches has a non-string key, else the normalised tree |
| KubeUtils.NoAnyMapOutsideStrMap | pkg/kube/utils.go:141-167 | no non-string-keyed mapping outside the string-keyed mappings that NormalizeMap does not enter |
| KubeUtils.NormalizedShape | pkg/kube/utils.go:142-166 | on success, no reached mapping keeps non-string keys; its keys and values are kept; a sequence keeps its length; scalars are unchanged |
| KubeUtils.NormalizeIdempotent | pkg/kube/utils.go:140-168 | normalising a normalised tree changes nothing |
| KubeUtils.NestedMapNotConverted | pkg/kube/utils.go:140-168 | as written, a non-string-keyed mapping inside a string-keyed one is returned unconverted |
| KubeUtils.IntKeyNotRejected | pkg/kube/utils.go:140-168 | as written, an integer key inside a string-keyed mapping is accepted |
| KubeUtils.DeepConvertible | pkg/kube/utils.go:140-168 | corrected: every mapping at any depth, of either kind, has string keys |
| KubeUtils.NormalizedDeep | pkg/kube/utils.go:140-168 | corrected: string-keyed mappings are entered too |
| KubeUtils.NoAnyMap | pkg/kube/utils.go:140-168 | corrected: no non-string-keyed mapping anywhere |
| KubeUtils.NormalizeDeep | pkg/kube/utils.go:140-168 | corrected: fails iff some mapping at any depth has a non-string key |
| KubeUtils.NormalizeDeepConverts | pkg/kube/utils.go:140-168 | corrected: on success, no non-string-keyed mapping is left anywhere |
| KubeUtils.NestedMapConvertedDeep | pkg/kube/utils.go:140-168 | corrected: the nested example is converted |
| KubeUtils.IntKeyRejectedDeep | pkg/kube/utils.go:140-168 | corrected: the integer-key example is rejected |
| Schema.ParseGroupVersion | pkg/kube/metadata.go:26 | schema.ParseGroupVersion: "" and "/" give the empty pair, no `/` a core-group version, one `/` group and version around it, two or more an error; the ensures states exactly when it fails |
| Schema.ParseOneSlash | pkg/kube/metadata.go:26 | an apiVersion with one `/` splits into the text before it and the text after it |
| Schema.ParseNoSlash | pkg/config/config.go:163 | an apiVersion without `/` is a version of the core group |
| Schema.ParseJoined | pkg/kube/metadata.go:26 | `group/version` with slash-free parts parses back into them |
| KubeMetadata.UnstructuredGvk | pkg/kube/metadata.go:26 | Unstructured.GroupVersionKind: the parsed apiVersion with the kind; an apiVersion that does not parse gives an empty group, version and kind |
| KubeMetadata.UnstructuredToObjMetadata | pkg/kube/metadata.go:22-28 | namespace, name and group-kind are copied from the object |
| KubeMetadata.MetadataOfGroupedObject | pkg/kube/metadata.go:26 | an object of apiVersion group/version keeps that group and its kind |
| KubeMetadata.MalformedApiVersionLosesKind | pkg/kube/metadata.go:26 | an apiVersion with two `/` gives an empty group and an empty kind |
| KubeMetadata.ObjectId | pkg/kube/metadata.go:31-39 | the identifier starts with kind + "/" and ends with the name |
| KubeMetadata.ID | pkg/kube/metadata.go:31-39 | ID is kind/name without a namespace and kind/namespace/name with one |
| KubeMetadata.FirstSlash | pkg/kube/metadata.go:33-37 | splitting `a/b` at its first `/` gives a and b when a has no `/` |
| KubeMetadata.ObjectIdParts | pkg/kube/metadata.go:33-37 | the identifier is the kind, a `/`, and the rest |
| KubeMetadata.RestSplits | pkg/kube/metadata.go:34-37 | the rest holds a `/` iff there is a namespace, and splits there into namespace and name |
| KubeMetadata.ObjectIdInjective | pkg/kube/metadata.go:31-39 | without `/` in its parts, the identifier determines kind, namespace and name |
| KubeMetadata.ObjectIdIgnoresGroup | pkg/kube/metadata.go:33 | the group is not part of the identifier |
| KubeObjects.Len | pkg/kube/object.go:126 | Len is the number of objects |
| KubeObjects.SwapSeq | pkg/kube/object.go:129 | positions i and j are exchanged; every other position is unchanged |
| KubeObjects.Swap | pkg/kube/object.go:129 | the array becomes SwapSeq of its old contents |
| KubeObjects.SwapTwice | pkg/kube/object.go:129 | swapping twice restores the sequence |
| KubeObjects.SwapPermutes | pkg/kube/object.go:129 | a swap keeps the same objects, as often as before |
| Strs.TrimSpace | pkg/kube/object.go:136 | strings.TrimSpace: the result occurs in the text and neither starts nor ends with white space |
| Strs.Join | pkg/kube/object.go:138 | strings.Join: the elements with the separator between neighbours |
| Strs.JoinLength | pkg/kube/object.go:138 | a join is as long as its elements plus one separator between each two |
| KubeObjects.TrimmedDocuments | pkg/kube/object.go:135-137 | one trimmed rendering per object, in order |
| KubeObjects.MustString | pkg/kube/object.go:133-139 | the result is the trimmed renderings joined by `\n---\n`; empty gives ""; one object gives its trimmed rendering |
| KubeObjects.MustStringLength | pkg/kube/object.go:133-139 | the length is the documents' total plus five per separator |
| KubeResourceList.Quote | pkg/kube/resource_list.go:26 | `%q` of a string needing no escapes: the string in double quotes |
| KubeResourceList.UnexpectedKindMsg | pkg/kube/resource_list.go:26 | "input was of unexpected kind", the quoted kind, "; expected ResourceList" |
| KubeResourceList.FunctionConfigOf | pkg/kube/resource_list.go:29-31 | a present functionConfig is attached; a missing one gives an object around a nil node |
| KubeResourceList.Wrap | pkg/kube/object.go:86-90 | one object per node, in order |
| KubeResourceList.ItemsOf | pkg/kube/resource_list.go:33-35 | GetNestedSlice("items"): one object per element of the looked-up node, nothing when the lookup or Elements fails |
| KubeResourceList.ItemsOfList | pkg/kube/resource_list.go:32-35 | a missing items is no error and gives no objects; a sequence gives one object per element; any other non-null value is not taken |
| KubeResourceList.ResourceList.constructor | pkg/kube/resource_list.go:19 | a new ResourceList has no items and no functionConfig |
| KubeResourceList.ParseResourceList | pkg/kube/resource_list.go:18-37 | a parse failure is wrapped as "failed to parse input bytes: …"; another kind is rejected with the unexpected-kind message; a ResourceList gets its functionConfig and items when they can be read |
| KubeResourceList.ResourceListHasFunctionConfig | pkg/kube/resource_list.go:29-31 | a document of kind ResourceList always gets a functionConfig, holding the field when present |

## Left out

- The KCL evaluator, the code template, temporary files and `stripansi` in `RunKCL` are left out. Only the option text is modelled. The KCL run is a parameter (`EditTransformer.Evaluator`).
- Loading kcl.yaml through the KCL service, and `filepath.Glob`, are parameters. The glob's sorting and pattern semantics are not modelled.
- The OCI URL parse, pull, temporary directory and untar are parameters. The deferred `RemoveAll` is not modelled.
- `pkg/source/getter.go` is not part of this model: goroutines, signals and go-getter. The getter is a parameter of `Source.LocaleSource`.
- Write errors of `bytes.Buffer` are not modelled, since they never happen.
- Fn.IsEmptyObject: `KubeObject.IsEmpty`, which config.go:66 calls, is defined in the kpt function SDK, which is not part of this model. That both a null node and a mapping without fields count as empty is assumed from its name and use, not taken from code.
- Entry.FileExists: entry.go:92 calls `os.Lstat`, so a symbolic link, dangling or pointing at a directory, counts as an existing file there. The model's file system maps paths to files and directories and has no links.
- EditOpts.LoadDepListFromConfig: only the nil-client guard is faithful. With a client, kpm's package load and resolution are one parameter, and the map iteration order is that parameter's order.
- Reading the process environment is left out. `PATH` and the `os.Environ` entries are parameters. `DealAnnotations` returns the plain-HTTP switch instead of setting an environment variable.
- EditOpts.SplitEnv: an entry without `=` is a Go panic (index out of range). It is modelled as an error that aborts option assembly.
- The defaults `emptyConfig` and `emptyList` are not shown in the repository's files. They are parameters.
- EditBootstrap.ToKclValueString: the two-argument `ToKCLValueString(node, default)` that `pkg/edit/opts.go` calls (lines 54, 62, 70 and 131) is not in the repository's files; `pkg/edit/bootstrap.go:61-71` defines an older one-argument version. The model follows that body for a present node, and returns the default for a node that a lookup did not find. That missing-node branch is assumed from the call sites, not taken from code.
- KclRunConfig.KclRun.Transform: parsing a node's `String()` and `MustString()` back into an object is one parameter (`Reparse`). The parsed function config goes to the transformer as Go's code does. `Process` calls `TransformResourceList`, which is not shown; it is taken to be this `Transform`.
- KclRunConfig.ConfigOutcome and KclRunConfig.KclRun.Config: `KubeObject.As` (JSON round trip into a ConfigMap or a KCLRun) is a parameter. So is the decoding of annotations, params and match constraints. In the KCLRun branch of `Config` (config.go:84), Go unmarshals into the existing record, so fields the config leaves out keep their old values; KclRunConfig.ConfigOutcome and KclRunConfig.KclRun.Config replace the whole record with the decoded one. The two agree when the record starts as the zero record, as in `Process`; for any other old state the model does not capture the merge. Likewise, when that unmarshal fails part-way Go may already have filled some fields, while the model keeps the old record; `Process` discards the record on any error, so this does not show in its result.
- KubeUtils.NormalizeMap: modelled on values. Go's code rewrites the elements of the caller's slice in place, and leaves a partly rewritten slice after an error; the model does not capture that aliasing. Map iteration order is not modelled: every failure carries the same message, so the order does not show in the result.
- KubeUtils.HasDrifted: `equality.Semantic.DeepEqual` is taken as equality of values. Its special handling of quantities and times is not modelled.
- KubeObjects.Swap: requires both indices to be in range. Go's `o[i], o[j] = o[j], o[i]` panics on an index out of range; `sort.Interface` callers only pass indices below `Len()`, and the model does not capture the panic.
- KubeResourceList.UnexpectedKindMsg: `%q` is modelled as plain quotes. Escaping of quotes and control characters in the kind is not modelled.
- Values.StringField: the node kept for a non-string `kind` (kyaml's `GetKind`) is not modelled: a non-string kind reads as "".
- The YAML/JSON parse and marshal helpers of `pkg/kube/utils.go`, `UnstructuredID`, and the RNode wrappers of `pkg/kube/object.go` are parameters or are left out. `pkg/kube/engine`, `pkg/kube/config.go`, `pkg/kio`, `pkg/options` and `main.go` are not part of this model.
- MatchRules.AppendRuleKeepsMatch: requires a non-empty rule list. The empty list matches every object, so appending a rule to it can lose matches.
- Paths: only Unix paths are modelled. `filepath.Join` and `filepath.Dir` are modelled without their `Clean`: `.` and `..` elements and doubled slashes are kept, so Paths.DirOf gives `a/.` for `a/./b` and `/a/` for `/a//b`, where Go gives `a` and `/a`. Only `Source.ReadFromLocalSource` uses Dir (local.go:34).
- Values.Lookup, Values.LookupPath and Values.StringField: they read kyaml nodes, whose mappings are modelled as `StrMap` keyed by the key nodes' text. Given an `AnyMap`, which stands only for decoded `interface{}` trees, they treat it as a non-mapping (an error, or ""). A kyaml mapping with two keys of the same text but different tags (`1:` and `"1":`) is not modelled; kyaml would find the first.
- Values.Lookup and Values.Elements: their error texts are shorter than kyaml's, which also name the node kind found and print the node's contents. These texts reach `Process`'s Error result through `UnwrapResources` (wraper.go:62-64, 71-73); the model keeps only the expected node kind.
- KubeUtils.CopyAndRemoveMetadataAndStatus and KubeUtils.HasDrifted: `object.DeepCopy()` (utils.go:115) goes through apimachinery's `runtime.DeepCopyJSON`, which panics on any value that is not a JSON type: a `map[interface{}]interface{}` (an `AnyMap`) anywhere in the tree, or a Go `int`, which is what `gopkg.in/yaml.v3` decodes integers to (utils.go:26, 42). The model does not capture that panic: it returns the stripped copy of every tree, so HasDrifted gives an answer where Go, at utils.go:108-109, panics. `Values.Int` does not record a Go integer type, so which trees panic cannot be told apart in the model.
- Apart from that DeepCopy panic (`int64` is accepted, `int` is not), Go's integer widths play no part in the core: all lengths and counts are unbounded.

## Findings

| source | as written | input that shows it | evidently intended | confidence | as-written member | corrected member |
|---|---|---|---|---|---|---|
| pkg/source/entry.go:58-63 | the `_`/`test_` exclusion tests the full joined path, which starts with the directory | package directory `/pkg` whose glob yields `/pkg/test_a.k`: the test file is read as the source | exclude files whose base name starts with `_` or `test_` | not executed | Entry.TestFileIsRead | Entry.TestFileIsSkippedByBase |
| pkg/kube/utils.go:140-168 | a `map[string]interface{}` falls into the default case and is returned without looking inside | `{"a": {1: null}}`, a string-keyed mapping holding an integer-keyed one: accepted unchanged | enter string-keyed mappings too, so that a non-string key at any depth is an error and every nested mapping is converted | not executed | KubeUtils.IntKeyNotRejected | KubeUtils.IntKeyRejectedDeep |
