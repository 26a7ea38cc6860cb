/**
 * pkg/source: classifying a source reference by its prefix and reading KCL
 * code from it. The getter download, the OCI registry, the temporary
 * directory and the tarball extraction are given as functions.
 */
module Source {
  import opened Wrappers
  import opened Strs
  import opened Paths
  import opened Entry

  const OciScheme := "oci"
  const TarPattern := "*.tar"
  const GitScheme := "git"
  const GitHubDomain := "github.com"
  const GitLabDomain := "gitlab.com/"
  const BitBucketDomain := "bitbucket.org/"
  const HttpScheme := "http"
  const HttpsScheme := "https"

  /** IsOCI: the reference starts with `oci://`. */
  predicate IsOCI(src: string) {
    HasPrefix(src, OciScheme + "://")
  }

  /** IsLocal: an absolute path or anything starting with `.`. */
  predicate IsLocal(src: string) {
    IsAbs(src) || HasPrefix(src, ".")
  }

  /** IsGit: the reference starts with `git://`. */
  predicate IsGit(src: string) {
    HasPrefix(src, GitScheme + "://")
  }

  /** IsVCSDomain: the reference starts with one of the three hosting domains. */
  predicate IsVCSDomain(src: string) {
    HasPrefix(src, GitHubDomain) || HasPrefix(src, GitLabDomain) || HasPrefix(src, BitBucketDomain)
  }

  /** IsRemoteUrl: the reference starts with `http://` or `https://`. */
  predicate IsRemoteUrl(src: string) {
    HasPrefix(src, HttpScheme + "://") || HasPrefix(src, HttpsScheme + "://")
  }

  /** The references LocaleSource hands to the getter when they are not OCI. */
  predicate ThroughGetter(src: string) {
    IsLocal(src) || IsRemoteUrl(src) || IsGit(src) || IsVCSDomain(src)
  }

  /** IsLocal looks at the first character only. */
  lemma IsLocalIff(src: string)
    ensures IsLocal(src) <==> (|src| > 0 && (src[0] == '/' || src[0] == '.'))
  {
    if |src| > 0 {
      assert src[..1] == [src[0]];
    }
  }

  /** Every classification is a prefix test: extending a matching reference keeps it matching. */
  lemma ClassificationExtends(src: string, t: string)
    ensures IsOCI(src) ==> IsOCI(src + t)
    ensures IsLocal(src) ==> IsLocal(src + t)
    ensures IsGit(src) ==> IsGit(src + t)
    ensures IsVCSDomain(src) ==> IsVCSDomain(src + t)
    ensures IsRemoteUrl(src) ==> IsRemoteUrl(src + t)
  {
    forall p | HasPrefix(src, p)
      ensures HasPrefix(src + t, p)
    {
      PrefixExtends(src, p, t);
    }
  }

  /** An `oci://` reference satisfies none of the getter's predicates. */
  lemma OciExcludesOthers(src: string)
    requires IsOCI(src)
    ensures !IsLocal(src) && !IsRemoteUrl(src) && !IsGit(src) && !IsVCSDomain(src)
  {
    assert src[0] == 'o' && src[1] == 'c' && src[2] == 'i' && src[3] == ':';
  }

  /** The GitHub prefix has no trailing slash, the GitLab and Bitbucket ones do. */
  lemma VcsDomainExamples()
    ensures IsVCSDomain("github.comx")
    ensures !IsVCSDomain("gitlab.com")
    ensures !IsVCSDomain("bitbucket.org")
  {
    assert "github.comx"[..|GitHubDomain|] == GitHubDomain;
    assert |"gitlab.com"| < |GitLabDomain|;
    assert "gitlab.com"[..|GitHubDomain|] != GitHubDomain by {
      assert "gitlab.com"[3] != GitHubDomain[3];
    }
    assert |"bitbucket.org"| < |BitBucketDomain|;
    assert "bitbucket.org"[..|GitHubDomain|] != GitHubDomain by {
      assert "bitbucket.org"[0] != GitHubDomain[0];
    }
  }

  /** The schemes are case-sensitive and need `://`. */
  lemma NotRemoteExamples()
    ensures !IsRemoteUrl("git::https://x")
    ensures !IsRemoteUrl("HTTP://x")
    ensures IsRemoteUrl("https://x")
  {
    assert "git::https://x"[0] != 'h';
    assert "HTTP://x"[0] != 'h';
    assert "https://x"[..|HttpsScheme + "://"|] == HttpsScheme + "://";
  }

  /** LocaleSource: OCI first, then the getter, otherwise the reference is the code itself. */
  function LocaleSource(src: string, readOci: string -> Outcome, readGetter: string -> Outcome): Outcome
  {
    if IsOCI(src) then readOci(src)
    else if ThroughGetter(src) then readGetter(src)
    else Outcome(src, None)
  }

  /** An OCI reference never reaches the getter; any other reference never reaches the OCI reader. */
  lemma LocaleSourceBranches(src: string, readOci: string -> Outcome, readGetter: string -> Outcome,
                             otherOci: string -> Outcome, otherGetter: string -> Outcome)
    ensures IsOCI(src) ==> LocaleSource(src, readOci, readGetter) == LocaleSource(src, readOci, otherGetter)
    ensures !IsOCI(src) ==> LocaleSource(src, readOci, readGetter) == LocaleSource(src, otherOci, readGetter)
    ensures !IsOCI(src) && !ThroughGetter(src) ==> LocaleSource(src, readOci, readGetter) == Outcome(src, None)
  {
  }

  /** References by their leading text: which reader each one goes to. */
  lemma LocaleSourceByPrefix(t: string, readOci: string -> Outcome, readGetter: string -> Outcome)
    ensures LocaleSource("oci://" + t, readOci, readGetter) == readOci("oci://" + t)
    ensures LocaleSource("./" + t, readOci, readGetter) == readGetter("./" + t)
    ensures LocaleSource("https://" + t, readOci, readGetter) == readGetter("https://" + t)
    ensures LocaleSource("git://" + t, readOci, readGetter) == readGetter("git://" + t)
  {
    assert ("oci://" + t)[..6] == "oci://";
    assert ("./" + t)[..1] == ".";
    assert ("./" + t)[0] != 'o';
    assert ("https://" + t)[..8] == "https://";
    assert ("https://" + t)[0] != 'o';
    assert ("git://" + t)[..6] == "git://";
    assert ("git://" + t)[2] != 'i';
  }

  /** A go-getter style `git::` reference matches no predicate and is taken as inline code. */
  lemma GetterSyntaxIsInline(readOci: string -> Outcome, readGetter: string -> Outcome)
    ensures LocaleSource("git::https://x", readOci, readGetter) == Outcome("git::https://x", None)
  {
    var s := "git::https://x";
    NotRemoteExamples();
    assert s[4] != '/' && s[0] != '/' && s[0] != '.' && s[0] != 'o';
    assert !HasPrefix(s, GitHubDomain) by { assert s[3] != GitHubDomain[3]; }
    assert !HasPrefix(s, GitLabDomain) by { assert s[3] != GitLabDomain[3]; }
    assert !HasPrefix(s, BitBucketDomain) by { assert s[0] != BitBucketDomain[0]; }
  }

  /** The OCI reference as parsed by the registry client. */
  datatype OciOptions = OciOptions(reg: string, repo: string, tag: string)

  /** The effects ReadFromOCISource depends on. */
  datatype OciEnv = OciEnv(
    parse: string -> Result<OciOptions>,
    mkdirTemp: Result<string>,
    storagePath: (OciOptions, string) -> string,
    pull: (string, OciOptions) -> Option<string>,
    glob: string -> Result<seq<string>>,
    untar: (string, string) -> Result<FileSystem>,
    loadSettings: (string, string) -> Result<seq<string>>)

  /** What ReadFromOCISource returns. */
  function OciOutcome(src: string, env: OciEnv): Outcome
  {
    match env.parse(src)
    case Err(e) => Outcome(src, Some(e))
    case Ok(opts) =>
      match env.mkdirTemp
      case Err(e) => Outcome(src, Some(e))
      case Ok(tmpDir) =>
        var localPath := env.storagePath(opts, tmpDir);
        if env.pull(localPath, opts).Some? then Outcome(src, env.pull(localPath, opts))
        else
          match env.glob(JoinPath(localPath, TarPattern))
          case Err(e) => Outcome(src, Some(e))
          case Ok(matches) =>
            if |matches| != 1 then Outcome(src, None)
            else
              var destDir := TrimSuffix(matches[0], Ext(matches[0]));
              match env.untar(matches[0], destDir)
              case Err(e) => Outcome(src, Some(e))
              case Ok(fs) => SourceFromDir(fs, destDir, env.loadSettings, env.glob)
  }

  /** With ReadFromOCISource as its OCI reader, LocaleSource gives an OCI reference that reader's outcome. */
  lemma LocaleSourceReadsOci(src: string, env: OciEnv, readGetter: string -> Outcome)
    requires IsOCI(src)
    ensures LocaleSource(src, s => OciOutcome(s, env), readGetter) == OciOutcome(src, env)
  {
  }

  /** ReadFromOCISource: parse, pull, find the one tarball, extract it and read the package. */
  method ReadFromOCISource(src: string, env: OciEnv) returns (r: Outcome)
    ensures r == OciOutcome(src, env)
  {
    var ociOpts := env.parse(src);
    if ociOpts.Err? {
      return Outcome(src, Some(ociOpts.msg));
    }
    var tmpDir := env.mkdirTemp;
    if tmpDir.Err? {
      return Outcome(src, Some(tmpDir.msg));
    }
    var localPath := env.storagePath(ociOpts.value, tmpDir.value);
    var e := env.pull(localPath, ociOpts.value);
    if e.Some? {
      return Outcome(src, e);
    }
    var matches := env.glob(JoinPath(localPath, TarPattern));
    if matches.Err? {
      return Outcome(src, Some(matches.msg));
    }
    if |matches.value| != 1 {
      return Outcome(src, None);
    }
    var tarPath := matches.value[0];
    var destDir := TrimSuffix(tarPath, Ext(tarPath));
    var extracted := env.untar(tarPath, destDir);
    if extracted.Err? {
      return Outcome(src, Some(extracted.msg));
    }
    r := GetSourceFromDir(extracted.value, destDir, env.loadSettings, env.glob);
  }

  /** Every step before the package read returns the reference itself as text. */
  lemma OciEarlyReturnsKeepSource(src: string, env: OciEnv)
    ensures env.parse(src).Err? ==> OciOutcome(src, env) == Outcome(src, Some(env.parse(src).msg))
    ensures env.parse(src).Ok? && env.mkdirTemp.Ok? && env.pull(env.storagePath(env.parse(src).value, env.mkdirTemp.value), env.parse(src).value).None? ==>
      var localPath := env.storagePath(env.parse(src).value, env.mkdirTemp.value);
      var matches := env.glob(JoinPath(localPath, TarPattern));
      (matches.Ok? && |matches.value| != 1 ==> OciOutcome(src, env) == Outcome(src, None))
      && (matches.Err? ==> OciOutcome(src, env) == Outcome(src, Some(matches.msg)))
  {
  }

  /** With exactly one `.tar` extracted, the package is read from the tar path minus `.tar`. */
  lemma OciReadsExtractedPackage(src: string, env: OciEnv, opts: OciOptions, tmpDir: string, tarPath: string, fs: FileSystem)
    requires env.parse(src) == Ok(opts) && env.mkdirTemp == Ok(tmpDir)
    requires env.pull(env.storagePath(opts, tmpDir), opts).None?
    requires env.glob(JoinPath(env.storagePath(opts, tmpDir), TarPattern)) == Ok([tarPath])
    requires HasSuffix(tarPath, ".tar")
    requires env.untar(tarPath, TrimSuffix(tarPath, Ext(tarPath))) == Ok(fs)
    ensures exists d :: d + ".tar" == tarPath && OciOutcome(src, env) == SourceFromDir(fs, d, env.loadSettings, env.glob)
  {
    TarDestDir(tarPath);
    var d := TrimSuffix(tarPath, Ext(tarPath));
    assert d + ".tar" == tarPath;
  }

  /** The outcome of runner.FindModRootFrom. */
  datatype ModRootResult = ModRoot(path: string) | ModNotFound(msg: string) | KpmFailure(msg: string)

  /** ReadFromLocalSource: read the package at the module root, or at the reference's directory when there is no module. */
  function ReadFromLocalSource(src: string, fs: FileSystem, findModRoot: string -> ModRootResult,
                               loadSettings: (string, string) -> Result<seq<string>>,
                               glob: string -> Result<seq<string>>): Outcome
  {
    match findModRoot(src)
    case KpmFailure(msg) => Outcome("", Some(msg))
    case ModNotFound(_) => SourceFromDir(fs, DirOf(src), loadSettings, glob)
    case ModRoot(modPath) => SourceFromDir(fs, modPath, loadSettings, glob)
  }

  /** Without a module, a file reference is read from the directory it is in; other lookup failures give no text. */
  lemma LocalFallsBackToDir(dir: string, name: string, fs: FileSystem, findModRoot: string -> ModRootResult,
                            loadSettings: (string, string) -> Result<seq<string>>,
                            glob: string -> Result<seq<string>>)
    requires dir != "" && !HasSuffix(dir, "/") && '/' !in name
    ensures var src := JoinPath(dir, name);
      findModRoot(src).ModNotFound? ==>
        ReadFromLocalSource(src, fs, findModRoot, loadSettings, glob) == SourceFromDir(fs, dir, loadSettings, glob)
    ensures var src := JoinPath(dir, name);
      findModRoot(src).KpmFailure? ==>
        ReadFromLocalSource(src, fs, findModRoot, loadSettings, glob) == Outcome("", Some(findModRoot(src).msg))
  {
    DirOfJoin(dir, name);
  }
}
