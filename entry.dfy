/**
 * pkg/source/entry.go: finding and reading the KCL entry files of a package
 * directory, over a file system given as a map from path to entry.
 */
module Entry {
  import opened Wrappers
  import opened Strs
  import opened Paths

  const DefaultEntryFile := "main.k"
  const DefaultEntryConfig := "kcl.yaml"
  const EntryFilePattern := "*.k"
  const ErrNoEntry := "no kcl entry found, please check the code package"

  /** Go's `(string, error)` result of the source readers. */
  datatype Outcome = Outcome(text: string, err: Option<string>)

  /** A file system entry: a file whose read gives its content or an error, or a directory. */
  datatype Node = File(content: Result<string>) | Dir

  type FileSystem = map<string, Node>

  /** FileExists: the path exists and is not a directory. */
  predicate FileExists(fs: FileSystem, path: string) {
    path in fs && fs[path].File?
  }

  /** os.ReadFile */
  function ReadFile(fs: FileSystem, path: string): (r: Result<string>)
    ensures FileExists(fs, path) ==> r == fs[path].content
    ensures !FileExists(fs, path) ==> r.Err?
  {
    if path !in fs then Err("open " + path + ": no such file or directory")
    else if fs[path].Dir? then Err("read " + path + ": is a directory")
    else fs[path].content
  }

  /** A missing path and a directory are both not files. */
  lemma FileExistsCases(fs: FileSystem, path: string)
    ensures path !in fs ==> !FileExists(fs, path)
    ensures path in fs && fs[path] == Dir ==> !FileExists(fs, path)
    ensures FileExists(fs, path) <==> (path in fs && fs[path] != Dir)
  {
  }

  /** Every entry can be read. */
  predicate AllReadable(fs: FileSystem, entries: seq<string>) {
    forall i :: 0 <= i < |entries| ==> ReadFile(fs, entries[i]).Ok?
  }

  /** The contents of `entries`, in order, appended (the bytes.Buffer of GetSourceFromEntryFiles). */
  function ConcatFiles(fs: FileSystem, entries: seq<string>): Result<string>
  {
    if entries == [] then Ok("")
    else
      var prefix :- ConcatFiles(fs, entries[..|entries| - 1]);
      var last :- ReadFile(fs, entries[|entries| - 1]);
      Ok(prefix + last)
  }

  /** Sum of the lengths of the readable entries' contents. */
  function ContentLength(fs: FileSystem, entries: seq<string>): nat
  {
    if entries == [] then 0
    else
      var r := ReadFile(fs, entries[|entries| - 1]);
      ContentLength(fs, entries[..|entries| - 1]) + (if r.Ok? then |r.value| else 0)
  }

  /** Concatenation succeeds exactly when every entry can be read. */
  lemma {:induction false} ConcatFilesOkIff(fs: FileSystem, entries: seq<string>)
    ensures ConcatFiles(fs, entries).Ok? <==> AllReadable(fs, entries)
  {
    if entries != [] {
      var init := entries[..|entries| - 1];
      ConcatFilesOkIff(fs, init);
      assert forall i :: 0 <= i < |init| ==> init[i] == entries[i];
    }
  }

  /** The concatenated text is exactly as long as all contents together. */
  lemma {:induction false} ConcatFilesLength(fs: FileSystem, entries: seq<string>)
    requires ConcatFiles(fs, entries).Ok?
    ensures |ConcatFiles(fs, entries).value| == ContentLength(fs, entries)
  {
    if entries != [] {
      ConcatFilesLength(fs, entries[..|entries| - 1]);
    }
  }

  /** Each entry's content appears in the text, at the offset of the contents before it. */
  lemma {:induction false} ConcatFilesHolds(fs: FileSystem, entries: seq<string>, k: nat)
    requires ConcatFiles(fs, entries).Ok? && k < |entries|
    ensures ReadFile(fs, entries[k]).Ok?
    ensures var text := ConcatFiles(fs, entries).value;
      var off := ContentLength(fs, entries[..k]);
      var c := ReadFile(fs, entries[k]).value;
      off + |c| <= |text| && text[off..off + |c|] == c
  {
    ConcatFilesOkIff(fs, entries);
    var init := entries[..|entries| - 1];
    var text := ConcatFiles(fs, entries).value;
    var pre := ConcatFiles(fs, init).value;
    ConcatFilesLength(fs, init);
    if k == |entries| - 1 {
      assert entries[..k] == init;
      assert text == pre + ReadFile(fs, entries[k]).value;
    } else {
      ConcatFilesHolds(fs, init, k);
      assert init[..k] == entries[..k];
      assert init[k] == entries[k];
      var off := ContentLength(fs, entries[..k]);
      var c := ReadFile(fs, entries[k]).value;
      assert text[off..off + |c|] == pre[off..off + |c|];
    }
  }

  /** The first unreadable entry's error is the error of the whole concatenation. */
  lemma {:induction false} ConcatFilesFirstError(fs: FileSystem, entries: seq<string>, k: nat)
    requires k < |entries| && ReadFile(fs, entries[k]).Err?
    requires AllReadable(fs, entries[..k])
    ensures ConcatFiles(fs, entries) == Err(ReadFile(fs, entries[k]).msg)
  {
    var init := entries[..|entries| - 1];
    if k == |entries| - 1 {
      assert init == entries[..k];
      ConcatFilesOkIff(fs, init);
    } else {
      assert init[..k] == entries[..k];
      assert init[k] == entries[k];
      ConcatFilesFirstError(fs, init, k);
    }
  }

  /** What GetSourceFromEntryFiles returns. */
  function EntryFilesOutcome(fs: FileSystem, entries: seq<string>): Outcome
  {
    if entries == [] then Outcome("", Some(ErrNoEntry))
    else
      match ConcatFiles(fs, entries)
      case Ok(text) => Outcome(text, None)
      case Err(msg) => Outcome("", Some(msg))
  }

  /** GetSourceFromEntryFiles: read every entry in order into one buffer. */
  method GetSourceFromEntryFiles(fs: FileSystem, entries: seq<string>) returns (r: Outcome)
    ensures r == EntryFilesOutcome(fs, entries)
    ensures entries == [] ==> r == Outcome("", Some(ErrNoEntry))
    ensures r.err.None? <==> (entries != [] && AllReadable(fs, entries))
    ensures r.err.Some? ==> r.text == ""
  {
    ConcatFilesOkIff(fs, entries);
    if |entries| == 0 {
      return Outcome("", Some(ErrNoEntry));
    }
    var bt := "";
    for i := 0 to |entries|
      invariant ConcatFiles(fs, entries[..i]) == Ok(bt)
    {
      var content := ReadFile(fs, entries[i]);
      assert entries[..i + 1][..i] == entries[..i];
      if content.Err? {
        ConcatFilesOkIff(fs, entries[..i]);
        ConcatFilesFirstError(fs, entries[..i + 1], i);
        ConcatFilesPrefixFails(fs, entries, i + 1);
        return Outcome("", Some(content.msg));
      }
      bt := bt + content.value;
    }
    assert entries[..|entries|] == entries;
    return Outcome(bt, None);
  }

  /** A failing prefix makes the whole concatenation fail with the same error. */
  lemma {:induction false} ConcatFilesPrefixFails(fs: FileSystem, entries: seq<string>, n: nat)
    requires n <= |entries| && ConcatFiles(fs, entries[..n]).Err?
    ensures ConcatFiles(fs, entries) == ConcatFiles(fs, entries[..n])
    decreases |entries|
  {
    if n < |entries| {
      var init := entries[..|entries| - 1];
      assert init[..n] == entries[..n];
      ConcatFilesPrefixFails(fs, init, n);
    } else {
      assert entries[..n] == entries;
    }
  }

  /** The glob step's filter as written: a match is dropped when its full path starts with `_` or `test_`. */
  function EntryCandidates(matches: seq<string>): (entries: seq<string>)
    ensures forall e :: e in entries ==> e in matches && !HasPrefix(e, "_") && !HasPrefix(e, "test_")
    ensures forall m :: m in matches && !HasPrefix(m, "_") && !HasPrefix(m, "test_") ==> m in entries
  {
    if matches == [] then []
    else
      var m := matches[|matches| - 1];
      EntryCandidates(matches[..|matches| - 1]) + (if !HasPrefix(m, "_") && !HasPrefix(m, "test_") then [m] else [])
  }

  /** The filter distributes over concatenation, so the kept matches stay in glob order. */
  lemma {:induction false} EntryCandidatesAppend(a: seq<string>, b: seq<string>)
    ensures EntryCandidates(a + b) == EntryCandidates(a) + EntryCandidates(b)
    decreases |b|
  {
    if b == [] {
      assert a + b == a;
    } else {
      var init := b[..|b| - 1];
      assert (a + b)[..|a + b| - 1] == a + init;
      assert (a + b)[|a + b| - 1] == b[|b| - 1];
      EntryCandidatesAppend(a, init);
    }
  }

  /** One match is kept exactly when it passes the test. */
  lemma EntryCandidatesSingle(m: string)
    ensures EntryCandidates([m]) == (if !HasPrefix(m, "_") && !HasPrefix(m, "test_") then [m] else [])
  {
    assert [m][..0] == [];
  }

  /** What GetSourceFromDir returns; kcl.yaml loading and globbing are given as functions. */
  function SourceFromDir(fs: FileSystem, dir: string,
                         loadSettings: (string, string) -> Result<seq<string>>,
                         glob: string -> Result<seq<string>>): Outcome
  {
    var config := JoinPath(dir, DefaultEntryConfig);
    var main := JoinPath(dir, DefaultEntryFile);
    if FileExists(fs, config) then
      match loadSettings(dir, config)
      case Err(msg) => Outcome("", Some(msg))
      case Ok(files) => EntryFilesOutcome(fs, files)
    else if FileExists(fs, main) then
      match ReadFile(fs, main)
      case Err(msg) => Outcome("", Some(msg))
      case Ok(text) => Outcome(text, None)
    else
      match glob(JoinPath(dir, EntryFilePattern))
      case Err(_) => Outcome("", Some(ErrNoEntry))
      case Ok(matches) =>
        if |matches| < 1 then Outcome("", Some(ErrNoEntry))
        else EntryFilesOutcome(fs, EntryCandidates(matches))
  }

  /** GetSourceFromDir: kcl.yaml first, then main.k, then every `*.k` file of the directory. */
  method GetSourceFromDir(fs: FileSystem, dir: string,
                          loadSettings: (string, string) -> Result<seq<string>>,
                          glob: string -> Result<seq<string>>) returns (r: Outcome)
    ensures r == SourceFromDir(fs, dir, loadSettings, glob)
  {
    var path := JoinPath(dir, DefaultEntryConfig);
    if FileExists(fs, path) {
      var resp := loadSettings(dir, path);
      if resp.Err? {
        return Outcome("", Some(resp.msg));
      }
      r := GetSourceFromEntryFiles(fs, resp.value);
      return;
    }
    path := JoinPath(dir, DefaultEntryFile);
    if FileExists(fs, path) {
      var bytes := ReadFile(fs, path);
      if bytes.Err? {
        return Outcome("", Some(bytes.msg));
      }
      return Outcome(bytes.value, None);
    }
    var matches := glob(JoinPath(dir, EntryFilePattern));
    if matches.Err? || |matches.value| < 1 {
      return Outcome("", Some(ErrNoEntry));
    }
    var entries := FilterEntries(matches.value);
    r := GetSourceFromEntryFiles(fs, entries);
  }

  /** The loop of GetSourceFromDir that keeps the matches not starting with `_` or `test_`. */
  method FilterEntries(matches: seq<string>) returns (entries: seq<string>)
    ensures entries == EntryCandidates(matches)
  {
    entries := [];
    for i := 0 to |matches|
      invariant entries == EntryCandidates(matches[..i])
    {
      var m := matches[i];
      assert matches[..i + 1][..i] == matches[..i];
      if !HasPrefix(m, "_") && !HasPrefix(m, "test_") {
        entries := entries + [m];
      }
    }
    assert matches[..|matches|] == matches;
  }

  /** With a kcl.yaml present, only the files it lists are read; main.k and the glob play no part. */
  lemma KclYamlTakesPrecedence(fs: FileSystem, dir: string,
                               loadSettings: (string, string) -> Result<seq<string>>,
                               glob1: string -> Result<seq<string>>, glob2: string -> Result<seq<string>>)
    requires FileExists(fs, JoinPath(dir, DefaultEntryConfig))
    ensures SourceFromDir(fs, dir, loadSettings, glob1) == SourceFromDir(fs, dir, loadSettings, glob2)
    ensures var files := loadSettings(dir, JoinPath(dir, DefaultEntryConfig));
      files.Ok? ==> SourceFromDir(fs, dir, loadSettings, glob1) == EntryFilesOutcome(fs, files.value)
  {
  }

  /** Without kcl.yaml, an existing main.k is the whole source. */
  lemma MainFileAlone(fs: FileSystem, dir: string,
                      loadSettings: (string, string) -> Result<seq<string>>,
                      glob: string -> Result<seq<string>>)
    requires !FileExists(fs, JoinPath(dir, DefaultEntryConfig))
    requires FileExists(fs, JoinPath(dir, DefaultEntryFile))
    ensures var content := fs[JoinPath(dir, DefaultEntryFile)].content;
      SourceFromDir(fs, dir, loadSettings, glob)
        == (if content.Ok? then Outcome(content.value, None) else Outcome("", Some(content.msg)))
  {
  }

  /** Without kcl.yaml and main.k, a failing or empty glob gives ErrNoEntry. */
  lemma NoMatchesNoEntry(fs: FileSystem, dir: string,
                         loadSettings: (string, string) -> Result<seq<string>>,
                         glob: string -> Result<seq<string>>)
    requires !FileExists(fs, JoinPath(dir, DefaultEntryConfig))
    requires !FileExists(fs, JoinPath(dir, DefaultEntryFile))
    requires glob(JoinPath(dir, EntryFilePattern)).Err? || glob(JoinPath(dir, EntryFilePattern)) == Ok([])
    ensures SourceFromDir(fs, dir, loadSettings, glob) == Outcome("", Some(ErrNoEntry))
  {
  }

  /** A file system whose only file is `p`, holding `text`. */
  function OneFile(p: string, text: string): FileSystem {
    map[p := File(Ok(text))]
  }

  /**
   * As written, the `_`/`test_` filter never drops a match whose path starts
   * with `/`: every match under an absolute directory is kept.
   */
  lemma {:induction false} AbsoluteMatchesAllKept(matches: seq<string>)
    requires forall i :: 0 <= i < |matches| ==> HasPrefix(matches[i], "/")
    ensures EntryCandidates(matches) == matches
  {
    if matches != [] {
      var init := matches[..|matches| - 1];
      assert forall i :: 0 <= i < |init| ==> init[i] == matches[i];
      AbsoluteMatchesAllKept(init);
      var m := matches[|matches| - 1];
      SlashNotExcluded(m);
      assert init + [m] == matches;
    }
  }

  /** A path starting with `/` starts with neither `_` nor `test_`. */
  lemma SlashNotExcluded(m: string)
    requires HasPrefix(m, "/")
    ensures !HasPrefix(m, "_") && !HasPrefix(m, "test_")
  {
    assert m[0] == "/"[0];
  }

  /** Joining onto `/pkg` inserts one slash. */
  lemma JoinPkg(name: string)
    ensures JoinPath("/pkg", name) == "/pkg/" + name
  {
    assert "/pkg"[3] == 'g';
  }

  /** The package directory and test file of the two examples below. */
  const PkgDir := "/pkg"
  const TestFile := "/pkg/test_a.k"

  /** In the example file system, neither kcl.yaml nor main.k exists. */
  lemma ExampleHasNoConfig(text: string)
    ensures !FileExists(OneFile(TestFile, text), JoinPath(PkgDir, DefaultEntryConfig))
    ensures !FileExists(OneFile(TestFile, text), JoinPath(PkgDir, DefaultEntryFile))
    ensures JoinPath(PkgDir, "test_a.k") == TestFile
  {
    JoinPkg("test_a.k");
    JoinPkg(DefaultEntryConfig);
    JoinPkg(DefaultEntryFile);
    assert TestFile[5] != JoinPath(PkgDir, DefaultEntryConfig)[5];
    assert TestFile[5] != JoinPath(PkgDir, DefaultEntryFile)[5];
  }

  /** Without kcl.yaml and main.k, a non-empty glob result is filtered and read. */
  lemma GlobStep(fs: FileSystem, dir: string,
                 loadSettings: (string, string) -> Result<seq<string>>,
                 glob: string -> Result<seq<string>>)
    requires !FileExists(fs, JoinPath(dir, DefaultEntryConfig))
    requires !FileExists(fs, JoinPath(dir, DefaultEntryFile))
    requires glob(JoinPath(dir, EntryFilePattern)).Ok? && |glob(JoinPath(dir, EntryFilePattern)).value| > 0
    ensures SourceFromDir(fs, dir, loadSettings, glob)
      == EntryFilesOutcome(fs, EntryCandidates(glob(JoinPath(dir, EntryFilePattern)).value))
  {
  }

  /** As written, a test file of an absolute package directory becomes part of the source. */
  lemma TestFileIsRead(text: string)
    ensures SourceFromDir(OneFile(TestFile, text), PkgDir, (d, c) => Err(""), g => Ok([TestFile]))
      == Outcome(text, None)
  {
    var fs := OneFile(TestFile, text);
    ExampleHasNoConfig(text);
    GlobStep(fs, PkgDir, (d, c) => Err(""), g => Ok([TestFile]));
    assert HasPrefix(TestFile, "/");
    AbsoluteMatchesAllKept([TestFile]);
    assert ConcatFiles(fs, [TestFile]) == Ok(text) by {
      assert [TestFile][..0] == [];
      assert ConcatFiles(fs, []) == Ok("");
      assert ReadFile(fs, TestFile) == Ok(text);
      assert "" + text == text;
    }
  }

  /** The filter as evidently intended: test the file's base name, not its full path. */
  function EntryCandidatesByBase(matches: seq<string>): (entries: seq<string>)
    ensures forall e :: e in entries ==>
      e in matches && !HasPrefix(BaseName(e), "_") && !HasPrefix(BaseName(e), "test_")
    ensures forall m :: m in matches && !HasPrefix(BaseName(m), "_") && !HasPrefix(BaseName(m), "test_") ==> m in entries
  {
    if matches == [] then []
    else
      var m := matches[|matches| - 1];
      var b := BaseName(m);
      EntryCandidatesByBase(matches[..|matches| - 1]) + (if !HasPrefix(b, "_") && !HasPrefix(b, "test_") then [m] else [])
  }

  /** The corrected filter distributes over concatenation too, keeping glob order. */
  lemma {:induction false} EntryCandidatesByBaseAppend(a: seq<string>, b: seq<string>)
    ensures EntryCandidatesByBase(a + b) == EntryCandidatesByBase(a) + EntryCandidatesByBase(b)
    decreases |b|
  {
    if b == [] {
      assert a + b == a;
    } else {
      var init := b[..|b| - 1];
      assert (a + b)[..|a + b| - 1] == a + init;
      assert (a + b)[|a + b| - 1] == b[|b| - 1];
      EntryCandidatesByBaseAppend(a, init);
    }
  }

  /** One match is kept exactly when it passes the test. */
  lemma EntryCandidatesByBaseSingle(m: string)
    ensures EntryCandidatesByBase([m]) == (if !HasPrefix(BaseName(m), "_") && !HasPrefix(BaseName(m), "test_") then [m] else [])
  {
    assert [m][..0] == [];
  }

  /** With the base-name filter, a `test_` or `_` file joined onto any directory is dropped. */
  lemma ByBaseDropsTestFiles(dir: string, name: string)
    requires '/' !in name && (HasPrefix(name, "_") || HasPrefix(name, "test_"))
    ensures EntryCandidatesByBase([JoinPath(dir, name)]) == []
  {
    BaseOfJoin(dir, name);
    assert [JoinPath(dir, name)][..0] == [];
  }

  /** With the base-name filter, an ordinary file joined onto any directory is kept. */
  lemma ByBaseKeepsOrdinaryFiles(dir: string, name: string)
    requires '/' !in name && !HasPrefix(name, "_") && !HasPrefix(name, "test_")
    ensures EntryCandidatesByBase([JoinPath(dir, name)]) == [JoinPath(dir, name)]
  {
    BaseOfJoin(dir, name);
    assert [JoinPath(dir, name)][..0] == [];
  }

  /** GetSourceFromDir with the base-name filter in its glob step. */
  function SourceFromDirByBase(fs: FileSystem, dir: string,
                               loadSettings: (string, string) -> Result<seq<string>>,
                               glob: string -> Result<seq<string>>): (r: Outcome)
    ensures var m := glob(JoinPath(dir, EntryFilePattern));
      m.Ok? && |m.value| > 0 && !FileExists(fs, JoinPath(dir, DefaultEntryConfig)) && !FileExists(fs, JoinPath(dir, DefaultEntryFile))
      ==> r == EntryFilesOutcome(fs, EntryCandidatesByBase(m.value))
    ensures FileExists(fs, JoinPath(dir, DefaultEntryConfig)) || FileExists(fs, JoinPath(dir, DefaultEntryFile))
      ==> r == SourceFromDir(fs, dir, loadSettings, glob)
  {
    var config := JoinPath(dir, DefaultEntryConfig);
    var main := JoinPath(dir, DefaultEntryFile);
    var matches := glob(JoinPath(dir, EntryFilePattern));
    if FileExists(fs, config) || FileExists(fs, main) || matches.Err? || |matches.value| < 1 then
      SourceFromDir(fs, dir, loadSettings, glob)
    else
      EntryFilesOutcome(fs, EntryCandidatesByBase(matches.value))
  }

  /** With the base-name filter, the same test file is left out and the package has no entry. */
  lemma TestFileIsSkippedByBase(text: string)
    ensures SourceFromDirByBase(OneFile(TestFile, text), PkgDir, (d, c) => Err(""), g => Ok([TestFile]))
      == Outcome("", Some(ErrNoEntry))
  {
    ExampleHasNoConfig(text);
    assert HasPrefix("test_a.k", "test_");
    ByBaseDropsTestFiles(PkgDir, "test_a.k");
  }
}
