/**
 * `AppState`: the mutable settings shared by the command line, the REPL
 * and the screens, and the extractor built from them.
 */
module State {
  import opened Wrappers
  import opened Values
  import opened Rules
  import opened Stats
  import opened Strings

  /** The settings an `AppState` holds at one moment, as a value. */
  datatype Settings = Settings(
    outputPath: string,
    sourceRoot: string,
    maxSizeKb: int,
    compactMode: bool,
    skipEmpty: bool,
    useGitignore: bool,
    includePatterns: seq<string>,
    excludePatterns: seq<string>,
    forceInclude: bool,
    skipExtensions: Option<set<string>>,
    skipPatterns: Option<set<string>>,
    skipFiles: Option<set<string>>,
    tokenizerModel: string,
    enableTokenCount: bool,
    copyToClipboard: bool,
    lastStats: Option<ExtractionStats>)

  /** The field defaults of a fresh `AppState`; the source root starts at the working directory ".". */
  function Defaults(): (s: Settings)
    ensures s.maxSizeKb == 500 && s.compactMode && s.skipEmpty && s.useGitignore && !s.forceInclude
    ensures s.includePatterns == [] && s.excludePatterns == []
    ensures s.skipExtensions.None? && s.skipPatterns.None? && s.skipFiles.None?
    ensures s.tokenizerModel == "gpt-4" && s.enableTokenCount && !s.copyToClipboard
  {
    Settings("extracted.txt", ".", 500, true, true, true, [], [], false, None, None, None, "gpt-4", true, false, None)
  }

  /** `[str(p) for p in items]`, for a sequence that may be absent. */
  function Stringified(items: Option<seq<Value>>, current: seq<string>): (r: seq<string>)
    ensures items.None? ==> r == current
    ensures items.Some? ==> |r| == |items.value|
    ensures items.Some? ==> forall k :: 0 <= k < |r| && items.value[k].Str? ==> r[k] == items.value[k].s
  {
    if items.Some? then StrAll(items.value) else current
  }

  /**
   * The extractor `create_extractor` builds from the settings: sizes in
   * bytes, the pattern lists copied, and the extractor defaults wherever a
   * skip set is unset.
   */
  function ExtractorOf(s: Settings): (x: Extractor)
    ensures x.maxFileSize == s.maxSizeKb * 1024
    ensures x.skipEmpty == s.skipEmpty && x.compactMode == s.compactMode && x.useGitignore == s.useGitignore
    ensures x.includePatterns == s.includePatterns && x.excludePatterns == s.excludePatterns
    ensures x.forceInclude == s.forceInclude && x.countTokens == s.enableTokenCount
    ensures x.tokenizerModel == Some(s.tokenizerModel)
    ensures x.skipPatterns == (if s.skipPatterns.Some? then s.skipPatterns.value else DefaultPatterns)
    ensures x.skipFiles == (if s.skipFiles.Some? then s.skipFiles.value else DefaultFiles)
    ensures x.skipExtensions == LowerAll(if s.skipExtensions.Some? then s.skipExtensions.value else DefaultExtensions)
  {
    NewExtractor(s.maxSizeKb, s.skipEmpty, s.compactMode, s.useGitignore,
                 Some(s.includePatterns), Some(s.excludePatterns), s.forceInclude,
                 Some(s.tokenizerModel), s.enableTokenCount,
                 s.skipExtensions, s.skipPatterns, s.skipFiles)
  }

  class AppState {
    var outputPath: string
    var sourceRoot: string
    var maxSizeKb: int
    var compactMode: bool
    var skipEmpty: bool
    var useGitignore: bool
    var includePatterns: seq<string>
    var excludePatterns: seq<string>
    var forceInclude: bool
    var skipExtensions: Option<set<string>>
    var skipPatterns: Option<set<string>>
    var skipFiles: Option<set<string>>
    var tokenizerModel: string
    var enableTokenCount: bool
    var copyToClipboard: bool
    var lastStats: Option<ExtractionStats>

    /** The current settings as a value. */
    function Snapshot(): Settings
      reads this
    {
      Settings(outputPath, sourceRoot, maxSizeKb, compactMode, skipEmpty, useGitignore,
               includePatterns, excludePatterns, forceInclude, skipExtensions, skipPatterns, skipFiles,
               tokenizerModel, enableTokenCount, copyToClipboard, lastStats)
    }

    /** Assigns every field from `s`, a few fields at a time. */
    method Assign(s: Settings)
      modifies this
      ensures Snapshot() == s
    {
      AssignPaths(s);
      AssignSwitches(s);
      AssignLists(s);
      AssignSkipSets(s);
    }

    method AssignPaths(s: Settings)
      modifies this
      ensures Snapshot() == old(Snapshot()).(outputPath := s.outputPath, sourceRoot := s.sourceRoot, maxSizeKb := s.maxSizeKb, compactMode := s.compactMode)
    {
      outputPath, sourceRoot, maxSizeKb, compactMode := s.outputPath, s.sourceRoot, s.maxSizeKb, s.compactMode;
    }

    method AssignSwitches(s: Settings)
      modifies this
      ensures Snapshot() == old(Snapshot()).(skipEmpty := s.skipEmpty, useGitignore := s.useGitignore, forceInclude := s.forceInclude,
                                             enableTokenCount := s.enableTokenCount, copyToClipboard := s.copyToClipboard)
    {
      skipEmpty, useGitignore, forceInclude := s.skipEmpty, s.useGitignore, s.forceInclude;
      enableTokenCount, copyToClipboard := s.enableTokenCount, s.copyToClipboard;
    }

    method AssignLists(s: Settings)
      modifies this
      ensures Snapshot() == old(Snapshot()).(includePatterns := s.includePatterns, excludePatterns := s.excludePatterns, tokenizerModel := s.tokenizerModel)
    {
      includePatterns, excludePatterns, tokenizerModel := s.includePatterns, s.excludePatterns, s.tokenizerModel;
    }

    method AssignSkipSets(s: Settings)
      modifies this
      ensures Snapshot() == old(Snapshot()).(skipExtensions := s.skipExtensions, skipPatterns := s.skipPatterns, skipFiles := s.skipFiles, lastStats := s.lastStats)
    {
      skipExtensions, skipPatterns, skipFiles, lastStats := s.skipExtensions, s.skipPatterns, s.skipFiles, s.lastStats;
    }

    constructor ()
      ensures Snapshot() == Defaults()
    {
      outputPath, sourceRoot, maxSizeKb := "extracted.txt", ".", 500;
      compactMode, skipEmpty, useGitignore := true, true, true;
      includePatterns, excludePatterns, forceInclude := [], [], false;
      skipExtensions, skipPatterns, skipFiles := None, None, None;
      tokenizerModel, enableTokenCount, copyToClipboard := "gpt-4", true, false;
      lastStats := None;
    }

    /** `create_extractor`: reads the settings and changes nothing. */
    method CreateExtractor() returns (x: Extractor)
      ensures x == ExtractorOf(Snapshot())
      ensures x.maxFileSize == maxSizeKb * 1024
      ensures x.includePatterns == includePatterns && x.excludePatterns == excludePatterns
      ensures x.skipPatterns == (if skipPatterns.Some? then skipPatterns.value else DefaultPatterns)
    {
      var snap := Snapshot();
      assert snap.maxSizeKb == maxSizeKb && snap.skipPatterns == skipPatterns;
      assert snap.includePatterns == includePatterns && snap.excludePatterns == excludePatterns;
      x := ExtractorOf(snap);
    }

    /** `set_output_path`: only the output path changes. */
    method SetOutputPath(path: string)
      modifies this
      ensures Snapshot() == old(Snapshot()).(outputPath := path)
    {
      outputPath := path;
    }

    /** `set_source_root`: only the source root changes. */
    method SetSourceRoot(path: string)
      modifies this
      ensures Snapshot() == old(Snapshot()).(sourceRoot := path)
    {
      sourceRoot := path;
    }

    /** `set_patterns`: each list given is replaced by its items stringified, in order; an absent one is kept. */
    method SetPatterns(includes: Option<seq<Value>>, excludes: Option<seq<Value>>)
      modifies this
      ensures Snapshot() == old(Snapshot()).(includePatterns := Stringified(includes, old(includePatterns)),
                                             excludePatterns := Stringified(excludes, old(excludePatterns)))
    {
      includePatterns, excludePatterns := Stringified(includes, includePatterns), Stringified(excludes, excludePatterns);
    }
  }

  /** Setting patterns to a list of strings stores exactly those strings. */
  lemma SetPatternsOfStrings(ss: seq<string>, current: seq<string>)
    ensures Stringified(Some(seq(|ss|, k requires 0 <= k < |ss| => Str(ss[k]))), current) == ss
  {
    StrAllOfStrings(ss);
  }
}
