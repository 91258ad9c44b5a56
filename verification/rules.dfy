/**
 * The extractor's configuration and its filter decision: which file is
 * kept, and for which first reason any other file is skipped.
 */
module Rules {
  import opened Wrappers
  import opened Strings

  /** `fnmatch.fnmatch(name, pattern)`, an uninterpreted glob matcher. */
  type Glob = (string, string) -> bool

  const DefaultExtensions: set<string> := {
    ".csv", ".jpeg", ".jpg", ".png", ".gif", ".bmp", ".gitignore", ".env",
    ".mp4", ".lgb", ".sqlite3-wal", ".sqlite3-shm", ".sqlite3", ".mkv",
    ".webm", ".mp3", ".wav", ".flac", ".aac", ".html", ".wma", ".ico",
    ".svg", ".zip", ".rar", ".7z", ".tar", ".gz", ".bz2", ".lock",
    ".exe", ".dll", ".so", ".dylib", ".pdf", ".doc", ".docx", ".xls",
    ".xlsx", ".ppt", ".pptx", ".pyc", ".pyo", ".pyd", ".pkl", ".parquet",
    ".orc", ".avro", ".feather", ".h5", ".hdf5", ".db", ".sqlite", ".bin",
    ".dat", ".idx", ".model", ".pt", ".ckpt", ".npy", ".npz", ".woff",
    ".woff2", ".ttf", ".eot"
  }

  const DefaultPatterns: set<string> := {
    "__pycache__", ".git", ".svn", ".hg", "node_modules", ".vscode",
    ".idea", ".pytest_cache", ".mypy_cache", "venv", "env", "virtualenv",
    "dist", "build", ".next", "coverage", ".nyc_output", "vendor"
  }

  const DefaultFiles: set<string> := {
    "package-lock.json", "yarn.lock", "poetry.lock", "Pipfile.lock",
    ".DS_Store", "Thumbs.db", "desktop.ini"
  }

  /** A configured `FileExtractor`; `maxFileSize` is in bytes. */
  datatype Extractor = Extractor(
    maxFileSize: int,
    skipEmpty: bool,
    compactMode: bool,
    useGitignore: bool,
    includePatterns: seq<string>,
    excludePatterns: seq<string>,
    forceInclude: bool,
    tokenizerModel: Option<string>,
    countTokens: bool,
    skipExtensions: set<string>,
    skipPatterns: set<string>,
    skipFiles: set<string>)

  function LowerAll(exts: set<string>): (r: set<string>)
    ensures forall e :: e in exts ==> Lower(e) in r
    ensures forall e :: e in r ==> exists e0 :: e0 in exts && e == Lower(e0)
  {
    set e | e in exts :: Lower(e)
  }

  /**
   * `FileExtractor(...)`: the size limit in bytes, the pattern lists as
   * given (None meaning none), the extensions lowercased, and the default
   * rule sets wherever a set is None.
   */
  function NewExtractor(
    maxFileSizeKb: int, skipEmpty: bool, compactMode: bool, useGitignore: bool,
    includePatterns: Option<seq<string>>, excludePatterns: Option<seq<string>>,
    forceInclude: bool, tokenizerModel: Option<string>, countTokens: bool,
    skipExtensions: Option<set<string>>, skipPatterns: Option<set<string>>,
    skipFiles: Option<set<string>>): (x: Extractor)
    ensures x.maxFileSize == maxFileSizeKb * 1024
    ensures x.includePatterns == includePatterns.GetOr([])
    ensures x.excludePatterns == excludePatterns.GetOr([])
    ensures x.skipEmpty == skipEmpty && x.compactMode == compactMode && x.useGitignore == useGitignore
    ensures x.forceInclude == forceInclude && x.tokenizerModel == tokenizerModel && x.countTokens == countTokens
    ensures x.skipExtensions == LowerAll(skipExtensions.GetOr(DefaultExtensions))
    ensures forall e :: e in x.skipExtensions ==> Lower(e) == e
    ensures forall e :: e in skipExtensions.GetOr(DefaultExtensions) ==> Lower(e) in x.skipExtensions
    ensures x.skipPatterns == skipPatterns.GetOr(DefaultPatterns)
    ensures x.skipFiles == skipFiles.GetOr(DefaultFiles)
  {
    var exts := LowerAll(skipExtensions.GetOr(DefaultExtensions));
    assert forall e :: e in exts ==> Lower(e) == e by {
      forall e | e in exts ensures Lower(e) == e {
        var e0 :| e0 in skipExtensions.GetOr(DefaultExtensions) && e == Lower(e0);
        LowerIdempotent(e0);
      }
    }
    Extractor(maxFileSizeKb * 1024, skipEmpty, compactMode, useGitignore,
              includePatterns.GetOr([]), excludePatterns.GetOr([]),
              forceInclude, tokenizerModel, countTokens,
              exts, skipPatterns.GetOr(DefaultPatterns), skipFiles.GetOr(DefaultFiles))
  }

  /** What `stat()` gives for a file: its size, or the text of the OSError. */
  datatype Stat = Size(bytes: nat) | StatError(message: string)

  /** What reading a file's bytes gives. */
  datatype Contents = Readable(data: seq<byte>) | PermissionDenied | ReadFailed(message: string)

  newtype byte = b: int | 0 <= b < 256

  /**
   * A regular file found under the root: its full path as text, the parts
   * of the root and of the path relative to it, the path it resolves to,
   * and what the filesystem answers about it.
   */
  datatype FileEntry = FileEntry(
    path: string,
    rootParts: seq<string>,
    relParts: seq<string>,
    resolved: string,
    stat: Stat,
    contents: Contents)

  /** `str(file_path.relative_to(root))` on POSIX. */
  function Rel(f: FileEntry): string {
    Join(f.relParts, "/")
  }

  /** `file_path.parts`: the root's parts come first. */
  function Parts(f: FileEntry): seq<string> {
    f.rootParts + f.relParts
  }

  /** `file_path.name`. */
  function Name(f: FileEntry): string {
    if f.relParts == [] then "" else f.relParts[|f.relParts| - 1]
  }

  /** `name.rfind(".")`: the last dot, or -1. */
  function LastDot(name: string): (r: int)
    ensures -1 <= r < |name|
    ensures r >= 0 ==> name[r] == '.'
    ensures forall j :: r < j < |name| ==> name[j] != '.'
  {
    if |name| == 0 then -1
    else if name[|name| - 1] == '.' then |name| - 1
    else LastDot(name[..|name| - 1])
  }

  /**
   * `PurePath.suffix`: from the last dot to the end, provided that dot is
   * neither the first nor the last character of the name.
   */
  function Suffix(name: string): (r: string)
    ensures r == "" || (|r| >= 2 && r[0] == '.' && |r| < |name| && EndsWith(name, r))
    ensures forall j :: 0 < j < |r| ==> r[j] != '.'
  {
    var i := LastDot(name);
    if 0 < i < |name| - 1 then name[i..] else ""
  }

  /** `_match_any`: some pattern, tried in order, matches. */
  function MatchAny(glob: Glob, patterns: seq<string>, rel: string): (r: bool)
    ensures r <==> exists i :: 0 <= i < |patterns| && glob(rel, patterns[i])
  {
    if patterns == [] then false
    else if glob(rel, patterns[0]) then true
    else MatchAny(glob, patterns[1..], rel)
  }

  /** `_match_any` over a set of patterns, whose iteration order does not change the answer. */
  predicate MatchAnyOf(glob: Glob, patterns: set<string>, rel: string) {
    exists p :: p in patterns && glob(rel, p)
  }

  /** Some part of the full path is a skip pattern or starts with a dot. */
  predicate HiddenOrSkippedPart(x: Extractor, parts: seq<string>) {
    exists i :: 0 <= i < |parts| && (parts[i] in x.skipPatterns || StartsWith(parts[i], "."))
  }

  /** The skip reasons, with the names the statistics use for them. */
  datatype Reason =
    | ExcludedExt | Empty | TooLarge | Binary | ExcludedName
    | ExcludedPath | ExcludedPattern | Gitignore | NotIncluded | Other
  {
    function Name(): string {
      match this
      case ExcludedExt => "excluded_ext"
      case Empty => "empty"
      case TooLarge => "too_large"
      case Binary => "binary"
      case ExcludedName => "excluded_name"
      case ExcludedPath => "excluded_path"
      case ExcludedPattern => "excluded_pattern"
      case Gitignore => "gitignore"
      case NotIncluded => "not_included"
      case Other => "other"
    }
  }

  /** The outcome of `_should_skip`: keep, skip for a reason, or the ExtractionError a failed `stat` raises. */
  datatype Verdict = Keep | Skip(reason: Reason) | Unreadable(message: string)

  /** `_should_skip`: the rule chain, first match wins. `gitignore` is the loaded spec's matcher, if any. */
  function ShouldSkip(x: Extractor, gitignore: Option<string -> bool>, glob: Glob, f: FileEntry, includeOverride: bool): Verdict {
    var rel := Rel(f);
    var forced := includeOverride && x.forceInclude;
    if !forced && MatchAny(glob, x.excludePatterns, rel) then Skip(ExcludedPattern)
    else if !forced && gitignore.Some? && gitignore.value(rel) then Skip(Gitignore)
    else if x.includePatterns != [] && !includeOverride then Skip(NotIncluded)
    else if !includeOverride && Name(f) in x.skipFiles then Skip(ExcludedName)
    else if !includeOverride && Lower(Suffix(Name(f))) in x.skipExtensions then Skip(ExcludedExt)
    else if !includeOverride && MatchAnyOf(glob, x.skipPatterns, rel) then Skip(ExcludedPath)
    else if !includeOverride && HiddenOrSkippedPart(x, Parts(f)) then Skip(ExcludedPath)
    else match f.stat
      case StatError(msg) => Unreadable("Unable to inspect file '" + f.path + "': " + msg)
      case Size(n) =>
        if x.skipEmpty && n == 0 then Skip(Empty)
        else if n > x.maxFileSize then Skip(TooLarge)
        else Keep
  }

  /** The rules in the order they are tried; the `stat` call sits between the sixth and the seventh. */
  const Chain: seq<Reason> := [ExcludedPattern, Gitignore, NotIncluded, ExcludedName, ExcludedExt, ExcludedPath, Empty, TooLarge]

  /** Whether one rule, looked at on its own, applies to the file. */
  predicate Fires(x: Extractor, gitignore: Option<string -> bool>, glob: Glob, f: FileEntry, includeOverride: bool, reason: Reason) {
    var rel := Rel(f);
    var forced := includeOverride && x.forceInclude;
    match reason
    case ExcludedPattern => !forced && (exists i :: 0 <= i < |x.excludePatterns| && glob(rel, x.excludePatterns[i]))
    case Gitignore => !forced && gitignore.Some? && gitignore.value(rel)
    case NotIncluded => x.includePatterns != [] && !includeOverride
    case ExcludedName => !includeOverride && Name(f) in x.skipFiles
    case ExcludedExt => !includeOverride && Lower(Suffix(Name(f))) in x.skipExtensions
    case ExcludedPath =>
      !includeOverride && (MatchAnyOf(glob, x.skipPatterns, rel) || HiddenOrSkippedPart(x, Parts(f)))
    case Empty => f.stat.Size? && x.skipEmpty && f.stat.bytes == 0
    case TooLarge => f.stat.Size? && f.stat.bytes > x.maxFileSize
    case _ => false
  }

  /** The verdict is the first rule of the chain that applies. */
  lemma ShouldSkipFirstMatch(x: Extractor, gitignore: Option<string -> bool>, glob: Glob, f: FileEntry, includeOverride: bool, k: nat)
    requires k < |Chain|
    ensures ShouldSkip(x, gitignore, glob, f, includeOverride) == Skip(Chain[k])
        <==> Fires(x, gitignore, glob, f, includeOverride, Chain[k])
             && forall r :: r in Chain[..k] ==> !Fires(x, gitignore, glob, f, includeOverride, r)
  {
    if k < 2 {
      FirstMatchIgnored(x, gitignore, glob, f, includeOverride, k);
    } else if k < 4 {
      FirstMatchNamed(x, gitignore, glob, f, includeOverride, k);
    } else if k < 6 {
      FirstMatchPlaced(x, gitignore, glob, f, includeOverride, k);
    } else {
      FirstMatchSized(x, gitignore, glob, f, includeOverride, k);
    }
  }

  /** The exclude patterns and `.gitignore`. */
  lemma FirstMatchIgnored(x: Extractor, gitignore: Option<string -> bool>, glob: Glob, f: FileEntry, includeOverride: bool, k: nat)
    requires k == 0 || k == 1
    ensures ShouldSkip(x, gitignore, glob, f, includeOverride) == Skip(Chain[k])
        <==> Fires(x, gitignore, glob, f, includeOverride, Chain[k])
             && forall r :: r in Chain[..k] ==> !Fires(x, gitignore, glob, f, includeOverride, r)
  {
    var fired := [Fires(x, gitignore, glob, f, includeOverride, ExcludedPattern),
                  Fires(x, gitignore, glob, f, includeOverride, Gitignore)];
    if k == 0 {
      assert Chain[..k] == [];
    } else {
      assert Chain[..k] == [ExcludedPattern];
    }
  }

  /** The include patterns and the skipped file names. */
  lemma FirstMatchNamed(x: Extractor, gitignore: Option<string -> bool>, glob: Glob, f: FileEntry, includeOverride: bool, k: nat)
    requires k == 2 || k == 3
    ensures ShouldSkip(x, gitignore, glob, f, includeOverride) == Skip(Chain[k])
        <==> Fires(x, gitignore, glob, f, includeOverride, Chain[k])
             && forall r :: r in Chain[..k] ==> !Fires(x, gitignore, glob, f, includeOverride, r)
  {
    var fired := [Fires(x, gitignore, glob, f, includeOverride, ExcludedPattern),
                  Fires(x, gitignore, glob, f, includeOverride, Gitignore),
                  Fires(x, gitignore, glob, f, includeOverride, NotIncluded),
                  Fires(x, gitignore, glob, f, includeOverride, ExcludedName)];
    if k == 2 {
      assert Chain[..k] == [ExcludedPattern, Gitignore];
    } else {
      assert Chain[..k] == [ExcludedPattern, Gitignore, NotIncluded];
    }
  }

  /** The skipped extensions and paths. */
  lemma FirstMatchPlaced(x: Extractor, gitignore: Option<string -> bool>, glob: Glob, f: FileEntry, includeOverride: bool, k: nat)
    requires k == 4 || k == 5
    ensures ShouldSkip(x, gitignore, glob, f, includeOverride) == Skip(Chain[k])
        <==> Fires(x, gitignore, glob, f, includeOverride, Chain[k])
             && forall r :: r in Chain[..k] ==> !Fires(x, gitignore, glob, f, includeOverride, r)
  {
    var fired := [Fires(x, gitignore, glob, f, includeOverride, ExcludedPattern),
                  Fires(x, gitignore, glob, f, includeOverride, Gitignore),
                  Fires(x, gitignore, glob, f, includeOverride, NotIncluded),
                  Fires(x, gitignore, glob, f, includeOverride, ExcludedName),
                  Fires(x, gitignore, glob, f, includeOverride, ExcludedExt),
                  Fires(x, gitignore, glob, f, includeOverride, ExcludedPath)];
    if k == 4 {
      assert Chain[..k] == [ExcludedPattern, Gitignore, NotIncluded, ExcludedName];
    } else {
      assert Chain[..k] == [ExcludedPattern, Gitignore, NotIncluded, ExcludedName, ExcludedExt];
    }
  }

  /** The size rules, tried after `stat`. */
  lemma FirstMatchSized(x: Extractor, gitignore: Option<string -> bool>, glob: Glob, f: FileEntry, includeOverride: bool, k: nat)
    requires k == 6 || k == 7
    ensures ShouldSkip(x, gitignore, glob, f, includeOverride) == Skip(Chain[k])
        <==> Fires(x, gitignore, glob, f, includeOverride, Chain[k])
             && forall r :: r in Chain[..k] ==> !Fires(x, gitignore, glob, f, includeOverride, r)
  {
    var v := ShouldSkip(x, gitignore, glob, f, includeOverride);
    var fired := [Fires(x, gitignore, glob, f, includeOverride, ExcludedPattern),
                  Fires(x, gitignore, glob, f, includeOverride, Gitignore),
                  Fires(x, gitignore, glob, f, includeOverride, NotIncluded),
                  Fires(x, gitignore, glob, f, includeOverride, ExcludedName),
                  Fires(x, gitignore, glob, f, includeOverride, ExcludedExt),
                  Fires(x, gitignore, glob, f, includeOverride, ExcludedPath),
                  Fires(x, gitignore, glob, f, includeOverride, Empty),
                  Fires(x, gitignore, glob, f, includeOverride, TooLarge)];
    if k == 6 {
      assert Chain[..k] == [ExcludedPattern, Gitignore, NotIncluded, ExcludedName, ExcludedExt, ExcludedPath];
    } else {
      assert Chain[..k] == [ExcludedPattern, Gitignore, NotIncluded, ExcludedName, ExcludedExt, ExcludedPath, Empty];
    }
  }

  /** A file is kept exactly when its `stat` succeeds and no rule applies. */
  lemma ShouldSkipKeep(x: Extractor, gitignore: Option<string -> bool>, glob: Glob, f: FileEntry, includeOverride: bool)
    ensures ShouldSkip(x, gitignore, glob, f, includeOverride) == Keep
        <==> f.stat.Size? && forall r :: r in Chain ==> !Fires(x, gitignore, glob, f, includeOverride, r)
  {
    var v := ShouldSkip(x, gitignore, glob, f, includeOverride);
    var fired := [Fires(x, gitignore, glob, f, includeOverride, ExcludedPattern),
                  Fires(x, gitignore, glob, f, includeOverride, Gitignore),
                  Fires(x, gitignore, glob, f, includeOverride, NotIncluded),
                  Fires(x, gitignore, glob, f, includeOverride, ExcludedName),
                  Fires(x, gitignore, glob, f, includeOverride, ExcludedExt),
                  Fires(x, gitignore, glob, f, includeOverride, ExcludedPath),
                  Fires(x, gitignore, glob, f, includeOverride, Empty),
                  Fires(x, gitignore, glob, f, includeOverride, TooLarge)];
    assert Chain == [ExcludedPattern, Gitignore, NotIncluded, ExcludedName, ExcludedExt, ExcludedPath, Empty, TooLarge];
  }

  /** `stat` is consulted, and its failure reported, only once none of the path rules applies. */
  lemma ShouldSkipUnreadable(x: Extractor, gitignore: Option<string -> bool>, glob: Glob, f: FileEntry, includeOverride: bool)
    ensures ShouldSkip(x, gitignore, glob, f, includeOverride).Unreadable?
        <==> f.stat.StatError? && forall r :: r in Chain[..6] ==> !Fires(x, gitignore, glob, f, includeOverride, r)
  {
    var v := ShouldSkip(x, gitignore, glob, f, includeOverride);
    var fired := [Fires(x, gitignore, glob, f, includeOverride, ExcludedPattern),
                  Fires(x, gitignore, glob, f, includeOverride, Gitignore),
                  Fires(x, gitignore, glob, f, includeOverride, NotIncluded),
                  Fires(x, gitignore, glob, f, includeOverride, ExcludedName),
                  Fires(x, gitignore, glob, f, includeOverride, ExcludedExt),
                  Fires(x, gitignore, glob, f, includeOverride, ExcludedPath),
                  Fires(x, gitignore, glob, f, includeOverride, Empty),
                  Fires(x, gitignore, glob, f, includeOverride, TooLarge)];
    assert Chain[..6] == [ExcludedPattern, Gitignore, NotIncluded, ExcludedName, ExcludedExt, ExcludedPath];
  }

  /** With an include override and `force_include`, only the size rules (and `stat`) can reject a file. */
  lemma ForcedIncludeOnlySizeRules(x: Extractor, gitignore: Option<string -> bool>, glob: Glob, f: FileEntry)
    requires x.forceInclude
    ensures ShouldSkip(x, gitignore, glob, f, true) == match f.stat
      case StatError(msg) => Unreadable("Unable to inspect file '" + f.path + "': " + msg)
      case Size(n) => if x.skipEmpty && n == 0 then Skip(Empty) else if n > x.maxFileSize then Skip(TooLarge) else Keep
    ensures ShouldSkip(x, gitignore, glob, f, true).Unreadable? <==> f.stat.StatError?
  {
  }

  /** An include override without `force_include` still honours exclude patterns and `.gitignore`, but no name, extension or path rule. */
  lemma OverrideSkipsNameRules(x: Extractor, gitignore: Option<string -> bool>, glob: Glob, f: FileEntry)
    ensures ShouldSkip(x, gitignore, glob, f, true) !in {Skip(NotIncluded), Skip(ExcludedName), Skip(ExcludedExt), Skip(ExcludedPath)}
    ensures !x.forceInclude && MatchAny(glob, x.excludePatterns, Rel(f)) ==> ShouldSkip(x, gitignore, glob, f, true) == Skip(ExcludedPattern)
  {
  }

  /** The limit is inclusive: a file of at most the limit is never too large, and a larger one is never kept. */
  lemma SizeLimitInclusive(x: Extractor, gitignore: Option<string -> bool>, glob: Glob, f: FileEntry, includeOverride: bool)
    requires f.stat.Size?
    ensures f.stat.bytes <= x.maxFileSize ==> ShouldSkip(x, gitignore, glob, f, includeOverride) != Skip(TooLarge)
    ensures f.stat.bytes > x.maxFileSize ==> ShouldSkip(x, gitignore, glob, f, includeOverride) != Keep
  {
  }

  /**
   * A root with a dot-directory among its own parts (a project under
   * `~/.config`, say) rejects every file that has no include override:
   * nothing gets past the path rules.
   */
  lemma HiddenRootRejectsAll(x: Extractor, gitignore: Option<string -> bool>, glob: Glob, f: FileEntry, i: nat)
    requires i < |f.rootParts| && StartsWith(f.rootParts[i], ".")
    ensures ShouldSkip(x, gitignore, glob, f, false).Skip?
    ensures ShouldSkip(x, gitignore, glob, f, false).reason !in {Empty, TooLarge}
  {
    assert Parts(f)[i] == f.rootParts[i];
    assert HiddenOrSkippedPart(x, Parts(f));
  }
}
