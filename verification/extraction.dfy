/**
 * `FileExtractor.extract`: the output blocks, the header and trailer of
 * the document, and the per-file loop that sends every visited file to
 * exactly one bucket of the statistics.
 */
module Extraction {
  import opened Wrappers
  import opened Strings
  import opened Numbers
  import opened Rules
  import opened Classifier
  import opened Stats

  /** The 60-character rule used in headers, trailers and standard blocks. */
  function Rule(): (r: string)
    ensures |r| == 60 && forall i :: 0 <= i < 60 ==> r[i] == '='
  {
    Repeat('=', 60)
  }

  /** `_format_compact`: the path between dashes on its own line, then the content. */
  function FormatCompact(rel: string, content: string): (r: string)
    ensures |r| == |rel| + |content| + 11
    ensures r[..5] == "\n--- " && r[5..5 + |rel|] == rel && r[5 + |rel|..10 + |rel|] == " ---\n"
    ensures r[10 + |rel|..|r| - 1] == content && r[|r| - 1] == '\n'
  {
    var r := "\n--- " + rel + " ---\n" + content + "\n";
    assert r == "\n--- " + (rel + (" ---\n" + (content + "\n")));
    assert r[5..] == rel + (" ---\n" + (content + "\n"));
    assert r[5 + |rel|..] == " ---\n" + (content + "\n");
    assert r[10 + |rel|..] == r[5 + |rel|..][5..];
    assert r[10 + |rel|..] == content + "\n";
    r
  }

  /** `_format_standard`: a rule, `FILE: rel`, the rule again, the content and a blank line. */
  function FormatStandard(rel: string, content: string): (r: string)
    ensures |r| == |rel| + |content| + 132
    ensures r[1..61] == Rule() && r[61..67] == "\nFILE:" && r[68..68 + |rel|] == rel
    ensures r[69 + |rel|..129 + |rel|] == Rule()
    ensures r[130 + |rel|..|r| - 2] == content && r[|r| - 2..] == "\n\n"
  {
    "\n" + Rule() + "\nFILE: " + rel + "\n" + Rule() + "\n" + content + "\n\n"
  }

  function Format(compact: bool, rel: string, content: string): string {
    if compact then FormatCompact(rel, content) else FormatStandard(rel, content)
  }

  /** Both block formats keep path and content apart: different contents give different blocks. */
  lemma FormatInjective(compact: bool, rel: string, c1: string, c2: string)
    requires Format(compact, rel, c1) == Format(compact, rel, c2)
    ensures c1 == c2
  {
    var b := Format(compact, rel, c1);
    if compact {
      assert c1 == b[10 + |rel|..|b| - 1] == c2;
    } else {
      assert c1 == b[130 + |rel|..|b| - 2] == c2;
    }
  }

  /** How loading `.gitignore` went when `use_gitignore` is on. */
  datatype GitignoreLoad = PathspecMissing | Loaded(matches: string -> bool) | LoadFailed(message: string)

  /**
   * How setting up token counting went when `count_tokens` is on. `count`
   * gives, for a model name and a content, the number of tokens the
   * chosen encoder produces, or None where encoding raises.
   */
  datatype TokenizerLoad = TiktokenMissing | Tiktoken(count: (string, string) -> Option<nat>) | TokenizerFailed(message: string)

  /**
   * One run of `extract`: the extractor, the root as given and whether it
   * is a directory, the resolved root, output and temporary-file paths,
   * and the foreign services.
   */
  datatype Job = Job(
    x: Extractor,
    rootArg: string,
    rootIsDir: bool,
    root: string,
    output: string,
    temp: string,
    gitignore: GitignoreLoad,
    tokenizer: TokenizerLoad,
    codecs: Codecs,
    glob: Glob)

  /** The gitignore matcher in force, if any. */
  function GitignoreSpec(job: Job): Option<string -> bool> {
    if job.x.useGitignore && job.gitignore.Loaded? then Some(job.gitignore.matches) else None
  }

  /** Warnings recorded before any file is visited: gitignore first, then the tokenizer. */
  function SetupErrors(job: Job): seq<string> {
    var gitignore :=
      if !job.x.useGitignore then []
      else match job.gitignore
        case PathspecMissing => ["use_gitignore enabled but 'pathspec' is not installed"]
        case LoadFailed(msg) => ["Failed to load .gitignore: " + msg]
        case Loaded(_) => [];
    var tokenizer :=
      if !job.x.countTokens then []
      else match job.tokenizer
        case TiktokenMissing => ["Token counting enabled but 'tiktoken' is not installed"]
        case TokenizerFailed(msg) => ["Failed to initialize tokenizer: " + msg]
        case Tiktoken(_) => [];
    gitignore + tokenizer
  }

  predicate Counting(job: Job) {
    job.x.countTokens && job.tokenizer.Tiktoken?
  }

  /** The model name tokens are counted for: the configured one unless it is missing or empty. */
  function TokenModel(job: Job): string {
    match job.x.tokenizerModel
    case Some(m) => if m == "" then "gpt-4" else m
    case None => "gpt-4"
  }

  function Header(job: Job): string {
    var x := job.x;
    "# Extracted from: " + job.root + "\n"
    + "# Max file size: " + IntToString(x.maxFileSize / 1024) + "KB\n"
    + "# Mode: " + (if x.compactMode then "compact" else "standard") + "\n"
    + Rule() + "\n"
    + (if x.useGitignore then "# Gitignore: " + (if GitignoreSpec(job).Some? then "on" else "off") + "\n" else "")
    + (if x.includePatterns != [] then "# Include patterns: " + Join(x.includePatterns, ", ") + "\n" else "")
    + (if x.excludePatterns != [] then "# Exclude patterns: " + Join(x.excludePatterns, ", ") + "\n" else "")
  }

  /** Where one visited file goes. */
  datatype Disposition =
    | Ignored                                      // the temporary output file itself
    | OwnOutput                                    // the output file: reported, not counted
    | Skipped(key: string, warning: Option<string>)
    | Processed(content: string)
    | Aborted(message: string)                     // an OSError while reading: the run fails

  /** The decision for one file, in the order the loop takes it. */
  function Dispose(job: Job, f: FileEntry): Disposition {
    if f.resolved == job.temp then Ignored
    else if f.resolved == job.output then OwnOutput
    else
      var rel := Rel(f);
      var includeOverride := job.x.includePatterns != [] && MatchAny(job.glob, job.x.includePatterns, rel);
      match ShouldSkip(job.x, GitignoreSpec(job), job.glob, f, includeOverride)
      case Unreadable(msg) => Skipped("other", Some(msg))
      case Skip(reason) => Skipped(reason.Name(), None)
      case Keep =>
        if !IsText(job.codecs, f.stat, f.contents) then Skipped("binary", None)
        else match ReadContent(job.codecs, f.contents)
          case Fatal(msg) => Aborted(msg)
          case Content(text) => Processed(text)
  }

  /** No reason appears twice in the association list. */
  predicate DistinctKeys(entries: seq<(string, seq<string>)>) {
    forall i, j :: 0 <= i < j < |entries| ==> entries[i].0 != entries[j].0
  }

  /** Where `key` first occurs, if anywhere. */
  function IndexOf(entries: seq<(string, seq<string>)>, key: string): (r: Option<nat>)
    ensures r.Some? ==> r.value < |entries| && entries[r.value].0 == key
    ensures r.Some? ==> forall j :: 0 <= j < r.value ==> entries[j].0 != key
    ensures r.None? <==> forall j :: 0 <= j < |entries| ==> entries[j].0 != key
  {
    if entries == [] then None
    else if entries[0].0 == key then Some(0)
    else match IndexOf(entries[1..], key)
      case Some(i) => Some(i + 1)
      case None => None
  }

  /** The first occurrence is the only one that can be. */
  lemma IndexOfIs(entries: seq<(string, seq<string>)>, key: string, m: nat)
    requires m < |entries| && entries[m].0 == key
    requires forall j :: 0 <= j < m ==> entries[j].0 != key
    ensures IndexOf(entries, key) == Some(m)
  {
  }

  /** The list under `key`, or the empty list a `defaultdict(list)` gives for a new key. */
  function Lookup(entries: seq<(string, seq<string>)>, key: string): seq<string> {
    match IndexOf(entries, key)
    case Some(i) => entries[i].1
    case None => []
  }

  lemma {:induction false} AllPathsUpdate(entries: seq<(string, seq<string>)>, i: nat, e: (string, seq<string>))
    requires i < |entries|
    ensures AllPaths(entries[i := e]) == AllPaths(entries) - |entries[i].1| + |e.1|
    decreases |entries|
  {
    var n := |entries| - 1;
    var u := entries[i := e];
    if i < n {
      assert u[..n] == entries[..n][i := e];
      AllPathsUpdate(entries[..n], i, e);
    } else {
      assert u[..n] == entries[..n];
    }
  }

  /** The keys are the same before and after: the lookups of every other key are too. */
  lemma LookupSameKeys(entries: seq<(string, seq<string>)>, r: seq<(string, seq<string>)>, k: string)
    requires |entries| <= |r|
    requires forall j :: 0 <= j < |entries| ==> r[j].0 == entries[j].0
    requires forall j :: 0 <= j < |entries| && r[j] != entries[j] ==> r[j].0 != k
    requires forall j :: |entries| <= j < |r| ==> r[j].0 != k
    ensures Lookup(r, k) == Lookup(entries, k)
  {
    match IndexOf(entries, k)
    case Some(m) => IndexOfIs(r, k, m);
    case None =>
  }

  /**
   * `skipped_paths[key].append(path)` on a `defaultdict(list)`: a new key
   * is added last with the one path, an existing key's list grows at its
   * end, and every other list stays as it was.
   */
  function AppendPath(entries: seq<(string, seq<string>)>, key: string, path: string): (r: seq<(string, seq<string>)>)
    requires DistinctKeys(entries)
    ensures DistinctKeys(r)
    ensures |r| == |entries| + (if IndexOf(entries, key).Some? then 0 else 1)
    ensures forall j :: 0 <= j < |entries| ==> r[j].0 == entries[j].0
    ensures IndexOf(entries, key).None? ==> r[|entries|].0 == key
    ensures Lookup(r, key) == Lookup(entries, key) + [path]
    ensures forall k :: k != key ==> Lookup(r, k) == Lookup(entries, k)
    ensures AllPaths(r) == AllPaths(entries) + 1
  {
    match IndexOf(entries, key)
    case Some(i) =>
      AppendExisting(entries, key, path, i);
      entries[i := (key, entries[i].1 + [path])]
    case None =>
      AppendNew(entries, key, path);
      entries + [(key, [path])]
  }

  /** What appending `path` under `key` promises of the new list `r`. */
  ghost predicate Appended(entries: seq<(string, seq<string>)>, key: string, path: string, r: seq<(string, seq<string>)>) {
    && DistinctKeys(r)
    && |r| == |entries| + (if IndexOf(entries, key).Some? then 0 else 1)
    && (forall j :: 0 <= j < |entries| ==> r[j].0 == entries[j].0)
    && (IndexOf(entries, key).None? ==> r[|entries|].0 == key)
    && Lookup(r, key) == Lookup(entries, key) + [path]
    && (forall k :: k != key ==> Lookup(r, k) == Lookup(entries, k))
    && AllPaths(r) == AllPaths(entries) + 1
  }

  lemma AppendExisting(entries: seq<(string, seq<string>)>, key: string, path: string, i: nat)
    requires DistinctKeys(entries) && IndexOf(entries, key) == Some(i)
    ensures Appended(entries, key, path, entries[i := (key, entries[i].1 + [path])])
  {
    var r := entries[i := (key, entries[i].1 + [path])];
    assert forall j :: 0 <= j < |entries| ==> r[j].0 == entries[j].0;
    assert DistinctKeys(r);
    IndexOfIs(r, key, i);
    assert Lookup(r, key) == Lookup(entries, key) + [path];
    AllPathsUpdate(entries, i, (key, entries[i].1 + [path]));
    forall k | k != key
      ensures Lookup(r, k) == Lookup(entries, k)
    {
      LookupSameKeys(entries, r, k);
    }
  }

  lemma AppendNew(entries: seq<(string, seq<string>)>, key: string, path: string)
    requires DistinctKeys(entries) && IndexOf(entries, key).None?
    ensures Appended(entries, key, path, entries + [(key, [path])])
  {
    var r := entries + [(key, [path])];
    assert r[..|r| - 1] == entries;
    IndexOfIs(r, key, |entries|);
    forall k | k != key
      ensures Lookup(r, k) == Lookup(entries, k)
    {
      LookupSameKeys(entries, r, k);
    }
  }

  /** The running state of the loop. */
  datatype Tally = Tally(
    processed: seq<string>,
    skipped: seq<(string, seq<string>)>,
    totalBytes: nat,
    tokens: Option<int>,
    errors: seq<string>,
    reports: seq<string>,
    body: string)

  function Start(job: Job): Tally {
    Tally([], [], 0, if Counting(job) then Some(0) else None, SetupErrors(job), [], Header(job))
  }

  /** `token_count += len(encoder.encode(content))`, ignoring an encoder that raises. */
  function AddTokens(job: Job, tokens: Option<int>, content: string): Option<int> {
    if tokens.Some? && job.tokenizer.Tiktoken? then
      match job.tokenizer.count(TokenModel(job), content)
      case Some(n) => Some(tokens.value + n)
      case None => tokens
    else tokens
  }

  /** The effect of one file on the tally; an aborting file is handled by `Run`. */
  function Step(job: Job, t: Tally, f: FileEntry): Tally
    requires DistinctKeys(t.skipped)
  {
    var rel := Rel(f);
    match Dispose(job, f)
    case Ignored => t
    case OwnOutput => t.(reports := t.reports + ["Skipping " + rel])
    case Skipped(key, warning) =>
      t.(skipped := AppendPath(t.skipped, key, rel),
         errors := if warning.Some? then t.errors + [warning.value] else t.errors,
         reports := t.reports + ["Skipping " + rel])
    case Processed(content) =>
      t.(processed := t.processed + [rel],
         totalBytes := t.totalBytes + |content|,
         tokens := AddTokens(job, t.tokens, content),
         reports := t.reports + [rel],
         body := t.body + Format(job.x.compactMode, rel, content))
    case Aborted(_) => t
  }

  /** The loop over the files, in the order given, up to the first file that aborts the run. */
  function Run(job: Job, entries: seq<FileEntry>): (r: Result<Tally>)
    ensures r.Success? ==> DistinctKeys(r.value.skipped)
  {
    if entries == [] then Success(Start(job))
    else
      var f := entries[|entries| - 1];
      match Run(job, entries[..|entries| - 1])
      case Failure(msg) => Failure(msg)
      case Success(t) =>
        match Dispose(job, f)
        case Aborted(msg) => Failure(msg)
        case _ => Success(Step(job, t, f))
  }

  function Trailer(t: Tally): string {
    "\n" + Rule() + "\n"
    + "# Total files processed: " + IntToString(|t.processed|) + "\n"
    + "# Total size: " + IntToString(t.totalBytes / 1024) + "KB\n"
    + (if t.tokens.Some? then "# Total tokens: " + IntToString(t.tokens.value) + "\n" else "")
  }

  function StatsOf(job: Job, t: Tally): ExtractionStats {
    ExtractionStats(job.root, job.output, t.processed, t.totalBytes, t.skipped, t.errors,
                    t.tokens, if t.tokens.Some? then Some(TokenModel(job)) else None)
  }

  /** What `extract` leaves behind: the statistics, the committed document and the progress reports; or the error it raises. */
  datatype Outcome = Committed(stats: ExtractionStats, document: string, reports: seq<string>) | Failed(message: string)

  function Extraction(job: Job, entries: seq<FileEntry>): Outcome {
    if !job.rootIsDir then Failed("'" + job.rootArg + "' is not a valid directory")
    else match Run(job, entries)
      case Failure(msg) => Failed(msg)
      case Success(t) => Committed(StatsOf(job, t), t.body + Trailer(t), t.reports)
  }

  /** Once the run has failed it stays failed with the same message. */
  lemma {:induction false} FailureSticks(job: Job, entries: seq<FileEntry>, i: nat)
    requires i <= |entries| && Run(job, entries[..i]).Failure?
    ensures Run(job, entries) == Run(job, entries[..i])
    decreases |entries| - i
  {
    if i < |entries| {
      assert entries[..i + 1][..i] == entries[..i];
      FailureSticks(job, entries, i + 1);
    } else {
      assert entries[..i] == entries;
    }
  }

  /** The loop body for one file: the same decisions as `Dispose`, taken step by step. */
  method Visit(job: Job, t: Tally, f: FileEntry) returns (r: Result<Tally>)
    requires DistinctKeys(t.skipped)
    ensures r == match Dispose(job, f)
      case Aborted(msg) => Failure(msg)
      case _ => Success(Step(job, t, f))
  {
    var rel := Rel(f);
    if f.resolved == job.temp {
      return Success(t);
    }
    if f.resolved == job.output {
      return Success(t.(reports := t.reports + ["Skipping " + rel]));
    }
    var includeOverride := job.x.includePatterns != [] && MatchAny(job.glob, job.x.includePatterns, rel);
    var verdict := ShouldSkip(job.x, GitignoreSpec(job), job.glob, f, includeOverride);
    if verdict.Unreadable? {
      return Success(t.(skipped := AppendPath(t.skipped, "other", rel),
                        errors := t.errors + [verdict.message],
                        reports := t.reports + ["Skipping " + rel]));
    }
    if verdict.Skip? {
      return Success(t.(skipped := AppendPath(t.skipped, verdict.reason.Name(), rel),
                        reports := t.reports + ["Skipping " + rel]));
    }
    var text := IsTextFile(job.codecs, f.stat, f.contents);
    if !text {
      return Success(t.(skipped := AppendPath(t.skipped, "binary", rel),
                        reports := t.reports + ["Skipping " + rel]));
    }
    var read := ReadFileContent(job.codecs, f.contents);
    if read.Fatal? {
      return Failure(read.message);
    }
    var content := read.text;
    var next := t.(body := t.body + Format(job.x.compactMode, rel, content));
    next := next.(processed := next.processed + [rel]);
    next := next.(totalBytes := next.totalBytes + |content|);
    next := next.(tokens := AddTokens(job, next.tokens, content));
    next := next.(reports := next.reports + [rel]);
    return Success(next);
  }

  /**
   * `extract`, as the loop the source runs: each file is classified,
   * read and appended to the document, and the statistics are
   * accumulated, until the files run out or a read error aborts the run.
   */
  method Extract(job: Job, entries: seq<FileEntry>) returns (outcome: Outcome)
    ensures outcome == Extraction(job, entries)
  {
    if !job.rootIsDir {
      return Failed("'" + job.rootArg + "' is not a valid directory");
    }
    var t := Start(job);
    var i := 0;
    while i < |entries|
      invariant 0 <= i <= |entries|
      invariant Run(job, entries[..i]) == Success(t)
    {
      assert entries[..i + 1][..i] == entries[..i];
      var r := Visit(job, t, entries[i]);
      if r.Failure? {
        FailureSticks(job, entries, i + 1);
        return Failed(r.error);
      }
      t := r.value;
      i := i + 1;
    }
    assert entries[..|entries|] == entries;
    return Committed(StatsOf(job, t), t.body + Trailer(t), t.reports);
  }
}
