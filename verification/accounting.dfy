/**
 * What the per-file loop of `extract` guarantees about its statistics:
 * every visited file lands in exactly one bucket, in the order the files
 * were visited, and the totals agree with the buckets.
 */
module Accounting {
  import opened Wrappers
  import opened Rules
  import opened Stats
  import opened Extraction

  /** The relative paths of the processed files, in visiting order. */
  function ProcessedRels(job: Job, entries: seq<FileEntry>): seq<string> {
    if entries == [] then []
    else
      var f := entries[|entries| - 1];
      ProcessedRels(job, entries[..|entries| - 1]) + (if Dispose(job, f).Processed? then [Rel(f)] else [])
  }

  /** The relative paths of the files skipped under `key`, in visiting order. */
  function SkippedRels(job: Job, entries: seq<FileEntry>, key: string): seq<string> {
    if entries == [] then []
    else
      var f := entries[|entries| - 1];
      var d := Dispose(job, f);
      SkippedRels(job, entries[..|entries| - 1], key) + (if d.Skipped? && d.key == key then [Rel(f)] else [])
  }

  /** The summed length of the processed contents. */
  function ContentLength(job: Job, entries: seq<FileEntry>): nat {
    if entries == [] then 0
    else
      var d := Dispose(job, entries[|entries| - 1]);
      ContentLength(job, entries[..|entries| - 1]) + (if d.Processed? then |d.content| else 0)
  }

  /** The formatted blocks of the processed files, concatenated in visiting order. */
  function Blocks(job: Job, entries: seq<FileEntry>): string {
    if entries == [] then ""
    else
      var f := entries[|entries| - 1];
      var d := Dispose(job, f);
      Blocks(job, entries[..|entries| - 1]) + (if d.Processed? then Format(job.x.compactMode, Rel(f), d.content) else "")
  }

  /** The number of files that are either processed or skipped. */
  function Visited(job: Job, entries: seq<FileEntry>): nat {
    if entries == [] then 0
    else
      var d := Dispose(job, entries[|entries| - 1]);
      Visited(job, entries[..|entries| - 1]) + (if d.Processed? || d.Skipped? then 1 else 0)
  }

  /** The number of files other than the temporary file. */
  function Reported(job: Job, entries: seq<FileEntry>): nat {
    if entries == [] then 0
    else Reported(job, entries[..|entries| - 1]) + (if Dispose(job, entries[|entries| - 1]).Ignored? then 0 else 1)
  }

  /** The warnings of files whose `stat` failed, in visiting order. */
  function Warnings(job: Job, entries: seq<FileEntry>): seq<string> {
    if entries == [] then []
    else
      var d := Dispose(job, entries[|entries| - 1]);
      Warnings(job, entries[..|entries| - 1]) + (if d.Skipped? && d.warning.Some? then [d.warning.value] else [])
  }

  /** A completed run over a non-empty list is one step after the completed run over all but the last file. */
  lemma RunUnfolds(job: Job, entries: seq<FileEntry>)
    requires entries != [] && Run(job, entries).Success?
    ensures Run(job, entries[..|entries| - 1]).Success?
    ensures !Dispose(job, entries[|entries| - 1]).Aborted?
    ensures Run(job, entries).value == Step(job, Run(job, entries[..|entries| - 1]).value, entries[|entries| - 1])
  {
  }

  /** A completed run has processed exactly the processable files, in visiting order. */
  lemma {:induction false} RunProcessed(job: Job, entries: seq<FileEntry>)
    requires Run(job, entries).Success?
    ensures Run(job, entries).value.processed == ProcessedRels(job, entries)
    ensures Run(job, entries).value.totalBytes == ContentLength(job, entries)
  {
    if entries != [] {
      RunUnfolds(job, entries);
      RunProcessed(job, entries[..|entries| - 1]);
    }
  }

  /** A completed run lists under each reason exactly the files skipped for it, in visiting order. */
  lemma {:induction false} RunSkipped(job: Job, entries: seq<FileEntry>)
    requires Run(job, entries).Success?
    ensures forall k :: Lookup(Run(job, entries).value.skipped, k) == SkippedRels(job, entries, k)
  {
    if entries != [] {
      RunUnfolds(job, entries);
      RunSkipped(job, entries[..|entries| - 1]);
    }
  }

  /** A completed run counts every processed or skipped file exactly once. */
  lemma {:induction false} RunCountsVisited(job: Job, entries: seq<FileEntry>)
    requires Run(job, entries).Success?
    ensures |Run(job, entries).value.processed| + AllPaths(Run(job, entries).value.skipped) == Visited(job, entries)
  {
    if entries != [] {
      RunUnfolds(job, entries);
      RunCountsVisited(job, entries[..|entries| - 1]);
    }
  }

  /** One step appends the file's block to the body when the file is processed, and nothing otherwise. */
  lemma StepBody(job: Job, t: Tally, f: FileEntry)
    requires DistinctKeys(t.skipped)
    ensures Step(job, t, f).body
            == t.body + (if Dispose(job, f).Processed? then Format(job.x.compactMode, Rel(f), Dispose(job, f).content) else "")
  {
    if !Dispose(job, f).Processed? {
      assert t.body + "" == t.body;
    }
  }

  lemma Associative(a: string, b: string, c: string)
    ensures a + b + c == a + (b + c)
  {
  }

  /** A completed run's document body is the header followed by every processed file's block, in visiting order. */
  lemma {:induction false} RunBody(job: Job, entries: seq<FileEntry>)
    requires Run(job, entries).Success?
    ensures Run(job, entries).value.body == Start(job).body + Blocks(job, entries)
  {
    var h := Start(job).body;
    if entries == [] {
      assert h + "" == h;
    } else {
      var init := entries[..|entries| - 1];
      var f := entries[|entries| - 1];
      RunUnfolds(job, entries);
      RunBody(job, init);
      StepBody(job, Run(job, init).value, f);
      var block := if Dispose(job, f).Processed? then Format(job.x.compactMode, Rel(f), Dispose(job, f).content) else "";
      var b := Blocks(job, init);
      assert Blocks(job, entries) == b + block;
      assert Run(job, entries).value.body == Run(job, init).value.body + block;
      Associative(h, b, block);
    }
  }

  /** A completed run reports every file but the temporary one. */
  lemma {:induction false} RunReports(job: Job, entries: seq<FileEntry>)
    requires Run(job, entries).Success?
    ensures |Run(job, entries).value.reports| == Reported(job, entries)
  {
    if entries != [] {
      RunUnfolds(job, entries);
      RunReports(job, entries[..|entries| - 1]);
    }
  }

  /** The warning a file adds, if any. */
  function WarningOf(job: Job, f: FileEntry): seq<string> {
    var d := Dispose(job, f);
    if d.Skipped? && d.warning.Some? then [d.warning.value] else []
  }

  /** One step appends the file's warning, if it has one, to the errors. */
  lemma StepErrors(job: Job, t: Tally, f: FileEntry)
    requires DistinctKeys(t.skipped)
    ensures Step(job, t, f).errors == t.errors + WarningOf(job, f)
  {
    if WarningOf(job, f) == [] {
      assert t.errors + [] == t.errors;
    }
  }

  lemma SeqAssociative(a: seq<string>, b: seq<string>, c: seq<string>)
    ensures a + b + c == a + (b + c)
  {
  }

  /** A completed run keeps the warnings of unreadable files, in visiting order, after the set-up warnings. */
  lemma {:induction false} RunWarnings(job: Job, entries: seq<FileEntry>)
    requires Run(job, entries).Success?
    ensures Run(job, entries).value.errors == SetupErrors(job) + Warnings(job, entries)
  {
    if entries == [] {
      assert SetupErrors(job) + [] == SetupErrors(job);
    } else {
      var init := entries[..|entries| - 1];
      var f := entries[|entries| - 1];
      RunUnfolds(job, entries);
      RunWarnings(job, init);
      StepErrors(job, Run(job, init).value, f);
      assert Warnings(job, entries) == Warnings(job, init) + WarningOf(job, f);
      SeqAssociative(SetupErrors(job), Warnings(job, init), WarningOf(job, f));
    }
  }

  /** A run over a non-empty list fails when the run over all but the last file fails, or the last file aborts. */
  lemma RunFails(job: Job, entries: seq<FileEntry>)
    requires entries != []
    ensures Run(job, entries).Failure? <==>
              Run(job, entries[..|entries| - 1]).Failure? || Dispose(job, entries[|entries| - 1]).Aborted?
  {
    var f := entries[|entries| - 1];
    if Run(job, entries[..|entries| - 1]).Success? && !Dispose(job, f).Aborted? {
      assert Run(job, entries).Success?;
    }
  }

  /** Some element of `s` satisfies `p`. */
  predicate Any<T>(s: seq<T>, p: T -> bool) {
    exists i :: 0 <= i < |s| && p(s[i])
  }

  lemma AnySplit<T>(s: seq<T>, p: T -> bool)
    requires s != []
    ensures Any(s, p) <==> Any(s[..|s| - 1], p) || p(s[|s| - 1])
  {
    var init := s[..|s| - 1];
    if Any(init, p) {
      var i :| 0 <= i < |init| && p(init[i]);
      assert s[i] == init[i];
    }
    if Any(s, p) && !p(s[|s| - 1]) {
      var i :| 0 <= i < |s| && p(s[i]);
      assert i < |init| && init[i] == s[i];
    }
  }

  /** Reading the file raises, which aborts the run. */
  function Aborts(job: Job): FileEntry -> bool {
    f => Dispose(job, f).Aborted?
  }

  /** The run fails exactly when some file aborts it. */
  lemma {:induction false} RunFailsIffAborted(job: Job, entries: seq<FileEntry>)
    ensures Run(job, entries).Failure? <==> Any(entries, Aborts(job))
  {
    if entries != [] {
      RunFails(job, entries);
      RunFailsIffAborted(job, entries[..|entries| - 1]);
      AnySplit(entries, Aborts(job));
      assert Aborts(job)(entries[|entries| - 1]) == Dispose(job, entries[|entries| - 1]).Aborted?;
    }
  }


  /**
   * The committed statistics count every visited file exactly once: the
   * processed count plus the skipped counts over the canonical reasons is
   * the number of visited files.
   */
  lemma EveryFileCountedOnce(job: Job, entries: seq<FileEntry>)
    requires Extraction.Extraction(job, entries).Committed?
    ensures ProcessedFiles(Extraction.Extraction(job, entries).stats)
            + SumTotals(CanonicalReasons, Extraction.Extraction(job, entries).stats.skippedPaths) == Visited(job, entries)
    ensures Extraction.Extraction(job, entries).stats.processedPaths == ProcessedRels(job, entries)
    ensures Extraction.Extraction(job, entries).document
            == Header(job) + Blocks(job, entries) + Trailer(Run(job, entries).value)
  {
    RunBody(job, entries);
    RunProcessed(job, entries);
    RunCountsVisited(job, entries);
    TotalsAddUp(Run(job, entries).value.skipped);
  }
}
