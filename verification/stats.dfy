/** `ExtractionStats`: what an extraction reports, and its derived counts. */
module Stats {
  import opened Wrappers

  /**
   * The result record. `skippedPaths` is the reason-to-paths dictionary as
   * an association list in insertion order, its reasons distinct.
   */
  datatype ExtractionStats = ExtractionStats(
    root: string,
    output: string,
    processedPaths: seq<string>,
    totalBytes: int,
    skippedPaths: seq<(string, seq<string>)>,
    errors: seq<string>,
    tokenCount: Option<int>,
    tokenModel: Option<string>)

  /** The ten reason names the summary keeps as they are. */
  const CanonicalReasons: seq<string> := [
    "excluded_ext", "empty", "too_large", "binary", "excluded_name",
    "excluded_path", "excluded_pattern", "gitignore", "not_included", "other"]

  /** A reason outside the canonical ten is counted as "other". */
  function Fold(reason: string): (key: string)
    ensures key in CanonicalReasons
    ensures reason in CanonicalReasons ==> key == reason
  {
    if reason in CanonicalReasons then reason else "other"
  }

  /** `processed_files`. */
  function ProcessedFiles(s: ExtractionStats): nat {
    |s.processedPaths|
  }

  /** The number of paths whose reason folds to `key`. */
  function Total(entries: seq<(string, seq<string>)>, key: string): nat {
    if entries == [] then 0
    else
      var last := entries[|entries| - 1];
      Total(entries[..|entries| - 1], key) + (if Fold(last.0) == key then |last.1| else 0)
  }

  /** The number of paths under all reasons together. */
  function AllPaths(entries: seq<(string, seq<string>)>): nat {
    if entries == [] then 0
    else AllPaths(entries[..|entries| - 1]) + |entries[|entries| - 1].1|
  }

  /** The summary `skipped` builds, entry by entry: each entry adds its paths to its folded reason. */
  function SkippedCounts(entries: seq<(string, seq<string>)>): map<string, nat> {
    if entries == [] then map[]
    else
      var counts := SkippedCounts(entries[..|entries| - 1]);
      var last := entries[|entries| - 1];
      var key := Fold(last.0);
      if |last.1| > 0 then counts[key := (if key in counts then counts[key] else 0) + |last.1|] else counts
  }

  /** `skipped`: counts accumulated reason by reason, non-canonical reasons folded into "other", empty lists ignored. */
  method Skipped(s: ExtractionStats) returns (counts: map<string, nat>)
    ensures counts == SkippedCounts(s.skippedPaths)
  {
    var entries := s.skippedPaths;
    counts := map[];
    for i := 0 to |entries|
      invariant counts == SkippedCounts(entries[..i])
    {
      SkippedCountsStep(entries, i);
      var (reason, paths) := entries[i];
      var key := Fold(reason);
      if |paths| > 0 {
        var before := if key in counts then counts[key] else 0;
        counts := counts[key := before + |paths|];
      }
    }
    assert entries[..|entries|] == entries;
  }

  lemma SkippedCountsStep(entries: seq<(string, seq<string>)>, i: int)
    requires 0 <= i < |entries|
    ensures var counts := SkippedCounts(entries[..i]);
            var key := Fold(entries[i].0);
            var n := |entries[i].1|;
            SkippedCounts(entries[..i + 1])
            == if n > 0 then counts[key := (if key in counts then counts[key] else 0) + n] else counts
  {
    var prefix := entries[..i + 1];
    assert prefix[..i] == entries[..i];
    assert prefix[i] == entries[i];
  }

  function SumTotals(keys: seq<string>, entries: seq<(string, seq<string>)>): nat {
    if keys == [] then 0 else Total(entries, keys[0]) + SumTotals(keys[1..], entries)
  }

  predicate Distinct(keys: seq<string>) {
    forall i, j :: 0 <= i < j < |keys| ==> keys[i] != keys[j]
  }

  lemma {:induction false} SumTotalsSnoc(keys: seq<string>, entries: seq<(string, seq<string>)>, e: (string, seq<string>))
    requires Distinct(keys)
    ensures SumTotals(keys, entries + [e]) == SumTotals(keys, entries) + (if Fold(e.0) in keys then |e.1| else 0)
  {
    var es := entries + [e];
    assert es[..|es| - 1] == entries;
    if keys != [] {
      SumTotalsSnoc(keys[1..], entries, e);
      assert Fold(e.0) in keys <==> Fold(e.0) == keys[0] || Fold(e.0) in keys[1..];
      assert Fold(e.0) == keys[0] ==> Fold(e.0) !in keys[1..];
    }
  }

  lemma {:induction false} SumTotalsEmpty(keys: seq<string>)
    ensures SumTotals(keys, []) == 0
  {
    if keys != [] {
      SumTotalsEmpty(keys[1..]);
    }
  }

  lemma CanonicalDistinct()
    ensures Distinct(CanonicalReasons)
  {
  }

  /** Every path is counted under exactly one canonical reason: the totals add up to all paths. */
  lemma {:induction false} TotalsAddUp(entries: seq<(string, seq<string>)>)
    ensures SumTotals(CanonicalReasons, entries) == AllPaths(entries)
  {
    if entries != [] {
      var init := entries[..|entries| - 1];
      TotalsAddUp(init);
      assert init + [entries[|entries| - 1]] == entries;
      CanonicalDistinct();
      var last := entries[|entries| - 1];
      SumTotalsSnoc(CanonicalReasons, init, last);
      assert Fold(last.0) in CanonicalReasons;
      assert SumTotals(CanonicalReasons, entries) == SumTotals(CanonicalReasons, init) + |last.1|;
      assert AllPaths(entries) == AllPaths(init) + |last.1|;
    } else {
      SumTotalsEmpty(CanonicalReasons);
    }
  }

  /**
   * The summary holds exactly the reasons with a positive total, each mapped to
   * that total; those are canonical, and summed they give the number of skipped paths.
   */
  lemma {:induction false} SkippedAddsUp(entries: seq<(string, seq<string>)>)
    ensures forall k :: k in SkippedCounts(entries) ==> k in CanonicalReasons && SkippedCounts(entries)[k] > 0
    ensures forall k :: Total(entries, k) == (if k in SkippedCounts(entries) then SkippedCounts(entries)[k] else 0)
    ensures SumTotals(CanonicalReasons, entries) == AllPaths(entries)
  {
    TotalsAddUp(entries);
    if entries != [] {
      var init := entries[..|entries| - 1];
      SkippedAddsUp(init);
    }
  }

  /** A non-canonical reason is counted under "other", together with "other" itself. */
  lemma {:induction false} OtherCollects(entries: seq<(string, seq<string>)>, reason: string, paths: seq<string>)
    requires reason !in CanonicalReasons
    ensures Total(entries + [(reason, paths)], "other") == Total(entries, "other") + |paths|
    ensures forall k :: k != "other" ==> Total(entries + [(reason, paths)], k) == Total(entries, k)
  {
    assert (entries + [(reason, paths)])[..|entries|] == entries;
  }

  /** The values of `as_dict`. */
  datatype Field =
    | Text(text: string)
    | Number(n: int)
    | Paths(paths: seq<string>)
    | PathsByReason(byReason: seq<(string, seq<string>)>)
    | CountsByReason(counts: map<string, nat>)

  /** `as_dict`: the eight fixed entries, then the token entries that are set. */
  function AsDict(s: ExtractionStats): (r: seq<(string, Field)>)
    ensures |r| >= 8 && r[..8] == [
      ("root", Text(s.root)),
      ("output", Text(s.output)),
      ("processed_paths", Paths(s.processedPaths)),
      ("processed_files", Number(|s.processedPaths|)),
      ("total_bytes", Number(s.totalBytes)),
      ("skipped_paths", PathsByReason(s.skippedPaths)),
      ("skipped", CountsByReason(SkippedCounts(s.skippedPaths))),
      ("errors", Paths(s.errors))]
    ensures r[8..] == (if s.tokenCount.Some? then [("token_count", Number(s.tokenCount.value))] else [])
                      + (if s.tokenModel.Some? then [("token_model", Text(s.tokenModel.value))] else [])
    ensures (exists i :: 0 <= i < |r| && r[i].0 == "token_count") <==> s.tokenCount.Some?
    ensures (exists i :: 0 <= i < |r| && r[i].0 == "token_model") <==> s.tokenModel.Some?
  {
    var fixed := [
      ("root", Text(s.root)),
      ("output", Text(s.output)),
      ("processed_paths", Paths(s.processedPaths)),
      ("processed_files", Number(ProcessedFiles(s))),
      ("total_bytes", Number(s.totalBytes)),
      ("skipped_paths", PathsByReason(s.skippedPaths)),
      ("skipped", CountsByReason(SkippedCounts(s.skippedPaths))),
      ("errors", Paths(s.errors))];
    var count := if s.tokenCount.Some? then [("token_count", Number(s.tokenCount.value))] else [];
    var model := if s.tokenModel.Some? then [("token_model", Text(s.tokenModel.value))] else [];
    var r := fixed + (count + model);
    assert r[..8] == fixed && r[8..] == count + model;
    assert s.tokenCount.Some? ==> r[8].0 == "token_count";
    assert s.tokenModel.Some? ==> r[|r| - 1].0 == "token_model";
    r
  }

  /** The keys of `as_dict`, in order. */
  const FixedKeys: seq<string> :=
    ["root", "output", "processed_paths", "processed_files", "total_bytes", "skipped_paths", "skipped", "errors"]

  /** `as_dict` builds a dictionary: no key appears twice. */
  lemma AsDictKeysDistinct(s: ExtractionStats)
    ensures forall i, j :: 0 <= i < j < |AsDict(s)| ==> AsDict(s)[i].0 != AsDict(s)[j].0
  {
    var r := AsDict(s);
    var keys := FixedKeys + ["token_count", "token_model"];
    assert forall i, j :: 0 <= i < j < |keys| ==> keys[i] != keys[j] by {
      assert "output"[0] != "errors"[0];
      assert "processed_paths"[10] != "processed_files"[10];
      assert "total_bytes"[2] != "token_count"[2] && "total_bytes"[2] != "token_model"[2];
      assert "token_count"[6] != "token_model"[6];
    }
    forall i, j | 0 <= i < j < |r|
      ensures r[i].0 != r[j].0
    {
      var ki := if i < 8 then i else if r[i].0 == "token_count" then 8 else 9;
      var kj := if j < 8 then j else if r[j].0 == "token_count" then 8 else 9;
      assert r[i].0 == keys[ki] && r[j].0 == keys[kj] && ki < kj;
    }
  }
}
