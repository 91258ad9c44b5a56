/**
 * Settings persistence: merging a loaded configuration into the state,
 * the dictionary `save_config` writes, and the hand-written TOML it falls
 * back to when no TOML writer is available.
 */
module Config {
  import opened Wrappers
  import opened Strings
  import opened Numbers
  import opened Values
  import opened Utils
  import opened State

  /** The thirteen keys `apply_config` reads and `save_config` writes. */
  datatype Key =
    | OutputPath | MaxSizeKb | CompactMode | SkipEmpty | UseGitignore
    | IncludePatterns | ExcludePatterns | SkipExtensions | SkipPatterns | SkipFiles
    | TokenizerModel | EnableTokenCount | CopyToClipboard

  /** The key's name in the settings file. */
  function Name(k: Key): string {
    match k
    case OutputPath => "output_path"
    case MaxSizeKb => "max_size_kb"
    case CompactMode => "compact_mode"
    case SkipEmpty => "skip_empty"
    case UseGitignore => "use_gitignore"
    case IncludePatterns => "include_patterns"
    case ExcludePatterns => "exclude_patterns"
    case SkipExtensions => "skip_extensions"
    case SkipPatterns => "skip_patterns"
    case SkipFiles => "skip_files"
    case TokenizerModel => "tokenizer_model"
    case EnableTokenCount => "enable_token_count"
    case CopyToClipboard => "copy_to_clipboard"
  }

  /** The keys in the order `save_config` writes them: the seven before the skip sets, the skip sets, the three after. */
  const Front: seq<Key> := [OutputPath, MaxSizeKb, CompactMode, SkipEmpty, UseGitignore, IncludePatterns, ExcludePatterns]
  const Back: seq<Key> := [TokenizerModel, EnableTokenCount, CopyToClipboard]
  const Order: seq<Key> := Front + [SkipExtensions, SkipPatterns, SkipFiles] + Back

  /**
   * A loaded settings document, seen through the keys `apply_config`
   * reads; any other key of the file is never looked at.
   */
  type Document = map<Key, Value>

  /** `data.get(key, default)`. */
  function Get(data: Document, key: Key, default: Value): Value {
    if key in data then data[key] else default
  }

  /** `safe_int`: `int(value)`, or `default` where `int` raises. */
  function SafeInt(v: Value, default: int): (r: int)
    ensures v.Int? ==> r == v.i
    ensures IntOf(v).None? ==> r == default
    ensures v.Infinity? || v.NaN? ==> r == default
  {
    IntOf(v).GetOr(default)
  }

  /** `safe_bool`: `bool(value)`, which never raises on these values, so `default` is never used. */
  function SafeBool(v: Value, default: bool): (r: bool)
    ensures v.Bool? ==> r == v.b
    ensures v.Str? ==> r == (v.s != "")
    ensures v.Int? ==> r == (v.i != 0)
  {
    Truthy(v)
  }

  /**
   * `safe_bool` is Python truthiness, not `normalize_bool`: the text
   * "false" switches an option on, where `normalize_bool` reads it as off.
   */
  lemma FalseTextReadAsTrue(default: bool)
    ensures SafeBool(Str("false"), default)
    ensures !NormalizeBool(Str("false"), default)
  {
    NormalizeBoolFalseWord(default);
  }

  /** On real booleans, the only kind a TOML document holds for these keys, both readings agree. */
  lemma SafeBoolAgreesOnBooleans(b: bool, default: bool)
    ensures SafeBool(Bool(b), default) == NormalizeBool(Bool(b), default) == b
  {
  }

  /** The items of a list, stringified, as a set. */
  function Elements(items: seq<string>): set<string> {
    set x | x in items
  }

  /** The list under `key` when it is a list, stringified. */
  function ListAt(data: Document, key: Key): (r: Option<seq<string>>)
    ensures r.Some? <==> key in data && data[key].List?
  {
    if key in data && data[key].List? then Some(StrAll(data[key].items)) else None
  }

  /** The set under `key` when it is a list, stringified; otherwise what was there. */
  function SetAt(data: Document, key: Key, current: Option<set<string>>): Option<set<string>> {
    match ListAt(data, key)
    case Some(items) => Some(Elements(items))
    case None => current
  }

  /** The output path, the size limit and the three switches read first by `apply_config`; nothing else changes. */
  function MergeScalars(s: Settings, data: Document, path: string): (r: Settings)
    ensures r == s.(outputPath := path, maxSizeKb := r.maxSizeKb, compactMode := r.compactMode,
                    skipEmpty := r.skipEmpty, useGitignore := r.useGitignore)
    ensures IntOf(Get(data, MaxSizeKb, Int(s.maxSizeKb))).None? ==> r.maxSizeKb == s.maxSizeKb
    ensures MaxSizeKb in data && data[MaxSizeKb].Int? ==> r.maxSizeKb == data[MaxSizeKb].i
    ensures CompactMode !in data ==> r.compactMode == s.compactMode
    ensures SkipEmpty !in data ==> r.skipEmpty == s.skipEmpty
    ensures UseGitignore !in data ==> r.useGitignore == s.useGitignore
  {
    s.(outputPath := path,
       maxSizeKb := SafeInt(Get(data, MaxSizeKb, Int(s.maxSizeKb)), s.maxSizeKb),
       compactMode := SafeBool(Get(data, CompactMode, Bool(s.compactMode)), s.compactMode),
       skipEmpty := SafeBool(Get(data, SkipEmpty, Bool(s.skipEmpty)), s.skipEmpty),
       useGitignore := SafeBool(Get(data, UseGitignore, Bool(s.useGitignore)), s.useGitignore))
  }

  /** The two pattern lists, taken only when they are lists, stringified; nothing else changes. */
  function MergePatterns(s: Settings, data: Document): (r: Settings)
    ensures r == s.(includePatterns := r.includePatterns, excludePatterns := r.excludePatterns)
    ensures ListAt(data, IncludePatterns).None? ==> r.includePatterns == s.includePatterns
    ensures ListAt(data, ExcludePatterns).None? ==> r.excludePatterns == s.excludePatterns
    ensures ListAt(data, IncludePatterns).Some? ==> r.includePatterns == ListAt(data, IncludePatterns).value
    ensures ListAt(data, ExcludePatterns).Some? ==> r.excludePatterns == ListAt(data, ExcludePatterns).value
  {
    s.(includePatterns := ListAt(data, IncludePatterns).GetOr(s.includePatterns),
       excludePatterns := ListAt(data, ExcludePatterns).GetOr(s.excludePatterns))
  }

  /** The three skip sets, replaced only by lists; nothing else changes. */
  function MergeSkipSets(s: Settings, data: Document): (r: Settings)
    ensures r == s.(skipExtensions := r.skipExtensions, skipPatterns := r.skipPatterns, skipFiles := r.skipFiles)
    ensures ListAt(data, SkipExtensions).None? ==> r.skipExtensions == s.skipExtensions
    ensures ListAt(data, SkipPatterns).None? ==> r.skipPatterns == s.skipPatterns
    ensures ListAt(data, SkipFiles).None? ==> r.skipFiles == s.skipFiles
    ensures ListAt(data, SkipExtensions).Some? ==> r.skipExtensions == Some(Elements(ListAt(data, SkipExtensions).value))
    ensures ListAt(data, SkipPatterns).Some? ==> r.skipPatterns == Some(Elements(ListAt(data, SkipPatterns).value))
    ensures ListAt(data, SkipFiles).Some? ==> r.skipFiles == Some(Elements(ListAt(data, SkipFiles).value))
  {
    s.(skipExtensions := SetAt(data, SkipExtensions, s.skipExtensions),
       skipPatterns := SetAt(data, SkipPatterns, s.skipPatterns),
       skipFiles := SetAt(data, SkipFiles, s.skipFiles))
  }

  /** The tokenizer name through `str`, and the last two switches; nothing else changes. */
  function MergeTail(s: Settings, data: Document): (r: Settings)
    ensures r == s.(tokenizerModel := r.tokenizerModel, enableTokenCount := r.enableTokenCount, copyToClipboard := r.copyToClipboard)
    ensures TokenizerModel !in data ==> r.tokenizerModel == s.tokenizerModel
    ensures TokenizerModel in data ==> r.tokenizerModel == ToStr(data[TokenizerModel])
    ensures EnableTokenCount !in data ==> r.enableTokenCount == s.enableTokenCount
    ensures CopyToClipboard !in data ==> r.copyToClipboard == s.copyToClipboard
  {
    s.(tokenizerModel := ToStr(Get(data, TokenizerModel, Str(s.tokenizerModel))),
       enableTokenCount := SafeBool(Get(data, EnableTokenCount, Bool(s.enableTokenCount)), s.enableTokenCount),
       copyToClipboard := SafeBool(Get(data, CopyToClipboard, Bool(s.copyToClipboard)), s.copyToClipboard))
  }

  /**
   * `apply_config`: an empty document leaves the settings alone; an output
   * path that is not a string makes `Path()` raise before anything is
   * assigned; otherwise every key present is read (numbers through
   * `safe_int`, switches through `safe_bool`, lists only when they are
   * lists, the tokenizer through `str`) and every key absent keeps its value.
   * `force_include` is never read.
   */
  function Merge(s: Settings, data: Document): (r: Result<Settings>)
    ensures data == map[] ==> r == Success(s)
    ensures r.Failure? <==> data != map[] && OutputPath in data && !data[OutputPath].Str?
    ensures r.Success? ==> r.value.forceInclude == s.forceInclude && r.value.sourceRoot == s.sourceRoot && r.value.lastStats == s.lastStats
    ensures r.Success? && OutputPath !in data ==> r.value.outputPath == s.outputPath
  {
    if data == map[] then Success(s)
    else
      var path := Get(data, OutputPath, Str(s.outputPath));
      if !path.Str? then Failure("TypeError: expected str, bytes or os.PathLike object")
      else Success(MergeTail(MergeSkipSets(MergePatterns(MergeScalars(s, data, path.s), data), data), data))
  }

  /**
   * `apply_config` on the state object: nothing is assigned when the
   * document is empty or the output path is not a string; otherwise every
   * field takes its merged value.
   */
  method ApplyConfig(state: AppState, data: Document) returns (ok: bool)
    modifies state
    ensures ok == Merge(old(state.Snapshot()), data).Success?
    ensures ok ==> state.Snapshot() == Merge(old(state.Snapshot()), data).value
    ensures !ok ==> state.Snapshot() == old(state.Snapshot())
  {
    var merged := Merge(state.Snapshot(), data);
    if merged.Failure? {
      return false;
    }
    state.Assign(merged.value);
    ok := true;
  }

  /**
   * `safe_int` as written: it catches ValueError and TypeError only, so
   * the OverflowError `int()` raises on an infinity escapes it.
   */
  function SafeIntAsWritten(v: Value, default: int): (r: Result<int>)
    ensures r.Failure? <==> IntOverflows(v)
    ensures r.Success? ==> r.value == SafeInt(v, default)
  {
    if IntOverflows(v) then Failure("OverflowError: cannot convert float infinity to integer")
    else Success(SafeInt(v, default))
  }

  /**
   * `apply_config` as written, as the settings it leaves behind and
   * whether an exception escaped: an infinite `max_size_kb` raises after
   * the output path has been assigned.
   */
  function ApplyAsWritten(s: Settings, data: Document): (r: (Settings, bool))
    ensures Merge(s, data).Failure? ==> r == (s, true)
    ensures r.1 <==> Merge(s, data).Failure? || (data != map[] && MaxSizeKb in data && IntOverflows(data[MaxSizeKb]))
    ensures !r.1 ==> r.0 == Merge(s, data).value
    ensures r.1 && Merge(s, data).Success? ==> r.0 == s.(outputPath := Get(data, OutputPath, Str(s.outputPath)).s)
  {
    if data == map[] then (s, false)
    else
      var path := Get(data, OutputPath, Str(s.outputPath));
      if !path.Str? then (s, true)
      else match SafeIntAsWritten(Get(data, MaxSizeKb, Int(s.maxSizeKb)), s.maxSizeKb)
        case Failure(_) => (s.(outputPath := path.s), true)
        case Success(_) => (Merge(s, data).value, false)
  }

  /**
   * A document naming a new output path and an infinite size limit: as
   * written, `apply_config` raises and yet leaves the new output path in
   * the state; with the overflow read as "use the default", the document
   * applies and the size limit is kept.
   */
  lemma InfiniteSizeLeavesPartialUpdate(s: Settings)
    ensures var data := map[OutputPath := Str(s.outputPath + "x"), MaxSizeKb := Infinity(false)];
      && ApplyAsWritten(s, data).1
      && ApplyAsWritten(s, data).0 != s
      && ApplyAsWritten(s, data).0 == s.(outputPath := s.outputPath + "x")
      && Merge(s, data).Success?
      && Merge(s, data).value.maxSizeKb == s.maxSizeKb
      && Merge(s, data).value.outputPath == s.outputPath + "x"
  {
    var data := map[OutputPath := Str(s.outputPath + "x"), MaxSizeKb := Infinity(false)];
    assert |s.outputPath + "x"| != |s.outputPath|;
    assert data != map[] && MaxSizeKb in data && IntOverflows(data[MaxSizeKb]);
    assert Get(data, OutputPath, Str(s.outputPath)) == Str(s.outputPath + "x");
    MergeWithInfiniteSize(s, data, s.outputPath + "x");
  }

  /** A string output path and an infinite size: the merge succeeds, takes the path and keeps the size limit. */
  lemma MergeWithInfiniteSize(s: Settings, data: Document, path: string)
    requires OutputPath in data && data[OutputPath] == Str(path)
    requires MaxSizeKb in data && IntOverflows(data[MaxSizeKb])
    ensures Merge(s, data).Success?
    ensures Merge(s, data).value.maxSizeKb == s.maxSizeKb && Merge(s, data).value.outputPath == path
  {
    var t := MergeScalars(s, data, path);
    assert IntOf(Get(data, MaxSizeKb, Int(s.maxSizeKb))).None?;
    assert t.maxSizeKb == s.maxSizeKb && t.outputPath == path;
  }

  /** `text.replace(c, replacement)` for a one-character `c`. */
  function ReplaceChar(text: string, c: char, replacement: string): (r: string)
    ensures c !in replacement ==> c !in r
  {
    if text == [] then [] else (if text[0] == c then replacement else [text[0]]) + ReplaceChar(text[1..], c, replacement)
  }

  lemma {:induction false} ReplaceCharAppend(a: string, b: string, c: char, replacement: string)
    ensures ReplaceChar(a + b, c, replacement) == ReplaceChar(a, c, replacement) + ReplaceChar(b, c, replacement)
  {
    if a != [] {
      var head := if a[0] == c then replacement else [a[0]];
      assert (a + b)[0] == a[0] && (a + b)[1..] == a[1..] + b;
      assert ReplaceChar(a + b, c, replacement) == head + ReplaceChar(a[1..] + b, c, replacement);
      ReplaceCharAppend(a[1..], b, c, replacement);
      ConcatAssociative(head, ReplaceChar(a[1..], c, replacement), ReplaceChar(b, c, replacement));
    } else {
      assert a + b == b;
    }
  }

  /** `_escape`: backslashes are doubled first, then every double quote gets a backslash. */
  function Escape(text: string): string {
    ReplaceChar(ReplaceChar(text, '\\', "\\\\"), '"', "\\\"")
  }

  /** What a TOML basic string reader makes of the two escapes `_escape` writes. */
  function Unescape(text: string): string {
    if text == [] then []
    else if text[0] == '\\' && |text| >= 2 then [text[1]] + Unescape(text[2..])
    else [text[0]] + Unescape(text[1..])
  }

  /** One character of `_escape`'s output at a time. */
  lemma EscapeCons(c: char, rest: string)
    ensures Escape([c] + rest) == (if c == '\\' then "\\\\" else if c == '"' then "\\\"" else [c]) + Escape(rest)
  {
    ReplaceCharAppend([c], rest, '\\', "\\\\");
    var head := ReplaceChar([c], '\\', "\\\\");
    ReplaceCharAppend(head, ReplaceChar(rest, '\\', "\\\\"), '"', "\\\"");
    assert ReplaceChar([c], '\\', "\\\\") == (if c == '\\' then "\\\\" else [c]) + ReplaceChar([], '\\', "\\\\");
    if c == '\\' {
      assert ReplaceChar(head, '"', "\\\"") == head by {
        assert head == ['\\'] + ['\\'];
        assert head[1..] == ['\\'];
      }
    } else {
      assert head == [c];
    }
  }

  /** Reading an escaped string back gives the original text: nothing `_escape` writes is ambiguous. */
  lemma {:induction false} UnescapeEscape(text: string)
    ensures Unescape(Escape(text)) == text
  {
    if text != [] {
      var c := text[0];
      var rest := text[1..];
      assert text == [c] + rest;
      EscapeCons(c, rest);
      UnescapeEscape(rest);
      var e := Escape(text);
      if c == '\\' || c == '"' {
        assert e[0] == '\\' && e[1] == c && e[2..] == Escape(rest);
      } else {
        assert e[0] == c && e[1..] == Escape(rest);
      }
    }
  }

  /** A value the manual writer can render: a list must hold strings, since `_escape` calls `replace` on each entry. */
  predicate Renderable(v: Value) {
    v.List? ==> forall k :: 0 <= k < |v.items| ==> v.items[k].Str?
  }

  /** A string written as a TOML basic string. */
  function Quoted(text: string): (r: string)
    ensures |r| >= 2 && r[0] == '"' && r[|r| - 1] == '"' && Unescape(r[1..|r| - 1]) == text
  {
    var r := "\"" + Escape(text) + "\"";
    assert r[1..|r| - 1] == Escape(text);
    UnescapeEscape(text);
    r
  }

  function QuotedAll(items: seq<Value>): (r: seq<string>)
    requires forall k :: 0 <= k < |items| ==> items[k].Str?
    ensures |r| == |items| && forall k :: 0 <= k < |items| ==> r[k] == Quoted(items[k].s)
  {
    if items == [] then [] else [Quoted(items[0].s)] + QuotedAll(items[1..])
  }

  /**
   * One value as the manual writer renders it: booleans (tested before
   * integers) as `true`/`false`, integers in decimal, lists as their
   * quoted, escaped entries between brackets, anything else as its
   * quoted, escaped `str()`.
   */
  function RenderValue(v: Value): string
    requires Renderable(v)
  {
    match v
    case Bool(b) => if b then "true" else "false"
    case Int(i) => IntToString(i)
    case List(items) => "[" + Join(QuotedAll(items), ", ") + "]"
    case _ => Quoted(ToStr(v))
  }

  /** Rendered values read back: integers parse to themselves, strings unescape to themselves. */
  lemma RenderValueReadsBack(v: Value)
    requires Renderable(v)
    ensures var r := RenderValue(v);
      && (v.Bool? ==> r == (if v.b then "true" else "false"))
      && (v.Int? ==> ParseInt(r) == Some(v.i))
      && (v.Str? ==> |r| >= 2 && r[0] == '"' && r[|r| - 1] == '"' && Unescape(r[1..|r| - 1]) == v.s)
      && (v.List? ==> |r| >= 2 && r[0] == '[' && r[|r| - 1] == ']')
  {
    match v {
      case Int(i) => ParseIntRoundTrip(i);
      case Str(s) => assert ToStr(v) == s;
      case _ =>
    }
  }

  /** The dictionary `save_config` builds: its keys in insertion order and the value under each. */
  datatype Dict = Dict(keys: seq<Key>, values: Document)

  predicate Writable(d: Dict) {
    forall i :: 0 <= i < |d.keys| ==> d.keys[i] in d.values && Renderable(d.values[d.keys[i]])
  }

  /** The `key = value` line the manual writer emits for the `i`-th key. */
  function Line(d: Dict, i: int): string
    requires Writable(d) && 0 <= i < |d.keys|
  {
    Name(d.keys[i]) + " = " + RenderValue(d.values[d.keys[i]])
  }

  /** The `key = value` lines of the manual writer, one per key, in dictionary order. */
  function Lines(d: Dict): (r: seq<string>)
    requires Writable(d)
    ensures |r| == |d.keys| && forall i :: 0 <= i < |d.keys| ==> r[i] == Line(d, i)
  {
    seq(|d.keys|, i requires 0 <= i < |d.keys| && Writable(d) => Line(d, i))
  }

  /** The manual fallback of `save_config`: the lines joined by newlines, with a final newline. */
  method RenderManual(d: Dict) returns (text: string)
    requires Writable(d)
    ensures text == Join(Lines(d), "\n") + "\n"
  {
    var lines: seq<string> := [];
    for i := 0 to |d.keys|
      invariant lines == Lines(d)[..i]
    {
      var line := Name(d.keys[i]) + " = " + RenderValue(d.values[d.keys[i]]);
      PrefixStep(Lines(d), i);
      lines := lines + [line];
    }
    PrefixWhole(Lines(d));
    text := Join(lines, "\n") + "\n";
  }

  /** `list()` of a set: its elements in an order the hash table decides. */
  type Listing = set<string> -> seq<string>

  predicate Enumerates(listing: Listing, t: set<string>) {
    Elements(listing(t)) == t
  }

  function Strs(xs: seq<string>): (r: seq<Value>)
    ensures |r| == |xs| && forall k :: 0 <= k < |xs| ==> r[k] == Str(xs[k])
  {
    seq(|xs|, k requires 0 <= k < |xs| => Str(xs[k]))
  }

  /** `m` with `key` mapped to the listed elements of `t`, when `t` is set. */
  function WithSkip(m: Document, key: Key, t: Option<set<string>>, listing: Listing): Document {
    if t.Some? then m[key := List(Strs(listing(t.value)))] else m
  }

  /** `[key]` when `t` is set, otherwise nothing. */
  function SkipKey(key: Key, t: Option<set<string>>): seq<Key> {
    if t.Some? then [key] else []
  }

  predicate AllRenderable(m: Document) {
    forall k :: k in m ==> Renderable(m[k])
  }

  /**
   * The dictionary `save_config` builds, as written: `list()` of an unset
   * skip set raises TypeError, so saving fails whenever one is unset, as it
   * is in a fresh state.
   */
  function SaveDataAsWritten(s: Settings, listing: Listing): (r: Result<Dict>)
    ensures r.Failure? <==> s.skipExtensions.None? || s.skipPatterns.None? || s.skipFiles.None?
    ensures r.Success? ==> r.value.keys == Order
  {
    if s.skipExtensions.None? || s.skipPatterns.None? || s.skipFiles.None? then
      Failure("TypeError: 'NoneType' object is not iterable")
    else
      SaveDataFull(s, listing);
      Success(SaveData(s, listing))
  }

  /**
   * The dictionary `save_config` is meant to build: every setting it
   * persists, in the order it writes them, with an unset skip set left out
   * so that loading the file back keeps the extractor defaults.
   */
  function SaveData(s: Settings, listing: Listing): (d: Dict)
    ensures SkipExtensions in d.values <==> s.skipExtensions.Some?
    ensures SkipPatterns in d.values <==> s.skipPatterns.Some?
    ensures SkipFiles in d.values <==> s.skipFiles.Some?
  {
    var values := WithSkip(WithSkip(WithSkip(FixedData(s), SkipExtensions, s.skipExtensions, listing),
                                    SkipPatterns, s.skipPatterns, listing),
                           SkipFiles, s.skipFiles, listing);
    Dict(Front + SkipKeys(s) + Back, values)
  }

  /** The skip sets that are set, in the order `save_config` writes them. */
  function SkipKeys(s: Settings): seq<Key> {
    SkipKey(SkipExtensions, s.skipExtensions) + SkipKey(SkipPatterns, s.skipPatterns) + SkipKey(SkipFiles, s.skipFiles)
  }

  /** The settings that are always written. */
  function FixedData(s: Settings): Document {
    map[
      OutputPath := Str(s.outputPath), MaxSizeKb := Int(s.maxSizeKb), CompactMode := Bool(s.compactMode),
      SkipEmpty := Bool(s.skipEmpty), UseGitignore := Bool(s.useGitignore),
      IncludePatterns := List(Strs(s.includePatterns)), ExcludePatterns := List(Strs(s.excludePatterns)),
      TokenizerModel := Str(s.tokenizerModel), EnableTokenCount := Bool(s.enableTokenCount),
      CopyToClipboard := Bool(s.copyToClipboard)]
  }

  /** The value saved under a key other than the skip sets. */
  function FixedValue(s: Settings, k: Key): Value
    requires !k.SkipExtensions? && !k.SkipPatterns? && !k.SkipFiles?
  {
    match k
    case OutputPath => Str(s.outputPath)
    case MaxSizeKb => Int(s.maxSizeKb)
    case CompactMode => Bool(s.compactMode)
    case SkipEmpty => Bool(s.skipEmpty)
    case UseGitignore => Bool(s.useGitignore)
    case IncludePatterns => List(Strs(s.includePatterns))
    case ExcludePatterns => List(Strs(s.excludePatterns))
    case TokenizerModel => Str(s.tokenizerModel)
    case EnableTokenCount => Bool(s.enableTokenCount)
    case CopyToClipboard => Bool(s.copyToClipboard)
  }

  /** With every skip set set, every key is saved, in order. */
  lemma SaveDataFull(s: Settings, listing: Listing)
    requires s.skipExtensions.Some? && s.skipPatterns.Some? && s.skipFiles.Some?
    ensures SaveData(s, listing).keys == Order
  {
    assert Front + [SkipExtensions] + [SkipPatterns] + [SkipFiles] + Back == Order;
  }

  /** Every value `save_config` writes can be rendered by the manual writer. */
  lemma SaveDataWritable(s: Settings, listing: Listing)
    ensures Writable(SaveData(s, listing))
  {
    var m := FixedData(s);
    assert AllRenderable(m);
    var m1 := WithSkip(m, SkipExtensions, s.skipExtensions, listing);
    assert AllRenderable(m1);
    var m2 := WithSkip(m1, SkipPatterns, s.skipPatterns, listing);
    assert AllRenderable(m2);
    var m3 := WithSkip(m2, SkipFiles, s.skipFiles, listing);
    assert AllRenderable(m3);
    var d := SaveData(s, listing);
    assert m3 == d.values;
    assert forall k :: k in Front ==> k in m;
    assert forall k :: k in Back ==> k in m;
    assert forall k :: k in Front + Back ==> k in m3;
    assert forall k :: k in SkipKeys(s) ==> k in m3;
    assert forall k :: k in d.keys ==> k in m3;
    assert forall i :: 0 <= i < |d.keys| ==> d.keys[i] in d.keys;
  }

  /** A fresh state cannot be saved as written; the intended dictionary leaves its three unset skip sets out. */
  lemma FreshStateSave(listing: Listing)
    ensures SaveDataAsWritten(Defaults(), listing).Failure?
    ensures SaveData(Defaults(), listing).keys == Front + Back
  {
  }

  /** When every skip set is set, the as-written dictionary is the intended one. */
  lemma SaveAgreesWhenSet(s: Settings, listing: Listing)
    requires s.skipExtensions.Some? && s.skipPatterns.Some? && s.skipFiles.Some?
    ensures SaveDataAsWritten(s, listing) == Success(SaveData(s, listing))
  {
  }

  /** The settings a saved file restores on a fresh start: everything but the source root, `force_include` and the last statistics. */
  function Persisted(s: Settings): Settings {
    s.(sourceRoot := Defaults().sourceRoot, forceInclude := Defaults().forceInclude, lastStats := None)
  }

  /** A key other than the skip sets is always saved, with its fixed value. */
  lemma SavedFixed(s: Settings, listing: Listing, k: Key)
    requires !k.SkipExtensions? && !k.SkipPatterns? && !k.SkipFiles?
    ensures k in SaveData(s, listing).values && SaveData(s, listing).values[k] == FixedValue(s, k)
  {
    var m := FixedData(s);
    assert k in m && m[k] == FixedValue(s, k) by {
      match k {
        case OutputPath =>
        case MaxSizeKb =>
        case CompactMode =>
        case SkipEmpty =>
        case UseGitignore =>
        case IncludePatterns =>
        case ExcludePatterns =>
        case TokenizerModel =>
        case EnableTokenCount =>
        case CopyToClipboard =>
      }
    }
    var m1 := WithSkip(m, SkipExtensions, s.skipExtensions, listing);
    WithSkipKeeps(m, SkipExtensions, s.skipExtensions, listing, k);
    var m2 := WithSkip(m1, SkipPatterns, s.skipPatterns, listing);
    WithSkipKeeps(m1, SkipPatterns, s.skipPatterns, listing, k);
    WithSkipKeeps(m2, SkipFiles, s.skipFiles, listing, k);
  }

  /** Adding a skip set leaves every other key as it was. */
  lemma WithSkipKeeps(m: Document, key: Key, t: Option<set<string>>, listing: Listing, k: Key)
    requires k != key && k in m
    ensures k in WithSkip(m, key, t, listing) && WithSkip(m, key, t, listing)[k] == m[k]
  {
  }

  /** The values the saved dictionary holds, key by key. */
  lemma SavedScalars(s: Settings, listing: Listing)
    ensures var m := SaveData(s, listing).values;
      && OutputPath in m && m[OutputPath] == Str(s.outputPath)
      && MaxSizeKb in m && m[MaxSizeKb] == Int(s.maxSizeKb)
      && CompactMode in m && m[CompactMode] == Bool(s.compactMode)
      && SkipEmpty in m && m[SkipEmpty] == Bool(s.skipEmpty)
      && UseGitignore in m && m[UseGitignore] == Bool(s.useGitignore)
  {
    SavedSizes(s, listing);
    SavedLayout(s, listing);
  }

  lemma SavedSizes(s: Settings, listing: Listing)
    ensures var m := SaveData(s, listing).values;
      && OutputPath in m && m[OutputPath] == Str(s.outputPath)
      && MaxSizeKb in m && m[MaxSizeKb] == Int(s.maxSizeKb)
  {
    var m := SaveData(s, listing).values;
    assert OutputPath in m && m[OutputPath] == Str(s.outputPath) by {
      SavedFixed(s, listing, OutputPath);
    }
    assert MaxSizeKb in m && m[MaxSizeKb] == Int(s.maxSizeKb) by {
      SavedFixed(s, listing, MaxSizeKb);
    }
  }

  lemma SavedLayout(s: Settings, listing: Listing)
    ensures var m := SaveData(s, listing).values;
      && CompactMode in m && m[CompactMode] == Bool(s.compactMode)
      && SkipEmpty in m && m[SkipEmpty] == Bool(s.skipEmpty)
      && UseGitignore in m && m[UseGitignore] == Bool(s.useGitignore)
  {
    var m := SaveData(s, listing).values;
    assert CompactMode in m && m[CompactMode] == Bool(s.compactMode) by {
      SavedFixed(s, listing, CompactMode);
    }
    assert SkipEmpty in m && m[SkipEmpty] == Bool(s.skipEmpty) by {
      SavedFixed(s, listing, SkipEmpty);
    }
    assert UseGitignore in m && m[UseGitignore] == Bool(s.useGitignore) by {
      SavedFixed(s, listing, UseGitignore);
    }
  }

  lemma SavedLists(s: Settings, listing: Listing)
    ensures var m := SaveData(s, listing).values;
      && IncludePatterns in m && m[IncludePatterns] == List(Strs(s.includePatterns))
      && ExcludePatterns in m && m[ExcludePatterns] == List(Strs(s.excludePatterns))
      && TokenizerModel in m && m[TokenizerModel] == Str(s.tokenizerModel)
      && EnableTokenCount in m && m[EnableTokenCount] == Bool(s.enableTokenCount)
      && CopyToClipboard in m && m[CopyToClipboard] == Bool(s.copyToClipboard)
  {
    var m := SaveData(s, listing).values;
    assert IncludePatterns in m && m[IncludePatterns] == List(Strs(s.includePatterns)) by {
      SavedFixed(s, listing, IncludePatterns);
    }
    assert ExcludePatterns in m && m[ExcludePatterns] == List(Strs(s.excludePatterns)) by {
      SavedFixed(s, listing, ExcludePatterns);
    }
    assert TokenizerModel in m && m[TokenizerModel] == Str(s.tokenizerModel) by {
      SavedFixed(s, listing, TokenizerModel);
    }
    assert EnableTokenCount in m && m[EnableTokenCount] == Bool(s.enableTokenCount) by {
      SavedFixed(s, listing, EnableTokenCount);
    }
    assert CopyToClipboard in m && m[CopyToClipboard] == Bool(s.copyToClipboard) by {
      SavedFixed(s, listing, CopyToClipboard);
    }
  }

  lemma SavedSkipSet(s: Settings, listing: Listing, k: Key, t: Option<set<string>>)
    requires k.SkipExtensions? || k.SkipPatterns? || k.SkipFiles?
    requires t == (if k.SkipExtensions? then s.skipExtensions else if k.SkipPatterns? then s.skipPatterns else s.skipFiles)
    ensures var m := SaveData(s, listing).values;
      && (k in m <==> t.Some?)
      && (k in m ==> m[k] == List(Strs(listing(t.value))))
  {
  }

  lemma RestoreScalars(t: Settings, s: Settings, data: Document)
    requires OutputPath in data && data[OutputPath] == Str(s.outputPath)
    requires MaxSizeKb in data && data[MaxSizeKb] == Int(s.maxSizeKb)
    requires CompactMode in data && data[CompactMode] == Bool(s.compactMode)
    requires SkipEmpty in data && data[SkipEmpty] == Bool(s.skipEmpty)
    requires UseGitignore in data && data[UseGitignore] == Bool(s.useGitignore)
    ensures MergeScalars(t, data, s.outputPath)
            == t.(outputPath := s.outputPath, maxSizeKb := s.maxSizeKb, compactMode := s.compactMode,
                  skipEmpty := s.skipEmpty, useGitignore := s.useGitignore)
  {
    IntOfToStr(s.maxSizeKb);
  }

  lemma RestorePatterns(t: Settings, s: Settings, data: Document)
    requires IncludePatterns in data && data[IncludePatterns] == List(Strs(s.includePatterns))
    requires ExcludePatterns in data && data[ExcludePatterns] == List(Strs(s.excludePatterns))
    ensures MergePatterns(t, data) == t.(includePatterns := s.includePatterns, excludePatterns := s.excludePatterns)
  {
    StrAllOfStrings(s.includePatterns);
    StrAllOfStrings(s.excludePatterns);
  }

  /** A skip set written by `save_config` and read back by `apply_config` is the set itself, or stays unset. */
  lemma RestoreSkipSet(t: Option<set<string>>, listing: Listing, data: Document, k: Key, current: Option<set<string>>)
    requires t.Some? ==> Enumerates(listing, t.value)
    requires k in data <==> t.Some?
    requires k in data ==> data[k] == List(Strs(listing(t.value)))
    requires t.None? ==> current.None?
    ensures SetAt(data, k, current) == t
  {
    if t.Some? {
      StrAllOfStrings(listing(t.value));
    }
  }

  /** The three skip sets read back over settings where none is set are the saved ones. */
  lemma RestoreSkipSets(s: Settings, listing: Listing, t: Settings)
    requires s.skipExtensions.Some? ==> Enumerates(listing, s.skipExtensions.value)
    requires s.skipPatterns.Some? ==> Enumerates(listing, s.skipPatterns.value)
    requires s.skipFiles.Some? ==> Enumerates(listing, s.skipFiles.value)
    requires t.skipExtensions.None? && t.skipPatterns.None? && t.skipFiles.None?
    ensures MergeSkipSets(t, SaveData(s, listing).values)
            == t.(skipExtensions := s.skipExtensions, skipPatterns := s.skipPatterns, skipFiles := s.skipFiles)
  {
    var data := SaveData(s, listing).values;
    SavedSkipSet(s, listing, SkipExtensions, s.skipExtensions);
    RestoreSkipSet(s.skipExtensions, listing, data, SkipExtensions, t.skipExtensions);
    SavedSkipSet(s, listing, SkipPatterns, s.skipPatterns);
    RestoreSkipSet(s.skipPatterns, listing, data, SkipPatterns, t.skipPatterns);
    SavedSkipSet(s, listing, SkipFiles, s.skipFiles);
    RestoreSkipSet(s.skipFiles, listing, data, SkipFiles, t.skipFiles);
  }

  lemma RestoreTail(t: Settings, s: Settings, data: Document)
    requires TokenizerModel in data && data[TokenizerModel] == Str(s.tokenizerModel)
    requires EnableTokenCount in data && data[EnableTokenCount] == Bool(s.enableTokenCount)
    requires CopyToClipboard in data && data[CopyToClipboard] == Bool(s.copyToClipboard)
    ensures MergeTail(t, data) == t.(tokenizerModel := s.tokenizerModel, enableTokenCount := s.enableTokenCount,
                                     copyToClipboard := s.copyToClipboard)
  {
  }

  /**
   * Saving and loading into a fresh state restores every persisted
   * setting, whatever order `list()` gives the skip sets in.
   */
  lemma SaveThenApply(s: Settings, listing: Listing)
    requires s.skipExtensions.Some? ==> Enumerates(listing, s.skipExtensions.value)
    requires s.skipPatterns.Some? ==> Enumerates(listing, s.skipPatterns.value)
    requires s.skipFiles.Some? ==> Enumerates(listing, s.skipFiles.value)
    ensures Merge(Defaults(), SaveData(s, listing).values) == Success(Persisted(s))
  {
    var data := SaveData(s, listing).values;
    var d := Defaults();
    var s1 := MergeScalars(d, data, s.outputPath);
    assert s1 == d.(outputPath := s.outputPath, maxSizeKb := s.maxSizeKb, compactMode := s.compactMode,
                    skipEmpty := s.skipEmpty, useGitignore := s.useGitignore) by {
      SavedScalars(s, listing);
      RestoreScalars(d, s, data);
    }
    var s2 := MergePatterns(s1, data);
    assert s2 == s1.(includePatterns := s.includePatterns, excludePatterns := s.excludePatterns) by {
      SavedLists(s, listing);
      RestorePatterns(s1, s, data);
    }
    var s3 := MergeSkipSets(s2, data);
    assert s3 == s2.(skipExtensions := s.skipExtensions, skipPatterns := s.skipPatterns, skipFiles := s.skipFiles) by {
      RestoreSkipSets(s, listing, s2);
    }
    assert MergeTail(s3, data) == s3.(tokenizerModel := s.tokenizerModel, enableTokenCount := s.enableTokenCount,
                                      copyToClipboard := s.copyToClipboard) by {
      SavedLists(s, listing);
      RestoreTail(s3, s, data);
    }
    assert data != map[] && OutputPath in data && data[OutputPath] == Str(s.outputPath) by {
      SavedScalars(s, listing);
    }
  }
}
