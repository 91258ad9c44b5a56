# Proxtract, modelled in Dafny

Proxtract collects the text files of a project tree into a single document for a
language model. It has a command-line shell, a `/settings`-style command set and a
Textual user interface. This project models the parts of it that make decisions:

- the `FileExtractor` rule chain that decides which files are skipped, and why
  (`Rules`);
- the binary-file classifier and the encoding fallbacks used when a file is read
  (`Classifier`);
- the per-file loop of `extract`: the document it writes, the statistics it
  keeps, and how a failed read aborts the run (`Extraction`, `Accounting`);
- the `skipped` summary and `as_dict` of `ExtractionStats` (`Stats`);
- `normalize_bool` (`Utils`);
- the `AppState` settings object, with its `create_extractor`,
  `set_output_path` and `set_patterns` (`State`);
- `apply_config` and `save_config` (`Config`);
- the `/settings`, `/include` and `/exclude` commands and their pattern editor
  (`Commands`);
- the interactive shell: tokenizing, command dispatch, `set`, `show`,
  `extract`, and word completion (`Interactive`);
- the settings form (`SettingsScreen`) and the responsive breakpoints of the
  main screen (`MainScreen`).

Python's own string and number behaviour lives in `Strings`, `Numbers` and
`Values`:

- `str.strip`, `str.lower` on ASCII, `str.split`, `", ".join`;
- `int()` on text, including `_` digit groups and surrounding whitespace;
- `bool()`, `str()` and `repr()` on the values a TOML document holds.

Code the model cannot see becomes a parameter:

- `fnmatch` is a `Glob` predicate;
- the loaded `.gitignore` spec is a matcher;
- the codecs are a decoding function plus `str.isprintable`;
- `tiktoken` is a token-counting function;
- `shlex.split` is a function that may fail;
- whether a path exists is `pathExists`;
- the statistics an extraction run returned are `extracted`.

Stateful code is modelled as classes:

- `AppState` is a class whose fields the commands assign.
- `SettingsForm` holds the state object the form edits.
- `Screen` holds the three breakpoint classes.

The loops of the source are methods proved against specification functions:

- `Extract`, `Visit`, `IsTextFile`, `CountControls` and `ReadFileContent`;
- `Skipped`;
- `Mutate`;
- `RenderManual`;
- `CompleteFromWords`.

`state.py` as given declares no `source_root` field and no `set_source_root`
method, although `interactive.py` reads and calls both. The model adds a
`sourceRoot` field that starts at the working directory `"."`.

## Model

| member | source | states |
|---|---|---|
| Rules.LowerAll | src/proxtract/core.py:155-160 | every given extension is present lower-cased, and nothing else is |
| Rules.NewExtractor | src/proxtract/core.py:101-166 | the limit is the KB figure times 1024; the switches and the model are kept; absent pattern lists are empty; the extension set is exactly the lower-cased given (or default) extensions; an absent skip set falls back to its default set |
| Rules.LastDot | src/proxtract/core.py:200 | the index of the last dot of a name, or -1 when it has none |
| Rules.Suffix | src/proxtract/core.py:200 | `Path.suffix`: empty, or a dot-led tail of the name, shorter than the name, holding no other dot |
| Rules.MatchAny | src/proxtract/core.py:172-177 | true exactly when some pattern in the list matches the relative path |
| Rules.ShouldSkipFirstMatch | src/proxtract/core.py:179-223 | the verdict is skip-for-rule-k exactly when rule k applies and no earlier rule of the chain does |
| Rules.ShouldSkip | src/proxtract/core.py:179-223 | `_should_skip`: its meaning is stated by `Rules.ShouldSkipFirstMatch`, `Rules.ShouldSkipKeep` and `Rules.ShouldSkipUnreadable` against the independent rule chain `Chain`/`Fires` |
| Rules.ShouldSkipKeep | src/proxtract/core.py:179-223 | a file is kept exactly when its `stat` succeeds and no rule of the chain applies |
| Rules.ShouldSkipUnreadable | src/proxtract/core.py:212-215 | a failed `stat` is reported exactly when none of the six path rules applied first |
| Rules.ForcedIncludeOnlySizeRules | src/proxtract/core.py:181-223 | with an include override and `force_include`, only the empty-file and size rules can skip a file, and a failed `stat` is reported as unreadable |
| Rules.OverrideSkipsNameRules | src/proxtract/core.py:183-210 | an include override bypasses the name, extension, path and not-included rules, but not the exclude patterns |
| Rules.SizeLimitInclusive | src/proxtract/core.py:220-221 | a file no larger than the limit is never skipped as too large, and a larger one is never kept |
| Rules.HiddenRootRejectsAll | src/proxtract/core.py:208-210 | a root under a dot-directory skips every file that has no include override |
| Classifier.Sample | src/proxtract/core.py:237-242 | the analysed sample is a prefix of the file, at most 8192 bytes and at most the reported size |
| Classifier.CountByte | src/proxtract/core.py:286 | `data.count(b)` is bounded by the length, and is zero exactly when the byte is absent |
| Classifier.ControlCount | src/proxtract/core.py:297 | the number of control characters never exceeds the length of the text |
| Classifier.CountControls | src/proxtract/core.py:297 | the counting loop returns exactly the control-character count |
| Classifier.IsTextFile | src/proxtract/core.py:225-305 | the loop over signatures, the NUL ratio and the five encodings gives the classifier's verdict |
| Classifier.IsText | src/proxtract/core.py:225-305 | `_is_text_file` as a predicate; `Classifier.IsTextFile` proves the loop equals it and `Classifier.EmptyFileIsText`, `Classifier.SignatureMeansBinary`, `Classifier.NullsMeanBinary` state its cases |
| Classifier.Universal | src/proxtract/core.py:312-313 | newline translation on reading leaves no carriage return and never lengthens the text |
| Classifier.UniversalIdentity | src/proxtract/core.py:312-313 | text without carriage returns reads back unchanged |
| Classifier.UniversalIdempotent | src/proxtract/core.py:312-313 | translating twice is translating once |
| Classifier.ReadFileContent | src/proxtract/core.py:307-316 | the loop over UTF-8, CP1251 and Latin-1 gives the reading outcome |
| Classifier.ReadContent | src/proxtract/core.py:307-316 | `_read_file_content` as a function; specified by `Classifier.ReadContentCases` and `Classifier.ReadableFileDecodes`, and computed by `Classifier.ReadFileContent` |
| Classifier.ReadContentCases | src/proxtract/core.py:307-316 | a permission error gives the placeholder; another read error is fatal; a readable file gives its first successful decoding |
| Classifier.ReadableFileDecodes | src/proxtract/core.py:309-316 | because Latin-1 decodes everything, a readable file never yields the placeholder |
| Classifier.EmptyFileIsText | src/proxtract/core.py:234-235 | an empty file is text |
| Classifier.SignatureMeansBinary | src/proxtract/core.py:246-280 | a sample that starts with a known magic number is binary |
| Classifier.NullsMeanBinary | src/proxtract/core.py:284-288 | a sample with more than one NUL byte in ten is binary |
| Classifier.NullRatioBoundary | src/proxtract/core.py:287 | exactly one NUL in ten bytes is still allowed: the ratio must exceed a tenth |
| Stats.Fold | src/proxtract/core.py:55-68 | a reason is folded into one of the ten canonical reasons, and a canonical one is kept as it is |
| Stats.Skipped | src/proxtract/core.py:50-72 | the loop's counts are, per canonical reason, the non-zero number of paths folded into it |
| Stats.SkippedCounts | src/proxtract/core.py:50-72 | the `skipped` summary built entry by entry; `Stats.SkippedAddsUp` proves it equals the per-reason totals, canonical and positive |
| Stats.TotalsAddUp | src/proxtract/core.py:50-72 | every skipped path is counted under exactly one canonical reason |
| Stats.SkippedAddsUp | src/proxtract/core.py:50-72 | the summary holds only canonical reasons with positive counts, and its counts sum to the number of skipped paths |
| Stats.OtherCollects | src/proxtract/core.py:68 | a non-canonical reason adds its paths to "other" and to no other key |
| Stats.AsDict | src/proxtract/core.py:74-91 | the eight fixed entries in order with their values (`processed_files` the number of processed paths, `skipped` the folded counts), then `token_count` and `token_model` each exactly when set, in that order |
| Stats.AsDictKeysDistinct | src/proxtract/core.py:77-90 | no key of the dictionary appears twice |
| Extraction.Rule | src/proxtract/core.py:322 | the separator is sixty `=` signs |
| Extraction.FormatCompact | src/proxtract/core.py:318-319 | the compact block is the path between dashes, then the content and a newline, laid out position by position |
| Extraction.FormatStandard | src/proxtract/core.py:321-323 | the standard block is a rule, `FILE: path`, a rule, the content and a blank line, laid out position by position |
| Extraction.Format | src/proxtract/core.py:472-473 | the formatter the loop picks by `compact_mode`; its two layouts are stated by `Extraction.FormatCompact`, `Extraction.FormatStandard` and `Extraction.FormatInjective` |
| Extraction.FormatInjective | src/proxtract/core.py:318-323 | for the same path and mode, different contents give different blocks |
| Extraction.IndexOf | src/proxtract/core.py:371 | the first position of a reason in the skipped dictionary, or None exactly when it is absent |
| Extraction.AppendPath | src/proxtract/core.py:454-465 | `defaultdict(list)` append: the path is added at the end of its reason's list; a new reason is added last; other lists are untouched; the total grows by one |
| Extraction.Run | src/proxtract/core.py:433-484 | the skipped dictionary the loop builds never holds a reason twice |
| Extraction.FailureSticks | src/proxtract/core.py:450-512 | once a file aborts the run, the later files do not change its failure |
| Extraction.Visit | src/proxtract/core.py:434-484 | one loop iteration: an aborting read fails the run, and any other file advances the tally by one step |
| Extraction.Header | src/proxtract/core.py:396-405 | the header lines written before the loop; `Accounting.RunBody` and `Accounting.EveryFileCountedOnce` place it at the start of the document |
| Extraction.Dispose | src/proxtract/core.py:433-478 | the decision for one file (ignored, own output, skipped with its key, processed, or aborted); `Accounting.RunSkipped`, `Accounting.RunProcessed` and `Accounting.RunFailsIffAborted` state the run in terms of it |
| Extraction.Step | src/proxtract/core.py:433-484 | one iteration's effect on the tally; `Accounting.RunCountsVisited` and `Accounting.RunReports` sum its effects over a run |
| Extraction.Trailer | src/proxtract/core.py:486-490 | the closing rule and totals; `Accounting.EveryFileCountedOnce` places it at the end of the committed document |
| Extraction.Extraction | src/proxtract/core.py:325-537 | the outcome of `extract`: `Extraction.Extract` computes it, and `Accounting.EveryFileCountedOnce` states what a committed outcome holds |
| Extraction.Extract | src/proxtract/core.py:325-537 | the imperative extraction loop computes exactly the specified outcome: the committed statistics and document, or the failure |
| Accounting.RunProcessed | src/proxtract/core.py:475-476 | the processed list is exactly the processable files in visiting order, and the byte total is the sum of their content lengths |
| Accounting.RunSkipped | src/proxtract/core.py:454-465 | under each reason the run lists exactly the files skipped for it, in visiting order |
| Accounting.RunCountsVisited | src/proxtract/core.py:433-484 | processed plus skipped equals the number of files visited, other than the output and temporary files |
| Accounting.RunBody | src/proxtract/core.py:396-473 | the body is the header followed by the block of every processed file, in order |
| Accounting.RunReports | src/proxtract/core.py:440-484 | progress is reported once for every file except the temporary file |
| Accounting.RunWarnings | src/proxtract/core.py:375-453 | the errors are the set-up warnings followed by each failed `stat`, in visiting order |
| Accounting.RunFailsIffAborted | src/proxtract/core.py:470-512 | the run fails exactly when some file's read raises |
| Accounting.RunFails | src/proxtract/core.py:470-512 | a run over a non-empty list fails exactly when the run over all but the last file fails or the last file's read raises |
| Accounting.EveryFileCountedOnce | src/proxtract/core.py:433-537 | in a committed extraction: processed plus skipped counts equal the visited files; the processed paths are in order; the document is header, blocks, trailer |
| Utils.NormalizeBool | src/proxtract/utils.py:11-39 | booleans pass through; numbers are true unless zero; after strip and lower a true word gives true and a false word gives false (no word is both, `Utils.WordsDisjoint`); anything else gives the default |
| Utils.WordsDisjoint | src/proxtract/utils.py:7-8 | no word is both a true word and a false word |
| Utils.DefaultMattersIffUnrecognised | src/proxtract/utils.py:11-39 | the default decides the result exactly for unrecognised values |
| Utils.NormalizeIdempotent | src/proxtract/utils.py:22-23 | normalising a normalised value changes nothing |
| Utils.NormalizeBoolText | src/proxtract/utils.py:32-37 | `str(True)` and `str(False)` read back as themselves |
| Values.TruncateReal | src/proxtract/config.py:49 | `int()` of a float truncates toward zero |
| Values.IntOf | src/proxtract/config.py:47-51 | `int()` keeps integers, maps booleans to 1 and 0, and raises on None, lists, tables, infinities and NaN |
| Values.StrAll | src/proxtract/state.py:61-63 | stringifying a list keeps its length and leaves strings as they are |
| Values.ToStr | src/proxtract/state.py:61-63 | `str()` of a value; `Values.IntOfToStr` and `Values.StrAllOfStrings` state it on integers and strings |
| Values.IntOfToStr | src/proxtract/config.py:139-140 | `int(str(i)) == i` |
| Values.StrAllOfStrings | src/proxtract/config.py:70 | stringifying a list of strings gives the same strings |
| Numbers.NatToString | src/proxtract/config.py:140 | `str(n)` is a non-empty run of digits without a leading zero |
| Numbers.ParseIntRoundTrip | src/proxtract/interactive.py:375 | `int()` reads back what `str()` wrote |
| Numbers.ParseInt | src/proxtract/interactive.py:375 | `int()` on text; `Numbers.ParseIntRoundTrip` and `Numbers.ParseIntIgnoresSpace` state it |
| Numbers.ParseIntIgnoresSpace | src/proxtract/interactive.py:375 | `int()` ignores surrounding whitespace |
| Strings.StripIdempotent | src/proxtract/interactive.py:402 | stripping twice is stripping once |
| Strings.StripBlank | src/proxtract/interactive.py:408 | a text strips to nothing exactly when it is all whitespace |
| Strings.Split | src/proxtract/interactive.py:410 | `split(",")` is never empty, has no separator inside a piece, and joins back to the text |
| Strings.Words | src/proxtract/interactive.py:117 | `split()` gives non-empty words without whitespace |
| Strings.WordsOfJoin | src/proxtract/interactive.py:117 | splitting words joined by single spaces gives the words back |
| Strings.StrippedItems | src/proxtract/interactive.py:410 | the kept items are stripped and non-blank, and there are no more of them than pieces |
| Strings.CommaItemsOfBlank | src/proxtract/interactive.py:408-410 | a blank text has no comma items |
| Strings.CommaItemsOfCommaJoin | src/proxtract/tui/screens/settings_screen.py:25-26 | splitting at commas inverts `", ".join` on stripped, non-blank, comma-free items |
| Strings.LowerIdempotent | src/proxtract/commands.py:95 | lower-casing twice is lower-casing once |
| State.Defaults | src/proxtract/state.py:16-31 | the field defaults of a fresh `AppState` |
| State.Stringified | src/proxtract/state.py:60-63 | an absent list keeps the current one; a given list is replaced item by item by its `str` |
| State.ExtractorOf | src/proxtract/state.py:33-49 | the extractor takes every setting: the limit in bytes, the same lists and switches, the model, the lower-cased extensions exactly, and the defaults where a skip set is unset |
| State.AppState.Assign | src/proxtract/state.py:12-31 | every field takes its value from the given settings |
| State.AppState.constructor | src/proxtract/state.py:16-31 | a new state holds the defaults |
| State.AppState.CreateExtractor | src/proxtract/state.py:33-49 | reads the settings into an extractor and changes nothing |
| State.AppState.SetOutputPath | src/proxtract/state.py:51-52 | only the output path changes |
| State.AppState.SetSourceRoot | src/proxtract/interactive.py:368 | only the source root changes |
| State.AppState.SetPatterns | src/proxtract/state.py:54-63 | each given list is replaced by its stringified items; everything else is kept |
| State.SetPatternsOfStrings | src/proxtract/state.py:60-63 | setting a list of strings stores exactly those strings |
| Config.SafeInt | src/proxtract/config.py:47-51 | integers pass through; a value `int()` refuses gives the default, an infinity and NaN included (the corrected reading, see Findings) |
| Config.SafeIntAsWritten | src/proxtract/config.py:47-51 | as written, `int()` of an infinity raises OverflowError out of `safe_int`; every other value gives `Config.SafeInt` |
| Config.ApplyAsWritten | src/proxtract/config.py:42-63 | as written, `apply_config` raises exactly when `Config.Merge` fails or the size is infinite; in the latter case the new output path is already assigned; otherwise it gives the merged settings |
| Config.InfiniteSizeLeavesPartialUpdate | src/proxtract/config.py:60-63 | a document with a new output path and `max_size_kb = inf` raises as written yet changes the output path; the corrected merge applies it and keeps the size limit |
| Config.MergeWithInfiniteSize | src/proxtract/config.py:47-63 | with `safe_int` reading an overflow as the default, a string output path and an infinite size merge successfully: the path is taken and the size limit kept |
| Config.SafeBool | src/proxtract/config.py:54-58 | Python truthiness: a boolean is itself, a string is true unless empty, an integer is true unless zero |
| Config.FalseTextReadAsTrue | src/proxtract/config.py:54-58 | the text "false" switches an option on, whereas `normalize_bool` reads it as off |
| Config.SafeBoolAgreesOnBooleans | src/proxtract/config.py:54-58 | on real booleans `safe_bool` and `normalize_bool` agree |
| Config.ListAt | src/proxtract/config.py:68-87 | a list is read under a key exactly when the key holds a list |
| Config.MergeScalars | src/proxtract/config.py:60-66 | output path, size and three switches are read; an absent key keeps the old value; nothing else changes |
| Config.MergePatterns | src/proxtract/config.py:68-74 | each pattern list is replaced only by a list, stringified; nothing else changes |
| Config.MergeSkipSets | src/proxtract/config.py:76-87 | each skip set is replaced only by a list, as the set of its stringified items; nothing else changes |
| Config.MergeTail | src/proxtract/config.py:89-91 | the model goes through `str`, and the two switches are read; absent keys keep the old values; nothing else changes |
| Config.Merge | src/proxtract/config.py:42-92 | an empty document changes nothing; a non-string output path fails, before any assignment; success keeps `force_include`, the source root and the statistics (with `safe_int` reading an overflow as the default) |
| Config.ApplyConfig | src/proxtract/config.py:42-92 | the state becomes the merged settings on success, and is untouched on failure |
| Config.ReplaceChar | src/proxtract/config.py:133 | after replacing a character with text that lacks it, the character is gone |
| Config.UnescapeEscape | src/proxtract/config.py:132-133 | reading the TOML escapes back gives the original text |
| Config.Escape | src/proxtract/config.py:132-133 | `_escape`; `Config.UnescapeEscape` proves TOML unescaping undoes it |
| Config.Quoted | src/proxtract/config.py:142-144 | a quoted string starts and ends with `"` and unescapes to the text |
| Config.RenderValueReadsBack | src/proxtract/config.py:136-145 | booleans render as true/false; integers read back; strings are quoted and unescape to themselves; lists are bracketed |
| Config.RenderValue | src/proxtract/config.py:136-145 | one value as the manual writer renders it; `Config.RenderValueReadsBack` states what reads back |
| Config.Lines | src/proxtract/config.py:135-145 | the writer emits one line per key |
| Config.RenderManual | src/proxtract/config.py:147-149 | the loop writes the lines joined by newlines, with a final newline |
| Config.SaveDataAsWritten | src/proxtract/config.py:99-113 | as written, the dictionary fails exactly when some skip set is unset; otherwise it has every key, in order |
| Config.SaveData | src/proxtract/config.py:99-113 | the corrected dictionary holds a skip-set key exactly when that set is set |
| Config.SaveDataFull | src/proxtract/config.py:99-113 | with every skip set set, every key is saved, in order |
| Config.SaveDataWritable | src/proxtract/config.py:132-145 | everything saved can be rendered by the manual writer |
| Config.FreshStateSave | src/proxtract/config.py:105-109 | a fresh state cannot be saved as written; the corrected dictionary leaves out its three unset sets |
| Config.SaveAgreesWhenSet | src/proxtract/config.py:99-113 | with every skip set set, the as-written and the corrected dictionaries agree |
| Config.SavedScalars | src/proxtract/config.py:100-104 | the saved values of the output path, the size and the three switches |
| Config.SavedLists | src/proxtract/config.py:105-112 | the saved pattern lists, model name and last two switches |
| Config.SavedSkipSet | src/proxtract/config.py:107-109 | a skip set is saved exactly when it is set, as the listing of its elements |
| Config.RestoreScalars | src/proxtract/config.py:60-66 | loading saved scalars restores them |
| Config.RestorePatterns | src/proxtract/config.py:68-74 | loading saved pattern lists restores them |
| Config.RestoreSkipSet | src/proxtract/config.py:76-87 | loading a saved skip set restores it, in whatever order `list()` gave its elements |
| Config.RestoreTail | src/proxtract/config.py:89-91 | loading the saved model and switches restores them |
| Config.SaveThenApply | src/proxtract/config.py:42-113 | saving, then applying to a fresh state, restores every persisted setting |
| Commands.FirstIndex | src/proxtract/commands.py:193 | the first position of an element |
| Commands.ParseBool | src/proxtract/commands.py:80-81 | only texts of one to four characters switch on; the word sets it accepts are stated by `Interactive.LenientWords` |
| Commands.ParseBoolIgnoresCase | src/proxtract/commands.py:80-81 | letter case does not matter |
| Commands.RemoveFirst | src/proxtract/commands.py:193 | `list.remove` deletes the first occurrence only |
| Commands.RemoveFirstCount | src/proxtract/commands.py:193 | removing takes away exactly one copy of the pattern |
| Commands.Mutated | src/proxtract/commands.py:181-202 | each operation's list and message: clear empties; add keeps the old list as a prefix; remove takes one copy; a missing pattern or unknown operation leaves the list alone; only list gives no message |
| Commands.AddAppends | src/proxtract/commands.py:182-188 | an absent pattern is appended at the end; a present one is reported; distinct lists stay distinct |
| Commands.RemoveDeletesFirst | src/proxtract/commands.py:189-196 | remove deletes the first occurrence; an absent pattern is reported and nothing changes |
| Commands.AddThenRemove | src/proxtract/commands.py:181-196 | adding an absent pattern and removing it restores the list |
| Commands.Mutate | src/proxtract/commands.py:181-202 | the in-place editor gives the specified list and message |
| Commands.ReplyOf | src/proxtract/commands.py:209-227 | `list` or an empty message shows the table; the reply is green exactly for the three success messages |
| Commands.ChangeIsGreen | src/proxtract/commands.py:205-227 | a change is answered in green, and a red answer means nothing changed |
| Commands.CmdInclude | src/proxtract/commands.py:205-228 | only the include list changes, by the editor, and the reply matches the message |
| Commands.CmdExclude | src/proxtract/commands.py:231-254 | only the exclude list changes, by the editor, and the reply matches the message |
| Commands.Resolve | src/proxtract/commands.py:96-100 | the first target whose aliases hold the key, or None exactly when none does |
| Commands.AliasesDisjoint | src/proxtract/commands.py:26-35 | no key is an alias of two settings |
| Commands.AliasResolves | src/proxtract/commands.py:26-35 | every alias resolves to its own setting |
| Commands.CopyClipboardUnnamed | src/proxtract/commands.py:34 | `copy_clipboard` is not among its own aliases |
| Commands.TargetNames | src/proxtract/commands.py:26-35 | every setting but `copy_clipboard` is reachable by its own name |
| Commands.RequestOf | src/proxtract/commands.py:89-93 | two words are key and value; one word with `=` splits at the first `=`; one word without `=` has no value |
| Commands.Assigned | src/proxtract/commands.py:108-151 | fails exactly on a non-integer `max_size`; never touches the lists, the source root or the skip sets |
| Commands.SettingsOutcome | src/proxtract/commands.py:84-155 | no arguments shows the table; only an update changes settings; an update happens exactly for a known key with an accepted value; an unknown key is named in the error |
| Commands.UpdatedOutcome | src/proxtract/commands.py:106-155 | a known key with an accepted value updates the settings to the assigned ones |
| Commands.AssignSetting | src/proxtract/commands.py:108-151 | the state takes the assigned settings, or is untouched when `max_size` is refused |
| Commands.SetSwitch | src/proxtract/commands.py:122-151 | the chosen switch is set and nothing else changes |
| Commands.Switched | src/proxtract/commands.py:122-151 | setting a switch changes only the five switch fields |
| Commands.CmdSettings | src/proxtract/commands.py:84-155 | the new state and reply are the specified outcome |
| Commands.KeyValueWord | src/proxtract/commands.py:92-93 | `key=value` as one word acts like `key value` |
| Commands.KeysIgnoreCase | src/proxtract/commands.py:95 | keys are matched regardless of letter case |
| Interactive.Tokenize | src/proxtract/interactive.py:109-120 | a blank line gives no tokens; otherwise the shell split, or the whitespace split when it fails; a trailing blank adds an extra empty token after that split |
| Interactive.WordsOfPaddedJoin | src/proxtract/interactive.py:117 | a blank after the last word adds no word |
| Interactive.TokenizeFallback | src/proxtract/interactive.py:113-117 | when the shell split fails, words joined by single blanks come back as the words |
| Interactive.TokenizeFallbackPadded | src/proxtract/interactive.py:113-119 | a typed trailing blank adds exactly one empty token |
| Interactive.StripSlashes | src/proxtract/interactive.py:250 | `lstrip("/")` removes every leading slash and nothing else |
| Interactive.Dispatch | src/proxtract/interactive.py:246-273 | no tokens is a blank line; the session quits exactly on `exit` or `quit`; `set` and `extract` get the remaining tokens |
| Interactive.Command | src/proxtract/interactive.py:253-273 | a command word never reads as a blank line; it quits exactly on `exit` or `quit`; `set` is chosen exactly by `set`; `set` and `extract` keep the remaining tokens |
| Interactive.CommandWordNormalised | src/proxtract/interactive.py:250 | a normalised command word dispatches like the typed one |
| Interactive.SlashIgnored | src/proxtract/interactive.py:250 | a leading slash does not change the dispatch |
| Interactive.ParseBoolStrict | src/proxtract/interactive.py:356-362 | refuses exactly the words outside the eight on and off words, after strip and lower |
| Interactive.StrictAgreesWithNormalize | src/proxtract/interactive.py:356-362 | every accepted word reads the same under `normalize_bool` |
| Interactive.StrictAgreesWithLenient | src/proxtract/interactive.py:356-362 | on stripped text, `/settings` reads accepted words the same way |
| Interactive.LenientWords | src/proxtract/commands.py:80-81 | `_parse_bool` is on exactly for a strict on-word or "y" in any letter case, off for every strict off-word, and off for text with a leading blank |
| Interactive.LenientAcceptsY | src/proxtract/interactive.py:356-362 | `/settings` accepts "y", which the shell refuses |
| Interactive.OnOffRoundTrip | src/proxtract/interactive.py:129 | the completer's on and off words read back as true and false |
| Interactive.ParsePatternsItems | src/proxtract/interactive.py:407-410 | the blank-text shortcut agrees with the general split; every pattern is stripped, non-blank and comma-free |
| Interactive.ParsePatternsRoundTrip | src/proxtract/interactive.py:407-410 | a pattern list shown joined by ", " parses back to itself |
| Interactive.HandlerOf | src/proxtract/interactive.py:345 | a found handler is the one the key names |
| Interactive.HandlerOfKey | src/proxtract/interactive.py:364-405 | every handler is found under its own key |
| Interactive.OfferedKeysHaveHandlers | src/proxtract/interactive.py:79-100 | every completer key has a handler of its own, and the on/off keys are exactly the switches |
| Interactive.WithFlagSetsOne | src/proxtract/interactive.py:380-405 | a switch handler sets its switch and keeps the other five |
| Interactive.WithFlagSame | src/proxtract/interactive.py:380-405 | setting a switch to its current value changes nothing |
| Interactive.HandleRefusals | src/proxtract/interactive.py:364-405 | refusals are exactly: a missing source path, a non on/off switch value, a size that is not a positive integer; an accepted size is positive |
| Interactive.Handle | src/proxtract/interactive.py:364-405 | what each `_set_*` handler does with the value; stated by `Interactive.HandleRefusals`, `Interactive.HandleLimits`, `Interactive.HandleKeepsSane` and `Interactive.ShownValueReapplies` |
| Interactive.SetOutcomeReplies | src/proxtract/interactive.py:339-354 | usage without key and value; settings change only on success; success names a key with a handler; an unknown key is reported exactly when no handler exists |
| Interactive.SetFlag | src/proxtract/interactive.py:380-405 | only the chosen switch is set |
| Interactive.SetLayoutFlag | src/proxtract/interactive.py:380-388 | compact mode, skip-empty and gitignore: only the chosen switch takes the value |
| Interactive.SetRunFlag | src/proxtract/interactive.py:389-391 | force-include, token counting and clipboard: only the chosen switch takes the value |
| Interactive.RunHandler | src/proxtract/interactive.py:349-353 | a refusal leaves the state untouched; otherwise the state is the handled settings |
| Interactive.RunMaxSize | src/proxtract/interactive.py:374-378 | a non-integer or non-positive size is refused; otherwise only the limit changes |
| Interactive.RunIncludes | src/proxtract/interactive.py:392-394 | the include list becomes the parsed value and nothing else changes |
| Interactive.RunExcludes | src/proxtract/interactive.py:395-397 | the exclude list becomes the parsed value and nothing else changes |
| Interactive.RunModelHandler | src/proxtract/interactive.py:401-403 | the state becomes what the model handler specifies: a blank value keeps the old model |
| Interactive.SetValue | src/proxtract/interactive.py:339-354 | the state and reply are the specified `set` outcome |
| Interactive.SetOutcome | src/proxtract/interactive.py:339-354 | `_set_value`: stated by `Interactive.SetOutcomeReplies`, `Interactive.SetKeepsSane` and `Interactive.ShowThenSet`, and computed by `Interactive.SetValue` |
| Interactive.HandleLimits | src/proxtract/interactive.py:364-405 | only the size handler changes the limit, and only the model handler changes the model |
| Interactive.HandleKeepsSane | src/proxtract/interactive.py:374-402 | no handler makes the size non-positive or the model blank |
| Interactive.SetKeepsSane | src/proxtract/interactive.py:339-405 | no `set` breaks a positive limit or a stripped non-blank model |
| Interactive.DefaultsSane | src/proxtract/state.py:17-28 | a fresh state has a positive limit and a stripped model |
| Interactive.ShownKeysAreSettingKeys | src/proxtract/interactive.py:324-337 | `show` lists exactly the completer's keys, in the same order |
| Interactive.KeyIsLowercase | src/proxtract/interactive.py:343-345 | every key is lower case, so `set` finds it as shown |
| Interactive.ShowThenSet | src/proxtract/interactive.py:324-410 | `set <key> <shown value>` leaves a sane state unchanged |
| Interactive.SetByKey | src/proxtract/interactive.py:339-354 | `set` with a handler's own key does exactly what that handler does: a refusal reports its reason and changes nothing, an acceptance names the key |
| Interactive.ShownValueReapplies | src/proxtract/interactive.py:324-410 | the value `show` prints for a key, handed back to that key's handler, is accepted and leaves a sane state as it was |
| Interactive.EmptyPatternsShowDash | src/proxtract/interactive.py:333 | an empty list shows "-", which `set` then stores as the pattern "-" |
| Interactive.ExtractKeepsStats | src/proxtract/interactive.py:412-457 | with no arguments the paths stay; a missing root or a failed run keeps the last statistics |
| Interactive.RunExtract | src/proxtract/interactive.py:412-457 | the state becomes the specified outcome of `extract` |
| Interactive.ExtractOutcome | src/proxtract/interactive.py:412-457 | the settings after `extract`; `Interactive.ExtractKeepsStats`, `Interactive.UseSource` and `Interactive.UseOutput` state it and `Interactive.RunExtract` computes it |
| Interactive.UseSource | src/proxtract/interactive.py:413-416 | a non-empty first argument becomes the source root; otherwise nothing changes |
| Interactive.UseOutput | src/proxtract/interactive.py:414-418 | a non-empty second argument becomes the output path; otherwise nothing changes |
| Interactive.HandleCommand | src/proxtract/interactive.py:246-273 | the action is the dispatch of the tokens; the session continues exactly unless the action quits; the state is the command's outcome |
| Interactive.Perform | src/proxtract/interactive.py:256-270 | one dispatched command's state change |
| Interactive.MatchingExactly | src/proxtract/interactive.py:143-145 | the offered words are exactly those matching the lookup, in order |
| Interactive.MatchingAll | src/proxtract/interactive.py:144 | an empty lookup offers every word |
| Interactive.CompletionsOffered | src/proxtract/interactive.py:133-147 | each completion replaces the whole typed word, keeps its slash and names an offered word; every offered word appears, in order |
| Interactive.CompletionsOfNothing | src/proxtract/interactive.py:133-147 | with nothing typed, every word is suggested as it is |
| Interactive.CompleteFromWords | src/proxtract/interactive.py:133-147 | the completion loop yields exactly the specified completions |
| Interactive.Completions | src/proxtract/interactive.py:133-147 | the completions offered for a word; stated by `Interactive.CompletionsOffered` and `Interactive.CompletionsOfNothing`, computed by `Interactive.CompleteFromWords` |
| SettingsScreen.StateTextShowsValue | src/proxtract/tui/screens/settings_screen.py:162-164 | the label tells the two switch positions apart |
| SettingsScreen.SplitListIsCommaItems | src/proxtract/tui/screens/settings_screen.py:166-170 | the empty-text shortcut agrees with the general split |
| SettingsScreen.SplitListAsShell | src/proxtract/tui/screens/settings_screen.py:166-170 | the form splits a list exactly as the shell's `_parse_patterns` |
| SettingsScreen.ParseIntOrCases | src/proxtract/tui/screens/settings_screen.py:172-177 | a written number parses back; refused text gives the fallback |
| SettingsScreen.SavedIsSane | src/proxtract/tui/screens/settings_screen.py:117-138 | a saved form leaves a positive limit and keeps sane settings sane |
| SettingsScreen.UnparsableSizeKeepsLimit | src/proxtract/tui/screens/settings_screen.py:118-124 | an unparsable size keeps the current positive limit, so the form is still saved |
| SettingsScreen.SplitListRoundTrip | src/proxtract/tui/screens/settings_screen.py:25-26 | a list shown in the form reads back as itself |
| SettingsScreen.SaveUntouchedForm | src/proxtract/tui/screens/settings_screen.py:24-138 | opening the form and saving it untouched changes nothing |
| SettingsScreen.SettingsForm.constructor | src/proxtract/tui/screens/settings_screen.py:20-22 | the form edits the state object it was given |
| SettingsScreen.SettingsForm.ApplyChanges | src/proxtract/tui/screens/settings_screen.py:117-141 | saves exactly when the size is positive; the state is the saved settings, or untouched on refusal |
| SettingsScreen.Saved | src/proxtract/tui/screens/settings_screen.py:117-141 | the settings the form saves; stated by `SettingsScreen.SavedIsSane`, `SettingsScreen.UnparsableSizeKeepsLimit` and `SettingsScreen.SaveUntouchedForm`, applied by `SettingsScreen.SettingsForm.ApplyChanges` |
| MainScreen.BreakpointRanges | src/proxtract/tui/screens/main_screen.py:298-310 | the four width ranges, each with its class |
| MainScreen.BreakpointOf | src/proxtract/tui/screens/main_screen.py:298-310 | the class a width calls for; stated by `MainScreen.BreakpointRanges` and `MainScreen.NarrowerSqueezesMore` |
| MainScreen.NarrowerSqueezesMore | src/proxtract/tui/screens/main_screen.py:303-310 | a narrower screen never gets a roomier layout |
| MainScreen.Screen.constructor | src/proxtract/tui/screens/main_screen.py:25-31 | a new screen has no breakpoint class |
| MainScreen.Screen.SetClass | src/proxtract/tui/screens/main_screen.py:299-310 | one class is added or removed, and the others stay |
| MainScreen.Screen.UpdateBreakpoints | src/proxtract/tui/screens/main_screen.py:298-310 | afterwards only the width's class is set: at most one class, and none for an unknown width |
| MainScreen.ThresholdWidths | src/proxtract/tui/screens/main_screen.py:29-31 | sample widths fall in their classes: 30, 40 and 45 tiny; 50 and 60 compact; 70 and 80 narrow; 120 none |

## Left out

- File-system I/O: `rglob`, `stat`, `open`, `mkdir`, the temporary file, `fsync` and `os.replace` are inputs or are left out. `extract` takes the sorted file entries, their `stat` results and their contents as given.
- `expanduser` and `resolve` on paths are left out, and so is the normalisation `Path(value)` itself does (`""` becomes `"."`, `a//b` becomes `a/b`, a trailing slash is dropped). `set_output_path`, `apply_config`, `set_source_root` and the shell's `output_path` and `source_path` setters keep the raw string.
- TOML reading and `tomli_w` writing are left out. A loaded document is a map from the keys `apply_config` reads to values. Only the manual writer of `save_config` is modelled.
- `load_config` and `_config_path` are left out; they only read a file.
- `fnmatch`, `pathspec`, the codecs, `str.isprintable`, `tiktoken` and `shlex` are foreign code and become parameters.
- `int()` on text accepts ASCII digits only. Python also accepts other Unicode decimal digits.
- `str.lower` folds ASCII letters only.
- Rich tables and panels, Textual widgets, console output and colours are left out, except where a reply decides what is shown.
- The help, rules, clear and exit commands of `commands.py` only print; they are left out.
- `cmd_extract` and `cmd_save` of `commands.py` are left out; they only run the extractor or the writer and print the result.
- The progress bar and the progress callback are left out. Only the number of reports is counted.
- `_build_summary_panel` and `_try_copy` of the shell are left out, and so is the clipboard (`pyperclip`).
- The threading of the main screen is left out, and so is everything of it except `_update_breakpoints`.
- Interactive.RunExtract: the extraction run is the `extracted` parameter, not a call into the model of `extract`.
- The context logic of `get_completions` is left out. Only `_complete_from_word_completer` is modelled.
- The `PathCompleter` completions are left out.
- The prompt session, history file and banner of the shell are left out.
- The NUL-byte and control-character ratios of `_is_text_file` are floating-point divisions compared with 0.1. The model compares exactly, as `10 * count > length`.
- The `help`, `show`, `config` and `save` commands of the shell, and its reply to an unknown word, only print. The model dispatches them and leaves the settings unchanged.
- Stats.SkippedCounts: the `skipped` summary is a map, so the insertion order of `dict(self.skipped)` in `as_dict` is not modelled; the counts per reason are.
- `Config.Escape`: like `_escape`, escapes only backslashes and double quotes. TOML basic strings reject raw control characters, so a saved value holding a newline or a tab makes the file unreadable, and `load_config` then returns an empty document. `Config.UnescapeEscape` and `Config.RenderValueReadsBack` read back through the model's own `Unescape`, which accepts such characters: the round trip holds only for text without control characters.
- `repr()` of a string inside a list or table is always written between single quotes (`Values.Repr`). Python switches to double quotes when the string holds a `'` and escapes control characters; the `str()` of a nested list in `set_patterns` and `apply_config` differs from the model on such strings.
- Config.ApplyConfig: models `apply_config` with `safe_int` reading an overflow as the default; the uncaught OverflowError of the code as written, and the output path it leaves assigned, are `Config.ApplyAsWritten` (see Findings).
- `set_patterns` of `state.py` is modelled for lists of arbitrary values, stringified; the keyword-only calling convention is not.

Behaviours of the source that the model keeps as written:

- `safe_bool` in `apply_config` is Python truthiness, so the text "false" switches an option on (`Config.FalseTextReadAsTrue`). A TOML file holds real booleans for these keys, on which both readings agree.
- The `/settings` alias set for `copy_clipboard` does not include `copy_clipboard` itself (`Commands.CopyClipboardUnnamed`).
- `set value X` in the shell reaches `_set_value` itself as a handler. It changes nothing and is reported as done.
- `apply_config` never reads `force_include`, and `save_config` never writes it.
- A `skip_patterns` list in the settings file replaces the default patterns instead of adding to them.
- `file_path.parts` includes the root's own parts, so a root below a dot-directory skips every file that has no include override (`Rules.HiddenRootRejectsAll`).
- `handle_command` uses `lstrip("/")`, so any number of leading slashes is removed.
- An empty pattern list is shown as "-", and setting that text back stores the pattern "-" (`Interactive.EmptyPatternsShowDash`).

## Findings

| source | as written | input that shows it | evidently intended | confidence | as-written member | corrected member |
|---|---|---|---|---|---|---|
| src/proxtract/config.py:107-109 | `list(getattr(state, 'skip_extensions', set()))` calls `list(None)` when a skip set is unset, so `save_config` raises TypeError | a fresh `AppState()`, whose three skip sets are `None` | leave unset skip sets out of the file, so that loading it back keeps the extractor defaults | not executed | Config.SaveDataAsWritten | Config.SaveData |
| src/proxtract/config.py:47-51 | `safe_int` catches ValueError and TypeError only; `int(inf)` raises OverflowError, which escapes `apply_config` after line 61 has assigned `output_path` | a settings file holding `output_path = "x"` and `max_size_kb = inf` | an unusable size falls back to the current one, as for any other value `int()` refuses, and nothing is half-applied | not executed | Config.ApplyAsWritten, Config.InfiniteSizeLeavesPartialUpdate | Config.SafeInt, Config.Merge |
