/**
 * The prompt-driven shell: splitting a command line into tokens,
 * dispatching on the command word, `set <key> <value>` with its strict
 * on/off and pattern-list parsers, and completing a word from a list.
 */
module Interactive {
  import opened Wrappers
  import opened Strings
  import opened Numbers
  import opened Values
  import opened Utils
  import opened State
  import opened Stats
  import Commands

  // ------------------------------------------------------------ tokenizing

  /** `shlex.split`, which is not modelled: the tokens, or None where it raises ValueError (an unclosed quote). */
  type Splitter = string -> Option<seq<string>>

  predicate EndsWithBlank(command: string) {
    EndsWith(command, " ") || EndsWith(command, "\t")
  }

  /**
   * `_tokenize`: nothing for a blank line; otherwise the shell-style split,
   * or the whitespace split when that fails, with an empty last token
   * when the line ends in a space or a tab.
   */
  function Tokenize(command: string, shlex: Splitter): (tokens: seq<string>)
    ensures Strip(command) == "" ==> tokens == []
    ensures Strip(command) != "" && EndsWithBlank(command) ==> |tokens| >= 1 && tokens[|tokens| - 1] == ""
    ensures Strip(command) != "" && EndsWithBlank(command) ==>
      tokens == (if shlex(command).Some? then shlex(command).value else Words(command)) + [""]
    ensures Strip(command) != "" && shlex(command).Some? && !EndsWithBlank(command) ==> tokens == shlex(command).value
    ensures Strip(command) != "" && shlex(command).None? && !EndsWithBlank(command) ==> tokens == Words(command)
  {
    if Strip(command) == "" then []
    else
      var split := if shlex(command).Some? then shlex(command).value else Words(command);
      if EndsWithBlank(command) then split + [""] else split
  }

  lemma {:induction false} JoinLast(ws: seq<string>, sep: string)
    requires |ws| >= 1 && ws[|ws| - 1] != ""
    ensures Join(ws, sep) != "" && Join(ws, sep)[|Join(ws, sep)| - 1] == ws[|ws| - 1][|ws[|ws| - 1]| - 1]
  {
    if |ws| > 1 {
      JoinLast(ws[1..], sep);
      assert Join(ws, sep) == ws[0] + sep + Join(ws[1..], sep);
    }
  }

  lemma PaddedJoinStep(ws: seq<string>)
    requires |ws| > 1 && ws[0] != "" && NoSpace(ws[0]) && ws[1] != "" && NoSpace(ws[1])
    ensures Words(Join(ws, " ") + " ") == [ws[0]] + Words(Join(ws[1..], " ") + " ")
  {
    var tail := Join(ws[1..], " ") + " ";
    JoinHead(ws[1..], " ");
    assert tail[0] == ws[1][0];
    PaddedJoinUnfolds(ws);
    WordsCons(ws[0], " " + tail);
    WordsAfterSpace(tail);
  }

  lemma PaddedJoinUnfolds(ws: seq<string>)
    requires |ws| > 1
    ensures Join(ws, " ") + " " == ws[0] + (" " + (Join(ws[1..], " ") + " "))
  {
    var rest := Join(ws[1..], " ");
    assert Join(ws, " ") == ws[0] + " " + rest;
    ConcatAssociative(ws[0] + " ", rest, " ");
    ConcatAssociative(ws[0], " ", rest + " ");
  }

  lemma WordsOfPaddedWord(w: string)
    requires w != "" && NoSpace(w)
    ensures Words(w + " ") == [w]
  {
    assert TrimStart(" ") == "";
    WordsCons(w, " ");
  }

  lemma WordsOfPaddedSingle(ws: seq<string>)
    requires |ws| == 1 && ws[0] != "" && NoSpace(ws[0])
    ensures Words(Join(ws, " ") + " ") == ws
  {
    assert Join(ws, " ") == ws[0];
    WordsOfPaddedWord(ws[0]);
    assert [ws[0]] == ws;
  }

  /** A blank after the last word adds no word. */
  lemma {:induction false} WordsOfPaddedJoin(ws: seq<string>)
    requires |ws| >= 1 && forall i :: 0 <= i < |ws| ==> ws[i] != "" && NoSpace(ws[i])
    ensures Words(Join(ws, " ") + " ") == ws
  {
    if |ws| == 1 {
      WordsOfPaddedSingle(ws);
    } else {
      var tail := ws[1..];
      assert Words(Join(tail, " ") + " ") == tail by { WordsOfPaddedJoin(tail); }
      PaddedJoinStep(ws);
      HeadTail(ws);
    }
  }

  /** A non-blank line whose last character is not whitespace. */
  lemma JoinedLine(ws: seq<string>)
    requires |ws| >= 1 && forall i :: 0 <= i < |ws| ==> ws[i] != "" && NoSpace(ws[i])
    ensures Join(ws, " ") != "" && !IsSpace(Join(ws, " ")[0]) && !IsSpace(Join(ws, " ")[|Join(ws, " ")| - 1])
  {
    JoinHead(ws, " ");
    JoinLast(ws, " ");
    var last := ws[|ws| - 1];
    assert !IsSpace(last[|last| - 1]);
  }

  /** A line that starts with a non-blank is not blank, with or without a blank after it. */
  lemma NotBlank(line: string)
    requires line != "" && !IsSpace(line[0])
    ensures Strip(line) != "" && Strip(line + " ") != ""
  {
    StripBlank(line);
    var padded := line + " ";
    assert padded[0] == line[0];
    StripBlank(padded);
  }

  lemma EndsWithBlankLast(s: string)
    requires s != ""
    ensures EndsWithBlank(s) <==> s[|s| - 1] == ' ' || s[|s| - 1] == '\t'
  {
    assert s[|s| - 1..] == [s[|s| - 1]];
  }

  /** Where the shell-style split gives up, words joined by single blanks come back as the same words. */
  lemma TokenizeFallback(ws: seq<string>, shlex: Splitter)
    requires |ws| >= 1 && forall i :: 0 <= i < |ws| ==> ws[i] != "" && NoSpace(ws[i])
    requires shlex(Join(ws, " ")).None?
    ensures Tokenize(Join(ws, " "), shlex) == ws
  {
    var line := Join(ws, " ");
    FallbackLine(ws);
    TokenizeWords(line, shlex);
  }

  lemma FallbackLine(ws: seq<string>)
    requires |ws| >= 1 && forall i :: 0 <= i < |ws| ==> ws[i] != "" && NoSpace(ws[i])
    ensures Strip(Join(ws, " ")) != "" && !EndsWithBlank(Join(ws, " ")) && Words(Join(ws, " ")) == ws
  {
    var line := Join(ws, " ");
    JoinedLine(ws);
    assert Strip(line) != "" by {
      NotBlank(line);
    }
    assert !EndsWithBlank(line) by {
      EndsWithBlankLast(line);
    }
    WordsOfJoin(ws);
  }

  lemma TokenizeWords(line: string, shlex: Splitter)
    requires Strip(line) != "" && !EndsWithBlank(line) && shlex(line).None?
    ensures Tokenize(line, shlex) == Words(line)
  {
  }

  /** A blank typed after the words adds one empty token, the word being started. */
  lemma TokenizeFallbackPadded(ws: seq<string>, shlex: Splitter)
    requires |ws| >= 1 && forall i :: 0 <= i < |ws| ==> ws[i] != "" && NoSpace(ws[i])
    requires shlex(Join(ws, " ") + " ").None?
    ensures Tokenize(Join(ws, " ") + " ", shlex) == ws + [""]
  {
    var line := Join(ws, " ");
    assert Strip(line + " ") != "" && EndsWithBlank(line + " ") by {
      JoinedLine(ws);
      NotBlank(line);
      EndsWithBlankLast(line + " ");
    }
    assert Words(line + " ") == ws by {
      WordsOfPaddedJoin(ws);
    }
  }

  // ------------------------------------------------------------ dispatch

  /** `lstrip("/")`: every leading slash removed. */
  function StripSlashes(s: string): (r: string)
    ensures r == "" || r[0] != '/'
    ensures |r| <= |s| && r == s[|s| - |r|..]
    ensures forall i :: 0 <= i < |s| - |r| ==> s[i] == '/'
  {
    if |s| > 0 && s[0] == '/' then StripSlashes(s[1..]) else s
  }

  /** The command word of a token list: slashes in front removed, lower-cased. */
  function CommandWord(token: string): string {
    Lower(StripSlashes(token))
  }

  /** What `handle_command` does with a line. */
  datatype Action =
    | Blank
    | Quit
    | Help
    | Show
    | Save
    | Set(args: seq<string>)
    | Extract(args: seq<string>)
    | Unknown(word: string)

  /** The action a command word names, given the tokens after it. */
  function Command(word: string, args: seq<string>): (a: Action)
    ensures a != Blank
    ensures a == Quit <==> word == "exit" || word == "quit"
    ensures a.Set? <==> word == "set"
    ensures a.Set? || a.Extract? ==> a.args == args
  {
    if word == "exit" || word == "quit" then Quit
    else if word == "help" then Help
    else if word == "show" || word == "config" then Show
    else if word == "save" then Save
    else if word == "set" then Set(args)
    else if word == "extract" then Extract(args)
    else Unknown(word)
  }

  function Dispatch(tokens: seq<string>): (a: Action)
    ensures a == Blank <==> tokens == []
    ensures a == Quit <==> tokens != [] && (CommandWord(tokens[0]) == "exit" || CommandWord(tokens[0]) == "quit")
    ensures a.Set? || a.Extract? ==> a.args == tokens[1..]
  {
    if tokens == [] then Blank else Command(CommandWord(tokens[0]), tokens[1..])
  }

  /** A command word is already normalised: writing it instead of the typed token changes nothing. */
  lemma CommandWordNormalised(token: string, rest: seq<string>)
    ensures Dispatch([CommandWord(token)] + rest) == Dispatch([token] + rest)
  {
    var w := CommandWord(token);
    assert CommandWord(w) == w by {
      assert StripSlashes(w) == w;
      LowerIdempotent(StripSlashes(token));
    }
    ConsTail(w, rest);
    ConsTail(token, rest);
  }

  // ----------------------------------------------------------- set values

  /** The words `_parse_bool` accepts, once stripped and lower-cased. */
  const StrictOn: set<string> := {"on", "true", "1", "yes"}
  const StrictOff: set<string> := {"off", "false", "0", "no"}

  /** The shell's `_parse_bool`: None where it raises ValueError. */
  function ParseBoolStrict(value: string): (r: Option<bool>)
    ensures r.None? <==> Normalized(value) !in StrictOn && Normalized(value) !in StrictOff
    ensures r == Some(true) <==> Normalized(value) in StrictOn
  {
    var n := Normalized(value);
    if n in StrictOn then Some(true) else if n in StrictOff then Some(false) else None
  }

  /** Every word the shell accepts, `normalize_bool` reads the same way, whatever its default. */
  lemma StrictAgreesWithNormalize(value: string, d: bool)
    requires ParseBoolStrict(value).Some?
    ensures NormalizeBool(Str(value), d) == ParseBoolStrict(value).value
  {
  }

  /** On text without surrounding blanks, the `/settings` parser reads every word the shell accepts the same way. */
  lemma StrictAgreesWithLenient(value: string)
    requires ParseBoolStrict(value).Some? && Strip(value) == value
    ensures Commands.ParseBool(value) == ParseBoolStrict(value).value
  {
    assert Normalized(value) == Lower(value);
  }

  /**
   * The `/settings` parser against the shell's word sets: on exactly for
   * a strict on-word or "y" in any letter case, off for every strict
   * off-word, and off for text with a leading blank, which it does not strip.
   */
  lemma LenientWords(value: string)
    ensures Commands.ParseBool(value) <==> Lower(value) in StrictOn || Lower(value) == "y"
    ensures Lower(value) in StrictOff ==> !Commands.ParseBool(value)
    ensures value != "" && IsSpace(value[0]) ==> !Commands.ParseBool(value)
  {
    if value != "" && IsSpace(value[0]) {
      assert Lower(value)[0] == value[0];
      assert forall w :: w in Commands.OnWords ==> w[0] == 'o' || w[0] == 't' || w[0] == '1' || w[0] == 'y';
    }
  }

  /** The `/settings` parser switches on for "y", a word the shell refuses. */
  lemma LenientAcceptsY()
    ensures Commands.ParseBool("y") && ParseBoolStrict("y").None?
  {
    var y := "y";
    assert !IsSpace(y[0]);
    assert TrimStart(y) == y;
    assert Strip(y) == y;
    assert Lower(y) == y;
  }

  /** The two words the completer offers for a switch read back as on and off. */
  lemma OnOffRoundTrip(b: bool)
    ensures ParseBoolStrict(if b then "on" else "off") == Some(b)
  {
    if b {
      NormalizedPlain("on");
    } else {
      NormalizedPlain("off");
    }
    OnOffWords();
  }

  lemma OnOffWords()
    ensures "on" in StrictOn && "off" !in StrictOn && "off" in StrictOff
  {
  }

  /** `_parse_patterns`: nothing for a blank text, else the stripped non-blank comma items in order. */
  function ParsePatterns(value: string): seq<string> {
    if Strip(value) == "" then [] else CommaItems(value)
  }

  /** The blank-text shortcut agrees with the general case, and every parsed pattern is stripped, non-blank and comma-free. */
  lemma ParsePatternsItems(value: string)
    ensures ParsePatterns(value) == CommaItems(value)
    ensures forall i :: 0 <= i < |ParsePatterns(value)| ==>
              ParsePatterns(value)[i] != "" && Strip(ParsePatterns(value)[i]) == ParsePatterns(value)[i] && ',' !in ParsePatterns(value)[i]
  {
    CommaItemsNoComma(value);
    if Strip(value) == "" {
      CommaItemsOfBlank(value);
    }
  }

  lemma CommaItemsNoComma(value: string)
    ensures forall i :: 0 <= i < |CommaItems(value)| ==> ',' !in CommaItems(value)[i]
  {
    StrippedItemsNoComma(Split(value, ','));
  }

  lemma StripKeepsOut(s: string, c: char)
    requires c !in s
    ensures c !in Strip(s)
  {
    var t := TrimStart(s);
    assert c !in t by {
      SliceKeepsOut(s, c, |s| - |t|, |s|);
    }
    SliceKeepsOut(t, c, 0, |TrimEnd(t)|);
  }

  lemma SliceKeepsOut(s: string, c: char, i: int, j: int)
    requires c !in s && 0 <= i <= j <= |s|
    ensures c !in s[i..j]
  {
    assert forall k :: 0 <= k < j - i ==> s[i..j][k] == s[i + k];
  }

  lemma {:induction false} StrippedItemsNoComma(items: seq<string>)
    requires forall i :: 0 <= i < |items| ==> ',' !in items[i]
    ensures forall i :: 0 <= i < |StrippedItems(items)| ==> ',' !in StrippedItems(items)[i]
  {
    if |items| > 0 {
      var tail := items[1..];
      assert forall i :: 0 <= i < |StrippedItems(tail)| ==> ',' !in StrippedItems(tail)[i] by {
        StrippedItemsNoComma(tail);
      }
      StripKeepsOut(items[0], ',');
      var head := Strip(items[0]);
      if head != "" {
        NoCommaCons(head, StrippedItems(tail));
      }
    }
  }

  lemma NoCommaCons(head: string, rest: seq<string>)
    requires ',' !in head && forall i :: 0 <= i < |rest| ==> ',' !in rest[i]
    ensures forall i :: 0 <= i < |rest| + 1 ==> ',' !in ([head] + rest)[i]
  {
    forall i | 0 <= i < |rest| + 1
      ensures ',' !in ([head] + rest)[i]
    {
      if i > 0 {
        assert ([head] + rest)[i] == rest[i - 1];
      }
    }
  }

  /** A pattern list shown joined by ", " parses back to itself. */
  lemma ParsePatternsRoundTrip(patterns: seq<string>)
    requires forall i :: 0 <= i < |patterns| ==> patterns[i] != "" && Strip(patterns[i]) == patterns[i] && ',' !in patterns[i]
    ensures ParsePatterns(Join(patterns, ", ")) == patterns
  {
    var text := Join(patterns, ", ");
    CommaItemsOfCommaJoin(patterns);
    ParsePatternsItems(text);
  }

  // ------------------------------------------------------- set <key> <value>

  /** The six on/off settings of the shell. */
  datatype Flag = CompactFlag | SkipEmptyFlag | GitignoreFlag | ForceIncludeFlag | TokenCountFlag | ClipboardFlag

  /** The methods `_set_value` can reach by name: `_set_<key>` for each key, and `_set_value` itself. */
  datatype Handler =
    | SourcePath
    | OutputPath
    | MaxSizeKb
    | Switch(flag: Flag)
    | IncludePatterns
    | ExcludePatterns
    | TokenizerModel
    | NestedSet

  function FlagKey(f: Flag): string {
    match f
    case CompactFlag => "compact_mode"
    case SkipEmptyFlag => "skip_empty"
    case GitignoreFlag => "use_gitignore"
    case ForceIncludeFlag => "force_include"
    case TokenCountFlag => "count_tokens"
    case ClipboardFlag => "copy_clipboard"
  }

  /** The key that names a handler: its method name without `_set_`. */
  function HandlerKey(h: Handler): string {
    match h
    case SourcePath => "source_path"
    case OutputPath => "output_path"
    case MaxSizeKb => "max_size_kb"
    case Switch(f) => FlagKey(f)
    case IncludePatterns => "include_patterns"
    case ExcludePatterns => "exclude_patterns"
    case TokenizerModel => "tokenizer_model"
    case NestedSet => "value"
  }

  /** `getattr(self, f"_set_{key}", None)`. */
  function HandlerOf(key: string): (r: Option<Handler>)
    ensures r.Some? ==> HandlerKey(r.value) == key
  {
    if key == "source_path" then Some(SourcePath)
    else if key == "output_path" then Some(OutputPath)
    else if key == "max_size_kb" then Some(MaxSizeKb)
    else if key == "compact_mode" then Some(Switch(CompactFlag))
    else if key == "skip_empty" then Some(Switch(SkipEmptyFlag))
    else if key == "use_gitignore" then Some(Switch(GitignoreFlag))
    else if key == "force_include" then Some(Switch(ForceIncludeFlag))
    else if key == "include_patterns" then Some(IncludePatterns)
    else if key == "exclude_patterns" then Some(ExcludePatterns)
    else if key == "count_tokens" then Some(Switch(TokenCountFlag))
    else if key == "tokenizer_model" then Some(TokenizerModel)
    else if key == "copy_clipboard" then Some(Switch(ClipboardFlag))
    else if key == "value" then Some(NestedSet)
    else None
  }

  /** Every handler is found under its own key, so `HandlerOf` finds exactly the handler a key names. */
  lemma HandlerOfKey(h: Handler)
    ensures HandlerOf(HandlerKey(h)) == Some(h)
  {
  }

  /** The keys the completer offers after `set`, and those it completes with on/off. */
  const SettingKeys: seq<string> := ["source_path", "output_path", "max_size_kb", "compact_mode", "skip_empty",
    "use_gitignore", "force_include", "include_patterns", "exclude_patterns", "count_tokens", "tokenizer_model",
    "copy_clipboard"]
  const BooleanKeys: set<string> := {"compact_mode", "skip_empty", "use_gitignore", "force_include", "count_tokens", "copy_clipboard"}

  /** Every key the completer offers has a setter of its own, and the on/off keys are exactly the switches. */
  lemma OfferedKeysHaveHandlers(i: int)
    requires 0 <= i < |SettingKeys|
    ensures HandlerOf(SettingKeys[i]).Some? && HandlerOf(SettingKeys[i]) != Some(NestedSet)
    ensures HandlerOf(SettingKeys[i]).value.Switch? <==> SettingKeys[i] in BooleanKeys
  {
  }

  /** Why a handler raised ValueError. */
  datatype Refusal = NotOnOff | NoSuchPath | NotAnInteger | NotPositive

  datatype Handled = Refused(why: Refusal) | Applied(settings: Settings)

  function FlagOf(s: Settings, f: Flag): bool {
    match f
    case CompactFlag => s.compactMode
    case SkipEmptyFlag => s.skipEmpty
    case GitignoreFlag => s.useGitignore
    case ForceIncludeFlag => s.forceInclude
    case TokenCountFlag => s.enableTokenCount
    case ClipboardFlag => s.copyToClipboard
  }

  /** The settings with one switch set, and nothing else changed. */
  function WithFlag(s: Settings, f: Flag, b: bool): Settings {
    match f
    case CompactFlag => s.(compactMode := b)
    case SkipEmptyFlag => s.(skipEmpty := b)
    case GitignoreFlag => s.(useGitignore := b)
    case ForceIncludeFlag => s.(forceInclude := b)
    case TokenCountFlag => s.(enableTokenCount := b)
    case ClipboardFlag => s.(copyToClipboard := b)
  }

  /** Setting a switch changes that switch to the given value and keeps the other five. */
  lemma WithFlagSetsOne(s: Settings, f: Flag, b: bool)
    ensures FlagOf(WithFlag(s, f, b), f) == b
    ensures forall g :: g != f ==> FlagOf(WithFlag(s, f, b), g) == FlagOf(s, g)
  {
  }

  /** Setting a switch to the value it has changes nothing. */
  lemma WithFlagSame(s: Settings, f: Flag)
    ensures WithFlag(s, f, FlagOf(s, f)) == s
  {
  }

  /**
   * What one handler does with the joined value; `pathExists` says whether a
   * path exists once the user's home is expanded.
   */
  function Handle(s: Settings, h: Handler, value: string, pathExists: string -> bool): Handled {
    match h
    case SourcePath => if pathExists(value) then Applied(s.(sourceRoot := value)) else Refused(NoSuchPath)
    case OutputPath => Applied(s.(outputPath := value))
    case MaxSizeKb => HandleSize(s, value)
    case Switch(f) => HandleSwitch(s, f, value)
    case IncludePatterns => Applied(s.(includePatterns := ParsePatterns(value)))
    case ExcludePatterns => Applied(s.(excludePatterns := ParsePatterns(value)))
    case TokenizerModel => HandleModel(s, value)
    case NestedSet => Applied(s)
  }

  /** `_set_max_size_kb`: an integer, and a positive one. */
  function HandleSize(s: Settings, value: string): Handled {
    var n := ParseInt(value);
    if n.None? then Refused(NotAnInteger)
    else if n.value <= 0 then Refused(NotPositive)
    else Applied(s.(maxSizeKb := n.value))
  }

  /** One of the on/off setters: one of the eight words, or ValueError. */
  function HandleSwitch(s: Settings, f: Flag, value: string): Handled {
    var b := ParseBoolStrict(value);
    if b.None? then Refused(NotOnOff) else Applied(WithFlag(s, f, b.value))
  }

  /** `_set_tokenizer_model`: a blank name leaves the model as it was. */
  function HandleModel(s: Settings, value: string): Handled {
    var model := Strip(value);
    Applied(s.(tokenizerModel := if model == "" then s.tokenizerModel else model))
  }

  /**
   * A handler refuses exactly on a missing source path, a switch value
   * that is not one of the eight on/off words, or a size that is not a
   * positive integer; an accepted size is positive.
   */
  lemma HandleRefusals(s: Settings, h: Handler, value: string, pathExists: string -> bool)
    ensures var r := Handle(s, h, value, pathExists);
            && (r.Refused? && r.why == NoSuchPath <==> h.SourcePath? && !pathExists(value))
            && (r.Refused? && r.why == NotOnOff <==> h.Switch? && ParseBoolStrict(value).None?)
            && (r.Refused? && (r.why == NotAnInteger || r.why == NotPositive) <==> h.MaxSizeKb? && !(ParseInt(value).Some? && ParseInt(value).value > 0))
            && (r.Applied? && h.MaxSizeKb? ==> r.settings.maxSizeKb > 0)
  {
    match h {
      case SourcePath =>
      case OutputPath =>
      case MaxSizeKb =>
      case Switch(_) =>
      case IncludePatterns =>
      case ExcludePatterns =>
      case TokenizerModel =>
      case NestedSet =>
    }
  }

  /** The panel `set` shows. */
  datatype SetReply = Usage | UnknownKey(key: string) | Failed(why: Refusal) | Done(key: string)

  datatype SetResult = SetResult(settings: Settings, reply: SetReply)

  /** `_set_value(args)`: the new settings and the panel shown. */
  function SetOutcome(s: Settings, args: seq<string>, pathExists: string -> bool): SetResult {
    if |args| < 2 then SetResult(s, Usage)
    else
      var key := Lower(args[0]);
      var h := HandlerOf(key);
      if h.None? then SetResult(s, UnknownKey(key))
      else
        match Handle(s, h.value, Join(args[1..], " "), pathExists)
        case Refused(why) => SetResult(s, Failed(why))
        case Applied(t) => SetResult(t, Done(key))
  }

  /**
   * `set` needs a key and a value; the settings change only when the key
   * names a handler and that handler does not refuse the value.
   */
  lemma SetOutcomeReplies(s: Settings, args: seq<string>, pathExists: string -> bool)
    ensures var r := SetOutcome(s, args, pathExists);
            && (|args| < 2 ==> r == SetResult(s, Usage))
            && (!r.reply.Done? ==> r.settings == s)
            && (r.reply.Done? ==> |args| >= 2 && r.reply.key == Lower(args[0]) && HandlerOf(r.reply.key).Some?)
            && (r.reply.UnknownKey? <==> |args| >= 2 && HandlerOf(Lower(args[0])).None?)
  {
  }

  method SetFlag(state: AppState, f: Flag, b: bool)
    modifies state
    ensures state.Snapshot() == WithFlag(old(state.Snapshot()), f, b)
  {
    if f.CompactFlag? || f.SkipEmptyFlag? || f.GitignoreFlag? {
      SetLayoutFlag(state, f, b);
    } else {
      SetRunFlag(state, f, b);
    }
  }

  method SetLayoutFlag(state: AppState, f: Flag, b: bool)
    requires f.CompactFlag? || f.SkipEmptyFlag? || f.GitignoreFlag?
    modifies state
    ensures state.Snapshot() == WithFlag(old(state.Snapshot()), f, b)
  {
    if f == CompactFlag {
      state.compactMode := b;
    } else if f == SkipEmptyFlag {
      state.skipEmpty := b;
    } else {
      state.useGitignore := b;
    }
  }

  method SetRunFlag(state: AppState, f: Flag, b: bool)
    requires f.ForceIncludeFlag? || f.TokenCountFlag? || f.ClipboardFlag?
    modifies state
    ensures state.Snapshot() == WithFlag(old(state.Snapshot()), f, b)
  {
    if f == ForceIncludeFlag {
      state.forceInclude := b;
    } else if f == TokenCountFlag {
      state.enableTokenCount := b;
    } else {
      state.copyToClipboard := b;
    }
  }

  /** Runs one handler: on a refusal nothing changes. */
  method RunHandler(state: AppState, h: Handler, value: string, pathExists: string -> bool) returns (refusal: Option<Refusal>)
    modifies state
    ensures Handle(old(state.Snapshot()), h, value, pathExists).Refused? ==>
              refusal == Some(Handle(old(state.Snapshot()), h, value, pathExists).why) && state.Snapshot() == old(state.Snapshot())
    ensures Handle(old(state.Snapshot()), h, value, pathExists).Applied? ==>
              refusal == None && state.Snapshot() == Handle(old(state.Snapshot()), h, value, pathExists).settings
  {
    match h {
      case SourcePath =>
        if !pathExists(value) {
          return Some(NoSuchPath);
        }
        state.SetSourceRoot(value);
        return None;
      case MaxSizeKb =>
        refusal := RunMaxSize(state, value);
      case Switch(f) =>
        var b := ParseBoolStrict(value);
        if b.None? {
          return Some(NotOnOff);
        }
        SetFlag(state, f, b.value);
        return None;
      case OutputPath =>
        state.SetOutputPath(value);
        return None;
      case IncludePatterns =>
        RunIncludes(state, value);
        return None;
      case ExcludePatterns =>
        RunExcludes(state, value);
        return None;
      case TokenizerModel =>
        RunModelHandler(state, value);
        return None;
      case NestedSet =>
        return None;
    }
  }

  method RunMaxSize(state: AppState, value: string) returns (refusal: Option<Refusal>)
    modifies state
    ensures HandleSize(old(state.Snapshot()), value).Refused? ==>
              refusal == Some(HandleSize(old(state.Snapshot()), value).why) && state.Snapshot() == old(state.Snapshot())
    ensures HandleSize(old(state.Snapshot()), value).Applied? ==>
              refusal == None && state.Snapshot() == HandleSize(old(state.Snapshot()), value).settings
  {
    ghost var s := state.Snapshot();
    var n := ParseInt(value);
    if n.None? {
      assert HandleSize(s, value) == Refused(NotAnInteger);
      return Some(NotAnInteger);
    }
    if n.value <= 0 {
      assert HandleSize(s, value) == Refused(NotPositive);
      return Some(NotPositive);
    }
    assert HandleSize(s, value) == Applied(s.(maxSizeKb := n.value));
    state.maxSizeKb := n.value;
    return None;
  }

  /** `_set_include_patterns`: the include list is replaced by the parsed value. */
  method RunIncludes(state: AppState, value: string)
    modifies state
    ensures state.Snapshot() == old(state.Snapshot()).(includePatterns := ParsePatterns(value))
  {
    state.includePatterns := ParsePatterns(value);
  }

  /** `_set_exclude_patterns`: the exclude list is replaced by the parsed value. */
  method RunExcludes(state: AppState, value: string)
    modifies state
    ensures state.Snapshot() == old(state.Snapshot()).(excludePatterns := ParsePatterns(value))
  {
    state.excludePatterns := ParsePatterns(value);
  }

  /** `_set_tokenizer_model` keeps the old model for a blank value. */
  method RunModelHandler(state: AppState, value: string)
    modifies state
    ensures state.Snapshot() == HandleModel(old(state.Snapshot()), value).settings
  {
    ghost var before := state.Snapshot();
    var model := Strip(value);
    if model != "" {
      state.tokenizerModel := model;
      assert state.Snapshot() == before.(tokenizerModel := model);
    }
  }

  /** `_set_value`: the settings change only through a handler that did not refuse. */
  method SetValue(state: AppState, args: seq<string>, pathExists: string -> bool) returns (reply: SetReply)
    modifies state
    ensures SetResult(state.Snapshot(), reply) == SetOutcome(old(state.Snapshot()), args, pathExists)
  {
    if |args| < 2 {
      return Usage;
    }
    var key := Lower(args[0]);
    var h := HandlerOf(key);
    if h.None? {
      return UnknownKey(key);
    }
    var refusal := RunHandler(state, h.value, Join(args[1..], " "), pathExists);
    if refusal.Some? {
      return Failed(refusal.value);
    }
    return Done(key);
  }

  // --------------------------------------------------------- show and set

  /**
   * What the settings shown by `show` keep once a shell session starts from
   * a sane state: a positive size limit and a stripped, non-blank model name.
   */
  predicate Sane(s: Settings) {
    s.maxSizeKb > 0 && s.tokenizerModel != "" && Strip(s.tokenizerModel) == s.tokenizerModel
  }

  /** Only `_set_max_size_kb` changes the size limit, and only `_set_tokenizer_model` the model name. */
  lemma HandleLimits(s: Settings, h: Handler, value: string, pathExists: string -> bool)
    requires Handle(s, h, value, pathExists).Applied?
    ensures h != MaxSizeKb ==> Handle(s, h, value, pathExists).settings.maxSizeKb == s.maxSizeKb
    ensures h != TokenizerModel ==> Handle(s, h, value, pathExists).settings.tokenizerModel == s.tokenizerModel
  {
    match h {
      case Switch(f) =>
        var b := ParseBoolStrict(value).value;
        WithFlagKeeps(s, f, b);
      case SourcePath =>
      case OutputPath =>
      case MaxSizeKb =>
      case IncludePatterns =>
      case ExcludePatterns =>
      case TokenizerModel =>
      case NestedSet =>
    }
  }

  lemma WithFlagKeeps(s: Settings, f: Flag, b: bool)
    ensures WithFlag(s, f, b).maxSizeKb == s.maxSizeKb && WithFlag(s, f, b).tokenizerModel == s.tokenizerModel
  {
    match f {
      case CompactFlag =>
      case SkipEmptyFlag =>
      case GitignoreFlag =>
      case ForceIncludeFlag =>
      case TokenCountFlag =>
      case ClipboardFlag =>
    }
  }

  /** No handler can make the settings insane: a size must be positive and a blank model name is ignored. */
  lemma HandleKeepsSane(s: Settings, h: Handler, value: string, pathExists: string -> bool)
    requires Sane(s) && Handle(s, h, value, pathExists).Applied?
    ensures Sane(Handle(s, h, value, pathExists).settings)
  {
    match h {
      case Switch(f) => SwitchKeepsSane(s, f, value);
      case TokenizerModel => ModelKeepsSane(s, value);
      case MaxSizeKb => SizeKeepsSane(s, value);
      case SourcePath =>
      case OutputPath =>
      case IncludePatterns =>
      case ExcludePatterns =>
      case NestedSet =>
    }
  }

  lemma SwitchKeepsSane(s: Settings, f: Flag, value: string)
    requires Sane(s) && HandleSwitch(s, f, value).Applied?
    ensures Sane(HandleSwitch(s, f, value).settings)
  {
    WithFlagKeeps(s, f, ParseBoolStrict(value).value);
  }

  lemma ModelKeepsSane(s: Settings, value: string)
    requires Sane(s)
    ensures Sane(HandleModel(s, value).settings)
  {
    StripIdempotent(value);
  }

  lemma SizeKeepsSane(s: Settings, value: string)
    requires Sane(s) && HandleSize(s, value).Applied?
    ensures Sane(HandleSize(s, value).settings)
  {
  }

  /** No `set` can make the settings insane. */
  lemma SetKeepsSane(s: Settings, args: seq<string>, pathExists: string -> bool)
    requires Sane(s)
    ensures Sane(SetOutcome(s, args, pathExists).settings)
  {
    if |args| >= 2 && HandlerOf(Lower(args[0])).Some? {
      var h := HandlerOf(Lower(args[0])).value;
      var value := Join(args[1..], " ");
      if Handle(s, h, value, pathExists).Applied? {
        HandleKeepsSane(s, h, value, pathExists);
      }
    }
  }

  /** A fresh `AppState` is sane. */
  lemma DefaultsSane()
    ensures Sane(Defaults())
  {
    var m := Defaults().tokenizerModel;
    assert !IsSpace(m[0]) && !IsSpace(m[|m| - 1]);
    assert TrimStart(m) == m;
  }

  function OnOff(b: bool): string {
    if b then "on" else "off"
  }

  /** `text or "-"`. */
  function OrDash(text: string): string {
    if text == "" then "-" else text
  }

  /** The value `_iter_config` shows for a handler's key; `_set_value` itself is not shown. */
  function ShownValue(s: Settings, h: Handler): string {
    match h
    case SourcePath => s.sourceRoot
    case OutputPath => s.outputPath
    case MaxSizeKb => IntToString(s.maxSizeKb)
    case Switch(f) => OnOff(FlagOf(s, f))
    case IncludePatterns => OrDash(Join(s.includePatterns, ", "))
    case ExcludePatterns => OrDash(Join(s.excludePatterns, ", "))
    case TokenizerModel => OrDash(s.tokenizerModel)
    case NestedSet => ""
  }

  /** The handlers whose keys `show` lists, in its order. */
  const ShownHandlers: seq<Handler> := [SourcePath, OutputPath, MaxSizeKb, Switch(CompactFlag), Switch(SkipEmptyFlag),
    Switch(GitignoreFlag), Switch(ForceIncludeFlag), IncludePatterns, ExcludePatterns, Switch(TokenCountFlag),
    TokenizerModel, Switch(ClipboardFlag)]

  /** `_iter_config`: one row per key. */
  function ConfigRows(s: Settings): seq<(string, string)> {
    seq(|ShownHandlers|, i requires 0 <= i < |ShownHandlers| => (HandlerKey(ShownHandlers[i]), ShownValue(s, ShownHandlers[i])))
  }

  /** `show` lists exactly the keys the completer offers, in the same order. */
  lemma ShownKeysAreSettingKeys(s: Settings)
    ensures |ConfigRows(s)| == |SettingKeys|
    ensures forall i :: 0 <= i < |SettingKeys| ==> ConfigRows(s)[i].0 == SettingKeys[i]
  {
  }

  lemma LowerOfLowercase(s: string)
    requires LowerKey(s)
    ensures Lower(s) == s
  {
  }

  /** A key of lower-case letters and underscores. */
  predicate LowerKey(k: string) {
    forall i :: 0 <= i < |k| ==> k[i] == '_' || 'a' <= k[i] <= 'z'
  }

  lemma FlagKeyIsLower(f: Flag)
    ensures LowerKey(FlagKey(f))
  {
    if f.CompactFlag? || f.SkipEmptyFlag? || f.GitignoreFlag? {
      LayoutFlagKeyIsLower(f);
    } else {
      RunFlagKeyIsLower(f);
    }
  }

  lemma LayoutFlagKeyIsLower(f: Flag)
    requires f.CompactFlag? || f.SkipEmptyFlag? || f.GitignoreFlag?
    ensures LowerKey(FlagKey(f))
  {
    match f {
      case CompactFlag =>
      case SkipEmptyFlag =>
      case GitignoreFlag =>
    }
  }

  lemma RunFlagKeyIsLower(f: Flag)
    requires f.ForceIncludeFlag? || f.TokenCountFlag? || f.ClipboardFlag?
    ensures LowerKey(FlagKey(f))
  {
    match f {
      case ForceIncludeFlag =>
      case TokenCountFlag =>
      case ClipboardFlag =>
    }
  }

  lemma OtherKeyIsLower(h: Handler)
    requires !h.Switch?
    ensures LowerKey(HandlerKey(h))
  {
    if h.SourcePath? || h.OutputPath? || h.MaxSizeKb? {
      PathKeyIsLower(h);
    } else {
      match h {
        case IncludePatterns =>
        case ExcludePatterns =>
        case TokenizerModel =>
        case NestedSet =>
      }
    }
  }

  lemma PathKeyIsLower(h: Handler)
    requires h.SourcePath? || h.OutputPath? || h.MaxSizeKb?
    ensures LowerKey(HandlerKey(h))
  {
    match h {
      case SourcePath =>
      case OutputPath =>
      case MaxSizeKb =>
    }
  }

  /** Every key is written in lower case, so `set` finds it as typed. */
  lemma KeyIsLowercase(h: Handler)
    ensures Lower(HandlerKey(h)) == HandlerKey(h)
  {
    if h.Switch? {
      FlagKeyIsLower(h.flag);
    } else {
      OtherKeyIsLower(h);
    }
    LowerOfLowercase(HandlerKey(h));
  }

  /** A pattern list `show` can print and `set` can read back. */
  predicate Listable(patterns: seq<string>) {
    patterns != [] && forall i :: 0 <= i < |patterns| ==> patterns[i] != "" && Strip(patterns[i]) == patterns[i] && ',' !in patterns[i]
  }

  lemma JoinStartsWithFirst(parts: seq<string>, sep: string)
    requires parts != []
    ensures |Join(parts, sep)| >= |parts[0]|
  {
  }

  /** `set` with a handler's own key and a value does exactly what that handler does. */
  lemma SetByKey(s: Settings, h: Handler, value: string, pathExists: string -> bool)
    ensures var r := SetOutcome(s, [HandlerKey(h), value], pathExists);
            match Handle(s, h, value, pathExists)
            case Refused(why) => r == SetResult(s, Failed(why))
            case Applied(t) => r == SetResult(t, Done(HandlerKey(h)))
  {
    KeyIsLowercase(h);
    HandlerOfKey(h);
    assert [HandlerKey(h), value][1..] == [value];
  }

  /** The value `show` prints for a key, given back to that key's handler, leaves the settings as they were. */
  lemma ShownValueReapplies(s: Settings, h: Handler, pathExists: string -> bool)
    requires Sane(s)
    requires h == SourcePath ==> pathExists(s.sourceRoot)
    requires h == IncludePatterns ==> Listable(s.includePatterns)
    requires h == ExcludePatterns ==> Listable(s.excludePatterns)
    ensures Handle(s, h, ShownValue(s, h), pathExists) == Applied(s)
  {
    match h {
      case SourcePath =>
      case OutputPath =>
      case MaxSizeKb =>
        assert HandleSize(s, IntToString(s.maxSizeKb)) == Applied(s) by {
          ParseIntRoundTrip(s.maxSizeKb);
        }
      case Switch(f) =>
        ReapplySwitch(s, f);
      case IncludePatterns =>
        assert ParsePatterns(OrDash(Join(s.includePatterns, ", "))) == s.includePatterns by {
          ReapplyPatterns(s.includePatterns);
        }
      case ExcludePatterns =>
        assert ParsePatterns(OrDash(Join(s.excludePatterns, ", "))) == s.excludePatterns by {
          ReapplyPatterns(s.excludePatterns);
        }
      case TokenizerModel =>
        assert HandleModel(s, OrDash(s.tokenizerModel)) == Applied(s);
      case NestedSet =>
    }
  }

  lemma ReapplySwitch(s: Settings, f: Flag)
    ensures HandleSwitch(s, f, OnOff(FlagOf(s, f))) == Applied(s)
  {
    var b := FlagOf(s, f);
    var v := OnOff(b);
    assert v == if b then "on" else "off";
    OnOffRoundTrip(b);
    assert HandleSwitch(s, f, v) == Applied(WithFlag(s, f, b));
    WithFlagSame(s, f);
  }

  lemma ReapplyPatterns(patterns: seq<string>)
    requires Listable(patterns)
    ensures ParsePatterns(OrDash(Join(patterns, ", "))) == patterns
  {
    JoinStartsWithFirst(patterns, ", ");
    ParsePatternsRoundTrip(patterns);
  }

  /** `set <key> <shown value>` for a key `show` lists leaves the settings as they were. */
  lemma ShowThenSet(s: Settings, h: Handler, pathExists: string -> bool)
    requires h in ShownHandlers && Sane(s)
    requires h == SourcePath ==> pathExists(s.sourceRoot)
    requires h == IncludePatterns ==> Listable(s.includePatterns)
    requires h == ExcludePatterns ==> Listable(s.excludePatterns)
    ensures SetOutcome(s, [HandlerKey(h), ShownValue(s, h)], pathExists) == SetResult(s, Done(HandlerKey(h)))
  {
    SetByKey(s, h, ShownValue(s, h), pathExists);
    ShownValueReapplies(s, h, pathExists);
  }

  /** An empty pattern list is shown as "-", and setting that back stores the one pattern "-". */
  lemma EmptyPatternsShowDash(s: Settings, pathExists: string -> bool)
    requires s.includePatterns == []
    ensures ShownValue(s, IncludePatterns) == "-"
    ensures SetOutcome(s, ["include_patterns", "-"], pathExists).settings.includePatterns == ["-"]
  {
    SetDash(s, pathExists);
  }

  /** `set include_patterns -` stores the one pattern "-". */
  lemma SetDash(s: Settings, pathExists: string -> bool)
    ensures SetOutcome(s, ["include_patterns", "-"], pathExists).settings.includePatterns == ["-"]
  {
    SetIncludes(s, "-", pathExists);
    DashPatterns();
  }

  lemma SetIncludes(s: Settings, value: string, pathExists: string -> bool)
    ensures SetOutcome(s, ["include_patterns", value], pathExists).settings.includePatterns == ParsePatterns(value)
  {
    assert HandlerKey(IncludePatterns) == "include_patterns";
    SetByKey(s, IncludePatterns, value, pathExists);
  }

  /** The text "-" is the one pattern "-". */
  lemma DashPatterns()
    ensures ParsePatterns("-") == ["-"]
  {
    var dash := "-";
    assert !IsSpace(dash[0]);
    assert TrimStart(dash) == dash && Strip(dash) == dash;
    assert Split(dash, ',') == [dash];
    assert StrippedItems([dash]) == [dash];
  }

  // ------------------------------------------------------- handle_command

  /** `_run_extract`'s first steps: a non-empty source, then a non-empty output, given on the line replaces the current one. */
  function SourceOf(s: Settings, args: seq<string>): string {
    if |args| > 0 && args[0] != "" then args[0] else s.sourceRoot
  }

  function OutputOf(s: Settings, args: seq<string>): string {
    if |args| > 1 && args[1] != "" then args[1] else s.outputPath
  }

  /**
   * The settings after `extract args`. `extracted` is what the extractor
   * run returned, None when it raised; the run happens only when the source
   * root exists, and its statistics are then kept.
   */
  function ExtractOutcome(s: Settings, args: seq<string>, pathExists: string -> bool, extracted: Option<ExtractionStats>): Settings {
    var root := SourceOf(s, args);
    s.(sourceRoot := root, outputPath := OutputOf(s, args),
       lastStats := if pathExists(root) && extracted.Some? then extracted else s.lastStats)
  }

  /** The settings after one command. */
  function CommandOutcome(s: Settings, action: Action, pathExists: string -> bool, extracted: Option<ExtractionStats>): Settings {
    match action
    case Set(args) => SetOutcome(s, args, pathExists).settings
    case Extract(args) => ExtractOutcome(s, args, pathExists, extracted)
    case _ => s
  }

  /**
   * `extract` with no arguments runs on the current paths; a run whose
   * root does not exist, or that raised, leaves the last statistics alone.
   */
  lemma ExtractKeepsStats(s: Settings, args: seq<string>, pathExists: string -> bool, extracted: Option<ExtractionStats>)
    ensures args == [] ==> ExtractOutcome(s, args, pathExists, extracted).(lastStats := s.lastStats) == s
    ensures !pathExists(SourceOf(s, args)) || extracted.None? ==> ExtractOutcome(s, args, pathExists, extracted).lastStats == s.lastStats
  {
  }

  method RunExtract(state: AppState, args: seq<string>, pathExists: string -> bool, extracted: Option<ExtractionStats>)
    modifies state
    ensures state.Snapshot() == ExtractOutcome(old(state.Snapshot()), args, pathExists, extracted)
  {
    UseSource(state, args);
    UseOutput(state, args);
    if pathExists(state.sourceRoot) && extracted.Some? {
      state.lastStats := extracted;
    }
  }

  method UseSource(state: AppState, args: seq<string>)
    modifies state
    ensures state.Snapshot() == old(state.Snapshot()).(sourceRoot := SourceOf(old(state.Snapshot()), args))
  {
    if |args| > 0 && args[0] != "" {
      state.SetSourceRoot(args[0]);
    }
  }

  method UseOutput(state: AppState, args: seq<string>)
    modifies state
    ensures state.Snapshot() == old(state.Snapshot()).(outputPath := OutputOf(old(state.Snapshot()), args))
  {
    if |args| > 1 && args[1] != "" {
      state.SetOutputPath(args[1]);
    }
  }

  /** `handle_command`: false exactly for `exit` and `quit`, whatever the slashes and letter case. */
  method HandleCommand(state: AppState, command: string, shlex: Splitter, pathExists: string -> bool, extracted: Option<ExtractionStats>)
    returns (keepGoing: bool, action: Action)
    modifies state
    ensures action == Dispatch(Tokenize(command, shlex))
    ensures keepGoing <==> action != Quit
    ensures state.Snapshot() == CommandOutcome(old(state.Snapshot()), action, pathExists, extracted)
  {
    action := Dispatch(Tokenize(command, shlex));
    Perform(state, action, pathExists, extracted);
    keepGoing := action != Quit;
  }

  /** The state change of one dispatched command. */
  method Perform(state: AppState, action: Action, pathExists: string -> bool, extracted: Option<ExtractionStats>)
    modifies state
    ensures state.Snapshot() == CommandOutcome(old(state.Snapshot()), action, pathExists, extracted)
  {
    if action.Set? {
      var _ := SetValue(state, action.args, pathExists);
    } else if action.Extract? {
      RunExtract(state, action.args, pathExists, extracted);
    }
  }

  /** A slash in front of a command word changes nothing: `/exit` ends the session as `exit` does. */
  lemma SlashIgnored(token: string, rest: seq<string>)
    ensures Dispatch(["/" + token] + rest) == Dispatch([token] + rest)
  {
    var t := "/" + token;
    assert CommandWord(t) == CommandWord(token) by {
      assert t[1..] == token;
      assert StripSlashes(t) == StripSlashes(token);
    }
    ConsTail(t, rest);
    ConsTail(token, rest);
  }

  // ------------------------------------------------------------ completion

  /** A suggestion: the text to insert and where it starts, counted back from the cursor. */
  datatype Completion = Completion(text: string, startPosition: int)

  /** The "/" kept in front of a completed word, when the word has one. */
  function SlashPrefix(word: string): string {
    if StartsWith(word, "/") then "/" else ""
  }

  /** The lower-cased part of the word that candidates must start with. */
  function Lookup(word: string): string {
    Lower(word[|SlashPrefix(word)|..])
  }

  /** An empty lookup offers every candidate; otherwise the candidate must start with it, ignoring case. */
  predicate Offered(candidate: string, lowered: string) {
    lowered == "" || StartsWith(Lower(candidate), lowered)
  }

  /** The candidates offered, in the completer's order. */
  function Matching(words: seq<string>, lowered: string): seq<string> {
    if words == [] then []
    else
      var last := words[|words| - 1];
      Matching(words[..|words| - 1], lowered) + (if Offered(last, lowered) then [last] else [])
  }

  /** The completions for `matches`, each behind `prefix` and starting at `start`. */
  function Tagged(prefix: string, matches: seq<string>, start: int): seq<Completion> {
    if matches == [] then []
    else Tagged(prefix, matches[..|matches| - 1], start) + [Completion(prefix + matches[|matches| - 1], start)]
  }

  /** `_complete_from_word_completer(completer, word)`. */
  function Completions(words: seq<string>, word: string): seq<Completion> {
    Tagged(SlashPrefix(word), Matching(words, Lookup(word)), -|word|)
  }

  /** The offered candidates are exactly the words the lookup accepts, in order. */
  lemma {:induction false} MatchingExactly(words: seq<string>, lowered: string)
    ensures forall c :: c in Matching(words, lowered) <==> c in words && Offered(c, lowered)
    ensures |Matching(words, lowered)| <= |words|
  {
    if words != [] {
      var init := words[..|words| - 1];
      MatchingExactly(init, lowered);
      assert words == init + [words[|words| - 1]];
    }
  }

  /** An empty lookup offers every word, in order. */
  lemma {:induction false} MatchingAll(words: seq<string>)
    ensures Matching(words, "") == words
  {
    if words != [] {
      MatchingAll(words[..|words| - 1]);
      assert words == words[..|words| - 1] + [words[|words| - 1]];
    }
  }

  lemma {:induction false} TaggedIndex(prefix: string, matches: seq<string>, start: int)
    ensures |Tagged(prefix, matches, start)| == |matches|
    ensures forall i :: 0 <= i < |matches| ==> Tagged(prefix, matches, start)[i] == Completion(prefix + matches[i], start)
  {
    if matches != [] {
      TaggedIndex(prefix, matches[..|matches| - 1], start);
    }
  }

  /**
   * Each completion replaces the whole typed word, keeps its leading "/",
   * and names an offered word; every offered word is completed, in order.
   */
  lemma CompletionsOffered(words: seq<string>, word: string)
    ensures var m := Matching(words, Lookup(word));
            && |Completions(words, word)| == |m|
            && forall i :: 0 <= i < |m| ==>
                 Completions(words, word)[i] == Completion(SlashPrefix(word) + m[i], -|word|)
                 && m[i] in words && Offered(m[i], Lookup(word))
  {
    var m := Matching(words, Lookup(word));
    TaggedIndex(SlashPrefix(word), m, -|word|);
    MatchingExactly(words, Lookup(word));
  }

  /** With nothing typed, every word is suggested as it is. */
  lemma CompletionsOfNothing(words: seq<string>)
    ensures |Completions(words, "")| == |words|
    ensures forall i :: 0 <= i < |words| ==> Completions(words, "")[i] == Completion(words[i], 0)
  {
    assert SlashPrefix("") == "";
    assert Lookup("") == "";
    MatchingAll(words);
    TaggedIndex("", words, 0);
    forall i | 0 <= i < |words| ensures Completions(words, "")[i] == Completion(words[i], 0) {
    }
  }

  lemma TaggedSnoc(prefix: string, matches: seq<string>, x: string, start: int)
    ensures Tagged(prefix, matches + [x], start) == Tagged(prefix, matches, start) + [Completion(prefix + x, start)]
  {
    assert (matches + [x])[..|matches|] == matches;
  }

  lemma MatchingSnoc(words: seq<string>, i: nat, lowered: string)
    requires i < |words|
    ensures Matching(words[..i + 1], lowered) == Matching(words[..i], lowered) + (if Offered(words[i], lowered) then [words[i]] else [])
  {
    assert words[..i + 1][..i] == words[..i];
  }

  method CompleteFromWords(words: seq<string>, word: string) returns (items: seq<Completion>)
    ensures items == Completions(words, word)
  {
    var prefix := "";
    var lookup := word;
    if StartsWith(lookup, "/") {
      prefix := "/";
      lookup := lookup[1..];
    }
    var start := -|word|;
    var lowered := Lower(lookup);
    items := [];
    for i := 0 to |words|
      invariant items == Tagged(prefix, Matching(words[..i], lowered), start)
    {
      var candidate := words[i];
      MatchingSnoc(words, i, lowered);
      if lowered != "" && !StartsWith(Lower(candidate), lowered) {
        assert Matching(words[..i + 1], lowered) == Matching(words[..i], lowered) + [];
        assert Matching(words[..i], lowered) + [] == Matching(words[..i], lowered);
        continue;
      }
      TaggedSnoc(prefix, Matching(words[..i], lowered), candidate, start);
      items := items + [Completion(prefix + candidate, start)];
    }
    assert words[..|words|] == words;
  }
}
