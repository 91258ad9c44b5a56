/**
 * The REPL command handlers that change settings: the in-place editor
 * of the include/exclude pattern lists, the lenient on/off parser, and
 * `/settings key value` with its key aliases and `key=value` form.
 * Console output is modelled by the reply each handler chooses.
 */
module Commands {
  import opened Wrappers
  import opened Strings
  import opened Numbers
  import opened State

  /** The first position of `x` in `s`. */
  function FirstIndex<T(==)>(s: seq<T>, x: T): (i: nat)
    requires x in s
    ensures i < |s| && s[i] == x && x !in s[..i]
  {
    if s[0] == x then 0
    else
      var i := FirstIndex(s[1..], x) + 1;
      assert s[..i] == [s[0]] + s[1..][..i - 1];
      i
  }

  // ---------------------------------------------------------------- on/off

  const OnWords: set<string> := {"on", "true", "1", "yes", "y"}

  /** `_parse_bool`: on for the five words in any letter case, off for every other text; never fails. */
  function ParseBool(value: string): (r: bool)
    ensures r ==> 1 <= |value| <= 4
  {
    Lower(value) in OnWords
  }

  /** Letter case does not matter. */
  lemma ParseBoolIgnoresCase(value: string)
    ensures ParseBool(Lower(value)) == ParseBool(value)
  {
    LowerIdempotent(value);
  }

  // ------------------------------------------------------- pattern lists

  const NeedAdd := "Provide a pattern to add."
  const AlreadyPresent := "Pattern already present."
  const Added := "Pattern added."
  const NeedRemove := "Provide a pattern to remove."
  const Removed := "Pattern removed."
  const NotFound := "Pattern not found."
  const Cleared := "All patterns cleared."
  const UnknownOp := "Unknown operation. Use add|remove|clear|list."

  /** `list.remove`: the first occurrence of `p` is deleted, the others keep their order. */
  function RemoveFirst(values: seq<string>, p: string): (r: seq<string>)
    requires p in values
    ensures r == values[..FirstIndex(values, p)] + values[FirstIndex(values, p) + 1..]
  {
    if values[0] == p then
      values[1..]
    else
      var i := FirstIndex(values[1..], p);
      assert FirstIndex(values, p) == i + 1;
      assert values[..i + 1] == [values[0]] + values[1..][..i];
      assert values[i + 2..] == values[1..][i + 1..];
      [values[0]] + RemoveFirst(values[1..], p)
  }

  /** Removing takes away exactly one copy of the pattern. */
  lemma RemoveFirstCount(values: seq<string>, p: string)
    requires p in values
    ensures multiset(RemoveFirst(values, p)) == multiset(values) - multiset{p}
  {
    var i := FirstIndex(values, p);
    assert values == values[..i] + [p] + values[i + 1..];
  }

  /** What one `_mutate_patterns` call leaves in the list, and the message it returns. */
  datatype Edit = Edit(values: seq<string>, message: string)

  /** `_mutate_patterns` as a value: the list afterwards and the message. */
  function Mutated(values: seq<string>, op: string, pattern: Option<string>): (e: Edit)
    ensures e.message == "" <==> op == "list"
    ensures op == "clear" ==> e == Edit([], Cleared)
    ensures op !in {"add", "remove", "clear"} ==> e.values == values
    ensures op !in {"add", "remove", "clear", "list"} ==> e.message == UnknownOp
    ensures pattern.None? && op in {"add", "remove"} ==> e.values == values && e.message in {NeedAdd, NeedRemove}
    ensures op == "add" && pattern.Some? ==> pattern.value in e.values && values <= e.values
    ensures op == "remove" && pattern.Some? ==> multiset(e.values) == multiset(values) - multiset{pattern.value}
    ensures e.values != values ==> e.message in {Added, Removed, Cleared}
  {
    if op == "add" then
      if pattern.None? then Edit(values, NeedAdd)
      else if pattern.value in values then Edit(values, AlreadyPresent)
      else Edit(values + [pattern.value], Added)
    else if op == "remove" then
      if pattern.None? then Edit(values, NeedRemove)
      else if pattern.value in values then
        RemoveFirstCount(values, pattern.value);
        Edit(RemoveFirst(values, pattern.value), Removed)
      else Edit(values, NotFound)
    else if op == "clear" then Edit([], Cleared)
    else if op == "list" then Edit(values, "")
    else Edit(values, UnknownOp)
  }

  predicate Distinct(values: seq<string>) {
    forall i, j :: 0 <= i < j < |values| ==> values[i] != values[j]
  }

  /** `add` appends an absent pattern at the end; a present one leaves the list as it was. */
  lemma AddAppends(values: seq<string>, p: string)
    ensures p !in values ==> Mutated(values, "add", Some(p)) == Edit(values + [p], Added)
    ensures p in values ==> Mutated(values, "add", Some(p)) == Edit(values, AlreadyPresent)
    ensures Distinct(values) ==> Distinct(Mutated(values, "add", Some(p)).values)
  {
  }

  /** `remove` deletes the first occurrence only; an absent pattern is reported and nothing changes. */
  lemma RemoveDeletesFirst(values: seq<string>, p: string)
    ensures p !in values ==> Mutated(values, "remove", Some(p)) == Edit(values, NotFound)
    ensures p in values ==> Mutated(values, "remove", Some(p)).message == Removed
    ensures p in values ==>
      exists i :: 0 <= i < |values| && values[i] == p && p !in values[..i]
        && Mutated(values, "remove", Some(p)).values == values[..i] + values[i + 1..]
  {
    if p in values {
      var i := FirstIndex(values, p);
      assert Mutated(values, "remove", Some(p)).values == values[..i] + values[i + 1..];
    }
  }

  /** Adding an absent pattern and removing it again restores the list. */
  lemma AddThenRemove(values: seq<string>, p: string)
    requires p !in values
    ensures Mutated(Mutated(values, "add", Some(p)).values, "remove", Some(p)) == Edit(values, Removed)
  {
    var added := values + [p];
    var i := FirstIndex(added, p);
    assert added[..|values|] == values;
    assert i == |values|;
    assert added[..i] == values;
  }

  /** `_mutate_patterns`: the list after the edit, and the message. */
  method Mutate(values: seq<string>, op: string, pattern: Option<string>) returns (after: seq<string>, message: string)
    ensures Edit(after, message) == Mutated(values, op, pattern)
  {
    after := values;
    if op == "add" {
      if pattern.None? {
        return values, NeedAdd;
      }
      if pattern.value in values {
        return values, AlreadyPresent;
      }
      after := values + [pattern.value];
      message := Added;
    } else if op == "remove" {
      if pattern.None? {
        return values, NeedRemove;
      }
      if pattern.value !in values {
        return values, NotFound;
      }
      after := RemoveFirst(values, pattern.value);
      message := Removed;
    } else if op == "clear" {
      after := [];
      message := Cleared;
    } else if op == "list" {
      message := "";
    } else {
      message := UnknownOp;
    }
  }

  /** What `/include` and `/exclude` show: the list, or the message in a colour. */
  datatype Reply = ListTable | Notice(colour: string, text: string)

  /** Success messages are green, warnings yellow, anything else red; `list` and an empty message show the table. */
  function ReplyOf(op: string, message: string): (r: Reply)
    ensures r.ListTable? <==> op == "list" || message == ""
    ensures r.Notice? ==> r.text == message && r.colour in {"green", "yellow", "red"}
    ensures r.Notice? ==> (r.colour == "green" <==> message in {Added, Removed, Cleared})
  {
    if op == "list" || message == "" then ListTable
    else if message in {Added, Removed, Cleared} then Notice("green", message)
    else if message in {AlreadyPresent, NotFound} then Notice("yellow", message)
    else Notice("red", message)
  }

  /** A command that changed the list answers in green; a red answer means nothing changed. */
  lemma ChangeIsGreen(values: seq<string>, op: string, pattern: Option<string>)
    ensures var e := Mutated(values, op, pattern);
            e.values != values ==> ReplyOf(op, e.message) == Notice("green", e.message)
    ensures var e := Mutated(values, op, pattern);
            ReplyOf(op, e.message).Notice? && ReplyOf(op, e.message).colour == "red" ==> e.values == values
  {
  }

  function OpOf(args: seq<string>): string {
    if |args| > 0 then args[0] else "list"
  }

  function PatternOf(args: seq<string>): Option<string> {
    if |args| > 1 then Some(args[1]) else None
  }

  /** `/include [op [pattern]]`: the operation defaults to `list`. */
  method CmdInclude(state: AppState, args: seq<string>) returns (reply: Reply)
    modifies state
    ensures var e := Mutated(old(state.includePatterns), OpOf(args), PatternOf(args));
            reply == ReplyOf(OpOf(args), e.message) && state.Snapshot() == old(state.Snapshot()).(includePatterns := e.values)
  {
    var op := OpOf(args);
    var after, message := Mutate(state.includePatterns, op, PatternOf(args));
    state.includePatterns := after;
    reply := ReplyOf(op, message);
  }

  /** `/exclude [op [pattern]]`: the same editor on the exclude list. */
  method CmdExclude(state: AppState, args: seq<string>) returns (reply: Reply)
    modifies state
    ensures var e := Mutated(old(state.excludePatterns), OpOf(args), PatternOf(args));
            reply == ReplyOf(OpOf(args), e.message) && state.Snapshot() == old(state.Snapshot()).(excludePatterns := e.values)
  {
    var op := OpOf(args);
    var after, message := Mutate(state.excludePatterns, op, PatternOf(args));
    state.excludePatterns := after;
    reply := ReplyOf(op, message);
  }

  // ------------------------------------------------------------ /settings

  /** The targets of `SETTING_ALIASES`. */
  datatype Setting = MaxSize | Output | Compact | SkipEmpty | UseGitignore | TokenizerModel | TokenCount | CopyClipboard

  /** Each target's own name, the key `SETTING_ALIASES` files it under. */
  function TargetName(t: Setting): string {
    match t
    case MaxSize => "max_size"
    case Output => "output"
    case Compact => "compact"
    case SkipEmpty => "skip_empty"
    case UseGitignore => "use_gitignore"
    case TokenizerModel => "tokenizer_model"
    case TokenCount => "token_count"
    case CopyClipboard => "copy_clipboard"
  }

  /** `SETTING_ALIASES`, in its declaration order. */
  const SettingAliases: seq<(Setting, set<string>)> := [
    (MaxSize, {"max_size", "max", "size"}),
    (Output, {"output", "out", "file", "path", "output_path"}),
    (Compact, {"compact", "compact_mode", "mode"}),
    (SkipEmpty, {"skip_empty", "skip-empty", "empty"}),
    (UseGitignore, {"use_gitignore", "gitignore", "use-gitignore"}),
    (TokenizerModel, {"tokenizer_model", "tokenizer", "model"}),
    (TokenCount, {"token_count", "count_tokens", "tokens"}),
    (CopyClipboard, {"copy", "clipboard", "copy_to_clipboard"})]

  /** The first target in `table` whose aliases hold `key`. */
  function Resolve(table: seq<(Setting, set<string>)>, key: string): (r: Option<Setting>)
    ensures r.None? <==> forall i :: 0 <= i < |table| ==> key !in table[i].1
    ensures r.Some? ==> exists i :: 0 <= i < |table| && table[i].0 == r.value && key in table[i].1
                                    && forall j :: 0 <= j < i ==> key !in table[j].1
  {
    if table == [] then None
    else if key in table[0].1 then Some(table[0].0)
    else
      var r := Resolve(table[1..], key);
      if r.Some? then
        var i :| 0 <= i < |table[1..]| && table[1..][i].0 == r.value && key in table[1..][i].1
                 && forall j :: 0 <= j < i ==> key !in table[1..][j].1;
        assert forall j :: 1 <= j < i + 1 ==> table[j] == table[1..][j - 1];
        r
      else r
  }

  /** `canonical`: the setting a lower-cased key names, if any. */
  function Canonical(key: string): Option<Setting> {
    Resolve(SettingAliases, key)
  }

  /** No key is an alias of two settings, so the first match is the only one. */
  lemma AliasesDisjoint()
    ensures forall i, j :: 0 <= i < j < |SettingAliases| ==> SettingAliases[i].1 !! SettingAliases[j].1
  {
  }

  /** Every alias resolves to its own setting, whatever the table's order. */
  lemma AliasResolves(i: nat, key: string)
    requires i < |SettingAliases| && key in SettingAliases[i].1
    ensures Canonical(key) == Some(SettingAliases[i].0)
  {
    AliasesDisjoint();
    assert forall j :: 0 <= j < |SettingAliases| && j != i ==> key !in SettingAliases[j].1;
    var r := Canonical(key);
    var k :| 0 <= k < |SettingAliases| && SettingAliases[k].0 == r.value && key in SettingAliases[k].1;
  }

  /** `copy_clipboard` is the one target its own name does not reach. */
  lemma CopyClipboardUnnamed()
    ensures Canonical(TargetName(CopyClipboard)).None?
  {
    var key := TargetName(CopyClipboard);
    assert |key| == 14;
    forall i | 0 <= i < |SettingAliases|
      ensures key !in SettingAliases[i].1
    {
    }
  }

  /** Each setting is reachable by its own name except `copy_clipboard`, whose alias set leaves that name out. */
  lemma TargetNames(t: Setting)
    ensures t != CopyClipboard ==> Canonical(TargetName(t)) == Some(t)
    ensures Canonical(TargetName(CopyClipboard)).None?
  {
    CopyClipboardUnnamed();
    match t
    case MaxSize => AliasResolves(0, "max_size");
    case Output => AliasResolves(1, "output");
    case Compact => AliasResolves(2, "compact");
    case SkipEmpty => AliasResolves(3, "skip_empty");
    case UseGitignore => AliasResolves(4, "use_gitignore");
    case TokenizerModel => AliasResolves(5, "tokenizer_model");
    case TokenCount => AliasResolves(6, "token_count");
    case CopyClipboard =>
  }

  /** The key and the value of a `/settings` call; a lone `key=value` word is split at its first "=". */
  datatype Request = Request(key: string, value: Option<string>)

  function RequestOf(args: seq<string>): (r: Request)
    requires args != []
    ensures |args| > 1 ==> r == Request(args[0], Some(args[1]))
    ensures |args| == 1 && '=' !in args[0] ==> r == Request(args[0], None)
    ensures |args| == 1 && '=' in args[0] ==> r.value.Some? && '=' !in r.key && r.key + "=" + r.value.value == args[0]
  {
    var raw := args[0];
    if |args| > 1 then Request(raw, Some(args[1]))
    else if '=' in raw then
      var i := FirstIndex(raw, '=');
      assert raw == raw[..i] + "=" + raw[i + 1..];
      Request(raw[..i], Some(raw[i + 1..]))
    else Request(raw, None)
  }

  /** What `/settings` shows: the table, an error in red, or the confirmation and the table. */
  datatype SettingsReply = ShowTable | Error(text: string) | Updated

  /** The complaint for a setting given without a value. */
  function MissingValue(t: Setting): string {
    match t
    case MaxSize => "Provide a numeric value for max_size."
    case Output => "Provide a path for output file."
    case Compact => "Provide 'on' or 'off' for compact mode."
    case SkipEmpty => "Provide 'on' or 'off' for skip_empty."
    case UseGitignore => "Provide 'on' or 'off' for use_gitignore."
    case TokenizerModel => "Provide a tokenizer model name."
    case TokenCount => "Provide 'on' or 'off' for token counting."
    case CopyClipboard => "Provide 'on' or 'off' for copy to clipboard."
  }

  const NotAnInteger := "max_size must be an integer (KB)."

  /** The settings after giving `value` to `t`; None when `max_size` gets a non-integer. Exactly one field changes. */
  function Assigned(s: Settings, t: Setting, value: string): (r: Option<Settings>)
    ensures r.None? <==> t == MaxSize && ParseInt(value).None?
    ensures r.Some? ==> r.value.includePatterns == s.includePatterns && r.value.excludePatterns == s.excludePatterns
    ensures r.Some? ==> r.value.sourceRoot == s.sourceRoot && r.value.skipPatterns == s.skipPatterns
  {
    match t
    case MaxSize =>
      var n := ParseInt(value);
      if n.None? then None else Some(s.(maxSizeKb := n.value))
    case Output => Some(s.(outputPath := value))
    case TokenizerModel => Some(s.(tokenizerModel := value))
    case _ => Some(Switched(s, t, ParseBool(value)))
  }

  /** The settings and the reply after `/settings args`. */
  datatype Outcome = Outcome(settings: Settings, reply: SettingsReply)

  function SettingsOutcome(s: Settings, args: seq<string>): (r: Outcome)
    ensures args == [] ==> r == Outcome(s, ShowTable)
    ensures !r.reply.Updated? ==> r.settings == s
    ensures r.reply.Updated? <==>
              args != [] && Canonical(Lower(RequestOf(args).key)).Some? && RequestOf(args).value.Some?
              && Assigned(s, Canonical(Lower(RequestOf(args).key)).value, RequestOf(args).value.value).Some?
    ensures args != [] && Canonical(Lower(RequestOf(args).key)).None? ==>
              r == Outcome(s, Error("Unknown setting '" + RequestOf(args).key + "'."))
  {
    if args == [] then Outcome(s, ShowTable)
    else
      var req := RequestOf(args);
      var canonical := Canonical(Lower(req.key));
      if canonical.None? then Outcome(s, Error("Unknown setting '" + req.key + "'."))
      else if req.value.None? then Outcome(s, Error(MissingValue(canonical.value)))
      else
        var next := Assigned(s, canonical.value, req.value.value);
        if next.None? then Outcome(s, Error(NotAnInteger)) else Outcome(next.value, Updated)
  }

  lemma UpdatedOutcome(s: Settings, args: seq<string>, t: Setting, value: string)
    requires args != [] && Canonical(Lower(RequestOf(args).key)) == Some(t) && RequestOf(args).value == Some(value)
    requires Assigned(s, t, value).Some?
    ensures SettingsOutcome(s, args) == Outcome(Assigned(s, t, value).value, Updated)
  {
  }

  /**
   * One branch of `cmd_settings`: assigns the value to the setting's field,
   * or refuses a `max_size` that is not an integer and changes nothing.
   */
  method AssignSetting(state: AppState, t: Setting, value: string) returns (ok: bool)
    modifies state
    ensures ok <==> Assigned(old(state.Snapshot()), t, value).Some?
    ensures state.Snapshot() == if ok then Assigned(old(state.Snapshot()), t, value).value else old(state.Snapshot())
  {
    ghost var before := state.Snapshot();
    match t {
      case MaxSize =>
        var n := ParseInt(value);
        if n.None? {
          return false;
        }
        state.maxSizeKb := n.value;
        assert state.Snapshot() == before.(maxSizeKb := n.value);
      case Output =>
        state.SetOutputPath(value);
      case TokenizerModel =>
        state.tokenizerModel := value;
        assert state.Snapshot() == before.(tokenizerModel := value);
      case _ =>
        SetSwitch(state, t, ParseBool(value));
        assert Assigned(before, t, value) == Some(Switched(before, t, ParseBool(value)));
    }
    return true;
  }

  /** The on/off settings a `/settings` call may switch. */
  predicate IsSwitch(t: Setting) {
    t.Compact? || t.SkipEmpty? || t.UseGitignore? || t.TokenCount? || t.CopyClipboard?
  }

  /** The settings with the switch `t` set to `on`. */
  function Switched(s: Settings, t: Setting, on: bool): (r: Settings)
    requires IsSwitch(t)
    ensures r == s.(compactMode := r.compactMode, skipEmpty := r.skipEmpty, useGitignore := r.useGitignore,
                    enableTokenCount := r.enableTokenCount, copyToClipboard := r.copyToClipboard)
  {
    match t
    case Compact => s.(compactMode := on)
    case SkipEmpty => s.(skipEmpty := on)
    case UseGitignore => s.(useGitignore := on)
    case TokenCount => s.(enableTokenCount := on)
    case CopyClipboard => s.(copyToClipboard := on)
  }

  method SetSwitch(state: AppState, t: Setting, on: bool)
    requires IsSwitch(t)
    modifies state
    ensures state.Snapshot() == Switched(old(state.Snapshot()), t, on)
  {
    match t {
      case Compact =>
        state.compactMode := on;
        assert state.Snapshot() == old(state.Snapshot()).(compactMode := on);
        return;
      case SkipEmpty =>
        state.skipEmpty := on;
        assert state.Snapshot() == old(state.Snapshot()).(skipEmpty := on);
        return;
      case UseGitignore =>
        state.useGitignore := on;
        assert state.Snapshot() == old(state.Snapshot()).(useGitignore := on);
        return;
      case TokenCount =>
        state.enableTokenCount := on;
        assert state.Snapshot() == old(state.Snapshot()).(enableTokenCount := on);
        return;
      case CopyClipboard =>
        state.copyToClipboard := on;
        assert state.Snapshot() == old(state.Snapshot()).(copyToClipboard := on);
        return;
    }
  }

  /** `/settings`: shows the table, or resolves the key, checks the value and assigns one field. */
  method CmdSettings(state: AppState, args: seq<string>) returns (reply: SettingsReply)
    modifies state
    ensures Outcome(state.Snapshot(), reply) == SettingsOutcome(old(state.Snapshot()), args)
  {
    if args == [] {
      return ShowTable;
    }
    var req := RequestOf(args);
    var canonical := Canonical(Lower(req.key));
    if canonical.None? {
      return Error("Unknown setting '" + req.key + "'.");
    }
    if req.value.None? {
      return Error(MissingValue(canonical.value));
    }
    ghost var before := state.Snapshot();
    var ok := AssignSetting(state, canonical.value, req.value.value);
    if !ok {
      return Error(NotAnInteger);
    }
    reply := Updated;
    UpdatedOutcome(before, args, canonical.value, req.value.value);
  }

  /** `key=value` as one word behaves exactly like `key value` as two, for a key without "=". */
  lemma KeyValueWord(s: Settings, key: string, value: string)
    requires '=' !in key
    ensures SettingsOutcome(s, [key + "=" + value]) == SettingsOutcome(s, [key, value])
  {
    var raw := key + "=" + value;
    var i := FirstIndex(raw, '=');
    assert raw[..|key|] == key && raw[|key|] == '=';
    assert i == |key|;
    assert raw[..i] == key && raw[i + 1..] == value;
  }

  /** Keys are matched without regard to letter case. */
  lemma KeysIgnoreCase(s: Settings, key: string, value: string)
    ensures SettingsOutcome(s, [Lower(key), value]).settings == SettingsOutcome(s, [key, value]).settings
  {
    LowerIdempotent(key);
  }
}
