/**
 * The settings form: its helpers, and saving it, which checks the size
 * limit before it assigns any setting.
 */
module SettingsScreen {
  import opened Wrappers
  import opened Strings
  import opened Numbers
  import opened State
  import Interactive

  /** `_state_text`: the label beside a switch. */
  function StateText(value: bool): string {
    if value then "Вкл" else "Выкл"
  }

  /** The label tells the two switch positions apart. */
  lemma StateTextShowsValue(a: bool, b: bool)
    ensures StateText(a) == StateText(b) <==> a == b
    ensures |StateText(true)| == 3 && |StateText(false)| == 4
  {
  }

  /** `_split_list`: nothing for the empty text, else the stripped non-blank comma items in order. */
  function SplitList(text: string): seq<string> {
    if text == "" then [] else CommaItems(text)
  }

  /** The empty text has no comma items either. */
  lemma SplitListIsCommaItems(text: string)
    ensures SplitList(text) == CommaItems(text)
  {
    if text == "" {
      assert Split(text, ',') == [""];
      assert StrippedItems([""]) == [];
    }
  }

  /**
   * Testing the empty text rather than the blank one makes no difference:
   * the form splits a list exactly as the shell's `_parse_patterns` does.
   */
  lemma SplitListAsShell(text: string)
    ensures SplitList(text) == Interactive.ParsePatterns(text)
  {
    SplitListIsCommaItems(text);
    Interactive.ParsePatternsItems(text);
  }

  /** `_parse_int(value, fallback=...)`. */
  function ParseIntOr(value: string, fallback: int): int {
    match ParseInt(value)
    case Some(n) => n
    case None => fallback
  }

  /** A number as `str` writes it parses back; text `int` refuses gives the fallback. */
  lemma ParseIntOrCases(value: string, n: int, fallback: int)
    ensures ParseIntOr(IntToString(n), fallback) == n
    ensures ParseInt(value).None? ==> ParseIntOr(value, fallback) == fallback
  {
    ParseIntRoundTrip(n);
  }

  /** What the form holds when "Save" is pressed. */
  datatype Form = Form(
    maxSize: string,
    compactMode: bool,
    skipEmpty: bool,
    useGitignore: bool,
    forceInclude: bool,
    countTokens: bool,
    copyToClipboard: bool,
    includeText: string,
    excludeText: string,
    tokenizerModel: string)

  /** The form `compose` fills in from the settings. */
  function FormOf(s: Settings): Form {
    Form(IntToString(s.maxSizeKb), s.compactMode, s.skipEmpty, s.useGitignore, s.forceInclude,
         s.enableTokenCount, s.copyToClipboard, Join(s.includePatterns, ", "), Join(s.excludePatterns, ", "),
         s.tokenizerModel)
  }

  /** The size `_apply_changes` reads: the stripped text as an integer, or the current limit. */
  function SubmittedSize(s: Settings, form: Form): int {
    ParseIntOr(Strip(form.maxSize), s.maxSizeKb)
  }

  /** The model name saved: the stripped entry, or the current model when it is blank. */
  function SubmittedModel(s: Settings, form: Form): string {
    if Strip(form.tokenizerModel) == "" then s.tokenizerModel else Strip(form.tokenizerModel)
  }

  /** The settings `_apply_changes` leaves: None when it refuses a size that is not positive. */
  function Saved(s: Settings, form: Form): Option<Settings> {
    var size := SubmittedSize(s, form);
    if size <= 0 then None
    else Some(s.(maxSizeKb := size,
                 compactMode := form.compactMode, skipEmpty := form.skipEmpty, useGitignore := form.useGitignore,
                 forceInclude := form.forceInclude, enableTokenCount := form.countTokens, copyToClipboard := form.copyToClipboard,
                 includePatterns := SplitList(form.includeText), excludePatterns := SplitList(form.excludeText),
                 tokenizerModel := SubmittedModel(s, form)))
  }

  /** A saved form is the size, then the switches, then the lists and the model, assigned in turn. */
  lemma SavedInSteps(s: Settings, form: Form)
    requires SubmittedSize(s, form) > 0
    ensures Saved(s, form)
            == Some(s.(maxSizeKb := SubmittedSize(s, form))
                     .(compactMode := form.compactMode, skipEmpty := form.skipEmpty, useGitignore := form.useGitignore,
                       forceInclude := form.forceInclude, enableTokenCount := form.countTokens, copyToClipboard := form.copyToClipboard)
                     .(includePatterns := SplitList(form.includeText), excludePatterns := SplitList(form.excludeText),
                       tokenizerModel := SubmittedModel(s, form)))
  {
  }

  /** A saved form always leaves a positive limit, and keeps the settings sane. */
  lemma SavedIsSane(s: Settings, form: Form)
    requires Saved(s, form).Some?
    ensures Saved(s, form).value.maxSizeKb > 0
    ensures Interactive.Sane(s) ==> Interactive.Sane(Saved(s, form).value)
  {
    StripIdempotent(form.tokenizerModel);
  }

  /** A size the form cannot parse keeps the current limit, so on sane settings the form is still saved. */
  lemma UnparsableSizeKeepsLimit(s: Settings, form: Form)
    requires ParseInt(Strip(form.maxSize)).None? && s.maxSizeKb > 0
    ensures Saved(s, form).Some? && Saved(s, form).value.maxSizeKb == s.maxSizeKb
  {
  }

  /** The pattern lists the form can show and read back: possibly empty, each item stripped, non-blank and comma-free. */
  predicate Editable(patterns: seq<string>) {
    forall i :: 0 <= i < |patterns| ==> patterns[i] != "" && Strip(patterns[i]) == patterns[i] && ',' !in patterns[i]
  }

  lemma SplitListRoundTrip(patterns: seq<string>)
    requires Editable(patterns)
    ensures SplitList(Join(patterns, ", ")) == patterns
  {
    SplitListAsShell(Join(patterns, ", "));
    CommaItemsOfCommaJoin(patterns);
  }

  /** Opening the form and saving it untouched changes nothing. */
  lemma SaveUntouchedForm(s: Settings)
    requires s.maxSizeKb > 0 && Strip(s.tokenizerModel) == s.tokenizerModel
    requires Editable(s.includePatterns) && Editable(s.excludePatterns)
    ensures Saved(s, FormOf(s)) == Some(s)
  {
    Numbers.NoSpaceInNumber(s.maxSizeKb);
    ParseIntRoundTrip(s.maxSizeKb);
    SplitListRoundTrip(s.includePatterns);
    SplitListRoundTrip(s.excludePatterns);
  }

  /** The form's view of the application state. */
  class SettingsForm {
    const appState: AppState

    constructor (appState: AppState)
      ensures this.appState == appState
    {
      this.appState := appState;
    }

    /**
     * `_apply_changes`: a size that is not positive is refused before any
     * setting is assigned; otherwise the size, the six switches, both lists
     * and the model are assigned.
     */
    method ApplyChanges(form: Form) returns (saved: bool)
      modifies appState
      ensures saved <==> Saved(old(appState.Snapshot()), form).Some?
      ensures appState.Snapshot() == if saved then Saved(old(appState.Snapshot()), form).value else old(appState.Snapshot())
    {
      ghost var before := appState.Snapshot();
      var size := ParseIntOr(Strip(form.maxSize), appState.maxSizeKb);
      assert size == SubmittedSize(before, form);
      if size <= 0 {
        return false;
      }
      AssignSize(size);
      AssignSwitches(form);
      AssignTexts(before, form);
      SavedInSteps(before, form);
      return true;
    }

    method AssignSize(size: int)
      modifies appState
      ensures appState.Snapshot() == old(appState.Snapshot()).(maxSizeKb := size)
    {
      appState.maxSizeKb := size;
    }

    method AssignSwitches(form: Form)
      modifies appState
      ensures appState.Snapshot() == old(appState.Snapshot()).(
                compactMode := form.compactMode, skipEmpty := form.skipEmpty, useGitignore := form.useGitignore,
                forceInclude := form.forceInclude, enableTokenCount := form.countTokens, copyToClipboard := form.copyToClipboard)
    {
      appState.compactMode := form.compactMode;
      appState.skipEmpty := form.skipEmpty;
      appState.useGitignore := form.useGitignore;
      appState.forceInclude := form.forceInclude;
      appState.enableTokenCount := form.countTokens;
      appState.copyToClipboard := form.copyToClipboard;
    }

    method AssignTexts(ghost before: Settings, form: Form)
      requires appState.tokenizerModel == before.tokenizerModel
      modifies appState
      ensures appState.Snapshot() == old(appState.Snapshot()).(
                includePatterns := SplitList(form.includeText), excludePatterns := SplitList(form.excludeText),
                tokenizerModel := SubmittedModel(before, form))
    {
      AssignModel(before, form);
      AssignLists(SplitList(form.includeText), SplitList(form.excludeText));
    }

    method AssignModel(ghost before: Settings, form: Form)
      requires appState.tokenizerModel == before.tokenizerModel
      modifies appState
      ensures appState.Snapshot() == old(appState.Snapshot()).(tokenizerModel := SubmittedModel(before, form))
    {
      var model := Strip(form.tokenizerModel);
      if model != "" {
        appState.tokenizerModel := model;
      }
    }

    method AssignLists(includes: seq<string>, excludes: seq<string>)
      modifies appState
      ensures appState.Snapshot() == old(appState.Snapshot()).(includePatterns := includes, excludePatterns := excludes)
    {
      appState.includePatterns, appState.excludePatterns := includes, excludes;
    }
  }
}
