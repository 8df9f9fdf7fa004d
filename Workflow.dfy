/**
 * `WorkflowService` (src/services/workflow.service.ts): the global session
 * state. The history stack and its cursor, the inspiration library, the
 * language, the theme and the anti-bias hand-over are fields the methods
 * update in place; each method is proved against the pure definitions of
 * History.dfy, Library.dfy, I18n.dfy and Gemini.dfy.
 *
 * Browser storage is not modelled: a stored session record, a stored
 * timestamp and the current time are parameters.
 */
module Workflow {
  import opened Options
  import opened WorkflowTypes
  import opened I18n
  import opened Library
  import Gemini
  import H = History

  class WorkflowService {
    var historyStack: seq<PersonaState>
    var currentStateIndex: int
    var inspirationCategories: seq<InspirationCategory>
    var currentLang: Language
    var theme: Theme
    var newInspirationToast: string
    var antiBiasContext: Option<string>

    /** The translation table; its texts are not modelled. */
    const translations: Table

    /** The built-in inspiration library; its contents are not modelled. */
    const initialInspiration: seq<InspirationCategory>

    /** The history as a value. */
    function Snapshot(): H.History
      reads this`historyStack, this`currentStateIndex
    {
      H.History(historyStack, currentStateIndex)
    }

    /** `state()`. */
    function State(): PersonaState
      reads this`historyStack, this`currentStateIndex
    {
      H.Current(Snapshot())
    }

    /** `currentStateIndexValue`. */
    function CursorValue(): int
      reads this`currentStateIndex
    {
      currentStateIndex
    }

    /** The text `t(key)` gives without parameters. */
    function Text(key: string): string
      reads this`currentLang
    {
      Translate(translations, currentLang, key, [])
    }

    /** `themeIcon()`. */
    function Icon(): string
      reads this`theme
    {
      ThemeIcon(theme)
    }

    /**
     * Start-up: restore the stored session, or start fresh; the language
     * starts as Traditional Chinese and the library as the built-in one.
     * The theme chosen from storage or the colour-scheme preference is
     * passed in.
     */
    constructor(table: Table, builtinLibrary: seq<InspirationCategory>, stored: H.StoredSession, startTheme: Theme)
      ensures translations == table && initialInspiration == builtinLibrary
      ensures Snapshot() == H.Restore(stored).0
      ensures inspirationCategories == builtinLibrary
      ensures currentLang == ZhTW && theme == startTheme
      ensures newInspirationToast == "" && antiBiasContext.None?
    {
      translations := table;
      initialInspiration := builtinLibrary;
      inspirationCategories := builtinLibrary;
      currentLang := ZhTW;
      theme := startTheme;
      newInspirationToast := "";
      antiBiasContext := None;
      var restored := H.Restore(stored).0;
      historyStack := restored.stack;
      currentStateIndex := restored.cursor;
    }

    /** `loadState()`: returns whether the stored record must be removed. */
    method LoadState(stored: H.StoredSession) returns (discard: bool)
      modifies this`historyStack, this`currentStateIndex
      ensures (Snapshot(), discard) == H.Restore(stored)
    {
      discard := false;
      if stored.Parsed? {
        if stored.history.Some? && |stored.history.value| > 0 && stored.index.Some? {
          historyStack := stored.history.value;
          currentStateIndex := stored.index.value;
          return;
        }
      } else if stored.Unparseable? {
        discard := true;
      }
      Reset(false);
    }

    /** The auto-save condition. */
    predicate ShouldSave()
      reads this`historyStack
    {
      H.ShouldPersist(historyStack)
    }

    /** `pushState(p)`. */
    method PushState(p: Patch)
      modifies this`historyStack, this`currentStateIndex
      ensures Snapshot() == H.Push(old(Snapshot()), p)
    {
      var current := State();
      var merged := Merge(current, p);
      var newStack := H.SliceTo(historyStack, currentStateIndex + 1);
      newStack := newStack + [merged];
      historyStack := newStack;
      currentStateIndex := |newStack| - 1;
    }

    /** `undo()`. */
    method Undo()
      modifies this`currentStateIndex
      ensures Snapshot() == H.Undo(old(Snapshot()))
    {
      if currentStateIndex > 0 {
        currentStateIndex := currentStateIndex - 1;
      }
    }

    /** `redo()` exactly as the source has it: it decrements the cursor. */
    method Redo()
      modifies this`currentStateIndex
      ensures Snapshot() == H.RedoAsWritten(old(Snapshot()))
    {
      if currentStateIndex < |historyStack| - 1 {
        currentStateIndex := currentStateIndex - 1;
      }
    }

    /** `setStep(s)`. */
    method SetStep(s: PipelineStep)
      modifies this`historyStack, this`currentStateIndex
      ensures Snapshot() == H.SetStep(old(Snapshot()), s)
    {
      if State().step != s {
        PushState(H.StepPatch(s));
      }
    }

    /** `reset(clearStorage)`; clearing the stored record is not modelled. */
    method Reset(clearStorage: bool)
      modifies this`historyStack, this`currentStateIndex
      ensures Snapshot() == H.Reset()
    {
      historyStack := [EmptyState()];
      currentStateIndex := 0;
    }

    /** `initDirectorMode(d)`. */
    method InitDirectorMode(initialDraft: string)
      modifies this`historyStack, this`currentStateIndex
      ensures Snapshot() == H.InitDirector(initialDraft)
    {
      var state := EmptyState().(currentDraft := initialDraft, step := RefineDirector);
      historyStack := [state];
      currentStateIndex := 0;
    }

    method CycleLang()
      modifies this`currentLang
      ensures currentLang == NextLang(old(currentLang))
    {
      var currentIndex := LangIndex(currentLang);
      var nextIndex := (currentIndex + 1) % |LANGS|;
      currentLang := LANGS[nextIndex];
    }

    method CycleTheme()
      modifies this`theme
      ensures theme == NextTheme(old(theme))
    {
      var currentIndex := ThemeIndex(theme);
      var nextIndex := (currentIndex + 1) % |THEMES|;
      theme := THEMES[nextIndex];
    }

    /** `t(key, params)`: look the key up with its fallbacks, then fill the parameters one by one. */
    method T(key: string, params: seq<(string, string)>) returns (translation: string)
      ensures translation == Translate(translations, currentLang, key, params)
    {
      translation := Lookup(translations, currentLang, key);
      ghost var looked := translation;
      for i := 0 to |params|
        invariant translation == ApplyParams(looked, params[..i])
      {
        assert params[..i + 1][..i] == params[..i];
        translation := JsText.ReplaceFirst(translation, Placeholder(params[i].0), params[i].1);
      }
      assert params[..|params|] == params;
    }

    /**
     * `addAIInspirationCategories()`: a new batch replaces the generated
     * categories; a failed call leaves the library as it is and is reported
     * (`ok` false).
     */
    method AddAIInspirationCategories(reply: Gemini.Reply<Option<seq<InspirationCategory>>>) returns (ok: bool)
      modifies this`inspirationCategories
      ensures ok <==> !reply.CallFailed?
      ensures ok ==> inspirationCategories == MergeAIBatch(Gemini.InspirationQuestionsFrom(reply).value, old(inspirationCategories))
      ensures !ok ==> inspirationCategories == old(inspirationCategories)
    {
      var aiCategories := Gemini.InspirationQuestionsFrom(reply);
      if aiCategories.None? {
        return false;
      }
      var nonAiCategories := NonAi(inspirationCategories);
      inspirationCategories := aiCategories.value + nonAiCategories;
      ok := true;
    }

    /** `remixInspirationLibrary()`. */
    method RemixInspirationLibrary(reply: Gemini.Reply<Option<seq<InspirationCategory>>>) returns (ok: bool)
      modifies this`inspirationCategories
      ensures ok <==> !reply.CallFailed?
      ensures ok ==> inspirationCategories == Gemini.RemixInspirationFrom(reply, old(inspirationCategories)).value
      ensures !ok ==> inspirationCategories == old(inspirationCategories)
    {
      var remixed := Gemini.RemixInspirationFrom(reply, inspirationCategories);
      if remixed.None? {
        return false;
      }
      inspirationCategories := remixed.value;
      ok := true;
    }

    /**
     * `initDailyInspiration()`: when a refresh is due, fetch a batch; after a
     * successful fetch the toast is set and the new timestamp is returned.
     */
    method InitDailyInspiration(lastFetch: Option<int>, now: int, reply: Gemini.Reply<Option<seq<InspirationCategory>>>)
      returns (newTimestamp: Option<int>)
      modifies this`inspirationCategories, this`newInspirationToast
      ensures !H.NeedsDailyRefresh(lastFetch, now) ==>
        newTimestamp.None? && inspirationCategories == old(inspirationCategories) &&
        newInspirationToast == old(newInspirationToast)
      ensures H.NeedsDailyRefresh(lastFetch, now) && reply.CallFailed? ==>
        newTimestamp.None? && inspirationCategories == old(inspirationCategories) &&
        newInspirationToast == old(newInspirationToast)
      ensures H.NeedsDailyRefresh(lastFetch, now) && !reply.CallFailed? ==>
        newTimestamp == Some(now) &&
        inspirationCategories == MergeAIBatch(Gemini.InspirationQuestionsFrom(reply).value, old(inspirationCategories)) &&
        newInspirationToast == Translate(translations, currentLang, "inspiration.daily_muse_toast", [])
    {
      newTimestamp := None;
      if H.NeedsDailyRefresh(lastFetch, now) {
        var ok := AddAIInspirationCategories(reply);
        if ok {
          newTimestamp := Some(now);
          newInspirationToast := T("inspiration.daily_muse_toast", []);
        }
      }
    }

    /** `resetInspirationLibrary()`; removing the stored library and timestamp is not modelled. */
    method ResetInspirationLibrary()
      modifies this`inspirationCategories
      ensures inspirationCategories == initialInspiration
    {
      inspirationCategories := initialInspiration;
    }
  }
}
