# Persona Alchemist: a Dafny model of the workflow core

Persona Alchemist is an Angular application for designing role-play character
prompts. You describe a character in a free chat ("vibe"), and a model turns
it into a five-section structured persona. A director interview refines the
draft. A check step then shows a three-layer analysis: logical conflicts,
bias, and missing depth elements. You resolve these, or you deepen the
persona with a four-layer psychological "remix". There are also a prompt
architect form, a prompt-tool chat, an anti-bias audit chat and an
inspiration browser with a library of question cards.

This project models the deterministic core of that program:

- **The global workflow service** (`Workflow.dfy`, `History.dfy`,
  `WorkflowTypes.dfy`, `Library.dfy`, `I18n.dfy`). The service is a class.
  Its fields are updated in place:
  - the history stack and its cursor;
  - the inspiration library;
  - the language and the theme;
  - the anti-bias hand-over.

  Each method is proved against a pure definition: undo/redo and snapshot
  merging, session save/restore, the daily refresh window, the library
  merge, and translation lookup with parameter filling.
- **The model-service helpers** (`Gemini.dfy`):
  - the persona-to-prompt serializer and its remix detection;
  - the fallbacks applied to unparseable model replies;
  - the per-language choice of a system prompt and the audit-context
    injection.
- **The streamed chat loop** shared by four components (`ChatStream.dfy`):
  - the text accumulated across chunks;
  - citations deduplicated by URI, kept in first-seen order, last one wins;
  - the message rewritten after each chunk;
  - what a failure leaves behind.
- **Each component as a class** whose methods change its fields and the
  service's history: `VibeCode.dfy`, `Director.dfy`, `AntiBias.dfy`,
  `Tool.dfy`, `Check.dfy`, `InspirationModal.dfy`, `Architect.dfy` and
  `App.dfy`.
- **JavaScript semantics the code relies on**:
  - `JsText.dfy`: `trim` with the exact ECMAScript white-space set,
    `indexOf`, `includes`, first-occurrence `replace`, `join`, and how a
    missing property renders as `"undefined"`;
  - `InsertionMaps.dfy`: `Map` insertion order.

Model calls are not executed. Their outcomes are inputs to the methods:
- `Gemini.Reply` says whether a call threw, returned text whose parsing
  threw (text that is not JSON, and for the inspiration replies also the
  JSON `null`, on which the next property access throws), or returned a
  value;
- `ChatStream.StreamReply` says whether a stream was refused, delivered its
  chunks and ended, or broke off;
- `Option` carries the result of a non-streamed call, `None` when it throws.

Browser storage, the clock and randomness are parameters: a stored session
record, a stored timestamp, `now`, and a `choice` for the random card.

### Where the model follows the code rather than the specification

- `setStep` pushes a new snapshot, which cuts the stack just after the
  cursor, so redo history above the cursor is lost (`History.SetStep`).
- A stored session that parses but fails validation is not removed from
  storage. Only one whose parsing or destructuring throws is removed: text
  that is not JSON, or the JSON `null` (`History.Restore`).
- `remixInspiration` gives no categories when the parsed reply lacks
  `categories`. It keeps the current library only when the text is not
  JSON or is the JSON `null`. `generateInspirationQuestions` gives no
  categories in both cases.
- The analysis fallback report has `bias_detected: false` and no other bias
  fields.
- The random card is `pool[choice % |pool|]`. With an empty library, the
  source's `openEditCard(undefined)` throws after `editingRandom` has been
  set.
- In the prompt tool, a `{text}` object is passed to `preventDefault` and
  throws. So `requestWrapUp` goes through the input field instead.

## Model

| member | source | states |
|---|---|---|
| WorkflowTypes.EmptyState | src/services/workflow.service.ts:635-643 | a fresh snapshot is at the vibe-entry step, with no messages, an empty draft, and no persona, report or remix |
| WorkflowTypes.Merge | src/services/workflow.service.ts:646-648 | the spread: every property the partial writes is taken from it, and every other property is kept from the current snapshot |
| WorkflowTypes.MergeNoChange | src/services/workflow.service.ts:648 | the empty partial leaves a snapshot unchanged |
| WorkflowTypes.MergeIdempotent | src/services/workflow.service.ts:648 | merging the same partial twice is merging it once |
| WorkflowTypes.MergeThen | src/services/workflow.service.ts:648 | two merges in a row equal one merge of the combined partial, with the later writes winning |
| History.Current | src/services/workflow.service.ts:512-519 | the snapshot under the cursor when the cursor is in range, otherwise the empty snapshot |
| History.SliceTo | src/services/workflow.service.ts:649 | `slice(0, end)`: a prefix of the stack, clamped at both ends, with a negative end counting from the back |
| History.Push | src/services/workflow.service.ts:646-653 | the cursor lands on the new top, whose snapshot is the merged one; for an in-range cursor the stack is the kept prefix plus the merged snapshot |
| History.Undo | src/services/workflow.service.ts:655-659 | the stack is unchanged; the cursor moves back by one, but never below the first snapshot |
| History.RedoAsWritten | src/services/workflow.service.ts:661-665 | the source's redo: below the top the cursor moves DOWN by one, and at the top nothing changes |
| History.Redo | src/services/workflow.service.ts:661-665 | the intended redo: below the top the cursor moves up by one, and at the top nothing changes |
| History.SetStep | src/services/workflow.service.ts:667-671 | afterwards the current step is `s`; an unchanged step leaves the history alone; otherwise the new snapshot differs only in the step and goes just above the cursor, so every snapshot above the old cursor is dropped |
| History.Reset | src/services/workflow.service.ts:673-679 | a valid history of one snapshot, the empty one |
| History.InitDirector | src/services/workflow.service.ts:681-689 | a valid history of one snapshot: the empty one with the given draft, at the director step |
| History.UndoKeepsValid | src/services/workflow.service.ts:655-659 | undo keeps the cursor on a snapshot |
| History.RedoKeepsValid | src/services/workflow.service.ts:661-665 | the intended redo keeps the cursor on a snapshot |
| History.UndoAfterPush | src/services/workflow.service.ts:646-659 | undo right after a push shows the snapshot the push started from, and the pushed snapshot stays above it |
| History.RedoAfterUndo | src/services/workflow.service.ts:655-665 | the intended redo exactly reverses an undo |
| History.RedoAsWrittenLosesState | src/services/workflow.service.ts:661-665 | with the source's redo, push then undo then redo leaves the cursor at -1, where `state()` shows the empty snapshot |
| History.RunKeepsValid | src/services/workflow.service.ts:646-689 | every sequence of service operations, with the intended redo, keeps the cursor on a snapshot |
| History.AutoSaveOnlyWithProgress | src/services/workflow.service.ts:559 | a fresh or just-started director session is not saved; after any push the session is saved, and undo or redo keeps it saved |
| History.Restore | src/services/workflow.service.ts:567-587 | a record that passes validation is restored as stored, and anything else resets; only a record that is not JSON, or is the JSON `null`, is removed |
| History.SaveRestoreRoundTrip | src/services/workflow.service.ts:559-560 | every history the auto-save writes is restored exactly, and its record is kept |
| History.DailyRefreshWindow | src/services/workflow.service.ts:594-596 | there is no refresh within twelve hours of a fetch, and once a refresh is due it stays due |
| Workflow.WorkflowService.constructor | src/services/workflow.service.ts:486-491 | the session is restored from the stored record; the language starts as Traditional Chinese; the library is the built-in one; there is no toast and no hand-over |
| Workflow.WorkflowService.LoadState | src/services/workflow.service.ts:567-587 | the new history, and whether the record is removed, are exactly `History.Restore` of the record |
| Workflow.WorkflowService.PushState | src/services/workflow.service.ts:646-653 | the new history is `History.Push` of the old one |
| Workflow.WorkflowService.Undo | src/services/workflow.service.ts:655-659 | the new history is `History.Undo` of the old one |
| Workflow.WorkflowService.Redo | src/services/workflow.service.ts:661-665 | the new history is `History.RedoAsWritten` of the old one (the source's behaviour) |
| Workflow.WorkflowService.SetStep | src/services/workflow.service.ts:667-671 | the new history is `History.SetStep` of the old one |
| Workflow.WorkflowService.Reset | src/services/workflow.service.ts:673-679 | the history is the one-snapshot fresh history |
| Workflow.WorkflowService.InitDirectorMode | src/services/workflow.service.ts:681-689 | the history is the one-snapshot director history with the given draft |
| Workflow.WorkflowService.CycleLang | src/services/workflow.service.ts:607-614 | the language becomes the next one in the nine-language rotation |
| Workflow.WorkflowService.CycleTheme | src/services/workflow.service.ts:616-623 | the theme becomes the next one in the five-theme rotation |
| Workflow.WorkflowService.T | src/services/workflow.service.ts:494-506 | the loop gives the looked-up text with each parameter, in order, filling the first occurrence of its placeholder |
| Workflow.WorkflowService.AddAIInspirationCategories | src/services/workflow.service.ts:707-717 | on success the library is the new batch followed by the non-generated categories in their order; a failed call leaves it as it was |
| Workflow.WorkflowService.RemixInspirationLibrary | src/services/workflow.service.ts:697-705 | on success the library is the remix reply's categories, with the current library kept for an unparseable reply; a failed call leaves it as it was |
| Workflow.WorkflowService.InitDailyInspiration | src/services/workflow.service.ts:589-605 | when no refresh is due, or the fetch fails, nothing changes; otherwise the batch is merged, the toast is set and the new timestamp is `now` |
| Workflow.WorkflowService.ResetInspirationLibrary | src/services/workflow.service.ts:719-723 | the library is the built-in one again |
| Library.NonAi | src/services/workflow.service.ts:711 | exactly the categories whose id does not start with "ai-gen" |
| Library.NonAiAppend | src/services/workflow.service.ts:711 | the filter works piece by piece, so the library's order is kept |
| Library.NonAiIdempotent | src/services/workflow.service.ts:711 | filtering twice is filtering once |
| Library.NonAiOfGenerated | src/services/workflow.service.ts:711 | a batch of generated categories is filtered away entirely |
| Library.MergeAIBatch | src/services/workflow.service.ts:712 | the batch comes first, followed by the filtered library |
| Library.SecondRefreshReplacesFirst | src/services/workflow.service.ts:707-717 | a second refresh removes the first batch completely: the result equals one refresh with the second batch |
| I18n.LangIndex | src/services/workflow.service.ts:608-610 | `indexOf` in the rotation finds the language |
| I18n.ThemeIndex | src/services/workflow.service.ts:617-619 | `indexOf` in the rotation finds the theme |
| I18n.NextLang | src/services/workflow.service.ts:607-614 | the next language's index is the current index plus one, modulo nine |
| I18n.NextTheme | src/services/workflow.service.ts:616-623 | the next theme's index is the current index plus one, modulo five |
| I18n.NextLangInverse | src/services/workflow.service.ts:607-614 | the rotation is undone by the reverse rotation, so it is a cycle through all nine languages |
| I18n.NextThemeInverse | src/services/workflow.service.ts:616-623 | the rotation is undone by the reverse rotation, so it is a cycle through all five themes |
| I18n.ThemeIcon | src/services/workflow.service.ts:625-633 | every theme has a non-empty icon name |
| I18n.ThemeIconInjective | src/services/workflow.service.ts:625-633 | different themes show different icons |
| I18n.Lookup | src/services/workflow.service.ts:497 | the current language's non-empty entry, else the English one, else the key itself, and never empty for a non-empty key |
| I18n.MissingLanguageReadsEnglish | src/services/workflow.service.ts:497 | a language without a table reads exactly the English texts |
| I18n.ApplyParamsWithoutPlaceholders | src/services/workflow.service.ts:499-503 | a text without any of the placeholders comes through the parameter loop unchanged |
| I18n.SingleParam | src/services/workflow.service.ts:501 | one parameter replaces the first occurrence of its placeholder with its value |
| JsText.Trim | src/components/vibecode.component.ts:304 | `trim()` is a slice of the text with only white space outside it; it is empty exactly for all-white-space text, and otherwise neither starts nor ends with white space |
| InsertionMaps.Get | src/components/inspiration-modal.component.ts:300 | `map.get` is undefined exactly for a key that is not present |
| InsertionMaps.Set | src/components/vibecode.component.ts:280 | `map.set`: a present key keeps its place and a new key is appended; the key maps to the value; other keys keep theirs; keys stay distinct |
| InsertionMaps.SetAppendsNew | src/components/inspiration-modal.component.ts:327 | setting a new key appends exactly one entry at the end |
| InsertionMaps.SetOverwritesInPlace | src/components/inspiration-modal.component.ts:327 | setting a present key rewrites that entry where it stands and no other |
| Gemini.CompiledSections | src/services/gemini.service.ts:102-141 | the compiled prompt is the trimmed five sections, followed, exactly when the persona has an inner voice, by a blank line and the trimmed remix block |
| Gemini.BaseTemplateTrim | src/services/gemini.service.ts:103-119 | trimming the five-section template removes only its outer line breaks and trailing white space |
| Gemini.RemixTemplateTrim | src/services/gemini.service.ts:123-136 | trimming the remix template removes only its outer line breaks and trailing white space |
| Gemini.BaseTrimKeepsHeaders | src/services/gemini.service.ts:103-119 | trimming can only shorten the behaviours field, never a header |
| Gemini.HeadersInOrder | src/services/gemini.service.ts:102-141 | whatever the fields hold, the prompt starts with the five headers and fields in their fixed order |
| Gemini.RemixDetection | src/services/gemini.service.ts:121-138 | without an inner voice, the other remix fields have no effect; with one, the prompt is the plain prompt plus a blank line and the remix block |
| Gemini.RemixBlockStart | src/services/gemini.service.ts:123-126 | the remix block starts with its rule and the inner-voice header |
| Gemini.AnalysisReportFrom | src/services/gemini.service.ts:324-334 | a parsed report is returned as is; text that is not JSON becomes the empty report; a failed call propagates |
| Gemini.InspirationQuestionsFrom | src/services/gemini.service.ts:840-847 | the parsed `categories`; no categories when the property is missing or the text is not JSON or is `null`; a failed call propagates |
| Gemini.RemixInspirationFrom | src/services/gemini.service.ts:911-918 | the parsed `categories`, or none when the property is missing; the current library for text that is not JSON or is `null`; a failed call propagates |
| Gemini.SelectPrompt | src/services/gemini.service.ts:600 | the Traditional Chinese prompt for that language when it is non-empty, and the English prompt otherwise |
| Gemini.OtherLanguagesUseEnglish | src/services/gemini.service.ts:600 | every language without a prompt of its own gets exactly the English prompt |
| Gemini.AntiBiasSystemPrompt | src/services/gemini.service.ts:676-692 | the language's prompt, followed by the audit block around the context exactly when the context is truthy |
| Gemini.AntiBiasContextInjected | src/services/gemini.service.ts:678-692 | with a context, the audit prompt extends the plain prompt and carries the context verbatim behind the block's head |
| ChatStream.StreamTextAppend | src/components/antibias.component.ts:256-260 | the accumulated text of a stream split in two is the text of the first part followed by that of the second |
| ChatStream.StreamTextOfTexts | src/components/antibias.component.ts:256-260 | when every chunk has text, the reply is exactly the chunk texts joined without a separator |
| ChatStream.StoredKeepsUri | src/components/antibias.component.ts:263-267 | a stored citation keeps its URI; the audit's normalized citation always has a title, the URI when there was none; the other chats store the chunk unchanged |
| ChatStream.LastCiting | src/components/antibias.component.ts:262-269 | the last position that cites a URI, or -1 when none does |
| ChatStream.FirstCiting | src/components/antibias.component.ts:262-269 | the first position that cites a URI, or -1 when none does |
| ChatStream.CollectLastWins | src/components/antibias.component.ts:257-269 | for each URI the map holds the last citation of it, and nothing for a URI never cited |
| ChatStream.CollectKeys | src/components/antibias.component.ts:257-269 | the map's keys are exactly the URIs cited somewhere in the stream |
| ChatStream.CollectDistinct | src/components/antibias.component.ts:257-269 | no URI appears twice among the citations |
| ChatStream.CollectFirstSeenOrder | src/components/antibias.component.ts:257-270 | the citations come in the order in which their URIs were first cited |
| ChatStream.AddChunkCitations | src/components/antibias.component.ts:261-269 | the inner loop enters one chunk's citations into the map exactly as the definition of the map after those groundings says |
| ChatStream.Partial | src/components/antibias.component.ts:254-281 | while the stream is open, the last message is a streaming model message holding all text so far |
| ChatStream.Completed | src/components/antibias.component.ts:283-287 | an ended stream's message holds the whole text and every citation, and is no longer streaming |
| ChatStream.FoldStream | src/components/antibias.component.ts:252-287 | the loop leaves exactly one model message behind the transcript: the completed one for an ended stream, the partial one for a broken stream |
| ChatStream.Uncaught | src/components/vibecode.component.ts:227-269 | without a catch, a refused stream leaves nothing, a broken one the partial message, and an ended one the completed message |
| ChatStream.Caught | src/components/antibias.component.ts:289-290 | with a catch, a failure adds the error notice after whatever the stream left, and a success is the same as without a catch |
| ChatStream.CaughtAppendsNotice | src/components/antibias.component.ts:289-290 | the transcript after a caught failure is the uncaught transcript plus the notice |
| ChatStream.RunStream | src/components/antibias.component.ts:251-287 | the streaming part appends exactly what the reply leaves without a catch |
| ChatStream.Lines | src/components/vibecode.component.ts:303 | one "role: text" line per message, in order |
| ChatStream.TranscriptSnoc | src/components/vibecode.component.ts:303 | one more message adds a line break and its line |
| ChatStream.ChatTextToSend | src/components/antibias.component.ts:223-238 | Enter with shift returns at once; a `{text}` object sends its text; any other event, or none, sends the input field |
| VibeCode.TextToSend | src/components/vibecode.component.ts:227-240 | an event with shift pressed returns at once; a `{text}` object sends its text; otherwise the input field is sent |
| VibeCode.StripRoleTags | src/components/vibecode.component.ts:304 | the global tag removal never lengthens the text |
| VibeCode.StripAtLineBreak | src/components/vibecode.component.ts:303-304 | no tag spans a line break, so the removal works line by line |
| VibeCode.StripLine | src/components/vibecode.component.ts:303-304 | each transcript line loses its role tag and keeps the space after it |
| VibeCode.ConversationBlank | src/components/vibecode.component.ts:297-304 | `crystallize` gives up exactly when no message says anything once role tags are removed |
| VibeCode.Pending | src/components/vibecode.component.ts:298-301 | the messages, plus the trimmed input as a user message unless the input is blank |
| VibeCode.CrystallizeSnapshot | src/components/vibecode.component.ts:311-317 | the pushed snapshot carries the messages, the transcript and the persona, is at the crystallize step, is not modifying, and keeps the draft, report and remix |
| VibeCode.AnswerTexts | src/components/vibecode.component.ts:289-290 | the answers of the map, in map order |
| VibeCode.Consolidated | src/components/vibecode.component.ts:286-295 | no answers gives an empty input, and one answer gives exactly that answer |
| VibeCode.ConsolidateNewAnswer | src/components/vibecode.component.ts:277-295 | answering a new question appends its answer, after "; " when there were answers |
| VibeCode.ConsolidateChangedAnswer | src/components/vibecode.component.ts:277-295 | re-answering a question changes its answer in place and keeps the order of the others |
| VibeCode.VibeCodeComponent.NgOnInit | src/components/vibecode.component.ts:191-208 | the snapshot's transcript, or the greeting for a fresh one, followed by the modify notice when the snapshot is being modified |
| VibeCode.VibeCodeComponent.SendMessage | src/components/vibecode.component.ts:227-269 | a guarded send: nothing changes for shift, a blank text or a send in progress; otherwise the user message and the reply are appended, the field is cleared for non-`{text}` events, and a stream failure propagates |
| VibeCode.VibeCodeComponent.ConsolidateAnswers | src/components/vibecode.component.ts:286-295 | the input field is the answers joined by "; " |
| VibeCode.VibeCodeComponent.HandleModalClose | src/components/vibecode.component.ts:271-275 | the browser closes, its answers are taken over, and the input field is rebuilt from them |
| VibeCode.VibeCodeComponent.HandleQuestionAnswered | src/components/vibecode.component.ts:277-284 | one answer is upserted by question id, and the input field is rebuilt |
| VibeCode.VibeCodeComponent.Crystallize | src/components/vibecode.component.ts:297-325 | nothing happens for an empty conversation; otherwise a structured persona is pushed as one snapshot, and a failed call pushes nothing |
| VibeCode.VibeCodeComponent.GoBack | src/components/vibecode.component.ts:340-346 | undo while there is an earlier snapshot, otherwise exit |
| Director.RefinedSnapshot | src/components/director.component.ts:233-254 | the pushed snapshot holds the compiled draft at the check step and keeps everything else |
| Director.DirectorComponent.StartSession | src/components/director.component.ts:148-179 | the streamed opening is appended, and any failure adds the offline notice |
| Director.DirectorComponent.SendMessage | src/components/director.component.ts:181-231 | a guarded send: nothing changes for Enter with shift, a blank text or a send in progress; otherwise the user message and the reply are appended, and a stream failure propagates |
| Director.DirectorComponent.FinishRefining | src/components/director.component.ts:233-254 | the compiling marker is appended; a reply is appended and pushed as the draft at the check step; a failed call pushes nothing |
| Director.DirectorComponent.GoBack | src/components/director.component.ts:256-262 | undo while there is an earlier snapshot, otherwise exit |
| AntiBias.CitedOnly | src/components/antibias.component.ts:210-213 | the opening's citations keep each one that has a URI (normalized, with a title) and only those, with no more entries than were delivered |
| AntiBias.CitedOnlyAppend | src/components/antibias.component.ts:210-213 | the filter works piece by piece, so the delivery order is kept |
| AntiBias.AntiBiasComponent.StartSession | src/components/antibias.component.ts:191-221 | a truthy hand-over sets `hasContext` and picks the context opening; the reply is appended with normalized citations, or a failure appends the connection notice |
| AntiBias.AntiBiasComponent.SendMessage | src/components/antibias.component.ts:223-295 | a guarded send that catches failures: the user message, the reply, and the error notice after a failure; the field is cleared unless the text came as `{text}` |
| AntiBias.AntiBiasComponent.SendUnsure | src/components/antibias.component.ts:297-299 | the canned prompt is sent and the input field is kept |
| AntiBias.AntiBiasComponent.RequestWrapUp | src/components/antibias.component.ts:301-304 | the compile prompt is sent and the input field is kept |
| Tool.ToolComponent.StartSession | src/components/tool.component.ts:186-199 | the opening reply is appended with its citations as delivered, or a failure appends the connection notice |
| Tool.ToolComponent.SendMessage | src/components/tool.component.ts:201-263 | only the input field is sent, with a guard; failures are caught with a notice; a `{text}` object throws |
| Tool.ToolComponent.AutoFill | src/components/tool.component.ts:265-276 | the transcript is the context; the suggestion replaces the input; a failure propagates and keeps the input |
| Tool.ToolComponent.RequestWrapUp | src/components/tool.component.ts:278-281 | the compile prompt is put in the input field and sent from there |
| Check.RemoveAt | src/components/pipeline/check.component.ts:508 | `filter((_, i) => i !== index)`: an in-range index drops exactly that element and keeps the order; any other index leaves the list alone |
| Check.RemoveAtLosesOne | src/components/pipeline/check.component.ts:508 | as multisets, the dropped element plus the rest is the original |
| Check.WithoutConflict | src/components/pipeline/check.component.ts:495-498 | the report loses exactly that conflict; bias and depth are untouched |
| Check.WithoutDepthElement | src/components/pipeline/check.component.ts:518-520 | the report loses exactly that missing element; everything else is untouched |
| Check.WithDepthNote | src/components/pipeline/check.component.ts:534-537 | only the personality changes, extended by the `[Depth: …]` note |
| Check.Toggle | src/components/pipeline/check.component.ts:609-611 | exactly one layer's checkbox flips |
| Check.ToggleTwice | src/components/pipeline/check.component.ts:609-611 | toggling twice restores the selection |
| Check.SelectedCount | src/components/pipeline/check.component.ts:402-404 | at most four; zero exactly when nothing is selected; four exactly when everything is |
| Check.ToggleCount | src/components/pipeline/check.component.ts:402-404 | each toggle moves the count by one, in the toggle's direction |
| Check.ApplyRemix | src/components/pipeline/check.component.ts:620-627 | the five base sections are untouched; a selected layer takes the remix value; an unselected layer keeps the persona's |
| Check.ApplyRemixNothingOrOnce | src/components/pipeline/check.component.ts:620-627 | nothing selected leaves the persona alone, and merging twice is merging once |
| Check.AcceptWithoutInnerVoiceDropsLayers | src/components/pipeline/check.component.ts:613-636 | as written: without the inner voice, the draft of a merged plain persona is the unremixed draft, although the persona now carries the other selected layers |
| Check.InnerVoiceAloneRendersUndefined | src/components/pipeline/check.component.ts:613-636 | as written: the inner voice alone gives the whole block, with the three other layers rendered as "undefined" |
| Check.SectionsDiffer | src/services/gemini.service.ts:123-136 | sections of different layers differ, so a section names its layer |
| Check.SectionIfPresent | src/services/gemini.service.ts:123-136 | a layer contributes at most one section |
| Check.RemixedDraft | src/components/pipeline/check.component.ts:627-628 | the corrected draft: without any layer it is the base draft; otherwise the block holds exactly the layers the persona has |
| Check.RemixBodyAsSections | src/services/gemini.service.ts:123-136 | the source's remix block is its rule followed by the four sections, each after a blank line |
| Check.PrefixJoinFour | src/services/gemini.service.ts:123-136 | joining four sections puts the separator between each neighbouring pair |
| Check.FullBlockFromSections | src/services/gemini.service.ts:121-138 | with all four layers, the corrected block is the source's block |
| Check.RemixedDraftAgrees | src/services/gemini.service.ts:121-138 | with all four layers, the corrected draft is the one the source compiles |
| Check.SelectedLayersRendered | src/components/pipeline/check.component.ts:613-636 | the sections that make up the corrected block of a merged plain persona are exactly the selected layers, one section each |
| Check.SelectedLayersInDraft | src/components/pipeline/check.component.ts:613-636 | in the corrected draft text of a merged plain persona, each selected layer's section occurs, up to trailing white space; with nothing selected the draft is the unremixed one |
| Check.CheckComponent.constructor | src/components/pipeline/check.component.ts:360-386 | the component starts out analysing, with no busy markers, no remix, and every layer selected |
| Check.CheckComponent.NgOnInit | src/components/pipeline/check.component.ts:409-415 | analyse only when the snapshot has no report yet |
| Check.CheckComponent.RunAnalysis | src/components/pipeline/check.component.ts:433-447 | with a persona and a report, exactly one snapshot with the report is pushed; otherwise nothing changes; the spinner stops |
| Check.CheckComponent.ProcessResolution | src/components/pipeline/check.component.ts:477-503 | two snapshots, the revised persona with its compiled draft and then the report without that conflict; or nothing |
| Check.CheckComponent.AutoFix | src/components/pipeline/check.component.ts:453-463 | the resolution flow; the busy marker stays set when the conflict does not exist |
| Check.CheckComponent.TurnIntoFeature | src/components/pipeline/check.component.ts:465-475 | the same as auto-fix, with the harmonizing marker |
| Check.CheckComponent.IgnoreConflict | src/components/pipeline/check.component.ts:505-512 | with a report, one snapshot without that conflict is pushed; without one, nothing changes |
| Check.CheckComponent.SkipDepthElement | src/components/pipeline/check.component.ts:515-522 | with a report, one snapshot without that depth element is pushed; without one, nothing changes |
| Check.CheckComponent.AddDepthElement | src/components/pipeline/check.component.ts:524-552 | the noted persona with its draft is pushed, then the element is skipped; a failed call pushes nothing; without a persona the marker stays set |
| Check.CheckComponent.TriggerRemix | src/components/pipeline/check.component.ts:580-607 | a remix opens the preview with every layer selected; a failure or a missing persona changes nothing |
| Check.CheckComponent.ToggleRemix | src/components/pipeline/check.component.ts:609-611 | the selection is toggled at that key |
| Check.CheckComponent.SelectedCountNow | src/components/pipeline/check.component.ts:402-404 | the count of the current selection |
| Check.CheckComponent.AcceptRemix | src/components/pipeline/check.component.ts:613-636 | the merged persona, the whole remix and the recompiled draft become one snapshot, and the preview closes; without a persona or a remix nothing changes |
| Check.CheckComponent.ProceedToSim | src/components/pipeline/check.component.ts:638-640 | the step moves to the simulation |
| Check.CheckComponent.OpenAntiBiasAudit | src/components/pipeline/check.component.ts:643-647 | the current draft is handed to the audit |
| InspirationModal.MatchingQuestions | src/components/inspiration-modal.component.ts:239 | exactly the questions whose lowercased text contains the term |
| InspirationModal.MatchingAppend | src/components/inspiration-modal.component.ts:239 | the filter keeps the question order |
| InspirationModal.NarrowAll | src/components/inspiration-modal.component.ts:236-241 | every shown category is a narrowed library category with a question, and every library category that keeps a question is shown |
| InspirationModal.NarrowAllAppend | src/components/inspiration-modal.component.ts:236-241 | categories keep their library order |
| InspirationModal.FilteredCategories | src/components/inspiration-modal.component.ts:232-242 | the whole library for an empty search, and the narrowed categories otherwise |
| InspirationModal.FindCategory | src/components/inspiration-modal.component.ts:247 | the first category that holds a question with that id, or none when no category does |
| InspirationModal.CategoryIcon | src/components/inspiration-modal.component.ts:244-249 | the icon of the editing question's category, or "" when there is no question or no category |
| InspirationModal.Without | src/components/inspiration-modal.component.ts:258 | exactly the questions with a different id |
| InspirationModal.OtherQuestions | src/components/inspiration-modal.component.ts:251-259 | at most two other questions of the same category, in category order, never the edited question itself |
| InspirationModal.Toggled | src/components/inspiration-modal.component.ts:287-296 | only the id's membership flips |
| InspirationModal.ToggleTwice | src/components/inspiration-modal.component.ts:287-296 | toggling twice restores the set |
| InspirationModal.InitialInput | src/components/inspiration-modal.component.ts:301 | the existing answer when it is non-empty, else a truthy placeholder, else "" |
| InspirationModal.AllQuestions | src/components/inspiration-modal.component.ts:334 | exactly the questions of all categories |
| InspirationModal.Unused | src/components/inspiration-modal.component.ts:335 | exactly the questions that have no answer |
| InspirationModal.RandomPool | src/components/inspiration-modal.component.ts:334-336 | the unanswered questions while some remain, and all questions once every one is answered; empty only for an empty library |
| InspirationModal.UsedCountIsSize | src/components/inspiration-modal.component.ts:228-229 | the used count equals the number of map entries |
| InspirationModal.InspirationModalComponent.constructor | src/components/inspiration-modal.component.ts:261-263 | the answers are the caller's; there is no search, nothing is expanded, and no card is open |
| InspirationModal.InspirationModalComponent.ToggleCategory | src/components/inspiration-modal.component.ts:287-296 | the expanded set is toggled at the id |
| InspirationModal.InspirationModalComponent.OpenEditCard | src/components/inspiration-modal.component.ts:298-303 | the card opens on the question, with its initial input |
| InspirationModal.InspirationModalComponent.UpdateAnswers | src/components/inspiration-modal.component.ts:324-331 | the answer is upserted by id, and the emitted event carries it |
| InspirationModal.InspirationModalComponent.QuickAdd | src/components/inspiration-modal.component.ts:305-310 | an unanswered question gets its own text as the answer, appended at the end, and the used count grows by one; an answered question changes nothing |
| InspirationModal.InspirationModalComponent.CancelEdit | src/components/inspiration-modal.component.ts:312-315 | the card is closed |
| InspirationModal.InspirationModalComponent.ConfirmEdit | src/components/inspiration-modal.component.ts:317-322 | a non-blank input is stored trimmed and the card closes; otherwise nothing changes |
| InspirationModal.InspirationModalComponent.SelectRandom | src/components/inspiration-modal.component.ts:333-340 | opens the pool question picked by `choice`; with an empty library the call throws |
| InspirationModal.InspirationModalComponent.FetchAIQuestions | src/components/inspiration-modal.component.ts:349-364 | the service merge; a generated first category is expanded; a failure shows the unavailable toast |
| InspirationModal.InspirationModalComponent.RemixLibrary | src/components/inspiration-modal.component.ts:366-377 | the service remix, with the success toast or the unavailable toast |
| InspirationModal.InspirationModalComponent.ResetLibrary | src/components/inspiration-modal.component.ts:379-383 | a confirmed reset restores the built-in library; a declined one changes nothing |
| Architect.EmptyForm | src/components/architect.component.ts:361-379 | the form has exactly the fourteen controls, all empty |
| Architect.Advance | src/components/architect.component.ts:394-399 | forward while there is a later step, staying within the five steps |
| Architect.Retreat | src/components/architect.component.ts:401-406 | back while there is an earlier step, staying within the five steps |
| Architect.AdvanceRetreat | src/components/architect.component.ts:394-406 | forward then back, or back then forward, returns to the same step away from the ends |
| Architect.MovesStayInRange | src/components/architect.component.ts:394-406 | any run of moves stays within the five steps |
| Architect.ArchitectComponent.constructor | src/components/architect.component.ts:352-379 | the architect starts at the first step with an empty form and no prompt |
| Architect.ArchitectComponent.NextStep | src/components/architect.component.ts:394-399 | the step advances and stays within range |
| Architect.ArchitectComponent.PrevStep | src/components/architect.component.ts:401-406 | the step retreats and stays within range |
| Architect.ArchitectComponent.SelectStep | src/components/architect.component.ts:39 | a click on the stepper selects that step |
| Architect.ArchitectComponent.StartOver | src/components/architect.component.ts:298 | the architect returns to the first step |
| Architect.ArchitectComponent.MagicFill | src/components/architect.component.ts:409-424 | the whole form is the context; only the named control takes the suggestion; a failure or an unknown control leaves the form alone |
| Architect.ArchitectComponent.Generate | src/components/architect.component.ts:426-439 | the compiled prompt is shown on the last step; a failure changes neither the prompt nor the step |
| Architect.ArchitectComponent.OnRefineWithDirector | src/components/architect.component.ts:445-447 | the generated prompt is handed on |
| App.ModeView | src/app.component.ts:58-68 | the pipeline and the director open the pipeline view; no mode opens home |
| App.AppComponent.HandleModeSelection | src/app.component.ts:58-68 | the pipeline resets the session; the director starts a fresh director session; the other modes leave the workflow alone |
| App.AppComponent.HandleArchitectRefinement | src/app.component.ts:70-73 | the architect's prompt seeds a director session in the pipeline view |
| App.AppComponent.SwitchToView | src/app.component.ts:75-77 | the requested view is shown |
| App.AppComponent.HandleAntiBiasRequest | src/app.component.ts:80-82 | the audit view is shown |
| App.AppComponent.HandleAntiBiasExit | src/app.component.ts:85-93 | an audit opened with a hand-over clears it and returns to the pipeline; otherwise it goes home |
| App.AppComponent.GoHome | src/app.component.ts:95-97 | the home view is shown |

## Left out

- Browser storage writes and removals are not modelled. Stored values and their parse outcome are parameters.
- Workflow.WorkflowService.Reset: removing the stored session when `clearStorage` is set is not modelled.
- Workflow.WorkflowService.ResetInspirationLibrary: removing the stored library and timestamp is not modelled.
- Workflow.WorkflowService.InitDailyInspiration: writing the timestamp is returned rather than performed, and the call is not asynchronous.
- Workflow.WorkflowService.constructor: the theme taken from storage or the colour-scheme query, and the library restored from storage, are not derived. The theme is a parameter, and the library starts as the built-in one. The constructor's own call of `initDailyInspiration` is a separate method call.
- Restored session data is taken as well-typed. Malformed elements inside a stored `history` array are not modelled.
- `parseInt` of the stored timestamp, `NaN`, and a non-integer stored index are not modelled.
- `t()` renders parameter values as text before they are passed. Number formatting and `$` replacement patterns in `String.prototype.replace` are not modelled.
- Lower-casing in the search filter is ASCII-only. `toLowerCase` is full Unicode.
- The contents of the translation table, the built-in inspiration library, and every system-prompt and schema text are inputs (`Table`, `PromptSet`, `ContextBlock`) and are not reproduced.
- Gemini.AnalysisReportFrom: a reply that parses to the JSON `null`, or to a value not shaped like a report, is not modelled. The source returns such a value unchecked as the report.
- The model SDK calls, chat-session creation, the stripping of ``` fences before `JSON.parse`, and the model's JSON shape are not modelled. Replies are inputs.
- A response whose `text` is undefined is not modelled for non-streamed replies. Streamed chunks do render a missing text as "undefined".
- A patch that sets a property explicitly to `undefined` is not modelled. A patch either writes a value or leaves the property alone.
- Timers, the loading animation, scrolling, focus, toasts being cleared, `alert`, `confirm` (whose answer is an input), the clipboard and the DOM are not modelled.
- Concurrency of async calls is not modelled. Each call is an atomic step.
- The architect's close output, the modal's `closeModal` emit, the keyboard shortcuts of the inspiration modal, and the simulation and reference-standard comparison (`compareWith`, `openStandard`, `closeStandard`) of the check step are not modelled. They are outside this model's core.
- src/components/home.component.ts is not part of this model.
- Architect.ArchitectComponent.MagicFill: the model's suggestion is an input, and the prompt wording that asks for it is not modelled.

## Findings

| source | as written | input that shows it | evidently intended | confidence | as-written member | corrected member |
|---|---|---|---|---|---|---|
| src/services/workflow.service.ts:661-665 | `redo()` decrements the cursor when it is below the top | a fresh session, one `pushState`, then `undo()` and `redo()`: the cursor goes to -1 and `state()` shows the empty snapshot | redo increments the cursor and reverses an undo | not executed; high | History.RedoAsWrittenLosesState | History.RedoAfterUndo |
| src/components/pipeline/check.component.ts:613-636 | the draft is recompiled with `compileStructuredPrompt`, which prints the remix block only when `inner_voice` is present | a never-remixed persona, with the remix accepted while only "core wound" is selected: the saved persona has the core wound, but the draft does not | every selected layer appears in the draft | not executed; medium | Check.AcceptWithoutInnerVoiceDropsLayers | Check.SelectedLayersInDraft |
| src/services/gemini.service.ts:121-138 | the remix block prints all four fields once `inner_voice` is present | a never-remixed persona, with the remix accepted while only "inner voice" is selected: the draft contains "undefined" three times | only the layers the persona has are printed | not executed; medium | Check.InnerVoiceAloneRendersUndefined | Check.RemixedDraft |

For the redo finding:
- `Workflow.WorkflowService.Redo` keeps the source's behaviour.
- History operation sequences (`History.Run` and `History.RunKeepsValid`) use the corrected `History.Redo`.
- No component in this model calls `redo`.

For the remix findings:
- `Check.CheckComponent.AcceptRemix` keeps the source's draft.
- `Check.RemixedDraft` is the corrected draft.
- `Check.RemixedDraftAgrees` proves that the corrected draft equals the source's draft whenever all four layers are present.
