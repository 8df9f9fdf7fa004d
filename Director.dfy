/**
 * The director interview (src/components/director.component.ts): a
 * streamed opening, the streamed send, and `finishRefining`, which compiles
 * the interview into the draft of a new snapshot at the check step. Model
 * replies are inputs; a non-streamed reply is `None` when the call throws.
 */
module Director {
  import opened Options
  import opened JsText
  import opened WorkflowTypes
  import opened ChatStream
  import W = Workflow
  import H = History

  /** The snapshot `finishRefining` pushes. */
  function RefinedPatch(draft: string): Patch {
    NoChange.(currentDraft := Some(draft), step := Some(Check))
  }

  /** The pushed snapshot holds the compiled draft at the check step and keeps everything else. */
  lemma RefinedSnapshot(s: PersonaState, draft: string)
    ensures var r := Merge(s, RefinedPatch(draft));
      r.currentDraft == draft && r.step == Check &&
      r == s.(currentDraft := draft, step := Check)
  {
  }

  class DirectorComponent {
    const wf: W.WorkflowService
    var messages: seq<ChatMessage>
    var userInput: string
    var isProcessing: bool

    constructor(service: W.WorkflowService)
      ensures wf == service && messages == [] && userInput == "" && !isProcessing
    {
      wf := service;
      messages := [];
      userInput := "";
      isProcessing := false;
    }

    /** `startSession`: the streamed opening question; any failure appends the offline notice. */
    method StartSession(reply: StreamReply)
      modifies this`messages, this`isProcessing
      ensures messages == old(messages) + Caught(reply, DirectorStyle, wf.Text("director.error_offline"))
      ensures !isProcessing
    {
      isProcessing := true;
      var after := RunStream(messages, reply, DirectorStyle);
      messages := after;
      if Raises(reply) {
        var offline := wf.T("director.error_offline", []);
        messages := messages + [Notice(offline)];
      }
      isProcessing := false;
    }

    /**
     * `sendMessage`: nothing happens for Enter with shift, a blank text or a
     * send in progress; otherwise the user's message and the reply are
     * appended, the field is cleared unless the text came as `{text}`, and
     * a failure of the stream propagates (`raised`).
     */
    method SendMessage(event: SendEvent, reply: StreamReply) returns (raised: bool)
      modifies this`messages, this`userInput, this`isProcessing
      ensures var text := ChatTextToSend(event, old(userInput));
        if text.None? || IsBlank(text.value) || old(isProcessing) then
          messages == old(messages) && userInput == old(userInput) && isProcessing == old(isProcessing) && !raised
        else
          messages == old(messages) + [ChatMessage(User, text.value, None, None)] + Uncaught(reply, DirectorStyle) &&
          userInput == (if event.TextEvent? then old(userInput) else "") &&
          !isProcessing && raised == Raises(reply)
    {
      raised := false;
      var text := ChatTextToSend(event, userInput);
      if text.None? || Trim(text.value) == "" || isProcessing {
        return;
      }
      if !event.TextEvent? {
        userInput := "";
      }
      messages := messages + [ChatMessage(User, text.value, None, None)];
      isProcessing := true;
      messages := RunStream(messages, reply, DirectorStyle);
      raised := Raises(reply);
      isProcessing := false;
    }

    /**
     * `finishRefining`: the compiling marker is appended first; a reply is
     * appended with its citations and pushed as the new draft at the check
     * step, while a failed call pushes nothing.
     */
    method FinishRefining(response: Option<Response>)
      modifies this`messages, this`isProcessing, wf`historyStack, wf`currentStateIndex
      ensures var marker := ChatMessage(User, "[" + wf.Text("common.compiling") + "]", None, None);
        if response.Some? then
          messages == old(messages) + [marker, ChatMessage(Model, response.value.text, None, Some(response.value.groundings))] &&
          wf.Snapshot() == H.Push(old(wf.Snapshot()), RefinedPatch(response.value.text))
        else
          messages == old(messages) + [marker] && wf.Snapshot() == old(wf.Snapshot())
      ensures !isProcessing
    {
      isProcessing := true;
      var compiling := wf.T("common.compiling", []);
      messages := messages + [ChatMessage(User, "[" + compiling + "]", None, None)];
      if response.Some? {
        var updatedDraft := response.value.text;
        messages := messages + [ChatMessage(Model, updatedDraft, None, Some(response.value.groundings))];
        wf.PushState(RefinedPatch(updatedDraft));
      }
      isProcessing := false;
    }

    /** `goBack`: undo while there is an earlier snapshot, else leave the interview (`exit`). */
    method GoBack() returns (exit: bool)
      modifies wf`currentStateIndex
      ensures exit <==> old(wf.currentStateIndex) <= 0
      ensures wf.Snapshot() == H.Undo(old(wf.Snapshot()))
    {
      if wf.CursorValue() > 0 {
        wf.Undo();
        exit := false;
      } else {
        exit := true;
      }
    }
  }
}
