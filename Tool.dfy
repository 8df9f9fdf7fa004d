/**
 * The prompt-tool chat (src/components/tool.component.ts): a guarded
 * streamed send that reads only the input field, the auto-fill that
 * suggests the next input from the transcript, and the wrap-up that sends
 * the compile prompt through the input field. Model replies are inputs.
 */
module Tool {
  import opened Options
  import opened JsText
  import opened WorkflowTypes
  import opened ChatStream
  import W = Workflow

  /**
   * Whether `sendMessage` goes on past its event handling: not for Enter
   * with shift (it returns), and not for a `{text}` object, on which the
   * call to `preventDefault` throws.
   */
  predicate Proceeds(event: SendEvent) {
    !(event.Key? && event.enter && event.shift) && !event.TextEvent?
  }

  class ToolComponent {
    const wf: W.WorkflowService
    var messages: seq<ChatMessage>
    var userInput: string
    var isProcessing: bool

    constructor(service: W.WorkflowService)
      ensures wf == service && messages == [] && userInput == "" && !isProcessing
    {
      wf := service;
      messages := [];
      userInput := "";
      isProcessing := false;
    }

    /** `startSession`: the opening reply with its citations as delivered, or the connection notice. */
    method StartSession(response: Option<Response>)
      modifies this`messages, this`isProcessing
      ensures response.Some? ==>
        messages == old(messages) + [ChatMessage(Model, response.value.text, None, Some(response.value.groundings))]
      ensures response.None? ==> messages == old(messages) + [Notice(wf.Text("common.error.connection_refused"))]
      ensures !isProcessing
    {
      isProcessing := true;
      if response.Some? {
        messages := messages + [ChatMessage(Model, response.value.text, None, Some(response.value.groundings))];
      } else {
        var refused := wf.T("common.error.connection_refused", []);
        messages := messages + [Notice(refused)];
      }
      isProcessing := false;
    }

    /**
     * `sendMessage`: only the input field is sent. Nothing happens when the
     * event stops it, the field is blank or a send is in progress (`raised`
     * for the `{text}` object); otherwise the field is cleared and the user's
     * message and the reply are appended, an error notice after whatever the
     * stream left when it fails.
     */
    method SendMessage(event: SendEvent, reply: StreamReply) returns (raised: bool)
      modifies this`messages, this`userInput, this`isProcessing
      ensures raised <==> event.TextEvent?
      ensures if !Proceeds(event) || IsBlank(old(userInput)) || old(isProcessing) then
          messages == old(messages) && userInput == old(userInput) && isProcessing == old(isProcessing)
        else
          messages == old(messages) + [ChatMessage(User, old(userInput), None, None)] +
            Caught(reply, ToolStyle, wf.Text("common.error.request_failed")) &&
          userInput == "" && !isProcessing
    {
      raised := event.TextEvent?;
      if !Proceeds(event) || Trim(userInput) == "" || isProcessing {
        return;
      }
      var userText := userInput;
      userInput := "";
      messages := messages + [ChatMessage(User, userText, None, None)];
      ghost var sent := messages;
      isProcessing := true;
      messages := RunStream(messages, reply, ToolStyle);
      if Raises(reply) {
        var failed := wf.T("common.error.request_failed", []);
        CaughtAppendsNotice(sent, reply, ToolStyle, failed);
        messages := messages + [Notice(failed)];
      } else {
        CaughtAppendsNotice(sent, reply, ToolStyle, wf.Text("common.error.request_failed"));
      }
      isProcessing := false;
    }

    /**
     * `autoFill`: the transcript, as "role: text" lines, is the context the
     * model gets (`history`); its suggestion replaces the input, and a
     * failed call propagates (`raised`) with the input kept.
     */
    method AutoFill(suggestion: Option<string>) returns (history: string, raised: bool)
      modifies this`userInput, this`isProcessing
      ensures history == Transcript(messages)
      ensures suggestion.Some? ==> userInput == suggestion.value && !raised
      ensures suggestion.None? ==> userInput == old(userInput) && raised
      ensures !isProcessing
    {
      isProcessing := true;
      history := Transcript(messages);
      raised := suggestion.None?;
      if suggestion.Some? {
        userInput := suggestion.value;
      }
      isProcessing := false;
    }

    /** `requestWrapUp`: the compile prompt goes into the input field and is sent from there. */
    method RequestWrapUp(reply: StreamReply)
      modifies this`messages, this`userInput, this`isProcessing
      ensures var prompt := wf.Text("tool.compile_prompt");
        if IsBlank(prompt) || old(isProcessing) then
          messages == old(messages) && userInput == prompt && isProcessing == old(isProcessing)
        else
          messages == old(messages) + [ChatMessage(User, prompt, None, None)] +
            Caught(reply, ToolStyle, wf.Text("common.error.request_failed")) &&
          userInput == "" && !isProcessing
    {
      userInput := wf.T("tool.compile_prompt", []);
      var _ := SendMessage(NoEvent, reply);
    }
  }
}
