/**
 * The anti-bias audit chat (src/components/antibias.component.ts): an
 * opening that knows whether the check step handed over a draft, a guarded
 * streamed send whose failures end in an error notice, and the two canned
 * prompts. Citations are stored normalized: `{web: {uri, title ?? uri}}`.
 */
module AntiBias {
  import opened Options
  import opened JsText
  import opened WorkflowTypes
  import opened ChatStream
  import W = Workflow

  /** The opening message when a draft was handed over; a fixed text of the component. */
  const ContextOpening: string := "Protocol Started with Context."

  /**
   * The opening reply's citations: those without a URI dropped, the others
   * normalized, in the order delivered (not deduplicated).
   */
  function CitedOnly(gs: seq<Grounding>): (r: seq<Grounding>)
    ensures |r| <= |gs|
    ensures forall i :: 0 <= i < |r| ==> HasUri(r[i]) && r[i].web.value.title.Some?
    ensures forall g :: g in gs && HasUri(g) ==> Stored(AntiBiasStyle, g) in r
    ensures forall c :: c in r ==> exists g :: g in gs && HasUri(g) && c == Stored(AntiBiasStyle, g)
  {
    if gs == [] then []
    else
      var rest := CitedOnly(gs[1..]);
      assert forall g :: g in gs <==> g == gs[0] || g in gs[1..];
      if HasUri(gs[0]) then [Stored(AntiBiasStyle, gs[0])] + rest else rest
  }

  /** Dropping and normalizing work piece by piece, so the order is kept. */
  lemma {:induction false} CitedOnlyAppend(a: seq<Grounding>, b: seq<Grounding>)
    ensures CitedOnly(a + b) == CitedOnly(a) + CitedOnly(b)
    decreases |a|
  {
    if a == [] {
      assert a + b == b;
    } else {
      assert (a + b)[1..] == a[1..] + b;
      CitedOnlyAppend(a[1..], b);
    }
  }

  class AntiBiasComponent {
    const wf: W.WorkflowService
    var messages: seq<ChatMessage>
    var userInput: string
    var isProcessing: bool
    var hasContext: bool

    constructor(service: W.WorkflowService)
      ensures wf == service && messages == [] && userInput == "" && !isProcessing && !hasContext
    {
      wf := service;
      messages := [];
      userInput := "";
      isProcessing := false;
      hasContext := false;
    }

    /**
     * `startSession`: a truthy hand-over sets `hasContext` and selects the
     * context opening, otherwise the translated one (`opening`, what is sent);
     * the reply is appended with its normalized citations, a failed call
     * appends the connection notice.
     */
    method StartSession(response: Option<Response>) returns (opening: string)
      modifies this`messages, this`isProcessing, this`hasContext
      ensures hasContext == (old(hasContext) || Truthy(wf.antiBiasContext))
      ensures Truthy(wf.antiBiasContext) ==> opening == ContextOpening
      ensures !Truthy(wf.antiBiasContext) ==> opening == wf.Text("antibias.init_prompt")
      ensures response.Some? ==>
        messages == old(messages) + [ChatMessage(Model, response.value.text, None, Some(CitedOnly(response.value.groundings)))]
      ensures response.None? ==>
        messages == old(messages) + [Notice(wf.Text("common.error.connection_refused"))]
      ensures !isProcessing
    {
      isProcessing := true;
      var context := wf.antiBiasContext;
      if context.Some? && context.value != "" {
        hasContext := true;
      }
      if context.Some? && context.value != "" {
        opening := ContextOpening;
      } else {
        opening := wf.T("antibias.init_prompt", []);
      }
      if response.Some? {
        var groundingChunks := CitedOnly(response.value.groundings);
        messages := messages + [ChatMessage(Model, response.value.text, None, Some(groundingChunks))];
      } else {
        var refused := wf.T("common.error.connection_refused", []);
        messages := messages + [Notice(refused)];
      }
      isProcessing := false;
    }

    /**
     * `sendMessage`: nothing happens for Enter with shift, a blank text or a
     * send in progress; otherwise the user's message and the reply are
     * appended (an error notice after whatever the stream left when it
     * fails), and the field is cleared unless the text came as `{text}`.
     */
    method SendMessage(event: SendEvent, reply: StreamReply)
      modifies this`messages, this`userInput, this`isProcessing
      ensures var text := ChatTextToSend(event, old(userInput));
        if text.None? || IsBlank(text.value) || old(isProcessing) then
          messages == old(messages) && userInput == old(userInput) && isProcessing == old(isProcessing)
        else
          messages == old(messages) + [ChatMessage(User, text.value, None, None)] +
            Caught(reply, AntiBiasStyle, wf.Text("common.error.request_failed")) &&
          userInput == (if event.TextEvent? then old(userInput) else "") &&
          !isProcessing
    {
      var textToSend := ChatTextToSend(event, userInput);
      if textToSend.None? || Trim(textToSend.value) == "" || isProcessing {
        return;
      }
      if !event.TextEvent? {
        userInput := "";
      }
      messages := messages + [ChatMessage(User, textToSend.value, None, None)];
      ghost var sent := messages;
      isProcessing := true;
      messages := RunStream(messages, reply, AntiBiasStyle);
      if Raises(reply) {
        var failed := wf.T("common.error.request_failed", []);
        CaughtAppendsNotice(sent, reply, AntiBiasStyle, failed);
        messages := messages + [Notice(failed)];
      } else {
        CaughtAppendsNotice(sent, reply, AntiBiasStyle, wf.Text("common.error.request_failed"));
      }
      isProcessing := false;
    }

    /** `sendUnsure`: send the canned "not sure" prompt; the input field is kept. */
    method SendUnsure(reply: StreamReply)
      modifies this`messages, this`userInput, this`isProcessing
      ensures userInput == old(userInput)
      ensures var text := wf.Text("antibias.unsure_prompt");
        if IsBlank(text) || old(isProcessing) then
          messages == old(messages) && isProcessing == old(isProcessing)
        else
          messages == old(messages) + [ChatMessage(User, text, None, None)] +
            Caught(reply, AntiBiasStyle, wf.Text("common.error.request_failed")) && !isProcessing
    {
      var prompt := wf.T("antibias.unsure_prompt", []);
      SendMessage(TextEvent(prompt), reply);
    }

    /** `requestWrapUp`: send the canned compile prompt; the input field is kept. */
    method RequestWrapUp(reply: StreamReply)
      modifies this`messages, this`userInput, this`isProcessing
      ensures userInput == old(userInput)
      ensures var text := wf.Text("antibias.compile_prompt");
        if IsBlank(text) || old(isProcessing) then
          messages == old(messages) && isProcessing == old(isProcessing)
        else
          messages == old(messages) + [ChatMessage(User, text, None, None)] +
            Caught(reply, AntiBiasStyle, wf.Text("common.error.request_failed")) && !isProcessing
    {
      var prompt := wf.T("antibias.compile_prompt", []);
      SendMessage(TextEvent(prompt), reply);
    }
  }
}
