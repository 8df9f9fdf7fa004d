/**
 * The free-form "vibe" chat (src/components/vibecode.component.ts): the
 * transcript restored from the current snapshot, the streamed send, the
 * answers from the inspiration browser consolidated into the input field,
 * and `crystallize`, which turns the conversation into one history snapshot.
 * The structuring result of the model is an input (`None` when the call
 * throws).
 */
module VibeCode {
  import opened Options
  import opened JsText
  import opened WorkflowTypes
  import opened InsertionMaps
  import opened ChatStream
  import IM = InspirationModal
  import W = Workflow
  import H = History

  /**
   * The text `sendMessage` sends: `None` when it returns at once, which is
   * for any event carrying a pressed shift key; a `{text}` object sends its
   * text; everything else sends the input field.
   */
  function TextToSend(event: SendEvent, userInput: string): (r: Option<string>)
    ensures (event.Key? || event.DomEvent?) && event.shift ==> r.None?
    ensures event.TextEvent? ==> r == Some(event.text)
    ensures event.NoEvent? || ((event.Key? || event.DomEvent?) && !event.shift) ==> r == Some(userInput)
  {
    match event
    case NoEvent => Some(userInput)
    case Key(_, shift) => if shift then None else Some(userInput)
    case DomEvent(shift) => if shift then None else Some(userInput)
    case TextEvent(text) => Some(text)
  }

  /** `text.replace(/user:|model:/g, '')`: the tags removed left to right, without overlaps. */
  function StripRoleTags(s: string): (r: string)
    ensures |r| <= |s|
    decreases |s|
  {
    if s == [] then []
    else if IsPrefix("user:", s) then StripRoleTags(s[5..])
    else if IsPrefix("model:", s) then StripRoleTags(s[6..])
    else [s[0]] + StripRoleTags(s[1..])
  }

  /** A tag contains no line break, so it matches in front of one only if it matches before it. */
  lemma TagStopsAtBreak(tag: string, a: string, b: string)
    requires forall i :: 0 <= i < |tag| ==> tag[i] != '\n'
    requires b != [] && b[0] == '\n'
    ensures IsPrefix(tag, a + b) <==> IsPrefix(tag, a)
  {
    if |a| >= |tag| {
      assert (a + b)[..|tag|] == a[..|tag|];
    } else if |tag| <= |a + b| {
      assert (a + b)[..|tag|][|a|] == '\n';
    }
  }

  /** A text that opens with a line break cannot be the continuation of a tag. */
  lemma {:induction false} StripAtLineBreak(a: string, b: string)
    requires b != [] && b[0] == '\n'
    ensures StripRoleTags(a + b) == StripRoleTags(a) + StripRoleTags(b)
    decreases |a|
  {
    if a == [] {
      assert a + b == b;
    } else {
      var s := a + b;
      TagStopsAtBreak("user:", a, b);
      TagStopsAtBreak("model:", a, b);
      if IsPrefix("user:", a) {
        assert s[5..] == a[5..] + b;
        StripAtLineBreak(a[5..], b);
      } else if IsPrefix("model:", a) {
        assert s[6..] == a[6..] + b;
        StripAtLineBreak(a[6..], b);
      } else {
        assert s[1..] == a[1..] + b;
        StripAtLineBreak(a[1..], b);
      }
    }
  }

  /** A text starting with white space starts its stripped form with that space. */
  lemma StripAfterSpace(c: char, t: string)
    requires c == ' ' || c == '\n'
    ensures StripRoleTags([c] + t) == [c] + StripRoleTags(t)
  {
    assert ([c] + t)[1..] == t;
  }

  /** Each transcript line loses its role tag and keeps the space behind it. */
  lemma StripLine(m: ChatMessage)
    ensures StripRoleTags(Line(m)) == " " + StripRoleTags(m.text)
  {
    var s := Line(m);
    if m.role == User {
      assert s[..5] == "user:";
      assert s[5..] == [' '] + m.text;
    } else {
      assert s[0] == 'm';
      assert s[..6] == "model:";
      assert s[6..] == [' '] + m.text;
    }
    StripAfterSpace(' ', m.text);
  }

  lemma AllSpaceConcat(a: string, b: string)
    ensures AllSpace(a + b) <==> AllSpace(a) && AllSpace(b)
  {
    if AllSpace(a) && AllSpace(b) {
      forall i | 0 <= i < |a + b|
        ensures IsJsSpace((a + b)[i])
      {
        if i >= |a| { assert (a + b)[i] == b[i - |a|]; }
      }
    }
    if AllSpace(a + b) {
      assert forall i :: 0 <= i < |a| ==> (a + b)[i] == a[i];
      assert forall i :: 0 <= i < |b| ==> (a + b)[|a| + i] == b[i];
    }
  }

  /** True when the message says nothing once role tags are removed. */
  predicate SaysNothing(m: ChatMessage) {
    AllSpace(StripRoleTags(m.text))
  }

  /** Stripping a transcript one message longer adds a line break, a space and the stripped text. */
  lemma StripTranscriptSnoc(p: seq<ChatMessage>, m: ChatMessage)
    requires p != []
    ensures StripRoleTags(Transcript(p + [m])) == StripRoleTags(Transcript(p)) + ("\n" + (" " + StripRoleTags(m.text)))
  {
    TranscriptSnoc(p, m);
    var tail := "\n" + Line(m);
    assert Transcript(p + [m]) == Transcript(p) + tail;
    StripAtLineBreak(Transcript(p), tail);
    StripAfterSpace('\n', Line(m));
    StripLine(m);
  }

  /** The stripped transcript is blank exactly when the shorter one is and the last message says nothing. */
  lemma BlankSnoc(p: seq<ChatMessage>, m: ChatMessage)
    requires p != []
    ensures AllSpace(StripRoleTags(Transcript(p + [m]))) <==> AllSpace(StripRoleTags(Transcript(p))) && SaysNothing(m)
  {
    StripTranscriptSnoc(p, m);
    AllSpaceConcat(StripRoleTags(Transcript(p)), "\n" + (" " + StripRoleTags(m.text)));
    AllSpaceConcat("\n", " " + StripRoleTags(m.text));
    AllSpaceConcat(" ", StripRoleTags(m.text));
  }

  /**
   * `crystallize` gives up exactly when no message says anything once role
   * tags are removed: blanks and tags alone do not make a conversation.
   */
  lemma {:induction false} ConversationBlank(msgs: seq<ChatMessage>)
    ensures AllSpace(StripRoleTags(Transcript(msgs))) <==> forall i :: 0 <= i < |msgs| ==> SaysNothing(msgs[i])
    decreases |msgs|
  {
    if |msgs| == 1 {
      StripLine(msgs[0]);
      AllSpaceConcat(" ", StripRoleTags(msgs[0].text));
    } else if |msgs| > 1 {
      var p := msgs[..|msgs| - 1];
      var m := msgs[|msgs| - 1];
      assert msgs == p + [m];
      ConversationBlank(p);
      BlankSnoc(p, m);
      assert forall i :: 0 <= i < |p| ==> p[i] == msgs[i];
    }
  }

  /** The transcript `crystallize` works on: the messages, plus the trimmed input unless it is blank. */
  function Pending(messages: seq<ChatMessage>, userInput: string): (r: seq<ChatMessage>)
    ensures IsBlank(userInput) ==> r == messages
    ensures !IsBlank(userInput) ==> r == messages + [ChatMessage(User, Trim(userInput), None, None)]
  {
    if Trim(userInput) != "" then messages + [ChatMessage(User, Trim(userInput), None, None)] else messages
  }

  /** The snapshot `crystallize` pushes. */
  function CrystallizePatch(msgs: seq<ChatMessage>, conversation: string, persona: StructuredPersona): Patch {
    NoChange.(vibeMessages := Some(msgs), vibeFragment := Some(conversation),
              structuredPersona := Some(persona), step := Some(Crystallize), isModifying := Some(false))
  }

  /** The pushed snapshot carries the conversation and the persona and moves on to the crystallize step, keeping the rest. */
  lemma CrystallizeSnapshot(s: PersonaState, msgs: seq<ChatMessage>, persona: StructuredPersona)
    ensures var r := Merge(s, CrystallizePatch(msgs, Transcript(msgs), persona));
      r.step == Crystallize && r.vibeMessages == msgs && r.vibeFragment == Some(Transcript(msgs)) &&
      r.structuredPersona == Some(persona) && r.isModifying == Some(false) &&
      r.currentDraft == s.currentDraft && r.analysisReport == s.analysisReport && r.remixData == s.remixData
  {
  }

  /** The answers of the map, in map order. */
  function AnswerTexts(m: IM.AnswerMap): (r: seq<string>)
    ensures |r| == |m|
    ensures forall i :: 0 <= i < |m| ==> r[i] == m[i].1.answer
  {
    seq(|m|, i requires 0 <= i < |m| => m[i].1.answer)
  }

  /** `consolidateAnswers`: the answers joined by "; " in map order, or "" for no answers. */
  function Consolidated(m: IM.AnswerMap): (r: string)
    ensures m == [] ==> r == ""
    ensures |m| == 1 ==> r == m[0].1.answer
  {
    if |m| > 0 then Join(AnswerTexts(m), "; ") else ""
  }

  /** Answering a new question appends its answer, after a separator when there were answers. */
  lemma ConsolidateNewAnswer(m: IM.AnswerMap, id: string, a: IM.Answer)
    requires id !in Keys(m)
    ensures m == [] ==> Consolidated(Set(m, id, a)) == a.answer
    ensures m != [] ==> Consolidated(Set(m, id, a)) == Consolidated(m) + "; " + a.answer
  {
    SetAppendsNew(m, id, a);
    var m' := Set(m, id, a);
    if m != [] {
      assert AnswerTexts(m') == AnswerTexts(m) + [a.answer];
      JoinSnoc(AnswerTexts(m), a.answer, "; ");
    }
  }

  /** Re-answering a question changes its answer where it stands, keeping the order of the others. */
  lemma ConsolidateChangedAnswer(m: IM.AnswerMap, id: string, a: IM.Answer)
    requires id in Keys(m)
    ensures var texts := AnswerTexts(Set(m, id, a));
      |texts| == |m| &&
      forall i :: 0 <= i < |m| ==> texts[i] == (if m[i].0 == id then a.answer else m[i].1.answer)
  {
    SetOverwritesInPlace(m, id, a);
  }

  class VibeCodeComponent {
    const wf: W.WorkflowService
    var messages: seq<ChatMessage>
    var userInput: string
    var isProcessing: bool
    var isCrystallizing: bool
    var showInspirationModal: bool
    var answeredQuestions: IM.AnswerMap

    constructor(service: W.WorkflowService)
      ensures wf == service && messages == [] && userInput == ""
      ensures !isProcessing && !isCrystallizing && !showInspirationModal && answeredQuestions == []
    {
      wf := service;
      messages := [];
      userInput := "";
      isProcessing := false;
      isCrystallizing := false;
      showInspirationModal := false;
      answeredQuestions := [];
    }

    /**
     * `ngOnInit`: the snapshot's transcript, or the greeting for a fresh one,
     * followed by the modify notice when the snapshot is being modified.
     */
    method NgOnInit()
      modifies this`messages
      ensures var st := wf.State();
        messages ==
          (if st.vibeMessages != [] then st.vibeMessages else [Notice(wf.Text("vibe.intro_msg"))]) +
          (if st.isModifying == Some(true) then [Notice(wf.Text("vibe.modify_msg"))] else [])
    {
      var state := wf.State();
      if |state.vibeMessages| > 0 {
        messages := state.vibeMessages;
      } else {
        var intro := wf.T("vibe.intro_msg", []);
        messages := [Notice(intro)];
      }
      if state.isModifying == Some(true) {
        var notice := wf.T("vibe.modify_msg", []);
        messages := messages + [Notice(notice)];
      }
    }

    /**
     * `sendMessage`: nothing happens for a shifted event, a blank text or a
     * send in progress; otherwise the user's message and the reply are
     * appended, the input field is cleared unless the text came from a
     * `{text}` object, and a failure of the stream propagates (`raised`).
     */
    method SendMessage(event: SendEvent, reply: StreamReply) returns (raised: bool)
      modifies this`messages, this`userInput, this`isProcessing
      ensures var text := TextToSend(event, old(userInput));
        if text.None? || IsBlank(text.value) || old(isProcessing) then
          messages == old(messages) && userInput == old(userInput) && isProcessing == old(isProcessing) && !raised
        else
          messages == old(messages) + [ChatMessage(User, text.value, None, None)] + Uncaught(reply, VibeStyle) &&
          userInput == (if event.TextEvent? then old(userInput) else "") &&
          !isProcessing && raised == Raises(reply)
    {
      raised := false;
      var textToSend := TextToSend(event, userInput);
      if textToSend.None? || Trim(textToSend.value) == "" || isProcessing {
        return;
      }
      if !event.TextEvent? {
        userInput := "";
      }
      messages := messages + [ChatMessage(User, textToSend.value, None, None)];
      isProcessing := true;
      messages := RunStream(messages, reply, VibeStyle);
      raised := Raises(reply);
      isProcessing := false;
    }

    method ConsolidateAnswers()
      modifies this`userInput
      ensures userInput == Consolidated(answeredQuestions)
    {
      var answers := answeredQuestions;
      if |answers| > 0 {
        userInput := Join(AnswerTexts(answers), "; ");
      } else {
        userInput := "";
      }
    }

    /** `handleModalClose`: take over the browser's answers. */
    method HandleModalClose(finalAnswers: IM.AnswerMap)
      modifies this`showInspirationModal, this`answeredQuestions, this`userInput
      ensures !showInspirationModal && answeredQuestions == finalAnswers
      ensures userInput == Consolidated(finalAnswers)
    {
      showInspirationModal := false;
      answeredQuestions := finalAnswers;
      ConsolidateAnswers();
    }

    /** `handleQuestionAnswered`: upsert one answer and rebuild the input field. */
    method HandleQuestionAnswered(data: IM.AnsweredQuestion)
      modifies this`answeredQuestions, this`userInput
      ensures answeredQuestions == Set(old(answeredQuestions), data.questionId, IM.Answer(data.questionText, data.answer))
      ensures userInput == Consolidated(answeredQuestions)
    {
      var newMap := Set(answeredQuestions, data.questionId, IM.Answer(data.questionText, data.answer));
      answeredQuestions := newMap;
      ConsolidateAnswers();
    }

    /**
     * `crystallize`: nothing happens when the conversation says nothing;
     * otherwise a structured persona (`None` when the call throws) is pushed
     * as one snapshot together with the conversation.
     */
    method Crystallize(structured: Option<StructuredPersona>)
      modifies wf`historyStack, wf`currentStateIndex, this`isCrystallizing
      ensures var msgs := Pending(messages, userInput);
        if IsBlank(StripRoleTags(Transcript(msgs))) then
          wf.Snapshot() == old(wf.Snapshot()) && isCrystallizing == old(isCrystallizing)
        else
          !isCrystallizing &&
          (structured.None? ==> wf.Snapshot() == old(wf.Snapshot())) &&
          (structured.Some? ==>
            wf.Snapshot() == H.Push(old(wf.Snapshot()), CrystallizePatch(msgs, Transcript(msgs), structured.value)))
    {
      var currentMessages := Pending(messages, userInput);
      var conversation := Transcript(currentMessages);
      if IsBlank(StripRoleTags(conversation)) {
        return;
      }
      isCrystallizing := true;
      if structured.Some? {
        wf.PushState(CrystallizePatch(currentMessages, conversation, structured.value));
      }
      isCrystallizing := false;
    }

    /** `goBack`: undo while there is an earlier snapshot, else leave the chat (`exit`). */
    method GoBack() returns (exit: bool)
      modifies wf`currentStateIndex
      ensures exit <==> old(wf.currentStateIndex) <= 0
      ensures wf.Snapshot() == H.Undo(old(wf.Snapshot()))
    {
      if wf.CursorValue() > 0 {
        wf.Undo();
        exit := false;
      } else {
        exit := true;
      }
    }
  }
}
