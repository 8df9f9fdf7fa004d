/**
 * The streamed-reply fold the four chat components share
 * (src/components/vibecode.component.ts, director.component.ts,
 * antibias.component.ts, tool.component.ts): a placeholder model message is
 * appended, every chunk appends its text to `fullText` and its cited web
 * sources to a URI-keyed `Map`, the last message is rewritten after each
 * chunk, and a final rewrite clears `isStreaming`.
 *
 * The stream is a finite sequence of chunks given as input; a stream that
 * breaks off is the chunks delivered before the break.
 */
module ChatStream {
  import opened Options
  import opened JsText
  import opened WorkflowTypes
  import opened InsertionMaps

  /** One streamed response chunk: its `text` getter may be undefined, and its grounding chunks as the SDK delivers them. */
  datatype Chunk = Chunk(text: Option<string>, groundings: seq<Grounding>)

  /**
   * How `sendMessageStream` went: it threw before any chunk (`Refused`), or it
   * delivered `chunks` and then either ended (`broken` false) or threw.
   */
  datatype StreamReply = Refused | Delivered(chunks: seq<Chunk>, broken: bool)

  /**
   * The four variants of the loop: what the intermediate rewrite carries,
   * whether it is guarded by a look at the last message, and whether a
   * citation is stored as delivered or normalized.
   */
  datatype Style = VibeStyle | DirectorStyle | AntiBiasStyle | ToolStyle

  /** `fullText`: every chunk's text in order, a missing text rendering as "undefined". */
  function StreamText(chunks: seq<Chunk>): string
    decreases |chunks|
  {
    if chunks == [] then "" else StreamText(chunks[..|chunks| - 1]) + Str(chunks[|chunks| - 1].text)
  }

  /** The text of a stream split in two is the text of the first part followed by that of the second. */
  lemma {:induction false} StreamTextAppend(a: seq<Chunk>, b: seq<Chunk>)
    ensures StreamText(a + b) == StreamText(a) + StreamText(b)
    decreases |b|
  {
    if b == [] {
      assert a + b == a;
    } else {
      var b' := b[..|b| - 1];
      var last := Str(b[|b| - 1].text);
      assert (a + b)[..|a + b| - 1] == a + b';
      assert (a + b)[|a + b| - 1] == b[|b| - 1];
      assert StreamText(a + b) == StreamText(a + b') + last;
      StreamTextAppend(a, b');
      assert StreamText(b) == StreamText(b') + last;
    }
  }

  /** When every chunk carries text, the reply is exactly the chunk texts joined without separator. */
  lemma {:induction false} StreamTextOfTexts(chunks: seq<Chunk>, texts: seq<string>)
    requires |texts| == |chunks|
    requires forall i :: 0 <= i < |chunks| ==> chunks[i].text == Some(texts[i])
    ensures StreamText(chunks) == Join(texts, "")
    decreases |chunks|
  {
    if |chunks| == 1 {
      assert chunks[..0] == [];
    } else if |chunks| > 1 {
      var n := |chunks| - 1;
      StreamTextOfTexts(chunks[..n], texts[..n]);
      JoinSnoc(texts[..n], texts[n], "");
      assert texts[..n] + [texts[n]] == texts;
    }
  }

  /** The grounding chunks of all chunks, in delivery order. */
  function AllGroundings(chunks: seq<Chunk>): seq<Grounding>
    decreases |chunks|
  {
    if chunks == [] then [] else AllGroundings(chunks[..|chunks| - 1]) + chunks[|chunks| - 1].groundings
  }

  /** `ch.web?.uri` is truthy. */
  predicate HasUri(g: Grounding) {
    g.web.Some? && Truthy(g.web.value.uri)
  }

  function UriOf(g: Grounding): string
    requires HasUri(g)
  {
    g.web.value.uri.value
  }

  /** The grounding at `i` cites `k`. */
  predicate Cites(gs: seq<Grounding>, i: int, k: string)
    requires 0 <= i < |gs|
  {
    HasUri(gs[i]) && UriOf(gs[i]) == k
  }

  /**
   * What the map stores for a citation: the anti-bias chat rebuilds it as
   * `{web: {uri, title: title ?? uri}}`; the others store the chunk itself.
   */
  function Stored(style: Style, g: Grounding): Grounding
    requires HasUri(g)
  {
    if style == AntiBiasStyle then
      Grounding(Some(Web(Some(UriOf(g)), Some(g.web.value.title.GetOr(UriOf(g))))))
    else
      g
  }

  /** A stored citation has the same URI, and a normalized one always has a title, the URI when there was none. */
  lemma StoredKeepsUri(style: Style, g: Grounding)
    requires HasUri(g)
    ensures HasUri(Stored(style, g)) && UriOf(Stored(style, g)) == UriOf(g)
    ensures style == AntiBiasStyle ==> Stored(style, g).web.value.title.Some?
    ensures style == AntiBiasStyle && g.web.value.title.None? ==> Stored(style, g).web.value.title == Some(UriOf(g))
    ensures style != AntiBiasStyle ==> Stored(style, g) == g
  {
  }

  /** `groundingChunkMap` after `set` has been called for each of `gs` that has a URI. */
  function Collect(gs: seq<Grounding>, style: Style): Entries<string, Grounding>
    decreases |gs|
  {
    if gs == [] then []
    else
      var g := gs[|gs| - 1];
      var m := Collect(gs[..|gs| - 1], style);
      if HasUri(g) then Set(m, UriOf(g), Stored(style, g)) else m
  }

  /** The last position in `gs` that cites `k`, or -1. */
  function LastCiting(gs: seq<Grounding>, k: string): (r: int)
    ensures -1 <= r < |gs|
    ensures r >= 0 ==> Cites(gs, r, k) && forall i :: r < i < |gs| ==> !Cites(gs, i, k)
    ensures r == -1 ==> forall i :: 0 <= i < |gs| ==> !Cites(gs, i, k)
    decreases |gs|
  {
    if gs == [] then -1
    else if Cites(gs, |gs| - 1, k) then |gs| - 1
    else
      var r := LastCiting(gs[..|gs| - 1], k);
      assert forall i :: 0 <= i < |gs| - 1 ==> (Cites(gs, i, k) <==> Cites(gs[..|gs| - 1], i, k));
      r
  }

  /** The first position in `gs` that cites `k`, or -1. */
  function FirstCiting(gs: seq<Grounding>, k: string): (r: int)
    ensures -1 <= r < |gs|
    ensures r >= 0 ==> Cites(gs, r, k) && forall i :: 0 <= i < r ==> !Cites(gs, i, k)
    ensures r == -1 ==> forall i :: 0 <= i < |gs| ==> !Cites(gs, i, k)
    decreases |gs|
  {
    if gs == [] then -1
    else
      var f := FirstCiting(gs[..|gs| - 1], k);
      assert forall i :: 0 <= i < |gs| - 1 ==> (Cites(gs, i, k) <==> Cites(gs[..|gs| - 1], i, k));
      if f >= 0 then f
      else if Cites(gs, |gs| - 1, k) then |gs| - 1
      else -1
  }

  /** For every URI the map holds the (stored form of the) last citation of that URI, and nothing for a URI never cited. */
  lemma {:induction false} CollectLastWins(gs: seq<Grounding>, style: Style, k: string)
    ensures var j := LastCiting(gs, k);
      Get(Collect(gs, style), k) == (if j < 0 then None else Some(Stored(style, gs[j])))
    decreases |gs|
  {
    if gs != [] {
      var p := gs[..|gs| - 1];
      CollectLastWins(p, style, k);
      assert forall i :: 0 <= i < |p| ==> (Cites(gs, i, k) <==> Cites(p, i, k));
    }
  }

  /** The map's keys are exactly the URIs cited somewhere in the stream. */
  lemma CollectKeys(gs: seq<Grounding>, style: Style, k: string)
    ensures k in Keys(Collect(gs, style)) <==> exists i :: 0 <= i < |gs| && Cites(gs, i, k)
  {
    CollectLastWins(gs, style, k);
  }

  /** No URI appears twice among the citations. */
  lemma {:induction false} CollectDistinct(gs: seq<Grounding>, style: Style)
    ensures Distinct(Keys(Collect(gs, style)))
    decreases |gs|
  {
    if gs != [] {
      CollectDistinct(gs[..|gs| - 1], style);
    }
  }

  /** The first citations of a URI stay first when more groundings follow. */
  lemma FirstCitingExtend(p: seq<Grounding>, g: Grounding, k: string)
    requires FirstCiting(p, k) >= 0
    ensures FirstCiting(p + [g], k) == FirstCiting(p, k)
  {
    assert (p + [g])[..|p|] == p;
  }

  /** One more grounding adds its URI at the end when it is new, and changes no key otherwise. */
  lemma CollectKeysSnoc(p: seq<Grounding>, g: Grounding, style: Style)
    ensures var ks := Keys(Collect(p, style));
      Keys(Collect(p + [g], style)) == if HasUri(g) && UriOf(g) !in ks then ks + [UriOf(g)] else ks
  {
    assert (p + [g])[..|p|] == p;
  }

  /** A URI the map already holds keeps its first citation when more groundings follow. */
  lemma FirstCitingOfKey(p: seq<Grounding>, g: Grounding, style: Style, k: string)
    requires k in Keys(Collect(p, style))
    ensures 0 <= FirstCiting(p + [g], k) == FirstCiting(p, k) < |p|
  {
    CollectKeys(p, style, k);
    FirstCitingExtend(p, g, k);
  }

  /** A URI first cited by a grounding appended at the end is first cited there. */
  lemma FirstCitingNew(p: seq<Grounding>, g: Grounding, style: Style)
    requires HasUri(g) && UriOf(g) !in Keys(Collect(p, style))
    ensures FirstCiting(p + [g], UriOf(g)) == |p|
  {
    CollectKeys(p, style, UriOf(g));
    assert (p + [g])[..|p|] == p;
    var f := FirstCiting(p, UriOf(g));
    assert f < 0;
    assert Cites(p + [g], |p|, UriOf(g));
  }

  /** The citations come in the order in which their URIs were first cited. */
  lemma {:induction false} CollectFirstSeenOrder(gs: seq<Grounding>, style: Style)
    ensures var ks := Keys(Collect(gs, style));
      forall a, b :: 0 <= a < b < |ks| ==> 0 <= FirstCiting(gs, ks[a]) < FirstCiting(gs, ks[b])
    decreases |gs|
  {
    if gs != [] {
      var p := gs[..|gs| - 1];
      var g := gs[|gs| - 1];
      assert gs == p + [g];
      CollectFirstSeenOrder(p, style);
      CollectKeysSnoc(p, g, style);
      var ks' := Keys(Collect(p, style));
      var ks := Keys(Collect(gs, style));
      forall a, b | 0 <= a < b < |ks|
        ensures 0 <= FirstCiting(gs, ks[a]) < FirstCiting(gs, ks[b])
      {
        FirstCitingOfKey(p, g, style, ks'[a]);
        if b < |ks'| {
          FirstCitingOfKey(p, g, style, ks'[b]);
        } else {
          FirstCitingNew(p, g, style);
        }
      }
    }
  }

  /** `Array.from(groundingChunkMap.values())` after the given chunks. */
  function Citations(chunks: seq<Chunk>, style: Style): seq<Grounding> {
    Values(Collect(AllGroundings(chunks), style))
  }

  /** The placeholder appended once the stream has opened. */
  const Placeholder: ChatMessage := ChatMessage(Model, "", Some(true), None)

  /** The model message while the stream is still open; the vibe chat leaves its citations out. */
  function Streaming(style: Style, text: string, cites: seq<Grounding>): ChatMessage {
    if style == VibeStyle then ChatMessage(Model, text, Some(true), None)
    else ChatMessage(Model, text, Some(true), Some(cites))
  }

  /** The last message after some chunks of a stream that has not ended. */
  function Partial(chunks: seq<Chunk>, style: Style): (r: ChatMessage)
    ensures r.role == Model && r.isStreaming == Some(true) && r.text == StreamText(chunks)
  {
    if chunks == [] then Placeholder else Streaming(style, StreamText(chunks), Citations(chunks, style))
  }

  /** The model message of a stream that ended: the whole text, every citation, no longer streaming. */
  function Completed(chunks: seq<Chunk>, style: Style): (r: ChatMessage)
    ensures r.role == Model && r.isStreaming == Some(false) && r.text == StreamText(chunks)
    ensures r.groundingChunks == Some(Citations(chunks, style))
  {
    ChatMessage(Model, StreamText(chunks), Some(false), Some(Citations(chunks, style)))
  }

  lemma TextStep(chunks: seq<Chunk>, i: int)
    requires 0 <= i < |chunks|
    ensures StreamText(chunks[..i + 1]) == StreamText(chunks[..i]) + Str(chunks[i].text)
    ensures AllGroundings(chunks[..i + 1]) == AllGroundings(chunks[..i]) + chunks[i].groundings
  {
    assert chunks[..i + 1][..i] == chunks[..i];
  }

  lemma CollectStep(gs: seq<Grounding>, more: seq<Grounding>, j: int, style: Style)
    requires 0 <= j < |more|
    ensures Collect(gs + more[..j + 1], style) ==
      var m := Collect(gs + more[..j], style);
      if HasUri(more[j]) then Set(m, UriOf(more[j]), Stored(style, more[j])) else m
  {
    assert (gs + more[..j + 1])[..|gs + more[..j + 1]| - 1] == gs + more[..j];
  }

  /**
   * The rewrite after a chunk. The vibe and director chats replace the last
   * message outright; the anti-bias and tool chats replace it only if it is
   * a model message still streaming, keeping its other properties.
   */
  function AfterChunk(msgs: seq<ChatMessage>, style: Style, fullText: string, cites: seq<Grounding>): seq<ChatMessage>
    requires msgs != []
  {
    var last := msgs[|msgs| - 1];
    if style == VibeStyle || style == DirectorStyle then
      msgs[..|msgs| - 1] + [Streaming(style, fullText, cites)]
    else if last.role == Model && last.isStreaming == Some(true) then
      msgs[..|msgs| - 1] + [last.(text := fullText, groundingChunks := Some(cites))]
    else
      msgs
  }

  /**
   * The inner loop of `sendMessage`: the citations of one chunk entered into
   * the map of those seen so far, keyed by URI.
   */
  method AddChunkCitations(groundingChunkMap: Entries<string, Grounding>, ghost seen: seq<Grounding>,
                           newChunks: seq<Grounding>, style: Style)
    returns (r: Entries<string, Grounding>)
    requires groundingChunkMap == Collect(seen, style)
    ensures r == Collect(seen + newChunks, style)
  {
    r := groundingChunkMap;
    var j := 0;
    assert seen + newChunks[..0] == seen;
    while j < |newChunks|
      invariant 0 <= j <= |newChunks|
      invariant r == Collect(seen + newChunks[..j], style)
    {
      CollectStep(seen, newChunks, j, style);
      var ch := newChunks[j];
      if ch.web.Some? && ch.web.value.uri.Some? && ch.web.value.uri.value != "" {
        r := Set(r, ch.web.value.uri.value, Stored(style, ch));
      }
      j := j + 1;
    }
    assert newChunks[..|newChunks|] == newChunks;
  }

  /**
   * The loop of `sendMessage`, on the transcript `before` that already holds
   * the user's message: an ended stream leaves one completed model message
   * behind it, a broken one the message as far as it got.
   */
  method FoldStream(before: seq<ChatMessage>, chunks: seq<Chunk>, broken: bool, style: Style)
    returns (after: seq<ChatMessage>)
    ensures !broken ==> after == before + [Completed(chunks, style)]
    ensures broken ==> after == before + [Partial(chunks, style)]
  {
    var msgs := before + [Placeholder];
    var fullText := "";
    var groundingChunkMap: Entries<string, Grounding> := [];
    var i := 0;
    while i < |chunks|
      invariant 0 <= i <= |chunks|
      invariant fullText == StreamText(chunks[..i])
      invariant groundingChunkMap == Collect(AllGroundings(chunks[..i]), style)
      invariant msgs == before + [Partial(chunks[..i], style)]
    {
      TextStep(chunks, i);
      fullText := fullText + Str(chunks[i].text);
      groundingChunkMap := AddChunkCitations(groundingChunkMap, AllGroundings(chunks[..i]), chunks[i].groundings, style);
      var intermediateChunks := Values(groundingChunkMap);
      msgs := AfterChunk(msgs, style, fullText, intermediateChunks);
      assert (before + [Partial(chunks[..i], style)])[..|before|] == before;
      i := i + 1;
    }
    assert chunks[..|chunks|] == chunks;
    if broken {
      return msgs;
    }
    var finalChunks := Values(groundingChunkMap);
    var last := msgs[|msgs| - 1];
    assert msgs[..|msgs| - 1] == before;
    if style == VibeStyle || style == DirectorStyle {
      after := msgs[..|msgs| - 1] + [ChatMessage(Model, fullText, Some(false), Some(finalChunks))];
    } else {
      after := msgs[..|msgs| - 1] + [last.(isStreaming := Some(false), groundingChunks := Some(finalChunks))];
    }
  }

  /** A model message outside any stream: a greeting, a notice, an error. */
  function Notice(text: string): ChatMessage {
    ChatMessage(Model, text, None, None)
  }

  /** The stream threw: `sendMessageStream` was refused or the chunk iteration broke off. */
  predicate Raises(reply: StreamReply) {
    reply.Refused? || reply.broken
  }

  /**
   * What a reply leaves after the user's message when nothing catches a
   * failure (vibe, director): nothing for a refused stream, the message as
   * far as it got for a broken one.
   */
  function Uncaught(reply: StreamReply, style: Style): (r: seq<ChatMessage>)
    ensures !Raises(reply) ==> r == [Completed(reply.chunks, style)]
    ensures reply.Refused? ==> r == []
    ensures reply.Delivered? && reply.broken ==> r == [Partial(reply.chunks, style)]
  {
    match reply
    case Refused => []
    case Delivered(chunks, broken) => [if broken then Partial(chunks, style) else Completed(chunks, style)]
  }

  /** The same when a `catch` appends an error notice (anti-bias, tool). */
  function Caught(reply: StreamReply, style: Style, errorText: string): (r: seq<ChatMessage>)
    ensures !Raises(reply) ==> r == [Completed(reply.chunks, style)]
    ensures Raises(reply) ==> r == Uncaught(reply, style) + [Notice(errorText)]
  {
    match reply
    case Refused => [Notice(errorText)]
    case Delivered(chunks, broken) =>
      if broken then [Partial(chunks, style), Notice(errorText)] else [Completed(chunks, style)]
  }

  /** What a `catch` that appends a notice adds to the transcript the stream left. */
  lemma CaughtAppendsNotice(before: seq<ChatMessage>, reply: StreamReply, style: Style, errorText: string)
    ensures Raises(reply) ==> before + Uncaught(reply, style) + [Notice(errorText)] == before + Caught(reply, style, errorText)
    ensures !Raises(reply) ==> before + Uncaught(reply, style) == before + Caught(reply, style, errorText)
  {
  }

  /** The streaming part of `sendMessage` on a transcript that ends with the user's message. */
  method RunStream(before: seq<ChatMessage>, reply: StreamReply, style: Style) returns (after: seq<ChatMessage>)
    ensures after == before + Uncaught(reply, style)
  {
    after := before;
    if reply.Delivered? {
      after := FoldStream(before, reply.chunks, reply.broken, style);
    }
  }

  /** `role` as the transcript writes it. */
  function RoleName(r: Role): string {
    match r
    case User => "user"
    case Model => "model"
  }

  /** `${m.role}: ${m.text}`. */
  function Line(m: ChatMessage): string {
    RoleName(m.role) + ": " + m.text
  }

  function Lines(msgs: seq<ChatMessage>): (r: seq<string>)
    ensures |r| == |msgs|
    ensures forall i :: 0 <= i < |msgs| ==> r[i] == Line(msgs[i])
  {
    seq(|msgs|, i requires 0 <= i < |msgs| => Line(msgs[i]))
  }

  /** `messages.map(m => `${m.role}: ${m.text}`).join('\n')`. */
  function Transcript(msgs: seq<ChatMessage>): string {
    Join(Lines(msgs), "\n")
  }

  /** One more message adds one more line. */
  lemma TranscriptSnoc(msgs: seq<ChatMessage>, m: ChatMessage)
    requires msgs != []
    ensures Transcript(msgs + [m]) == Transcript(msgs) + "\n" + Line(m)
  {
    assert Lines(msgs + [m]) == Lines(msgs) + [Line(m)];
    JoinSnoc(Lines(msgs), Line(m), "\n");
  }

  /**
   * What `sendMessage` was called with: nothing, a keyboard event, another
   * DOM event (a click), or a plain `{text}` object from a button.
   */
  datatype SendEvent = NoEvent | Key(enter: bool, shift: bool) | DomEvent(shift: bool) | TextEvent(text: string)

  /**
   * The text the director and anti-bias chats send: `None` when it returns
   * at once, which is for Enter with shift only; a `{text}` object sends its
   * text; every other event, and none, sends the input field.
   */
  function ChatTextToSend(event: SendEvent, userInput: string): (r: Option<string>)
    ensures event.Key? && event.enter && event.shift ==> r.None?
    ensures event.TextEvent? ==> r == Some(event.text)
    ensures event.NoEvent? || event.DomEvent? || (event.Key? && !(event.enter && event.shift)) ==> r == Some(userInput)
  {
    match event
    case Key(enter, shift) => if enter && shift then None else Some(userInput)
    case TextEvent(text) => Some(text)
    case _ => Some(userInput)
  }

  /** A reply to a non-streamed `sendMessage`: its text and its grounding chunks. */
  datatype Response = Response(text: string, groundings: seq<Grounding>)
}
