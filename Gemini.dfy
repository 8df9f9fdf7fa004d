/**
 * The deterministic parts of src/services/gemini.service.ts: the persona
 * prompt serializer, the fallbacks applied when a model reply cannot be
 * parsed, and the per-language choice of a system prompt. The model calls
 * themselves are inputs: a `Reply` says whether the call failed, returned
 * text whose parsing threw, or returned JSON.
 */
module Gemini {
  import opened Options
  import opened JsText
  import opened WorkflowTypes
  import opened I18n

  /** The five fixed sections up to the last header. */
  function BaseHead(p: StructuredPersona): string {
    "## Appearance\n" + p.appearance +
    "\n\n## Personality\n" + p.personality +
    "\n\n## Backstory Framework\n" + p.backstory +
    "\n\n## Speech & Communication Style\n" + p.speechStyle +
    "\n\n## Behavioral Patterns"
  }

  /** The five fixed sections, without the template's surrounding line breaks. */
  function BaseBody(p: StructuredPersona): string {
    BaseHead(p) + "\n" + p.behaviors
  }

  /** The rule that opens the remix block, and the headers of its four sections. */
  const RemixRule: string := "---\n"
  const InnerVoiceHeader: string := "## Inner Voice (<inner_voice>)"
  const CoreWoundHeader: string := "## Core Wound"
  const SecretDesireHeader: string := "## Secret Desire"
  const WorldviewHeader: string := "## Worldview"

  const RemixHead: string := RemixRule + InnerVoiceHeader

  /** The four remix sections; a missing field renders as "undefined". */
  function RemixBody(p: StructuredPersona): string {
    RemixHead + "\n" + Str(p.innerVoice) +
    "\n\n" + CoreWoundHeader + "\n" + Str(p.coreWound) +
    "\n\n" + SecretDesireHeader + "\n" + Str(p.secretDesire) +
    "\n\n" + WorldviewHeader + "\n" + Str(p.worldview)
  }

  /** The template's outer line breaks and trailing indentation are all the trim removes in front of and behind the sections. */
  lemma BaseTemplateTrim(p: StructuredPersona)
    ensures Trim("\n" + BaseBody(p) + "\n    ") == TrimEnd(BaseBody(p))
  {
    TrimPadded("\n", BaseBody(p), "\n    ");
  }

  lemma RemixTemplateTrim(p: StructuredPersona)
    ensures Trim("\n\n" + RemixBody(p) + "\n        ") == TrimEnd(RemixBody(p))
  {
    var body := RemixBody(p);
    assert body[0] == '-';
    TrimPadded("\n\n", body, "\n        ");
  }

  /**
   * `compileStructuredPrompt`: the trimmed five-section text, followed by a
   * blank line and the trimmed remix sections when the persona has an
   * inner voice. Trimming drops only the template's outer line breaks and
   * white space at the very end of the last field.
   */
  function CompileStructuredPrompt(p: StructuredPersona): string {
    var basePrompt := Trim("\n" + BaseBody(p) + "\n    ");
    if p.innerVoice.Some? then
      basePrompt + "\n\n" + Trim("\n\n" + RemixBody(p) + "\n        ")
    else
      basePrompt
  }

  /** The compiled prompt, once the template's padding is trimmed away. */
  lemma CompiledSections(p: StructuredPersona)
    ensures p.innerVoice.None? ==> CompileStructuredPrompt(p) == TrimEnd(BaseBody(p))
    ensures p.innerVoice.Some? ==> CompileStructuredPrompt(p) == TrimEnd(BaseBody(p)) + "\n\n" + TrimEnd(RemixBody(p))
  {
    BaseTemplateTrim(p);
    RemixTemplateTrim(p);
  }

  lemma BaseHeadEndsWithHeader(p: StructuredPersona)
    ensures BaseHead(p)[|BaseHead(p)| - 1] == 's'
  {
    var front := "## Appearance\n" + p.appearance +
      "\n\n## Personality\n" + p.personality +
      "\n\n## Backstory Framework\n" + p.backstory +
      "\n\n## Speech & Communication Style\n" + p.speechStyle;
    assert BaseHead(p) == front + "\n\n## Behavioral Patterns";
  }

  /** Trimming the five sections can only shorten the behaviours field. */
  lemma BaseTrimKeepsHeaders(p: StructuredPersona)
    ensures TrimEnd(BaseBody(p)) == BaseHead(p) + TrimEnd("\n" + p.behaviors)
  {
    BaseHeadEndsWithHeader(p);
    assert BaseBody(p) == BaseHead(p) + ("\n" + p.behaviors);
    TrimEndAfterNonSpace(BaseHead(p), "\n" + p.behaviors);
  }

  /** The five headers come first and in their fixed order, whatever the field texts are. */
  lemma HeadersInOrder(p: StructuredPersona)
    ensures IsPrefix(BaseHead(p), CompileStructuredPrompt(p))
  {
    CompiledSections(p);
    BaseTrimKeepsHeaders(p);
    var base := TrimEnd(BaseBody(p));
    PrefixOfConcat(BaseHead(p), TrimEnd("\n" + p.behaviors));
    if p.innerVoice.Some? {
      PrefixOfConcat(base, "\n\n");
      PrefixOfConcat(base + "\n\n", TrimEnd(RemixBody(p)));
      PrefixTransitive(BaseHead(p), base, base + "\n\n");
      PrefixTransitive(BaseHead(p), base + "\n\n", CompileStructuredPrompt(p));
    }
  }

  /** The persona with its remix layer removed. */
  function WithoutRemix(p: StructuredPersona): StructuredPersona {
    p.(innerVoice := None, coreWound := None, secretDesire := None, worldview := None)
  }

  /**
   * Remix detection looks at the inner voice only: without it the other
   * remix fields have no effect, and with it the output extends the plain
   * five-section prompt by a blank line and the remix block.
   */
  lemma RemixDetection(p: StructuredPersona)
    ensures p.innerVoice.None? ==> CompileStructuredPrompt(p) == CompileStructuredPrompt(WithoutRemix(p))
    ensures p.innerVoice.Some? ==>
      CompileStructuredPrompt(p) == CompileStructuredPrompt(WithoutRemix(p)) + "\n\n" + TrimEnd(RemixBody(p))
  {
    CompiledSections(p);
    CompiledSections(WithoutRemix(p));
    assert BaseBody(p) == BaseBody(WithoutRemix(p));
  }

  /** Splitting the block behind its head is a regrouping of the same pieces. */
  lemma SplitAfterHead(head: string, nl: string, v1: string, sep: string, h2: string, v2: string,
                       h3: string, v3: string, h4: string, v4: string)
    ensures head + nl + v1 + sep + h2 + nl + v2 + sep + h3 + nl + v3 + sep + h4 + nl + v4
      == head + (nl + v1 + sep + h2 + nl + v2 + sep + h3 + nl + v3 + sep + h4 + nl + v4)
  {
  }

  /** The remix block starts with its rule and the inner-voice header. */
  lemma RemixBlockStart(p: StructuredPersona)
    ensures IsPrefix(RemixHead, TrimEnd(RemixBody(p)))
  {
    var rest := "\n" + Str(p.innerVoice) +
      "\n\n" + CoreWoundHeader + "\n" + Str(p.coreWound) +
      "\n\n" + SecretDesireHeader + "\n" + Str(p.secretDesire) +
      "\n\n" + WorldviewHeader + "\n" + Str(p.worldview);
    SplitAfterHead(RemixHead, "\n", Str(p.innerVoice), "\n\n", CoreWoundHeader, Str(p.coreWound),
      SecretDesireHeader, Str(p.secretDesire), WorldviewHeader, Str(p.worldview));
    assert RemixBody(p) == RemixHead + rest;
    assert RemixHead[|RemixHead| - 1] == InnerVoiceHeader[|InnerVoiceHeader| - 1];
    TrimEndAfterNonSpace(RemixHead, rest);
  }

  /**
   * How a model call ended: it threw; its text was `Unparseable`, meaning the
   * parse or the first property access inside the same `try` threw (text
   * that is not JSON, and for the inspiration replies also the JSON `null`);
   * or it parsed to a value.
   */
  datatype Reply<T> = CallFailed | Unparseable | Parsed(value: T)

  const EmptyReport: FullAnalysisReport :=
    FullAnalysisReport([], BiasAnalysis(false, None, None, None), DepthAnalysis(0, [], []))

  /**
   * `analyzePersonaDeeply`: a parsed report as returned; an unparseable one
   * replaced by the empty report (no conflicts, no bias, score 0, nothing
   * missing, no strengths); a failed call propagates (`None`).
   */
  function AnalysisReportFrom(r: Reply<FullAnalysisReport>): (o: Option<FullAnalysisReport>)
    ensures o.None? <==> r.CallFailed?
    ensures r.Parsed? ==> o == Some(r.value)
    ensures r.Unparseable? ==>
      o.Some? && o.value.logicalConflicts == [] && !o.value.biasAnalysis.biasDetected &&
      o.value.depthAssessment.completenessScore == 0 &&
      o.value.depthAssessment.missingElements == [] && o.value.depthAssessment.strengths == []
  {
    match r
    case CallFailed => None
    case Unparseable => Some(EmptyReport)
    case Parsed(v) => Some(v)
  }

  /**
   * `generateInspirationQuestions`: the parsed `categories` property, or no
   * categories when it is missing or the text is not JSON or is `null`; a failed call
   * propagates. The reply's value is that property (`None` when absent).
   */
  function InspirationQuestionsFrom(r: Reply<Option<seq<InspirationCategory>>>): (o: Option<seq<InspirationCategory>>)
    ensures o.None? <==> r.CallFailed?
    ensures r.Parsed? && r.value.Some? ==> o == r.value
    ensures r.Unparseable? || (r.Parsed? && r.value.None?) ==> o == Some([])
  {
    match r
    case CallFailed => None
    case Unparseable => Some([])
    case Parsed(categories) => Some(categories.GetOr([]))
  }

  /**
   * `remixInspiration`: the parsed `categories` property; the current library
   * unchanged when the text is not JSON or is `null`; no categories when the property is
   * missing; a failed call propagates.
   */
  function RemixInspirationFrom(r: Reply<Option<seq<InspirationCategory>>>, current: seq<InspirationCategory>)
    : (o: Option<seq<InspirationCategory>>)
    ensures o.None? <==> r.CallFailed?
    ensures r.Unparseable? ==> o == Some(current)
    ensures r.Parsed? ==> o == Some(r.value.GetOr([]))
  {
    match r
    case CallFailed => None
    case Unparseable => Some(current)
    case Parsed(categories) => Some(categories.GetOr([]))
  }

  /** The system prompts a chat mode has, English and Traditional Chinese; their texts are not modelled. */
  datatype PromptSet = PromptSet(en: string, zhTW: string)

  /** `prompts[language] || prompts['en']`. */
  function SelectPrompt(ps: PromptSet, l: Language): (r: string)
    ensures l == ZhTW && ps.zhTW != "" ==> r == ps.zhTW
    ensures l != ZhTW || ps.zhTW == "" ==> r == ps.en
  {
    match l
    case En => ps.en
    case ZhTW => if ps.zhTW != "" then ps.zhTW else ps.en
    case _ => ps.en
  }

  /** Every language without a prompt of its own gets the English prompt. */
  lemma OtherLanguagesUseEnglish(ps: PromptSet, l: Language)
    requires l != En && l != ZhTW
    ensures SelectPrompt(ps, l) == SelectPrompt(ps, En)
  {
  }

  /** `startToolChat`'s system prompt. */
  function ToolSystemPrompt(ps: PromptSet, l: Language): string {
    SelectPrompt(ps, l)
  }

  /**
   * The persona-audit block `startAntiBiasChat` appends for a context: its
   * fixed text before and after the context, which is not modelled.
   */
  datatype ContextBlock = ContextBlock(head: string, tail: string)

  /** `startAntiBiasChat`'s system prompt: the language's prompt, plus the context block iff the context is truthy. */
  function AntiBiasSystemPrompt(ps: PromptSet, block: ContextBlock, l: Language, context: Option<string>): (r: string)
    ensures Truthy(context) ==> r == SelectPrompt(ps, l) + block.head + context.value + block.tail
    ensures !Truthy(context) ==> r == SelectPrompt(ps, l)
  {
    var systemPrompt := SelectPrompt(ps, l);
    if context.Some? && context.value != "" then
      systemPrompt + block.head + context.value + block.tail
    else
      systemPrompt
  }

  /** With a context, the audit prompt extends the plain one and carries the context verbatim. */
  lemma AntiBiasContextInjected(ps: PromptSet, block: ContextBlock, l: Language, context: string)
    requires context != ""
    ensures
      var r := AntiBiasSystemPrompt(ps, block, l, Some(context));
      var plain := AntiBiasSystemPrompt(ps, block, l, None);
      IsPrefix(plain, r) && r[|plain| + |block.head|..|plain| + |block.head| + |context|] == context
  {
    var r := AntiBiasSystemPrompt(ps, block, l, Some(context));
    var plain := SelectPrompt(ps, l);
    assert r == plain + block.head + context + block.tail;
    assert r[..|plain|] == plain;
  }
}
