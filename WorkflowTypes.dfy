/**
 * The records of the persona workflow (src/services/workflow.service.ts):
 * the pipeline step, the structured persona with its optional remix layer,
 * the three-layer analysis report, chat messages with their citations, the
 * history snapshot `PersonaState`, and the inspiration library.
 *
 * An optional TypeScript property (`x?: T`) is an `Option<T>`.
 */
module WorkflowTypes {
  import opened Options

  datatype PipelineStep = VibeEntry | Crystallize | RefineDirector | Check | Simulation | Final

  datatype Role = User | Model

  /**
   * A persona. The remix fields are present only once a remix has been
   * merged in; `innerVoice.Some?` is the `'inner_voice' in persona` test.
   */
  datatype StructuredPersona = StructuredPersona(
    appearance: string,
    personality: string,
    backstory: string,
    speechStyle: string,
    behaviors: string,
    innerVoice: Option<string>,
    coreWound: Option<string>,
    secretDesire: Option<string>,
    worldview: Option<string>)

  /** The result of a deep remix: the four psychological layers. */
  datatype RemixData = RemixData(innerVoice: string, coreWound: string, secretDesire: string, worldview: string)

  datatype Severity = High | Medium | Low

  /** `kind` is the report's `type` field. */
  datatype LogicConflict = LogicConflict(kind: string, detail: string, severity: Severity, suggestion: string)

  datatype BiasAnalysis = BiasAnalysis(
    biasDetected: bool,
    biasType: Option<string>,
    evidence: Option<string>,
    gentleSuggestion: Option<string>)

  datatype DepthElement = DepthElement(element: string, question: string, whyImportant: string)

  datatype DepthAnalysis = DepthAnalysis(completenessScore: int, missingElements: seq<DepthElement>, strengths: seq<string>)

  datatype FullAnalysisReport = FullAnalysisReport(
    logicalConflicts: seq<LogicConflict>,
    biasAnalysis: BiasAnalysis,
    depthAssessment: DepthAnalysis)

  /** A search citation as the SDK delivers it: the web part and its fields may be missing. */
  datatype Web = Web(uri: Option<string>, title: Option<string>)
  datatype Grounding = Grounding(web: Option<Web>)

  datatype ChatMessage = ChatMessage(
    role: Role,
    text: string,
    isStreaming: Option<bool>,
    groundingChunks: Option<seq<Grounding>>)

  datatype SimulationTurn = SimulationTurn(role: Role, text: string)
  datatype SimulationType = ChatSimulation | QuotesSimulation

  /** One snapshot on the history stack. */
  datatype PersonaState = PersonaState(
    step: PipelineStep,
    vibeFragment: Option<string>,
    vibeMessages: seq<ChatMessage>,
    isModifying: Option<bool>,
    structuredPersona: Option<StructuredPersona>,
    currentDraft: string,
    analysisReport: Option<FullAnalysisReport>,
    simulationHistory: seq<SimulationTurn>,
    simulationType: SimulationType,
    remixData: Option<RemixData>)

  /** `Partial<PersonaState>`: `Some` marks a property the caller wrote. */
  datatype Patch = Patch(
    step: Option<PipelineStep>,
    vibeFragment: Option<string>,
    vibeMessages: Option<seq<ChatMessage>>,
    isModifying: Option<bool>,
    structuredPersona: Option<StructuredPersona>,
    currentDraft: Option<string>,
    analysisReport: Option<FullAnalysisReport>,
    simulationHistory: Option<seq<SimulationTurn>>,
    simulationType: Option<SimulationType>,
    remixData: Option<RemixData>)

  const NoChange: Patch := Patch(None, None, None, None, None, None, None, None, None, None)

  datatype QuestionType = Standard | Color | Reference

  datatype InspirationQuestion = InspirationQuestion(
    id: string,
    text: string,
    kind: QuestionType,
    example: string,
    placeholder: Option<string>)

  datatype InspirationCategory = InspirationCategory(
    id: string,
    icon: string,
    title: string,
    questions: seq<InspirationQuestion>)

  /** `getEmptyState()`: the snapshot of a fresh session. */
  function EmptyState(): (r: PersonaState)
    ensures r.step == VibeEntry && r.vibeMessages == [] && r.currentDraft == ""
    ensures r.structuredPersona.None? && r.analysisReport.None? && r.remixData.None?
  {
    PersonaState(VibeEntry, None, [], None, None, "", None, [], ChatSimulation, None)
  }

  /** A property the patch writes wins; otherwise the old one stays. */
  function Pick<T>(written: Option<T>, prior: T): T {
    if written.Some? then written.value else prior
  }

  function PickOptional<T>(written: Option<T>, prior: Option<T>): Option<T> {
    if written.Some? then written else prior
  }

  /** `{ ...current, ...patch }`. */
  function Merge(s: PersonaState, p: Patch): (r: PersonaState)
    ensures p.step.Some? ==> r.step == p.step.value
    ensures p.step.None? ==> r.step == s.step
    ensures p.vibeFragment.Some? ==> r.vibeFragment == p.vibeFragment
    ensures p.vibeFragment.None? ==> r.vibeFragment == s.vibeFragment
    ensures p.vibeMessages.Some? ==> r.vibeMessages == p.vibeMessages.value
    ensures p.vibeMessages.None? ==> r.vibeMessages == s.vibeMessages
    ensures p.isModifying.Some? ==> r.isModifying == p.isModifying
    ensures p.isModifying.None? ==> r.isModifying == s.isModifying
    ensures p.structuredPersona.Some? ==> r.structuredPersona == p.structuredPersona
    ensures p.structuredPersona.None? ==> r.structuredPersona == s.structuredPersona
    ensures p.currentDraft.Some? ==> r.currentDraft == p.currentDraft.value
    ensures p.currentDraft.None? ==> r.currentDraft == s.currentDraft
    ensures p.analysisReport.Some? ==> r.analysisReport == p.analysisReport
    ensures p.analysisReport.None? ==> r.analysisReport == s.analysisReport
    ensures p.simulationHistory.Some? ==> r.simulationHistory == p.simulationHistory.value
    ensures p.simulationHistory.None? ==> r.simulationHistory == s.simulationHistory
    ensures p.simulationType.Some? ==> r.simulationType == p.simulationType.value
    ensures p.simulationType.None? ==> r.simulationType == s.simulationType
    ensures p.remixData.Some? ==> r.remixData == p.remixData
    ensures p.remixData.None? ==> r.remixData == s.remixData
  {
    PersonaState(
      Pick(p.step, s.step),
      PickOptional(p.vibeFragment, s.vibeFragment),
      Pick(p.vibeMessages, s.vibeMessages),
      PickOptional(p.isModifying, s.isModifying),
      PickOptional(p.structuredPersona, s.structuredPersona),
      Pick(p.currentDraft, s.currentDraft),
      PickOptional(p.analysisReport, s.analysisReport),
      Pick(p.simulationHistory, s.simulationHistory),
      Pick(p.simulationType, s.simulationType),
      PickOptional(p.remixData, s.remixData))
  }

  /** The empty partial changes nothing. */
  lemma MergeNoChange(s: PersonaState)
    ensures Merge(s, NoChange) == s
  {
  }

  /** Applying the same partial twice is the same as applying it once. */
  lemma MergeIdempotent(s: PersonaState, p: Patch)
    ensures Merge(Merge(s, p), p) == Merge(s, p)
  {
  }

  /** Two partials in a row act as one partial in which the later writes win. */
  function Then(p: Patch, q: Patch): Patch {
    Patch(
      PickOptional(q.step, p.step),
      PickOptional(q.vibeFragment, p.vibeFragment),
      PickOptional(q.vibeMessages, p.vibeMessages),
      PickOptional(q.isModifying, p.isModifying),
      PickOptional(q.structuredPersona, p.structuredPersona),
      PickOptional(q.currentDraft, p.currentDraft),
      PickOptional(q.analysisReport, p.analysisReport),
      PickOptional(q.simulationHistory, p.simulationHistory),
      PickOptional(q.simulationType, p.simulationType),
      PickOptional(q.remixData, p.remixData))
  }

  lemma MergeThen(s: PersonaState, p: Patch, q: Patch)
    ensures Merge(Merge(s, p), q) == Merge(s, Then(p, q))
  {
  }
}
