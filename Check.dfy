/**
 * The check step (src/components/pipeline/check.component.ts): the
 * three-layer report's conflicts and missing depth elements are resolved,
 * ignored or filled in, each change a new history snapshot; a deep remix is
 * previewed, its four layers selected one by one and merged into the
 * persona; the draft is handed to the anti-bias audit. Model replies are
 * inputs, `None` when the call throws.
 */
module Check {
  import opened Options
  import opened JsText
  import opened WorkflowTypes
  import opened Gemini
  import W = Workflow
  import H = History

  /** `s.filter((_, i) => i !== index)`: the element at `index` is dropped, if there is one. */
  function RemoveAt<T>(s: seq<T>, index: int): (r: seq<T>)
    ensures 0 <= index < |s| ==> |r| == |s| - 1
    ensures !(0 <= index < |s|) ==> r == s
    ensures 0 <= index < |s| ==> forall j :: 0 <= j < index ==> r[j] == s[j]
    ensures 0 <= index < |s| ==> forall j :: index <= j < |r| ==> r[j] == s[j + 1]
    decreases |s|
  {
    if s == [] then []
    else if index == 0 then s[1..]
    else [s[0]] + RemoveAt(s[1..], index - 1)
  }

  /** Dropping one element loses exactly that element. */
  lemma RemoveAtLosesOne<T>(s: seq<T>, index: int)
    requires 0 <= index < |s|
    ensures multiset(RemoveAt(s, index)) + multiset{s[index]} == multiset(s)
  {
    var front, back := s[..index], s[index + 1..];
    RemoveAtSplits(s, index);
    SplitAround(s, index);
    assert multiset(RemoveAt(s, index)) == multiset(front) + multiset(back);
    assert multiset(s) == multiset(front) + multiset([s[index]] + back);
  }

  /** What is left is the part before the index followed by the part after it. */
  lemma RemoveAtSplits<T>(s: seq<T>, index: int)
    requires 0 <= index < |s|
    ensures RemoveAt(s, index) == s[..index] + s[index + 1..]
  {
  }

  lemma SplitAround<T>(s: seq<T>, index: int)
    requires 0 <= index < |s|
    ensures s == s[..index] + ([s[index]] + s[index + 1..])
  {
    assert s[index..] == [s[index]] + s[index + 1..];
    assert s == s[..index] + s[index..];
  }

  /** The report with one conflict resolved or ignored. */
  function WithoutConflict(report: FullAnalysisReport, index: int): (r: FullAnalysisReport)
    ensures r.biasAnalysis == report.biasAnalysis && r.depthAssessment == report.depthAssessment
    ensures 0 <= index < |report.logicalConflicts| ==>
      multiset(r.logicalConflicts) + multiset{report.logicalConflicts[index]} == multiset(report.logicalConflicts)
    ensures !(0 <= index < |report.logicalConflicts|) ==> r == report
  {
    var r := report.(logicalConflicts := RemoveAt(report.logicalConflicts, index));
    if 0 <= index < |report.logicalConflicts| then
      RemoveAtLosesOne(report.logicalConflicts, index); r
    else r
  }

  /** The report with one missing depth element filled in or skipped. */
  function WithoutDepthElement(report: FullAnalysisReport, index: int): (r: FullAnalysisReport)
    ensures r.logicalConflicts == report.logicalConflicts && r.biasAnalysis == report.biasAnalysis
    ensures r.depthAssessment.completenessScore == report.depthAssessment.completenessScore
    ensures r.depthAssessment.strengths == report.depthAssessment.strengths
    ensures var m := report.depthAssessment.missingElements;
      0 <= index < |m| ==> multiset(r.depthAssessment.missingElements) + multiset{m[index]} == multiset(m)
    ensures !(0 <= index < |report.depthAssessment.missingElements|) ==> r == report
  {
    var d := report.depthAssessment;
    var r := report.(depthAssessment := d.(missingElements := RemoveAt(d.missingElements, index)));
    if 0 <= index < |d.missingElements| then
      RemoveAtLosesOne(d.missingElements, index); r
    else r
  }

  /** The snapshot a changed persona gives: the persona and its compiled draft. */
  function PersonaPatch(p: StructuredPersona): Patch {
    NoChange.(structuredPersona := Some(p), currentDraft := Some(CompileStructuredPrompt(p)))
  }

  function ReportPatch(report: FullAnalysisReport): Patch {
    NoChange.(analysisReport := Some(report))
  }

  /** A brainstormed depth element is appended to the personality under a `[Depth: …]` label. */
  function WithDepthNote(p: StructuredPersona, element: string, content: string): (r: StructuredPersona)
    ensures r == p.(personality := r.personality)
    ensures IsPrefix(p.personality, r.personality)
    ensures r.personality[|p.personality|..] == "\n\n[Depth: " + element + "]\n" + content
  {
    p.(personality := p.personality + "\n\n[Depth: " + element + "]\n" + content)
  }

  /** The four remix layers, in the order of `remixKeys`. */
  datatype RemixKey = InnerVoice | CoreWound | SecretDesire | Worldview

  /** `remixSelection`: which layers the user keeps. */
  datatype RemixSelection = RemixSelection(innerVoice: bool, coreWound: bool, secretDesire: bool, worldview: bool)

  const AllSelected: RemixSelection := RemixSelection(true, true, true, true)

  function Selected(sel: RemixSelection, k: RemixKey): bool {
    match k
    case InnerVoice => sel.innerVoice
    case CoreWound => sel.coreWound
    case SecretDesire => sel.secretDesire
    case Worldview => sel.worldview
  }

  /** `toggleRemix(key)`: one layer flips, the others stay. */
  function Toggle(sel: RemixSelection, k: RemixKey): (r: RemixSelection)
    ensures Selected(r, k) == !Selected(sel, k)
    ensures forall other :: other != k ==> Selected(r, other) == Selected(sel, other)
  {
    match k
    case InnerVoice => sel.(innerVoice := !sel.innerVoice)
    case CoreWound => sel.(coreWound := !sel.coreWound)
    case SecretDesire => sel.(secretDesire := !sel.secretDesire)
    case Worldview => sel.(worldview := !sel.worldview)
  }

  lemma ToggleTwice(sel: RemixSelection, k: RemixKey)
    ensures Toggle(Toggle(sel, k), k) == sel
  {
  }

  function Count(b: bool): nat {
    if b then 1 else 0
  }

  /** `selectedCount()`: how many layers are kept; acceptance is disabled at zero. */
  function SelectedCount(sel: RemixSelection): (n: nat)
    ensures n <= 4
    ensures n == 0 <==> forall k :: !Selected(sel, k)
    ensures n == 4 <==> forall k :: Selected(sel, k)
  {
    assert Selected(sel, InnerVoice) == sel.innerVoice && Selected(sel, CoreWound) == sel.coreWound;
    assert Selected(sel, SecretDesire) == sel.secretDesire && Selected(sel, Worldview) == sel.worldview;
    Count(sel.innerVoice) + Count(sel.coreWound) + Count(sel.secretDesire) + Count(sel.worldview)
  }

  /** Each toggle moves the count by one, so the count always matches the checkboxes. */
  lemma ToggleCount(sel: RemixSelection, k: RemixKey)
    ensures SelectedCount(Toggle(sel, k)) == if Selected(sel, k) then SelectedCount(sel) - 1 else SelectedCount(sel) + 1
  {
  }

  function RemixValue(remix: RemixData, k: RemixKey): string {
    match k
    case InnerVoice => remix.innerVoice
    case CoreWound => remix.coreWound
    case SecretDesire => remix.secretDesire
    case Worldview => remix.worldview
  }

  /** The persona's own value of a remix layer, if it has one. */
  function Layer(p: StructuredPersona, k: RemixKey): Option<string> {
    match k
    case InnerVoice => p.innerVoice
    case CoreWound => p.coreWound
    case SecretDesire => p.secretDesire
    case Worldview => p.worldview
  }

  /**
   * `{ ...persona, ...finalRemix }`: a selected layer takes the remix's
   * value, an unselected one keeps what the persona had; the five base
   * sections are untouched.
   */
  function ApplyRemix(p: StructuredPersona, remix: RemixData, sel: RemixSelection): (r: StructuredPersona)
    ensures WithoutRemix(r) == WithoutRemix(p)
    ensures forall k :: Layer(r, k) == if Selected(sel, k) then Some(RemixValue(remix, k)) else Layer(p, k)
  {
    p.(innerVoice := if sel.innerVoice then Some(remix.innerVoice) else p.innerVoice,
       coreWound := if sel.coreWound then Some(remix.coreWound) else p.coreWound,
       secretDesire := if sel.secretDesire then Some(remix.secretDesire) else p.secretDesire,
       worldview := if sel.worldview then Some(remix.worldview) else p.worldview)
  }

  /** With nothing selected the persona is unchanged; merging the same selection twice changes nothing more. */
  lemma ApplyRemixNothingOrOnce(p: StructuredPersona, remix: RemixData, sel: RemixSelection)
    ensures SelectedCount(sel) == 0 ==> ApplyRemix(p, remix, sel) == p
    ensures ApplyRemix(ApplyRemix(p, remix, sel), remix, sel) == ApplyRemix(p, remix, sel)
  {
  }

  /** A persona that has never been remixed. */
  predicate Plain(p: StructuredPersona) {
    p.innerVoice.None? && p.coreWound.None? && p.secretDesire.None? && p.worldview.None?
  }

  /**
   * As written, the draft of a merged remix shows the remix block only when
   * the inner voice is present: a plain persona merged without the inner
   * voice compiles to the unremixed draft, whatever else was selected.
   */
  lemma {:induction false} AcceptWithoutInnerVoiceDropsLayers(p: StructuredPersona, remix: RemixData, sel: RemixSelection)
    requires Plain(p) && !sel.innerVoice
    ensures CompileStructuredPrompt(ApplyRemix(p, remix, sel)) == CompileStructuredPrompt(p)
    ensures sel.coreWound ==> ApplyRemix(p, remix, sel).coreWound == Some(remix.coreWound)
  {
    var q := ApplyRemix(p, remix, sel);
    RemixDetection(q);
    assert WithoutRemix(q) == p;
  }

  /**
   * As written, a plain persona merged with the inner voice alone gets the
   * whole remix block, whose three unselected layers render as "undefined".
   */
  lemma {:induction false} InnerVoiceAloneRendersUndefined(p: StructuredPersona, remix: RemixData)
    requires Plain(p)
    ensures var q := ApplyRemix(p, remix, RemixSelection(true, false, false, false));
      CompileStructuredPrompt(q) == CompileStructuredPrompt(p) + "\n\n" + TrimEnd(RemixBody(q)) &&
      Str(q.innerVoice) == remix.innerVoice &&
      Str(q.coreWound) == "undefined" && Str(q.secretDesire) == "undefined" && Str(q.worldview) == "undefined"
  {
    var q := ApplyRemix(p, remix, RemixSelection(true, false, false, false));
    RemixDetection(q);
    assert WithoutRemix(q) == p;
  }

  /** The header of a layer's section in the draft. */
  function Header(k: RemixKey): string {
    match k
    case InnerVoice => InnerVoiceHeader
    case CoreWound => CoreWoundHeader
    case SecretDesire => SecretDesireHeader
    case Worldview => WorldviewHeader
  }

  function Section(k: RemixKey, value: string): string {
    Header(k) + "\n" + value
  }

  /** Sections of different layers differ in the fourth character, so a section names its layer. */
  lemma SectionsDiffer(k: RemixKey, other: RemixKey, a: string, b: string)
    requires k != other
    ensures Section(k, a) != Section(other, b)
  {
    assert Section(k, a)[3] == Header(k)[3];
    assert Section(other, b)[3] == Header(other)[3];
  }

  function SectionIfPresent(p: StructuredPersona, k: RemixKey): (r: seq<string>)
    ensures |r| <= 1
  {
    if Layer(p, k).Some? then [Section(k, Layer(p, k).value)] else []
  }

  /** The sections of the layers the persona has, in key order. */
  function LayerSections(p: StructuredPersona): seq<string> {
    SectionIfPresent(p, InnerVoice) + SectionIfPresent(p, CoreWound) +
    SectionIfPresent(p, SecretDesire) + SectionIfPresent(p, Worldview)
  }

  /**
   * The evidently intended draft: the five base sections, then the remix
   * block made of the layers the persona actually has.
   */
  function RemixedDraft(p: StructuredPersona): (r: string)
    ensures LayerSections(p) == [] ==> r == CompileStructuredPrompt(WithoutRemix(p))
  {
    var base := CompileStructuredPrompt(WithoutRemix(p));
    var layers := LayerSections(p);
    if layers == [] then base else base + "\n\n" + TrimEnd(RemixRule + Join(layers, "\n\n"))
  }

  /** The source's remix block is the four sections, each after a blank line. */
  lemma RemixBodyAsSections(p: StructuredPersona)
    ensures RemixBody(p) == RemixRule + Section(InnerVoice, Str(p.innerVoice)) + "\n\n" + Section(CoreWound, Str(p.coreWound))
      + "\n\n" + Section(SecretDesire, Str(p.secretDesire)) + "\n\n" + Section(Worldview, Str(p.worldview))
  {
    Regroup4(RemixRule, InnerVoiceHeader, Str(p.innerVoice), CoreWoundHeader, Str(p.coreWound),
      SecretDesireHeader, Str(p.secretDesire), WorldviewHeader, Str(p.worldview), "\n", "\n\n");
  }

  lemma Assoc(x: string, y: string, z: string)
    ensures x + (y + z) == x + y + z
  {
  }

  /** Appending a section after a separator is appending its pieces one by one. */
  lemma AppendSection(x: string, sep: string, header: string, nl: string, value: string)
    ensures x + sep + (header + nl + value) == x + sep + header + nl + value
  {
    Assoc(x + sep, header + nl, value);
    Assoc(x + sep, header, nl);
  }

  /** A rule followed by four header-and-text pieces, regrouped as four sections. */
  lemma Regroup4(rule: string, h1: string, v1: string, h2: string, v2: string, h3: string, v3: string,
                 h4: string, v4: string, nl: string, sep: string)
    ensures rule + h1 + nl + v1 + sep + h2 + nl + v2 + sep + h3 + nl + v3 + sep + h4 + nl + v4
      == rule + (h1 + nl + v1) + sep + (h2 + nl + v2) + sep + (h3 + nl + v3) + sep + (h4 + nl + v4)
  {
    AppendSection(rule, [], h1, nl, v1);
    assert rule + [] == rule;
    var a := rule + (h1 + nl + v1);
    AppendSection(a, sep, h2, nl, v2);
    var b := a + sep + (h2 + nl + v2);
    AppendSection(b, sep, h3, nl, v3);
    var c := b + sep + (h3 + nl + v3);
    AppendSection(c, sep, h4, nl, v4);
  }

  /** Four parts joined behind a prefix: the separator between each neighbouring pair. */
  lemma {:induction false} PrefixJoinFour(prefix: string, a: string, b: string, c: string, d: string, sep: string)
    ensures prefix + Join([a, b, c, d], sep) == prefix + a + sep + b + sep + c + sep + d
  {
    JoinSnoc([a], b, sep);
    assert [a] + [b] == [a, b];
    JoinSnoc([a, b], c, sep);
    assert [a, b] + [c] == [a, b, c];
    JoinSnoc([a, b, c], d, sep);
    assert [a, b, c] + [d] == [a, b, c, d];
    var j2 := a + sep + b;
    var j3 := j2 + sep + c;
    Assoc(prefix, a + sep, b);
    Assoc(prefix, a, sep);
    Assoc(prefix, j2 + sep, c);
    Assoc(prefix, j2, sep);
    Assoc(prefix, j3 + sep, d);
    Assoc(prefix, j3, sep);
  }

  /** With all four layers present the corrected draft is the one the source compiles. */
  lemma {:induction false} RemixedDraftAgrees(p: StructuredPersona)
    requires p.innerVoice.Some? && p.coreWound.Some? && p.secretDesire.Some? && p.worldview.Some?
    ensures RemixedDraft(p) == CompileStructuredPrompt(p)
  {
    RemixDetection(p);
    FullBlockFromSections(p);
  }

  /** With all four layers present the corrected block is the source's block. */
  lemma {:induction false} FullBlockFromSections(p: StructuredPersona)
    requires p.innerVoice.Some? && p.coreWound.Some? && p.secretDesire.Some? && p.worldview.Some?
    ensures LayerSections(p) != [] && RemixRule + Join(LayerSections(p), "\n\n") == RemixBody(p)
  {
    RemixBodyAsSections(p);
    var s1 := Section(InnerVoice, p.innerVoice.value);
    var s2 := Section(CoreWound, p.coreWound.value);
    var s3 := Section(SecretDesire, p.secretDesire.value);
    var s4 := Section(Worldview, p.worldview.value);
    assert LayerSections(p) == [s1, s2, s3, s4];
    PrefixJoinFour(RemixRule, s1, s2, s3, s4, "\n\n");
  }

  /** The layers a merge into a plain persona renders: exactly the selected ones, one section each. */
  lemma {:induction false} SelectedLayersRendered(p: StructuredPersona, remix: RemixData, sel: RemixSelection)
    requires Plain(p)
    ensures |LayerSections(ApplyRemix(p, remix, sel))| == SelectedCount(sel)
    ensures forall k :: Section(k, RemixValue(remix, k)) in LayerSections(ApplyRemix(p, remix, sel)) <==> Selected(sel, k)
  {
    var q := ApplyRemix(p, remix, sel);
    forall k
      ensures Section(k, RemixValue(remix, k)) in LayerSections(q) <==> Selected(sel, k)
    {
      if Selected(sel, k) {
        assert Section(k, RemixValue(remix, k)) in SectionIfPresent(q, k);
      } else {
        forall other | other != k
          ensures Section(k, RemixValue(remix, k)) !in SectionIfPresent(q, other)
        {
          if Layer(q, other).Some? {
            SectionsDiffer(k, other, RemixValue(remix, k), Layer(q, other).value);
          }
        }
        assert SectionIfPresent(q, k) == [];
      }
    }
  }

  /** A section starts with its header's "#", so it never trims to nothing. */
  lemma SectionNotBlank(k: RemixKey, value: string)
    ensures TrimEnd(Section(k, value)) != []
  {
    var sec := Section(k, value);
    assert sec[0] == Header(k)[0] == '#';
  }

  /** A part of a joined block behind a prefix occurs, up to trailing white space, in the trimmed text. */
  lemma BlockPartIncluded(base: string, rule: string, parts: seq<string>, i: int, sep: string)
    requires 0 <= i < |parts| && TrimEnd(parts[i]) != []
    ensures Includes(base + TrimEnd(rule + Join(parts, sep)), TrimEnd(parts[i]))
  {
    var before, after := JoinHasPart(parts, i, sep);
    Assoc(rule, before + parts[i], after);
    Assoc(rule, before, parts[i]);
    TrimmedPartIncluded(base, rule + before, parts[i], after);
  }

  /**
   * The corrected draft of a merged plain persona, read as text: every
   * selected layer's section, up to trailing white space, occurs in it, and
   * with nothing selected it is the unremixed draft.
   */
  lemma {:induction false} SelectedLayersInDraft(p: StructuredPersona, remix: RemixData, sel: RemixSelection, k: RemixKey)
    requires Plain(p)
    ensures Selected(sel, k) ==> Includes(RemixedDraft(ApplyRemix(p, remix, sel)), TrimEnd(Section(k, RemixValue(remix, k))))
    ensures SelectedCount(sel) == 0 ==> RemixedDraft(ApplyRemix(p, remix, sel)) == CompileStructuredPrompt(p)
  {
    var q := ApplyRemix(p, remix, sel);
    SelectedLayersRendered(p, remix, sel);
    assert WithoutRemix(q) == p;
    if Selected(sel, k) {
      var sec := Section(k, RemixValue(remix, k));
      var layers := LayerSections(q);
      var i :| 0 <= i < |layers| && layers[i] == sec;
      SectionNotBlank(k, RemixValue(remix, k));
      BlockPartIncluded(CompileStructuredPrompt(p) + "\n\n", RemixRule, layers, i, "\n\n");
    }
  }

  class CheckComponent {
    const wf: W.WorkflowService
    var isAnalyzing: bool
    var isFixing: Option<int>
    var isHarmonizing: Option<int>
    var isBrainstorming: Option<int>
    var isRemixing: bool
    var showRemixModal: bool
    var remixData: Option<RemixData>
    var remixSelection: RemixSelection

    constructor(service: W.WorkflowService)
      ensures wf == service && isAnalyzing && isFixing.None? && isHarmonizing.None? && isBrainstorming.None?
      ensures !isRemixing && !showRemixModal && remixData.None? && remixSelection == AllSelected
    {
      wf := service;
      isAnalyzing := true;
      isFixing := None;
      isHarmonizing := None;
      isBrainstorming := None;
      isRemixing := false;
      showRemixModal := false;
      remixData := None;
      remixSelection := AllSelected;
    }

    /** `report()`: the report of the current snapshot. */
    function Report(): Option<FullAnalysisReport>
      reads wf`historyStack, wf`currentStateIndex
    {
      wf.State().analysisReport
    }

    /** `isProcessingAction(index)`. */
    predicate IsProcessingAction(index: int)
      reads this`isFixing, this`isHarmonizing
    {
      isFixing == Some(index) || isHarmonizing == Some(index)
    }

    /** `ngOnInit`: analyse when the snapshot has no report yet. */
    method NgOnInit(result: Option<FullAnalysisReport>)
      modifies this`isAnalyzing, wf`historyStack, wf`currentStateIndex
      ensures old(Report()).Some? ==> wf.Snapshot() == old(wf.Snapshot())
      ensures old(Report()).None? && old(wf.State()).structuredPersona.Some? && result.Some? ==>
        wf.Snapshot() == H.Push(old(wf.Snapshot()), ReportPatch(result.value))
      ensures old(Report()).None? && (old(wf.State()).structuredPersona.None? || result.None?) ==>
        wf.Snapshot() == old(wf.Snapshot())
      ensures !isAnalyzing
    {
      if Report().None? {
        RunAnalysis(result);
      } else {
        isAnalyzing := false;
      }
    }

    /** `runAnalysis`: with a persona, the new report becomes a snapshot; a failed call is swallowed. */
    method RunAnalysis(result: Option<FullAnalysisReport>)
      modifies this`isAnalyzing, wf`historyStack, wf`currentStateIndex
      ensures old(wf.State()).structuredPersona.Some? && result.Some? ==>
        wf.Snapshot() == H.Push(old(wf.Snapshot()), ReportPatch(result.value))
      ensures old(wf.State()).structuredPersona.None? || result.None? ==> wf.Snapshot() == old(wf.Snapshot())
      ensures !isAnalyzing
    {
      isAnalyzing := true;
      var persona := wf.State().structuredPersona;
      if persona.Some? && result.Some? {
        wf.PushState(ReportPatch(result.value));
      }
      isAnalyzing := false;
    }

    /**
     * `processResolution`: with a persona, a report and that conflict, the
     * revised persona and its draft become one snapshot and the report
     * without the conflict the next; anything else changes nothing.
     */
    method ProcessResolution(index: int, updated: Option<StructuredPersona>)
      modifies wf`historyStack, wf`currentStateIndex
      ensures var report := old(Report());
        if old(wf.State()).structuredPersona.Some? && report.Some? &&
           0 <= index < |report.value.logicalConflicts| && updated.Some? then
          wf.Snapshot() == H.Push(H.Push(old(wf.Snapshot()), PersonaPatch(updated.value)),
                                  ReportPatch(WithoutConflict(report.value, index)))
        else
          wf.Snapshot() == old(wf.Snapshot())
    {
      var currentPersona := wf.State().structuredPersona;
      var currentReport := Report();
      if currentPersona.None? || currentReport.None? || !(0 <= index < |currentReport.value.logicalConflicts|) {
        return;
      }
      if updated.Some? {
        wf.PushState(PersonaPatch(updated.value));
        var updatedConflicts := RemoveAt(currentReport.value.logicalConflicts, index);
        wf.PushState(ReportPatch(currentReport.value.(logicalConflicts := updatedConflicts)));
      }
    }

    /**
     * `autoFix(index)`: the busy marker is set first; when the report has no
     * such conflict it stays set and nothing else happens, otherwise the
     * resolution runs and the marker is cleared.
     */
    method AutoFix(index: int, updated: Option<StructuredPersona>)
      modifies this`isFixing, wf`historyStack, wf`currentStateIndex
      ensures var report := old(Report());
        var conflicts := if report.Some? then report.value.logicalConflicts else [];
        if 0 <= index < |conflicts| then
          isFixing.None? &&
          (if old(wf.State()).structuredPersona.Some? && updated.Some? then
             wf.Snapshot() == H.Push(H.Push(old(wf.Snapshot()), PersonaPatch(updated.value)),
                                     ReportPatch(WithoutConflict(report.value, index)))
           else wf.Snapshot() == old(wf.Snapshot()))
        else
          isFixing == Some(index) && wf.Snapshot() == old(wf.Snapshot())
    {
      isFixing := Some(index);
      var report := Report();
      var conflicts := if report.Some? then report.value.logicalConflicts else [];
      if !(0 <= index < |conflicts|) {
        return;
      }
      ProcessResolution(index, updated);
      isFixing := None;
    }

    /** `turnIntoFeature(index)`: the same flow as `autoFix`, with the harmonizing marker. */
    method TurnIntoFeature(index: int, updated: Option<StructuredPersona>)
      modifies this`isHarmonizing, wf`historyStack, wf`currentStateIndex
      ensures var report := old(Report());
        var conflicts := if report.Some? then report.value.logicalConflicts else [];
        if 0 <= index < |conflicts| then
          isHarmonizing.None? &&
          (if old(wf.State()).structuredPersona.Some? && updated.Some? then
             wf.Snapshot() == H.Push(H.Push(old(wf.Snapshot()), PersonaPatch(updated.value)),
                                     ReportPatch(WithoutConflict(report.value, index)))
           else wf.Snapshot() == old(wf.Snapshot()))
        else
          isHarmonizing == Some(index) && wf.Snapshot() == old(wf.Snapshot())
    {
      isHarmonizing := Some(index);
      var report := Report();
      var conflicts := if report.Some? then report.value.logicalConflicts else [];
      if !(0 <= index < |conflicts|) {
        return;
      }
      ProcessResolution(index, updated);
      isHarmonizing := None;
    }

    /** `ignoreConflict(index)`: with a report, the report without that conflict becomes a snapshot. */
    method IgnoreConflict(index: int)
      modifies wf`historyStack, wf`currentStateIndex
      ensures old(Report()).None? ==> wf.Snapshot() == old(wf.Snapshot())
      ensures old(Report()).Some? ==>
        wf.Snapshot() == H.Push(old(wf.Snapshot()), ReportPatch(WithoutConflict(old(Report()).value, index)))
    {
      var currentReport := Report();
      if currentReport.None? {
        return;
      }
      var updatedConflicts := RemoveAt(currentReport.value.logicalConflicts, index);
      wf.PushState(ReportPatch(currentReport.value.(logicalConflicts := updatedConflicts)));
    }

    /** `skipDepthElement(index)`: with a report, the report without that element becomes a snapshot. */
    method SkipDepthElement(index: int)
      modifies wf`historyStack, wf`currentStateIndex
      ensures old(Report()).None? ==> wf.Snapshot() == old(wf.Snapshot())
      ensures old(Report()).Some? ==>
        wf.Snapshot() == H.Push(old(wf.Snapshot()), ReportPatch(WithoutDepthElement(old(Report()).value, index)))
    {
      var currentReport := Report();
      if currentReport.None? {
        return;
      }
      var d := currentReport.value.depthAssessment;
      var updatedElements := RemoveAt(d.missingElements, index);
      wf.PushState(ReportPatch(currentReport.value.(depthAssessment := d.(missingElements := updatedElements))));
    }

    /**
     * `addDepthElement(item, index)`: the busy marker is set first and stays
     * set without a persona; otherwise the brainstormed text is noted in the
     * personality, the persona and its draft become a snapshot, the element
     * is then skipped in the report, and the marker is cleared.
     */
    method AddDepthElement(item: DepthElement, index: int, content: Option<string>)
      modifies this`isBrainstorming, wf`historyStack, wf`currentStateIndex
      ensures var persona := old(wf.State()).structuredPersona;
        if persona.None? then
          isBrainstorming == Some(index) && wf.Snapshot() == old(wf.Snapshot())
        else
          isBrainstorming.None? &&
          (if content.None? then wf.Snapshot() == old(wf.Snapshot())
           else
             var once := H.Push(old(wf.Snapshot()), PersonaPatch(WithDepthNote(persona.value, item.element, content.value)));
             if old(Report()).None? then wf.Snapshot() == once
             else wf.Snapshot() == H.Push(once, ReportPatch(WithoutDepthElement(old(Report()).value, index))))
    {
      isBrainstorming := Some(index);
      var currentPersona := wf.State().structuredPersona;
      if currentPersona.None? {
        return;
      }
      if content.Some? {
        var updatedPersona := WithDepthNote(currentPersona.value, item.element, content.value);
        wf.PushState(PersonaPatch(updatedPersona));
        SkipDepthElement(index);
      }
      isBrainstorming := None;
    }

    /**
     * `triggerRemix`: without a persona nothing happens; a remix opens the
     * preview with every layer selected; a failed call only alerts.
     */
    method TriggerRemix(result: Option<RemixData>)
      modifies this`isRemixing, this`remixData, this`remixSelection, this`showRemixModal
      ensures !isRemixing
      ensures if wf.State().structuredPersona.Some? && result.Some? then
          remixData == result && remixSelection == AllSelected && showRemixModal
        else
          remixData == old(remixData) && remixSelection == old(remixSelection) && showRemixModal == old(showRemixModal)
    {
      isRemixing := true;
      var persona := wf.State().structuredPersona;
      if persona.None? {
        isRemixing := false;
        return;
      }
      if result.Some? {
        remixData := result;
        remixSelection := AllSelected;
        showRemixModal := true;
      }
      isRemixing := false;
    }

    /** `toggleRemix(key)`. */
    method ToggleRemix(k: RemixKey)
      modifies this`remixSelection
      ensures remixSelection == Toggle(old(remixSelection), k)
    {
      remixSelection := Toggle(remixSelection, k);
    }

    /** `selectedCount()`. */
    function SelectedCountNow(): (n: nat)
      reads this`remixSelection
      ensures n == SelectedCount(remixSelection)
    {
      SelectedCount(remixSelection)
    }

    /**
     * `acceptRemix`: with a persona and a remix, the persona with the
     * selected layers merged, the whole remix and the recompiled draft
     * become a snapshot, and the preview closes.
     */
    method AcceptRemix()
      modifies this`showRemixModal, wf`historyStack, wf`currentStateIndex
      ensures var persona := old(wf.State()).structuredPersona;
        if persona.None? || remixData.None? then
          wf.Snapshot() == old(wf.Snapshot()) && showRemixModal == old(showRemixModal)
        else
          var remixed := ApplyRemix(persona.value, remixData.value, remixSelection);
          wf.Snapshot() == H.Push(old(wf.Snapshot()), PersonaPatch(remixed).(remixData := remixData)) &&
          !showRemixModal
    {
      var persona := wf.State().structuredPersona;
      var remix := remixData;
      if persona.None? || remix.None? {
        return;
      }
      var remixedPersona := ApplyRemix(persona.value, remix.value, remixSelection);
      wf.PushState(PersonaPatch(remixedPersona).(remixData := remix));
      showRemixModal := false;
    }

    /** `proceedToSim`. */
    method ProceedToSim()
      modifies wf`historyStack, wf`currentStateIndex
      ensures wf.Snapshot() == H.SetStep(old(wf.Snapshot()), Simulation)
    {
      wf.SetStep(Simulation);
    }

    /** `openAntiBiasAudit`: the current draft is handed to the audit. */
    method OpenAntiBiasAudit()
      modifies wf`antiBiasContext
      ensures wf.antiBiasContext == Some(wf.State().currentDraft)
    {
      wf.antiBiasContext := Some(wf.State().currentDraft);
    }
  }
}
