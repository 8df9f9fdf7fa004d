/**
 * The shell of the application (src/app.component.ts): which view is
 * shown, and the workflow mutations that go with switching modes and
 * with leaving the anti-bias audit.
 */
module App {
  import opened Options
  import opened JsText
  import W = Workflow
  import H = History

  datatype View = HomeView | PipelineView | ArchitectView | ToolView | AntiBiasView

  /** The modes the home screen offers. */
  datatype Mode = PipelineMode | ArchitectMode | ToolMode | DirectorMode | AntiBiasMode

  /** The view a mode opens: the director runs inside the pipeline view. */
  function ModeView(m: Mode): (v: View)
    ensures v == PipelineView <==> m == PipelineMode || m == DirectorMode
    ensures v != HomeView
  {
    match m
    case PipelineMode => PipelineView
    case DirectorMode => PipelineView
    case ArchitectMode => ArchitectView
    case ToolMode => ToolView
    case AntiBiasMode => AntiBiasView
  }

  class AppComponent {
    const wf: W.WorkflowService
    var currentView: View

    constructor(service: W.WorkflowService)
      ensures wf == service && currentView == HomeView
    {
      wf := service;
      currentView := HomeView;
    }

    /**
     * `handleModeSelection(mode)`: the pipeline starts a fresh session, the
     * director a fresh session at the director step with an empty draft;
     * the other modes leave the workflow alone.
     */
    method HandleModeSelection(mode: Mode)
      modifies this`currentView, wf`historyStack, wf`currentStateIndex
      ensures currentView == ModeView(mode)
      ensures mode == PipelineMode ==> wf.Snapshot() == H.Reset()
      ensures mode == DirectorMode ==> wf.Snapshot() == H.InitDirector("")
      ensures mode != PipelineMode && mode != DirectorMode ==> wf.Snapshot() == old(wf.Snapshot())
    {
      if mode == PipelineMode {
        wf.Reset(true);
        currentView := PipelineView;
      } else if mode == DirectorMode {
        wf.InitDirectorMode("");
        currentView := PipelineView;
      } else {
        currentView := ModeView(mode);
      }
    }

    /** `handleArchitectRefinement(prompt)`: the architect's prompt seeds a director session. */
    method HandleArchitectRefinement(prompt: string)
      modifies this`currentView, wf`historyStack, wf`currentStateIndex
      ensures currentView == PipelineView && wf.Snapshot() == H.InitDirector(prompt)
    {
      wf.InitDirectorMode(prompt);
      currentView := PipelineView;
    }

    /** `switchToView(view)`. */
    method SwitchToView(view: View)
      requires view == ArchitectView || view == ToolView
      modifies this`currentView
      ensures currentView == view
    {
      currentView := view;
    }

    /** `handleAntiBiasRequest`. */
    method HandleAntiBiasRequest()
      modifies this`currentView
      ensures currentView == AntiBiasView
    {
      currentView := AntiBiasView;
    }

    /**
     * `handleAntiBiasExit`: an audit opened from the check step (a truthy
     * hand-over) clears the hand-over and returns to the pipeline; any
     * other goes home.
     */
    method HandleAntiBiasExit()
      modifies this`currentView, wf`antiBiasContext
      ensures Truthy(old(wf.antiBiasContext)) ==> wf.antiBiasContext.None? && currentView == PipelineView
      ensures !Truthy(old(wf.antiBiasContext)) ==> wf.antiBiasContext == old(wf.antiBiasContext) && currentView == HomeView
    {
      var context := wf.antiBiasContext;
      if context.Some? && context.value != "" {
        wf.antiBiasContext := None;
        currentView := PipelineView;
      } else {
        GoHome();
      }
    }

    method GoHome()
      modifies this`currentView
      ensures currentView == HomeView
    {
      currentView := HomeView;
    }
  }
}
