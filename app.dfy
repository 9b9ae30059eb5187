/** The adjudication console's top-level component: the upload lifecycle
    over the state cells `activeTab`, `file`, `preview`, `loading` and
    `result`, and the routing of the main pane by tab.

    `URL.createObjectURL` is the parameter `objectUrl` (a fresh URL for the
    chosen file); the HTTP request is split into its two halves, the click
    that sends it and the response (or failure) that ends it. */
module App {
  import opened Wrappers
  import opened ClaimRecord
  import opened ClaimAnalysis

  /** A file chosen in the browser's file input. */
  datatype UploadFile = UploadFile(name: string)

  /** The component's state cells. */
  datatype UploadState = UploadState(
    activeTab: string,
    file: Option<UploadFile>,
    preview: Option<string>,
    loading: bool,
    result: Option<Claim>)

  const InitialState: UploadState := UploadState("dashboard", None, None, false, None)

  /** The single alert raised when the request fails. */
  const FailureAlert: string := "Processing failed. Is backend running?"

  // ---------------------------------------------------------------------
  // Transitions
  // ---------------------------------------------------------------------

  /** `handleFileChange`: no file, no change; otherwise the file is taken,
      the preview is the new object URL and any earlier result is dropped. */
  function OnFileChange(s: UploadState, selected: Option<UploadFile>, objectUrl: string): UploadState {
    match selected
    case None => s
    case Some(f) => s.(file := Some(f), preview := Some(objectUrl), result := None)
  }

  /** The synchronous half of `handleProcessClaim`: without a file nothing
      happens; otherwise `loading` is set and the file is sent. */
  function OnProcessStart(s: UploadState): (UploadState, Option<UploadFile>) {
    if s.file.None? then (s, None) else (s.(loading := true), s.file)
  }

  /** The asynchronous half: the response becomes the result, or a failure
      raises the alert and leaves the result alone; `loading` is cleared in
      both cases. */
  function OnProcessDone(s: UploadState, response: Option<Claim>): (UploadState, Option<string>) {
    match response
    case Some(claim) => (s.(result := Some(claim), loading := false), None)
    case None => (s.(loading := false), Some(FailureAlert))
  }

  /** "Process New Claim": result, file and preview are cleared. */
  function OnProcessNewClaim(s: UploadState): UploadState {
    s.(result := None, file := None, preview := None)
  }

  /** The sidebar's tab selection. */
  function OnSelectTab(s: UploadState, tab: string): UploadState {
    s.(activeTab := tab)
  }

  // ---------------------------------------------------------------------
  // Views
  // ---------------------------------------------------------------------

  /** The adjudicate pane: the analysis of the result with the "Process New
      Claim" button, or the upload panel. The panel's file input, when
      present, carries its caption; the Process button may be present. */
  datatype AdjudicateView =
    | AnalysisScreen(analysis: AnalysisView)
    | UploadPanel(spinner: bool, heading: string, fileInput: Option<string>, processButton: bool)

  datatype Screen = DashboardScreen | HistoryScreen | PoliciesScreen | AdjudicateScreen(view: AdjudicateView)

  function AdjudicatePane(s: UploadState): AdjudicateView {
    match s.result
    case Some(claim) => AnalysisScreen(Render(Some(claim), s.preview).value)
    case None =>
      UploadPanel(
        s.loading,
        if s.loading then "Analyzing Document..." else "New Adjudication Request",
        if s.loading then None
        else Some(match s.file case Some(f) => f.name + " selected" case None => "Click to Browse Files"),
        s.file.Some? && !s.loading)
  }

  /** `renderTabContent`: three named tabs, and everything else is the
      adjudicate pane. */
  function TabContent(s: UploadState): Screen {
    match s.activeTab
    case "dashboard" => DashboardScreen
    case "history" => HistoryScreen
    case "policies" => PoliciesScreen
    case _ => AdjudicateScreen(AdjudicatePane(s))
  }

  /** The page header: "Adjudication Console" on the adjudicate tab, the
      tab's own name on every other (the `capitalize` styling is not text). */
  function PageTitle(s: UploadState): (t: string)
    ensures s.activeTab == "adjudicate" ==> t == "Adjudication Console"
    ensures s.activeTab != "adjudicate" ==> t == s.activeTab
  {
    if s.activeTab == "adjudicate" then "Adjudication Console" else s.activeTab
  }

  /** The header names the pane below it: each of the three named tabs is
      titled with its own name exactly when its screen shows, and the
      "Adjudication Console" title always sits over the adjudicate pane. */
  lemma TitleNamesContent(s: UploadState)
    ensures PageTitle(s) == "Adjudication Console" ==> TabContent(s).AdjudicateScreen?
    ensures TabContent(s).DashboardScreen? <==> PageTitle(s) == "dashboard"
    ensures TabContent(s).HistoryScreen? <==> PageTitle(s) == "history"
    ensures TabContent(s).PoliciesScreen? <==> PageTitle(s) == "policies"
  {
  }

  predicate ShowsFileInput(s: UploadState) {
    var screen := TabContent(s);
    screen.AdjudicateScreen? && screen.view.UploadPanel? && screen.view.fileInput.Some?
  }

  predicate ShowsProcessButton(s: UploadState) {
    var screen := TabContent(s);
    screen.AdjudicateScreen? && screen.view.UploadPanel? && screen.view.processButton
  }

  predicate ShowsNewClaimButton(s: UploadState) {
    var screen := TabContent(s);
    screen.AdjudicateScreen? && screen.view.AnalysisScreen?
  }

  /** Any tab other than the three named ones shows the adjudicate pane,
      and that pane shows the analysis of the result exactly when there is
      a result, with the current preview as its document. */
  lemma RoutingFallsThroughToAdjudicate(s: UploadState)
    requires s.activeTab !in {"dashboard", "history", "policies"}
    ensures TabContent(s).AdjudicateScreen?
    ensures TabContent(s).view.AnalysisScreen? <==> s.result.Some?
    ensures s.result.Some? ==> TabContent(s).view.analysis == Render(s.result, s.preview).value
    ensures TabContent(s).view.AnalysisScreen? ==> TabContent(s).view.analysis.document == Document(s.preview)
  {
    assert s.activeTab != "dashboard" && s.activeTab != "history" && s.activeTab != "policies";
  }

  /** On the upload panel the spinner and the "Analyzing" heading appear
      exactly while loading, the file input exactly while not loading, and
      the Process button exactly when a file is chosen and nothing is loading. */
  lemma UploadPanelControls(s: UploadState)
    requires s.result.None?
    ensures var p := AdjudicatePane(s);
      && p.UploadPanel?
      && (p.spinner <==> s.loading)
      && (p.heading == "Analyzing Document..." <==> s.loading)
      && (p.fileInput.Some? <==> !s.loading)
      && (p.processButton <==> s.file.Some? && !s.loading)
      && (p.fileInput.Some? && s.file.Some? ==> p.fileInput.value == s.file.value.name + " selected")
  {
  }

  // ---------------------------------------------------------------------
  // Request round trips
  // ---------------------------------------------------------------------

  /** A request that fails leaves every state cell as it was before the
      click and raises exactly one alert; one that succeeds shows the
      response with the current preview. */
  lemma ProcessRoundTrip(s: UploadState, response: Option<Claim>)
    requires !s.loading && s.file.Some?
    ensures var (started, sent) := OnProcessStart(s);
      var (done, alert) := OnProcessDone(started, response);
      && sent == s.file
      && started.loading
      && !done.loading
      && (response.None? ==> done == s && alert == Some(FailureAlert))
      && (response.Some? ==>
            && alert.None?
            && done.result == response
            && AdjudicatePane(done) == AnalysisScreen(Render(response, s.preview).value))
  {
  }

  /** Without a file the Process handler does nothing. */
  lemma ProcessWithoutFileIsNoOp(s: UploadState)
    requires s.file.None?
    ensures OnProcessStart(s) == (s, None)
  {
  }

  /** "Process New Claim" brings the adjudicate pane back to the empty
      upload panel, whatever was chosen before. */
  lemma NewClaimResetsUpload(s: UploadState)
    requires !s.loading
    ensures var t := OnProcessNewClaim(s);
      && t.result.None? && t.file.None? && t.preview.None?
      && AdjudicatePane(t) == UploadPanel(false, "New Adjudication Request", Some("Click to Browse Files"), false)
  {
  }

  /** Choosing a file drops the previous result and offers the Process
      button; a change event without a file changes nothing. */
  lemma FileChangeSelects(s: UploadState, selected: Option<UploadFile>, objectUrl: string)
    requires !s.loading
    ensures selected.None? ==> OnFileChange(s, selected, objectUrl) == s
    ensures selected.Some? ==>
      AdjudicatePane(OnFileChange(s, selected, objectUrl))
      == UploadPanel(false, "New Adjudication Request", Some(selected.value.name + " selected"), true)
  {
  }

  // ---------------------------------------------------------------------
  // At most one submission in flight
  // ---------------------------------------------------------------------

  /** What can happen next: the user acts on a control that is on screen,
      or a pending request completes. */
  datatype UiEvent =
    | PickFile(selected: Option<UploadFile>, objectUrl: string)
    | ClickProcess
    | ResponseArrives(response: Option<Claim>)
    | ClickNewClaim
    | PickTab(tab: string)

  /** The component's state plus the number of requests sent and not yet answered. */
  datatype Session = Session(ui: UploadState, inFlight: nat)

  predicate Enabled(s: Session, e: UiEvent) {
    match e
    case PickFile(_, _) => ShowsFileInput(s.ui)
    case ClickProcess => ShowsProcessButton(s.ui)
    case ResponseArrives(_) => s.inFlight > 0
    case ClickNewClaim => ShowsNewClaimButton(s.ui)
    case PickTab(_) => true
  }

  function Next(s: Session, e: UiEvent): Session
    requires Enabled(s, e)
  {
    match e
    case PickFile(selected, objectUrl) => Session(OnFileChange(s.ui, selected, objectUrl), s.inFlight)
    case ClickProcess =>
      var (ui, sent) := OnProcessStart(s.ui);
      Session(ui, if sent.Some? then s.inFlight + 1 else s.inFlight)
    case ResponseArrives(response) => Session(OnProcessDone(s.ui, response).0, s.inFlight - 1)
    case ClickNewClaim => Session(OnProcessNewClaim(s.ui), s.inFlight)
    case PickTab(tab) => Session(OnSelectTab(s.ui, tab), s.inFlight)
  }

  /** Every event of the trace is enabled when it happens. */
  predicate Runs(s: Session, events: seq<UiEvent>)
    decreases |events|
  {
    events == [] || (Enabled(s, events[0]) && Runs(Next(s, events[0]), events[1..]))
  }

  function Final(s: Session, events: seq<UiEvent>): Session
    requires Runs(s, events)
    decreases |events|
  {
    if events == [] then s else Final(Next(s, events[0]), events[1..])
  }

  /** Loading means exactly one request is pending, for a chosen file and
      with no result on screen. */
  predicate Inv(s: Session) {
    && s.inFlight <= 1
    && (s.ui.loading <==> s.inFlight == 1)
    && (s.ui.loading ==> s.ui.result.None? && s.ui.file.Some?)
  }

  lemma StepKeepsInv(s: Session, e: UiEvent)
    requires Inv(s) && Enabled(s, e)
    ensures Inv(Next(s, e))
  {
    if e.ClickProcess? {
      assert s.ui.result.None? && !s.ui.loading;
    }
  }

  /** From the initial state, whatever the user does and whatever the
      backend answers, at most one submission is pending at any time, and
      it is pending exactly while the console shows it is loading. */
  lemma {:induction false} AtMostOneSubmissionInFlight(s: Session, events: seq<UiEvent>)
    requires Inv(s) && Runs(s, events)
    ensures Inv(Final(s, events))
    ensures Final(s, events).inFlight <= 1
    ensures Final(s, events).ui.loading <==> Final(s, events).inFlight == 1
    decreases |events|
  {
    if events != [] {
      StepKeepsInv(s, events[0]);
      AtMostOneSubmissionInFlight(Next(s, events[0]), events[1..]);
    }
  }

  lemma InitialSessionSatisfiesInv()
    ensures Inv(Session(InitialState, 0))
  {
  }

  // ---------------------------------------------------------------------
  // The component's state cells
  // ---------------------------------------------------------------------

  /** The console's state cells, updated in place by its handlers. */
  class UploadConsole {
    var activeTab: string
    var file: Option<UploadFile>
    var preview: Option<string>
    var loading: bool
    var result: Option<Claim>

    function State(): UploadState
      reads this
    {
      UploadState(activeTab, file, preview, loading, result)
    }

    constructor ()
      ensures State() == InitialState
    {
      activeTab, file, preview, loading, result := "dashboard", None, None, false, None;
    }

    method HandleFileChange(selected: Option<UploadFile>, objectUrl: string)
      modifies this
      ensures State() == OnFileChange(old(State()), selected, objectUrl)
    {
      if selected.Some? {
        file := selected;
        preview := Some(objectUrl);
        result := None;
      }
    }

    /** Returns the file posted to the backend, if any. */
    method BeginProcessClaim() returns (sent: Option<UploadFile>)
      modifies this
      ensures (State(), sent) == OnProcessStart(old(State()))
    {
      if file.None? {
        return None;
      }
      loading := true;
      sent := file;
    }

    /** Returns the alert raised, if any. */
    method FinishProcessClaim(response: Option<Claim>) returns (alert: Option<string>)
      modifies this
      ensures (State(), alert) == OnProcessDone(old(State()), response)
    {
      alert := None;
      if response.Some? {
        result := response;
      } else {
        alert := Some(FailureAlert);
      }
      loading := false;
    }

    method ProcessNewClaim()
      modifies this
      ensures State() == OnProcessNewClaim(old(State()))
    {
      result := None;
      file := None;
      preview := None;
    }

    method SelectTab(tab: string)
      modifies this
      ensures State() == OnSelectTab(old(State()), tab)
    {
      activeTab := tab;
    }
  }
}
