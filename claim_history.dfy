/** The claim history browser: the list of stored claims with its loading
    state, a single-selection detail overlay, the status badge and the
    document URL built for a stored claim. The fetch itself is left out:
    its two outcomes are the methods `FetchSucceeded` and `FetchFailed`. */
module ClaimHistory {
  import opened Wrappers
  import opened Text
  import opened ClaimRecord
  import opened ClaimAnalysis

  /** The backend the browser reads claims and uploaded documents from. */
  const BaseUrl: string := "https://opd-backend-1.onrender.com"

  /** The badge colour: one per engine status, gray for anything else. */
  datatype Badge = Emerald | Rose | Amber | Purple | Gray

  /** `getStatusBadge`: a lookup in the four-entry style table, gray on a miss. */
  function StatusBadge(status: string): (b: Badge)
    ensures b == Emerald <==> status == "APPROVED"
    ensures b == Rose <==> status == "REJECTED"
    ensures b == Amber <==> status == "PARTIAL"
    ensures b == Purple <==> status == "MANUAL_REVIEW"
  {
    match status
    case "APPROVED" => Emerald
    case "REJECTED" => Rose
    case "PARTIAL" => Amber
    case "MANUAL_REVIEW" => Purple
    case _ => Gray
  }

  /** The overlay's document URL: the backend base, a slash and the stored
      path, when the path is a non-empty string; none otherwise. The path
      can be read back from the URL. */
  function FilePreviewUrl(filePath: Option<string>): (url: Option<string>)
    ensures url.Some? <==> Truthy(filePath)
    ensures url.Some? ==> BaseUrl + "/" <= url.value && url.value[|BaseUrl| + 1..] == filePath.value
  {
    if Truthy(filePath) then Some(BaseUrl + "/" + filePath.value) else None
  }

  /** One table row. Dates are shown as stored (locale formatting is not modelled). */
  datatype HistoryRow = HistoryRow(
    claimId: string, patient: string, createdAt: string,
    approved: Option<real>, total: Option<real>, badge: Badge, statusText: string)

  function Row(c: Claim): HistoryRow {
    HistoryRow(c.claimId, OrElse(c.patientName, "Unknown"), c.createdAt,
               c.approvedAmount, c.totalAmount, StatusBadge(c.status), c.status)
  }

  /** One row per claim, in list order. */
  function Rows(claims: seq<Claim>): (rows: seq<HistoryRow>)
    ensures |rows| == |claims|
    ensures forall k :: 0 <= k < |claims| ==> rows[k] == Row(claims[k])
  {
    if claims == [] then [] else [Row(claims[0])] + Rows(claims[1..])
  }

  /** The list pane: the loading message, or the table (header always,
      then the rows). */
  datatype ListPane = LoadingRecords | Table(rows: seq<HistoryRow>)

  /** The overlay: the selected claim's id and its detail view. */
  datatype Overlay = Overlay(claimId: string, analysis: AnalysisView)

  datatype HistoryView = HistoryView(list: ListPane, overlay: Option<Overlay>)

  /** The component's three state cells. */
  datatype HistoryState = HistoryState(claims: seq<Claim>, loading: bool, selected: Option<Claim>)

  const InitialState: HistoryState := HistoryState([], true, None)

  function View(s: HistoryState): HistoryView {
    HistoryView(
      if s.loading then LoadingRecords else Table(Rows(s.claims)),
      match s.selected
      case Some(c) => Some(Overlay(c.claimId, Render(Some(c), FilePreviewUrl(c.filePath)).value))
      case None => None)
  }

  /** The overlay is present exactly when a claim is selected; it shows that
      claim, with the backend copy of its document when it has a stored
      path and the placeholder otherwise. */
  lemma OverlayIffSelected(s: HistoryState)
    ensures View(s).overlay.Some? <==> s.selected.Some?
    ensures s.selected.Some? ==>
      var o := View(s).overlay.value;
      var c := s.selected.value;
      && o.claimId == c.claimId
      && o.analysis == Render(Some(c), FilePreviewUrl(c.filePath)).value
      && (Truthy(c.filePath) ==> o.analysis.document == Image(BaseUrl + "/" + c.filePath.value))
      && (!Truthy(c.filePath) ==> o.analysis.document == Placeholder)
  {
  }

  /** Once loaded, the table has one row per claim, in order, with the
      patient shown as "Unknown" when the name is missing or empty. */
  lemma TableListsEveryClaim(s: HistoryState)
    requires !s.loading
    ensures View(s).list.Table?
    ensures |View(s).list.rows| == |s.claims|
    ensures forall k :: 0 <= k < |s.claims| ==>
      && View(s).list.rows[k].claimId == s.claims[k].claimId
      && (View(s).list.rows[k].patient == "Unknown" <==>
            !Truthy(s.claims[k].patientName) || s.claims[k].patientName == Some("Unknown"))
      && View(s).list.rows[k].badge == StatusBadge(s.claims[k].status)
  {
  }

  /** The badge and the analysis view's status tone agree on the three
      decided outcomes; MANUAL_REVIEW is purple here but neutral there. */
  lemma BadgeAgreesWithTone(status: string)
    ensures StatusBadge(status) == Emerald <==> StatusTone(status) == Positive
    ensures StatusBadge(status) == Rose <==> StatusTone(status) == Negative
    ensures StatusBadge(status) == Amber <==> StatusTone(status) == Warning
    ensures StatusTone(status) == Neutral <==> StatusBadge(status) in {Purple, Gray}
  {
  }

  /** The component's state cells, updated by the fetch callbacks and the
      View and Close buttons. */
  class HistoryBrowser {
    var claims: seq<Claim>
    var loading: bool
    var selected: Option<Claim>

    function State(): HistoryState
      reads this
    {
      HistoryState(claims, loading, selected)
    }

    constructor ()
      ensures State() == InitialState
    {
      claims, loading, selected := [], true, None;
    }

    /** The list request answered: the rows become the response. */
    method FetchSucceeded(response: seq<Claim>)
      modifies this
      ensures State() == old(State()).(claims := response, loading := false)
    {
      claims := response;
      loading := false;
    }

    /** The list request failed: loading ends and the list stays as it was. */
    method FetchFailed()
      modifies this
      ensures State() == old(State()).(loading := false)
    {
      loading := false;
    }

    /** A row's View button: that row's claim replaces any earlier selection. */
    method ViewRow(row: nat)
      requires row < |claims|
      modifies this
      ensures State() == old(State()).(selected := Some(old(claims)[row]))
    {
      selected := Some(claims[row]);
    }

    /** The overlay's close button. */
    method Close()
      modifies this
      ensures State() == old(State()).(selected := None)
    {
      selected := None;
    }
  }

  /** A failed first fetch shows the table header with no rows and no overlay. */
  lemma FailedFetchShowsEmptyTable()
    ensures View(InitialState.(loading := false)) == HistoryView(Table([]), None)
  {
  }
}
