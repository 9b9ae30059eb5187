/** The claim detail view: a total mapping from a (possibly partially
    populated) stored claim and an optional document URL to what the view
    shows. CSS class strings become tones; amounts are the numbers shown,
    before locale formatting. */
module ClaimAnalysis {
  import opened Wrappers
  import opened Text
  import opened ClaimRecord
  import opened NumberFormat

  /** The colour family of the status pill: emerald, rose, amber, slate. */
  datatype Tone = Positive | Negative | Warning | Neutral

  /** `getStatusColor`: the three decided outcomes get their own colour;
      anything else, MANUAL_REVIEW included, is neutral. */
  function StatusTone(status: string): (t: Tone)
    ensures t == Positive <==> status == "APPROVED"
    ensures t == Negative <==> status == "REJECTED"
    ensures t == Warning <==> status == "PARTIAL"
  {
    match status
    case "APPROVED" => Positive
    case "REJECTED" => Negative
    case "PARTIAL" => Warning
    case _ => Neutral
  }

  /** The amount block of the header. */
  datatype AmountHeader = AmountHeader(approved: real, struck: bool, original: Option<real>)

  /** The medical-necessity panel. */
  datatype NecessityPanel = NecessityPanel(badge: string, reason: string, passStyle: bool)

  /** The confidence bar: its width in percent, whether it is green, and
      its label `((score || 0) * 100).toFixed(1)` followed by "% Accuracy". */
  datatype ConfidenceBar = ConfidenceBar(widthPercent: real, green: bool, caption: string)

  /** The extracted data points grid. */
  datatype DetailsGrid = DetailsGrid(
    patientName: string, dateOfService: string, diagnosis: string, doctorRegNo: string,
    confidence: ConfidenceBar)

  /** One line-item table row: the item text and the cost shown after the rupee sign. */
  datatype ItemRow = ItemRow(item: string, cost: Option<real>)

  /** The three sections that exist only when the claim has extracted data. */
  datatype ExtractedSections = ExtractedSections(necessity: NecessityPanel, details: DetailsGrid, rows: seq<ItemRow>)

  /** The document viewer: the image, or the "not available" placeholder. */
  datatype DocumentPane = Image(url: string) | Placeholder

  datatype AnalysisView = AnalysisView(
    claimId: string,
    statusText: string,
    tone: Tone,
    amounts: AmountHeader,
    document: DocumentPane,
    reasons: Option<seq<string>>,
    sections: Option<ExtractedSections>)

  /** `x || 0` on an optional number: absent, null and 0 all read as 0. */
  function OrZero(x: Option<real>): (r: real)
    ensures x.Some? ==> r == x.value
    ensures x.None? ==> r == 0.0
  {
    x.GetOr(0.0)
  }

  /** The header's amount block: the approved amount struck through exactly
      when the claim is REJECTED, and the original amount shown exactly
      when it is not APPROVED. */
  function Amounts(status: string, approved: Option<real>, total: Option<real>): (h: AmountHeader)
    ensures h.approved == OrZero(approved)
    ensures h.struck <==> status == "REJECTED"
    ensures h.original.Some? <==> status != "APPROVED"
    ensures h.original.Some? ==> h.original.value == OrZero(total)
  {
    AmountHeader(OrZero(approved), status == "REJECTED",
                 if status != "APPROVED" then Some(OrZero(total)) else None)
  }

  /** The reasons panel: shown exactly when the list is present and not
      empty, listing the reasons in order. */
  function ReasonsPanel(reasons: Option<seq<string>>): (p: Option<seq<string>>)
    ensures p.Some? <==> reasons.Some? && |reasons.value| > 0
    ensures p.Some? ==> p.value == reasons.value
  {
    match reasons
    case Some(list) => if |list| > 0 then Some(list) else None
    case None => None
  }

  function Necessity(data: ExtractedData): (n: NecessityPanel)
    ensures n.passStyle <==> data.medicalNecessityCheck == Some("PASS")
    ensures n.badge == OrElse(data.medicalNecessityCheck, "N/A")
    ensures n.reason == OrElse(data.medicalNecessityReason, "No reasoning provided")
  {
    NecessityPanel(OrElse(data.medicalNecessityCheck, "N/A"),
                   OrElse(data.medicalNecessityReason, "No reasoning provided"),
                   data.medicalNecessityCheck == Some("PASS"))
  }

  /** The confidence bar, read from the claim's top-level score. */
  function Confidence(score: Option<real>): (b: ConfidenceBar)
    ensures b.green <==> score.Some? && score.value > 0.8
    ensures b.widthPercent == OrZero(score) * 100.0
    ensures b.caption == Fixed1Text(ToFixed1(OrZero(score) * 100.0)) + "% Accuracy"
  {
    ConfidenceBar(OrZero(score) * 100.0, score.Some? && score.value > 0.8,
                  Fixed1Text(ToFixed1(OrZero(score) * 100.0)) + "% Accuracy")
  }

  /** One row per line item, in order; no rows without a list. */
  function Rows(items: Option<seq<LineItem>>): (rows: seq<ItemRow>)
    ensures items.None? ==> rows == []
    ensures items.Some? ==> |rows| == |items.value|
    ensures items.Some? ==> forall k :: 0 <= k < |rows| ==>
      rows[k] == ItemRow(items.value[k].item, items.value[k].cost)
  {
    match items
    case None => []
    case Some(list) => seq(|list|, k requires 0 <= k < |list| => ItemRow(list[k].item, list[k].cost))
  }

  function Sections(data: ExtractedData, score: Option<real>): ExtractedSections {
    ExtractedSections(
      Necessity(data),
      DetailsGrid(OrElse(data.patientName, "N/A"), OrElse(data.dateOfService, "N/A"),
                  OrElse(data.diagnosis, "N/A"), OrElse(data.doctorRegNo, "N/A"),
                  Confidence(score)),
      Rows(data.lineItems))
  }

  /** The document pane: the image when the preview URL is truthy. */
  function Document(filePreview: Option<string>): (d: DocumentPane)
    ensures d.Image? <==> Truthy(filePreview)
    ensures d.Image? ==> d.url == filePreview.value
  {
    if Truthy(filePreview) then Image(filePreview.value) else Placeholder
  }

  /** `ClaimAnalysis({result, filePreview})`: nothing without a result;
      otherwise the header, the document pane, the reasons panel and, only
      with extracted data, the necessity panel, the details grid (each field
      or "N/A", and the confidence bar read from the claim's top-level
      score, not the extracted data's) and the line-item rows. */
  function Render(result: Option<Claim>, filePreview: Option<string>): (v: Option<AnalysisView>)
    ensures v.None? <==> result.None?
    ensures v.Some? ==>
      && v.value.claimId == result.value.claimId
      && v.value.statusText == result.value.status
      && v.value.tone == StatusTone(result.value.status)
      && v.value.amounts == Amounts(result.value.status, result.value.approvedAmount, result.value.totalAmount)
      && v.value.document == Document(filePreview)
      && v.value.reasons == ReasonsPanel(result.value.rejectionReasons)
      && (v.value.sections.Some? <==> result.value.extractedData.Some?)
    ensures v.Some? && result.value.extractedData.Some? ==>
      var data := result.value.extractedData.value;
      var s := v.value.sections.value;
      && s.necessity == Necessity(data)
      && s.details.patientName == OrElse(data.patientName, "N/A")
      && s.details.dateOfService == OrElse(data.dateOfService, "N/A")
      && s.details.diagnosis == OrElse(data.diagnosis, "N/A")
      && s.details.doctorRegNo == OrElse(data.doctorRegNo, "N/A")
      && s.details.confidence == Confidence(result.value.confidenceScore)
      && s.rows == Rows(data.lineItems)
  {
    match result
    case None => None
    case Some(claim) =>
      Some(AnalysisView(
        claim.claimId,
        claim.status,
        StatusTone(claim.status),
        Amounts(claim.status, claim.approvedAmount, claim.totalAmount),
        Document(filePreview),
        ReasonsPanel(claim.rejectionReasons),
        match claim.extractedData
        case Some(data) => Some(Sections(data, claim.confidenceScore))
        case None => None))
  }

  /** Every text field of the details grid shows its value when the value
      is a non-empty string and "N/A" otherwise; the necessity badge and
      reason fall back likewise, and the PASS styling needs exactly "PASS". */
  lemma ExtractedSectionsFallBack(claim: Claim, filePreview: Option<string>)
    requires claim.extractedData.Some?
    ensures var s := Render(Some(claim), filePreview).value.sections.value;
      var data := claim.extractedData.value;
      && (s.details.patientName == "N/A" <==> !Truthy(data.patientName) || data.patientName == Some("N/A"))
      && (s.details.diagnosis == "N/A" <==> !Truthy(data.diagnosis) || data.diagnosis == Some("N/A"))
      && (s.details.dateOfService == "N/A" <==> !Truthy(data.dateOfService) || data.dateOfService == Some("N/A"))
      && (s.details.doctorRegNo == "N/A" <==> !Truthy(data.doctorRegNo) || data.doctorRegNo == Some("N/A"))
      && (s.necessity.badge == "N/A" <==>
            !Truthy(data.medicalNecessityCheck) || data.medicalNecessityCheck == Some("N/A"))
      && (s.necessity.passStyle ==> s.necessity.badge == "PASS")
      && |s.rows| == |data.lineItems.GetOr([])|
  {
  }

  /** A confidence score of 0.823 is labelled "82.3% Accuracy" and shown
      green; 0.8 itself is not green. */
  lemma ConfidenceLabelExamples()
    ensures Confidence(Some(0.823)).caption == "82.3% Accuracy"
    ensures Confidence(Some(0.823)).green
    ensures !Confidence(Some(0.8)).green
  {
    assert 0.823 * 100.0 == 82.3;
    ToFixed1Examples();
    Fixed1TextExamples();
  }

  /** With no score the label reads "0.0% Accuracy". */
  lemma MissingConfidenceLabel()
    ensures Confidence(None).caption == "0.0% Accuracy"
  {
    ToFixed1Examples();
    Fixed1TextExamples();
  }
}
