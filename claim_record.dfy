/** The records that travel between the extraction service, the rules engine
    and the console: the extracted-data dictionary the AI returns and the
    stored claim row the console receives. Every optional field is an
    `Option`: `None` stands for a key that is absent or null. */
module ClaimRecord {
  import opened Wrappers

  /** One billed charge: `{"item": str, "cost": float}`. A missing `item`
      key reads as the empty string both in the rules engine (`get('item', '')`)
      and on screen. */
  datatype LineItem = LineItem(item: string, cost: Option<real>)

  /** The dictionary produced by the extraction service and read by the
      rules engine; it is also stored verbatim as the claim's `extracted_data`. */
  datatype ExtractedData = ExtractedData(
    patientName: Option<string>,
    dateOfService: Option<string>,
    diagnosis: Option<string>,
    doctorName: Option<string>,
    doctorRegNo: Option<string>,
    totalClaimedAmount: Option<real>,
    confidenceScore: Option<real>,
    medicalNecessityCheck: Option<string>,
    medicalNecessityReason: Option<string>,
    lineItems: Option<seq<LineItem>>)

  /** A stored claim as the console receives it from the claims endpoints.
      `status` is whatever text the record carries. */
  datatype Claim = Claim(
    claimId: string,
    patientName: Option<string>,
    status: string,
    extractedData: Option<ExtractedData>,
    totalAmount: Option<real>,
    approvedAmount: Option<real>,
    confidenceScore: Option<real>,
    rejectionReasons: Option<seq<string>>,
    filePath: Option<string>,
    createdAt: string)
}
