/** From decision to screen: the claim record the submit endpoint stores
    for an adjudicated claim, and what the detail view then shows of it. */
module EndToEnd {
  import opened Wrappers
  import opened ClaimRecord
  import opened RulesEngine
  import opened RulesEngineFacts
  import opened ClaimAnalysis
  import opened ClaimHistory

  /** The stored row for an adjudicated claim: the extracted fields, the
      decision's status, amount and reason texts, and the saved file path.
      The claim id and creation time are generated by the backend and are
      parameters here. */
  function StoredClaim(claimId: string, createdAt: string, data: ExtractedData, decision: Decision,
                       floatText: real -> string, filePath: string): (c: Claim)
    ensures c.status == decision.status.Name()
    ensures c.rejectionReasons.Some? && |c.rejectionReasons.value| == |decision.reasons|
    ensures forall k :: 0 <= k < |decision.reasons| ==>
      c.rejectionReasons.value[k] == Message(decision.reasons[k], floatText)
  {
    Claim(claimId, data.patientName, decision.status.Name(), Some(data), data.totalClaimedAmount,
          Some(decision.approvedAmount), data.confidenceScore,
          Some(seq(|decision.reasons|, k requires 0 <= k < |decision.reasons| => Message(decision.reasons[k], floatText))),
          Some(filePath), createdAt)
  }

  /** For a claim the engine decided and the backend stored, the detail
      view shows the reasons panel exactly when it shows the "Original"
      line (both exactly when the claim is not APPROVED), strikes the
      amount exactly when the claim is REJECTED, never shows an unstruck
      amount above the per-claim cap, and shows the reasons in the engine's
      order. */
  lemma StoredDecisionDisplay(claimId: string, createdAt: string, data: ExtractedData,
                              currentYearTotal: real, today: int, parseDate: string -> Option<int>,
                              floatText: real -> string, filePath: string)
    ensures var d := Adjudication(data, currentYearTotal, today, parseDate);
      var c := StoredClaim(claimId, createdAt, data, d, floatText, filePath);
      var v := Render(Some(c), FilePreviewUrl(c.filePath)).value;
      && (v.reasons.Some? <==> v.amounts.original.Some?)
      && (v.reasons.Some? <==> d.status != Approved)
      && (v.amounts.struck <==> d.status == Rejected)
      && (!v.amounts.struck ==> v.amounts.approved <= PerClaimLimit)
      && (v.tone == Neutral <==> d.status == ManualReview)
      && (v.reasons.Some? ==> |v.reasons.value| == |d.reasons|)
      && (v.reasons.Some? ==>
            forall k :: 0 <= k < |d.reasons| ==> v.reasons.value[k] == Message(d.reasons[k], floatText))
  {
    ApprovedIffNoReasons(data, currentYearTotal, today, parseDate);
    FinalAmountBounds(data, currentYearTotal, today, parseDate);
  }
}
