/** What the adjudication procedure guarantees, stated over `Adjudication`
    (which `RulesEngine.Adjudicate` is proved to compute). The reasons a
    stage appends are given independently, as plain lists, so that the
    order of the reasons and the stage that produced each can be stated. */
module RulesEngineFacts {
  import opened Wrappers
  import opened Text
  import opened ClaimRecord
  import opened RulesEngine
  import opened RulesHelperFacts

  // ---------------------------------------------------------------------
  // Reference lists: what each stage appends
  // ---------------------------------------------------------------------

  function SanityReasons(data: ExtractedData): seq<Reason> {
    (if !Truthy(data.doctorRegNo) then [DoctorRegInvalid] else [])
    + (if RawAmount(data) < MinimumClaimAmount then [BelowMinAmount] else [])
    + (if data.medicalNecessityCheck == Some("FAIL")
       then [NotMedicallyNecessary(data.medicalNecessityReason.GetOr(DefaultNecessityReason))] else [])
  }

  predicate DateParses(data: ExtractedData, parseDate: string -> Option<int>) {
    CalculateDaysSincePolicyStart(data.dateOfService, parseDate).1.Some?
  }

  function EligibilityReasons(data: ExtractedData, today: int, parseDate: string -> Option<int>): seq<Reason> {
    var (daysActive, treatDate) := CalculateDaysSincePolicyStart(data.dateOfService, parseDate);
    match treatDate
    case None => [DateInvalid]
    case Some(treatDay) =>
      (if today - treatDay > SubmissionTimelineDays then [LateSubmission(today - treatDay)] else [])
      + (match CheckWaitingPeriods(data.diagnosis, daysActive)
         case Eligible => []
         case NotEligible(f) => [WaitingPeriod(f)])
  }

  predicate CosmeticDentalApplies(data: ExtractedData) {
    var diagnosisLower := DiagnosisLower(data);
    ClassifyClaimCategory(diagnosisLower, Items(data)) == Dental
    && (Contains(diagnosisLower, "whitening") || Contains(diagnosisLower, "cosmetic"))
  }

  function ExclusionReasons(data: ExtractedData): seq<Reason> {
    (match FirstMatch(DiagnosisLower(data), Exclusions)
     case Some(e) => [ExcludedCondition(e)]
     case None => [])
    + (if CosmeticDentalApplies(data) then [CosmeticDental] else [])
  }

  /** The reasons appended before step 4, in the order the source appends them. */
  function HeadReasons(data: ExtractedData, today: int, parseDate: string -> Option<int>): seq<Reason> {
    SanityReasons(data) + EligibilityReasons(data, today, parseDate) + ExclusionReasons(data)
  }

  /** The step that produces a reason: 0 the confidence gate, 1 the sanity
      checks, 2 eligibility, 3 exclusions, 4 the limits. */
  function StageOf(r: Reason): nat {
    match r
    case LowConfidence => 0
    case DoctorRegInvalid => 1
    case BelowMinAmount => 1
    case NotMedicallyNecessary(_) => 1
    case LateSubmission(_) => 2
    case WaitingPeriod(_) => 2
    case DateInvalid => 2
    case ExcludedCondition(_) => 3
    case CosmeticDental => 3
    case AnnualLimitExhausted(_) => 4
    case AnnualLimitCapped(_) => 4
    case SubLimitExceeded(_, _) => 4
    case CoPayDeduction(_) => 4
    case PerClaimExceeded => 4
  }

  function Category(data: ExtractedData): Category {
    ClassifyClaimCategory(DiagnosisLower(data), Items(data))
  }

  predicate Confident(data: ExtractedData) {
    data.confidenceScore.GetOr(0.0) >= ConfidenceThreshold
  }

  // ---------------------------------------------------------------------
  // Stage effects
  // ---------------------------------------------------------------------

  lemma SanityStageFacts(data: ExtractedData)
    ensures var s := SanityChecks(data);
      && s.approvedAmount == RawAmount(data)
      && s.reasons == SanityReasons(data)
      && s.status == if SanityReasons(data) != [] then Rejected else Approved
  {
  }

  lemma EligibilityStageFacts(d: Decision, data: ExtractedData, today: int, parseDate: string -> Option<int>)
    ensures var e := EligibilityChecks(d, data, today, parseDate);
      && e.approvedAmount == d.approvedAmount
      && e.reasons == d.reasons + EligibilityReasons(data, today, parseDate)
      && e.status ==
           if !DateParses(data, parseDate) then ManualReview
           else if EligibilityReasons(data, today, parseDate) != [] then Rejected
           else d.status
  {
    var (daysActive, treatDate) := CalculateDaysSincePolicyStart(data.dateOfService, parseDate);
    if treatDate.Some? {
      var late := if today - treatDate.value > SubmissionTimelineDays then [LateSubmission(today - treatDate.value)] else [];
      var wait := match CheckWaitingPeriods(data.diagnosis, daysActive)
                  case Eligible => []
                  case NotEligible(f) => [WaitingPeriod(f)];
      assert EligibilityReasons(data, today, parseDate) == late + wait;
      assert d.reasons + late + wait == d.reasons + (late + wait);
    }
  }

  lemma ExclusionStageFacts(d: Decision, data: ExtractedData)
    ensures var x := ExclusionChecks(d, data);
      && x.approvedAmount == d.approvedAmount
      && x.reasons == d.reasons + ExclusionReasons(data)
      && x.status == if ExclusionReasons(data) != [] then Rejected else d.status
  {
    var m := match FirstMatch(DiagnosisLower(data), Exclusions)
             case Some(e) => [ExcludedCondition(e)]
             case None => [];
    var c := if CosmeticDentalApplies(data) then [CosmeticDental] else [];
    assert ExclusionReasons(data) == m + c;
    assert d.reasons + m + c == d.reasons + (m + c);
  }

  /** Each head list holds only reasons of its own stage. */
  lemma HeadReasonKinds(data: ExtractedData, today: int, parseDate: string -> Option<int>)
    ensures forall x :: x in SanityReasons(data) ==> StageOf(x) == 1
    ensures forall x :: x in EligibilityReasons(data, today, parseDate) ==> StageOf(x) == 2
    ensures forall x :: x in ExclusionReasons(data) ==> StageOf(x) == 3
  {
  }

  /** Steps 1 to 3 leave the amount alone, append the head reasons, and
      set the status by the last rule that fired. */
  lemma PreLimitStageFacts(data: ExtractedData, today: int, parseDate: string -> Option<int>)
    ensures var pre := PreLimitStage(data, today, parseDate);
      && pre.approvedAmount == RawAmount(data)
      && pre.reasons == HeadReasons(data, today, parseDate)
      && pre.status ==
           if ExclusionReasons(data) != [] then Rejected
           else if !DateParses(data, parseDate) then ManualReview
           else if SanityReasons(data) + EligibilityReasons(data, today, parseDate) != [] then Rejected
           else Approved
  {
    var s := SanityChecks(data);
    SanityStageFacts(data);
    var e := EligibilityChecks(s, data, today, parseDate);
    EligibilityStageFacts(s, data, today, parseDate);
    ExclusionStageFacts(e, data);
  }

  /** Step 4 keeps the earlier reasons and appends only limit reasons. */
  lemma LimitReasonsAppended(d: Decision, c: Category, currentYearTotal: real)
    ensures var res := ApplyLimits(d, c, currentYearTotal);
      && d.reasons <= res.reasons
      && (forall k :: |d.reasons| <= k < |res.reasons| ==> StageOf(res.reasons[k]) == 4)
  {
  }

  // ---------------------------------------------------------------------
  // Properties of adjudicate
  // ---------------------------------------------------------------------

  /** The confidence gate: below 0.70 the answer is MANUAL_REVIEW, 0 and the
      single reason "Low AI Confidence Score"; that reason appears in no other case. */
  lemma LowConfidenceGate(data: ExtractedData, currentYearTotal: real, today: int, parseDate: string -> Option<int>)
    ensures !Confident(data) ==>
      Adjudication(data, currentYearTotal, today, parseDate) == Decision(ManualReview, 0.0, [LowConfidence])
    ensures LowConfidence in Adjudication(data, currentYearTotal, today, parseDate).reasons <==> !Confident(data)
  {
    if Confident(data) {
      var r := Adjudication(data, currentYearTotal, today, parseDate);
      ReasonsInSourceOrder(data, currentYearTotal, today, parseDate);
      HeadReasonKinds(data, today, parseDate);
      var head := HeadReasons(data, today, parseDate);
      forall k | 0 <= k < |r.reasons| ensures r.reasons[k] != LowConfidence {
        if k < |head| {
          assert r.reasons[k] == head[k];
          assert head[k] in SanityReasons(data) || head[k] in EligibilityReasons(data, today, parseDate)
              || head[k] in ExclusionReasons(data);
        }
      }
    }
  }

  /** Past the gate, the reasons are the sanity reasons, then the
      eligibility reasons, then the exclusion reasons, then (only when the
      claim was not already REJECTED) reasons from the limits. */
  lemma ReasonsInSourceOrder(data: ExtractedData, currentYearTotal: real, today: int, parseDate: string -> Option<int>)
    requires Confident(data)
    ensures var r := Adjudication(data, currentYearTotal, today, parseDate);
      var head := HeadReasons(data, today, parseDate);
      && head <= r.reasons
      && (forall k :: |head| <= k < |r.reasons| ==> StageOf(r.reasons[k]) == 4)
      && (PreLimitStage(data, today, parseDate).status == Rejected ==> r.reasons == head)
  {
    PreLimitStageFacts(data, today, parseDate);
    var pre := PreLimitStage(data, today, parseDate);
    if pre.status != Rejected {
      LimitReasonsAppended(pre, Category(data), currentYearTotal);
    }
  }

  /** A missing registration number and an amount below 500 each add
      their reason, and only then. */
  lemma SanityReasonIffCheckFails(data: ExtractedData, currentYearTotal: real, today: int, parseDate: string -> Option<int>)
    requires Confident(data)
    ensures var r := Adjudication(data, currentYearTotal, today, parseDate);
      && (DoctorRegInvalid in r.reasons <==> !Truthy(data.doctorRegNo))
      && (BelowMinAmount in r.reasons <==> RawAmount(data) < MinimumClaimAmount)
  {
    var reasons := Adjudication(data, currentYearTotal, today, parseDate).reasons;
    var sanity := SanityReasons(data);
    SanityReasonsOnlyFromSanityChecks(data, currentYearTotal, today, parseDate);
    assert StageOf(DoctorRegInvalid) == 1 && StageOf(BelowMinAmount) == 1;
    assert DoctorRegInvalid in reasons <==> DoctorRegInvalid in sanity;
    assert BelowMinAmount in reasons <==> BelowMinAmount in sanity;
  }

  /** A failed medical-necessity check adds its reason, and only then. */
  lemma NecessityReasonIffFail(data: ExtractedData, currentYearTotal: real, today: int, parseDate: string -> Option<int>)
    requires Confident(data)
    ensures var r := Adjudication(data, currentYearTotal, today, parseDate);
      (exists x :: x in r.reasons && x.NotMedicallyNecessary?) <==> data.medicalNecessityCheck == Some("FAIL")
  {
    var reasons := Adjudication(data, currentYearTotal, today, parseDate).reasons;
    var sanity := SanityReasons(data);
    SanityReasonsOnlyFromSanityChecks(data, currentYearTotal, today, parseDate);
    if data.medicalNecessityCheck == Some("FAIL") {
      var nm := NotMedicallyNecessary(data.medicalNecessityReason.GetOr(DefaultNecessityReason));
      assert nm in sanity;
      assert nm in reasons;
    }
    if exists x :: x in reasons && x.NotMedicallyNecessary? {
      var x :| x in reasons && x.NotMedicallyNecessary?;
      assert x in sanity;
    }
  }

  /** The sanity reasons lead the list and no later stage adds one. */
  lemma SanityReasonsOnlyFromSanityChecks(data: ExtractedData, currentYearTotal: real, today: int, parseDate: string -> Option<int>)
    requires Confident(data)
    ensures var r := Adjudication(data, currentYearTotal, today, parseDate);
      && SanityReasons(data) <= r.reasons
      && forall x :: StageOf(x) == 1 ==> (x in r.reasons <==> x in SanityReasons(data))
  {
    ReasonsInSourceOrder(data, currentYearTotal, today, parseDate);
    HeadReasonKinds(data, today, parseDate);
    var sanity := SanityReasons(data);
    var later := EligibilityReasons(data, today, parseDate) + ExclusionReasons(data);
    assert HeadReasons(data, today, parseDate) == sanity + later;
    LeadingStageInPlace(Adjudication(data, currentYearTotal, today, parseDate).reasons, sanity, later);
  }

  /** `StageReasonsInPlace` for the first stage, with the prefix spelled out. */
  lemma LeadingStageInPlace(reasons: seq<Reason>, sanity: seq<Reason>, later: seq<Reason>)
    requires sanity + later <= reasons
    requires forall x :: x in sanity ==> StageOf(x) == 1
    requires forall x :: x in later ==> 1 < StageOf(x)
    requires forall k :: |sanity + later| <= k < |reasons| ==> StageOf(reasons[k]) == 4
    ensures sanity <= reasons
    ensures forall x :: StageOf(x) == 1 ==> (x in reasons <==> x in sanity)
  {
    assert [] + sanity + later == sanity + later;
    StageReasonsInPlace(reasons, [], sanity, later, 1);
    assert reasons[..|sanity|] == (sanity + later)[..|sanity|] == sanity;
  }

  /** In a list made of the head stages in order followed by limit
      reasons, the reasons of stage `s` sit exactly where stage `s` put
      them. */
  lemma StageReasonsInPlace(reasons: seq<Reason>, front: seq<Reason>, stage: seq<Reason>, later: seq<Reason>, s: nat)
    requires front + stage + later <= reasons
    requires forall x :: x in front ==> StageOf(x) < s
    requires forall x :: x in stage ==> StageOf(x) == s
    requires forall x :: x in later ==> s < StageOf(x)
    requires forall k :: |front + stage + later| <= k < |reasons| ==> StageOf(reasons[k]) == 4
    requires s < 4
    ensures forall k :: 0 <= k < |reasons| ==> (StageOf(reasons[k]) == s <==> |front| <= k < |front| + |stage|)
    ensures forall x :: StageOf(x) == s ==> (x in reasons <==> x in stage)
  {
    forall k | 0 <= k < |reasons|
      ensures StageOf(reasons[k]) == s <==> |front| <= k < |front| + |stage|
    {
      if k < |front| {
        assert reasons[k] == front[k];
      } else if k < |front| + |stage| {
        assert reasons[k] == stage[k - |front|];
      } else if k < |front + stage + later| {
        assert reasons[k] == later[k - |front| - |stage|];
      }
    }
    forall x | StageOf(x) == s && x in stage
      ensures x in reasons
    {
      var k :| 0 <= k < |stage| && stage[k] == x;
      assert reasons[|front| + k] == x;
    }
  }

  /** An unparseable date of service overwrites the status with
      MANUAL_REVIEW, even after a rejection, and adds DATE_INVALID; the
      late-submission and waiting-period checks do not run. Only an
      exclusion or an exhausted annual limit can still reject. */
  lemma DateInvalidOverridesRejection(data: ExtractedData, currentYearTotal: real, today: int, parseDate: string -> Option<int>)
    requires Confident(data)
    requires !DateParses(data, parseDate)
    ensures EligibilityChecks(SanityChecks(data), data, today, parseDate).status == ManualReview
    ensures Adjudication(data, currentYearTotal, today, parseDate).status ==
      if FirstMatch(DiagnosisLower(data), Exclusions).Some? || AnnualLimit - currentYearTotal <= 0.0
      then Rejected else ManualReview
  {
    PreLimitStageFacts(data, today, parseDate);
    CosmeticDentalIsSubsumed(data);
    var pre := PreLimitStage(data, today, parseDate);
    if pre.status != Rejected {
      LimitsOnlyLower(pre, Category(data), currentYearTotal);
    }
  }

  /** The cosmetic-dental rule never decides anything on its own: whenever
      it fires, the exclusion list has already matched. */
  lemma CosmeticDentalIsSubsumed(data: ExtractedData)
    ensures CosmeticDentalApplies(data) ==> FirstMatch(DiagnosisLower(data), Exclusions).Some?
  {
    var diagnosisLower := DiagnosisLower(data);
    if CosmeticDentalApplies(data) {
      if Contains(diagnosisLower, "cosmetic") {
        assert Exclusions[0] == "cosmetic";
      } else {
        assert Exclusions[8] == "whitening";
        FirstMatchNoneIffNoMatch(diagnosisLower, Exclusions);
      }
    }
  }

  /** The eligibility reasons sit where step 2 put them and no other
      stage adds one. */
  lemma EligibilityReasonsOnlyFromEligibilityChecks(data: ExtractedData, currentYearTotal: real, today: int, parseDate: string -> Option<int>)
    requires Confident(data)
    ensures var r := Adjudication(data, currentYearTotal, today, parseDate);
      forall x :: StageOf(x) == 2 ==> (x in r.reasons <==> x in EligibilityReasons(data, today, parseDate))
  {
    var reasons := Adjudication(data, currentYearTotal, today, parseDate).reasons;
    var eligibility := EligibilityReasons(data, today, parseDate);
    ReasonsInSourceOrder(data, currentYearTotal, today, parseDate);
    HeadReasonKinds(data, today, parseDate);
    assert HeadReasons(data, today, parseDate) == SanityReasons(data) + eligibility + ExclusionReasons(data);
    StageReasonsInPlace(reasons, SanityReasons(data), eligibility, ExclusionReasons(data), 2);
  }

  /** DATE_INVALID is recorded exactly when the date of service does not
      parse, and then neither LATE_SUBMISSION nor WAITING_PERIOD is. */
  lemma DateInvalidIffUnparseable(data: ExtractedData, currentYearTotal: real, today: int, parseDate: string -> Option<int>)
    ensures var r := Adjudication(data, currentYearTotal, today, parseDate);
      && (DateInvalid in r.reasons <==> Confident(data) && !DateParses(data, parseDate))
      && (!DateParses(data, parseDate) ==> forall x :: x in r.reasons ==> !x.LateSubmission? && !x.WaitingPeriod?)
  {
    if Confident(data) {
      EligibilityReasonsOnlyFromEligibilityChecks(data, currentYearTotal, today, parseDate);
      var eligibility := EligibilityReasons(data, today, parseDate);
      assert !DateParses(data, parseDate) ==> eligibility == [DateInvalid];
      assert DateParses(data, parseDate) ==> DateInvalid !in eligibility;
      DateReasonsCarriedOver(Adjudication(data, currentYearTotal, today, parseDate).reasons, eligibility,
                             DateParses(data, parseDate));
    }
  }

  /** The date-related reasons of a list whose stage-2 reasons are exactly
      those of the eligibility list. */
  lemma DateReasonsCarriedOver(reasons: seq<Reason>, eligibility: seq<Reason>, parses: bool)
    requires forall x :: StageOf(x) == 2 ==> (x in reasons <==> x in eligibility)
    requires !parses ==> eligibility == [DateInvalid]
    requires parses ==> DateInvalid !in eligibility
    ensures DateInvalid in reasons <==> !parses
    ensures !parses ==> forall x :: x in reasons ==> !x.LateSubmission? && !x.WaitingPeriod?
  {
    assert StageOf(DateInvalid) == 2;
    if !parses {
      forall x | x in reasons
        ensures !x.LateSubmission? && !x.WaitingPeriod?
      {
        if StageOf(x) == 2 {
          assert x in eligibility;
        }
      }
    }
  }

  /** The exclusion-stage reasons sit where step 3 put them: an
      EXCLUDED_CONDITION for a listed exclusion can only be the first of
      them. */
  lemma ExclusionReasonsOnlyFromExclusionChecks(data: ExtractedData, currentYearTotal: real, today: int, parseDate: string -> Option<int>)
    requires Confident(data)
    ensures var r := Adjudication(data, currentYearTotal, today, parseDate);
      var at := |SanityReasons(data)| + |EligibilityReasons(data, today, parseDate)|;
      && (forall x :: StageOf(x) == 3 ==> (x in r.reasons <==> x in ExclusionReasons(data)))
      && (forall k :: 0 <= k < |r.reasons| && r.reasons[k].ExcludedCondition? ==> k == at)
  {
    var reasons := Adjudication(data, currentYearTotal, today, parseDate).reasons;
    var front := SanityReasons(data) + EligibilityReasons(data, today, parseDate);
    var exclusion := ExclusionReasons(data);
    ReasonsInSourceOrder(data, currentYearTotal, today, parseDate);
    HeadReasonKinds(data, today, parseDate);
    assert HeadReasons(data, today, parseDate) == front + exclusion + [];
    StageReasonsInPlace(reasons, front, exclusion, [], 3);
    ExcludedConditionComesFirst(reasons, front, exclusion);
  }

  /** In the exclusion stage's reasons, only the first can name a listed
      exclusion; so in the whole list it can only sit right after `front`. */
  lemma ExcludedConditionComesFirst(reasons: seq<Reason>, front: seq<Reason>, exclusion: seq<Reason>)
    requires front + exclusion <= reasons
    requires forall k :: 0 <= k < |reasons| ==> (StageOf(reasons[k]) == 3 <==> |front| <= k < |front| + |exclusion|)
    requires forall k :: 1 <= k < |exclusion| ==> exclusion[k] == CosmeticDental
    ensures forall k :: 0 <= k < |reasons| && reasons[k].ExcludedCondition? ==> k == |front|
  {
    forall k | 0 <= k < |reasons| && reasons[k].ExcludedCondition?
      ensures k == |front|
    {
      assert StageOf(reasons[k]) == 3;
      assert reasons[k] == exclusion[k - |front|];
    }
  }

  /** Because the exclusion loop stops at its first match, at most one
      EXCLUDED_CONDITION reason names a listed exclusion, and it names the
      first listed exclusion the diagnosis contains. */
  lemma ExclusionReasonAtMostOnce(data: ExtractedData, currentYearTotal: real, today: int, parseDate: string -> Option<int>)
    ensures var r := Adjudication(data, currentYearTotal, today, parseDate);
      && (forall e :: ExcludedCondition(e) in r.reasons
                      <==> Confident(data) && FirstMatch(DiagnosisLower(data), Exclusions) == Some(e))
      && (forall i, j :: 0 <= i < j < |r.reasons| ==>
                      !(r.reasons[i].ExcludedCondition? && r.reasons[j].ExcludedCondition?))
  {
    if Confident(data) {
      var reasons := Adjudication(data, currentYearTotal, today, parseDate).reasons;
      ExclusionReasonsOnlyFromExclusionChecks(data, currentYearTotal, today, parseDate);
      forall e
        ensures ExcludedCondition(e) in reasons <==> FirstMatch(DiagnosisLower(data), Exclusions) == Some(e)
      {
        assert StageOf(ExcludedCondition(e)) == 3;
        assert ExcludedCondition(e) in reasons <==> ExcludedCondition(e) in ExclusionReasons(data);
      }
    }
  }

  /** The cosmetic-dental rule runs after the exclusion loop and does not
      look at what the loop found, so a dental claim whose diagnosis
      mentions "cosmetic" or "whitening" carries two EXCLUDED_CONDITION
      reasons, one right after the other: the listed exclusion's, then the
      cosmetic-dental one. */
  lemma CosmeticDentalGivesTwoExclusionReasons(data: ExtractedData, currentYearTotal: real, today: int, parseDate: string -> Option<int>)
    requires Confident(data)
    requires CosmeticDentalApplies(data)
    ensures FirstMatch(DiagnosisLower(data), Exclusions).Some?
    ensures var r := Adjudication(data, currentYearTotal, today, parseDate);
      exists i :: 0 <= i < |r.reasons| - 1
        && r.reasons[i] == ExcludedCondition(FirstMatch(DiagnosisLower(data), Exclusions).value)
        && r.reasons[i + 1] == CosmeticDental
        && Code(r.reasons[i]) == Code(r.reasons[i + 1]) == "EXCLUDED_CONDITION"
  {
    var reasons := Adjudication(data, currentYearTotal, today, parseDate).reasons;
    var head := HeadReasons(data, today, parseDate);
    var front := SanityReasons(data) + EligibilityReasons(data, today, parseDate);
    CosmeticDentalIsSubsumed(data);
    ReasonsInSourceOrder(data, currentYearTotal, today, parseDate);
    var e := FirstMatch(DiagnosisLower(data), Exclusions).value;
    assert ExclusionReasons(data) == [ExcludedCondition(e), CosmeticDental];
    assert head == front + [ExcludedCondition(e), CosmeticDental];
    var i := |front|;
    assert head[i] == ExcludedCondition(e) && head[i + 1] == CosmeticDental;
    assert reasons[i] == head[i] && reasons[i + 1] == head[i + 1];
  }

  /** A claim REJECTED before step 4 skips the limits and keeps its claimed
      amount; only a non-positive amount is clamped to 0. */
  lemma RejectedBeforeLimitsKeepsClaimedAmount(data: ExtractedData, currentYearTotal: real, today: int, parseDate: string -> Option<int>)
    requires Confident(data)
    requires PreLimitStage(data, today, parseDate).status == Rejected
    ensures Adjudication(data, currentYearTotal, today, parseDate)
         == Decision(Rejected, if RawAmount(data) > 0.0 then RawAmount(data) else 0.0,
                     HeadReasons(data, today, parseDate))
  {
    PreLimitStageFacts(data, today, parseDate);
  }

  /** The final status bounds the final amount: APPROVED pays the claimed
      amount, PARTIAL strictly less but more than 0, neither exceeds the
      per-claim cap, and a REJECTED claim carries a positive amount only
      when it was rejected before step 4. */
  lemma FinalAmountBounds(data: ExtractedData, currentYearTotal: real, today: int, parseDate: string -> Option<int>)
    ensures var r := Adjudication(data, currentYearTotal, today, parseDate);
      && (r.status != ManualReview ==> r.approvedAmount >= 0.0)
      && (r.status != Rejected ==> r.approvedAmount <= PerClaimLimit)
      && (r.status == Approved ==> r.approvedAmount == RawAmount(data) >= MinimumClaimAmount)
      && (r.status == Partial ==> 0.0 < r.approvedAmount < RawAmount(data))
      && (r.status == Rejected && r.approvedAmount > 0.0 ==>
            PreLimitStage(data, today, parseDate).status == Rejected && r.approvedAmount == RawAmount(data))
  {
    if Confident(data) {
      PreLimitStageFacts(data, today, parseDate);
      var pre := PreLimitStage(data, today, parseDate);
      if pre.status != Rejected {
        LimitsOnlyLower(pre, Category(data), currentYearTotal);
        if pre.status == Approved {
          SanityStageFacts(data);
          assert SanityReasons(data) == [];
        }
      }
    }
  }

  /** A claim is APPROVED exactly when no reason was recorded. */
  lemma ApprovedIffNoReasons(data: ExtractedData, currentYearTotal: real, today: int, parseDate: string -> Option<int>)
    ensures var r := Adjudication(data, currentYearTotal, today, parseDate);
      r.status == Approved <==> r.reasons == []
  {
    if Confident(data) {
      PreLimitStageFacts(data, today, parseDate);
      var pre := PreLimitStage(data, today, parseDate);
      var r := Adjudication(data, currentYearTotal, today, parseDate);
      if pre.status != Rejected {
        LimitsOnlyLower(pre, Category(data), currentYearTotal);
        LimitReasonsAppended(pre, Category(data), currentYearTotal);
      }
      if r.reasons == [] {
        assert HeadReasons(data, today, parseDate) == [];
        assert DateParses(data, parseDate);
      }
    }
  }
}
