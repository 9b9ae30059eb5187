/** The adjudication rule engine: the PLUM_OPD_2024 policy terms and the
    decision procedure that turns an extracted claim plus the patient's
    year-to-date approved total into a status, an approved amount and an
    ordered list of reasons.

    Dates are day numbers: the source's `strptime(..., "%Y-%m-%d")` is the
    parameter `parseDate` (None when the text does not parse) and
    `datetime.now()` is the parameter `today` (the current day number). */
module RulesEngine {
  import opened Wrappers
  import opened Text
  import opened ClaimRecord

  // ---------------------------------------------------------------------
  // Policy terms
  // ---------------------------------------------------------------------

  const EffectiveDate: string := "2024-01-01"
  const AnnualLimit: real := 50000.0
  const PerClaimLimit: real := 5000.0
  const InitialWaitingDays: int := 30
  const SubmissionTimelineDays: int := 30
  const MinimumClaimAmount: real := 500.0
  const ConfidenceThreshold: real := 0.70
  const DefaultNecessityReason: string := "Treatment does not match diagnosis"

  /** The specific-ailment waiting periods, in the dictionary's order. */
  const SpecificAilments: seq<(string, int)> :=
    [("diabetes", 90), ("hypertension", 90), ("joint_replacement", 730)]

  /** The exclusion list, in order. */
  const Exclusions: seq<string> :=
    ["cosmetic", "weight loss", "infertility", "experimental",
     "self-inflicted", "adventure sports", "alcoholism", "drug abuse",
     "whitening", "hair transplant"]

  datatype Category = Dental | ConsultationFees | DiagnosticTests | Pharmacy | General {
    /** The key under `coverage_details`. */
    function Name(): string {
      match this
      case Dental => "dental"
      case ConsultationFees => "consultation_fees"
      case DiagnosticTests => "diagnostic_tests"
      case Pharmacy => "pharmacy"
      case General => "general"
    }
  }

  /** `coverage_details[category]["sub_limit"]`; `general` has no entry at all. */
  function SubLimit(c: Category): Option<int> {
    match c
    case Dental => Some(10000)
    case ConsultationFees => Some(2000)
    case DiagnosticTests => Some(10000)
    case Pharmacy => Some(15000)
    case General => None
  }

  /** `coverage_details[category]["copay_percentage"]`: only consultations
      carry one (pharmacy's `branded_drugs_copay` is a different key). */
  function CopayPercentage(c: Category): Option<int> {
    if c == ConsultationFees then Some(10) else None
  }

  // ---------------------------------------------------------------------
  // Decisions and reasons
  // ---------------------------------------------------------------------

  datatype Status = Approved | Rejected | Partial | ManualReview {
    function Name(): string {
      match this
      case Approved => "APPROVED"
      case Rejected => "REJECTED"
      case Partial => "PARTIAL"
      case ManualReview => "MANUAL_REVIEW"
    }
  }

  /** Why a waiting period is not met. */
  datatype WaitFailure =
    | GeneralWait(policyAgeDays: int)
    | AilmentWait(ailment: string, requiredDays: int)

  /** `check_waiting_periods`' `(is_eligible, message)` pair. */
  datatype Eligibility = Eligible | NotEligible(failure: WaitFailure)

  /** One entry of the reasons list, with the variable parts of its text. */
  datatype Reason =
    | LowConfidence
    | DoctorRegInvalid
    | BelowMinAmount
    | NotMedicallyNecessary(explanation: string)
    | LateSubmission(daysSinceTreatment: int)
    | WaitingPeriod(failure: WaitFailure)
    | DateInvalid
    | ExcludedCondition(exclusion: string)
    | CosmeticDental
    | AnnualLimitExhausted(history: real)
    | AnnualLimitCapped(remaining: real)
    | SubLimitExceeded(category: Category, limit: int)
    | CoPayDeduction(percentage: int)
    | PerClaimExceeded

  /** The text before the colon of a reason's message. */
  function Code(r: Reason): string {
    match r
    case LowConfidence => "Low AI Confidence Score"
    case DoctorRegInvalid => "DOCTOR_REG_INVALID"
    case BelowMinAmount => "BELOW_MIN_AMOUNT"
    case NotMedicallyNecessary(_) => "NOT_MEDICALLY_NECESSARY"
    case LateSubmission(_) => "LATE_SUBMISSION"
    case WaitingPeriod(_) => "WAITING_PERIOD"
    case DateInvalid => "DATE_INVALID"
    case ExcludedCondition(_) => "EXCLUDED_CONDITION"
    case CosmeticDental => "EXCLUDED_CONDITION"
    case AnnualLimitExhausted(_) => "ANNUAL_LIMIT_EXCEEDED"
    case AnnualLimitCapped(_) => "ANNUAL_LIMIT_EXCEEDED"
    case SubLimitExceeded(_, _) => "SUB_LIMIT_EXCEEDED"
    case CoPayDeduction(_) => "CO_PAY_DEDUCTION"
    case PerClaimExceeded => "PER_CLAIM_EXCEEDED"
  }

  function WaitMessage(f: WaitFailure): string {
    match f
    case GeneralWait(days) =>
      "General Waiting Period not met (Policy age: " + IntToString(days) + " days)"
    case AilmentWait(ailment, days) =>
      "Waiting Period for " + Title(ailment) + " not met (" + IntToString(days) + " days required)"
  }

  /** The text the engine stores for a reason. `floatText` is Python's
      `str()` of a float, which the model does not spell out. */
  function Message(r: Reason, floatText: real -> string): (m: string)
    ensures r != LowConfidence ==> Code(r) + ": " <= m
  {
    if r == LowConfidence then Code(r) else
    Code(r) + ": " + (
      match r
      case DoctorRegInvalid => "Missing Registration Number"
      case BelowMinAmount => "Claim is below " + Rupee + "500"
      case NotMedicallyNecessary(why) => why
      case LateSubmission(days) => "Submitted " + IntToString(days) + " days after treatment"
      case WaitingPeriod(f) => WaitMessage(f)
      case DateInvalid => "Could not parse Date of Service"
      case ExcludedCondition(e) => Upper(e)
      case CosmeticDental => "Cosmetic Dental Procedure"
      case AnnualLimitExhausted(h) =>
        "History: " + Rupee + floatText(h) + ", Limit: " + Rupee + "50000"
      case AnnualLimitCapped(rem) => "Capped at remaining " + Rupee + floatText(rem)
      case SubLimitExceeded(c, lim) =>
        Title(c.Name()) + " limit is " + Rupee + IntToString(lim)
      case CoPayDeduction(p) => IntToString(p) + "% co-pay applied"
      case PerClaimExceeded => "Capped at " + Rupee + "5000"
      case LowConfidence => "")
  }

  /** The engine's answer: the returned dictionary's three keys. */
  datatype Decision = Decision(status: Status, approvedAmount: real, reasons: seq<Reason>)

  // ---------------------------------------------------------------------
  // Helpers
  // ---------------------------------------------------------------------

  /** `calculate_days_since_policy_start`: the policy age on the day of
      service and the parsed day, or the sentinel `(-1, None)` when either
      date does not parse (a missing date raises TypeError, also caught). */
  function CalculateDaysSincePolicyStart(dateOfService: Option<string>, parseDate: string -> Option<int>)
    : (r: (int, Option<int>))
    ensures r.1.None? ==> r.0 == -1
    ensures r.1.Some? <==>
      dateOfService.Some? && parseDate(dateOfService.value).Some? && parseDate(EffectiveDate).Some?
    ensures r.1.Some? ==>
      r.1 == parseDate(dateOfService.value) && r.0 == r.1.value - parseDate(EffectiveDate).value
  {
    match dateOfService
    case None => (-1, None)
    case Some(text) =>
      match (parseDate(text), parseDate(EffectiveDate))
      case (Some(treatDay), Some(startDay)) => (treatDay - startDay, Some(treatDay))
      case _ => (-1, None)
  }

  /** The ailment's waiting period applies to this diagnosis and is not yet over. */
  predicate Unmet(diagnosisLower: string, daysActive: int, ailment: (string, int)) {
    Contains(diagnosisLower, ailment.0) && daysActive < ailment.1
  }

  /** The first ailment, in list order, whose waiting period is unmet. */
  function FirstUnmetAilment(diagnosisLower: string, daysActive: int, ailments: seq<(string, int)>)
    : Option<(string, int)>
  {
    if ailments == [] then None
    else if Unmet(diagnosisLower, daysActive, ailments[0]) then Some(ailments[0])
    else FirstUnmetAilment(diagnosisLower, daysActive, ailments[1..])
  }

  /** `check_waiting_periods`. */
  function CheckWaitingPeriods(diagnosis: Option<string>, daysActive: int): Eligibility {
    var diagnosisLower := Lower(diagnosis.GetOr(""));
    if daysActive < InitialWaitingDays then NotEligible(GeneralWait(daysActive))
    else
      match FirstUnmetAilment(diagnosisLower, daysActive, SpecificAilments)
      case Some((ailment, days)) => NotEligible(AilmentWait(ailment, days))
      case None => Eligible
  }

  function ItemNames(items: seq<LineItem>): (names: seq<string>)
    ensures |names| == |items|
    ensures forall k :: 0 <= k < |items| ==> names[k] == items[k].item
  {
    seq(|items|, k requires 0 <= k < |items| => items[k].item)
  }

  /** The lower-cased text `classify_claim_category` searches. */
  function TextBlob(diagnosis: string, items: seq<LineItem>): string {
    Lower(diagnosis + " " + Join(ItemNames(items), " "))
  }

  /** `classify_claim_category`: a keyword chain, first group wins. */
  function ClassifyClaimCategory(diagnosis: string, items: seq<LineItem>): Category {
    var blob := TextBlob(diagnosis, items);
    if Contains(blob, "root canal") || Contains(blob, "tooth") || Contains(blob, "filling") then Dental
    else if Contains(blob, "consultation") then ConsultationFees
    else if Contains(blob, "mri") || Contains(blob, "scan") || Contains(blob, "x-ray") || Contains(blob, "blood") then DiagnosticTests
    else if Contains(blob, "pharmacy") || Contains(blob, "tablet") || Contains(blob, "mg") then Pharmacy
    else General
  }

  /** The first listed pattern that occurs in `text`. */
  function FirstMatch(text: string, patterns: seq<string>): Option<string> {
    if patterns == [] then None
    else if Contains(text, patterns[0]) then Some(patterns[0])
    else FirstMatch(text, patterns[1..])
  }

  function RawAmount(data: ExtractedData): real {
    data.totalClaimedAmount.GetOr(0.0)
  }

  function DiagnosisLower(data: ExtractedData): string {
    Lower(data.diagnosis.GetOr(""))
  }

  function Items(data: ExtractedData): seq<LineItem> {
    data.lineItems.GetOr([])
  }

  function Min(a: real, b: real): real {
    if a <= b then a else b
  }

  // ---------------------------------------------------------------------
  // The decision procedure, stage by stage
  // ---------------------------------------------------------------------

  /** A rule that rejects: status becomes REJECTED and its reason is appended. */
  function Reject(d: Decision, reason: Reason): Decision {
    Decision(Rejected, d.approvedAmount, d.reasons + [reason])
  }

  /** A cap that lowers the amount: APPROVED becomes PARTIAL, any other status stays. */
  function Adjust(d: Decision, amount: real, reason: Reason): Decision {
    Decision(if d.status == Approved then Partial else d.status, amount, d.reasons + [reason])
  }

  /** Steps 1 and 1.5 after the confidence gate. */
  function SanityChecks(data: ExtractedData): Decision {
    var d0 := Decision(Approved, RawAmount(data), []);
    var d1 := if !Truthy(data.doctorRegNo) then Reject(d0, DoctorRegInvalid) else d0;
    var d2 := if RawAmount(data) < MinimumClaimAmount then Reject(d1, BelowMinAmount) else d1;
    if data.medicalNecessityCheck == Some("FAIL")
    then Reject(d2, NotMedicallyNecessary(data.medicalNecessityReason.GetOr(DefaultNecessityReason)))
    else d2
  }

  /** Step 2: late submission and waiting periods when the date parses;
      otherwise DATE_INVALID and MANUAL_REVIEW, whatever the status was. */
  function EligibilityStep(d: Decision, dateOfService: Option<string>, diagnosis: Option<string>,
                           today: int, parseDate: string -> Option<int>): Decision {
    var (daysActive, treatDate) := CalculateDaysSincePolicyStart(dateOfService, parseDate);
    match treatDate
    case Some(treatDay) =>
      var daysSinceTreatment := today - treatDay;
      var d1 := if daysSinceTreatment > SubmissionTimelineDays
                then Reject(d, LateSubmission(daysSinceTreatment)) else d;
      (match CheckWaitingPeriods(diagnosis, daysActive)
       case Eligible => d1
       case NotEligible(failure) => Reject(d1, WaitingPeriod(failure)))
    case None =>
      Decision(ManualReview, d.approvedAmount, d.reasons + [DateInvalid])
  }

  /** Step 2. */
  function EligibilityChecks(d: Decision, data: ExtractedData, today: int, parseDate: string -> Option<int>): Decision {
    EligibilityStep(d, data.dateOfService, data.diagnosis, today, parseDate)
  }

  /** Step 3 on a lower-cased diagnosis: the first listed exclusion, then
      the cosmetic-dental rule. */
  function ExclusionStep(d: Decision, diagnosisLower: string, items: seq<LineItem>): Decision {
    var d1 := match FirstMatch(diagnosisLower, Exclusions)
              case Some(excl) => Reject(d, ExcludedCondition(excl))
              case None => d;
    if ClassifyClaimCategory(diagnosisLower, items) == Dental
       && (Contains(diagnosisLower, "whitening") || Contains(diagnosisLower, "cosmetic"))
    then Reject(d1, CosmeticDental)
    else d1
  }

  /** Step 3. */
  function ExclusionChecks(d: Decision, data: ExtractedData): Decision {
    ExclusionStep(d, DiagnosisLower(data), Items(data))
  }

  /** Step 4a: the cumulative annual limit. */
  function AnnualLimitStep(d: Decision, currentYearTotal: real): Decision {
    var remaining := AnnualLimit - currentYearTotal;
    if remaining <= 0.0 then Decision(Rejected, 0.0, d.reasons + [AnnualLimitExhausted(currentYearTotal)])
    else if d.approvedAmount > remaining then Adjust(d, remaining, AnnualLimitCapped(remaining))
    else d
  }

  /** Step 4b: the category sub-limit, for categories that have one. */
  function SubLimitStep(d: Decision, category: Category): Decision {
    match SubLimit(category)
    case Some(limit) =>
      if d.approvedAmount > limit as real
      then Adjust(d, Min(d.approvedAmount, limit as real), SubLimitExceeded(category, limit))
      else d
    case None => d
  }

  /** Step 4c: the co-pay deduction, for categories that have one. */
  function CopayStep(d: Decision, category: Category): Decision {
    match CopayPercentage(category)
    case Some(p) => Adjust(d, d.approvedAmount - d.approvedAmount * (p as real / 100.0), CoPayDeduction(p))
    case None => d
  }

  /** Step 4d: the per-claim cap. */
  function PerClaimStep(d: Decision): Decision {
    if d.approvedAmount > PerClaimLimit then Adjust(d, PerClaimLimit, PerClaimExceeded) else d
  }

  /** Step 4: annual limit, category sub-limit, co-pay, per-claim cap. */
  function ApplyLimits(d: Decision, category: Category, currentYearTotal: real): Decision {
    PerClaimStep(CopayStep(SubLimitStep(AnnualLimitStep(d, currentYearTotal), category), category))
  }

  /** The closing clamp: a non-positive amount becomes a zero REJECTED,
      unless the claim is in MANUAL_REVIEW. */
  function FinalClamp(d: Decision): Decision {
    if d.approvedAmount <= 0.0 && d.status != ManualReview then Decision(Rejected, 0.0, d.reasons) else d
  }

  /** The decision as it stands when step 4 begins. */
  function PreLimitStage(data: ExtractedData, today: int, parseDate: string -> Option<int>): Decision {
    ExclusionChecks(EligibilityChecks(SanityChecks(data), data, today, parseDate), data)
  }

  /** `adjudicate`, as a function of its inputs. */
  function Adjudication(data: ExtractedData, currentYearTotal: real, today: int, parseDate: string -> Option<int>)
    : Decision
  {
    if data.confidenceScore.GetOr(0.0) < ConfidenceThreshold then
      Decision(ManualReview, 0.0, [LowConfidence])
    else
      var pre := PreLimitStage(data, today, parseDate);
      var limited :=
        if pre.status != Rejected
        then ApplyLimits(pre, ClassifyClaimCategory(DiagnosisLower(data), Items(data)), currentYearTotal)
        else pre;
      FinalClamp(limited)
  }

  // ---------------------------------------------------------------------
  // adjudicate, step by step
  // ---------------------------------------------------------------------

  /** `adjudicate(data, current_year_total)`: the locals `status`,
      `approved_amount` and `reasons` are updated in the source's order, and
      the exclusion loop stops at the first match. */
  method Adjudicate(data: ExtractedData, currentYearTotal: real, today: int, parseDate: string -> Option<int>)
    returns (decision: Decision)
    ensures decision == Adjudication(data, currentYearTotal, today, parseDate)
  {
    var reasons: seq<Reason> := [];
    var status := Approved;
    var rawAmount := data.totalClaimedAmount.GetOr(0.0);
    var approvedAmount := rawAmount;
    var validItems := data.lineItems.GetOr([]);

    // Step 1: sanity and fraud checks.
    if data.confidenceScore.GetOr(0.0) < ConfidenceThreshold {
      return Decision(ManualReview, 0.0, [LowConfidence]);
    }
    if !Truthy(data.doctorRegNo) {
      status := Rejected;
      reasons := reasons + [DoctorRegInvalid];
    }
    if rawAmount < MinimumClaimAmount {
      status := Rejected;
      reasons := reasons + [BelowMinAmount];
    }

    // Step 1.5: medical necessity.
    if data.medicalNecessityCheck == Some("FAIL") {
      status := Rejected;
      reasons := reasons + [NotMedicallyNecessary(data.medicalNecessityReason.GetOr(DefaultNecessityReason))];
    }
    assert Decision(status, approvedAmount, reasons) == SanityChecks(data);

    // Step 2: eligibility and waiting periods.
    status, reasons := EligibilityRules(status, reasons, data.dateOfService, data.diagnosis, today, parseDate);

    // Step 3: exclusions.
    var diagnosisLower := Lower(data.diagnosis.GetOr(""));
    status, reasons := ExclusionRules(status, reasons, diagnosisLower, validItems);
    assert Decision(status, approvedAmount, reasons) == PreLimitStage(data, today, parseDate);

    // Step 4: limits and calculations.
    if status != Rejected {
      var category := ClassifyClaimCategory(diagnosisLower, validItems);
      status, approvedAmount, reasons := LimitsAndCalculations(status, approvedAmount, reasons, category, currentYearTotal);
    }

    if approvedAmount <= 0.0 && status != ManualReview {
      status := Rejected;
      approvedAmount := 0.0;
    }
    decision := Decision(status, approvedAmount, reasons);
  }

  /** Step 4 of `adjudicate` on its three locals: each cap lowers the
      amount and appends its reason, in the order 4a to 4d. */
  method LimitsAndCalculations(status0: Status, amount0: real, reasons0: seq<Reason>,
                               category: Category, currentYearTotal: real)
    returns (status: Status, approvedAmount: real, reasons: seq<Reason>)
    ensures Decision(status, approvedAmount, reasons)
            == ApplyLimits(Decision(status0, amount0, reasons0), category, currentYearTotal)
  {
    status, approvedAmount, reasons := AnnualLimitRule(status0, amount0, reasons0, currentYearTotal);
    status, approvedAmount, reasons := SubLimitRule(status, approvedAmount, reasons, category);
    status, approvedAmount, reasons := CopayRule(status, approvedAmount, reasons, category);
    status, approvedAmount, reasons := PerClaimRule(status, approvedAmount, reasons);
  }

  /** 4a. The annual limit, against the year-to-date approved total. */
  method AnnualLimitRule(status0: Status, amount0: real, reasons0: seq<Reason>, currentYearTotal: real)
    returns (status: Status, approvedAmount: real, reasons: seq<Reason>)
    ensures Decision(status, approvedAmount, reasons)
            == AnnualLimitStep(Decision(status0, amount0, reasons0), currentYearTotal)
  {
    status, approvedAmount, reasons := status0, amount0, reasons0;
    var remainingAnnualLimit := AnnualLimit - currentYearTotal;
    if remainingAnnualLimit <= 0.0 {
      status := Rejected;
      reasons := reasons + [AnnualLimitExhausted(currentYearTotal)];
      approvedAmount := 0.0;
    } else if approvedAmount > remainingAnnualLimit {
      reasons := reasons + [AnnualLimitCapped(remainingAnnualLimit)];
      approvedAmount := remainingAnnualLimit;
      if status == Approved { status := Partial; }
    }
  }

  /** 4b. The category sub-limit. */
  method SubLimitRule(status0: Status, amount0: real, reasons0: seq<Reason>, category: Category)
    returns (status: Status, approvedAmount: real, reasons: seq<Reason>)
    ensures Decision(status, approvedAmount, reasons)
            == SubLimitStep(Decision(status0, amount0, reasons0), category)
  {
    status, approvedAmount, reasons := status0, amount0, reasons0;
    var subLimit := SubLimit(category);
    if subLimit.Some? && approvedAmount > subLimit.value as real {
      reasons := reasons + [SubLimitExceeded(category, subLimit.value)];
      approvedAmount := Min(approvedAmount, subLimit.value as real);
      if status == Approved { status := Partial; }
    }
  }

  /** 4c. The co-pay deduction. */
  method CopayRule(status0: Status, amount0: real, reasons0: seq<Reason>, category: Category)
    returns (status: Status, approvedAmount: real, reasons: seq<Reason>)
    ensures Decision(status, approvedAmount, reasons)
            == CopayStep(Decision(status0, amount0, reasons0), category)
  {
    status, approvedAmount, reasons := status0, amount0, reasons0;
    var copay := CopayPercentage(category);
    if copay.Some? {
      var copayAmount := approvedAmount * (copay.value as real / 100.0);
      approvedAmount := approvedAmount - copayAmount;
      reasons := reasons + [CoPayDeduction(copay.value)];
      if status == Approved { status := Partial; }
    }
  }

  /** 4d. The per-claim cap. */
  method PerClaimRule(status0: Status, amount0: real, reasons0: seq<Reason>)
    returns (status: Status, approvedAmount: real, reasons: seq<Reason>)
    ensures Decision(status, approvedAmount, reasons) == PerClaimStep(Decision(status0, amount0, reasons0))
  {
    status, approvedAmount, reasons := status0, amount0, reasons0;
    if approvedAmount > PerClaimLimit {
      reasons := reasons + [PerClaimExceeded];
      approvedAmount := PerClaimLimit;
      if status == Approved { status := Partial; }
    }
  }

  /** Step 3 of `adjudicate` on `status` and `reasons`: the exclusion loop
      stops at the first listed match, then the cosmetic-dental rule runs. */
  method ExclusionRules(status0: Status, reasons0: seq<Reason>, diagnosisLower: string, items: seq<LineItem>)
    returns (status: Status, reasons: seq<Reason>)
    ensures forall amount: real ::
      Decision(status, amount, reasons) == ExclusionStep(Decision(status0, amount, reasons0), diagnosisLower, items)
  {
    status, reasons := status0, reasons0;
    var i := 0;
    while i < |Exclusions|
      invariant 0 <= i <= |Exclusions|
      invariant FirstMatch(diagnosisLower, Exclusions[i..]) == FirstMatch(diagnosisLower, Exclusions)
      invariant status == status0 && reasons == reasons0
    {
      if Contains(diagnosisLower, Exclusions[i]) {
        status := Rejected;
        reasons := reasons + [ExcludedCondition(Exclusions[i])];
        break;
      }
      assert Exclusions[i..][1..] == Exclusions[i + 1..];
      i := i + 1;
    }
    if ClassifyClaimCategory(diagnosisLower, items) == Dental {
      if Contains(diagnosisLower, "whitening") || Contains(diagnosisLower, "cosmetic") {
        status := Rejected;
        reasons := reasons + [CosmeticDental];
      }
    }
  }

  /** Step 2 of `adjudicate` on `status` and `reasons`. */
  method EligibilityRules(status0: Status, reasons0: seq<Reason>, dateOfService: Option<string>,
                          diagnosis: Option<string>, today: int, parseDate: string -> Option<int>)
    returns (status: Status, reasons: seq<Reason>)
    ensures forall amount: real ::
      Decision(status, amount, reasons)
      == EligibilityStep(Decision(status0, amount, reasons0), dateOfService, diagnosis, today, parseDate)
  {
    status, reasons := status0, reasons0;
    var (daysActive, treatDate) := CalculateDaysSincePolicyStart(dateOfService, parseDate);
    if treatDate.Some? {
      var daysSinceTreatment := today - treatDate.value;
      if daysSinceTreatment > SubmissionTimelineDays {
        status := Rejected;
        reasons := reasons + [LateSubmission(daysSinceTreatment)];
      }
      var eligibility := CheckWaitingPeriods(diagnosis, daysActive);
      if eligibility.NotEligible? {
        status := Rejected;
        reasons := reasons + [WaitingPeriod(eligibility.failure)];
      }
    } else {
      reasons := reasons + [DateInvalid];
      status := ManualReview;
    }
  }
}
