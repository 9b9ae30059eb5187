/** Properties of the rule engine's helpers: the first-match searches,
    the waiting-period check, the category classifier and the chain of
    monetary caps. */
module RulesHelperFacts {
  import opened Wrappers
  import opened Text
  import opened ClaimRecord
  import opened RulesEngine

  // ---------------------------------------------------------------------
  // First-match search (the exclusion loop with `break`)
  // ---------------------------------------------------------------------

  /** `FirstMatch` answers the first listed pattern that occurs. */
  lemma {:induction false} FirstMatchIsFirst(text: string, patterns: seq<string>, k: nat)
    requires k < |patterns| && Contains(text, patterns[k])
    requires forall j :: 0 <= j < k ==> !Contains(text, patterns[j])
    ensures FirstMatch(text, patterns) == Some(patterns[k])
  {
    if k > 0 {
      assert !Contains(text, patterns[0]);
      forall j | 0 <= j < k - 1
        ensures !Contains(text, patterns[1..][j])
      {
        assert patterns[1..][j] == patterns[j + 1];
      }
      FirstMatchIsFirst(text, patterns[1..], k - 1);
    }
  }

  /** `FirstMatch` finds nothing exactly when no pattern occurs, and what
      it finds is a listed pattern that occurs. */
  lemma {:induction false} FirstMatchNoneIffNoMatch(text: string, patterns: seq<string>)
    ensures FirstMatch(text, patterns).None? <==> forall k :: 0 <= k < |patterns| ==> !Contains(text, patterns[k])
    ensures FirstMatch(text, patterns).Some? ==>
      FirstMatch(text, patterns).value in patterns && Contains(text, FirstMatch(text, patterns).value)
  {
    if patterns != [] && !Contains(text, patterns[0]) {
      FirstMatchNoneIffNoMatch(text, patterns[1..]);
      forall k | 0 <= k < |patterns| && Contains(text, patterns[k])
        ensures FirstMatch(text, patterns).Some?
      {
        assert patterns[k] == patterns[1..][k - 1];
      }
    }
  }

  // ---------------------------------------------------------------------
  // check_waiting_periods
  // ---------------------------------------------------------------------

  /** The ailment search answers the first ailment, in list order, whose
      waiting period is unmet. */
  lemma {:induction false} FirstUnmetAilmentIsFirst(diagnosisLower: string, daysActive: int,
                                                    ailments: seq<(string, int)>, k: nat)
    requires k < |ailments| && Unmet(diagnosisLower, daysActive, ailments[k])
    requires forall j :: 0 <= j < k ==> !Unmet(diagnosisLower, daysActive, ailments[j])
    ensures FirstUnmetAilment(diagnosisLower, daysActive, ailments) == Some(ailments[k])
  {
    if k > 0 {
      assert !Unmet(diagnosisLower, daysActive, ailments[0]);
      forall j | 0 <= j < k - 1
        ensures !Unmet(diagnosisLower, daysActive, ailments[1..][j])
      {
        assert ailments[1..][j] == ailments[j + 1];
      }
      FirstUnmetAilmentIsFirst(diagnosisLower, daysActive, ailments[1..], k - 1);
    }
  }

  /** The ailment search finds nothing exactly when every ailment's
      waiting period is met or does not apply. */
  lemma {:induction false} FirstUnmetAilmentNoneIffAllMet(diagnosisLower: string, daysActive: int,
                                                          ailments: seq<(string, int)>)
    ensures FirstUnmetAilment(diagnosisLower, daysActive, ailments).None?
        <==> forall k :: 0 <= k < |ailments| ==> !Unmet(diagnosisLower, daysActive, ailments[k])
  {
    if ailments != [] && !Unmet(diagnosisLower, daysActive, ailments[0]) {
      FirstUnmetAilmentNoneIffAllMet(diagnosisLower, daysActive, ailments[1..]);
      forall k | 0 <= k < |ailments| && Unmet(diagnosisLower, daysActive, ailments[k])
        ensures FirstUnmetAilment(diagnosisLower, daysActive, ailments).Some?
      {
        assert ailments[k] == ailments[1..][k - 1];
      }
    }
  }

  /** `check_waiting_periods` on the policy's terms: under 30 days the
      general period fails; otherwise diabetes, then hypertension (90 days
      each), then joint_replacement (730 days) is reported when mentioned
      and unmet; otherwise the claim is eligible. */
  lemma WaitingPeriodsCharacterised(diagnosis: Option<string>, daysActive: int)
    ensures var dl := Lower(diagnosis.GetOr(""));
      var r := CheckWaitingPeriods(diagnosis, daysActive);
      && (daysActive < 30 ==> r == NotEligible(GeneralWait(daysActive)))
      && (30 <= daysActive < 90 && Contains(dl, "diabetes") ==>
            r == NotEligible(AilmentWait("diabetes", 90)))
      && (30 <= daysActive < 90 && !Contains(dl, "diabetes") && Contains(dl, "hypertension") ==>
            r == NotEligible(AilmentWait("hypertension", 90)))
      && (30 <= daysActive < 730 && Contains(dl, "joint_replacement")
          && !(daysActive < 90 && (Contains(dl, "diabetes") || Contains(dl, "hypertension"))) ==>
            r == NotEligible(AilmentWait("joint_replacement", 730)))
      && (r == Eligible <==>
            && daysActive >= 30
            && (daysActive >= 90 || (!Contains(dl, "diabetes") && !Contains(dl, "hypertension")))
            && (daysActive >= 730 || !Contains(dl, "joint_replacement")))
  {
    var dl := Lower(diagnosis.GetOr(""));
    var a := SpecificAilments;
    if daysActive >= 30 {
      FirstUnmetAilmentNoneIffAllMet(dl, daysActive, a);
      if Unmet(dl, daysActive, a[0]) {
        FirstUnmetAilmentIsFirst(dl, daysActive, a, 0);
      } else if Unmet(dl, daysActive, a[1]) {
        FirstUnmetAilmentIsFirst(dl, daysActive, a, 1);
      } else if Unmet(dl, daysActive, a[2]) {
        FirstUnmetAilmentIsFirst(dl, daysActive, a, 2);
      }
    }
  }

  // ---------------------------------------------------------------------
  // classify_claim_category
  // ---------------------------------------------------------------------

  /** The keyword group of each category; `general` has none. */
  function CategoryKeywords(c: Category): seq<string> {
    match c
    case Dental => ["root canal", "tooth", "filling"]
    case ConsultationFees => ["consultation"]
    case DiagnosticTests => ["mri", "scan", "x-ray", "blood"]
    case Pharmacy => ["pharmacy", "tablet", "mg"]
    case General => []
  }

  /** The text mentions one of the category's keywords. */
  predicate Mentions(blob: string, c: Category) {
    exists kw :: kw in CategoryKeywords(c) && Contains(blob, kw)
  }

  /** The order in which the classifier tries the keyword groups. */
  const PriorityOrder: seq<Category> := [Dental, ConsultationFees, DiagnosticTests, Pharmacy]

  /** Reference definition: the first category, in priority order, whose
      keywords the text mentions, and `general` when there is none. */
  function FirstMentioned(blob: string, order: seq<Category>): Category {
    if order == [] then General
    else if Mentions(blob, order[0]) then order[0]
    else FirstMentioned(blob, order[1..])
  }

  /** The classifier is a strict priority chain over the keyword groups:
      each category wins exactly when its group matches and no earlier
      group does. */
  lemma ClassificationIsFirstMatchingGroup(diagnosis: string, items: seq<LineItem>)
    ensures var blob := TextBlob(diagnosis, items);
      var c := ClassifyClaimCategory(diagnosis, items);
      && c == FirstMentioned(blob, PriorityOrder)
      && (c == Dental <==> Mentions(blob, Dental))
      && (c == ConsultationFees <==> !Mentions(blob, Dental) && Mentions(blob, ConsultationFees))
      && (c == DiagnosticTests <==>
            !Mentions(blob, Dental) && !Mentions(blob, ConsultationFees) && Mentions(blob, DiagnosticTests))
      && (c == Pharmacy <==>
            !Mentions(blob, Dental) && !Mentions(blob, ConsultationFees) && !Mentions(blob, DiagnosticTests)
            && Mentions(blob, Pharmacy))
      && (c == General <==> forall k :: 0 <= k < |PriorityOrder| ==> !Mentions(blob, PriorityOrder[k]))
  {
    var blob := TextBlob(diagnosis, items);
    MentionsSpelledOut(blob);
    var o1, o2, o3 := PriorityOrder[1..], PriorityOrder[2..], PriorityOrder[3..];
    assert o1[1..] == o2 && o2[1..] == o3 && o3[1..] == [];
    assert FirstMentioned(blob, o3) == if Mentions(blob, Pharmacy) then Pharmacy else General;
    assert FirstMentioned(blob, o2) == if Mentions(blob, DiagnosticTests) then DiagnosticTests else FirstMentioned(blob, o3);
    assert FirstMentioned(blob, o1) == if Mentions(blob, ConsultationFees) then ConsultationFees else FirstMentioned(blob, o2);
  }

  /** Each keyword group, written out. */
  lemma MentionsSpelledOut(blob: string)
    ensures Mentions(blob, Dental) <==>
      Contains(blob, "root canal") || Contains(blob, "tooth") || Contains(blob, "filling")
    ensures Mentions(blob, ConsultationFees) <==> Contains(blob, "consultation")
    ensures Mentions(blob, DiagnosticTests) <==>
      Contains(blob, "mri") || Contains(blob, "scan") || Contains(blob, "x-ray") || Contains(blob, "blood")
    ensures Mentions(blob, Pharmacy) <==>
      Contains(blob, "pharmacy") || Contains(blob, "tablet") || Contains(blob, "mg")
    ensures !Mentions(blob, General)
  {
    if Contains(blob, "root canal") { assert "root canal" in CategoryKeywords(Dental); }
    if Contains(blob, "tooth") { assert "tooth" in CategoryKeywords(Dental); }
    if Contains(blob, "filling") { assert "filling" in CategoryKeywords(Dental); }
    if Contains(blob, "consultation") { assert "consultation" in CategoryKeywords(ConsultationFees); }
    if Contains(blob, "mri") { assert "mri" in CategoryKeywords(DiagnosticTests); }
    if Contains(blob, "scan") { assert "scan" in CategoryKeywords(DiagnosticTests); }
    if Contains(blob, "x-ray") { assert "x-ray" in CategoryKeywords(DiagnosticTests); }
    if Contains(blob, "blood") { assert "blood" in CategoryKeywords(DiagnosticTests); }
    if Contains(blob, "pharmacy") { assert "pharmacy" in CategoryKeywords(Pharmacy); }
    if Contains(blob, "tablet") { assert "tablet" in CategoryKeywords(Pharmacy); }
    if Contains(blob, "mg") { assert "mg" in CategoryKeywords(Pharmacy); }
  }

  /** The classifier lower-cases its own text, so lower-casing the
      diagnosis beforehand, as `adjudicate` does, changes nothing. */
  lemma ClassificationIgnoresCase(diagnosis: string, items: seq<LineItem>)
    ensures ClassifyClaimCategory(Lower(diagnosis), items) == ClassifyClaimCategory(diagnosis, items)
  {
    var tail := " " + Join(ItemNames(items), " ");
    LowerAppend(Lower(diagnosis), tail);
    LowerAppend(diagnosis, tail);
    LowerIdempotent(diagnosis);
    assert Lower(diagnosis) + " " + Join(ItemNames(items), " ") == Lower(diagnosis) + tail;
    assert diagnosis + " " + Join(ItemNames(items), " ") == diagnosis + tail;
    assert TextBlob(Lower(diagnosis), items) == TextBlob(diagnosis, items);
  }

  // ---------------------------------------------------------------------
  // Step 4: limits and calculations
  // ---------------------------------------------------------------------

  /** The caps of step 4. With an annual allowance left, every cap only
      lowers a non-negative amount, the result stays within the remaining
      allowance, the category sub-limit and the per-claim cap of 5000,
      APPROVED turns PARTIAL exactly when a cap added a reason, and
      MANUAL_REVIEW or REJECTED is kept. With no allowance left the claim
      is REJECTED at 0. */
  lemma LimitsOnlyLower(d: Decision, c: Category, currentYearTotal: real)
    ensures var res := ApplyLimits(d, c, currentYearTotal);
      var remaining := AnnualLimit - currentYearTotal;
      && res.approvedAmount <= PerClaimLimit
      && (remaining <= 0.0 ==> res.status == Rejected && res.approvedAmount == 0.0)
      && (remaining > 0.0 ==> res.approvedAmount <= remaining)
      && (remaining > 0.0 && SubLimit(c).Some? ==> res.approvedAmount <= SubLimit(c).value as real)
      && (d.approvedAmount >= 0.0 ==> 0.0 <= res.approvedAmount <= d.approvedAmount)
      && (remaining > 0.0 && d.status != Approved ==> res.status == d.status)
      && (remaining > 0.0 && d.status == Approved ==>
            res.status == (if |res.reasons| > |d.reasons| then Partial else Approved))
      && (|res.reasons| == |d.reasons| ==> res == d)
      && (remaining > 0.0 && d.approvedAmount > 0.0 && |res.reasons| > |d.reasons| ==>
            res.approvedAmount < d.approvedAmount)
  {
    var remaining := AnnualLimit - currentYearTotal;
    var a := AnnualLimitStep(d, currentYearTotal);
    var b := SubLimitStep(a, c);
    var cp := CopayStep(b, c);
    var res := PerClaimStep(cp);
    assert |d.reasons| <= |a.reasons| <= |b.reasons| <= |cp.reasons| <= |res.reasons|;
    if remaining > 0.0 {
      assert a.approvedAmount <= remaining;
      assert b.approvedAmount <= remaining;
      assert SubLimit(c).Some? ==> b.approvedAmount <= SubLimit(c).value as real;
      if cp.approvedAmount != b.approvedAmount {
        assert cp.approvedAmount == b.approvedAmount * (90.0 / 100.0);
      }
      assert cp.approvedAmount <= remaining;
      assert SubLimit(c).Some? ==> cp.approvedAmount <= SubLimit(c).value as real;
    }
    if d.approvedAmount >= 0.0 {
      assert 0.0 <= b.approvedAmount <= d.approvedAmount;
      assert 0.0 <= cp.approvedAmount <= b.approvedAmount;
    }
    if remaining > 0.0 && d.approvedAmount > 0.0 {
      assert 0.0 < a.approvedAmount <= d.approvedAmount;
      assert 0.0 < b.approvedAmount <= a.approvedAmount;
      assert |b.reasons| > |d.reasons| ==> b.approvedAmount < d.approvedAmount;
      assert cp.approvedAmount <= b.approvedAmount;
      assert |cp.reasons| > |b.reasons| ==> cp.approvedAmount < b.approvedAmount;
    }
  }

  /** Each step of step 4 keeps the reasons it was given and appends at
      most one; only the co-pay step appends a co-pay reason. */
  lemma CapStepsAddNoCoPay(d: Decision, c: Category, currentYearTotal: real)
    ensures var a := AnnualLimitStep(d, currentYearTotal);
      d.reasons <= a.reasons && forall r :: r in a.reasons[|d.reasons|..] ==> !r.CoPayDeduction?
    ensures var b := SubLimitStep(d, c);
      d.reasons <= b.reasons && forall r :: r in b.reasons[|d.reasons|..] ==> !r.CoPayDeduction?
    ensures var e := PerClaimStep(d);
      d.reasons <= e.reasons && forall r :: r in e.reasons[|d.reasons|..] ==> !r.CoPayDeduction?
  {
  }

  lemma SliceOfExtension<T>(x: seq<T>, y: seq<T>, z: seq<T>)
    requires x <= y <= z
    ensures z[|x|..] == y[|x|..] + z[|y|..]
  {
  }

  /** Only consultations carry a co-pay, of 10 percent. */
  lemma CoPayOnlyForConsultations(d: Decision, c: Category, currentYearTotal: real)
    ensures var res := ApplyLimits(d, c, currentYearTotal);
      forall p :: CoPayDeduction(p) in res.reasons[|d.reasons|..] <==> c == ConsultationFees && p == 10
  {
    var a := AnnualLimitStep(d, currentYearTotal);
    var b := SubLimitStep(a, c);
    var cp := CopayStep(b, c);
    var res := PerClaimStep(cp);
    CapStepsAddNoCoPay(d, c, currentYearTotal);
    CapStepsAddNoCoPay(a, c, currentYearTotal);
    CapStepsAddNoCoPay(cp, c, currentYearTotal);
    var tc := cp.reasons[|b.reasons|..];
    assert b.reasons <= cp.reasons;
    assert tc == (if c == ConsultationFees then [CoPayDeduction(10)] else []);
    SliceOfExtension(d.reasons, a.reasons, b.reasons);
    SliceOfExtension(d.reasons, b.reasons, cp.reasons);
    SliceOfExtension(d.reasons, cp.reasons, res.reasons);
    CoPayOnlyInCoPayTail(a.reasons[|d.reasons|..], b.reasons[|a.reasons|..], tc, res.reasons[|cp.reasons|..], c);
  }

  lemma CoPayOnlyInCoPayTail(ta: seq<Reason>, tb: seq<Reason>, tc: seq<Reason>, td: seq<Reason>, c: Category)
    requires forall r :: r in ta ==> !r.CoPayDeduction?
    requires forall r :: r in tb ==> !r.CoPayDeduction?
    requires forall r :: r in td ==> !r.CoPayDeduction?
    requires tc == (if c == ConsultationFees then [CoPayDeduction(10)] else [])
    ensures forall p :: CoPayDeduction(p) in ta + tb + tc + td <==> c == ConsultationFees && p == 10
  {
  }
}
