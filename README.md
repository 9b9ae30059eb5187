# OPD claim adjudicator: the rule engine and the console's view logic

This project models the core of an outpatient (OPD) claim adjudicator under
the policy PLUM_OPD_2024.

**The rule engine.** The backend rule engine takes a claim record that an
AI service has already extracted from a medical bill. It also takes the
patient's year-to-date approved total. It returns a status (APPROVED,
REJECTED, PARTIAL or MANUAL_REVIEW), an approved amount and an ordered list
of reasons. It works through these steps in order:

1. a confidence gate;
2. sanity checks: the doctor's registration number, the minimum amount and
   the medical-necessity verdict;
3. date eligibility: late submission and waiting periods;
4. exclusions;
5. a chain of caps: the annual limit, the category sub-limit, the co-pay and
   the per-claim cap.

**The console.** The frontend is a React console. The project models:

- the upload lifecycle: choose a file, process it, start a new claim;
- the routing of tabs;
- the claim detail view, a total mapping from a partially populated claim
  record to what the view shows;
- the history browser: the list of claims, its load state and a
  single-selection overlay;
- the dashboard: the bar widths and the thousands scaling.

**Backend modules.**

- `RulesEngine` (rules_engine.dfy) holds:
  - the policy terms;
  - the reasons, as a datatype with their message texts;
  - the helpers;
  - `Adjudication`, the decision procedure as a function of its inputs.

  The method `Adjudicate` follows `adjudicate` statement by statement. It
  updates the locals `status`, `approvedAmount` and `reasons`, and the
  exclusion loop stops at the first match. It is proved to compute
  `Adjudication`.
- `RulesHelperFacts` and `RulesEngineFacts` prove what the source promises
  about the helpers and about `Adjudication`. For the reason order, they
  first define what each stage appends as a separate list.

**Frontend modules.**

- `ClaimAnalysis` is the detail view.
- `App` holds the upload console's transitions and views, a trace theorem,
  and the class `UploadConsole`, which holds the component's state cells.
- `ClaimHistory` is the history browser, with the class `HistoryBrowser`.
- `Dashboard` is the dashboard, with the class `DashboardPanel`.
- `EndToEnd` connects the engine's decision, through the record that the
  submit endpoint stores, to what the detail view shows.

**Shared modules.**

- `ClaimRecord` holds the shapes of the extracted data and the stored claim.
- `Text` holds the string operations.
- `NumberFormat` holds `toFixed(1)`.
- `Wrappers` holds `Option`.

**How inputs are represented.**

- Amounts are exact reals.
- Dates are day numbers.
- `strptime` is the parameter `parseDate`, which returns `None` when the
  text does not parse.
- `datetime.now()` is the parameter `today`.
- A key that is absent, or whose value is `null` or `None`, is `None`.
- JavaScript truthiness of an optional string is `Truthy`.

## Model

| member | source | states |
|---|---|---|
| RulesEngine.CalculateDaysSincePolicyStart | Backend/app/rules_engine.py:47-53 | The date is present exactly when both the date of service and the effective date parse. The age is then the difference in days. Otherwise the result is the sentinel (-1, None). |
| RulesEngine.Adjudicate | Backend/app/rules_engine.py:85-186 | The step-by-step procedure computes exactly `Adjudication`, the staged definition the lemmas below are about. |
| RulesEngine.EligibilityRules | Backend/app/rules_engine.py:113-128 | Step 2 on `status` and `reasons` equals the eligibility stage: late submission and waiting period when the date parses, otherwise DATE_INVALID and MANUAL_REVIEW. |
| RulesEngine.ExclusionRules | Backend/app/rules_engine.py:130-141 | The exclusion loop with `break` appends a reason only for the first listed exclusion found. The cosmetic-dental rule follows. The loop invariant keeps the first match of the remaining list equal to that of the whole list. |
| RulesEngine.LimitsAndCalculations | Backend/app/rules_engine.py:143-176 | Step 4 on its three locals equals the composed cap chain `ApplyLimits`. |
| RulesEngine.AnnualLimitRule | Backend/app/rules_engine.py:148-157 | 4a: with no allowance left, REJECTED at 0. Otherwise the amount is capped at the remainder, and APPROVED turns PARTIAL. |
| RulesEngine.SubLimitRule | Backend/app/rules_engine.py:159-163 | 4b: capped at the category sub-limit when the category has one. |
| RulesEngine.CopayRule | Backend/app/rules_engine.py:165-170 | 4c: the co-pay percentage is deducted when the category has one. |
| RulesEngine.PerClaimRule | Backend/app/rules_engine.py:172-176 | 4d: capped at 5000. |
| RulesEngine.Message | Backend/app/rules_engine.py:97-174 | Every reason text except the low-confidence one starts with its code and ": ". |
| RulesEngineFacts.LowConfidenceGate | Backend/app/rules_engine.py:96-97 | Below 0.70 the result is MANUAL_REVIEW, 0 and the single reason "Low AI Confidence Score". That reason occurs exactly in that case. |
| RulesEngineFacts.SanityReasonIffCheckFails | Backend/app/rules_engine.py:99-105 | For a claim past the gate, DOCTOR_REG_INVALID is present iff the registration number is missing or empty. BELOW_MIN_AMOUNT is present iff the amount is below 500. |
| RulesEngineFacts.NecessityReasonIffFail | Backend/app/rules_engine.py:107-111 | Past the confidence gate, NOT_MEDICALLY_NECESSARY is present iff the check is exactly "FAIL". |
| RulesEngineFacts.SanityReasonsOnlyFromSanityChecks | Backend/app/rules_engine.py:99-111 | Past the confidence gate, the sanity reasons, in the order registration, amount, necessity, are a prefix of the final list, and no later step adds one. |
| RulesEngineFacts.ReasonsInSourceOrder | Backend/app/rules_engine.py:86-176 | Past the confidence gate, the final list is the sanity, eligibility and exclusion reasons in that order, followed only by cap reasons. A claim REJECTED before step 4 gets no cap reasons. |
| RulesEngineFacts.DateInvalidOverridesRejection | Backend/app/rules_engine.py:114-128 | Past the confidence gate, an unparseable date turns even a REJECTED status into MANUAL_REVIEW. The final status is then REJECTED only through an exclusion or an exhausted annual limit. |
| RulesEngineFacts.DateInvalidIffUnparseable | Backend/app/rules_engine.py:114-128 | DATE_INVALID is present iff the claim passed the gate and the date does not parse. In that case no LATE_SUBMISSION or WAITING_PERIOD reason is present. |
| RulesEngineFacts.EligibilityReasonsOnlyFromEligibilityChecks | Backend/app/rules_engine.py:113-128 | Past the confidence gate, the step-2 reasons in the final list are exactly those step 2 appended. |
| RulesEngineFacts.ExclusionReasonsOnlyFromExclusionChecks | Backend/app/rules_engine.py:130-141 | Past the confidence gate, the step-3 reasons in the final list are exactly those step 3 appended. A reason from the exclusion list can sit only right after the sanity and eligibility reasons. |
| RulesEngineFacts.ExclusionReasonAtMostOnce | Backend/app/rules_engine.py:131-136 | EXCLUDED_CONDITION(e) is present iff e is the first listed exclusion that the lower-cased diagnosis contains. At most one reason comes from the exclusion list. |
| RulesEngineFacts.CosmeticDentalGivesTwoExclusionReasons | Backend/app/rules_engine.py:130-141 | Past the confidence gate, a dental claim whose diagnosis mentions "cosmetic" or "whitening" gets two EXCLUDED_CONDITION reasons, one right after the other: the first listed exclusion's, then "Cosmetic Dental Procedure". |
| RulesEngineFacts.CosmeticDentalIsSubsumed | Backend/app/rules_engine.py:130-141 | Whenever the cosmetic-dental rule fires, the exclusion list has already matched. |
| RulesEngineFacts.RejectedBeforeLimitsKeepsClaimedAmount | Backend/app/rules_engine.py:88-180 | Past the confidence gate, a claim REJECTED before step 4 skips the caps and keeps its claimed amount. Only a non-positive amount is clamped to 0. |
| RulesEngineFacts.FinalAmountBounds | Backend/app/rules_engine.py:143-180 | APPROVED pays exactly the claimed amount, which is at least 500. PARTIAL pays more than 0 and strictly less than the claimed amount. Neither exceeds 5000. Outside MANUAL_REVIEW the amount is never negative. A REJECTED claim with a positive amount was rejected before step 4 and keeps the claimed amount. |
| RulesEngineFacts.ApprovedIffNoReasons | Backend/app/rules_engine.py:86-180 | The final status is APPROVED exactly when the reason list is empty. |
| RulesEngineFacts.PreLimitStageFacts | Backend/app/rules_engine.py:95-141 | Steps 1 to 3 keep the amount, append the three reason lists in order, and leave the status set by the last rule that fired. |
| RulesEngineFacts.LimitReasonsAppended | Backend/app/rules_engine.py:143-176 | Step 4 keeps the earlier reasons and appends only cap reasons. |
| RulesHelperFacts.FirstMatchIsFirst | Backend/app/rules_engine.py:131-136 | The exclusion search answers the first listed pattern that occurs in the text. |
| RulesHelperFacts.FirstMatchNoneIffNoMatch | Backend/app/rules_engine.py:131-136 | The search finds nothing iff no listed pattern occurs, and what it finds is a listed pattern that occurs. |
| RulesHelperFacts.FirstUnmetAilmentIsFirst | Backend/app/rules_engine.py:63-66 | The ailment search answers the first ailment in dictionary order that is mentioned and whose period is not over. |
| RulesHelperFacts.FirstUnmetAilmentNoneIffAllMet | Backend/app/rules_engine.py:63-68 | The ailment search finds nothing iff every ailment is either not mentioned or over its period. |
| RulesHelperFacts.WaitingPeriodsCharacterised | Backend/app/rules_engine.py:55-68 | Under 30 days the general period fails. Then diabetes and then hypertension (90 days) fail, and then joint_replacement (730 days) fails, each when mentioned and unmet. The claim is eligible iff none of these applies. |
| RulesHelperFacts.ClassificationIsFirstMatchingGroup | Backend/app/rules_engine.py:70-81 | The category equals the first keyword group, in priority order dental, consultation_fees, diagnostic_tests, pharmacy, that the text mentions, and general when none does. Each category wins iff its group matches and no earlier group does. |
| RulesHelperFacts.MentionsSpelledOut | Backend/app/rules_engine.py:73-80 | Each keyword group written out as the source's disjunction of substrings. |
| RulesHelperFacts.ClassificationIgnoresCase | Backend/app/rules_engine.py:70-81 | Lower-casing the diagnosis before classifying, as `adjudicate` does, does not change the category. |
| RulesHelperFacts.LimitsOnlyLower | Backend/app/rules_engine.py:143-176 | After the caps the amount is at most 5000. With no allowance left the claim is REJECTED at 0. Otherwise the amount is within the remainder and the sub-limit. A non-negative amount only goes down, and a positive amount goes down strictly when a cap applied. APPROVED turns PARTIAL iff a cap added a reason, and any other status is kept. |
| RulesHelperFacts.CoPayOnlyForConsultations | Backend/app/rules_engine.py:165-170 | A co-pay reason is added iff the category is consultation_fees, and its percentage is 10. |
| ClaimAnalysis.StatusTone | frontend/src/components/ClaimAnalysis.js:16-23 | Positive iff APPROVED, negative iff REJECTED, warning iff PARTIAL; anything else is neutral. |
| ClaimAnalysis.Amounts | frontend/src/components/ClaimAnalysis.js:40-47 | The amount is `approved_amount` or 0. It is struck through iff REJECTED. The "Original" line, with the total or 0, is shown iff not APPROVED. |
| ClaimAnalysis.ReasonsPanel | frontend/src/components/ClaimAnalysis.js:75-88 | The panel is shown iff the list is present and non-empty, and it lists the reasons unchanged. |
| ClaimAnalysis.Necessity | frontend/src/components/ClaimAnalysis.js:91-104 | The badge falls back to "N/A" and the reason to "No reasoning provided". The PASS styling is used iff the check is exactly "PASS". |
| ClaimAnalysis.Confidence | frontend/src/components/ClaimAnalysis.js:130-138 | The bar is green iff the score is present and above 0.8. The width is score times 100, and the label is the text of that value to one decimal, followed by "% Accuracy". |
| ClaimAnalysis.Rows | frontend/src/components/ClaimAnalysis.js:154-159 | One row per line item, in order, with no rows when the list is absent. |
| ClaimAnalysis.Document | frontend/src/components/ClaimAnalysis.js:60-67 | The image is shown iff the preview URL is truthy; otherwise the placeholder. |
| ClaimAnalysis.Render | frontend/src/components/ClaimAnalysis.js:4-169 | Nothing is shown iff there is no result. Otherwise the view shows the claim id and status, the tone, amounts, document and reasons panel of that claim. The sections exist iff there is extracted data. They then hold that data's necessity panel, each detail field or "N/A", the confidence bar of the claim's top-level score, and one row per line item. |
| ClaimAnalysis.ExtractedSectionsFallBack | frontend/src/components/ClaimAnalysis.js:108-128 | Each details field shows "N/A" exactly when the value is missing or empty (or is itself "N/A"). There is one row per line item. |
| ClaimAnalysis.ConfidenceLabelExamples | frontend/src/components/ClaimAnalysis.js:134-138 | 0.823 is labelled "82.3% Accuracy" and is green. 0.8 is not green. |
| ClaimAnalysis.MissingConfidenceLabel | frontend/src/components/ClaimAnalysis.js:138 | A missing score is labelled "0.0% Accuracy". |
| NumberFormat.ToFixed1 | frontend/src/components/ClaimAnalysis.js:138 | The magnitude is the tenth within half a tenth of the value, and the sign is written iff the value is negative. |
| NumberFormat.Fixed1Text | frontend/src/components/ClaimAnalysis.js:138 | The text is a minus sign iff negative, then digits, a point and one digit. Read back as decimal digits, the whole part and the digit give exactly the tenths. |
| NumberFormat.Fixed1TextExamples | frontend/src/components/ClaimAnalysis.js:138 | 823 tenths are written "82.3" and zero "0.0". |
| NumberFormat.ToFixed1Examples | frontend/src/components/ClaimAnalysis.js:138 | 82.3 rounds to 823 tenths and zero to none. |
| Text.NatToStringReadsBack | Backend/app/rules_engine.py:120 | `str(n)` of a natural number writes decimal digits that read back as n. |
| App.UploadConsole.constructor | frontend/src/App.js:11-15 | The console starts on the dashboard tab with no file, no preview, no result and not loading. |
| App.UploadConsole.HandleFileChange | frontend/src/App.js:17-24 | The new state is `OnFileChange` of the old one: unchanged without a file; otherwise the file, a new preview, and the result cleared. |
| App.UploadConsole.BeginProcessClaim | frontend/src/App.js:26-30 | Without a file nothing changes and nothing is sent. Otherwise loading is set and the file is sent. |
| App.UploadConsole.FinishProcessClaim | frontend/src/App.js:32-40 | On success the result is the response; on failure the single alert is raised. Loading is cleared either way. |
| App.UploadConsole.ProcessNewClaim | frontend/src/App.js:57 | Result, file and preview are cleared. |
| App.UploadConsole.SelectTab | frontend/src/App.js:118 | Only the active tab changes. |
| App.PageTitle | frontend/src/App.js:124 | The header is "Adjudication Console" on the adjudicate tab and the tab's own name on any other. |
| App.TitleNamesContent | frontend/src/App.js:43-124 | The dashboard, history and policies screens show exactly when the header names that tab, and the "Adjudication Console" header always sits over the adjudicate pane. |
| App.RoutingFallsThroughToAdjudicate | frontend/src/App.js:43-65 | Every tab other than the three named ones shows the adjudicate pane. The pane shows the analysis, with the current preview, iff there is a result. |
| App.UploadPanelControls | frontend/src/App.js:67-112 | Spinner and "Analyzing" heading iff loading. File input iff not loading. Process button iff a file is chosen and nothing is loading. |
| App.ProcessRoundTrip | frontend/src/App.js:26-41 | A failed request returns every state cell to its value before the click and raises one alert. A successful one shows the response. |
| App.ProcessWithoutFileIsNoOp | frontend/src/App.js:27 | Without a file, processing changes nothing and sends nothing. |
| App.NewClaimResetsUpload | frontend/src/App.js:57-112 | After "Process New Claim" the pane is the empty upload panel. |
| App.FileChangeSelects | frontend/src/App.js:17-109 | Choosing a file shows "<name> selected" and the Process button. A change without a file changes nothing. |
| App.StepKeepsInv | frontend/src/App.js:26-109 | Every enabled user action or response keeps the invariant: at most one request pending, pending iff loading, and while loading there is no result but a file. |
| App.AtMostOneSubmissionInFlight | frontend/src/App.js:26-109 | Over any run of enabled events, at most one submission is in flight, exactly while the console shows loading. |
| App.InitialSessionSatisfiesInv | frontend/src/App.js:11-15 | The initial state with nothing in flight satisfies the invariant. |
| ClaimHistory.StatusBadge | frontend/src/components/ClaimHistory.js:20-32 | Emerald, rose, amber and purple iff APPROVED, REJECTED, PARTIAL and MANUAL_REVIEW respectively; gray otherwise. |
| ClaimHistory.FilePreviewUrl | frontend/src/components/ClaimHistory.js:116 | A URL exists iff the stored path is truthy. It is the backend base and "/" followed by the path, which can be read back from it. |
| ClaimHistory.Rows | frontend/src/components/ClaimHistory.js:70-76 | One row per claim, in list order. |
| ClaimHistory.OverlayIffSelected | frontend/src/components/ClaimHistory.js:93-117 | The overlay exists iff a claim is selected. It renders that claim, with the backend image iff the claim has a path. |
| ClaimHistory.TableListsEveryClaim | frontend/src/components/ClaimHistory.js:55-76 | Once loaded, the table shows one row per claim in order. The patient is "Unknown" exactly when the name is missing or empty (or is "Unknown"). |
| ClaimHistory.BadgeAgreesWithTone | frontend/src/components/ClaimHistory.js:20-32 | The badge agrees with the detail view's tone on the three decided outcomes. |
| ClaimHistory.FailedFetchShowsEmptyTable | frontend/src/components/ClaimHistory.js:7-58 | A failed first fetch shows the table header, no rows and no overlay. |
| ClaimHistory.HistoryBrowser.constructor | frontend/src/components/ClaimHistory.js:7-9 | The browser starts with no claims, loading, and nothing selected. |
| ClaimHistory.HistoryBrowser.FetchSucceeded | frontend/src/components/ClaimHistory.js:13-16 | The claims become the response and loading ends. |
| ClaimHistory.HistoryBrowser.FetchFailed | frontend/src/components/ClaimHistory.js:17 | Loading ends and the claims stay as they were. |
| ClaimHistory.HistoryBrowser.ViewRow | frontend/src/components/ClaimHistory.js:79 | The row's claim replaces any earlier selection. |
| ClaimHistory.HistoryBrowser.Close | frontend/src/components/ClaimHistory.js:104 | The selection is cleared. |
| Dashboard.BarWidth | frontend/src/components/Dashboard.js:85 | 0 when the total is 0; otherwise width times total equals count times 100. |
| Dashboard.Bars | frontend/src/components/Dashboard.js:71-76 | Exactly four bars, Approved, Rejected, Partial and Manual Review in that order, each with its count and width. |
| Dashboard.Thousands | frontend/src/components/Dashboard.js:53-54 | The shown figure is the amount divided by 1000 to one decimal. It is negative iff the amount is, and its magnitude in hundreds is within 50 of the amount's magnitude. |
| Dashboard.ThousandsText | frontend/src/components/Dashboard.js:53-54 | The card text is a minus sign iff the amount is negative, then digits, a point, one digit and "k". Read back, the digits give the amount in hundreds, within 50 either way. |
| Dashboard.View | frontend/src/components/Dashboard.js:27 | Only the loading message iff there are no statistics. |
| Dashboard.BarWidthBounded | frontend/src/components/Dashboard.js:85 | A count between 0 and the total gives a width between 0 and 100. |
| Dashboard.BarsSpanAtMostFullWidth | frontend/src/components/Dashboard.js:71-85 | The four widths sum to at most 100, and to exactly 100 when every claim has one of the four statuses. |
| Dashboard.PendingReviewIsManualReview | frontend/src/components/Dashboard.js:58-75 | The "Pending Review" card and the last bar both show the MANUAL_REVIEW count. |
| Dashboard.DashboardPanel.FetchSucceeded | frontend/src/components/Dashboard.js:23 | The statistics become the response. |
| Dashboard.DashboardPanel.FetchFailed | frontend/src/components/Dashboard.js:24 | A failure only logs: the view stays as it was. |
| EndToEnd.StoredClaim | Backend/app/main.py:104-116 | The stored record's status is the decision's status name, and its reasons are the decision's reason texts in order. |
| EndToEnd.StoredDecisionDisplay | Backend/app/main.py:104-116 | For an adjudicated and stored claim, the detail view shows the reasons panel iff it shows the "Original" line, iff the claim is not APPROVED. It strikes the amount iff REJECTED, never shows an unstruck amount above 5000, and shows the reasons in the engine's order. |

## Left out

- `round(approved_amount, 2)` (rules_engine.py:184) is not modelled. Amounts are exact reals, so the stored approved amount is the unrounded one.
- Python floats and JavaScript numbers are exact reals here, so binary rounding is not modelled. `str()` of a float inside reason texts is the parameter `floatText`.
- `toFixed(1)` for numbers of 1e21 or more (exponent notation) is not modelled.
- The `capitalize` styling of the page header is presentation, not text, and is not modelled.
- The auto-approval rate card shows JavaScript's own text for a number, which is not modelled: the card holds the number.
- `toLocaleString` and `toLocaleDateString` are not modelled: amounts and dates are kept as values, not as text.
- `strptime` and `datetime.now()` are parameters (`parseDate`, `today`). The calendar itself is not modelled.
- A key present with value `None` and a missing key are both `None`. So `medical_necessity_reason: null` gives the default reason here, where Python would write "None".
- The `isinstance(item, dict)` filter on line items is not modelled: line items are always records, and a missing `item` key is the empty string.
- Python `TypeError`s on `None` fields are not modelled: `None < 0.70` counts as a score of 0, and a `None` item name in `join` is not possible.
- Case mapping (`lower`, `upper`, `title`) covers ASCII letters only.
- The network, `async`/`await`, `alert`, `console.error` and `useEffect` timing are not modelled. A request is split into its send and its answer, and `URL.createObjectURL` is the parameter `objectUrl`.
- React's batching of state updates is not modelled: the trace theorem treats each handler as one atomic step.
- The search and filter controls of the history page have no behaviour in the source and are not modelled.
- Backend/app/main.py is not part of this model beyond the shape of the stored record (`EndToEnd.StoredClaim`). That includes its routes, queries, file writes and ids, and the year-to-date total, which is a plain input to the engine.
- Backend/app/ai_service.py, PolicyRules.js, Sidebar.js and the unused ResultCard.js are not part of this model.
- Dates of service are compared as day numbers. The source's `(now - treat_date).days` truncates the time of day, which day numbers already do.
- A negative claimed amount stays negative under MANUAL_REVIEW, as in the source, so `RulesEngineFacts.FinalAmountBounds` says nothing about its sign there.

Three behaviours of the code that the model keeps as written:

- A claim REJECTED before the caps keeps its claimed amount
  (Backend/app/rules_engine.py:144 skips step 4 for it). Only a
  non-positive amount is zeroed (Backend/app/rules_engine.py:178-180).
- "Process New Claim" clears the preview cell but never releases the object
  URL (frontend/src/App.js:57), so no release is modelled.
- A failed history fetch ends the loading state and shows an empty table
  (frontend/src/components/ClaimHistory.js:17). A failed dashboard fetch
  only logs the error and leaves the dashboard loading
  (frontend/src/components/Dashboard.js:24-27).
