# DoPayment BNPL core in Dafny

This project models the payment logic of the DoPayment web app. Its centre is the
BNPL (buy-now-pay-later) split calculator, around which sit the client-side
state machines that feed and display it.

The calculator has two jobs:

- `calculateSplits` turns a cart, a financing plan and a split rule into a
  preview. The preview holds the order amount, the BNPL fees, the net to split
  and one payout line per beneficiary, plus a residual line when rounding leaves
  a remainder.
- `calculateRefundSplits` shares a refund across the original lines in
  proportion to their amounts.

Money is exact (`real`). Every big.js `div` rounds half-up to two places
(`Big.DP = 2`, `Big.RM = roundHalfUp`). The rule's `roundingRule` then rounds
each line half-up, or half-even under `bankers`.

Around the calculator the project models:

- the zod schemas for rules, refunds and disputes, as predicates;
- the refund wizard's unrounded preview and its amount check;
- the transactions page's filter, totals and dispute form;
- the split-bill form of the payments page;
- the notification list;
- the send-money wizard;
- the dispute management dialog;
- the one-time-password screen of the sign-in page;
- the QR generator's hash, cell pattern and UPI link.

Two kinds of in-place change are modelled as such:

- The calculator's sort of `rule.splits` is visible to its caller. It is a
  stable insertion sort on an `array`.
- Each React component's state is a `class` whose methods update their fields.

The calculator's other updates act on values. Its residual step writes the
amount of a line object and pushes onto a local array. The model rebuilds that
line sequence instead (see "## Left out").

Pure computations are functions, and the properties are lemmas about them.

Behaviour that follows the code rather than a reading of its intent:

- The order amount is the exact sum of `price × qty`; it is not rounded.
- The fees are the processing fee plus the interest, where the interest is the
  only value that is rounded (by its `div`).
- The calculator compares `amountType` with `'FIXED'` and `'PERCENTAGE'`, and
  finds the residual line by `'MERCHANT'` or `'PLATFORM'`. These are upper-case
  literals the schema never admits. A schema-valid target therefore always takes
  the conditional-percentage branch, and a non-zero residual always becomes a new
  `default` line.
- `calculateRefundSplits` fails (big.js throws on division by zero) exactly when
  the original lines are non-empty and sum to zero, whatever the refund amount.
  An empty list gives an empty result.
- Refund shares are not reconciled, so they may not add up to the refund.

## Model

| member | source | states |
|---|---|---|
| Money.Round2HalfUp | lib/split-calculator.ts:5-6 | half-up rounding yields a value with at most two decimals |
| Money.HalfUpIsNearest | lib/split-calculator.ts:6 | half-up rounding moves a value by at most half a cent, and a tie moves away from zero |
| Money.Round2HalfEven | lib/split-calculator.ts:53-54 | half-even rounding yields a value with at most two decimals |
| Money.HalfEvenIsNearest | lib/split-calculator.ts:53-54 | half-even rounding moves a value by at most half a cent, and a tie lands on an even cent |
| Money.Div | lib/split-calculator.ts:5-6 | every `div` quotient has at most two decimals |
| Money.RoundingFixesTwoDecimals | lib/split-calculator.ts:53-57 | both roundings leave a two-decimal value unchanged |
| Money.HalfUpAgreesWithHalfEvenOffTies | lib/split-calculator.ts:53-57 | the two rounding rules differ only on exact cent ties |
| Money.TieExamples | lib/split-calculator.ts:53-57 | 12.345 rounds to 12.35 half-up and 12.34 half-even; -2.345 rounds to -2.35 and -2.34; 0.135 rounds to 0.14 half-even |
| BnplTypes.ValidSplitTarget | types/bnpl.ts:206-217 | `SplitTargetSchema`: an enum type and amount kind, a non-negative value and a non-negative whole `applyOrder` |
| BnplTypes.ValidRuleFields | types/bnpl.ts:219-240 | `SplitRuleSchema` for a given list of splits, including at least one split, each schema-valid |
| BnplTypes.ValidSplitRule | types/bnpl.ts:219-240 | the rule schema applied to the rule's own splits; CalculateSplits keeps it |
| BnplTypes.ValidTargetIsLowerCase | types/bnpl.ts:206-211 | a schema-valid target never has the upper-case type or amount kind the calculator tests for |
| SplitOrdering.SortIsStable | lib/split-calculator.ts:34 | sorting by `applyOrder` gives a sorted permutation that keeps the relative order of equal keys |
| SplitOrdering.ShiftLarger | lib/split-calculator.ts:34 | the insertion step shifts exactly the prefix entries with a larger order one place right |
| SplitOrdering.InsertInPlace | lib/split-calculator.ts:34 | inserting `a[i]` into the sorted prefix equals the specification insertion and leaves the rest alone |
| SplitOrdering.SortInPlace | lib/split-calculator.ts:34 | the in-place sort leaves the array equal to the stable sort of its old contents |
| SplitOrdering.SortByApplyOrder | lib/split-calculator.ts:34 | the stable sort by `applyOrder` as insertion into a sorted list; SortIsStable states that it is ordered, a permutation and stable |
| SplitCalculator.OrderAmount | lib/split-calculator.ts:17-19 | the cart total `Σ price × qty`, unrounded; OrderAmountAppend states its additivity |
| SplitCalculator.BnplFees | lib/split-calculator.ts:22-27 | processing fee plus interest; FeesAddInterest bounds it by the exact formula |
| SplitCalculator.RawAmount | lib/split-calculator.ts:39-50 | the amount-type branch: the value for `FIXED`, a percentage of the net for `PERCENTAGE`, and otherwise 0 below a minimum order or a percentage; SchemaAmountTypesArePercentages and LowerCaseFixedExample state how it treats schema-valid targets |
| SplitCalculator.RoundByRule | lib/split-calculator.ts:53-57 | half-even for `bankers` and half-up otherwise; RoundByRuleBounds states its accuracy |
| SplitCalculator.ComputedLines | lib/split-calculator.ts:33-71 | one line per sorted target; ComputedLineFields gives line i |
| SplitCalculator.Reconcile | lib/split-calculator.ts:73-94 | the residual step as a function; ReconcileSumsToNet and ReconcileChangesOnlyResidualLine state its effect |
| SplitCalculator.Preview | lib/split-calculator.ts:29-101 | the response from the sorted targets; PreviewSumsToNet and PreviewLinesFollowTargets state its properties |
| SplitCalculator.RefundSplits | lib/split-calculator.ts:110-124 | `calculateRefundSplits`, failing on a zero total of a non-empty list; RefundFailsOnlyOnZeroTotal and RefundSplitsShape state both outcomes |
| SplitCalculator.InterestAmount | lib/split-calculator.ts:23-26 | the interest has at most two decimals |
| SplitCalculator.RoundByRuleBounds | lib/split-calculator.ts:53-57 | each rounding rule gives two decimals and moves the amount by at most half a cent |
| SplitCalculator.ComputedLineFields | lib/split-calculator.ts:35-71 | line i is target i's own line: same type and id, payout on the delayed day, pending, and a two-decimal amount |
| SplitCalculator.FindFirstIsFirst | lib/split-calculator.ts:78-81 | `find` returns the first line of the residual type, or nothing when no line has that type |
| SplitCalculator.ReconcileSumsToNet | lib/split-calculator.ts:73-94 | after residual assignment the line amounts sum exactly to the net |
| SplitCalculator.ReconcileChangesOnlyResidualLine | lib/split-calculator.ts:77-93 | a zero residual changes nothing; otherwise the residual goes to the first line of the residual type, or to an appended `default` line dated today |
| SplitCalculator.AssignResidual | lib/split-calculator.ts:73-94 | the imperative residual step equals the reconciliation function |
| SplitCalculator.BuildResponse | lib/split-calculator.ts:29-101 | the response assembled from sorted targets equals the preview function |
| SplitCalculator.CalculateSplits | lib/split-calculator.ts:15-102 | sorts `rule.splits` in place by `applyOrder` (stably), keeps a schema-valid rule valid, and returns the preview of the cart's amount, the plan's fees and the sorted targets |
| SplitCalculator.SortKeepsValidity | lib/split-calculator.ts:34 | sorting keeps every target schema-valid, and with them the whole rule |
| SplitCalculator.RefundShare | lib/split-calculator.ts:115-116 | each refund share has at most two decimals |
| SplitCalculator.RefundLines | lib/split-calculator.ts:114-123 | the refund map yields one line per original line |
| SplitProperties.OrderAmountAppend | lib/split-calculator.ts:17-19 | the order amount of two carts together is the sum of theirs |
| SplitProperties.InterestIsRoundedSimpleInterest | lib/split-calculator.ts:23-26 | the interest is `order × rate × tenor / 1200` to within half a cent, with two decimals |
| SplitProperties.FeesAddInterest | lib/split-calculator.ts:22-27 | the fees are the processing fee (0 when absent) plus the simple interest to within half a cent; they equal the interest when no fee is given, and a whole-cent fee gives whole-cent fees |
| SplitProperties.PreviewSumsToNet | lib/split-calculator.ts:29-101 | the response carries the order amount and fees, the net is their difference, and the lines sum to the net exactly |
| SplitProperties.ReconcileKeepsLines | lib/split-calculator.ts:73-94 | reconciliation changes at most amounts and appends at most one line, the non-zero residual line |
| SplitProperties.PreviewLinesFollowTargets | lib/split-calculator.ts:33-94 | preview line i has the type and id of sorted target i, the payout day and pending; an extra line is the residual type's `default` line dated today |
| SplitProperties.RoundingRuleMattersOnlyForFixed | lib/split-calculator.ts:39-57 | for a non-`FIXED` target both rounding rules give the same line, since `div` has already rounded |
| SplitProperties.FixedTieFollowsRoundingRule | lib/split-calculator.ts:39-57 | a `FIXED` 10.005 becomes 10.01 half-up and 10.00 under `bankers` |
| SplitProperties.SchemaAmountTypesArePercentages | lib/split-calculator.ts:39-49 | a schema-valid target always takes the conditional percentage branch |
| SplitProperties.LowerCaseFixedExample | lib/split-calculator.ts:39-49 | a schema-valid `fixed` 100 takes 100% of the net, or 0 below its minimum order value |
| SplitProperties.SchemaTargetsGetSyntheticResidualLine | lib/split-calculator.ts:73-94 | with schema-valid targets, the computed lines are kept unchanged and a non-zero residual is appended as a new line |
| SplitProperties.SingleMerchantExample | lib/split-calculator.ts:15-102 | a 1999 cart with fee 99 and 100% to MERCHANT gives net 1900 in one line of 1900 |
| SplitProperties.SchemaRuleResidualExample | lib/split-calculator.ts:15-102 | a schema-valid 50% merchant target gets 950 and the other 950 goes to a new MERCHANT `default` line |
| SplitProperties.RefundFailsOnlyOnZeroTotal | lib/split-calculator.ts:110-116 | the refund fails exactly when the original lines are non-empty and sum to zero |
| SplitProperties.RefundLinesAt | lib/split-calculator.ts:114-123 | refund line i is computed from original line i |
| SplitProperties.RefundShareIsRoundedProduct | lib/split-calculator.ts:115-116 | a share is the refund times the rounded proportion, to within half a cent |
| SplitProperties.RefundSplitsShape | lib/split-calculator.ts:110-124 | a refund keeps length, order, types, ids and dates, sets each line pending and gives it its share |
| SplitProperties.RefundProportionalExample | lib/split-calculator.ts:110-124 | lines 60 and 40 with a refund of 50 give 30 and 20 |
| SplitProperties.RefundDriftExample | lib/split-calculator.ts:110-124 | three equal lines and a refund of 100 give 33 each, summing to 99 |
| RefundTypes.ParseStatus | types/refund.ts:4-10 | reading a status name back; StatusNamesRoundTrip states that it inverts the names |
| RefundTypes.ValidRefundRequest | types/refund.ts:83-88 | `RefundSchema`: a positive amount and a non-empty reason; AcceptedAmountIsValid uses it |
| RefundTypes.ValidDisputeRequest | types/refund.ts:90-98 | `DisputeSchema`: a non-empty reason with optional evidence; EvidenceIsOptional states it |
| RefundTypes.StatusNamesRoundTrip | types/refund.ts:4-12 | statuses and their five names correspond one to one |
| RefundTypes.EvidenceIsOptional | types/refund.ts:90-98 | a dispute request is valid iff its reason is non-empty, with or without evidence |
| RefundWizard.RefundPreview | components/ui/refund-wizard.tsx:41-48 | the preview has one line per original line |
| RefundWizard.RefundPreviewAt | components/ui/refund-wizard.tsx:42-47 | preview line i keeps type, id and date, is pending, and scales the original amount by refund / order amount without rounding |
| RefundWizard.FullRefundReproducesAmounts | components/ui/refund-wizard.tsx:42-46 | refunding the whole order reproduces the original amounts |
| RefundWizard.RefundPreviewTotal | components/ui/refund-wizard.tsx:41-48 | the preview's total is the original total scaled by the refund ratio |
| RefundWizard.AcceptedAmountIsValid | components/ui/refund-wizard.tsx:50-54 | an accepted amount implies a positive order amount and meets the refund schema's amount rule; an amount above the order is rejected |
| RefundWizard.NextEnabledIffAccepted | components/ui/refund-wizard.tsx:145-148 | after an amount change, Next is enabled iff the amount was accepted and the order has lines |
| RefundWizard.AcceptsAmount | components/ui/refund-wizard.tsx:51-52 | the amount field's check `!isNaN(amount) && amount > 0 && amount <= orderAmount`; AcceptedAmountIsValid and NextEnabledIffAccepted state its consequences |
| RefundWizard.HasError | components/ui/refund-wizard.tsx:147 | `!!error` as a predicate on the optional message; ErrorTruthiness states which messages count |
| RefundWizard.Wizard.NextEnabled | components/ui/refund-wizard.tsx:147 | the Next button's enabling condition; NextEnabledIffAccepted ties it to the amount check |
| RefundWizard.Wizard.constructor | components/ui/refund-wizard.tsx:29-31 | the wizard starts at the amount step with an empty preview and no error |
| RefundWizard.Wizard.HandleAmountChange | components/ui/refund-wizard.tsx:50-59 | an amount in (0, orderAmount] sets the preview and clears the error; anything else empties the preview and sets 'Invalid refund amount' |
| RefundWizard.Wizard.Next | components/ui/refund-wizard.tsx:145-149 | Next moves to confirm exactly when the preview is non-empty and no non-empty error message is set (`!!error`), and otherwise stays put |
| RefundWizard.Wizard.HandleSubmit | components/ui/refund-wizard.tsx:61-68 | reachable only from the confirm step while no error shows (:205-209); success closes the wizard, and failure sets the error message or 'Failed to process refund' |
| RefundWizard.Wizard.Back | components/ui/refund-wizard.tsx:198-204 | the confirm step's Back returns to the amount step |
| RefundWizard.ErrorTruthiness | components/ui/refund-wizard.tsx:147 | the fallback messages block Next and submit, and a thrown message blocks them iff it is non-empty |
| TextUtil.ToLower | pages/Transactions.tsx:45 | lower-casing keeps the length |
| TextUtil.ToLowerIdempotent | pages/Transactions.tsx:45-47 | lower-casing twice equals lower-casing once and leaves no upper-case ASCII letter |
| TextUtil.ToLowerSlice | pages/Transactions.tsx:45 | lower-casing a piece of a string gives the same piece of the lower-cased string |
| TextUtil.ContainsFacts | pages/Transactions.tsx:45-47 | every string contains the empty string and itself, and no longer string |
| TextUtil.ContainsSlice | pages/Transactions.tsx:45 | a string contains each of its slices |
| TextUtil.Trim | components/ui/dispute-management.tsx:75 | trimming never lengthens a string |
| TextUtil.TrimEmptyIffBlank | components/ui/dispute-management.tsx:75 | a string trims to empty iff every character is white space |
| Transactions.Keep | pages/Transactions.tsx:45-70 | the four filters of one transaction; FilterIsOrderedSelection and KeptTransactionsMatchFilters state how the list uses it |
| Transactions.FilterTransactions | pages/Transactions.tsx:43-74 | the filtered list is never longer than the list |
| Transactions.FilterIsOrderedSelection | pages/Transactions.tsx:43-74 | the filtered list is an order-preserving sublist that holds each transaction passing all four filters as often as the list does, and none that fails |
| Transactions.KeptTransactionsMatchFilters | pages/Transactions.tsx:49-68 | a kept transaction matches the status and type filters unless 'all', and is within 7 or 30 days for 'week' or 'month' |
| Transactions.DefaultFiltersKeepAll | pages/Transactions.tsx:33-74 | an empty search with every filter at 'all' keeps the whole list |
| Transactions.SearchIgnoresTermCase | pages/Transactions.tsx:45-47 | search gives the same answer for a term and its lower-case form |
| Transactions.SearchFindsDescriptionSlices | pages/Transactions.tsx:45 | typing any piece of a transaction's description finds that transaction |
| Transactions.TotalSent | pages/Transactions.tsx:76-78 | the completed sent amounts added up; SingleTransactionTotals and TotalsAppend fix it |
| Transactions.TotalReceived | pages/Transactions.tsx:80-82 | the completed received amounts added up; SingleTransactionTotals and TotalsAppend fix it |
| Transactions.PendingAmount | pages/Transactions.tsx:84-86 | the pending amounts added up; SingleTransactionTotals and TotalsAppend fix it |
| Transactions.TotalsAppend | pages/Transactions.tsx:76-86 | the sent, received and pending totals are additive over concatenation |
| Transactions.TotalsAreDisjointShares | pages/Transactions.tsx:76-86 | for non-negative amounts the three totals are non-negative and together at most the sum of all amounts, and a list of failed transactions counts in none |
| Transactions.SingleTransactionTotals | pages/Transactions.tsx:76-86 | sent and received count only completed transactions of their type; pending counts every pending one |
| Transactions.DisputeForm.constructor | pages/Transactions.tsx:38-41 | the dispute form starts with no selection, empty fields and a closed dialog |
| Transactions.DisputeForm.SubmitDisabled | pages/Transactions.tsx:438 | the submit button is disabled while the reason or description is empty |
| Transactions.DisputeForm.HandleDisputeSubmit | pages/Transactions.tsx:88-106 | a dispute is created iff a transaction is selected and reason and description are non-empty; it is 'open' for that transaction, and the form is then cleared and closed |
| Payments.Total | pages/Payments.tsx:66-67 | the `reduce` of the amounts; RenameKeepsTotal, SetAmountShiftsTotal and CalculateSplitTotal state how it changes and is computed |
| Payments.Without | pages/Payments.tsx:54-58 | removal never lengthens the list |
| Payments.Updated | pages/Payments.tsx:60-64 | a change keeps the number of participants |
| Payments.WithoutKeepsOthers | pages/Payments.tsx:56 | removal keeps the participants with another id, in their order and as often as before, and drops every participant with that id |
| Payments.RemoveNeverEmpties | pages/Payments.tsx:54-58 | with distinct ids, removing from a list of two or more drops at most one and never empties it |
| Payments.UpdatedAt | pages/Payments.tsx:60-64 | a change sets only the named field, and only on participants with that id |
| Payments.RenameKeepsTotal | pages/Payments.tsx:60-73 | renaming leaves the total unchanged |
| Payments.SetAmountShiftsTotal | pages/Payments.tsx:60-73 | an amount change to an absent id keeps the total; for a single matching participant it replaces that amount in the total |
| Payments.SetAmountWithUniqueIds | pages/Payments.tsx:60-73 | with distinct ids, an amount change moves the total by new minus old amount |
| Payments.UnparsableAmountClearsShare | pages/Payments.tsx:60-73 | with distinct ids, an amount box that does not parse (`parseFloat(...) \|\| 0`, line 301) sets that participant's amount to 0 and takes its old amount off the total; a number is stored as typed |
| Payments.FreshFormCannotCreate | pages/Payments.tsx:40-43 | the initial list totals 0, so Create starts disabled, and entering 250 makes the total 250 |
| Payments.SplitBill.constructor | pages/Payments.tsx:40-43 | the form starts with one blank participant with id 1 and total 0 |
| Payments.SplitBill.CalculateSplitTotal | pages/Payments.tsx:66-69 | the reduce loop sets the total to the sum of the amounts |
| Payments.SplitBill.AddParticipant | pages/Payments.tsx:47-52 | add appends one blank participant, keeps the others and keeps the total |
| Payments.SplitBill.RemoveParticipant | pages/Payments.tsx:54-58 | remove is a no-op on a single participant and otherwise filters out the id; the total follows |
| Payments.SplitBill.ParticipantChange | pages/Payments.tsx:60-64 | change maps the update over the matching participants; the total follows |
| Payments.SplitBill.CreateDisabled | pages/Payments.tsx:337 | Create is disabled while the total is 0; FreshFormCannotCreate shows it starts so |
| Notifications.MarkOne | contexts/NotificationContext.tsx:97-101 | `readAt` set on a notification whose reference is the id; MarkReadAt states it per position |
| Notifications.MarkRead | contexts/NotificationContext.tsx:97-101 | marking keeps the number of notifications |
| Notifications.MarkReadAt | contexts/NotificationContext.tsx:97-101 | marking sets `readAt` on exactly the entries whose reference is the id and leaves the others unchanged |
| Notifications.MarkReadNoMatch | contexts/NotificationContext.tsx:97-101 | an id that no entry references leaves the list unchanged |
| Notifications.MarkReadIdempotent | contexts/NotificationContext.tsx:97-101 | marking twice at the same time equals marking once |
| Notifications.MarkReadAfterAdd | contexts/NotificationContext.tsx:80-101 | marking after an add marks the new head and the rest independently |
| Notifications.NotificationStore.constructor | contexts/NotificationContext.tsx:40 | the list starts empty |
| Notifications.NotificationStore.AddNotification | contexts/NotificationContext.tsx:80-81 | add puts the new notification first, before the unchanged old list |
| Notifications.NotificationStore.MarkAsRead | contexts/NotificationContext.tsx:91-105 | a completed request marks the list; a failed one leaves it unchanged |
| Notifications.NotificationStore.ClearAll | contexts/NotificationContext.tsx:107-109 | clear empties the list |
| SendMoney.NextStep | components/ui/send-money-dialog.tsx:37-43 | contact → amount with a contact, amount → confirm with an amount, otherwise stay; NextThenBack states its inverse |
| SendMoney.BackStep | components/ui/send-money-dialog.tsx:45-51 | one screen back, staying on the first; NextThenBack states it undoes NextStep |
| SendMoney.NextThenBack | components/ui/send-money-dialog.tsx:37-51 | Back undoes a Next that moved, Next redoes a Back whose guard holds, and Next stays put exactly at confirm or when its field is empty |
| SendMoney.Dialog.constructor | components/ui/send-money-dialog.tsx:31-35 | the dialog starts at the contact step with empty fields and the wallet method |
| SendMoney.Dialog.SelectContact | components/ui/send-money-dialog.tsx:96 | choosing a contact on the first screen keeps the step invariant |
| SendMoney.Dialog.SetAmount | components/ui/send-money-dialog.tsx:149 | typing an amount on the amount screen keeps the step invariant |
| SendMoney.Dialog.Next | components/ui/send-money-dialog.tsx:37-43 | Next follows the step function, touches no field, and reaches confirm only with a contact and an amount |
| SendMoney.Dialog.Back | components/ui/send-money-dialog.tsx:45-51 | Back moves one screen back and touches no field |
| SendMoney.Dialog.Send | components/ui/send-money-dialog.tsx:53-68 | send closes the dialog and restores every field and the step to the initial values |
| DisputeManagement.StatusColors | components/ui/dispute-management.tsx:31-40 | the badge colours per status; StatusColorsDistinct states they differ |
| DisputeManagement.OfferedActions | components/ui/dispute-management.tsx:148-183 | the status buttons per status; OfferedActionsMoveForward states the table |
| DisputeManagement.StatusColorsDistinct | components/ui/dispute-management.tsx:31-40 | distinct statuses get distinct background and distinct text colours |
| DisputeManagement.OfferedActionsMoveForward | components/ui/dispute-management.tsx:148-183 | open offers investigating and rejected, investigating offers escalated and resolved, the rest offer nothing, and every offer moves forward |
| DisputeManagement.BlankCommentIsNotSent | components/ui/dispute-management.tsx:75 | a draft of only white space trims to empty, and adding visible text makes it non-blank |
| DisputeManagement.DisputeDialog.constructor | components/ui/dispute-management.tsx:53-54 | the dialog starts with no error and an empty draft |
| DisputeManagement.DisputeDialog.HandleSubmit | components/ui/dispute-management.tsx:65-72 | success closes the dialog; failure sets the error message or 'Failed to create dispute' |
| DisputeManagement.DisputeDialog.HandleAddComment | components/ui/dispute-management.tsx:74-84 | a comment is sent iff a dispute exists and the draft is not blank; success clears draft and error, failure keeps the draft and sets the error or 'Failed to add comment' |
| DisputeManagement.DisputeDialog.HandleStatusUpdate | components/ui/dispute-management.tsx:86-95 | without a dispute nothing happens; otherwise the update is sent, success clears the error and failure sets it or 'Failed to update status' |
| Auth.Join | pages/Auth.tsx:55 | `otp.join('')`; JoinLength relates its length to the boxes |
| Auth.VerifyDisabled | pages/Auth.tsx:99 | `otp.some(digit => !digit)`; SubmitSucceedsIffVerifyEnabled ties it to submit |
| Auth.JoinLength | pages/Auth.tsx:54-59 | with single-character boxes the joined code is as long as the box count iff no box is empty |
| Auth.SubmitSucceedsIffVerifyEnabled | pages/Auth.tsx:97-100 | for six single-character boxes, the joined code has length 6 iff the verify button is enabled |
| Auth.AuthPage.constructor | pages/Auth.tsx:22-26 | the page starts at the auth step with six empty boxes |
| Auth.AuthPage.OtpChange | pages/Auth.tsx:40-52 | an input of at most one character replaces only that box; a longer one is ignored; six single-character boxes remain |
| Auth.AuthPage.OtpSubmit | pages/Auth.tsx:54-59 | submit moves to kyc iff the joined code has length 6, which needs every box filled |
| Auth.AuthPage.ContinueWithOtp | pages/Auth.tsx:268-271 | Continue with OTP moves to the code screen |
| Auth.AuthPage.Back | pages/Auth.tsx:66-70 | Back returns to the auth step |
| QrGenerator.ToInt32 | components/ui/qr-generator.tsx:83 | ToInt32 yields a signed 32-bit value |
| QrGenerator.ToInt32Mod | components/ui/qr-generator.tsx:83 | ToInt32 depends only on the value modulo 2^32 and fixes 32-bit values |
| QrGenerator.HashStep | components/ui/qr-generator.tsx:83 | one hash step yields a signed 32-bit value |
| QrGenerator.HashStepIsTimes31 | components/ui/qr-generator.tsx:83 | `((h << 5) - h + code) & 0xffffffff` equals `31h + code` wrapped to 32 bits |
| QrGenerator.CodeUnits | components/ui/qr-generator.tsx:83 | `charCodeAt` sees one or two UTF-16 code units per character |
| QrGenerator.Hash | components/ui/qr-generator.tsx:80-84 | the text hash is a signed 32-bit value |
| QrGenerator.ComputeHash | components/ui/qr-generator.tsx:80-84 | the hash loop computes the fold of the step over the code units |
| QrGenerator.Utf16 | components/ui/qr-generator.tsx:82-83 | the UTF-16 code units `charCodeAt` visits; HashExamples shows a surrogate pair |
| QrGenerator.HashExamples | components/ui/qr-generator.tsx:80-84 | "a" hashes to 97 and "ab" to 3105; an emoji is two code units |
| QrGenerator.GridIs25By25 | components/ui/qr-generator.tsx:54-56 | the grid is 200 / 8 = 25 cells a side, 625 cells |
| QrGenerator.JsRem | components/ui/qr-generator.tsx:88 | JavaScript's truncating `%`; JsRemZeroIffDivides states when it is zero |
| QrGenerator.JsRemZeroIffDivides | components/ui/qr-generator.tsx:88 | a truncating remainder is zero iff the divisor divides, for either sign |
| QrGenerator.GenerateQRPattern | components/ui/qr-generator.tsx:77-92 | the pattern has cells² entries, and cell i is set iff `(hash + i) % 3 === 0` |
| QrGenerator.CellsRepeatEveryThree | components/ui/qr-generator.tsx:87-89 | a cell is set iff hash + i is divisible by 3, so exactly every third cell is set |
| QrGenerator.SetParam | components/ui/qr-generator.tsx:96-104 | `URLSearchParams.set`: replace the first entry of the name and drop the rest, or append; SetParamThenGet and SetParamAppendsNew state it |
| QrGenerator.SetParamThenGet | components/ui/qr-generator.tsx:96-104 | after `set`, the name reads back the new value and other names are unchanged |
| QrGenerator.SetParamAppendsNew | components/ui/qr-generator.tsx:96-104 | setting a name not yet present appends it |
| QrGenerator.UpiParams | components/ui/qr-generator.tsx:95-104 | the five `set` calls in order; UpiParamsShape states the result |
| QrGenerator.UpiParamsShape | components/ui/qr-generator.tsx:94-107 | parameters come in the order pa, pn, [am], cu, [tr], with pn 'DoPayment User' and cu 'INR'; am is present iff the amount is truthy, and tr iff the description is non-empty |
| QrGenerator.SearchParams.Set | components/ui/qr-generator.tsx:96 | `set` updates the parameter list as URLSearchParams does |
| QrGenerator.Serialize | components/ui/qr-generator.tsx:106 | `params.toString()` as `name=value` pairs joined by `&`, without percent-encoding |
| QrGenerator.GenerateUpiUrl | components/ui/qr-generator.tsx:94-107 | the link is `upi://pay?` followed by the serialized parameters |

## Left out

- Parsing: `parseFloat`, `toNumber()` and number-to-string conversion are not modelled. Handlers take the parsed value as an `Option<real>`, where `None` stands for `NaN`. The `am` parameter's text is a parameter too.
- Floating point: every amount is an exact `real`, so binary rounding of JS numbers outside big.js is not modelled.
- Dates and clocks are parameters:
  - the calculator's payout date is `today + payoutDelayDays` as a day number, and non-integer delays are not modelled;
  - the transactions page has `now` in milliseconds and one fixed time-zone offset, so daylight-saving changes between two dates are not modelled;
  - `Date.now()` ids and ISO timestamps are parameters.
- The network, WebSocket, browser `Notification`, clipboard, share, canvas drawing and download are left out. Each awaited callback is an `Outcome` (resolved, or thrown with or without an `Error` message), and the model covers only the state change on each path. `fetch` resolving on an HTTP error status counts as resolved.
- The initial notification load and the WebSocket feed are left out, because they only replace or prepend the list from the network.
- Rendering, focus handling and routing are left out. So are the react-hook-form and zod machinery, beyond the schema predicates.
- TextUtil.ToLower: maps only the ASCII letters, because Unicode case mapping is not modelled.
- The search box's other non-ASCII behaviour is not modelled either: substring search works on Unicode scalar values, not UTF-16 code units.
- Auth.AuthPage.OtpChange: `value.length` is taken as the number of Unicode scalars, not UTF-16 code units. One supplementary-plane character is therefore one character here but two in JavaScript.
- QrGenerator.GenerateUpiUrl: URLSearchParams percent-encoding is not modelled, so values are serialized as they are.
- Payments.SplitBill.ParticipantChange: only the name and amount fields the form edits can be updated, not an arbitrary `[field]` key.
- The send-money dialog's note and payment-method setters are plain assignments and are not modelled separately. Contact selection and amount entry are modelled as available only on their own screens, where the source renders them.
- SplitCalculator.AssignResidual: the write to the found line's `amount` and the `push` of the synthetic line act on an array of line objects in the source, but on a value sequence here, so aliasing of those line objects is not modelled.
- Duplicate interface declarations in `types/bnpl.ts`, and record fields the calculator and schemas never read (ids, timestamps, metadata), are left out.
