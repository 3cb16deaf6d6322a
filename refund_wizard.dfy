/**
 * The refund wizard: an unrounded proportional preview of the refund, the
 * amount field's validation and the amount → confirm step.
 */
module RefundWizard {
  import opened Wrappers
  import opened BnplTypes
  import opened SplitCalculator
  import opened RefundTypes
  import opened Effects

  /** One preview line: the original share scaled by the refund ratio, pending. */
  function PreviewLine(split: SplitResult, ratio: real): SplitResult {
    split.(amount := split.amount * ratio, status := "pending")
  }

  /**
   * `calculateRefundSplits` of the wizard: every original line scaled by
   * `amount / orderAmount`, with no rounding.
   */
  function RefundPreview(originalSplits: seq<SplitResult>, orderAmount: real, amount: real): (r: seq<SplitResult>)
    requires orderAmount != 0.0
    ensures |r| == |originalSplits|
  {
    if originalSplits == [] then []
    else
      var n := |originalSplits| - 1;
      RefundPreview(originalSplits[..n], orderAmount, amount) + [PreviewLine(originalSplits[n], amount / orderAmount)]
  }

  /** Line `i` of the preview is line `i` of the original, scaled and pending. */
  lemma {:induction false} RefundPreviewAt(originalSplits: seq<SplitResult>, orderAmount: real, amount: real, i: nat)
    requires orderAmount != 0.0
    requires i < |originalSplits|
    ensures var p := RefundPreview(originalSplits, orderAmount, amount)[i];
      && p.targetType == originalSplits[i].targetType
      && p.targetId == originalSplits[i].targetId
      && p.scheduledPayout == originalSplits[i].scheduledPayout
      && p.amount == originalSplits[i].amount * (amount / orderAmount)
      && p.status == "pending"
  {
    var n := |originalSplits| - 1;
    if i < n {
      RefundPreviewAt(originalSplits[..n], orderAmount, amount, i);
    }
  }

  /** Refunding the whole order reproduces the original amounts. */
  lemma FullRefundReproducesAmounts(originalSplits: seq<SplitResult>, orderAmount: real, i: nat)
    requires orderAmount != 0.0
    requires i < |originalSplits|
    ensures RefundPreview(originalSplits, orderAmount, orderAmount)[i] == originalSplits[i].(status := "pending")
  {
    RefundPreviewAt(originalSplits, orderAmount, orderAmount, i);
  }

  /**
   * With no rounding the preview is exactly proportional: its total is the
   * original total scaled by the refund ratio (in contrast with the calculator's
   * rounded refund shares, which may drift).
   */
  lemma {:induction false} RefundPreviewTotal(originalSplits: seq<SplitResult>, orderAmount: real, amount: real)
    requires orderAmount != 0.0
    ensures SumAmounts(RefundPreview(originalSplits, orderAmount, amount)) == SumAmounts(originalSplits) * (amount / orderAmount)
  {
    if originalSplits != [] {
      var n := |originalSplits| - 1;
      var ratio := amount / orderAmount;
      var front := RefundPreview(originalSplits[..n], orderAmount, amount);
      RefundPreviewTotal(originalSplits[..n], orderAmount, amount);
      SumAppend(front, PreviewLine(originalSplits[n], ratio));
      assert SumAmounts(originalSplits) == SumAmounts(originalSplits[..n]) + originalSplits[n].amount;
    }
  }

  /** The amount field accepts a parsed number in (0, orderAmount]; `None` is `NaN`. */
  predicate AcceptsAmount(parsed: Option<real>, orderAmount: real) {
    parsed.Some? && parsed.value > 0.0 && parsed.value <= orderAmount
  }

  /** An accepted amount makes the ratio well defined and meets the schema's amount rule. */
  lemma AcceptedAmountIsValid(parsed: Option<real>, orderAmount: real, reason: string)
    requires AcceptsAmount(parsed, orderAmount)
    ensures orderAmount > 0.0
    ensures |reason| >= 1 ==> ValidRefundRequest(RefundRequest("", parsed.value, reason))
    ensures !AcceptsAmount(Some(orderAmount + 0.01), orderAmount)
  {
  }

  datatype Step = AmountStep | ConfirmStep

  /** `!!error`: a message counts as an error only when it is non-empty. */
  predicate HasError(error: Option<string>) {
    error.Some? && error.value != ""
  }

  const InvalidAmount := "Invalid refund amount"
  const RefundFailed := "Failed to process refund"

  /** The wizard's component state. */
  class Wizard {
    const originalSplits: seq<SplitResult>
    const orderAmount: real
    var step: Step
    var splitPreview: seq<SplitResult>
    var error: Option<string>
    /** Set when the wizard asks its parent to close it. */
    var closeRequested: bool

    constructor (originalSplits: seq<SplitResult>, orderAmount: real)
      ensures this.originalSplits == originalSplits && this.orderAmount == orderAmount
      ensures step == AmountStep && splitPreview == [] && error == None && !closeRequested
    {
      this.originalSplits := originalSplits;
      this.orderAmount := orderAmount;
      step := AmountStep;
      splitPreview := [];
      error := None;
      closeRequested := false;
    }

    /** `handleAmountChange`, given the result of `parseFloat` (`None` for `NaN`). */
    method HandleAmountChange(parsed: Option<real>)
      modifies this`splitPreview, this`error
      ensures AcceptsAmount(parsed, orderAmount) ==>
        orderAmount != 0.0 && splitPreview == RefundPreview(originalSplits, orderAmount, parsed.value) && error == None
      ensures !AcceptsAmount(parsed, orderAmount) ==> splitPreview == [] && error == Some(InvalidAmount)
    {
      if parsed.Some? && parsed.value > 0.0 && parsed.value <= orderAmount {
        splitPreview := RefundPreview(originalSplits, orderAmount, parsed.value);
        error := None;
      } else {
        error := Some(InvalidAmount);
        splitPreview := [];
      }
    }

    /** The Next button is enabled with a non-empty preview and no error. */
    function NextEnabled(): bool
      reads this
    {
      |splitPreview| > 0 && !HasError(error)
    }

    /** The Next button's click: move to the confirm step. */
    method Next()
      modifies this`step
      ensures step == if old(NextEnabled()) then ConfirmStep else old(step)
    {
      if |splitPreview| > 0 && !HasError(error) {
        step := ConfirmStep;
      }
    }

    /** The confirm step's Back button. */
    method Back()
      modifies this`step
      ensures step == AmountStep
    {
      step := AmountStep;
    }

    /**
     * `handleSubmit`, given how the awaited `onSubmit` ended. Its Process Refund
     * button is only on the confirm step and is disabled while an error shows.
     */
    method HandleSubmit(outcome: Outcome)
      requires step == ConfirmStep && !HasError(error)
      modifies this`closeRequested, this`error
      ensures outcome.Done? ==> closeRequested && error == old(error)
      ensures outcome.Threw? ==> closeRequested == old(closeRequested) && error == Some(ErrorText(outcome, RefundFailed))
    {
      match outcome
      case Done => closeRequested := true;
      case Threw(_) => error := Some(ErrorText(outcome, RefundFailed));
    }
  }

  /**
   * The fallback messages block the wizard, but a thrown `Error` with an empty
   * message does not: `!!""` is false.
   */
  lemma ErrorTruthiness(message: string)
    ensures HasError(Some(InvalidAmount)) && HasError(Some(ErrorText(Threw(None), RefundFailed)))
    ensures HasError(Some(ErrorText(Threw(Some(message)), RefundFailed))) <==> message != ""
    ensures !HasError(None)
  {
  }

  /**
   * Only an amount the field accepts can lead to the confirm step: after any
   * amount change, Next is enabled exactly when the amount was accepted and the
   * original order had lines.
   */
  lemma NextEnabledIffAccepted(originalSplits: seq<SplitResult>, orderAmount: real, parsed: Option<real>)
    ensures var accepted := AcceptsAmount(parsed, orderAmount);
      var preview := if accepted then RefundPreview(originalSplits, orderAmount, parsed.value) else [];
      var error: Option<string> := if accepted then None else Some(InvalidAmount);
      (|preview| > 0 && !HasError(error)) <==> (accepted && |originalSplits| > 0)
  {
  }
}
