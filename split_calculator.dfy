/**
 * The BNPL split calculator: order total, financing fee, net amount, one payout
 * line per split target in `applyOrder` order, and a closing residual step that
 * makes the lines sum exactly to the net amount; plus the proportional refund
 * split.
 *
 * Every `div` rounds half-up to two places (`Div`), because the source sets
 * `Big.DP = 2` and `Big.RM = roundHalfUp` globally. "Today" is a day-number
 * parameter.
 */
module SplitCalculator {
  import opened Wrappers
  import opened Money
  import opened BnplTypes
  import opened SplitOrdering

  datatype CalcError = DivisionByZero

  /** Sum of `price × qty` over the cart, folded from the left with no rounding. */
  function OrderAmount(cart: seq<CartItem>): real {
    if cart == [] then 0.0
    else OrderAmount(cart[..|cart| - 1]) + cart[|cart| - 1].price * cart[|cart| - 1].qty
  }

  /** `processingFee || 0`: an absent (or zero) fee counts as 0. */
  function ProcessingFee(plan: SelectedPlan): real {
    plan.processingFee.GetOr(0.0)
  }

  /** Simple interest `order × rate × tenor / 1200`, the division rounded half-up. */
  function InterestAmount(order: real, interestRate: real, tenorMonths: real): (r: real)
    ensures HasTwoDecimals(r)
  {
    Div(order * interestRate * tenorMonths, 1200.0)
  }

  function BnplFees(order: real, plan: SelectedPlan): real {
    ProcessingFee(plan) + InterestAmount(order, plan.interestRate, plan.tenorMonths)
  }

  /** `minOrderValue` is present, non-zero, and above the order amount. */
  predicate BelowMinOrder(t: SplitTarget, order: real) {
    && t.conditions.Some?
    && t.conditions.value.minOrderValue.Some?
    && t.conditions.value.minOrderValue.value != 0.0
    && order < t.conditions.value.minOrderValue.value
  }

  /** `netToSplit.times(value).div(100)`: `value` percent of the net, rounded by `div`. */
  function PercentOf(net: real, value: real): real {
    Div(net * value, 100.0)
  }

  /** The amount chosen by `amountType`, before the rule's rounding. */
  function RawAmount(t: SplitTarget, order: real, net: real): real {
    if t.amountType == "FIXED" then t.value
    else if t.amountType == "PERCENTAGE" then PercentOf(net, t.value)
    else if BelowMinOrder(t, order) then 0.0
    else PercentOf(net, t.value)
  }

  /** `bankers` rounds half-even; any other rule rounds half-up. */
  function RoundByRule(roundingRule: string, x: real): real {
    if roundingRule == "bankers" then Round2HalfEven(x) else Round2HalfUp(x)
  }

  /** Either rounding leaves two decimals and moves the value by at most half a cent. */
  lemma RoundByRuleBounds(roundingRule: string, x: real)
    ensures HasTwoDecimals(RoundByRule(roundingRule, x))
    ensures Abs(RoundByRule(roundingRule, x) - x) <= 0.005
  {
    HalfUpIsNearest(x);
    HalfEvenIsNearest(x);
  }

  /** The payout line computed for one target. */
  function ComputeLine(t: SplitTarget, roundingRule: string, order: real, net: real, payoutDay: Day): SplitResult {
    SplitResult(t.targetType, t.targetId, RoundByRule(roundingRule, RawAmount(t, order, net)), payoutDay, "pending")
  }

  /** One line per target, in the targets' order (`.map`). */
  function ComputedLines(targets: seq<SplitTarget>, roundingRule: string, order: real, net: real, payoutDay: Day): (r: seq<SplitResult>)
    ensures |r| == |targets|
  {
    if targets == [] then []
    else [ComputeLine(targets[0], roundingRule, order, net, payoutDay)]
         + ComputedLines(targets[1..], roundingRule, order, net, payoutDay)
  }

  /**
   * Each computed line copies its target's type and id, is pending, is scheduled
   * for the payout day, and has an amount with two decimals.
   */
  lemma {:induction false} ComputedLineFields(targets: seq<SplitTarget>, roundingRule: string, order: real, net: real, payoutDay: Day, i: nat)
    requires i < |targets|
    ensures ComputedLines(targets, roundingRule, order, net, payoutDay)[i]
            == ComputeLine(targets[i], roundingRule, order, net, payoutDay)
    ensures var line := ComputedLines(targets, roundingRule, order, net, payoutDay)[i];
      && line.targetType == targets[i].targetType
      && line.targetId == targets[i].targetId
      && line.scheduledPayout == payoutDay
      && line.status == "pending"
      && HasTwoDecimals(line.amount)
  {
    if i > 0 {
      ComputedLineFields(targets[1..], roundingRule, order, net, payoutDay, i - 1);
    } else {
      RoundByRuleBounds(roundingRule, RawAmount(targets[0], order, net));
    }
  }

  /** Sum of the line amounts, folded from the left. */
  function SumAmounts(lines: seq<SplitResult>): real {
    if lines == [] then 0.0 else SumAmounts(lines[..|lines| - 1]) + lines[|lines| - 1].amount
  }

  /** The residual goes to `MERCHANT` under policy `merchant`, otherwise to `PLATFORM`. */
  function ResidualTargetType(residualPolicy: string): string {
    if residualPolicy == "merchant" then "MERCHANT" else "PLATFORM"
  }

  /** Index of the first line of the given type (`splits.find`). */
  function FindFirst(lines: seq<SplitResult>, targetType: string): (r: Option<nat>)
    ensures r.Some? ==> r.value < |lines|
  {
    if lines == [] then None
    else if lines[0].targetType == targetType then Some(0)
    else match FindFirst(lines[1..], targetType)
      case None => None
      case Some(k) => Some(k + 1)
  }

  /** `find` returns the first line of the type, or nothing when no line has it. */
  lemma {:induction false} FindFirstIsFirst(lines: seq<SplitResult>, targetType: string)
    ensures var r := FindFirst(lines, targetType);
      && (r.Some? ==> lines[r.value].targetType == targetType
                      && forall m :: 0 <= m < r.value ==> lines[m].targetType != targetType)
      && (r.None? ==> forall m :: 0 <= m < |lines| ==> lines[m].targetType != targetType)
  {
    if lines != [] && lines[0].targetType != targetType {
      FindFirstIsFirst(lines[1..], targetType);
      var r := FindFirst(lines, targetType);
      if r.Some? {
        forall m | 0 <= m < r.value
          ensures lines[m].targetType != targetType
        {
          if m > 0 { assert lines[m] == lines[1..][m - 1]; }
        }
      } else {
        forall m | 0 <= m < |lines|
          ensures lines[m].targetType != targetType
        {
          if m > 0 { assert lines[m] == lines[1..][m - 1]; }
        }
      }
    }
  }

  /** The synthetic line that takes the residual when no line of the residual type exists. */
  function ResidualLine(residualPolicy: string, residual: real, today: Day): SplitResult {
    SplitResult(ResidualTargetType(residualPolicy), "default", residual, today, "pending")
  }

  lemma {:induction false} SumAppend(lines: seq<SplitResult>, x: SplitResult)
    ensures SumAmounts(lines + [x]) == SumAmounts(lines) + x.amount
  {
    assert (lines + [x])[..|lines|] == lines;
  }

  /** Changing one line's amount by `d` changes the sum by `d`. */
  lemma {:induction false} SumAdjustOne(lines: seq<SplitResult>, k: nat, d: real)
    requires k < |lines|
    ensures SumAmounts(lines[k := lines[k].(amount := lines[k].amount + d)]) == SumAmounts(lines) + d
  {
    var n := |lines| - 1;
    var updated := lines[k := lines[k].(amount := lines[k].amount + d)];
    if k == n {
      assert updated[..n] == lines[..n];
    } else {
      SumAdjustOne(lines[..n], k, d);
      assert updated[..n] == lines[..n][k := lines[k].(amount := lines[k].amount + d)];
    }
  }

  /** Residual reconciliation: the residual goes to one line, existing or appended. */
  function Reconcile(lines: seq<SplitResult>, net: real, residualPolicy: string, today: Day): seq<SplitResult> {
    var residual := net - SumAmounts(lines);
    if residual == 0.0 then lines
    else match FindFirst(lines, ResidualTargetType(residualPolicy))
      case Some(k) => lines[k := lines[k].(amount := lines[k].amount + residual)]
      case None => lines + [ResidualLine(residualPolicy, residual, today)]
  }

  /** Sum invariant: after reconciliation the lines sum to `net` exactly. */
  lemma ReconcileSumsToNet(lines: seq<SplitResult>, net: real, residualPolicy: string, today: Day)
    ensures SumAmounts(Reconcile(lines, net, residualPolicy, today)) == net
  {
    var residual := net - SumAmounts(lines);
    if residual != 0.0 {
      match FindFirst(lines, ResidualTargetType(residualPolicy))
      case Some(k) => SumAdjustOne(lines, k, residual);
      case None => SumAppend(lines, ResidualLine(residualPolicy, residual, today));
    }
  }

  /**
   * What reconciliation changes: nothing when the residual is 0; otherwise only
   * the amount of the first line of the residual type, or, when there is none,
   * one appended line dated today.
   */
  lemma ReconcileChangesOnlyResidualLine(lines: seq<SplitResult>, net: real, residualPolicy: string, today: Day)
    ensures var residual := net - SumAmounts(lines);
      var ty := ResidualTargetType(residualPolicy);
      var r := Reconcile(lines, net, residualPolicy, today);
      && (residual == 0.0 ==> r == lines)
      && (residual != 0.0 && (exists k :: 0 <= k < |lines| && lines[k].targetType == ty) ==>
            exists k :: 0 <= k < |lines| && lines[k].targetType == ty
              && (forall m :: 0 <= m < k ==> lines[m].targetType != ty)
              && |r| == |lines|
              && r[k] == lines[k].(amount := lines[k].amount + residual)
              && (forall m :: 0 <= m < |lines| && m != k ==> r[m] == lines[m]))
      && (residual != 0.0 && (forall k :: 0 <= k < |lines| ==> lines[k].targetType != ty) ==>
            r == lines + [SplitResult(ty, "default", residual, today, "pending")])
  {
    FindFirstIsFirst(lines, ResidualTargetType(residualPolicy));
  }

  /**
   * Sorting keeps every target, so it keeps each target, and the rule as a
   * whole, schema-valid.
   */
  lemma SortKeepsValidity(r: SplitRule, s: seq<SplitTarget>)
    ensures (forall i :: 0 <= i < |s| ==> ValidSplitTarget(s[i])) ==>
      forall i :: 0 <= i < |SortByApplyOrder(s)| ==> ValidSplitTarget(SortByApplyOrder(s)[i])
    ensures ValidRuleFields(r, s) ==> ValidRuleFields(r, SortByApplyOrder(s))
  {
    var sorted := SortByApplyOrder(s);
    SortIsStable(s);
    if forall i :: 0 <= i < |s| ==> ValidSplitTarget(s[i]) {
      forall i | 0 <= i < |sorted|
        ensures ValidSplitTarget(sorted[i])
      {
        assert sorted[i] in multiset(sorted);
        assert sorted[i] in multiset(s);
        var j :| 0 <= j < |s| && s[j] == sorted[i];
      }
    }
  }

  /**
   * The response `calculateSplits` builds once the targets are sorted: the
   * order amount and fees as given, the net as their difference, and one line
   * per target reconciled against the net.
   */
  function Preview(orderAmount: real, bnplFees: real, sorted: seq<SplitTarget>, roundingRule: string,
                   residualPolicy: string, payoutDay: Day, today: Day): PreviewResponse
  {
    var net := orderAmount - bnplFees;
    PreviewResponse(orderAmount, bnplFees, net,
      Reconcile(ComputedLines(sorted, roundingRule, orderAmount, net, payoutDay), net, residualPolicy, today))
  }

  /**
   * The closing step of `calculateSplits`: add a non-zero residual to the first
   * line of the residual type, or push a synthetic line when there is none.
   */
  method AssignResidual(lines: seq<SplitResult>, netToSplit: real, residualPolicy: string, today: Day)
    returns (splits: seq<SplitResult>)
    ensures splits == Reconcile(lines, netToSplit, residualPolicy, today)
  {
    splits := lines;
    var totalSplit := SumAmounts(splits);
    var residual := netToSplit - totalSplit;
    if residual != 0.0 {
      var residualTarget := FindFirst(splits, ResidualTargetType(residualPolicy));
      if residualTarget.Some? {
        var k := residualTarget.value;
        splits := splits[k := splits[k].(amount := splits[k].amount + residual)];
      } else {
        splits := splits + [ResidualLine(residualPolicy, residual, today)];
      }
    }
  }

  /**
   * The part of `calculateSplits` after the sort: map the sorted targets to
   * lines, then assign the residual.
   */
  method BuildResponse(orderAmount: real, bnplFees: real, sorted: seq<SplitTarget>, roundingRule: string,
                       residualPolicy: string, payoutDay: Day, today: Day) returns (resp: PreviewResponse)
    ensures resp == Preview(orderAmount, bnplFees, sorted, roundingRule, residualPolicy, payoutDay, today)
  {
    var netToSplit := orderAmount - bnplFees;
    var splits := ComputedLines(sorted, roundingRule, orderAmount, netToSplit, payoutDay);
    splits := AssignResidual(splits, netToSplit, residualPolicy, today);
    resp := PreviewResponse(orderAmount, bnplFees, netToSplit, splits);
  }

  /**
   * `SplitCalculator.calculateSplits`. Sorts the caller's `rule.splits` in place
   * by `applyOrder` and returns the preview computed from the cart, the plan and
   * the sorted targets, with payouts due `payoutDelayDays` after today.
   */
  method CalculateSplits(request: PreviewRequest, rule: SplitRule, today: Day) returns (resp: PreviewResponse)
    modifies rule.splits
    ensures rule.splits[..] == SortByApplyOrder(old(rule.splits[..]))
    ensures old(ValidSplitRule(rule)) ==> ValidSplitRule(rule)
    ensures resp == Preview(OrderAmount(request.cart), BnplFees(OrderAmount(request.cart), request.selectedPlan),
                            rule.splits[..], rule.roundingRule, rule.residualPolicy,
                            today + rule.settlementPolicy.payoutDelayDays, today)
  {
    var orderAmount := OrderAmount(request.cart);
    var processingFee := ProcessingFee(request.selectedPlan);
    var interestAmount := InterestAmount(orderAmount, request.selectedPlan.interestRate, request.selectedPlan.tenorMonths);
    var bnplFees := processingFee + interestAmount;
    assert bnplFees == BnplFees(orderAmount, request.selectedPlan);

    SortInPlace(rule.splits);
    SortKeepsValidity(rule, old(rule.splits[..]));
    var payoutDate := today + rule.settlementPolicy.payoutDelayDays;
    resp := BuildResponse(orderAmount, bnplFees, rule.splits[..], rule.roundingRule, rule.residualPolicy, payoutDate, today);
  }

  /** `refundBig.times(amount.div(total)).round(2, roundHalfUp)`. */
  function RefundShare(amount: real, total: real, refundAmount: real): (r: real)
    requires total != 0.0
    ensures HasTwoDecimals(r)
  {
    Round2HalfUp(refundAmount * Div(amount, total))
  }

  /** One refund line: the line with its amount replaced by its share, and pending. */
  function RefundLine(split: SplitResult, total: real, refundAmount: real): SplitResult
    requires total != 0.0
  {
    split.(amount := RefundShare(split.amount, total, refundAmount), status := "pending")
  }

  /** The `.map` of `calculateRefundSplits` over the original lines. */
  function RefundLines(splits: seq<SplitResult>, total: real, refundAmount: real): (r: seq<SplitResult>)
    requires total != 0.0
    ensures |r| == |splits|
  {
    if splits == [] then []
    else [RefundLine(splits[0], total, refundAmount)] + RefundLines(splits[1..], total, refundAmount)
  }

  /**
   * `SplitCalculator.calculateRefundSplits`. big.js throws on the first
   * `div` by a zero total, which happens only when there is a line to map.
   */
  function RefundSplits(originalSplits: seq<SplitResult>, refundAmount: real): Result<seq<SplitResult>, CalcError> {
    var total := SumAmounts(originalSplits);
    if originalSplits == [] then Success([])
    else if total == 0.0 then Failure(DivisionByZero)
    else Success(RefundLines(originalSplits, total, refundAmount))
  }
}
