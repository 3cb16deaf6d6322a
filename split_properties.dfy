/**
 * What `calculateSplits` and `calculateRefundSplits` promise, stated about the
 * value-level models `Preview` and `RefundSplits`.
 */
module SplitProperties {
  import opened Wrappers
  import opened Money
  import opened BnplTypes
  import opened SplitOrdering
  import opened SplitCalculator

  /** The order amount of two carts put together is the sum of theirs. */
  lemma {:induction false} OrderAmountAppend(a: seq<CartItem>, b: seq<CartItem>)
    ensures OrderAmount(a + b) == OrderAmount(a) + OrderAmount(b)
  {
    if b != [] {
      var n := |b| - 1;
      assert (a + b)[..|a + b| - 1] == a + b[..n];
      OrderAmountAppend(a, b[..n]);
    } else {
      assert a + b == a;
    }
  }

  /**
   * The fee is the processing fee (0 when absent) plus the simple interest
   * `order × rate × tenor / 1200` rounded half-up to two decimals.
   */
  lemma InterestIsRoundedSimpleInterest(order: real, interestRate: real, tenorMonths: real)
    ensures var interest := InterestAmount(order, interestRate, tenorMonths);
      && HasTwoDecimals(interest)
      && Abs(interest - order * interestRate * tenorMonths / 1200.0) <= 0.005
  {
    var owed := order * interestRate * tenorMonths;
    assert InterestAmount(order, interestRate, tenorMonths) == Round2HalfUp(owed / 1200.0);
    HalfUpIsNearest(owed / 1200.0);
  }

  /**
   * The fees are the processing fee (0 when absent) plus the simple interest,
   * to within half a cent; a whole-cent processing fee gives whole-cent fees.
   */
  lemma FeesAddInterest(order: real, plan: SelectedPlan)
    ensures Abs(BnplFees(order, plan) - ProcessingFee(plan)
                - order * plan.interestRate * plan.tenorMonths / 1200.0) <= 0.005
    ensures plan.processingFee.None? ==> BnplFees(order, plan) == InterestAmount(order, plan.interestRate, plan.tenorMonths)
    ensures HasTwoDecimals(ProcessingFee(plan)) ==> HasTwoDecimals(BnplFees(order, plan))
  {
    var interest := InterestAmount(order, plan.interestRate, plan.tenorMonths);
    InterestIsRoundedSimpleInterest(order, plan.interestRate, plan.tenorMonths);
    if HasTwoDecimals(ProcessingFee(plan)) {
      TwoDecimalsAdd(ProcessingFee(plan), interest);
    }
  }

  /** Whole cents add to whole cents. */
  lemma TwoDecimalsAdd(x: real, y: real)
    requires HasTwoDecimals(x) && HasTwoDecimals(y)
    ensures HasTwoDecimals(x + y)
  {
    var n := (x * 100.0).Floor + (y * 100.0).Floor;
    assert (x + y) * 100.0 == n as real;
    FloorIs((x + y) * 100.0, n);
  }

  /**
   * Totals and the sum invariant: the response carries the order amount and the
   * fees, the net is their difference (never clamped, so it may be negative),
   * and the lines sum to the net exactly.
   */
  lemma PreviewSumsToNet(orderAmount: real, bnplFees: real, sorted: seq<SplitTarget>, roundingRule: string,
                         residualPolicy: string, payoutDay: Day, today: Day)
    ensures var p := Preview(orderAmount, bnplFees, sorted, roundingRule, residualPolicy, payoutDay, today);
      && p.orderAmount == orderAmount
      && p.bnplFees == bnplFees
      && p.netToSplit == orderAmount - bnplFees
      && SumAmounts(p.splits) == p.netToSplit
  {
    var net := orderAmount - bnplFees;
    ReconcileSumsToNet(ComputedLines(sorted, roundingRule, orderAmount, net, payoutDay), net, residualPolicy, today);
  }

  /**
   * Reconciliation keeps every computed line except for the amount of at most
   * one of them, and appends at most one line: the synthetic residual line,
   * whose amount is the non-zero residual.
   */
  lemma ReconcileKeepsLines(lines: seq<SplitResult>, net: real, residualPolicy: string, today: Day)
    ensures var r := Reconcile(lines, net, residualPolicy, today);
      && |lines| <= |r| <= |lines| + 1
      && (forall i :: 0 <= i < |lines| ==> r[i] == lines[i].(amount := r[i].amount))
      && (|r| == |lines| + 1 ==>
            && r[|lines|] == ResidualLine(residualPolicy, net - SumAmounts(lines), today)
            && r[|lines|].amount != 0.0)
  {
  }

  /**
   * Line `i` of the preview belongs to the `i`-th sorted target: same type and
   * id, pending, payable on the payout day. A line past the targets is the
   * synthetic residual line, dated today, with a non-zero amount.
   */
  lemma PreviewLinesFollowTargets(orderAmount: real, bnplFees: real, sorted: seq<SplitTarget>, roundingRule: string,
                                  residualPolicy: string, payoutDay: Day, today: Day)
    ensures var r := Preview(orderAmount, bnplFees, sorted, roundingRule, residualPolicy, payoutDay, today).splits;
      && |sorted| <= |r| <= |sorted| + 1
      && (forall i :: 0 <= i < |sorted| ==>
            && r[i].targetType == sorted[i].targetType
            && r[i].targetId == sorted[i].targetId
            && r[i].scheduledPayout == payoutDay
            && r[i].status == "pending")
      && (|r| == |sorted| + 1 ==>
            && r[|sorted|].targetType == ResidualTargetType(residualPolicy)
            && r[|sorted|].targetId == "default"
            && r[|sorted|].scheduledPayout == today
            && r[|sorted|].status == "pending"
            && r[|sorted|].amount != 0.0)
  {
    var net := orderAmount - bnplFees;
    var lines := ComputedLines(sorted, roundingRule, orderAmount, net, payoutDay);
    ReconcileKeepsLines(lines, net, residualPolicy, today);
    forall i | 0 <= i < |sorted|
      ensures lines[i].targetType == sorted[i].targetType && lines[i].targetId == sorted[i].targetId
      ensures lines[i].scheduledPayout == payoutDay && lines[i].status == "pending"
    {
      ComputedLineFields(sorted, roundingRule, orderAmount, net, payoutDay, i);
    }
  }

  /**
   * Only `FIXED` amounts can carry more than two decimals into the rule's
   * rounding: every other amount comes out of a rounding `div` (or is 0), so
   * `bankers` and `halfUp` give the same line.
   */
  lemma RoundingRuleMattersOnlyForFixed(t: SplitTarget, rule1: string, rule2: string, order: real, net: real, payoutDay: Day)
    requires t.amountType != "FIXED"
    ensures ComputeLine(t, rule1, order, net, payoutDay) == ComputeLine(t, rule2, order, net, payoutDay)
  {
    var raw := RawAmount(t, order, net);
    if t.amountType != "PERCENTAGE" && BelowMinOrder(t, order) {
      assert raw == 0.0;
      assert HasTwoDecimals(0.0) by { assert (0.0 * 100.0).Floor == 0; }
    } else {
      assert raw == PercentOf(net, t.value);
    }
    RoundingFixesTwoDecimals(raw);
  }

  /** A `FIXED` value on a cent tie is where the two rules part. */
  lemma FixedTieFollowsRoundingRule(order: real, net: real, payoutDay: Day)
    ensures var t := SplitTarget("MERCHANT", "m1", "FIXED", 10.005, 0.0, None);
      && ComputeLine(t, "halfUp", order, net, payoutDay).amount == 10.01
      && ComputeLine(t, "bankers", order, net, payoutDay).amount == 10.0
  {
    FloorIs(1000.5 + 0.5, 1001);
    FloorIs(1000.5, 1000);
  }

  /**
   * The schema's own amount types, `percentage` and `fixed`, match neither
   * upper-case test, so both take the conditional branch: 0 below a non-zero
   * `minOrderValue`, otherwise `value` percent of the net.
   */
  lemma SchemaAmountTypesArePercentages(t: SplitTarget, order: real, net: real)
    requires ValidSplitTarget(t)
    ensures RawAmount(t, order, net) == (if BelowMinOrder(t, order) then 0.0 else PercentOf(net, t.value))
  {
    ValidTargetIsLowerCase(t);
  }

  /** A schema-valid `fixed` 100 takes the whole net, not 100. */
  lemma LowerCaseFixedExample()
    ensures RawAmount(SplitTarget("merchant", "m1", "fixed", 100.0, 0.0, None), 1999.0, 1900.0) == 1900.0
    ensures RawAmount(SplitTarget("merchant", "m1", "fixed", 100.0, 0.0,
                                  Some(SplitConditions(Some(5000.0), None, None))), 1999.0, 1900.0) == 0.0
  {
    assert PercentOf(1900.0, 100.0) == Round2HalfUp(1900.0);
    assert HasTwoDecimals(1900.0) by { FloorIs(190000.0, 190000); }
    RoundingFixesTwoDecimals(1900.0);
  }

  /**
   * With schema-valid targets no line is ever `MERCHANT` or `PLATFORM`, so a
   * non-zero residual always goes to a new synthetic line and no computed
   * line changes.
   */
  lemma SchemaTargetsGetSyntheticResidualLine(orderAmount: real, bnplFees: real, sorted: seq<SplitTarget>,
                                              roundingRule: string, residualPolicy: string, payoutDay: Day, today: Day)
    requires forall i :: 0 <= i < |sorted| ==> ValidSplitTarget(sorted[i])
    ensures var net := orderAmount - bnplFees;
      var lines := ComputedLines(sorted, roundingRule, orderAmount, net, payoutDay);
      var r := Preview(orderAmount, bnplFees, sorted, roundingRule, residualPolicy, payoutDay, today).splits;
      && (net == SumAmounts(lines) ==> r == lines)
      && (net != SumAmounts(lines) ==> r == lines + [ResidualLine(residualPolicy, net - SumAmounts(lines), today)])
  {
    var net := orderAmount - bnplFees;
    var lines := ComputedLines(sorted, roundingRule, orderAmount, net, payoutDay);
    var ty := ResidualTargetType(residualPolicy);
    FindFirstIsFirst(lines, ty);
    var found := FindFirst(lines, ty);
    if found.Some? {
      var k := found.value;
      ComputedLineFields(sorted, roundingRule, orderAmount, net, payoutDay, k);
      ValidTargetIsLowerCase(sorted[k]);
      assert false;
    }
  }

  /**
   * End to end: a 1999 cart, no interest, a 99 processing fee and one
   * `PERCENTAGE` 100 line to `MERCHANT` give net 1900 on that single line.
   */
  lemma SingleMerchantExample()
    ensures OrderAmount([CartItem("sku-1", "Phone", 1999.0, 1.0, "electronics", None)]) == 1999.0
    ensures BnplFees(1999.0, SelectedPlan(3.0, 0.0, Some(99.0))) == 99.0
    ensures Preview(1999.0, 99.0, [SplitTarget("MERCHANT", "m1", "PERCENTAGE", 100.0, 0.0, None)],
                    "halfUp", "merchant", 102, 100)
            == PreviewResponse(1999.0, 99.0, 1900.0, [SplitResult("MERCHANT", "m1", 1900.0, 102, "pending")])
  {
    var cart := [CartItem("sku-1", "Phone", 1999.0, 1.0, "electronics", None)];
    assert cart[..0] == [];
    assert InterestAmount(1999.0, 0.0, 3.0) == Round2HalfUp(0.0);
    assert HasTwoDecimals(0.0) by { FloorIs(0.0, 0); }
    RoundingFixesTwoDecimals(0.0);
    assert HasTwoDecimals(1900.0) by { FloorIs(190000.0, 190000); }
    RoundingFixesTwoDecimals(1900.0);
    var t := SplitTarget("MERCHANT", "m1", "PERCENTAGE", 100.0, 0.0, None);
    assert RawAmount(t, 1999.0, 1900.0) == Round2HalfUp(1900.0);
    var lines := ComputedLines([t], "halfUp", 1999.0, 1900.0, 102);
    assert lines == [SplitResult("MERCHANT", "m1", 1900.0, 102, "pending")];
    assert SumAmounts(lines) == 1900.0;
  }

  /**
   * The same order under a schema-valid rule (lower-case `merchant`, 50
   * `percentage`): the line gets 950, and the other 950 goes to a new
   * `MERCHANT` line with id `default`, dated today.
   */
  lemma SchemaRuleResidualExample()
    ensures Preview(1999.0, 99.0, [SplitTarget("merchant", "m1", "percentage", 50.0, 0.0, None)],
                    "halfUp", "merchant", 102, 100).splits
            == [SplitResult("merchant", "m1", 950.0, 102, "pending"),
                SplitResult("MERCHANT", "default", 950.0, 100, "pending")]
  {
    assert HasTwoDecimals(950.0) by { FloorIs(95000.0, 95000); }
    RoundingFixesTwoDecimals(950.0);
    var t := SplitTarget("merchant", "m1", "percentage", 50.0, 0.0, None);
    assert RawAmount(t, 1999.0, 1900.0) == Round2HalfUp(950.0);
    var lines := ComputedLines([t], "halfUp", 1999.0, 1900.0, 102);
    assert lines == [SplitResult("merchant", "m1", 950.0, 102, "pending")];
    assert SumAmounts(lines) == 950.0;
    assert FindFirst(lines, "MERCHANT") == None;
  }

  /** `calculateRefundSplits` throws exactly when there are lines and they sum to 0. */
  lemma RefundFailsOnlyOnZeroTotal(originalSplits: seq<SplitResult>, refundAmount: real)
    ensures RefundSplits(originalSplits, refundAmount).Failure?
            <==> originalSplits != [] && SumAmounts(originalSplits) == 0.0
  {
  }

  lemma {:induction false} RefundLinesAt(splits: seq<SplitResult>, total: real, refundAmount: real, i: nat)
    requires total != 0.0 && i < |splits|
    ensures RefundLines(splits, total, refundAmount)[i] == RefundLine(splits[i], total, refundAmount)
  {
    if i > 0 {
      RefundLinesAt(splits[1..], total, refundAmount, i - 1);
    }
  }

  /**
   * The share of one line is the refund times the proportion `amount / total`
   * (itself rounded half-up to two decimals by `div`), rounded half-up: two
   * decimals, at most half a cent from that product.
   */
  lemma RefundShareIsRoundedProduct(amount: real, total: real, refundAmount: real)
    requires total != 0.0
    ensures var share := RefundShare(amount, total, refundAmount);
      && HasTwoDecimals(share)
      && HasTwoDecimals(Div(amount, total))
      && Abs(share - refundAmount * Div(amount, total)) <= 0.005
  {
    HalfUpIsNearest(refundAmount * Div(amount, total));
  }

  /**
   * A refund split keeps the length and order of the original lines; line `i`
   * keeps its type, id and payout date, becomes pending, and takes its share of
   * the refund.
   */
  lemma RefundSplitsShape(originalSplits: seq<SplitResult>, refundAmount: real)
    ensures RefundSplits(originalSplits, refundAmount).Success? ==>
      var r := RefundSplits(originalSplits, refundAmount).value;
      var total := SumAmounts(originalSplits);
      && |r| == |originalSplits|
      && forall i :: 0 <= i < |r| ==>
           && total != 0.0
           && r[i] == originalSplits[i].(amount := RefundShare(originalSplits[i].amount, total, refundAmount),
                                         status := "pending")
  {
    var total := SumAmounts(originalSplits);
    if originalSplits != [] && total != 0.0 {
      forall i | 0 <= i < |originalSplits|
        ensures RefundLines(originalSplits, total, refundAmount)[i]
                == RefundLine(originalSplits[i], total, refundAmount)
      {
        RefundLinesAt(originalSplits, total, refundAmount, i);
      }
    }
  }

  lemma TwoDecimalsFixed(x: real, cents: int)
    requires x * 100.0 == cents as real
    ensures Round2HalfUp(x) == x && Round2HalfEven(x) == x
  {
    FloorIs(x * 100.0, cents);
    RoundingFixesTwoDecimals(x);
  }

  /** 60/40 lines and a refund of 50 split exactly into 30 and 20. */
  lemma RefundProportionalExample()
    ensures RefundSplits([SplitResult("merchant", "m1", 60.0, 7, "completed"),
                          SplitResult("platform", "p1", 40.0, 7, "completed")], 50.0)
            == Success([SplitResult("merchant", "m1", 30.0, 7, "pending"),
                        SplitResult("platform", "p1", 20.0, 7, "pending")])
  {
    var o := [SplitResult("merchant", "m1", 60.0, 7, "completed"), SplitResult("platform", "p1", 40.0, 7, "completed")];
    assert o[..1] == [o[0]] && [o[0]][..0] == [];
    assert SumAmounts(o) == 100.0;
    TwoDecimalsFixed(0.6, 60);
    TwoDecimalsFixed(0.4, 40);
    TwoDecimalsFixed(30.0, 3000);
    TwoDecimalsFixed(20.0, 2000);
    assert RefundShare(60.0, 100.0, 50.0) == 30.0;
    assert RefundShare(40.0, 100.0, 50.0) == 20.0;
    var r := RefundLines(o, 100.0, 50.0);
    RefundLinesAt(o, 100.0, 50.0, 0);
    RefundLinesAt(o, 100.0, 50.0, 1);
    assert r == [SplitResult("merchant", "m1", 30.0, 7, "pending"), SplitResult("platform", "p1", 20.0, 7, "pending")];
  }

  /**
   * No reconciliation: three equal lines and a refund of 100 give 33 each
   * (the proportion 1/3 is first rounded to 0.33), 99 in total.
   */
  lemma RefundDriftExample()
    ensures var r := RefundSplits([SplitResult("merchant", "a", 1.0, 7, "completed"),
                                   SplitResult("merchant", "b", 1.0, 7, "completed"),
                                   SplitResult("merchant", "c", 1.0, 7, "completed")], 100.0);
      && r.Success?
      && |r.value| == 3
      && r.value[0].amount == 33.0 && r.value[1].amount == 33.0 && r.value[2].amount == 33.0
      && SumAmounts(r.value) == 99.0
  {
    var o := [SplitResult("merchant", "a", 1.0, 7, "completed"),
              SplitResult("merchant", "b", 1.0, 7, "completed"),
              SplitResult("merchant", "c", 1.0, 7, "completed")];
    assert o[..2] == [o[0], o[1]] && [o[0], o[1]][..1] == [o[0]] && [o[0]][..0] == [];
    assert SumAmounts([o[0]]) == 1.0;
    assert SumAmounts([o[0], o[1]]) == 2.0;
    assert SumAmounts(o) == 3.0;
    FloorIs(1.0 / 3.0 * 100.0 + 0.5, 33);
    assert Div(1.0, 3.0) == 0.33;
    TwoDecimalsFixed(33.0, 3300);
    assert RefundShare(1.0, 3.0, 100.0) == 33.0;
    var r := RefundLines(o, 3.0, 100.0);
    RefundLinesAt(o, 3.0, 100.0, 0);
    RefundLinesAt(o, 3.0, 100.0, 1);
    RefundLinesAt(o, 3.0, 100.0, 2);
    assert r[..2] == [r[0], r[1]] && [r[0], r[1]][..1] == [r[0]] && [r[0]][..0] == [];
    assert SumAmounts([r[0]]) == 33.0;
    assert SumAmounts([r[0], r[1]]) == 66.0;
  }
}
