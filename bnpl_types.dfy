/**
 * The BNPL records and the zod schemas that validate split rules.
 *
 * Enumerated fields that the calculator compares with string literals
 * (`targetType`, `amountType`, `roundingRule`, `residualPolicy`) stay strings, so
 * that values outside the declared unions, and the upper-case literals the
 * calculator tests for, can be represented. JS numbers are `real`; the schemas'
 * `.int()` checks are `IsWhole`.
 */
module BnplTypes {
  import opened Wrappers

  // TargetType constants
  const SHOPKEEPER := "shopkeeper"
  const MERCHANT := "merchant"
  const FRANCHISE := "franchise"
  const SUPPLIER := "supplier"
  const PLATFORM := "platform"
  const TargetTypes: set<string> := {SHOPKEEPER, MERCHANT, FRANCHISE, SUPPLIER, PLATFORM}

  // AmountType constants
  const PERCENTAGE := "percentage"
  const FIXED := "fixed"
  const AmountTypes: set<string> := {PERCENTAGE, FIXED}

  const RuleScopes: set<string> := {"global", "merchant", "franchise", "store"}
  const PayoutModes: set<string> := {"auto", "manual"}
  const RoundingRules: set<string> := {"halfUp", "bankers"}
  const ResidualPolicies: set<string> := {"merchant", "platform"}

  /** Optional restrictions attached to a split target. */
  datatype SplitConditions = SplitConditions(
    minOrderValue: Option<real>,
    category: Option<seq<string>>,
    skuTags: Option<seq<string>>)

  /** One beneficiary's share definition. */
  datatype SplitTarget = SplitTarget(
    targetType: string,
    targetId: string,
    amountType: string,
    value: real,
    applyOrder: real,
    conditions: Option<SplitConditions>)

  datatype HoldRules = HoldRules(minAmount: Option<real>, maxDaysHold: Option<real>)

  datatype SettlementPolicy = SettlementPolicy(
    payoutDelayDays: int,
    payoutMode: string,
    holdRules: Option<HoldRules>)

  /**
   * A split rule. `splits` is a reference to a mutable array, as in the source,
   * where the calculator sorts it in place.
   */
  datatype SplitRule = SplitRule(
    name: string,
    scope: string,
    scopeId: Option<string>,
    priority: real,
    effectiveFrom: string,
    effectiveTo: Option<string>,
    isActive: bool,
    splits: array<SplitTarget>,
    settlementPolicy: SettlementPolicy,
    version: real,
    allowNegative: bool,
    roundingRule: string,
    residualPolicy: string)

  datatype CartItem = CartItem(sku: string, name: string, price: real, qty: real, category: string, tags: Option<seq<string>>)

  /** The plan fields a preview request carries; `processingFee` may be absent. */
  datatype SelectedPlan = SelectedPlan(tenorMonths: real, interestRate: real, processingFee: Option<real>)

  datatype PreviewRequest = PreviewRequest(merchantId: string, storeId: string, cart: seq<CartItem>, selectedPlan: SelectedPlan)

  /** Day numbers stand for the ISO `YYYY-MM-DD` payout dates. */
  type Day = int

  /** One computed payout line. */
  datatype SplitResult = SplitResult(
    targetType: string,
    targetId: string,
    amount: real,
    scheduledPayout: Day,
    status: string)

  datatype PreviewResponse = PreviewResponse(
    orderAmount: real,
    bnplFees: real,
    netToSplit: real,
    splits: seq<SplitResult>)

  predicate IsWhole(x: real) {
    x.Floor as real == x
  }

  /** `SplitTargetSchema`. */
  predicate ValidSplitTarget(t: SplitTarget) {
    && t.targetType in TargetTypes
    && t.amountType in AmountTypes
    && t.value >= 0.0
    && IsWhole(t.applyOrder) && t.applyOrder >= 0.0
  }

  /** `SplitRuleSchema`, for a rule whose splits are `targets`. */
  predicate ValidRuleFields(r: SplitRule, targets: seq<SplitTarget>) {
    && |r.name| >= 1
    && r.scope in RuleScopes
    && IsWhole(r.priority) && r.priority >= 0.0
    && |targets| >= 1
    && (forall i :: 0 <= i < |targets| ==> ValidSplitTarget(targets[i]))
    && r.settlementPolicy.payoutDelayDays >= 0
    && r.settlementPolicy.payoutMode in PayoutModes
    && IsWhole(r.version) && r.version >= 1.0
    && r.roundingRule in RoundingRules
    && r.residualPolicy in ResidualPolicies
  }

  /** `SplitRuleSchema` applied to the rule's current splits. */
  predicate ValidSplitRule(r: SplitRule)
    reads r.splits
  {
    ValidRuleFields(r, r.splits[..])
  }

  /** The schema admits only lower-case target types. */
  lemma ValidTargetIsLowerCase(t: SplitTarget)
    requires ValidSplitTarget(t)
    ensures t.targetType != "MERCHANT" && t.targetType != "PLATFORM"
    ensures t.amountType != "FIXED" && t.amountType != "PERCENTAGE"
  {
  }
}
