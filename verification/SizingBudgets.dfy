/**
 The sizing policy in the fields of its input: what an accepted order loses, ties up and exposes, when an
 opportunity is accepted, and which labels it carries. Money is compared with money, not quantities with
 the quantities the policy derives on its way.
 */
module SizingBudgets {
  import opened Common
  import opened Sizing

  // ----- the input, in its own fields

  /** What one unit loses between entry and stop, and gains between entry and target. */
  function StopGap(i: SizingInput): real {
    if i.side == Buy then i.entryPrice - i.stopLoss else i.stopLoss - i.entryPrice
  }

  function TargetGap(i: SizingInput): real {
    if i.side == Buy then i.takeProfit - i.entryPrice else i.entryPrice - i.takeProfit
  }

  /** What a quantity costs to open and close. */
  function CostOf(i: SizingInput, quantity: real): real {
    quantity * i.entryPrice * i.roundTripCostBps / 10000.0
  }

  function LossBudget(i: SizingInput): real {
    i.accountEquity * i.maxLossPerTradePct * (0.35 + 0.65 * i.agentConfidence) *
    (if i.correlatedExposurePct <= 0.8 then 1.0 - i.correlatedExposurePct else 0.2)
  }

  function MarginCap(i: SizingInput): real
    requires i.accountEquity > 0.0
  {
    i.availableBalance * i.maximumMarginUtilizationPct *
    (1.0 - (if i.currentGrossExposure <= 0.75 * i.accountEquity then i.currentGrossExposure / i.accountEquity
            else 0.75))
  }

  /** The leverage is one on spot, and else the least of what is asked for and the three limits. */
  predicate LeastLeverage(i: SizingInput, leverage: real) {
    if i.category == Spot then leverage == 1.0
    else
      && leverage <= i.agentRequestedLeverage && leverage <= i.mandateMaxLeverage
      && leverage <= i.brokerMaxLeverage && leverage <= 20.0
      && (leverage == i.agentRequestedLeverage || leverage == i.mandateMaxLeverage ||
          leverage == i.brokerMaxLeverage || leverage == 20.0)
  }

  predicate LossFits(i: SizingInput, quantity: real) {
    quantity * StopGap(i) + CostOf(i, quantity) <= LossBudget(i)
  }

  predicate MarginFits(i: SizingInput, leverage: real, quantity: real)
    requires i.accountEquity > 0.0
  {
    quantity * i.entryPrice <= MarginCap(i) * leverage
  }

  predicate StrategyFits(i: SizingInput, quantity: real) {
    quantity * i.entryPrice <= i.accountEquity * i.strategyMaxPositionPct
  }

  predicate ReserveFits(i: SizingInput, quantity: real) {
    i.currentGrossExposure + quantity * i.entryPrice <= i.accountEquity * (1.0 - i.reserveFloorPct)
  }

  /** A quantity inside the risk, margin, strategy and reserve budgets. */
  predicate Fits(i: SizingInput, leverage: real, quantity: real)
    requires i.accountEquity > 0.0
  {
    LossFits(i, quantity) && MarginFits(i, leverage, quantity) && StrategyFits(i, quantity) && ReserveFits(i, quantity)
  }

  /** What the target gains after costs is the required multiple of what the stop loses with costs. */
  predicate Pays(i: SizingInput) {
    TargetGap(i) - CostOf(i, 1.0) >= i.minimumRewardToRisk * (StopGap(i) + CostOf(i, 1.0))
  }

  predicate InRange(i: SizingInput) {
    && 0.0 < i.entryPrice && 0.0 < i.stopLoss && 0.0 < i.takeProfit && 0.0 < i.quantityStep && 0.0 < i.accountEquity
    && 0.0 <= i.availableBalance && 0.0 <= i.currentGrossExposure && 0.0 <= i.minimumOrderQuantity
    && 0.0 <= i.minimumNotional
    && 0.0 < StopGap(i) && 0.0 < TargetGap(i)
    && 0.0 < i.strategyMaxPositionPct <= 1.0 && 0.0 <= i.reserveFloorPct <= 1.0
    && 0.0 <= i.correlatedExposurePct <= 1.0 && 0.0 <= i.agentConfidence <= 1.0
    && 0.0 < i.maxLossPerTradePct <= 0.02 && 0.0 < i.maximumMarginUtilizationPct <= 0.5
    && 1.0 <= i.agentRequestedLeverage <= 20.0 && 1.0 <= i.mandateMaxLeverage <= 20.0
    && 1.0 <= i.brokerMaxLeverage <= 200.0
    && 0.0 <= i.roundTripCostBps <= 1000.0 && 0.0 < i.minimumRewardToRisk <= 10.0
  }

  // ----- the policy speaks of the same money

  lemma InRangeIff(i: SizingInput)
    ensures ValidInput(i) <==> InRange(i)
  {
  }

  lemma GapsAre(i: SizingInput)
    requires InRange(i)
    ensures Abs(i.entryPrice - i.stopLoss) == StopGap(i) && Abs(i.takeProfit - i.entryPrice) == TargetGap(i)
  {
  }

  lemma Regroup(q: real, gap: real, entry: real, bps: real)
    ensures q * (gap + entry * bps / 10000.0) == q * gap + q * entry * bps / 10000.0
    ensures q * (entry * bps / 10000.0) == q * entry * bps / 10000.0
  {
    var whole := entry * bps;
    assert q * entry * bps == q * whole;
    assert q * (whole / 10000.0) == q * whole / 10000.0;
  }

  lemma LossIs(i: SizingInput, quantity: real)
    requires InRange(i)
    ensures LossAt(i, quantity) == quantity * StopGap(i) + CostOf(i, quantity)
    ensures quantity * CostPerUnit(i) == CostOf(i, quantity)
  {
    GapsAre(i);
    Regroup(quantity, StopGap(i), i.entryPrice, i.roundTripCostBps);
    hide InRange, StopGap;
  }

  lemma LossBudgetIs(i: SizingInput)
    requires InRange(i)
    ensures RiskBudget(i) == LossBudget(i)
  {
  }

  lemma MarginCapIs(i: SizingInput)
    requires InRange(i)
    ensures MarginBudget(i) == MarginCap(i)
  {
    AtMostIff(0.75, i.accountEquity, i.currentGrossExposure);
    DivTimes(i.currentGrossExposure, i.accountEquity);
    var ratio := i.currentGrossExposure / i.accountEquity;
    if ratio <= 0.75 { TimesMonotone(ratio, 0.75, i.accountEquity); }
    assert Min(ratio, 0.75) == if i.currentGrossExposure <= 0.75 * i.accountEquity then ratio else 0.75;
  }

  lemma LeverageIs(i: SizingInput, leverage: real)
    ensures LeastLeverage(i, leverage) <==> leverage == Leverage(i)
  {
  }

  lemma LossFitsIff(i: SizingInput, quantity: real)
    requires InRange(i)
    ensures LossFits(i, quantity) <==> LossAt(i, quantity) <= RiskBudget(i)
  {
    LossIs(i, quantity);
    LossBudgetIs(i);
    hide LossAt, StopGap, CostOf, LossBudget, RiskBudget, InRange;
  }

  lemma MarginFitsIff(i: SizingInput, quantity: real)
    requires InRange(i)
    ensures MarginFits(i, Leverage(i), quantity) <==> Notional(i, quantity) <= MarginCeiling(i)
  {
    MarginCapIs(i);
    hide MarginBudget, MarginCap, Leverage, InRange;
  }

  lemma StrategyFitsIff(i: SizingInput, quantity: real)
    ensures StrategyFits(i, quantity) <==> Notional(i, quantity) <= StrategyCeiling(i)
  {
  }

  lemma ReserveFitsIff(i: SizingInput, quantity: real)
    requires InRange(i) && quantity > 0.0
    ensures ReserveFits(i, quantity) <==> Notional(i, quantity) <= ReserveCapacity(i)
  {
    TimesStrict(0.0, quantity, i.entryPrice);
    hide InRange;
  }

  /** The budgets of the policy are the four spelled out, for any quantity that buys something. */
  lemma FitsIff(i: SizingInput, quantity: real)
    requires InRange(i) && quantity > 0.0
    ensures ValidInput(i) && (Affordable(i, quantity) <==> Fits(i, Leverage(i), quantity))
  {
    InRangeIff(i);
    LossFitsIff(i, quantity);
    MarginFitsIff(i, quantity);
    StrategyFitsIff(i, quantity);
    ReserveFitsIff(i, quantity);
    hide LossFits, MarginFits, StrategyFits, ReserveFits, LossAt, RiskBudget, Notional, MarginCeiling, StrategyCeiling,
         ReserveCapacity, Leverage, InRange, ValidInput;
  }

  lemma UnitLoss(i: SizingInput)
    requires InRange(i)
    ensures LossPerUnit(i) == StopGap(i) + CostOf(i, 1.0) && CostPerUnit(i) == CostOf(i, 1.0)
    ensures LossPerUnit(i) > 0.0
  {
    InRangeIff(i);
    LossPositive(i);
    LossIs(i, 1.0);
    assert LossAt(i, 1.0) == LossPerUnit(i) && 1.0 * CostPerUnit(i) == CostPerUnit(i) && 1.0 * StopGap(i) == StopGap(i);
    hide LossPerUnit, StopGap, CostOf, InRange;
  }

  lemma PaysIff(i: SizingInput)
    requires InRange(i)
    ensures ValidInput(i) && (PaysForRisk(i) <==> Pays(i))
    ensures Pays(i) ==> LossPerUnit(i) > 0.0 && RewardToRisk(i) * LossPerUnit(i) == TargetGap(i) - CostOf(i, 1.0)
  {
    InRangeIff(i);
    UnitLoss(i);
    GapsAre(i);
    var gain, loss, least := TargetGap(i) - CostOf(i, 1.0), LossPerUnit(i), i.minimumRewardToRisk;
    assert least > 0.0;
    hide LossPerUnit, CostPerUnit, StopGap, TargetGap, CostOf, InRange, ValidInput;
    assert RewardToRisk(i) == Max(gain, 0.0) / loss;
    AtMostIff(least, loss, Max(gain, 0.0));
    TimesStrict(0.0, least, loss);
    DivTimes(Max(gain, 0.0), loss);
  }

  // ----- the theorems

  predicate StepsFit(i: SizingInput, leverage: real, k: int)
    requires i.accountEquity > 0.0
  {
    Fits(i, leverage, k as real * i.quantityStep)
  }

  /** An order of k steps inside the four budgets and above the minimums of the exchange. */
  predicate OrderFits(i: SizingInput, leverage: real, k: int)
    requires i.accountEquity > 0.0
  {
    && k > 0 && StepsFit(i, leverage, k)
    && k as real * i.quantityStep >= i.minimumOrderQuantity
    && k as real * i.quantityStep * i.entryPrice >= i.minimumNotional
  }

  lemma StepsFitIff(i: SizingInput, k: int)
    requires InRange(i) && k > 0
    ensures ValidInput(i) && (Affordable(i, Steps(i, k)) <==> StepsFit(i, Leverage(i), k))
  {
    TimesStrict(0.0, k as real, i.quantityStep);
    FitsIff(i, Steps(i, k));
    hide InRange, ValidInput, Fits, Affordable, Leverage;
  }

  lemma OrderableIff(i: SizingInput, k: int)
    requires InRange(i)
    ensures ValidInput(i) && (Orderable(i, k) <==> OrderFits(i, Leverage(i), k))
  {
    InRangeIff(i);
    if k > 0 { StepsFitIff(i, k); }
    hide InRange, ValidInput, StepsFit, Affordable, Leverage;
  }

  /**
   An opportunity is accepted if and only if every field is in its range, the reward pays for the risk, and
   some number of steps fits the four budgets and the minimums.
   */
  lemma AcceptedInFieldsIff(i: SizingInput, leverage: real)
    requires LeastLeverage(i, leverage)
    ensures Size(i).Ok? <==> InRange(i) && Pays(i) && exists k: int :: OrderFits(i, leverage, k)
  {
    LeverageIs(i, leverage);
    InRangeIff(i);
    AcceptedIff(i);
    hide Size, ValidInput, PaysForRisk, Orderable, OrderFits, Pays, Leverage, LeastLeverage;
    if InRange(i) {
      PaysIff(i);
      forall k: int ensures Orderable(i, k) <==> OrderFits(i, leverage, k) { OrderableIff(i, k); }
    }
    hide InRange;
  }

  /** The loss of the order is what its quantity loses at the stop, costs included, and within the risk budget. */
  predicate LossReported(i: SizingInput, s: OpportunitySizing) {
    && s.estimatedCost == CostOf(i, s.quantity)
    && s.estimatedMaxLoss == s.quantity * StopGap(i) + s.estimatedCost
    && s.estimatedMaxLoss <= s.riskBudget == LossBudget(i)
  }

  predicate MarginReported(i: SizingInput, s: OpportunitySizing)
    requires i.accountEquity > 0.0
  {
    && LeastLeverage(i, s.leverage)
    && s.notional == s.quantity * i.entryPrice && s.requiredMargin * s.leverage == s.notional
    && s.requiredMargin <= MarginCap(i)
  }

  predicate RewardReported(i: SizingInput, s: OpportunitySizing) {
    && s.rewardToRisk * (StopGap(i) + CostOf(i, 1.0)) == TargetGap(i) - CostOf(i, 1.0)
    && s.rewardToRisk >= i.minimumRewardToRisk
  }

  /**
   An accepted order is a number of steps that fits, it reports its loss, margin and reward as they are, and
   any larger number of steps breaks one of the four budgets.
   */
  lemma AcceptedInFields(i: SizingInput) returns (k: int)
    requires Size(i).Ok?
    ensures InRange(i)
    ensures var s := Size(i).value;
            && LossReported(i, s) && MarginReported(i, s) && RewardReported(i, s)
            && s.quantity == k as real * i.quantityStep && OrderFits(i, s.leverage, k)
            && forall more: int :: more > k ==> !StepsFit(i, s.leverage, more)
  {
    InRangeIff(i);
    k := SizeExact(i);
    hide Size, Affordable, Orderable, PaysForRisk, ValidInput, Leverage, RewardToRisk, StepsFit, OrderFits,
         LossReported, MarginReported, RewardReported, LossAt, MarginAt, Labels, Distinct, RiskBudget, CostPerUnit,
         LossPerUnit, LossBudget, Notional;
    OrderableIff(i, k);
    assert k > 0 && Affordable(i, Steps(i, k)) by { OrderablePositive(i, k); }
    SizedLoss(i, Steps(i, k));
    SizedMargin(i, Steps(i, k));
    SizedReward(i, Steps(i, k));
    forall more: int | more > k ensures !StepsFit(i, Leverage(i), more) { StepsFitIff(i, more); }
    hide InRange, Steps;
  }

  lemma OrderablePositive(i: SizingInput, k: int)
    requires ValidInput(i) && Orderable(i, k)
    ensures k > 0 && Affordable(i, Steps(i, k))
  {
  }

  /** The report of a size, field by field. */
  lemma SizedFields(i: SizingInput, quantity: real)
    requires ValidInput(i)
    ensures LossPerUnit(i) > 0.0
    ensures var s := Sized(i, quantity);
            && s.quantity == quantity && s.leverage == Leverage(i) && s.notional == Notional(i, quantity)
            && s.requiredMargin == MarginAt(i, quantity) && s.riskBudget == RiskBudget(i)
            && s.estimatedMaxLoss == LossAt(i, quantity) && s.estimatedCost == quantity * CostPerUnit(i)
            && s.rewardToRisk == RewardToRisk(i)
  {
    LossPositive(i);
    hide Leverage, Notional, MarginAt, RiskBudget, LossAt, CostPerUnit, RewardToRisk, Labels, Distinct, ValidInput,
         LossPerUnit;
  }

  lemma NotionalIs(i: SizingInput, quantity: real)
    ensures Notional(i, quantity) == quantity * i.entryPrice
  {
  }

  lemma AffordableLoss(i: SizingInput, quantity: real)
    requires ValidInput(i) && Affordable(i, quantity)
    ensures LossAt(i, quantity) <= RiskBudget(i)
  {
    hide LossAt, RiskBudget, Notional, MarginCeiling, StrategyCeiling, ReserveCapacity, ValidInput;
  }

  lemma SizedLoss(i: SizingInput, quantity: real)
    requires ValidInput(i) && Affordable(i, quantity)
    ensures LossReported(i, Sized(i, quantity))
  {
    hide Sized, Affordable, ValidInput, LossAt, StopGap, LossBudget, RiskBudget, InRange, CostPerUnit, CostOf;
    InRangeIff(i);
    SizedFields(i, quantity);
    AffordableLoss(i, quantity);
    LossIs(i, quantity);
    LossBudgetIs(i);
  }

  lemma AffordableMargin(i: SizingInput, quantity: real)
    requires ValidInput(i) && Affordable(i, quantity)
    ensures MarginAt(i, quantity) <= MarginBudget(i) && MarginAt(i, quantity) * Leverage(i) == Notional(i, quantity)
  {
    AffordableInside(i, quantity);
    LeverageBounds(i);
    DivTimes(Notional(i, quantity), Leverage(i));
    hide LossAt, RiskBudget, MarginBudget, Notional, Affordable, Leverage, ValidInput;
  }

  lemma SizedMargin(i: SizingInput, quantity: real)
    requires ValidInput(i) && Affordable(i, quantity)
    ensures i.accountEquity > 0.0 && MarginReported(i, Sized(i, quantity))
  {
    hide Sized, Affordable, ValidInput, MarginAt, MarginBudget, MarginCap, Leverage, LeastLeverage, InRange, Notional;
    InputPositive(i);
    InRangeIff(i);
    SizedFields(i, quantity);
    NotionalIs(i, quantity);
    AffordableMargin(i, quantity);
    MarginCapIs(i);
    LeverageIs(i, Leverage(i));
  }

  lemma SizedReward(i: SizingInput, quantity: real)
    requires ValidInput(i) && PaysForRisk(i)
    ensures RewardReported(i, Sized(i, quantity))
  {
    hide Sized, StopGap, TargetGap, CostOf, InRange, ValidInput, RewardToRisk, LossPerUnit, CostPerUnit, Pays;
    InRangeIff(i);
    PaysIff(i);
    UnitLoss(i);
    SizedFields(i, quantity);
  }

  // ----- the labels

  /** The labels that say which leverage limit held, and that correlation or exposure reduced a budget. */
  predicate Labelled(i: SizingInput, name: string) {
    match name
    case "spot_unleveraged" => i.category == Spot
    case "adaptive_mandate_leverage_cap" =>
      i.category == Linear && i.mandateMaxLeverage < i.agentRequestedLeverage &&
        i.mandateMaxLeverage <= i.brokerMaxLeverage
    case "broker_leverage_cap" =>
      i.category == Linear && i.brokerMaxLeverage < i.agentRequestedLeverage &&
        i.brokerMaxLeverage <= i.mandateMaxLeverage
    case "correlation_budget_reduction" => i.correlatedExposurePct > 0.0
    case "portfolio_exposure_margin_reduction" => i.currentGrossExposure > 0.0
    case _ => false
  }

  lemma LeverageLabelsIff(i: SizingInput, name: string)
    requires InRange(i)
    ensures name in LeverageLabels(i) <==>
            Labelled(i, name) && name != "correlation_budget_reduction" && name != "portfolio_exposure_margin_reduction"
  {
    assert |"correlation_budget_reduction"| == 28 && |"portfolio_exposure_margin_reduction"| == 35;
  }

  /** An accepted order carries a label, other than the two position caps, exactly when it applies. */
  lemma LabelsInFields(i: SizingInput, name: string)
    requires Size(i).Ok? && name != "strategy_position_cap" && name != "reserve_floor_cap"
    ensures name in Size(i).value.constraints <==> Labelled(i, name)
  {
    InRangeIff(i);
    var k := SizeExact(i);
    hide Size, Sized, InRange, ValidInput, LeverageLabels, Labels, Distinct, PaysForRisk, Orderable;
    SizedLabels(i, Steps(i, k));
    DistinctKeeps(Labels(i), name);
    LabelsIff(i, name);
    LeverageLabelsIff(i, name);
  }

  lemma SizedLabels(i: SizingInput, quantity: real)
    requires ValidInput(i)
    ensures Sized(i, quantity).constraints == Distinct(Labels(i))
  {
    LossPositive(i);
    hide ValidInput, Labels, Distinct, RiskBudget, LossAt, MarginAt, CostPerUnit, RewardToRisk, Leverage, LossPerUnit;
  }

  lemma LabelsIff(i: SizingInput, name: string)
    requires ValidInput(i) && name != "strategy_position_cap" && name != "reserve_floor_cap"
    ensures name in Labels(i) <==>
            || name in LeverageLabels(i)
            || (name == "correlation_budget_reduction" && i.correlatedExposurePct > 0.0)
            || (name == "portfolio_exposure_margin_reduction" && i.currentGrossExposure > 0.0)
  {
    LossPositive(i);
    InputPositive(i);
    ExposureIff(i.currentGrossExposure, i.accountEquity);
    hide ValidInput, LeverageLabels, QuantityByRisk, QuantityByMargin, QuantityByStrategy, QuantityByReserve,
         LossPerUnit;
  }

  lemma ExposureIff(gross: real, equity: real)
    requires equity > 0.0
    ensures Min(gross / equity, 0.75) > 0.0 <==> gross > 0.0
  {
    DivTimes(gross, equity);
    if gross > 0.0 { FractionPositive(gross, equity); } else { DivMonotone(gross, 0.0, equity); }
  }

  // ----- advice

  /**
   Whatever is accepted with advice takes no more leverage than the agent asked for, the signal suggested and
   the advice allows, and risks the budget of the confidence the advice leaves.
   */
  lemma AdvisedInFields(base: SizingInput, requested: real, suggested: real, confidence: real, advice: PortfolioAdvice)
    requires Size(Advised(base, requested, suggested, confidence, advice)).Ok?
    ensures var s := Size(Advised(base, requested, suggested, confidence, advice)).value;
            && s.leverage <= requested && s.leverage <= suggested && s.leverage <= advice.leverageCeiling
            && s.riskBudget ==
               base.accountEquity * base.maxLossPerTradePct *
               (0.35 + 0.65 * (confidence * advice.confidenceMultiplier)) *
               (if base.correlatedExposurePct <= 0.8 then 1.0 - base.correlatedExposurePct else 0.2)
  {
    var i := Advised(base, requested, suggested, confidence, advice);
    AdvisedBudget(base, requested, suggested, confidence, advice);
    hide Size, Advised, LossBudget, InRange, OrderFits, StepsFit, RewardReported, MarginCap;
    var k := AcceptedInFields(i);
    AcceptedWithinPolicy(i);
  }

  lemma AdvisedBudget(base: SizingInput, requested: real, suggested: real, confidence: real, advice: PortfolioAdvice)
    ensures var i := Advised(base, requested, suggested, confidence, advice);
            && i.agentRequestedLeverage <= requested && i.agentRequestedLeverage <= suggested
            && i.agentRequestedLeverage <= advice.leverageCeiling
            && LossBudget(i) ==
               base.accountEquity * base.maxLossPerTradePct *
               (0.35 + 0.65 * (confidence * advice.confidenceMultiplier)) *
               (if base.correlatedExposurePct <= 0.8 then 1.0 - base.correlatedExposurePct else 0.2)
  {
  }
}
