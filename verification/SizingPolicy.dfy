/** Sizing as the policy object runs it: early raises, and labels appended to one shared list on the way. */
module SizingPolicy {
  import opened Common
  import opened Sizing

  /** The first of equal labels is kept, as by the keys of a dictionary. */
  method Deduplicate(labels: seq<string>) returns (kept: seq<string>)
    ensures kept == Distinct(labels)
  {
    kept := [];
    for i := 0 to |labels|
      invariant kept == Distinct(labels[..i])
    {
      assert labels[..i + 1][..i] == labels[..i];
      if labels[i] !in kept { kept := kept + [labels[i]]; }
    }
    assert labels[..|labels|] == labels;
  }

  /** The leverage, and the labels that say what held it down. */
  method LeverageOf(i: SizingInput, constraints: seq<string>) returns (leverage: real, constraints': seq<string>)
    ensures leverage == Leverage(i) && constraints' == constraints + LeverageLabels(i)
  {
    constraints' := constraints;
    if i.category == Spot {
      return 1.0, constraints' + ["spot_unleveraged"];
    }
    leverage := i.agentRequestedLeverage;
    if i.mandateMaxLeverage < leverage { leverage := i.mandateMaxLeverage; }
    if i.brokerMaxLeverage < leverage { leverage := i.brokerMaxLeverage; }
    if PLATFORM_MAX_LEVERAGE < leverage { leverage := PLATFORM_MAX_LEVERAGE; }
    assert leverage == Leverage(i);
    if leverage < i.agentRequestedLeverage {
      hide Leverage;
      if i.mandateMaxLeverage == leverage { constraints' := constraints' + ["adaptive_mandate_leverage_cap"]; }
      if i.brokerMaxLeverage == leverage { constraints' := constraints' + ["broker_leverage_cap"]; }
      if leverage == PLATFORM_MAX_LEVERAGE { constraints' := constraints' + ["platform_leverage_cap"]; }
    }
  }

  /** One sizing: the labels of the caps, and the smallest cap. */
  method Caps(i: SizingInput, constraints: seq<string>) returns (budget: real, constraints': seq<string>)
    requires ValidInput(i) && constraints == LeverageLabels(i)
    ensures budget == Budget(i) && constraints' == Labels(i)
  {
    hide ValidInput, LeverageLabels, QuantityByRisk, QuantityByMargin, QuantityByStrategy, QuantityByReserve,
         LossPerUnit;
    LossPositive(i);
    InputPositive(i);
    constraints' := constraints;
    if i.correlatedExposurePct > 0.0 { constraints' := constraints' + ["correlation_budget_reduction"]; }
    var byRisk := QuantityByRisk(i);
    var exposureRatio := Min(i.currentGrossExposure / i.accountEquity, 0.75);
    if exposureRatio > 0.0 { constraints' := constraints' + ["portfolio_exposure_margin_reduction"]; }
    var byMargin := QuantityByMargin(i);
    var byStrategy := QuantityByStrategy(i);
    if byStrategy <= Min(byRisk, byMargin) { constraints' := constraints' + ["strategy_position_cap"]; }
    var byReserve := QuantityByReserve(i);
    budget := Min(Min(byRisk, byMargin), byStrategy);
    if byReserve <= budget {
      constraints' := constraints' + ["reserve_floor_cap"];
      budget := byReserve;
    }
  }

  method SizeOpportunity(i: SizingInput) returns (r: Result<OpportunitySizing, SizingFailure>)
    ensures r == Size(i)
  {
    hide Leverage, LeverageLabels, RiskBudget, CostPerUnit, MarginBudget, RewardToRisk, Budget, Labels, Distinct,
         LossPerUnit, FloorToStep;
    if !ValidInput(i) { return Err(InvalidInput); }
    LossPositive(i);
    LeverageBounds(i);
    hide ValidInput;
    var leverage, constraints := LeverageOf(i, []);
    var riskBudget, costPerUnit, lossPerUnit := RiskBudget(i), CostPerUnit(i), LossPerUnit(i);
    var rewardToRisk := RewardToRisk(i);
    if rewardToRisk < i.minimumRewardToRisk { return Err(RewardToRiskBelowPolicy); }
    var budget;
    InputPositive(i);
    budget, constraints := Caps(i, constraints);
    var quantity := FloorToStep(budget, i.quantityStep);
    if quantity <= 0.0 { return Err(BudgetsCannotFund); }
    var notional := quantity * i.entryPrice;
    if quantity < i.minimumOrderQuantity || notional < i.minimumNotional { return Err(BelowExchangeMinimum); }
    var estimatedCost, estimatedMaxLoss := quantity * costPerUnit, quantity * lossPerUnit;
    var requiredMargin := notional / leverage;
    if estimatedMaxLoss > riskBudget || requiredMargin > MarginBudget(i) { return Err(RoundedOrderExceedsBudget); }
    constraints := Deduplicate(constraints);
    assert quantity == Floored(i) && PaysForRisk(i) && MeetsMinimums(i, quantity) && InsideBudgets(i, quantity);
    var sizing := OpportunitySizing(leverage, quantity, notional, requiredMargin, riskBudget, estimatedMaxLoss,
                                    estimatedCost, rewardToRisk, constraints);
    assert sizing == Sized(i, quantity);
    return Ok(sizing);
  }
}
