/**
 Position sizing: the largest multiple of the quantity step inside four budgets, in exact arithmetic.
 Decimal rounding is left out; truncation to the step is not.
 */
module Sizing {
  import opened Common

  const PLATFORM_MAX_LEVERAGE: real := 20.0

  datatype SizingInput = SizingInput(
    category: Category,
    side: Side,
    entryPrice: real,
    stopLoss: real,
    takeProfit: real,
    accountEquity: real,
    availableBalance: real,
    currentGrossExposure: real,
    correlatedExposurePct: real,
    strategyMaxPositionPct: real,
    reserveFloorPct: real,
    maxLossPerTradePct: real,
    mandateMaxLeverage: real,
    brokerMaxLeverage: real,
    agentRequestedLeverage: real,
    agentConfidence: real,
    quantityStep: real,
    minimumOrderQuantity: real,
    minimumNotional: real,
    roundTripCostBps: real,
    maximumMarginUtilizationPct: real,
    minimumRewardToRisk: real)

  datatype OpportunitySizing = OpportunitySizing(
    leverage: real,
    quantity: real,
    notional: real,
    requiredMargin: real,
    riskBudget: real,
    estimatedMaxLoss: real,
    estimatedCost: real,
    rewardToRisk: real,
    constraints: seq<string>)

  datatype SizingFailure =
    | InvalidInput
    | RewardToRiskBelowPolicy
    | BudgetsCannotFund
    | BelowExchangeMinimum
    | RoundedOrderExceedsBudget

  // ----- input validation

  predicate Directional(side: Side, entry: real, stop: real, target: real) {
    match side
    case Buy => stop < entry < target
    case Sell => target < entry < stop
  }

  predicate ValidInput(i: SizingInput) {
    && i.entryPrice > 0.0 && i.stopLoss > 0.0 && i.takeProfit > 0.0
    && i.accountEquity > 0.0 && i.availableBalance >= 0.0 && i.currentGrossExposure >= 0.0
    && 0.0 <= i.correlatedExposurePct <= 1.0
    && 0.0 < i.strategyMaxPositionPct <= 1.0
    && 0.0 <= i.reserveFloorPct <= 1.0
    && 0.0 < i.maxLossPerTradePct <= 0.02
    && 1.0 <= i.mandateMaxLeverage <= PLATFORM_MAX_LEVERAGE
    && 1.0 <= i.brokerMaxLeverage <= 200.0
    && 1.0 <= i.agentRequestedLeverage <= PLATFORM_MAX_LEVERAGE
    && 0.0 <= i.agentConfidence <= 1.0
    && i.quantityStep > 0.0 && i.minimumOrderQuantity >= 0.0 && i.minimumNotional >= 0.0
    && 0.0 <= i.roundTripCostBps <= 1000.0
    && 0.0 < i.maximumMarginUtilizationPct <= 0.5
    && 0.0 < i.minimumRewardToRisk <= 10.0
    && Directional(i.side, i.entryPrice, i.stopLoss, i.takeProfit)
  }

  // ----- arithmetic

  function Abs(x: real): real {
    if x < 0.0 then -x else x
  }

  function Min(x: real, y: real): real {
    if x <= y then x else y
  }

  function Max(x: real, y: real): real {
    if x >= y then x else y
  }

  /** Rounding toward zero. */
  function Truncate(x: real): int {
    if x >= 0.0 then x.Floor else -((-x).Floor)
  }

  function FloorToStep(value: real, step: real): real
    requires step > 0.0
  {
    Truncate(value / step) as real * step
  }

  // ----- the budgets

  function Leverage(i: SizingInput): real {
    if i.category == Spot then 1.0
    else Min(Min(i.agentRequestedLeverage, i.mandateMaxLeverage), Min(i.brokerMaxLeverage, PLATFORM_MAX_LEVERAGE))
  }

  function LeverageLabels(i: SizingInput): seq<string> {
    if i.category == Spot then ["spot_unleveraged"]
    else if Leverage(i) < i.agentRequestedLeverage then
      (if i.mandateMaxLeverage == Leverage(i) then ["adaptive_mandate_leverage_cap"] else []) +
      (if i.brokerMaxLeverage == Leverage(i) then ["broker_leverage_cap"] else []) +
      (if Leverage(i) == PLATFORM_MAX_LEVERAGE then ["platform_leverage_cap"] else [])
    else []
  }

  function RiskBudget(i: SizingInput): real {
    i.accountEquity * i.maxLossPerTradePct * (0.35 + 0.65 * i.agentConfidence) * Max(0.2, 1.0 - i.correlatedExposurePct)
  }

  function CostPerUnit(i: SizingInput): real {
    i.entryPrice * i.roundTripCostBps / 10000.0
  }

  function LossPerUnit(i: SizingInput): real {
    Abs(i.entryPrice - i.stopLoss) + CostPerUnit(i)
  }

  function RewardToRisk(i: SizingInput): real
    requires LossPerUnit(i) > 0.0
  {
    Max(Abs(i.takeProfit - i.entryPrice) - CostPerUnit(i), 0.0) / LossPerUnit(i)
  }

  function MarginBudget(i: SizingInput): real
    requires i.accountEquity > 0.0
  {
    i.availableBalance * i.maximumMarginUtilizationPct * (1.0 - Min(i.currentGrossExposure / i.accountEquity, 0.75))
  }

  function ReserveCapacity(i: SizingInput): real {
    Max(i.accountEquity * (1.0 - i.reserveFloorPct) - i.currentGrossExposure, 0.0)
  }

  function QuantityByRisk(i: SizingInput): real
    requires LossPerUnit(i) > 0.0
  {
    RiskBudget(i) / LossPerUnit(i)
  }

  function QuantityByMargin(i: SizingInput): real
    requires i.accountEquity > 0.0 && i.entryPrice > 0.0
  {
    MarginBudget(i) * Leverage(i) / i.entryPrice
  }

  function QuantityByStrategy(i: SizingInput): real
    requires i.entryPrice > 0.0
  {
    i.accountEquity * i.strategyMaxPositionPct / i.entryPrice
  }

  function QuantityByReserve(i: SizingInput): real
    requires i.entryPrice > 0.0
  {
    ReserveCapacity(i) / i.entryPrice
  }

  lemma LossPositive(i: SizingInput)
    requires ValidInput(i)
    ensures LossPerUnit(i) > 0.0 && CostPerUnit(i) >= 0.0
  {
    assert i.entryPrice * i.roundTripCostBps >= 0.0;
  }

  function Budget(i: SizingInput): real
    requires ValidInput(i)
  {
    LossPositive(i);
    Min(Min(QuantityByRisk(i), QuantityByMargin(i)), Min(QuantityByStrategy(i), QuantityByReserve(i)))
  }

  /** Keeps the first of equal labels, as the keys of a dictionary do. */
  function Distinct(labels: seq<string>): seq<string> {
    if |labels| == 0 then []
    else
      var kept := Distinct(labels[..|labels| - 1]);
      if labels[|labels| - 1] in kept then kept else kept + [labels[|labels| - 1]]
  }

  function Labels(i: SizingInput): seq<string>
    requires ValidInput(i)
  {
    LossPositive(i);
    LeverageLabels(i) +
    (if i.correlatedExposurePct > 0.0 then ["correlation_budget_reduction"] else []) +
    (if Min(i.currentGrossExposure / i.accountEquity, 0.75) > 0.0 then ["portfolio_exposure_margin_reduction"]
     else []) +
    (if QuantityByStrategy(i) <= Min(QuantityByRisk(i), QuantityByMargin(i)) then ["strategy_position_cap"] else []) +
    (if QuantityByReserve(i) <= Min(Min(QuantityByRisk(i), QuantityByMargin(i)), QuantityByStrategy(i))
     then ["reserve_floor_cap"] else [])
  }

  function Notional(i: SizingInput, quantity: real): real {
    quantity * i.entryPrice
  }

  function LossAt(i: SizingInput, quantity: real): real {
    quantity * LossPerUnit(i)
  }

  function MarginAt(i: SizingInput, quantity: real): real
    requires ValidInput(i)
  {
    Notional(i, quantity) / Leverage(i)
  }

  function Sized(i: SizingInput, quantity: real): OpportunitySizing
    requires ValidInput(i)
  {
    LossPositive(i);
    OpportunitySizing(Leverage(i), quantity, Notional(i, quantity), MarginAt(i, quantity), RiskBudget(i),
                      LossAt(i, quantity), quantity * CostPerUnit(i), RewardToRisk(i), Distinct(Labels(i)))
  }

  predicate PaysForRisk(i: SizingInput)
    requires ValidInput(i)
  {
    LossPositive(i);
    RewardToRisk(i) >= i.minimumRewardToRisk
  }

  /** The quantity before the last checks. */
  function Floored(i: SizingInput): real
    requires ValidInput(i)
  {
    FloorToStep(Budget(i), i.quantityStep)
  }

  predicate MeetsMinimums(i: SizingInput, quantity: real) {
    quantity >= i.minimumOrderQuantity && Notional(i, quantity) >= i.minimumNotional
  }

  predicate InsideBudgets(i: SizingInput, quantity: real)
    requires ValidInput(i)
  {
    LossAt(i, quantity) <= RiskBudget(i) && MarginAt(i, quantity) <= MarginBudget(i)
  }

  function Size(i: SizingInput): Result<OpportunitySizing, SizingFailure> {
    if !ValidInput(i) then Err(InvalidInput)
    else if !PaysForRisk(i) then Err(RewardToRiskBelowPolicy)
    else if Floored(i) <= 0.0 then Err(BudgetsCannotFund)
    else if !MeetsMinimums(i, Floored(i)) then Err(BelowExchangeMinimum)
    else if !InsideBudgets(i, Floored(i)) then Err(RoundedOrderExceedsBudget)
    else Ok(Sized(i, Floored(i)))
  }

  // ----- small facts about real arithmetic

  lemma DivTimes(x: real, y: real)
    requires y > 0.0
    ensures x / y * y == x
  {
  }

  lemma DivNonnegative(x: real, y: real)
    requires x >= 0.0 && y > 0.0
    ensures x / y >= 0.0
  {
  }

  lemma FractionPositive(x: real, y: real)
    requires x > 0.0 && y > 0.0
    ensures x / y > 0.0
  {
  }

  lemma TimesMonotone(x: real, y: real, z: real)
    requires x <= y && z >= 0.0
    ensures x * z <= y * z
  {
  }

  lemma DivMonotone(x: real, y: real, z: real)
    requires x <= y && z > 0.0
    ensures x / z <= y / z
  {
    DivTimes(x, z);
    DivTimes(y, z);
    var small, large := x / z, y / z;
    assert small > large ==> small * z > large * z;
  }

  lemma TimesStrict(x: real, y: real, z: real)
    requires x < y && z > 0.0
    ensures x * z < y * z
  {
  }

  /** A quotient is within a bound exactly when the dividend is within the bound times the divisor. */
  lemma AtMostIff(x: real, y: real, cap: real)
    requires y > 0.0
    ensures x <= cap / y <==> x * y <= cap
  {
    DivTimes(cap, y);
    if x <= cap / y { TimesMonotone(x, cap / y, y); } else { TimesStrict(cap / y, x, y); }
  }

  // ----- flooring to the step

  predicate Multiple(quantity: real, step: real, k: int) {
    quantity == k as real * step
  }

  /** The floored value is the largest multiple of the step that does not exceed the value. */
  lemma FloorIsLargest(value: real, step: real, k: int)
    requires step > 0.0 && value >= 0.0
    ensures 0.0 <= FloorToStep(value, step) <= value
    ensures Multiple(FloorToStep(value, step), step, Truncate(value / step))
    ensures k as real * step <= value <==> k as real * step <= FloorToStep(value, step)
  {
    DivNonnegative(value, step);
    var whole := (value / step).Floor;
    AtMostIff(whole as real, step, value);
    AtMostIff(k as real, step, value);
    TimesMonotone(0.0, whole as real, step);
    if k <= whole { TimesMonotone(k as real, whole as real, step); } else {
      TimesStrict(whole as real, k as real, step);
    }
  }

  // ----- the caps as budgets in money

  function MarginCeiling(i: SizingInput): real
    requires i.accountEquity > 0.0
  {
    MarginBudget(i) * Leverage(i)
  }

  function StrategyCeiling(i: SizingInput): real {
    i.accountEquity * i.strategyMaxPositionPct
  }

  function MandateLoss(i: SizingInput): real {
    i.accountEquity * i.maxLossPerTradePct
  }

  function Steps(i: SizingInput, k: int): real {
    k as real * i.quantityStep
  }

  /** A quantity inside the four budgets, each in its own money. */
  predicate Affordable(i: SizingInput, quantity: real)
    requires ValidInput(i)
  {
    && LossAt(i, quantity) <= RiskBudget(i)
    && Notional(i, quantity) <= MarginCeiling(i)
    && Notional(i, quantity) <= StrategyCeiling(i)
    && Notional(i, quantity) <= ReserveCapacity(i)
  }

  lemma WithinRiskIff(i: SizingInput, quantity: real)
    requires LossPerUnit(i) > 0.0
    ensures quantity <= QuantityByRisk(i) <==> LossAt(i, quantity) <= RiskBudget(i)
  {
    hide LossPerUnit, RiskBudget;
    AtMostIff(quantity, LossPerUnit(i), RiskBudget(i));
  }

  lemma WithinMarginIff(i: SizingInput, quantity: real)
    requires i.accountEquity > 0.0 && i.entryPrice > 0.0
    ensures quantity <= QuantityByMargin(i) <==> Notional(i, quantity) <= MarginCeiling(i)
  {
    hide MarginBudget, Leverage;
    AtMostIff(quantity, i.entryPrice, MarginBudget(i) * Leverage(i));
  }

  lemma WithinCapitalIff(i: SizingInput, quantity: real)
    requires i.entryPrice > 0.0
    ensures quantity <= QuantityByStrategy(i) <==> Notional(i, quantity) <= StrategyCeiling(i)
    ensures quantity <= QuantityByReserve(i) <==> Notional(i, quantity) <= ReserveCapacity(i)
  {
    hide ReserveCapacity;
    AtMostIff(quantity, i.entryPrice, i.accountEquity * i.strategyMaxPositionPct);
    AtMostIff(quantity, i.entryPrice, ReserveCapacity(i));
  }

  lemma InputPositive(i: SizingInput)
    requires ValidInput(i)
    ensures i.accountEquity > 0.0 && i.entryPrice > 0.0 && i.quantityStep > 0.0
  {
  }

  lemma AffordableIff(i: SizingInput, quantity: real)
    requires ValidInput(i)
    ensures Affordable(i, quantity) <==> quantity <= Budget(i)
  {
    hide LossAt, Notional, RiskBudget, MarginCeiling, StrategyCeiling, ReserveCapacity, LossPerUnit, ValidInput,
         QuantityByRisk, QuantityByMargin, QuantityByStrategy, QuantityByReserve;
    LossPositive(i);
    InputPositive(i);
    WithinRiskIff(i, quantity);
    WithinMarginIff(i, quantity);
    WithinCapitalIff(i, quantity);
  }

  lemma LeverageBounds(i: SizingInput)
    requires ValidInput(i)
    ensures 1.0 <= Leverage(i) <= PLATFORM_MAX_LEVERAGE
    ensures Leverage(i) <= i.mandateMaxLeverage && Leverage(i) <= i.brokerMaxLeverage &&
            Leverage(i) <= i.agentRequestedLeverage
    ensures i.category == Spot ==> Leverage(i) == 1.0
  {
  }

  lemma MarginBounds(i: SizingInput)
    requires ValidInput(i)
    ensures 0.0 <= MarginBudget(i) <= i.availableBalance * i.maximumMarginUtilizationPct
  {
    var funds := i.availableBalance * i.maximumMarginUtilizationPct;
    var free := 1.0 - Min(i.currentGrossExposure / i.accountEquity, 0.75);
    DivNonnegative(i.currentGrossExposure, i.accountEquity);
    assert 0.25 <= free <= 1.0;
    TimesMonotone(0.0, i.availableBalance, i.maximumMarginUtilizationPct);
    TimesMonotone(0.0, free, funds);
    TimesMonotone(free, 1.0, funds);
  }

  lemma Shrinks(x: real, factor: real)
    requires x > 0.0 && 0.0 < factor <= 1.0
    ensures 0.0 < x * factor <= x
  {
    TimesStrict(0.0, x, factor);
    TimesMonotone(factor, 1.0, x);
  }

  lemma RiskWithinMandate(i: SizingInput)
    requires ValidInput(i)
    ensures 0.0 < RiskBudget(i) <= MandateLoss(i)
  {
    var mandate, confidence, correlation := MandateLoss(i), 0.35 +
      0.65 * i.agentConfidence, Max(0.2, 1.0 - i.correlatedExposurePct);
    assert RiskBudget(i) == mandate * confidence * correlation;
    assert 0.35 <= confidence <= 1.0 && 0.2 <= correlation <= 1.0;
    Shrinks(i.accountEquity, i.maxLossPerTradePct);
    hide RiskBudget, MandateLoss;
    Shrinks(mandate, confidence);
    var confident := mandate * confidence;
    Shrinks(confident, correlation);
    assert RiskBudget(i) == confident * correlation;
  }

  lemma ZeroAffordable(i: SizingInput)
    requires ValidInput(i)
    ensures Affordable(i, 0.0)
  {
    RiskWithinMandate(i);
    MarginBounds(i);
    LeverageBounds(i);
    TimesMonotone(0.0, MarginBudget(i), Leverage(i));
    TimesMonotone(0.0, i.accountEquity, i.strategyMaxPositionPct);
    hide LossPerUnit, RiskBudget, MarginBudget, Leverage;
    assert LossAt(i, 0.0) == 0.0 && Notional(i, 0.0) == 0.0;
  }

  /** Flooring the budget: the largest affordable number of steps. */
  lemma FlooredIsLargest(i: SizingInput, k: int)
    requires ValidInput(i)
    ensures Floored(i) >= 0.0 && Affordable(i, Floored(i))
    ensures Floored(i) == Steps(i, Truncate(Budget(i) / i.quantityStep))
    ensures Affordable(i, Steps(i, k)) <==> Steps(i, k) <= Floored(i)
  {
    hide Affordable, Budget;
    ZeroAffordable(i);
    AffordableIff(i, 0.0);
    FloorIsLargest(Budget(i), i.quantityStep, k);
    AffordableIff(i, Floored(i));
    AffordableIff(i, Steps(i, k));
  }

  lemma StepsOrder(i: SizingInput, k: int, l: int)
    requires i.quantityStep > 0.0
    ensures Steps(i, k) <= Steps(i, l) <==> k <= l
    ensures Steps(i, 0) == 0.0
  {
    if k <= l { TimesMonotone(k as real, l as real, i.quantityStep); } else {
      TimesStrict(l as real, k as real, i.quantityStep);
    }
  }

  lemma NotionalOrder(i: SizingInput, q: real, r: real)
    requires ValidInput(i) && q <= r
    ensures Notional(i, q) <= Notional(i, r) && LossAt(i, q) <= LossAt(i, r)
    ensures 0.0 < q ==> 0.0 < Notional(i, q)
  {
    hide LossPerUnit, CostPerUnit;
    LossPositive(i);
    TimesMonotone(q, r, i.entryPrice);
    TimesMonotone(q, r, LossPerUnit(i));
    if 0.0 < q { TimesStrict(0.0, q, i.entryPrice); }
  }

  // ----- exactness

  /** The last check of the source never fires: a quantity within the caps is within the budgets. */
  lemma AffordableInside(i: SizingInput, quantity: real)
    requires ValidInput(i) && Affordable(i, quantity)
    ensures InsideBudgets(i, quantity)
  {
    hide LossAt, Notional, StrategyCeiling, ReserveCapacity, RiskBudget, MarginBudget, Leverage;
    LeverageBounds(i);
    DivMonotone(Notional(i, quantity), MarginCeiling(i), Leverage(i));
    TimesDiv(MarginBudget(i), Leverage(i));
  }

  lemma TimesDiv(x: real, y: real)
    requires y > 0.0
    ensures x * y / y == x
  {
    var quotient := x * y / y;
    DivTimes(x * y, y);
    assert quotient < x ==> quotient * y < x * y;
    assert x < quotient ==> x * y < quotient * y;
  }

  lemma NeverOverBudget(i: SizingInput)
    ensures Size(i) != Err(RoundedOrderExceedsBudget)
  {
    hide ValidInput, PaysForRisk, Floored, MeetsMinimums, Affordable, InsideBudgets, Sized;
    if ValidInput(i) {
      FlooredIsLargest(i, 0);
      AffordableInside(i, Floored(i));
    }
  }

  /** An order of k steps is inside every budget and above the exchange minimums. */
  predicate Orderable(i: SizingInput, k: int)
    requires ValidInput(i)
  {
    k > 0 && Affordable(i, Steps(i, k)) && MeetsMinimums(i, Steps(i, k))
  }

  /** The size is exact: it is an orderable number of steps, and no larger number of steps is affordable. */
  lemma SizeExact(i: SizingInput) returns (k: int)
    requires Size(i).Ok?
    ensures ValidInput(i) && PaysForRisk(i) && Size(i).value == Sized(i, Steps(i, k))
    ensures Orderable(i, k)
    ensures forall more: int :: Affordable(i, Steps(i, more)) ==> more <= k
  {
    hide PaysForRisk, MeetsMinimums, Affordable, InsideBudgets, Sized, Floored, Budget, Truncate;
    k := Truncate(Budget(i) / i.quantityStep);
    FlooredIsLargest(i, k);
    StepsOrder(i, k, 0);
    forall more: int | Affordable(i, Steps(i, more)) ensures more <= k {
      FlooredIsLargest(i, more);
      StepsOrder(i, more, k);
    }
    hide Steps, ValidInput;
  }

  /**
   An opportunity is accepted if and only if its input is valid, its reward pays for its risk, and some
   number of steps can be ordered.
   */
  lemma AcceptedIff(i: SizingInput)
    ensures Size(i).Ok? <==> ValidInput(i) && PaysForRisk(i) && exists k: int :: Orderable(i, k)
  {
    hide PaysForRisk, MeetsMinimums, Affordable, InsideBudgets, Sized, Floored, ValidInput, Steps;
    if Size(i).Ok? {
      var k := SizeExact(i);
      assert Orderable(i, k);
    }
    if ValidInput(i) && PaysForRisk(i) && exists k: int :: Orderable(i, k) {
      var k: int :| Orderable(i, k);
      LargestMeets(i, k);
      NeverOverBudget(i);
    }
  }

  lemma LargestMeets(i: SizingInput, k: int)
    requires ValidInput(i) && Orderable(i, k)
    ensures Floored(i) > 0.0 && MeetsMinimums(i, Floored(i))
  {
    FlooredIsLargest(i, k);
    StepsOrder(i, k, 0);
    NotionalOrder(i, Steps(i, k), Floored(i));
    hide Affordable, Floored, Steps, Notional, LossAt;
  }

  // ----- what an accepted size promises

  ghost predicate WithinPolicy(i: SizingInput, s: OpportunitySizing) {
    && 1.0 <= s.leverage <= i.agentRequestedLeverage
    && s.leverage <= i.mandateMaxLeverage && s.leverage <= i.brokerMaxLeverage
    && (i.category == Spot ==> s.leverage == 1.0)
    && s.quantity > 0.0 && s.notional > 0.0 && s.notional == s.quantity * i.entryPrice
    && s.estimatedMaxLoss <= s.riskBudget <= i.accountEquity * i.maxLossPerTradePct
    && s.requiredMargin <= i.availableBalance * i.maximumMarginUtilizationPct
    && s.notional <= i.accountEquity * i.strategyMaxPositionPct
    && i.currentGrossExposure + s.notional <= i.accountEquity * (1.0 - i.reserveFloorPct)
  }

  lemma AcceptedWithinPolicy(i: SizingInput)
    requires Size(i).Ok?
    ensures WithinPolicy(i, Size(i).value)
  {
    hide Size, PaysForRisk, LossPerUnit, RiskBudget, MarginBudget, RewardToRisk, Labels, Distinct, Leverage,
         MeetsMinimums;
    var k := SizeExact(i);
    var quantity := Steps(i, k);
    StepsOrder(i, k, 0);
    LeverageBounds(i);
    RiskWithinMandate(i);
    MarginBounds(i);
    AffordableInside(i, quantity);
    NotionalOrder(i, quantity, quantity);
    hide LossAt, MarginAt, MarginCeiling, Steps, ValidInput;
  }

  /** The checks a proposal and its submission repeat on the same equity and limits. */
  ghost predicate LaterChecksPass(i: SizingInput, s: OpportunitySizing) {
    && s.leverage <= i.mandateMaxLeverage
    && s.leverage <= i.brokerMaxLeverage
    && s.estimatedMaxLoss <= i.accountEquity * i.maxLossPerTradePct
    && s.leverage > 0.0 && Abs(s.quantity * i.entryPrice / s.leverage - s.requiredMargin) <= 0.01
  }

  lemma AcceptedPassesLater(i: SizingInput)
    requires Size(i).Ok?
    ensures LaterChecksPass(i, Size(i).value)
  {
    hide Size, PaysForRisk, LossPerUnit, RiskBudget, CostPerUnit, RewardToRisk, Labels, Distinct, Leverage,
         Orderable, ValidInput, Steps;
    var k := SizeExact(i);
    AcceptedWithinPolicy(i);
  }

  // ----- what binds is named

  /** The reserve label stands exactly when the reserve is the smallest cap; without both labels risk or margin is. */
  lemma CapsNamed(i: SizingInput)
    requires Size(i).Ok?
    ensures ValidInput(i) && LossPerUnit(i) > 0.0
    ensures "reserve_floor_cap" in Size(i).value.constraints <==> QuantityByReserve(i) == Budget(i)
    ensures "strategy_position_cap" !in Size(i).value.constraints &&
            "reserve_floor_cap" !in Size(i).value.constraints ==>
            Budget(i) == Min(QuantityByRisk(i), QuantityByMargin(i))
    ensures forall j, l :: 0 <= j < l < |Size(i).value.constraints| ==>
              Size(i).value.constraints[j] != Size(i).value.constraints[l]
  {
    hide ValidInput, QuantityByReserve, QuantityByStrategy, QuantityByRisk, QuantityByMargin, Labels, Distinct,
         LossPerUnit, Floored, RiskBudget, MarginBudget, RewardToRisk, Leverage, PaysForRisk, MeetsMinimums,
         InsideBudgets, Notional, LossAt, MarginAt;
    LossPositive(i);
    DistinctKeeps(Labels(i), "reserve_floor_cap");
    DistinctKeeps(Labels(i), "strategy_position_cap");
    DistinctOnce(Labels(i));
    CapLabels(i);
  }

  lemma CapLabels(i: SizingInput)
    requires ValidInput(i) && LossPerUnit(i) > 0.0
    ensures "reserve_floor_cap" in Labels(i) <==>
            QuantityByReserve(i) <= Min(Min(QuantityByRisk(i), QuantityByMargin(i)), QuantityByStrategy(i))
    ensures "strategy_position_cap" in Labels(i) <==>
            QuantityByStrategy(i) <= Min(QuantityByRisk(i), QuantityByMargin(i))
  {
    hide ValidInput, QuantityByReserve, QuantityByStrategy, QuantityByRisk, QuantityByMargin, LossPerUnit,
         LeverageLabels;
    var strategy, reserve := "strategy_position_cap", "reserve_floor_cap";
    OtherLabels(i);
    assert "correlation_budget_reduction"[0] == 'c' && "portfolio_exposure_margin_reduction"[0] == 'p';
    assert strategy[0] == 's' && reserve[0] == 'r';
  }

  lemma OtherLabels(i: SizingInput)
    ensures forall name :: name in LeverageLabels(i) ==>
              |name| > 1 && name[0] != 'r' && (name[0] == 's' ==> name[1] == 'p')
  {
    assert "spot_unleveraged"[1] == 'p';
    assert "adaptive_mandate_leverage_cap"[0] == 'a' && "broker_leverage_cap"[0] == 'b' &&
           "platform_leverage_cap"[0] == 'p';
    hide Leverage;
  }

  lemma {:induction false} DistinctKeeps(labels: seq<string>, name: string)
    ensures name in Distinct(labels) <==> name in labels
  {
    if |labels| == 0 {
    } else {
      DistinctKeeps(labels[..|labels| - 1], name);
      assert labels == labels[..|labels| - 1] + [labels[|labels| - 1]];
    }
  }

  lemma {:induction false} DistinctOnce(labels: seq<string>)
    ensures forall j, l :: 0 <= j < l < |Distinct(labels)| ==> Distinct(labels)[j] != Distinct(labels)[l]
  {
    if |labels| == 0 {
    } else {
      DistinctOnce(labels[..|labels| - 1]);
    }
  }

  // ----- advice

  /** Portfolio advice on an opportunity, from a model: any ceiling and any multiplier in range. */
  datatype PortfolioAdvice = PortfolioAdvice(leverageCeiling: real, confidenceMultiplier: real)

  const NeutralAdvice := PortfolioAdvice(20.0, 1.0)

  predicate ValidAdvice(advice: PortfolioAdvice) {
    1.0 <= advice.leverageCeiling <= 20.0 && 0.0 <= advice.confidenceMultiplier <= 1.0
  }

  /** How a decision, a signal and advice enter sizing. */
  function Advised(base: SizingInput, requested: real, suggested: real, confidence: real,
                   advice: PortfolioAdvice): SizingInput {
    base.(agentRequestedLeverage := Min(Min(requested, suggested), advice.leverageCeiling),
          agentConfidence := confidence * advice.confidenceMultiplier)
  }

  /** The same opportunity, asked for with no more leverage and no more confidence. */
  predicate MoreCautious(i: SizingInput, j: SizingInput) {
    && j == i.(agentRequestedLeverage := j.agentRequestedLeverage, agentConfidence := j.agentConfidence)
    && i.agentRequestedLeverage <= j.agentRequestedLeverage && i.agentConfidence <= j.agentConfidence
  }

  lemma CautionAffords(i: SizingInput, j: SizingInput, quantity: real)
    requires ValidInput(i) && ValidInput(j) && MoreCautious(i, j)
    ensures Affordable(i, quantity) ==> Affordable(j, quantity)
    ensures Leverage(i) <= Leverage(j)
  {
    CautionLevers(i, j);
    CautionRisks(i, j);
    CautionSames(i, j, quantity);
    hide LossAt, Notional, RiskBudget, MarginCeiling, StrategyCeiling, ReserveCapacity, ValidInput, MoreCautious,
         Leverage;
  }

  lemma CautionLevers(i: SizingInput, j: SizingInput)
    requires ValidInput(i) && ValidInput(j) && MoreCautious(i, j)
    ensures Leverage(i) <= Leverage(j) && MarginCeiling(i) <= MarginCeiling(j)
  {
    MarginBounds(i);
    assert MarginBudget(i) == MarginBudget(j);
    assert Leverage(i) <= Leverage(j);
    TimesMonotone(Leverage(i), Leverage(j), MarginBudget(i));
    hide MarginBudget, Leverage;
  }

  /** What advice does not enter. */
  lemma CautionSames(i: SizingInput, j: SizingInput, quantity: real)
    requires MoreCautious(i, j)
    ensures StrategyCeiling(i) == StrategyCeiling(j) && ReserveCapacity(i) == ReserveCapacity(j)
    ensures Notional(i, quantity) == Notional(j, quantity) && LossAt(i, quantity) == LossAt(j, quantity)
    ensures MeetsMinimums(i, quantity) <==> MeetsMinimums(j, quantity)
    ensures ValidInput(i) && ValidInput(j) ==> (PaysForRisk(i) <==> PaysForRisk(j))
  {
    if ValidInput(i) { LossPositive(i); }
    assert LossPerUnit(i) == LossPerUnit(j);
    hide ValidInput;
  }

  lemma CautionRisks(i: SizingInput, j: SizingInput)
    requires ValidInput(i) && ValidInput(j) && MoreCautious(i, j)
    ensures RiskBudget(i) <= RiskBudget(j)
  {
    var mandate, correlation := i.accountEquity * i.maxLossPerTradePct, Max(0.2, 1.0 - i.correlatedExposurePct);
    TimesStrict(0.0, i.accountEquity, i.maxLossPerTradePct);
    TimesMonotone(0.35 + 0.65 * i.agentConfidence, 0.35 + 0.65 * j.agentConfidence, mandate);
    TimesMonotone(mandate * (0.35 + 0.65 * i.agentConfidence), mandate * (0.35 + 0.65 * j.agentConfidence),
                  correlation);
  }

  predicate NoLarger(s: OpportunitySizing, t: OpportunitySizing) {
    s.quantity <= t.quantity && s.notional <= t.notional && s.leverage <= t.leverage &&
      s.estimatedMaxLoss <= t.estimatedMaxLoss
  }

  /** Caution only reduces: what it accepts is accepted without it, with no smaller size, leverage or loss. */
  lemma CautionReduces(i: SizingInput, j: SizingInput)
    requires ValidInput(j) && MoreCautious(i, j) && Size(i).Ok?
    ensures Size(j).Ok? && NoLarger(Size(i).value, Size(j).value)
  {
    hide Size, PaysForRisk, MeetsMinimums, Affordable, Labels, Distinct, ValidInput, Steps, Leverage, RiskBudget,
         RewardToRisk, Notional, LossAt, MarginAt, MoreCautious, LossPerUnit, CostPerUnit;
    var k := SizeExact(i);
    CautionAffords(i, j, Steps(i, k));
    SameSteps(i, j, k);
    CautionSames(i, j, Steps(i, k));
    AcceptedIff(j);
    assert Orderable(j, k);
    var more := SizeExact(j);
    assert k <= more;
    StepsUp(j, k, more);
  }

  lemma SameSteps(i: SizingInput, j: SizingInput, k: int)
    requires MoreCautious(i, j)
    ensures Steps(i, k) == Steps(j, k)
  {
  }

  lemma StepsUp(i: SizingInput, k: int, more: int)
    requires ValidInput(i) && k <= more
    ensures Steps(i, k) <= Steps(i, more)
    ensures Notional(i, Steps(i, k)) <= Notional(i, Steps(i, more)) &&
            LossAt(i, Steps(i, k)) <= LossAt(i, Steps(i, more))
  {
    hide Notional, LossAt;
    StepsOrder(i, k, more);
    NotionalOrder(i, Steps(i, k), Steps(i, more));
  }

  lemma AdviceIsCautious(base: SizingInput, requested: real, suggested: real, confidence: real, advice: PortfolioAdvice)
    requires ValidAdvice(advice) && 1.0 <= requested <= 20.0 && 1.0 <= suggested <= 20.0 && 0.0 <= confidence <= 1.0
    ensures var asked, without := Advised(base, requested, suggested, confidence, advice),
                                  Advised(base, requested, suggested, confidence, NeutralAdvice);
            MoreCautious(asked, without) && (ValidInput(asked) ==> ValidInput(without))
  {
    Scales(confidence, advice.confidenceMultiplier);
    var wish := Min(requested, suggested);
    CautiousUpdate(base, Min(wish, advice.leverageCeiling), confidence * advice.confidenceMultiplier, Min(wish, 20.0),
                   confidence);
    assert Advised(base, requested, suggested, confidence, NeutralAdvice) ==
           base.(agentRequestedLeverage := Min(wish, 20.0),
                 agentConfidence := confidence) by { Scales(confidence, 1.0); }
    hide ValidInput, MoreCautious;
  }

  lemma Scales(x: real, factor: real)
    requires x >= 0.0 && 0.0 <= factor <= 1.0
    ensures 0.0 <= x * factor <= x
    ensures x * 1.0 == x
  {
    TimesMonotone(0.0, x, factor);
    TimesMonotone(factor, 1.0, x);
  }

  lemma CautiousUpdate(base: SizingInput, leverage: real, confidence: real, leverage': real, confidence': real)
    requires leverage <= leverage' && 1.0 <= leverage' <= 20.0 && confidence <= confidence' && 0.0 <= confidence' <= 1.0
    ensures var i, j := base.(agentRequestedLeverage := leverage, agentConfidence := confidence),
                        base.(agentRequestedLeverage := leverage', agentConfidence := confidence');
            MoreCautious(i, j) && (ValidInput(i) ==> ValidInput(j))
  {
  }

  /** Advice can only reject or reduce: compare any advice with none. */
  lemma AdviceOnlyReduces(base: SizingInput, requested: real, suggested: real, confidence: real,
                          advice: PortfolioAdvice)
    requires ValidAdvice(advice)
    requires 1.0 <= requested <= 20.0 && 1.0 <= suggested <= 20.0 && 0.0 <= confidence <= 1.0
    requires Size(Advised(base, requested, suggested, confidence, advice)).Ok?
    ensures var without := Size(Advised(base, requested, suggested, confidence, NeutralAdvice));
            without.Ok? && NoLarger(Size(Advised(base, requested, suggested, confidence, advice)).value, without.value)
  {
    var asked, without := Advised(base, requested, suggested, confidence, advice), Advised(base, requested, suggested,
                                                                                           confidence, NeutralAdvice);
    AdviceIsCautious(base, requested, suggested, confidence, advice);
    hide PaysForRisk, Floored, MeetsMinimums, InsideBudgets, Sized;
    CautionReduces(asked, without);
  }
}
