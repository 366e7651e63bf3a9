/**
 The bar-by-bar execution replay of a strategy: a fold of one step over the bars, and the loop that
 computes it. Money is exact; `float` conversions are left out, their clamp is not.
 */
module Replay {
  import opened Common
  import opened Sizing
  import opened Signals

  type Positive = x: real | x > 0.0 witness 1.0

  datatype Bar = Bar(openPrice: Positive, highPrice: Positive, lowPrice: Positive, closePrice: Positive, volume: real,
                     fundingRate: real)

  predicate ValidBar(bar: Bar) {
    && bar.lowPrice <= bar.openPrice <= bar.highPrice
    && bar.lowPrice <= bar.closePrice <= bar.highPrice
    && bar.volume >= 0.0
  }

  datatype Experiment = Experiment(category: Category, symbol: string, accountEquity: Positive, availableBalance: real,
                                   maxLossPerTradePct: real, mandateMaxLeverage: real, brokerMaxLeverage: real,
                                   agentConfidence: real, tickSize: Positive, quantityStep: real,
                                   minimumOrderQuantity: real, minimumNotional: real)

  /** The parameters of one replay. */
  datatype Setup = Setup(strategy: Strategy, experiment: Experiment, shift: int)

  datatype Position = Position(side: Side, reference: Positive, stopLoss: real, takeProfit: real, exposure: real)

  datatype ExitReason = StopHit | TargetHit | Liquidation

  /** How a position leaves the replay: a stop or target fills at a price, a liquidation at the close. */
  datatype Exit = Exit(reason: ExitReason, price: real, exposure: real)

  /**
   What happened on one bar: the entry and the signal it came from, the exit, the funding paid, and the
   new signal.
   */
  datatype BarRecord = BarRecord(entry: Option<Position>, cause: Option<Signal>, exit: Option<Exit>, funding: real,
                                 next: Option<Signal>)

  datatype State = State(
    pending: Option<Signal>,
    position: Option<Position>,
    cooldownUntil: int,
    equity: seq<real>,
    netReturns: seq<real>,
    grossEquity: real,
    turnover: real,
    costs: real,
    decisions: nat,
    candles: seq<Candle>,
    records: seq<BarRecord>)

  const Start := State(None, None, 0, [1.0], [], 1.0, 0.0, 0.0, 0, [], [])

  // ----- one bar

  function CostBps(strategy: Strategy): real {
    strategy.feeBps + strategy.spreadBps + strategy.slippageBps
  }

  function CostRate(strategy: Strategy): real {
    CostBps(strategy) / 10000.0
  }

  /** The price at which a limit entry fills on this bar, if it does. */
  function FillPrice(side: Side, entry: real, bar: Bar): Option<real> {
    if side == Buy && bar.lowPrice <= entry then Some(Min(bar.openPrice, entry))
    else if side == Sell && bar.highPrice >= entry then Some(Max(bar.openPrice, entry))
    else None
  }

  function ReplaySizing(setup: Setup, signal: Signal, levels: Levels, bar: Bar): SizingInput {
    var experiment, strategy := setup.experiment, setup.strategy;
    SizingInput(experiment.category, signal.side, levels.entry, levels.stop, levels.target, experiment.accountEquity,
                experiment.availableBalance, 0.0, 0.0, strategy.maxPositionPct, strategy.reserveFloorPct,
                experiment.maxLossPerTradePct, experiment.mandateMaxLeverage, experiment.brokerMaxLeverage,
                signal.suggestedLeverage, experiment.agentConfidence,
                experiment.quantityStep, experiment.minimumOrderQuantity, experiment.minimumNotional,
                CostBps(strategy) + Abs(bar.fundingRate) * 10000.0, 0.35, 1.25)
  }

  lemma FillPositive(side: Side, entry: real, bar: Bar)
    requires entry > 0.0 && FillPrice(side, entry, bar).Some?
    ensures FillPrice(side, entry, bar).value > 0.0
  {
  }

  lemma SizedIsValid(i: SizingInput)
    requires Size(i).Ok?
    ensures ValidInput(i)
  {
  }

  /** The position a pending signal opens on this bar, if its entry fills and sizing accepts it. */
  function Enter(setup: Setup, signal: Signal, bar: Bar): Option<Position> {
    var levels := RoundedLevels(signal, setup.experiment.tickSize);
    var fill := FillPrice(signal.side, levels.entry, bar);
    if fill.None? then None
    else
      var sizing := Size(ReplaySizing(setup, signal, levels, bar));
      if sizing.Err? then None
      else
        SizedIsValid(ReplaySizing(setup, signal, levels, bar));
        FillPositive(signal.side, levels.entry, bar);
        Some(Position(signal.side, fill.value, levels.stop, levels.target,
                      sizing.value.notional / setup.experiment.accountEquity))
  }

  /** The price of a stop or target that this bar touches. The stop is looked at first. */
  function Touched(position: Position, bar: Bar): Option<Exit> {
    match position.side
    case Buy =>
      if bar.lowPrice <= position.stopLoss
      then Some(Exit(StopHit, Min(bar.openPrice, position.stopLoss), position.exposure))
      else if bar.highPrice >= position.takeProfit then Some(Exit(TargetHit, position.takeProfit, position.exposure))
      else None
    case Sell =>
      if bar.highPrice >= position.stopLoss
      then Some(Exit(StopHit, Max(bar.openPrice, position.stopLoss), position.exposure))
      else if bar.lowPrice <= position.takeProfit then Some(Exit(TargetHit, position.takeProfit, position.exposure))
      else None
  }

  function ExitOf(position: Position, bar: Bar, last: bool): Option<Exit> {
    if Touched(position, bar).Some? then Touched(position, bar)
    else if last then Some(Exit(Liquidation, bar.closePrice, position.exposure))
    else None
  }

  /** The price the bar is marked at: a zero exit price counts as none. */
  function MarkPrice(position: Position, bar: Bar): real {
    var exit := Touched(position, bar);
    if exit.Some? && exit.value.price != 0.0 then exit.value.price else bar.closePrice
  }

  function PriceReturn(position: Position, bar: Bar): real {
    (if position.side == Buy then 1.0
     else -1.0) * (MarkPrice(position, bar) / position.reference - 1.0) * position.exposure
  }

  function FundingCost(setup: Setup, position: Position, bar: Bar): real {
    if setup.experiment.category == Linear then Abs(bar.fundingRate) * position.exposure else 0.0
  }

  function Clamp(x: real): real {
    Max(x, -0.999999)
  }

  /** A value after one return. */
  function Grow(value: real, net: real): real {
    value * (1.0 + Clamp(net))
  }

  function TradeCost(setup: Setup, exposure: real): real {
    exposure * CostRate(setup.strategy)
  }

  function CandleOf(setup: Setup, bar: Bar): Candle {
    Candle(setup.experiment.category, setup.experiment.symbol, true, bar.openPrice, bar.highPrice, bar.lowPrice,
           bar.closePrice, bar.volume)
  }

  function TickerOf(setup: Setup, bar: Bar): Ticker {
    Ticker(setup.experiment.category, setup.experiment.symbol, bar.closePrice)
  }

  /** The first half of a bar: a pending signal fills or lapses. */
  function Entered(setup: Setup, pending: Option<Signal>, position: Option<Position>, bar: Bar): Option<Position> {
    if pending.Some? && position.None? then Enter(setup, pending.value, bar) else None
  }

  function Held(setup: Setup, pending: Option<Signal>, position: Option<Position>, bar: Bar): Option<Position> {
    if position.Some? then position else Entered(setup, pending, position, bar)
  }

  function Exited(held: Option<Position>, bar: Bar, last: bool): Option<Exit> {
    if held.Some? then ExitOf(held.value, bar, last) else None
  }

  function Carried(held: Option<Position>, exit: Option<Exit>, bar: Bar): Option<Position> {
    if held.None? || exit.Some? then None else Some(held.value.(reference := bar.closePrice))
  }

  function ExposureOf(position: Option<Position>): real {
    if position.Some? then position.value.exposure else 0.0
  }

  function ExitExposure(exit: Option<Exit>): real {
    if exit.Some? then exit.value.exposure else 0.0
  }

  /** Everything a bar does to money and positions, before the next signal is looked for. */
  function Traded(setup: Setup, s: State, bar: Bar, last: bool): State {
    var entry, held := Entered(setup, s.pending, s.position, bar), Held(setup, s.pending, s.position, bar);
    var exit := Exited(held, bar, last);
    var price := if held.Some? then PriceReturn(held.value, bar) else 0.0;
    var funding := if held.Some? then FundingCost(setup, held.value, bar) else 0.0;
    var barCost := TradeCost(setup, ExposureOf(entry)) + TradeCost(setup, ExitExposure(exit));
    var net := price - funding - barCost;
    State(
      if s.position.None? then None else s.pending,
      Carried(held, exit, bar),
      if exit.Some? then |s.candles| + setup.strategy.cooldownBars + 1 else s.cooldownUntil,
      if |s.equity| == 0 then [] else s.equity + [Grow(s.equity[|s.equity| - 1], net)],
      s.netReturns + [Clamp(net)],
      Grow(s.grossEquity, price),
      s.turnover + (ExposureOf(entry) + ExitExposure(exit)),
      s.costs + (barCost + funding),
      s.decisions,
      s.candles + [CandleOf(setup, bar)],
      s.records + [BarRecord(entry, if entry.Some? then s.pending else None, exit, funding, None)])
  }

  /**
   The engine is asked for a signal when nothing is open or pending, the cooldown is over and 50 bars are
   complete.
   */
  predicate Asks(s: State) {
    s.position.None? && s.pending.None? && |s.candles| - 1 >= s.cooldownUntil && |s.candles| >= 50
  }

  function Step(setup: Setup, s: State, bar: Bar, last: bool): Result<State, SignalFailure> {
    var traded := Traded(setup, s, bar, last);
    if !Asks(traded) then Ok(traded)
    else
      match Evaluate(setup.strategy, traded.candles, TickerOf(setup, bar), setup.shift)
      case Err(failure) => Err(failure)
      case Ok(signal) =>
        Ok(traded.(pending := signal, decisions := traded.decisions + 1,
                   records := s.records + [traded.records[|s.records|].(next := signal)]))
  }

  /** The state after the first k bars of a series. */
  function Fold(setup: Setup, bars: seq<Bar>, k: nat): Result<State, SignalFailure>
    requires k <= |bars|
  {
    if k == 0 then Ok(Start)
    else
      match Fold(setup, bars, k - 1)
      case Err(failure) => Err(failure)
      case Ok(s) => Step(setup, s, bars[k - 1], k == |bars|)
  }

  /** The trading half of the loop body: entry, exit and costs of one bar, on the local variables. */
  method TradeBar(setup: Setup, pending: Option<Signal>, position: Option<Position>, cooldownUntil: int, index: nat,
                  bar: Bar, last: bool)
    returns (pending': Option<Signal>, position': Option<Position>, cooldownUntil': int, traded: real, barCost: real,
             priceReturn: real,
             fundingCost: real)
    ensures var entry := Entered(setup, pending, position, bar);
            var held := Held(setup, pending, position, bar);
            var exit := Exited(held, bar, last);
            && pending' == (if position.None? then None else pending)
            && position' == Carried(held, exit, bar)
            && cooldownUntil' == (if exit.Some? then index + setup.strategy.cooldownBars + 1 else cooldownUntil)
            && traded == ExposureOf(entry) + ExitExposure(exit)
            && barCost == TradeCost(setup, ExposureOf(entry)) + TradeCost(setup, ExitExposure(exit))
            && priceReturn == (if held.Some? then PriceReturn(held.value, bar) else 0.0)
            && fundingCost == (if held.Some? then FundingCost(setup, held.value, bar) else 0.0)
  {
    hide Enter, Touched, PriceReturn, FundingCost, TradeCost;
    NoTradeNoCost(setup);
    pending', position', cooldownUntil' := pending, position, cooldownUntil;
    traded, barCost, priceReturn, fundingCost := 0.0, 0.0, 0.0, 0.0;
    if pending'.Some? && position'.None? {
      position' := Enter(setup, pending'.value, bar);
      if position'.Some? {
        barCost := TradeCost(setup, position'.value.exposure);
        traded := position'.value.exposure;
      }
      pending' := None;
    }
    if position'.Some? {
      var touched := Touched(position'.value, bar);
      priceReturn := PriceReturn(position'.value, bar);
      fundingCost := FundingCost(setup, position'.value, bar);
      if touched.Some? || last {
        TouchedExposure(position'.value, bar);
        barCost := barCost + TradeCost(setup, position'.value.exposure);
        traded := traded + position'.value.exposure;
        position' := None;
        cooldownUntil' := index + setup.strategy.cooldownBars + 1;
      } else {
        position' := Some(position'.value.(reference := bar.closePrice));
      }
    }
  }

  lemma TouchedExposure(position: Position, bar: Bar)
    ensures Touched(position, bar).Some? ==> Touched(position, bar).value.exposure == position.exposure
  {
  }

  /** The loop of the source, bar by bar over local variables. */
  method Run(setup: Setup, bars: seq<Bar>)
    returns (failure: Option<SignalFailure>, equity: seq<real>, netReturns: seq<real>, turnover: real, costs: real,
             decisions: nat, gross: real)
    ensures match Fold(setup, bars, |bars|)
            case Err(error) => failure == Some(error)
            case Ok(s) =>
              && failure == None && equity == s.equity && netReturns == s.netReturns && turnover == s.turnover &&
                   costs == s.costs
              && decisions == s.decisions && gross == s.grossEquity - 1.0
  {
    hide Entered, Held, Exited, Carried, PriceReturn, FundingCost, Evaluate, Clamp, Grow, TradeCost, ExposureOf,
         ExitExposure, Fold, CandleOf;
    FoldStart(setup, bars);
    var candles: seq<Candle> := [];
    var pending: Option<Signal> := None;
    var position: Option<Position> := None;
    var cooldownUntil, grossEquity := 0, 1.0;
    failure, equity, netReturns, turnover, costs, decisions, gross := None, [1.0], [], 0.0, 0.0, 0, 0.0;
    ghost var s := Start;
    for index := 0 to |bars|
      invariant Fold(setup, bars, index) == Ok(s)
      invariant failure == None && |candles| == index && |equity| == index + 1
      invariant s.pending == pending && s.position == position && s.cooldownUntil == cooldownUntil
      invariant s.equity == equity && s.netReturns == netReturns && s.grossEquity == grossEquity
      invariant s.turnover == turnover && s.costs == costs && s.decisions == decisions && s.candles == candles
    {
      FoldNext(setup, bars, index, s);
      var bar := bars[index];
      var traded, barCost, priceReturn, fundingCost;
      pending, position, cooldownUntil, traded, barCost, priceReturn, fundingCost :=
        TradeBar(setup, pending, position, cooldownUntil, index, bar, index + 1 == |bars|);
      turnover := turnover + traded;
      var net := priceReturn - fundingCost - barCost;
      netReturns := netReturns + [Clamp(net)];
      equity := equity + [Grow(equity[|equity| - 1], net)];
      grossEquity := Grow(grossEquity, priceReturn);
      costs := costs + (barCost + fundingCost);
      candles := candles + [CandleOf(setup, bar)];
      if position.None? && pending.None? && index >= cooldownUntil && |candles| >= 50 {
        decisions := decisions + 1;
        var signal := Evaluate(setup.strategy, candles, TickerOf(setup, bar), setup.shift);
        if signal.Err? {
          failure := Some(signal.error);
          FailureStays(setup, bars, index + 1, |bars|);
          return;
        }
        pending := signal.value;
      }
      s := Step(setup, s, bar, index + 1 == |bars|).value;
    }
    gross := grossEquity - 1.0;
  }

  lemma FoldStart(setup: Setup, bars: seq<Bar>)
    ensures Fold(setup, bars, 0) == Ok(Start)
  {
  }

  lemma FoldNext(setup: Setup, bars: seq<Bar>, k: nat, s: State)
    requires k < |bars| && Fold(setup, bars, k) == Ok(s)
    ensures Fold(setup, bars, k + 1) == Step(setup, s, bars[k], k + 1 == |bars|)
  {
    hide Step;
  }

  lemma NoTradeNoCost(setup: Setup)
    ensures TradeCost(setup, 0.0) == 0.0
  {
  }

  lemma {:induction false} FailureStays(setup: Setup, bars: seq<Bar>, k: nat, m: nat)
    requires k <= m <= |bars| && Fold(setup, bars, k).Err?
    ensures Fold(setup, bars, m) == Fold(setup, bars, k)
    decreases m
  {
    hide Step;
    if k < m { FailureStays(setup, bars, k, m - 1); }
  }
}
