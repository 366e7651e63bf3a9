/**
 What a replay earns, in the fields of bars and strategy: the return and the cost of every bar of every trade,
 when a trade opens and closes, when a signal is looked for, and that a long trade closed above its fill never
 loses before costs, whatever path the price took.
 */
module ReplayReturns {
  import opened Common
  import opened Sizing
  import opened Signals
  import opened Replay
  import opened ReplaySafety

  // ----- one held bar, in its own fields

  /**
   The price a held position is marked at. The stop comes first, and fills at the open when the bar opens
   beyond it; then the target; then the close.
   */
  function Marked(side: Side, stop: real, target: real, bar: Bar): real {
    if side == Buy then
      if bar.lowPrice <= stop then (if bar.openPrice <= stop then bar.openPrice else stop)
      else if bar.highPrice >= target then target
      else bar.closePrice
    else
      if bar.highPrice >= stop then (if bar.openPrice >= stop then bar.openPrice else stop)
      else if bar.lowPrice <= target then target
      else bar.closePrice
  }

  /** The bar touches the stop or the target. */
  predicate Hit(side: Side, stop: real, target: real, bar: Bar) {
    if side == Buy then bar.lowPrice <= stop || bar.highPrice >= target
    else bar.highPrice >= stop || bar.lowPrice <= target
  }

  /** What the price did for the position since the reference. */
  function Gain(side: Side, exposure: real, reference: real, mark: real): real
    requires reference > 0.0
  {
    if side == Buy then (mark / reference - 1.0) * exposure else (1.0 - mark / reference) * exposure
  }

  function FundingOn(setup: Setup, bar: Bar, exposure: real): real {
    if setup.experiment.category == Spot then 0.0
    else if bar.fundingRate >= 0.0 then bar.fundingRate * exposure
    else -bar.fundingRate * exposure
  }

  /** Fee, spread and slippage on the exposure traded. */
  function FeesOn(setup: Setup, exposure: real): real {
    exposure * ((setup.strategy.feeBps + setup.strategy.spreadBps + setup.strategy.slippageBps) / 10000.0)
  }

  /** No bar loses everything. */
  function Limited(x: real): real {
    if x < -0.999999 then -0.999999 else x
  }

  // ----- one bar of the fold

  /** The position a bar trades: the one carried into it, or the one it opens. */
  function InHand(before: Option<Position>, entry: Option<Position>): Option<Position> {
    if before.Some? then before else entry
  }

  predicate Priced(position: Option<Position>) {
    position.Some? ==> position.value.stopLoss > 0.0 && position.value.takeProfit > 0.0
  }

  lemma EntryPriced(setup: Setup, s: State, bar: Bar)
    ensures Priced(Entered(setup, s.pending, s.position, bar))
  {
    hide Size, RoundedLevels, FillPrice;
    if s.pending.Some? && s.position.None? && Enter(setup, s.pending.value, bar).Some? {
      var levels := RoundedLevels(s.pending.value, setup.experiment.tickSize);
      SizedIsValid(ReplaySizing(setup, s.pending.value, levels, bar));
    }
  }

  lemma MarkIs(p: Position, bar: Bar, last: bool)
    requires Priced(Some(p))
    ensures MarkPrice(p, bar) == Marked(p.side, p.stopLoss, p.takeProfit, bar)
    ensures ExitOf(p, bar, last).Some? <==> Hit(p.side, p.stopLoss, p.takeProfit, bar) || last
    ensures ExitOf(p, bar, last).Some? ==>
              ExitOf(p, bar, last).value.price == Marked(p.side, p.stopLoss, p.takeProfit, bar) &&
                ExitOf(p, bar, last).value.exposure == p.exposure
  {
  }

  lemma PriceReturnIs(p: Position, bar: Bar)
    requires Priced(Some(p))
    ensures PriceReturn(p, bar) == Gain(p.side, p.exposure, p.reference, Marked(p.side, p.stopLoss, p.takeProfit, bar))
  {
    MarkIs(p, bar, false);
    hide MarkPrice, Marked, ExitOf;
  }

  /** What one bar does to a position in hand: its return, its exit, and what is left of it. */
  ghost predicate BarTraded(setup: Setup, before: State, after: State, bar: Bar, last: bool, p: Position,
                            r: BarRecord) {
    var mark := Marked(p.side, p.stopLoss, p.takeProfit, bar);
    var gain := Gain(p.side, p.exposure, p.reference, mark);
    var sides := (if r.entry.Some? then p.exposure else 0.0) + (if r.exit.Some? then p.exposure else 0.0);
    && |before.equity| > 0 && |after.equity| == |before.equity| + 1 && before.equity <= after.equity
    && (r.exit.Some? <==> Hit(p.side, p.stopLoss, p.takeProfit, bar) || last)
    && (r.exit.Some? ==> r.exit.value.price == mark && r.exit.value.exposure == p.exposure)
    && after.position == (if r.exit.Some? then None else Some(p.(reference := bar.closePrice)))
    && after.netReturns ==
       before.netReturns + [Limited(gain - FundingOn(setup, bar, p.exposure) - FeesOn(setup, sides))]
    && after.equity[|before.equity|] ==
       before.equity[|before.equity| - 1] * (1.0 + after.netReturns[|before.netReturns|])
    && after.grossEquity == before.grossEquity * (1.0 + Limited(gain))
  }

  /** A bar without a position changes no money. */
  predicate BarIdle(before: State, after: State, r: BarRecord) {
    && |before.equity| > 0 && |after.equity| == |before.equity| + 1 && before.equity <= after.equity
    && r.exit.None? && after.position.None?
    && after.netReturns == before.netReturns + [0.0]
    && after.equity[|before.equity|] == before.equity[|before.equity| - 1]
    && after.grossEquity == before.grossEquity
  }

  lemma FeesAdd(setup: Setup, a: real, b: real)
    ensures TradeCost(setup, a) + TradeCost(setup, b) == FeesOn(setup, a + b)
    ensures FeesOn(setup, 0.0) == 0.0
  {
  }

  /** The money after a bar, as the step computes it. */
  lemma TradedMoney(setup: Setup, s: State, bar: Bar, last: bool)
    requires |s.equity| > 0
    ensures var t := Traded(setup, s, bar, last);
            var held := Held(setup, s.pending, s.position, bar);
            && |t.records| == |s.records| + 1
            && var r := t.records[|s.records|];
               && r.entry == Entered(setup, s.pending, s.position, bar) && r.exit == Exited(held, bar, last)
               && t.position == Carried(held, r.exit, bar)
               && var price := if held.Some? then PriceReturn(held.value, bar) else 0.0;
                  var funding := if held.Some? then FundingCost(setup, held.value, bar) else 0.0;
                  var net := price - funding -
                    (TradeCost(setup, ExposureOf(r.entry)) + TradeCost(setup, ExitExposure(r.exit)));
                  && t.netReturns == s.netReturns + [Clamp(net)]
                  && t.equity == s.equity + [Grow(s.equity[|s.equity| - 1], net)]
                  && t.grossEquity == Grow(s.grossEquity, price)
  {
    hide Entered, Exited, Held, Carried, PriceReturn, FundingCost, Grow, Clamp, TradeCost, ExposureOf, ExitExposure;
  }

  lemma IdleInFields(setup: Setup, s: State, bar: Bar, last: bool)
    requires |s.equity| > 0 && s.position.None? && Entered(setup, s.pending, s.position, bar).None?
    ensures var t := Traded(setup, s, bar, last);
            |t.records| == |s.records| + 1 && BarIdle(s, t, t.records[|s.records|])
  {
    hide Traded, Entered, TradeCost;
    TradedMoney(setup, s, bar, last);
    NoTradeNoCost(setup);
  }

  lemma HeldInFields(setup: Setup, s: State, bar: Bar, last: bool)
    requires |s.equity| > 0 && Priced(s.position)
    requires Held(setup, s.pending, s.position, bar).Some?
    ensures var t, p := Traded(setup, s, bar, last), Held(setup, s.pending, s.position, bar).value;
            |t.records| == |s.records| + 1 && BarTraded(setup, s, t, bar, last, p, t.records[|s.records|])
  {
    hide Traded, TradeCost, FeesOn, ExitOf, Marked, Hit, Gain, PriceReturn, Enter;
    var p := Held(setup, s.pending, s.position, bar).value;
    EntryPriced(setup, s, bar);
    TradedMoney(setup, s, bar, last);
    MarkIs(p, bar, last);
    PriceReturnIs(p, bar);
    FeesAdd(setup, ExposureOf(Entered(setup, s.pending, s.position, bar)),
            ExitExposure(Exited(Some(p), bar, last)));
    var net := PriceReturn(p, bar) - FundingCost(setup, p, bar) -
      (TradeCost(setup, ExposureOf(Entered(setup, s.pending, s.position, bar))) +
       TradeCost(setup, ExitExposure(Exited(Some(p), bar, last))));
    GrowIs(s.grossEquity, PriceReturn(p, bar));
    GrowIs(s.equity[|s.equity| - 1], net);
    FundingIs(setup, p, bar);
    hide Priced, Grow, Clamp, Limited, FundingCost, FundingOn;
  }

  lemma FundingIs(setup: Setup, p: Position, bar: Bar)
    ensures FundingCost(setup, p, bar) == FundingOn(setup, bar, p.exposure)
  {
  }

  lemma GrowIs(value: real, net: real)
    ensures Clamp(net) == Limited(net) && Grow(value, net) == value * (1.0 + Limited(net))
  {
  }

  /** Every bar of every state: what is in hand earns its gain less funding and fees; nothing in hand, nothing. */
  lemma TradedInFields(setup: Setup, s: State, bar: Bar, last: bool)
    requires |s.equity| > 0 && Priced(s.position)
    ensures var t := Traded(setup, s, bar, last);
            && |t.records| == |s.records| + 1
            && var r := t.records[|s.records|];
               match InHand(s.position, r.entry)
               case None => BarIdle(s, t, r)
               case Some(p) => (s.position.Some? ==> r.entry.None?) && BarTraded(setup, s, t, bar, last, p, r)
  {
    TradedMoney(setup, s, bar, last);
    hide Traded, BarIdle, BarTraded, Enter, Priced;
    if Held(setup, s.pending, s.position, bar).Some? {
      HeldInFields(setup, s, bar, last);
    } else {
      IdleInFields(setup, s, bar, last);
    }
  }

  // ----- entries

  /** The order a pending signal places: its levels rounded to ticks, and every limit of the experiment. */
  predicate Places(setup: Setup, signal: Signal, bar: Bar, i: SizingInput) {
    var x, strategy, levels := setup.experiment, setup.strategy, RoundedLevels(signal, setup.experiment.tickSize);
    && i.category == x.category && i.side == signal.side
    && i.entryPrice == levels.entry && i.stopLoss == levels.stop && i.takeProfit == levels.target
    && i.accountEquity == x.accountEquity && i.availableBalance == x.availableBalance
    && i.currentGrossExposure == 0.0 && i.correlatedExposurePct == 0.0
    && i.strategyMaxPositionPct == strategy.maxPositionPct && i.reserveFloorPct == strategy.reserveFloorPct
    && i.maxLossPerTradePct == x.maxLossPerTradePct && i.mandateMaxLeverage == x.mandateMaxLeverage
    && i.brokerMaxLeverage == x.brokerMaxLeverage && i.agentRequestedLeverage == signal.suggestedLeverage
    && i.agentConfidence == x.agentConfidence && i.quantityStep == x.quantityStep
    && i.minimumOrderQuantity == x.minimumOrderQuantity && i.minimumNotional == x.minimumNotional
    && i.roundTripCostBps == strategy.feeBps + strategy.spreadBps + strategy.slippageBps +
                             (if bar.fundingRate >= 0.0 then bar.fundingRate else -bar.fundingRate) * 10000.0
    && i.maximumMarginUtilizationPct == 0.35 && i.minimumRewardToRisk == 1.25
  }

  /** The bar reaches the limit price, and at which price that fills. */
  predicate Reaches(side: Side, limit: real, bar: Bar) {
    if side == Buy then bar.lowPrice <= limit else bar.highPrice >= limit
  }

  predicate FilledAt(side: Side, limit: real, bar: Bar, price: real) {
    && (price == limit || price == bar.openPrice)
    && if side == Buy then price <= limit && price <= bar.openPrice else price >= limit && price >= bar.openPrice
  }

  /**
   A position opens exactly when nothing is held, the bar reaches the rounded entry of the pending signal, and
   sizing accepts the order; it then has the order's levels, fills at the better of entry and open, and exposes
   the notional of the accepted quantity.
   */
  lemma EntersIff(setup: Setup, s: State, bar: Bar, i: SizingInput)
    requires s.pending.Some? && Places(setup, s.pending.value, bar, i)
    ensures var entry := Entered(setup, s.pending, s.position, bar);
            && (entry.Some? <==> s.position.None? && Reaches(i.side, i.entryPrice, bar) && Size(i).Ok?)
            && (entry.Some? ==>
                  && entry.value.side == i.side && entry.value.stopLoss == i.stopLoss
                  && entry.value.takeProfit == i.takeProfit
                  && FilledAt(i.side, i.entryPrice, bar, entry.value.reference)
                  && entry.value.exposure * i.accountEquity == Size(i).value.quantity * i.entryPrice)
  {
    hide RoundedLevels, Places, Size, ReplaySizing, Enter;
    PlacesOne(setup, s.pending.value, bar, i);
    EnterIs(setup, s.pending.value, bar);
    if Size(i).Ok? {
      SizedNotional(i);
      DivTimes(Size(i).value.notional, i.accountEquity);
    }
  }

  lemma EnterIs(setup: Setup, signal: Signal, bar: Bar)
    ensures var levels := RoundedLevels(signal, setup.experiment.tickSize);
            var fill, sizing, entry := FillPrice(signal.side, levels.entry, bar),
                                       Size(ReplaySizing(setup, signal, levels, bar)), Enter(setup, signal, bar);
            && (entry.Some? <==> fill.Some? && sizing.Ok?)
            && (entry.Some? ==>
                  && entry.value.side == signal.side && entry.value.reference == fill.value
                  && entry.value.stopLoss == levels.stop && entry.value.takeProfit == levels.target
                  && entry.value.exposure == sizing.value.notional / setup.experiment.accountEquity)
  {
    hide RoundedLevels, Size, ReplaySizing, FillPrice;
  }

  lemma PlacesOne(setup: Setup, signal: Signal, bar: Bar, i: SizingInput)
    requires Places(setup, signal, bar, i)
    ensures i == ReplaySizing(setup, signal, RoundedLevels(signal, setup.experiment.tickSize), bar)
    ensures i.accountEquity == setup.experiment.accountEquity && i.side == signal.side
    ensures RoundedLevels(signal, setup.experiment.tickSize) == Levels(i.entryPrice, i.stopLoss, i.takeProfit)
  {
    hide RoundedLevels;
  }

  lemma SizedNotional(i: SizingInput)
    requires Size(i).Ok?
    ensures Size(i).value.notional == Size(i).value.quantity * i.entryPrice
  {
    hide Size;
    AcceptedWithinPolicy(i);
  }

  // ----- whole replays

  /** The trade opened at bar j is still open when bar k begins, or opens there. */
  ghost predicate Open(records: seq<BarRecord>, j: nat, k: nat) {
    j <= k <= |records| && j < |records| && records[j].entry.Some? && forall i :: j <= i < k ==> records[i].exit.None?
  }

  /** The position carried into bar k is the one open trade, marked at the last close. */
  ghost predicate CarriesOpen(bars: seq<Bar>, s: State, k: nat)
    requires k <= |bars|
  {
    && |s.records| == k && |s.equity| == k + 1 && |s.netReturns| == k && Priced(s.position)
    && (s.position.Some? ==>
          && k > 0
          && exists j: nat :: j < k && Open(s.records, j, k) &&
                              s.position.value == s.records[j].entry.value.(reference := bars[k - 1].closePrice))
  }

  lemma StepCarries(setup: Setup, bars: seq<Bar>, k: nat, s: State)
    requires k < |bars| && CarriesOpen(bars, s, k) && Step(setup, s, bars[k], k + 1 == |bars|).Ok?
    ensures CarriesOpen(bars, Step(setup, s, bars[k], k + 1 == |bars|).value, k + 1)
  {
    var last := k + 1 == |bars|;
    var t, after := Traded(setup, s, bars[k], last), Step(setup, s, bars[k], last).value;
    StepBooks(setup, s, bars[k], last);
    StepMoney(setup, s, bars[k], last);
    TradedInFields(setup, s, bars[k], last);
    EntryPriced(setup, s, bars[k]);
    TradedMoney(setup, s, bars[k], last);
    hide Step, Traded, Marked, Hit, Gain, FeesOn, FundingOn, Entered, Exited, Carried;
    if after.position.Some? {
      if s.position.Some? {
        var j: nat :| j < k && Open(s.records, j, k) &&
          s.position.value == s.records[j].entry.value.(reference := bars[k - 1].closePrice);
        assert Open(after.records, j, k + 1);
        assert after.records[j] == s.records[j];
      } else {
        assert Open(after.records, k, k + 1);
      }
    }
  }

  /** Looking for a signal after the trades leaves the money alone. */
  lemma StepMoney(setup: Setup, s: State, bar: Bar, last: bool)
    requires Step(setup, s, bar, last).Ok?
    ensures var t, after := Traded(setup, s, bar, last), Step(setup, s, bar, last).value;
            && after.position == t.position && after.equity == t.equity && after.netReturns == t.netReturns
            && after.grossEquity == t.grossEquity
  {
    hide Traded, Evaluate;
  }

  lemma {:induction false} AlwaysCarries(setup: Setup, bars: seq<Bar>, k: nat)
    requires k <= |bars| && Fold(setup, bars, k).Ok?
    ensures CarriesOpen(bars, Fold(setup, bars, k).value, k)
  {
    hide Step, CarriesOpen;
    if k == 0 {
      StartCarries(bars);
    } else {
      AlwaysCarries(setup, bars, k - 1);
      StepCarries(setup, bars, k - 1, Fold(setup, bars, k - 1).value);
    }
  }

  lemma StartCarries(bars: seq<Bar>)
    ensures CarriesOpen(bars, Start, 0)
  {
  }

  /** The lists of a whole replay, bar by bar, are those of the fold. */
  lemma {:induction false} RecordsGrow(setup: Setup, bars: seq<Bar>, k: nat, m: nat)
    requires k <= m <= |bars| && Fold(setup, bars, m).Ok?
    ensures Fold(setup, bars, k).Ok? && Fold(setup, bars, k).value.records <= Fold(setup, bars, m).value.records
    ensures |Fold(setup, bars, k).value.records| == k
    decreases m
  {
    hide Step;
    if k < m {
      RecordsGrow(setup, bars, k, m - 1);
      StepBooks(setup, Fold(setup, bars, m - 1).value, bars[m - 1], m == |bars|);
    } else if m > 0 {
      RecordsGrow(setup, bars, m - 1, m - 1);
      StepBooks(setup, Fold(setup, bars, m - 1).value, bars[m - 1], m == |bars|);
    }
  }

  /** What a bar does to the money when the trade of bar j is open at it. */
  ghost predicate TradeEarns(setup: Setup, bars: seq<Bar>, f: State, j: nat, k: nat)
    requires j <= k < |bars| && |f.records| > k && f.records[j].entry.Some?
  {
    var p, bar := f.records[j].entry.value, bars[k];
    var reference: Positive := if j == k then p.reference else bars[k - 1].closePrice;
    var mark := Marked(p.side, p.stopLoss, p.takeProfit, bar);
    var closes := f.records[k].exit.Some?;
    var sides := (if j == k then p.exposure else 0.0) + (if closes then p.exposure else 0.0);
    && |f.netReturns| > k && |f.equity| > k + 1
    && (closes <==> Hit(p.side, p.stopLoss, p.takeProfit, bar) || k == |bars| - 1)
    && (closes ==> f.records[k].exit.value.price == mark)
    && f.netReturns[k] ==
       Limited(Gain(p.side, p.exposure, reference, mark) - FundingOn(setup, bar, p.exposure) - FeesOn(setup, sides))
    && f.equity[k + 1] == f.equity[k] * (1.0 + f.netReturns[k])
  }

  /** What it does to the money before costs. */
  ghost predicate TradeGrosses(bars: seq<Bar>, before: State, after: State, j: nat, k: nat)
    requires j <= k < |bars| && |after.records| > k && after.records[j].entry.Some?
  {
    var p := after.records[j].entry.value;
    var reference: Positive := if j == k then p.reference else bars[k - 1].closePrice;
    after.grossEquity ==
    before.grossEquity *
    (1.0 + Limited(Gain(p.side, p.exposure, reference, Marked(p.side, p.stopLoss, p.takeProfit, bars[k]))))
  }

  /** The states around one bar, and what links them. */
  ghost predicate Around(setup: Setup, bars: seq<Bar>, k: nat, s: State, after: State)
    requires k < |bars|
  {
    && CarriesOpen(bars, s, k) && |after.records| == k + 1 && after.records[..k] == s.records
    && OneAtATime(after.records)
    && (s.position.None? ==> forall j: nat :: j < k && s.records[j].entry.Some? ==>
          ReplaySafety.Closes(s.records, j, k))
    && BarEarns(setup, s, after, bars[k], k + 1 == |bars|, after.records[k])
  }

  lemma FoldAround(setup: Setup, bars: seq<Bar>, k: nat)
    requires ValidBars(bars) && k < |bars| && Fold(setup, bars, k + 1).Ok?
    ensures Fold(setup, bars, k).Ok?
    ensures Around(setup, bars, k, Fold(setup, bars, k).value, Fold(setup, bars, k + 1).value)
  {
    hide Step, CarriesOpen, BarEarns, History, Traded;
    AlwaysHistory(setup, bars, k + 1);
    AlwaysHistory(setup, bars, k);
    AlwaysCarries(setup, bars, k);
    var s, after := Fold(setup, bars, k).value, Fold(setup, bars, k + 1).value;
    HistoryCloses(setup, bars, k, s);
    HistoryCloses(setup, bars, k + 1, after);
    CarriesPriced(bars, s, k);
    StepAround(setup, s, bars[k], k + 1 == |bars|);
  }

  lemma HistoryCloses(setup: Setup, bars: seq<Bar>, k: nat, s: State)
    requires k <= |bars| && History(setup, bars, k, s)
    ensures |s.records| == k && OneAtATime(s.records)
    ensures s.position.None? ==>
              forall j: nat :: j < k && s.records[j].entry.Some? ==> ReplaySafety.Closes(s.records, j, k)
  {
  }

  lemma CarriesPriced(bars: seq<Bar>, s: State, k: nat)
    requires k <= |bars| && CarriesOpen(bars, s, k)
    ensures |s.equity| > 0 && Priced(s.position)
  {
  }

  /** What happened to the money on a bar, whatever its position in hand. */
  ghost predicate BarEarns(setup: Setup, s: State, after: State, bar: Bar, last: bool, r: BarRecord) {
    match InHand(s.position, r.entry)
    case None => BarIdle(s, after, r)
    case Some(p) => (s.position.Some? ==> r.entry.None?) && BarTraded(setup, s, after, bar, last, p, r)
  }

  lemma SameBar(setup: Setup, s: State, t: State, after: State, bar: Bar, last: bool, r: BarRecord, next: BarRecord)
    requires BarEarns(setup, s, t, bar, last, r) && next.entry == r.entry && next.exit == r.exit
    requires after.position == t.position && after.equity == t.equity && after.netReturns == t.netReturns &&
             after.grossEquity == t.grossEquity
    ensures BarEarns(setup, s, after, bar, last, next)
  {
    hide Marked, Hit, Gain, FeesOn, FundingOn, Limited;
  }

  lemma StepAround(setup: Setup, s: State, bar: Bar, last: bool)
    requires |s.equity| > 0 && Priced(s.position) && Step(setup, s, bar, last).Ok?
    ensures var after := Step(setup, s, bar, last).value;
            && |after.records| == |s.records| + 1 && after.records[..|s.records|] == s.records
            && BarEarns(setup, s, after, bar, last, after.records[|s.records|])
  {
    hide Step, Traded, Priced, BarIdle, BarTraded;
    var t, after := Traded(setup, s, bar, last), Step(setup, s, bar, last).value;
    TradedInFields(setup, s, bar, last);
    StepRecords(setup, s, bar, last);
    StepMoney(setup, s, bar, last);
    SameBar(setup, s, t, after, bar, last, t.records[|s.records|], after.records[|s.records|]);
  }

  lemma OneOpen(records: seq<BarRecord>, i: nat, j: nat, k: nat)
    requires OneAtATime(records) && Open(records, i, k) && Open(records, j, k) && i < |records| && j < |records|
    ensures i == j
  {
  }

  /** The trade that is open when a bar begins is the one in hand there. */
  lemma OpenIsInHand(setup: Setup, bars: seq<Bar>, s: State, after: State, j: nat, k: nat)
    requires j <= k < |bars| && Around(setup, bars, k, s, after) && Open(after.records, j, k)
    ensures var p := after.records[j].entry.value;
            && InHand(s.position, after.records[k].entry) ==
               Some(if j == k then p else p.(reference := bars[k - 1].closePrice))
            && (after.records[k].entry.Some? <==> j == k)
  {
    hide BarIdle, BarTraded, Priced;
    var records := after.records;
    assert forall i :: 0 <= i < k ==> records[i] == s.records[i];
    if s.position.Some? {
      var i: nat :| i < k && Open(s.records, i, k) &&
        s.position.value == s.records[i].entry.value.(reference := bars[k - 1].closePrice);
      assert Open(records, i, k);
      OneOpen(records, i, j, k);
    }
  }

  lemma OpenEarns(setup: Setup, bars: seq<Bar>, s: State, after: State, j: nat, k: nat)
    requires j <= k < |bars| && Around(setup, bars, k, s, after) && Open(after.records, j, k)
    ensures TradeEarns(setup, bars, after, j, k) && TradeGrosses(bars, s, after, j, k)
  {
    OpenIsInHand(setup, bars, s, after, j, k);
    hide Open, Marked, Hit, Gain, FeesOn, FundingOn, Limited, OneAtATime;
  }

  /**
   The return of every bar of every trade of a replay: the price's gain on the exposure since the fill, or since
   the last close, less funding, less fees on what the bar trades; and the trade closes where it is said to.
   */
  lemma TradeReturn(setup: Setup, bars: seq<Bar>, j: nat, k: nat)
    requires ValidBars(bars) && j <= k < |bars| && Fold(setup, bars, |bars|).Ok?
    requires Open(Fold(setup, bars, |bars|).value.records, j, k)
    ensures |Fold(setup, bars, |bars|).value.records| == |bars|
    ensures TradeEarns(setup, bars, Fold(setup, bars, |bars|).value, j, k)
  {
    hide Fold, Around, TradeEarns, TradeGrosses;
    Prefixes(setup, bars, k);
    var early, f := Fold(setup, bars, k + 1).value, Fold(setup, bars, |bars|).value;
    FoldAround(setup, bars, k);
    assert Open(early.records, j, k);
    OpenEarns(setup, bars, Fold(setup, bars, k).value, early, j, k);
    EarnsLater(setup, bars, early, f, j, k);
  }

  /** The lists after bar k are the first part of the lists of the whole replay. */
  lemma Prefixes(setup: Setup, bars: seq<Bar>, k: nat)
    requires k < |bars| && Fold(setup, bars, |bars|).Ok?
    ensures Fold(setup, bars, k + 1).Ok?
    ensures var early, f := Fold(setup, bars, k + 1).value, Fold(setup, bars, |bars|).value;
            && |f.records| == |bars| && |early.records| == k + 1
            && early.records <= f.records && early.equity <= f.equity && early.netReturns <= f.netReturns
  {
    hide Fold;
    RecordsGrow(setup, bars, k + 1, |bars|);
    RecordsGrow(setup, bars, |bars|, |bars|);
    ListsGrow(setup, bars, k + 1, |bars|);
  }

  lemma EarnsLater(setup: Setup, bars: seq<Bar>, early: State, f: State, j: nat, k: nat)
    requires j <= k < |bars| && |early.records| == k + 1 && early.records[j].entry.Some?
    requires early.records <= f.records && early.equity <= f.equity && early.netReturns <= f.netReturns
    requires TradeEarns(setup, bars, early, j, k)
    ensures TradeEarns(setup, bars, f, j, k)
  {
    hide Marked, Hit, Gain, FeesOn, FundingOn, Limited;
    assert f.records[j] == early.records[j] && f.records[k] == early.records[k];
    assert f.equity[k] == early.equity[k] && f.equity[k + 1] == early.equity[k + 1];
  }

  /** A bar at which no trade is open earns nothing and costs nothing. */
  lemma IdleReturn(setup: Setup, bars: seq<Bar>, k: nat)
    requires ValidBars(bars) && k < |bars| && Fold(setup, bars, |bars|).Ok?
    requires forall j: nat :: j <= k ==> !Open(Fold(setup, bars, |bars|).value.records, j, k)
    ensures var f := Fold(setup, bars, |bars|).value;
            && |f.records| == |bars| && |f.netReturns| > k && |f.equity| > k + 1
            && f.records[k].exit.None? && f.netReturns[k] == 0.0 && f.equity[k + 1] == f.equity[k]
  {
    hide Fold, Around;
    Prefixes(setup, bars, k);
    FoldAround(setup, bars, k);
    NoneOpenIdle(setup, bars, Fold(setup, bars, k).value, Fold(setup, bars, k + 1).value,
                 Fold(setup, bars, |bars|).value, k);
  }

  lemma OpenBefore(records: seq<BarRecord>, j: nat, k: nat)
    requires j < k <= |records|
    ensures Open(records, j, k) <==> Open(records[..k], j, k)
  {
    assert forall i :: 0 <= i < k ==> records[..k][i] == records[i];
  }

  lemma NoneOpenIdle(setup: Setup, bars: seq<Bar>, s: State, early: State, f: State, k: nat)
    requires k < |bars| && Around(setup, bars, k, s, early)
    requires early.records <= f.records && early.equity <= f.equity && early.netReturns <= f.netReturns
    requires forall j: nat :: j <= k ==> !Open(f.records, j, k)
    ensures |f.records| > k && |f.netReturns| > k && |f.equity| > k + 1
    ensures f.records[k].exit.None? && f.netReturns[k] == 0.0 && f.equity[k + 1] == f.equity[k]
  {
    hide BarTraded, Priced, OneAtATime;
    assert f.records[..k] == s.records;
    assert !Open(f.records, k, k) && f.records[k] == early.records[k];
    forall j: nat | j < k ensures Open(f.records, j, k) <==> Open(s.records, j, k) { OpenBefore(f.records, j, k); }
    assert f.equity[k] == early.equity[k] && f.equity[k + 1] == early.equity[k + 1];
  }

  /** A trade gains on a bar exactly when the price did more for it than funding and fees cost. */
  lemma BarGainsIff(setup: Setup, bars: seq<Bar>, j: nat, k: nat)
    requires ValidStrategy(setup.strategy) && ValidBars(bars) && j <= k < |bars| && Fold(setup, bars, |bars|).Ok?
    requires Open(Fold(setup, bars, |bars|).value.records, j, k)
    ensures var f := Fold(setup, bars, |bars|).value;
            && |f.records| == |bars| && |f.equity| == |bars| + 1
            && var p, closes := f.records[j].entry.value, f.records[k].exit.Some?;
               var reference: Positive := if j == k then p.reference else bars[k - 1].closePrice;
               var sides := (if j == k then p.exposure else 0.0) + (if closes then p.exposure else 0.0);
               f.equity[k + 1] > f.equity[k] <==>
                 Gain(p.side, p.exposure, reference, Marked(p.side, p.stopLoss, p.takeProfit, bars[k])) >
                 FundingOn(setup, bars[k], p.exposure) + FeesOn(setup, sides)
  {
    hide Fold, Marked, Hit, Gain, FeesOn, FundingOn, Priced, ValidStrategy, Limited;
    TradeReturn(setup, bars, j, k);
    AlwaysSolvent(setup, bars, |bars|);
    ListsGrow(setup, bars, |bars|, |bars|);
    var p := Fold(setup, bars, |bars|).value.records[j].entry.value;
    var reference: Positive := if j == k then p.reference else bars[k - 1].closePrice;
    LimitedSign(Gain(p.side, p.exposure, reference, Marked(p.side, p.stopLoss, p.takeProfit, bars[k])) -
                FundingOn(setup, bars[k], p.exposure) -
                FeesOn(setup, (if j == k then p.exposure else 0.0) +
                              (if Fold(setup, bars, |bars|).value.records[k].exit.Some? then p.exposure else 0.0)));
    GrowsIff(Fold(setup, bars, |bars|).value.equity[k], Fold(setup, bars, |bars|).value.netReturns[k]);
  }

  lemma LimitedSign(x: real)
    ensures Limited(x) > 0.0 <==> x > 0.0
  {
  }

  lemma GrowsIff(value: real, net: real)
    requires value > 0.0
    ensures value * (1.0 + net) > value <==> net > 0.0
  {
    if net > 0.0 { TimesStrict(0.0, net, value); } else { TimesMonotone(net, 0.0, value); }
    assert value * (1.0 + net) == value + net * value;
  }
}
