/**
 Claims about whole replays: no look-ahead, conservation of turnover and cost, positive equity, and the
 spacing, prices and sizes of trades.
 */
module ReplaySafety {
  import opened Common
  import opened Sizing
  import opened Signals
  import opened Drawdown
  import opened Replay

  // ----- no look-ahead

  /** Series that share their first k bars, and go on, replay those bars identically: nothing later is looked at. */
  lemma {:induction false} NoLookAhead(setup: Setup, a: seq<Bar>, b: seq<Bar>, k: nat)
    requires k < |a| && k < |b| && a[..k] == b[..k]
    ensures Fold(setup, a, k) == Fold(setup, b, k)
  {
    hide Step;
    if k == 0 {
    } else {
      assert a[..k - 1] == a[..k][..k - 1] && b[..k - 1] == b[..k][..k - 1];
      assert a[k - 1] == a[..k][k - 1] && b[k - 1] == b[..k][k - 1];
      NoLookAhead(setup, a, b, k - 1);
    }
  }

  /** What a replay has listed after k bars stays as it is. */
  lemma {:induction false} ListsGrow(setup: Setup, bars: seq<Bar>, k: nat, m: nat)
    requires k <= m <= |bars| && Fold(setup, bars, m).Ok?
    ensures Fold(setup, bars, k).Ok?
    ensures var early, late := Fold(setup, bars, k).value, Fold(setup, bars, m).value;
            && |early.equity| == k + 1 && |early.netReturns| == k
            && early.equity <= late.equity && early.netReturns <= late.netReturns
    decreases m
  {
    hide Step;
    if k < m {
      ListsGrow(setup, bars, k, m - 1);
      StepLists(setup, Fold(setup, bars, m - 1).value, bars[m - 1], m == |bars|);
    } else if m > 0 {
      ListsGrow(setup, bars, m - 1, m - 1);
      StepLists(setup, Fold(setup, bars, m - 1).value, bars[m - 1], m == |bars|);
    }
  }

  lemma StepLists(setup: Setup, s: State, bar: Bar, last: bool)
    requires |s.equity| > 0 && Step(setup, s, bar, last).Ok?
    ensures var after := Step(setup, s, bar, last).value;
            && |after.equity| == |s.equity| + 1 && s.equity <= after.equity
            && |after.netReturns| == |s.netReturns| + 1 && s.netReturns <= after.netReturns
  {
    hide Evaluate, Entered, Held, Exited, Carried, PriceReturn, FundingCost, Grow, TradeCost, Clamp, ExposureOf,
         ExitExposure;
  }

  /** Two whole replays over series that share their first k bars list the same equity and returns for those bars. */
  lemma SharedBarsSharedResults(setup: Setup, a: seq<Bar>, b: seq<Bar>, k: nat)
    requires k < |a| && k < |b| && a[..k] == b[..k]
    ensures Fold(setup, a, |a|).Ok? && Fold(setup, b, |b|).Ok? ==>
            var ra, rb := Fold(setup, a, |a|).value, Fold(setup, b, |b|).value;
            && |ra.equity| > k && |rb.equity| > k && ra.equity[..k + 1] == rb.equity[..k + 1]
            && |ra.netReturns| >= k && |rb.netReturns| >= k && ra.netReturns[..k] == rb.netReturns[..k]
  {
    hide Fold;
    if Fold(setup, a, |a|).Ok? && Fold(setup, b, |b|).Ok? {
      NoLookAhead(setup, a, b, k);
      ListsGrow(setup, a, k, |a|);
      ListsGrow(setup, b, k, |b|);
      var shared := Fold(setup, a, k).value;
      assert shared.equity == Fold(setup, a, |a|).value.equity[..k + 1] == Fold(setup, b, |b|).value.equity[..k + 1];
      assert shared.netReturns == Fold(setup, a, |a|).value.netReturns[..k] ==
             Fold(setup, b, |b|).value.netReturns[..k];
    }
  }

  /** Being the last bar matters only to a position that would have been carried on. */
  lemma LastBarLiquidates(setup: Setup, s: State, bar: Bar)
    requires Step(setup, s, bar, false).Ok? && Step(setup, s, bar, false).value.position.None?
    ensures Step(setup, s, bar, true) == Step(setup, s, bar, false)
  {
    hide Evaluate, Entered, PriceReturn, FundingCost, Touched, Grow, TradeCost, Clamp;
  }

  /** A series cut after k bars replays them as the whole series does, unless a position was open there. */
  lemma CutReplaysSame(setup: Setup, bars: seq<Bar>, k: nat)
    requires 0 < k < |bars| && Fold(setup, bars, k).Ok? && Fold(setup, bars, k).value.position.None?
    ensures Fold(setup, bars[..k], k) == Fold(setup, bars, k)
  {
    hide Step;
    assert bars[..k][..k - 1] == bars[..k - 1];
    NoLookAhead(setup, bars[..k], bars, k - 1);
    LastBarLiquidates(setup, Fold(setup, bars, k - 1).value, bars[k - 1]);
  }

  // ----- accounting

  function Opened(records: seq<BarRecord>): real {
    if |records| == 0 then 0.0 else Opened(records[..|records| - 1]) + ExposureOf(records[|records| - 1].entry)
  }

  function Closed(records: seq<BarRecord>): real {
    if |records| == 0 then 0.0 else Closed(records[..|records| - 1]) + ExitExposure(records[|records| - 1].exit)
  }

  function FundingPaid(records: seq<BarRecord>): real {
    if |records| == 0 then 0.0 else FundingPaid(records[..|records| - 1]) + records[|records| - 1].funding
  }

  /**
   What was opened is closed or still open; turnover counts both sides; costs are a rate on turnover, plus
   funding.
   */
  ghost predicate Books(setup: Setup, records: seq<BarRecord>, open: real, turnover: real, costs: real) {
    && Opened(records) == Closed(records) + open
    && turnover == 2.0 * Closed(records) + open
    && costs == TradeCost(setup, turnover) + FundingPaid(records)
  }

  ghost predicate Balanced(setup: Setup, s: State) {
    Books(setup, s.records, ExposureOf(s.position), s.turnover, s.costs)
  }

  /** A bar that opens, closes and pays keeps the books. */
  lemma BooksAdd(setup: Setup, records: seq<BarRecord>, r: BarRecord, open: real, turnover: real, costs: real)
    requires Books(setup, records, open, turnover, costs)
    ensures var entry, exit := ExposureOf(r.entry), ExitExposure(r.exit);
            Books(setup, records + [r], open + entry - exit, turnover + (entry + exit),
                  costs + (TradeCost(setup, entry) + TradeCost(setup, exit) + r.funding))
  {
  }

  /** An exit closes the whole of the position held. */
  lemma ExitsWhole(setup: Setup, s: State, bar: Bar, last: bool)
    ensures var held := Held(setup, s.pending, s.position, bar); var exit := Exited(held, bar, last);
            && (exit.Some? ==> held.Some? && exit.value.exposure == held.value.exposure)
            && ExposureOf(held) == ExposureOf(s.position) + ExposureOf(Entered(setup, s.pending, s.position, bar))
            && ExposureOf(Carried(held, exit, bar)) == ExposureOf(held) - ExitExposure(exit)
  {
    hide Enter;
  }

  /** Step by step: what a bar adds to the records, the turnover and the costs. */
  lemma TradedAdds(setup: Setup, s: State, bar: Bar, last: bool)
    ensures var t := Traded(setup, s, bar, last);
            && |t.records| == |s.records| + 1 && t.records == s.records + [t.records[|s.records|]]
            && var r := t.records[|s.records|];
            && r.entry == Entered(setup, s.pending, s.position, bar)
            && r.exit == Exited(Held(setup, s.pending, s.position, bar), bar, last)
            && t.position == Carried(Held(setup, s.pending, s.position, bar), r.exit, bar)
            && t.turnover == s.turnover + (ExposureOf(r.entry) + ExitExposure(r.exit))
            && t.costs == s.costs +
                 (TradeCost(setup, ExposureOf(r.entry)) + TradeCost(setup, ExitExposure(r.exit)) + r.funding)
  {
    hide Entered, Exited, Held, Carried, PriceReturn, FundingCost, Grow, Clamp, TradeCost, ExposureOf, ExitExposure;
  }

  /** Looking for a signal after the trades leaves the books alone. */
  lemma StepBooks(setup: Setup, s: State, bar: Bar, last: bool)
    requires Step(setup, s, bar, last).Ok?
    ensures var t, after := Traded(setup, s, bar, last), Step(setup, s, bar, last).value;
            && after == t.(pending := after.pending, decisions := after.decisions, records := after.records)
            && |t.records| == |s.records| + 1
            && after.records == s.records + [t.records[|s.records|].(next := after.records[|s.records|].next)]
            && (after.pending == t.pending || (t.pending.None? && Asks(t) &&
                Evaluate(setup.strategy, t.candles, TickerOf(setup, bar), setup.shift) == Ok(after.pending)))
  {
    hide Evaluate, Entered, Held, Exited, Carried, PriceReturn, FundingCost, Grow, TradeCost, Clamp, ExposureOf,
         ExitExposure;
  }

  lemma StepBalanced(setup: Setup, s: State, bar: Bar, last: bool)
    requires Balanced(setup, s) && Step(setup, s, bar, last).Ok?
    ensures Balanced(setup, Step(setup, s, bar, last).value)
  {
    hide Step, Traded, Books, Entered, Exited, Held, Carried, TradeCost, ExposureOf, ExitExposure, Evaluate;
    var t, after := Traded(setup, s, bar, last), Step(setup, s, bar, last).value;
    TradedAdds(setup, s, bar, last);
    StepBooks(setup, s, bar, last);
    ExitsWhole(setup, s, bar, last);
    BooksAdd(setup, s.records, after.records[|s.records|], ExposureOf(s.position), s.turnover, s.costs);
  }

  /** After every bar the books balance. */
  lemma {:induction false} AlwaysBalanced(setup: Setup, bars: seq<Bar>, k: nat)
    requires k <= |bars| && Fold(setup, bars, k).Ok?
    ensures Balanced(setup, Fold(setup, bars, k).value)
  {
    hide Step;
    if k == 0 {
    } else {
      AlwaysBalanced(setup, bars, k - 1);
      StepBalanced(setup, Fold(setup, bars, k - 1).value, bars[k - 1], k == |bars|);
    }
  }

  lemma LastIsFlat(setup: Setup, s: State, bar: Bar)
    requires Step(setup, s, bar, true).Ok?
    ensures Step(setup, s, bar, true).value.position.None?
  {
    hide Evaluate, Enter, PriceReturn, FundingCost, Touched, Grow, TradeCost, Clamp;
  }

  /** At the end no position is open, so every unit of exposure was traded exactly twice. */
  lemma EndsFlat(setup: Setup, bars: seq<Bar>)
    requires |bars| > 0 && Fold(setup, bars, |bars|).Ok?
    ensures var s := Fold(setup, bars, |bars|).value;
            && s.position.None?
            && s.turnover == 2.0 * Opened(s.records)
            && s.costs == TradeCost(setup, 2.0 * Opened(s.records)) + FundingPaid(s.records)
  {
    AlwaysBalanced(setup, bars, |bars|);
    hide Step, TradeCost, Opened, Closed, FundingPaid;
    LastIsFlat(setup, Fold(setup, bars, |bars| - 1).value, bars[|bars| - 1]);
  }

  // ----- what an entry promises

  function ExposureCap(strategy: Strategy): real {
    Min(strategy.maxPositionPct, 1.0 - strategy.reserveFloorPct)
  }

  predicate InBar(price: real, bar: Bar) {
    bar.lowPrice <= price <= bar.highPrice
  }

  /**
   Filled inside the bar, at the signal's rounded levels in strict order, and within the strategy's cap
   and reserve.
   */
  predicate SoundEntry(setup: Setup, signal: Signal, position: Position, bar: Bar) {
    var levels := RoundedLevels(signal, setup.experiment.tickSize);
    && position.side == signal.side && position.stopLoss == levels.stop && position.takeProfit == levels.target
    && ValidLevels(position.side, levels)
    && InBar(position.reference, bar)
    && 0.0 < position.exposure <= ExposureCap(setup.strategy)
  }

  lemma EntrySound(setup: Setup, signal: Signal, bar: Bar)
    requires ValidBar(bar) && Enter(setup, signal, bar).Some?
    ensures SoundEntry(setup, signal, Enter(setup, signal, bar).value, bar)
  {
    hide Size, RoundedLevels, WithinPolicy;
    var input := ReplaySizing(setup, signal, RoundedLevels(signal, setup.experiment.tickSize), bar);
    SizedIsValid(input);
    SizedFraction(input);
  }

  /** The exposure of an account without other positions is within the strategy's cap and reserve. */
  lemma SizedFraction(i: SizingInput)
    requires Size(i).Ok? && i.currentGrossExposure == 0.0
    ensures i.accountEquity > 0.0
    ensures 0.0 < Size(i).value.notional / i.accountEquity <= Min(i.strategyMaxPositionPct, 1.0 - i.reserveFloorPct)
  {
    hide Size, ValidInput, Leverage, RiskBudget, MarginBudget, RewardToRisk;
    SizedIsValid(i);
    AcceptedWithinPolicy(i);
    Fraction(Size(i).value.notional, i.accountEquity, i.strategyMaxPositionPct);
    Fraction(Size(i).value.notional, i.accountEquity, 1.0 - i.reserveFloorPct);
  }

  lemma Fraction(part: real, whole: real, cap: real)
    requires whole > 0.0 && 0.0 < part <= whole * cap
    ensures 0.0 < part / whole <= cap
  {
  }

  // ----- equity

  /** Equity is positive after every bar, and what is left after costs is never more than before them. */
  ghost predicate Solvent(s: State) {
    && |s.equity| > 0 && AllPositive(s.equity)
    && s.equity[|s.equity| - 1] <= s.grossEquity
    && ExposureOf(s.position) >= 0.0
  }

  lemma GrowPositive(value: real, net: real)
    requires value > 0.0
    ensures Grow(value, net) > 0.0
  {
    TimesStrict(0.0, value, 1.0 + Clamp(net));
  }

  lemma GrowMonotone(value: real, gross: real, net: real, price: real)
    requires 0.0 < value <= gross && net <= price
    ensures Grow(value, net) <= Grow(gross, price)
  {
    TimesMonotone(value, gross, 1.0 + Clamp(net));
    TimesMonotone(1.0 + Clamp(net), 1.0 + Clamp(price), gross);
  }

  lemma CostsNonnegative(setup: Setup, exposure: real)
    requires ValidStrategy(setup.strategy) && exposure >= 0.0
    ensures TradeCost(setup, exposure) >= 0.0
  {
    TimesMonotone(0.0, exposure, CostRate(setup.strategy));
  }

  lemma FundingNonnegative(setup: Setup, position: Position, bar: Bar)
    requires position.exposure >= 0.0
    ensures FundingCost(setup, position, bar) >= 0.0
  {
    TimesMonotone(0.0, Abs(bar.fundingRate), position.exposure);
  }

  lemma EnteredExposure(setup: Setup, s: State, bar: Bar)
    requires ValidBar(bar)
    ensures ExposureOf(Entered(setup, s.pending, s.position, bar)) >= 0.0
  {
  }

  lemma TradedSolvent(setup: Setup, s: State, bar: Bar, last: bool)
    requires ValidStrategy(setup.strategy) && ValidBar(bar) && Solvent(s)
    ensures Solvent(Traded(setup, s, bar, last))
  {
    var entry, held := Entered(setup, s.pending, s.position, bar), Held(setup, s.pending, s.position, bar);
    var exit := Exited(held, bar, last);
    EnteredExposure(setup, s, bar);
    ExitsWhole(setup, s, bar, last);
    hide Entered, Exited, Enter, Touched, Held, Carried, ValidStrategy, ValidBar;
    CostsNonnegative(setup, ExposureOf(entry));
    CostsNonnegative(setup, ExitExposure(exit));
    if held.Some? { FundingNonnegative(setup, held.value, bar); }
    var price := if held.Some? then PriceReturn(held.value, bar) else 0.0;
    var funding := if held.Some? then FundingCost(setup, held.value, bar) else 0.0;
    var net := price - funding - (TradeCost(setup, ExposureOf(entry)) + TradeCost(setup, ExitExposure(exit)));
    hide PriceReturn, FundingCost, TradeCost, Clamp;
    GrowPositive(s.equity[|s.equity| - 1], net);
    GrowMonotone(s.equity[|s.equity| - 1], s.grossEquity, net, price);
    hide Grow;
  }

  lemma StepSolvent(setup: Setup, s: State, bar: Bar, last: bool)
    requires ValidStrategy(setup.strategy) && ValidBar(bar) && Solvent(s) && Step(setup, s, bar, last).Ok?
    ensures Solvent(Step(setup, s, bar, last).value)
  {
    TradedSolvent(setup, s, bar, last);
    StepBooks(setup, s, bar, last);
    hide Step, Traded;
  }

  ghost predicate ValidBars(bars: seq<Bar>) {
    forall i :: 0 <= i < |bars| ==> ValidBar(bars[i])
  }

  /** In every replay: equity stays positive, and net equity never exceeds gross equity. */
  lemma {:induction false} AlwaysSolvent(setup: Setup, bars: seq<Bar>, k: nat)
    requires ValidStrategy(setup.strategy) && ValidBars(bars) && k <= |bars| && Fold(setup, bars, k).Ok?
    ensures Solvent(Fold(setup, bars, k).value)
  {
    hide Step;
    if k == 0 {
    } else {
      AlwaysSolvent(setup, bars, k - 1);
      StepSolvent(setup, Fold(setup, bars, k - 1).value, bars[k - 1], k == |bars|);
    }
  }

  // ----- the history of trades

  /** A signal, if there is one, was computed on these bars alone. */
  ghost predicate SignalledOn(setup: Setup, bars: seq<Bar>, k: nat, signal: Option<Signal>) {
    k > 0 && k <= |bars| && k >= 50 &&
    Evaluate(setup.strategy, Candles(setup, bars[..k]), TickerOf(setup, bars[k - 1]), setup.shift) == Ok(signal)
  }

  function Candles(setup: Setup, bars: seq<Bar>): (candles: seq<Candle>)
    ensures |candles| == |bars|
  {
    seq(|bars|, i requires 0 <= i < |bars| => CandleOf(setup, bars[i]))
  }

  /** An entry at bar j is what the signal computed on bars 0 to j - 1 fills on bar j. */
  ghost predicate EntryExplained(setup: Setup, bars: seq<Bar>, records: seq<BarRecord>, j: nat)
    requires j < |records| <= |bars|
  {
    records[j].entry.Some? ==>
      && records[j].cause.Some?
      && SignalledOn(setup, bars, j, records[j].cause)
      && records[j].entry == Enter(setup, records[j].cause.value, bars[j])
  }

  /** A stop exit at bar i is priced inside the bar, a liquidation at its close, and only the last bar liquidates. */
  predicate ExitPriced(bars: seq<Bar>, records: seq<BarRecord>, i: nat)
    requires i < |records| <= |bars|
  {
    records[i].exit.Some? ==>
      && (records[i].exit.value.reason.StopHit? ==> InBar(records[i].exit.value.price, bars[i]))
      && (records[i].exit.value.reason.Liquidation? ==>
            records[i].exit.value.price == bars[i].closePrice && i == |bars| - 1)
  }

  /** No entry follows an exit before the cooldown, the signal bar and one more. */
  predicate Spaced(setup: Setup, records: seq<BarRecord>) {
    forall i, j :: 0 <= i < j < |records| && records[i].exit.Some? && records[j].entry.Some? ==>
      j >= i + setup.strategy.cooldownBars + 2
  }

  predicate Closes(records: seq<BarRecord>, from: nat, to: nat)
    requires to <= |records|
  {
    exists i :: from <= i < to && records[i].exit.Some?
  }

  /** Positions never overlap: between two entries there is an exit. */
  ghost predicate OneAtATime(records: seq<BarRecord>) {
    forall j: nat, l: nat :: j < l < |records| && records[j].entry.Some? && records[l].entry.Some? ==>
      Closes(records, j, l)
  }

  ghost predicate History(setup: Setup, bars: seq<Bar>, k: nat, s: State)
    requires k <= |bars|
  {
    && |s.records| == k && s.candles == Candles(setup, bars[..k])
    && (s.pending.Some? ==> s.position.None? && k - 1 >= s.cooldownUntil && SignalledOn(setup, bars, k, s.pending))
    && (forall i :: 0 <= i < k && s.records[i].exit.Some? ==> i + setup.strategy.cooldownBars + 1 <= s.cooldownUntil)
    && (s.position.None? ==> forall j: nat :: j < k && s.records[j].entry.Some? ==> Closes(s.records, j, k))
    && Spaced(setup, s.records)
    && OneAtATime(s.records)
    && (forall j: nat :: j < k ==> EntryExplained(setup, bars, s.records, j) && ExitPriced(bars, s.records, j))
  }

  /** What one bar adds to the history. */
  lemma BarAdds(setup: Setup, bars: seq<Bar>, k: nat, s: State)
    requires k < |bars| && ValidBar(bars[k]) && History(setup, bars, k, s)
    ensures var t := Traded(setup, s, bars[k], k + 1 == |bars|); var r := t.records[k];
            && |t.records| == k + 1 && t.records[..k] == s.records
            && t.pending.None?
            && (r.entry.Some? ==> s.position.None? && k - 1 >= s.cooldownUntil)
            && (r.entry.Some? ==>
                  r.cause == s.pending && s.pending.Some? && r.entry == Enter(setup, s.pending.value, bars[k]))
            && t.cooldownUntil == (if r.exit.Some? then k + setup.strategy.cooldownBars + 1 else s.cooldownUntil)
            && (t.position.None? ==> r.exit.Some? || (s.position.None? && r.entry.None?))
            && (r.exit.Some? && r.exit.value.reason.StopHit? ==> InBar(r.exit.value.price, bars[k]))
            && (r.exit.Some? && r.exit.value.reason.Liquidation? ==>
                  r.exit.value.price == bars[k].closePrice && k + 1 == |bars|)
  {
    hide Enter, Evaluate, SignalledOn, Spaced, OneAtATime, EntryExplained, ExitPriced, Closes, PriceReturn,
         FundingCost, Grow, TradeCost, Clamp;
  }

  lemma ClosesGrow(before: seq<BarRecord>, after: seq<BarRecord>, from: nat, to: nat, later: nat)
    requires |before| <= |after| && to <= |before| && to <= later <= |after| && Closes(before, from, to)
    requires forall i :: 0 <= i < |before| ==> after[i].exit == before[i].exit
    ensures Closes(after, from, later)
  {
  }

  /** The records after a step: those before, and the new one with the signal filled in. */
  lemma StepRecords(setup: Setup, s: State, bar: Bar, last: bool)
    requires Step(setup, s, bar, last).Ok?
    ensures var t, after := Traded(setup, s, bar, last).records, Step(setup, s, bar, last).value.records;
            && |after| == |s.records| + 1 && |t| == |s.records| + 1 && after[..|s.records|] == s.records
            && after[|s.records|].entry == t[|s.records|].entry && after[|s.records|].cause == t[|s.records|].cause
            && after[|s.records|].exit == t[|s.records|].exit
  {
  }

  /** A signal asked for after bar k was computed on bars 0 to k. */
  lemma PendingExplained(setup: Setup, bars: seq<Bar>, k: nat, s: State)
    requires k < |bars| && History(setup, bars, k, s) && Step(setup, s, bars[k], k + 1 == |bars|).Ok?
    requires Traded(setup, s, bars[k], k + 1 == |bars|).pending.None?
    ensures var after := Step(setup, s, bars[k], k + 1 == |bars|).value;
            && after.candles == Candles(setup, bars[..k + 1])
            && (after.pending.Some? ==>
                  after.position.None? && k >= after.cooldownUntil && SignalledOn(setup, bars, k + 1, after.pending))
  {
  }

  lemma StepHistory(setup: Setup, bars: seq<Bar>, k: nat, s: State)
    requires k < |bars| && ValidBar(bars[k]) && History(setup, bars, k, s)
    requires Step(setup, s, bars[k], k + 1 == |bars|).Ok?
    ensures History(setup, bars, k + 1, Step(setup, s, bars[k], k + 1 == |bars|).value)
  {
    hide Step, Traded, Enter, Evaluate, Candles, Spaced, OneAtATime, EntryExplained, Closes, SignalledOn;
    var last := k + 1 == |bars|;
    var t, after := Traded(setup, s, bars[k], last), Step(setup, s, bars[k], last).value;
    BarAdds(setup, bars, k, s);
    StepRecords(setup, s, bars[k], last);
    StepBooks(setup, s, bars[k], last);
    PendingExplained(setup, bars, k, s);
    assert |s.records| == k;
    assert ExitPriced(bars, after.records, k);
    hide ExitPriced;
    SpacingGrows(setup, bars, k, s, after.records, t.cooldownUntil);
    OverlapGrows(setup, bars, k, s, after.records, after.position.None?);
    ExplainedGrows(setup, bars, k, s, after.records);
  }

  lemma SpacingGrows(setup: Setup, bars: seq<Bar>, k: nat, s: State, after: seq<BarRecord>, cooldownUntil: int)
    requires k < |bars| && History(setup, bars, k, s) && |after| == k + 1 && after[..k] == s.records
    requires after[k].entry.Some? ==> k - 1 >= s.cooldownUntil
    requires cooldownUntil == if after[k].exit.Some? then k + setup.strategy.cooldownBars + 1 else s.cooldownUntil
    ensures Spaced(setup, after)
    ensures forall i :: 0 <= i < k + 1 && after[i].exit.Some? ==> i + setup.strategy.cooldownBars + 1 <= cooldownUntil
  {
    hide OneAtATime, EntryExplained, ExitPriced, SignalledOn, Closes;
    assert forall i :: 0 <= i < k ==> after[i] == s.records[i];
  }

  lemma OverlapGrows(setup: Setup, bars: seq<Bar>, k: nat, s: State, after: seq<BarRecord>, flat: bool)
    requires k < |bars| && History(setup, bars, k, s) && |after| == k + 1 && after[..k] == s.records
    requires after[k].entry.Some? ==> s.position.None?
    requires flat ==> after[k].exit.Some? || (s.position.None? && after[k].entry.None?)
    ensures OneAtATime(after)
    ensures flat ==> forall j: nat :: j < k + 1 && after[j].entry.Some? ==> Closes(after, j, k + 1)
  {
    assert forall i :: 0 <= i < k ==> after[i] == s.records[i];
    hide Spaced, EntryExplained, ExitPriced, SignalledOn;
    forall j: nat, l: nat | j < l < |after| && after[j].entry.Some? && after[l].entry.Some?
      ensures Closes(after, j, l)
    {
      ClosesGrow(s.records, after, j, l, l);
    }
    if flat {
      forall j: nat | j < k + 1 && after[j].entry.Some? ensures Closes(after, j, k + 1) {
        if !after[k].exit.Some? { ClosesGrow(s.records, after, j, k, k + 1); }
      }
    }
  }

  lemma ExplainedGrows(setup: Setup, bars: seq<Bar>, k: nat, s: State, after: seq<BarRecord>)
    requires k < |bars| && History(setup, bars, k, s) && |after| == k + 1 && after[..k] == s.records
    requires after[k].entry.Some? ==>
               s.pending.Some? && after[k].cause == s.pending &&
                 after[k].entry == Enter(setup, s.pending.value, bars[k])
    requires ExitPriced(bars, after, k)
    ensures forall j: nat :: j < k + 1 ==> EntryExplained(setup, bars, after, j) && ExitPriced(bars, after, j)
  {
    hide Spaced, OneAtATime, Closes, SignalledOn, Enter;
    forall j: nat | j < k ensures EntryExplained(setup, bars, after, j) && ExitPriced(bars, after, j) {
      assert after[j] == s.records[j];
      assert EntryExplained(setup, bars, s.records, j) && ExitPriced(bars, s.records, j);
    }
  }

  lemma {:induction false} AlwaysHistory(setup: Setup, bars: seq<Bar>, k: nat)
    requires ValidBars(bars) && k <= |bars| && Fold(setup, bars, k).Ok?
    ensures History(setup, bars, k, Fold(setup, bars, k).value)
  {
    hide Step;
    if k == 0 {
    } else {
      AlwaysHistory(setup, bars, k - 1);
      StepHistory(setup, bars, k - 1, Fold(setup, bars, k - 1).value);
      hide History;
    }
  }

  /**
   Spacing over a whole replay: positions do not overlap, an exit at bar i is followed by no entry before bar
   i + cooldown + 2, each entry at bar j comes from the signal on bars 0 to j - 1, fills inside bar j and is
   within the exposure cap, and stops fill inside their bar.
   */
  lemma TradesAreSpaced(setup: Setup, bars: seq<Bar>, j: nat)
    requires ValidBars(bars) && Fold(setup, bars, |bars|).Ok? && j < |bars|
    ensures var records := Fold(setup, bars, |bars|).value.records;
            && |records| == |bars| && Spaced(setup, records) && OneAtATime(records)
            && EntryExplained(setup, bars, records, j) && ExitPriced(bars, records, j)
            && (records[j].entry.Some? ==> SoundEntry(setup, records[j].cause.value, records[j].entry.value, bars[j]))
  {
    AlwaysHistory(setup, bars, |bars|);
    var records := Fold(setup, bars, |bars|).value.records;
    hide Fold, Enter, SoundEntry, Spaced, OneAtATime, ExitPriced, SignalledOn;
    assert EntryExplained(setup, bars, records, j);
    if records[j].entry.Some? { EntrySound(setup, records[j].cause.value, bars[j]); }
  }

  // ----- signals, levels and sizing together

  predicate ValidExperiment(experiment: Experiment) {
    && experiment.availableBalance >= 0.0
    && 0.0 < experiment.maxLossPerTradePct <= 0.02
    && 1.0 <= experiment.mandateMaxLeverage <= 20.0
    && 1.0 <= experiment.brokerMaxLeverage <= 200.0
    && 0.0 <= experiment.agentConfidence <= 1.0
    && experiment.quantityStep > 0.0 && experiment.minimumOrderQuantity >= 0.0 && experiment.minimumNotional >= 0.0
  }

  /**
   Sizing accepts the input built from a wide enough signal if and only if costs are at most a tenth and a
   buy stop is at least one tick.
   */
  lemma SignalsPassValidationIff(setup: Setup, candles: seq<Candle>, ticker: Ticker, bar: Bar)
    requires ValidStrategy(setup.strategy) && ValidExperiment(setup.experiment) && ticker.lastPrice > 0.0
    ensures var r := Evaluate(setup.strategy, candles, ticker, setup.shift);
            r.Ok? && r.value.Some? && WideEnough(r.value.value, setup.experiment.tickSize) ==>
            (ValidInput(ReplaySizing(setup, r.value.value, RoundedLevels(r.value.value, setup.experiment.tickSize),
                                     bar)) <==>
             CostBps(setup.strategy) + Abs(bar.fundingRate) * 10000.0 <= 1000.0 &&
             (r.value.value.side == Buy ==> r.value.value.stopLoss >= setup.experiment.tickSize))
  {
    hide Evaluate, RoundedLevels, WideEnough;
    var r := Evaluate(setup.strategy, candles, ticker, setup.shift);
    SignalsAreSane(setup.strategy, candles, ticker, setup.shift);
    if r.Ok? && r.value.Some? && WideEnough(r.value.value, setup.experiment.tickSize) {
      RoundedValidIff(r.value.value, setup.experiment.tickSize);
    }
  }

  /** After bar j the engine is asked for a signal, and on bars 0 to j a buy stop would not be positive. */
  ghost predicate RaisesAfter(setup: Setup, bars: seq<Bar>, j: nat)
    requires j < |bars|
  {
    && Fold(setup, bars, j).Ok?
    && Asks(Traded(setup, Fold(setup, bars, j).value, bars[j], j + 1 == |bars|))
    && Buys(setup.strategy, Candles(setup, bars[..j + 1]), TickerOf(setup, bars[j]), setup.shift)
  }

  predicate Buys(strategy: Strategy, candles: seq<Candle>, ticker: Ticker, shift: int)
    requires ticker.lastPrice > 0.0
  {
    strategy.family.MomentumTrend? && |candles| >= SlowWindow(strategy, shift) &&
      WideStop(strategy, candles, ticker, shift)
  }

  lemma StepRaisesIff(setup: Setup, bars: seq<Bar>, k: nat)
    requires ValidBars(bars) && k < |bars| && Fold(setup, bars, k).Ok?
    ensures Fold(setup, bars, k + 1).Err? <==> RaisesAfter(setup, bars, k)
    ensures Fold(setup, bars, k + 1) != Err(ForeignCandles)
  {
    var s := Fold(setup, bars, k).value;
    AlwaysHistory(setup, bars, k);
    FoldNext(setup, bars, k, s);
    HistoryCandles(setup, bars, k, s);
    CandlesAfter(setup, bars, k, s);
    hide Fold, History, Traded, Evaluate, Asks, WideStop;
    RaisesIff(setup.strategy, Candles(setup, bars[..k + 1]), TickerOf(setup, bars[k]), setup.shift);
  }

  lemma CandlesAfter(setup: Setup, bars: seq<Bar>, k: nat, s: State)
    requires k < |bars| && s.candles == Candles(setup, bars[..k])
    ensures Traded(setup, s, bars[k], k + 1 == |bars|).candles == Candles(setup, bars[..k + 1])
    ensures !Foreign(Candles(setup, bars[..k + 1]), TickerOf(setup, bars[k]))
  {
    hide Entered, Exited, Held, Carried, PriceReturn, FundingCost, Grow, Clamp, TradeCost, ExposureOf, ExitExposure;
  }

  /**
   A replay raises if and only if, after some bar, the engine is asked and a buy stop would not be positive.
   Its candles are always closed and its own.
   */
  lemma {:induction false} ReplayRaisesIff(setup: Setup, bars: seq<Bar>, k: nat)
    requires ValidBars(bars) && k <= |bars|
    ensures Fold(setup, bars, k).Err? <==> exists j: nat :: j < k && RaisesAfter(setup, bars, j)
    ensures Fold(setup, bars, k) != Err(ForeignCandles)
  {
    hide RaisesAfter, Step, Fold;
    if k == 0 {
      FoldStart(setup, bars);
    } else {
      ReplayRaisesIff(setup, bars, k - 1);
      if Fold(setup, bars, k - 1).Ok? {
        NotAgain(setup, bars, k);
        StepRaisesIff(setup, bars, k - 1);
      } else {
        FailureStays(setup, bars, k - 1, k);
      }
    }
  }

  lemma NotAgain(setup: Setup, bars: seq<Bar>, k: nat)
    requires 0 < k <= |bars|
    ensures (exists j: nat :: j < k && RaisesAfter(setup, bars, j)) <==>
            RaisesAfter(setup, bars, k - 1) || exists j: nat :: j < k - 1 && RaisesAfter(setup, bars, j)
  {
    hide RaisesAfter;
    if j: nat :| j < k && RaisesAfter(setup, bars, j) {
      assert j == k - 1 || j < k - 1;
    }
  }

  lemma HistoryCandles(setup: Setup, bars: seq<Bar>, k: nat, s: State)
    requires k <= |bars| && History(setup, bars, k, s)
    ensures forall candle :: candle in s.candles ==>
              candle.symbol == setup.experiment.symbol && candle.category == setup.experiment.category && candle.closed
  {
  }

  /** A replay and its drawdown: the largest fall of its equity, and less than everything. */
  method Measure(setup: Setup, bars: seq<Bar>) returns (drawdown: Option<real>)
    requires ValidStrategy(setup.strategy) && ValidBars(bars)
    ensures drawdown.Some? <==> Fold(setup, bars, |bars|).Ok?
    ensures drawdown.Some? ==>
              && AllPositive(Fold(setup, bars, |bars|).value.equity)
              && LargestFall(Fold(setup, bars, |bars|).value.equity, drawdown.value)
              && 0.0 <= drawdown.value < 1.0
  {
    hide Fold;
    var failure, equity, netReturns, turnover, costs, decisions, gross := Run(setup, bars);
    if failure.Some? { return None; }
    AlwaysSolvent(setup, bars, |bars|);
    var fall := MaxDrawdown(equity);
    return Some(fall);
  }

  // ----- the first signal

  /** Before the fiftieth bar nothing is asked, pending or open. */
  lemma {:induction false} QuietStart(setup: Setup, bars: seq<Bar>, k: nat)
    requires k <= |bars| && k < 50
    ensures Fold(setup, bars, k).Ok?
    ensures var s := Fold(setup, bars, k).value;
            s.pending.None? && s.position.None? && s.cooldownUntil == 0 && |s.candles| == k
  {
    hide Evaluate, Enter, Touched, PriceReturn, FundingCost, Grow, Clamp, TradeCost;
    if k > 0 { QuietStart(setup, bars, k - 1); }
  }

  const WILD_BARS: seq<Bar> :=
    seq(50, i => Bar(2.0, 10.0, 0.5, if i == 49 then 3.0 else if i == 48 then 2.0 else 1.0, 1.0, 0.0))

  /** Fifty valid bars on which the replay of any experiment with this strategy raises. */
  lemma WildBarsRaise(experiment: Experiment)
    requires experiment.category == Linear && experiment.symbol == "BTCUSDT"
    ensures ValidBars(WILD_BARS) && Fold(Setup(BREAKOUT, experiment, 0), WILD_BARS, 50) == Err(InvalidSignal)
  {
    var setup := Setup(BREAKOUT, experiment, 0);
    var candles := Candles(setup, WILD_BARS[..50]);
    assert WILD_BARS[..50] == WILD_BARS;
    assert candles[47..] == [Wild(1.0), Wild(2.0), Wild(3.0)];
    WildAverages(candles);
    AverageAtLeast(TrueRanges(Last(candles, 15)), 9.5);
    QuietStart(setup, WILD_BARS, 49);
    AsksAtFifty(setup, WILD_BARS);
    hide Fold, Average, TrueRanges, Closes, Traded, Asks;
    assert WideStop(BREAKOUT, candles, TickerOf(setup, WILD_BARS[49]), 0);
    assert RaisesAfter(setup, WILD_BARS, 49);
    ReplayRaisesIff(setup, WILD_BARS, 50);
    assert Fold(setup, WILD_BARS, 50).error != ForeignCandles;
  }

  lemma AsksAtFifty(setup: Setup, bars: seq<Bar>)
    requires |bars| >= 50
    ensures Fold(setup, bars, 49).Ok? && Asks(Traded(setup, Fold(setup, bars, 49).value, bars[49], 50 == |bars|))
  {
    QuietStart(setup, bars, 49);
    hide Fold, Evaluate, Enter, Touched, PriceReturn, FundingCost, Grow, Clamp, TradeCost;
  }
}
