/**
 Outcomes of whole trades of a replay: without costs a long trade that closes above its fill makes equity rise,
 whatever path the price took, a short one need not, and when a replay looks for its next signal.
 */
module TradeOutcomes {
  import opened Common
  import opened Sizing
  import opened Signals
  import opened Replay
  import opened ReplaySafety
  import opened ReplayReturns
  import opened PricePaths

  // ----- the path of a trade

  /** The fill of a trade, and the closes it was carried over until bar m. */
  function PathOf(bars: seq<Bar>, fill: Positive, j: nat, m: nat): (path: seq<Positive>)
    requires j <= m <= |bars|
    ensures |path| == m - j + 1 && path[0] == fill
    ensures m > j ==> path[|path| - 1] == bars[m - 1].closePrice
    ensures m > j ==> path == PathOf(bars, fill, j, m - 1) + [bars[m - 1].closePrice]
    decreases m
  {
    if m == j then [fill] else PathOf(bars, fill, j, m - 1) + [bars[m - 1].closePrice]
  }

  /** What one bar makes of the gross equity of an open trade. */
  predicate Moves(before: real, after: real, p: Position, reference: Positive, mark: real) {
    after == before * (1.0 + Limited(Gain(p.side, p.exposure, reference, mark)))
  }

  /** The value is at least what the share makes of the path from the start. */
  predicate Covers(value: real, start: real, path: seq<Positive>, x: real) {
    value >= start * Grown(path, x)
  }

  /** One more price on the path of a long trade. */
  lemma LongMoves(start: real, before: real, after: real, p: Position, path: seq<Positive>, mark: Positive)
    requires p.side == Buy && 0.0 < p.exposure <= 1.0 && |path| > 0 && before > 0.0
    requires Covers(before, start, path, p.exposure) && Moves(before, after, p, path[|path| - 1], mark)
    ensures Covers(after, start, path + [mark], p.exposure)
  {
    hide Gain, Limited, Grown, Factor;
    MovesAtLeast(before, after, p, path[|path| - 1], mark);
    GrowsOn(path, p.exposure, start, before, after, mark);
  }

  lemma MovesAtLeast(before: real, after: real, p: Position, reference: Positive, mark: Positive)
    requires p.side == Buy && before > 0.0 && Moves(before, after, p, reference, mark)
    ensures after >= before * Factor(reference, mark, p.exposure)
  {
    hide Factor, Gain, Limited;
    GainIsMove(p.exposure, reference, mark);
    TimesMonotone(Factor(reference, mark, p.exposure), 1.0 + Limited(Gain(Buy, p.exposure, reference, mark)), before);
  }

  lemma GrowsOn(path: seq<Positive>, x: real, start: real, before: real, after: real, price: Positive)
    requires |path| > 0 && 0.0 < x <= 1.0 && before >= start * Grown(path, x)
    requires after >= before * Factor(path[|path| - 1], price, x)
    ensures after >= start * Grown(path + [price], x)
  {
    hide Grown, Factor;
    GrownMore(path, price, x);
    FactorBounds(path[|path| - 1], price, x);
    TimesMonotone(start * Grown(path, x), before, Factor(path[|path| - 1], price, x));
    Associate(start, Grown(path, x), Factor(path[|path| - 1], price, x));
  }

  lemma CoversStart(start: real, fill: Positive, x: real)
    ensures Covers(start, start, [fill], x)
  {
    GrownOne([fill], x);
  }

  lemma CoversPays(value: real, start: real, path: seq<Positive>, x: real)
    requires Covers(value, start, path, x) && start > 0.0 && 0.0 < x <= 1.0
    requires |path| >= 2 && path[|path| - 1] >= path[0]
    ensures value >= start && (path[|path| - 1] > path[0] ==> value > start)
  {
    PathPays(path, x);
    TimesMonotone(1.0, Grown(path, x), start);
    if Grown(path, x) > 1.0 { TimesStrict(1.0, Grown(path, x), start); }
    hide Grown;
  }

  lemma GainIsMove(exposure: real, reference: Positive, mark: Positive)
    ensures 1.0 + Limited(Gain(Buy, exposure, reference, mark)) >= Factor(reference, mark, exposure)
  {
  }

  /** One bar of an open trade: what the price made of the gross equity, and at which mark. */
  lemma GrossBar(setup: Setup, bars: seq<Bar>, j: nat, m: nat)
    requires ValidBars(bars) && j <= m < |bars| && Fold(setup, bars, |bars|).Ok?
    requires Open(Fold(setup, bars, |bars|).value.records, j, m)
    ensures Fold(setup, bars, m).Ok? && Fold(setup, bars, m + 1).Ok?
    ensures var f := Fold(setup, bars, |bars|).value;
            && |f.records| == |bars|
            && var p := f.records[j].entry.value;
               var reference: Positive := if j == m then p.reference else bars[m - 1].closePrice;
               var mark := Marked(p.side, p.stopLoss, p.takeProfit, bars[m]);
               && Moves(Fold(setup, bars, m).value.grossEquity, Fold(setup, bars, m + 1).value.grossEquity, p,
                        reference, mark)
               && (if f.records[m].exit.Some? then f.records[m].exit.value.price == mark
                   else mark == bars[m].closePrice)
  {
    hide Fold, Around, TradeEarns, Limited, Gain;
    Prefixes(setup, bars, m);
    FoldAround(setup, bars, m);
    var early, f := Fold(setup, bars, m + 1).value, Fold(setup, bars, |bars|).value;
    assert early.records[j] == f.records[j] && early.records[m] == f.records[m];
    assert Open(early.records, j, m);
    OpenEarns(setup, bars, Fold(setup, bars, m).value, early, j, m);
    MarksClose(setup, bars, early, j, m);
  }

  lemma MarksClose(setup: Setup, bars: seq<Bar>, f: State, j: nat, k: nat)
    requires j <= k < |bars| && |f.records| > k && f.records[j].entry.Some? && TradeEarns(setup, bars, f, j, k)
    ensures var p := f.records[j].entry.value;
            var mark := Marked(p.side, p.stopLoss, p.takeProfit, bars[k]);
            if f.records[k].exit.Some? then f.records[k].exit.value.price == mark else mark == bars[k].closePrice
  {
    hide Limited, Gain, FeesOn, FundingOn;
  }

  lemma GrossPositive(setup: Setup, bars: seq<Bar>, m: nat)
    requires ValidStrategy(setup.strategy) && ValidBars(bars) && m <= |bars| && Fold(setup, bars, m).Ok?
    ensures Fold(setup, bars, m).value.grossEquity > 0.0
  {
    AlwaysSolvent(setup, bars, m);
    hide Fold;
  }

  /** While a long trade is open, gross equity has grown by at least what the share makes of its path so far. */
  lemma {:induction false} LongGrows(setup: Setup, bars: seq<Bar>, j: nat, m: nat)
    requires ValidStrategy(setup.strategy) && ValidBars(bars) && j <= m < |bars| && Fold(setup, bars, |bars|).Ok?
    requires Open(Fold(setup, bars, |bars|).value.records, j, m)
    requires var p := Fold(setup, bars, |bars|).value.records[j].entry.value; p.side == Buy && 0.0 < p.exposure <= 1.0
    ensures Fold(setup, bars, j).Ok? && Fold(setup, bars, m).Ok?
    ensures var p := Fold(setup, bars, |bars|).value.records[j].entry.value;
            Covers(Fold(setup, bars, m).value.grossEquity, Fold(setup, bars, j).value.grossEquity,
                   PathOf(bars, p.reference, j, m), p.exposure)
    decreases m
  {
    hide Fold, Marked, Moves, Covers, ValidStrategy;
    GrossBar(setup, bars, j, m);
    var p := Fold(setup, bars, |bars|).value.records[j].entry.value;
    if m == j {
      CoversStart(Fold(setup, bars, j).value.grossEquity, p.reference, p.exposure);
    } else {
      assert Open(Fold(setup, bars, |bars|).value.records, j, m - 1);
      LongGrows(setup, bars, j, m - 1);
      GrossBar(setup, bars, j, m - 1);
      GrossPositive(setup, bars, m - 1);
      LongMoves(Fold(setup, bars, j).value.grossEquity, Fold(setup, bars, m - 1).value.grossEquity,
                Fold(setup, bars, m).value.grossEquity, p, PathOf(bars, p.reference, j, m - 1),
                bars[m - 1].closePrice);
    }
  }

  // ----- a long trade that closes above its fill

  lemma EntryExposure(setup: Setup, bars: seq<Bar>, j: nat)
    requires ValidStrategy(setup.strategy) && ValidBars(bars) && Fold(setup, bars, |bars|).Ok? && j < |bars|
    ensures var records := Fold(setup, bars, |bars|).value.records;
            && |records| == |bars|
            && (records[j].entry.Some? ==> 0.0 < records[j].entry.value.exposure <= 1.0)
  {
    TradesAreSpaced(setup, bars, j);
    hide Fold, RoundedLevels, Spaced, OneAtATime, EntryExplained, ExitPriced;
  }

  /**
   Before costs, a long trade that closes above its fill has made gross equity grow, and one that closes at it
   has not made it fall, whatever the price did while it was open.
   */
  lemma LongTradePays(setup: Setup, bars: seq<Bar>, j: nat, k: nat)
    requires ValidStrategy(setup.strategy) && ValidBars(bars) && j <= k < |bars| && Fold(setup, bars, |bars|).Ok?
    requires var records := Fold(setup, bars, |bars|).value.records;
             && Open(records, j, k) && k < |records| && records[k].exit.Some?
             && records[j].entry.value.side == Buy
             && records[k].exit.value.price >= records[j].entry.value.reference
    ensures Fold(setup, bars, j).Ok? && Fold(setup, bars, k + 1).Ok?
    ensures var records := Fold(setup, bars, |bars|).value.records;
            var before, after := Fold(setup, bars, j).value.grossEquity, Fold(setup, bars, k + 1).value.grossEquity;
            && after >= before > 0.0
            && (records[k].exit.value.price > records[j].entry.value.reference ==> after > before)
  {
    EntryExposure(setup, bars, j);
    LongGrows(setup, bars, j, k);
    GrossBar(setup, bars, j, k);
    GrossPositive(setup, bars, j);
    GrossPositive(setup, bars, k);
    hide Fold, Marked, Moves, Covers, ValidStrategy;
    var records := Fold(setup, bars, |bars|).value.records;
    var p, price := records[j].entry.value, records[k].exit.value.price;
    var path := PathOf(bars, p.reference, j, k);
    LongMoves(Fold(setup, bars, j).value.grossEquity, Fold(setup, bars, k).value.grossEquity,
              Fold(setup, bars, k + 1).value.grossEquity, p, path, price);
    CoversPays(Fold(setup, bars, k + 1).value.grossEquity, Fold(setup, bars, j).value.grossEquity, path + [price],
               p.exposure);
  }

  /** The prices of a long entry: it fills no higher than its level, and that is below its target. */
  lemma LongFillsBelow(setup: Setup, signal: Signal, bar: Bar)
    requires ValidBar(bar) && Enter(setup, signal, bar).Some? && signal.side == Buy
    ensures Enter(setup, signal, bar).value.reference < Enter(setup, signal, bar).value.takeProfit
  {
    EntrySound(setup, signal, bar);
    EnterIs(setup, signal, bar);
    hide RoundedLevels, Size, Enter, ReplaySizing;
  }

  /** So a long trade closed at its target always pays before costs. */
  lemma LongTargetPays(setup: Setup, bars: seq<Bar>, j: nat, k: nat)
    requires ValidStrategy(setup.strategy) && ValidBars(bars) && j <= k < |bars| && Fold(setup, bars, |bars|).Ok?
    requires var records := Fold(setup, bars, |bars|).value.records;
             && Open(records, j, k) && k < |records| && records[j].entry.value.side == Buy
             && bars[k].lowPrice > records[j].entry.value.stopLoss
             && bars[k].highPrice >= records[j].entry.value.takeProfit
    ensures Fold(setup, bars, j).Ok? && Fold(setup, bars, k + 1).Ok?
    ensures Fold(setup, bars, k + 1).value.grossEquity > Fold(setup, bars, j).value.grossEquity
  {
    TradeReturn(setup, bars, j, k);
    EntryBelowTarget(setup, bars, j);
    hide Fold, ValidStrategy, Gain, FeesOn, FundingOn, Limited;
    LongTradePays(setup, bars, j, k);
  }

  lemma EntryBelowTarget(setup: Setup, bars: seq<Bar>, j: nat)
    requires ValidStrategy(setup.strategy) && ValidBars(bars) && Fold(setup, bars, |bars|).Ok? && j < |bars|
    ensures var records := Fold(setup, bars, |bars|).value.records;
            && |records| == |bars|
            && (records[j].entry.Some? && records[j].entry.value.side == Buy ==>
                  records[j].entry.value.reference < records[j].entry.value.takeProfit)
  {
    hide Fold, RoundedLevels, Spaced, OneAtATime, ExitPriced, Enter, ValidLevels, ValidStrategy;
    TradesAreSpaced(setup, bars, j);
    var r := Fold(setup, bars, |bars|).value.records[j];
    if r.entry.Some? && r.entry.value.side == Buy { LongFillsBelow(setup, r.cause.value, bars[j]); }
  }

  /** A short trade need not: between a fill at 100 and a target at 99, one close at 180 is enough to lose. */
  lemma ShortTargetMayLose()
    ensures (1.0 + Limited(Gain(Sell, 0.5, 100.0, 180.0))) * (1.0 + Limited(Gain(Sell, 0.5, 180.0, 99.0))) < 1.0
  {
    assert Gain(Sell, 0.5, 100.0, 180.0) == -0.4;
    assert Gain(Sell, 0.5, 180.0, 99.0) == 0.225;
  }

  // ----- the next signal

  /** The strategy has rested since every exit up to bar k. */
  ghost predicate Rested(setup: Setup, records: seq<BarRecord>, k: nat)
    requires k < |records|
  {
    forall i :: 0 <= i <= k && records[i].exit.Some? ==> k >= i + setup.strategy.cooldownBars + 1
  }

  /** The cooldown ends where the last exit says, or there was none. */
  ghost predicate CooldownExact(setup: Setup, s: State) {
    s.cooldownUntil == 0 ||
    exists i :: 0 <= i < |s.records| && s.records[i].exit.Some? &&
                s.cooldownUntil == i + setup.strategy.cooldownBars + 1
  }

  lemma StepCools(setup: Setup, s: State, bar: Bar, last: bool)
    requires CooldownExact(setup, s) && |s.records| == |s.candles| && Step(setup, s, bar, last).Ok?
    ensures CooldownExact(setup, Step(setup, s, bar, last).value)
  {
    hide Step, Traded, CooldownExact;
    var after := Step(setup, s, bar, last).value;
    StepRecords(setup, s, bar, last);
    StepBooks(setup, s, bar, last);
    TradedCools(setup, s, bar, last);
    StillExact(setup, s, after);
  }

  lemma TradedCools(setup: Setup, s: State, bar: Bar, last: bool)
    ensures var t := Traded(setup, s, bar, last);
            && |t.records| == |s.records| + 1
            && t.cooldownUntil ==
               if t.records[|s.records|].exit.Some? then |s.candles| + setup.strategy.cooldownBars + 1
               else s.cooldownUntil
  {
    hide Entered, Exited, Held, Carried, PriceReturn, FundingCost, Grow, Clamp, TradeCost, ExposureOf, ExitExposure;
  }

  lemma StillExact(setup: Setup, s: State, after: State)
    requires CooldownExact(setup, s) && |after.records| == |s.records| + 1 && after.records[..|s.records|] == s.records
    requires after.cooldownUntil == if after.records[|s.records|].exit.Some?
             then |s.records| + setup.strategy.cooldownBars + 1 else s.cooldownUntil
    ensures CooldownExact(setup, after)
  {
    if s.cooldownUntil != 0 && after.records[|s.records|].exit.None? {
      var i :| 0 <= i < |s.records| && s.records[i].exit.Some? &&
        s.cooldownUntil == i + setup.strategy.cooldownBars + 1;
      assert after.records[i] == s.records[i];
    }
  }

  lemma {:induction false} AlwaysExact(setup: Setup, bars: seq<Bar>, k: nat)
    requires ValidBars(bars) && k <= |bars| && Fold(setup, bars, k).Ok?
    ensures CooldownExact(setup, Fold(setup, bars, k).value)
  {
    hide Step;
    if k > 0 {
      AlwaysExact(setup, bars, k - 1);
      AlwaysHistory(setup, bars, k - 1);
      StepCools(setup, Fold(setup, bars, k - 1).value, bars[k - 1], k == |bars|);
    }
  }

  /** After bar k the engine is asked: nothing is open, fifty bars are complete, and every exit has cooled down. */
  ghost predicate Sought(setup: Setup, after: State, k: nat)
    requires k < |after.records|
  {
    after.position.None? && k + 1 >= 50 && Rested(setup, after.records, k)
  }

  /**
   The engine is asked after a bar exactly when nothing is open, fifty bars are complete and every exit has
   cooled down; it sees all bars so far, and what it answers is the pending signal.
   */
  lemma SoughtIff(setup: Setup, bars: seq<Bar>, k: nat)
    requires ValidBars(bars) && k < |bars| && Fold(setup, bars, k + 1).Ok?
    ensures Fold(setup, bars, k).Ok?
    ensures var s, after := Fold(setup, bars, k).value, Fold(setup, bars, k + 1).value;
            && |after.records| == k + 1
            && after.decisions == s.decisions + (if Sought(setup, after, k) then 1 else 0)
            && (if Sought(setup, after, k)
                then Evaluate(setup.strategy, Candles(setup, bars[..k + 1]), TickerOf(setup, bars[k]), setup.shift) ==
                     Ok(after.pending)
                else after.pending.None?)
  {
    hide Step, Traded, History, Rested, CooldownExact, Evaluate;
    var s, after := Fold(setup, bars, k).value, Fold(setup, bars, k + 1).value;
    var last := k + 1 == |bars|;
    AlwaysHistory(setup, bars, k);
    AlwaysHistory(setup, bars, k + 1);
    AlwaysExact(setup, bars, k + 1);
    FoldNext(setup, bars, k, s);
    BarAdds(setup, bars, k, s);
    HistoryCandles(setup, bars, k, s);
    CandlesNow(setup, bars, k, s);
    CoolsIff(setup, bars, k, after);
    StepAsks(setup, s, bars[k], last);
    hide Fold;
  }

  lemma CandlesNow(setup: Setup, bars: seq<Bar>, k: nat, s: State)
    requires k < |bars| && History(setup, bars, k, s)
    ensures Traded(setup, s, bars[k], k + 1 == |bars|).candles == Candles(setup, bars[..k + 1])
  {
    CandlesAfter(setup, bars, k, s);
    hide Traded;
  }

  lemma CoolsIff(setup: Setup, bars: seq<Bar>, k: nat, after: State)
    requires k < |bars| && History(setup, bars, k + 1, after) && CooldownExact(setup, after)
    ensures |after.records| == k + 1 && (Rested(setup, after.records, k) <==> k >= after.cooldownUntil)
  {
    hide Spaced, OneAtATime, EntryExplained, ExitPriced, SignalledOn;
  }

  lemma StepAsks(setup: Setup, s: State, bar: Bar, last: bool)
    requires Step(setup, s, bar, last).Ok?
    ensures var t, after := Traded(setup, s, bar, last), Step(setup, s, bar, last).value;
            && after.position == t.position && after.cooldownUntil == t.cooldownUntil
            && t.decisions == s.decisions
            && (if Asks(t)
                then after.decisions == t.decisions + 1 &&
                     Evaluate(setup.strategy, t.candles, TickerOf(setup, bar), setup.shift) == Ok(after.pending)
                else after.decisions == t.decisions && after.pending == t.pending)
  {
    hide Evaluate, Entered, Exited, Held, Carried, PriceReturn, FundingCost, Grow, Clamp, TradeCost, ExposureOf,
         ExitExposure;
  }
}
