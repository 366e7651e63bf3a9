/**
 The signal engine in the fields of candles and strategy: exactly when it calls for a buy or a sell, and every
 number of the signal it returns.
 */
module SignalRules {
  import opened Common
  import opened Sizing
  import opened Signals

  // ----- windows of candles

  /** The closing prices of the newest n candles. */
  function NewestCloses(candles: seq<Candle>, n: nat): (closes: seq<real>)
    requires n <= |candles|
    ensures |closes| == n && forall i :: 0 <= i < n ==> closes[i] == candles[|candles| - n + i].closePrice
  {
    seq(n, i requires 0 <= i < n => candles[|candles| - n + i].closePrice)
  }

  function NewestVolumes(candles: seq<Candle>, n: nat): (volumes: seq<real>)
    requires n <= |candles|
    ensures |volumes| == n && forall i :: 0 <= i < n ==> volumes[i] == candles[|candles| - n + i].volume
  {
    seq(n, i requires 0 <= i < n => candles[|candles| - n + i].volume)
  }

  /** The largest of a bar's own range and its distances from an earlier price. */
  function Span(candle: Candle, before: real): real {
    var own := candle.highPrice - candle.lowPrice;
    var up := if candle.highPrice >= before then candle.highPrice - before else before - candle.highPrice;
    var down := if candle.lowPrice >= before then candle.lowPrice - before else before - candle.lowPrice;
    if own >= up && own >= down then own else if up >= down then up else down
  }

  /** The spans of the newest n candles: the first from its own open, each other from the close before it. */
  function NewestSpans(candles: seq<Candle>, n: nat): (spans: seq<real>)
    requires n <= |candles|
    ensures |spans| == n
    ensures forall i :: 0 <= i < n ==>
              var bar := candles[|candles| - n + i];
              spans[i] == Span(bar, if i == 0 then bar.openPrice else candles[|candles| - n + i - 1].closePrice)
  {
    seq(n, i requires 0 <= i < n =>
      Span(candles[|candles| - n + i],
           if i == 0 then candles[|candles| - n].openPrice else candles[|candles| - n + i - 1].closePrice))
  }

  function Mean(values: seq<real>): real
    requires |values| > 0
  {
    Sum(values) / |values| as real
  }

  /** Adding up is what it should be: one value is itself, and two stretches add. */
  lemma {:induction false} SumJoins(a: seq<real>, b: seq<real>)
    ensures Sum(a + b) == Sum(a) + Sum(b)
    ensures |a| == 1 ==> Sum(a) == a[0]
  {
    if |b| == 0 {
      assert a + b == a;
    } else {
      SumJoins(a, b[..|b| - 1]);
      assert (a + b)[..|a + b| - 1] == a + b[..|b| - 1];
    }
    if |a| == 1 { assert a[..0] == []; }
  }

  /** The slow window is the strategy's own, moved by the shift; the fast one is 20 bars, and shorter. */
  function SlowBars(strategy: Strategy, shift: int): int {
    if strategy.window + shift >= 3 then strategy.window + shift else 3
  }

  function FastBars(strategy: Strategy, shift: int): int {
    if 20 + shift >= SlowBars(strategy, shift) then SlowBars(strategy, shift) - 1
    else if 20 + shift >= 2 then 20 + shift
    else 2
  }

  /** What the engine compares, in candle fields. */
  datatype Reading = Reading(fast: real, slow: real, range: real, last: real)

  function Read(strategy: Strategy, candles: seq<Candle>, ticker: Ticker, shift: int): (r: Reading)
    requires |candles| >= SlowBars(strategy, shift)
    ensures r.last == ticker.lastPrice
  {
    Reading(Mean(NewestCloses(candles, FastBars(strategy, shift))),
            Mean(NewestCloses(candles, SlowBars(strategy, shift))),
            Mean(NewestSpans(candles, if |candles| < 15 then |candles| else 15)), ticker.lastPrice)
  }

  /** A momentum strategy over enough closed candles of the ticker itself. */
  ghost predicate Watches(strategy: Strategy, candles: seq<Candle>, ticker: Ticker, shift: int) {
    && strategy.family.MomentumTrend? && |candles| >= SlowBars(strategy, shift)
    && forall i :: 0 <= i < |candles| ==>
         candles[i].symbol == ticker.symbol && candles[i].category == ticker.category && candles[i].closed
  }

  /** How far the stop is from the price: one and a half ranges, and at least half a percent. */
  function StopAway(r: Reading): real {
    if 1.5 * r.range >= 0.005 * r.last then 1.5 * r.range else 0.005 * r.last
  }

  /** The multiple of it at which the target is: 1.5, and up to 3 the wider apart the averages are. */
  function RewardMultiple(r: Reading): real
    requires r.last > 0.0
  {
    var apart := (if r.fast >= r.slow then r.fast - r.slow else r.slow - r.fast) / r.last;
    if 50.0 * apart <= 1.5 then 1.5 + 50.0 * apart else 3.0
  }

  // ----- the engine reads the same

  lemma WindowsAre(strategy: Strategy, shift: int)
    ensures SlowWindow(strategy, shift) == SlowBars(strategy, shift)
    ensures FastWindow(strategy, shift) == FastBars(strategy, shift)
  {
  }

  lemma ClosesAre(candles: seq<Candle>, n: nat)
    requires 0 < n <= |candles|
    ensures Average(Closes(Last(candles, n))) == Mean(NewestCloses(candles, n))
  {
    assert Closes(Last(candles, n)) == NewestCloses(candles, n);
  }

  lemma VolumesAre(candles: seq<Candle>)
    requires |candles| > 0
    ensures Average(Volumes(Last(candles, 20))) ==
            Mean(NewestVolumes(candles, if |candles| < 20 then |candles| else 20))
  {
    assert Volumes(Last(candles, 20)) == NewestVolumes(candles, if |candles| < 20 then |candles| else 20);
  }

  lemma SpanIs(candles: seq<Candle>, i: nat)
    requires i < |candles|
    ensures TrueRange(candles, i) == Span(candles[i], if i > 0 then candles[i - 1].closePrice else candles[i].openPrice)
  {
  }

  lemma SpansAre(candles: seq<Candle>)
    requires |candles| > 0
    ensures Average(TrueRanges(Last(candles, 15))) ==
            Mean(NewestSpans(candles, if |candles| < 15 then |candles| else 15))
  {
    var n := if |candles| < 15 then |candles| else 15;
    var newest := Last(candles, 15);
    hide TrueRange, Span;
    forall i | 0 <= i < n ensures TrueRanges(newest)[i] == NewestSpans(candles, n)[i] {
      SpanIs(newest, i);
      assert newest[i] == candles[|candles| - n + i];
      if i > 0 { assert newest[i - 1] == candles[|candles| - n + i - 1]; }
    }
    assert TrueRanges(newest) == NewestSpans(candles, n);
  }

  lemma WatchesIff(strategy: Strategy, candles: seq<Candle>, ticker: Ticker, shift: int)
    ensures Watches(strategy, candles, ticker, shift) <==>
            && strategy.family.MomentumTrend? && |candles| >= SlowWindow(strategy, shift)
            && !Foreign(candles, ticker)
  {
    WindowsAre(strategy, shift);
    hide SlowWindow, SlowBars;
    if !Foreign(candles, ticker) {
      forall i | 0 <= i < |candles| ensures Matches(candles[i], ticker) { assert candles[i] in candles; }
    }
  }

  /** What is compared in units of the price may be compared in prices. */
  lemma StrongIff(r: Reading)
    requires r.last > 0.0
    ensures TrendStrength(r.fast, r.slow, r.last) >= 0.002 <==> Abs(r.fast - r.slow) >= 0.002 * r.last
  {
    AtMostIff(0.002, r.last, Abs(r.fast - r.slow));
  }

  /** The engine on a reading. */
  function Judged(strategy: Strategy, r: Reading, ratio: real): Result<Option<Signal>, SignalFailure>
    requires r.last > 0.0
  {
    var strength, side := TrendStrength(r.fast, r.slow, r.last), SideOf(strategy, r.fast, r.slow, r.last);
    if strength < 0.002 || side.None? then Ok(None)
    else SignalFor(strategy, side.value, r.range, strength, ratio, r.last)
  }

  lemma EvaluateJudges(strategy: Strategy, candles: seq<Candle>, ticker: Ticker, shift: int)
    requires ticker.lastPrice > 0.0
    ensures !Watches(strategy, candles, ticker, shift) ==>
              Evaluate(strategy, candles, ticker, shift) == Ok(None) ||
              Evaluate(strategy, candles, ticker, shift) == Err(ForeignCandles)
    ensures Watches(strategy, candles, ticker, shift) ==>
              Evaluate(strategy, candles, ticker, shift) ==
              Judged(strategy, Read(strategy, candles, ticker, shift), VolumeRatio(candles))
  {
    WatchesIff(strategy, candles, ticker, shift);
    WindowsAre(strategy, shift);
    hide Watches, SlowWindow, FastWindow, SlowBars, FastBars, Matches, VolumeRatio, TrendStrength, SideOf, SignalFor,
         TrueRanges, Closes, Average, Mean, Last;
    if Watches(strategy, candles, ticker, shift) {
      ClosesAre(candles, SlowWindow(strategy, shift));
      ClosesAre(candles, FastWindow(strategy, shift));
      SpansAre(candles);
    }
  }

  lemma Enough(strategy: Strategy, candles: seq<Candle>, ticker: Ticker, shift: int)
    requires Watches(strategy, candles, ticker, shift)
    ensures |candles| >= SlowBars(strategy, shift)
  {
  }

  // ----- exactly when

  predicate Sided(r: Result<Option<Signal>, SignalFailure>, side: Side) {
    r.Ok? && r.value.Some? && r.value.value.side == side
  }

  lemma JudgedSides(strategy: Strategy, r: Reading, ratio: real)
    requires r.last > 0.0
    ensures Sided(Judged(strategy, r, ratio), Buy) <==>
            r.last > r.fast > r.slow && r.fast - r.slow >= 0.002 * r.last && r.last > StopAway(r)
    ensures Sided(Judged(strategy, r, ratio), Sell) <==>
            r.last < r.fast < r.slow && !strategy.longOnly && r.slow - r.fast >= 0.002 * r.last &&
              r.last > StopAway(r) * RewardMultiple(r)
  {
    StrongIff(r);
    NumbersAre(r);
    var d, m := StopAway(r), RewardMultiple(r);
    TimesStrict(0.0, d, m);
    hide StopDistance, RewardFor, TrendStrength, LeverageFor, StopAway, RewardMultiple;
  }

  lemma NumbersAre(r: Reading)
    requires r.last > 0.0
    ensures StopDistance(r.range, r.last) == StopAway(r) && StopAway(r) > 0.0
    ensures RewardFor(TrendStrength(r.fast, r.slow, r.last)) == RewardMultiple(r) && RewardMultiple(r) >= 1.5
  {
    DivNonnegative(Abs(r.fast - r.slow), r.last);
  }

  /**
   A buy, exactly when the price is above the fast average and that above the slow one, by at least a fifth of
   a percent of the price, and the stop is positive.
   */
  lemma BuysIff(strategy: Strategy, candles: seq<Candle>, ticker: Ticker, shift: int)
    requires ticker.lastPrice > 0.0
    ensures Sided(Evaluate(strategy, candles, ticker, shift), Buy) <==>
            && Watches(strategy, candles, ticker, shift)
            && var r := Read(strategy, candles, ticker, shift);
               r.last > r.fast > r.slow && r.fast - r.slow >= 0.002 * r.last && r.last > StopAway(r)
  {
    hide Evaluate, Judged, Watches, Read, StopAway, Sided, VolumeRatio;
    EvaluateJudges(strategy, candles, ticker, shift);
    if Watches(strategy, candles, ticker, shift) {
      Enough(strategy, candles, ticker, shift);
      JudgedSides(strategy, Read(strategy, candles, ticker, shift), VolumeRatio(candles));
    } else {
      NoSide(Evaluate(strategy, candles, ticker, shift), Buy);
    }
  }

  /** A sell, exactly in the mirrored case of a strategy that is not long-only, with a positive target. */
  lemma SellsIff(strategy: Strategy, candles: seq<Candle>, ticker: Ticker, shift: int)
    requires ticker.lastPrice > 0.0
    ensures Sided(Evaluate(strategy, candles, ticker, shift), Sell) <==>
            && Watches(strategy, candles, ticker, shift)
            && var r := Read(strategy, candles, ticker, shift);
               r.last < r.fast < r.slow && !strategy.longOnly && r.slow - r.fast >= 0.002 * r.last &&
                 r.last > StopAway(r) * RewardMultiple(r)
  {
    hide Evaluate, Judged, Watches, Read, StopAway, RewardMultiple, Sided, VolumeRatio;
    EvaluateJudges(strategy, candles, ticker, shift);
    if Watches(strategy, candles, ticker, shift) {
      Enough(strategy, candles, ticker, shift);
      JudgedSides(strategy, Read(strategy, candles, ticker, shift), VolumeRatio(candles));
    } else {
      NoSide(Evaluate(strategy, candles, ticker, shift), Sell);
    }
  }

  lemma NoSide(r: Result<Option<Signal>, SignalFailure>, side: Side)
    requires r == Ok(None) || r == Err(ForeignCandles)
    ensures !Sided(r, side)
  {
  }

  // ----- every number of a signal

  predicate Numbers(strategy: Strategy, candles: seq<Candle>, r: Reading, s: Signal)
    requires r.last > 0.0 && |candles| > 0
  {
    var volumes := NewestVolumes(candles, if |candles| < 20 then |candles| else 20);
    && s.entryPrice == r.last
    && (s.side == Buy ==>
          s.stopLoss == r.last - StopAway(r) && s.takeProfit == r.last + StopAway(r) * RewardMultiple(r))
    && (s.side == Sell ==>
          s.stopLoss == r.last + StopAway(r) && s.takeProfit == r.last - StopAway(r) * RewardMultiple(r))
    && s.rewardToRisk == RewardMultiple(r)
    && s.trendStrength == (if s.side == Buy then r.fast - r.slow else r.slow - r.fast) / r.last
    && s.realizedVolatility == r.range / r.last
    && s.volumeRatio == (if Mean(volumes) > 0.0 then candles[|candles| - 1].volume / Mean(volumes) else 0.0)
  }

  /** The leverage a signal suggests: a tenth of the price over the stop distance, between one and the limits. */
  predicate Tempered(strategy: Strategy, r: Reading, leverage: real) {
    var top := if strategy.leverageMax <= 20.0 then strategy.leverageMax else 20.0;
    if top * StopAway(r) <= 0.1 * r.last || top <= 1.0 then leverage == top
    else if StopAway(r) > 0.1 * r.last then leverage == 1.0
    else leverage * StopAway(r) == 0.1 * r.last
  }

  lemma JudgedNumbers(strategy: Strategy, candles: seq<Candle>, r: Reading)
    requires r.last > 0.0 && |candles| > 0
    ensures var judged := Judged(strategy, r, VolumeRatio(candles));
            judged.Ok? && judged.value.Some? ==>
              Numbers(strategy, candles, r, judged.value.value) &&
                judged.value.value.suggestedLeverage == LeverageFor(strategy, StopAway(r), r.last)
  {
    NumbersAre(r);
    VolumesAre(candles);
    hide StopDistance, RewardFor, LeverageFor, StopAway, RewardMultiple, Average, Volumes, Mean, Last;
  }

  lemma LeverageIsTempered(strategy: Strategy, r: Reading)
    requires r.last > 0.0 && StopAway(r) > 0.0
    ensures Tempered(strategy, r, LeverageFor(strategy, StopAway(r), r.last))
  {
    var d, last := StopAway(r), r.last;
    var top := if strategy.leverageMax <= 20.0 then strategy.leverageMax else 20.0;
    hide StopAway;
    Tenth(d, last, top);
    Tenth(d, last, 1.0);
  }

  /** A tenth over the stop fraction, compared with a bound. */
  lemma Tenth(d: real, last: real, top: real)
    requires d > 0.0 && last > 0.0
    ensures d / last > 0.0
    ensures top <= 0.1 / (d / last) <==> top * d <= 0.1 * last
    ensures 0.1 / (d / last) * d == 0.1 * last
  {
    var fraction := d / last;
    FractionPositive(d, last);
    DivTimes(d, last);
    AtMostIff(top, fraction, 0.1);
    DivTimes(0.1, fraction);
    var wanted := 0.1 / fraction;
    assert wanted * d == wanted * (fraction * last) == wanted * fraction * last;
    Scaled(top * fraction, 0.1, last);
    assert top * d == top * (fraction * last) == top * fraction * last;
  }

  lemma Scaled(x: real, y: real, z: real)
    requires z > 0.0
    ensures x <= y <==> x * z <= y * z
  {
    if x <= y { TimesMonotone(x, y, z); } else { TimesStrict(y, x, z); }
  }

  /** Every number of every signal, in the fields it was read from. */
  lemma SignalInFields(strategy: Strategy, candles: seq<Candle>, ticker: Ticker, shift: int)
    requires ticker.lastPrice > 0.0
    ensures var result := Evaluate(strategy, candles, ticker, shift);
            result.Ok? && result.value.Some? ==>
              && |candles| >= SlowBars(strategy, shift)
              && var r := Read(strategy, candles, ticker, shift);
                 Numbers(strategy, candles, r, result.value.value) &&
                   Tempered(strategy, r, result.value.value.suggestedLeverage)
  {
    EvaluateJudges(strategy, candles, ticker, shift);
    hide Evaluate, Judged, Numbers, Tempered;
    if Watches(strategy, candles, ticker, shift) {
      var r := Read(strategy, candles, ticker, shift);
      hide Read;
      JudgedNumbers(strategy, candles, r);
      NumbersAre(r);
      LeverageIsTempered(strategy, r);
    }
  }

  // ----- rounded levels

  ghost predicate OnTick(level: real, tick: real) {
    exists k: int :: Multiple(level, tick, k)
  }

  ghost predicate JustBelow(level: real, price: real, tick: real) {
    OnTick(level, tick) && level <= price < level + tick
  }

  ghost predicate JustAbove(level: real, price: real, tick: real) {
    OnTick(level, tick) && level - tick < price <= level
  }

  lemma DownIsJustBelow(price: real, tick: real)
    requires tick > 0.0 && price > 0.0
    ensures JustBelow(RoundDown(price, tick), price, tick)
  {
    RoundDownNear(price, tick);
    FloorIsLargest(price, tick, 0);
  }

  lemma UpIsJustAbove(price: real, tick: real)
    requires tick > 0.0 && price > 0.0
    ensures JustAbove(RoundUp(price, tick), price, tick)
  {
    RoundUpNear(price, tick);
    assert Multiple(RoundUp(price, tick), tick, Ceiling(price / tick));
  }

  /** Every level goes to the tick just below it, but the stop and the target of a sell to the tick just above. */
  lemma LevelsOnTicks(s: Signal, tick: real)
    requires tick > 0.0 && s.entryPrice > 0.0 && s.stopLoss > 0.0 && s.takeProfit > 0.0
    ensures var levels := RoundedLevels(s, tick);
            && JustBelow(levels.entry, s.entryPrice, tick)
            && (s.side == Buy ==>
                  JustBelow(levels.stop, s.stopLoss, tick) && JustBelow(levels.target, s.takeProfit, tick))
            && (s.side == Sell ==>
                  JustAbove(levels.stop, s.stopLoss, tick) && JustAbove(levels.target, s.takeProfit, tick))
  {
    DownIsJustBelow(s.entryPrice, tick);
    if s.side == Buy {
      DownIsJustBelow(s.stopLoss, tick);
      DownIsJustBelow(s.takeProfit, tick);
    } else {
      UpIsJustAbove(s.stopLoss, tick);
      UpIsJustAbove(s.takeProfit, tick);
    }
    hide RoundDown, RoundUp, JustBelow, JustAbove;
  }
}
