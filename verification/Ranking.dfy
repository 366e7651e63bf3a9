/**
 The market ranking: eligible tickers sorted by liquidity, scored, sorted by score and cut. Scores stay in
 (0, 1], the cut is the top of the whole list, and the result does not depend on the order of the input.
 */
module Ranking {
  import opened Common
  import opened Sizing
  import opened Sorting

  datatype Ticker = Ticker(category: Category, symbol: string, lastPrice: real, bidPrice: real, askPrice: real,
                           turnover24h: real, priceChange24h: real)

  datatype Candidate = Candidate(category: Category, symbol: string, score: real, turnover24h: real,
                                 priceChange24h: real, spreadBps: real)

  datatype Scan = Scan(hotUniverse: seq<Candidate>, agentShortlist: seq<Candidate>)

  datatype Failure = BadLimits

  predicate Eligible(t: Ticker) {
    t.turnover24h > 0.0 && t.bidPrice > 0.0 && t.askPrice >= t.bidPrice && t.lastPrice > 0.0
  }

  function EligibleOf(tickers: seq<Ticker>): seq<Ticker> {
    if |tickers| == 0 then []
    else
      var before := EligibleOf(tickers[..|tickers| - 1]);
      if Eligible(tickers[|tickers| - 1]) then before + [tickers[|tickers| - 1]] else before
  }

  /** Descending by turnover, then absolute move, then symbol. */
  predicate MoreLiquid(a: Ticker, b: Ticker) {
    || a.turnover24h > b.turnover24h
    || (a.turnover24h == b.turnover24h && Abs(a.priceChange24h) > Abs(b.priceChange24h))
    || (a.turnover24h == b.turnover24h && Abs(a.priceChange24h) == Abs(b.priceChange24h) &&
        TextBefore(b.symbol, a.symbol))
  }

  /** Descending by score, then turnover, then symbol. */
  predicate Outranks(a: Candidate, b: Candidate) {
    || a.score > b.score
    || (a.score == b.score && a.turnover24h > b.turnover24h)
    || (a.score == b.score && a.turnover24h == b.turnover24h && TextBefore(b.symbol, a.symbol))
  }

  function Movement(t: Ticker): real {
    Min(Abs(t.priceChange24h) / 0.1, 1.0)
  }

  function SpreadBps(t: Ticker): real {
    var midpoint := (t.bidPrice + t.askPrice) / 2.0;
    if midpoint > 0.0 then (t.askPrice - t.bidPrice) / midpoint * 10000.0 else 10000.0
  }

  function SpreadQuality(t: Ticker): real {
    Max(0.0, 1.0 - SpreadBps(t) / 100.0)
  }

  /** The share of the eligible tickers at or behind this rank. */
  function Liquidity(rank: nat, count: nat): real
    requires count > 0
  {
    (count as real - rank as real) / count as real
  }

  function Score(t: Ticker, rank: nat, count: nat): real
    requires count > 0
  {
    0.6 * Liquidity(rank, count) + 0.3 * Movement(t) + 0.1 * SpreadQuality(t)
  }

  function CandidateOf(t: Ticker, rank: nat, count: nat): Candidate
    requires count > 0
  {
    Candidate(t.category, t.symbol, Score(t, rank, count), t.turnover24h, t.priceChange24h, SpreadBps(t))
  }

  function Candidates(liquid: seq<Ticker>): (candidates: seq<Candidate>)
    ensures |candidates| == |liquid|
  {
    seq(|liquid|, i requires 0 <= i < |liquid| => CandidateOf(liquid[i], i, |liquid|))
  }

  function ByLiquidity(tickers: seq<Ticker>): seq<Ticker> {
    Sort(EligibleOf(tickers), MoreLiquid)
  }

  /** All candidates, best first. */
  function Ranked(tickers: seq<Ticker>): seq<Candidate> {
    Sort(Candidates(ByLiquidity(tickers)), Outranks)
  }

  function Top<T>(items: seq<T>, n: nat): seq<T> {
    if n < |items| then items[..n] else items
  }

  function RankMarket(tickers: seq<Ticker>, hotLimit: int, agentLimit: int): Result<Scan, Failure> {
    if hotLimit < 1 || agentLimit < 1 || agentLimit > hotLimit then Err(BadLimits)
    else
      var hot := Top(Ranked(tickers), hotLimit);
      Ok(Scan(hot, Top(hot, agentLimit)))
  }

  /** The scoring loop. */
  method ScoreAll(liquid: seq<Ticker>) returns (candidates: seq<Candidate>)
    ensures candidates == Candidates(liquid)
  {
    candidates := [];
    for rank := 0 to |liquid|
      invariant candidates == Candidates(liquid)[..rank]
    {
      var t, count := liquid[rank], |liquid|;
      var activity := 0.6 * Liquidity(rank, count) + 0.3 * Movement(t) + 0.1 * SpreadQuality(t);
      candidates := candidates +
        [Candidate(t.category, t.symbol, activity, t.turnover24h, t.priceChange24h, SpreadBps(t))];
    }
  }

  method RankMarketLoop(tickers: seq<Ticker>, hotLimit: int, agentLimit: int) returns (r: Result<Scan, Failure>)
    ensures r == RankMarket(tickers, hotLimit, agentLimit)
  {
    hide Eligible, MoreLiquid, Outranks, Candidates;
    if hotLimit < 1 || agentLimit < 1 || agentLimit > hotLimit { return Err(BadLimits); }
    var eligible: seq<Ticker> := [];
    for i := 0 to |tickers|
      invariant eligible == EligibleOf(tickers[..i])
    {
      assert tickers[..i + 1][..i] == tickers[..i];
      if Eligible(tickers[i]) { eligible := eligible + [tickers[i]]; }
    }
    assert tickers[..|tickers|] == tickers;
    if |eligible| == 0 {
      NothingRanked(tickers);
      return Ok(Scan([], []));
    }
    var candidates := ScoreAll(Sort(eligible, MoreLiquid));
    var ranked := Top(Sort(candidates, Outranks), hotLimit);
    return Ok(Scan(ranked, Top(ranked, agentLimit)));
  }

  lemma NothingRanked(tickers: seq<Ticker>)
    requires EligibleOf(tickers) == []
    ensures Ranked(tickers) == []
  {
    assert Candidates(ByLiquidity(tickers)) == [];
  }

  // ----- the sorts

  lemma LiquidityOrder(items: seq<Ticker>)
    ensures WeakOrder(items, MoreLiquid)
  {
    hide Abs, TextBefore;
    forall x, y | x in items && y in items && MoreLiquid(x, y) ensures !MoreLiquid(y, x) {
      TextTotal(x.symbol, y.symbol);
    }
    forall x, y, z | x in items && y in items && z in items && !MoreLiquid(x, y) && !MoreLiquid(y, z)
      ensures !MoreLiquid(x, z)
    {
      TextNegative(z.symbol, y.symbol, x.symbol);
    }
  }

  lemma ScoreOrder(items: seq<Candidate>)
    ensures WeakOrder(items, Outranks)
  {
    hide TextBefore;
    forall x, y | x in items && y in items && Outranks(x, y) ensures !Outranks(y, x) {
      TextTotal(x.symbol, y.symbol);
    }
    forall x, y, z | x in items && y in items && z in items && !Outranks(x, y) && !Outranks(y, z)
      ensures !Outranks(x, z)
    {
      TextNegative(z.symbol, y.symbol, x.symbol);
    }
  }

  lemma TextNegative(a: string, b: string, c: string)
    ensures !TextBefore(a, b) && !TextBefore(b, c) ==> !TextBefore(a, c)
  {
    TextTotal(a, b);
    TextTotal(b, c);
    TextTotal(a, c);
    if TextBefore(b, a) && TextBefore(c, b) { TextTransitive(c, b, a); }
    hide TextBefore;
  }

  // ----- scores

  lemma LiquidityBounds(rank: nat, count: nat)
    requires rank < count
    ensures 0.0 < Liquidity(rank, count) <= 1.0
  {
  }

  lemma SpreadBounds(t: Ticker)
    requires Eligible(t)
    ensures SpreadBps(t) >= 0.0 && 0.0 <= SpreadQuality(t) <= 1.0
  {
    DivNonnegative(t.askPrice - t.bidPrice, (t.bidPrice + t.askPrice) / 2.0);
  }

  lemma ScoreBounds(t: Ticker, rank: nat, count: nat)
    requires Eligible(t) && rank < count
    ensures 0.0 < Score(t, rank, count) <= 1.0
  {
    LiquidityBounds(rank, count);
    SpreadBounds(t);
    assert 0.0 <= Movement(t) <= 1.0;
    hide Liquidity, Movement, SpreadQuality;
  }

  lemma {:induction false} EligibleExactly(tickers: seq<Ticker>, t: Ticker)
    ensures t in EligibleOf(tickers) <==> t in tickers && Eligible(t)
  {
    if |tickers| == 0 {
    } else {
      EligibleExactly(tickers[..|tickers| - 1], t);
      assert tickers == tickers[..|tickers| - 1] + [tickers[|tickers| - 1]];
    }
  }

  /** The liquidity list holds exactly the eligible tickers, most liquid first. */
  lemma LiquidExactly(tickers: seq<Ticker>)
    ensures Ordered(ByLiquidity(tickers), MoreLiquid)
    ensures forall t :: t in ByLiquidity(tickers) <==> t in tickers && Eligible(t)
  {
    hide Eligible, MoreLiquid;
    LiquidityOrder(EligibleOf(tickers));
    SortOrders(EligibleOf(tickers), MoreLiquid);
    forall t ensures t in ByLiquidity(tickers) <==> t in tickers && Eligible(t) {
      SortKeeps(EligibleOf(tickers), MoreLiquid, t);
      EligibleExactly(tickers, t);
    }
  }

  /** Every candidate is an eligible ticker with the score of its liquidity rank. */
  lemma RankedExactly(tickers: seq<Ticker>, c: Candidate)
    ensures c in Ranked(tickers) <==>
            exists rank :: 0 <= rank < |ByLiquidity(tickers)| &&
              c == CandidateOf(ByLiquidity(tickers)[rank], rank, |ByLiquidity(tickers)|)
  {
    var liquid := ByLiquidity(tickers);
    SortKeeps(Candidates(liquid), Outranks, c);
    if c in Candidates(liquid) {
      var rank :| 0 <= rank < |liquid| && Candidates(liquid)[rank] == c;
      assert c == CandidateOf(liquid[rank], rank, |liquid|);
    }
    if rank :| 0 <= rank < |liquid| && c == CandidateOf(liquid[rank], rank, |liquid|) {
      assert Candidates(liquid)[rank] == c;
    }
  }

  /**
   The hot universe is the sorted top of all scored candidates and the shortlist is its prefix: what is left
   out does not outrank what is kept, and every score is in (0, 1]. Other limits are refused.
   */
  lemma TopOfTheMarket(tickers: seq<Ticker>, hotLimit: int, agentLimit: int)
    ensures RankMarket(tickers, hotLimit, agentLimit).Ok? <==> 1 <= agentLimit <= hotLimit
    ensures 1 <= agentLimit <= hotLimit ==>
            var scan, all := RankMarket(tickers, hotLimit, agentLimit).value, Ranked(tickers);
            && scan.agentShortlist <= scan.hotUniverse <= all
            && |all| == |EligibleOf(tickers)|
            && |scan.hotUniverse| == (if hotLimit < |all| then hotLimit else |all|)
            && |scan.agentShortlist| == (if agentLimit < |all| then agentLimit else |all|)
            && Ordered(all, Outranks)
            && (forall i, j :: 0 <= i < |scan.hotUniverse| <= j < |all| ==> !Outranks(all[j], scan.hotUniverse[i]))
    ensures forall c :: c in Ranked(tickers) ==> 0.0 < c.score <= 1.0
  {
    hide Eligible, MoreLiquid, Outranks, CandidateOf;
    var liquid := ByLiquidity(tickers);
    SortPermutes(EligibleOf(tickers), MoreLiquid);
    SortPermutes(Candidates(liquid), Outranks);
    ScoreOrder(Candidates(liquid));
    SortOrders(Candidates(liquid), Outranks);
    forall c | c in Ranked(tickers) ensures 0.0 < c.score <= 1.0 { RankedScore(tickers, c); }
  }

  lemma RankedScore(tickers: seq<Ticker>, c: Candidate)
    requires c in Ranked(tickers)
    ensures 0.0 < c.score <= 1.0
  {
    hide Eligible, Score, Ranked;
    RankedExactly(tickers, c);
    LiquidExactly(tickers);
    var liquid := ByLiquidity(tickers);
    var rank: int :| 0 <= rank < |liquid| && c == CandidateOf(liquid[rank], rank, |liquid|);
    assert liquid[rank] in liquid;
    ScoreBounds(liquid[rank], rank, |liquid|);
  }

  // ----- the order of the input

  /** Neither is more liquid than the other. */
  predicate Tied(a: Ticker, b: Ticker) {
    a.turnover24h == b.turnover24h && Abs(a.priceChange24h) == Abs(b.priceChange24h) && a.symbol == b.symbol
  }

  /** No two eligible tickers tie; one symbol may well be listed in both categories. */
  ghost predicate Untied(tickers: seq<Ticker>) {
    forall i, j :: 0 <= i < j < |tickers| && Eligible(tickers[i]) && Eligible(tickers[j]) ==>
      !Tied(tickers[i], tickers[j])
  }

  lemma UntiedOrders(a: Ticker, b: Ticker)
    requires !Tied(a, b)
    ensures MoreLiquid(a, b) || MoreLiquid(b, a)
  {
    hide TextBefore, Abs;
    TextTotal(a.symbol, b.symbol);
  }

  lemma {:induction false} EligibleUntied(tickers: seq<Ticker>)
    requires Untied(tickers)
    ensures NoTies(EligibleOf(tickers), MoreLiquid)
  {
    hide Eligible, MoreLiquid, Tied;
    if |tickers| == 0 {
    } else {
      var init, last := tickers[..|tickers| - 1], tickers[|tickers| - 1];
      EligibleUntied(init);
      forall i | 0 <= i < |EligibleOf(init)| && Eligible(last)
        ensures MoreLiquid(EligibleOf(init)[i], last) || MoreLiquid(last, EligibleOf(init)[i])
      {
        EligibleExactly(init, EligibleOf(init)[i]);
        var j :| 0 <= j < |init| && init[j] == EligibleOf(init)[i];
        assert tickers[j] == init[j];
        UntiedOrders(init[j], last);
      }
    }
  }

  /** Without ties the result is the same however the snapshots are ordered, and ineligible ones do not matter. */
  lemma InputOrderFree(p: seq<Ticker>, q: seq<Ticker>, hotLimit: int, agentLimit: int)
    requires Untied(p) && Untied(q) && forall t :: Eligible(t) ==> (t in p <==> t in q)
    ensures RankMarket(p, hotLimit, agentLimit) == RankMarket(q, hotLimit, agentLimit)
  {
    hide Eligible, MoreLiquid, Outranks, Untied, Sort;
    EligibleUntied(p);
    EligibleUntied(q);
    LiquidityOrder(EligibleOf(p));
    forall t ensures t in EligibleOf(p) <==> t in EligibleOf(q) {
      EligibleExactly(p, t);
      EligibleExactly(q, t);
    }
    SortUnique(EligibleOf(p), EligibleOf(q), MoreLiquid);
  }

  const SPOT_TICKER := Ticker(Spot, "BTCUSDT", 1.0, 1.0, 1.0, 1.0, 0.0)
  const LINEAR_TICKER := Ticker(Linear, "BTCUSDT", 1.0, 1.0, 1.0, 1.0, 0.0)

  lemma SortPair<T>(a: T, b: T, before: Order<T>)
    requires !before(b, a)
    ensures Sort([a, b], before) == [a, b]
  {
    assert [a, b][..1] == [a] && [a][..0] == [];
    assert Sort([a], before) == [a];
  }

  lemma EligiblePair(a: Ticker, b: Ticker)
    requires Eligible(a) && Eligible(b)
    ensures EligibleOf([a, b]) == [a, b]
  {
    hide Eligible;
    assert [a, b][..1] == [a] && [a][..0] == [];
    assert EligibleOf([a]) == [a];
  }

  lemma LiquidPair(a: Ticker, b: Ticker)
    requires a in {SPOT_TICKER, LINEAR_TICKER} && b in {SPOT_TICKER, LINEAR_TICKER}
    ensures ByLiquidity([a, b]) == [a, b]
  {
    hide EligibleOf, Sort, TextBefore;
    TextTotal(a.symbol, a.symbol);
    EligiblePair(a, b);
    SortPair(a, b, MoreLiquid);
  }

  lemma FirstOutranks(a: Ticker, b: Ticker)
    requires a in {SPOT_TICKER, LINEAR_TICKER} && b in {SPOT_TICKER, LINEAR_TICKER}
    ensures !Outranks(CandidateOf(b, 1, 2), CandidateOf(a, 0, 2))
  {
    hide TextBefore;
  }

  lemma RankedPair(a: Ticker, b: Ticker)
    requires a in {SPOT_TICKER, LINEAR_TICKER} && b in {SPOT_TICKER, LINEAR_TICKER}
    ensures Top(Ranked([a, b]), 1) == [CandidateOf(a, 0, 2)]
  {
    hide CandidateOf, ByLiquidity, Sort, Outranks;
    LiquidPair(a, b);
    FirstOutranks(a, b);
    assert Candidates([a, b]) == [CandidateOf(a, 0, 2), CandidateOf(b, 1, 2)];
    SortPair(CandidateOf(a, 0, 2), CandidateOf(b, 1, 2), Outranks);
  }

  /** A tie lets the order show: the ticker that comes first is the one that is kept. */
  lemma TiesShowOrder()
    ensures RankMarket([SPOT_TICKER, LINEAR_TICKER], 1, 1) != RankMarket([LINEAR_TICKER, SPOT_TICKER], 1, 1)
  {
    RankedPair(SPOT_TICKER, LINEAR_TICKER);
    RankedPair(LINEAR_TICKER, SPOT_TICKER);
    hide Ranked;
    assert CandidateOf(SPOT_TICKER, 0, 2) != CandidateOf(LINEAR_TICKER, 0, 2);
  }

  // ----- dominance

  /** More turnover, no smaller a move and no wider a spread. */
  predicate Dominates(a: Ticker, b: Ticker) {
    a.turnover24h > b.turnover24h && Abs(a.priceChange24h) >= Abs(b.priceChange24h) && SpreadBps(a) <= SpreadBps(b)
  }

  lemma RankOfMore(liquid: seq<Ticker>, i: nat, j: nat)
    requires Ordered(liquid, MoreLiquid) && i < |liquid| && j < |liquid| &&
             liquid[i].turnover24h > liquid[j].turnover24h
    ensures i < j
  {
    assert i == j || i < j || !MoreLiquid(liquid[i], liquid[j]);
  }

  lemma DominantScores(a: Ticker, b: Ticker, i: nat, j: nat, count: nat)
    requires Dominates(a, b) && i < j < count
    ensures Score(a, i, count) > Score(b, j, count)
  {
    LiquidityFalls(i, j, count);
    DivMonotone(Abs(b.priceChange24h), Abs(a.priceChange24h), 0.1);
    DivMonotone(SpreadBps(a), SpreadBps(b), 100.0);
    hide Liquidity, SpreadBps, Abs;
  }

  lemma LiquidityFalls(i: nat, j: nat, count: nat)
    requires i < j < count
    ensures Liquidity(i, count) > Liquidity(j, count)
  {
  }

  ghost predicate Above(ranked: seq<Candidate>, a: Candidate, b: Candidate) {
    forall k, l :: 0 <= k < |ranked| && 0 <= l < |ranked| && ranked[k] == a && ranked[l] == b ==> k < l
  }

  /** In the ranking, whatever stands at the place of a dominant market stands above what it dominates. */
  lemma DominantRanksAbove(tickers: seq<Ticker>, a: Ticker, b: Ticker, i: nat, j: nat)
    requires var liquid := ByLiquidity(tickers);
             i < |liquid| && j < |liquid| && liquid[i] == a && liquid[j] == b && Dominates(a, b)
    ensures var n := |ByLiquidity(tickers)|;
            Outranks(CandidateOf(a, i, n), CandidateOf(b, j, n)) &&
              Above(Ranked(tickers), CandidateOf(a, i, n), CandidateOf(b, j, n))
  {
    hide Eligible, Score, MoreLiquid, Dominates;
    LiquidExactly(tickers);
    var liquid := ByLiquidity(tickers);
    assert a.turnover24h > b.turnover24h by { DominantTurnover(a, b); }
    RankOfMore(liquid, i, j);
    DominantScores(a, b, i, j, |liquid|);
    ScoreOrder(Candidates(liquid));
    SortOrders(Candidates(liquid), Outranks);
    var ranked := Ranked(tickers);
    forall k, l | 0 <= k < |ranked| && 0 <= l < |ranked| && ranked[k] == CandidateOf(a, i, |liquid|) &&
      ranked[l] == CandidateOf(b, j, |liquid|)
      ensures k < l
    {
      assert k == l || k < l || !Outranks(ranked[k], ranked[l]);
    }
  }

  lemma DominantTurnover(a: Ticker, b: Ticker)
    requires Dominates(a, b)
    ensures a.turnover24h > b.turnover24h
  {
  }

  /** A dominated market is on a list only if every market that dominates it is. */
  lemma DominantMakesTheCut(tickers: seq<Ticker>, a: Ticker, b: Ticker, i: nat, j: nat, limit: nat)
    requires var liquid := ByLiquidity(tickers);
             i < |liquid| && j < |liquid| && liquid[i] == a && liquid[j] == b && Dominates(a, b)
    ensures CandidateOf(b, j, |ByLiquidity(tickers)|) in Top(Ranked(tickers), limit) ==>
            CandidateOf(a, i, |ByLiquidity(tickers)|) in Top(Ranked(tickers), limit)
  {
    var n, ranked := |ByLiquidity(tickers)|, Ranked(tickers);
    DominantRanksAbove(tickers, a, b, i, j);
    RankedExactly(tickers, CandidateOf(a, i, n));
    hide Ranked, ByLiquidity, Dominates, CandidateOf, Outranks;
    var k :| 0 <= k < |ranked| && ranked[k] == CandidateOf(a, i, n);
    if l :| 0 <= l < |Top(ranked, limit)| && Top(ranked, limit)[l] == CandidateOf(b, j, n) {
      assert ranked[l] == CandidateOf(b, j, n);
      assert Top(ranked, limit)[k] == ranked[k];
    }
  }

  // ----- in the fields of the tickers

  /** Traded, quoted on both sides without crossing, and priced. */
  predicate Tradable(t: Ticker) {
    0.0 < t.turnover24h && 0.0 < t.bidPrice <= t.askPrice && 0.0 < t.lastPrice
  }

  /** The size of the move over a day, in either direction. */
  function Move(t: Ticker): real {
    if t.priceChange24h >= 0.0 then t.priceChange24h else -t.priceChange24h
  }

  /** The spread between bid and ask in basis points of their midpoint. */
  function SpreadOf(t: Ticker): real
    requires t.bidPrice + t.askPrice > 0.0
  {
    20000.0 * (t.askPrice - t.bidPrice) / (t.bidPrice + t.askPrice)
  }

  /**
   Six tenths for the liquidity rank, three for the move up to a tenth, one for a spread below a hundred basis points.
   */
  predicate Scored(c: Candidate, t: Ticker, rank: nat, count: nat)
    requires Tradable(t) && rank < count
  {
    && c.category == t.category && c.symbol == t.symbol
    && c.turnover24h == t.turnover24h && c.priceChange24h == t.priceChange24h
    && c.spreadBps == SpreadOf(t)
    && c.score ==
       0.6 * ((count - rank) as real / count as real) +
       0.3 * (if Move(t) >= 0.1 then 1.0 else 10.0 * Move(t)) +
       0.1 * (if c.spreadBps >= 100.0 then 0.0 else 1.0 - c.spreadBps / 100.0)
  }

  lemma SpreadIs(t: Ticker)
    requires Tradable(t)
    ensures SpreadBps(t) == SpreadOf(t)
  {
    var width, both := t.askPrice - t.bidPrice, t.bidPrice + t.askPrice;
    DivTimes(width, both / 2.0);
    DivTimes(20000.0 * width, both);
    TimesDiv(SpreadBps(t), both);
  }

  lemma ScoreIs(t: Ticker, rank: nat, count: nat)
    requires Tradable(t) && rank < count
    ensures Scored(CandidateOf(t, rank, count), t, rank, count)
  {
    SpreadIs(t);
    hide SpreadBps, SpreadOf;
  }

  /** The place at which a ticker comes in the list by liquidity: more turnover first, then more move, then symbol. */
  ghost predicate ByTurnover(liquid: seq<Ticker>) {
    forall i, j :: 0 <= i < j < |liquid| ==>
      || liquid[i].turnover24h > liquid[j].turnover24h
      || (liquid[i].turnover24h == liquid[j].turnover24h &&
          (Move(liquid[i]) > Move(liquid[j]) ||
           (Move(liquid[i]) == Move(liquid[j]) && !TextBefore(liquid[i].symbol, liquid[j].symbol))))
  }

  /**
   The ranking holds one candidate for each place of a list of exactly the tradable tickers by turnover, move and
   symbol, each scored in the fields of its ticker.
   */
  lemma RankedInFields(tickers: seq<Ticker>, c: Candidate) returns (liquid: seq<Ticker>)
    ensures ByTurnover(liquid) && forall t :: t in liquid <==> t in tickers && Tradable(t)
    ensures |Ranked(tickers)| == |liquid|
    ensures c in Ranked(tickers) <==>
            exists rank: nat :: rank < |liquid| && Tradable(liquid[rank]) &&
                                Scored(c, liquid[rank], rank, |liquid|)
  {
    liquid := ByLiquidity(tickers);
    LiquidExactly(tickers);
    RankedExactly(tickers, c);
    SortPermutes(Candidates(liquid), Outranks);
    OrderedByTurnover(liquid);
    hide Ranked, ByLiquidity, CandidateOf, Scored, MoreLiquid, Outranks, ByTurnover;
    forall t ensures t in liquid <==> t in tickers && Tradable(t) { assert Eligible(t) <==> Tradable(t); }
    forall rank: nat | rank < |liquid|
      ensures Tradable(liquid[rank]) && (Scored(c, liquid[rank], rank, |liquid|) <==>
              c == CandidateOf(liquid[rank], rank, |liquid|))
    {
      assert liquid[rank] in liquid;
      ScoreIs(liquid[rank], rank, |liquid|);
      ScoredOnce(c, CandidateOf(liquid[rank], rank, |liquid|), liquid[rank], rank, |liquid|);
    }
  }

  lemma ScoredOnce(c: Candidate, d: Candidate, t: Ticker, rank: nat, count: nat)
    requires Tradable(t) && rank < count && Scored(d, t, rank, count)
    ensures Scored(c, t, rank, count) <==> c == d
  {
    hide SpreadOf, Move;
  }

  lemma OrderedByTurnover(liquid: seq<Ticker>)
    requires Ordered(liquid, MoreLiquid)
    ensures ByTurnover(liquid)
  {
    hide TextBefore;
    forall i, j | 0 <= i < j < |liquid|
      ensures || liquid[i].turnover24h > liquid[j].turnover24h
              || (liquid[i].turnover24h == liquid[j].turnover24h &&
                  (Move(liquid[i]) > Move(liquid[j]) ||
                   (Move(liquid[i]) == Move(liquid[j]) && !TextBefore(liquid[i].symbol, liquid[j].symbol))))
    {
      assert !MoreLiquid(liquid[j], liquid[i]);
    }
  }

  /** Candidates stand by score, then turnover, then symbol. */
  lemma RankedByScore(tickers: seq<Ticker>, i: nat, j: nat)
    requires i < j < |Ranked(tickers)|
    ensures var a, b := Ranked(tickers)[i], Ranked(tickers)[j];
            || a.score > b.score
            || (a.score == b.score &&
                (a.turnover24h > b.turnover24h ||
                 (a.turnover24h == b.turnover24h && !TextBefore(a.symbol, b.symbol))))
  {
    var liquid := ByLiquidity(tickers);
    ScoreOrder(Candidates(liquid));
    SortOrders(Candidates(liquid), Outranks);
    hide TextBefore, Candidates, ByLiquidity;
    assert !Outranks(Ranked(tickers)[j], Ranked(tickers)[i]);
  }
}
