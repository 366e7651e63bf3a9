/**
 The portfolio fingerprint: positions sorted by category value, symbol and index, reduced to their
 risk-bearing terms and hashed. It does not depend on the order of the rows, and two portfolios have
 the same fingerprint exactly when they hold the same terms.
 */
module Fingerprints {
  import opened Common
  import opened ExecutionDomain
  import opened Sorting

  function CategoryValue(category: Category): string {
    if category == Spot then "spot" else "linear"
  }

  predicate KeyBefore(a: PositionKey, b: PositionKey) {
    || TextBefore(CategoryValue(a.category), CategoryValue(b.category))
    || (a.category == b.category && TextBefore(a.symbol, b.symbol))
    || (a.category == b.category && a.symbol == b.symbol && a.positionIndex < b.positionIndex)
  }

  predicate PositionBefore(a: Position, b: Position) {
    KeyBefore(a.key, b.key)
  }

  /** What is hashed of one position: prices and floating profit are left out. */
  function RiskOf(key: PositionKey, terms: PositionTerms): RiskTerms {
    RiskTerms(key.category, key.symbol, key.positionIndex, terms.side, terms.size, terms.averagePrice, terms.leverage,
              terms.stopLoss, terms.takeProfit)
  }

  function TermsOf(row: Position): RiskTerms {
    RiskOf(row.key, row.terms)
  }

  function KeyOf(terms: RiskTerms): PositionKey {
    PositionKey(terms.category, terms.symbol, terms.positionIndex)
  }

  predicate TermsBefore(a: RiskTerms, b: RiskTerms) {
    KeyBefore(KeyOf(a), KeyOf(b))
  }

  function AllTerms(positions: seq<Position>): (all: seq<RiskTerms>)
    ensures |all| == |positions| && forall i :: 0 <= i < |positions| ==> all[i] == TermsOf(positions[i])
  {
    seq(|positions|, i requires 0 <= i < |positions| => TermsOf(positions[i]))
  }

  /** The preimage of the hash. */
  function Fingerprint(positions: seq<Position>): Digest {
    AllTerms(Sort(positions, PositionBefore))
  }

  /** A portfolio files each position under a key of its own, as the unique columns of its table demand. */
  ghost predicate DistinctRows(positions: seq<Position>) {
    forall i, j :: 0 <= i < j < |positions| ==> positions[i].key != positions[j].key
  }

  /** Some position of the portfolio has these terms. */
  ghost predicate Holds(positions: seq<Position>, terms: RiskTerms) {
    exists i :: 0 <= i < |positions| && TermsOf(positions[i]) == terms
  }

  // ----- keys are totally ordered

  lemma LinearFirst(a: Category, b: Category)
    ensures TextBefore(CategoryValue(a), CategoryValue(b)) <==> a == Linear && b == Spot
  {
    TextTotal(CategoryValue(a), CategoryValue(b));
    assert "linear"[0] < "spot"[0];
  }

  lemma KeysTotal(a: PositionKey, b: PositionKey)
    ensures KeyBefore(a, b) || KeyBefore(b, a) || a == b
    ensures !(KeyBefore(a, b) && KeyBefore(b, a))
  {
    LinearFirst(a.category, b.category);
    LinearFirst(b.category, a.category);
    TextTotal(a.symbol, b.symbol);
    hide TextBefore, CategoryValue;
  }

  lemma KeysTransitive(a: PositionKey, b: PositionKey, c: PositionKey)
    requires KeyBefore(a, b) && KeyBefore(b, c)
    ensures KeyBefore(a, c)
  {
    LinearFirst(a.category, b.category);
    LinearFirst(b.category, c.category);
    LinearFirst(a.category, c.category);
    if TextBefore(a.symbol, b.symbol) && TextBefore(b.symbol, c.symbol) {
      TextTransitive(a.symbol, b.symbol, c.symbol);
    }
    hide TextBefore, CategoryValue;
  }

  lemma KeysNegative(a: PositionKey, b: PositionKey, c: PositionKey)
    requires !KeyBefore(a, b) && !KeyBefore(b, c)
    ensures !KeyBefore(a, c)
  {
    KeysTotal(a, b);
    KeysTotal(b, c);
    KeysTotal(a, c);
    if KeyBefore(b, a) && KeyBefore(c, b) { KeysTransitive(c, b, a); }
    hide KeyBefore;
  }

  lemma PositionsOrdered(positions: seq<Position>)
    ensures WeakOrder(positions, PositionBefore)
  {
    hide KeyBefore;
    forall x, y | x in positions && y in positions && PositionBefore(x, y) ensures !PositionBefore(y, x) {
      KeysTotal(x.key, y.key);
    }
    forall x, y, z | x in positions && y in positions && z in positions && !PositionBefore(x, y) &&
      !PositionBefore(y, z)
      ensures !PositionBefore(x, z)
    {
      KeysNegative(x.key, y.key, z.key);
    }
  }

  lemma DistinctNoTies(positions: seq<Position>)
    requires DistinctRows(positions)
    ensures NoTies(positions, PositionBefore)
  {
    hide KeyBefore;
    forall i, j | 0 <= i < j < |positions|
      ensures PositionBefore(positions[i], positions[j]) || PositionBefore(positions[j], positions[i])
    {
      KeysTotal(positions[i].key, positions[j].key);
    }
  }

  lemma TermsOrdered(all: seq<RiskTerms>)
    ensures WeakOrder(all, TermsBefore)
  {
    hide KeyBefore;
    forall x, y | x in all && y in all && TermsBefore(x, y) ensures !TermsBefore(y, x) {
      KeysTotal(KeyOf(x), KeyOf(y));
    }
    forall x, y, z | x in all && y in all && z in all && !TermsBefore(x, y) && !TermsBefore(y, z)
      ensures !TermsBefore(x, z)
    {
      KeysNegative(KeyOf(x), KeyOf(y), KeyOf(z));
    }
  }

  // ----- what the fingerprint says

  /** The preimage lists the terms held, and nothing else. */
  lemma FingerprintHolds(positions: seq<Position>, terms: RiskTerms)
    ensures terms in Fingerprint(positions) <==> Holds(positions, terms)
  {
    var sorted := Sort(positions, PositionBefore);
    if terms in Fingerprint(positions) {
      var i :| 0 <= i < |sorted| && AllTerms(sorted)[i] == terms;
      SortKeeps(positions, PositionBefore, sorted[i]);
      var j :| 0 <= j < |positions| && positions[j] == sorted[i];
      assert TermsOf(positions[j]) == terms;
    }
    if Holds(positions, terms) {
      var j :| 0 <= j < |positions| && TermsOf(positions[j]) == terms;
      SortKeeps(positions, PositionBefore, positions[j]);
      var i :| 0 <= i < |sorted| && sorted[i] == positions[j];
      assert AllTerms(sorted)[i] == terms;
    }
  }

  lemma FingerprintAscends(positions: seq<Position>)
    requires DistinctRows(positions)
    ensures Ascending(Fingerprint(positions), TermsBefore)
  {
    PositionsOrdered(positions);
    DistinctNoTies(positions);
    SortAscends(positions, PositionBefore);
    var sorted := Sort(positions, PositionBefore);
    hide KeyBefore;
    forall i, j | 0 <= i < j < |sorted| ensures TermsBefore(AllTerms(sorted)[i], AllTerms(sorted)[j]) {
      assert PositionBefore(sorted[i], sorted[j]);
    }
  }

  /** Equal fingerprints, equal terms, in both directions: nothing else is hashed, and nothing is lost. */
  lemma SameFingerprintIff(p: seq<Position>, q: seq<Position>)
    requires DistinctRows(p) && DistinctRows(q)
    ensures Fingerprint(p) == Fingerprint(q) <==> forall terms :: Holds(p, terms) <==> Holds(q, terms)
  {
    forall terms
      ensures (terms in Fingerprint(p) <==> Holds(p, terms)) && (terms in Fingerprint(q) <==> Holds(q, terms))
    {
      FingerprintHolds(p, terms);
      FingerprintHolds(q, terms);
    }
    if forall terms :: Holds(p, terms) <==> Holds(q, terms) {
      FingerprintAscends(p);
      FingerprintAscends(q);
      TermsOrdered(Fingerprint(p));
      hide Fingerprint, Holds, DistinctRows;
      AscendingUnique(Fingerprint(p), Fingerprint(q), TermsBefore);
    }
  }

  /** The order in which the rows are read does not matter. */
  lemma FingerprintOrderFree(p: seq<Position>, q: seq<Position>)
    requires DistinctRows(p) && DistinctRows(q)
    requires forall row :: row in p <==> row in q
    ensures Fingerprint(p) == Fingerprint(q)
  {
    PositionsOrdered(p);
    DistinctNoTies(p);
    DistinctNoTies(q);
    SortUnique(p, q, PositionBefore);
  }

  /** Portfolios that differ in the terms of one key have different fingerprints. */
  lemma ChangedTermsShow(p: seq<Position>, q: seq<Position>, i: nat, j: nat)
    requires DistinctRows(p) && DistinctRows(q) && i < |p| && j < |q|
    requires p[i].key == q[j].key && TermsOf(p[i]) != TermsOf(q[j])
    ensures Fingerprint(p) != Fingerprint(q)
  {
    assert Holds(p, TermsOf(p[i]));
    FingerprintHolds(p, TermsOf(p[i]));
    FingerprintHolds(q, TermsOf(p[i]));
    forall k | 0 <= k < |q| ensures TermsOf(q[k]) != TermsOf(p[i]) {
      assert k == j || q[k].key != q[j].key;
    }
  }

  // ----- in the fields of the rows

  /** Two rows under one key that agree in everything a loss depends on; marks and profits may differ. */
  predicate SameRisk(a: Position, b: Position) {
    && a.key.category == b.key.category && a.key.symbol == b.key.symbol && a.key.positionIndex == b.key.positionIndex
    && a.terms.side == b.terms.side && a.terms.size == b.terms.size && a.terms.averagePrice == b.terms.averagePrice
    && a.terms.leverage == b.terms.leverage && a.terms.stopLoss == b.terms.stopLoss
    && a.terms.takeProfit == b.terms.takeProfit
  }

  ghost predicate Matched(p: seq<Position>, q: seq<Position>) {
    forall i :: 0 <= i < |p| ==> exists j :: 0 <= j < |q| && SameRisk(p[i], q[j])
  }

  lemma TermsIff(a: Position, b: Position)
    ensures TermsOf(a) == TermsOf(b) <==> SameRisk(a, b)
  {
  }

  lemma MatchedIff(p: seq<Position>, q: seq<Position>)
    ensures Matched(p, q) <==> forall terms :: Holds(p, terms) ==> Holds(q, terms)
  {
    hide TermsOf, SameRisk;
    forall a, b ensures TermsOf(a) == TermsOf(b) <==> SameRisk(a, b) { TermsIff(a, b); }
    if forall terms :: Holds(p, terms) ==> Holds(q, terms) {
      forall i | 0 <= i < |p| ensures exists j :: 0 <= j < |q| && SameRisk(p[i], q[j]) {
        assert Holds(p, TermsOf(p[i]));
        var j :| 0 <= j < |q| && TermsOf(q[j]) == TermsOf(p[i]);
        assert SameRisk(p[i], q[j]);
      }
    }
  }

  /**
   Two portfolios have the same fingerprint exactly when their rows match one to one in key, side, size, average
   price, leverage, stop and target, whatever their marks, values, profits, times and owners.
   */
  lemma SameFieldsIff(p: seq<Position>, q: seq<Position>)
    requires DistinctRows(p) && DistinctRows(q)
    ensures Fingerprint(p) == Fingerprint(q) <==> Matched(p, q) && Matched(q, p)
  {
    SameFingerprintIff(p, q);
    MatchedIff(p, q);
    MatchedIff(q, p);
    hide Fingerprint, Matched, Holds, DistinctRows;
  }
}
