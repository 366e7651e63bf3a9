/**
 Growth along a path of prices, when a fixed share of an account is brought back to that share at every price:
 a path that ends above its start gains, whatever it does in between.
 */
module PricePaths {
  import opened Sizing
  import opened Replay

  /** What a share x of an account makes of one move of the price. */
  function Factor(a: real, b: real, x: real): real
    requires a > 0.0
  {
    1.0 + x * (b / a - 1.0)
  }

  /** What it makes of a path. */
  function Grown(prices: seq<Positive>, x: real): real {
    if |prices| < 2 then 1.0
    else Grown(prices[..|prices| - 1], x) * Factor(prices[|prices| - 2], prices[|prices| - 1], x)
  }

  // ----- one move, and two

  lemma AtLeastIff(a: real, b: real)
    requires a > 0.0
    ensures b / a >= 1.0 <==> b >= a
    ensures b / a <= 1.0 <==> b <= a
  {
    AtMostIff(1.0, a, b);
    DivTimes(b, a);
    if b / a <= 1.0 { TimesMonotone(b / a, 1.0, a); } else { TimesStrict(1.0, b / a, a); }
  }

  lemma FactorBounds(a: real, b: real, x: real)
    requires a > 0.0 && b > 0.0 && 0.0 < x <= 1.0
    ensures Factor(a, b, x) > 0.0
    ensures b >= a ==> Factor(a, b, x) >= 1.0
    ensures b > a ==> Factor(a, b, x) > 1.0
  {
    FractionPositive(b, a);
    AtLeastIff(a, b);
    var u := b / a;
    FactorIs(a, b, u, x);
    MixBounds(u, x);
    hide Factor;
  }

  lemma FactorIs(a: real, b: real, u: real, x: real)
    requires a > 0.0 && u == b / a
    ensures Factor(a, b, x) == 1.0 + x * (u - 1.0)
  {
  }

  lemma MixBounds(u: real, x: real)
    requires u > 0.0 && 0.0 < x <= 1.0
    ensures 1.0 + x * (u - 1.0) > 0.0
    ensures u >= 1.0 ==> 1.0 + x * (u - 1.0) >= 1.0
    ensures u > 1.0 ==> 1.0 + x * (u - 1.0) > 1.0
  {
    TimesStrict(0.0, u, x);
    assert 1.0 + x * (u - 1.0) == (1.0 - x) + u * x;
  }

  /** Two opposite moves make at least what their joint move makes. */
  lemma Rebalance(p: real, q: real, x: real, move: real)
    requires 0.0 < x <= 1.0 && p * q <= 0.0 && move == p + q + p * q
    ensures (1.0 + x * p) * (1.0 + x * q) >= 1.0 + x * move
  {
    var loss := -(p * q);
    SameProduct(x, move, x, p + q - loss);
    NonnegativeProduct(x, 1.0 - x);
    NonnegativeProduct(x * (1.0 - x), loss);
    assert (1.0 + x * p) * (1.0 + x * q) == 1.0 + x * p + x * q + (x * p) * (x * q);
    assert (x * p) * (x * q) == -(x * x * loss);
    assert x * (p + q - loss) == x * p + x * q - x * loss;
    assert x * (1.0 - x) * loss == x * loss - x * x * loss;
  }

  lemma NonnegativeProduct(x: real, y: real)
    requires x >= 0.0 && y >= 0.0
    ensures x * y >= 0.0
  {
  }

  lemma SameProduct(a: real, b: real, c: real, d: real)
    requires a == c && b == d
    ensures a * b == c * d
  {
  }

  lemma Opposite(p: real, q: real)
    requires (p >= 0.0 && q <= 0.0) || (p <= 0.0 && q >= 0.0)
    ensures p * q <= 0.0
  {
  }

  lemma Associate(a: real, b: real, c: real)
    ensures a * b * c == a * (b * c)
  {
  }

  lemma Chained(a: real, b: real, c: real)
    requires a > 0.0 && b > 0.0
    ensures c / a == (b / a) * (c / b)
  {
    var u, w := b / a, c / b;
    DivTimes(b, a);
    DivTimes(c, b);
    Associate(w, u, a);
    TimesDiv(w * u, a);
  }

  /** The joint move of two opposite moves, and what is made of each. */
  lemma JointMove(u: real, w: real, x: real, first: real, second: real, both: real)
    requires 0.0 < x <= 1.0 && ((u >= 1.0 && w <= 1.0) || (u <= 1.0 && w >= 1.0))
    requires first == 1.0 + x * (u - 1.0) && second == 1.0 + x * (w - 1.0) && both == 1.0 + x * (u * w - 1.0)
    ensures first * second >= both
  {
    var p, q := u - 1.0, w - 1.0;
    Opposite(p, q);
    var move := p + q + p * q;
    assert move == u * w - 1.0;
    Rebalance(p, q, x, move);
    Below(first, second, 1.0 + x * p, 1.0 + x * q, 1.0 + x * move);
    SameProduct(x, u * w - 1.0, x, move);
  }

  lemma Below(a: real, b: real, c: real, d: real, bound: real)
    requires a == c && b == d && c * d >= bound
    ensures a * b >= bound
  {
  }

  /** Leaving out a price at which the path turns never gains. */
  lemma TurnPays(a: real, b: real, c: real, x: real)
    requires a > 0.0 && b > 0.0 && c > 0.0 && 0.0 < x <= 1.0
    requires (b >= a && b >= c) || (b <= a && b <= c)
    ensures Factor(a, b, x) * Factor(b, c, x) >= Factor(a, c, x)
  {
    hide Factor;
    var u, w := b / a, c / b;
    AtLeastIff(a, b);
    AtLeastIff(b, c);
    Chained(a, b, c);
    FactorIs(a, b, u, x);
    FactorIs(b, c, w, x);
    FactorIs(a, c, u * w, x);
    JointMove(u, w, x, Factor(a, b, x), Factor(b, c, x), Factor(a, c, x));
  }

  // ----- paths

  lemma GrownOne(prices: seq<Positive>, x: real)
    requires |prices| == 1
    ensures Grown(prices, x) == 1.0
  {
  }

  lemma GrownMore(prices: seq<Positive>, price: Positive, x: real)
    requires |prices| > 0
    ensures Grown(prices + [price], x) == Grown(prices, x) * Factor(prices[|prices| - 1], price, x)
  {
    hide Factor;
    assert (prices + [price])[..|prices|] == prices;
  }

  lemma {:induction false} GrownJoins(prices: seq<Positive>, i: nat, x: real)
    requires i < |prices|
    ensures Grown(prices, x) == Grown(prices[..i + 1], x) * Grown(prices[i..], x)
  {
    hide Factor, Grown;
    var n := |prices|;
    if i == n - 1 {
      assert prices[..i + 1] == prices;
      GrownOne(prices[i..], x);
    } else {
      var init, last := prices[..n - 1], prices[n - 1];
      GrownJoins(init, i, x);
      assert init[..i + 1] == prices[..i + 1] && prices == init + [last] && prices[i..] == init[i..] + [last];
      GrownMore(init, last, x);
      GrownMore(init[i..], last, x);
      Associate(Grown(prices[..i + 1], x), Grown(init[i..], x), Factor(prices[n - 2], last, x));
    }
  }

  lemma {:induction false} GrownPositive(prices: seq<Positive>, x: real)
    requires 0.0 < x <= 1.0
    ensures Grown(prices, x) > 0.0
  {
    hide Factor;
    var n := |prices|;
    if n >= 2 {
      GrownPositive(prices[..n - 1], x);
      FactorBounds(prices[n - 2], prices[n - 1], x);
      TimesStrict(0.0, Grown(prices[..n - 1], x), Factor(prices[n - 2], prices[n - 1], x));
    }
  }

  predicate Rises(prices: seq<Positive>) {
    forall i :: 0 <= i < |prices| - 1 ==> prices[i] <= prices[i + 1]
  }

  predicate Falls(prices: seq<Positive>) {
    forall i :: 0 <= i < |prices| - 1 ==> prices[i] > prices[i + 1]
  }

  /** The path turns at this inner price. */
  predicate Turns(prices: seq<Positive>, i: int) {
    0 < i < |prices| - 1 &&
    ((prices[i] >= prices[i - 1] && prices[i] >= prices[i + 1]) ||
     (prices[i] <= prices[i - 1] && prices[i] <= prices[i + 1]))
  }

  /** A path that never falls pays. */
  lemma {:induction false} RisingPays(prices: seq<Positive>, x: real)
    requires |prices| > 0 && 0.0 < x <= 1.0 && Rises(prices)
    ensures prices[0] <= prices[|prices| - 1] && Grown(prices, x) >= 1.0
    ensures prices[0] < prices[|prices| - 1] ==> Grown(prices, x) > 1.0
  {
    hide Factor;
    var n := |prices|;
    if n >= 2 {
      RisingPays(prices[..n - 1], x);
      FactorBounds(prices[n - 2], prices[n - 1], x);
      Products(Grown(prices[..n - 1], x), Factor(prices[n - 2], prices[n - 1], x));
    }
  }

  lemma Products(x: real, y: real)
    requires x >= 1.0 && y >= 1.0
    ensures x * y >= 1.0 && (x > 1.0 || y > 1.0 ==> x * y > 1.0)
  {
  }

  lemma {:induction false} FallingFalls(prices: seq<Positive>)
    requires |prices| >= 2 && Falls(prices)
    ensures prices[0] > prices[|prices| - 1]
  {
    if |prices| > 2 { FallingFalls(prices[..|prices| - 1]); }
  }

  /** A path turns somewhere, or it never falls, or it never rises. */
  lemma {:induction false} TurnsOrNot(prices: seq<Positive>) returns (i: int)
    requires |prices| >= 2
    ensures Turns(prices, i) || Rises(prices) || Falls(prices)
  {
    var n := |prices|;
    i := 0;
    if n > 2 {
      var init := prices[..n - 1];
      i := TurnsOrNot(init);
      if !Turns(init, i) {
        i := n - 2;
        assert init[n - 3] == prices[n - 3] && init[n - 2] == prices[n - 2];
        if Rises(init) { assert prices[n - 3] <= prices[n - 2]; } else { assert prices[n - 3] > prices[n - 2]; }
      }
    }
  }

  lemma TwoAndThree(a: Positive, b: Positive, c: Positive, x: real)
    ensures Grown([a, c], x) == Factor(a, c, x)
    ensures Grown([a, b, c], x) == Factor(a, b, x) * Factor(b, c, x)
  {
    hide Factor;
    assert [a, b, c][..2] == [a, b] && [a, b][..1] == [a] && [a, c][..1] == [a];
    assert Grown([a, b], x) == Factor(a, b, x);
  }

  /** A path, and the same path without one of its turns. */
  lemma AroundTurn(prices: seq<Positive>, i: nat, x: real)
    requires 0 < i < |prices| - 1
    ensures var head, tail := Grown(prices[..i], x), Grown(prices[i + 1..], x);
            && Grown(prices, x) == head * (Grown([prices[i - 1], prices[i], prices[i + 1]], x) * tail)
            && Grown(prices[..i] + prices[i + 1..], x) == head * (Grown([prices[i - 1], prices[i + 1]], x) * tail)
  {
    hide Grown;
    var a, b, c := prices[i - 1], prices[i], prices[i + 1];
    var skipped := prices[..i] + prices[i + 1..];
    GrownJoins(prices, i - 1, x);
    GrownJoins(prices[i - 1..], 2, x);
    GrownJoins(skipped, i - 1, x);
    GrownJoins(skipped[i - 1..], 1, x);
    assert prices[i - 1..][..3] == [a, b, c] && prices[i - 1..][2..] == prices[i + 1..];
    assert skipped[..i] == prices[..i] && skipped[i - 1..][..2] == [a, c] && skipped[i - 1..][1..] == prices[i + 1..];
  }

  /** Leaving out a turn makes the path shorter and never pays more. */
  lemma SkipTurn(prices: seq<Positive>, i: nat, x: real)
    requires Turns(prices, i) && 0.0 < x <= 1.0
    ensures Grown(prices, x) >= Grown(prices[..i] + prices[i + 1..], x)
  {
    hide Grown, Factor;
    var a, b, c := prices[i - 1], prices[i], prices[i + 1];
    var head, tail := Grown(prices[..i], x), Grown(prices[i + 1..], x);
    AroundTurn(prices, i, x);
    TwoAndThree(a, b, c, x);
    TurnPays(a, b, c, x);
    GrownPositive(prices[..i], x);
    GrownPositive(prices[i + 1..], x);
    Between(Grown([a, c], x), Grown([a, b, c], x), tail, head);
  }

  lemma Between(x: real, y: real, tail: real, head: real)
    requires x <= y && tail > 0.0 && head > 0.0
    ensures head * (x * tail) <= head * (y * tail)
  {
    TimesMonotone(x, y, tail);
    TimesMonotone(x * tail, y * tail, head);
  }

  /** A path that ends no lower than it began never loses, and one that ends higher gains, however it ran. */
  lemma {:induction false} PathPays(prices: seq<Positive>, x: real)
    requires |prices| >= 2 && 0.0 < x <= 1.0 && prices[|prices| - 1] >= prices[0]
    ensures Grown(prices, x) >= 1.0
    ensures prices[|prices| - 1] > prices[0] ==> Grown(prices, x) > 1.0
    decreases |prices|
  {
    hide Grown;
    var i := TurnsOrNot(prices);
    if Rises(prices) {
      RisingPays(prices, x);
    } else if Falls(prices) {
      FallingFalls(prices);
    } else {
      SkipTurn(prices, i, x);
      PathPays(prices[..i] + prices[i + 1..], x);
    }
  }
}
