/** The one-pass maximum drawdown, and what it is the maximum of. */
module Drawdown {
  import opened Sizing

  ghost predicate AllPositive(equity: seq<real>) {
    forall i :: 0 <= i < |equity| ==> equity[i] > 0.0
  }

  /** The part of an earlier value that a later one has lost. */
  ghost function Fall(equity: seq<real>, i: nat, j: nat): real
    requires AllPositive(equity) && i <= j < |equity|
  {
    1.0 - equity[j] / equity[i]
  }

  /** The largest fall from any value to any later one. */
  ghost predicate LargestFall(equity: seq<real>, fall: real)
    requires AllPositive(equity)
  {
    && (forall i: nat, j: nat :: i <= j < |equity| ==> Fall(equity, i, j) <= fall)
    && exists i: nat, j: nat :: i <= j < |equity| && Fall(equity, i, j) == fall
  }

  lemma FallFromPeak(value: real, peak: real, earlier: real)
    requires 0.0 < earlier <= peak && value > 0.0
    ensures 1.0 - value / earlier <= 1.0 - value / peak < 1.0
  {
    FractionPositive(value, peak);
    DivTimes(value, peak);
    DivTimes(value, earlier);
    var high, low := value / peak, value / earlier;
    TimesMonotone(earlier, peak, high);
    assert low * earlier >= high * earlier;
    if low < high { TimesStrict(low, high, earlier); }
  }

  /** The loop: the running peak and the worst fall from it. */
  method MaxDrawdown(equity: seq<real>) returns (drawdown: real)
    requires |equity| > 0 && AllPositive(equity)
    ensures LargestFall(equity, drawdown)
    ensures 0.0 <= drawdown < 1.0
  {
    var peak, worst := equity[0], 0.0;
    ghost var top: nat, from: nat, to: nat := 0, 0, 0;
    SelfFall(equity[0]);
    for k := 0 to |equity|
      invariant top < |equity| && peak == equity[top] && (top < k || top == 0)
      invariant forall i :: 0 <= i < k ==> equity[i] <= peak
      invariant from <= to < |equity| && worst == -Fall(equity, from, to) && -1.0 < worst <= 0.0
      invariant forall i: nat, j: nat :: i <= j < k ==> Fall(equity, i, j) <= -worst
    {
      var value := equity[k];
      if value > peak { peak, top := value, k; }
      ghost var before := worst;
      if value / peak - 1.0 < worst { worst, from, to := value / peak - 1.0, top, k; }
      forall i: nat, j: nat | i <= j < k + 1 ensures Fall(equity, i, j) <= -worst {
        if j == k { FallFromPeak(value, peak, equity[i]); }
      }
      FallFromPeak(value, peak, peak);
    }
    drawdown := Abs(worst);
  }

  lemma SelfFall(x: real)
    requires x > 0.0
    ensures x / x == 1.0
  {
  }
}
