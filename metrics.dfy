/** EU-wide aggregates computed at the start of a Calculate run: total stock
    and forecast, weeks of coverage, replenishment arrival and the
    forecast-weighted margin of the stocked marketplaces. */
module Metrics {
  import opened Marketplaces

  /** Total stock of the pool (S_EU). */
  function TotalStock(mps: seq<Marketplace>): real
  {
    if mps == [] then 0.0 else TotalStock(mps[..|mps| - 1]) + mps[|mps| - 1].stock
  }

  /** Total weekly forecast of the pool (F_EU). */
  function TotalForecast(mps: seq<Marketplace>): real
  {
    if mps == [] then 0.0 else TotalForecast(mps[..|mps| - 1]) + mps[|mps| - 1].forecast
  }

  /** Weeks of coverage of the pool before any change (WoC_EU): stock over
      weekly demand, and 0 when there is no positive demand. */
  function Coverage(stock: real, demand: real): (woc: real)
    ensures demand > 0.0 ==> woc * demand == stock
    ensures demand <= 0.0 ==> woc == 0.0
    ensures stock >= 0.0 ==> woc >= 0.0
  {
    if demand > 0.0 then stock / demand else 0.0
  }

  /** Weeks of coverage against a reduced demand, as the optimizer and the
      final state compute it: stock over demand, and NEVER when no positive
      demand is left. */
  function CoverageOrNever(stock: real, demand: real): (woc: real)
    ensures demand > 0.0 ==> woc * demand == stock
    ensures demand <= 0.0 ==> woc == NEVER
    ensures stock >= 0.0 ==> woc >= 0.0
  {
    if demand > 0.0 then stock / demand else NEVER
  }

  /** Weeks until replenishment arrives (T_arrival_weeks), by PO status. */
  function Arrival(status: PoStatus, poArrival: real, leadTime: real): (weeks: real)
    ensures status == EolProduct ==> weeks == NEVER
    ensures status == IncomingPo ==> weeks == poArrival
    ensures status == NoPoLowConfirmation ==> 7.0 * weeks == 2.0 * leadTime
    ensures status == NoPoHighConfirmation ==> 7.0 * weeks == leadTime
  {
    if status == EolProduct then NEVER
    else if status == IncomingPo then poArrival
    else if status == NoPoLowConfirmation then (2.0 * leadTime) / 7.0
    else leadTime / 7.0
  }

  /** With a low confirmation rate the vendor takes twice as long. */
  lemma LowConfirmationDoublesArrival(poArrival: real, leadTime: real)
    ensures Arrival(NoPoLowConfirmation, poArrival, leadTime)
         == 2.0 * Arrival(NoPoHighConfirmation, poArrival, leadTime)
  {
  }

  /** Sum of cppu times forecast over the marketplaces with stock > 0. */
  function StockedMarginSum(mps: seq<Marketplace>): real
  {
    if mps == [] then 0.0
    else
      var m := mps[|mps| - 1];
      StockedMarginSum(mps[..|mps| - 1]) + (if m.stock > 0.0 then m.cppu * m.forecast else 0.0)
  }

  /** Sum of the forecasts of the marketplaces with stock > 0. */
  function StockedForecastSum(mps: seq<Marketplace>): real
  {
    if mps == [] then 0.0
    else
      var m := mps[|mps| - 1];
      StockedForecastSum(mps[..|mps| - 1]) + (if m.stock > 0.0 then m.forecast else 0.0)
  }

  /** Forecast-weighted average CPPU of the stocked marketplaces (CPPU_avg),
      0 when their forecasts do not sum to a positive value. */
  function CppuAvg(mps: seq<Marketplace>): (avg: real)
    ensures StockedForecastSum(mps) > 0.0 ==> avg * StockedForecastSum(mps) == StockedMarginSum(mps)
    ensures StockedForecastSum(mps) <= 0.0 ==> avg == 0.0
  {
    var forecastSum := StockedForecastSum(mps);
    if forecastSum > 0.0 then StockedMarginSum(mps) / forecastSum else 0.0
  }

  /** CPPU_avg computed as the page does, by accumulating the two sums over
      the marketplaces. */
  method BlendedCppu(mps: seq<Marketplace>) returns (avg: real)
    ensures avg == CppuAvg(mps)
  {
    var cppuSum, forecastSum := 0.0, 0.0;
    for i := 0 to |mps|
      invariant cppuSum == StockedMarginSum(mps[..i])
      invariant forecastSum == StockedForecastSum(mps[..i])
    {
      assert mps[..i + 1][..i] == mps[..i];
      if mps[i].stock > 0.0 {
        cppuSum := cppuSum + mps[i].cppu * mps[i].forecast;
        forecastSum := forecastSum + mps[i].forecast;
      }
    }
    assert mps[..|mps|] == mps;
    avg := if forecastSum > 0.0 then cppuSum / forecastSum else 0.0;
  }

  /** Sum over the stocked marketplaces of (cppu - c) times forecast. */
  function Gap(mps: seq<Marketplace>, c: real): real
  {
    if mps == [] then 0.0
    else
      var m := mps[|mps| - 1];
      Gap(mps[..|mps| - 1], c) + (if m.stock > 0.0 then m.cppu * m.forecast - c * m.forecast else 0.0)
  }

  lemma Distribute(c: real, a: real, b: real)
    ensures c * (a + b) == c * a + c * b
  {
  }

  lemma {:induction false} GapIdentity(mps: seq<Marketplace>, c: real)
    ensures StockedMarginSum(mps) - c * StockedForecastSum(mps) == Gap(mps, c)
  {
    if mps != [] {
      var n := |mps| - 1;
      var m := mps[n];
      GapIdentity(mps[..n], c);
      Distribute(c, StockedForecastSum(mps[..n]), if m.stock > 0.0 then m.forecast else 0.0);
    }
  }

  lemma TermAbove(value: real, weight: real, c: real)
    requires weight >= 0.0 && value >= c
    ensures value * weight - c * weight >= 0.0
  {
    assert value * weight - c * weight == (value - c) * weight;
  }

  lemma TermBelow(value: real, weight: real, c: real)
    requires weight >= 0.0 && value <= c
    ensures value * weight - c * weight <= 0.0
  {
    assert value * weight - c * weight == (value - c) * weight;
  }

  /** With non-negative weights, the gap to a lower bound of the stocked
      CPPUs is non-negative. */
  lemma {:induction false} GapAboveLower(mps: seq<Marketplace>, lo: real)
    requires forall i :: 0 <= i < |mps| && mps[i].stock > 0.0 ==>
               mps[i].forecast >= 0.0 && lo <= mps[i].cppu
    ensures Gap(mps, lo) >= 0.0
  {
    if mps != [] {
      var n := |mps| - 1;
      var init, m := mps[..n], mps[n];
      assert forall i :: 0 <= i < n ==> init[i] == mps[i];
      GapAboveLower(init, lo);
      if m.stock > 0.0 {
        assert Gap(mps, lo) == Gap(init, lo) + (m.cppu * m.forecast - lo * m.forecast);
        TermAbove(m.cppu, m.forecast, lo);
      } else {
        assert Gap(mps, lo) == Gap(init, lo);
      }
    }
  }

  /** With non-negative weights, the gap to an upper bound of the stocked
      CPPUs is non-positive. */
  lemma {:induction false} GapBelowUpper(mps: seq<Marketplace>, hi: real)
    requires forall i :: 0 <= i < |mps| && mps[i].stock > 0.0 ==>
               mps[i].forecast >= 0.0 && mps[i].cppu <= hi
    ensures Gap(mps, hi) <= 0.0
  {
    if mps != [] {
      var n := |mps| - 1;
      var init, m := mps[..n], mps[n];
      assert forall i :: 0 <= i < n ==> init[i] == mps[i];
      GapBelowUpper(init, hi);
      if m.stock > 0.0 {
        assert Gap(mps, hi) == Gap(init, hi) + (m.cppu * m.forecast - hi * m.forecast);
        TermBelow(m.cppu, m.forecast, hi);
      } else {
        assert Gap(mps, hi) == Gap(init, hi);
      }
    }
  }

  /** Dividing bounds on a product by its positive factor. */
  lemma QuotientBounds(num: real, den: real, lo: real, hi: real)
    requires den > 0.0 && lo * den <= num <= hi * den
    ensures lo <= num / den <= hi
  {
    assert (num / den) * den == num;
  }

  /** CPPU_avg lies between the smallest and the largest CPPU of the stocked
      marketplaces, when their forecasts are non-negative and sum to a
      positive value. */
  lemma CppuAvgWithinBounds(mps: seq<Marketplace>, lo: real, hi: real)
    requires forall i :: 0 <= i < |mps| && mps[i].stock > 0.0 ==>
               mps[i].forecast >= 0.0 && lo <= mps[i].cppu <= hi
    requires StockedForecastSum(mps) > 0.0
    ensures lo <= CppuAvg(mps) <= hi
  {
    GapAboveLower(mps, lo);
    GapBelowUpper(mps, hi);
    GapIdentity(mps, lo);
    GapIdentity(mps, hi);
    QuotientBounds(StockedMarginSum(mps), StockedForecastSum(mps), lo, hi);
  }

  /** Changing a marketplace that holds no positive stock into another such
      marketplace leaves both stocked sums unchanged. */
  lemma {:induction false} StockedSumsIgnoreUnstocked(mps: seq<Marketplace>, i: nat, m: Marketplace)
    requires i < |mps| && mps[i].stock <= 0.0 && m.stock <= 0.0
    ensures StockedMarginSum(mps[i := m]) == StockedMarginSum(mps)
    ensures StockedForecastSum(mps[i := m]) == StockedForecastSum(mps)
  {
    var n := |mps| - 1;
    assert mps[i := m][..n] == if i == n then mps[..n] else mps[..n][i := m];
    if i < n {
      StockedSumsIgnoreUnstocked(mps[..n], i, m);
    }
  }

  /** CPPU_avg depends only on the marketplaces with stock > 0. */
  lemma CppuAvgIgnoresUnstocked(mps: seq<Marketplace>, i: nat, m: Marketplace)
    requires i < |mps| && mps[i].stock <= 0.0 && m.stock <= 0.0
    ensures CppuAvg(mps[i := m]) == CppuAvg(mps)
  {
    StockedSumsIgnoreUnstocked(mps, i, m);
  }

  /** The two totals written out for a list of four marketplaces. */
  lemma TotalsOfFour(mps: seq<Marketplace>)
    requires |mps| == 4
    ensures TotalStock(mps) == mps[0].stock + mps[1].stock + mps[2].stock + mps[3].stock
    ensures TotalForecast(mps) == mps[0].forecast + mps[1].forecast + mps[2].forecast + mps[3].forecast
  {
    var p1, p2, p3 := mps[..1], mps[..2], mps[..3];
    assert p1[..0] == [] && p1[0] == mps[0];
    assert p2[..1] == p1 && p2[1] == mps[1];
    assert p3[..2] == p2 && p3[2] == mps[2];
    assert TotalStock(p1) == mps[0].stock && TotalForecast(p1) == mps[0].forecast;
    assert TotalStock(p2) == mps[0].stock + mps[1].stock && TotalForecast(p2) == mps[0].forecast + mps[1].forecast;
  }
}
