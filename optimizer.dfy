/** The sequential greedy optimizer: each candidate passes through the
    margin, WoC-health and depletion gates against the forecast that is
    still active, and a turned-off candidate's forecast is removed before
    the next candidate is judged. */
module Optimizer {
  import opened Marketplaces
  import opened Metrics

  datatype Outcome = TurnOff | KeepActive

  /** One entry of the decision list: the marketplace, its CPPU after the
      OOR cost, the three gate results, the New WoC and the outcome. */
  datatype Decision = Decision(
    name: Code, cppuEffective: real, passCppu: bool, newWoc: real,
    passHealth: bool, passDepletion: bool, outcome: Outcome)

  /** The values every gate compares against; fixed for the whole loop. */
  datatype Gates = Gates(sEU: real, cppuAvg: real, oorCost: real, maxWoc: real, tArrival: real)

  /** The decision on candidate `m` when `remaining` units of weekly
      forecast are still active. */
  function Decide(m: Marketplace, remaining: real, g: Gates): (d: Decision)
    ensures d.name == m.name
    ensures d.outcome == TurnOff <==>
              && m.cppu - g.oorCost <= g.cppuAvg
              && d.newWoc <= g.maxWoc
              && (g.tArrival >= NEVER || d.newWoc < g.tArrival)
    ensures remaining - m.forecast > 0.0 ==> d.newWoc * (remaining - m.forecast) == g.sEU
    ensures remaining - m.forecast <= 0.0 ==> d.newWoc == NEVER
    ensures d.outcome == TurnOff <==> d.passCppu && d.passHealth && d.passDepletion
    ensures d.cppuEffective == m.cppu - g.oorCost
    ensures d.passCppu <==> d.cppuEffective <= g.cppuAvg
    ensures d.passHealth <==> d.newWoc <= g.maxWoc
    ensures d.passDepletion <==> (g.tArrival >= NEVER || d.newWoc < g.tArrival)
  {
    var cppuEffective := m.cppu - g.oorCost;
    var passCppu := cppuEffective <= g.cppuAvg;
    var newWoc := CoverageOrNever(g.sEU, remaining - m.forecast);
    var passHealth := newWoc <= g.maxWoc;
    var passDepletion := g.tArrival >= NEVER || newWoc < g.tArrival;
    var outcome := if passCppu && passHealth && passDepletion then TurnOff else KeepActive;
    Decision(m.name, cppuEffective, passCppu, newWoc, passHealth, passDepletion, outcome)
  }

  /** The forecast still active after deciding `d` on `m`. */
  function Next(m: Marketplace, d: Decision, remaining: real): real
  {
    if d.outcome == TurnOff then remaining - m.forecast else remaining
  }

  /** The decision list and the remaining forecast at the end of the loop. */
  datatype Trace = Trace(decisions: seq<Decision>, remaining: real)

  /** The loop as a fold over the candidates, carrying the remaining
      forecast. */
  function Run(cands: seq<Marketplace>, remaining: real, g: Gates): (t: Trace)
    ensures |t.decisions| == |cands|
    ensures forall i :: 0 <= i < |cands| ==> t.decisions[i].name == cands[i].name
    decreases |cands|
  {
    if cands == [] then Trace([], remaining)
    else
      var d := Decide(cands[0], remaining, g);
      var rest := Run(cands[1..], Next(cands[0], d, remaining), g);
      Trace([d] + rest.decisions, rest.remaining)
  }

  /** The body of the loop for one candidate: the three gates and the
      resulting decision, judged against the forecast still active. */
  method Judge(mp: Marketplace, remaining: real, g: Gates) returns (d: Decision)
    ensures d == Decide(mp, remaining, g)
  {
    var cppuEffective := mp.cppu - g.oorCost;
    var passCppu := cppuEffective <= g.cppuAvg;
    var wocNew := if remaining - mp.forecast > 0.0 then g.sEU / (remaining - mp.forecast) else NEVER;
    var passHealth := wocNew <= g.maxWoc;
    var passDepletion := g.tArrival >= NEVER || wocNew < g.tArrival;
    var outcome := if passCppu && passHealth && passDepletion then TurnOff else KeepActive;
    d := Decision(mp.name, cppuEffective, passCppu, wocNew, passHealth, passDepletion, outcome);
  }

  /** One step of the fold, starting at position `i`. */
  lemma RunStep(cands: seq<Marketplace>, i: nat, remaining: real, g: Gates)
    requires i < |cands|
    ensures var d := Decide(cands[i], remaining, g);
      var rest := Run(cands[i + 1..], Next(cands[i], d, remaining), g);
      Run(cands[i..], remaining, g) == Trace([d] + rest.decisions, rest.remaining)
  {
    assert cands[i..][1..] == cands[i + 1..];
  }

  /** The optimizer loop: one decision per candidate, appended in order, and
      the active forecast reduced after each turn-off. */
  method Optimize(cands: seq<Marketplace>, fEU: real, g: Gates)
    returns (decisions: seq<Decision>, remaining: real)
    ensures Trace(decisions, remaining) == Run(cands, fEU, g)
  {
    decisions, remaining := [], fEU;
    for i := 0 to |cands|
      invariant Run(cands, fEU, g)
             == Trace(decisions + Run(cands[i..], remaining, g).decisions,
                      Run(cands[i..], remaining, g).remaining)
    {
      var mp := cands[i];
      var d := Judge(mp, remaining, g);
      var outcome := d.outcome;
      ghost var before := remaining;
      RunStep(cands, i, remaining, g);
      ghost var rest := Run(cands[i + 1..], Next(mp, d, remaining), g);
      assert (decisions + [d]) + rest.decisions == decisions + ([d] + rest.decisions);
      decisions := decisions + [d];
      if outcome == TurnOff {
        remaining := remaining - mp.forecast;
      }
      assert remaining == Next(mp, d, before);
    }
    assert decisions + [] == decisions;
  }

  /** Total forecast of the candidates whose decision is TURN_OFF. */
  function OffForecast(cands: seq<Marketplace>, ds: seq<Decision>): real
    requires |cands| == |ds|
  {
    if cands == [] then 0.0
    else (if ds[0].outcome == TurnOff then cands[0].forecast else 0.0) + OffForecast(cands[1..], ds[1..])
  }

  /** The forecast still active when the candidate at position `i` is
      judged: the starting forecast less that of the earlier turn-offs. */
  function RemainingAt(cands: seq<Marketplace>, ds: seq<Decision>, start: real, i: nat): real
    requires |cands| == |ds| && i <= |cands|
  {
    start - OffForecast(cands[..i], ds[..i])
  }

  /** Peeling the first candidate off the prefix sum. */
  lemma RemainingAtTail(cands: seq<Marketplace>, ds: seq<Decision>, start: real, i: nat)
    requires |cands| == |ds| && 1 <= i <= |cands|
    ensures RemainingAt(cands, ds, start, i)
         == RemainingAt(cands[1..], ds[1..], Next(cands[0], ds[0], start), i - 1)
  {
    assert cands[..i][1..] == cands[1..][..i - 1];
    assert ds[..i][1..] == ds[1..][..i - 1];
  }

  /** The decision at position `i` is the one Decide gives against the
      forecast left by the earlier turn-offs. */
  lemma {:induction false} RunDecisionAt(cands: seq<Marketplace>, start: real, g: Gates, i: nat)
    requires i < |cands|
    ensures Run(cands, start, g).decisions[i]
         == Decide(cands[i], RemainingAt(cands, Run(cands, start, g).decisions, start, i), g)
  {
    if i > 0 {
      var t := Run(cands, start, g);
      var d := Decide(cands[0], start, g);
      var next := Next(cands[0], d, start);
      var rest := Run(cands[1..], next, g);
      assert t.decisions == [d] + rest.decisions;
      assert t.decisions[0] == d && t.decisions[1..] == rest.decisions;
      assert t.decisions[i] == rest.decisions[i - 1] && cands[1..][i - 1] == cands[i];
      RunDecisionAt(cands[1..], next, g, i - 1);
      RemainingAtTail(cands, t.decisions, start, i);
    }
  }

  /** The final remaining forecast is the starting one less the forecasts
      of all turned-off candidates. */
  lemma {:induction false} RunRemaining(cands: seq<Marketplace>, start: real, g: Gates)
    ensures Run(cands, start, g).remaining
         == RemainingAt(cands, Run(cands, start, g).decisions, start, |cands|)
  {
    var t := Run(cands, start, g);
    if cands == [] {
      assert cands[..0] == [] && t.decisions[..0] == [];
    } else {
      var d := Decide(cands[0], start, g);
      var next := Next(cands[0], d, start);
      var rest := Run(cands[1..], next, g);
      assert t.decisions == [d] + rest.decisions;
      assert t.decisions[0] == d && t.decisions[1..] == rest.decisions;
      RunRemaining(cands[1..], next, g);
      RemainingAtTail(cands, t.decisions, start, |cands|);
    }
  }

  /** Closed form of the loop: every decision is the one Decide gives
      against the forecast left by the earlier turn-offs, not against the
      original total, and the final remaining forecast is the starting one
      less the forecasts of all turned-off candidates. */
  lemma RunClosedForm(cands: seq<Marketplace>, start: real, g: Gates)
    ensures var t := Run(cands, start, g);
      && (forall i :: 0 <= i < |cands| ==>
            t.decisions[i] == Decide(cands[i], RemainingAt(cands, t.decisions, start, i), g))
      && t.remaining == RemainingAt(cands, t.decisions, start, |cands|)
  {
    forall i | 0 <= i < |cands|
      ensures Run(cands, start, g).decisions[i]
           == Decide(cands[i], RemainingAt(cands, Run(cands, start, g).decisions, start, i), g)
    {
      RunDecisionAt(cands, start, g, i);
    }
    RunRemaining(cands, start, g);
  }

  lemma {:induction false} OffForecastNonNegative(cands: seq<Marketplace>, ds: seq<Decision>)
    requires |cands| == |ds|
    requires forall k :: 0 <= k < |cands| ==> cands[k].forecast >= 0.0
    ensures OffForecast(cands, ds) >= 0.0
  {
    if cands != [] {
      assert forall k :: 0 <= k < |cands| - 1 ==> cands[1..][k] == cands[k + 1];
      OffForecastNonNegative(cands[1..], ds[1..]);
    }
  }

  lemma {:induction false} OffForecastMonotone(cands: seq<Marketplace>, ds: seq<Decision>, i: nat, j: nat)
    requires |cands| == |ds| && i <= j <= |cands|
    requires forall k :: 0 <= k < |cands| ==> cands[k].forecast >= 0.0
    ensures OffForecast(cands[..i], ds[..i]) <= OffForecast(cands[..j], ds[..j])
  {
    if i == 0 {
      OffForecastNonNegative(cands[..j], ds[..j]);
    } else {
      assert forall k :: 0 <= k < |cands| - 1 ==> cands[1..][k] == cands[k + 1];
      OffForecastMonotone(cands[1..], ds[1..], i - 1, j - 1);
      assert cands[..i][1..] == cands[1..][..i - 1] && ds[..i][1..] == ds[1..][..i - 1];
      assert cands[..j][1..] == cands[1..][..j - 1] && ds[..j][1..] == ds[1..][..j - 1];
    }
  }

  /** With non-negative forecasts the active forecast never increases along
      the loop, and it never ends above where it started. */
  lemma RemainingNeverIncreases(cands: seq<Marketplace>, start: real, g: Gates)
    requires forall k :: 0 <= k < |cands| ==> cands[k].forecast >= 0.0
    ensures var t := Run(cands, start, g);
      && (forall i, j :: 0 <= i <= j <= |cands| ==>
            RemainingAt(cands, t.decisions, start, j) <= RemainingAt(cands, t.decisions, start, i))
      && t.remaining <= start
  {
    var t := Run(cands, start, g);
    forall i, j | 0 <= i <= j <= |cands|
      ensures RemainingAt(cands, t.decisions, start, j) <= RemainingAt(cands, t.decisions, start, i)
    {
      OffForecastMonotone(cands, t.decisions, i, j);
    }
    RunClosedForm(cands, start, g);
    OffForecastMonotone(cands, t.decisions, 0, |cands|);
  }

  /** When every decision is KEEP_ACTIVE the forecast is left as it was. */
  lemma {:induction false} AllKeptLeavesRemaining(cands: seq<Marketplace>, start: real, g: Gates)
    requires forall j :: 0 <= j < |cands| ==> Run(cands, start, g).decisions[j].outcome == KeepActive
    ensures Run(cands, start, g).remaining == start
  {
    if cands != [] {
      var t := Run(cands, start, g);
      var d := Decide(cands[0], start, g);
      var rest := Run(cands[1..], Next(cands[0], d, start), g);
      assert t.decisions[0] == d;
      forall j | 0 <= j < |cands| - 1
        ensures rest.decisions[j].outcome == KeepActive
      {
        assert t.decisions[j + 1] == rest.decisions[j];
      }
      AllKeptLeavesRemaining(cands[1..], start, g);
    }
  }

  /** When some candidate is turned off, the coverage left at the end is
      the New WoC recorded for the last TURN_OFF decision, so it passed the
      health gate. */
  lemma {:induction false} LastTurnOffGivesFinalWoc(cands: seq<Marketplace>, start: real, g: Gates, k: nat)
    requires k < |cands|
    requires Run(cands, start, g).decisions[k].outcome == TurnOff
    requires forall j :: k < j < |cands| ==> Run(cands, start, g).decisions[j].outcome == KeepActive
    ensures CoverageOrNever(g.sEU, Run(cands, start, g).remaining) == Run(cands, start, g).decisions[k].newWoc
    ensures CoverageOrNever(g.sEU, Run(cands, start, g).remaining) <= g.maxWoc
  {
    var t := Run(cands, start, g);
    var d := Decide(cands[0], start, g);
    var next := Next(cands[0], d, start);
    var rest := Run(cands[1..], next, g);
    assert t.decisions == [d] + rest.decisions;
    if k == 0 {
      forall j | 0 <= j < |cands| - 1
        ensures rest.decisions[j].outcome == KeepActive
      {
        assert t.decisions[j + 1] == rest.decisions[j];
      }
      AllKeptLeavesRemaining(cands[1..], next, g);
      assert next == start - cands[0].forecast;
    } else {
      assert rest.decisions[k - 1] == t.decisions[k];
      forall j | k - 1 < j < |cands| - 1
        ensures rest.decisions[j].outcome == KeepActive
      {
        assert t.decisions[j + 1] == rest.decisions[j];
      }
      LastTurnOffGivesFinalWoc(cands[1..], next, g, k - 1);
    }
  }

  /** The loop is not the same as judging every candidate against the
      original total: two candidates of forecast 10 each, 100 units of
      stock, 35 units of total forecast and a health limit of 5 weeks. The
      first is turned off (New WoC 100/25 = 4); the second then sees
      100/15 > 5 and stays active, although against the original total it
      would see 100/25 and be turned off. */
  lemma SequentialDependsOnEarlierTurnOffs()
    ensures var g := Gates(100.0, 3.0, 1.5, 5.0, NEVER);
      var a := Marketplace(IT, 0.0, 10.0, 2.0);
      var b := Marketplace(ES, 0.0, 10.0, 2.0);
      && Run([a, b], 35.0, g).decisions[0].outcome == TurnOff
      && Run([a, b], 35.0, g).decisions[1].outcome == KeepActive
      && Decide(b, 35.0, g).outcome == TurnOff
  {
    var g := Gates(100.0, 3.0, 1.5, 5.0, NEVER);
    var a := Marketplace(IT, 0.0, 10.0, 2.0);
    var b := Marketplace(ES, 0.0, 10.0, 2.0);
    var da := Decide(a, 35.0, g);
    assert da.newWoc == 4.0;
    assert da.outcome == TurnOff;
    var db := Decide(b, 25.0, g);
    assert db.newWoc * 15.0 == 100.0;
    assert db.outcome == KeepActive;
    assert [a, b][1..] == [b];
    assert Run([a, b], 35.0, g).decisions == [da] + Run([b], 25.0, g).decisions;
    assert Run([b], 25.0, g).decisions == [db] + Run([], 15.0, g).decisions;
    assert Decide(b, 35.0, g).newWoc == 4.0;
  }
}
