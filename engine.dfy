/** One press of Calculate: the EU aggregates, the candidate list, the
    sequential decisions and the final state. */
module Engine {
  import opened Marketplaces
  import opened Metrics
  import opened Candidates
  import opened Optimizer

  /** The marketplace names of the decisions, in evaluation order. */
  function Names(ds: seq<Decision>): (names: seq<Code>)
    ensures |names| == |ds|
    ensures forall i :: 0 <= i < |ds| ==> names[i] == ds[i].name
  {
    if ds == [] then [] else [ds[0].name] + Names(ds[1..])
  }

  /** The names of the decisions with outcome `o`, in evaluation order: the
      turned-off list for TURN_OFF and the active list for KEEP_ACTIVE. */
  function NamesWith(ds: seq<Decision>, o: Outcome): seq<Code>
  {
    if ds == [] then []
    else (if ds[0].outcome == o then [ds[0].name] else []) + NamesWith(ds[1..], o)
  }

  /** A name is listed exactly when some decision with that outcome carries
      it. */
  lemma {:induction false} NamesWithMembers(ds: seq<Decision>, o: Outcome)
    ensures forall n :: n in NamesWith(ds, o) <==> exists i :: 0 <= i < |ds| && ds[i].name == n && ds[i].outcome == o
  {
    if ds != [] {
      NamesWithMembers(ds[1..], o);
      forall n | n in NamesWith(ds, o)
        ensures exists i :: 0 <= i < |ds| && ds[i].name == n && ds[i].outcome == o
      {
        assert NamesWith(ds, o) == (if ds[0].outcome == o then [ds[0].name] else []) + NamesWith(ds[1..], o);
        if !(ds[0].outcome == o && n == ds[0].name) {
          assert n in NamesWith(ds[1..], o);
          var i :| 0 <= i < |ds[1..]| && ds[1..][i].name == n && ds[1..][i].outcome == o;
          assert ds[i + 1] == ds[1..][i];
        }
      }
      forall n | exists i :: 0 <= i < |ds| && ds[i].name == n && ds[i].outcome == o
        ensures n in NamesWith(ds, o)
      {
        var i :| 0 <= i < |ds| && ds[i].name == n && ds[i].outcome == o;
        if i > 0 {
          assert ds[1..][i - 1] == ds[i];
        }
      }
    }
  }

  /** The lists keep evaluation order: listing a concatenation lists each
      part in turn. */
  lemma {:induction false} NamesWithAppend(a: seq<Decision>, b: seq<Decision>, o: Outcome)
    ensures NamesWith(a + b, o) == NamesWith(a, o) + NamesWith(b, o)
  {
    if a != [] {
      var h := if a[0].outcome == o then [a[0].name] else [];
      assert (a + b)[0] == a[0] && (a + b)[1..] == a[1..] + b;
      NamesWithAppend(a[1..], b, o);
      assert h + (NamesWith(a[1..], o) + NamesWith(b, o)) == (h + NamesWith(a[1..], o)) + NamesWith(b, o);
    } else {
      assert a + b == b;
    }
  }

  /** An empty list means no decision has that outcome. */
  lemma {:induction false} NoneListed(ds: seq<Decision>, o: Outcome)
    requires NamesWith(ds, o) == []
    ensures forall i :: 0 <= i < |ds| ==> ds[i].outcome != o
  {
    if ds != [] {
      NoneListed(ds[1..], o);
      assert forall i :: 0 < i < |ds| ==> ds[i] == ds[1..][i - 1];
    }
  }

  /** The turned-off and the active list split the decisions between them:
      together they hold every decision's name once. */
  lemma {:induction false} OutcomesPartition(ds: seq<Decision>)
    ensures |NamesWith(ds, TurnOff)| + |NamesWith(ds, KeepActive)| == |ds|
    ensures multiset(NamesWith(ds, TurnOff)) + multiset(NamesWith(ds, KeepActive)) == multiset(Names(ds))
  {
    if ds != [] {
      OutcomesPartition(ds[1..]);
    }
  }

  /** Everything Calculate shows: the EU aggregates, the candidates, the
      decision list and the final state. */
  datatype Report = Report(
    sEU: real, fEU: real, wocEU: real, tArrival: real, cppuAvg: real,
    candidates: seq<Marketplace>, decisions: seq<Decision>, remaining: real,
    finalWoc: real, turnedOff: seq<Code>, keptActive: seq<Code>)

  /** What one Calculate run shows for the inputs `inp`. */
  function Evaluate(inp: Inputs): Report
  {
    var entry := EntryList(inp);
    var sEU := TotalStock(entry);
    var fEU := TotalForecast(entry);
    var tArrival := Arrival(inp.poStatus, inp.poArrival, inp.leadTime);
    var avg := CppuAvg(entry);
    var cands := SortByForecast(ZeroStock(ScanList(inp)));
    var t := Run(cands, fEU, Gates(sEU, avg, inp.oorCost, inp.maxWoc, tArrival));
    Report(sEU, fEU, Coverage(sEU, fEU), tArrival, avg, cands, t.decisions, t.remaining,
           CoverageOrNever(sEU, t.remaining), NamesWith(t.decisions, TurnOff), NamesWith(t.decisions, KeepActive))
  }

  /** The Calculate block, step by step. */
  method Calculate(inp: Inputs) returns (rep: Report)
    ensures rep == Evaluate(inp)
  {
    var entry := EntryList(inp);
    var sEU := TotalStock(entry);
    var fEU := TotalForecast(entry);
    var wocEU := if fEU > 0.0 then sEU / fEU else 0.0;
    var tArrival := Arrival(inp.poStatus, inp.poArrival, inp.leadTime);
    var avg := BlendedCppu(entry);
    var cands := SelectCandidates(ScanList(inp));
    var decisions, remaining := Optimize(cands, fEU, Gates(sEU, avg, inp.oorCost, inp.maxWoc, tArrival));
    var finalWoc := if remaining > 0.0 then sEU / remaining else NEVER;
    rep := Report(sEU, fEU, wocEU, tArrival, avg, cands, decisions, remaining,
                  finalWoc, NamesWith(decisions, TurnOff), NamesWith(decisions, KeepActive));
  }

  /** The gates every candidate of the run is judged by. */
  function GatesOf(inp: Inputs): Gates
  {
    var rep := Evaluate(inp);
    Gates(rep.sEU, rep.cppuAvg, inp.oorCost, inp.maxWoc, rep.tArrival)
  }

  /** The totals add up the four marketplaces' stock and forecast. */
  lemma TotalsOfInputs(inp: Inputs)
    ensures Evaluate(inp).sEU == inp.de.stock + inp.fr.stock + inp.es.stock + inp.it.stock
    ensures Evaluate(inp).fEU == inp.de.forecast + inp.fr.forecast + inp.es.forecast + inp.it.forecast
  {
    TotalsOfFour(EntryList(inp));
  }

  /** The candidates of a run are the marketplaces with zero stock, each
      once, in non-decreasing forecast order with ties in IT, ES, FR, DE
      order. */
  lemma CandidatesOfRun(inp: Inputs)
    ensures var cands := Evaluate(inp).candidates;
      && (forall m :: m in cands <==> m in ScanList(inp) && m.stock == 0.0)
      && DistinctNames(cands)
      && SortedByForecast(cands)
      && (forall i, j :: 0 <= i < j < |cands| && cands[i].forecast == cands[j].forecast ==>
            ScanRank(cands[i].name) < ScanRank(cands[j].name))
  {
    CandidatesProperties(ScanList(inp));
  }

  /** There is one decision per candidate, in candidate order, each judged
      against the forecast left by the earlier turn-offs, and the forecast
      left at the end is the total less that of every turned-off
      candidate. */
  lemma DecisionsOfRun(inp: Inputs, rep: Report)
    requires rep == Evaluate(inp)
    ensures |rep.decisions| == |rep.candidates|
    ensures forall i :: 0 <= i < |rep.candidates| ==> rep.decisions[i].name == rep.candidates[i].name
    ensures forall i :: 0 <= i < |rep.candidates| ==>
              rep.decisions[i] == Decide(rep.candidates[i], RemainingAt(rep.candidates, rep.decisions, rep.fEU, i), GatesOf(inp))
    ensures rep.remaining == RemainingAt(rep.candidates, rep.decisions, rep.fEU, |rep.candidates|)
  {
    RunClosedForm(rep.candidates, rep.fEU, GatesOf(inp));
  }

  /** When some marketplace is turned off, the final WoC is the New WoC of
      the last one turned off, and so within the healthy limit. */
  lemma FinalWocAfterTurnOff(inp: Inputs, k: nat)
    requires k < |Evaluate(inp).decisions|
    requires Evaluate(inp).decisions[k].outcome == TurnOff
    requires forall j :: k < j < |Evaluate(inp).decisions| ==> Evaluate(inp).decisions[j].outcome == KeepActive
    ensures Evaluate(inp).finalWoc == Evaluate(inp).decisions[k].newWoc
    ensures Evaluate(inp).finalWoc <= inp.maxWoc
  {
    var rep := Evaluate(inp);
    LastTurnOffGivesFinalWoc(rep.candidates, rep.fEU, GatesOf(inp), k);
  }

  /** When nothing is turned off the forecast is unchanged; the final WoC
      then equals the current WoC if the total forecast is positive, and is
      999 while the current WoC is 0 otherwise. */
  lemma FinalWocWithoutTurnOff(inp: Inputs)
    requires Evaluate(inp).turnedOff == []
    ensures Evaluate(inp).remaining == Evaluate(inp).fEU
    ensures Evaluate(inp).fEU > 0.0 ==> Evaluate(inp).finalWoc == Evaluate(inp).wocEU
    ensures Evaluate(inp).fEU <= 0.0 ==> Evaluate(inp).finalWoc == NEVER && Evaluate(inp).wocEU == 0.0
  {
    var rep := Evaluate(inp);
    NoneListed(rep.decisions, TurnOff);
    AllKeptLeavesRemaining(rep.candidates, rep.fEU, GatesOf(inp));
  }

  /** The turned-off and active lists of a run split its candidates. */
  lemma ListsSplitCandidates(inp: Inputs)
    ensures var rep := Evaluate(inp);
      && |rep.turnedOff| + |rep.keptActive| == |rep.candidates|
      && multiset(rep.turnedOff) + multiset(rep.keptActive) == multiset(Names(rep.decisions))
      && (forall n :: n in rep.turnedOff <==> exists i :: 0 <= i < |rep.decisions| && rep.decisions[i].name == n && rep.decisions[i].outcome == TurnOff)
      && (forall n :: n in rep.keptActive <==> exists i :: 0 <= i < |rep.decisions| && rep.decisions[i].name == n && rep.decisions[i].outcome == KeepActive)
  {
    var rep := Evaluate(inp);
    OutcomesPartition(rep.decisions);
    NamesWithMembers(rep.decisions, TurnOff);
    NamesWithMembers(rep.decisions, KeepActive);
  }

  /** The confirmation-rate input takes no part in the result. */
  lemma CrRateIsIgnored(inp: Inputs, crRate: real)
    ensures Evaluate(inp.(crRate := crRate)) == Evaluate(inp)
  {
  }

  /** The sidebar's default values. */
  function SidebarDefaults(): Inputs
  {
    Inputs(Figures(120.0, 30.0, 3.0), Figures(80.0, 25.0, 2.8),
           Figures(0.0, 15.0, 2.0), Figures(0.0, 10.0, 1.8),
           NoPoHighConfirmation, 8.0, 14.0, 30.0, 1.5, 7.0)
  }

  /** With the defaults: 200 units over 80 a week is 2.5 weeks of coverage,
      stock arrives in 14/7 = 2 weeks, and CPPU_avg is the blend of DE and
      FR, (3.00 * 30 + 2.80 * 25) / 55. */
  lemma DefaultsAggregates()
    ensures var rep := Evaluate(SidebarDefaults());
      && rep.sEU == 200.0 && rep.fEU == 80.0 && rep.wocEU == 2.5 && rep.tArrival == 2.0
      && rep.cppuAvg * 55.0 == 160.0
  {
    TotalsOfFour(EntryList(SidebarDefaults()));
    DefaultsStockedSums();
  }

  /** The stocked sums of the defaults: only DE and FR hold stock. */
  lemma DefaultsStockedSums()
    ensures StockedForecastSum(EntryList(SidebarDefaults())) == 55.0
    ensures StockedMarginSum(EntryList(SidebarDefaults())) == 160.0
  {
    var entry := EntryList(SidebarDefaults());
    var p1, p2, p3 := entry[..1], entry[..2], entry[..3];
    assert p1[..0] == [] && p2[..1] == p1 && p3[..2] == p2;
    assert StockedForecastSum(p1) == 30.0 && StockedMarginSum(p1) == 90.0;
    assert StockedForecastSum(p2) == 55.0 && StockedMarginSum(p2) == 160.0;
    assert StockedForecastSum(p3) == 55.0 && StockedMarginSum(p3) == 160.0;
  }

  /** With the defaults IT and ES hold no stock; IT has the smaller
      forecast and comes first. */
  lemma DefaultsCandidates()
    ensures Evaluate(SidebarDefaults()).candidates
         == [Marketplace(IT, 0.0, 10.0, 1.8), Marketplace(ES, 0.0, 15.0, 2.0)]
  {
    DefaultsZeroStock();
  }

  lemma DefaultsZeroStock()
    ensures SortByForecast(ZeroStock(ScanList(SidebarDefaults())))
         == [Marketplace(IT, 0.0, 10.0, 1.8), Marketplace(ES, 0.0, 15.0, 2.0)]
  {
    var scan := ScanList(SidebarDefaults());
    var it, es := scan[0], scan[1];
    assert [it][..0] == [] && ZeroStock([it]) == [it];
    assert [it, es][..1] == [it] && ZeroStock([it, es]) == [it, es];
    assert scan[..3][..2] == [it, es] && ZeroStock(scan[..3]) == [it, es];
    assert scan[..3] == scan[..4][..3];
    assert ZeroStock(scan) == [it, es];
    assert [it, es][1..] == [es] && [es][1..] == [];
    assert SortByForecast([es]) == [es];
  }

  /** The defaults' two candidates under the defaults' gates: both pass
      the margin gate (0.30 and 0.50 against about 2.91) and the health gate
      (200/70 and then 200/65, since nothing was removed, against 7) but
      would not deplete before the 2-week arrival, so both stay active. */
  lemma DefaultsRun(g: Gates)
    requires g.sEU == 200.0 && g.cppuAvg * 55.0 == 160.0 && g.oorCost == 1.5
    requires g.maxWoc == 7.0 && g.tArrival == 2.0
    ensures var t := Run([Marketplace(IT, 0.0, 10.0, 1.8), Marketplace(ES, 0.0, 15.0, 2.0)], 80.0, g);
      && |t.decisions| == 2 && t.remaining == 80.0
      && t.decisions[0].newWoc * 70.0 == 200.0 && t.decisions[1].newWoc * 65.0 == 200.0
      && t.decisions[0].passCppu && t.decisions[0].passHealth && !t.decisions[0].passDepletion
      && t.decisions[1].passCppu && t.decisions[1].passHealth && !t.decisions[1].passDepletion
      && t.decisions[0].outcome == KeepActive && t.decisions[1].outcome == KeepActive
  {
    var it, es := Marketplace(IT, 0.0, 10.0, 1.8), Marketplace(ES, 0.0, 15.0, 2.0);
    var d0 := Decide(it, 80.0, g);
    var d1 := Decide(es, 80.0, g);
    assert d0.newWoc * 70.0 == 200.0 && d1.newWoc * 65.0 == 200.0;
    assert d0.outcome == KeepActive && d1.outcome == KeepActive;
    assert [it, es][1..] == [es] && [es][1..] == [];
    assert Run([es], 80.0, g) == Trace([d1], 80.0);
  }

  /** With the defaults nothing is turned off, IT and ES stay active in
      that order, and the final WoC is the current 2.5 weeks. */
  lemma DefaultsDecisions()
    ensures var rep := Evaluate(SidebarDefaults());
      && (forall i :: 0 <= i < |rep.decisions| ==> rep.decisions[i].outcome == KeepActive)
      && rep.turnedOff == [] && rep.keptActive == [IT, ES]
      && rep.finalWoc == 2.5
  {
    DefaultsAggregates();
    DefaultsCandidates();
    DefaultsRun(GatesOf(SidebarDefaults()));
    TwoKept(Evaluate(SidebarDefaults()).decisions);
  }

  lemma TwoKept(ds: seq<Decision>)
    requires |ds| == 2 && ds[0].outcome == KeepActive && ds[1].outcome == KeepActive
    ensures NamesWith(ds, TurnOff) == [] && NamesWith(ds, KeepActive) == [ds[0].name, ds[1].name]
  {
    assert ds[1..] == [ds[1]] && ds[1..][1..] == [];
    assert NamesWith(ds[1..], TurnOff) == [] && NamesWith(ds[1..], KeepActive) == [ds[1].name];
  }
}
