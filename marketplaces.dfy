/** The marketplaces that share the EU stock pool, and the inputs of one
    Calculate run (the sidebar values). */
module Marketplaces {

  /** The four marketplace codes. */
  datatype Code = DE | FR | ES | IT

  /** One marketplace: units on hand, weekly forecast and contribution
      profit per unit (CPPU). */
  datatype Marketplace = Marketplace(name: Code, stock: real, forecast: real, cppu: real)

  /** The options of the PO-status selection box, in their order there. */
  datatype PoStatus =
    | NoPoHighConfirmation  // "No PO (CR > 25%)", the default
    | NoPoLowConfirmation   // "No PO (CR < 25%)"
    | IncomingPo            // "Incoming PO"
    | EolProduct            // "EoL Product"

  /** The value that stands for "never": the arrival time of an end-of-life
      product, and the coverage when no demand is left. */
  const NEVER: real := 999.0

  /** The three numbers entered for one marketplace. */
  datatype Figures = Figures(stock: real, forecast: real, cppu: real)

  /** Everything the sidebar supplies. `crRate` is read by the page but takes
      part in no computation. */
  datatype Inputs = Inputs(
    de: Figures, fr: Figures, es: Figures, it: Figures,
    poStatus: PoStatus, poArrival: real, leadTime: real,
    crRate: real, oorCost: real, maxWoc: real)

  /** Position of a marketplace in the order in which the zero-stock scan
      visits them: IT, ES, FR, DE. */
  function ScanRank(c: Code): nat
  {
    match c
    case IT => 0
    case ES => 1
    case FR => 2
    case DE => 3
  }

  /** Ranks strictly increase along `s`: `s` lists marketplaces in scan
      order, each at most once. */
  predicate InScanOrder(s: seq<Marketplace>)
  {
    forall i, j :: 0 <= i < j < |s| ==> ScanRank(s[i].name) < ScanRank(s[j].name)
  }

  /** No marketplace name occurs twice in `s`. */
  predicate DistinctNames(s: seq<Marketplace>)
  {
    forall i, j :: 0 <= i < j < |s| ==> s[i].name != s[j].name
  }

  /** The four marketplaces of a run, in scan order. */
  function ScanList(inp: Inputs): (mps: seq<Marketplace>)
    ensures |mps| == 4 && InScanOrder(mps) && DistinctNames(mps)
    ensures forall i :: 0 <= i < 4 ==> ScanRank(mps[i].name) == i
  {
    [ Marketplace(IT, inp.it.stock, inp.it.forecast, inp.it.cppu),
      Marketplace(ES, inp.es.stock, inp.es.forecast, inp.es.cppu),
      Marketplace(FR, inp.fr.stock, inp.fr.forecast, inp.fr.cppu),
      Marketplace(DE, inp.de.stock, inp.de.forecast, inp.de.cppu) ]
  }

  /** The four marketplaces in the order in which the sidebar lists them
      and the totals and CPPU sums visit them: DE, FR, ES, IT, the reverse of
      the scan order. */
  function EntryList(inp: Inputs): (mps: seq<Marketplace>)
    ensures |mps| == 4 && DistinctNames(mps)
    ensures forall i :: 0 <= i < 4 ==> mps[i] == ScanList(inp)[3 - i]
  {
    [ Marketplace(DE, inp.de.stock, inp.de.forecast, inp.de.cppu),
      Marketplace(FR, inp.fr.stock, inp.fr.forecast, inp.fr.cppu),
      Marketplace(ES, inp.es.stock, inp.es.forecast, inp.es.cppu),
      Marketplace(IT, inp.it.stock, inp.it.forecast, inp.it.cppu) ]
  }
}
