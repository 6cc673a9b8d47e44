# NRP calculator — the Calculate engine in Dafny

The National Reserve Program calculator decides which of four EU
marketplaces (DE, FR, ES, IT) that share one stock pool should be turned off
so that the pool's weeks of coverage (WoC) reach a healthy level before new
stock arrives. Pressing **Calculate** runs four stages, and this project
models each of them with exact `real` arithmetic:

1. **Aggregates** (`Metrics`): the total stock `S_EU` and weekly forecast
   `F_EU`, the current coverage `WoC_EU` (0 when there is no positive
   forecast), the replenishment arrival `T_arrival_weeks` chosen by the PO
   status (999, meaning "never", for an end-of-life product), and `CPPU_avg`,
   the forecast-weighted contribution profit per unit over the marketplaces
   that hold stock.
2. **Candidates** (`Candidates`): the marketplaces with exactly zero stock,
   collected in the order IT, ES, FR, DE and then stably sorted by ascending
   forecast.
3. **Sequential optimizer** (`Optimizer`): each candidate passes through a
   margin gate, a WoC-health gate and a depletion-timing gate. The gates are
   judged against the forecast still active, and a turned-off candidate's
   forecast is removed before the next one is judged.
4. **Final state** (`Engine`): the final WoC (999 when no positive forecast
   is left) and the lists of turned-off and still-active marketplaces.

`Marketplaces` holds the data model: marketplace records, the PO-status
options, the sidebar inputs and the sentinel `NEVER = 999`.

The code computes imperatively in three places, and the model keeps these as
methods with loops, each proved equal to a defining function:
- `BlendedCppu` accumulates the two CPPU sums;
- `SelectCandidates` appends the zero-stock marketplaces and then sorts them;
- `Optimize` appends decisions and decrements the remaining forecast.

`Engine.Calculate` chains the stages, and `Engine.Evaluate` is the matching
function.

The list sort (`list.sort` with a forecast key) is modelled as the stable
insertion sort `SortByForecast`. `Candidates.StableSortIsUnique` shows that
every sorted, stable rearrangement gives this same list, so the result does
not depend on the library's algorithm.

With the sidebar defaults the two candidates are IT and then ES, and both
stay active. IT's New WoC is 200/(80 − 10) = 200/70. IT stays active, so
nothing is subtracted, and ES is judged on 80 − 15 = 65: its New WoC is
200/65 (`Engine.DefaultsRun`). Neither is below the 2-week arrival.

Two marketplace orders appear in the block, and both are modelled as
written: the zero-stock scan visits IT, ES, FR, DE (`ScanList`), while the
totals and the CPPU sums add DE, FR, ES, IT (`EntryList`, the scan order
reversed).

## Model

| member | source | states |
|---|---|---|
| Marketplaces.ScanList | nrp_app.py:105-113 | the four marketplaces in the zero-stock scan order IT, ES, FR, DE, each name once |
| Marketplaces.EntryList | nrp_app.py:58-59 | the four marketplaces in the order DE, FR, ES, IT in which the totals add them, exactly the scan order reversed |
| Engine.TotalsOfInputs | nrp_app.py:58-59 | `S_EU` and `F_EU`, computed by `TotalStock` and `TotalForecast`, are the sums of the four stocks and of the four forecasts |
| Metrics.Coverage | nrp_app.py:60 | `WoC_EU` times `F_EU` is `S_EU` when `F_EU` > 0; it is exactly 0 otherwise; it is non-negative for non-negative stock |
| Metrics.Arrival | nrp_app.py:63-70 | EoL gives 999; Incoming PO gives the PO arrival; low confirmation gives 7·T = 2·lead time; the remaining mode gives 7·T = lead time |
| Metrics.LowConfirmationDoublesArrival | nrp_app.py:67-70 | the low-confirmation arrival is exactly twice the high-confirmation one |
| Metrics.CppuAvg | nrp_app.py:88 | when the stocked forecasts sum to a positive value, `CPPU_avg` times that sum (`StockedForecastSum`) is the sum of cppu·forecast over stocked marketplaces (`StockedMarginSum`); otherwise it is 0 |
| Metrics.BlendedCppu | nrp_app.py:73-88 | the accumulation loop over the marketplaces keeps its two sums equal to `StockedMarginSum` and `StockedForecastSum` of the prefix read so far and yields exactly `CppuAvg` |
| Metrics.CppuAvgWithinBounds | nrp_app.py:73-88 | with non-negative stocked forecasts of positive sum, `CPPU_avg` lies between any lower and upper bound of the stocked cppu values |
| Metrics.CppuAvgIgnoresUnstocked | nrp_app.py:75-86 | replacing a marketplace without positive stock by another such marketplace does not change `CPPU_avg` |
| Metrics.CoverageOrNever | nrp_app.py:125 | the coverage against a reduced demand: stock over demand when the demand is positive, 999 otherwise, and non-negative for non-negative stock |
| Candidates.ZeroStockMembers | nrp_app.py:105-113 | the collected list holds exactly the marketplaces whose stock is 0 |
| Candidates.ZeroStockInScanOrder | nrp_app.py:105-113 | the collected list keeps the scan order |
| Candidates.SelectCandidates | nrp_app.py:105-115 | appending the zero-stock marketplaces in scan order and sorting gives `SortByForecast(ZeroStock(mps))` |
| Candidates.SortProperties | nrp_app.py:115 | the sort gives a non-decreasing permutation of its input that keeps every group of equal forecasts in input order |
| Candidates.StableSortIsUnique | nrp_app.py:115 | any sorted list that keeps every equal-forecast group of the input in order is the sort's result |
| Candidates.CandidatesProperties | nrp_app.py:105-115 | the candidates are exactly the zero-stock marketplaces, each name once, non-decreasing by forecast, with equal forecasts in IT, ES, FR, DE order |
| Optimizer.Decide | nrp_app.py:122-129 | the effective CPPU is cppu − OOR cost; the margin flag holds iff it is ≤ `CPPU_avg` (equality passes); the health flag iff New WoC ≤ max WoC; the depletion flag iff T ≥ 999 or New WoC < T (equality fails); TURN_OFF iff all three flags hold. New WoC times (rem − f) is `S_EU` when rem − f > 0. New WoC is 999 otherwise |
| Optimizer.Run | nrp_app.py:118-142 | the fold gives exactly one decision per candidate, named as the candidate, in candidate order |
| Optimizer.Optimize | nrp_app.py:118-142 | the loop that appends decisions and subtracts turned-off forecasts, with its loop body `Judge` (the gate computation of 122-139), yields exactly `Run` from `F_EU` |
| Optimizer.RunDecisionAt | nrp_app.py:125 | decision i is judged against `F_EU` less the forecasts of the turned-off candidates before i |
| Optimizer.RunRemaining | nrp_app.py:141-142 | after the loop, whose decrement is `Next`, the remaining forecast is `F_EU` less the forecasts of all turned-off candidates |
| Optimizer.RunClosedForm | nrp_app.py:118-142 | both facts above together: each decision uses the running remainder, not the original total, and the remainder ends at `F_EU` less every turned-off forecast |
| Optimizer.RemainingNeverIncreases | nrp_app.py:141-142 | with non-negative forecasts the remaining forecast seen by later candidates is never larger, and it ends no larger than `F_EU` |
| Optimizer.AllKeptLeavesRemaining | nrp_app.py:141-142 | when every decision is KEEP_ACTIVE the remaining forecast stays `F_EU` |
| Optimizer.LastTurnOffGivesFinalWoc | nrp_app.py:125-142 | the coverage against the final remainder is the New WoC recorded for the last TURN_OFF, and so is at most max WoC |
| Optimizer.SequentialDependsOnEarlierTurnOffs | nrp_app.py:118-142 | in a concrete run a second candidate stays active only because the first was turned off, while judging it against the original total would turn it off |
| Engine.NamesWithMembers | nrp_app.py:186-187 | `NamesWith`, the two list comprehensions, lists a name exactly when some decision with that outcome carries it |
| Engine.NamesWithAppend | nrp_app.py:186-187 | listing a concatenation of decisions lists each part in turn, so each list keeps evaluation order |
| Engine.NoneListed | nrp_app.py:186 | an empty turned-off list means no decision is TURN_OFF |
| Engine.OutcomesPartition | nrp_app.py:186-187 | the two lists together hold every decision's name exactly once, and their lengths add up to the number of decisions |
| Engine.Calculate | nrp_app.py:56-187 | the whole Calculate block yields `Evaluate(inp)` |
| Engine.CandidatesOfRun | nrp_app.py:105-115 | a run's candidates are exactly its zero-stock marketplaces, each once, sorted by forecast, with ties in scan order |
| Engine.DecisionsOfRun | nrp_app.py:118-142 | a run has one decision per candidate, in order; each decision is judged against the running remainder; the final remainder is `F_EU` less every turned-off forecast |
| Engine.FinalWocAfterTurnOff | nrp_app.py:185 | when some marketplace is turned off, the final WoC is the New WoC of the last one turned off, and is at most max WoC |
| Engine.FinalWocWithoutTurnOff | nrp_app.py:185 | with no turn-off the remainder is `F_EU`; the final WoC equals `WoC_EU` when `F_EU` > 0, and is 999 while `WoC_EU` is 0 otherwise |
| Engine.ListsSplitCandidates | nrp_app.py:186-187 | the two lists split the decisions by outcome: lengths add up to the candidate count, multisets add up to the decision names, and membership is by outcome |
| Engine.CrRateIsIgnored | nrp_app.py:51 | changing the confirmation rate changes nothing in the result |
| Engine.DefaultsAggregates | nrp_app.py:22-53 | with the defaults `S_EU` = 200, `F_EU` = 80, `WoC_EU` = 2.5, T = 2 and `CPPU_avg`·55 = 160 |
| Engine.DefaultsStockedSums | nrp_app.py:22-30 | with the defaults only DE and FR count: stocked forecast 55, stocked margin 160 |
| Engine.DefaultsCandidates | nrp_app.py:32-39 | with the defaults the candidates are IT(10) and then ES(15) |
| Engine.DefaultsRun | nrp_app.py:121-142 | under the defaults' gates IT gets New WoC 200/70, ES gets 200/65, and both pass margin and health but fail depletion, so both stay KEEP_ACTIVE |
| Engine.DefaultsDecisions | nrp_app.py:22-53 | with the defaults nothing is turned off, IT and ES stay active in that order, and the final WoC is 2.5 |

## Left out

- The Streamlit page set-up, sidebar widgets and button (nrp_app.py:1-56): the inputs become the `Inputs` value passed to `Calculate`.
- All display code (metrics, expanders, success and warning texts, number formatting): it only shows values the model computes.
- The pandas table and Plotly chart (nrp_app.py:197-229), including the active-marketplace count used only by the chart: these are rendering through foreign libraries.
- The confirmation rate: the page reads it but no computation uses it. It is carried as an ignored field (`Engine.CrRateIsIgnored`).
- Floating-point rounding: all quantities are exact reals, so the model does not capture rounding differences of Python floats.
- Widget integer versus float types: stocks, forecasts and lead time are reals throughout. The comparisons `== 0` and `> 0` are kept as written.
- The in-place Timsort of the library: it is replaced by an equal stable sort function, shown unique among stable sorts.
- Profit or cross-border cost reports before and after the change: the code has none.
- Optimizer.RemainingNeverIncreases: requires non-negative forecasts. The page accepts any number, and with a negative forecast a turn-off raises the remaining forecast.
- Metrics.CppuAvgWithinBounds: requires non-negative stocked forecasts of positive sum. With a negative weight the average can fall outside the cppu range.
