# Al Nuzhah dashboard: derived-financials model

A Dafny model of the computational core of the Al Nuzhah financial-projection
dashboard (Arabic view). The dashboard covers a 9-unit residential property
under three operating scenarios: smart hybrid, daily short-term rental and
yearly long-term rental. Each scenario has three pricing cases: worst, base
and best. The viewer picks a scenario, a case, an occupancy (40%..100%) and a
management fee (20% or 30%). The dashboard then recomputes, in this order:

- effective revenue;
- the OTA (booking platform) fee, 15.5% of gross, charged only by the
  short-term scenario;
- revenue net of OTA;
- the management ("Mabaat") fee, taken on the net of OTA;
- the owner's net income.

It also composes the line items of the financial breakdown.

The model is exact. Occupancy is in tenths, the fee in percent and the OTA
rate in per mille. JavaScript's `Math.round` is `floor(x + 1/2)`, so it is
`Rounding.RoundDiv(n, d)`: the nearest integer to `n / d`, with halves
rounded up.

Modules, following the program's structure:

- `Rounding`: `Math.round` on exact rationals, with its characterisation and
  its uniqueness.
- `Catalog`: the static scenario table (`SCENARIOS`), the lookup by id with
  its fall-back to the first row, and the table's structural invariants.
- `Calculator`: the derived-financials calculation.
- `Ledger`: the ordered line items and their whole-number percentage of
  revenue.
- `Cockpit`: the selection state, the options each control offers, the
  change handlers, and the inductive invariant that the long-term scenario
  never drops below 60% occupancy.
- `Baselines`: the catalog's stored splits compared with the calculator.
  See Findings.

Behaviours of the code that the model keeps:

- The hybrid pin and the OTA switch test the raw selected id. The baseline
  row comes from `find(...) || SCENARIOS[0]`. So an id outside the catalog
  gets hybrid's revenue but no pin to 100% occupancy
  (`Calculator.UnknownIdScalesFallbackRow`). The UI cannot reach such an id
  (`Cockpit.Reachable`).
- An unknown id falls back to the first row rather than failing.
- The OTA row appears for short-term only when the effective revenue is at
  least 4. Below that, 15.5% rounds to 0 and the row is left out
  (`Ledger.OtaRowPresence`). For any positive revenue the row would not always
  be present. In every reachable state the revenue is far above 4, so the row
  is always there (`Cockpit.ReachableOutputsSound`).
- The stored short-term split is of revenue net of OTA: 140340 + 561358 is
  701698, which is 830412 minus the OTA fee. So for those rows the identity
  is share + net + OTA = revenue, not share + net = revenue.
- Two data facts are stated as lemmas, not promises. The short-term unit
  averages sum exactly to the base revenue. The long-term ones sum to 632784,
  10 less than the stored 632794 (`Catalog.UnitMixAnnualTotals`). The live
  path never reads the unit averages.

## Model

| member | source | states |
|---|---|---|
| Rounding.RoundDiv | App_ar.tsx:164 | `Math.round(n / d)` is the integer r with d(2r-1) <= 2n < d(2r+1): the nearest integer, halves rounded up |
| Rounding.RoundDivUnique | App_ar.tsx:164 | that characterisation admits exactly one integer, so any r satisfying it is the rounded value |
| Rounding.Share | App_ar.tsx:164-180 | `Math.round(base * rate)` for a decimal rate is the nearest integer to base times rate; for a non-negative base and a rate between 0 and 1 it lies between 0 and the base, is 0 at rate 0 and the base itself at rate 1 |
| Rounding.ShareUnique | App_ar.tsx:164-180 | any integer meeting that characterisation is the rounded share |
| Catalog.Find | App_ar.tsx:158 | `SCENARIOS.find` returns nothing exactly when no row has the id, and otherwise the first row with it |
| Catalog.ActiveScenario | App_ar.tsx:158 | a catalog id selects its own row; any other id selects `SCENARIOS[0]` |
| Catalog.Ids | App_ar.tsx:298 | the scenario control's options are the catalog ids, one per row, in catalog order |
| Catalog.CatalogShape | constants.ts:4-182 | exactly three rows, with distinct ids `hybrid`, `short_term`, `long_term` of the matching types |
| Catalog.KnownIdsResolve | App_ar.tsx:158 | each of the three ids resolves to its own row |
| Catalog.UnknownIdFallsBackToHybrid | App_ar.tsx:158 | an id outside the catalog resolves to the hybrid row instead of failing |
| Catalog.UnitMixMatchesUnitCount | constants.ts:35-180 | every row declares 9 units and its unit-mix counts sum to that |
| Catalog.PriceRangesOrdered | constants.ts:39-180 | every rate band has min <= avg <= max; hybrid units have none, rental units all have one |
| Catalog.BaselineRevenueMonotone | constants.ts:12-143 | baseline revenue never decreases from worst to base to best; all three hybrid cases share 508102 |
| Catalog.RoiIsNetIncomeOverPropertyValue | constants.ts:12-145 | every stored ROI is net income over property value as a percentage, rounded to two decimals |
| Catalog.UnitMixAnnualTotals | constants.ts:86-180 | short-term unit averages sum to the base revenue; long-term ones are 12 times the monthly average rate and sum to 10 less than it |
| Calculator.DeriveFrom | App_ar.tsx:163-182 | OTA fee plus net equals revenue, and management fee plus owner income equals net; a pinned occupancy keeps the baseline, otherwise revenue is the baseline times occupancy, rounded; the OTA fee is 15.5% of gross rounded, or 0 when not charged, and never exceeds the revenue; the management fee is the fee percentage of the net, rounded; with a fee of at most 100% nothing is negative and no deduction exceeds its base |
| Calculator.Derive | App_ar.tsx:158-182 | hybrid revenue is the selected row's baseline itself, any other id scales it by occupancy, rounded; only the `short_term` id pays the OTA fee, 15.5% of gross rounded |
| Calculator.CatalogRowsDriveCalculator | App_ar.tsx:158-168 | for a catalog row, testing the selected id for the pin and the OTA fee is the same as testing the row's type |
| Calculator.HybridIgnoresOccupancyAndCase | App_ar.tsx:163-164 | hybrid outputs do not depend on the occupancy or the case, and hybrid revenue is 508102 |
| Calculator.UnknownIdScalesFallbackRow | App_ar.tsx:158-175 | an unknown id is priced with hybrid's revenue scaled by occupancy, pays no OTA fee, and below 100% shows less than hybrid |
| Calculator.ShortTermBaseExample | App_ar.tsx:164-182 | short-term, base, 100%, 20% gives 1009537, 156478, 853059, 170612, 682447; the fee on gross would be 201907 |
| Calculator.LongTermWorstExample | App_ar.tsx:164-182 | long-term, worst, 60%, 30% gives 329537, 0, 329537, 98861, 230676 |
| Ledger.Compose | App_ar.tsx:246-255 | an OTA row exactly when the OTA fee is positive, and first; then the management row with its fee percentage; the owner row is last and the only highlighted one |
| Ledger.Percent | App_ar.tsx:84 | 0 when revenue is not positive; otherwise amount over revenue times 100, rounded; between 0 and 100 when the amount is within the revenue |
| Ledger.RowPercents | App_ar.tsx:83-84 | one percentage per ledger item, in order; all 0 without revenue; all within 0..100 when every amount is within the revenue |
| Ledger.LedgerPartitionsRevenue | App_ar.tsx:249-255 | the amounts of the ledger of any calculation add up to its effective revenue |
| Ledger.OtaRowPresence | App_ar.tsx:249-252 | the ledger has an OTA row if and only if the scenario is short-term and the effective revenue is at least 4 |
| Ledger.LedgerAmountsWithinRevenue | App_ar.tsx:84 | with a fee of at most 100%, every row amount lies between 0 and the revenue, and every bar between 0% and 100% |
| Cockpit.AtLeast | App_ar.tsx:234 | the filter keeps exactly the options at or above the bound, and an increasing option list stays increasing |
| Cockpit.OccupancyOptions | App_ar.tsx:222-235 | long-term is offered exactly the occupancies from 60% up, as the list 60%, 70%, 80%, 90%, 100%; other scenarios get all of 40%..100% in order |
| Cockpit.Offered | App_ar.tsx:298-351 | scenario picks are catalog ids; case and occupancy picks only when the scenario is not hybrid, occupancy from `OccupancyOptions`; fee picks 20 or 30 |
| Cockpit.Step | App_ar.tsx:290-346 | switching scenario keeps case and fee and changes occupancy only to lift it to 60% for long-term; each other handler changes only its own field |
| Cockpit.Initial | App_ar.tsx:153-156 | the fresh state is hybrid with the default 30% share, and satisfies the invariant |
| Cockpit.StepPreservesInv | App_ar.tsx:222-351 | every offered event keeps the id a catalog id, occupancy and fee offered values, and long-term at 60% or more |
| Cockpit.RunPreservesInv | App_ar.tsx:222-351 | every sequence of offered events keeps that invariant |
| Cockpit.Reachable | App_ar.tsx:153-158 | in every reachable state, long-term implies occupancy of 60% or more, and the lookup never falls back |
| Cockpit.OccupancyFilterIsNeeded | App_ar.tsx:233-235 | the occupancy handler alone would set long-term to 40%; only the filtered options prevent it |
| Cockpit.ClampIsReached | App_ar.tsx:290-296 | a reachable hybrid state can hold 40%, and switching it to long-term lifts it to 60% |
| Cockpit.ReachableOutputsSound | App_ar.tsx:164-255 | in every state satisfying the invariant, all outputs are non-negative, each deduction is at most its base, every bar is 0..100%, and the OTA row is shown exactly for short-term |
| Cockpit.OutputsSound | App_ar.tsx:164-255 | the same facts for any id and case at an occupancy of 40% or more and a fee of at most 100% |
| Cockpit.ShortTermRevenueAtLeastFour | App_ar.tsx:164-175 | from 40% occupancy up, short-term revenue is at least 4, so its OTA fee is positive |
| Baselines.Reconciled | constants.ts:12-142 | a baseline recomputed from revenue at 100% occupancy and the nominal fee keeps the revenue; its share, net and (short-term only) 15.5% OTA fee add up to it; the share is the nominal fee of share plus net, rounded; its ROI is the net over the property value in hundredths of a percent, rounded |
| Baselines.ShortTermFullOccupancy | constants.ts:53-78 | a short-term case whose stored figures meet the roundings is reproduced by the calculator at 100% and 20%, ROI included |
| Baselines.ShortTermSplitMatches | constants.ts:53-78 | at 100% and 20%, the calculator reproduces each stored short-term split and ROI, and the OTA fees noted beside them |
| Baselines.LongTermSplitMatches | constants.ts:124-136 | at 100% and 30%, the calculator reproduces the stored long-term worst and base splits and ROIs |
| Baselines.HybridStoredNetShortByOne | constants.ts:12-30 | the stored hybrid share plus net is one short of the revenue; the recomputed net is one higher |
| Baselines.LongTermBestStoredShareLowByOne | constants.ts:137-142 | the stored long-term best share is one below the rounded 30% of its revenue, and its net is one above |

## Left out

- The React rendering, the segmented controls, the ledger markup and the animations (App_ar.tsx:16-150, 257-475) are presentation only.
- Currency and number formatting (`formatCurrency`, `toLocaleString`) depend on a locale library.
- The scenario, description, duration and case-label translation tables (App_ar.tsx:184-220) are literal text.
- Ledger item colours and the OTA row's label text are display hints. The management row keeps only its fee percentage.
- Catalog display fields are left out: `name`, `color`, `description`, `unitLabel`, `occupancyDurationLabel` and `videoUrl`.
- The video click handler, `MARKETING_VIDEOS` and `BRANCHES` (constants.ts:184-200) are browser I/O or unused data.
- IEEE-754 double arithmetic (`x * 0.155`, `x * 0.6`, `(amount / revenue) * 100`) is modelled as exact rationals. A double landing just below a half-way point is not reproduced.
- Stored ROI figures such as 8.13 are kept as hundredths of a percent (813).
- The `./types` module is not part of this model. Only the fields above are mirrored.
- `MABAAT_SHARE_PERCENTAGE` (constants.ts:199) is not read by the view. It appears only as the value the initial fee equals.
- Calculator.DeriveFrom: promises non-negative outputs only for fees of at most 100%, because the calculator does not guard larger fees.

## Findings

| source | as written | input that shows it | evidently intended | confidence | as-written member | corrected member |
|---|---|---|---|---|---|---|
| constants.ts:14-16 | hybrid baseline stores share 101620 and net 406481 on revenue 508102 | any hybrid case: 101620 + 406481 = 508101 | net 406482, so the 20% share and the net add up to the revenue | medium, not executed; the figures were imported from a spreadsheet, and the live path reads only `revenue` | Baselines.HybridStoredNetShortByOne | Baselines.Reconciled |
| constants.ts:138-140 | long-term best stores share 212928 and net 496834 | revenue 709762 at 30%: 212928.6 rounds to 212929 | share 212929 and net 496833 | medium, not executed; the live path reads only `revenue` | Baselines.LongTermBestStoredShareLowByOne | Baselines.Reconciled |

Both discrepancies sit in fields the live calculation never reads. The
corrected baseline `Baselines.Reconciled` keeps each row's revenue, the one
field the dashboard uses. It derives the share, the net and the ROI from
that revenue with the same calculator. So the live outputs are identical
under the stored and the corrected baselines.
