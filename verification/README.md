# Real-terms salary calculator — Dafny model

The program compares, from one starting salary fixed in 2017, three
compounded paths up to 2025: the pay of an average worker, the pay of an
above-average worker, and the pay that inflation alone would have required.
Each path starts at the starting salary; every later year multiplies the
running value by `1 + rate/100` for that year's rate from its own table. The
base year applies no rate. A checkbox decides whether the 2.5% "plus"
awarded in 2023 is added to that year's base rise: 2.3% for the average worker
and 2.7% for the above-average worker, giving 4.8% and 5.2% when it is. The headline figure is the "real-terms loss": the final
above-average salary minus the final inflation requirement.

The model is in three modules:

- `Compounding` (`compounding.dfy`) — the compounding engine for any rate
  table: `ValueAt`, `Series`, the reference product `Product`, and lemmas for
  the per-year step, the uniqueness of the series, the closed form,
  independence from the base-year rate and from later years, proportionality
  to the start, monotonicity and dominance.
- `Tables` (`tables.dfy`) — the literal year, inflation and rise tables, with
  the rise tables parameterised by the 2023 toggle.
- `Wage` (`wage.dfy`) — the year-by-year table for any years and tables
  (`Tabulate`) and for the program's own (`Calculate`), an imperative version
  of the program's loop (`TabulateLoop`, run on the program's data by
  `CalculateLoop`) proved equal to it, the final values and the loss, and the
  facts about this particular data.

Arithmetic is over Dafny `real` (exact rationals): an idealisation of the
Python floats, so every equality here holds exactly over the rationals, not
bit-for-bit in floating point. The starting salary is any real, as the input
widget sets no bound; properties that need a sign carry it as a requirement.

## Model

| member | source | states |
|---|---|---|
| Compounding.Growth | wagecode.py:36-38 | the factor `1 + rate/100` one year's rate applies; no contract of its own — its meaning is given by `Compounding.SeriesStep` and `Compounding.SeriesClosedForm` |
| Compounding.ValueAt | wagecode.py:27-38 | the running value after year `i`; no contract of its own — `Compounding.SeriesCharacterised` (the recurrence, both directions) and `Compounding.SeriesClosedForm` (the product form) give its meaning |
| Compounding.Series | wagecode.py:27-38 | one value per year, and the base-year value is the starting value exactly |
| Compounding.SeriesStep | wagecode.py:35-38 | every year after the base year is the previous year's value times `1 + rate/100` for that year |
| Compounding.SeriesCharacterised | wagecode.py:27-38 | a sequence is the computed series if and only if it has one entry per year, starts at the start, and follows the yearly growth recurrence |
| Compounding.SeriesClosedForm | wagecode.py:32-38 | entry `i` equals the start times the product of the growth factors of years 1 to `i` |
| Compounding.ValueAtAgree | wagecode.py:35-38 | year `i`'s value depends only on the rates of years 1 to `i` |
| Compounding.SeriesAgreeOnPrefix | wagecode.py:32-38 | two tables agreeing on years 1 to `k-1` give series with the same first `k` entries |
| Compounding.SeriesPrefix | wagecode.py:32-45 | running the loop over the first `k` years yields exactly the first `k` entries of the full run |
| Compounding.SeriesIgnoresBaseRate | wagecode.py:35 | the rate listed for the base year is never applied: changing it leaves the series unchanged |
| Compounding.SeriesScales | wagecode.py:27-38 | every entry is proportional to the starting value |
| Compounding.SeriesNonDecreasing | wagecode.py:36-38 | with a non-negative start and non-negative rates the series never falls and never drops below the start |
| Compounding.SeriesDominated | wagecode.py:36-37 | a table that is no lower year by year gives a series that is no lower, for a non-negative start and rates of at least -100% |
| Compounding.SeriesStrictlyDominatedFrom | wagecode.py:36-37 | a table no lower everywhere and strictly higher in year `k` gives strictly higher values from year `k` on, for a positive start |
| Tables.AvgRaises | wagecode.py:20 | the average worker's table has one rate per year, all non-negative |
| Tables.StrongRaises | wagecode.py:22-24 | the above-average table has one rate per year, equals the average table in the years up to 2020 and is never below it |
| Tables.YearIndices | wagecode.py:16 | the years run one by one from 2017, index 3 is 2020 and index 6 is 2023 |
| Tables.InflationWellFormed | wagecode.py:16-17 | the inflation table has one non-negative rate per year |
| Tables.ToggleOnly2023 | wagecode.py:13-24 | index 6 is 2023, and the toggle changes only the 2023 entries of the two rise tables, each by exactly the 2.5% plus |
| Wage.Tabulate | wagecode.py:31-45 | one row per year, each row carrying its year |
| Wage.Calculate | wagecode.py:27-45 | one row per year of 2017 to 2025, each carrying its year, and the 2017 row holds the starting salary in all three columns |
| Wage.TabulateLoop | wagecode.py:26-45 | the loop carrying three running values, growing each in every year but the first, produces exactly the table `Tabulate` defines |
| Wage.CalculateLoop | wagecode.py:16-45 | the loop run on the program's own years and tables produces exactly the table `Calculate` defines |
| Wage.TabulateStep | wagecode.py:35-38 | each later row grows each column of the previous row by that column's own rate for the year |
| Wage.FinalInflation | wagecode.py:56 | the last row's inflation requirement; no contract of its own — `Wage.FinalClosedForm` gives its value |
| Wage.FinalStrong | wagecode.py:57 | the last row's above-average salary; no contract of its own — `Wage.FinalClosedForm` gives its value |
| Wage.Loss | wagecode.py:69 | final above-average salary minus final inflation requirement; no contract of its own — `Wage.LossClosedForm` and `Wage.RealTermsLoss` give its value and sign |
| Wage.FinalClosedForm | wagecode.py:56-57 | the final inflation requirement, final above-average salary and final average salary are the start times the product of their tables' growth factors for 2018 to 2025 |
| Wage.LossClosedForm | wagecode.py:69 | the loss is the start times the difference between the above-average and the inflation growth factors |
| Wage.InflationOutgrowsStrongPay | wagecode.py:17-24 | under either reading of 2023, inflation's cumulative factor exceeds the above-average worker's |
| Wage.RealTermsLoss | wagecode.py:69-70 | for a positive starting salary the loss is negative under either reading of 2023; zero start gives zero, a negative start a positive gap |
| Wage.ColumnsNeverFall | wagecode.py:36-38 | with a non-negative start no column ever falls from one year to a later one or drops below the start |
| Wage.StrongNeverBelowAvg | wagecode.py:20-24 | both workers are paid the same through 2020; with a non-negative start the above-average worker is never paid less |
| Wage.BaseYearInflationIsNeutral | wagecode.py:17 | applying the base-year inflation entry to the start would leave the inflation path unchanged, because that entry is 0% |
| Wage.ToggleAffectsFrom2023 | wagecode.py:13-24 | the toggle leaves every row before 2023 and the whole inflation column unchanged, and with a positive start makes both salaries strictly higher from 2023 on |

## Left out

- Page setup, input widgets, captions and the error banner (`wagecode.py` lines 1-12, 66 and 70-71): user interface; the starting salary and the toggle become parameters.
- Plotting and label placement (lines 49-55 and 58-64): rendering with no logic.
- The DataFrame (line 47): a library container; a sequence of `YearRow` records stands for it, and its last-row lookup is the last element of that sequence.
- The `int(...)` truncation and currency formatting of the displayed figures (lines 59-60, 70-71): presentation only.
- Floating-point rounding: the model computes over exact rationals.
- Compounding of inflation in the base year: the program skips the base year for all three paths (line 35), and the model follows it. Because the base-year inflation entry is 0% (line 17), applying it would change nothing; `Wage.BaseYearInflationIsNeutral` proves this.
- Wage.ColumnsNeverFall: stated for a non-negative starting salary only, because for a negative one the compounded values fall.
- Wage.StrongNeverBelowAvg: the ordering half is stated for a non-negative starting salary only, for the same reason.
