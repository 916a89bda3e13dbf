# House prices vs wages dashboard: projection and year navigation

This project models the core of a small dashboard that compares house prices with wages. From a chosen starting year (1960 or 2010) it precomputes a table with one row per year, 4000 years long. Each row holds the year, a house price that grows 5.3% a year, an hourly wage that grows 3.7% a year, and a yearly wage of 2080 times the hourly one. The user then moves a "current year" forward with a "+1 Year" and a "+10 Years" button. The page shows the current year's row and charts every row up to it.

The model has three modules:

- `Projection` (`projection.dfy`) is the pure table generator `PrecomputeData`. Money is exact `real` arithmetic. The body uses the source's closed form `initial * rate^i`. The contract says the table has one row per consecutive year from the base year, that each column is the previous year's value grown by one year's rate (`Grown`), and that each row's yearly wage comes from that same row's wage. Lemmas prove that the closed form equals year-over-year compounding, that row 0 holds the initial values, that years strictly ascend, that columns strictly increase, and that the house-price-to-yearly-wage ratio strictly widens.
- `Table` (`table.dfy`) replaces the pandas row masks `Year == y` and `Year <= y` and the column reduction `Year.max()` with recursive functions over `seq<YearRecord>`. Lemmas prove what these give on a table whose years are contiguous: the one row of a year in range (none out of range), the first `y - base + 1` rows, and the last year `base + |t| - 1`.
- `Navigation` (`navigation.dfy`) holds the session state. The ambient session dictionary becomes the fields of one `Dashboard` object, and `None` stays "not set yet". The object has the methods `Rebase`, `StepOne`, `StepTen` and `PressButtons` (both button handlers in script order), the read-outs `CurrentSnapshot` and `VisibleRange`, and `Interact`, which is one run of the page script. The button rules are also pure functions (`StepOneMove`, `StepTenMove`), and the methods are proved against them. The class invariant `Valid()` keeps `base <= current <= base + 3999` and keeps the table equal to the one generated for the base year.

Facts about the code that the model keeps:

- The last reachable year is the table's largest year, `base + 3999` (5959 for 1960, 6009 for 2010). The warning text says "4000".
- One year after 1960 the house price is 11600 × 1.053 = 12214.8, which the `Walkthrough` method asserts.
- The code does not check that the initial values are positive, and the model has no "invalid configuration" error. Lemmas that need positive values take them as a hypothesis, and the base-year table's contract proves them positive.

## Model

| member | source | states |
|---|---|---|
| `Projection.PrecomputeData` | app.py:14-32 | the table has `max_years` rows (none when `max_years <= 0`, as with `range`); row i is year base + i; each price is the initial value compounded i times at 5.3%, each wage the initial wage compounded i times at 3.7%; each yearly wage is 2080 times the same row's wage |
| `Projection.GrownClosedForm` | app.py:18-21 | compounding year over year n times equals the closed form `initial * rate^n` that the source computes |
| `Projection.FirstRowIsInitial` | app.py:15-24 | row 0 is the base year with exactly the initial house price and wage, and 2080 times that wage |
| `Projection.YearsStrictlyAscending` | app.py:15 | in a contiguous table, later rows have strictly later years, j - i years apart, so no year is missing or repeated |
| `Projection.NextRowGrowth` | app.py:15-24 | each row is the previous row one year later, with house price × 1.053, wage × 1.037 and yearly wage × 1.037 |
| `Projection.RowsCompound` | app.py:18-24 | between rows i and i + k each column is multiplied by its rate to the power k |
| `Projection.ColumnsStrictlyIncreasing` | app.py:17-24 | with positive initial values, house price, wage and yearly wage all strictly increase from row to row |
| `Projection.GapWidens` | app.py:17-24 | with positive initial values, house price divided by yearly wage is strictly larger in every later row |
| `Table.RowsWithYear` | app.py:109-111 | the selection by `Year == y` holds exactly the rows of the table whose year is y: every selected row has year y and comes from the table, and every row of year y is selected |
| `Table.RowsUpTo` | app.py:130-132 | the selection by `Year <= y` holds exactly the rows of the table with year at most y: every selected row qualifies and comes from the table, and every qualifying row is selected |
| `Table.MaxYear` | app.py:91 | the largest year of a non-empty table is some row's year and no row's year exceeds it |
| `Table.RowsWithYearContiguous` | app.py:108-114 | on a contiguous table, selecting year y gives exactly the row `t[y - base]` when y is in range, and nothing otherwise |
| `Table.RowsUpToContiguous` | app.py:129-132 | on a contiguous table, selecting years up to y gives the first y - base + 1 rows in order when y is in range, nothing below the base year, and the whole table past the last year |
| `Table.MaxYearContiguous` | app.py:99 | the largest year of a contiguous table is base + length - 1 |
| `Table.RowsUpToGrows` | app.py:129-132 | raising the cut-off year only appends rows: the earlier selection is a prefix of the later one |
| `Navigation.InitialValuesFor` | app.py:60-65 | 1960 starts at house price 11600 and wage 1.25; 2010 starts at 172000 and 11.00; both positive |
| `Navigation.StepOneMove` | app.py:90-94 | one year on exactly when below the last year, otherwise the year stays and the outcome is a warning; from a year in range the result stays in range and never decreases |
| `Navigation.StepTenMove` | app.py:97-104 | ten years on exactly when that is at most the last year, otherwise the last year with a warning; from a year in range the result stays in range and never decreases |
| `Navigation.RepeatStepOneClamps` | app.py:90-94 | k presses of "+1 Year" from a year in range reach current + k, or the last year if that is sooner |
| `Navigation.StepTenIsTenStepOnes` | app.py:90-104 | one press of "+10 Years" lands on the same year as ten presses of "+1 Year" |
| `Navigation.ClampedAtLastYear` | app.py:90-104 | at the last year both buttons leave the year unchanged and warn |
| `Navigation.SnapshotOf` | app.py:113-120 | an empty selection gives the "not available" error; otherwise the first selected row is shown |
| `Navigation.Dashboard.constructor` | app.py:36-43 | a new session has no base year, no current year and an empty table |
| `Navigation.Dashboard.Rebase` | app.py:57-71 | a different base year sets the base year, resets the current year to it and regenerates the table from that year's initial values; the base year already in effect changes nothing; the invariant is kept |
| `Navigation.Dashboard.StepOne` | app.py:89-94 | the new current year and the outcome are those of `StepOneMove` with the table's last year; the invariant is kept; the charted rows only grow |
| `Navigation.Dashboard.StepTen` | app.py:96-104 | the new current year and the outcome are those of `StepTenMove` with the table's last year; the invariant is kept; the charted rows only grow |
| `Navigation.Dashboard.CurrentSnapshot` | app.py:108-125 | nothing is shown before a base year is set; afterwards exactly one row has the current year, it is shown, and "not available" never occurs |
| `Navigation.Dashboard.VisibleRange` | app.py:129-139 | before a base year nothing is charted; afterwards the chart is the first current - base + 1 rows of the table, ending with the current year's row |
| `Navigation.Dashboard.PressButtons` | app.py:89-104 | the "+1 Year" handler runs first when pressed, then the "+10 Years" handler when pressed, each by its rule with the table's last year; the warning flag is set exactly when a pressed button clamped; the invariant is kept |
| `Navigation.Dashboard.Interact` | app.py:57-132 | one page run leaves the selected base year in effect; the current year is the one reached from the old year (or from the new base year, after a change) by the "+1 Year" rule and then the "+10 Years" rule, for the buttons pressed; the warning flag is set exactly when a pressed button clamped; the invariant is kept, an available row for the current year is shown and the charted rows are returned |

## Left out

- Page configuration, markdown and text output, the line chart, buttons as widgets, and the CSS block are left out because they are presentation done by a foreign library. Button presses become method calls and the sidebar radio becomes a `BaseYear` parameter limited to 1960 and 2010.
- pandas DataFrame mechanics are replaced by a sequence of row records and recursive selection functions.
- IEEE floating-point rounding and the `:,.2f` currency formatting are not modelled: values are exact reals.
- The literal warning text is not modelled: a step returns `ClampedAtMax` where the page shows a warning.
- Streamlit's rerun-per-interaction model and the global session dictionary are not modelled as such. They become one explicitly constructed `Dashboard` object, and `Interact` models one run of the script in the order the script runs.
- Navigation.Dashboard.StepOne and Navigation.Dashboard.StepTen require a base year to be set. In the script, the base-year block always runs before the button handlers and the radio always has a selection, so the handlers never see an unset current year. The Python `None < int` error is therefore not modelled.
- Navigation.Dashboard.CurrentSnapshot and Navigation.Dashboard.VisibleRange test whether a current year is set. The source tests Python truthiness, which would also treat a year 0 as unset. Years here are at least 1960, so the two tests agree.
- Table.RowsWithYear and Table.RowsUpTo: their own contracts say which rows are kept (exactly the matching ones) but not, for an arbitrary table, that the kept rows stay in table order. Order is proved by `Table.RowsWithYearContiguous` and `Table.RowsUpToContiguous`, which give the exact result (a single row, or a prefix of the table) for tables with contiguous years, the only tables the dashboard filters.
- An unlisted base year is not modelled: the source would leave the initial values undefined, and the radio only offers 1960 and 2010.
- `Rebase` always generates the default 4000 years, as the source does. `PrecomputeData` itself takes any `maxYears`.
