# Finance dashboard pipeline

The three Streamlit pages of this repository show the same invoice dashboard:

- `streamlit_finance_dashboard.py`
- `streamlit_finance_dashboard_ultra.py`
- `streamlit_finance_dashboard_editable.py`

Each page takes an uploaded spreadsheet of invoices. It guesses which column holds the invoice date, the amount and the supplier. It lets the user narrow the rows by a date range and a set of suppliers. It then shows a row count, the total and mean amount, a monthly line chart and a per-supplier pie chart.

The pages differ only in their presentation. Their data steps are line-for-line the same, at these lines:

| step | `_editable.py` | `_ultra.py` | `.py` |
|---|---|---|---|
| role inference | 25-27 | 30-32 | 20-22 |
| date coercion and filter | 29-33 | 34-38 | 24-28 |
| supplier filter | 35-38 | 40-43 | 30-33 |
| KPIs | 47-53 | 49-55 | 39-45 |
| monthly sums | 59 | 62 | 49 |
| supplier sums | 66 | 69 | 54 |

This project models those steps in Dafny and proves properties about them.

- `wrappers.dfy` (`Wrappers`): `Option` and `Result`.
- `frame.dfy` (`Frame`): the data model.
  - Cells are tagged values: text, integer number, calendar date, missing.
  - Rows are sequences of cells, and a table is a sequence of rows.
  - It also defines `Where` (pandas boolean-mask selection) and `Unique` (`unique()`, which keeps the order of first appearance).
- `inference.dfy` (`Inference`): the `next(...)` column scans that pick the three column roles.
- `filtering.dfy` (`Filtering`):
  - `pd.to_datetime(..., errors='coerce')`;
  - the default [min, max] date range;
  - the inclusive date filter;
  - the supplier multiselect options and the `isin` filter.
- `aggregation.dfy` (`Aggregation`):
  - `sum()` and `mean()` of the amount column;
  - `groupby(pd.Grouper(freq='M'))` and `groupby(supplier)` sums.
- `dashboard.dfy` (`Dashboard`): one page run end to end.
  - `Evaluate` returns the whole run as a value.
  - A `DataFrame` class stands for the pandas frame whose date column the script overwrites in place.
  - `Run` is the script's own sequence of steps: coerce in place, then rebind `df` to each filtered frame. It is proved to produce exactly `Evaluate`'s report.
- `scenarios.dfy` (`Scenarios`): worked runs on a three-invoice sheet.

The model does what the scripts do, including in these cases:

- **Date keyword.** The only date keyword is `"data"`. An English header such as `InvoiceDate` gets no date role (`Inference.EnglishDateHeaderIgnored`). With such a header, the three-invoice example shows no monthly chart (`Scenarios.EnglishHeaderRun`).
- **Independent roles.** Each role is chosen on its own, so one column can take two roles (`Inference.OneColumnTwoRoles`, `Inference.FornitoreAmountIsSupplierAndAmount`).
  - If one column is both the date and the amount column, the run fails at the total, whatever rows survive. pandas refuses to sum a datetime column (`Dashboard.DateAmountColumnFails`).
  - If one column is both the supplier and the amount column, the KPIs and the monthly chart are shown, and then `df.groupby(c)[c].sum().reset_index()` fails, even with no rows. The model returns `Failure(SupplierIsAmount(...))` carrying what was shown (`Dashboard.SupplierAmountColumnFails`, `Scenarios.SupplierAmountRun`).
- **Empty table KPIs.** With an amount column and no rows left, the total is 0 and the mean is NaN. They are not "not available" (`Dashboard.EmptyFilteredTable`).
- **Numeric amounts.** An amount cell that holds text or a date is not skipped. The page fails at the total KPI (`streamlit_finance_dashboard_editable.py:50`), after the row count has been shown. With dates, `sum()` raises. With text only, `sum()` joins the strings and the `:,.2f` format raises. The model returns `Failure(AmountNotNumeric(rowCount))`.
- **Supplier selection.** The supplier widget can only select offered options, so the effective selection is the chosen set intersected with the options.

## Model

| member | source | states |
|---|---|---|
| Inference.FirstFrom | streamlit_finance_dashboard.py:20-22 | scanning from a position returns the first matching index at or after it, and None exactly when no later name matches |
| Inference.First | streamlit_finance_dashboard_ultra.py:30-32 | the result is the first index whose name matches: every earlier name fails the test, and None means no name passes |
| Inference.FirstMatchUnique | streamlit_finance_dashboard_editable.py:25-27 | there is only one first match, so any two results that satisfy the first-match property are equal |
| Inference.Infer | streamlit_finance_dashboard_editable.py:25-27 | each role is the first column whose lower-cased name contains one of its keywords ("data"; "importo" or "amount"; "fornitore" or "supplier"), each role independently of the others |
| Inference.EnglishDateHeaderIgnored | streamlit_finance_dashboard_editable.py:25-27 | for the headers InvoiceDate, Importo, Fornitore: no date role, amount is column 1, supplier is column 2 |
| Inference.ItalianHeaders | streamlit_finance_dashboard_editable.py:25-27 | for the headers DataFattura, Importo, Fornitore: the roles are columns 0, 1 and 2 |
| Inference.OneColumnTwoRoles | streamlit_finance_dashboard_editable.py:25-27 | the header Data_Importo takes both the date and the amount role |
| Inference.FornitoreAmountIsSupplierAndAmount | streamlit_finance_dashboard_editable.py:25-27 | the header Fornitore_Amount takes both the supplier and the amount role, and no date role |
| Inference.UnrelatedHeaders | streamlit_finance_dashboard_editable.py:25-27 | headers without any keyword leave every role unassigned |
| Frame.Column | streamlit_finance_dashboard_editable.py:36 | a column has one cell per row, its i-th cell is the i-th row's cell, and a value occurs in it exactly when some row carries it |
| Frame.Where | streamlit_finance_dashboard_editable.py:33 | a mask selection never grows the table, and keeps exactly the rows the mask accepts |
| Frame.WhereCounts | streamlit_finance_dashboard_editable.py:33 | a mask selection keeps every accepted row as often as it occurs, and no rejected row |
| Frame.KeptPositionsExact | streamlit_finance_dashboard_editable.py:38 | the positions a selection keeps are exactly the positions whose row the mask accepts |
| Frame.WhereIsSubsequence | streamlit_finance_dashboard_editable.py:38 | a mask selection keeps the surviving rows in their original order, unchanged |
| Frame.WhereThenWhere | streamlit_finance_dashboard_editable.py:33-38 | two successive mask selections equal one selection by the conjunction of the masks |
| Frame.WhereIdempotent | streamlit_finance_dashboard_editable.py:38 | selecting twice by the same mask is selecting once |
| Frame.Unique | streamlit_finance_dashboard_editable.py:36 | `unique()` keeps exactly the values of its input, each once |
| Frame.FirstPos | streamlit_finance_dashboard_editable.py:36 | the position found holds the element, and no earlier position does |
| Frame.UniqueKeepsFirstAppearance | streamlit_finance_dashboard_editable.py:36 | `unique()` lists the values in the order of their first occurrence in the input |
| Frame.WhereKeepsFirstOrder | streamlit_finance_dashboard_editable.py:36 | dropping values with a mask keeps the order of the first occurrences of the values it keeps |
| Frame.DistinctValues | streamlit_finance_dashboard_editable.py:36 | `dropna().unique()` holds no missing value and no duplicate, and holds exactly the non-missing values of the column |
| Frame.DistinctValuesInRowOrder | streamlit_finance_dashboard_editable.py:36 | `dropna().unique()` lists the values in the order of the first row carrying each of them |
| Filtering.CoerceCell | streamlit_finance_dashboard_editable.py:30 | coercion yields a date or a missing value and never fails; dates and missing values are kept; any other cell becomes missing exactly when it does not parse, and its parsed date otherwise |
| Filtering.CoerceColumn | streamlit_finance_dashboard_editable.py:30 | overwriting the date column keeps the row count, every row's width and every other cell, and leaves each date cell coerced |
| Filtering.CoercePreservesWidth | streamlit_finance_dashboard_editable.py:30 | a table with one cell per column still has one cell per column after coercion |
| Filtering.CoerceIdempotent | streamlit_finance_dashboard_editable.py:30 | coercing an already coerced column changes nothing |
| Filtering.DateBounds | streamlit_finance_dashboard_editable.py:31 | with no parsed date both bounds are absent; otherwise every parsed date lies between the bounds and both bounds are parsed dates of some row |
| Filtering.InRange | streamlit_finance_dashboard_editable.py:33 | a row is in range only when it has a date and both bounds exist; a date equal to either bound of a well-ordered range is in range |
| Filtering.EffectiveRange | streamlit_finance_dashboard_editable.py:31-32 | a chosen range is used as it is; the default range holds every parsed date, and is absent exactly when no date parsed |
| Filtering.DateFilter | streamlit_finance_dashboard_editable.py:33 | a row survives exactly when its date is present and lies within the inclusive range, as many times as it occurs; survivors keep their order |
| Filtering.DefaultRangeKeepsDatedRows | streamlit_finance_dashboard_editable.py:31-33 | under the default [min, max] range exactly the rows with a parsed date survive, and none survive when no date parsed |
| Filtering.SupplierOptions | streamlit_finance_dashboard_editable.py:36 | the multiselect offers exactly the non-missing suppliers that occur, never a missing value |
| Filtering.EffectiveSelection | streamlit_finance_dashboard_editable.py:37 | the selection is always among the offered suppliers; by default it is all of them, and otherwise it is exactly the chosen suppliers that are offered |
| Filtering.SupplierFilter | streamlit_finance_dashboard_editable.py:38 | a row survives exactly when its supplier is in the selection, as many times as it occurs; survivors keep their order |
| Filtering.DateStage | streamlit_finance_dashboard_editable.py:29-33 | the date stage never grows the table, does nothing without a date column, and otherwise keeps only rows with a parsed date |
| Filtering.SupplierStage | streamlit_finance_dashboard_editable.py:35-38 | the supplier stage never grows the table, does nothing without a supplier column, and otherwise keeps only rows it was given whose supplier is present |
| Filtering.Filtered | streamlit_finance_dashboard_editable.py:29-38 | the filtered table is never longer than the upload, is the upload when no column is filtered, and has a date and a supplier in every row where those columns exist |
| Filtering.DefaultSelectionDropsOnlyMissing | streamlit_finance_dashboard_editable.py:36-38 | under the default selection the supplier filter removes exactly the rows whose supplier is missing |
| Filtering.FilteredIsSubsequence | streamlit_finance_dashboard_editable.py:29-38 | the filtered table is the coerced table with rows dropped, in order and unchanged, and never longer than the upload |
| Filtering.DateStageInRange | streamlit_finance_dashboard_editable.py:29-33 | after the date stage every row is a coerced row whose date lies in the effective range |
| Filtering.FilteredRowsPassEveryActiveFilter | streamlit_finance_dashboard_editable.py:29-38 | every surviving row passed the date filter when a date column exists, and has a selected, non-missing supplier when a supplier column exists |
| Filtering.OfferedSuppliersPassedDateFilter | streamlit_finance_dashboard_editable.py:33-36 | every offered supplier is non-missing and occurs in a row that passed the date filter |
| Filtering.DefaultDateStage | streamlit_finance_dashboard_editable.py:29-33 | without a chosen range, the date stage keeps exactly the rows whose date parsed |
| Filtering.DefaultSupplierStage | streamlit_finance_dashboard_editable.py:35-38 | without a chosen selection, the supplier stage removes exactly the rows with a missing supplier |
| Filtering.FilteredIdempotent | streamlit_finance_dashboard_editable.py:29-38 | re-running both filters with the same choices on the filtered table changes nothing, also for the recomputed defaults |
| Aggregation.NumCountCountsNumbers | streamlit_finance_dashboard_editable.py:53 | the count the mean divides by is the number of rows whose amount is a number |
| Aggregation.Total | streamlit_finance_dashboard_editable.py:50 | with no number to add, the total is 0 |
| Aggregation.TotalWithinBounds | streamlit_finance_dashboard_editable.py:50 | when every amount lies in [lo, hi], the total lies between lo and hi times the number of amounts |
| Aggregation.MeanWithinBounds | streamlit_finance_dashboard_editable.py:53 | when every amount lies in [lo, hi], so does the mean |
| Aggregation.TotalAppend | streamlit_finance_dashboard_editable.py:50 | the total of two tables laid end to end is the sum of their totals |
| Aggregation.TotalOfMissing | streamlit_finance_dashboard_editable.py:50 | a table with no rows, or with only missing amounts, totals 0 and has no value to average |
| Aggregation.TotalSplits | streamlit_finance_dashboard_editable.py:50 | a mask splits the total into the part it keeps and the part it drops |
| Aggregation.Mean | streamlit_finance_dashboard_editable.py:53 | the mean is NaN exactly when no amount is present; otherwise the mean times the count of present amounts is the total |
| Aggregation.KeyTotalIsSelectedTotal | streamlit_finance_dashboard_editable.py:59 | a group's sum is the total of the rows carrying that key |
| Aggregation.KeyedTotalIsSelectedTotal | streamlit_finance_dashboard_editable.py:66 | the amounts of the rows that carry a key add up to the total of the rows selected for having a key |
| Aggregation.KeyedTotalOfKeyedRows | streamlit_finance_dashboard_editable.py:66 | when every row has a key, the keyed total is the whole total |
| Aggregation.GroupSums | streamlit_finance_dashboard_editable.py:66 | one entry per key, in key order, holding that key's sum |
| Aggregation.Keys | streamlit_finance_dashboard_editable.py:66 | the keys of the grouped result, one per entry, in order |
| Aggregation.GroupSumsOfNoRows | streamlit_finance_dashboard_editable.py:66 | the group sums of a table without rows add up to 0 |
| Aggregation.GroupSumsStep | streamlit_finance_dashboard_editable.py:66 | over distinct keys, one more row adds its amount to the groups' sum exactly when its key is one of the keys |
| Aggregation.GroupSumsAddUp | streamlit_finance_dashboard_editable.py:66 | over distinct keys that cover every key present, the group sums add up to the total of the keyed rows |
| Aggregation.InsertMonth | streamlit_finance_dashboard_ultra.py:62 | inserting a month into an ascending list keeps it strictly ascending and adds exactly that month |
| Aggregation.MonthsPresent | streamlit_finance_dashboard_ultra.py:62 | the months listed are strictly ascending, and are exactly the months of the dated rows |
| Aggregation.AscendingHasNoDuplicates | streamlit_finance_dashboard_ultra.py:62 | a strictly ascending month list has no duplicate month |
| Aggregation.MonthlySums | streamlit_finance_dashboard_editable.py:59 | the monthly buckets are strictly ascending, and each holds the total of the rows of its month |
| Aggregation.MonthlyBuckets | streamlit_finance_dashboard_ultra.py:62 | the monthly buckets are strictly ascending, are exactly the months present, and each holds the total of that month's rows |
| Aggregation.MonthlyBucketOfRow | streamlit_finance_dashboard_ultra.py:62 | every dated row falls in exactly one bucket, the one of its year and month |
| Aggregation.MonthlyAddsUp | streamlit_finance_dashboard_ultra.py:62 | the buckets add up to the total of the dated rows, which is the whole total when every row has a date |
| Aggregation.SupplierSums | streamlit_finance_dashboard_editable.py:66 | no supplier has two groups, and each group holds the total of that supplier's rows |
| Aggregation.SupplierKeysInOrder | streamlit_finance_dashboard_editable.py:66 | the groups are exactly the distinct non-missing suppliers, and come in the order of the first row carrying each supplier |
| Aggregation.SupplierGroupsDistinct | streamlit_finance_dashboard_ultra.py:69 | each non-missing supplier that occurs has exactly one group, and no other group exists |
| Aggregation.SupplierGroupValues | streamlit_finance_dashboard_ultra.py:69 | each supplier's value is the total of that supplier's rows |
| Aggregation.SupplierSumsAddUp | streamlit_finance_dashboard_ultra.py:69 | the supplier sums add up to the total of the rows with a supplier, which is the whole total when none is missing |
| Dashboard.Evaluate | streamlit_finance_dashboard_editable.py:24-66 | the run fails exactly when an amount column exists and it is the date column, holds a non-number, or is the supplier column; otherwise the report shows the filtered table, its row count, and, when the roles exist, its total, mean, monthly sums and supplier sums; a failure at the supplier chart carries the total, mean and monthly sums shown before it |
| Dashboard.MonthlyMatchesTotal | streamlit_finance_dashboard_editable.py:50-59 | whenever the monthly series is shown, its buckets add up to the total KPI |
| Dashboard.SupplierMatchesTotal | streamlit_finance_dashboard_editable.py:50-66 | whenever the supplier distribution is shown, its values add up to the total KPI |
| Dashboard.ChartsAgreeWithTotal | streamlit_finance_dashboard_editable.py:50-66 | with all three roles found, monthly series, supplier distribution and total KPI agree |
| Dashboard.EmptyFilteredTable | streamlit_finance_dashboard_editable.py:47-66 | with no row left the run succeeds exactly when the amount column plays no other role, and then shows row count 0, total 0, mean NaN and empty charts |
| Dashboard.DateAmountColumnFails | streamlit_finance_dashboard_editable.py:25-50 | a column that takes both the date and the amount role makes the run fail at the total, whatever rows survive |
| Dashboard.SupplierAmountColumnFails | streamlit_finance_dashboard_editable.py:25-66 | a numeric column that takes both the supplier and the amount role makes the run fail at the supplier chart, after the total, mean and monthly series (when there is a date column) are shown, and the failure carries those values |
| Dashboard.DataFrame.constructor | streamlit_finance_dashboard_editable.py:22 | the loaded frame has the uploaded column names and rows, one cell per column |
| Dashboard.DataFrame.CoerceDates | streamlit_finance_dashboard_editable.py:30 | the frame's rows are replaced in place by their coerced version and keep one cell per column |
| Dashboard.DataFrame.Select | streamlit_finance_dashboard_editable.py:33 | a new frame with the same columns and the rows the mask keeps |
| Dashboard.Run | streamlit_finance_dashboard_editable.py:24-66 | the page run leaves the uploaded frame with its date column coerced and returns exactly the report of `Evaluate` |
| Scenarios.EnglishHeaderRun | streamlit_finance_dashboard_editable.py:25-66 | the three-invoice sheet under an English date header: 3 rows, total 180, mean 60, no monthly series, Acme 150 and Globex 30 |
| Scenarios.ItalianHeaderRun | streamlit_finance_dashboard_editable.py:25-66 | the same sheet under an Italian date header: also January 150 and February 30 |
| Scenarios.AcmeOnlyRun | streamlit_finance_dashboard_editable.py:35-66 | the same sheet with only Acme selected: 2 rows, total 150, mean 75, January 150 |
| Scenarios.SupplierAmountRun | streamlit_finance_dashboard_editable.py:25-66 | one row of 5 under the header Fornitore_Amount: the run fails at the supplier chart after a total of 5 and a mean of 5 |
| Scenarios.NoRoleRun | streamlit_finance_dashboard_editable.py:25-53 | with headers that match no keyword, every table passes unfiltered and only the row count is shown |

## Left out

- Upload and export: the file upload, `pd.read_excel`, `to_excel` and the download buttons are I/O. The model starts from a table of cells and ends with the filtered table that the preview and the export receive.
- Presentation: page layout, tabs, Plotly figures and the `€ {:,.2f}` formatting are display only.
- In-grid editing (AgGrid, `streamlit_finance_dashboard_editable.py:75-89`) is not modelled. The edited frame reaches only the export, never the KPIs or the charts.
- Date parsing: `pd.to_datetime` is a parameter `parse` of the model. Times of day are not modelled, and dates are calendar days, so none of the time-of-day effects of comparing timestamps with the midnight bounds are captured.
- Number types: amounts are unbounded integers and the mean is an exact rational. Floating-point rounding of Excel numbers is not modelled.
- Unicode: `Inference.Infer` lower-cases ASCII letters only. Python's full Unicode `lower()` is not modelled.
- Header types: headers are strings. A number or date header makes `col.lower()` (`streamlit_finance_dashboard_editable.py:25`) raise; that failure is not modelled.
- Aggregation.MonthlySums: it lists only the months that have dated rows, labelled by (year, month). `pd.Grouper(freq='M')` labels each month by its last day and also emits months with no rows, between the first and last month, with a sum of 0. These zero months change neither the order of the others nor their sum.
- Aggregation.SupplierSums: it lists suppliers in their order of first appearance. `groupby` sorts the keys. The set of groups and their sums are the same.
- Column dtypes: a failure is decided from the cells that survive the filters. pandas decides from the column's dtype; for a text amount column the two agree (an empty selection sums to 0 and formats without error), but dtype promotions such as a mixed column's are not modelled.
- Date widget with NaT defaults: when no date parses, the script passes `[NaT, NaT]` to `st.date_input` (`streamlit_finance_dashboard_editable.py:31-32`), and only the widget's return value reaches the comparison at :33. What the widget does with those defaults is not modelled. The model makes a choice instead: it keeps the absent bounds, every comparison with them is false, and no row survives (`Filtering.DefaultRangeKeepsDatedRows`).
- Partial date range: a range with only one end picked yet makes `date_range[1]` fail. That is not modelled; a chosen range always has both ends.
- The `columns` variable computed at `streamlit_finance_dashboard.py:19` is never used. It is not modelled.
