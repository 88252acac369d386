# Bill dashboard: the data pipeline under the charts

`mybill.py` is a Streamlit page that reads a bill export (账单.xlsx) and draws
pie charts of income and expense composition per year, a drill-down of one
expense category by sub-category, a pie of expense tags per year, and a monthly
trend line per expense category. Under the widget and chart calls sits a small
sequential pipeline over the rows of the table. This project models that
pipeline in Dafny and proves what it promises:

- `load_data` adds three columns to every row: 年份 (year), 月份 (the `YYYY-MM`
  month bucket) and 金额_abs (the absolute amount).
- The table is split into `income_df` (收支类型 == 收入) and `expense_df`
  (收支类型 == 支出). `all_years` is the sorted list of distinct years and
  `latest_year` is its last element.
- `create_pie_chart` aggregates with `groupby(col)['金额_abs'].sum()` and picks
  percent or value labels from the display mode.
- Each chart filters its rows by the selected year, category or sub-categories.
  The trend section walks a fixed list of categories two at a time.

Files, one module each:

- `string_order.dfy` (`StringOrder`): Python's code-point order on strings, used
  by pandas to sort text keys.
- `records.dfy` (`Records`): rows, dates, the derived columns and the month
  bucket.
- `partition.dfy` (`Partition`): the row filters, the income/expense split and
  the year list.
- `aggregate.dfy` (`Aggregate`): group-and-sum, the pie chart data, the
  display-mode switch and percent shares.
- `views.dfy` (`Views`): the composition, tag, detail and trend views, the
  widget defaults and the whole page.

Modelling conventions:

- A text cell is `Option<string>`, where `None` is pandas' missing value (NaN).
  pandas' `==` never matches a missing cell (`Views.Matches`). `isin` does match
  a missing value against a selected missing value. `groupby` drops rows whose
  key is missing. `unique()` keeps a missing value once.
- Amounts are integers in minor currency units. 金额_abs is a `nat`.
- Dates arrive already parsed as year, month and day, within Python's year
  range 1 to 9999. The month bucket is the 4-digit zero-padded year, `-`, and
  the 2-digit zero-padded month.
- The widgets are modelled only as the values they hold (`Views.Selections`)
  and as the defaults the page gives them (`Views.DefaultSelections`).

In these points the model follows the script's actual behaviour:

- Group-and-sum returns its keys in ascending sort order (pandas' default
  `groupby`), not in order of first appearance.
- The income and expense subsets are not a partition. A row with any other
  收支类型 value, or none, is in neither (`Partition.FlowPartitionIff`).
- There is no malformed-row or empty-dataset error. An empty table makes
  `all_years[-1]` raise, so `LatestYear` and `DefaultSelections` require a
  non-empty table.
- A trend chart for a listed category with no rows is an empty line chart, not
  a placeholder (`Views.Trend` then has no points).
- Selections are not re-validated or clamped. A select box only offers values
  present in the data.

## Model

| member | source | states |
|---|---|---|
| `Records.Pad` | mybill.py:18 | a number rendered with exactly `w` decimal digits, every character a digit |
| `Records.PadValue` | mybill.py:18 | reading a zero-padded number back as decimal digits gives the number, for every number of at most `w` digits |
| `Records.PadOrder` | mybill.py:18 | zero-padded numbers of one width compare as strings exactly as the numbers compare, and are equal exactly when the numbers are |
| `Records.MonthBucket` | mybill.py:18 | the 月份 value is seven characters: the date's year as four zero-padded digits, `-`, and its month as two zero-padded digits; read back, the two digit fields give the year and the month |
| `Records.BucketOrder` | mybill.py:18 | bucket string order is chronological (year, then month) order, and two dates share a bucket iff they share year and month |
| `Records.JanuaryAndDecemberBuckets` | mybill.py:18 | a 15 January 2024 row falls in bucket "2024-01" and a 3 December 2024 row in bucket "2024-12" |
| `Records.JanuaryBeforeDecember` | mybill.py:18 | the bucket of a January 2024 date sorts before that of a December 2024 date |
| `Records.Abs` | mybill.py:19 | 金额_abs is non-negative and equals the amount or its negation |
| `Records.Normalize` | mybill.py:16-19 | a loaded row keeps its source columns, its year is its date's year, its absolute amount is \|amount\| |
| `Records.NormalizedOrder` | mybill.py:17-18 | the 月份 values of two loaded records compare as their months do in calendar order |
| `Records.LoadData` | mybill.py:14-20 | every row keeps every source column and gets year, bucket and \|amount\| (each output row is its input row normalized), and for any two rows bucket order equals the chronological order of their months |
| `Partition.Filter` | mybill.py:28-29 | a boolean-mask selection keeps exactly the rows satisfying the mask, each with its original multiplicity |
| `Partition.FilterConcat` | mybill.py:28-29 | filtering commutes with concatenation, so the selected rows keep their relative order |
| `Partition.FlowRows` | mybill.py:28-29 | the rows whose 收支类型 equals the literal, with their multiplicities; a missing cell never matches |
| `Partition.Income` | mybill.py:28 | `income_df` holds exactly the rows labelled 收入, each with its original multiplicity |
| `Partition.Expense` | mybill.py:29 | `expense_df` holds exactly the rows labelled 支出, each with its original multiplicity |
| `Partition.Unclassified` | mybill.py:28-29 | the rows carrying neither literal |
| `Partition.FlowSound` | mybill.py:28-29 | income rows are exactly the rows labelled 收入, expense rows exactly those labelled 支出, no row is in both, unclassified rows are in neither |
| `Partition.FlowCount` | mybill.py:28-29 | income, expense and unclassified rows add up to the row count |
| `Partition.FlowPartitionIff` | mybill.py:28-29 | income plus expense row counts equal the table's iff every row carries one of the two literals |
| `Partition.FlowOrder` | mybill.py:28-29 | both subsets preserve input order: the subset of a concatenation is the concatenation of the subsets |
| `Partition.InsertYear` | mybill.py:31 | inserting a year keeps the list strictly ascending and adds exactly that year |
| `Partition.AllYears` | mybill.py:31 | the year list is strictly ascending and holds exactly the years of the table |
| `Partition.LatestYear` | mybill.py:32 | `all_years[-1]` is an element of the list and, on an ascending list, no element exceeds it; it requires a non-empty list because indexing an empty one raises |
| `Partition.LatestIsMax` | mybill.py:31-32 | the year list is empty iff the table is; otherwise its last element is a year of the data and no row is later |
| `Aggregate.KeyColumn` | mybill.py:41 | the key column lists each row's key in order, and a label occurs in it iff some row carries it |
| `Aggregate.Add` | mybill.py:41 | accumulating into a group keeps keys strictly ascending, adds exactly the new key, raises the total by the amount and only the group of that key |
| `Aggregate.GroupSum` | mybill.py:41 | one entry per key present (missing keys dropped), keys strictly ascending, each key's value the sum of 金额_abs over its rows, entries summing to the total of keyed rows |
| `Aggregate.LookupEntry` | mybill.py:41 | looking up an entry's key in an ascending result yields exactly that entry's value |
| `Aggregate.GroupSumEntries` | mybill.py:41 | every output entry equals the reference sum of its group, and no two entries share a key |
| `Aggregate.ConservationWhenKeyed` | mybill.py:41 | when no key is missing the entries add up to the whole absolute total |
| `Aggregate.MonthConservation` | mybill.py:128 | grouping by 月份 (never missing) conserves the absolute total |
| `Aggregate.FoodExample` | mybill.py:41 | three Food expense rows of 10, -20 and 5 aggregate to the single entry (Food, 35) |
| `Aggregate.TextInfoFor` | mybill.py:50-53 | percent labels iff the mode is 占比, otherwise value labels with 0 decimals |
| `Aggregate.PieChart` | mybill.py:40-53 | the slices are the group-and-sum of the data by the column whatever the mode; the mode decides only the labels |
| `Aggregate.Share` | mybill.py:51 | a slice's percent label is its share of the chart's own total: between 0 and 1, and times the total it gives back the slice's value |
| `Aggregate.SumOfSharesIsRatio` | mybill.py:51 | the shares of a chart's slices add up to the chart total over the whole |
| `Aggregate.SharesSumToOne` | mybill.py:51 | percentages relative to the chart's own total add up to exactly 100% |
| `Aggregate.EntryBelowTotal` | mybill.py:51 | no slice exceeds its chart's total |
| `Views.Matches` | mybill.py:95 | pandas `==` against a cell holds exactly when cell and selection are equal and not missing, so a missing cell never matches |
| `Views.FlowCompositionKeys` | mybill.py:70-79 | a flow's composition chart of a year has a slice for exactly the categories of the table's rows of that flow and year |
| `Views.ExpenseTagKeys` | mybill.py:106-113 | the tag chart of a year has a slice for exactly the tags of the table's expense rows of that year |
| `Views.YearRows` | mybill.py:70 | the rows of one year, with their multiplicities |
| `Views.CategoryRows` | mybill.py:128 | the rows whose 类别 equals the chosen category, with their multiplicities; a missing cell never matches |
| `Views.Composition` | mybill.py:65-81 | the composition chart has one slice per category of the flow's rows of that year, each the sum over that year's rows of the category, keys ascending, labels per mode |
| `Views.TagView` | mybill.py:106-113 | the tag chart has one slice per tag of that year's expense rows, each the sum over them, keys ascending, labels per mode |
| `Views.YearChartRows` | mybill.py:70-79 | the rows behind the yearly income and expense charts are exactly the table's rows of that flow and year, with their multiplicities |
| `Views.FirstIndex` | mybill.py:94 | the first position of a value in a column |
| `Views.FirstIndexExtend` | mybill.py:94 | appending a row does not move the first occurrence of a value already present |
| `Views.Unique` | mybill.py:94-95 | distinct values, exactly those of the column, in order of first appearance, starting with the first value |
| `Views.CategoryOptions` | mybill.py:94 | the category options are the distinct categories of the expense rows in order of first appearance, the first being the first expense row's category |
| `Views.FirstOption` | mybill.py:94 | a select box at index 0 holds its first option, or nothing when it has none |
| `Views.SubOptions` | mybill.py:95 | the sub-category options are the distinct sub-categories of the expense rows of the chosen category, in order of first appearance |
| `Views.DetailRows` | mybill.py:100 | the detail rows are the expense rows matching the category and one of the selected sub-categories, with their multiplicities |
| `Views.DetailView` | mybill.py:99-104 | an empty selection yields the warning and no chart; otherwise one slice per selected sub-category present under the category, each its group sum |
| `Views.DefaultSelectionCoversCategory` | mybill.py:95-100 | with every sub-category selected the detail rows are all expense rows of the category |
| `Views.DefaultSelectionEmptyIff` | mybill.py:95-99 | the default selection is empty iff no expense row has the chosen category |
| `Views.DefaultDetailIsChart` | mybill.py:94-101 | on first display the category is the first expense row's, and the detail view is a chart when that category is present |
| `Views.Trend` | mybill.py:128 | one point per month in which the category has expense rows, months ascending, each point the month's sum, points adding up to the category's absolute total |
| `Views.TrendChronological` | mybill.py:128 | in a trend's ascending points, a chronologically earlier month has its point before a later month's |
| `Views.TrendCharts` | mybill.py:122-131 | one chart per listed category, in list order, and no chart for an unlisted category |
| `Views.TrendRow` | mybill.py:126-131 | the inner loop fills one row with the trend charts of its pair of categories, one per category, in order |
| `Views.TrendLayout` | mybill.py:124-131 | the nested loops lay out ceil(n/2) rows of one or two charts; row r holds the charts of `order[2r:2r+2]` in order, so only the last row can be short, and read in order the rows are exactly the charts of the listed categories |
| `Views.DefaultSelections` | mybill.py:65-112 | every year box starts at `latest_year`, the maximum year of the data, every mode at 金额, the category at the first expense category, the sub-categories at all of that category's |
| `Views.Render` | mybill.py:61-131 | the page's charts: each yearly pie is grouped (keys strictly ascending, so one slice per key) with each slice the group sum over the selected flow's rows of the selected year (income or expense by 类别, expense by 标签) and labels per its own mode; the detail view is that of the expense rows and warns iff nothing is selected; the trend charts are the expense trends of the fixed list, in order |
| `Views.RenderKeys` | mybill.py:65-113 | the yearly pies have a slice for exactly the categories (or tags) present among the table's rows of the selected flow and year |
| `Views.DefaultPage` | mybill.py:65-131 | opened with its defaults, the income, expense and tag charts each have a slice for exactly the categories (tags) of that flow's rows in the latest year, all with value labels, and there are eleven trend charts |

## Left out

- Reading 账单.xlsx, the missing-file message and `st.stop()` (mybill.py:15, 22-26): file I/O.
- `@st.cache_data` (mybill.py:13): framework caching.
- Page configuration, titles, columns, headers, dividers, captions, the warning's rendering and `st.plotly_chart`: UI only. The widgets are modelled as the values they hold.
- Plotly figure construction: hole size, chart titles, margins and axis labels (mybill.py:43-48, 55, 129-130). This is an external rendering library.
- Date parsing by `pd.to_datetime` (mybill.py:16): dates arrive parsed. Unparseable dates, which make pandas raise, are not modelled.
- Floating-point amounts, NaN amounts and Plotly's percent rounding: amounts are integers, and a percent label is modelled as the exact share of the chart's own total.
- `load_data` assigns the three columns into the frame in place. The model builds a new sequence of records holding the same values.
- Streamlit's rerun and widget-state machinery is not modelled: which selection survives a rerun, and the multiselect resetting when the category changes. The model gives the default sub-category selection as a function of the current category.
- Text cells of other types (numbers, dates) in the label columns: every label is text or missing.
