/** The dashboard's four kinds of chart and the defaults of the widgets that
    drive them: the income and expense composition by year, the expense detail
    by sub-category, the expense tags by year, and the monthly trend of each
    category in a fixed display order. */
module Views {
  import opened StringOrder
  import opened Records
  import opened Partition
  import opened Aggregate

  /** pandas `==` against a cell: a missing cell, or a missing selection,
      never compares equal. */
  predicate Matches(cell: Label, selected: Label)
    ensures Matches(cell, selected) <==> cell == selected && selected != None
  {
    cell.Some? && cell == selected
  }

  /** `rows[rows['年份'] == year]`. */
  function YearRows(rows: seq<Record>, year: int): (r: seq<Record>)
    ensures forall x :: x in r <==> x in rows && x.year == year
    ensures forall x :: multiset(r)[x] == if x.year == year then multiset(rows)[x] else 0
  {
    Filter(rows, (x: Record) => x.year == year)
  }

  /** `rows[rows['类别'] == category]`. */
  function CategoryRows(rows: seq<Record>, category: Label): (r: seq<Record>)
    ensures forall x :: x in r <==> x in rows && Matches(x.category, category)
    ensures forall x :: multiset(r)[x] == if Matches(x.category, category) then multiset(rows)[x] else 0
  {
    Filter(rows, (x: Record) => Matches(x.category, category))
  }

  // ---------------------------------------------------------------------
  // Composition and tag charts
  // ---------------------------------------------------------------------

  /** The income or expense composition chart of one year: the rows of the
      flow subset dated in that year, aggregated by 类别. */
  function Composition(flowRows: seq<Record>, year: int, mode: string): (p: Pie)
    ensures forall k :: k in Keys(p.slices) <==>
              exists x :: x in flowRows && x.year == year && x.category == Some(k)
    ensures forall k :: Lookup(p.slices, k) == SumWhere(YearRows(flowRows, year), Category, k)
    ensures Ascending(p.slices)
    ensures p.text == TextInfoFor(mode)
  {
    PieChart(YearRows(flowRows, year), Category, mode)
  }

  /** The tag chart of one year: the expense rows of that year aggregated by
      标签. */
  function TagView(expense: seq<Record>, year: int, mode: string): (p: Pie)
    ensures forall k :: k in Keys(p.slices) <==>
              exists x :: x in expense && x.year == year && x.tag == Some(k)
    ensures forall k :: Lookup(p.slices, k) == SumWhere(YearRows(expense, year), Tag, k)
    ensures Ascending(p.slices)
    ensures p.text == TextInfoFor(mode)
  {
    PieChart(YearRows(expense, year), Tag, mode)
  }

  /** The rows behind the income composition chart are exactly, and with the
      same multiplicity, the rows of the table labelled 收入 and dated in the
      selected year; likewise for the expense chart and the tag chart with
      支出. Nothing else enters these charts. */
  lemma YearChartRows(df: seq<Record>, year: int)
    ensures forall x :: multiset(YearRows(Income(df), year))[x] ==
              if x.flow == Some(INCOME) && x.year == year then multiset(df)[x] else 0
    ensures forall x :: multiset(YearRows(Expense(df), year))[x] ==
              if x.flow == Some(EXPENSE) && x.year == year then multiset(df)[x] else 0
  {
  }

  // ---------------------------------------------------------------------
  // Detail chart
  // ---------------------------------------------------------------------

  predicate Distinct(u: seq<Label>)
  {
    forall i, j :: 0 <= i < j < |u| ==> u[i] != u[j]
  }

  /** Position of the first occurrence of `x` in `s`. */
  function FirstIndex(s: seq<Label>, x: Label): (i: nat)
    requires x in s
    ensures i < |s| && s[i] == x && x !in s[..i]
  {
    if s[0] == x then 0
    else
      var i := 1 + FirstIndex(s[1..], x);
      assert s[..i] == [s[0]] + s[1..][..i - 1];
      i
  }

  lemma {:induction false} FirstIndexExtend(s: seq<Label>, y: Label, x: Label)
    requires x in s
    ensures FirstIndex(s + [y], x) == FirstIndex(s, x)
  {
    if s[0] != x {
      assert (s + [y])[1..] == s[1..] + [y];
      FirstIndexExtend(s[1..], y, x);
    }
  }

  /** The first occurrences in `init` stay where they are once `last` is
      appended. */
  lemma FirstIndicesKept(init: seq<Label>, last: Label, u: seq<Label>)
    requires forall x :: x in u ==> x in init
    ensures forall i :: 0 <= i < |u| ==> FirstIndex(init + [last], u[i]) == FirstIndex(init, u[i])
  {
    forall i | 0 <= i < |u|
      ensures FirstIndex(init + [last], u[i]) == FirstIndex(init, u[i])
    {
      FirstIndexExtend(init, last, u[i]);
    }
  }

  /** One step of `unique()` when the appended value is new: it goes last. */
  lemma UniqueStepNew(init: seq<Label>, last: Label, u: seq<Label>)
    requires Distinct(u) && last !in init
    requires forall x :: x in u <==> x in init
    requires forall i, j :: 0 <= i < j < |u| ==> FirstIndex(init, u[i]) < FirstIndex(init, u[j])
    ensures Distinct(u + [last]) && (forall x :: x in u + [last] <==> x in init + [last])
    ensures forall i, j :: 0 <= i < j < |u| + 1 ==>
              FirstIndex(init + [last], (u + [last])[i]) < FirstIndex(init + [last], (u + [last])[j])
  {
    var s, v := init + [last], u + [last];
    FirstIndicesKept(init, last, u);
    assert FirstIndex(s, last) == |init| by {
      assert s[|init|] == last && s[..|init|] == init;
    }
    forall i, j | 0 <= i < j < |v|
      ensures FirstIndex(s, v[i]) < FirstIndex(s, v[j])
    {
      assert v[i] == u[i];
      if j == |u| {
        assert v[j] == last;
      } else {
        assert v[j] == u[j];
      }
    }
  }

  /** One step of `unique()` when the appended value was seen before: nothing
      changes. */
  lemma UniqueStepSeen(init: seq<Label>, last: Label, u: seq<Label>)
    requires last in init
    requires forall x :: x in u <==> x in init
    requires forall i, j :: 0 <= i < j < |u| ==> FirstIndex(init, u[i]) < FirstIndex(init, u[j])
    ensures forall x :: x in u <==> x in init + [last]
    ensures forall i, j :: 0 <= i < j < |u| ==> FirstIndex(init + [last], u[i]) < FirstIndex(init + [last], u[j])
  {
    FirstIndicesKept(init, last, u);
  }

  /** `Series.unique()`: each distinct value once (a missing value included),
      in order of first appearance. */
  function Unique(s: seq<Label>): (u: seq<Label>)
    ensures Distinct(u)
    ensures forall x :: x in u <==> x in s
    ensures forall i, j :: 0 <= i < j < |u| ==> FirstIndex(s, u[i]) < FirstIndex(s, u[j])
    ensures |s| > 0 ==> |u| > 0 && u[0] == s[0]
  {
    if |s| == 0 then []
    else
      var init, last := s[..|s| - 1], s[|s| - 1];
      assert s == init + [last];
      var u := Unique(init);
      if last in u then
        UniqueStepSeen(init, last, u);
        u
      else
        UniqueStepNew(init, last, u);
        u + [last]
  }

  /** The options of the 类别 select box: the categories of the expense rows
      in order of first appearance. */
  function CategoryOptions(expense: seq<Record>): (opts: seq<Label>)
    ensures Distinct(opts)
    ensures forall c :: c in opts <==> exists x :: x in expense && x.category == c
    ensures |expense| > 0 ==> |opts| > 0 && opts[0] == expense[0].category
    ensures var col := KeyColumn(expense, Category);
            forall i, j :: 0 <= i < j < |opts| ==>
              opts[i] in col && opts[j] in col && FirstIndex(col, opts[i]) < FirstIndex(col, opts[j])
  {
    Unique(KeyColumn(expense, Category))
  }

  /** A select box with index 0: its first option, or nothing when there are
      no options. */
  function FirstOption(opts: seq<Label>): (l: Label)
    ensures |opts| > 0 ==> l == opts[0]
    ensures |opts| == 0 ==> l == None
  {
    if |opts| == 0 then None else opts[0]
  }

  /** `sub_opts`: the distinct 二级分类 of the expense rows of the chosen
      category, in order of first appearance. */
  function SubOptions(expense: seq<Record>, category: Label): (opts: seq<Label>)
    ensures Distinct(opts)
    ensures forall s :: s in opts <==>
              exists x :: x in expense && Matches(x.category, category) && x.subCategory == s
    ensures var col := KeyColumn(CategoryRows(expense, category), SubCategory);
            forall i, j :: 0 <= i < j < |opts| ==>
              opts[i] in col && opts[j] in col && FirstIndex(col, opts[i]) < FirstIndex(col, opts[j])
  {
    Unique(KeyColumn(CategoryRows(expense, category), SubCategory))
  }

  /** `d_detail`: the expense rows of the chosen category whose 二级分类 is
      one of the selected ones (`isin`, which does match a missing value
      against a selected missing value). */
  function DetailRows(expense: seq<Record>, category: Label, selected: seq<Label>): (r: seq<Record>)
    ensures forall x :: x in r <==>
              x in expense && Matches(x.category, category) && x.subCategory in selected
    ensures forall x :: multiset(r)[x] ==
              if Matches(x.category, category) && x.subCategory in selected then multiset(expense)[x] else 0
  {
    Filter(expense, (x: Record) => Matches(x.category, category) && x.subCategory in selected)
  }

  /** What the detail column shows: the "请至少选择一个二级分类" warning, or a pie. */
  datatype Detail = SelectionWarning | DetailChart(pie: Pie)

  /** The detail view: an empty sub-category selection yields the warning and
      no chart; otherwise the selected rows aggregated by 二级分类. */
  function DetailView(expense: seq<Record>, category: Label, selected: seq<Label>,
                      mode: string): (d: Detail)
    ensures d.SelectionWarning? <==> |selected| == 0
    ensures d.DetailChart? ==>
              Ascending(d.pie.slices) && d.pie.text == TextInfoFor(mode) &&
              (forall k :: k in Keys(d.pie.slices) <==>
                 Some(k) in selected &&
                 exists x :: x in expense && Matches(x.category, category) && x.subCategory == Some(k)) &&
              forall k :: Lookup(d.pie.slices, k) == SumWhere(DetailRows(expense, category, selected), SubCategory, k)
  {
    if |selected| == 0 then SelectionWarning
    else DetailChart(PieChart(DetailRows(expense, category, selected), SubCategory, mode))
  }

  /** With the default selection (every sub-category offered), the detail
      chart covers every expense row of the chosen category, including those
      whose sub-category is missing (which the aggregation then drops). */
  lemma DefaultSelectionCoversCategory(expense: seq<Record>, category: Label)
    ensures DetailRows(expense, category, SubOptions(expense, category)) ==
            CategoryRows(expense, category)
  {
    var opts := SubOptions(expense, category);
    forall x | x in expense
      ensures (Matches(x.category, category) && x.subCategory in opts) == Matches(x.category, category)
    {
    }
    FilterSame(expense, (x: Record) => Matches(x.category, category) && x.subCategory in opts,
                        (x: Record) => Matches(x.category, category));
  }

  /** The default selection is empty, and the warning shows, exactly when no
      expense row has the chosen category. */
  lemma DefaultSelectionEmptyIff(expense: seq<Record>, category: Label)
    ensures |SubOptions(expense, category)| == 0 <==>
              forall x :: x in expense ==> !Matches(x.category, category)
  {
    var opts := SubOptions(expense, category);
    if x :| x in expense && Matches(x.category, category) {
      assert x.subCategory in opts;
    }
  }

  /** Opened with its defaults, the detail view is a chart whenever the first
      expense row has a category. */
  lemma DefaultDetailIsChart(expense: seq<Record>, mode: string)
    requires |expense| > 0 && expense[0].category.Some?
    ensures
      var category := FirstOption(CategoryOptions(expense));
      category == expense[0].category &&
      DetailView(expense, category, SubOptions(expense, category), mode).DetailChart?
  {
    var category := FirstOption(CategoryOptions(expense));
    DefaultSelectionEmptyIff(expense, category);
    assert expense[0] in expense;
  }

  // ---------------------------------------------------------------------
  // Monthly trend
  // ---------------------------------------------------------------------

  /** `order`: the categories that get a trend chart, in display order. */
  const ORDER: seq<string> :=
    ["吃喝玩乐", "人情", "生活用品", "服饰美妆", "自我提升", "My love", "旅游",
     "餐饮", "固定支出", "交通", "其他"]

  /** One line chart: the category in its title and its (月份, 金额_abs)
      points. */
  datatype TrendChart = TrendChart(category: string, points: seq<Entry>)

  /** `expense_df[expense_df['类别'] == cat].groupby('月份')['金额_abs'].sum()`:
      one point per month in which the category has expense rows, months in
      ascending order, each the month's summed 金额_abs. */
  function Trend(expense: seq<Record>, category: string): (t: TrendChart)
    ensures t.category == category
    ensures Ascending(t.points)
    ensures forall m :: m in Keys(t.points) <==>
              exists x :: x in expense && x.category == Some(category) && x.month == m
    ensures forall m :: Lookup(t.points, m) == SumWhere(CategoryRows(expense, Some(category)), Month, m)
    ensures Total(t.points) == AbsTotal(CategoryRows(expense, Some(category)))
  {
    var rows := CategoryRows(expense, Some(category));
    MonthConservation(rows);
    TrendChart(category, GroupSum(rows, Month))
  }

  /** The points of a trend chart run in calendar order: in any result with
      ascending keys, such as `Trend(...).points`, the point of an earlier
      month comes before the point of a later one. */
  lemma TrendChronological(points: seq<Entry>, x1: Record, x2: Record, i: int, j: int)
    requires Ascending(points)
    requires Normalized(x1) && Normalized(x2)
    requires x1.date.year < x2.date.year ||
             (x1.date.year == x2.date.year && x1.date.month < x2.date.month)
    requires 0 <= i < |points| && 0 <= j < |points|
    requires points[i].key == x1.month && points[j].key == x2.month
    ensures i < j
  {
    BucketOrder(x1.date, x2.date);
    if i == j {
      Irreflexive(x1.month);
    } else if j < i {
      Asymmetric(x1.month, x2.month);
    }
  }

  /** `[f(x) for x in s]`. */
  function Map<A, B>(s: seq<A>, f: A -> B): (r: seq<B>)
    ensures |r| == |s|
    ensures forall i :: 0 <= i < |s| ==> r[i] == f(s[i])
  {
    seq(|s|, i requires 0 <= i < |s| => f(s[i]))
  }

  lemma MapConcat<A, B>(a: seq<A>, b: seq<A>, f: A -> B)
    ensures Map(a + b, f) == Map(a, f) + Map(b, f)
  {
    var l, r := Map(a + b, f), Map(a, f) + Map(b, f);
    forall k | 0 <= k < |l|
      ensures l[k] == r[k]
    {
      if k < |a| {
        assert (a + b)[k] == a[k];
      } else {
        assert (a + b)[k] == b[k - |a|];
      }
    }
  }

  /** The trend charts, one per listed category, in list order. */
  function TrendCharts(expense: seq<Record>, order: seq<string>): (charts: seq<TrendChart>)
    ensures forall c :: c in charts ==> c.category in order
    ensures |charts| == |order| && forall i :: 0 <= i < |order| ==> charts[i].category == order[i]
    ensures forall i :: 0 <= i < |order| ==> charts[i] == Trend(expense, order[i])
  {
    Map(order, (c: string) => Trend(expense, c))
  }

  function Flatten(grid: seq<seq<TrendChart>>): seq<TrendChart>
  {
    if |grid| == 0 then [] else Flatten(grid[..|grid| - 1]) + grid[|grid| - 1]
  }

  lemma FlattenAppend(grid: seq<seq<TrendChart>>, row: seq<TrendChart>)
    ensures Flatten(grid + [row]) == Flatten(grid) + row
  {
    assert (grid + [row])[..|grid|] == grid;
  }

  lemma TrendChartsConcat(expense: seq<Record>, a: seq<string>, b: seq<string>)
    ensures TrendCharts(expense, a + b) == TrendCharts(expense, a) + TrendCharts(expense, b)
  {
    MapConcat(a, b, (c: string) => Trend(expense, c));
  }

  /** One row of the trend section: a column per category of `pair`, each
      holding that category's trend chart. */
  method TrendRow(expense: seq<Record>, pair: seq<string>) returns (row: seq<TrendChart>)
    ensures row == TrendCharts(expense, pair)
    ensures |row| == |pair| && forall c :: 0 <= c < |row| ==> row[c].category == pair[c]
  {
    row := [];
    for c := 0 to |pair|
      invariant row == TrendCharts(expense, pair[..c])
    {
      assert pair[..c + 1] == pair[..c] + [pair[c]];
      TrendChartsConcat(expense, pair[..c], [pair[c]]);
      row := row + [Trend(expense, pair[c])];
    }
    assert pair[..|pair|] == pair;
  }

  /** Where the pair starting at position `i` of a list of length `n` ends:
      the slice `order[i:i+2]`, cut short at the end of the list. */
  function PairEnd(i: int, n: int): int
  {
    if i + 2 <= n then i + 2 else n
  }

  /** Row `r` of the grid holds the charts of `order[2r:2r+2]`, in order. */
  predicate RowsArePairs(order: seq<string>, grid: seq<seq<TrendChart>>)
  {
    forall r :: 0 <= r < |grid| ==>
      2 * r < |order| && |grid[r]| == PairEnd(2 * r, |order|) - 2 * r &&
      forall c :: 0 <= c < |grid[r]| ==> grid[r][c].category == order[2 * r + c]
  }

  /** Appending the row for `order[i..end]` to a grid holding the charts of
      `order[..i]` gives a grid holding those of `order[..end]`. */
  lemma LayoutStep(expense: seq<Record>, order: seq<string>, grid: seq<seq<TrendChart>>,
                   row: seq<TrendChart>, i: int, end: int)
    requires 0 <= i <= end <= |order|
    requires Flatten(grid) == TrendCharts(expense, order[..i])
    requires row == TrendCharts(expense, order[i..end])
    ensures Flatten(grid + [row]) == TrendCharts(expense, order[..end])
  {
    assert order[..end] == order[..i] + order[i..end];
    TrendChartsConcat(expense, order[..i], order[i..end]);
    FlattenAppend(grid, row);
  }

  /** Appending the row for the pair at position `i = 2 * |grid|` keeps every
      row holding its own pair. */
  lemma PairsStep(order: seq<string>, grid: seq<seq<TrendChart>>, row: seq<TrendChart>,
                  pair: seq<string>, i: int, end: int)
    requires 0 <= i < |order| && i == 2 * |grid| && end == PairEnd(i, |order|)
    requires pair == order[i..end]
    requires RowsArePairs(order, grid)
    requires |row| == |pair| && forall c :: 0 <= c < |row| ==> row[c].category == pair[c]
    ensures RowsArePairs(order, grid + [row])
    ensures 1 <= |row| <= 2
  {
    var g: seq<seq<TrendChart>> := grid + [row];
    forall r | 0 <= r < |g|
      ensures 2 * r < |order| && |g[r]| == PairEnd(2 * r, |order|) - 2 * r &&
              forall c :: 0 <= c < |g[r]| ==> g[r][c].category == order[2 * r + c]
    {
      if r < |grid| {
        assert g[r] == grid[r];
      } else {
        assert g[r] == row && 2 * r == i;
      }
    }
  }

  /** The trend section: `order` walked two at a time, each pair laid out as
      one row of two columns (the last row holds a single chart when the list
      has odd length). Every listed category gets its chart, in list order,
      and no other category gets one. */
  method TrendLayout(expense: seq<Record>, order: seq<string>) returns (grid: seq<seq<TrendChart>>)
    ensures |grid| == (|order| + 1) / 2
    ensures forall r :: 0 <= r < |grid| ==> 1 <= |grid[r]| <= 2
    ensures Flatten(grid) == TrendCharts(expense, order)
    ensures RowsArePairs(order, grid)
  {
    grid := [];
    var i := 0;
    while i < |order|
      invariant 0 <= i <= |order| + 1 && i == 2 * |grid|
      invariant i > |order| ==> i == |order| + 1
      invariant forall r :: 0 <= r < |grid| ==> 1 <= |grid[r]| <= 2
      invariant Flatten(grid) == TrendCharts(expense, order[..if i <= |order| then i else |order|])
      invariant RowsArePairs(order, grid)
    {
      var end := PairEnd(i, |order|);
      var pair := order[i..end];
      var row := TrendRow(expense, pair);
      LayoutStep(expense, order, grid, row, i, end);
      PairsStep(order, grid, row, pair, i, end);
      grid := grid + [row];
      i := i + 2;
    }
    assert order[..|order|] == order;
    assert |grid| == (|order| + 1) / 2;
  }

  // ---------------------------------------------------------------------
  // The whole dashboard
  // ---------------------------------------------------------------------

  /** The value of every widget of the page. */
  datatype Selections = Selections(incomeYear: int, incomeMode: string,
                                   expenseYear: int, expenseMode: string,
                                   category: Label, subCategories: seq<Label>, detailMode: string,
                                   tagYear: int, tagMode: string)

  /** The widgets as the page first shows them: every year box at index
      `len(all_years) - 1`, every mode radio at its first option 金额, the
      category box at its first option and the sub-category box with every
      option of that category selected. */
  function DefaultSelections(df: seq<Record>): (s: Selections)
    requires |df| > 0
    ensures s.incomeYear == s.expenseYear == s.tagYear == LatestYear(AllYears(df))
    ensures s.incomeYear in AllYears(df) && forall x :: x in df ==> x.year <= s.incomeYear
    ensures s.incomeMode == s.expenseMode == s.detailMode == s.tagMode == AMOUNT_MODE
    ensures s.category == FirstOption(CategoryOptions(Expense(df)))
    ensures s.subCategories == SubOptions(Expense(df), s.category)
  {
    LatestIsMax(df);
    var latest := LatestYear(AllYears(df));
    var category := FirstOption(CategoryOptions(Expense(df)));
    Selections(latest, MODES[0], latest, MODES[0],
               category, SubOptions(Expense(df), category), MODES[0],
               latest, MODES[0])
  }

  /** Every chart the page shows. */
  datatype Dashboard = Dashboard(income: Pie, expense: Pie, detail: Detail, tags: Pie,
                                 trends: seq<TrendChart>)

  /** The composition chart of a flow subset has a slice for exactly the
      categories of the table's rows of that flow and year. */
  lemma FlowCompositionKeys(df: seq<Record>, literal: string, year: int, mode: string)
    ensures forall k :: k in Keys(Composition(FlowRows(df, literal), year, mode).slices) <==>
              exists x :: x in df && x.flow == Some(literal) && x.year == year && x.category == Some(k)
  {
  }

  /** The tag chart has a slice for exactly the tags of the table's expense
      rows of that year. */
  lemma ExpenseTagKeys(df: seq<Record>, year: int, mode: string)
    ensures forall k :: k in Keys(TagView(Expense(df), year, mode).slices) <==>
              exists x :: x in df && x.flow == Some(EXPENSE) && x.year == year && x.tag == Some(k)
  {
  }

  /** The page for a loaded table and the current widget values. */
  function Render(df: seq<Record>, s: Selections): (d: Dashboard)
    ensures d.income.text == TextInfoFor(s.incomeMode) && d.expense.text == TextInfoFor(s.expenseMode)
    ensures d.tags.text == TextInfoFor(s.tagMode)
    ensures Ascending(d.income.slices) && Ascending(d.expense.slices) && Ascending(d.tags.slices)
    ensures forall k :: Lookup(d.income.slices, k) == SumWhere(YearRows(Income(df), s.incomeYear), Category, k)
    ensures forall k :: Lookup(d.expense.slices, k) == SumWhere(YearRows(Expense(df), s.expenseYear), Category, k)
    ensures forall k :: Lookup(d.tags.slices, k) == SumWhere(YearRows(Expense(df), s.tagYear), Tag, k)
    ensures d.detail == DetailView(Expense(df), s.category, s.subCategories, s.detailMode)
    ensures d.detail.SelectionWarning? <==> |s.subCategories| == 0
    ensures |d.trends| == |ORDER| && forall i :: 0 <= i < |ORDER| ==> d.trends[i].category == ORDER[i]
    ensures forall i :: 0 <= i < |ORDER| ==> d.trends[i] == Trend(Expense(df), ORDER[i])
  {
    var income, expense := Income(df), Expense(df);
    Dashboard(Composition(income, s.incomeYear, s.incomeMode),
              Composition(expense, s.expenseYear, s.expenseMode),
              DetailView(expense, s.category, s.subCategories, s.detailMode),
              TagView(expense, s.tagYear, s.tagMode),
              TrendCharts(expense, ORDER))
  }
  /** The yearly charts of the page have a slice for exactly the categories
      (or tags) of the table's rows of the selected flow and year. */
  lemma RenderKeys(df: seq<Record>, s: Selections)
    ensures var d := Render(df, s);
      (forall k :: k in Keys(d.income.slices) <==>
         exists x :: x in df && x.flow == Some(INCOME) && x.year == s.incomeYear && x.category == Some(k)) &&
      (forall k :: k in Keys(d.expense.slices) <==>
         exists x :: x in df && x.flow == Some(EXPENSE) && x.year == s.expenseYear && x.category == Some(k)) &&
      (forall k :: k in Keys(d.tags.slices) <==>
         exists x :: x in df && x.flow == Some(EXPENSE) && x.year == s.tagYear && x.tag == Some(k))
  {
    FlowCompositionKeys(df, INCOME, s.incomeYear, s.incomeMode);
    FlowCompositionKeys(df, EXPENSE, s.expenseYear, s.expenseMode);
    ExpenseTagKeys(df, s.tagYear, s.tagMode);
  }


  /** Opened with its defaults, the page shows the latest year in all three
      yearly charts, value labels everywhere, and eleven trend charts. */
  lemma DefaultPage(df: seq<Record>)
    requires |df| > 0
    ensures
      var d := Render(df, DefaultSelections(df));
      d.income.text == LabelValue(0) && d.expense.text == LabelValue(0) && d.tags.text == LabelValue(0) &&
      (forall k :: k in Keys(d.income.slices) <==>
         exists x :: x in df && x.flow == Some(INCOME) && x.year == LatestYear(AllYears(df)) &&
                     x.category == Some(k)) &&
      (forall k :: k in Keys(d.expense.slices) <==>
         exists x :: x in df && x.flow == Some(EXPENSE) && x.year == LatestYear(AllYears(df)) &&
                     x.category == Some(k)) &&
      (forall k :: k in Keys(d.tags.slices) <==>
         exists x :: x in df && x.flow == Some(EXPENSE) && x.year == LatestYear(AllYears(df)) &&
                     x.tag == Some(k)) &&
      |d.trends| == 11
  {
    LatestIsMax(df);
    RenderKeys(df, DefaultSelections(df));
    assert AMOUNT_MODE != PERCENT_MODE by {
      assert AMOUNT_MODE[0] != PERCENT_MODE[0];
    }
  }
}
