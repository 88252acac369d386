/** `data.groupby(col)['金额_abs'].sum()` and the pie chart `create_pie_chart`
    builds from it. pandas' default `groupby` sorts the keys ascending and
    drops rows whose key is missing. */
module Aggregate {
  import opened StringOrder
  import opened Records

  /** The columns the dashboard groups by: 类别, 二级分类, 标签 and 月份. */
  datatype Column = Category | SubCategory | Tag | Month

  function Key(r: Record, col: Column): Label
  {
    match col
    case Category => r.category
    case SubCategory => r.subCategory
    case Tag => r.tag
    case Month => Some(r.month)
  }

  /** The column `col` of `rows`, as pandas' `rows[col]`. */
  function KeyColumn(rows: seq<Record>, col: Column): (c: seq<Label>)
    ensures |c| == |rows|
    ensures forall i :: 0 <= i < |rows| ==> c[i] == Key(rows[i], col)
    ensures forall l :: l in c <==> exists r :: r in rows && Key(r, col) == l
  {
    var c := seq(|rows|, i requires 0 <= i < |rows| => Key(rows[i], col));
    assert forall l :: l in c ==> exists r :: r in rows && Key(r, col) == l by {
      forall l | l in c
        ensures exists r :: r in rows && Key(r, col) == l
      {
        var i :| 0 <= i < |c| && c[i] == l;
        assert rows[i] in rows;
      }
    }
    assert forall r :: r in rows ==> Key(r, col) in c by {
      forall r | r in rows
        ensures Key(r, col) in c
      {
        var i :| 0 <= i < |rows| && rows[i] == r;
        assert c[i] == Key(r, col);
      }
    }
    c
  }

  /** One output row of the aggregation: a key and its summed 金额_abs. */
  datatype Entry = Entry(key: string, total: nat)

  function Keys(g: seq<Entry>): (ks: seq<string>)
    ensures |ks| == |g|
    ensures forall i :: 0 <= i < |g| ==> ks[i] == g[i].key
  {
    seq(|g|, i requires 0 <= i < |g| => g[i].key)
  }

  /** Keys strictly ascending in string order, hence pairwise distinct. */
  predicate Ascending(g: seq<Entry>)
  {
    forall i, j :: 0 <= i < j < |g| ==> Less(g[i].key, g[j].key)
  }

  function Total(g: seq<Entry>): nat
  {
    if |g| == 0 then 0 else g[0].total + Total(g[1..])
  }

  /** The summed totals of the entries with key `k` (0 when there is none). */
  function Lookup(g: seq<Entry>, k: string): nat
  {
    if |g| == 0 then 0
    else (if g[0].key == k then g[0].total else 0) + Lookup(g[1..], k)
  }

  /** Reference definition of one group's value: the sum of 金额_abs over the
      rows whose `col` is `k`. */
  function SumWhere(rows: seq<Record>, col: Column, k: string): nat
  {
    if |rows| == 0 then 0
    else (if Key(rows[0], col) == Some(k) then rows[0].amountAbs else 0)
         + SumWhere(rows[1..], col, k)
  }

  /** The sum of 金额_abs over the rows whose `col` is not missing. */
  function KeyedTotal(rows: seq<Record>, col: Column): nat
  {
    if |rows| == 0 then 0
    else (if Key(rows[0], col).Some? then rows[0].amountAbs else 0)
         + KeyedTotal(rows[1..], col)
  }

  /** The sum of 金额_abs over all rows. */
  function AbsTotal(rows: seq<Record>): nat
  {
    if |rows| == 0 then 0 else rows[0].amountAbs + AbsTotal(rows[1..])
  }

  lemma HeadBelowTail(g: seq<Entry>)
    requires Ascending(g) && |g| > 0
    ensures Keys(g) == [g[0].key] + Keys(g[1..])
    ensures Ascending(g[1..])
    ensures forall x :: x in Keys(g[1..]) ==> Less(g[0].key, x)
  {
    assert Keys(g) == [g[0].key] + Keys(g[1..]);
    forall x | x in Keys(g[1..])
      ensures Less(g[0].key, x)
    {
      var j :| 0 <= j < |g[1..]| && Keys(g[1..])[j] == x;
      assert g[j + 1].key == x;
    }
  }

  lemma ConsAscending(e: Entry, rest: seq<Entry>)
    requires Ascending(rest)
    requires forall x :: x in Keys(rest) ==> Less(e.key, x)
    ensures Ascending([e] + rest)
    ensures Keys([e] + rest) == [e.key] + Keys(rest)
  {
    var r := [e] + rest;
    assert Keys(r) == [e.key] + Keys(rest);
    forall i, j | 0 <= i < j < |r|
      ensures Less(r[i].key, r[j].key)
    {
      assert r[j] == rest[j - 1];
      if i == 0 {
        assert Keys(rest)[j - 1] == r[j].key;
      } else {
        assert r[i] == rest[i - 1];
      }
    }
  }

  /** Accumulates `v` into the group of key `k`, opening the group at its
      sorted position when it is new. */
  function Add(g: seq<Entry>, k: string, v: nat): (r: seq<Entry>)
    requires Ascending(g)
    ensures Ascending(r)
    ensures forall x :: x in Keys(r) <==> x in Keys(g) || x == k
    ensures Total(r) == Total(g) + v
    ensures forall x :: Lookup(r, x) == Lookup(g, x) + (if x == k then v else 0)
  {
    if |g| == 0 then
      var r := [Entry(k, v)];
      assert Keys(r) == [k];
      r
    else if g[0].key == k then
      HeadBelowTail(g);
      Irreflexive(k);
      var r := [Entry(k, g[0].total + v)] + g[1..];
      ConsAscending(Entry(k, g[0].total + v), g[1..]);
      assert r[1..] == g[1..];
      LookupAbsent(g[1..], k);
      r
    else if Less(k, g[0].key) then
      HeadBelowTail(g);
      forall x | x in Keys(g)
        ensures Less(k, x)
      {
        if x != g[0].key {
          Transitive(k, g[0].key, x);
        }
      }
      var r := [Entry(k, v)] + g;
      ConsAscending(Entry(k, v), g);
      assert r[1..] == g;
      r
    else
      Trichotomy(k, g[0].key);
      HeadBelowTail(g);
      var rest := Add(g[1..], k, v);
      var r := [g[0]] + rest;
      ConsAscending(g[0], rest);
      assert r[1..] == rest;
      r
  }

  lemma {:induction false} LookupAbsent(g: seq<Entry>, k: string)
    requires k !in Keys(g)
    ensures Lookup(g, k) == 0
  {
    if |g| > 0 {
      assert Keys(g) == [g[0].key] + Keys(g[1..]);
      LookupAbsent(g[1..], k);
    }
  }

  /** `data.groupby(col)['金额_abs'].sum()`: one entry per key present in the
      column, keys strictly ascending, each entry the sum of its group, and the
      entries together adding up to the 金额_abs of every keyed row. */
  function GroupSum(rows: seq<Record>, col: Column): (g: seq<Entry>)
    ensures Ascending(g)
    ensures forall k :: k in Keys(g) <==> Some(k) in KeyColumn(rows, col)
    ensures forall k :: Lookup(g, k) == SumWhere(rows, col, k)
    ensures Total(g) == KeyedTotal(rows, col)
  {
    if |rows| == 0 then []
    else
      var rest := GroupSum(rows[1..], col);
      assert KeyColumn(rows, col) == [Key(rows[0], col)] + KeyColumn(rows[1..], col);
      match Key(rows[0], col)
      case None => rest
      case Some(k) => Add(rest, k, rows[0].amountAbs)
  }

  /** In an ascending list each key occurs once, so looking a key up yields
      its own entry. */
  lemma {:induction false} LookupEntry(g: seq<Entry>, i: int)
    requires Ascending(g) && 0 <= i < |g|
    ensures Lookup(g, g[i].key) == g[i].total
  {
    if i == 0 {
      HeadBelowTail(g);
      Irreflexive(g[0].key);
      LookupAbsent(g[1..], g[0].key);
    } else {
      if g[0].key == g[i].key {
        Irreflexive(g[0].key);
      }
      LookupEntry(g[1..], i - 1);
    }
  }

  /** Every output entry is exactly the sum of 金额_abs over its group, and no
      two entries share a key. */
  lemma GroupSumEntries(rows: seq<Record>, col: Column)
    ensures forall i :: 0 <= i < |GroupSum(rows, col)| ==>
              GroupSum(rows, col)[i].total == SumWhere(rows, col, GroupSum(rows, col)[i].key)
    ensures forall i, j :: 0 <= i < j < |GroupSum(rows, col)| ==>
              GroupSum(rows, col)[i].key != GroupSum(rows, col)[j].key
  {
    var g := GroupSum(rows, col);
    forall i | 0 <= i < |g|
      ensures g[i].total == SumWhere(rows, col, g[i].key)
    {
      LookupEntry(g, i);
    }
    forall i, j | 0 <= i < j < |g|
      ensures g[i].key != g[j].key
    {
      if g[i].key == g[j].key {
        Irreflexive(g[i].key);
      }
    }
  }

  /** A column that is never missing groups all of the rows, so the groups add
      up to the whole absolute total; the month bucket is such a column. */
  lemma {:induction false} ConservationWhenKeyed(rows: seq<Record>, col: Column)
    requires forall i :: 0 <= i < |rows| ==> Key(rows[i], col).Some?
    ensures Total(GroupSum(rows, col)) == AbsTotal(rows)
  {
    KeyedAll(rows, col);
  }

  lemma {:induction false} KeyedAll(rows: seq<Record>, col: Column)
    requires forall i :: 0 <= i < |rows| ==> Key(rows[i], col).Some?
    ensures KeyedTotal(rows, col) == AbsTotal(rows)
  {
    if |rows| > 0 {
      assert Key(rows[0], col).Some?;
      KeyedAll(rows[1..], col);
    }
  }

  lemma MonthConservation(rows: seq<Record>)
    ensures Total(GroupSum(rows, Month)) == AbsTotal(rows)
  {
    ConservationWhenKeyed(rows, Month);
  }

  /** Three expense rows of category "Food" with amounts
      10, -20 and 5 aggregate to the single entry ("Food", 35). */
  lemma FoodExample(d: Date)
    requires ValidDate(d)
    ensures
      var food := Some("Food");
      var rows := [Normalize(Row(d, 10, Some("支出"), food, None, None)),
                   Normalize(Row(d, -20, Some("支出"), food, None, None)),
                   Normalize(Row(d, 5, Some("支出"), food, None, None))];
      GroupSum(rows, Category) == [Entry("Food", 35)]
  {
    var food := Some("Food");
    var rows := [Normalize(Row(d, 10, Some("支出"), food, None, None)),
                 Normalize(Row(d, -20, Some("支出"), food, None, None)),
                 Normalize(Row(d, 5, Some("支出"), food, None, None))];
    assert rows[1..][1..][1..] == [];
    assert GroupSum(rows[2..], Category) == [Entry("Food", 5)];
    assert rows[1..][1..] == rows[2..];
    assert GroupSum(rows[1..], Category) == [Entry("Food", 25)];
  }

  /** Plotly text directives of the pie: percent labels, or value labels with
      a number of decimals. */
  datatype TextInfo = LabelPercent | LabelValue(decimals: nat)

  const AMOUNT_MODE: string := "金额"
  const PERCENT_MODE: string := "占比"
  /** The options of every 显示方式 radio; the first one is preselected. */
  const MODES: seq<string> := [AMOUNT_MODE, PERCENT_MODE]

  /** The display-mode switch: 占比 shows percentages, anything else values
      rounded to whole units. */
  function TextInfoFor(mode: string): (t: TextInfo)
    ensures t == LabelPercent <==> mode == PERCENT_MODE
    ensures t != LabelPercent ==> t == LabelValue(0)
  {
    if mode == PERCENT_MODE then LabelPercent else LabelValue(0)
  }

  /** The data and the label directive of one pie chart. */
  datatype Pie = Pie(slices: seq<Entry>, text: TextInfo)

  /** `create_pie_chart(data, col, mode, title)` without the figure styling:
      the slices are the aggregation of `data` by `col` whatever the mode, and
      the mode only decides the labels. */
  function PieChart(data: seq<Record>, col: Column, mode: string): (p: Pie)
    ensures Ascending(p.slices)
    ensures forall k :: k in Keys(p.slices) <==> Some(k) in KeyColumn(data, col)
    ensures forall k :: Lookup(p.slices, k) == SumWhere(data, col, k)
    ensures Total(p.slices) == KeyedTotal(data, col)
    ensures p.text == LabelPercent <==> mode == PERCENT_MODE
    ensures p.text != LabelPercent ==> p.text == LabelValue(0)
  {
    Pie(GroupSum(data, col), TextInfoFor(mode))
  }

  /** The share of slice `i` in its own chart, as percent labels show it. */
  function Share(slices: seq<Entry>, i: int): (s: real)
    requires 0 <= i < |slices| && Total(slices) > 0
    ensures 0.0 <= s <= 1.0
    ensures s * Total(slices) as real == slices[i].total as real
  {
    EntryBelowTotal(slices, i);
    RatioBounds(slices[i].total, Total(slices));
    slices[i].total as real / Total(slices) as real
  }

  function SumOfShares(g: seq<Entry>, whole: nat): real
    requires whole > 0
  {
    if |g| == 0 then 0.0 else g[0].total as real / whole as real + SumOfShares(g[1..], whole)
  }

  lemma {:induction false} SumOfSharesIsRatio(g: seq<Entry>, whole: nat)
    requires whole > 0
    ensures SumOfShares(g, whole) == Total(g) as real / whole as real
  {
    if |g| > 0 {
      SumOfSharesIsRatio(g[1..], whole);
      DivAdd(g[0].total as real, Total(g[1..]) as real, whole as real);
    }
  }

  lemma DivAdd(a: real, b: real, w: real)
    requires w > 0.0
    ensures a / w + b / w == (a + b) / w
  {
  }

  /** Percent labels are relative to the chart's own total, so over a chart
      with a non-zero total they add up to exactly 100%. */
  lemma SharesSumToOne(slices: seq<Entry>)
    requires Total(slices) > 0
    ensures SumOfShares(slices, Total(slices)) == 1.0
  {
    var whole := Total(slices);
    SumOfSharesIsRatio(slices, whole);
    var w := whole as real;
    assert w > 0.0;
    assert w / w == 1.0;
  }

  lemma RatioBounds(part: nat, whole: nat)
    requires 0 < whole && part <= whole
    ensures 0.0 <= part as real / whole as real <= 1.0
  {
    var q := part as real / whole as real;
    assert q * whole as real == part as real;
  }

  lemma {:induction false} EntryBelowTotal(g: seq<Entry>, i: int)
    requires 0 <= i < |g|
    ensures g[i].total <= Total(g)
  {
    if i > 0 {
      EntryBelowTotal(g[1..], i - 1);
    }
  }
}
