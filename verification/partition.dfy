/** The split of the loaded table into its income and expense rows
    (`income_df`, `expense_df`) and the year list every year selector offers
    (`all_years`, `latest_year`). */
module Partition {
  import opened Records

  const INCOME: string := "收入"
  const EXPENSE: string := "支出"

  /** Boolean-mask selection `df[mask]`: the rows that satisfy `p`, in their
      original order. */
  function Filter<T(!new)>(s: seq<T>, p: T -> bool): (r: seq<T>)
    ensures |r| <= |s|
    ensures forall x :: x in r <==> x in s && p(x)
    ensures forall x :: multiset(r)[x] == if p(x) then multiset(s)[x] else 0
  {
    if |s| == 0 then []
    else
      assert s == [s[0]] + s[1..];
      (if p(s[0]) then [s[0]] else []) + Filter(s[1..], p)
  }

  /** Two masks that agree on every row select the same rows. */
  lemma {:induction false} FilterSame<T(!new)>(s: seq<T>, p: T -> bool, q: T -> bool)
    requires forall x :: x in s ==> p(x) == q(x)
    ensures Filter(s, p) == Filter(s, q)
  {
    if |s| > 0 {
      assert s[0] in s;
      assert forall x :: x in s[1..] ==> x in s;
      FilterSame(s[1..], p, q);
    }
  }

  /** Filtering commutes with concatenation, so a row that comes before
      another in the input also comes before it in the result. */
  lemma {:induction false} FilterConcat<T(!new)>(s: seq<T>, t: seq<T>, p: T -> bool)
    ensures Filter(s + t, p) == Filter(s, p) + Filter(t, p)
  {
    if |s| == 0 {
      assert s + t == t;
      assert Filter(s, p) == [];
      assert [] + Filter(t, p) == Filter(t, p);
    } else {
      var head := if p(s[0]) then [s[0]] else [];
      assert (s + t)[0] == s[0] && (s + t)[1..] == s[1..] + t;
      assert Filter(s + t, p) == head + Filter(s[1..] + t, p);
      FilterConcat(s[1..], t, p);
      var rest, tail := Filter(s[1..], p), Filter(t, p);
      AppendAssoc(head, rest, tail);
      assert Filter(s, p) == head + rest;
    }
  }

  lemma AppendAssoc<T>(a: seq<T>, b: seq<T>, c: seq<T>)
    ensures a + (b + c) == (a + b) + c
  {
  }

  /** Keeps the rows whose 收支类型 equals `literal`; a missing cell never does. */
  function FlowRows(df: seq<Record>, literal: string): (r: seq<Record>)
    ensures forall x :: x in r <==> x in df && x.flow == Some(literal)
    ensures forall x :: multiset(r)[x] == if x.flow == Some(literal) then multiset(df)[x] else 0
  {
    Filter(df, (x: Record) => x.flow == Some(literal))
  }

  /** `income_df`. */
  function Income(df: seq<Record>): (r: seq<Record>)
    ensures forall x :: x in r <==> x in df && x.flow == Some(INCOME)
    ensures forall x :: multiset(r)[x] == if x.flow == Some(INCOME) then multiset(df)[x] else 0
  {
    FlowRows(df, INCOME)
  }

  /** `expense_df`. */
  function Expense(df: seq<Record>): (r: seq<Record>)
    ensures forall x :: x in r <==> x in df && x.flow == Some(EXPENSE)
    ensures forall x :: multiset(r)[x] == if x.flow == Some(EXPENSE) then multiset(df)[x] else 0
  {
    FlowRows(df, EXPENSE)
  }

  /** Rows whose 收支类型 is neither literal, which belong to neither subset. */
  function Unclassified(df: seq<Record>): (r: seq<Record>)
    ensures forall x :: x in r <==> x in df && x.flow != Some(INCOME) && x.flow != Some(EXPENSE)
  {
    Filter(df, (x: Record) => x.flow != Some(INCOME) && x.flow != Some(EXPENSE))
  }

  /** Every income row is labelled 收入, every expense row 支出, no row is in
      both, and a row with any other label (or none) is in neither. */
  lemma FlowSound(df: seq<Record>)
    ensures forall x :: x in Income(df) <==> x in df && x.flow == Some(INCOME)
    ensures forall x :: x in Expense(df) <==> x in df && x.flow == Some(EXPENSE)
    ensures forall x :: !(x in Income(df) && x in Expense(df))
    ensures forall x :: x in Unclassified(df) ==> x !in Income(df) && x !in Expense(df)
  {
    assert INCOME != EXPENSE by {
      assert INCOME[0] != EXPENSE[0];
    }
  }

  /** The two filters and the rows they both reject together account for
      every row exactly once. */
  lemma {:induction false} FlowCount(df: seq<Record>)
    ensures |Income(df)| + |Expense(df)| + |Unclassified(df)| == |df|
  {
    assert INCOME != EXPENSE by {
      assert INCOME[0] != EXPENSE[0];
    }
    if |df| > 0 {
      FlowCount(df[1..]);
    }
  }

  /** The two subsets partition the table exactly when every row carries one
      of the two literals. */
  lemma FlowPartitionIff(df: seq<Record>)
    ensures |Income(df)| + |Expense(df)| == |df| <==>
              forall x :: x in df ==> x.flow == Some(INCOME) || x.flow == Some(EXPENSE)
  {
    FlowCount(df);
    var u := Unclassified(df);
    if |u| > 0 {
      assert u[0] in u;
    }
  }

  /** Each subset keeps the input order: splitting the table anywhere splits
      each subset at the same place. */
  lemma FlowOrder(df1: seq<Record>, df2: seq<Record>)
    ensures Income(df1 + df2) == Income(df1) + Income(df2)
    ensures Expense(df1 + df2) == Expense(df1) + Expense(df2)
  {
    FilterConcat(df1, df2, (x: Record) => x.flow == Some(INCOME));
    FilterConcat(df1, df2, (x: Record) => x.flow == Some(EXPENSE));
  }

  predicate StrictlyAscending(ys: seq<int>)
  {
    forall i, j :: 0 <= i < j < |ys| ==> ys[i] < ys[j]
  }

  /** Adds `y` to an ascending list of distinct years, keeping it so. */
  function InsertYear(ys: seq<int>, y: int): (r: seq<int>)
    requires StrictlyAscending(ys)
    ensures StrictlyAscending(r)
    ensures forall z :: z in r <==> z in ys || z == y
  {
    if |ys| == 0 then [y]
    else if y == ys[0] then ys
    else if y < ys[0] then [y] + ys
    else
      var rest := InsertYear(ys[1..], y);
      assert forall k :: 0 <= k < |rest| ==> rest[k] in ys[1..] || rest[k] == y;
      [ys[0]] + rest
  }

  /** `sorted(df['年份'].unique())`. */
  function AllYears(df: seq<Record>): (ys: seq<int>)
    ensures StrictlyAscending(ys)
    ensures forall y :: y in ys <==> exists x :: x in df && x.year == y
  {
    if |df| == 0 then []
    else
      var ys := InsertYear(AllYears(df[1..]), df[0].year);
      assert forall x :: x in df <==> x == df[0] || x in df[1..];
      ys
  }

  /** `all_years[-1]`, which raises on an empty list. */
  function LatestYear(ys: seq<int>): (y: int)
    requires |ys| > 0
    ensures y in ys
    ensures StrictlyAscending(ys) ==> forall z :: z in ys ==> z <= y
  {
    ys[|ys| - 1]
  }

  /** The latest year is a year of the data and no row is later; the year list
      is empty only when the table is. */
  lemma LatestIsMax(df: seq<Record>)
    ensures |AllYears(df)| == 0 <==> |df| == 0
    ensures |df| > 0 ==>
              LatestYear(AllYears(df)) in AllYears(df) &&
              (exists x :: x in df && x.year == LatestYear(AllYears(df))) &&
              forall x :: x in df ==> x.year <= LatestYear(AllYears(df))
  {
    var ys := AllYears(df);
    if |df| > 0 {
      assert df[0] in df;
      assert df[0].year in ys;
      forall x | x in df
        ensures x.year <= LatestYear(ys)
      {
        assert x.year in ys;
        var k :| 0 <= k < |ys| && ys[k] == x.year;
        assert k == |ys| - 1 || ys[k] < ys[|ys| - 1];
      }
    }
  }
}
