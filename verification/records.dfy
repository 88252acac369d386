/** One bill line as the spreadsheet gives it, and the record `load_data` turns it
    into by adding the three derived columns 年份 (year), 月份 (month bucket) and
    金额_abs (absolute amount). */
module Records {
  import opened StringOrder

  /** A text cell; `None` stands for pandas' missing value (NaN). */
  type Label = Option<string>

  datatype Option<T> = None | Some(value: T)

  /** A date as `pd.to_datetime` has already parsed it. */
  datatype Date = Date(year: int, month: int, day: int)

  predicate IsLeap(y: int)
  {
    y % 4 == 0 && (y % 100 != 0 || y % 400 == 0)
  }

  function DaysInMonth(y: int, m: int): (n: int)
    requires 1 <= m <= 12
    ensures 28 <= n <= 31
  {
    if m == 2 then (if IsLeap(y) then 29 else 28)
    else if m == 4 || m == 6 || m == 9 || m == 11 then 30
    else 31
  }

  /** The dates Python's `datetime` can hold (years 1 to 9999). */
  predicate ValidDate(d: Date)
  {
    1 <= d.year <= 9999 && 1 <= d.month <= 12 && 1 <= d.day <= DaysInMonth(d.year, d.month)
  }

  /** A row of 账单.xlsx: 日期, 金额 (in minor currency units), 收支类型, 类别,
      二级分类 and 标签. */
  datatype Row = Row(date: Date, amount: int, flow: Label, category: Label,
                     subCategory: Label, tag: Label)

  /** A row after `load_data`: the source columns plus 年份, 月份 and 金额_abs. */
  datatype Record = Record(date: Date, amount: int, flow: Label, category: Label,
                           subCategory: Label, tag: Label,
                           year: int, month: string, amountAbs: nat)

  function Pow10(w: nat): (p: nat)
    ensures p >= 1
  {
    if w == 0 then 1 else 10 * Pow10(w - 1)
  }

  function Digit(d: int): (c: char)
    requires 0 <= d < 10
    ensures '0' <= c <= '9'
  {
    ('0' as int + d) as char
  }

  predicate AllDigits(s: string)
  {
    forall i :: 0 <= i < |s| ==> '0' <= s[i] <= '9'
  }

  /** `n` written in decimal with exactly `w` digits, zero-padded on the left. */
  function Pad(n: nat, w: nat): (s: string)
    ensures |s| == w && AllDigits(s)
  {
    if w == 0 then [] else Pad(n / 10, w - 1) + [Digit(n % 10)]
  }

  /** The number a string of decimal digits denotes, most significant first. */
  function DigitsValue(s: string): (v: nat)
    requires AllDigits(s)
  {
    if |s| == 0 then 0
    else 10 * DigitsValue(s[..|s| - 1]) + (s[|s| - 1] as int - '0' as int)
  }

  /** Reading a padded number back gives the number: `Pad(n, w)` is the
      decimal notation of `n` whenever `n` has at most `w` digits. */
  lemma {:induction false} PadValue(n: nat, w: nat)
    requires n < Pow10(w)
    ensures DigitsValue(Pad(n, w)) == n
  {
    if w > 0 {
      var s := Pad(n, w);
      assert n / 10 < Pow10(w - 1);
      PadValue(n / 10, w - 1);
      assert s[..w - 1] == Pad(n / 10, w - 1);
      assert s[w - 1] == Digit(n % 10);
    }
  }

  /** Zero-padded digit strings of one width sort exactly as the numbers do. */
  lemma {:induction false} PadOrder(n1: nat, n2: nat, w: nat)
    requires n1 < Pow10(w) && n2 < Pow10(w)
    ensures Less(Pad(n1, w), Pad(n2, w)) <==> n1 < n2
    ensures Pad(n1, w) == Pad(n2, w) <==> n1 == n2
  {
    if w == 0 {
      Irreflexive([]);
    } else {
      var q1, r1, q2, r2 := n1 / 10, n1 % 10, n2 / 10, n2 % 10;
      assert n1 == 10 * q1 + r1 && n2 == 10 * q2 + r2;
      assert q1 < Pow10(w - 1) && q2 < Pow10(w - 1);
      PadOrder(q1, q2, w - 1);
      var p1, p2 := Pad(q1, w - 1), Pad(q2, w - 1);
      var c1, c2 := Digit(r1), Digit(r2);
      AppendSameLength(p1, p2, [c1], [c2]);
      assert Less([c1], [c2]) <==> r1 < r2 by {
        if c1 == c2 {
          Irreflexive([]);
        }
        assert [c1][1..] == [] && [c2][1..] == [];
      }
      assert p1 + [c1] == p2 + [c2] <==> p1 == p2 && c1 == c2 by {
        if p1 + [c1] == p2 + [c2] {
          assert (p1 + [c1])[..w - 1] == p1 && (p2 + [c2])[..w - 1] == p2;
          assert (p1 + [c1])[w - 1] == c1 && (p2 + [c2])[w - 1] == c2;
        }
      }
    }
  }

  /** 月份: `to_period('M').astype(str)`, the `YYYY-MM` bucket of a date. */
  function MonthBucket(d: Date): (s: string)
    requires ValidDate(d)
    ensures |s| == 7 && s[4] == '-'
    ensures AllDigits(s[..4]) && AllDigits(s[5..])
    ensures DigitsValue(s[..4]) == d.year && DigitsValue(s[5..]) == d.month
    ensures s[..4] == Pad(d.year, 4) && s[5..] == Pad(d.month, 2)
  {
    var s := Pad(d.year, 4) + "-" + Pad(d.month, 2);
    assert s[..4] == Pad(d.year, 4) && s[5..] == Pad(d.month, 2);
    assert Pow10(4) == 10000 && Pow10(2) == 100;
    PadValue(d.year, 4);
    PadValue(d.month, 2);
    s
  }

  /** Joining equal-width fields with `-` keeps their order field by field:
      the first field decides, and the second only when the first ones agree. */
  lemma JoinOrder(y1: string, y2: string, m1: string, m2: string)
    requires |y1| == |y2|
    ensures Less(y1 + "-" + m1, y2 + "-" + m2) <==> Less(y1, y2) || (y1 == y2 && Less(m1, m2))
    ensures y1 + "-" + m1 == y2 + "-" + m2 <==> y1 == y2 && m1 == m2
  {
    assert y1 + "-" + m1 == y1 + ("-" + m1);
    assert y2 + "-" + m2 == y2 + ("-" + m2);
    AppendSameLength(y1, y2, "-" + m1, "-" + m2);
    assert Less("-" + m1, "-" + m2) <==> Less(m1, m2) by {
      assert ("-" + m1)[1..] == m1 && ("-" + m2)[1..] == m2;
    }
    if y1 + "-" + m1 == y2 + "-" + m2 {
      assert (y1 + "-" + m1)[..|y1|] == y1 && (y2 + "-" + m2)[..|y2|] == y2;
      assert (y1 + "-" + m1)[|y1| + 1..] == m1 && (y2 + "-" + m2)[|y2| + 1..] == m2;
    }
  }

  /** The string order of month buckets is the chronological order of the
      months, and two dates share a bucket exactly when they share year and
      month. */
  lemma BucketOrder(d1: Date, d2: Date)
    requires ValidDate(d1) && ValidDate(d2)
    ensures Less(MonthBucket(d1), MonthBucket(d2)) <==>
              d1.year < d2.year || (d1.year == d2.year && d1.month < d2.month)
    ensures MonthBucket(d1) == MonthBucket(d2) <==>
              d1.year == d2.year && d1.month == d2.month
  {
    assert Pow10(4) == 10000 && Pow10(2) == 100;
    PadOrder(d1.year, d2.year, 4);
    PadOrder(d1.month, d2.month, 2);
    JoinOrder(Pad(d1.year, 4), Pad(d2.year, 4), Pad(d1.month, 2), Pad(d2.month, 2));
  }

  lemma Pad2024()
    ensures Pad(2024, 4) == "2024"
  {
    assert Pad(2, 1) == "2";
    assert Pad(20, 2) == "20";
    assert Pad(202, 3) == "202";
  }

  lemma PadMonths()
    ensures Pad(1, 2) == "01" && Pad(12, 2) == "12"
  {
    assert Pad(0, 1) == "0" && Pad(1, 1) == "1";
  }

  /** A 15 January 2024 row falls in bucket "2024-01" and a 3 December 2024
      row in bucket "2024-12". */
  lemma JanuaryAndDecemberBuckets()
    ensures MonthBucket(Date(2024, 1, 15)) == "2024-01"
    ensures MonthBucket(Date(2024, 12, 3)) == "2024-12"
  {
    Pad2024();
    PadMonths();
  }

  /** A January 2024 bucket sorts before a December 2024 one. */
  lemma JanuaryBeforeDecember()
    ensures Less(MonthBucket(Date(2024, 1, 15)), MonthBucket(Date(2024, 12, 3)))
  {
    BucketOrder(Date(2024, 1, 15), Date(2024, 12, 3));
  }

  function Abs(x: int): (a: nat)
    ensures a == x || a == -x
  {
    if x < 0 then -x else x
  }

  /** A record as `load_data` leaves it: its derived columns agree with its date
      and amount. */
  ghost predicate Normalized(r: Record)
  {
    ValidDate(r.date) && r.year == r.date.year && r.month == MonthBucket(r.date)
    && r.amountAbs == Abs(r.amount)
  }

  /** The derived columns of one row. */
  function Normalize(row: Row): (r: Record)
    requires ValidDate(row.date)
    ensures r.date == row.date && r.amount == row.amount && r.flow == row.flow
    ensures r.category == row.category && r.subCategory == row.subCategory && r.tag == row.tag
    ensures r.year == row.date.year
    ensures r.amountAbs == row.amount || r.amountAbs == -row.amount
    ensures |r.month| == 7
    ensures Normalized(r)
  {
    Record(row.date, row.amount, row.flow, row.category, row.subCategory, row.tag,
           row.date.year, MonthBucket(row.date), Abs(row.amount))
  }

  /** Two loaded records' 月份 values compare as their months do. */
  lemma NormalizedOrder(x1: Record, x2: Record)
    requires Normalized(x1) && Normalized(x2)
    ensures Less(x1.month, x2.month) <==>
              x1.date.year < x2.date.year || (x1.date.year == x2.date.year && x1.date.month < x2.date.month)
  {
    BucketOrder(x1.date, x2.date);
  }

  /** `load_data`: every row gains its year, month bucket and absolute amount. */
  function LoadData(rows: seq<Row>): (df: seq<Record>)
    requires forall i :: 0 <= i < |rows| ==> ValidDate(rows[i].date)
    ensures |df| == |rows|
    ensures forall i :: 0 <= i < |df| ==> df[i] == Normalize(rows[i])
    ensures forall i :: 0 <= i < |df| ==> Normalized(df[i]) && df[i].date == rows[i].date
    ensures forall i :: 0 <= i < |df| ==>
              df[i].amountAbs as int == (if rows[i].amount < 0 then -rows[i].amount else rows[i].amount)
    ensures forall i, j :: 0 <= i < |df| && 0 <= j < |df| ==>
              (Less(df[i].month, df[j].month) <==>
                 rows[i].date.year < rows[j].date.year ||
                 (rows[i].date.year == rows[j].date.year && rows[i].date.month < rows[j].date.month))
  {
    var df := seq(|rows|, i requires 0 <= i < |rows| => Normalize(rows[i]));
    forall i, j | 0 <= i < |df| && 0 <= j < |df|
      ensures Less(df[i].month, df[j].month) <==>
                rows[i].date.year < rows[j].date.year ||
                (rows[i].date.year == rows[j].date.year && rows[i].date.month < rows[j].date.month)
    {
      var x1, x2 := Normalize(rows[i]), Normalize(rows[j]);
      assert df[i] == x1 && df[j] == x2;
      NormalizedOrder(x1, x2);
    }
    df
  }
}
