/**
 * The period statistics of a ledger (`calculateStats`): the rows a period
 * selects, collected as the component collects them, and the two `reduce`
 * sums over them, `parseFloat(price) || 0` and `parseInt(quantity) || 0`.
 */
module Stats {
  import opened JsText
  import opened JsNumber
  import opened Calendar
  import opened Ledgers

  /** The `{ amount, items }` result of the statistics. */
  datatype Totals = Totals(amount: real, items: int)

  /** `rows.reduce((sum, item) => sum + value(item), 0)` over real values. */
  function ReduceReal(rows: seq<Row>, value: Row -> real): real {
    if rows == [] then 0.0 else ReduceReal(rows[..|rows| - 1], value) + value(rows[|rows| - 1])
  }

  /** `rows.reduce((sum, item) => sum + value(item), 0)` over integer values. */
  function ReduceInt(rows: seq<Row>, value: Row -> int): int {
    if rows == [] then 0 else ReduceInt(rows[..|rows| - 1], value) + value(rows[|rows| - 1])
  }

  /** `parseFloat(item.price) || 0`. */
  function PriceOf(row: Row): real {
    ParseFloatOr0(row.price)
  }

  /** `parseInt(item.quantity) || 0`. */
  function QuantityOf(row: Row): int {
    ParseIntOr0(row.quantity)
  }

  /** The `amount` sum. */
  function SumAmount(rows: seq<Row>): real {
    ReduceReal(rows, PriceOf)
  }

  /** The `items` sum. */
  function SumItems(rows: seq<Row>): int {
    ReduceInt(rows, QuantityOf)
  }

  function StatsOf(rows: seq<Row>): Totals {
    Totals(SumAmount(rows), SumItems(rows))
  }

  /** A sum over two lists laid end to end is the sum of the two sums. */
  lemma {:induction false} ReduceRealConcat(a: seq<Row>, b: seq<Row>, value: Row -> real)
    ensures ReduceReal(a + b, value) == ReduceReal(a, value) + ReduceReal(b, value)
    decreases |b|
  {
    if b == [] {
      assert a + b == a;
    } else {
      ReduceRealConcat(a, b[..|b| - 1], value);
      assert (a + b)[..|a + b| - 1] == a + b[..|b| - 1];
    }
  }

  lemma {:induction false} ReduceIntConcat(a: seq<Row>, b: seq<Row>, value: Row -> int)
    ensures ReduceInt(a + b, value) == ReduceInt(a, value) + ReduceInt(b, value)
    decreases |b|
  {
    if b == [] {
      assert a + b == a;
    } else {
      ReduceIntConcat(a, b[..|b| - 1], value);
      assert (a + b)[..|a + b| - 1] == a + b[..|b| - 1];
    }
  }

  /** Both statistics over two lists laid end to end add up. */
  lemma SumsConcat(a: seq<Row>, b: seq<Row>)
    ensures SumAmount(a + b) == SumAmount(a) + SumAmount(b)
    ensures SumItems(a + b) == SumItems(a) + SumItems(b)
  {
    ReduceRealConcat(a, b, PriceOf);
    ReduceIntConcat(a, b, QuantityOf);
  }

  /** Adding one row to a list adds its parsed price and quantity. */
  lemma SumsAppendOne(a: seq<Row>, row: Row)
    ensures SumAmount(a + [row]) == SumAmount(a) + ParseFloatOr0(row.price)
    ensures SumItems(a + [row]) == SumItems(a) + ParseIntOr0(row.quantity)
  {
    assert (a + [row])[..|a|] == a;
  }

  /** The periods `calculateStats` tells apart. */
  datatype Period = Daily | Weekly | Monthly | Overall

  /** Any string other than the three named periods selects everything. */
  function PeriodOf(p: string): (period: Period)
    ensures period == Daily <==> p == "daily"
    ensures period == Weekly <==> p == "weekly"
    ensures period == Monthly <==> p == "monthly"
    ensures period == Overall <==> p != "daily" && p != "weekly" && p != "monthly"
  {
    if p == "daily" then Daily
    else if p == "weekly" then Weekly
    else if p == "monthly" then Monthly
    else Overall
  }

  /** The keys of order, in order, that start with prefix. */
  function KeysWithPrefix(order: seq<string>, prefix: string): seq<string> {
    if order == [] then []
    else
      var k := order[|order| - 1];
      KeysWithPrefix(order[..|order| - 1], prefix) + if StartsWith(k, prefix) then [k] else []
  }

  lemma {:induction false} KeysWithPrefixMember(order: seq<string>, prefix: string, k: string)
    ensures k in KeysWithPrefix(order, prefix) <==> k in order && StartsWith(k, prefix)
  {
    if order != [] {
      var init := order[..|order| - 1];
      KeysWithPrefixMember(init, prefix, k);
      assert order == init + [order[|order| - 1]];
    }
  }

  /** `data[today] || []`. */
  function DailyRows(l: Ledger, today: Date): seq<Row> {
    Bucket(l, DateKey(today))
  }

  /** The buckets of the seven days of today's week, Sunday first. */
  function WeeklyRows(l: Ledger, today: Date): seq<Row>
    requires ValidDate(today)
  {
    ConcatBuckets(l, WeekKeys(today))
  }

  /** The buckets, in key order, whose key starts with the current `YYYY-MM`. */
  function MonthlyRows(l: Ledger, today: Date): seq<Row> {
    ConcatBuckets(l, KeysWithPrefix(l.order, MonthKey(today)))
  }

  /** Every bucket, in key order (`Object.values`). */
  function OverallRows(l: Ledger): seq<Row> {
    ConcatBuckets(l, l.order)
  }

  /** The rows a period selects from a ledger on a given day. */
  function Selection(l: Ledger, period: Period, today: Date): seq<Row>
    requires ValidDate(today)
  {
    match period
    case Daily => DailyRows(l, today)
    case Weekly => WeeklyRows(l, today)
    case Monthly => MonthlyRows(l, today)
    case Overall => OverallRows(l)
  }

  lemma SelectionOverall(l: Ledger, today: Date)
    requires ValidDate(today)
    ensures Selection(l, Overall, today) == OverallRows(l)
  {
  }

  /** One more key at the end adds its bucket. */
  lemma ConcatOneMore(l: Ledger, ks: seq<string>, k: string)
    ensures ConcatBuckets(l, ks + [k]) == ConcatBuckets(l, ks) + Bucket(l, k)
  {
    assert (ks + [k])[..|ks|] == ks;
  }

  /** The weekly branch: seven days from `weekStart`, each day's bucket appended in turn. */
  method CollectWeek(data: Ledger, today: Date) returns (filtered: seq<Row>)
    requires ValidDate(today)
    ensures filtered == WeeklyRows(data, today)
  {
    filtered := [];
    var weekStart := WeekStart(today);
    for i := 0 to 7
      invariant filtered == ConcatBuckets(data, MapDays(weekStart, i, DateKey))
    {
      var dateStr := DateKey(DaysAfter(weekStart, i));
      ConcatOneMore(data, MapDays(weekStart, i, DateKey), dateStr);
      filtered := filtered + Bucket(data, dateStr);
    }
  }

  /** The monthly branch: the keys, in order, that start with the current `YYYY-MM`. */
  method CollectMonth(data: Ledger, today: Date) returns (filtered: seq<Row>)
    ensures filtered == MonthlyRows(data, today)
  {
    filtered := [];
    var monthKey := IntString(today.year) + "-" + PadStart(IntString(today.month), 2, '0');
    for i := 0 to |data.order|
      invariant filtered == ConcatBuckets(data, KeysWithPrefix(data.order[..i], monthKey))
    {
      var date := data.order[i];
      assert data.order[..i + 1][..i] == data.order[..i];
      if StartsWith(date, monthKey) {
        assert KeysWithPrefix(data.order[..i + 1], monthKey) == KeysWithPrefix(data.order[..i], monthKey) + [date];
        ConcatOneMore(data, KeysWithPrefix(data.order[..i], monthKey), date);
        filtered := filtered + Bucket(data, date);
      } else {
        assert KeysWithPrefix(data.order[..i + 1], monthKey) == KeysWithPrefix(data.order[..i], monthKey);
      }
    }
    assert data.order[..|data.order|] == data.order;
  }

  /** The overall branch: every bucket in key order. */
  method CollectAll(data: Ledger) returns (filtered: seq<Row>)
    ensures filtered == OverallRows(data)
  {
    filtered := [];
    for i := 0 to |data.order|
      invariant filtered == ConcatBuckets(data, data.order[..i])
    {
      assert data.order[..i + 1] == data.order[..i] + [data.order[i]];
      ConcatOneMore(data, data.order[..i], data.order[i]);
      filtered := filtered + Bucket(data, data.order[i]);
    }
    assert data.order[..|data.order|] == data.order;
  }

  /** The row selection of `calculateStats` (and of `downloadExcel`), branch by branch. */
  method CollectRows(data: Ledger, period: string, today: Date) returns (filtered: seq<Row>)
    requires ValidDate(today)
    ensures filtered == Selection(data, PeriodOf(period), today)
  {
    if period == "daily" {
      filtered := Bucket(data, DateKey(today));
    } else if period == "weekly" {
      filtered := CollectWeek(data, today);
    } else if period == "monthly" {
      filtered := CollectMonth(data, today);
    } else {
      filtered := CollectAll(data);
    }
  }

  /** With nothing recorded, every period yields `{ amount: 0, items: 0 }`. */
  lemma EmptyLedgerStats(period: Period, today: Date)
    requires ValidDate(today)
    ensures StatsOf(Selection(Empty(), period, today)) == Totals(0.0, 0)
  {
    if period == Weekly {
      ConcatAbsentBuckets(Empty(), WeekKeys(today));
    }
  }

  /** A row counts in the overall statistics iff some date's bucket holds it. */
  lemma OverallMember(l: Ledger, row: Row)
    requires Valid(l)
    ensures row in OverallRows(l) <==> exists k :: k in l.buckets && row in l.buckets[k]
  {
    ConcatBucketsMember(l, l.order, row);
    if exists k :: k in l.buckets && row in l.buckets[k] {
      var k :| k in l.buckets && row in l.buckets[k];
      var i :| 0 <= i < |l.order| && l.order[i] == k;
      assert row in Bucket(l, l.order[i]);
    }
  }

  /** A row counts in the monthly statistics iff it is in the bucket of a key starting with the current `YYYY-MM`. */
  lemma MonthlyMember(l: Ledger, today: Date, row: Row)
    requires Valid(l)
    ensures row in MonthlyRows(l, today)
        <==> exists k :: k in l.buckets && StartsWith(k, MonthKey(today)) && row in l.buckets[k]
  {
    PrefixMember(l, MonthKey(today), row);
  }

  /** A row is among the buckets of the keys with a prefix iff it is stored under such a key. */
  lemma PrefixMember(l: Ledger, prefix: string, row: Row)
    requires Valid(l)
    ensures row in ConcatBuckets(l, KeysWithPrefix(l.order, prefix))
        <==> exists k :: k in l.buckets && StartsWith(k, prefix) && row in l.buckets[k]
  {
    var ks := KeysWithPrefix(l.order, prefix);
    ConcatBucketsMember(l, ks, row);
    if row in ConcatBuckets(l, ks) {
      var i :| 0 <= i < |ks| && row in Bucket(l, ks[i]);
      KeysWithPrefixMember(l.order, prefix, ks[i]);
      assert ks[i] in l.buckets;
    }
    if exists k :: k in l.buckets && StartsWith(k, prefix) && row in l.buckets[k] {
      var k :| k in l.buckets && StartsWith(k, prefix) && row in l.buckets[k];
      KeysWithPrefixMember(l.order, prefix, k);
      var i :| 0 <= i < |ks| && ks[i] == k;
      assert row in Bucket(l, ks[i]);
    }
  }

  /** Whatever the period, every selected row is stored under some key of the ledger. */
  lemma SelectionFromBuckets(l: Ledger, period: Period, today: Date, row: Row)
    requires Valid(l) && ValidDate(today)
    requires row in Selection(l, period, today)
    ensures exists k :: k in l.buckets && row in l.buckets[k]
  {
    match period
    case Daily =>
      assert DateKey(today) in l.buckets;
    case Weekly =>
      ConcatBucketsMember(l, WeekKeys(today), row);
      var i :| 0 <= i < 7 && row in Bucket(l, WeekKeys(today)[i]);
      assert WeekKeys(today)[i] in l.buckets;
    case Monthly =>
      MonthlyMember(l, today, row);
    case Overall =>
      OverallMember(l, row);
  }

  /** Every row of today's bucket also counts in this week's statistics. */
  lemma DailyWithinWeekly(l: Ledger, today: Date, row: Row)
    requires ValidDate(today)
    requires row in DailyRows(l, today)
    ensures row in WeeklyRows(l, today)
  {
    TodayInWeekKeys(today);
    ConcatBucketsMember(l, WeekKeys(today), row);
  }

  /** Today's key starts with the current `YYYY-MM` in the years 1000 to 9999. */
  lemma TodayInMonth(today: Date)
    requires ValidDate(today) && 1000 <= today.year <= 9999
    ensures StartsWith(DateKey(today), MonthKey(today))
  {
    GetDateStringIsDateKey(today.year, today.month - 1, today.day);
    GridKeyInMonth(today, today.day);
  }

  /** In the years 1000 to 9999, every row of today's bucket also counts in this month's statistics. */
  lemma DailyWithinMonthly(l: Ledger, today: Date, row: Row)
    requires Valid(l) && ValidDate(today) && 1000 <= today.year <= 9999
    requires row in DailyRows(l, today)
    ensures row in MonthlyRows(l, today)
  {
    TodayInMonth(today);
    MonthlyMember(l, today, row);
  }

  /** Every row of the monthly statistics counts in the overall statistics. */
  lemma MonthlyWithinOverall(l: Ledger, today: Date, row: Row)
    requires Valid(l)
    requires row in MonthlyRows(l, today)
    ensures row in OverallRows(l)
  {
    MonthlyMember(l, today, row);
    OverallMember(l, row);
  }

  predicate Distinct(ks: seq<string>) {
    forall i, j :: 0 <= i < j < |ks| ==> ks[i] != ks[j]
  }

  /**
   * Replacing the bucket of one key changes a sum over the buckets of distinct
   * keys by the change in that bucket's sum, or not at all when the key is
   * not among them.
   */
  lemma {:induction false} ReplaceBucketReduce(l: Ledger, m: Ledger, ks: seq<string>, k: string,
                                               price: Row -> real, quantity: Row -> int)
    requires Distinct(ks)
    requires forall j :: j != k ==> Bucket(m, j) == Bucket(l, j)
    ensures ReduceReal(ConcatBuckets(m, ks), price) == ReduceReal(ConcatBuckets(l, ks), price)
        + if k in ks then ReduceReal(Bucket(m, k), price) - ReduceReal(Bucket(l, k), price) else 0.0
    ensures ReduceInt(ConcatBuckets(m, ks), quantity) == ReduceInt(ConcatBuckets(l, ks), quantity)
        + if k in ks then ReduceInt(Bucket(m, k), quantity) - ReduceInt(Bucket(l, k), quantity) else 0
  {
    if ks != [] {
      var init, last := ks[..|ks| - 1], ks[|ks| - 1];
      ReplaceBucketReduce(l, m, init, k, price, quantity);
      ReduceRealConcat(ConcatBuckets(m, init), Bucket(m, last), price);
      ReduceRealConcat(ConcatBuckets(l, init), Bucket(l, last), price);
      ReduceIntConcat(ConcatBuckets(m, init), Bucket(m, last), quantity);
      ReduceIntConcat(ConcatBuckets(l, init), Bucket(l, last), quantity);
      assert ks == init + [last];
      if last == k {
        assert k !in init;
      }
    }
  }

  /** Adding a row adds its value to a sum over all buckets. */
  lemma ReduceAfterAppend(l: Ledger, k: string, row: Row, price: Row -> real, quantity: Row -> int)
    requires Valid(l)
    ensures ReduceReal(OverallRows(AppendRow(l, k, row)), price) == ReduceReal(OverallRows(l), price) + price(row)
    ensures ReduceInt(OverallRows(AppendRow(l, k, row)), quantity) == ReduceInt(OverallRows(l), quantity) + quantity(row)
  {
    var m := AppendRow(l, k, row);
    var b := Bucket(l, k);
    assert (b + [row])[..|b|] == b;
    ReplaceBucketReduce(l, m, l.order, k, price, quantity);
    if k !in l.buckets {
      ConcatBucketsSplit(m, l.order, [k]);
      assert ConcatBuckets(m, [k]) == [row] by {
        assert [k][..0] == [];
      }
      ReduceRealConcat(ConcatBuckets(m, l.order), [row], price);
      ReduceIntConcat(ConcatBuckets(m, l.order), [row], quantity);
    }
  }

  /** A sequence is the part before index, the element at index and the part after it. */
  lemma SplitAround<T>(b: seq<T>, index: int)
    requires 0 <= index < |b|
    ensures b == (b[..index] + [b[index]]) + b[index + 1..]
  {
  }

  lemma ReduceRealOne(x: Row, price: Row -> real)
    ensures ReduceReal([x], price) == price(x)
  {
    assert [x][..0] == [];
  }

  lemma ReduceIntOne(x: Row, quantity: Row -> int)
    ensures ReduceInt([x], quantity) == quantity(x)
  {
    assert [x][..0] == [];
  }

  /** Dropping the element at index takes its value off a real sum. */
  lemma ReduceRealWithout(b: seq<Row>, index: int, price: Row -> real)
    requires 0 <= index < |b|
    ensures ReduceReal(b[..index] + b[index + 1..], price) == ReduceReal(b, price) - price(b[index])
  {
    var before, x, back := b[..index], [b[index]], b[index + 1..];
    SplitAround(b, index);
    ReduceRealConcat(before + x, back, price);
    ReduceRealConcat(before, x, price);
    ReduceRealConcat(before, back, price);
    ReduceRealOne(b[index], price);
  }

  /** Dropping the element at index takes its value off an integer sum. */
  lemma ReduceIntWithout(b: seq<Row>, index: int, quantity: Row -> int)
    requires 0 <= index < |b|
    ensures ReduceInt(b[..index] + b[index + 1..], quantity) == ReduceInt(b, quantity) - quantity(b[index])
  {
    var before, x, back := b[..index], [b[index]], b[index + 1..];
    SplitAround(b, index);
    ReduceIntConcat(before + x, back, quantity);
    ReduceIntConcat(before, x, quantity);
    ReduceIntConcat(before, back, quantity);
    ReduceIntOne(b[index], quantity);
  }

  /** Deleting the row at a valid index takes its value off a sum over all buckets. */
  lemma ReduceAfterDelete(l: Ledger, k: string, index: int, price: Row -> real, quantity: Row -> int)
    requires Valid(l) && k in l.buckets
    requires 0 <= index < |l.buckets[k]|
    ensures ReduceReal(OverallRows(DeleteRow(l, k, index)), price)
         == ReduceReal(OverallRows(l), price) - price(l.buckets[k][index])
    ensures ReduceInt(OverallRows(DeleteRow(l, k, index)), quantity)
         == ReduceInt(OverallRows(l), quantity) - quantity(l.buckets[k][index])
  {
    var m := DeleteRow(l, k, index);
    ReplaceBucketReduce(l, m, l.order, k, price, quantity);
    ReduceRealWithout(l.buckets[k], index, price);
    ReduceIntWithout(l.buckets[k], index, quantity);
  }

  /** Adding a row adds its price and quantity to the overall statistics. */
  lemma OverallStatsAfterAppend(l: Ledger, k: string, row: Row)
    requires Valid(l)
    ensures SumAmount(OverallRows(AppendRow(l, k, row))) == SumAmount(OverallRows(l)) + PriceOf(row)
    ensures SumItems(OverallRows(AppendRow(l, k, row))) == SumItems(OverallRows(l)) + QuantityOf(row)
  {
    ReduceAfterAppend(l, k, row, PriceOf, QuantityOf);
  }

  /** Deleting the row at a valid index removes its price and quantity from the overall statistics. */
  lemma OverallStatsAfterDelete(l: Ledger, k: string, index: int)
    requires Valid(l) && k in l.buckets
    requires 0 <= index < |l.buckets[k]|
    ensures SumAmount(OverallRows(DeleteRow(l, k, index))) == SumAmount(OverallRows(l)) - PriceOf(l.buckets[k][index])
    ensures SumItems(OverallRows(DeleteRow(l, k, index))) == SumItems(OverallRows(l)) - QuantityOf(l.buckets[k][index])
  {
    ReduceAfterDelete(l, k, index, PriceOf, QuantityOf);
  }
}
