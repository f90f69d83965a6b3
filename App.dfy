/**
 * The state of the `SalesManagementSystem` component and its handlers: the
 * two ledgers, the two draft rows of the add-row form, the date whose form is
 * open, and which day sections are expanded. Each `set…` call of a handler is
 * an assignment to the corresponding field. The clock is not read: the
 * current date is passed in as `today`.
 */
module App {
  import opened JsText
  import opened JsNumber
  import opened Calendar
  import opened Ledgers
  import opened Stats
  import opened Csv

  /** The inputs of the add-row form. */
  datatype DraftField = ItemNameInput | QuantityInput | PriceInput | CounterpartyInput

  /**
   * `{...row, [field]: value}`; the counterparty input is `purchasedFrom` on
   * the purchase form and `soldTo` on the sale form.
   */
  function Edit(row: Row, field: DraftField, value: string, purchase: bool): (r: Row)
    ensures r.itemName == (if field == ItemNameInput then value else row.itemName)
    ensures r.quantity == (if field == QuantityInput then value else row.quantity)
    ensures r.price == (if field == PriceInput then value else row.price)
    ensures r.purchasedFrom == (if field == CounterpartyInput && purchase then Some(value) else row.purchasedFrom)
    ensures r.soldTo == (if field == CounterpartyInput && !purchase then Some(value) else row.soldTo)
    ensures r.date == row.date
    ensures Shaped(row, purchase) ==> Shaped(r, purchase)
    ensures field == CounterpartyInput && Shaped(row, purchase) ==> Counterparty(r) == value
    ensures field == CounterpartyInput ==> Complete(r) == Complete(row)
  {
    match field
    case ItemNameInput => row.(itemName := value)
    case QuantityInput => row.(quantity := value)
    case PriceInput => row.(price := value)
    case CounterpartyInput =>
      if purchase then row.(purchasedFrom := Some(value)) else row.(soldTo := Some(value))
  }

  /**
   * A row as the purchase form (purchase = true) or the sale form builds it:
   * it has its own counterparty field, not the other one, and no date.
   */
  predicate Shaped(row: Row, purchase: bool) {
    (if purchase then row.purchasedFrom.Some? && row.soldTo.None?
     else row.purchasedFrom.None? && row.soldTo.Some?)
    && row.date.None?
  }

  /** Every row of the ledger came from the purchase form (or from the sale form). */
  predicate FormRows(l: Ledger, purchase: bool) {
    forall k, r :: k in l.buckets && r in l.buckets[k] ==> Shaped(r, purchase)
  }

  /** `dataType === 'purchase' ? purchases : sales`. */
  function LedgerFor(dataType: string, purchases: Ledger, sales: Ledger): Ledger {
    if dataType == "purchase" then purchases else sales
  }

  /** `calculateProfit(period)`: the sale amount less the purchase amount. */
  function Profit(purchases: Ledger, sales: Ledger, period: Period, today: Date): real
    requires ValidDate(today)
  {
    SumAmount(Selection(sales, period, today)) - SumAmount(Selection(purchases, period, today))
  }

  /** A sale adds its price to the overall profit. */
  lemma ProfitAfterSale(purchases: Ledger, sales: Ledger, k: string, row: Row, today: Date)
    requires Ledgers.Valid(sales) && ValidDate(today)
    ensures Profit(purchases, AppendRow(sales, k, row), Overall, today)
         == Profit(purchases, sales, Overall, today) + PriceOf(row)
  {
    var after := AppendRow(sales, k, row);
    SelectionOverall(after, today);
    SelectionOverall(sales, today);
    OverallStatsAfterAppend(sales, k, row);
  }

  /** A purchase takes its price off the overall profit. */
  lemma ProfitAfterPurchase(purchases: Ledger, sales: Ledger, k: string, row: Row, today: Date)
    requires Ledgers.Valid(purchases) && ValidDate(today)
    ensures Profit(AppendRow(purchases, k, row), sales, Overall, today)
         == Profit(purchases, sales, Overall, today) - PriceOf(row)
  {
    var after := AppendRow(purchases, k, row);
    SelectionOverall(after, today);
    SelectionOverall(purchases, today);
    OverallStatsAfterAppend(purchases, k, row);
  }

  /** The one row a single add stores on a day of the month is all the month selects. */
  lemma MonthOfOneRow(k: string, row: Row, today: Date)
    requires ValidDate(today) && StartsWith(k, MonthKey(today))
    ensures Selection(AppendRow(Empty(), k, row), Monthly, today) == [row]
  {
    var l := AppendRow(Empty(), k, row);
    assert l.order == [k];
    assert [k][..0] == [];
    assert KeysWithPrefix([k], MonthKey(today)) == [k];
    assert Bucket(l, k) == [row];
    assert ConcatBuckets(l, [k]) == ConcatBuckets(l, []) + [row];
    assert Selection(l, Monthly, today) == MonthlyRows(l, today);
  }

  /** A price written as a whole number counts at that value. */
  lemma WholePrice(row: Row, n: nat)
    requires row.price == DecimalString(n)
    ensures SumAmount([row]) == n as real
  {
    ParseFloatDecimal(n);
    assert PriceOf(row) == n as real;
    assert [row][..0] == [];
    assert ReduceReal([row], PriceOf) == ReduceReal([], PriceOf) + PriceOf(row);
  }

  /** One purchase and one sale on a day of the month: the month's profit is the difference of their prices. */
  lemma MonthlyProfitOfOneEach(k: string, bought: Row, sold: Row, today: Date)
    requires ValidDate(today) && StartsWith(k, MonthKey(today))
    ensures Profit(AppendRow(Empty(), k, bought), AppendRow(Empty(), k, sold), Monthly, today)
         == PriceOf(sold) - PriceOf(bought)
  {
    MonthOfOneRow(k, bought, today);
    MonthOfOneRow(k, sold, today);
    ReduceRealOne(bought, PriceOf);
    ReduceRealOne(sold, PriceOf);
  }

  /**
   * Three items at 150.50 added under today's key: the daily statistics are
   * an amount of 150.5 and 3 items.
   */
  lemma DailyStatsExample(today: Date, row: Row)
    requires ValidDate(today) && row.quantity == "3" && row.price == "150.50"
    ensures StatsOf(Selection(AppendRow(Empty(), DateKey(today), row), Daily, today)) == Totals(150.5, 3)
  {
    var l := AppendRow(Empty(), DateKey(today), row);
    assert Selection(l, Daily, today) == [row];
    ReduceRealOne(row, PriceOf);
    ReduceIntOne(row, QuantityOf);
    ParseFloatExample();
    ExampleStrings();
    ParseIntDecimal(3);
  }

  lemma ExampleStrings()
    ensures DecimalString(500) == "500" && DecimalString(300) == "300"
    ensures DecimalString(10) == "10" && DecimalString(4) == "4"
    ensures MonthKey(Date(2024, 3, 5)) == "2024-03"
  {
    assert DecimalString(50) == "50";
    assert DecimalString(30) == "30";
    assert DecimalString(2024) == "2024";
    assert DecimalString(3) == "3";
    assert TwoDigits(3) == "03";
  }

  /**
   * Ten bags of rice bought for 500 and four sold for 300 on 5 March 2024:
   * March's purchases total {500, 10}, its sales {300, 4}, and its profit is -200.
   */
  lemma MonthlyProfitExample()
    ensures StatsOf(Selection(AppendRow(Empty(), "2024-03-05", Row("Rice", "10", "500", Some(""), None, None)),
                              Monthly, Date(2024, 3, 5))) == Totals(500.0, 10)
    ensures StatsOf(Selection(AppendRow(Empty(), "2024-03-05", Row("Rice", "4", "300", None, Some(""), None)),
                              Monthly, Date(2024, 3, 5))) == Totals(300.0, 4)
    ensures Profit(AppendRow(Empty(), "2024-03-05", Row("Rice", "10", "500", Some(""), None, None)),
                   AppendRow(Empty(), "2024-03-05", Row("Rice", "4", "300", None, Some(""), None)),
                   Monthly, Date(2024, 3, 5)) == -200.0
  {
    ExampleStrings();
    assert StartsWith("2024-03-05", "2024-03") by {
      assert "2024-03-05"[..7] == "2024-03";
    }
    var bought := Row("Rice", "10", "500", Some(""), None, None);
    var sold := Row("Rice", "4", "300", None, Some(""), None);
    MonthlyProfitOfOneEach("2024-03-05", bought, sold, Date(2024, 3, 5));
    WholePrice(bought, 500);
    WholePrice(sold, 300);
    ReduceRealOne(bought, PriceOf);
    ReduceRealOne(sold, PriceOf);
    MonthOfOneRow("2024-03-05", bought, Date(2024, 3, 5));
    MonthOfOneRow("2024-03-05", sold, Date(2024, 3, 5));
    ParseIntDecimal(10);
    ParseIntDecimal(4);
    ReduceIntOne(bought, QuantityOf);
    ReduceIntOne(sold, QuantityOf);
  }

  /**
   * The `'stats'` export on the dashboard takes the non-purchase branch: it
   * reads back as the sale header followed by the cells of every sale.
   */
  lemma StatsExportIsSales(purchases: Ledger, sales: Ledger, today: Date)
    requires ValidDate(today)
    requires PlainRows(OverallRows(sales))
    ensures ParseCsv(GenerateCSV(Selection(LedgerFor("stats", purchases, sales), PeriodOf("overall"), today), "stats"))
         == [SaleHeader()] + seq(|OverallRows(sales)|, i requires 0 <= i < |OverallRows(sales)| => Cells(OverallRows(sales)[i]))
  {
    assert "overall" != "daily" && "overall" != "weekly" && "overall" != "monthly";
    assert PeriodOf("overall") == Overall;
    assert LedgerFor("stats", purchases, sales) == sales;
    SelectionOverall(sales, today);
    assert Header("stats") == SaleHeader();
    CsvRoundTrip(OverallRows(sales), "stats");
  }

  /** Every row a period selects from a ledger of form rows carries no date. */
  lemma SelectedRowsUndated(l: Ledger, purchase: bool, period: Period, today: Date)
    requires Ledgers.Valid(l) && FormRows(l, purchase) && ValidDate(today)
    ensures forall i :: 0 <= i < |Selection(l, period, today)| ==> Selection(l, period, today)[i].date.None?
  {
    var rows := Selection(l, period, today);
    forall i | 0 <= i < |rows| ensures rows[i].date.None? {
      SelectionFromBuckets(l, period, today, rows[i]);
      var k :| k in l.buckets && rows[i] in l.buckets[k];
      assert Shaped(rows[i], purchase);
    }
  }

  /** Rows stored through the form export an empty Date column, whatever the period. */
  lemma ExportedDatesEmpty(l: Ledger, purchase: bool, dataType: string, period: Period, today: Date)
    requires Ledgers.Valid(l) && FormRows(l, purchase) && ValidDate(today)
    requires PlainRows(Selection(l, period, today))
    ensures forall i :: 1 <= i < |ParseCsv(GenerateCSV(Selection(l, period, today), dataType))| ==>
      |ParseCsv(GenerateCSV(Selection(l, period, today), dataType))[i]| == 5
      && ParseCsv(GenerateCSV(Selection(l, period, today), dataType))[i][4] == ""
  {
    SelectedRowsUndated(l, purchase, period, today);
    FormRowsHaveEmptyDates(Selection(l, period, today), dataType);
  }

  /**
   * Every record line exported from a ledger of form rows ends with an empty
   * Date cell, whatever the period and whatever its other cells hold.
   */
  lemma ExportedLinesUndated(l: Ledger, purchase: bool, period: Period, today: Date)
    requires Ledgers.Valid(l) && FormRows(l, purchase) && ValidDate(today)
    ensures forall i :: 0 <= i < |Selection(l, period, today)| ==>
      var line := Line(Cells(Selection(l, period, today)[i]));
      |line| >= 3 && line[|line| - 3..] == ",\"\""
  {
    var rows := Selection(l, period, today);
    SelectedRowsUndated(l, purchase, period, today);
    forall i | 0 <= i < |rows|
      ensures |Line(Cells(rows[i]))| >= 3 && Line(Cells(rows[i]))[|Line(Cells(rows[i]))| - 3..] == ",\"\""
    {
      UndatedLineEnd(rows[i]);
    }
  }

  /** Appending a row of the form's shape keeps every stored row of that shape. */
  lemma AppendKeepsFormRows(l: Ledger, k: string, row: Row, purchase: bool)
    requires Ledgers.Valid(l) && FormRows(l, purchase) && Shaped(row, purchase)
    ensures FormRows(AppendRow(l, k, row), purchase)
  {
    var m := AppendRow(l, k, row);
    forall j, r | j in m.buckets && r in m.buckets[j] ensures Shaped(r, purchase) {
      if j == k {
        assert r in Bucket(l, k) + [row];
      } else {
        assert r in Bucket(l, j);
      }
    }
  }

  class SalesManagementSystem {
    var purchases: Ledger
    var sales: Ledger
    var newPurchaseRow: Row
    var newSaleRow: Row
    var addingRowDate: Option<string>
    var expandedDays: map<string, bool>

    /**
     * Both ledgers list each key once; the drafts and every stored row have
     * the shape of their form.
     */
    predicate Valid()
      reads this
    {
      Ledgers.Valid(purchases) && Ledgers.Valid(sales)
      && Shaped(newPurchaseRow, true) && Shaped(newSaleRow, false)
      && FormRows(purchases, true) && FormRows(sales, false)
    }

    /** The initial state of the component. */
    constructor()
      ensures Valid()
      ensures purchases == Empty() && sales == Empty()
      ensures newPurchaseRow == EmptyPurchaseDraft() && newSaleRow == EmptySaleDraft()
      ensures addingRowDate == None && expandedDays == map[]
    {
      purchases := Empty();
      sales := Empty();
      newPurchaseRow := EmptyPurchaseDraft();
      newSaleRow := EmptySaleDraft();
      addingRowDate := None;
      expandedDays := map[];
    }

    /** `!!expandedDays[dateKey]`: a missing key reads as collapsed. */
    function IsExpanded(dateKey: string): bool
      reads this
    {
      dateKey in expandedDays && expandedDays[dateKey]
    }

    /** `toggleDay(dateKey)`: flips that day and no other. */
    method ToggleDay(dateKey: string)
      requires Valid()
      modifies this
      ensures Valid()
      ensures expandedDays == old(expandedDays)[dateKey := !old(IsExpanded(dateKey))]
      ensures IsExpanded(dateKey) == !old(IsExpanded(dateKey))
      ensures forall k :: k != dateKey ==> IsExpanded(k) == old(IsExpanded(k))
      ensures purchases == old(purchases) && sales == old(sales)
      ensures newPurchaseRow == old(newPurchaseRow) && newSaleRow == old(newSaleRow)
      ensures addingRowDate == old(addingRowDate)
    {
      expandedDays := expandedDays[dateKey := !IsExpanded(dateKey)];
    }

    /** `setExpandedDays({})` when a ledger page is opened. */
    method CollapseAllDays()
      requires Valid()
      modifies this
      ensures Valid()
      ensures expandedDays == map[] && forall k :: !IsExpanded(k)
      ensures purchases == old(purchases) && sales == old(sales)
      ensures newPurchaseRow == old(newPurchaseRow) && newSaleRow == old(newSaleRow)
      ensures addingRowDate == old(addingRowDate)
    {
      expandedDays := map[];
    }

    /** `setAddingRowDate(dateKey)`: opens the add-row form of that day. */
    method StartAddingRow(dateKey: string)
      requires Valid()
      modifies this
      ensures Valid()
      ensures addingRowDate == Some(dateKey)
      ensures purchases == old(purchases) && sales == old(sales)
      ensures newPurchaseRow == old(newPurchaseRow) && newSaleRow == old(newSaleRow)
      ensures expandedDays == old(expandedDays)
    {
      addingRowDate := Some(dateKey);
    }

    /** `setAddingRowDate(null)`: the form's Cancel button; the draft is kept. */
    method CancelAddingRow()
      requires Valid()
      modifies this
      ensures Valid()
      ensures addingRowDate == None
      ensures purchases == old(purchases) && sales == old(sales)
      ensures newPurchaseRow == old(newPurchaseRow) && newSaleRow == old(newSaleRow)
      ensures expandedDays == old(expandedDays)
    {
      addingRowDate := None;
    }

    /** An input of the add-row form changes one field of the draft of its data type. */
    method EditDraft(dataType: string, field: DraftField, value: string)
      requires Valid()
      modifies this
      ensures Valid()
      ensures dataType == "purchase" ==>
        newPurchaseRow == Edit(old(newPurchaseRow), field, value, true) && newSaleRow == old(newSaleRow)
      ensures dataType != "purchase" ==>
        newSaleRow == Edit(old(newSaleRow), field, value, false) && newPurchaseRow == old(newPurchaseRow)
      ensures purchases == old(purchases) && sales == old(sales)
      ensures addingRowDate == old(addingRowDate) && expandedDays == old(expandedDays)
    {
      if dataType == "purchase" {
        newPurchaseRow := Edit(newPurchaseRow, field, value, true);
      } else {
        newSaleRow := Edit(newSaleRow, field, value, false);
      }
    }

    /**
     * `addPurchaseRow(dateKey)`: a complete draft joins the end of that day's
     * bucket (the key is created last if absent), the draft is cleared and the
     * form closes; an incomplete draft changes nothing.
     */
    method AddPurchaseRow(dateKey: string)
      requires Valid()
      modifies this
      ensures Valid()
      ensures Complete(old(newPurchaseRow)) ==>
        purchases == AppendRow(old(purchases), dateKey, old(newPurchaseRow))
        && newPurchaseRow == EmptyPurchaseDraft() && addingRowDate == None
      ensures !Complete(old(newPurchaseRow)) ==>
        purchases == old(purchases) && newPurchaseRow == old(newPurchaseRow)
        && addingRowDate == old(addingRowDate)
      ensures sales == old(sales) && newSaleRow == old(newSaleRow)
      ensures expandedDays == old(expandedDays)
    {
      if newPurchaseRow.itemName != "" && newPurchaseRow.quantity != "" && newPurchaseRow.price != "" {
        AppendKeepsFormRows(purchases, dateKey, newPurchaseRow, true);
        purchases := AppendRow(purchases, dateKey, newPurchaseRow);
        newPurchaseRow := EmptyPurchaseDraft();
        addingRowDate := None;
      }
    }

    /** `addSaleRow(dateKey)`: as `addPurchaseRow`, on the sales ledger and the sale draft. */
    method AddSaleRow(dateKey: string)
      requires Valid()
      modifies this
      ensures Valid()
      ensures Complete(old(newSaleRow)) ==>
        sales == AppendRow(old(sales), dateKey, old(newSaleRow))
        && newSaleRow == EmptySaleDraft() && addingRowDate == None
      ensures !Complete(old(newSaleRow)) ==>
        sales == old(sales) && newSaleRow == old(newSaleRow)
        && addingRowDate == old(addingRowDate)
      ensures purchases == old(purchases) && newPurchaseRow == old(newPurchaseRow)
      ensures expandedDays == old(expandedDays)
    {
      if newSaleRow.itemName != "" && newSaleRow.quantity != "" && newSaleRow.price != "" {
        AppendKeepsFormRows(sales, dateKey, newSaleRow, false);
        sales := AppendRow(sales, dateKey, newSaleRow);
        newSaleRow := EmptySaleDraft();
        addingRowDate := None;
      }
    }

    /**
     * `deletePurchase(dateKey, index)`: the bucket loses the row at index (none
     * if index is out of range); the bucket must exist, as filtering a missing
     * one throws.
     */
    method DeletePurchase(dateKey: string, index: int)
      requires Valid() && dateKey in purchases.buckets
      modifies this
      ensures Valid()
      ensures purchases == DeleteRow(old(purchases), dateKey, index)
      ensures sales == old(sales)
      ensures newPurchaseRow == old(newPurchaseRow) && newSaleRow == old(newSaleRow)
      ensures addingRowDate == old(addingRowDate) && expandedDays == old(expandedDays)
    {
      purchases := DeleteRow(purchases, dateKey, index);
    }

    /** `deleteSale(dateKey, index)`: as `deletePurchase`, on the sales ledger. */
    method DeleteSale(dateKey: string, index: int)
      requires Valid() && dateKey in sales.buckets
      modifies this
      ensures Valid()
      ensures sales == DeleteRow(old(sales), dateKey, index)
      ensures purchases == old(purchases)
      ensures newPurchaseRow == old(newPurchaseRow) && newSaleRow == old(newSaleRow)
      ensures addingRowDate == old(addingRowDate) && expandedDays == old(expandedDays)
    {
      sales := DeleteRow(sales, dateKey, index);
    }

    /** `calculateStats(dataType, period)`: the sums over the rows the period selects. */
    method CalculateStats(dataType: string, period: string, today: Date) returns (stats: Totals)
      requires ValidDate(today)
      ensures stats == StatsOf(Selection(LedgerFor(dataType, purchases, sales), PeriodOf(period), today))
    {
      var data := if dataType == "purchase" then purchases else sales;
      var filteredData := CollectRows(data, period, today);
      stats := Totals(SumAmount(filteredData), SumItems(filteredData));
    }

    /** `calculateProfit(period)`. */
    method CalculateProfit(period: string, today: Date) returns (profit: real)
      requires ValidDate(today)
      ensures profit == Profit(purchases, sales, PeriodOf(period), today)
    {
      var purchaseStats := CalculateStats("purchase", period, today);
      var saleStats := CalculateStats("sale", period, today);
      profit := saleStats.amount - purchaseStats.amount;
    }

    /**
     * `downloadExcel(dataType, period)` up to the browser download: the CSV of
     * the rows `calculateStats` would sum, and the file name.
     */
    method DownloadExcel(dataType: string, period: string, today: Date) returns (csv: string, filename: string)
      requires ValidDate(today)
      ensures csv == GenerateCSV(Selection(LedgerFor(dataType, purchases, sales), PeriodOf(period), today), dataType)
      ensures filename == Filename(dataType, ExportLabel(PeriodOf(period), today))
    {
      var data := if dataType == "purchase" then purchases else sales;
      var filteredData := CollectRows(data, period, today);
      var dateKey := ExportLabel(PeriodOf(period), today);
      csv := GenerateCSV(filteredData, dataType);
      filename := dataType + "-" + dateKey + ".csv";
    }
  }
}
