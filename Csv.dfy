/**
 * The CSV export (`generateCSV` and the file name `downloadExcel` gives it):
 * a header line chosen by the data type, then one line per row; every cell
 * is wrapped in double quotes with no escaping, cells are joined by `,` and
 * lines by a line feed. A reader that splits on those separators and strips
 * the quotes gives back the cells whenever no cell holds a separator.
 */
module Csv {
  import opened JsText
  import opened Calendar
  import opened Ledgers
  import opened Stats

  function PurchaseHeader(): seq<string> {
    ["Item Name", "Quantity", "Price (Rs)", "Purchased From", "Date"]
  }

  function SaleHeader(): seq<string> {
    ["Item Name", "Quantity", "Price (Rs)", "Sold To", "Date"]
  }

  /** The purchase header for `'purchase'`, the sale header for any other data type. */
  function Header(dataType: string): (h: seq<string>)
    ensures h == PurchaseHeader() <==> dataType == "purchase"
    ensures h == SaleHeader() <==> dataType != "purchase"
  {
    assert PurchaseHeader()[3] != SaleHeader()[3];
    if dataType == "purchase" then PurchaseHeader() else SaleHeader()
  }

  /** JavaScript truthiness of a field that may be missing: present and non-empty. */
  predicate Truthy(field: Option<string>) {
    field.Some? && field.value != ""
  }

  /**
   * `item.purchasedFrom || item.soldTo || ''`: for a purchase row the seller,
   * for a sale row the buyer, empty when the field is empty.
   */
  function Counterparty(row: Row): (c: string)
    ensures row.purchasedFrom.Some? && row.soldTo.None? ==> c == row.purchasedFrom.value
    ensures row.purchasedFrom.None? && row.soldTo.Some? ==> c == row.soldTo.value
    ensures c == "" <==> !Truthy(row.purchasedFrom) && !Truthy(row.soldTo)
  {
    if Truthy(row.purchasedFrom) then row.purchasedFrom.value
    else if Truthy(row.soldTo) then row.soldTo.value
    else ""
  }

  /** `item.date || ''`. */
  function DateCell(row: Row): (c: string)
    ensures row.date.None? ==> c == ""
  {
    if Truthy(row.date) then row.date.value else ""
  }

  /** The five cells of a record line. */
  function Cells(row: Row): seq<string> {
    [row.itemName, row.quantity, row.price, Counterparty(row), DateCell(row)]
  }

  /** `"${cell}"`. */
  function Quote(cell: string): string {
    "\"" + cell + "\""
  }

  /** `row.map(cell => `"${cell}"`).join(',')`. */
  function Line(cells: seq<string>): string {
    Join(seq(|cells|, i requires 0 <= i < |cells| => Quote(cells[i])), ',')
  }

  /** `[headers, ...rows].map(...).join('\n')`. */
  function GenerateCSV(rows: seq<Row>, dataType: string): string {
    Join([Line(Header(dataType))] + seq(|rows|, i requires 0 <= i < |rows| => Line(Cells(rows[i]))), '\n')
  }

  /** Drops one pair of enclosing double quotes. */
  function Unquote(s: string): string {
    if |s| >= 2 && s[0] == '"' && s[|s| - 1] == '"' then s[1..|s| - 1] else s
  }

  /** The cells of one line: split on `,` and unquoted. */
  function ParseLine(line: string): seq<string> {
    var parts := Split(line, ',');
    seq(|parts|, i requires 0 <= i < |parts| => Unquote(parts[i]))
  }

  /** The cells of every line of a CSV text. */
  function ParseCsv(text: string): seq<seq<string>> {
    var lines := Split(text, '\n');
    seq(|lines|, i requires 0 <= i < |lines| => ParseLine(lines[i]))
  }

  /** A cell that holds neither separator. */
  predicate Plain(cell: string) {
    ',' !in cell && '\n' !in cell
  }

  predicate AllPlain(cells: seq<string>) {
    forall i :: 0 <= i < |cells| ==> Plain(cells[i])
  }

  lemma QuoteRoundTrip(cell: string)
    ensures Unquote(Quote(cell)) == cell
    ensures forall c :: c in Quote(cell) ==> c == '"' || c in cell
  {
    var q := Quote(cell);
    assert q[1..|q| - 1] == cell;
    forall c | c in q ensures c == '"' || c in cell {
      var i :| 0 <= i < |q| && q[i] == c;
      if 0 < i < |q| - 1 {
        assert q[i] == cell[i - 1];
      }
    }
  }

  /** A line of plain cells holds no line feed and reads back as those cells. */
  lemma LineRoundTrip(cells: seq<string>)
    requires |cells| >= 1 && AllPlain(cells)
    ensures '\n' !in Line(cells)
    ensures ParseLine(Line(cells)) == cells
  {
    var quoted := seq(|cells|, i requires 0 <= i < |cells| => Quote(cells[i]));
    forall i | 0 <= i < |cells|
      ensures ',' !in quoted[i] && '\n' !in quoted[i]
      ensures Unquote(quoted[i]) == cells[i]
    {
      QuoteRoundTrip(cells[i]);
    }
    SplitJoin(quoted, ',');
  }

  /** The header lines hold no separator inside a cell. */
  lemma HeadersPlain(dataType: string)
    ensures AllPlain(Header(dataType))
  {
    var h := Header(dataType);
    forall i | 0 <= i < 5 ensures Plain(h[i]) {
      assert forall c :: c in h[i] ==> c != ',' && c != '\n';
    }
  }

  /**
   * The record line of a row without a date ends with a separator and an
   * empty quoted Date cell, whatever its other cells hold.
   */
  lemma UndatedLineEnd(row: Row)
    requires row.date.None?
    ensures |Line(Cells(row))| >= 3 && Line(Cells(row))[|Line(Cells(row))| - 3..] == ",\"\""
  {
    var cells := Cells(row);
    var quoted := seq(|cells|, i requires 0 <= i < |cells| => Quote(cells[i]));
    JoinLast(quoted, ',');
    assert quoted[4] == "\"\"";
  }

  /** Rows whose five cells hold neither separator. */
  predicate PlainRows(rows: seq<Row>) {
    forall i :: 0 <= i < |rows| ==> AllPlain(Cells(rows[i]))
  }

  /**
   * Reading the exported text back gives the header of the data type followed
   * by the five cells of every row, in order, when no cell holds a separator.
   */
  lemma CsvRoundTrip(rows: seq<Row>, dataType: string)
    requires PlainRows(rows)
    ensures ParseCsv(GenerateCSV(rows, dataType)) == [Header(dataType)] + seq(|rows|, i requires 0 <= i < |rows| => Cells(rows[i]))
  {
    var lines := [Line(Header(dataType))] + seq(|rows|, i requires 0 <= i < |rows| => Line(Cells(rows[i])));
    var expected := [Header(dataType)] + seq(|rows|, i requires 0 <= i < |rows| => Cells(rows[i]));
    HeadersPlain(dataType);
    forall i | 0 <= i < |lines|
      ensures '\n' !in lines[i] && ParseLine(lines[i]) == expected[i]
    {
      if i == 0 {
        LineRoundTrip(Header(dataType));
      } else {
        LineRoundTrip(Cells(rows[i - 1]));
      }
    }
    SplitJoin(lines, '\n');
  }

  /** Rows entered through the form carry no date, so the Date column of every record is empty. */
  lemma FormRowsHaveEmptyDates(rows: seq<Row>, dataType: string)
    requires PlainRows(rows)
    requires forall i :: 0 <= i < |rows| ==> rows[i].date.None?
    ensures |ParseCsv(GenerateCSV(rows, dataType))| == |rows| + 1
    ensures forall i :: 1 <= i <= |rows| ==>
      |ParseCsv(GenerateCSV(rows, dataType))[i]| == 5 && ParseCsv(GenerateCSV(rows, dataType))[i][4] == ""
  {
    CsvRoundTrip(rows, dataType);
  }

  /** The part of the file name after the data type: today's key, `Weekly`, `Monthly` or `Overall`. */
  function ExportLabel(period: Period, today: Date): string {
    match period
    case Daily => DateKey(today)
    case Weekly => "Weekly"
    case Monthly => "Monthly"
    case Overall => "Overall"
  }

  /** `${dataType}-${label}.csv`. */
  function Filename(dataType: string, dateKey: string): string {
    dataType + "-" + dateKey + ".csv"
  }
}
