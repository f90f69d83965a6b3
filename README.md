# M-store ledger engine in Dafny

A model of the ledger engine inside the `SalesManagementSystem` React component (`src/App.js`):
the purchase and sale ledgers, the add-row form, the add/delete/toggle handlers,
`calculateStats`, `calculateProfit`, the row selection and file name of
`downloadExcel`, `generateCSV`, and the date helpers `getDaysInMonth` and `getDateString`.

The project has seven modules, one file each:

- `JsText.dfy`: the JavaScript string operations the engine uses: `String(n)`,
  `padStart`, `startsWith`, `join`, and a `split` that partners `join`.
- `JsNumber.dfy`: `parseInt` and `parseFloat` followed by `|| 0`. Whitespace, one sign,
  `0x` hexadecimal for `parseInt`, the longest decimal literal for `parseFloat`, and NaN as 0.
  Values are exact integers and reals.
- `Calendar.dfy`: the Gregorian calendar, and `getDaysInMonth` with the `Date`
  constructor's month overflow. It also has `getDateString`, the monthly prefix
  `YYYY-MM`, the `toISOString().split('T')[0]` key of a date, day arithmetic, and
  `getDay()`. The week starting on the Sunday on or before today ends this module.
- `Ledgers.dfy`: a ledger is a JavaScript object from date keys to row lists. It is
  modelled as the key order plus a map, because `Object.keys` and `Object.values`
  iterate in that order. The module also has the spread update
  `{...prev, [k]: v}`, the append of the add handlers, and the `filter` of the delete handlers.
- `Stats.dfy`: the row selection of each period (daily, weekly, monthly, anything
  else = overall) as specification functions. It also has the loops of
  `calculateStats`/`downloadExcel` as methods proved against them, and the two `reduce` sums.
- `Csv.dfy`: `generateCSV`, a reader that splits on the separators and strips the
  quotes (the partner for the round trip), and the export file name.
- `App.dfy`: the component state as the class `SalesManagementSystem`, whose
  fields are the state variables and whose methods are the handlers. It also has
  the profit and export properties.

The current date is a parameter `today` (a `Date` of year, month 1-12 and day); the
clock is never read. `currentYear` is `today.year`.

Some behaviour of the code as written, which the model keeps:

- Rows have no `recovery` field. The sale CSV header has five columns, and nothing
  groups rows by counterparty.
- The form drafts (`src/App.js:11-12`) have no `date` field, so every exported record
  line ends with an empty Date cell (`App.ExportedLinesUndated`).
- `new Date(currentYear, month + 1, 0)` reads a year from 0 to 99 as 1900 to 1999, so
  `getDaysInMonth` gives those years the month lengths of the twentieth century
  (`Calendar.FebruaryOfYearZero`).
- `getDateString` writes the year with `String(currentYear)`, not padded to four
  digits. It agrees with the ISO key only for years 1000-9999
  (`Calendar.GetDateStringIsDateKey`).

## Model

| member | source | states |
|---|---|---|
| Calendar.TwoDigits | src/App.js:55-56 | `String(n).padStart(2, '0')`; `JsText.PadStart` states its length, kept digits and zero fill. |
| Calendar.GetDateString | src/App.js:54-58 | The grid key `${currentYear}-MM-DD`; `Calendar.GetDateStringIsDateKey` states that it is the ISO key of that day for years 1000-9999, and `Calendar.GridKeyInMonth` that it starts with the month key. |
| Calendar.MonthKey | src/App.js:119 | The `${currentYear}-MM` prefix of the monthly filter; `Stats.TodayInMonth` states that today's key starts with it, and `Stats.MonthlyMember` that it selects exactly the rows under such keys. |
| Calendar.DateKey | src/App.js:47 | `toISOString().split('T')[0]`; `Calendar.DateKeyRoundTrip` and `Calendar.DateKeyInjective` state that it is read back and never shared by two dates. |
| Calendar.WeekStart | src/App.js:110-111 | The date `getDate() - getDay()`; its contract says it is a valid date, and `Calendar.WeekStartIsSunday` that it is a Sunday at most six days back. |
| Calendar.WeekKeys | src/App.js:112-115 | The seven keys the weekly loop reads; its contract gives their number, `Calendar.WeekDayNumbers` and `Calendar.WeekOfToday` their days. |
| Calendar.GetDaysInMonth | src/App.js:50-52 | `new Date(currentYear, month + 1, 0).getDate()` is the length of month `month` counted from January of `currentYear`, overflowing into later years, with a year from 0 to 99 read as 1900 to 1999; for any other year it is the month of `currentYear` itself. It is 28 to 31, and February has 29 days exactly when the year the constructor uses is a leap year. |
| Calendar.FebruaryOfYearZero | src/App.js:51 | For `currentYear` 0 the constructor uses 1900, so February has 28 days although year 0 itself is a leap year. |
| Calendar.GetDateStringIsDateKey | src/App.js:54-58 | For a year of four digits, the grid key `year-MM-DD` of month index `m` and day `d` equals the ISO key of that date, so grid keys meet the keys `today` and the week use. |
| Calendar.GridKeyInMonth | src/App.js:54-58 | Every key the month grid builds for the current month starts with the monthly prefix. |
| Calendar.DateKeyRoundTrip | src/App.js:47 | The `YYYY-MM-DD` key of a date with year 0-9999 reads back as that date. |
| Calendar.DateKeyInjective | src/App.js:115 | Two dates of years 0-9999 with the same key are the same date: different days never share a bucket. |
| Calendar.WeekStartIsSunday | src/App.js:110-111 | Going back `getDay()` days from today lands on a Sunday. |
| Calendar.WeekDayNumbers | src/App.js:112-114 | The week's day `i` (0-6) is `i` days after the week start, on consecutive day numbers. |
| Calendar.WeekOfToday | src/App.js:110-114 | The week starts on a Sunday, its seven days are consecutive, and its day `getDay()` is today. |
| Calendar.TodayInWeekKeys | src/App.js:110-115 | Today's key is the week's key at position `getDay()`. |
| Calendar.MonthLength | src/App.js:51 | Gregorian month lengths: 28 to 31 days, February 29 exactly in leap years. |
| JsText.PadStart | src/App.js:55-56 | `padStart(width, fill)` keeps the string as its suffix, fills only in front, and reaches the width. |
| JsText.SplitJoin | src/App.js:193 | Splitting the joined parts on a separator none of them contains gives the parts back. |
| JsText.JoinLast | src/App.js:193 | A join ends with the separator followed by the last part. |
| JsNumber.ParseInt | src/App.js:132 | `parseInt(s)` for base 10 and the `0x` prefix, `None` for NaN; the `JsNumber.ParseInt…` lemmas state what it reads. |
| JsNumber.ParseIntOr0 | src/App.js:132 | `parseInt(s) \|\| 0`; `JsNumber.ParseIntWithoutDigits` states the fall-back to 0. |
| JsNumber.ParseFloat | src/App.js:131 | `parseFloat(s)` of a decimal literal, `None` for NaN; the `JsNumber.ParseFloat…` lemmas state what it reads. |
| JsNumber.ParseFloatOr0 | src/App.js:131 | `parseFloat(s) \|\| 0`; `JsNumber.ParseFloatWithoutDigits` states the fall-back to 0. |
| JsNumber.ParseIntDecimal | src/App.js:132 | `parseInt` reads back `String(n)` and `'-' + String(n)`. |
| JsNumber.ParseIntIgnoresSuffix | src/App.js:132 | After a decimal prefix that does not start a `0x` hexadecimal literal, `parseInt` stops at the first non-digit: a quantity `"12kg"` counts 12. |
| JsNumber.ParseIntWithoutDigits | src/App.js:132 | A quantity without any digit is NaN, so it counts 0. |
| JsNumber.ParseFloatDecimal | src/App.js:131 | `parseFloat` reads back `String(n)` for a whole number. |
| JsNumber.ParseFloatPointNumber | src/App.js:131 | `parseFloat("d.f")` is the value of the literal with whole part `d` and fraction `f`. |
| JsNumber.ParseFloatWithoutDigits | src/App.js:131 | A price without any digit is NaN, so it counts 0 (the model does not read `Infinity`). |
| JsNumber.ParseFloatExample | src/App.js:131 | The price `"150.50"` counts 150.5. |
| Ledgers.EmptyPurchaseDraft | src/App.js:11 | The cleared purchase draft, which the add guard refuses and which carries no date. |
| Ledgers.EmptySaleDraft | src/App.js:12 | The cleared sale draft, which the add guard refuses and which carries no date. |
| Ledgers.Complete | src/App.js:68 | The add guard `itemName && quantity && price`; `App.SalesManagementSystem.AddPurchaseRow` and `AddSaleRow` state what each outcome of it does. |
| Ledgers.Assign | src/App.js:69-72 | `{...prev, [k]: v}`: k maps to v and every other key keeps its bucket. An existing key keeps its place in the key order; a new key goes last. Keys stay distinct. |
| Ledgers.AppendRow | src/App.js:69-72 | `[...(prev[k] \|\| []), row]`: the row becomes the last of k's bucket, created last in the key order if absent. Nothing else changes. |
| Ledgers.WithoutIndex | src/App.js:92 | `filter((_, i) => i !== index)` has one element fewer for an index in range and the same length otherwise. It holds only elements of the bucket. |
| Ledgers.WithoutIndexSlices | src/App.js:92 | The filter is exactly the bucket without the element at the index, the rest in order, or the whole bucket for an index out of range. |
| Ledgers.DeleteRow | src/App.js:89-101 | Delete keeps the key order, and the key stays even when its bucket empties. The bucket loses exactly the row at the index, or is unchanged out of range. Every other bucket is untouched. The bucket must exist. |
| Ledgers.DeleteUndoesAppend | src/App.js:67-101 | Deleting the row just added (at the old bucket length) restores every bucket. |
| Ledgers.ConcatBucketsMember | src/App.js:116 | A row is among the concatenated buckets of some keys iff it is in the bucket of one of them. |
| Stats.PriceOf | src/App.js:131 | `parseFloat(item.price) \|\| 0`; `App.WholePrice` and `JsNumber.ParseFloatExample` give its value on whole and decimal prices. |
| Stats.QuantityOf | src/App.js:132 | `parseInt(item.quantity) \|\| 0`; `JsNumber.ParseIntDecimal` and `JsNumber.ParseIntIgnoresSuffix` give its value. |
| Stats.SumAmount | src/App.js:131 | The `totalAmount` reduce; `Stats.SumsConcat` and `Stats.SumsAppendOne` state that it adds over rows. |
| Stats.SumItems | src/App.js:132 | The `totalItems` reduce; `Stats.SumsConcat` and `Stats.SumsAppendOne` state that it adds over rows. |
| Stats.StatsOf | src/App.js:131-134 | The `{ amount, items }` result; `Stats.EmptyLedgerStats`, `App.DailyStatsExample` and `App.MonthlyProfitExample` give its value. |
| Stats.PeriodOf | src/App.js:107-129 | The period branch taken: `'daily'`, `'weekly'` and `'monthly'` exactly for those strings, overall for every other string. |
| Stats.DailyRows | src/App.js:107-108 | `data[today] \|\| []`; `Stats.DailyWithinWeekly` and `Stats.DailyWithinMonthly` place it inside the wider periods. |
| Stats.WeeklyRows | src/App.js:109-117 | The week's buckets in day order; `Stats.CollectWeek` states that the loop builds exactly this. |
| Stats.MonthlyRows | src/App.js:118-124 | The buckets of the keys with the month prefix, in key order; `Stats.CollectMonth` and `Stats.MonthlyMember` state what it holds. |
| Stats.OverallRows | src/App.js:125-129 | Every bucket in key order; `Stats.CollectAll` and `Stats.OverallMember` state what it holds. |
| Stats.Selection | src/App.js:107-129 | `filteredData` for a period; `Stats.CollectRows` states the loops compute it, and `Stats.SelectionFromBuckets` that it holds only stored rows. |
| Stats.SumsConcat | src/App.js:131-132 | Both `reduce` sums are additive over concatenated selections. |
| Stats.SumsAppendOne | src/App.js:131-132 | One more row adds `parseFloat(price) \|\| 0` to the amount and `parseInt(quantity) \|\| 0` to the items. |
| Stats.KeysWithPrefixMember | src/App.js:120-121 | The monthly filter keeps exactly the ledger keys that start with the prefix. |
| Stats.CollectWeek | src/App.js:109-117 | The seven-day loop concatenates the buckets of the seven keys from the week start, in order. |
| Stats.CollectMonth | src/App.js:118-124 | The `forEach` over `Object.keys` concatenates, in key order, the buckets whose key starts with `year-MM`. |
| Stats.CollectAll | src/App.js:125-129 | The `forEach` over `Object.values` concatenates every bucket in key order. |
| Stats.CollectRows | src/App.js:104-129 | `filteredData` is the selection of the period: today's bucket for `'daily'`, the week for `'weekly'`, the month for `'monthly'`, every bucket for any other string. |
| Stats.EmptyLedgerStats | src/App.js:131-134 | With no rows, every period gives `{amount: 0, items: 0}`. |
| Stats.OverallMember | src/App.js:125-129 | A row counts overall iff some bucket holds it. |
| Stats.MonthlyMember | src/App.js:118-124 | A row counts in the month iff it is stored under a key starting with the month's `year-MM`. |
| Stats.PrefixMember | src/App.js:120-123 | A row is among the buckets of the keys with a prefix iff such a key holds it. |
| Stats.SelectionFromBuckets | src/App.js:107-129 | Every period selects only stored rows. |
| Stats.DailyWithinWeekly | src/App.js:107-117 | Every row of today's bucket counts in this week. |
| Stats.TodayInMonth | src/App.js:47-48 | For years 1000-9999 today's key starts with the month prefix. |
| Stats.DailyWithinMonthly | src/App.js:107-124 | Every row of today's bucket counts in this month (years 1000-9999). |
| Stats.MonthlyWithinOverall | src/App.js:118-129 | Every row of the month counts overall. |
| Stats.ReplaceBucketReduce | src/App.js:126-132 | Replacing one bucket changes a sum over distinct keys by that bucket's change. |
| Stats.ReduceAfterAppend | src/App.js:67-87 | Appending a row adds its value to a sum over all buckets. |
| Stats.ReduceRealWithout | src/App.js:92 | Filtering out one row takes its value off a real sum. |
| Stats.ReduceIntWithout | src/App.js:92 | Filtering out one row takes its value off an integer sum. |
| Stats.ReduceAfterDelete | src/App.js:89-101 | Deleting a row in range takes its value off a sum over all buckets. |
| Stats.OverallStatsAfterAppend | src/App.js:67-87 | An accepted add raises the overall amount by the row's parsed price and the items by its parsed quantity. |
| Stats.OverallStatsAfterDelete | src/App.js:89-101 | A delete in range lowers the overall amount and items by the deleted row's parsed price and quantity. |
| Csv.GenerateCSV | src/App.js:180-194 | The export text; `Csv.CsvRoundTrip` and `Csv.UndatedLineEnd` state what it holds. |
| Csv.Cells | src/App.js:185-191 | The five cells of a record; `Csv.Counterparty` and `Csv.DateCell` state the last two. |
| Csv.Line | src/App.js:193 | The quoted cells joined by `,`; `Csv.LineRoundTrip` states that it reads back. |
| Csv.Quote | src/App.js:193 | `"${cell}"`; `Csv.QuoteRoundTrip` states that unquoting gives the cell back. |
| Csv.ExportLabel | src/App.js:148-174 | The `dateKey` of the export: today's key, `Weekly`, `Monthly` or `Overall`; `App.SalesManagementSystem.DownloadExcel` ties it to the same period as the rows. |
| Csv.Filename | src/App.js:177 | `${dataType}-${dateKey}.csv`; `App.SalesManagementSystem.DownloadExcel` states the name it gives. |
| Csv.Header | src/App.js:181-183 | The header is the purchase header exactly when the data type is `'purchase'`, and the sale header otherwise. |
| Csv.Counterparty | src/App.js:189 | `purchasedFrom \|\| soldTo \|\| ''`: the seller of a purchase row, the buyer of a sale row, empty exactly when neither is a non-empty string. |
| Csv.DateCell | src/App.js:190 | A row without a date gets an empty Date cell. |
| Csv.QuoteRoundTrip | src/App.js:193 | A quoted cell unquotes to itself and adds only quote characters. |
| Csv.LineRoundTrip | src/App.js:193 | A line of cells without separators has no line feed and splits back into its cells. |
| Csv.HeadersPlain | src/App.js:181-183 | No header cell holds a separator. |
| Csv.CsvRoundTrip | src/App.js:180-194 | The CSV reads back as the header of the data type followed by the five cells of each row, in order, when no cell holds `,` or a line feed. |
| Csv.UndatedLineEnd | src/App.js:185-193 | The record line of a row without a date ends with `,""`, whatever its other cells hold. |
| Csv.FormRowsHaveEmptyDates | src/App.js:185-193 | For undated rows whose cells hold no `,` or line feed, the CSV reads back as one line per row after the header, each with five cells and an empty Date cell. |
| App.LedgerFor | src/App.js:104 | `dataType === 'purchase' ? purchases : sales`; `App.SalesManagementSystem.CalculateStats` and `App.StatsExportIsSales` state which ledger each data type reads. |
| App.Profit | src/App.js:137-141 | The sale amount less the purchase amount; `App.ProfitAfterSale`, `App.ProfitAfterPurchase` and `App.MonthlyProfitOfOneEach` state how it moves. |
| App.Edit | src/App.js:286-319 | Each form input sets its own draft field to the typed value and leaves every other field as it was: item name, quantity and price set those fields; the counterparty input sets `purchasedFrom` on the purchase form and `soldTo` on the sale form, so it becomes the CSV counterparty, and never changes whether the draft may be added. The date is never touched. |
| App.AppendKeepsFormRows | src/App.js:67-87 | Adding a draft keeps every stored row in the shape of its form. |
| App.SelectedRowsUndated | src/App.js:11-12 | Every row a period selects from form-built rows has no date. |
| App.ExportedLinesUndated | src/App.js:143-194 | Every record line exported from form-built rows ends with an empty Date cell, for any period and any cell contents. |
| App.ExportedDatesEmpty | src/App.js:143-194 | An export of form-built rows whose cells hold no `,` or line feed reads back with an empty Date cell in every record. |
| App.ProfitAfterSale | src/App.js:137-141 | A sale raises the overall profit by its parsed price. |
| App.ProfitAfterPurchase | src/App.js:137-141 | A purchase lowers the overall profit by its parsed price. |
| App.MonthOfOneRow | src/App.js:118-124 | A ledger with one row under a key of the month selects exactly that row for the month. |
| App.WholePrice | src/App.js:131 | A row priced `String(n)` sums to n. |
| App.MonthlyProfitOfOneEach | src/App.js:131-141 | With one purchase and one sale on a day of the month, the monthly profit is the sale's `parseFloat(price) \|\| 0` less the purchase's, for any price strings, possibly negative. |
| App.DailyStatsExample | src/App.js:107-133 | One row of quantity `"3"` and price `"150.50"` added under today's key gives daily statistics of amount 150.5 and 3 items. |
| App.MonthlyProfitExample | src/App.js:131-141 | Rice bought for 500 (10 bags) and sold for 300 (4 bags) on 2024-03-05: March's purchases total {500, 10}, its sales {300, 4}, and its profit is -200. |
| App.StatsExportIsSales | src/App.js:143-176 | When no sale cell holds `,` or a line feed, the dashboard's `downloadExcel('stats', 'overall')` reads back as the sale header followed by every sale. |
| App.SalesManagementSystem.constructor | src/App.js:5-13 | Initial state: both ledgers empty, empty drafts, no open form, no expanded day. |
| App.SalesManagementSystem.IsExpanded | src/App.js:218 | `expandedDays[dateKey]` read as a boolean, a missing key collapsed; `App.SalesManagementSystem.ToggleDay` states how it flips. |
| App.SalesManagementSystem.ToggleDay | src/App.js:60-65 | `toggleDay` flips that day's expanded flag (missing reads as collapsed) and nothing else. |
| App.SalesManagementSystem.CollapseAllDays | src/App.js:364 | `setExpandedDays({})` collapses every day and changes nothing else. |
| App.SalesManagementSystem.StartAddingRow | src/App.js:274 | `setAddingRowDate(dateKey)` opens that day's form and changes nothing else. |
| App.SalesManagementSystem.CancelAddingRow | src/App.js:331 | `setAddingRowDate(null)` closes the form and keeps the drafts. |
| App.SalesManagementSystem.EditDraft | src/App.js:286-319 | A form input updates the draft of its data type by `Edit` and leaves the other draft alone. |
| App.SalesManagementSystem.AddPurchaseRow | src/App.js:67-76 | A draft with non-empty item name, quantity and price is appended to that day's purchases. The draft is then cleared and the form closes; an empty counterparty or `"0"` is accepted. Otherwise nothing changes. The sales ledger never changes. |
| App.SalesManagementSystem.AddSaleRow | src/App.js:78-87 | The same for the sale draft and the sales ledger. |
| App.SalesManagementSystem.DeletePurchase | src/App.js:89-94 | The purchase ledger becomes `DeleteRow` of the old one. Sales, drafts and the form are unchanged. The bucket must exist, because filtering a missing bucket throws. |
| App.SalesManagementSystem.DeleteSale | src/App.js:96-101 | The same on the sales ledger. |
| App.SalesManagementSystem.CalculateStats | src/App.js:103-135 | `calculateStats` sums the rows its period selects from the ledger of its data type (`'purchase'` or else sales). |
| App.SalesManagementSystem.CalculateProfit | src/App.js:137-141 | `calculateProfit` is the sale amount less the purchase amount of the period. |
| App.SalesManagementSystem.DownloadExcel | src/App.js:143-178 | The export is the CSV of the same rows `calculateStats` sums, named `${dataType}-${label}.csv`. |

## Left out

- Persistence (`src/App.js:16-43`): loading and saving through `window.storage` with
  `JSON.parse`/`JSON.stringify` is asynchronous I/O through a host API. The initial state
  is the empty one.
- `downloadCSV` (`src/App.js:196-204`) only hands the text to the browser.
  `DownloadExcel` returns the text and the file name instead.
- `formatDateDisplay` (`src/App.js:206-209`) and the `toFixed(2)` display of amounts are
  locale and display formatting.
- The rendering (`src/App.js:211-500`): page navigation, `selectedMonth`, dark mode,
  and which buttons appear on which day (add and delete only on today's section). The
  handlers are modelled for any date key. `src/components/ScrollToTop.js` only scrolls the window.
- Time zones: `today` and the week keys come from `toISOString` (UTC), while
  `getDay()`, `getMonth()` and `getFullYear()` use local time. The model uses one
  calendar date for all of them.
- Floating point: prices are summed as exact reals, not IEEE-754 doubles, and
  `parseFloat("Infinity")` is not recognised (it counts 0). `parseInt` results and the
  `items` sum are doubles too, exact only below 2^53; the model uses unbounded integers.
- Key order: JavaScript lists integer-like keys first in ascending order. Date keys are
  never integer-like, so the model keeps insertion order only.
- Calendar.DateKeyRoundTrip: only years 0-9999 are covered. Outside them `toISOString`
  writes a sign and six digits, which `DateKey` models but the round trip does not cover.
- Stats.DailyWithinMonthly: requires a four-digit year, because `currentYear` is not
  padded in the month prefix while the ISO key pads it.
- Csv.CsvRoundTrip: holds only for cells without `,` or a line feed. `generateCSV` does
  not escape them, so such a cell does not read back.
- Csv.FormRowsHaveEmptyDates: reads the text back, so it has the same restriction to cells
  without `,` or a line feed; `Csv.UndatedLineEnd` states the empty Date cell for any cells.
- App.ExportedDatesEmpty: the same restriction; `App.ExportedLinesUndated` holds for any cells.
- App.StatsExportIsSales: the same restriction, because it reads the exported text back.
