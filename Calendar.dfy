/**
 * The calendar arithmetic of the ledger: Gregorian month lengths
 * (`getDaysInMonth`), the keys of the month grid (`getDateString`), the ISO key
 * of a date (`toISOString().split('T')[0]`), and the week running from the
 * Sunday on or before a date, which the weekly statistics walk.
 */
module Calendar {
  import opened JsText

  /** A calendar date; month runs from 1 to 12 (JavaScript's `getMonth() + 1`). */
  datatype Date = Date(year: int, month: int, day: int)

  predicate IsLeapYear(y: int) {
    y % 4 == 0 && (y % 100 != 0 || y % 400 == 0)
  }

  /** The number of days of month m (1 to 12) of year y in the proleptic Gregorian calendar. */
  function MonthLength(y: int, m: int): (n: int)
    requires 1 <= m <= 12
    ensures 28 <= n <= 31
    ensures m == 2 ==> (n == 29 <==> IsLeapYear(y))
  {
    if m == 2 then (if IsLeapYear(y) then 29 else 28)
    else if m == 4 || m == 6 || m == 9 || m == 11 then 30
    else 31
  }

  predicate ValidDate(d: Date) {
    1 <= d.month <= 12 && 1 <= d.day <= MonthLength(d.year, d.month)
  }

  /**
   * The year the `Date` constructor uses when it is given a year and a month:
   * a year from 0 to 99 is read as 1900 to 1999.
   */
  function ConstructorYear(year: int): (y: int)
    ensures 0 <= year <= 99 ==> y == 1900 + year
    ensures !(0 <= year <= 99) ==> y == year
  {
    if 0 <= year <= 99 then 1900 + year else year
  }

  /**
   * `getDaysInMonth(month)`, that is `new Date(currentYear, month + 1, 0).getDate()`:
   * day 0 of the following month is the last day of month `month` (0-based),
   * with months outside 0..11 carried into the year the way `Date` does, and
   * a `currentYear` from 0 to 99 read as 1900 to 1999 before the carry.
   */
  function GetDaysInMonth(currentYear: int, month: int): (n: int)
    ensures n == MonthLength(ConstructorYear(currentYear) + month / 12, month % 12 + 1)
    ensures !(0 <= currentYear <= 99) ==> n == MonthLength(currentYear + month / 12, month % 12 + 1)
    ensures 28 <= n <= 31
    ensures month % 12 == 1 ==> (n == 29 <==> IsLeapYear(ConstructorYear(currentYear) + month / 12))
  {
    var y := ConstructorYear(currentYear) + (month + 1) / 12;
    var m := (month + 1) % 12;
    if m == 0 then MonthLength(y - 1, 12) else MonthLength(y, m)
  }

  /** Year 0 is read as 1900, which is not a leap year, so its February has 28 days. */
  lemma FebruaryOfYearZero()
    ensures GetDaysInMonth(0, 1) == 28
    ensures MonthLength(0, 2) == 29
  {
    assert ConstructorYear(0) == 1900;
    assert !IsLeapYear(1900);
  }

  /** `String(n).padStart(2, '0')`. */
  function TwoDigits(n: int): string {
    PadStart(IntString(n), 2, '0')
  }

  /** `getDateString(month, day)`: `${currentYear}-MM-DD` with month + 1 and day padded to two places. */
  function GetDateString(currentYear: int, month: int, day: int): string {
    IntString(currentYear) + "-" + TwoDigits(month + 1) + "-" + TwoDigits(day)
  }

  /** The `YYYY-MM` prefix the monthly statistics look for. */
  function MonthKey(today: Date): string {
    IntString(today.year) + "-" + TwoDigits(today.month)
  }

  /** The year as `toISOString` writes it: four digits, or a sign and six digits outside 0..9999. */
  function IsoYear(y: int): string {
    if 0 <= y <= 9999 then PadStart(DecimalString(y), 4, '0')
    else (if y < 0 then "-" else "+") + PadStart(DecimalString(if y < 0 then -y else y), 6, '0')
  }

  /** `date.toISOString().split('T')[0]`: the key a date's bucket is stored under. */
  function DateKey(d: Date): string {
    IsoYear(d.year) + "-" + TwoDigits(d.month) + "-" + TwoDigits(d.day)
  }

  /** Reads a `YYYY-MM-DD` key back into a date; `None` for any other shape. */
  function ParseDateKey(s: string): Option<Date> {
    if |s| == 10 && s[4] == '-' && s[7] == '-'
       && AllDigits(s[..4]) && AllDigits(s[5..7]) && AllDigits(s[8..])
    then Some(Date(DigitsValue(s[..4]), DigitsValue(s[5..7]), DigitsValue(s[8..])))
    else None
  }

  lemma {:induction false} DecimalStringLengthAtLeast(n: nat, w: nat)
    requires 1 <= w && Pow10Nat(w - 1) <= n
    ensures |DecimalString(n)| >= w
  {
    if w > 1 {
      DecimalStringLengthAtLeast(n / 10, w - 1);
    }
  }

  /** A number below 10^w, zero-padded to w places, is w digits that denote it. */
  lemma Padded(n: nat, w: nat)
    requires 1 <= w && n < Pow10Nat(w)
    ensures |PadStart(DecimalString(n), w, '0')| == w
    ensures AllDigits(PadStart(DecimalString(n), w, '0'))
    ensures DigitsValue(PadStart(DecimalString(n), w, '0')) == n
  {
    DecimalStringLength(n, w);
    PaddedValue(n, w);
  }

  /** A key assembled from a four-digit year, a two-digit month and a two-digit day reads back as those numbers. */
  lemma ParseKeyParts(y: string, m: string, d: string)
    requires |y| == 4 && |m| == 2 && |d| == 2
    requires AllDigits(y) && AllDigits(m) && AllDigits(d)
    ensures ParseDateKey(y + "-" + m + "-" + d) == Some(Date(DigitsValue(y), DigitsValue(m), DigitsValue(d)))
  {
    var s := y + "-" + m + "-" + d;
    assert s[..4] == y;
    assert s[5..7] == m;
    assert s[8..] == d;
  }

  lemma TwoDigitsOf(n: int)
    requires 0 <= n < 100
    ensures |TwoDigits(n)| == 2 && AllDigits(TwoDigits(n)) && DigitsValue(TwoDigits(n)) == n
  {
    assert Pow10Nat(2) == 100;
    Padded(n, 2);
  }

  lemma IsoYearOf(y: int)
    requires 0 <= y <= 9999
    ensures |IsoYear(y)| == 4 && AllDigits(IsoYear(y)) && DigitsValue(IsoYear(y)) == y
  {
    assert Pow10Nat(4) == 10000;
    Padded(y, 4);
  }

  /** Every key of a date in the years 0 to 9999 reads back as that date. */
  lemma DateKeyRoundTrip(d: Date)
    requires ValidDate(d) && 0 <= d.year <= 9999
    ensures ParseDateKey(DateKey(d)) == Some(d)
  {
    IsoYearOf(d.year);
    TwoDigitsOf(d.month);
    TwoDigitsOf(d.day);
    ParseKeyParts(IsoYear(d.year), TwoDigits(d.month), TwoDigits(d.day));
  }

  /** Two dates of the years 0 to 9999 share a key only if they are the same date. */
  lemma DateKeyInjective(a: Date, b: Date)
    requires ValidDate(a) && 0 <= a.year <= 9999
    requires ValidDate(b) && 0 <= b.year <= 9999
    requires DateKey(a) == DateKey(b)
    ensures a == b
  {
    DateKeyRoundTrip(a);
    DateKeyRoundTrip(b);
  }

  /**
   * For the four-digit years, the keys of the month grid are the ISO keys of
   * the dates they name: month index m (0-based) and day d give the key of
   * date (year, m + 1, d).
   */
  lemma GetDateStringIsDateKey(currentYear: int, month: int, day: int)
    requires 1000 <= currentYear <= 9999
    requires 0 <= month < 12 && 1 <= day <= MonthLength(currentYear, month + 1)
    ensures GetDateString(currentYear, month, day) == DateKey(Date(currentYear, month + 1, day))
  {
    assert Pow10Nat(3) == 1000;
    DecimalStringLengthAtLeast(currentYear, 4);
  }

  /** Every key of the month grid falls in that month for the monthly statistics. */
  lemma GridKeyInMonth(today: Date, day: int)
    ensures StartsWith(GetDateString(today.year, today.month - 1, day), MonthKey(today))
  {
    var key := GetDateString(today.year, today.month - 1, day);
    var prefix := MonthKey(today);
    assert key == prefix + "-" + TwoDigits(day);
    assert key[..|prefix|] == prefix;
  }

  /** The day after d. */
  function NextDay(d: Date): (r: Date)
    requires ValidDate(d)
    ensures ValidDate(r)
  {
    if d.day < MonthLength(d.year, d.month) then Date(d.year, d.month, d.day + 1)
    else if d.month < 12 then Date(d.year, d.month + 1, 1)
    else Date(d.year + 1, 1, 1)
  }

  /** The day before d. */
  function PrevDay(d: Date): (r: Date)
    requires ValidDate(d)
    ensures ValidDate(r)
  {
    if d.day > 1 then Date(d.year, d.month, d.day - 1)
    else if d.month > 1 then Date(d.year, d.month - 1, MonthLength(d.year, d.month - 1))
    else Date(d.year - 1, 12, 31)
  }

  lemma NextAfterPrev(d: Date)
    requires ValidDate(d)
    ensures NextDay(PrevDay(d)) == d
  {
  }

  function YearLength(y: int): int {
    if IsLeapYear(y) then 366 else 365
  }

  /** The number of days from 1 January of year 1 to 1 January of year y. */
  function DaysBeforeYear(y: int): int
    decreases if y >= 1 then y - 1 else 1 - y
  {
    if y == 1 then 0
    else if y > 1 then DaysBeforeYear(y - 1) + YearLength(y - 1)
    else DaysBeforeYear(y + 1) - YearLength(y)
  }

  /** The number of days of year y before the first of month m. */
  function DaysBeforeMonth(y: int, m: int): int
    requires 1 <= m <= 12
  {
    if m == 1 then 0 else DaysBeforeMonth(y, m - 1) + MonthLength(y, m - 1)
  }

  /** The days of a year add up to its length. */
  lemma MonthsFillYear(y: int)
    ensures DaysBeforeMonth(y, 12) + 31 == YearLength(y)
  {
    assert DaysBeforeMonth(y, 2) == 31;
    assert DaysBeforeMonth(y, 3) == 31 + MonthLength(y, 2);
    assert DaysBeforeMonth(y, 4) == DaysBeforeMonth(y, 3) + 31;
    assert DaysBeforeMonth(y, 5) == DaysBeforeMonth(y, 4) + 30;
    assert DaysBeforeMonth(y, 6) == DaysBeforeMonth(y, 5) + 31;
    assert DaysBeforeMonth(y, 7) == DaysBeforeMonth(y, 6) + 30;
    assert DaysBeforeMonth(y, 8) == DaysBeforeMonth(y, 7) + 31;
    assert DaysBeforeMonth(y, 9) == DaysBeforeMonth(y, 8) + 31;
    assert DaysBeforeMonth(y, 10) == DaysBeforeMonth(y, 9) + 30;
    assert DaysBeforeMonth(y, 11) == DaysBeforeMonth(y, 10) + 31;
    assert DaysBeforeMonth(y, 12) == DaysBeforeMonth(y, 11) + 30;
  }

  /** Days counted from 1 January of year 1 (day 0), a Monday. */
  function DayNumber(d: Date): int
    requires 1 <= d.month <= 12
  {
    DaysBeforeYear(d.year) + DaysBeforeMonth(d.year, d.month) + d.day - 1
  }

  lemma NextDayNumber(d: Date)
    requires ValidDate(d)
    ensures DayNumber(NextDay(d)) == DayNumber(d) + 1
  {
    if d.day == MonthLength(d.year, d.month) && d.month == 12 {
      MonthsFillYear(d.year);
      assert DaysBeforeYear(d.year + 1) == DaysBeforeYear(d.year) + YearLength(d.year);
    }
  }

  lemma PrevDayNumber(d: Date)
    requires ValidDate(d)
    ensures DayNumber(PrevDay(d)) == DayNumber(d) - 1
  {
    NextAfterPrev(d);
    NextDayNumber(PrevDay(d));
  }

  /** `getDay()`: 0 for Sunday up to 6 for Saturday. */
  function Weekday(d: Date): (w: int)
    requires 1 <= d.month <= 12
    ensures 0 <= w < 7
  {
    (DayNumber(d) + 1) % 7
  }

  /** The date n days before d. */
  function DaysBefore(d: Date, n: nat): (r: Date)
    requires ValidDate(d)
    ensures ValidDate(r)
  {
    if n == 0 then d else PrevDay(DaysBefore(d, n - 1))
  }

  /** The date n days after d. */
  function DaysAfter(d: Date, n: nat): (r: Date)
    requires ValidDate(d)
    ensures ValidDate(r)
    decreases n
  {
    if n == 0 then d else DaysAfter(NextDay(d), n - 1)
  }

  lemma {:induction false} DaysBeforeNumber(d: Date, n: nat)
    requires ValidDate(d)
    ensures DayNumber(DaysBefore(d, n)) == DayNumber(d) - n
  {
    if n > 0 {
      DaysBeforeNumber(d, n - 1);
      PrevDayNumber(DaysBefore(d, n - 1));
    }
  }

  lemma {:induction false} DaysAfterNumber(d: Date, n: nat)
    requires ValidDate(d)
    ensures DayNumber(DaysAfter(d, n)) == DayNumber(d) + n
    decreases n
  {
    if n > 0 {
      DaysAfterNumber(NextDay(d), n - 1);
      NextDayNumber(d);
    }
  }

  /** Walking n days back and n days forward returns to the same date. */
  lemma {:induction false} DaysAfterBefore(d: Date, n: nat)
    requires ValidDate(d)
    ensures DaysAfter(DaysBefore(d, n), n) == d
  {
    if n > 0 {
      var e := DaysBefore(d, n - 1);
      NextAfterPrev(e);
      assert DaysAfter(PrevDay(e), n) == DaysAfter(e, n - 1);
      DaysAfterBefore(d, n - 1);
    }
  }

  /** `weekStart`: the date `currentDate.getDate() - currentDate.getDay()`, the Sunday on or before today. */
  function WeekStart(today: Date): (r: Date)
    requires ValidDate(today)
    ensures ValidDate(r)
  {
    DaysBefore(today, Weekday(today))
  }

  /** f applied to each of the n days from start on, in order (the `i`-th is `setDate(start.getDate() + i)`). */
  function MapDays<T>(start: Date, n: nat, f: Date -> T): (r: seq<T>)
    requires ValidDate(start)
    ensures |r| == n
  {
    if n == 0 then [] else MapDays(start, n - 1, f) + [f(DaysAfter(start, n - 1))]
  }

  lemma {:induction false} MapDaysAt<T>(start: Date, n: nat, i: nat, f: Date -> T)
    requires ValidDate(start) && i < n
    ensures MapDays(start, n, f)[i] == f(DaysAfter(start, i))
  {
    if i < n - 1 {
      MapDaysAt(start, n - 1, i, f);
    }
  }

  /** The keys of the seven days of today's week, from its Sunday on. */
  function WeekKeys(today: Date): (r: seq<string>)
    requires ValidDate(today)
    ensures |r| == 7
  {
    MapDays(WeekStart(today), 7, DateKey)
  }

  /**
   * The week of today is seven consecutive days that begin on a Sunday; today
   * is the one at position `getDay()`.
   */
  lemma RoundDownToWeek(n: int, w: int)
    requires w == n % 7
    ensures (n - w) % 7 == 0
  {
    assert n - w == 7 * (n / 7);
  }

  /** The week starts on a Sunday. */
  lemma WeekStartIsSunday(today: Date)
    requires ValidDate(today)
    ensures Weekday(WeekStart(today)) == 0
  {
    var w := Weekday(today);
    var n := DayNumber(today) + 1;
    DaysBeforeNumber(today, w);
    assert DayNumber(WeekStart(today)) + 1 == n - w;
    RoundDownToWeek(n, w);
  }

  /** The seven days of the week are consecutive day numbers starting `getDay()` days before today. */
  lemma WeekDayNumbers(today: Date)
    requires ValidDate(today)
    ensures forall i: nat :: i < 7 ==> DayNumber(DaysAfter(WeekStart(today), i)) == DayNumber(today) - Weekday(today) + i
  {
    var start := WeekStart(today);
    DaysBeforeNumber(today, Weekday(today));
    forall i: nat | i < 7
      ensures DayNumber(DaysAfter(start, i)) == DayNumber(start) + i
    {
      DaysAfterNumber(start, i);
    }
  }

  lemma WeekOfToday(today: Date)
    requires ValidDate(today)
    ensures Weekday(WeekStart(today)) == 0
    ensures forall i: nat :: i < 7 ==> DayNumber(DaysAfter(WeekStart(today), i)) == DayNumber(today) - Weekday(today) + i
    ensures DaysAfter(WeekStart(today), Weekday(today)) == today
  {
    WeekStartIsSunday(today);
    WeekDayNumbers(today);
    DaysAfterBefore(today, Weekday(today));
  }

  /** Today's key is among the keys of its week, at position `getDay()`. */
  lemma TodayInWeekKeys(today: Date)
    requires ValidDate(today)
    ensures WeekKeys(today)[Weekday(today)] == DateKey(today)
  {
    DaysAfterBefore(today, Weekday(today));
    MapDaysAt(WeekStart(today), 7, Weekday(today), DateKey);
  }
}
