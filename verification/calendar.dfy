/** Proleptic Gregorian dates written as `YYYYMMDD`, and their day numbers.

    `IsValidDate` is what `datetime.strptime(s, '%Y%m%d')` accepts on an eight-digit
    string. `Ordinal` is `date.toordinal()` (1 January of year 1 is day 1), and
    `Weekday` is `date.weekday()` (Monday is 0, Thursday is 3).
 */
module Calendar {
  import opened Decimal

  datatype Date = Date(year: nat, month: nat, day: nat)

  predicate IsLeapYear(y: int) {
    y % 4 == 0 && (y % 100 != 0 || y % 400 == 0)
  }

  function DaysInMonth(y: int, m: int): (n: nat)
    requires 1 <= m <= 12
    ensures 28 <= n <= 31
  {
    if m == 2 then (if IsLeapYear(y) then 29 else 28)
    else if m == 4 || m == 6 || m == 9 || m == 11 then 30
    else 31
  }

  /** Python's `datetime` accepts years 1 to 9999 (`MINYEAR`, `MAXYEAR`). */
  predicate ValidDate(d: Date) {
    1 <= d.year <= 9999 && 1 <= d.month <= 12 && 1 <= d.day <= DaysInMonth(d.year, d.month)
  }

  /** The three numeric fields of an eight-digit string. */
  function Fields(s: string): Date
    requires |s| == 8 && AllDigits(s)
  {
    Date(ParseNat(s[..4]), ParseNat(s[4..6]), ParseNat(s[6..]))
  }

  /** `s` is an eight-digit `YYYYMMDD` naming a real calendar day. */
  predicate IsValidDate(s: string) {
    |s| == 8 && AllDigits(s) && ValidDate(Fields(s))
  }

  /** `strftime('%Y%m%d')`. */
  function FormatDate(d: Date): (s: string)
    requires ValidDate(d)
    ensures |s| == 8 && AllDigits(s)
  {
    Pad(d.year, 4) + Pad(d.month, 2) + Pad(d.day, 2)
  }

  /** The accepted strings are exactly the renderings of valid dates: formatting a
      valid date gives an accepted string that reads back as the same date, and every
      accepted string is the rendering of the date it reads as. */
  lemma DateTextRoundTrip(d: Date, s: string)
    ensures ValidDate(d) ==> IsValidDate(FormatDate(d)) && Fields(FormatDate(d)) == d
    ensures IsValidDate(s) ==> FormatDate(Fields(s)) == s
  {
    if ValidDate(d) {
      FormatThenRead(d);
    }
    if IsValidDate(s) {
      ReadThenFormat(s);
    }
  }

  lemma FormatThenRead(d: Date)
    requires ValidDate(d)
    ensures IsValidDate(FormatDate(d)) && Fields(FormatDate(d)) == d
  {
    var t := FormatDate(d);
    assert t[..4] == Pad(d.year, 4);
    assert t[4..6] == Pad(d.month, 2);
    assert t[6..] == Pad(d.day, 2);
    PadRoundTrip(d.year, 4);
    PadRoundTrip(d.month, 2);
    PadRoundTrip(d.day, 2);
  }

  lemma ReadThenFormat(s: string)
    requires IsValidDate(s)
    ensures FormatDate(Fields(s)) == s
  {
    ParsePadRoundTrip(s[..4]);
    ParsePadRoundTrip(s[4..6]);
    ParsePadRoundTrip(s[6..]);
    assert s == s[..4] + s[4..6] + s[6..];
  }

  /** Days in the years before year `y`, as `datetime._days_before_year`. */
  function DaysBeforeYear(y: nat): nat
    requires y >= 1
  {
    var p := y - 1;
    365 * p + p / 4 - p / 100 + p / 400
  }

  /** Days in the months of year `y` before month `m`. */
  function DaysBeforeMonth(y: nat, m: nat): nat
    requires 1 <= m <= 12
  {
    if m == 1 then 0 else DaysBeforeMonth(y, m - 1) + DaysInMonth(y, m - 1)
  }

  /** `date.toordinal()`. */
  function Ordinal(d: Date): (o: int)
    requires ValidDate(d)
    ensures o >= 1
    ensures d == Date(1, 1, 1) ==> o == 1
  {
    DaysBeforeYear(d.year) + DaysBeforeMonth(d.year, d.month) + d.day
  }

  /** The calendar day after a valid date, as `date + timedelta(days=1)` gives it
      (past 31 December 9999 it is not a valid date). */
  function NextDay(d: Date): Date
    requires ValidDate(d)
  {
    if d.day < DaysInMonth(d.year, d.month) then Date(d.year, d.month, d.day + 1)
    else if d.month < 12 then Date(d.year, d.month + 1, 1)
    else Date(d.year + 1, 1, 1)
  }

  /** Ordinals count days: the day after a date, when it exists, has the next
      ordinal, across month and year ends and leap days alike. */
  lemma OrdinalSuccessor(d: Date)
    requires ValidDate(d) && ValidDate(NextDay(d))
    ensures Ordinal(NextDay(d)) == Ordinal(d) + 1
  {
    if d.day == DaysInMonth(d.year, d.month) && d.month == 12 {
      YearLength(d.year);
      MonthsFillYear(d.year);
    }
  }

  /** A year has 366 days when it is a leap year and 365 otherwise. */
  lemma YearLength(y: nat)
    requires y >= 1
    ensures DaysBeforeYear(y + 1) == DaysBeforeYear(y) + if IsLeapYear(y) then 366 else 365
  {
    var p := y - 1;
    assert (p + 1) / 4 == p / 4 + (if y % 4 == 0 then 1 else 0);
    assert (p + 1) / 100 == p / 100 + (if y % 100 == 0 then 1 else 0);
    assert (p + 1) / 400 == p / 400 + (if y % 400 == 0 then 1 else 0);
  }

  /** The twelve months before 31 December leave that day as the year's last. */
  lemma MonthsFillYear(y: nat)
    ensures DaysBeforeMonth(y, 12) + 31 == if IsLeapYear(y) then 366 else 365
  {
    var feb := DaysInMonth(y, 2);
    assert DaysBeforeMonth(y, 1) == 0;
    assert DaysBeforeMonth(y, 2) == 31;
    assert DaysBeforeMonth(y, 3) == 31 + feb;
    assert DaysBeforeMonth(y, 4) == 62 + feb;
    assert DaysBeforeMonth(y, 5) == 92 + feb;
    assert DaysBeforeMonth(y, 6) == 123 + feb;
    assert DaysBeforeMonth(y, 7) == 153 + feb;
    assert DaysBeforeMonth(y, 8) == 184 + feb;
    assert DaysBeforeMonth(y, 9) == 215 + feb;
    assert DaysBeforeMonth(y, 10) == 245 + feb;
    assert DaysBeforeMonth(y, 11) == 276 + feb;
    assert DaysBeforeMonth(y, 12) == 306 + feb;
  }

  /** `date.weekday()` of the day with the given ordinal: day 1 was a Monday. */
  function Weekday(ordinal: int): (w: int)
    ensures 0 <= w < 7
  {
    (ordinal + 6) % 7
  }

  const Thursday: int := 3

  /** The weekday advances by one, modulo a week, with each day. */
  lemma WeekdayAdvances(ordinal: int, k: nat)
    requires k < 7 - Weekday(ordinal)
    ensures Weekday(ordinal + k) == Weekday(ordinal) + k
  {
  }
}
