/**
 * Timezone-less calendar dates in the proleptic Gregorian calendar, with the
 * arithmetic of java.time.LocalDate that the scheduler relies on: plusDays,
 * plusWeeks, plusMonths and plusYears (the last two clamp the day of month to
 * the length of the target month, so Jan 31 + 1 month is Feb 28 or Feb 29 and
 * Feb 29 + 1 year is Feb 28).
 */
module Dates {

  datatype CalDate = CalDate(year: int, month: int, day: int)

  /** Gregorian leap years, as java.time.chrono.IsoChronology.isLeapYear. */
  predicate IsLeapYear(y: int) {
    y % 4 == 0 && (y % 100 != 0 || y % 400 == 0)
  }

  function DaysInMonth(y: int, m: int): (n: int)
    requires 1 <= m <= 12
    ensures 28 <= n <= 31
    ensures n == 29 <==> m == 2 && IsLeapYear(y)
  {
    if m == 2 then (if IsLeapYear(y) then 29 else 28)
    else if m == 4 || m == 6 || m == 9 || m == 11 then 30
    else 31
  }

  predicate ValidDate(d: CalDate) {
    1 <= d.month <= 12 && 1 <= d.day <= DaysInMonth(d.year, d.month)
  }

  type Date = d: CalDate | ValidDate(d) witness CalDate(1970, 1, 1)

  function Min(a: int, b: int): int { if a <= b then a else b }

  /**
   * A key that orders dates the way LocalDate.compareTo does. It is not a day
   * count: it only has to be monotone and injective, which it is because
   * month*31 + day ranges over [32, 403], a span shorter than 372.
   */
  function Ordinal(d: CalDate): int {
    d.year * 372 + d.month * 31 + d.day
  }

  /** a.isBefore(b) */
  predicate Before(a: Date, b: Date) { Ordinal(a) < Ordinal(b) }

  /** !a.isAfter(b) */
  predicate OnOrBefore(a: Date, b: Date) { Ordinal(a) <= Ordinal(b) }

  lemma OrdinalInjective(a: Date, b: Date)
    ensures Ordinal(a) == Ordinal(b) <==> a == b
  {
    if a.year < b.year {
      assert Ordinal(a) <= a.year * 372 + 403 < (a.year + 1) * 372 + 32 <= Ordinal(b);
    } else if b.year < a.year {
      assert Ordinal(b) <= b.year * 372 + 403 < (b.year + 1) * 372 + 32 <= Ordinal(a);
    }
  }

  /** Lexicographic comparison of (year, month, day) is the order Ordinal induces. */
  lemma OrdinalIsLexicographic(a: Date, b: Date)
    ensures Before(a, b) <==>
      a.year < b.year
      || (a.year == b.year && a.month < b.month)
      || (a.year == b.year && a.month == b.month && a.day < b.day)
  {
    if a.year < b.year {
      assert Ordinal(a) <= a.year * 372 + 403 < (a.year + 1) * 372 + 32 <= Ordinal(b);
    } else if b.year < a.year {
      assert Ordinal(b) <= b.year * 372 + 403 < (b.year + 1) * 372 + 32 <= Ordinal(a);
    }
  }

  /** date.plusDays(1) */
  function NextDay(d: Date): (r: Date)
    ensures Before(d, r)
  {
    if d.day < DaysInMonth(d.year, d.month) then CalDate(d.year, d.month, d.day + 1)
    else if d.month < 12 then CalDate(d.year, d.month + 1, 1)
    else CalDate(d.year + 1, 1, 1)
  }

  /** date.minusDays(1) */
  function PrevDay(d: Date): (r: Date)
    ensures Before(r, d)
  {
    if d.day > 1 then CalDate(d.year, d.month, d.day - 1)
    else if d.month > 1 then CalDate(d.year, d.month - 1, DaysInMonth(d.year, d.month - 1))
    else CalDate(d.year - 1, 12, 31)
  }

  /** No date lies strictly between d.minusDays(1) and d: "on or before yesterday" is "before today". */
  lemma PrevDayIsLatestBefore(d: Date, x: Date)
    ensures OnOrBefore(x, PrevDay(d)) <==> Before(x, d)
  {
    OrdinalIsLexicographic(x, d);
    OrdinalIsLexicographic(PrevDay(d), x);
    OrdinalInjective(x, PrevDay(d));
  }

  lemma NextDayOfPrevDay(d: Date)
    ensures NextDay(PrevDay(d)) == d
  {
  }

  lemma PrevDayOfNextDay(d: Date)
    ensures PrevDay(NextDay(d)) == d
  {
  }

  /** date.plusDays(n); a negative n goes back in time, as LocalDate does. */
  function PlusDays(d: Date, n: int): Date
    decreases if n < 0 then -n else n
  {
    if n == 0 then d
    else if n > 0 then PlusDays(NextDay(d), n - 1)
    else PlusDays(PrevDay(d), n + 1)
  }

  /** date.plusWeeks(n) */
  function PlusWeeks(d: Date, n: int): Date {
    PlusDays(d, 7 * n)
  }

  lemma {:induction false} PlusDaysForward(d: Date, n: int)
    requires n > 0
    ensures Before(d, PlusDays(d, n))
    decreases n
  {
    if n > 1 {
      PlusDaysForward(NextDay(d), n - 1);
    }
  }

  lemma {:induction false} PlusDaysBackward(d: Date, n: int)
    requires n < 0
    ensures Before(PlusDays(d, n), d)
    decreases -n
  {
    if n < -1 {
      PlusDaysBackward(PrevDay(d), n + 1);
    }
  }

  /** date.plusMonths(n): move the month, keep the day unless the target month is shorter. */
  function PlusMonths(d: Date, n: int): (r: Date)
    ensures r.day == Min(d.day, DaysInMonth(r.year, r.month))
    ensures r.year * 12 + r.month == d.year * 12 + d.month + n
  {
    var total := d.year * 12 + (d.month - 1) + n;
    var y := total / 12;
    var m := total % 12 + 1;
    CalDate(y, m, Min(d.day, DaysInMonth(y, m)))
  }

  /** date.plusYears(n): Feb 29 becomes Feb 28 when the target year is not a leap year. */
  function PlusYears(d: Date, n: int): (r: Date)
    ensures r.year == d.year + n && r.month == d.month
    ensures r.day == Min(d.day, DaysInMonth(r.year, r.month))
  {
    CalDate(d.year + n, d.month, Min(d.day, DaysInMonth(d.year + n, d.month)))
  }

  lemma PlusMonthsForward(d: Date, n: int)
    requires n > 0
    ensures Before(d, PlusMonths(d, n))
  {
    var r := PlusMonths(d, n);
    assert r.year * 12 + r.month > d.year * 12 + d.month;
    if r.year == d.year {
      assert r.month > d.month;
    } else {
      assert r.year > d.year;
    }
    OrdinalIsLexicographic(d, r);
  }

  lemma PlusYearsForward(d: Date, n: int)
    requires n > 0
    ensures Before(d, PlusYears(d, n))
  {
    OrdinalIsLexicographic(d, PlusYears(d, n));
  }

  /** today.withDayOfMonth(1) */
  function FirstOfMonth(d: Date): (r: Date)
    ensures r.year == d.year && r.month == d.month && OnOrBefore(r, d)
  {
    CalDate(d.year, d.month, 1)
  }

  /** today.withDayOfMonth(today.lengthOfMonth()) */
  function LastOfMonth(d: Date): (r: Date)
    ensures r.year == d.year && r.month == d.month && OnOrBefore(d, r)
  {
    CalDate(d.year, d.month, DaysInMonth(d.year, d.month))
  }
}
