/**
 * Local calendar dates with a time of day, as the date filters use JavaScript
 * `Date` objects: `setHours`, `setDate(getDate() - n)` (which rolls back over
 * month and year ends) and `new Date(y, m, d)`. Time zones and daylight saving
 * are not modelled: every day has 86 400 000 ms.
 */
module Calendar {
  const MsPerDay: int := 86400000

  predicate IsLeap(y: int) {
    y % 4 == 0 && (y % 100 != 0 || y % 400 == 0)
  }

  /** The number of days in month `m` (1 = January) of year `y`. */
  function DaysInMonth(y: int, m: int): (n: int)
    requires 1 <= m <= 12
    ensures 28 <= n <= 31
  {
    if m == 2 then (if IsLeap(y) then 29 else 28)
    else if m == 4 || m == 6 || m == 9 || m == 11 then 30
    else 31
  }

  /** The days of year `y` before the first of month `m`. */
  function DaysBeforeMonth(y: int, m: int): int
    requires 1 <= m <= 13
  {
    if m == 1 then 0 else DaysBeforeMonth(y, m - 1) + DaysInMonth(y, m - 1)
  }

  function YearLength(y: int): int {
    DaysBeforeMonth(y, 13)
  }

  /** The days from 1 January of year 1 to 1 January of year `y` (negative before year 1). */
  function DaysBeforeYear(y: int): int
    decreases if y > 1 then y else 1 - y
  {
    if y == 1 then 0
    else if y > 1 then DaysBeforeYear(y - 1) + YearLength(y - 1)
    else DaysBeforeYear(y + 1) - YearLength(y)
  }

  lemma DaysBeforeNextYear(y: int)
    ensures DaysBeforeYear(y + 1) == DaysBeforeYear(y) + YearLength(y)
  {
  }

  /** A calendar date and a time of day in milliseconds. */
  datatype DateTime = DateTime(year: int, month: int, day: int, ms: int) {
    predicate Valid() {
      1 <= month <= 12 && 1 <= day <= DaysInMonth(year, month) && 0 <= ms < MsPerDay
    }
  }

  /** The number of the date's day, counting from 1 January of year 1. */
  function DayNumber(d: DateTime): int
    requires 1 <= d.month <= 12
  {
    DaysBeforeYear(d.year) + DaysBeforeMonth(d.year, d.month) + d.day - 1
  }

  /** The moment as a count of milliseconds. */
  function Instant(d: DateTime): int
    requires 1 <= d.month <= 12
  {
    DayNumber(d) * MsPerDay + d.ms
  }

  /** On the same day, the earlier time of day is the earlier moment; otherwise the earlier day is. */
  lemma InstantOrder(a: DateTime, b: DateTime)
    requires a.Valid() && b.Valid()
    ensures DayNumber(a) < DayNumber(b) ==> Instant(a) < Instant(b)
    ensures DayNumber(a) == DayNumber(b) ==> (Instant(a) <= Instant(b) <==> a.ms <= b.ms)
  {
    if DayNumber(a) < DayNumber(b) {
      assert DayNumber(a) * MsPerDay + MsPerDay <= DayNumber(b) * MsPerDay;
    }
  }

  /** `setHours(h, m, s, ms)`: the same day at another time. */
  function AtTime(d: DateTime, ms: int): (r: DateTime)
    requires d.Valid() && 0 <= ms < MsPerDay
    ensures r.Valid() && DayNumber(r) == DayNumber(d) && r.ms == ms
  {
    d.(ms := ms)
  }

  /** `setHours(0, 0, 0, 0)`. */
  function StartOfDay(d: DateTime): (r: DateTime)
    requires d.Valid()
    ensures r.Valid() && DayNumber(r) == DayNumber(d) && r.ms == 0
  {
    AtTime(d, 0)
  }

  /** `setHours(23, 59, 59, 999)`. */
  function EndOfDay(d: DateTime): (r: DateTime)
    requires d.Valid()
    ensures r.Valid() && DayNumber(r) == DayNumber(d) && r.ms == MsPerDay - 1
  {
    AtTime(d, ((23 * 60 + 59) * 60 + 59) * 1000 + 999)
  }

  /** `setDate(getDate() - 1)`: the previous day at the same time. */
  function PrevDay(d: DateTime): (r: DateTime)
    requires d.Valid()
    ensures r.Valid() && r.ms == d.ms
    ensures DayNumber(r) == DayNumber(d) - 1
  {
    if d.day > 1 then d.(day := d.day - 1)
    else if d.month > 1 then d.(month := d.month - 1, day := DaysInMonth(d.year, d.month - 1))
    else
      DaysBeforeNextYear(d.year - 1);
      DateTime(d.year - 1, 12, 31, d.ms)
  }

  /** `setDate(getDate() - n)`: `n` days earlier at the same time. */
  function MinusDays(d: DateTime, n: nat): (r: DateTime)
    requires d.Valid()
    ensures r.Valid() && r.ms == d.ms
    ensures DayNumber(r) == DayNumber(d) - n
  {
    if n == 0 then d else PrevDay(MinusDays(d, n - 1))
  }

  /** `new Date(y, m, 1)`: the first of the date's month at midnight. */
  function FirstOfMonth(d: DateTime): (r: DateTime)
    requires d.Valid()
    ensures r.Valid() && r.year == d.year && r.month == d.month && r.day == 1 && r.ms == 0
  {
    DateTime(d.year, d.month, 1, 0)
  }

  /** `new Date(y, m + 1, 0)`: the last day of the date's month at midnight. */
  function LastOfMonth(d: DateTime): (r: DateTime)
    requires d.Valid()
    ensures r.Valid() && r.year == d.year && r.month == d.month && r.ms == 0
    ensures DayNumber(r) >= DayNumber(d)
    ensures r.day == DaysInMonth(d.year, d.month)
  {
    DateTime(d.year, d.month, DaysInMonth(d.year, d.month), 0)
  }

  /** The day after the last of the month is the first of another month. */
  lemma LastOfMonthIsLast(d: DateTime)
    requires d.Valid()
    ensures !DateTime(d.year, d.month, LastOfMonth(d).day + 1, 0).Valid()
  {
  }
}
