/**
 * The calendar facts the dashboard relies on: a local date-time as year,
 * month, day and second of the day, its order, the "same day" and "same
 * month" tests, and stepping one day or one month forward or back. Stepping
 * by a month keeps the day of the month where the target month has it and
 * otherwise moves to that month's last day (January 31 + 1 month is the last
 * day of February), and keeps the time of day.
 */
module Calendar {

  datatype DateTime = DateTime(year: int, month: int, day: int, second: int)

  datatype Unit = Days | Months

  datatype Direction = Backward | Forward

  predicate IsLeapYear(y: int) {
    y % 4 == 0 && (y % 100 != 0 || y % 400 == 0)
  }

  function DaysInMonth(y: int, m: int): (n: int)
    requires 1 <= m <= 12
    ensures 28 <= n <= 31
    ensures n == 28 <==> m == 2 && !IsLeapYear(y)
  {
    if m == 2 then (if IsLeapYear(y) then 29 else 28)
    else if m == 4 || m == 6 || m == 9 || m == 11 then 30
    else 31
  }

  /** A real calendar instant: the month exists, the day exists in it, the second lies in the day. */
  predicate Valid(d: DateTime) {
    1 <= d.month <= 12 && 1 <= d.day <= DaysInMonth(d.year, d.month) && 0 <= d.second < 86400
  }

  /** Calendar day of `a` strictly earlier than calendar day of `b`. */
  predicate DayBefore(a: DateTime, b: DateTime) {
    a.year < b.year
    || (a.year == b.year && (a.month < b.month || (a.month == b.month && a.day < b.day)))
  }

  /** `a < b` on instants. */
  predicate Before(a: DateTime, b: DateTime) {
    DayBefore(a, b) || (SameDay(a, b) && a.second < b.second)
  }

  /** `a <= b` on instants. */
  predicate NotAfter(a: DateTime, b: DateTime) {
    a == b || Before(a, b)
  }

  predicate SameDay(a: DateTime, b: DateTime) {
    a.year == b.year && a.month == b.month && a.day == b.day
  }

  predicate SameMonth(a: DateTime, b: DateTime) {
    a.year == b.year && a.month == b.month
  }

  lemma NotAfterTransitive(a: DateTime, b: DateTime, c: DateTime)
    requires NotAfter(a, b) && NotAfter(b, c)
    ensures NotAfter(a, c)
  {
  }

  /** The next calendar day, at the same time of day. */
  function NextDay(d: DateTime): (r: DateTime)
    requires Valid(d)
    ensures Valid(r) && r.second == d.second && DayBefore(d, r)
  {
    if d.day < DaysInMonth(d.year, d.month) then d.(day := d.day + 1)
    else if d.month < 12 then d.(month := d.month + 1, day := 1)
    else d.(year := d.year + 1, month := 1, day := 1)
  }

  /** The previous calendar day, at the same time of day. */
  function PreviousDay(d: DateTime): (r: DateTime)
    requires Valid(d)
    ensures Valid(r) && r.second == d.second && DayBefore(r, d)
  {
    if d.day > 1 then d.(day := d.day - 1)
    else if d.month > 1 then d.(month := d.month - 1, day := DaysInMonth(d.year, d.month - 1))
    else d.(year := d.year - 1, month := 12, day := 31)
  }

  function Min(a: int, b: int): int {
    if a <= b then a else b
  }

  /**
   * The same day of the next month, at the same time of day; a day the next
   * month does not have is clamped to its last day.
   */
  function NextMonth(d: DateTime): (r: DateTime)
    requires Valid(d)
    ensures Valid(r) && r.second == d.second && DayBefore(d, r) && !SameMonth(d, r)
    ensures r.year * 12 + r.month == d.year * 12 + d.month + 1
    ensures r.day == d.day || r.day == DaysInMonth(r.year, r.month) < d.day
    ensures r.day <= d.day && (d.day <= 28 ==> r.day == d.day)
  {
    var (y, m) := if d.month < 12 then (d.year, d.month + 1) else (d.year + 1, 1);
    d.(year := y, month := m, day := Min(d.day, DaysInMonth(y, m)))
  }

  /** As `NextMonth`, one month back. */
  function PreviousMonth(d: DateTime): (r: DateTime)
    requires Valid(d)
    ensures Valid(r) && r.second == d.second && DayBefore(r, d) && !SameMonth(d, r)
    ensures r.year * 12 + r.month == d.year * 12 + d.month - 1
    ensures r.day == d.day || r.day == DaysInMonth(r.year, r.month) < d.day
    ensures r.day <= d.day && (d.day <= 28 ==> r.day == d.day)
  {
    var (y, m) := if d.month > 1 then (d.year, d.month - 1) else (d.year - 1, 12);
    d.(year := y, month := m, day := Min(d.day, DaysInMonth(y, m)))
  }

  /** A day forward and a day back cancel out, in either order. */
  lemma DaysInverse(d: DateTime)
    requires Valid(d)
    ensures PreviousDay(NextDay(d)) == d
    ensures NextDay(PreviousDay(d)) == d
  {
  }

  /** A month forward and a month back cancel out on a day every month has. */
  lemma MonthsInverse(d: DateTime)
    requires Valid(d) && d.day <= 28
    ensures PreviousMonth(NextMonth(d)) == d
    ensures NextMonth(PreviousMonth(d)) == d
  {
  }

  /**
   * `Calendar.date(byAdding: unit, value: +1 or -1, to: d)`. The result is a
   * real instant, lies strictly on the requested side of `d`, keeps the time
   * of day, and falls on a different calendar day (a different month when
   * stepping by months).
   */
  function Step(d: DateTime, unit: Unit, dir: Direction): (r: DateTime)
    requires Valid(d)
    ensures Valid(r) && r.second == d.second
    ensures dir == Forward ==> DayBefore(d, r) && Before(d, r)
    ensures dir == Backward ==> DayBefore(r, d) && Before(r, d)
    ensures unit == Months ==> !SameMonth(d, r)
  {
    match (unit, dir)
    case (Days, Forward) => NextDay(d)
    case (Days, Backward) => PreviousDay(d)
    case (Months, Forward) => NextMonth(d)
    case (Months, Backward) => PreviousMonth(d)
  }

  /**
   * An instant one step after `d` can be no later than `now` only when `d`
   * lies on an earlier day (an earlier month, stepping by months) than `now`.
   */
  lemma StepForwardLeavesPeriod(d: DateTime, unit: Unit, now: DateTime)
    requires Valid(d)
    requires NotAfter(Step(d, unit, Forward), now)
    ensures DayBefore(d, now)
    ensures unit == Days ==> !SameDay(d, now)
    ensures unit == Months ==> !SameMonth(d, now)
  {
    var r := Step(d, unit, Forward);
    if unit == Months {
      assert d.year < r.year || (d.year == r.year && d.month < r.month);
    }
  }
}
