/** months_before and the recency thresholds, on Gregorian dates. Years are
    unbounded here; Python's are limited to 1..9999. */
module Calendar {

  datatype Date = Date(year: int, month: int, day: int)

  /** A naive datetime: a date and a second of the day. */
  datatype Moment = Moment(date: Date, clock: nat)

  predicate IsLeap(year: int) { year % 4 == 0 && (year % 100 != 0 || year % 400 == 0) }

  /** calendar.monthrange(year, month)[1] */
  function DaysIn(year: int, month: int): int {
    if month == 2 then (if IsLeap(year) then 29 else 28)
    else if month in {4, 6, 9, 11} then 30 else 31
  }

  /** Leap years come every fourth year, but the last year of a century is one only in
      every fourth century. */
  lemma LeapYears(era: int, century: int, year: int)
    requires 0 <= century < 4 && 0 <= year < 100
    ensures IsLeap(400 * era + 100 * century + year) <==> if year == 0 then century == 0 else year % 4 == 0
  {
    hide IsLeap;
    var n := 400 * era + 100 * century + year;
    By4(n, 100 * era + 25 * century + year / 4, year % 4);
    By100(n, 4 * era + century, year);
    By400(n, era, 100 * century + year);
    LeapByRemainders(n);
  }

  lemma LeapByRemainders(n: int)
    ensures IsLeap(n) <==> n % 4 == 0 && (n % 100 != 0 || n % 400 == 0)
  {}

  lemma By4(n: int, q: int, r: int) requires 0 <= r < 4 && n == 4 * q + r ensures n % 4 == r {}
  lemma By100(n: int, q: int, r: int) requires 0 <= r < 100 && n == 100 * q + r ensures n % 100 == r {}
  lemma By400(n: int, q: int, r: int) requires 0 <= r < 400 && n == 400 * q + r ensures n % 400 == r {}

  predicate ValidDate(d: Date) { 1 <= d.month <= 12 && 1 <= d.day <= DaysIn(d.year, d.month) }

  predicate Valid(m: Moment) { ValidDate(m.date) && m.clock < 86400 }

  predicate DateBefore(a: Date, b: Date) {
    a.year < b.year || (a.year == b.year && (a.month < b.month || (a.month == b.month && a.day < b.day)))
  }

  predicate Earlier(a: Moment, b: Moment) { DateBefore(a.date, b.date) || (a.date == b.date && a.clock < b.clock) }

  predicate NotAfter(a: Moment, b: Moment) { !Earlier(b, a) }

  /** Months since the start of year 0. */
  function MonthNumber(d: Date): int { 12 * d.year + d.month - 1 }

  function Clamp(day: int, last: int): int { if day < last then day else last }

  function DateMonthsBefore(d: Date, months: nat): Date {
    var total := MonthNumber(d) - months;
    var year, month := total / 12, total % 12 + 1;
    Date(year, month, Clamp(d.day, DaysIn(year, month)))
  }

  function MonthsBefore(m: Moment, months: nat): Moment { m.(date := DateMonthsBefore(m.date, months)) }

  /** The result is a date exactly `months` calendar months earlier, on the same
      day, or on the last day of a month that is too short. */
  lemma ExactlyMonthsEarlier(d: Date, months: nat)
    requires ValidDate(d)
    ensures var e := DateMonthsBefore(d, months);
      && ValidDate(e) && MonthNumber(e) == MonthNumber(d) - months
      && (e.day == d.day || (e.day < d.day && e.day == DaysIn(e.year, e.month)))
      && (e == d <==> months == 0) && (months > 0 ==> DateBefore(e, d))
  {
    hide IsLeap;
    if months == 0 { assert MonthNumber(d) / 12 == d.year && MonthNumber(d) % 12 == d.month - 1; }
    MonthNumberOrders(DateMonthsBefore(d, months), d);
  }

  lemma MonthNumberOrders(a: Date, b: Date)
    requires 1 <= a.month <= 12 && 1 <= b.month <= 12
    ensures MonthNumber(a) < MonthNumber(b) ==> DateBefore(a, b)
    ensures MonthNumber(a) == MonthNumber(b) <==> a.year == b.year && a.month == b.month
  {}

  /** A later date never has an earlier counterpart. */
  lemma MonotoneOnDates(a: Date, b: Date, months: nat)
    requires ValidDate(a) && ValidDate(b) && !DateBefore(b, a)
    ensures !DateBefore(DateMonthsBefore(b, months), DateMonthsBefore(a, months))
  {
    hide IsLeap;
    var x, y := DateMonthsBefore(a, months), DateMonthsBefore(b, months);
    MonthNumberOrders(b, a);
    ExactlyMonthsEarlier(a, months);
    ExactlyMonthsEarlier(b, months);
    MonthNumberOrders(x, y);
  }

  /** Going further back is strictly earlier. */
  lemma StrictlyDecreasing(m: Moment, few: nat, many: nat)
    requires Valid(m) && few < many
    ensures Earlier(MonthsBefore(m, many), MonthsBefore(m, few))
  {
    ExactlyMonthsEarlier(m.date, few);
    ExactlyMonthsEarlier(m.date, many);
    MonthNumberOrders(DateMonthsBefore(m.date, many), DateMonthsBefore(m.date, few));
  }

  /** Both days are cut to the same last day although the later one has the
      earlier time of day. */
  predicate ClampedTogether(a: Moment, b: Moment, months: nat) {
    var last := DaysIn((MonthNumber(a.date) - months) / 12, (MonthNumber(a.date) - months) % 12 + 1);
    && a.date.year == b.date.year && a.date.month == b.date.month
    && last <= a.date.day < b.date.day && b.clock < a.clock
  }

  /** On datetimes the order survives exactly when no such cut happens. */
  lemma MonotoneUnlessClamped(a: Moment, b: Moment, months: nat)
    requires Valid(a) && Valid(b) && NotAfter(a, b)
    ensures NotAfter(MonthsBefore(a, months), MonthsBefore(b, months)) <==> !ClampedTogether(a, b, months)
  {
    hide DaysIn;
    MonotoneOnDates(a.date, b.date, months);
    ExactlyMonthsEarlier(a.date, months);
    ExactlyMonthsEarlier(b.date, months);
    MonthNumberOrders(a.date, b.date);
    MonthNumberOrders(DateMonthsBefore(a.date, months), DateMonthsBefore(b.date, months));
  }

  /** 30 March 2024, 10:00, and 31 March 2024, 09:00: one month earlier both fall on
      29 February, in the opposite order. */
  lemma NotMonotoneOnDatetimes()
    ensures exists a, b ::
      Valid(a) && Valid(b) && Earlier(a, b) && Earlier(MonthsBefore(b, 1), MonthsBefore(a, 1))
  {
    var a, b := Moment(Date(2024, 3, 30), 36000), Moment(Date(2024, 3, 31), 32400);
    assert Earlier(a, b) && Earlier(MonthsBefore(b, 1), MonthsBefore(a, 1));
  }

  // ----- recency

  function RecencyScore(last: Moment, now: Moment): real {
    if NotAfter(MonthsBefore(now, 6), last) then 100.0
    else if NotAfter(MonthsBefore(now, 12), last) then 80.0
    else if NotAfter(MonthsBefore(now, 24), last) then 60.0
    else 40.0
  }

  lemma OrderIsTotal(a: Moment, b: Moment, c: Moment)
    ensures Earlier(a, b) || a == b || Earlier(b, a)
    ensures !(Earlier(a, b) && Earlier(b, a))
    ensures NotAfter(a, b) && NotAfter(b, c) ==> NotAfter(a, c)
  {}

  /** The windows nest, so the score says exactly which window the purchase is in. */
  lemma ScoreIsWindow(last: Moment, now: Moment)
    requires Valid(now)
    ensures RecencyScore(last, now) >= 100.0 <==> NotAfter(MonthsBefore(now, 6), last)
    ensures RecencyScore(last, now) >= 80.0 <==> NotAfter(MonthsBefore(now, 12), last)
    ensures RecencyScore(last, now) >= 60.0 <==> NotAfter(MonthsBefore(now, 24), last)
  {
    hide MonthsBefore;
    var m6, m12, m24 := MonthsBefore(now, 6), MonthsBefore(now, 12), MonthsBefore(now, 24);
    StrictlyDecreasing(now, 6, 12);
    StrictlyDecreasing(now, 12, 24);
    OrderIsTotal(m12, m6, last);
    OrderIsTotal(m24, m12, last);
  }

  /** A more recent purchase never scores less. */
  lemma RecencyIsMonotone(earlier: Moment, later: Moment, now: Moment)
    requires Valid(now) && NotAfter(earlier, later)
    ensures RecencyScore(earlier, now) <= RecencyScore(later, now)
  {
    hide MonthsBefore;
    OrderIsTotal(MonthsBefore(now, 6), earlier, later);
    OrderIsTotal(MonthsBefore(now, 12), earlier, later);
    OrderIsTotal(MonthsBefore(now, 24), earlier, later);
  }
}
