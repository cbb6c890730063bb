/**
 * Local calendar dates as JavaScript's `Date` treats them: a civil date and a
 * time of day, with `getTime()` as a millisecond count since 1970-01-01 00:00.
 * Local time is taken as one uniform timeline (no time zone, no daylight saving).
 *
 * `new Date(y, m, d)` and `setDate`/`setMonth` normalise out-of-range months and
 * days the way the ECMAScript MakeDay operation does: the month index
 * `12 * y + m` is split with floor division, and the day is an offset from the
 * first of that month (day 0 is the last day of the previous month).
 */
module Calendar {

  const MsPerDay: int := 86400000

  /** The time of day `setHours(23, 59, 59, 999)` sets. */
  const EndOfDayMs: int := 23 * 3600000 + 59 * 60000 + 59 * 1000 + 999

  predicate IsLeapYear(y: int) {
    y % 4 == 0 && (y % 100 != 0 || y % 400 == 0)
  }

  function DaysInMonth(y: int, m: int): (n: int)
    requires 0 <= m < 12
    ensures 28 <= n <= 31
    ensures n == 29 <==> m == 1 && IsLeapYear(y)
  {
    if m == 1 then (if IsLeapYear(y) then 29 else 28)
    else if m == 3 || m == 5 || m == 8 || m == 10 then 30
    else 31
  }

  /** The month index of January 1970. */
  const EpochMonth: int := 12 * 1970

  function MonthLength(k: int): (n: int)
    ensures 28 <= n <= 31
  {
    DaysInMonth(k / 12, k % 12)
  }

  /** The first day of the month with index `k = 12 * year + month`, as a day count
      since 1970-01-01: the lengths of the months in between, counted from January
      1970 forwards or backwards. */
  function MonthStart(k: int): int
    decreases if k >= EpochMonth then k - EpochMonth else EpochMonth - k
  {
    if k == EpochMonth then 0
    else if k > EpochMonth then MonthStart(k - 1) + MonthLength(k - 1)
    else MonthStart(k + 1) - MonthLength(k)
  }

  /** Consecutive month indices are one month length apart. */
  lemma MonthStartStep(k: int)
    ensures MonthStart(k + 1) == MonthStart(k) + MonthLength(k)
  {
  }

  /** A function that never decreases from one integer to the next never decreases. */
  lemma {:induction false} StepsMonotone(f: int -> int, j: int, k: int)
    requires forall i :: f(i) <= f(i + 1)
    requires j <= k
    ensures f(j) <= f(k)
    decreases k - j
  {
    if j < k {
      StepsMonotone(f, j + 1, k);
    }
  }

  /** A later month starts after the whole of an earlier one. */
  lemma MonthStartMonotone(j: int, k: int)
    requires j < k
    ensures MonthStart(j) + MonthLength(j) <= MonthStart(k)
  {
    forall i ensures MonthStart(i) <= MonthStart(i + 1) {
      MonthStartStep(i);
    }
    StepsMonotone(MonthStart, j + 1, k);
    MonthStartStep(j);
  }

  lemma MonthStartOrder(j: int, k: int)
    ensures j <= k <==> MonthStart(j) <= MonthStart(k)
  {
    if j < k {
      MonthStartMonotone(j, k);
    } else if k < j {
      MonthStartMonotone(k, j);
    }
  }

  datatype DateTime = DateTime(year: int, month: int, day: int, ms: int)
  {
    predicate Valid() {
      0 <= month < 12 && 1 <= day <= DaysInMonth(year, month) && 0 <= ms < MsPerDay
    }
  }

  /** A calendar-valid local date and time of day, as every `Date` object holds. */
  type Date = d: DateTime | d.Valid() witness DateTime(1970, 0, 1, 0)

  /** `12 * getFullYear() + getMonth()`. */
  function MonthIndex(d: DateTime): int {
    12 * d.year + d.month
  }

  /** Days since 1970-01-01 of the calendar day of d. */
  function DayNumber(d: DateTime): int
    requires 0 <= d.month < 12
  {
    MonthStart(MonthIndex(d)) + d.day - 1
  }

  /** `getTime()`. */
  function Time(d: DateTime): int
    requires 0 <= d.month < 12
  {
    DayNumber(d) * 86400000 + d.ms
  }

  lemma MonthIndexParts(d: Date)
    ensures MonthIndex(d) / 12 == d.year && MonthIndex(d) % 12 == d.month
    ensures MonthLength(MonthIndex(d)) == DaysInMonth(d.year, d.month)
  {
  }

  /** A date lies inside its own month. */
  lemma TimeWithinMonth(d: Date)
    ensures MonthStart(MonthIndex(d)) * 86400000 <= Time(d)
    ensures Time(d) < MonthStart(MonthIndex(d) + 1) * 86400000
  {
    MonthIndexParts(d);
    MonthStartStep(MonthIndex(d));
  }

  /** Comparing `getTime()` of two dates orders their months the same way. */
  lemma MonthIndexMonotone(a: Date, b: Date)
    requires Time(a) <= Time(b)
    ensures MonthIndex(a) <= MonthIndex(b)
  {
    if MonthIndex(b) < MonthIndex(a) {
      TimeWithinMonth(a);
      TimeWithinMonth(b);
      MonthStartMonotone(MonthIndex(b), MonthIndex(a));
      MonthStartStep(MonthIndex(b));
    }
  }

  /** A date's time lies in that month's span exactly when its month index is that month. */
  lemma InMonthIff(d: Date, k: int)
    ensures MonthIndex(d) == k <==>
      MonthStart(k) * 86400000 <= Time(d) < MonthStart(k + 1) * 86400000
  {
    TimeWithinMonth(d);
    if MonthIndex(d) < k {
      MonthStartMonotone(MonthIndex(d), k);
      MonthStartStep(MonthIndex(d));
    } else if k < MonthIndex(d) {
      MonthStartMonotone(k, MonthIndex(d));
      MonthStartStep(k);
    }
  }

  /** The month whose days contain day n is unique. */
  lemma MonthSpanUnique(j: int, k: int, n: int)
    requires MonthStart(j) <= n < MonthStart(j) + MonthLength(j)
    ensures j == k <==> MonthStart(k) <= n < MonthStart(k) + MonthLength(k)
  {
    if j < k {
      MonthStartMonotone(j, k);
    } else if k < j {
      MonthStartMonotone(k, j);
    }
  }

  /** Equal arguments give equal values; stated over a function parameter, so that
      proving it does not unfold the function. */
  lemma Congruent(f: int -> int, a: int, b: int)
    requires a == b
    ensures f(a) == f(b)
  {
  }

  /** The calendar day with a given day number: the month it falls in and its day
      of the month. */
  lemma DayNumberCivil(d: Date, k: int)
    requires MonthStart(k) <= DayNumber(d) < MonthStart(k) + MonthLength(k)
    ensures MonthIndex(d) == k && d.day == DayNumber(d) - MonthStart(k) + 1
  {
    MonthIndexParts(d);
    MonthSpanUnique(MonthIndex(d), k, DayNumber(d));
    Congruent(MonthStart, MonthIndex(d), k);
  }

  /** Moves a day offset from the first of month k into range, one month at a
      time, keeping the day number the offset denotes. */
  function NormalizeDay(k: int, d: int): (r: (int, int))
    ensures 1 <= r.1 <= MonthLength(r.0)
    ensures MonthStart(r.0) + r.1 == MonthStart(k) + d
    decreases if d < 1 then 1 - d else if d > MonthLength(k) then d else 0
  {
    if d < 1 then
      MonthStartStep(k - 1);
      NormalizeDay(k - 1, d + MonthLength(k - 1))
    else if d > MonthLength(k) then
      MonthStartStep(k);
      NormalizeDay(k + 1, d - MonthLength(k))
    else
      (k, d)
  }

  /** Day d of the month with index k (day 0 is the day before the first, day 32
      may be in the next month), at time of day `ms`: the ECMAScript MakeDate(MakeDay(y,
      m, d), ms) computation once the year and month are combined into `12 * y + m`. */
  function DateInMonth(k: int, d: int, ms: int): (r: Date)
    requires 0 <= ms < MsPerDay
    ensures DayNumber(r) == MonthStart(k) + d - 1
    ensures Time(r) == (MonthStart(k) + d - 1) * 86400000 + ms
    ensures r.ms == ms
  {
    var (j, day) := NormalizeDay(k, d);
    assert 12 * (j / 12) + j % 12 == j;
    DateTime(j / 12, j % 12, day, ms)
  }

  /** A day that exists in its month is kept as given. */
  lemma DateInMonthCivil(k: int, d: int, ms: int)
    requires 1 <= d <= MonthLength(k) && 0 <= ms < MsPerDay
    ensures MonthIndex(DateInMonth(k, d, ms)) == k && DateInMonth(k, d, ms).day == d
  {
    DayNumberCivil(DateInMonth(k, d, ms), k);
  }

  /** `new Date(y, m, d)` followed by a time of day `ms`. */
  function MakeDate(y: int, m: int, d: int, ms: int): (r: Date)
    requires 0 <= ms < MsPerDay
    ensures DayNumber(r) == MonthStart(12 * y + m) + d - 1
    ensures Time(r) == (MonthStart(12 * y + m) + d - 1) * 86400000 + ms
    ensures r.ms == ms
  {
    DateInMonth(12 * y + m, d, ms)
  }

  lemma MakeDateCivil(y: int, m: int, d: int, ms: int)
    requires 1 <= d <= MonthLength(12 * y + m) && 0 <= ms < MsPerDay
    ensures MonthIndex(MakeDate(y, m, d, ms)) == 12 * y + m && MakeDate(y, m, d, ms).day == d
  {
    DateInMonthCivil(12 * y + m, d, ms);
  }

  /** `new Date(now.getFullYear(), now.getMonth() - n, day)`: day `day` of the month
      n months before now's (after it, for negative n), normalised, at 00:00. Its
      month index is `MonthIndex(now) - n`. */
  function MonthsBack(now: Date, n: int, day: int): (r: Date)
    ensures DayNumber(r) == MonthStart(MonthIndex(now) - n) + day - 1
    ensures r.ms == 0
  {
    DateInMonth(MonthIndex(now) - n, day, 0)
  }

  /** `setHours(h, mi, s, ms)` with a time of day given in milliseconds. */
  function AtTimeOfDay(d: Date, ms: int): (r: Date)
    requires 0 <= ms < MsPerDay
    ensures DayNumber(r) == DayNumber(d) && r.ms == ms
    ensures Time(r) == Time(d) - d.ms + ms
  {
    d.(ms := ms)
  }

  /** `setHours(0, 0, 0, 0)`. */
  function StartOfDay(d: Date): (r: Date)
    ensures DayNumber(r) == DayNumber(d)
    ensures Time(r) == DayNumber(d) * 86400000
  {
    AtTimeOfDay(d, 0)
  }

  /** `setHours(23, 59, 59, 999)`. */
  function EndOfDay(d: Date): (r: Date)
    ensures DayNumber(r) == DayNumber(d)
    ensures Time(r) == (DayNumber(d) + 1) * 86400000 - 1
  {
    AtTimeOfDay(d, EndOfDayMs)
  }

  /** 1970-01-01 00:00 is time 0. */
  lemma EpochIsZero()
    ensures Time(DateTime(1970, 0, 1, 0)) == 0
  {
  }
}
