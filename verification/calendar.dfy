/**
 * Wall-clock calendar arithmetic standing in for JavaScript `Date` and the
 * date-fns helpers the pages call. An instant is a whole number of
 * milliseconds of local time since 1970-01-01 00:00; there is one fixed
 * time zone and no daylight-saving shift. Months are counted as a single
 * index `year * 12 + month` with `month` in 0..11, as `getMonth` returns it.
 */
module Calendar {

  const SecondMs: int := 1000
  const MinuteMs: int := 60 * SecondMs
  const HourMs: int := 60 * MinuteMs
  const DayMs: int := 24 * HourMs

  /** Month index of January 1970. */
  const EpochMonth: int := 1970 * 12

  predicate IsLeapYear(y: int)
  {
    (y % 4 == 0 && y % 100 != 0) || y % 400 == 0
  }

  /** Number of days of month index m (Gregorian). */
  function DaysInMonth(m: int): (d: int)
    ensures 28 <= d <= 31
  {
    var y := m / 12;
    var mo := m % 12;
    if mo == 1 then (if IsLeapYear(y) then 29 else 28)
    else if mo == 3 || mo == 5 || mo == 8 || mo == 10 then 30
    else 31
  }

  /** Day number (days since 1970-01-01) of the first day of month index m. */
  function MonthStartDay(m: int): int
    decreases if m >= EpochMonth then m - EpochMonth else EpochMonth - m
  {
    if m == EpochMonth then 0
    else if m > EpochMonth then MonthStartDay(m - 1) + DaysInMonth(m - 1)
    else MonthStartDay(m + 1) - DaysInMonth(m)
  }

  lemma MonthStartDayStep(m: int)
    ensures MonthStartDay(m + 1) == MonthStartDay(m) + DaysInMonth(m)
  {
  }

  /** The instant at 00:00 on the first day of month index m. */
  function MonthStart(m: int): int
  {
    MonthStartDay(m) * DayMs
  }

  /** Later months start later, by at least 28 days per month. */
  lemma {:induction false} MonthStartDayIncreasing(a: int, b: int)
    requires a <= b
    ensures MonthStartDay(a) + 28 * (b - a) <= MonthStartDay(b)
    decreases b - a
  {
    if a < b {
      MonthStartDayIncreasing(a, b - 1);
      MonthStartDayStep(b - 1);
    }
  }

  /** Later months start at later instants. */
  lemma MonthStartIncreasing(a: int, b: int)
    requires a <= b
    ensures MonthStart(a) <= MonthStart(b)
    ensures a < b ==> MonthStart(a) < MonthStart(b)
  {
    MonthStartDayIncreasing(a, b);
  }

  function MonthUp(m: int, t: int): (r: int)
    requires MonthStart(m) <= t
    ensures m <= r
    ensures MonthStart(r) <= t < MonthStart(r + 1)
    decreases t - MonthStart(m)
  {
    MonthStartIncreasing(m, m + 1);
    if t < MonthStart(m + 1) then m else MonthUp(m + 1, t)
  }

  function MonthDown(m: int, t: int): (r: int)
    requires t < MonthStart(m + 1)
    ensures r <= m
    ensures MonthStart(r) <= t < MonthStart(r + 1)
    decreases MonthStart(m) - t
  {
    MonthStartIncreasing(m, m + 1);
    if MonthStart(m) <= t then m else MonthDown(m - 1, t)
  }

  /** Searches up or down from January 1970 for the month of t. */
  function FindMonth(t: int): (m: int)
    ensures MonthStart(m) <= t < MonthStart(m + 1)
  {
    if MonthStart(EpochMonth) <= t then MonthUp(EpochMonth, t) else MonthDown(EpochMonth - 1, t)
  }

  /** The month index that instant t falls in (`getFullYear() * 12 + getMonth()`). */
  function MonthOf(t: int): (m: int)
    ensures MonthStart(m) <= t < MonthStart(m + 1)
  {
    FindMonth(t)
  }

  /** Exactly one month contains a given instant. */
  lemma MonthOfUnique(t: int, m: int)
    requires MonthStart(m) <= t < MonthStart(m + 1)
    ensures MonthOf(t) == m
  {
    var k := MonthOf(t);
    if k < m {
      MonthStartIncreasing(k + 1, m);
    } else if m < k {
      MonthStartIncreasing(m + 1, k);
    }
  }

  /** Later instants never fall in earlier months. */
  lemma MonthOfMonotone(t1: int, t2: int)
    requires t1 <= t2
    ensures MonthOf(t1) <= MonthOf(t2)
  {
    if MonthOf(t2) < MonthOf(t1) {
      MonthStartIncreasing(MonthOf(t2) + 1, MonthOf(t1));
    }
  }

  /** An instant before the start of month k lies in an earlier month. */
  lemma MonthOfBefore(t: int, k: int)
    requires t < MonthStart(k)
    ensures MonthOf(t) < k
  {
    if MonthOf(t) >= k {
      MonthStartIncreasing(k, MonthOf(t));
    }
  }

  lemma MonthOfMonthStart(m: int)
    ensures MonthOf(MonthStart(m)) == m
  {
    MonthStartIncreasing(m, m + 1);
    MonthOfUnique(MonthStart(m), m);
  }

  /** Between the start of one month and the end of another lie exactly the instants of the months between. */
  lemma InMonthSpan(s: int, e: int, t: int)
    requires MonthStart(MonthOf(s)) == s && MonthStart(MonthOf(e + 1)) == e + 1
    ensures s <= t <= e <==> MonthOf(s) <= MonthOf(t) <= MonthOf(e)
  {
    var k := MonthOf(e + 1);
    MonthOfBefore(e, k);
    if s <= t <= e {
      MonthOfMonotone(s, t);
      MonthOfMonotone(t, e);
    }
    if MonthOf(s) <= MonthOf(t) <= MonthOf(e) {
      MonthStartIncreasing(MonthOf(s), MonthOf(t));
      MonthStartIncreasing(MonthOf(t) + 1, k);
    }
  }

  /** An instant on day d (from 0) of month m, at any time of that day, lies in month m. */
  lemma MonthOfWithinMonth(m: int, d: int, ms: int)
    requires 0 <= d < DaysInMonth(m) && 0 <= ms < DayMs
    ensures MonthOf(MonthStart(m) + d * DayMs + ms) == m
  {
    MonthStartDayStep(m);
    assert MonthStart(m + 1) == MonthStart(m) + DaysInMonth(m) * DayMs;
    MonthOfUnique(MonthStart(m) + d * DayMs + ms, m);
  }

  /** The year of an instant is that of its month: y exactly when its month lies between January and December of y. */
  lemma YearOfMonths(t: int, y: int)
    ensures YearOf(t) == y <==> y * 12 <= MonthOf(t) < y * 12 + 12
  {
  }

  function YearOf(t: int): int
  {
    MonthOf(t) / 12
  }

  /** `getMonth()`: 0 for January through 11 for December. */
  function MonthOfYear(t: int): (r: int)
    ensures 0 <= r < 12
  {
    MonthOf(t) % 12
  }

  /** `startOfMonth(t)`. */
  function StartOfMonth(t: int): (r: int)
    ensures r <= t && MonthOf(r) == MonthOf(t)
  {
    MonthOfMonthStart(MonthOf(t));
    MonthStart(MonthOf(t))
  }

  /** `endOfMonth(t)`: the last millisecond of t's month. */
  function EndOfMonth(t: int): (r: int)
    ensures t <= r && MonthOf(r) == MonthOf(t)
    ensures MonthOf(r + 1) == MonthOf(t) + 1
  {
    var m := MonthOf(t);
    MonthOfUnique(MonthStart(m + 1) - 1, m);
    MonthOfMonthStart(m + 1);
    MonthStart(m + 1) - 1
  }

  /** `new Date(y, month, day)`: month and day overflow into later months as in JavaScript. */
  function MakeDate(y: int, month: int, day: int): int
  {
    MonthStart(y * 12 + month) + (day - 1) * DayMs
  }

  /** `new Date(year, month + 1, 1)` for the year and month of month index m is the start of month m + 1. */
  lemma MakeDateNextMonth(m: int)
    ensures MakeDate(m / 12, m % 12 + 1, 1) == MonthStart(m + 1)
  {
    assert m / 12 * 12 + m % 12 == m;
  }

  /** Number of whole local days since 1970-01-01 (floor). */
  function DayIndex(t: int): int
  {
    t / DayMs
  }

  /** `startOfDay(t)`. */
  function StartOfDay(t: int): (r: int)
    ensures r <= t < r + DayMs
    ensures DayIndex(r) == DayIndex(t)
  {
    DayIndex(t) * DayMs
  }

  lemma DayIndexOfDayStart(d: int, ms: int)
    requires 0 <= ms < DayMs
    ensures DayIndex(d * DayMs + ms) == d
  {
  }

  /** `isSameDay(a, b)`. */
  predicate SameDay(a: int, b: int)
  {
    DayIndex(a) == DayIndex(b)
  }

  /** `getDay()`: 0 for Sunday; 1970-01-01 was a Thursday. */
  function Weekday(t: int): (w: int)
    ensures 0 <= w < 7
  {
    (DayIndex(t) + 4) % 7
  }

  /** `startOfWeek(t)` with weeks starting on Sunday. */
  function StartOfWeek(t: int): (r: int)
    ensures r <= t && Weekday(r) == 0
    ensures t - r < 7 * DayMs
  {
    var d := DayIndex(t) - Weekday(t);
    DayIndexOfDayStart(d, 0);
    d * DayMs
  }

  /** `getDate()`: day of the month, from 1. */
  function DayOfMonth(t: int): int
  {
    DayIndex(t) - MonthStartDay(MonthOf(t)) + 1
  }

  /** The day of the month of an instant lies within its month. */
  lemma DayOfMonthRange(t: int)
    ensures 1 <= DayOfMonth(t) <= DaysInMonth(MonthOf(t))
  {
    var m := MonthOf(t);
    MonthStartDayStep(m);
    var a := MonthStartDay(m);
    var b := MonthStartDay(m + 1);
    assert a * DayMs <= t < b * DayMs;
    DayIndexBounds(t, a, b);
  }

  lemma DayIndexBounds(t: int, a: int, b: int)
    requires a * DayMs <= t < b * DayMs
    ensures a <= DayIndex(t) < b
  {
    var d := DayIndex(t);
    assert d * DayMs <= t < (d + 1) * DayMs;
  }

  /** `differenceInSeconds(later, earlier)`: whole seconds, truncated toward zero. */
  function DifferenceInSeconds(later: int, earlier: int): (r: int)
    ensures later >= earlier ==> r == (later - earlier) / SecondMs
    ensures later < earlier ==> r == -((earlier - later) / SecondMs)
  {
    var diff := later - earlier;
    if diff >= 0 then diff / SecondMs else -((-diff) / SecondMs)
  }

  /** t is the first millisecond of its month. */
  predicate IsMonthStart(t: int)
  {
    MonthStart(MonthOf(t)) == t
  }

  /**
   * `subMonths(t, n)` from date-fns: n months earlier, on the same day of
   * the month clamped to the target month's length, at the same time of day.
   */
  function SubMonths(t: int, n: int): (r: int)
    ensures MonthOf(r) == MonthOf(t) - n
  {
    var m := MonthOf(t) - n;
    DayOfMonthRange(t);
    var day := if DayOfMonth(t) <= DaysInMonth(m) then DayOfMonth(t) else DaysInMonth(m);
    var r := MonthStart(m) + (day - 1) * DayMs + (t - StartOfDay(t));
    MonthStartDayStep(m);
    assert MonthStart(m + 1) == MonthStart(m) + DaysInMonth(m) * DayMs;
    MonthOfUnique(r, m);
    r
  }
}
