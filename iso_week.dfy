/** Week dates of ISO 8601 (section 4.1.4 of ISO 8601:2004) over integer day
    numbers: day 0 is 1970-01-01, a Thursday. This is the arithmetic of
    getISOWeek in public/script.js once the Date object is reduced to the
    local calendar day it falls on. */
module IsoWeek {
  const MsPerDay: int := 86400000

  /** The local calendar day of an instant, given the local offset from UTC. */
  function LocalDay(ms: int, offsetMs: int): (day: int)
    ensures day * MsPerDay <= ms + offsetMs < (day + 1) * MsPerDay
  {
    (ms + offsetMs) / MsPerDay
  }

  /** `(getDay() + 6) % 7`: Monday is 0 and Sunday 6. */
  function Weekday(n: int): (d: int)
    ensures 0 <= d < 7
  {
    (n + 3) % 7
  }

  /** Stepping back to the Monday of a day's week. */
  lemma MondayOf(x: int)
    ensures Weekday(x - Weekday(x)) == 0
    ensures Weekday(x - Weekday(x) + 3) == 3
  {
  }

  /** Two days share a weekday exactly when they are a whole number of weeks apart. */
  lemma SameWeekday(a: int, b: int)
    ensures Weekday(a) == Weekday(b) <==> (a - b) % 7 == 0
  {
  }

  predicate IsLeap(y: int) {
    y % 4 == 0 && (y % 100 != 0 || y % 400 == 0)
  }

  /** The number of leap years up to year x, counted from a fixed origin. */
  function LeapsThrough(x: int): int {
    x / 4 - x / 100 + x / 400
  }

  /** The day number of January 1 of year y in the proleptic Gregorian calendar. */
  function YearStart(y: int): int {
    365 * (y - 1970) + LeapsThrough(y - 1) - 477
  }

  /** Going from year y - 1 to y, a quotient by d grows by one exactly when d divides y. */
  lemma QuotientStep(y: int, d: int)
    requires d == 4 || d == 100 || d == 400
    ensures y / d - (y - 1) / d == if y % d == 0 then 1 else 0
  {
    var q, r := (y - 1) / d, (y - 1) % d;
    assert y - 1 == d * q + r && 0 <= r < d;
    if r == d - 1 {
      assert y == d * (q + 1);
    } else {
      assert y == d * q + (r + 1);
    }
  }

  /** Multiples of 100 and of 4 leave no remainder. */
  lemma MultiplesOf(k: int)
    ensures (100 * k) % 100 == 0
    ensures (4 * k) % 4 == 0
  {
  }

  /** Divisibility by 400 implies divisibility by 100, which implies divisibility by 4. */
  lemma CenturyDivisibility(y: int)
    ensures y % 400 == 0 ==> y % 100 == 0
    ensures y % 100 == 0 ==> y % 4 == 0
  {
    if y % 400 == 0 {
      assert y == 100 * (4 * (y / 400));
      MultiplesOf(4 * (y / 400));
    }
    if y % 100 == 0 {
      assert y == 4 * (25 * (y / 100));
      MultiplesOf(25 * (y / 100));
    }
  }

  lemma YearLength(y: int)
    ensures YearStart(y + 1) - YearStart(y) == if IsLeap(y) then 366 else 365
  {
    QuotientStep(y, 4);
    QuotientStep(y, 100);
    QuotientStep(y, 400);
    CenturyDivisibility(y);
  }

  /** A year is 365 or 366 days long. */
  lemma YearBounds(y: int)
    ensures 365 <= YearStart(y + 1) - YearStart(y) <= 366
  {
    YearLength(y);
  }

  lemma {:induction false} YearStartGrows(a: int, b: int)
    requires a <= b
    ensures 365 * (b - a) <= YearStart(b) - YearStart(a) <= 366 * (b - a)
    decreases b - a
  {
    if a < b {
      YearStartGrows(a, b - 1);
      YearLength(b - 1);
    }
  }

  function YearUp(n: int, y: int): (r: int)
    requires YearStart(y) <= n
    ensures YearStart(r) <= n < YearStart(r + 1)
    decreases n - YearStart(y)
  {
    YearLength(y);
    if n < YearStart(y + 1) then y else YearUp(n, y + 1)
  }

  function YearDown(n: int, y: int): (r: int)
    requires n < YearStart(y + 1)
    ensures YearStart(r) <= n < YearStart(r + 1)
    decreases YearStart(y + 1) - n
  {
    YearLength(y);
    if YearStart(y) <= n then y else YearDown(n, y - 1)
  }

  /** `getFullYear()` of a day: the year whose January 1 starts on or before it
      and whose successor starts after it. */
  function YearOf(n: int): (y: int)
    ensures YearStart(y) <= n < YearStart(y + 1)
  {
    if YearStart(1970) <= n then YearUp(n, 1970) else YearDown(n, 1969)
  }

  /** Two years whose spans hold the same day are the same year. */
  lemma YearSpansDisjoint(n: int, a: int, b: int)
    requires YearStart(a) <= n < YearStart(a + 1)
    requires YearStart(b) <= n < YearStart(b + 1)
    ensures a == b
  {
    if a < b {
      YearStartGrows(a + 1, b);
    } else if b < a {
      YearStartGrows(b + 1, a);
    }
  }

  /** There is only one such year. */
  lemma YearOfUnique(n: int, y: int)
    requires YearStart(y) <= n < YearStart(y + 1)
    ensures YearOf(n) == y
  {
    YearSpansDisjoint(n, YearOf(n), y);
  }

  /** The Monday that starts week 1 of year y: the Monday of the week holding
      January 4, which is also the week holding the year's first Thursday. */
  function Week1Monday(y: int): (m: int)
    ensures YearStart(y) - 3 <= m <= YearStart(y) + 3
    ensures Weekday(m) == 0
  {
    var jan4 := YearStart(y) + 3;
    MondayOf(jan4);
    jan4 - Weekday(jan4)
  }

  lemma Week1MondayGrows(a: int, b: int)
    requires a < b
    ensures Week1Monday(a) < Week1Monday(b)
  {
    YearStartGrows(a, b);
  }

  datatype WeekDate = WeekDate(year: int, week: int)

  /** getISOWeek: move to the Thursday of the day's week, take that Thursday's
      year, and count weeks from the week holding January 4 of that year. */
  function GetIsoWeek(n: int): (w: WeekDate) {
    WeekInYear(n, YearOf(n + 3 - Weekday(n)))
  }

  /** The week count of getISOWeek once the year y of the Thursday is known. */
  function WeekInYear(n: int, y: int): (w: WeekDate) {
    WeekDate(y, 1 + NumeratorInYear(n, y) / 7)
  }

  /** The quotient that getISOWeek rounds, for the year y of the Thursday. */
  function NumeratorInYear(n: int, y: int): int {
    var jan4 := YearStart(y) + 3;
    n + 3 - Weekday(n) - jan4 - 3 + Weekday(jan4)
  }

  /** The quotient that getISOWeek rounds. */
  function SourceNumerator(n: int): int {
    NumeratorInYear(n, YearOf(n + 3 - Weekday(n)))
  }

  /** The ISO 8601 description of a week date: the day lies in the ISO year
      that runs from week 1's Monday to the next year's, and its Monday is
      whole weeks after week 1's. */
  predicate InIsoWeek(n: int, w: WeekDate) {
    && Week1Monday(w.year) + 7 * (w.week - 1) == n - Weekday(n)
    && Week1Monday(w.year) <= n < Week1Monday(w.year + 1)
  }

  /** getISOWeek gives the ISO week date of the day, there are at most 53
      weeks, and Math.round has nothing to round. */
  lemma IsoWeekCorrect(n: int)
    ensures InIsoWeek(n, GetIsoWeek(n))
    ensures 1 <= GetIsoWeek(n).week <= 53
    ensures SourceNumerator(n) % 7 == 0
  {
    WeekInYearCorrect(n, YearOf(n + 3 - Weekday(n)));
  }

  /** The same for any year y that holds the Thursday of the day's week. */
  lemma WeekInYearCorrect(n: int, y: int)
    requires YearStart(y) <= n + 3 - Weekday(n) < YearStart(y + 1)
    ensures InIsoWeek(n, WeekInYear(n, y))
    ensures 1 <= WeekInYear(n, y).week <= 53
    ensures NumeratorInYear(n, y) % 7 == 0
  {
    YearBounds(y);
    WeekArithmetic(n, YearStart(y), YearStart(y + 1));
  }

  /** The week arithmetic of getISOWeek for any year that holds the
      Thursday of the day's week and is 365 or 366 days long. */
  lemma WeekArithmetic(n: int, start: int, next: int)
    requires start <= n + 3 - Weekday(n) < next
    requires 365 <= next - start <= 366
    ensures var t := n + 3 - Weekday(n);
      var jan4 := start + 3;
      var m1 := jan4 - Weekday(jan4);
      var q := t - jan4 - 3 + Weekday(jan4);
      && q % 7 == 0
      && 0 <= q / 7 <= 52
      && m1 + 7 * (q / 7) == n - Weekday(n)
      && m1 <= n < next + 3 - Weekday(next + 3)
  {
    var t := n + 3 - Weekday(n);
    var m1 := start + 3 - Weekday(start + 3);
    var m2 := next + 3 - Weekday(next + 3);
    MondayOf(n);
    MondayOf(start + 3);
    MondayOf(next + 3);
    SameWeekday(t, m1 + 3);
    SameWeekday(t, m2 + 3);
    assert t <= m2 - 4;
  }

  /** Conversely, a week date that satisfies the ISO 8601 description of the
      day is the one getISOWeek gives. */
  lemma IsoWeekUnique(n: int, w: WeekDate)
    requires InIsoWeek(n, w)
    ensures GetIsoWeek(n) == w
  {
    WeekInYearUnique(n, YearOf(n + 3 - Weekday(n)), w);
  }

  lemma WeekInYearUnique(n: int, y: int, w: WeekDate)
    requires YearStart(y) <= n + 3 - Weekday(n) < YearStart(y + 1)
    requires InIsoWeek(n, w)
    ensures WeekInYear(n, y) == w
  {
    WeekInYearCorrect(n, y);
    IsoYearsDisjoint(n, y, w.year);
    SameYearSameWeek(n, WeekInYear(n, y), w);
  }

  /** Within one ISO year a day lies in one week. */
  lemma SameYearSameWeek(n: int, v: WeekDate, w: WeekDate)
    requires InIsoWeek(n, v) && InIsoWeek(n, w)
    requires v.year == w.year
    ensures v == w
  {
  }

  /** Two ISO years whose spans hold the same day are the same year. */
  lemma IsoYearsDisjoint(n: int, a: int, b: int)
    requires Week1Monday(a) <= n < Week1Monday(a + 1)
    requires Week1Monday(b) <= n < Week1Monday(b + 1)
    ensures a == b
  {
    if a + 1 < b {
      Week1MondayGrows(a + 1, b);
    } else if b + 1 < a {
      Week1MondayGrows(b + 1, a);
    }
  }

  /** 2026 starts on a Thursday, so it has a week 53 that takes in
      January 1, 2027. */
  lemma NewYear2027InWeek53(n: int)
    requires n == YearStart(2027)
    ensures GetIsoWeek(n) == WeekDate(2026, 53)
  {
    assert n == 20819 && Week1Monday(2026) == 20451 && Week1Monday(2027) == 20822;
    IsoWeekUnique(n, WeekDate(2026, 53));
  }

  /** Monday, December 29, 2025 already belongs to week 1 of 2026. */
  lemma December29InNextYear(n: int)
    requires n == YearStart(2026) - 3
    ensures GetIsoWeek(n) == WeekDate(2026, 1)
  {
    assert n == 20451 && Week1Monday(2026) == 20451 && Week1Monday(2027) == 20822;
    IsoWeekUnique(n, WeekDate(2026, 1));
  }
}
