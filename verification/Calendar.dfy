/** The proleptic Gregorian calendar as Go's time package computes it in UTC.

    A day is numbered from 0 = 0000-01-01; a month from 0 = January of year 0.
    An instant is a number of nanoseconds since the start of day 0. */
module Calendar {

  const NS_PER_MINUTE: int := 60_000_000_000
  const NS_PER_DAY: int := 1440 * NS_PER_MINUTE

  // Days before each month of a common year, counted from January 1.
  const DAYS_BEFORE: seq<int> := [0, 31, 59, 90, 120, 151, 181, 212, 243, 273, 304, 334, 365]

  datatype Date = Date(year: int, month: int, day: int)

  /** Appendix C of RFC 3339. */
  predicate IsLeap(year: int) {
    year % 4 == 0 && (year % 100 != 0 || year % 400 == 0)
  }

  function DaysInMonth(year: int, month: int): int
    requires 1 <= month <= 12
  {
    if month == 2 && IsLeap(year) then 29 else DAYS_BEFORE[month] - DAYS_BEFORE[month - 1]
  }

  predicate IsDate(d: Date) {
    1 <= d.month <= 12 && 1 <= d.day <= DaysInMonth(d.year, d.month)
  }

  function DaysBeforeYear(year: int): int {
    365 * year + (year + 3) / 4 - (year + 99) / 100 + (year + 399) / 400
  }

  function DaysBeforeMonth(year: int, month: int): int
    requires 1 <= month <= 12
  {
    DAYS_BEFORE[month - 1] + if IsLeap(year) && month > 2 then 1 else 0
  }

  // ----- months on one line -----

  function MonthIndex(year: int, month: int): int {
    12 * year + month - 1
  }

  function MonthLength(m: int): int {
    DaysInMonth(m / 12, m % 12 + 1)
  }

  /** The first day of month number m. */
  function MonthStart(m: int): int {
    DaysBeforeYear(m / 12) + DaysBeforeMonth(m / 12, m % 12 + 1)
  }

  lemma YearStep(year: int)
    ensures DaysBeforeYear(year + 1) == DaysBeforeYear(year) + (if IsLeap(year) then 366 else 365)
  {
    assert (year + 4) / 4 - (year + 3) / 4 == if year % 4 == 0 then 1 else 0;
    assert (year + 100) / 100 - (year + 99) / 100 == if year % 100 == 0 then 1 else 0;
    assert (year + 400) / 400 - (year + 399) / 400 == if year % 400 == 0 then 1 else 0;
    assert year % 100 == 0 ==> year % 4 == 0;
    assert year % 400 == 0 ==> year % 100 == 0;
  }

  lemma MonthStep(m: int)
    ensures MonthStart(m + 1) == MonthStart(m) + MonthLength(m)
    ensures 28 <= MonthLength(m) <= 31
  {
    if m % 12 == 11 {
      assert (m + 1) / 12 == m / 12 + 1 && (m + 1) % 12 == 0;
      YearStep(m / 12);
    } else {
      assert (m + 1) / 12 == m / 12 && (m + 1) % 12 == m % 12 + 1;
    }
  }

  /** Months follow each other without gap or overlap. */
  lemma {:induction false} MonthsInOrder(a: int, b: int)
    requires a < b
    ensures MonthStart(a) + MonthLength(a) <= MonthStart(b)
    decreases b - a
  {
    hide *;
    MonthStep(a);
    if a + 1 < b {
      MonthsInOrder(a + 1, b);
      MonthStep(a + 1);
    }
  }

  // ----- from dates to days and back -----

  /** The day time.Date(year, month, day) denotes: month and day may lie outside
      their usual ranges and are normalised, as October 32 becomes November 1. */
  function DayNumber(year: int, month: int, day: int): int {
    MonthStart(MonthIndex(year, month)) + day - 1
  }

  /** The year day n lies in: an estimate from the mean year length, off by one at most. */
  function YearOf(n: int): (year: int)
    ensures DaysBeforeYear(year) <= n < DaysBeforeYear(year + 1)
  {
    var estimate := 400 * n / 146097;
    YearStep(estimate - 1); YearStep(estimate); YearStep(estimate + 1);
    if n < DaysBeforeYear(estimate) then estimate - 1
    else if n < DaysBeforeYear(estimate + 1) then estimate
    else estimate + 1
  }

  /** The month of the year's rest-th day, counted from 0. */
  function MonthAt(year: int, rest: int): (month: int)
    requires 0 <= rest < (if IsLeap(year) then 366 else 365)
    ensures 1 <= month <= 12
    ensures DaysBeforeMonth(year, month) <= rest < DaysBeforeMonth(year, month) + DaysInMonth(year, month)
  {
    hide IsLeap;
    if rest < DaysBeforeMonth(year, 2) then 1 else if rest < DaysBeforeMonth(year, 3) then 2
    else if rest < DaysBeforeMonth(year, 4) then 3 else if rest < DaysBeforeMonth(year, 5) then 4
    else if rest < DaysBeforeMonth(year, 6) then 5 else if rest < DaysBeforeMonth(year, 7) then 6
    else if rest < DaysBeforeMonth(year, 8) then 7 else if rest < DaysBeforeMonth(year, 9) then 8
    else if rest < DaysBeforeMonth(year, 10) then 9 else if rest < DaysBeforeMonth(year, 11) then 10
    else if rest < DaysBeforeMonth(year, 12) then 11 else 12
  }

  /** The number of the month day n lies in. */
  function MonthOf(n: int): (m: int)
    ensures MonthStart(m) <= n < MonthStart(m) + MonthLength(m)
  {
    hide IsLeap, DaysBeforeYear, DaysBeforeMonth, DaysInMonth;
    var year := YearOf(n);
    YearStep(year);
    var month := MonthAt(year, n - DaysBeforeYear(year));
    MonthIndexParts(year, month);
    MonthIndex(year, month)
  }

  lemma MonthIndexParts(year: int, month: int)
    requires 1 <= month <= 12
    ensures MonthIndex(year, month) / 12 == year && MonthIndex(year, month) % 12 + 1 == month
  {
  }

  /** Only one month holds a day. */
  lemma MonthOfUnique(n: int, m: int)
    requires MonthStart(m) <= n < MonthStart(m) + MonthLength(m)
    ensures MonthOf(n) == m
  {
    var k := MonthOf(n);
    if k < m {
      MonthsInOrder(k, m);
    } else if m < k {
      MonthsInOrder(m, k);
    }
  }

  /** Year, month and day of a day number, as Time.Date reports them. */
  function CivilDate(n: int): (d: Date)
    ensures IsDate(d)
    ensures DayNumber(d.year, d.month, d.day) == n
  {
    hide IsLeap, DaysBeforeYear, DaysBeforeMonth, DaysInMonth, MonthStart, MonthOf;
    var m := MonthOf(n);
    assert MonthIndex(m / 12, m % 12 + 1) == m;
    Date(m / 12, m % 12 + 1, n - MonthStart(m) + 1)
  }

  /** Days and dates are in one-to-one correspondence. */
  lemma DateRoundTrip(d: Date)
    requires IsDate(d)
    ensures CivilDate(DayNumber(d.year, d.month, d.day)) == d
  {
    var m := MonthIndex(d.year, d.month);
    assert m / 12 == d.year && m % 12 == d.month - 1;
    MonthOfUnique(DayNumber(d.year, d.month, d.day), m);
  }

  /** After normalisation the day of the month is the requested one exactly when the
      month has that day; the surplus days of a short month spill into the next one. */
  lemma DaySurvivesNormalisation(year: int, month: int, day: int)
    requires 1 <= day <= 31
    ensures CivilDate(DayNumber(year, month, day)).day == day
       <==> day <= MonthLength(MonthIndex(year, month))
    ensures day <= MonthLength(MonthIndex(year, month))
       ==> MonthOf(DayNumber(year, month, day)) == MonthIndex(year, month)
  {
    hide IsLeap, DaysBeforeYear, DaysBeforeMonth, DaysInMonth, MonthStart, MonthLength, MonthOf;
    var m := MonthIndex(year, month);
    MonthStep(m);
    if day <= MonthLength(m) {
      MonthOfUnique(DayNumber(year, month, day), m);
    } else {
      MonthStep(m + 1);
      MonthOfUnique(DayNumber(year, month, day), m + 1);
    }
  }

  /** Sunday = 0; day 0 is a Saturday. */
  function Weekday(n: int): int {
    (n + 6) % 7
  }

  // ----- the week -----

  /** The weekday of a date, Sunday = 0, by Zeller's congruence as in Appendix B of RFC 3339: the
      year begins in March and is split by century. */
  function DayOfWeek(d: Date): int {
    var month, year := if d.month < 3 then d.month + 10 else d.month - 2, if d.month < 3 then d.year - 1 else d.year;
    var century, rest := year / 100, year % 100;
    ((26 * month - 2) / 10 + d.day + rest + rest / 4 + century / 4 + 5 * century) % 7
  }

  lemma ByCentury(year: int)
    ensures year / 4 == 25 * (year / 100) + year % 100 / 4 && year / 100 / 4 == year / 400
  {
  }

  lemma LeapDaysBefore(year: int)
    ensures DaysBeforeYear(year + 1) == 365 * year + year / 4 - year / 100 + year / 400 + 366
  {
    assert (year + 4) / 4 == year / 4 + 1 && (year + 100) / 100 == year / 100 + 1;
    assert (year + 400) / 400 == year / 400 + 1;
  }

  lemma WholeWeeks(days: int, weeks: int)
    ensures (days + 7 * weeks) % 7 == days % 7
  {
  }

  lemma MonthsSinceMarch(month: int) returns (weeks: int)
    requires 1 <= month <= 12
    ensures var fromMarch := if month < 3 then month + 10 else month - 2;
      DAYS_BEFORE[month - 1] + (if month < 3 then 366 else 1) + 5 == (26 * fromMarch - 2) / 10 + 7 * weeks
  {
    weeks := if month < 3 then 45 + 4 * month else [9, 13, 17, 21, 25, 29, 33, 37, 41, 45][month - 3];
  }

  /** The day of a date, counted from the March that begins its year. */
  lemma DaysSinceMarch(d: Date, month: int, year: int) returns (weeks: int)
    requires IsDate(d) && year == (if d.month < 3 then d.year - 1 else d.year)
    requires month == if d.month < 3 then d.month + 10 else d.month - 2
    ensures DayNumber(d.year, d.month, d.day) + 6
      == 365 * year + year / 4 - year / 100 + year / 400 + (26 * month - 2) / 10 + d.day + 7 * weeks
  {
    MonthIndexParts(d.year, d.month);
    LeapDaysBefore(year);
    YearStep(d.year);
    weeks := MonthsSinceMarch(d.month);
    hide DaysBeforeYear, IsLeap;
  }

  lemma CenturiesInWeeks(year: int)
    ensures var century, rest := year / 100, year % 100;
      365 * year + year / 4 - year / 100 + year / 400
      == rest + rest / 4 + century / 4 + 5 * century + 7 * (52 * year + 17 * century)
  {
    ByCentury(year);
  }

  /** The months' lengths, leap days and century years all fall in with the week. */
  lemma WeekdayOfDate(d: Date)
    requires IsDate(d)
    ensures Weekday(DayNumber(d.year, d.month, d.day)) == DayOfWeek(d)
  {
    hide DayNumber, IsDate;
    var month, year := if d.month < 3 then d.month + 10 else d.month - 2, if d.month < 3 then d.year - 1 else d.year;
    var weeks := DaysSinceMarch(d, month, year);
    CenturiesInWeeks(year);
    var century, rest := year / 100, year % 100;
    WholeWeeks((26 * month - 2) / 10 + d.day + rest + rest / 4 + century / 4 + 5 * century,
      52 * year + 17 * century + weeks);
  }

  lemma IsEpoch()
    ensures IsDate(Date(1970, 1, 1)) && DayOfWeek(Date(1970, 1, 1)) == 4
  {
    var year, month := 1969, 11;
    assert year / 100 == 19 && year % 100 == 69 && (26 * month - 2) / 10 == 28;
  }

  /** The Unix epoch was a Thursday. */
  lemma EpochIsThursday()
    ensures Weekday(DayNumber(1970, 1, 1)) == 4
  {
    hide *;
    IsEpoch();
    WeekdayOfDate(Date(1970, 1, 1));
  }

  // ----- instants -----

  function DayOf(t: int): int {
    t / NS_PER_DAY
  }

  /** time.Date(year, month, day, hour, minute, 0, 0, time.UTC) */
  function TimeDate(year: int, month: int, day: int, hour: int, minute: int): int {
    At(DayNumber(year, month, day), hour, minute)
  }

  function At(day: int, hour: int, minute: int): int {
    day * NS_PER_DAY + (hour * 60 + minute) * NS_PER_MINUTE
  }

  /** Time.AddDate(0, 0, days): the date is taken apart, the day moved, and the whole put
      together again with the same time of day. */
  function AddDays(t: int, days: int): int {
    var d := CivilDate(DayOf(t));
    DayNumber(d.year, d.month, d.day + days) * NS_PER_DAY + t % NS_PER_DAY
  }

  lemma ShiftDays(t: int, days: int)
    ensures (t / NS_PER_DAY + days) * NS_PER_DAY + t % NS_PER_DAY == t + days * NS_PER_DAY
    ensures (t + days * NS_PER_DAY) / NS_PER_DAY == t / NS_PER_DAY + days
  {
  }

  lemma DayNumberShift(year: int, month: int, day: int, days: int)
    ensures DayNumber(year, month, day + days) == DayNumber(year, month, day) + days
  {
    hide MonthStart;
  }

  /** Adding days crosses months, leap days and centuries without drift. */
  lemma AddDaysIsExact(t: int, days: int)
    ensures AddDays(t, days) == t + days * NS_PER_DAY
    ensures DayOf(AddDays(t, days)) == DayOf(t) + days
  {
    hide DayNumber, CivilDate;
    var d := CivilDate(DayOf(t));
    DayNumberShift(d.year, d.month, d.day, days);
    ShiftDays(t, days);
  }

  /** What a clock shows at t: hours and minutes, on the full minute. */
  predicate ShowsTime(t: int, hour: int, minute: int) {
    t / (60 * NS_PER_MINUTE) % 24 == hour && t / NS_PER_MINUTE % 60 == minute && t % NS_PER_MINUTE == 0
  }

  lemma InMinutes(t: int)
    ensures var minutes := t / NS_PER_MINUTE;
      && t == minutes * NS_PER_MINUTE + t % NS_PER_MINUTE
      && t / (60 * NS_PER_MINUTE) == minutes / 60 && DayOf(t) == minutes / 1440
  {
  }

  /** Putting a day and a time of day together gives the instant of that day at which clocks show
      that time. */
  lemma AtShowsTime(t: int, hour: int, minute: int)
    requires 0 <= hour < 24 && 0 <= minute < 60
    ensures t == At(DayOf(t), hour, minute) <==> ShowsTime(t, hour, minute)
  {
    InMinutes(t);
    hide DayOf;
    var minutes := t / NS_PER_MINUTE;
    assert At(DayOf(t), hour, minute) == (1440 * DayOf(t) + 60 * hour + minute) * NS_PER_MINUTE;
    assert minutes == 1440 * DayOf(t) + 60 * hour + minute <==> minutes / 60 % 24 == hour && minutes % 60 == minute;
  }

  lemma DayOfAt(day: int, hour: int, minute: int)
    requires 0 <= hour < 24 && 0 <= minute < 60
    ensures DayOf(At(day, hour, minute)) == day
  {
  }
}
