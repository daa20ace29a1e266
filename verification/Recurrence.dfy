/** Recurrence rules and the search for the next occurrence
    (activity/internal/domain/recurrence.go). Instants are those of module Calendar. */
module Recurrence {
  import opened Wrappers
  import opened Calendar

  datatype Frequency = Daily | Weekly | Monthly | UnknownFrequency(name: string)

  datatype TimeOfDay = TimeOfDay(hour: int, minute: int)

  datatype RecurrenceRule = RecurrenceRule(
    frequency: Frequency,
    interval: int,
    dayOfWeek: Option<int>,
    timeOfDay: TimeOfDay,
    dayOfMonth: Option<int>,
    endsAt: Option<int>)

  datatype RuleError =
    | InvalidRecurrenceRule | MissingInterval | MissingTimeOfDay | InvalidDayOfWeek
    | MissingDayOfMonth | InvalidDayOfMonth | EndDateInPast

  /** What NewTimeOfDay accepts. */
  predicate ValidTimeOfDay(t: TimeOfDay) {
    0 <= t.hour < 24 && 0 <= t.minute < 60
  }

  predicate ValidRule(r: RecurrenceRule) {
    && r.interval >= 1
    && ValidTimeOfDay(r.timeOfDay)
    && match r.frequency
       case Daily => true
       case Weekly => r.dayOfWeek.Some? && 0 <= r.dayOfWeek.value <= 6
       case Monthly => r.dayOfMonth.Some? && 1 <= r.dayOfMonth.value <= 31
       case UnknownFrequency(_) => false
  }

  /** A rule comes into being only valid and not yet ended, and every such combination is accepted. */
  function NewRecurrenceRule(frequency: Frequency, timeOfDay: TimeOfDay, interval: int,
                             dayOfWeek: Option<int>, dayOfMonth: Option<int>, endsAt: Option<int>,
                             now: int): (result: Result<RecurrenceRule, RuleError>)
    requires ValidTimeOfDay(timeOfDay)
    ensures var r := RecurrenceRule(frequency, interval, dayOfWeek, timeOfDay, dayOfMonth, endsAt);
            if ValidRule(r) && (endsAt.Some? ==> now <= endsAt.value) then result == Ok(r) else result.Err?
  {
    var r := RecurrenceRule(frequency, interval, dayOfWeek, timeOfDay, dayOfMonth, endsAt);
    if frequency.UnknownFrequency? then Err(InvalidRecurrenceRule)
    else if interval < 1 then Err(MissingInterval)
    else if frequency.Weekly? && dayOfWeek.None? then Err(MissingTimeOfDay)
    else if frequency.Weekly? && !(0 <= dayOfWeek.value <= 6) then Err(InvalidDayOfWeek)
    else if frequency.Monthly? && dayOfMonth.None? then Err(MissingDayOfMonth)
    else if frequency.Monthly? && !(1 <= dayOfMonth.value <= 31) then Err(InvalidDayOfMonth)
    else if endsAt.Some? && endsAt.value < now then Err(EndDateInPast)
    else Ok(r)
  }

  // ----- the next occurrence -----

  const MAX_MONTH_SEARCHES: nat := 100

  function NextOccurrenceAfter(r: RecurrenceRule, after: int): Option<int>
    requires ValidRule(r)
  {
    var next := match r.frequency
      case Daily => Some(NextDaily(r, after))
      case Weekly => Some(NextWeekly(r, after))
      case Monthly => NextMonthly(r, after);
    if next.Some? && r.endsAt.Some? && next.value > r.endsAt.value then None else next
  }

  function NextDaily(r: RecurrenceRule, after: int): int {
    var d := CivilDate(DayOf(after));
    var candidate := TimeDate(d.year, d.month, d.day, r.timeOfDay.hour, r.timeOfDay.minute);
    if candidate > after then candidate else AddDays(candidate, r.interval)
  }

  function NextWeekly(r: RecurrenceRule, after: int): int
    requires r.dayOfWeek.Some?
  {
    var daysUntil := (r.dayOfWeek.value - Weekday(DayOf(after)) + 7) % 7;
    var d := CivilDate(DayOf(after));
    var candidate := AddDays(TimeDate(d.year, d.month, d.day, r.timeOfDay.hour, r.timeOfDay.minute), daysUntil);
    if candidate > after then candidate else AddDays(candidate, 7 * r.interval)
  }

  function NextMonthly(r: RecurrenceRule, after: int): Option<int>
    requires r.dayOfMonth.Some?
  {
    var d := CivilDate(DayOf(after));
    var candidate := TimeDate(d.year, d.month, r.dayOfMonth.value, r.timeOfDay.hour, r.timeOfDay.minute);
    if candidate <= after || CivilDate(DayOf(candidate)).day != r.dayOfMonth.value
    then NextValidMonth(r, d.year, d.month + r.interval, r.dayOfMonth.value, MAX_MONTH_SEARCHES)
    else Some(candidate)
  }

  /** The outcome of at most `tries` rounds of the month search. */
  function NextValidMonth(r: RecurrenceRule, year: int, month: int, targetDay: int, tries: nat): Option<int>
    decreases tries
  {
    if tries == 0 then None
    else
      var candidate := TimeDate(year, month, targetDay, r.timeOfDay.hour, r.timeOfDay.minute);
      if CivilDate(DayOf(candidate)).day == targetDay then Some(candidate)
      else NextValidMonth(r, year, month + r.interval, targetDay, tries - 1)
  }

  /** The bounded loop itself. */
  method SearchValidMonth(r: RecurrenceRule, year: int, startMonth: int, targetDay: int) returns (found: Option<int>)
    ensures found == NextValidMonth(r, year, startMonth, targetDay, MAX_MONTH_SEARCHES)
  {
    hide CivilDate, TimeDate, DayOf;
    var month := startMonth;
    for n := 0 to MAX_MONTH_SEARCHES
      invariant NextValidMonth(r, year, startMonth, targetDay, MAX_MONTH_SEARCHES)
             == NextValidMonth(r, year, month, targetDay, MAX_MONTH_SEARCHES - n)
    {
      var candidate := TimeDate(year, month, targetDay, r.timeOfDay.hour, r.timeOfDay.minute);
      if CivilDate(DayOf(candidate)).day == targetDay {
        return Some(candidate);
      }
      month := month + r.interval;
    }
    return None;
  }

  // ----- the month search is complete -----

  predicate MonthHas(m: int, day: int) {
    day <= MonthLength(m)
  }

  function MonthInstant(r: RecurrenceRule, m: int, day: int): int {
    At(MonthStart(m) + day - 1, r.timeOfDay.hour, r.timeOfDay.minute)
  }

  /** Term j of the progression x, x + step, x + 2 step, ... */
  function Term(x: int, step: int, j: int): int {
    x + j * step
  }

  ghost predicate NoMonthHas(m: int, step: int, day: int) {
    forall j: nat :: !MonthHas(Term(m, step, j), day)
  }

  /** Term j is the first month of the progression that has the day. */
  ghost predicate FirstMonthWith(m: int, step: int, day: int, j: nat) {
    MonthHas(Term(m, step, j), day) && forall i :: 0 <= i < j ==> !MonthHas(Term(m, step, i), day)
  }

  /** After j steps the progression stands where it stood after j % k steps, up to a multiple of k. */
  lemma StepsSplit(x: int, step: int, j: nat, k: int) returns (t: int)
    requires k > 0
    ensures Term(x, step, j) == Term(x, step, j % k) + k * t
  {
    t := (j / k) * step;
    assert (k * (j / k) + j % k) * step == k * t + (j % k) * step;
  }

  lemma RemainderMod4(x: int, step: int, j: nat)
    ensures Term(x, step, j) % 4 == Term(x, step, j % 4) % 4 == Term(x, step, j % 4 + 4) % 4
  {
    hide Term;
    var t := StepsSplit(x, step, j, 4);
    var s := StepsSplit(x, step, j % 4 + 4, 4);
    SameRemainder4(Term(x, step, j), Term(x, step, j % 4), t);
    SameRemainder4(Term(x, step, j % 4 + 4), Term(x, step, j % 4), s);
  }

  lemma SameRemainder4(u: int, v: int, t: int)
    requires u == v + 4 * t
    ensures u % 4 == v % 4
  {
    assert u / 4 == v / 4 + t;
  }

  lemma RemainderMod12(x: int, step: int, j: nat)
    ensures Term(x, step, j) % 12 == Term(x, step, j % 12) % 12
  {
    hide Term;
    var t := StepsSplit(x, step, j, 12);
    assert Term(x, step, j) / 12 == Term(x, step, j % 12) / 12 + t;
  }

  lemma RemainderMod16(x: int, step: int, j: nat)
    ensures Term(x, step, j) % 16 == Term(x, step, j % 16) % 16
  {
    hide Term;
    var t := StepsSplit(x, step, j, 16);
    assert Term(x, step, j) / 16 == Term(x, step, j % 16) / 16 + t;
  }

  /** When 25 divides two terms four steps apart, it divides the step and so every term. */
  lemma CenturiesForever(x: int, step: int, a: int, j: int)
    requires Term(x, step, a) % 25 == 0 && Term(x, step, a + 4) % 25 == 0
    ensures Term(x, step, j) % 25 == 0
  {
    assert (a + 4) * step == a * step + 4 * step;
    assert j * step == a * step + (j - a) * step;
    MultiplesOf25(Term(x, step, a), step, j - a);
  }

  lemma MultiplesOf25(y: int, step: int, n: int)
    requires y % 25 == 0 && (y + 4 * step) % 25 == 0
    ensures (y + n * step) % 25 == 0
  {
    assert step % 25 == 0;
    var q := step / 25;
    assert n * (25 * q) == 25 * (n * q);
  }

  lemma MultipleBy4(b: int)
    ensures (25 * b) % 4 == 0 <==> b % 4 == 0
    ensures (25 * b) % 100 == 0 <==> b % 4 == 0
  {
    var k, r := b / 4, b % 4;
    assert b == 4 * k + r;
    RestBy4(25 * b, 25 * k + 6 * r, r);
    RestBy100(25 * b, k, 25 * r);
  }

  lemma MultipleBy16(b: int)
    ensures (25 * b) % 16 == 0 <==> b % 16 == 0
    ensures (25 * b) % 400 == 0 <==> b % 16 == 0
  {
    var k, r := b / 16, b % 16;
    assert b == 16 * k + r;
    RestBy400(25 * b, k, 25 * r);
    RestBy16(25 * b, 25 * k + r + 9 * r / 16, 9 * r % 16);
    assert 9 * r % 16 == 0 <==> r == 0;
  }

  lemma RestBy4(x: int, q: int, r: int)
    requires x == 4 * q + r && 0 <= r < 4
    ensures x % 4 == r
  {
  }

  lemma RestBy16(x: int, q: int, r: int)
    requires x == 16 * q + r && 0 <= r < 16
    ensures x % 16 == r
  {
  }

  lemma RestBy100(x: int, q: int, r: int)
    requires x == 100 * q + r && 0 <= r < 100
    ensures x % 100 == r
  {
  }

  lemma RestBy400(x: int, q: int, r: int)
    requires x == 400 * q + r && 0 <= r < 400
    ensures x % 400 == r
  {
  }

  lemma LeapIff(y: int)
    ensures IsLeap(y) <==> y % 4 == 0 && (y % 25 != 0 || y % 16 == 0)
    ensures y % 16 == 0 ==> y % 4 == 0
  {
    hide IsLeap;
    SixteenthsAreQuarters(y);
    if y % 25 == 0 {
      assert 25 * (y / 25) == y;
      MultipleBy4(y / 25);
      MultipleBy16(y / 25);
    } else {
      NoCentury(y);
    }
    LeapMeans(y);
  }

  lemma SixteenthsAreQuarters(y: int)
    ensures y % 16 == 0 ==> y % 4 == 0
  {
    assert y == 4 * (4 * (y / 16)) + y % 16;
  }

  lemma NoCentury(y: int)
    requires y % 25 != 0
    ensures y % 100 != 0 && y % 400 != 0
  {
    assert y == 25 * (4 * (y / 100)) + y % 100;
    assert y == 25 * (16 * (y / 400)) + y % 400;
  }

  lemma LeapMeans(y: int)
    ensures IsLeap(y) <==> y % 4 == 0 && (y % 100 != 0 || y % 400 == 0)
  {
  }

  /** Of the years y, y + step, y + 2 step, ... a leap year is among the first 16 or nowhere. */
  lemma LeapYearWithin16(y: int, step: int, j: nat) returns (i: nat)
    requires IsLeap(Term(y, step, j))
    ensures i < 16 && IsLeap(Term(y, step, i))
  {
    hide IsLeap, Term;
    LeapIff(Term(y, step, j));
    if Term(y, step, j) % 16 == 0 {
      i := j % 16;
      RemainderMod16(y, step, j);
    } else {
      RemainderMod4(y, step, j);
      if Term(y, step, j % 4) % 25 != 0 {
        i := j % 4;
      } else if Term(y, step, j % 4 + 4) % 25 != 0 {
        i := j % 4 + 4;
      } else {
        CenturiesForever(y, step, j % 4, j);
        assert false;
      }
    }
    LeapIff(Term(y, step, i));
  }

  // Whether a month has a 30th or a 31st depends on its name alone.
  lemma LengthByName(m: int, n: int, day: int)
    requires day >= 30 && m % 12 == n % 12
    ensures MonthHas(m, day) <==> MonthHas(n, day)
  {
  }

  lemma EveryMonthHas28(m: int, day: int)
    requires day <= 28
    ensures MonthHas(m, day)
  {
    MonthStep(m);
  }

  lemma OnlyFebruaryIsShort(m: int)
    ensures MonthHas(m, 29) <==> m % 12 != 1 || IsLeap(m / 12)
  {
  }

  lemma FebruaryYears(m: int, years: int, j: int)
    requires m % 12 == 1
    ensures Term(m, 12 * years, j) % 12 == 1 && Term(m, 12 * years, j) / 12 == Term(m / 12, years, j)
  {
    assert j * (12 * years) == 12 * (j * years);
    FebruaryOf(Term(m, 12 * years, j), Term(m / 12, years, j));
  }

  lemma FebruaryOf(month: int, year: int)
    requires month == 12 * year + 1
    ensures month % 12 == 1 && month / 12 == year
  {
  }

  /** If any month of the progression m, m + step, m + 2 step, ... has the day, so does one
      of the first 16. */
  lemma SixteenTriesSuffice(m: int, step: int, day: int, j: nat) returns (i: nat)
    requires 1 <= day <= 31 && MonthHas(Term(m, step, j), day)
    ensures i < 16 && MonthHas(Term(m, step, i), day)
  {
    hide MonthHas, IsLeap, Term;
    if day <= 28 {
      i := 0;
      EveryMonthHas28(Term(m, step, i), day);
    } else if day >= 30 {
      i := j % 12;
      RemainderMod12(m, step, j);
      LengthByName(Term(m, step, j), Term(m, step, i), day);
    } else {
      i := TwentyNinth(m, step, j);
    }
  }

  lemma TwentyNinth(m: int, step: int, j: nat) returns (i: nat)
    requires MonthHas(Term(m, step, j), 29)
    ensures i < 16 && MonthHas(Term(m, step, i), 29)
  {
    hide MonthHas, IsLeap, Term;
    TermShift(m, step, 0);
    TermShift(m + step, step, 0);
    if m % 12 != 1 {
      i := 0;
      OnlyFebruaryIsShort(m);
    } else if step % 12 != 0 {
      i := 1;
      OnlyFebruaryIsShort(m + step);
    } else {
      i := LeapFebruary(m, step / 12, j);
      assert 12 * (step / 12) == step;
    }
  }

  /** February every time: the years decide. */
  lemma LeapFebruary(m: int, years: int, j: nat) returns (i: nat)
    requires m % 12 == 1 && MonthHas(Term(m, 12 * years, j), 29)
    ensures i < 16 && MonthHas(Term(m, 12 * years, i), 29)
  {
    hide MonthHas, IsLeap, Term;
    FebruaryYears(m, years, j);
    OnlyFebruaryIsShort(Term(m, 12 * years, j));
    i := LeapYearWithin16(m / 12, years, j);
    FebruaryYears(m, years, i);
    OnlyFebruaryIsShort(Term(m, 12 * years, i));
  }

  lemma TermShift(x: int, step: int, j: int)
    ensures Term(x + step, step, j) == Term(x, step, j + 1)
    ensures Term(x, step, 0) == x
  {
  }

  /** Where the bounded search ends up: the first month of the progression that has the day. */
  lemma {:induction false} SearchFinds(r: RecurrenceRule, year: int, month: int, day: int, tries: nat) returns (j: nat)
    requires ValidTimeOfDay(r.timeOfDay) && 1 <= day <= 31
    ensures var m := MonthIndex(year, month);
            && j <= tries
            && (forall i :: 0 <= i < j ==> !MonthHas(Term(m, r.interval, i), day))
            && (j < tries ==> MonthHas(Term(m, r.interval, j), day))
            && NextValidMonth(r, year, month, day, tries)
               == if j < tries then Some(MonthInstant(r, Term(m, r.interval, j), day)) else None
    decreases tries
  {
    hide MonthLength, MonthStart, CivilDate, DayOf, Term;
    var m := MonthIndex(year, month);
    TermShift(m, r.interval, 0);
    if tries == 0 {
      j := 0;
    } else {
      DayOfAt(DayNumber(year, month, day), r.timeOfDay.hour, r.timeOfDay.minute);
      DaySurvivesNormalisation(year, month, day);
      if MonthHas(m, day) {
        j := 0;
      } else {
        var k := SearchFinds(r, year, month + r.interval, day, tries - 1);
        j := k + 1;
        TermShift(m, r.interval, k);
        forall i | 0 <= i < j
          ensures !MonthHas(Term(m, r.interval, i), day)
        {
          TermShift(m, r.interval, i - 1);
        }
      }
    }
  }

  /** The search gives up after its 100 tries only when no month of the progression, however
      far on, has the day; otherwise it returns the first that does, within 16 tries. */
  lemma SearchIsComplete(r: RecurrenceRule, year: int, month: int, day: int) returns (first: nat)
    requires ValidTimeOfDay(r.timeOfDay) && 1 <= day <= 31
    ensures var m := MonthIndex(year, month);
            var found := NextValidMonth(r, year, month, day, MAX_MONTH_SEARCHES);
            && (found.None? <==> NoMonthHas(m, r.interval, day))
            && (found.Some? ==> && first < 16 && FirstMonthWith(m, r.interval, day, first)
                                && found.value == MonthInstant(r, Term(m, r.interval, first), day))
  {
    hide MonthHas, MonthInstant, NextValidMonth, MonthIndex, Term;
    var m := MonthIndex(year, month);
    first := SearchFinds(r, year, month, day, MAX_MONTH_SEARCHES);
    forall j: nat | MonthHas(Term(m, r.interval, j), day)
      ensures first < 16
    {
      var i := SixteenTriesSuffice(m, r.interval, day, j);
    }
  }
}
