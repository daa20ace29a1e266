/** What NextOccurrenceAfter means: the occurrences of a rule, described without the search. */
module Occurrences {
  import opened Wrappers
  import opened Calendar
  import opened Recurrence

  /** At t clocks show the rule's time of day, and the date is of the kind the rule asks for. */
  predicate Matches(r: RecurrenceRule, t: int)
    requires ValidRule(r)
  {
    var date := CivilDate(DayOf(t));
    && ShowsTime(t, r.timeOfDay.hour, r.timeOfDay.minute)
    && match r.frequency
       case Daily => true
       case Weekly => DayOfWeek(date) == r.dayOfWeek.value
       case Monthly => date.day == r.dayOfMonth.value
  }

  /** The same, with the weekday counted from the day's number. */
  predicate FallsOn(r: RecurrenceRule, t: int)
    requires ValidRule(r)
  {
    && t == OnDay(r, DayOf(t))
    && match r.frequency
       case Daily => true
       case Weekly => Weekday(DayOf(t)) == r.dayOfWeek.value
       case Monthly => CivilDate(DayOf(t)).day == r.dayOfMonth.value
  }

  lemma MatchesIsFallsOn(r: RecurrenceRule, t: int)
    requires ValidRule(r)
    ensures Matches(r, t) <==> FallsOn(r, t)
  {
    AtShowsTime(t, r.timeOfDay.hour, r.timeOfDay.minute);
    WeekdayOfDate(CivilDate(DayOf(t)));
    hide ShowsTime, DayOf, Weekday, DayOfWeek, At, DayNumber, IsDate;
  }

  predicate WithinEnd(r: RecurrenceRule, t: int) {
    r.endsAt.None? || t <= r.endsAt.value
  }

  function OnDay(r: RecurrenceRule, day: int): int {
    At(day, r.timeOfDay.hour, r.timeOfDay.minute)
  }

  lemma OnDayOrder(r: RecurrenceRule, day: int, t: int)
    requires ValidTimeOfDay(r.timeOfDay)
    ensures DayOf(OnDay(r, day)) == day
    ensures day > DayOf(t) ==> OnDay(r, day) > t
    ensures day < DayOf(t) ==> OnDay(r, day) < t
  {
  }

  lemma DaysApart(r: RecurrenceRule, day: int, n: int)
    requires ValidTimeOfDay(r.timeOfDay)
    ensures AddDays(OnDay(r, day), n) == OnDay(r, day + n) == OnDay(r, day) + n * NS_PER_DAY
  {
    hide AddDays;
    AddDaysIsExact(OnDay(r, day), n);
  }

  // ----- the three searches in terms of day and month numbers -----

  lemma DailyByDay(r: RecurrenceRule, after: int)
    requires ValidRule(r) && r.frequency.Daily?
    ensures var day := DayOf(after);
            NextDaily(r, after) == if OnDay(r, day) > after then OnDay(r, day) else OnDay(r, day + r.interval)
  {
    hide CivilDate, DayOf, DayNumber, AddDays;
    DaysApart(r, DayOf(after), r.interval);
  }

  lemma WeeklyByDay(r: RecurrenceRule, after: int) returns (ahead: int)
    requires ValidRule(r) && r.frequency.Weekly?
    ensures 0 <= ahead < 7 && Weekday(DayOf(after) + ahead) == r.dayOfWeek.value
    ensures var day := DayOf(after) + ahead;
            NextWeekly(r, after) == if OnDay(r, day) > after then OnDay(r, day) else OnDay(r, day + 7 * r.interval)
  {
    hide CivilDate, DayOf, DayNumber, AddDays;
    var day := DayOf(after);
    ahead := (r.dayOfWeek.value - Weekday(day) + 7) % 7;
    DaysApart(r, day, ahead);
    DaysApart(r, day + ahead, 7 * r.interval);
  }

  lemma MonthlyByMonth(r: RecurrenceRule, after: int) returns (first: nat)
    requires ValidRule(r) && r.frequency.Monthly?
    ensures var m, day := MonthOf(DayOf(after)), r.dayOfMonth.value;
            if MonthHas(m, day) && MonthInstant(r, m, day) > after
            then NextMonthly(r, after) == Some(MonthInstant(r, m, day))
            else && (NextMonthly(r, after).None? <==> NoMonthHas(m + r.interval, r.interval, day))
                 && (NextMonthly(r, after).Some? ==>
                      && FirstMonthWith(m + r.interval, r.interval, day, first)
                      && NextMonthly(r, after).value == MonthInstant(r, Term(m + r.interval, r.interval, first), day))
  {
    hide CivilDate, DayOf, MonthLength, MonthStart, MonthOf, Term, NextValidMonth, NoMonthHas, FirstMonthWith;
    var d := CivilDate(DayOf(after));
    DateOfDay(DayOf(after));
    DaySurvivesNormalisation(d.year, d.month, r.dayOfMonth.value);
    DayOfAt(DayNumber(d.year, d.month, r.dayOfMonth.value), r.timeOfDay.hour, r.timeOfDay.minute);
    first := SearchIsComplete(r, d.year, d.month + r.interval, r.dayOfMonth.value);
  }

  lemma DateOfDay(n: int)
    ensures var d := CivilDate(n); MonthIndex(d.year, d.month) == MonthOf(n) && n == MonthStart(MonthOf(n)) + d.day - 1
  {
    hide MonthStart, MonthLength, MonthOf;
    var m := MonthOf(n);
    assert 12 * (m / 12) + m % 12 == m;
  }

  // ----- occurrences by month -----

  /** The instants matching a monthly rule, one per month that has the day. */
  lemma MonthlyMatch(r: RecurrenceRule, t: int)
    requires ValidRule(r) && r.frequency.Monthly?
    ensures Matches(r, t) <==>
            var m := MonthOf(DayOf(t)); MonthHas(m, r.dayOfMonth.value) && t == MonthInstant(r, m, r.dayOfMonth.value)
  {
    MatchesIsFallsOn(r, t);
    hide Matches, MonthStart, MonthLength, MonthOf, DayOf, At;
    DateOfDay(DayOf(t));
    var m := MonthOf(DayOf(t));
    if MonthHas(m, r.dayOfMonth.value) && t == MonthInstant(r, m, r.dayOfMonth.value) {
      DayOfAt(MonthStart(m) + r.dayOfMonth.value - 1, r.timeOfDay.hour, r.timeOfDay.minute);
    }
  }

  lemma MonthInstantIn(r: RecurrenceRule, m: int)
    requires ValidRule(r) && r.frequency.Monthly? && MonthHas(m, r.dayOfMonth.value)
    ensures var t := MonthInstant(r, m, r.dayOfMonth.value); MonthOf(DayOf(t)) == m && Matches(r, t)
  {
    hide MonthStart, MonthLength, MonthOf, DayOf;
    var day := MonthStart(m) + r.dayOfMonth.value - 1;
    DayOfAt(day, r.timeOfDay.hour, r.timeOfDay.minute);
    MonthOfUnique(day, m);
    MonthlyMatch(r, MonthInstant(r, m, r.dayOfMonth.value));
  }

  /** An earlier month means an earlier instant. */
  lemma MonthOrder(t: int, u: int)
    requires MonthOf(DayOf(t)) < MonthOf(DayOf(u))
    ensures t < u
  {
    MonthDays(DayOf(t), DayOf(u));
    hide MonthOf;
    EarlierDay(t, u);
  }

  lemma EarlierDay(t: int, u: int)
    requires DayOf(t) < DayOf(u)
    ensures t < u
  {
  }

  lemma MonthDays(a: int, b: int)
    requires MonthOf(a) < MonthOf(b)
    ensures a < b
  {
    hide MonthStart, MonthLength;
    MonthsInOrder(MonthOf(a), MonthOf(b));
  }

  // ----- main results -----

  /** The next occurrence is strictly later, matches the rule and keeps within its end. */
  lemma NextIsLaterMatch(r: RecurrenceRule, after: int)
    requires ValidRule(r)
    ensures var next := NextOccurrenceAfter(r, after);
            next.Some? ==> next.value > after && Matches(r, next.value) && WithinEnd(r, next.value)
  {
    hide CivilDate, DayOf, NextDaily, NextWeekly, NextMonthly, Matches;
    match r.frequency
    case Daily => DailyIsLaterMatch(r, after);
    case Weekly => WeeklyIsLaterMatch(r, after);
    case Monthly => MonthlyIsLaterMatch(r, after);
  }

  lemma DailyIsLaterMatch(r: RecurrenceRule, after: int)
    requires ValidRule(r) && r.frequency.Daily?
    ensures NextDaily(r, after) > after && Matches(r, NextDaily(r, after))
  {
    hide CivilDate, DayOf, NextDaily, Matches;
    MatchesIsFallsOn(r, NextDaily(r, after));
    DailyByDay(r, after);
    OnDayOrder(r, DayOf(after), after);
    OnDayOrder(r, DayOf(after) + r.interval, after);
  }

  lemma WeeklyIsLaterMatch(r: RecurrenceRule, after: int)
    requires ValidRule(r) && r.frequency.Weekly?
    ensures NextWeekly(r, after) > after && Matches(r, NextWeekly(r, after))
  {
    hide CivilDate, DayOf, NextWeekly, Weekday, Matches;
    MatchesIsFallsOn(r, NextWeekly(r, after));
    var ahead := WeeklyByDay(r, after);
    OnDayOrder(r, DayOf(after) + ahead, after);
    OnDayOrder(r, DayOf(after) + ahead + 7 * r.interval, after);
    WeekdayRepeats(DayOf(after) + ahead, r.interval);
  }

  lemma MonthlyIsLaterMatch(r: RecurrenceRule, after: int)
    requires ValidRule(r) && r.frequency.Monthly?
    ensures var next := NextMonthly(r, after);
            next.Some? ==> next.value > after && Matches(r, next.value)
  {
    hide CivilDate, DayOf, MonthOf, NextMonthly, MonthInstant, MonthHas, Matches, Term;
    var first := MonthlyByMonth(r, after);
    var m := MonthOf(DayOf(after));
    if MonthHas(m, r.dayOfMonth.value) && MonthInstant(r, m, r.dayOfMonth.value) > after {
      MonthInstantIn(r, m);
    } else if NextMonthly(r, after).Some? {
      MonthInstantIn(r, Term(m + r.interval, r.interval, first));
      LaterTerm(m, r.interval, first);
      MonthOrder(after, NextMonthly(r, after).value);
    }
  }

  lemma WeekdayRepeats(day: int, weeks: int)
    ensures Weekday(day + 7 * weeks) == Weekday(day)
  {
  }

  lemma LaterTerm(m: int, step: int, j: nat)
    requires step >= 1
    ensures Term(m + step, step, j) > m
  {
    assert j * step >= 0;
  }

  /** At interval 1 the search misses nothing: together with NextIsLaterMatch, its answer is the
      least matching instant after the argument, and it gives up only past the rule's end. */
  lemma EveryUnitIsLeast(r: RecurrenceRule, after: int, u: int)
    requires ValidRule(r) && r.interval == 1
    requires Matches(r, u) && u > after && WithinEnd(r, u)
    ensures NextOccurrenceAfter(r, after).Some? && NextOccurrenceAfter(r, after).value <= u
  {
    hide CivilDate, DayOf, NextDaily, NextWeekly, NextMonthly, MonthOf, Weekday, Matches;
    MatchesIsFallsOn(r, u);
    match r.frequency
    case Daily =>
      DailyByDay(r, after);
      DayAfter(r, DayOf(after), after, u);
    case Weekly =>
      LeastWeekly(r, after, u);
    case Monthly =>
      LeastMonthly(r, after, u);
  }

  lemma LeastWeekly(r: RecurrenceRule, after: int, u: int)
    requires ValidRule(r) && r.interval == 1 && r.frequency.Weekly?
    requires Matches(r, u) && u > after
    ensures NextWeekly(r, after) <= u
  {
    hide CivilDate, NextWeekly, Matches;
    MatchesIsFallsOn(r, u);
    var ahead := WeeklyByDay(r, after);
    WeekdayGap(DayOf(after), ahead, DayOf(u));
  }

  lemma DayAfter(r: RecurrenceRule, day: int, after: int, u: int)
    requires ValidTimeOfDay(r.timeOfDay) && day == DayOf(after) && u > after && u == OnDay(r, DayOf(u))
    ensures OnDay(r, day) > after ==> OnDay(r, day) <= u
    ensures OnDay(r, day) <= after ==> OnDay(r, day + 1) <= u
  {
  }

  lemma WeekdayGap(from: int, ahead: int, day: int)
    requires 0 <= ahead < 7 && day >= from && Weekday(day) == Weekday(from + ahead)
    ensures day >= from + ahead
    ensures day == from + ahead || day >= from + ahead + 7
  {
  }

  lemma LeastMonthly(r: RecurrenceRule, after: int, u: int)
    requires ValidRule(r) && r.interval == 1 && r.frequency.Monthly?
    requires Matches(r, u) && u > after
    ensures NextMonthly(r, after).Some? && NextMonthly(r, after).value <= u
  {
    hide CivilDate, DayOf, MonthOf, NextMonthly, MonthInstant, MonthHas, Matches, Term;
    var day := r.dayOfMonth.value;
    var first := MonthlyByMonth(r, after);
    MonthlyMatch(r, u);
    var m, mu := MonthOf(DayOf(after)), MonthOf(DayOf(u));
    if mu < m {
      MonthOrder(u, after);
    } else if mu == m {
      assert NextMonthly(r, after) == Some(u);
    } else if MonthHas(m, day) && MonthInstant(r, m, day) > after {
      MonthInstantIn(r, m);
      MonthOrder(MonthInstant(r, m, day), u);
    } else {
      TermByOne(m + 1, mu - m - 1);
      assert MonthHas(Term(m + 1, 1, mu - m - 1), day);
      assert first <= mu - m - 1;
      TermByOne(m + 1, first);
      MonthInstantIn(r, m + 1 + first);
      if first < mu - m - 1 {
        MonthOrder(MonthInstant(r, m + 1 + first, day), u);
      }
    }
  }

  lemma TermByOne(x: int, j: int)
    ensures Term(x, 1, j) == x + j
  {
  }

  /** From an occurrence, "every n" steps by exactly n days, by exactly n weeks, or to the first
      n-month step whose month has the day - and to nothing only when no step ever has it. */
  lemma StepFromOccurrence(r: RecurrenceRule, t: int) returns (steps: nat)
    requires ValidRule(r) && Matches(r, t) && r.endsAt.None?
    ensures var next := NextOccurrenceAfter(r, t);
            match r.frequency
            case Daily => next == Some(t + r.interval * NS_PER_DAY)
            case Weekly => next == Some(t + 7 * r.interval * NS_PER_DAY)
            case Monthly =>
              var from, day := MonthOf(DayOf(t)) + r.interval, r.dayOfMonth.value;
              && (next.None? <==> NoMonthHas(from, r.interval, day))
              && (next.Some? ==> && Matches(r, next.value)
                                 && MonthOf(DayOf(next.value)) == Term(from, r.interval, steps)
                                 && FirstMonthWith(from, r.interval, day, steps))
  {
    hide CivilDate, DayOf, MonthOf, NextDaily, NextWeekly, NextMonthly, MonthInstant, MonthHas, Term, NoMonthHas,
         FirstMonthWith, Weekday, Matches;
    steps := 0;
    match r.frequency
    case Daily =>
      MatchesIsFallsOn(r, t);
      DailyByDay(r, t);
      DaysApart(r, DayOf(t), r.interval);
    case Weekly =>
      StepWeekly(r, t);
    case Monthly =>
      steps := StepMonthly(r, t);
  }

  lemma StepWeekly(r: RecurrenceRule, t: int)
    requires ValidRule(r) && Matches(r, t) && r.frequency.Weekly?
    ensures NextWeekly(r, t) == t + 7 * r.interval * NS_PER_DAY
  {
    hide CivilDate, DayOf, NextWeekly, Matches;
    MatchesIsFallsOn(r, t);
    var ahead := WeeklyByDay(r, t);
    WeekdayGap(DayOf(t), ahead, DayOf(t));
    DaysApart(r, DayOf(t), 7 * r.interval);
  }

  lemma StepMonthly(r: RecurrenceRule, t: int) returns (steps: nat)
    requires ValidRule(r) && Matches(r, t) && r.frequency.Monthly?
    ensures var next, from, day := NextMonthly(r, t), MonthOf(DayOf(t)) + r.interval, r.dayOfMonth.value;
            && (next.None? <==> NoMonthHas(from, r.interval, day))
            && (next.Some? ==> && Matches(r, next.value)
                               && MonthOf(DayOf(next.value)) == Term(from, r.interval, steps)
                               && FirstMonthWith(from, r.interval, day, steps))
  {
    hide CivilDate, DayOf, MonthOf, NextMonthly, MonthInstant, MonthHas, Matches, Term;
    MonthlyMatch(r, t);
    steps := MonthlyByMonth(r, t);
    if NextMonthly(r, t).Some? {
      MonthInstantIn(r, Term(MonthOf(DayOf(t)) + r.interval, r.interval, steps));
    }
  }

  /** A 31st every 12 months from February never comes. */
  lemma ThirtyFirstFromFebruary(r: RecurrenceRule, year: int, after: int)
    requires ValidRule(r) && r.frequency.Monthly? && r.dayOfMonth == Some(31) && r.interval == 12
    requires MonthOf(DayOf(after)) == MonthIndex(year, 2)
    ensures NextOccurrenceAfter(r, after).None?
  {
    hide CivilDate, DayOf, MonthOf, NextMonthly, MonthInstant, MonthHas, Term;
    var first := MonthlyByMonth(r, after);
    var m := MonthOf(DayOf(after));
    NoThirtyFirst(m);
    var from := m + 12;
    forall j: nat ensures !MonthHas(Term(from, 12, j), 31) {
      SameName(from, j);
      NoThirtyFirst(Term(from, 12, j));
    }
  }

  /** From January it comes every January. */
  lemma ThirtyFirstFromJanuary(r: RecurrenceRule, year: int, after: int)
    requires ValidRule(r) && r.frequency.Monthly? && r.dayOfMonth == Some(31) && r.interval == 12 && r.endsAt.None?
    requires MonthOf(DayOf(after)) == MonthIndex(year, 1)
    ensures var m := MonthIndex(year, 1);
      NextOccurrenceAfter(r, after) == Some(MonthInstant(r, if MonthInstant(r, m, 31) > after then m else m + 12, 31))
  {
    hide CivilDate, DayOf, MonthOf, NextMonthly, MonthInstant, MonthHas, Term, MonthIndex;
    var first := MonthlyByMonth(r, after);
    EveryJanuary(year);
    FirstTerm(MonthIndex(year, 1) + 12);
  }

  lemma FirstTerm(m: int)
    ensures Term(m, 12, 0) == m
  {
  }

  lemma EveryJanuary(year: int)
    ensures MonthHas(MonthIndex(year, 1), 31) && MonthHas(MonthIndex(year, 1) + 12, 31)
  {
    assert MonthIndex(year, 1) % 12 == 0 && (MonthIndex(year, 1) + 12) % 12 == 0;
    hide IsLeap;
  }

  lemma SameName(m: int, j: int)
    ensures Term(m, 12, j) % 12 == m % 12
  {
  }

  lemma NoThirtyFirst(m: int)
    requires m % 12 == 1
    ensures !MonthHas(m, 31)
  {
  }
}
