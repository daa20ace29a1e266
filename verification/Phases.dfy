/** Which occurrences "every n" leaves, counted from any instant: those on the instant's phase. */
module Phases {
  import opened Wrappers
  import opened Calendar
  import opened Recurrence
  import opened Occurrences

  predicate Divides(n: int, x: int)
    requires n > 0
  {
    x % n == 0
  }

  /** The day of the rule's weekday on or after the day. */
  function WeekdayFrom(r: RecurrenceRule, day: int): int
    requires r.dayOfWeek.Some?
  {
    day + (r.dayOfWeek.value - Weekday(day) + 7) % 7
  }

  /** `to` lies a whole number of n-day, n-week or n-month steps from where `from` stands. */
  predicate OnPhase(r: RecurrenceRule, from: int, to: int)
    requires ValidRule(r)
  {
    match r.frequency
    case Daily => Divides(r.interval, DayOf(to) - DayOf(from))
    case Weekly => Divides(7 * r.interval, WeekdayFrom(r, DayOf(to)) - WeekdayFrom(r, DayOf(from)))
    case Monthly => Divides(r.interval, MonthOf(DayOf(to)) - MonthOf(DayOf(from)))
  }

  // ---- Multiples ----

  lemma DivisionUnique(x: int, n: int, q: int, r: int)
    requires n > 0 && 0 <= r < n && x == n * q + r
    ensures x % n == r
  {
    var d := q - x / n;
    assert n * d == x % n - r;
    assert d >= 1 ==> n * d >= n;
    assert d <= -1 ==> n * d <= -n;
  }

  lemma SameRest(n: int, a: int, b: int)
    requires n > 0 && Divides(n, a)
    ensures Divides(n, a + b) <==> Divides(n, b)
  {
    var q, r := a / n + b / n, b % n;
    assert a + b == n * q + r;
    DivisionUnique(a + b, n, q, r);
  }

  lemma IsMultiple(n: int, k: int)
    requires n > 0
    ensures Divides(n, n * k)
  {
    DivisionUnique(n * k, n, k, 0);
  }

  lemma WholeStep(n: int, a: int)
    requires n > 0 && Divides(n, a) && a > 0
    ensures a >= n
  {
  }

  // ---- Phases ----

  /** Being on a phase is having the same phase. */
  lemma PhaseJoins(r: RecurrenceRule, a: int, b: int, c: int)
    requires ValidRule(r) && OnPhase(r, a, b)
    ensures OnPhase(r, b, c) <==> OnPhase(r, a, c)
  {
    hide DayOf, MonthOf, WeekdayFrom, Divides;
    match r.frequency
    case Daily => SameRest(r.interval, DayOf(b) - DayOf(a), DayOf(c) - DayOf(b));
    case Weekly =>
      SameRest(7 * r.interval, WeekdayFrom(r, DayOf(b)) - WeekdayFrom(r, DayOf(a)),
        WeekdayFrom(r, DayOf(c)) - WeekdayFrom(r, DayOf(b)));
    case Monthly => SameRest(r.interval, MonthOf(DayOf(b)) - MonthOf(DayOf(a)), MonthOf(DayOf(c)) - MonthOf(DayOf(b)));
  }

  /** At interval 1 there is one phase. */
  lemma OnePhase(r: RecurrenceRule, from: int, to: int)
    requires ValidRule(r) && r.interval == 1
    ensures OnPhase(r, from, to)
  {
    hide DayOf, MonthOf, Weekday;
    if r.frequency.Weekly? {
      WeekdaysApart(r, DayOf(from), DayOf(to));
    }
  }

  lemma WeekdaysApart(r: RecurrenceRule, a: int, b: int)
    requires ValidRule(r) && r.frequency.Weekly?
    ensures Divides(7, WeekdayFrom(r, b) - WeekdayFrom(r, a))
  {
  }

  lemma WeekdayItself(r: RecurrenceRule, day: int)
    requires ValidRule(r) && r.frequency.Weekly? && Weekday(day) == r.dayOfWeek.value
    ensures WeekdayFrom(r, day) == day
  {
  }

  lemma WeekdayAhead(r: RecurrenceRule, day: int, ahead: int)
    requires ValidRule(r) && r.frequency.Weekly? && 0 <= ahead < 7 && Weekday(day + ahead) == r.dayOfWeek.value
    ensures WeekdayFrom(r, day) == day + ahead
  {
  }

  // ---- The search keeps to the phase ----

  /** The next occurrence is on the phase, and no occurrence on it comes before. */
  lemma NextIsLeastOnPhase(r: RecurrenceRule, from: int, o: int)
    requires ValidRule(r)
    ensures NextOccurrenceAfter(r, from).Some? ==> OnPhase(r, from, NextOccurrenceAfter(r, from).value)
    ensures Matches(r, o) && WithinEnd(r, o) && o > from && OnPhase(r, from, o) ==>
      NextOccurrenceAfter(r, from).Some? && NextOccurrenceAfter(r, from).value <= o
  {
    hide CivilDate, DayOf, NextDaily, NextWeekly, NextMonthly, MonthOf, Weekday, OnPhase, Matches;
    match r.frequency
    case Daily => DailyOnPhase(r, from, o);
    case Weekly => WeeklyOnPhase(r, from, o);
    case Monthly => MonthlyOnPhase(r, from, o);
  }

  lemma DailyOnPhase(r: RecurrenceRule, from: int, o: int)
    requires ValidRule(r) && r.frequency.Daily?
    ensures OnPhase(r, from, NextDaily(r, from))
    ensures Matches(r, o) && o > from && OnPhase(r, from, o) ==> NextDaily(r, from) <= o
  {
    hide CivilDate, DayOf, NextDaily, Divides, Matches;
    MatchesIsFallsOn(r, o);
    var n, day := r.interval, DayOf(from);
    DailyByDay(r, from);
    IsMultiple(n, 0);
    IsMultiple(n, 1);
    OnDayOrder(r, day, from);
    OnDayOrder(r, day + n, from);
    if Matches(r, o) && o > from && OnPhase(r, from, o) {
      DayNotBefore(from, o);
      if DayOf(o) > day {
        WholeStep(n, DayOf(o) - day);
        LaterDayLater(r, day + n, DayOf(o));
        LaterDayLater(r, day, DayOf(o));
      }
    }
  }

  lemma DayNotBefore(from: int, o: int)
    requires o > from
    ensures DayOf(o) >= DayOf(from)
  {
  }

  lemma LaterDayLater(r: RecurrenceRule, day: int, later: int)
    requires ValidTimeOfDay(r.timeOfDay)
    ensures day <= later ==> OnDay(r, day) <= OnDay(r, later)
  {
  }

  lemma WeeklyOnPhase(r: RecurrenceRule, from: int, o: int)
    requires ValidRule(r) && r.frequency.Weekly?
    ensures OnPhase(r, from, NextWeekly(r, from))
    ensures Matches(r, o) && o > from && OnPhase(r, from, o) ==> NextWeekly(r, from) <= o
  {
    hide CivilDate, DayOf, NextWeekly, Weekday, Divides, WeekdayFrom, Matches;
    MatchesIsFallsOn(r, o);
    var n := 7 * r.interval;
    var ahead := WeeklyByDay(r, from);
    var day := DayOf(from) + ahead;
    WeekdayAhead(r, DayOf(from), ahead);
    IsMultiple(n, 0);
    IsMultiple(n, 1);
    WeekdayRepeats(day, r.interval);
    WeekdayItself(r, day);
    WeekdayItself(r, day + n);
    OnDayOrder(r, day, from);
    OnDayOrder(r, day + n, from);
    if Matches(r, o) && o > from && OnPhase(r, from, o) {
      WeekdayItself(r, DayOf(o));
      DayNotBefore(from, o);
      WeekdayGap(DayOf(from), ahead, DayOf(o));
      if DayOf(o) > day {
        WholeStep(n, DayOf(o) - day);
        LaterDayLater(r, day + n, DayOf(o));
        LaterDayLater(r, day, DayOf(o));
      }
    }
  }

  lemma MonthlyOnPhase(r: RecurrenceRule, from: int, o: int)
    requires ValidRule(r) && r.frequency.Monthly?
    ensures NextMonthly(r, from).Some? ==> OnPhase(r, from, NextMonthly(r, from).value)
    ensures Matches(r, o) && o > from && OnPhase(r, from, o) ==>
      NextMonthly(r, from).Some? && NextMonthly(r, from).value <= o
  {
    hide CivilDate, DayOf, MonthOf, NextMonthly, MonthInstant, MonthHas, Matches, Term, Divides;
    var n, day, m := r.interval, r.dayOfMonth.value, MonthOf(DayOf(from));
    var first := MonthlyByMonth(r, from);
    if MonthHas(m, day) && MonthInstant(r, m, day) > from {
      MonthInstantIn(r, m);
      IsMultiple(n, 0);
    } else if NextMonthly(r, from).Some? {
      MonthInstantIn(r, Term(m + n, n, first));
      TermIs(m, n, first);
      IsMultiple(n, first + 1);
    }
    if Matches(r, o) && o > from && OnPhase(r, from, o) {
      LeastMonthOnPhase(r, from, o, first);
    }
  }

  lemma TermIs(m: int, n: int, j: int)
    ensures Term(m + n, n, j) - m == n * (j + 1)
  {
  }

  lemma StepsTo(n: int, a: int) returns (j: nat)
    requires n > 0 && Divides(n, a) && a > 0
    ensures a == n * (j + 1)
  {
    WholeStep(n, a);
    assert a == n * (a / n);
    assert a / n >= 1;
    j := a / n - 1;
  }

  lemma LeastMonthOnPhase(r: RecurrenceRule, from: int, o: int, first: nat)
    requires ValidRule(r) && r.frequency.Monthly? && Matches(r, o) && o > from && OnPhase(r, from, o)
    requires var m, n, day := MonthOf(DayOf(from)), r.interval, r.dayOfMonth.value;
      if MonthHas(m, day) && MonthInstant(r, m, day) > from
      then NextMonthly(r, from) == Some(MonthInstant(r, m, day))
      else && (NextMonthly(r, from).None? <==> NoMonthHas(m + n, n, day))
           && (NextMonthly(r, from).Some? ==>
                FirstMonthWith(m + n, n, day, first)
                && NextMonthly(r, from).value == MonthInstant(r, Term(m + n, n, first), day))
    ensures NextMonthly(r, from).Some? && NextMonthly(r, from).value <= o
  {
    hide CivilDate, DayOf, MonthOf, NextMonthly, MonthInstant, MonthHas, Matches, Term, Divides;
    var n, day, m, mo := r.interval, r.dayOfMonth.value, MonthOf(DayOf(from)), MonthOf(DayOf(o));
    MonthlyMatch(r, o);
    if mo < m {
      MonthOrder(o, from);
    } else if mo > m {
      if MonthHas(m, day) && MonthInstant(r, m, day) > from {
        MonthInstantIn(r, m);
        MonthOrder(MonthInstant(r, m, day), o);
      } else {
        var j := TermAt(m, n, mo);
        assert MonthHas(Term(m + n, n, j), day);
        MonthInstantIn(r, Term(m + n, n, first));
        if first < j {
          EarlierTerm(m, n, first, j);
          MonthOrder(NextMonthly(r, from).value, o);
        }
      }
    }
  }

  lemma TermAt(m: int, n: int, mo: int) returns (j: nat)
    requires n > 0 && mo > m && Divides(n, mo - m)
    ensures Term(m + n, n, j) == mo
  {
    hide Divides;
    j := StepsTo(n, mo - m);
    TermIs(m, n, j);
  }

  lemma EarlierTerm(m: int, n: int, i: nat, j: nat)
    requires n > 0 && i < j
    ensures Term(m + n, n, i) < Term(m + n, n, j)
  {
  }
}
