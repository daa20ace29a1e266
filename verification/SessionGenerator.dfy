/** Generating sessions from a recurring template: the loop over occurrences and the
    generated_up_to watermark that cron runs resume from
    (activity/internal/application/session_generator_service.go). */
module SessionGenerator {
  import opened Wrappers
  import opened Recurrence
  import opened Occurrences
  import opened Phases

  /** What outlives a run: the watermark, and the start times of the sessions created, in order. */
  datatype Template = Template(generatedUpTo: Option<int>, sessions: seq<int>)

  /** The environment of one cron run: the clock when it starts and when it fixes its window, the
      occurrences whose transaction fails, whether the watermark write fails, and whether the group
      is cancelled or deleted. */
  datatype CronRun = CronRun(startedAt: int, now: int, failing: set<int>, watermarkFails: bool, groupGone: bool)

  /** The occurrences the loop walks from `from` up to and including `until`. */
  function Walk(rule: RecurrenceRule, from: int, until: int): seq<int>
    requires ValidRule(rule)
    decreases until - from
  {
    hide *;
    NextIsLaterMatch(rule, from);
    var next := NextOccurrenceAfter(rule, from);
    if next.None? || next.value > until then [] else [next.value] + Walk(rule, next.value, until)
  }

  /** A session is created unless its transaction fails or its start already lies in the past. */
  predicate Creates(run: CronRun, occurrence: int) {
    occurrence !in run.failing && run.now <= occurrence
  }

  function Created(run: CronRun, occurrences: seq<int>): seq<int> {
    if occurrences == [] then []
    else (if Creates(run, occurrences[0]) then [occurrences[0]] else []) + Created(run, occurrences[1..])
  }

  /** The sessions still to create, one occurrence further. */
  lemma WalkOn(rule: RecurrenceRule, run: CronRun, from: int, until: int)
    requires ValidRule(rule)
    ensures var next := NextOccurrenceAfter(rule, from);
      Created(run, Walk(rule, from, until)) ==
        if next.None? || next.value > until then []
        else (if Creates(run, next.value) then [next.value] else []) + Created(run, Walk(rule, next.value, until))
  {
    hide NextOccurrenceAfter, Creates;
    var next := NextOccurrenceAfter(rule, from);
    if next.Some? && next.value <= until {
      assert Walk(rule, from, until)[1..] == Walk(rule, next.value, until);
    }
  }

  predicate Skipped(rule: RecurrenceRule, run: CronRun) {
    (rule.endsAt.Some? && run.now > rule.endsAt.value) || run.groupGone
  }

  function Start(t: Template, run: CronRun): int {
    if t.generatedUpTo.Some? then t.generatedUpTo.value else run.startedAt
  }

  /** The sessions one run adds. */
  function Added(rule: RecurrenceRule, lookahead: nat, t: Template, run: CronRun): seq<int>
    requires ValidRule(rule)
  {
    if Skipped(rule, run) then [] else Created(run, Walk(rule, Start(t, run), run.now + lookahead))
  }

  function AfterRun(rule: RecurrenceRule, lookahead: nat, t: Template, run: CronRun): Template
    requires ValidRule(rule)
  {
    var added := Added(rule, lookahead, t, run);
    Template(
      if added != [] && !run.watermarkFails then Some(run.now + lookahead) else t.generatedUpTo,
      t.sessions + added)
  }

  /** The stored template and sessions, and the run over them. */
  class Generator {
    var generatedUpTo: Option<int>
    var sessions: seq<int>

    function State(): Template
      reads this
    {
      Template(generatedUpTo, sessions)
    }

    constructor ()
      ensures State() == Template(None, [])
    {
      generatedUpTo, sessions := None, [];
    }

    method GenerateSessionsForTemplate(rule: RecurrenceRule, lookahead: nat, run: CronRun)
      returns (sessionsGenerated: nat)
      requires ValidRule(rule)
      modifies this
      ensures State() == AfterRun(rule, lookahead, old(State()), run)
      ensures sessionsGenerated == |sessions| - |old(sessions)|
    {
      hide NextOccurrenceAfter, Walk, Created;
      var startFrom := run.startedAt;
      if generatedUpTo.Some? {
        startFrom := generatedUpTo.value;
      }
      var generateUntil := run.now + lookahead;
      if (rule.endsAt.Some? && run.now > rule.endsAt.value) || run.groupGone {
        return 0;
      }

      sessionsGenerated := 0;
      var currentTime := startFrom;
      while true
        invariant sessionsGenerated == |sessions| - |old(sessions)|
        invariant generatedUpTo == old(generatedUpTo)
        invariant sessions + Created(run, Walk(rule, currentTime, generateUntil))
               == old(sessions) + Created(run, Walk(rule, startFrom, generateUntil))
        decreases generateUntil - currentTime
      {
        NextIsLaterMatch(rule, currentTime);
        WalkOn(rule, run, currentTime, generateUntil);
        var nextOccurrence := NextOccurrenceAfter(rule, currentTime);
        if nextOccurrence.None? {
          break;
        }
        if nextOccurrence.value > generateUntil {
          break;
        }
        if nextOccurrence.value in run.failing || nextOccurrence.value < run.now {
          currentTime := nextOccurrence.value;
          continue;
        }
        sessions := sessions + [nextOccurrence.value];
        sessionsGenerated := sessionsGenerated + 1;
        currentTime := nextOccurrence.value;
      }
      if sessionsGenerated > 0 && !run.watermarkFails {
        generatedUpTo := Some(generateUntil);
      }
    }
  }

  // ----- one run -----

  predicate Increasing(s: seq<int>) {
    forall i, j :: 0 <= i < j < |s| ==> s[i] < s[j]
  }

  lemma IncreasingConcat(a: seq<int>, b: seq<int>)
    requires Increasing(a) && Increasing(b) && forall x, y :: x in a && y in b ==> x < y
    ensures Increasing(a + b)
  {
    forall i, j | 0 <= i < j < |a + b|
      ensures (a + b)[i] < (a + b)[j]
    {
      if i < |a| <= j {
        assert a[i] in a && b[j - |a|] in b;
      }
    }
  }

  /** The walk visits instants of the rule in the window, each later than the one before. */
  lemma {:induction false} WalkInWindow(rule: RecurrenceRule, from: int, until: int)
    requires ValidRule(rule)
    ensures var w := Walk(rule, from, until);
            Increasing(w) && forall o :: o in w ==> from < o <= until && Matches(rule, o) && WithinEnd(rule, o)
    decreases until - from
  {
    hide NextOccurrenceAfter, Matches;
    NextIsLaterMatch(rule, from);
    var next := NextOccurrenceAfter(rule, from);
    if next.Some? && next.value <= until {
      WalkInWindow(rule, next.value, until);
      IncreasingConcat([next.value], Walk(rule, next.value, until));
    }
  }

  /** The walk visits exactly the instants of the rule in the window that are on the phase of where
      it starts. */
  lemma {:induction false} WalkIsPhase(rule: RecurrenceRule, from: int, until: int, o: int)
    requires ValidRule(rule)
    ensures o in Walk(rule, from, until) <==>
      Matches(rule, o) && WithinEnd(rule, o) && from < o <= until && OnPhase(rule, from, o)
    decreases until - from
  {
    hide NextOccurrenceAfter, Matches, OnPhase;
    NextIsLaterMatch(rule, from);
    NextIsLeastOnPhase(rule, from, o);
    var next := NextOccurrenceAfter(rule, from);
    if next.Some? && next.value <= until {
      WalkIsPhase(rule, next.value, until, o);
      PhaseJoins(rule, from, next.value, o);
    }
  }

  /** At interval 1 the walk leaves no occurrence of the window out. */
  lemma WalkMissesNothing(rule: RecurrenceRule, from: int, until: int, o: int)
    requires ValidRule(rule) && rule.interval == 1
    requires Matches(rule, o) && WithinEnd(rule, o) && from < o <= until
    ensures o in Walk(rule, from, until)
  {
    hide Walk, Matches, OnPhase;
    WalkIsPhase(rule, from, until, o);
    OnePhase(rule, from, o);
  }

  lemma {:induction false} CreatedIsFilter(run: CronRun, s: seq<int>)
    ensures forall o :: o in Created(run, s) <==> o in s && Creates(run, o)
    ensures Increasing(s) ==> Increasing(Created(run, s))
  {
    if s != [] {
      CreatedIsFilter(run, s[1..]);
      assert s == [s[0]] + s[1..];
      if Increasing(s) {
        assert forall i :: 0 < i < |s| ==> s[0] < s[i];
        IncreasingConcat(if Creates(run, s[0]) then [s[0]] else [], Created(run, s[1..]));
      }
    }
  }

  lemma AddedIsFilter(rule: RecurrenceRule, lookahead: nat, t: Template, run: CronRun)
    requires ValidRule(rule)
    ensures var added := Added(rule, lookahead, t, run);
            && Increasing(added)
            && (forall o :: o in added <==>
                 !Skipped(rule, run) && o in Walk(rule, Start(t, run), run.now + lookahead) && Creates(run, o))
            && forall o :: o in added ==> Start(t, run) < o <= run.now + lookahead && Matches(rule, o)
  {
    hide Walk, Matches;
    WalkInWindow(rule, Start(t, run), run.now + lookahead);
    CreatedIsFilter(run, Walk(rule, Start(t, run), run.now + lookahead));
  }

  /** What one run creates, exactly: the occurrences of its window and phase that still lie ahead
      and do not fail, in order - and none once the group is gone. The watermark moves to the end
      of the window only when something was created and its own write succeeds. */
  lemma RunCreatesIff(rule: RecurrenceRule, lookahead: nat, t: Template, run: CronRun, o: int)
    requires ValidRule(rule)
    ensures var t' := AfterRun(rule, lookahead, t, run);
      var from := if t.generatedUpTo.Some? then t.generatedUpTo.value else run.startedAt;
      && |t.sessions| <= |t'.sessions| && t'.sessions[..|t.sessions|] == t.sessions
      && Increasing(t'.sessions[|t.sessions|..])
      && (o in t'.sessions[|t.sessions|..] <==>
            && !run.groupGone && o !in run.failing && OnPhase(rule, from, o)
            && Matches(rule, o) && WithinEnd(rule, o) && from < o && run.now <= o <= run.now + lookahead)
      && t'.generatedUpTo == (if run.watermarkFails || t'.sessions == t.sessions then t.generatedUpTo
                              else Some(run.now + lookahead))
  {
    hide Walk, Matches, OnPhase, Added;
    AddedIsFilter(rule, lookahead, t, run);
    WalkIsPhase(rule, Start(t, run), run.now + lookahead, o);
    var added := Added(rule, lookahead, t, run);
    assert (t.sessions + added)[|t.sessions|..] == added;
    assert t.sessions + added == t.sessions <==> added == [] by {
      assert |t.sessions + added| == |t.sessions| + |added|;
    }
  }

  // ----- exactly once over all runs -----

  function AfterRuns(rule: RecurrenceRule, lookahead: nat, runs: seq<CronRun>): Template
    requires ValidRule(rule)
  {
    if runs == [] then Template(None, [])
    else AfterRun(rule, lookahead, AfterRuns(rule, lookahead, runs[..|runs| - 1]), runs[|runs| - 1])
  }

  predicate MonotoneClock(runs: seq<CronRun>) {
    && (forall i :: 0 <= i < |runs| ==> runs[i].startedAt <= runs[i].now)
    && forall i, j :: 0 <= i < j < |runs| ==> runs[i].now <= runs[j].startedAt
  }

  /** Whatever fails to be created, no occurrence is created twice while the clock is monotone
      and watermark writes succeed - for every interval; the sessions come in order of start. */
  lemma {:induction false} ExactlyOnce(rule: RecurrenceRule, lookahead: nat, runs: seq<CronRun>)
    requires ValidRule(rule) && MonotoneClock(runs)
    requires forall run :: run in runs ==> !run.watermarkFails
    ensures var t := AfterRuns(rule, lookahead, runs);
            && Increasing(t.sessions)
            && (forall o :: o in t.sessions ==> Matches(rule, o))
            && (forall o :: o in t.sessions ==> t.generatedUpTo.Some? && o <= t.generatedUpTo.value)
            && (t.generatedUpTo.Some? ==> runs != [] && t.generatedUpTo.value <= runs[|runs| - 1].now + lookahead)
  {
    hide Added, Matches;
    if runs != [] {
      var before, run := runs[..|runs| - 1], runs[|runs| - 1];
      ExactlyOnce(rule, lookahead, before);
      var t := AfterRuns(rule, lookahead, before);
      AddedIsFilter(rule, lookahead, t, run);
      IncreasingConcat(t.sessions, Added(rule, lookahead, t, run));
      assert before != [] ==> before[|before| - 1].now <= run.now;
    }
  }

  /** An occurrence whose creation failed is never retried once its run moved the watermark. */
  lemma {:induction false} FailedIsNeverRetried(rule: RecurrenceRule, lookahead: nat, runs: seq<CronRun>,
                                                more: seq<CronRun>, o: int)
    requires ValidRule(rule) && MonotoneClock(runs + more)
    requires forall run :: run in runs + more ==> !run.watermarkFails
    requires runs != [] && o <= runs[|runs| - 1].now + lookahead
    requires AfterRuns(rule, lookahead, runs).generatedUpTo == Some(runs[|runs| - 1].now + lookahead)
    requires o !in AfterRuns(rule, lookahead, runs).sessions
    ensures o !in AfterRuns(rule, lookahead, runs + more).sessions
    ensures AfterRuns(rule, lookahead, runs + more).generatedUpTo.Some?
    ensures AfterRuns(rule, lookahead, runs + more).generatedUpTo.value >= runs[|runs| - 1].now + lookahead
    decreases |more|
  {
    hide Added, Matches;
    if more == [] {
      assert runs + more == runs;
    } else {
      var earlier, run := more[..|more| - 1], more[|more| - 1];
      assert (runs + more)[..|runs + more| - 1] == runs + earlier;
      assert (runs + more)[|runs + more| - 1] == run;
      assert forall q :: q in runs + earlier ==> q in runs + more;
      FailedIsNeverRetried(rule, lookahead, runs, earlier, o);
      AddedIsFilter(rule, lookahead, AfterRuns(rule, lookahead, runs + earlier), run);
      assert (runs + more)[|runs| - 1].now <= (runs + more)[|runs + more| - 1].now;
    }
  }

  /** Cron runs that come at least once per lookahead window, with nothing failing. */
  predicate Undisturbed(lookahead: nat, runs: seq<CronRun>) {
    && MonotoneClock(runs)
    && (forall i :: 0 < i < |runs| ==> runs[i].now <= runs[i - 1].now + lookahead)
    && forall run :: run in runs ==> run.failing == {} && !run.watermarkFails && !run.groupGone
  }

  predicate Due(rule: RecurrenceRule, runs: seq<CronRun>, lookahead: nat, o: int)
    requires ValidRule(rule) && runs != []
  {
    && Matches(rule, o) && WithinEnd(rule, o)
    && runs[0].startedAt < o && runs[0].now <= o <= runs[|runs| - 1].now + lookahead
  }

  /** Exactly the due occurrences have been created, and none of them lies past the watermark. */
  ghost predicate Covered(rule: RecurrenceRule, lookahead: nat, runs: seq<CronRun>, t: Template)
    requires ValidRule(rule) && runs != []
  {
    && (forall o :: o in t.sessions ==> Due(rule, runs, lookahead, o))
    && (forall o :: Due(rule, runs, lookahead, o) ==>
          o in t.sessions && t.generatedUpTo.Some? && o <= t.generatedUpTo.value)
    && (t.generatedUpTo.Some? ==> runs[0].now <= t.generatedUpTo.value <= runs[|runs| - 1].now + lookahead)
    && (t.generatedUpTo.None? ==> t.sessions == [])
  }

  /** At interval 1 undisturbed runs together create exactly the occurrences due between the
      first start and the end of the last window - none missing, none extra. */
  lemma {:induction false} NothingMissing(rule: RecurrenceRule, lookahead: nat, runs: seq<CronRun>)
    requires ValidRule(rule) && rule.interval == 1 && runs != [] && Undisturbed(lookahead, runs)
    ensures Covered(rule, lookahead, runs, AfterRuns(rule, lookahead, runs))
  {
    hide *;
    var before, run := runs[..|runs| - 1], runs[|runs| - 1];
    LastRun(rule, lookahead, runs);
    if before == [] {
      assert runs == [run];
      CoveredFirst(rule, lookahead, run);
    } else {
      NothingMissing(rule, lookahead, before);
      assert runs == before + [run];
      CoveredStep(rule, lookahead, before, run, AfterRuns(rule, lookahead, before));
    }
  }

  lemma LastRun(rule: RecurrenceRule, lookahead: nat, runs: seq<CronRun>)
    requires ValidRule(rule) && runs != []
    ensures AfterRuns(rule, lookahead, runs)
         == AfterRun(rule, lookahead, AfterRuns(rule, lookahead, runs[..|runs| - 1]), runs[|runs| - 1])
    ensures |runs| == 1 ==> AfterRuns(rule, lookahead, runs[..|runs| - 1]) == Template(None, [])
    ensures Undisturbed(lookahead, runs) ==> Undisturbed(lookahead, runs[..|runs| - 1])
  {
    hide AfterRun, Added, Walk;
    assert forall q :: q in runs[..|runs| - 1] ==> q in runs;
  }

  lemma CoveredFirst(rule: RecurrenceRule, lookahead: nat, run: CronRun)
    requires ValidRule(rule) && rule.interval == 1 && Undisturbed(lookahead, [run])
    ensures Covered(rule, lookahead, [run], AfterRun(rule, lookahead, Template(None, []), run))
  {
    hide Walk, Matches, WithinEnd, Added;
    var t := Template(None, []);
    AddedIsDue(rule, lookahead, t, run);
    assert run in [run];
  }

  lemma CoveredStep(rule: RecurrenceRule, lookahead: nat, before: seq<CronRun>, run: CronRun, t: Template)
    requires ValidRule(rule) && rule.interval == 1 && before != [] && Undisturbed(lookahead, before + [run])
    requires Covered(rule, lookahead, before, t)
    ensures Covered(rule, lookahead, before + [run], AfterRun(rule, lookahead, t, run))
  {
    hide Walk, Matches, WithinEnd, Added;
    var runs := before + [run];
    assert runs[|before|] == run && runs[0] == before[0] && runs[|before| - 1] == before[|before| - 1];
    assert run in runs;
    assert before[0].now <= run.now && before[|before| - 1].now <= run.now <= before[|before| - 1].now + lookahead;
    AddedIsDue(rule, lookahead, t, run);
    forall o | Due(rule, runs, lookahead, o)
      ensures o in AfterRun(rule, lookahead, t, run).sessions
    {
      assert Due(rule, before, lookahead, o) || o > before[|before| - 1].now + lookahead;
    }
    forall o | Due(rule, runs, lookahead, o) && o !in t.sessions
      ensures o in Added(rule, lookahead, t, run)
    {
    }
  }

  /** What an undisturbed run adds: everything the rule has in its window, unless the window
      reaches back before the run's clock. */
  lemma AddedIsDue(rule: RecurrenceRule, lookahead: nat, t: Template, run: CronRun)
    requires ValidRule(rule) && rule.interval == 1
    requires run.failing == {} && !run.groupGone
    ensures forall o :: o in Added(rule, lookahead, t, run) <==>
              (Matches(rule, o) && WithinEnd(rule, o) && Start(t, run) < o && run.now <= o <= run.now + lookahead)
  {
    hide Walk, Matches, Added;
    AddedIsFilter(rule, lookahead, t, run);
    WalkInWindow(rule, Start(t, run), run.now + lookahead);
    forall o | Matches(rule, o) && WithinEnd(rule, o) && Start(t, run) < o && run.now <= o <= run.now + lookahead
      ensures o in Added(rule, lookahead, t, run)
    {
      WalkMissesNothing(rule, Start(t, run), run.now + lookahead, o);
    }
  }

  /** When a watermark write fails, the next run creates a second session for exactly those of
      the failed run's occurrences that still lie ahead and whose transaction succeeds; and if
      there was no watermark yet, only those after its start on the phase of its start - which at
      interval 1 (see OnePhase) is every one after it. */
  lemma FailedWatermarkDuplicates(rule: RecurrenceRule, lookahead: nat, t: Template, run: CronRun, next: CronRun,
                                  o: int)
    requires ValidRule(rule) && run.watermarkFails && MonotoneClock([run, next]) && !next.groupGone
    requires o in Added(rule, lookahead, t, run)
    ensures o in Added(rule, lookahead, AfterRun(rule, lookahead, t, run), next) <==>
      && Creates(next, o)
      && (t.generatedUpTo.None? ==> o > next.startedAt && OnPhase(rule, next.startedAt, o))
  {
    hide Walk, Matches, OnPhase;
    var t' := AfterRun(rule, lookahead, t, run);
    assert [run, next][0].now <= [run, next][1].startedAt <= [run, next][1].now;
    AddedIsFilter(rule, lookahead, t, run);
    AddedIsFilter(rule, lookahead, t', next);
    WalkIsPhase(rule, Start(t, run), run.now + lookahead, o);
    WalkIsPhase(rule, Start(t', next), next.now + lookahead, o);
  }
}
