/** Commands that write the whole session row, run concurrently. Each takes the session lock before
    it reads the row (activity/internal/application/session_service.go lines 636-671, 886-932 and
    1067-1117); the module shows that this is what makes a session end once, and what happens to
    commands that read first and lock afterwards. */
module LifecycleRaces {
  import opened Wrappers
  import opened ActivityTypes
  import opened SessionLog

  datatype Operation =
    | Update(actor: Actor, capacity: Option<int>, endsAt: int, isPublic: bool)
    | SetVisibility(actor: Actor, isPublic: bool)
    | Start(actor: Actor)
    | Complete(actor: Actor)
    | Cancel(actor: Actor)
    | CancelWithGroup
    | Expire(now: int)

  /** What the operation makes of the row it read; a sweep passes over a session already ended. */
  function Outcome(s: Session, op: Operation): Result<SessionChange, Error> {
    match op
    case Update(actor, capacity, endsAt, isPublic) =>
      (match Updated(s, actor, capacity, endsAt)
       case Err(e) => Err(e)
       case Ok(c) =>
         match VisibilitySet(c.session, actor, isPublic)
         case Err(e) => Err(e)
         case Ok(v) => Ok(SessionChange(v.session, c.events + v.events)))
    case SetVisibility(actor, isPublic) => VisibilitySet(s, actor, isPublic)
    case Start(actor) => StartedBy(s, actor)
    case Complete(actor) => CompletedBy(s, actor)
    case Cancel(actor) => CanceledBy(s, actor)
    case CancelWithGroup => CanceledFromGroup(s, NOBODY)
    case Expire(now) => ExpiredAt(s, now)
  }

  datatype Transaction = Begun(op: Operation) | HasRead(op: Operation, row: Session)

  datatype System = System(row: Session, outbox: seq<Event>, lock: Option<nat>, running: map<nat, Transaction>)

  datatype Step = Begin(tx: nat, op: Operation) | TakeLock(tx: nat) | Read(tx: nat) | Commit(tx: nat)
    | Rollback(tx: nat)

  function Without(sys: System, tx: nat): System {
    sys.(running := sys.running - {tx}, lock := if sys.lock == Some(tx) then None else sys.lock)
  }

  /** `lockFirst` is the services' rule: nothing is read before the lock is held. A commit writes
      back the whole row it computed from the one it read. */
  function After(sys: System, step: Step, lockFirst: bool): Option<System> {
    match step
    case Begin(tx, op) =>
      if tx in sys.running then None else Some(sys.(running := sys.running[tx := Begun(op)]))
    case TakeLock(tx) =>
      if tx in sys.running && sys.lock.None? then Some(sys.(lock := Some(tx))) else None
    case Read(tx) =>
      if tx in sys.running && sys.running[tx].Begun? && (lockFirst ==> sys.lock == Some(tx))
      then Some(sys.(running := sys.running[tx := HasRead(sys.running[tx].op, sys.row)])) else None
    case Commit(tx) =>
      if tx in sys.running && sys.running[tx].HasRead? && sys.lock == Some(tx) then
        var done := Without(sys, tx);
        match Outcome(sys.running[tx].row, sys.running[tx].op)
        case Err(_) => Some(done)
        case Ok(c) => Some(done.(row := c.session, outbox := sys.outbox + c.events))
      else None
    case Rollback(tx) => if tx in sys.running then Some(Without(sys, tx)) else None
  }

  ghost predicate Trace(sys: System, steps: seq<Step>, lockFirst: bool, sys': System)
    decreases |steps|
  {
    if steps == [] then sys' == sys
    else
      && After(sys, steps[0], lockFirst).Some?
      && Trace(After(sys, steps[0], lockFirst).value, steps[1..], lockFirst, sys')
  }

  /** Whoever has read holds the lock, and what it read is the row. */
  predicate FreshReads(sys: System) {
    forall tx :: tx in sys.running && sys.running[tx].HasRead? ==>
      sys.lock == Some(tx) && sys.running[tx].row == sys.row
  }

  /** One ending event if the session is over, none before. */
  ghost predicate EndsOnce(sys: System) {
    Tally(Endings, sys.outbox) == if sys.row.Ended() then 1 else 0
  }

  /** The session's own rule: an ended session stays as it ended, and ending raises one event. */
  lemma OutcomeEndsOnce(s: Session, op: Operation)
    requires Outcome(s, op).Ok?
    ensures var c := Outcome(s, op).value;
      && (s.Ended() ==> c.session.status == s.status)
      && Tally(Endings, c.events) == (if c.session.Ended() then 1 else 0) - (if s.Ended() then 1 else 0)
  {
    var c := Outcome(s, op).value;
    if |c.events| == 2 {
      assert c.events == [c.events[0]] + [c.events[1]];
      TallyPair(Endings, c.events[0], c.events[1]);
    } else {
      TallyUpToOne(Endings, c.events);
    }
  }

  /** A session is scheduled, then started, then completed, or canceled from either; a sweep may
      complete it from either once its end has passed, and only a manager or a sweep or the group
      moves it. */
  predicate MayMove(s: Session, op: Operation, to: SessionStatus) {
    match op
    case Start(actor) => s.status == Scheduled && to == Started && s.ManagedBy(actor)
    case Complete(actor) => s.status == Started && to == Completed && s.ManagedBy(actor)
    case Cancel(actor) => (s.status == Scheduled || s.status == Started) && to == Canceled && s.ManagedBy(actor)
    case CancelWithGroup => (s.status == Scheduled || s.status == Started) && to == Canceled
    case Expire(now) => (s.status == Scheduled || s.status == Started) && to == Completed && s.endsAt < now
    case _ => false
  }

  /** The status changes only along that machine, and what a manager asks for that it allows is
      done. */
  lemma StatusFollowsTheMachine(s: Session, op: Operation)
    ensures Outcome(s, op).Ok? && Outcome(s, op).value.session.status != s.status ==>
      MayMove(s, op, Outcome(s, op).value.session.status)
    ensures forall to :: MayMove(s, op, to) ==> Outcome(s, op).Ok? && Outcome(s, op).value.session.status == to
  {
  }

  lemma StepEndsOnce(sys: System, step: Step)
    requires FreshReads(sys) && EndsOnce(sys) && After(sys, step, true).Some?
    ensures var sys' := After(sys, step, true).value;
      FreshReads(sys') && EndsOnce(sys') && (sys.row.Ended() ==> sys'.row.status == sys.row.status)
        && sys.outbox <= sys'.outbox
  {
    if step.Commit? {
      var t := sys.running[step.tx];
      assert t.row == sys.row;
      if Outcome(t.row, t.op).Ok? {
        OutcomeEndsOnce(t.row, t.op);
        TallyBoth(Endings, sys.outbox, Outcome(t.row, t.op).value.events);
      }
    }
  }

  /** Over every interleaving of updates, starts, visibility changes, completions, cancellations,
      group cancellations and expiry sweeps, a session ends at most once, is never brought back by
      a stale write, and raises exactly one ending event. */
  lemma {:induction false} SessionEndsOnce(sys: System, steps: seq<Step>, sys': System)
    requires FreshReads(sys) && EndsOnce(sys) && Trace(sys, steps, true, sys')
    ensures FreshReads(sys') && EndsOnce(sys') && sys.outbox <= sys'.outbox
    ensures sys.row.Ended() ==> sys'.row.status == sys.row.status
    decreases |steps|
  {
    hide After, FreshReads, EndsOnce;
    if steps != [] {
      StepEndsOnce(sys, steps[0]);
      SessionEndsOnce(After(sys, steps[0], true).value, steps[1..], sys');
    }
  }

  // ---- Reading before locking ----

  const LIVE: Session := Session(1, false, false, Scheduled, None, true, 0, None, [], NoSource)
  const OWNER: Actor := Actor(1, false)

  lemma Prepend(sys: System, step: Step, sys1: System, steps: seq<Step>, lockFirst: bool, sys': System)
    returns (r: seq<Step>)
    requires After(sys, step, lockFirst) == Some(sys1) && Trace(sys1, steps, lockFirst, sys')
    ensures Trace(sys, r, lockFirst, sys')
  {
    hide After;
    r := [step] + steps;
    assert r[1..] == steps;
  }

  /** Two transactions that read before either locks, each committing in turn. */
  lemma BothReadFirst(first: Operation, second: Operation, a: SessionChange, b: SessionChange)
    returns (steps: seq<Step>, sys': System)
    requires Outcome(LIVE, first) == Ok(a) && Outcome(LIVE, second) == Ok(b)
    ensures Trace(System(LIVE, [], None, map[]), steps, false, sys')
    ensures sys' == System(b.session, a.events + b.events, None, map[])
  {
    hide Outcome;
    var s0 := System(LIVE, [], None, map[]);
    var s1 := s0.(running := map[0 := Begun(first)]);
    var s2 := s0.(running := map[0 := Begun(first), 1 := Begun(second)]);
    var s3 := s0.(running := map[0 := HasRead(first, LIVE), 1 := Begun(second)]);
    var s4 := s0.(running := map[0 := HasRead(first, LIVE), 1 := HasRead(second, LIVE)]);
    var s5 := s4.(lock := Some(0));
    var s6 := System(a.session, a.events, None, map[1 := HasRead(second, LIVE)]);
    var s7 := s6.(lock := Some(1));
    sys' := System(b.session, a.events + b.events, None, map[]);
    assert s5.running - {0} == s6.running && [] + a.events == a.events;
    assert s7.running - {1} == map[];
    assert s2.running[0 := HasRead(first, LIVE)] == s3.running && s3.running[1 := HasRead(second, LIVE)] == s4.running;
    assert Trace(sys', [], false, sys');
    steps := Prepend(s7, Commit(1), sys', [], false, sys');
    steps := Prepend(s6, TakeLock(1), s7, steps, false, sys');
    steps := Prepend(s5, Commit(0), s6, steps, false, sys');
    steps := Prepend(s4, TakeLock(0), s5, steps, false, sys');
    steps := Prepend(s3, Read(1), s4, steps, false, sys');
    steps := Prepend(s2, Read(0), s3, steps, false, sys');
    steps := Prepend(s1, Begin(1, second), s2, steps, false, sys');
    steps := Prepend(s0, Begin(0, first), s1, steps, false, sys');
  }

  /** Two sweeps that act on the copy they found end the session twice. */
  lemma StaleSweepsEndTwice() returns (steps: seq<Step>, sys': System)
    ensures Trace(System(LIVE, [], None, map[]), steps, false, sys') && Tally(Endings, sys'.outbox) == 2
  {
    var ended := SessionChange(LIVE.(status := Completed), [SessionExpired]);
    steps, sys' := BothReadFirst(Expire(1), Expire(1), ended, ended);
    TallyPair(Endings, SessionExpired, SessionExpired);
  }

  /** An update that read before a cancellation committed brings the session back. */
  lemma StaleUpdateRevives() returns (steps: seq<Step>, sys': System)
    ensures Trace(System(LIVE, [], None, map[]), steps, false, sys')
    ensures SessionCancelled(1) in sys'.outbox && !sys'.row.Ended()
  {
    var cancelled := SessionChange(LIVE.(status := Canceled), [SessionCancelled(1)]);
    var updated := SessionChange(LIVE, [SessionUpdated(1)] + []);
    steps, sys' := BothReadFirst(Cancel(OWNER), Update(OWNER, None, 0, true), cancelled, updated);
    assert sys'.outbox[0] == SessionCancelled(1);
  }
}
