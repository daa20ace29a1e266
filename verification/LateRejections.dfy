/** What a rejection can do because it takes no lock: it commits whatever became of the row since it
    was read (activity/internal/application/attendee_service.go lines 391-416). */
module LateRejections {
  import opened Wrappers
  import opened Sequences
  import opened ActivityTypes
  import opened Attendees
  import opened SessionWorld
  import opened SessionInvariants
  import opened SessionWaitlist
  import opened StaleReads
  import opened FormationCommits
  import opened Interleavings
  import opened SerialOrder

  // ---- The waitlist ----

  /** One that comes late overwrites whatever was decided since. It keeps the waitlist justified
      exactly when the row held no spot, or nobody waits, or the session stays full. */
  lemma RejectKeepsJustifiedIff(w: World, r: Rejecting)
    requires OneRowEach(w.rows) && RejectFits(w, r) && WaitlistJustified(w)
    ensures WaitlistJustified(RejectedAt(w, r))
       <==> !IsGoing(w.rows[r.index]) || !SomeoneWaits(w.rows) || Confirmed(w.rows) > w.session.capacity.value
  {
    RejectKeepsRows(w, r);
    var rows, rows' := w.rows, RejectedAt(w, r).rows;
    assert forall i :: 0 <= i < |rows| ==> Waits(rows'[i]) == Waits(rows[i]);
    hide GoingIds;
    if SomeoneWaits(rows) {
      var i :| 0 <= i < |rows| && Waits(rows[i]);
      assert Waits(rows'[i]);
    }
    if SomeoneWaits(rows') {
      var i :| 0 <= i < |rows'| && Waits(rows'[i]);
      assert Waits(rows[i]);
    }
  }

  /** Puts someone in line who was not in it before. */
  predicate JoinsTheLine(h: Holder)
    requires h.Ready?
  {
    match h.own
    case Insert(c) => Waits(c.row)
    case SetRow(_, c) => !h.freed && Waits(c.row) && h.seen.Some? && !Waits(h.seen.value.row)
    case SoftDelete(_, _) => false
  }

  lemma JoinersFoundItFull(w: World, h: Holder)
    requires OneRowEach(w.rows) && HolderFits(w, h) && h.Ready? && JoinsTheLine(h)
    ensures !w.session.HasCapacity(h.count) && !h.freed && !WillHold(h.own) && !DidHold(w, h.own)
    ensures SomeoneWaits(Effected(w, h.own).rows)
  {
    hide GoingIds, LastWhere, IsNextInLine;
    var rows := Effected(w, h.own).rows;
    if h.own.Insert? {
      assert Waits(rows[|w.rows|]);
    } else {
      assert Waits(rows[h.own.index]);
    }
  }

  /** Whoever waits after the own write did before, or just joined the line. */
  lemma WaitersAfterWrite(w: World, h: Holder, k: nat)
    requires HolderFits(w, h) && h.Ready? && k < |Effected(w, h.own).rows| && Waits(Effected(w, h.own).rows[k])
    ensures (k < |w.rows| && Waits(w.rows[k])) || JoinsTheLine(h) || (h.freed && h.own.SetRow? && k == h.own.index)
    ensures h.freed ==> |Effected(w, h.own).rows| == |w.rows|
  {
    OwnFits(w, h);
    hide GoingIds, LastWhere, IsNextInLine, Decide;
  }

  /** Committing changes who waits only by the own write and the promotion. */
  lemma WaitsAfterCommit(w: World, own: Own, freed: bool, next: Option<nat>, going: seq<UserId>, user: UserId, k: nat)
    ensures var w1, w' := Effected(w, own), Committed(w, own, freed, next, going, user);
      && |w'.rows| == |w1.rows|
      && (k < |w1.rows| && Waits(w'.rows[k]) ==> Waits(w1.rows[k]) && (freed ==> next != Some(k)))
  {
    var w2 := PromotedAt(Effected(w, own), next);
    ResetsAlike(w2, user, RosterChanged, going);
    hide GoingIds, LastWhere, Effected, ResetFormation, ResetTeamFormation;
  }

  /** Handing a freed spot on leaves nobody waiting who did not wait before. */
  lemma WaitersAfterCommit(w: World, h: Holder)
    requires HolderFits(w, h) && h.Ready? && !JoinsTheLine(h)
    ensures SomeoneWaits(Committed(w, h.own, h.freed, h.next, h.going, h.cmd.user).rows) ==> SomeoneWaits(w.rows)
  {
    var rows', w1 := Committed(w, h.own, h.freed, h.next, h.going, h.cmd.user).rows, Effected(w, h.own);
    hide GoingIds, LastWhere, DecideIn, SeenFits, Effected, Committed, JoinsTheLine, Waits;
    if SomeoneWaits(rows') {
      var k :| 0 <= k < |rows'| && Waits(rows'[k]);
      WaitsAfterCommit(w, h.own, h.freed, h.next, h.going, h.cmd.user, k);
      WaitersAfterWrite(w, h, k);
      if !(k < |w.rows| && Waits(w.rows[k])) {
        WaitersAfterWrite(w, h, h.next.value);
      }
    }
  }

  /** The commit puts someone in line while the committed count shows a free spot. */
  predicate Strands(w: World, h: Holder)
    requires CanCommit(w, h)
  {
    h.Ready? && JoinsTheLine(h) && w.session.HasCapacity(Confirmed(w.rows))
  }

  lemma OwnCommitKeepsJustifiedIff(w: World, h: Holder)
    requires OneRowEach(w.rows) && HolderFits(w, h) && h.Ready? && WaitlistJustified(w)
    ensures WaitlistJustified(Committed(w, h.own, h.freed, h.next, h.going, h.cmd.user))
       <==> !JoinsTheLine(h) || !w.session.HasCapacity(Confirmed(w.rows))
    ensures JoinsTheLine(h) ==> !w.session.HasCapacity(h.count)
  {
    OwnCommitCounts(w, h);
    OwnFits(w, h);
    hide GoingIds, LastWhere, IsNextInLine, Decide, Effected, SomeoneWaits, JoinsTheLine, ResetFormation, PromotedAt;
    if JoinsTheLine(h) {
      JoinersFoundItFull(w, h);
    } else {
      WaitersAfterCommit(w, h);
    }
  }

  /** A commit spoils the waitlist exactly when it puts someone in line by the count it read while
      the committed count shows a free spot: a rejection came between the two. Teams given, taken
      or formed put nobody in line and free no spot. */
  lemma CommitKeepsJustifiedIff(w: World, h: Holder)
    requires OneRowEach(w.rows) && RequestsFit(w.rows) && HolderFits(w, h) && CanCommit(w, h) && WaitlistJustified(w)
    ensures WaitlistJustified(CommitOf(w, h)) <==> !Strands(w, h)
    ensures h.Ready? && JoinsTheLine(h) ==> !w.session.HasCapacity(h.count)
  {
    hide Shaped, FormedAt, OneRowEach, RequestsFit, OwnHolderFits, TableHolderFits, GoingIds, Committed, SomeoneWaits,
         JoinsTheLine;
    if h.HasTable? {
      TableCommitCounts(w, h);
    } else {
      OwnCommitKeepsJustifiedIff(w, h);
    }
  }

  /** The step does not spoil the waitlist. */
  predicate KeepsJustified(sys: System, step: Step) {
    var w, h := sys.world, sys.holder;
    match step
    case RejectCommits(tx) =>
      tx in sys.rejects && sys.rejects[tx].index < |w.rows| ==>
        !IsGoing(w.rows[sys.rejects[tx].index]) || !SomeoneWaits(w.rows)
        || (w.session.capacity.Some? && Confirmed(w.rows) > w.session.capacity.value)
    case Commit => CanCommit(w, h) ==> !Strands(w, h)
    case _ => true
  }

  /** Of all the steps of all transactions only a late rejection, or a commit on a count one made
      stale, can leave a spot empty while someone waits; and each does exactly when this says. */
  lemma StepKeepsJustifiedIff(sys: System, step: Step)
    requires SystemInv(sys) && WaitlistJustified(sys.world) && After(sys, step).Some?
    requires After(sys, step).value.world.session.capacity == sys.world.session.capacity
    ensures WaitlistJustified(After(sys, step).value.world) <==> KeepsJustified(sys, step)
  {
    var w := sys.world;
    hide GoingIds, LastWhere, Decide, Look, IsNextInLine, Effected, CommitOf, RejectedAt, Apply, Shaped, Legal,
         HolderFits, SomeoneWaits, Strands, OneRowEach, RequestsFit;
    if step.Commit? {
      CommitKeepsJustifiedIff(w, sys.holder);
    } else if step.RejectCommits? {
      RejectKeepsJustifiedIff(w, sys.rejects[step.tx]);
    } else if step.OtherCommand? {
      LifecycleKeepsAttendance(w, step.other);
      SameAttendanceCounts(w.rows, After(sys, step).value.world.rows);
    } else {
      QuietStepKeepsWorld(sys, step);
    }
  }

  ghost predicate AllKeepJustified(sys: System, steps: seq<Step>)
    decreases |steps|
  {
    steps == [] || (KeepsJustified(sys, steps[0])
      && (After(sys, steps[0]).Some? ==> AllKeepJustified(After(sys, steps[0]).value, steps[1..])))
  }

  /** So an interleaving free of those two keeps the waitlist work-conserving. */
  lemma {:induction false} InterleavingKeepsJustified(sys: System, steps: seq<Step>, sys': System)
    requires SystemInv(sys) && Trace(sys, steps, sys') && CapacityFixed(sys, steps)
    requires WaitlistJustified(sys.world) && AllKeepJustified(sys, steps)
    ensures WaitlistJustified(sys'.world)
    decreases |steps|
  {
    hide SystemInv, After, KeepsJustified, WaitlistJustified;
    if steps != [] {
      StepKeepsJustifiedIff(sys, steps[0]);
      StepKeepsSystemInv(sys, steps[0]);
      InterleavingKeepsJustified(After(sys, steps[0]).value, steps[1..], sys');
    }
  }

  // ---- Both happen ----

  // A session of one spot that needs approval, and three of its states below.
  const GATED: Session := Session(1, true, false, Scheduled, Some(1), true, 0, None, [], NoSource)
  const MANAGER: Actor := Actor(1, true)

  function Row2(status: AttendeeStatus): Row {
    Row(2, status, Requested, None, 0, false)
  }

  const INVITED3: Row := Row(3, Pending, Invited, None, 1, false)

  function Gated(rows: seq<Row>, outbox: seq<Event>): World {
    World(GATED, rows, [], [], outbox, 0)
  }

  lemma LookFinds(rows: seq<Row>, user: UserId, i: nat)
    requires OneRowEach(rows) && i < |rows| && !rows[i].deleted && rows[i].user == user
    ensures Look(rows, user) == Some(Seen(i, rows[i]))
  {
    LiveRowIs(rows, user);
  }

  lemma LookMisses(rows: seq<Row>, user: UserId)
    requires forall i :: 0 <= i < |rows| ==> rows[i].user != user
    ensures Look(rows, user) == None
  {
    LiveRowIs(rows, user);
  }

  /** Locking, reading and deciding a command that frees no spot. */
  lemma ReadAndDecide(sys: System, cmd: Command, d: Decision) returns (steps: seq<Step>, ready: System)
    requires sys.holder.Idle? && IsRequest(cmd)
    requires DecideIn(sys.world, cmd, Look(sys.world.rows, cmd.user), Confirmed(sys.world.rows)) == Ok(d) && !d.freed
    ensures var seen, n := Look(sys.world.rows, cmd.user), Confirmed(sys.world.rows);
      ready == sys.(holder := Ready(cmd, n, seen, n, d.own, false, None, [])) && Trace(sys, steps, ready)
  {
    hide GoingIds, LastWhere, DecideIn, Look;
    var seen, n := Look(sys.world.rows, cmd.user), Confirmed(sys.world.rows);
    var s1 := sys.(holder := Locked(cmd, n));
    var s2 := sys.(holder := HasRow(cmd, n, seen));
    var s3 := sys.(holder := HasCount(cmd, n, seen, n));
    ready := sys.(holder := Ready(cmd, n, seen, n, d.own, false, None, []));
    OneStep(s3, Settle, ready);
    steps := Prepend(s2, ReadCount, s3, [Settle], ready);
    steps := Prepend(s1, ReadRow, s2, steps, ready);
    steps := Prepend(sys, TakeLock(cmd), s1, steps, ready);
  }

  /** And committing it. */
  lemma WholeCommand(sys: System, cmd: Command, d: Decision) returns (steps: seq<Step>, sys': System)
    requires sys.holder.Idle? && IsRequest(cmd)
    requires DecideIn(sys.world, cmd, Look(sys.world.rows, cmd.user), Confirmed(sys.world.rows)) == Ok(d) && !d.freed
    ensures sys' == sys.(world := Effected(sys.world, d.own)) && Trace(sys, steps, sys')
  {
    hide GoingIds, LastWhere, DecideIn, Effected, Look, Trace;
    var decided, ready := ReadAndDecide(sys, cmd, d);
    sys' := sys.(world := Effected(sys.world, d.own));
    OneStep(ready, Commit, sys');
    TracesJoin(sys, decided, ready, [Commit], sys');
    steps := decided + [Commit];
  }

  /** The rejection of the second user's request, read before, commits now. */
  lemma RejectionCommits(sys: System) returns (sys': System)
    requires sys.rejects == map[0 := REJECTING2]
    ensures sys' == System(RejectedAt(sys.world, REJECTING2), sys.holder, map[])
    ensures Trace(sys, [RejectCommits(0)], sys')
  {
    sys' := System(RejectedAt(sys.world, REJECTING2), sys.holder, map[]);
    assert sys.rejects - {0} == map[];
    hide RejectedAt;
    OneStep(sys, RejectCommits(0), sys');
  }

  lemma OneStep(sys: System, step: Step, sys': System)
    requires After(sys, step) == Some(sys')
    ensures Trace(sys, [step], sys')
  {
    hide After;
    assert [step][1..] == [];
  }

  lemma Prepend(sys: System, step: Step, sys1: System, steps: seq<Step>, sys': System) returns (r: seq<Step>)
    requires After(sys, step) == Some(sys1) && Trace(sys1, steps, sys')
    ensures Trace(sys, r, sys')
  {
    hide After;
    r := [step] + steps;
    assert r[1..] == steps;
  }

  lemma {:induction false} TracesJoin(sys: System, a: seq<Step>, sys1: System, b: seq<Step>, sys2: System)
    requires Trace(sys, a, sys1) && Trace(sys1, b, sys2)
    ensures Trace(sys, a + b, sys2)
    decreases |a|
  {
    hide After;
    if a == [] {
      assert a + b == b;
    } else {
      TracesJoin(After(sys, a[0]).value, a[1..], sys1, b, sys2);
      assert (a + b)[1..] == a[1..] + b;
    }
  }

  const REJECTING2: Rejecting := Rejecting(0, Row2(Pending), MANAGER)

  lemma GatedKeepsInv(w: World)
    requires w == Gated([Row2(Pending)], [])
    ensures Inv(w)
  {
    hide LastWhere, GoingIds, DraftHolds, RoundHolds;
  }

  lemma GatedIsSound(w: World)
    requires w == Gated([Row2(Pending)], [])
    ensures Inv(w) && Confirmed(w.rows) == 0 && WaitlistJustified(w)
  {
    GatedKeepsInv(w);
    hide Inv;
    assert w.rows[..0] == [] && GoingIds([]) == [];
    assert !SomeoneWaits(w.rows);
  }

  lemma GatedStart()
    ensures var w := Gated([Row2(Pending)], []);
      && SystemInv(System(w, Idle, map[])) && Inv(w) && WaitlistJustified(w) && Confirmed(w.rows) == 0
      && After(System(w, Idle, map[]), RejectReads(0, 2, MANAGER)) == Some(System(w, Idle, map[0 := REJECTING2]))
  {
    var w := Gated([Row2(Pending)], []);
    GatedIsSound(w);
    LookFinds(w.rows, 2, 0);
    hide LastWhere, GoingIds, Inv, Confirmed, WaitlistJustified, Look;
  }

  lemma GatedApproval(drafting: bool)
    ensures var rows := [Row2(Pending)];
      && Confirmed(rows) == 0 && Look(rows, 2) == Some(Seen(0, Row2(Pending)))
      && Decide(GATED, drafting, DoApprove(2, MANAGER), Look(rows, 2), 0)
         == Ok(Decision(SetRow(0, Change(Row2(Going), [JoinApproved(2, 1)])), false))
  {
    var rows := [Row2(Pending)];
    assert rows[..0] == [] && GoingIds([]) == [];
    LookFinds(rows, 2, 0);
    hide LastWhere;
  }

  lemma GatedInvite(drafting: bool)
    ensures var rows := [Row2(Going)];
      && Confirmed(rows) == 1 && Look(rows, 3) == None
      && Decide(GATED, drafting, DoAcceptInvite(3, 1), None, 1)
        == Ok(Decision(Insert(Change(INVITED3, [RsvpAutoPending(3)])), false))
  {
    var rows := [Row2(Going)];
    assert rows[..0] == [] && GoingIds([]) == [];
    LookMisses(rows, 3);
    hide LastWhere;
  }

  lemma GatedStranded(w: World)
    requires w.session == GATED && w.rows == [Row2(NotGoing), INVITED3]
    ensures !WaitlistJustified(w)
  {
    GoingAppend([], Row2(NotGoing));
    GoingAppend([Row2(NotGoing)], INVITED3);
    assert [] + [Row2(NotGoing)] == [Row2(NotGoing)] && [Row2(NotGoing)] + [INVITED3] == w.rows;
    assert Waits(w.rows[1]);
  }

  /** It does come late: a manager rejects a request while another approves it, and someone has
      joined the waitlist of the then full session in between. The spot stays empty and they keep
      waiting, which no serial run does. */
  lemma LateRejectStrandsTheWaitlist() returns (sys: System, steps: seq<Step>, sys': System)
    ensures SystemInv(sys) && sys.holder.Idle? && sys.rejects == map[] && Inv(sys.world) && WaitlistJustified(sys.world)
    ensures Trace(sys, steps, sys') && sys'.holder.Idle? && sys'.rejects == map[]
    ensures sys'.world.session == sys.world.session && !WaitlistJustified(sys'.world)
  {
    hide GoingIds, LastWhere, Decide, Look, Inv, SystemInv, WaitlistJustified, Trace, After;
    GatedStart();
    var w0 := Gated([Row2(Pending)], []);
    sys := System(w0, Idle, map[]);
    var s1 := System(w0, Idle, map[0 := REJECTING2]);
    OneStep(sys, RejectReads(0, 2, MANAGER), s1);
    // Another manager approves the same request.
    GatedApproval(ActiveDraft([]).Some?);
    var approved, s2 := WholeCommand(s1, DoApprove(2, MANAGER),
      Decision(SetRow(0, Change(Row2(Going), [JoinApproved(2, 1)])), false));
    assert s2.world.rows == [Row2(Going)] && s2.world.session == GATED;
    // The session is full, so an invited user waits.
    GatedInvite(ActiveDraft(s2.world.drafts).Some?);
    var joined, s3 := WholeCommand(s2, DoAcceptInvite(3, 1),
      Decision(Insert(Change(INVITED3, [RsvpAutoPending(3)])), false));
    assert s3.world.rows == [Row2(Going), INVITED3] && s3.world.session == GATED;
    // The first rejection commits.
    sys' := RejectionCommits(s3);
    assert sys'.world.rows == [Row2(NotGoing), INVITED3];
    GatedStranded(sys'.world);
    TracesJoin(s2, joined, s3, [RejectCommits(0)], sys');
    TracesJoin(s1, approved, s2, joined + [RejectCommits(0)], sys');
    steps := [RejectReads(0, 2, MANAGER)] + (approved + (joined + [RejectCommits(0)]));
    TracesJoin(sys, [RejectReads(0, 2, MANAGER)], s1, approved + (joined + [RejectCommits(0)]), sys');
  }

  /** The count goes stale instead: the invited user's transaction counts the approved attendee,
      the late rejection commits, and the invited user is put in line beside an empty spot. Nobody
      waited when the rejection committed; it is the commit that strands them. */
  lemma StaleCountStrandsTheWaitlist() returns (sys: System, steps: seq<Step>, before: System)
    ensures SystemInv(sys) && sys.holder.Idle? && sys.rejects == map[] && Inv(sys.world)
    ensures Trace(sys, steps, before) && before.rejects == map[] && WaitlistJustified(before.world)
    ensures After(before, Commit).Some? && !WaitlistJustified(After(before, Commit).value.world)
  {
    hide GoingIds, LastWhere, Decide, Look, Inv, SystemInv, WaitlistJustified, Trace, After;
    GatedStart();
    var w0 := Gated([Row2(Pending)], []);
    sys := System(w0, Idle, map[]);
    var s1 := System(w0, Idle, map[0 := REJECTING2]);
    OneStep(sys, RejectReads(0, 2, MANAGER), s1);
    GatedApproval(ActiveDraft([]).Some?);
    var approval := Decision(SetRow(0, Change(Row2(Going), [JoinApproved(2, 1)])), false);
    var approved, s2 := WholeCommand(s1, DoApprove(2, MANAGER), approval);
    assert s2.world.rows == [Row2(Going)] && s2.world.session == GATED;
    var rest;
    rest, before := InviteOvertaken(s2);
    steps := [RejectReads(0, 2, MANAGER)] + (approved + rest);
    TracesJoin(s1, approved, s2, rest, before);
    TracesJoin(sys, [RejectReads(0, 2, MANAGER)], s1, approved + rest, before);
  }

  /** The invited user's transaction from the lock to the decision, the rejection in between. */
  lemma InviteOvertaken(s2: System) returns (steps: seq<Step>, ready: System)
    requires s2.rejects == map[0 := REJECTING2] && s2.holder.Idle? && s2.world.session == GATED
    requires s2.world.rows == [Row2(Going)]
    ensures Trace(s2, steps, ready) && ready.rejects == map[] && WaitlistJustified(ready.world)
    ensures After(ready, Commit).Some? && !WaitlistJustified(After(ready, Commit).value.world)
  {
    GatedInvite(ActiveDraft(s2.world.drafts).Some?);
    hide GoingIds, LastWhere, Look, Trace, Decide;
    var cmd, own := DoAcceptInvite(3, 1), Insert(Change(INVITED3, [RsvpAutoPending(3)]));
    var s3 := s2.(holder := Locked(cmd, 1));
    var s4 := s2.(holder := HasRow(cmd, 1, None));
    var s5 := s2.(holder := HasCount(cmd, 1, None, 1));
    var s6 := RejectionCommits(s5);
    assert s6.world.rows == [Row2(NotGoing)];
    ready := s6.(holder := Ready(cmd, 1, None, 1, own, false, None, []));
    OneStep(s6, Settle, ready);
    TracesJoin(s5, [RejectCommits(0)], s6, [Settle], ready);
    steps := Prepend(s4, ReadCount, s5, [RejectCommits(0)] + [Settle], ready);
    steps := Prepend(s3, ReadRow, s4, steps, ready);
    steps := Prepend(s2, TakeLock(cmd), s3, steps, ready);
    var end := After(ready, Commit).value.world;
    assert end.rows == [Row2(NotGoing), INVITED3];
    GatedStranded(end);
  }

  /** A request decided twice: the rejection is in time, but the approval had read the request
      before, and commits over it. The request ends approved, both decisions are in the outbox,
      and run serially after that rejection the approval would have been refused. */
  lemma RequestDecidedTwice() returns (sys: System, steps: seq<Step>, before: System, after: System)
    ensures SystemInv(sys) && sys.holder.Idle? && sys.rejects == map[] && Inv(sys.world)
    ensures Trace(sys, steps, before) && After(before, Commit) == Some(after)
    ensures after.world.rows == [Row2(Going)] && after.world.outbox == [JoinRejected(2, 1), JoinApproved(2, 1)]
    ensures ApproveAttendee(before.world, 2, MANAGER) == Err(NotAwaitingApproval)
  {
    hide GoingIds, LastWhere, Inv, SystemInv, Trace, Decide, WaitlistJustified, Look;
    GatedStart();
    var w0 := Gated([Row2(Pending)], []);
    GatedApproval(ActiveDraft(w0.drafts).Some?);
    var own := SetRow(0, Change(Row2(Going), [JoinApproved(2, 1)]));
    sys := System(w0, Idle, map[]);
    var s1 := System(w0, Idle, map[0 := REJECTING2]);
    var decided, s2 := ReadAndDecide(s1, DoApprove(2, MANAGER), Decision(own, false));
    before := RejectionCommits(s2);
    assert before.world.rows == [Row2(NotGoing)] && before.world.outbox == [JoinRejected(2, 1)];
    TracesJoin(s1, decided, s2, [RejectCommits(0)], before);
    steps := Prepend(sys, RejectReads(0, 2, MANAGER), s1, decided + [RejectCommits(0)], before);
    after := before.(world := Effected(before.world, own), holder := Idle);
    RefusedAfterwards(before.world);
  }

  lemma RefusedAfterwards(w: World)
    requires w.session == GATED && w.rows == [Row2(NotGoing)]
    ensures ApproveAttendee(w, 2, MANAGER) == Err(NotAwaitingApproval)
  {
    assert w.rows[..0] == [] && GoingIds([]) == [];
    LookFinds(w.rows, 2, 0);
    hide LastWhere;
  }

  // ---- The overshoot happens ----

  const ROOMY: Session := GATED.(capacity := Some(2))
  const ROW4: Row := Row(4, Going, AutoConfirmed, None, 0, false)

  lemma CountOf(rows: seq<Row>, row: Row)
    requires rows != [] && rows[|rows| - 1] == row
    ensures Confirmed(rows) == Confirmed(rows[..|rows| - 1]) + (if IsGoing(row) then 1 else 0)
  {
  }

  lemma CountsOfTwoAndThree(a: Row, b: Row, c: Row)
    ensures Confirmed([a, b]) == (if IsGoing(a) then 1 else 0) + (if IsGoing(b) then 1 else 0)
    ensures Confirmed([a, b, c]) == Confirmed([a, b]) + (if IsGoing(c) then 1 else 0)
  {
    assert [a, b, c][..2] == [a, b] && [a, b][..1] == [a] && [a][..0] == [];
    CountOf([a], a);
    CountOf([a, b], b);
    CountOf([a, b, c], c);
    assert Confirmed([]) == 0;
  }

  lemma RoomyStart() returns (sys: System, s1: System)
    ensures sys == System(World(ROOMY, [Row2(Pending), ROW4], [], [], [], 0), Idle, map[])
    ensures SystemInv(sys) && Inv(sys.world) && s1 == sys.(rejects := map[0 := REJECTING2])
    ensures Trace(sys, [RejectReads(0, 2, MANAGER)], s1)
  {
    sys := System(World(ROOMY, [Row2(Pending), ROW4], [], [], [], 0), Idle, map[]);
    s1 := sys.(rejects := map[0 := REJECTING2]);
    LookFinds(sys.world.rows, 2, 0);
    hide LastWhere, GoingIds;
    OneStep(sys, RejectReads(0, 2, MANAGER), s1);
  }

  lemma RoomyFills(s1: System) returns (steps: seq<Step>, s3: System)
    requires s1.world.session == ROOMY && s1.world.rows == [Row2(Pending), ROW4] && s1.holder.Idle? && Shaped(s1.world)
    requires s1.world.drafts == [] && s1.world.rounds == []
    ensures Trace(s1, steps, s3) && s3.holder.Idle? && s3.rejects == s1.rejects
    ensures s3.world == s1.world.(rows := [Row2(Going), ROW4, INVITED3], outbox := s3.world.outbox)
  {
    CountsOfTwoAndThree(Row2(Pending), ROW4, INVITED3);
    CountsOfTwoAndThree(Row2(Going), ROW4, INVITED3);
    LookFinds([Row2(Pending), ROW4], 2, 0);
    LookMisses([Row2(Going), ROW4], 3);
    hide LastWhere, GoingIds, Look, Shaped, Trace;
    var approved, s2 := WholeCommand(s1, DoApprove(2, MANAGER),
      Decision(SetRow(0, Change(Row2(Going), [JoinApproved(2, 1)])), false));
    assert s2.world.rows == [Row2(Going), ROW4];
    var joined;
    joined, s3 := WholeCommand(s2, DoAcceptInvite(3, 1),
      Decision(Insert(Change(INVITED3, [RsvpAutoPending(3)])), false));
    assert s3.world.rows == [Row2(Going), ROW4, INVITED3];
    steps := approved + joined;
    TracesJoin(s1, approved, s2, joined, s3);
  }

  lemma CapacityLowered(s3: System) returns (s4: System)
    requires s3.world.session == ROOMY && s3.holder.Idle? && Shaped(s3.world)
    ensures Trace(s3, [OtherCommand(DoUpdateSession(MANAGER, Some(1), 0, true))], s4)
    ensures s4 == s3.(world := s3.world.(session := GATED, outbox := s4.world.outbox))
  {
    var lower := DoUpdateSession(MANAGER, Some(1), 0, true);
    s4 := s3.(world := Apply(s3.world, lower));
    hide Shaped;
    assert s4.world.session == GATED;
    OneStep(s3, OtherCommand(lower), s4);
  }

  /** The removal reads its row, the late rejection commits, and the removal goes on. */
  lemma RemovalOvertaken(s4: System) returns (steps: seq<Step>, s9: System)
    requires s4.world.session == GATED && s4.world.rows == [Row2(Going), ROW4, INVITED3]
    requires s4.holder.Idle? && s4.rejects == map[0 := REJECTING2]
    ensures Trace(s4, steps, s9) && s9.holder.Ready? && s9.holder.cmd == DoRemove(2, MANAGER, None)
    ensures s9.holder.own == SoftDelete(0, [AttendeeRemoved(2, 1)]) && s9.holder.freed && s9.holder.next == Some(2)
    ensures s9.world.session == GATED && s9.world.rows == [Row2(NotGoing), ROW4, INVITED3]
    ensures s9.world.drafts == s4.world.drafts && s9.world.rounds == s4.world.rounds
  {
    CountsOfTwoAndThree(Row2(Going), ROW4, INVITED3);
    LookFinds(s4.world.rows, 2, 0);
    hide LastWhere, GoingIds, Look, Trace;
    var cmd, seen := DoRemove(2, MANAGER, None), Some(Seen(0, Row2(Going)));
    var s5 := s4.(holder := Locked(cmd, 2));
    var s6 := s4.(holder := HasRow(cmd, 2, seen));
    var s7 := s4.(holder := HasCount(cmd, 2, seen, 2));
    var s8 := RejectionCommits(s7);
    assert s8.world.rows == [Row2(NotGoing), ROW4, INVITED3];
    var settled;
    settled, s9 := RemovalSettles(s8, cmd, seen);
    TracesJoin(s7, [RejectCommits(0)], s8, settled, s9);
    steps := Prepend(s6, ReadCount, s7, [RejectCommits(0)] + settled, s9);
    steps := Prepend(s5, ReadRow, s6, steps, s9);
    steps := Prepend(s4, TakeLock(cmd), s5, steps, s9);
  }

  lemma RemovalSettles(s8: System, cmd: Command, seen: Option<Seen>) returns (steps: seq<Step>, s9: System)
    requires cmd == DoRemove(2, MANAGER, None) && seen == Some(Seen(0, Row2(Going)))
    requires s8.world.session == GATED && s8.world.rows == [Row2(NotGoing), ROW4, INVITED3]
    requires s8.holder == HasCount(cmd, 2, seen, 2)
    ensures Trace(s8, steps, s9) && s9.holder.Ready? && s9.holder.cmd == cmd && s9.world == s8.world
    ensures s9.holder.own == SoftDelete(0, [AttendeeRemoved(2, 1)]) && s9.holder.freed && s9.holder.next == Some(2)
  {
    hide LastWhere, GoingIds, Trace, Participants;
    var w, own := s8.world, SoftDelete(0, [AttendeeRemoved(2, 1)]);
    var d := s8.(holder := Decided(cmd, 2, seen, 2, own, true));
    var p := s8.(holder := Promoting(cmd, 2, seen, 2, own, true, Some(2)));
    s9 := s8.(holder := Ready(cmd, 2, seen, 2, own, true, Some(2), Participants(w, own, Some(2))));
    assert Effected(w, own).rows == [Row2(NotGoing).(deleted := true), ROW4, INVITED3];
    assert [AttendeeRemoved(2, 1)] + [] == [AttendeeRemoved(2, 1)];
    assert DecideIn(w, cmd, seen, 2) == Ok(Decision(own, true));
    OneStep(p, ReadGoing, s9);
    steps := Prepend(d, ReadNext(Some(2)), p, [ReadGoing], s9);
    steps := Prepend(s8, Settle, d, steps, s9);
  }

  /** From a sound session: two spots, one taken, one request. The request is approved while a
      rejection of it is under way, an invited user waits, the capacity is lowered to one, and
      the removal of the approved attendee promotes the waiting one although the rejection took
      that spot already. One more is going after the commit than before it, over the capacity. */
  lemma TheOvershootHappens() returns (sys: System, steps: seq<Step>, before: System)
    ensures SystemInv(sys) && sys.holder.Idle? && sys.rejects == map[] && Inv(sys.world) && WithinCapacity(sys.world)
    ensures Trace(sys, steps, before) && After(before, Commit).Some?
    ensures var w, w' := before.world, After(before, Commit).value.world;
      w.session.capacity.Some? && Confirmed(w'.rows) > Max(Confirmed(w.rows), w.session.capacity.value)
  {
    hide GoingIds, LastWhere, Decide, Look, SystemInv, Trace, Inv, After, Committed;
    var s1;
    sys, s1 := RoomyStart();
    CountsOfTwoAndThree(Row2(Pending), ROW4, INVITED3);
    var filled, s3 := RoomyFills(s1);
    var s4 := CapacityLowered(s3);
    var removal, s9 := RemovalOvertaken(s4);
    TracesJoin(s3, [OtherCommand(DoUpdateSession(MANAGER, Some(1), 0, true))], s4, removal, s9);
    var late := [OtherCommand(DoUpdateSession(MANAGER, Some(1), 0, true))] + removal;
    TracesJoin(s1, filled, s3, late, s9);
    TracesJoin(sys, [RejectReads(0, 2, MANAGER)], s1, filled + late, s9);
    steps := [RejectReads(0, 2, MANAGER)] + (filled + late);
    before := s9;
    OvershootCommit(before);
  }

  lemma OvershootCommit(sys: System)
    requires sys.holder.Ready? && sys.holder.cmd == DoRemove(2, MANAGER, None)
    requires sys.holder.own == SoftDelete(0, [AttendeeRemoved(2, 1)]) && sys.holder.freed && sys.holder.next == Some(2)
    requires sys.world.session == GATED && sys.world.rows == [Row2(NotGoing), ROW4, INVITED3]
    requires sys.world.drafts == [] && sys.world.rounds == []
    ensures After(sys, Commit).Some?
    ensures var w' := After(sys, Commit).value.world;
      Confirmed(sys.world.rows) == 1 && Confirmed(w'.rows) == 2
  {
    var gone, promoted := Row2(NotGoing).(deleted := true), INVITED3.(status := Promoted);
    CountsOfTwoAndThree(Row2(NotGoing), ROW4, INVITED3);
    CountsOfTwoAndThree(gone, ROW4, promoted);
    hide GoingIds, LastWhere;
    var w' := After(sys, Commit).value.world;
    ActiveDraftIs(sys.world.drafts);
    OpenRoundIs(sys.world.rounds);
    assert w'.rows == [gone, ROW4, promoted];
  }

  // ---- A team given or taken ----

  // The same session with two spots and two teams.
  const WITH_TEAMS: Session :=
    Session(1, true, true, Scheduled, Some(2), true, 0, Some(TeamConfig(2, None)), [0, 1], ByHand)

  function Teamed(row: Row, capacity: int, outbox: seq<Event>): World {
    World(WITH_TEAMS.(capacity := Some(capacity)), [row, ROW4], [], [], outbox, 2)
  }

  lemma TeamedRows(status: AttendeeStatus)
    ensures Confirmed([Row2(status), ROW4]) == (if HoldsSpot(status) then 2 else 1)
    ensures Look([Row2(status), ROW4], 2) == Some(Seen(0, Row2(status)))
    ensures ActiveDraft([]).None?
  {
    CountsOfTwoAndThree(Row2(status), ROW4, ROW4);
    LookFinds([Row2(status), ROW4], 2, 0);
    ActiveDraftIs([]);
    hide GoingIds, LastWhere;
  }

  lemma TeamedIsSound(w: World)
    requires w == Teamed(Row2(Pending), 2, [])
    ensures Inv(w)
  {
    hide LastWhere, GoingIds, DraftHolds, RoundHolds;
  }

  lemma TeamedStart() returns (sys: System, s1: System)
    ensures sys == System(Teamed(Row2(Pending), 2, []), Idle, map[]) && s1 == sys.(rejects := map[0 := REJECTING2])
    ensures SystemInv(sys) && Inv(sys.world) && WithinCapacity(sys.world)
    ensures Trace(sys, [RejectReads(0, 2, MANAGER)], s1)
  {
    sys := System(Teamed(Row2(Pending), 2, []), Idle, map[]);
    s1 := sys.(rejects := map[0 := REJECTING2]);
    TeamedRows(Pending);
    TeamedIsSound(sys.world);
    hide LastWhere, GoingIds, Look, Confirmed, Inv;
    OneStep(sys, RejectReads(0, 2, MANAGER), s1);
  }

  /** A team command from the lock to the commit's brink, the rejection committing once it has read
      and decided. */
  lemma TeamCommandOvertaken(s1: System, status: AttendeeStatus, cmd: Command, c: Change)
    returns (steps: seq<Step>, ready: System)
    requires s1.holder.Idle? && s1.rejects == map[0 := REJECTING2] && s1.world.rows == [Row2(status), ROW4]
    requires IsRequest(cmd) && cmd.user == 2 && s1.world.drafts == []
    requires var n := if HoldsSpot(status) then 2 else 1;
      Decide(s1.world.session, false, cmd, Some(Seen(0, Row2(status))), n) == Ok(Decision(SetRow(0, c), false))
    ensures Trace(s1, steps, ready) && ready.rejects == map[]
    ensures ready.world == RejectedAt(s1.world, REJECTING2) && ready.world.rows == [Row2(NotGoing), ROW4]
    ensures After(ready, Commit) == Some(System(Effected(ready.world, SetRow(0, c)), Idle, map[]))
  {
    TeamedRows(status);
    hide GoingIds, LastWhere, Look, Trace, Decide, Confirmed, ActiveDraft;
    var decided, s2 := ReadAndDecide(s1, cmd, Decision(SetRow(0, c), false));
    ready := RejectionCommits(s2);
    steps := decided + [RejectCommits(0)];
    TracesJoin(s1, decided, s2, [RejectCommits(0)], ready);
  }

  lemma ApprovedThenLowered(s1: System) returns (steps: seq<Step>, s3: System)
    requires s1 == System(Teamed(Row2(Pending), 2, []), Idle, map[0 := REJECTING2])
    ensures Trace(s1, steps, s3) && s3.holder.Idle? && s3.rejects == s1.rejects
    ensures s3.world == Teamed(Row2(Going), 1, s3.world.outbox)
  {
    TeamedRows(Pending);
    hide GoingIds, LastWhere, Look, Trace, Confirmed;
    var approved, s2 := WholeCommand(s1, DoApprove(2, MANAGER),
      Decision(SetRow(0, Change(Row2(Going), [JoinApproved(2, 1)])), false));
    assert s2.world.rows == [Row2(Going), ROW4];
    var lower := DoUpdateSession(MANAGER, Some(1), 0, true);
    s3 := s2.(world := Apply(s2.world, lower));
    assert s3.world.session == WITH_TEAMS.(capacity := Some(1));
    OneStep(s2, OtherCommand(lower), s3);
    steps := approved + [OtherCommand(lower)];
    TracesJoin(s1, approved, s2, [OtherCommand(lower)], s3);
  }

  /** An organizer puts an attendee on a team. The row was read going, the rejection of an earlier
      request commits, and the team assignment writes the spot back. With the capacity lowered
      before, one more is going after the commit than before it, over the capacity. */
  lemma AssignmentOvershoots() returns (sys: System, steps: seq<Step>, before: System, after: System)
    ensures SystemInv(sys) && sys.holder.Idle? && sys.rejects == map[] && Inv(sys.world) && WithinCapacity(sys.world)
    ensures Trace(sys, steps, before) && After(before, Commit) == Some(after)
    ensures after.world.rows == [Row2(Going).(team := Some(0)), ROW4]
    ensures before.world.session.capacity == Some(1)
      && Confirmed(before.world.rows) == 1 && Confirmed(after.world.rows) == 2
  {
    hide GoingIds, LastWhere, Look, SystemInv, Trace, Inv, Confirmed, WithinCapacity, After;
    var s1;
    sys, s1 := TeamedStart();
    var filled, s3 := ApprovedThenLowered(s1);
    var on := Row2(Going).(team := Some(0));
    var c := Change(on, [TeamAssigned(2, 0, 1)]);
    var rest;
    rest, before := TeamCommandOvertaken(s3, Going, DoAssignTeam(2, 0, MANAGER), c);
    after := System(Effected(before.world, SetRow(0, c)), Idle, map[]);
    assert after.world.rows == [on, ROW4];
    TeamedRows(NotGoing);
    CountsOfTwoAndThree(on, ROW4, ROW4);
    TracesJoin(s1, filled, s3, rest, before);
    TracesJoin(sys, [RejectReads(0, 2, MANAGER)], s1, filled + rest, before);
    steps := [RejectReads(0, 2, MANAGER)] + (filled + rest);
  }

  /** An organizer takes an undecided request off a team it is not on, which changes nothing. It
      read the request pending, the rejection commits in time, and the write puts the request back:
      the row awaits a decision again though it has been rejected, and run serially after the
      rejection the command leaves it rejected. */
  lemma UnassignRevivesARequest() returns (sys: System, steps: seq<Step>, before: System, after: System)
    ensures SystemInv(sys) && sys.holder.Idle? && sys.rejects == map[] && Inv(sys.world)
    ensures Trace(sys, steps, before) && After(before, Commit) == Some(after)
    ensures before.world == RejectedAt(sys.world, REJECTING2) && StillUndecided(sys.world, REJECTING2)
    ensures after.world.rows == [Row2(Pending), ROW4] && after.world.outbox == [JoinRejected(2, 1)]
    ensures UnassignAttendeeTeam(before.world, 2, MANAGER) == Ok(before.world)
      && before.world.rows == [Row2(NotGoing), ROW4]
  {
    hide GoingIds, LastWhere, Look, SystemInv, Trace, Inv, Confirmed, WithinCapacity, After;
    var s1;
    sys, s1 := TeamedStart();
    var rest;
    rest, before := TeamCommandOvertaken(s1, Pending, DoUnassignTeam(2, MANAGER), Change(Row2(Pending), []));
    after := System(Effected(before.world, SetRow(0, Change(Row2(Pending), []))), Idle, map[]);
    assert before.world.outbox == [JoinRejected(2, 1)];
    assert after.world.rows == [Row2(Pending), ROW4];
    assert after.world.outbox == before.world.outbox + [];
    UnassignedAfterwards(before.world);
    TracesJoin(sys, [RejectReads(0, 2, MANAGER)], s1, rest, before);
    steps := [RejectReads(0, 2, MANAGER)] + rest;
  }

  lemma UnassignedAfterwards(w: World)
    requires w.session == WITH_TEAMS && w.rows == [Row2(NotGoing), ROW4] && w.drafts == []
    ensures UnassignAttendeeTeam(w, 2, MANAGER) == Ok(w)
  {
    TeamedRows(NotGoing);
    LiveRowIs(w.rows, 2);
    hide LastWhere;
    assert w.rows[0 := Row2(NotGoing)] == w.rows && w.outbox + [] == w.outbox;
  }
}
