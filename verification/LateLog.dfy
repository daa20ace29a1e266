/** What the outbox says about the teams when transactions interleave with rejections
    (activity/internal/application/attendee_service.go lines 391-416 and
    activity/internal/infrastructure/persistence/attendee_repo.go lines 112-139). */
module LateLog {
  import opened Wrappers
  import opened Sequences
  import opened ActivityTypes
  import opened Attendees
  import opened SessionWorld
  import opened SessionInvariants
  import opened SessionWaitlist
  import opened Sturdiness
  import opened SessionLog
  import opened StaleReads
  import opened FormationCommits
  import opened Interleavings
  import opened SerialOrder
  import opened LateRejections
  import opened LateRosters
  import D = Drafts

  // ---- A rejection ----

  /** A rejection keeps the outbox true of the teams exactly when its row is on none: it takes the team
      away without a word. */
  lemma RejectKeepsLogTrueIff(w: World, r: Rejecting)
    requires OneRowEach(w.rows) && RejectFits(w, r) && LogTrue(w)
    ensures LogTrue(RejectedAt(w, r)) <==> w.rows[r.index].deleted || w.rows[r.index].team.None?
  {
    var w', told := RejectedAt(w, r), [JoinRejected(r.row.user, r.actor.user)];
    var row := w'.rows[r.index];
    forall u: UserId
      ensures TeamAfter(None, w'.outbox, u) == TeamOf(w.rows, u)
      ensures TeamOf(w'.rows, u)
           == (if !w.rows[r.index].deleted && u == r.row.user then None else TeamOf(w.rows, u)) {
      TeamAfterBoth(None, w.outbox, told, u);
      TeamAfterSilence(TeamAfter(None, w.outbox, u), told, u);
      RejectedTeamOf(w, r, u);
    }
    forall l: Ledger ensures Tally(l, w'.outbox) == Level(l, w') {
      TallyBoth(l, w.outbox, told);
      TallyPlain(l, told);
    }
    if !w.rows[r.index].deleted {
      TeamOfIs(w.rows, r.index);
    }
    hide TeamOf, TeamAfter, Tally, Level;
    assert TeamAfter(None, w'.outbox, r.row.user) == TeamOf(w.rows, r.row.user);
  }

  lemma RejectedTeamOf(w: World, r: Rejecting, user: UserId)
    requires OneRowEach(w.rows) && RejectFits(w, r)
    ensures TeamOf(RejectedAt(w, r).rows, user)
         == (if !w.rows[r.index].deleted && user == r.row.user then None else TeamOf(w.rows, user))
  {
    var row := RejectedAt(w, r).rows[r.index];
    if w.rows[r.index].deleted {
      LiveRowAfterReject(w, r, user);
      LiveRowIs(w.rows, user);
      hide LastWhere;
    } else {
      hide LastWhere;
      TeamOfAfterWrite(w.rows, r.index, row, user);
    }
  }

  // ---- Commits on old reads ----

  /** The row is as read, or was read on no team. */
  predicate SameTeam(was: Row, now: Row) {
    now == was || was.team.None?
  }

  /** Whoever was rejected since the lock's holder read them was on no team. */
  ghost predicate ReadsTeamless(w: World, h: Holder) {
    if h.Idle? || h.Locked? then true
    else if h.HasTable? then
      |h.read| == |w.rows| && forall i :: 0 <= i < |w.rows| ==> SameTeam(h.read[i], w.rows[i])
    else
      h.seen.Some? ==> h.seen.value.index < |w.rows| && SameTeam(h.seen.value.row, w.rows[h.seen.value.index])
  }

  lemma TeamsAlike(rows: seq<Row>, rows': seq<Row>, user: UserId)
    requires |rows| == |rows'|
    requires forall i :: 0 <= i < |rows| ==>
      rows'[i].user == rows[i].user && rows'[i].deleted == rows[i].deleted && rows'[i].team == rows[i].team
    requires OneRowEach(rows)
    ensures TeamOf(rows', user) == TeamOf(rows, user)
  {
    LiveRowIs(rows, user);
    LiveRowIs(rows', user);
    hide LastWhere;
    if LiveRow(rows, user).Some? {
      TeamOfIs(rows', LiveRow(rows, user).value);
    }
  }

  /** What is decided about a row tells the team it leaves the row on. */
  lemma ChangeTells(s: Session, drafting: bool, h: Holder)
    requires HasDecided(h) && WritesOwnRow(h.cmd) && h.seen.Some?
    requires Decide(s, drafting, h.cmd, h.seen, h.count) == Ok(Decision(h.own, h.freed))
    ensures var row := h.seen.value.row;
      && (h.own.SetRow? ==> TellsTeam(row.team, row.user, h.own.change))
      && (h.own.SoftDelete? ==> TellsTeam(row.team, row.user, Change(row.(team := None), h.own.events)))
  {
    hide TellsTeam;
    var row := h.seen.value.row;
    match h.cmd
    case DoApprove(_, actor) => SmallChangeTells(row, h.own.change);
    case DoUpdateRsvp(_, to, _) => RsvpChangeTells(row, s, to, h.count);
    case DoAssignTeam(_, team, actor) => OwnTeamChangeTells(row, s, team, actor);
    case DoUnassignTeam(_, actor) => OwnTeamChangeTells(row, s, 0, actor);
    case DoRemove(_, actor, _) =>
      RemovalTells(row, s, actor);
      SameTeamTells(row.team, row.user, Removed(row, s, actor).value, Change(row.(team := None), h.own.events));
    case DoCancelRsvp(_, _) =>
      ReleaseTells(row, [], row.status, Left, NOBODY);
      assert [] + Released(row, Left, NOBODY).events == Released(row, Left, NOBODY).events;
      SameTeamTells(row.team, row.user, Released(row, Left, NOBODY).(events := [] + Released(row, Left, NOBODY).events),
        Change(row.(team := None), h.own.events));
    case DoCreateRsvp(_, _, _, _, _) =>
    case DoAcceptInvite(_, _) =>
  }

  lemma NewcomerTells(s: Session, drafting: bool, h: Holder)
    requires HasDecided(h) && IsRequest(h.cmd) && h.own.Insert?
    requires Decide(s, drafting, h.cmd, h.seen, h.count) == Ok(Decision(h.own, h.freed))
    ensures forall i :: 0 <= i < |h.own.change.events| ==> Small(h.own.change.events[i])
  {
  }

  lemma EffectIsTold(w: World, h: Holder)
    requires OneRowEach(w.rows) && HolderFits(w, h) && h.Ready? && ReadsTeamless(w, h)
    ensures Told(w, OwnEvents(h.own), Effected(w, h.own))
  {
    OwnFits(w, h);
    hide Told, TellsTeam, LastWhere, GoingIds, Decide, IsNextInLine, Small;
    var drafting := ActiveDraft(w.drafts).Some?;
    match h.own
    case Insert(c) =>
      NewcomerTells(w.session, drafting, h);
      InsertIsTold(w, c);
    case SetRow(i, c) =>
      var row := w.rows[i].(status := c.row.status, team := c.row.team);
      ChangeTells(w.session, drafting, h);
      SameTeamTells(w.rows[i].team, c.row.user, c, c.(row := row));
      WriteIsTold(w, i, c.(row := row));
    case SoftDelete(i, events) =>
      var row := w.rows[i].(deleted := true, team := None);
      ChangeTells(w.session, drafting, h);
      SameTeamTells(w.rows[i].team, row.user, Change(h.seen.value.row.(team := None), events), Change(row, events));
      WriteIsTold(w, i, Change(row, events));
  }

  lemma OwnCommitIsTold(w: World, h: Holder) returns (events: seq<Event>)
    requires Sturdy(w) && HolderFits(w, h) && h.Ready? && SeenOnTeam(w, h) && ReadsTeamless(w, h)
    ensures Told(w, events, Committed(w, h.own, h.freed, h.next, h.going, h.cmd.user))
  {
    SturdyTables(w);
    EffectIsTold(w, h);
    EffectedKeepsTables(w, h);
    events := OwnEvents(h.own);
    if h.freed {
      var w1 := Effected(w, h.own);
      hide Told, Sturdy, Decide, SeenFits, Effected, PromotedAt, PromoteNextPending, ResetFormation, IsNextInLine,
           OneRowEach, OneFormation, TeamsFit, TwoTeamDrafts, OnSomeTeam, OwnEvents;
      PromotedAtIs(w1, h.next);
      PromoteKeepsTables(w1, h.next);
      var w2 := PromotedAt(w1, h.next);
      var promoted := PromotionIsTold(w1, h.next);
      ToldTwice(w, events, w1, promoted, w2);
      events := events + promoted;
      if TeamsLock(w2.session).None? {
        var reset := ResetIsTold(w2, h.cmd.user, RosterChanged, h.going);
        ToldTwice(w, events, w2, reset, ResetFormation(w2, h.cmd.user, RosterChanged, h.going));
        events := events + reset;
      }
    }
  }

  lemma ReadTeams(w: World, read: seq<Row>, user: UserId)
    requires RejectedOnly(read, w.rows) && OneRowEach(w.rows)
    requires forall i :: 0 <= i < |w.rows| ==> SameTeam(read[i], w.rows[i])
    ensures TeamOf(read, user) == TeamOf(w.rows, user)
  {
    forall i | 0 <= i < |w.rows|
      ensures read[i].user == w.rows[i].user && read[i].deleted == w.rows[i].deleted && read[i].team == w.rows[i].team {
      assert SinceRead(read[i], w.rows[i]) && SameTeam(read[i], w.rows[i]);
    }
    TeamsAlike(w.rows, read, user);
  }

  lemma WrittenTeam(row: Row, read: Row, e: RowEffect)
    requires EffectFits(e) && SinceRead(read, row) && SameTeam(read, row)
    ensures var r, r0 := WrittenRow(row, read, e), WrittenRow(read, read, e);
      r.user == r0.user && r.deleted == r0.deleted && r.team == r0.team
  {
    hide Placements;
  }

  /** The rows a draft, vote or teams command leaves are on the teams it would have left them on. */
  lemma FormedTeamsAlike(w: World, h: Holder, user: UserId)
    requires OneRowEach(w.rows) && HolderFits(w, h) && CanCommit(w, h) && h.HasTable? && ReadsTeamless(w, h)
    ensures TeamOf(FormedAt(w, h.cmd, h.read).rows, user) == TeamOf(AppliedOnRead(w, h).rows, user)
  {
    AppliedRows(w, h);
    PlanIgnoresRows(w, h.cmd, GoingIds(h.read), h.read);
    var w0 := w.(rows := h.read);
    var p := PlanOf(w, h.cmd, GoingIds(h.read));
    hide Shaped, PlanOf, GoingIds, MovesOf, WrittenRow, AppliedOnRead, RejectedOnly, RequestsFit, TeamOf, SameTeam;
    if p.Err? {
      ReadTeams(w, h.read, user);
    } else {
      var e := p.value.effect;
      assert FormedAt(w, h.cmd, h.read).rows == WrittenRows(w.rows, h.read, e);
      assert FormedAt(w0, h.cmd, h.read).rows == WrittenRows(h.read, h.read, e);
      WrittenTeamsAlike(w.rows, h.read, e, user);
    }
  }

  lemma WrittenTeamsAlike(rows: seq<Row>, read: seq<Row>, e: RowEffect, user: UserId)
    requires EffectFits(e) && RejectedOnly(read, rows) && OneRowEach(rows)
    requires forall i :: 0 <= i < |rows| ==> SameTeam(read[i], rows[i])
    ensures TeamOf(WrittenRows(rows, read, e), user) == TeamOf(WrittenRows(read, read, e), user)
  {
    CarriedRows(rows, read, e);
    hide WrittenRow, TeamOf;
    var a, b := WrittenRows(rows, read, e), WrittenRows(read, read, e);
    forall i | 0 <= i < |rows|
      ensures b[i].user == a[i].user && b[i].deleted == a[i].deleted && b[i].team == a[i].team {
      assert SinceRead(read[i], rows[i]) && SameTeam(read[i], rows[i]);
      WrittenTeam(rows[i], read[i], e);
    }
    TeamsAlike(a, b, user);
  }

  lemma TableCommitIsTold(w: World, h: Holder) returns (events: seq<Event>)
    requires Sturdy(w) && HolderFits(w, h) && CanCommit(w, h) && h.HasTable? && SeenOnTeam(w, h) && ReadsTeamless(w, h)
    ensures Told(w, events, FormedAt(w, h.cmd, h.read))
  {
    SturdyTables(w);
    SturdyAsRead(w, h);
    FormedIsApplied(w, h.cmd, h.read);
    var w0, w', a := w.(rows := h.read), FormedAt(w, h.cmd, h.read), AppliedOnRead(w, h);
    hide Sturdy, Shaped, Legal, Apply, FormedAt, RejectedOnly, OneRowEach, RequestsFit, GoingIds, OneFormation, Tables;
    events := StepIsTold(w0, h.cmd);
    hide TeamAfter, TeamOf, Tally;
    forall u: UserId ensures TeamAfter(TeamOf(w.rows, u), events, u) == TeamOf(w'.rows, u) {
      ReadTeams(w, h.read, u);
      FormedTeamsAlike(w, h, u);
    }
    forall l: Ledger ensures Tally(l, events) == Level(l, w') - Level(l, w) {
      assert Tally(l, events) == Level(l, a) - Level(l, w0);
    }
    ToldDirectly(w, events, w');
  }

  // ---- Every step and every interleaving ----

  /** The step leaves the outbox true of the tables. */
  predicate KeepsLog(sys: System, step: Step) {
    step.RejectCommits? && step.tx in sys.rejects && sys.rejects[step.tx].index < |sys.world.rows| ==>
      sys.world.rows[sys.rejects[step.tx].index].team.None?
  }

  lemma RejectKeepsTeamless(w: World, h: Holder, r: Rejecting)
    requires RejectFits(w, r) && ReadsTeamless(w, h) && w.rows[r.index].team.None?
    ensures ReadsTeamless(RejectedAt(w, r), h)
  {
    if h.HasTable? {
      forall i | 0 <= i < |w.rows| ensures SameTeam(h.read[i], RejectedAt(w, r).rows[i]) {
        assert SameTeam(h.read[i], w.rows[i]);
      }
    }
  }

  lemma CommitKeepsLogTrue(w: World, h: Holder)
    requires Sturdy(w) && HolderFits(w, h) && CanCommit(w, h) && SeenOnTeam(w, h) && ReadsTeamless(w, h) && LogTrue(w)
    ensures LogTrue(CommitOf(w, h)) && w.outbox <= CommitOf(w, h).outbox
  {
    hide Sturdy, Shaped, HolderFits, SeenOnTeam, ReadsTeamless, LogTrue, Told, FormedAt, Committed;
    var events;
    if h.HasTable? {
      events := TableCommitIsTold(w, h);
    } else {
      events := OwnCommitIsTold(w, h);
    }
    ToldKeepsLogTrue(w, events, CommitOf(w, h));
  }

  lemma LifecycleKeepsLogTrue(w: World, cmd: Command)
    requires Sturdy(w) && Shaped(w) && Legal(w, cmd) && LogTrue(w)
    ensures LogTrue(Apply(w, cmd)) && w.outbox <= Apply(w, cmd).outbox
  {
    hide Sturdy, Shaped, Legal, Apply, LogTrue, Told;
    var events := StepIsTold(w, cmd);
    ToldKeepsLogTrue(w, events, Apply(w, cmd));
  }

  lemma OffTeamIff(w: World, i: nat)
    requires Sturdy(w) && i < |w.rows|
    ensures w.rows[i].deleted || w.rows[i].team.None? <==> w.rows[i].team.None?
  {
    SturdyRowOnTeam(w, i);
    hide Sturdy;
  }

  lemma RejectTells(w: World, r: Rejecting)
    requires RejectFits(w, r)
    ensures w.outbox <= RejectedAt(w, r).outbox
  {
  }

  /** Of all the steps of all transactions only the rejection of someone on a team makes the outbox
      untrue, and it does exactly then; no commit does, whatever was rejected since it read. */
  lemma StepKeepsLogTrueIff(sys: System, step: Step)
    requires SystemInv(sys) && SturdySystem(sys) && ReadsTeamless(sys.world, sys.holder) && LogTrue(sys.world)
    requires After(sys, step).Some?
    ensures LogTrue(After(sys, step).value.world) <==> KeepsLog(sys, step)
    ensures sys.world.outbox <= After(sys, step).value.world.outbox
    ensures KeepsLog(sys, step) ==> ReadsTeamless(After(sys, step).value.world, After(sys, step).value.holder)
  {
    var w, h := sys.world, sys.holder;
    hide Sturdy, GoingIds, LastWhere, CommitOf, RejectedAt, Apply, Shaped, Legal, HolderFits, OneRowEach, RequestsFit,
         SeenOnTeam, LogTrue, Decide, IsNextInLine, Effected, Participants, RejectFits;
    if step.Commit? {
      CommitKeepsLogTrue(w, h);
    } else if step.OtherCommand? {
      LifecycleKeepsLogTrue(w, step.other);
    } else if step.RejectCommits? {
      var r := sys.rejects[step.tx];
      RejectInTable(w, r);
      RejectKeepsLogTrueIff(w, r);
      OffTeamIff(w, r.index);
      RejectTells(w, r);
      if w.rows[r.index].team.None? { RejectKeepsTeamless(w, h, r); }
    } else {
      QuietStepKeepsWorld(sys, step);
      LiveRowIs(w.rows, if step.ReadRow? then h.cmd.user else NOBODY);
    }
  }

  lemma RejectInTable(w: World, r: Rejecting)
    requires RejectFits(w, r)
    ensures r.index < |w.rows|
  {
  }

  ghost predicate AllKeepLog(sys: System, steps: seq<Step>)
    decreases |steps|
  {
    steps == [] || (KeepsLog(sys, steps[0])
      && (After(sys, steps[0]).Some? ==> AllKeepLog(After(sys, steps[0]).value, steps[1..])))
  }

  /** So over every interleaving that rejects nobody while they are on a team the outbox only grows
      and stays true, even where rosters come to name people who are not going. */
  lemma {:induction false} InterleavingKeepsLogTrue(sys: System, steps: seq<Step>, sys': System)
    requires SystemInv(sys) && SturdySystem(sys) && ReadsTeamless(sys.world, sys.holder) && LogTrue(sys.world)
    requires Trace(sys, steps, sys') && AllKeepLog(sys, steps)
    ensures LogTrue(sys'.world) && sys.world.outbox <= sys'.world.outbox
    decreases |steps|
  {
    hide SystemInv, SturdySystem, ReadsTeamless, LogTrue, After, KeepsLog;
    if steps != [] {
      StepKeepsLogTrueIff(sys, steps[0]);
      StepKeepsSystemInv(sys, steps[0]);
      StepKeepsSturdy(sys, steps[0]);
      InterleavingKeepsLogTrue(After(sys, steps[0]).value, steps[1..], sys');
    }
  }

  // ---- It does happen ----

  lemma OnATeam(s1: System) returns (steps: seq<Step>, s3: System)
    requires s1 == System(Teamed(Row2(Pending), 2, []), Idle, map[0 := REJECTING2])
    ensures Trace(s1, steps, s3)
    ensures s3 == System(Teamed(Row2(Going).(team := Some(0)), 2, [JoinApproved(2, 1), TeamAssigned(2, 0, 1)]), Idle,
                         map[0 := REJECTING2])
  {
    TeamedRows(Pending);
    TeamedRows(Going);
    hide GoingIds, LastWhere, Look, Trace, Confirmed;
    var approved, s2 := WholeCommand(s1, DoApprove(2, MANAGER),
      Decision(SetRow(0, Change(Row2(Going), [JoinApproved(2, 1)])), false));
    assert s2.world.rows == [Row2(Going), ROW4];
    var on := Row2(Going).(team := Some(0));
    var placing;
    placing, s3 := WholeCommand(s2, DoAssignTeam(2, 0, MANAGER),
      Decision(SetRow(0, Change(on, [TeamAssigned(2, 0, 1)])), false));
    assert s3.world.rows == [on, ROW4];
    steps := approved + placing;
    TracesJoin(s1, approved, s2, placing, s3);
  }

  lemma TeamedLog(w: World)
    requires w == Teamed(Row2(Pending), 2, [])
    ensures LogTrue(w)
  {
    QuietStartLogTrue(w);
  }

  /** From a sound session with a true outbox: a request is approved while a rejection of it is under
      way, the attendee is put on a team, and then the rejection commits. They are on no team any
      more, and the outbox still says they are. */
  lemma LateRejectLeavesTheLogUntrue() returns (sys: System, steps: seq<Step>, sys': System)
    ensures SystemInv(sys) && sys.holder.Idle? && sys.rejects == map[] && Inv(sys.world) && LogTrue(sys.world)
    ensures Trace(sys, steps, sys') && sys'.holder.Idle? && sys'.rejects == map[]
    ensures TeamOf(sys'.world.rows, 2) == None && TeamAfter(None, sys'.world.outbox, 2) == Some(0)
    ensures !LogTrue(sys'.world)
  {
    hide GoingIds, LastWhere, SystemInv, Trace, Inv, TeamAfter, TeamOf, After;
    var s1;
    sys, s1 := TeamedStart();
    TeamedLog(sys.world);
    var joined, s3 := OnATeam(s1);
    sys' := RejectionCommits(s3);
    assert sys'.world.rows == [Row2(NotGoing), ROW4];
    var told := [JoinApproved(2, 1), TeamAssigned(2, 0, 1)];
    assert sys'.world.outbox == told + [JoinRejected(2, 1)];
    TeamAfterBoth(None, told, [JoinRejected(2, 1)], 2);
    LastEventDecides(None, [JoinApproved(2, 1)], TeamAssigned(2, 0, 1), 2);
    assert told == [JoinApproved(2, 1)] + [TeamAssigned(2, 0, 1)];
    TeamAfterSilence(Some(0), [JoinRejected(2, 1)], 2);
    NobodyOnATeam(sys'.world.rows, 2);
    TracesJoin(s1, joined, s3, [RejectCommits(0)], sys');
    TracesJoin(sys, [RejectReads(0, 2, MANAGER)], s1, joined + [RejectCommits(0)], sys');
    steps := [RejectReads(0, 2, MANAGER)] + (joined + [RejectCommits(0)]);
  }
}
