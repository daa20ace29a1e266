/** Capacity and the waitlist over every run of the service commands. */
module SessionWaitlist {
  import opened Wrappers
  import opened Sequences
  import opened ActivityTypes
  import opened Attendees
  import opened SessionWorld
  import opened SessionInvariants
  import D = Drafts
  import V = Voting

  predicate SomeoneWaits(rows: seq<Row>) {
    exists i :: 0 <= i < |rows| && Waits(rows[i])
  }

  function Max(a: int, b: int): int {
    if a < b then b else a
  }

  predicate WithinCapacity(w: World) {
    w.session.capacity.Some? ==> Confirmed(w.rows) <= w.session.capacity.value
  }

  /** People only wait for a spot when there is none. */
  predicate WaitlistJustified(w: World) {
    SomeoneWaits(w.rows) ==> w.session.capacity.Some? && Confirmed(w.rows) >= w.session.capacity.value
  }

  // ---- Commands that leave attendance alone ----

  /** Nothing but teams changes, and a new team is given only to people going. */
  ghost predicate SameAttendance(rows: seq<Row>, rows': seq<Row>) {
    && |rows| == |rows'|
    && (forall i :: 0 <= i < |rows| ==> rows'[i] == rows[i].(team := rows'[i].team))
    && (forall i :: 0 <= i < |rows| && rows'[i].team.Some? ==> rows'[i].team == rows[i].team || IsGoing(rows[i]))
  }

  predicate SameRules(s: Session, s': Session) {
    s'.requiresApproval == s.requiresApproval && s'.creator == s.creator
  }

  ghost predicate AttendanceKept(w: World, w': World) {
    && SameAttendance(w.rows, w'.rows)
    && w'.session.capacity == w.session.capacity && SameRules(w.session, w'.session)
  }

  lemma SameAttendanceCounts(rows: seq<Row>, rows': seq<Row>)
    requires SameAttendance(rows, rows')
    ensures Confirmed(rows') == Confirmed(rows) && SomeoneWaits(rows') == SomeoneWaits(rows)
  {
    GoingSame(rows, rows');
    hide GoingIds;
    if SomeoneWaits(rows) {
      var i :| 0 <= i < |rows| && Waits(rows[i]);
      assert Waits(rows'[i]);
    }
    if SomeoneWaits(rows') {
      var i :| 0 <= i < |rows'| && Waits(rows'[i]);
      assert Waits(rows[i]);
    }
  }

  predicate ChangesAttendance(cmd: Command) {
    cmd.DoCreateRsvp? || cmd.DoAcceptInvite? || cmd.DoApprove? || cmd.DoReject? || MayLeave(cmd)
  }

  lemma ResetKeepsAttendance(w: World, who: UserId, reason: ResetReason)
    ensures AttendanceKept(w, ResetTeamFormation(w, who, reason))
  {
    hide GoingIds, LastWhere;
  }

  lemma ReplaceKeepsAttendance(w: World, formed: FormedTeams, config: TeamConfig, source: TeamsSource, who: UserId,
                               before: seq<Event>)
    requires |formed.rosters| == |formed.assignedBy| == config.teamCount
    ensures AttendanceKept(w, ReplaceTeams(w, formed, config, source, who, before))
  {
    hide GoingIds, Placements, AllMoves;
  }

  lemma FinishKeepsAttendance(w: World, c: D.DraftChange)
    requires c.draft.config.teamCount == 2
    ensures AttendanceKept(w, Finish(w, c))
  {
    hide ReplaceTeams, D.Roster;
    if c.draft.status == D.Finished {
      ReplaceKeepsAttendance(w, DraftTeams(c.draft), c.draft.config, ByDraft, c.draft.startedBy, c.events);
    }
  }

  lemma StartDraftKeepsAttendance(w: World, actor: Actor, captainA: UserId, captainB: UserId, order: D.PickOrder,
                                  minPlayers: Option<int>)
    ensures StartDraft(w, actor, captainA, captainB, order, minPlayers).Ok? ==>
      AttendanceKept(w, StartDraft(w, actor, captainA, captainB, order, minPlayers).value)
  {
    hide GoingIds, LastWhere, Finish, D.Available;
    var r := D.NewDraft(w.session, actor, captainA, captainB, order, minPlayers, GoingIds(w.rows));
    if r.Ok? {
      FinishKeepsAttendance(w.(drafts := w.drafts + [r.value.draft]), r.value);
    }
  }

  lemma DraftCommandKeepsAttendance(w: World, cmd: Command)
    requires Shaped(w) && Legal(w, cmd) && (cmd.DoPick? || cmd.DoReplaceCaptain? || cmd.DoCancelDraft?)
    ensures AttendanceKept(w, Apply(w, cmd))
  {
    hide GoingIds, LastWhere, DraftStep, D.Available;
    if ActiveDraft(w.drafts).Some? {
      var i := ActiveDraft(w.drafts).value;
      if cmd.DoPick? {
        DraftStepKeepsAttendance(w, i, D.Picked(w.drafts[i], w.session, cmd.captain, cmd.user, GoingIds(w.rows)));
      } else if cmd.DoReplaceCaptain? {
        DraftStepKeepsAttendance(w, i,
          D.CaptainNamed(w.drafts[i], w.session, cmd.actor, cmd.side, cmd.user, GoingIds(w.rows)));
      }
    }
  }

  lemma RowCommandKeepsAttendance(w: World, cmd: Command)
    requires Shaped(w) && Legal(w, cmd) && (cmd.DoAssignTeam? || cmd.DoUnassignTeam?)
    ensures AttendanceKept(w, Apply(w, cmd))
  {
    hide GoingIds, LastWhere, Shaped;
  }

  lemma VotingKeepsAttendance(w: World, cmd: Command)
    requires Shaped(w) && Legal(w, cmd) && (cmd.DoPropose? || cmd.DoVote? || cmd.DoRetractVote? || cmd.DoWithdraw?)
    ensures AttendanceKept(w, Apply(w, cmd))
  {
    hide GoingIds, LastWhere, Shaped, V.OpenRound, V.Proposed, V.Voted, V.VoteTakenBack, V.Withdrawn;
  }

  lemma OverKeepsAttendance(w: World, c: Result<SessionChange, Error>, who: UserId)
    requires c.Ok? ==> c.value.session == w.session.(status := c.value.session.status)
    ensures EndSession(w, c, who).Ok? ==> AttendanceKept(w, EndSession(w, c, who).value)
  {
    hide LastWhere;
  }

  lemma CreateTeamsKeepsAttendance(w: World, actor: Actor, config: TeamConfig)
    ensures CreateTeams(w, actor, config).Ok? ==> AttendanceKept(w, CreateTeams(w, actor, config).value)
  {
    hide LastWhere, UnassignedEvents, FreshTeams;
  }

  lemma DetailCommandKeepsAttendance(w: World, cmd: Command)
    requires Shaped(w) && Legal(w, cmd) && (cmd.DoUpdateSession? || cmd.DoSetVisibility? || cmd.DoStart?)
    ensures SameAttendance(w.rows, Apply(w, cmd).rows)
    ensures SameRules(w.session, Apply(w, cmd).session)
    ensures !cmd.DoUpdateSession? ==> AttendanceKept(w, Apply(w, cmd))
  {
    hide Shaped, Legal;
  }

  lemma EndCommandKeepsAttendance(w: World, cmd: Command)
    requires Shaped(w) && Legal(w, cmd) && (cmd.DoComplete? || cmd.DoCancel? || cmd.DoCancelFromGroup? || cmd.DoExpire?)
    ensures AttendanceKept(w, Apply(w, cmd))
  {
    hide Shaped, Legal, EndSession;
    match cmd
    case DoComplete(actor) => OverKeepsAttendance(w, CompletedBy(w.session, actor), actor.user);
    case DoCancel(actor) => OverKeepsAttendance(w, CanceledBy(w.session, actor), actor.user);
    case DoCancelFromGroup(who) => OverKeepsAttendance(w, CanceledFromGroup(w.session, NOBODY), who);
    case DoExpire(now) => OverKeepsAttendance(w, ExpiredAt(w.session, now), NOBODY);
  }

  lemma SessionCommandKeepsAttendance(w: World, cmd: Command)
    requires Shaped(w) && Legal(w, cmd)
    requires cmd.DoUpdateSession? || cmd.DoSetVisibility? || cmd.DoStart? || cmd.DoComplete? || cmd.DoCancel?
          || cmd.DoCancelFromGroup? || cmd.DoExpire? || cmd.DoCreateTeams?
    ensures SameAttendance(w.rows, Apply(w, cmd).rows)
    ensures SameRules(w.session, Apply(w, cmd).session)
    ensures !cmd.DoUpdateSession? ==> AttendanceKept(w, Apply(w, cmd))
  {
    if cmd.DoCreateTeams? {
      hide Shaped, Legal, CreateTeams;
      var config := NewTeamConfig(cmd.teamCount, cmd.minPlayers);
      if config.Ok? {
        CreateTeamsKeepsAttendance(w, cmd.actor, config.value);
      }
    } else if cmd.DoUpdateSession? || cmd.DoSetVisibility? || cmd.DoStart? {
      hide Shaped, Legal, Apply;
      DetailCommandKeepsAttendance(w, cmd);
    } else {
      hide Shaped, Legal, Apply;
      EndCommandKeepsAttendance(w, cmd);
    }
  }

  lemma OtherCommandsKeepAttendance(w: World, cmd: Command)
    requires Shaped(w) && Legal(w, cmd) && !ChangesAttendance(cmd)
    ensures SameAttendance(w.rows, Apply(w, cmd).rows)
    ensures SameRules(w.session, Apply(w, cmd).session)
    ensures !cmd.DoUpdateSession? ==> Apply(w, cmd).session.capacity == w.session.capacity
  {
    hide Apply, Shaped, Legal, SameAttendance;
    if cmd.DoStartDraft? {
      StartDraftKeepsAttendance(w, cmd.actor, cmd.captainA, cmd.captainB, cmd.order, cmd.minPlayers);
      OutcomeKeepsAttendance(w, cmd, StartDraft(w, cmd.actor, cmd.captainA, cmd.captainB, cmd.order, cmd.minPlayers));
    } else if cmd.DoPick? || cmd.DoReplaceCaptain? || cmd.DoCancelDraft? {
      DraftCommandKeepsAttendance(w, cmd);
    } else if cmd.DoAssignTeam? || cmd.DoUnassignTeam? {
      RowCommandKeepsAttendance(w, cmd);
    } else if cmd.DoPropose? || cmd.DoVote? || cmd.DoRetractVote? || cmd.DoWithdraw? {
      VotingKeepsAttendance(w, cmd);
    } else if cmd.DoClose? {
      CloseKeepsAttendance(w, cmd.actor, cmd.winner);
      OutcomeKeepsAttendance(w, cmd, CloseVoting(w, cmd.actor, cmd.winner));
    } else if cmd.DoResetTeams? {
      ResetKeepsAttendance(w, cmd.actor.user, ByOrganizer);
      OutcomeKeepsAttendance(w, cmd, ResetTeams(w, cmd.actor));
    } else {
      SessionCommandKeepsAttendance(w, cmd);
    }
  }

  lemma OutcomeKeepsAttendance(w: World, cmd: Command, r: Result<World, Error>)
    requires Shaped(w) && Legal(w, cmd) && Outcome(w, cmd) == r && (r.Ok? ==> AttendanceKept(w, r.value))
    ensures AttendanceKept(w, Apply(w, cmd))
  {
    hide Outcome, Shaped, Legal;
  }

  lemma DraftStepKeepsAttendance(w: World, i: nat, c: Result<D.DraftChange, Error>)
    requires i < |w.drafts| && (c.Ok? ==> c.value.draft.config.teamCount == 2)
    ensures DraftStep(w, i, c).Ok? ==> AttendanceKept(w, DraftStep(w, i, c).value)
  {
    hide Finish;
    if c.Ok? {
      FinishKeepsAttendance(w.(drafts := w.drafts[i := c.value.draft]), c.value);
    }
  }

  lemma CloseKeepsAttendance(w: World, actor: Actor, winner: Option<Choice>)
    requires Shaped(w)
    ensures CloseVoting(w, actor, winner).Ok? ==> AttendanceKept(w, CloseVoting(w, actor, winner).value)
  {
    hide ReplaceTeams, V.ClosingChoice, LastWhere, V.Options;
    if OpenRound(w.rounds).Some? {
      var i := OpenRound(w.rounds).value;
      var r := V.ClosedBy(w.rounds[i], w.session, actor, winner);
      if r.Ok? && r.value.winning.Some? {
        var w1 := w.(rounds := w.rounds[i := r.value.round]);
        var p := r.value.winning.value;
        ReplaceKeepsAttendance(w1, FormedTeams(p.teams, seq(|p.teams|, _ => actor.user), actor.user),
          r.value.round.Config(), ByVote, actor.user, r.value.events);
      }
    }
  }

  // ---- Commands that change it ----

  lemma WaitersAfter(rows: seq<Row>, i: nat, row: Row)
    requires i < |rows|
    ensures SomeoneWaits(rows[i := row]) ==> SomeoneWaits(rows) || Waits(row)
  {
    if SomeoneWaits(rows[i := row]) {
      var k :| 0 <= k < |rows| && Waits(rows[i := row][k]);
      assert k != i ==> Waits(rows[k]);
    }
  }

  lemma WaitersAppended(rows: seq<Row>, row: Row)
    ensures SomeoneWaits(rows + [row]) ==> SomeoneWaits(rows) || Waits(row)
  {
    if SomeoneWaits(rows + [row]) {
      var k :| 0 <= k < |rows + [row]| && Waits((rows + [row])[k]);
      assert k < |rows| ==> Waits(rows[k]);
    }
  }

  /** The bound and the justification, kept by everything that only adds one person. */
  lemma ArrivalKeepsBoth(w: World, cmd: Command)
    requires Shaped(w) && Legal(w, cmd)
    requires cmd.DoCreateRsvp? || cmd.DoAcceptInvite? || cmd.DoApprove? || cmd.DoReject?
    ensures var w' := Apply(w, cmd);
      && w'.session == w.session
      && (w.session.capacity.Some? ==> Confirmed(w'.rows) <= Max(Confirmed(w.rows), w.session.capacity.value))
      && (WaitlistJustified(w) ==> WaitlistJustified(w'))
  {
    hide GoingIds, LastWhere, SomeoneWaits, Shaped;
    LiveRowIs(w.rows, cmd.user);
    if cmd.DoCreateRsvp? || cmd.DoAcceptInvite? {
      var c := if cmd.DoAcceptInvite? then NewInvited(w.session, cmd.user, Confirmed(w.rows), cmd.now)
               else if cmd.status == Going && w.session.requiresApproval then NewRequested(cmd.user, cmd.now)
               else NewRsvp(w.session, cmd.user, cmd.status, Confirmed(w.rows), cmd.now);
      GoingAppend(w.rows, c.row);
      WaitersAppended(w.rows, c.row);
    } else if LiveRow(w.rows, cmd.user).Some? {
      var i := LiveRow(w.rows, cmd.user).value;
      var row := w.rows[i].(status := if cmd.DoApprove? then Going else NotGoing);
      ConfirmedAfter(w.rows, i, row);
      WaitersAfter(w.rows, i, row);
    }
  }

  /** What the leaver's own write does to the counts. */
  lemma DepartureCounts(w: World, cmd: Command)
    requires MayLeave(cmd) && Legal(w, cmd) && Leaving(w, cmd).Ok?
    ensures var d := Leaving(w, cmd).value;
      && d.world.session == w.session
      && (d.freed ==> Confirmed(d.world.rows) == Confirmed(w.rows) - 1)
      && (!d.freed ==>
            || Confirmed(d.world.rows) == Confirmed(w.rows)
            || (Confirmed(d.world.rows) == Confirmed(w.rows) + 1 && w.session.HasCapacity(Confirmed(w.rows))))
      && (!d.freed && WaitlistJustified(w) ==> WaitlistJustified(d.world))
  {
    hide GoingIds, LastWhere, SomeoneWaits;
    LiveRowIs(w.rows, cmd.user);
    var i := LiveRow(w.rows, cmd.user).value;
    var left := if cmd.DoUpdateRsvp? then UpdatedRsvp(w.rows[i], cmd.status, w.session, Confirmed(w.rows)).value.row
                else w.rows[i].(deleted := true, team := None);
    assert Leaving(w, cmd).value.world.rows == w.rows[i := left];
    ConfirmedAfter(w.rows, i, left);
    WaitersAfter(w.rows, i, left);
    if !Leaving(w, cmd).value.freed && Waits(left) && !Waits(w.rows[i]) {
      assert cmd.DoUpdateRsvp? && cmd.status == Going && !w.session.HasCapacity(Confirmed(w.rows));
    }
  }

  lemma PromotionCounts(w: World, next: Option<nat>)
    requires IsNextInLine(w.rows, next)
    ensures var w' := PromoteNextPending(w, next);
      && w'.session == w.session
      && Confirmed(w'.rows) == Confirmed(w.rows) + (if SomeoneWaits(w.rows) then 1 else 0)
      && (SomeoneWaits(w'.rows) ==> SomeoneWaits(w.rows))
  {
    hide GoingIds;
    if next.Some? {
      assert Waits(w.rows[next.value]);
      var row := PromotedRow(w.rows[next.value]).value.row;
      ConfirmedAfter(w.rows, next.value, row);
      WaitersAfter(w.rows, next.value, row);
    }
  }

  /** A freed spot goes to whoever waits, if anybody does, and then the number of people going is
      what it was; this covers a promoted attendee who asks to go on a full session and is put
      back in line. */
  lemma FreedSpotIsHandedOn(w: World, cmd: Command)
    requires Shaped(w) && MayLeave(cmd) && Legal(w, cmd) && Leaving(w, cmd).Ok? && Leaving(w, cmd).value.freed
    ensures var d, w' := Leaving(w, cmd).value, Apply(w, cmd);
      && Confirmed(w'.rows) == Confirmed(w.rows) - (if SomeoneWaits(d.world.rows) then 0 else 1)
      && (cmd.next.Some? <==> SomeoneWaits(d.world.rows))
      && w'.session.capacity == w.session.capacity
      && (WaitlistJustified(w) ==> WaitlistJustified(w'))
  {
    var d := Leaving(w, cmd).value;
    DepartureCounts(w, cmd);
    assert Apply(w, cmd) == AfterDeparture(d, cmd.user, cmd.next);
    assert IsNextInLine(d.world.rows, cmd.next);
    WaitersBefore(w, cmd);
    hide GoingIds, PromoteNextPending, ResetTeamFormation, Leaving, Legal, Shaped;
    PromotionCounts(d.world, cmd.next);
    var p := PromoteNextPending(d.world, cmd.next);
    ResetKeepsAttendance(p, cmd.user, RosterChanged);
    SameAttendanceCounts(p.rows, ResetTeamFormation(p, cmd.user, RosterChanged).rows);
  }

  /** Someone new in line after a departure means the session was full. */
  lemma WaitersBefore(w: World, cmd: Command)
    requires MayLeave(cmd) && Legal(w, cmd) && Leaving(w, cmd).Ok? && Leaving(w, cmd).value.freed
    ensures SomeoneWaits(Leaving(w, cmd).value.world.rows) ==>
      SomeoneWaits(w.rows) || !w.session.HasCapacity(Confirmed(w.rows))
  {
    hide GoingIds, LastWhere, SomeoneWaits;
    LiveRowIs(w.rows, cmd.user);
    var i := LiveRow(w.rows, cmd.user).value;
    var left := if cmd.DoUpdateRsvp? then UpdatedRsvp(w.rows[i], cmd.status, w.session, Confirmed(w.rows)).value.row
                else w.rows[i].(deleted := true, team := None);
    WaitersAfter(w.rows, i, left);
  }

  lemma UnfreedDepartureKeepsBoth(w: World, cmd: Command)
    requires Shaped(w) && MayLeave(cmd) && Legal(w, cmd)
    requires Leaving(w, cmd).Ok? ==> !Leaving(w, cmd).value.freed
    ensures var w' := Apply(w, cmd);
      && w'.session == w.session
      && (w.session.capacity.Some? ==> Confirmed(w'.rows) <= Max(Confirmed(w.rows), w.session.capacity.value))
      && (WaitlistJustified(w) ==> WaitlistJustified(w'))
  {
    hide GoingIds, LastWhere, SomeoneWaits, Shaped;
    if Leaving(w, cmd).Ok? {
      DepartureCounts(w, cmd);
      UnfreedIsItself(Leaving(w, cmd).value, cmd.user, cmd.next);
      assert Apply(w, cmd) == Leaving(w, cmd).value.world;
    } else {
      assert Apply(w, cmd) == w;
    }
  }

  // ---- Main results ----

  /** No command takes the session past its capacity: the number going never exceeds what it was
      or the capacity, whichever is larger. */
  lemma CapacityIsKept(w: World, cmd: Command)
    requires Shaped(w) && Legal(w, cmd)
    ensures var w' := Apply(w, cmd);
      w'.session.capacity.Some? ==> Confirmed(w'.rows) <= Max(Confirmed(w.rows), w'.session.capacity.value)
  {
    hide Apply, Confirmed, Leaving, Legal, Shaped;
    if !ChangesAttendance(cmd) {
      OtherCommandsKeepAttendance(w, cmd);
      SameAttendanceCounts(w.rows, Apply(w, cmd).rows);
    } else if MayLeave(cmd) {
      if Leaving(w, cmd).Ok? && Leaving(w, cmd).value.freed {
        FreedSpotIsHandedOn(w, cmd);
      } else {
        UnfreedDepartureKeepsBoth(w, cmd);
      }
    } else {
      ArrivalKeepsBoth(w, cmd);
    }
  }

  /** Every command that leaves the capacity alone keeps the waitlist work-conserving. */
  lemma WaitlistStaysJustified(w: World, cmd: Command)
    requires Shaped(w) && Legal(w, cmd) && WaitlistJustified(w)
    requires Apply(w, cmd).session.capacity == w.session.capacity
    ensures WaitlistJustified(Apply(w, cmd))
  {
    hide Apply, Confirmed, Leaving, Legal, Shaped, SomeoneWaits;
    if !ChangesAttendance(cmd) {
      OtherCommandsKeepAttendance(w, cmd);
      SameAttendanceCounts(w.rows, Apply(w, cmd).rows);
    } else if MayLeave(cmd) {
      if Leaving(w, cmd).Ok? && Leaving(w, cmd).value.freed {
        FreedSpotIsHandedOn(w, cmd);
      } else {
        UnfreedDepartureKeepsBoth(w, cmd);
      }
    } else {
      ArrivalKeepsBoth(w, cmd);
    }
  }

  ghost predicate FixedCapacity(w: World, cmds: seq<Command>)
    decreases |cmds|
  {
    cmds == [] || (Shaped(w) && Legal(w, cmds[0]) && Apply(w, cmds[0]).session.capacity == w.session.capacity
                   && FixedCapacity(Apply(w, cmds[0]), cmds[1..]))
  }

  /** On a session whose capacity is never changed, a waiting attendee means the session is exactly
      full, whatever happened before. */
  lemma {:induction false} WaitingMeansExactlyFull(w: World, cmds: seq<Command>, w': World)
    requires RunsTo(w, cmds, w') && FixedCapacity(w, cmds) && WaitlistJustified(w) && WithinCapacity(w)
    ensures WithinCapacity(w') && w'.session.capacity == w.session.capacity
    ensures SomeoneWaits(w'.rows) ==> w'.session.capacity == Some(Confirmed(w'.rows))
    decreases |cmds|
  {
    hide Apply, Confirmed, Legal, Shaped, SomeoneWaits;
    if cmds != [] {
      CapacityIsKept(w, cmds[0]);
      WaitlistStaysJustified(w, cmds[0]);
      WaitingMeansExactlyFull(Apply(w, cmds[0]), cmds[1..], w');
    }
  }

  // ---- Who gets a spot ----

  lemma OwnWriteGivesNoSpot(w: World, cmd: Command, i: nat)
    requires MayLeave(cmd) && Legal(w, cmd) && Leaving(w, cmd).Ok? && i < |w.rows| && w.rows[i].status == Pending
    ensures var d := Leaving(w, cmd).value;
      && |d.world.rows| == |w.rows| && !IsGoing(d.world.rows[i])
      && (d.freed ==> d.world.rows[i] == w.rows[i])
      && (forall k :: 0 <= k < |w.rows| && w.rows[k].user != cmd.user ==> d.world.rows[k] == w.rows[k])
  {
    hide GoingIds, LastWhere, IsNextInLine;
    LiveRowIs(w.rows, cmd.user);
  }

  lemma PromotionGivesOneSpot(d: Departure, user: UserId, next: Option<nat>, i: nat)
    requires d.freed ==> IsNextInLine(d.world.rows, next)
    requires i < |d.world.rows| && !IsGoing(d.world.rows[i])
    ensures var rows := AfterDeparture(d, user, next).rows;
      |rows| == |d.world.rows| && (IsGoing(rows[i]) ==> d.freed && next == Some(i))
  {
    if d.freed {
      ResetKeepsAttendance(PromoteNextPending(d.world, next), user, RosterChanged);
    }
    hide GoingIds, ResetTeamFormation;
  }

  /** Those in line go in order: whoever waits gets a spot only by promotion, after someone else gave
      one up, and only if nobody else who waits has waited longer; and a join request becomes a
      spot only by a manager's approval. When others pass the line is PassesTheLineIff. */
  lemma SpotsGoInOrder(w: World, cmd: Command, i: nat)
    requires Shaped(w) && Legal(w, cmd) && i < |w.rows| && !w.rows[i].deleted && w.rows[i].status == Pending
    requires i < |Apply(w, cmd).rows| && IsGoing(Apply(w, cmd).rows[i])
    ensures AwaitsApproval(w.rows[i]) ==> cmd.DoApprove? && cmd.user == w.rows[i].user && w.session.ManagedBy(cmd.actor)
    ensures Waits(w.rows[i]) ==>
      && MayLeave(cmd) && cmd.next == Some(i)
      && forall k :: 0 <= k < |w.rows| && Waits(w.rows[k]) && w.rows[k].user != cmd.user ==>
        w.rows[i].createdAt <= w.rows[k].createdAt
  {
    if !ChangesAttendance(cmd) {
      OtherCommandsKeepAttendance(w, cmd);
    } else if MayLeave(cmd) {
      if Leaving(w, cmd).Ok? {
        OwnWriteGivesNoSpot(w, cmd, i);
        PromotionGivesOneSpot(Leaving(w, cmd).value, cmd.user, cmd.next, i);
      }
      hide GoingIds, LastWhere, AfterDeparture, RemoveAttendee, UpdateRsvp, CancelRsvp;
    } else {
      hide GoingIds, LastWhere, Shaped;
      LiveRowIs(w.rows, cmd.user);
    }
  }

  // ---- Who passes the line ----

  /** The row is going now, and neither was before nor waited. */
  predicate NewlyGoing(w: World, w': World, k: nat) {
    k < |w'.rows| && IsGoing(w'.rows[k]) && !(k < |w.rows| && (IsGoing(w.rows[k]) || Waits(w.rows[k])))
  }

  predicate StillWaits(w: World, w': World, i: nat) {
    i < |w.rows| && i < |w'.rows| && Waits(w.rows[i]) && Waits(w'.rows[i])
  }

  /** Someone not in line gets a spot while someone in line goes on waiting. */
  ghost predicate PassesTheLine(w: World, w': World) {
    (exists k: nat :: NewlyGoing(w, w', k)) && exists i: nat :: StillWaits(w, w', i)
  }

  /** Asks for a spot for someone who is not in line. */
  predicate AsksForSpot(w: World, cmd: Command) {
    match cmd
    case DoCreateRsvp(_, status, _, _, _) => status == Going && !w.session.requiresApproval
    case DoAcceptInvite(_, _) => true
    case DoApprove(_, _) => true
    case DoUpdateRsvp(user, to, _) =>
      to == Going && LiveRow(w.rows, user).Some? && LiveRow(w.rows, user).value < |w.rows|
      && w.rows[LiveRow(w.rows, user).value].status == Maybe
    case _ => false
  }

  lemma AskingPasses(w: World, cmd: Command)
    requires Shaped(w) && Legal(w, cmd) && AsksForSpot(w, cmd) && Outcome(w, cmd).Ok?
    ensures var w' := Apply(w, cmd);
      && ((exists k: nat :: NewlyGoing(w, w', k)) <==> w.session.HasCapacity(Confirmed(w.rows)))
      && (forall i: nat :: i < |w.rows| && Waits(w.rows[i]) ==> StillWaits(w, w', i))
  {
    LiveRowIs(w.rows, cmd.user);
    hide GoingIds, LastWhere, Shaped, IsNextInLine;
    var w' := Apply(w, cmd);
    var k := if cmd.DoCreateRsvp? || cmd.DoAcceptInvite? then |w.rows| else LiveRow(w.rows, cmd.user).value;
    assert forall i: nat :: i < |w.rows| && i != k ==> w'.rows[i] == w.rows[i];
    assert forall j: nat :: NewlyGoing(w, w', j) ==> j == k;
    assert NewlyGoing(w, w', k) <==> w.session.HasCapacity(Confirmed(w.rows));
  }

  lemma NotAskingPassesNobody(w: World, cmd: Command, k: nat)
    requires Shaped(w) && Legal(w, cmd) && !AsksForSpot(w, cmd)
    ensures !NewlyGoing(w, Apply(w, cmd), k)
  {
    if !ChangesAttendance(cmd) {
      OtherCommandsKeepAttendance(w, cmd);
      hide Apply, Legal, Shaped;
    } else if MayLeave(cmd) {
      if Leaving(w, cmd).Ok? {
        LeavingPassesNobody(w, cmd, k);
      }
    } else {
      hide GoingIds, LastWhere, Shaped;
      LiveRowIs(w.rows, cmd.user);
    }
  }

  lemma OwnWritePassesNobody(w: World, cmd: Command, k: nat)
    requires MayLeave(cmd) && Legal(w, cmd) && Leaving(w, cmd).Ok? && !AsksForSpot(w, cmd)
    ensures var d := Leaving(w, cmd).value;
      && |d.world.rows| == |w.rows|
      && (k < |w.rows| && IsGoing(d.world.rows[k]) ==> IsGoing(w.rows[k]))
      && (k < |w.rows| && Waits(d.world.rows[k]) ==> Waits(w.rows[k]) || IsGoing(w.rows[k]))
  {
    hide GoingIds, LastWhere, IsNextInLine;
    LiveRowIs(w.rows, cmd.user);
  }

  lemma DeparturePassesNobody(w: World, d: Departure, user: UserId, next: Option<nat>, k: nat)
    requires (d.freed ==> IsNextInLine(d.world.rows, next)) && |d.world.rows| == |w.rows|
    requires k < |w.rows| && IsGoing(d.world.rows[k]) ==> IsGoing(w.rows[k])
    requires k < |w.rows| && Waits(d.world.rows[k]) ==> Waits(w.rows[k]) || IsGoing(w.rows[k])
    ensures !NewlyGoing(w, AfterDeparture(d, user, next), k)
  {
    if d.freed {
      ResetKeepsAttendance(PromoteNextPending(d.world, next), user, RosterChanged);
    }
    hide GoingIds, ResetTeamFormation;
  }

  lemma LeavingPassesNobody(w: World, cmd: Command, k: nat)
    requires Shaped(w) && MayLeave(cmd) && Legal(w, cmd) && Leaving(w, cmd).Ok? && !AsksForSpot(w, cmd)
    ensures !NewlyGoing(w, Apply(w, cmd), k)
  {
    var d := Leaving(w, cmd).value;
    OwnWritePassesNobody(w, cmd, k);
    assert Apply(w, cmd) == AfterDeparture(d, cmd.user, cmd.next);
    hide *;
    DeparturePassesNobody(w, d, cmd.user, cmd.next, k);
  }

  /** Someone passes those in line exactly when they ask for a spot from outside the line, are let
      in, and there is a spot although people wait. */
  lemma PassesTheLineIff(w: World, cmd: Command)
    requires Shaped(w) && Legal(w, cmd)
    ensures PassesTheLine(w, Apply(w, cmd)) <==>
      && AsksForSpot(w, cmd) && Outcome(w, cmd).Ok?
      && SomeoneWaits(w.rows) && w.session.HasCapacity(Confirmed(w.rows))
  {
    hide Outcome, Confirmed, Legal, Shaped, AsksForSpot;
    var w' := Apply(w, cmd);
    if AsksForSpot(w, cmd) && Outcome(w, cmd).Ok? {
      AskingPasses(w, cmd);
    } else if Outcome(w, cmd).Ok? {
      forall k: nat ensures !NewlyGoing(w, w', k) {
        NotAskingPassesNobody(w, cmd, k);
      }
    }
    if PassesTheLine(w, w') {
      var i: nat :| StillWaits(w, w', i);
    }
    if SomeoneWaits(w.rows) {
      var i: nat :| i < |w.rows| && Waits(w.rows[i]);
      assert AsksForSpot(w, cmd) && Outcome(w, cmd).Ok? ==> StillWaits(w, w', i);
    }
  }

  /** A raised capacity promotes nobody, so it can leave people waiting beside free spots; and it
      does exactly when the next invited user would go straight past them. */
  lemma RaiseLetsNewcomersPassIff(w: World, actor: Actor, capacity: Option<int>, endsAt: int, isPublic: bool,
                                  newcomer: UserId, now: int)
    requires Shaped(w) && UpdateSession(w, actor, capacity, endsAt, isPublic).Ok? && LiveRow(w.rows, newcomer).None?
    ensures var raised := UpdateSession(w, actor, capacity, endsAt, isPublic).value;
      && Shaped(raised)
      && (PassesTheLine(raised, Apply(raised, DoAcceptInvite(newcomer, now))) <==> !WaitlistJustified(raised))
      && (WaitlistJustified(raised) <==>
        !SomeoneWaits(w.rows) || (capacity.Some? && Confirmed(w.rows) >= capacity.value))
  {
    var raised := UpdateSession(w, actor, capacity, endsAt, isPublic).value;
    assert Shaped(raised);
    hide GoingIds, LastWhere, SomeoneWaits, PassesTheLine, Apply, Shaped;
    PassesTheLineIff(raised, DoAcceptInvite(newcomer, now));
  }

  ghost predicate LineKept(w: World, cmds: seq<Command>)
    decreases |cmds|
  {
    cmds == [] || (Shaped(w) && Legal(w, cmds[0]) && !PassesTheLine(w, Apply(w, cmds[0]))
      && LineKept(Apply(w, cmds[0]), cmds[1..]))
  }

  /** While the capacity stays as it is nobody ever passes the line. */
  lemma {:induction false} NobodyPassesTheLine(w: World, cmds: seq<Command>, w': World)
    requires RunsTo(w, cmds, w') && FixedCapacity(w, cmds) && WaitlistJustified(w)
    ensures LineKept(w, cmds)
    decreases |cmds|
  {
    hide Apply, Confirmed, Legal, Shaped, SomeoneWaits, PassesTheLine, Outcome, AsksForSpot;
    if cmds != [] {
      PassesTheLineIff(w, cmds[0]);
      WaitlistStaysJustified(w, cmds[0]);
      NobodyPassesTheLine(Apply(w, cmds[0]), cmds[1..], w');
    }
  }

  // ---- How the line moves ----

  /** The rows of those in line who are going afterwards. */
  ghost function Served(w: World, w': World): set<nat> {
    set i: nat | i < |w.rows| && i < |w'.rows| && Waits(w.rows[i]) && IsGoing(w'.rows[i])
  }

  predicate FreesSpot(w: World, cmd: Command) {
    MayLeave(cmd) && Leaving(w, cmd).Ok? && Leaving(w, cmd).value.freed
  }

  /** A command serves at most one of those in line, and only one that frees a spot serves any. */
  lemma ServesOne(w: World, cmd: Command)
    requires Shaped(w) && Legal(w, cmd)
    ensures |Served(w, Apply(w, cmd))| <= (if FreesSpot(w, cmd) then 1 else 0)
  {
    hide Apply, Legal, Shaped, Leaving;
    var served := Served(w, Apply(w, cmd));
    forall i | i in served ensures FreesSpot(w, cmd) && cmd.next == Some(i) {
      SpotsGoInOrder(w, cmd, i);
      OnlyFreedSpotsServe(w, cmd, i);
    }
    if served != {} {
      var i :| i in served;
      assert served == {i};
    }
  }

  lemma OnlyFreedSpotsServe(w: World, cmd: Command, i: nat)
    requires Shaped(w) && Legal(w, cmd) && MayLeave(cmd) && i < |w.rows| && Waits(w.rows[i])
    requires i < |Apply(w, cmd).rows| && IsGoing(Apply(w, cmd).rows[i])
    ensures FreesSpot(w, cmd)
  {
    if Leaving(w, cmd).Ok? {
      OwnWriteGivesNoSpot(w, cmd, i);
    }
    hide GoingIds, LastWhere, RemoveAttendee, UpdateRsvp, CancelRsvp;
  }

  ghost function ServedOver(w: World, cmds: seq<Command>, w': World): nat
    requires RunsTo(w, cmds, w')
    decreases |cmds|
  {
    if cmds == [] then 0
    else |Served(w, Apply(w, cmds[0]))| + ServedOver(Apply(w, cmds[0]), cmds[1..], w')
  }

  ghost function SpotsFreed(w: World, cmds: seq<Command>, w': World): nat
    requires RunsTo(w, cmds, w')
    decreases |cmds|
  {
    if cmds == [] then 0
    else (if FreesSpot(w, cmds[0]) then 1 else 0) + SpotsFreed(Apply(w, cmds[0]), cmds[1..], w')
  }

  /** Over every run, capacity raises included, the line moves by at most one for each spot freed:
      spots a raise adds are never handed to it. */
  lemma {:induction false} LineMovesByDepartures(w: World, cmds: seq<Command>, w': World)
    requires RunsTo(w, cmds, w')
    ensures ServedOver(w, cmds, w') <= SpotsFreed(w, cmds, w')
    decreases |cmds|
  {
    hide Apply, Legal, Shaped, Served, FreesSpot;
    if cmds != [] {
      ServesOne(w, cmds[0]);
      LineMovesByDepartures(Apply(w, cmds[0]), cmds[1..], w');
    }
  }

  // ---- A new session ----

  predicate FilledAt(s: Session, user: UserId, i: nat, row: Row) {
    && row.user == user && !row.deleted && row.team.None?
    && row.status == (if s.HasCapacity(i) then Going else Pending)
  }

  /** The rows seat the users in order: a spot each while there is capacity, then the waitlist. */
  predicate Filled(s: Session, users: seq<UserId>, rows: seq<Row>) {
    && |rows| == |users|
    && (forall i :: 0 <= i < |users| ==> FilledAt(s, users[i], i, rows[i]))
    && Confirmed(rows) == (if s.HasCapacity(|users|) then |users| else s.capacity.value)
  }

  lemma OneMoreFills(s: Session, users: seq<UserId>, rows: seq<Row>, user: UserId, now: int)
    requires s.capacity.Some? ==> s.capacity.value >= 0
    requires Filled(s, users, rows)
    ensures Filled(s, users + [user], rows + [AutoRow(s, user, Confirmed(rows), now)])
  {
    hide GoingIds;
    var row := AutoRow(s, user, Confirmed(rows), now);
    GoingAppend(rows, row);
    forall i | 0 <= i <= |users| ensures FilledAt(s, (users + [user])[i], i, (rows + [row])[i]) {
      assert i < |users| ==> FilledAt(s, users[i], i, rows[i]);
    }
  }

  lemma {:induction false} AutoRowsFill(s: Session, users: seq<UserId>, now: int)
    requires s.capacity.Some? ==> s.capacity.value >= 0
    ensures Filled(s, users, AutoRows(s, users, now))
  {
    hide Filled, AutoRow, GoingIds;
    if users == [] {
      NobodyFills(s);
    } else {
      var init := users[..|users| - 1];
      AutoRowsFill(s, init, now);
      OneMoreFills(s, init, AutoRows(s, init, now), users[|users| - 1], now);
      assert users == init + [users[|users| - 1]];
    }
  }

  lemma NobodyFills(s: Session)
    requires s.capacity.Some? ==> s.capacity.value >= 0
    ensures Filled(s, [], [])
  {
  }

  lemma NewSessionRows(s: Session, users: seq<UserId>, rows: seq<Row>)
    requires Filled(s, users, rows) && Distinct(users)
    ensures OneRowEach(rows) && forall i :: 0 <= i < |rows| ==> rows[i].team.None?
    ensures SomeoneWaits(rows) ==> !s.HasCapacity(|users|)
  {
    hide GoingIds;
    assert forall i :: 0 <= i < |users| ==> FilledAt(s, users[i], i, rows[i]);
    if SomeoneWaits(rows) {
      var i :| 0 <= i < |rows| && Waits(rows[i]);
      assert FilledAt(s, users[i], i, rows[i]);
    }
  }

  lemma NothingFormedHolds(w: World)
    requires IsNewSession(w.session) && w.drafts == [] && w.rounds == [] && OneRowEach(w.rows)
    requires forall i :: 0 <= i < |w.rows| ==> w.rows[i].team.None?
    ensures Inv(w)
  {
    hide GoingIds, DraftHolds, RoundHolds, OneRowEach;
    assert forall i :: !Runs(w.drafts, i) && !IsOpen(w.rounds, i);
  }

  /** A new session keeps everything above: the first users up to the capacity are going, the
      rest wait. */
  lemma NewSessionIsSound(s: Session, users: seq<UserId>, now: int)
    requires IsNewSession(s) && Distinct(users)
    ensures Inv(NewWorld(s, users, now))
    ensures WithinCapacity(NewWorld(s, users, now)) && WaitlistJustified(NewWorld(s, users, now))
  {
    AutoRowsFill(s, users, now);
    var w := NewWorld(s, users, now);
    assert w.drafts == [] && w.rounds == [] && w.rows == AutoRows(s, users, now);
    hide GoingIds, AutoRows, SomeoneWaits, OneRowEach, Inv;
    NewSessionRows(s, users, w.rows);
    NothingFormedHolds(w);
  }
}
