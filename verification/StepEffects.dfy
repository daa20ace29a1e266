/** What each command leaves alone: a session's settings, the vote that is open and the draft that
    runs are changed only by the commands about them, or ended. */
module StepEffects {
  import opened Wrappers
  import opened Sequences
  import opened ActivityTypes
  import opened Attendees
  import opened SessionWorld
  import opened SessionInvariants
  import opened SessionWaitlist
  import D = Drafts
  import V = Voting

  predicate SetsDetails(cmd: Command) {
    cmd.DoUpdateSession? || cmd.DoSetVisibility?
  }

  predicate IsVoting(cmd: Command) {
    cmd.DoPropose? || cmd.DoVote? || cmd.DoRetractVote? || cmd.DoWithdraw?
  }

  predicate IsDrafting(cmd: Command) {
    cmd.DoStartDraft? || cmd.DoPick? || cmd.DoReplaceCaptain? || cmd.DoCancelDraft?
  }

  /** What no command changes. */
  predicate SameNature(s: Session, s': Session) {
    s'.creator == s.creator && s'.requiresApproval == s.requiresApproval && s'.isTeamSport == s.isTeamSport
  }

  predicate SettingsKept(s: Session, s': Session) {
    SameNature(s, s') && s'.capacity == s.capacity && s'.endsAt == s.endsAt && s'.isPublic == s.isPublic
  }

  /** An open round is left as it is or ended. */
  ghost predicate NoVoteTouched(w: World, w': World) {
    && w'.nextId >= w.nextId
    && forall i :: IsOpen(w'.rounds, i) ==> IsOpen(w.rounds, i) && w'.rounds[i] == w.rounds[i]
  }

  /** A running draft is left as it is or ended. */
  ghost predicate NoDraftTouched(w: World, w': World) {
    forall i :: Runs(w'.drafts, i) ==> Runs(w.drafts, i) && w'.drafts[i] == w.drafts[i]
  }

  ghost predicate LeavesAlone(w: World, w': World) {
    SettingsKept(w.session, w'.session) && NoVoteTouched(w, w') && NoDraftTouched(w, w')
  }

  lemma RowWriteLeavesAlone(w: World, cmd: Command)
    requires Shaped(w) && Legal(w, cmd) && !MayLeave(cmd)
    requires ChangesAttendance(cmd) || cmd.DoAssignTeam? || cmd.DoUnassignTeam?
    ensures LeavesAlone(w, Apply(w, cmd))
  {
    hide LastWhere, GoingIds, Shaped, NewRsvp, NewInvited, Approved, Rejected, OnTeam, OffTeam;
  }

  lemma OwnWriteLeavesAlone(w: World, cmd: Command)
    requires MayLeave(cmd) && Legal(w, cmd) && Leaving(w, cmd).Ok?
    ensures var w' := Leaving(w, cmd).value.world;
      w'.session == w.session && w'.drafts == w.drafts && w'.rounds == w.rounds && w'.nextId == w.nextId
  {
    hide LastWhere, GoingIds, IsNextInLine, UpdatedRsvp, Removed;
  }

  lemma HandingOnLeavesAlone(w: World, d: Departure, user: UserId, next: Option<nat>)
    requires d.freed ==> IsNextInLine(d.world.rows, next)
    requires d.world.session == w.session && d.world.drafts == w.drafts && d.world.rounds == w.rounds
    requires d.world.nextId == w.nextId
    ensures LeavesAlone(w, AfterDeparture(d, user, next))
  {
    hide LastWhere, GoingIds, IsNextInLine, PromotedRow;
  }

  lemma DepartureLeavesAlone(w: World, cmd: Command)
    requires Shaped(w) && Legal(w, cmd) && MayLeave(cmd)
    ensures LeavesAlone(w, Apply(w, cmd))
  {
    if Leaving(w, cmd).Ok? {
      var d := Leaving(w, cmd).value;
      assert Apply(w, cmd) == AfterDeparture(d, cmd.user, cmd.next);
      OwnWriteLeavesAlone(w, cmd);
      hide *;
      HandingOnLeavesAlone(w, d, cmd.user, cmd.next);
    } else {
      assert Apply(w, cmd) == w;
    }
  }

  lemma FinishLeavesAlone(w: World, c: D.DraftChange)
    requires c.draft.config.teamCount == 2
    ensures SettingsKept(w.session, Finish(w, c).session) && NoVoteTouched(w, Finish(w, c))
    ensures Finish(w, c).drafts == w.drafts
  {
    hide GoingIds, Placements, AllMoves, D.Roster;
  }

  lemma DraftingLeavesAlone(w: World, cmd: Command)
    requires Shaped(w) && Legal(w, cmd) && IsDrafting(cmd)
    ensures SettingsKept(w.session, Apply(w, cmd).session) && NoVoteTouched(w, Apply(w, cmd))
  {
    hide GoingIds, LastWhere, D.Available, Finish;
    if cmd.DoStartDraft? {
      var r := D.NewDraft(w.session, cmd.actor, cmd.captainA, cmd.captainB, cmd.order, cmd.minPlayers,
        GoingIds(w.rows));
      if r.Ok? { FinishLeavesAlone(w.(drafts := w.drafts + [r.value.draft]), r.value); }
    } else if ActiveDraft(w.drafts).Some? {
      var i := ActiveDraft(w.drafts).value;
      var d := w.drafts[i];
      if cmd.DoPick? {
        var c := D.Picked(d, w.session, cmd.captain, cmd.user, GoingIds(w.rows));
        if c.Ok? { FinishLeavesAlone(w.(drafts := w.drafts[i := c.value.draft]), c.value); }
      } else if cmd.DoReplaceCaptain? {
        var c := D.CaptainNamed(d, w.session, cmd.actor, cmd.side, cmd.user, GoingIds(w.rows));
        if c.Ok? { FinishLeavesAlone(w.(drafts := w.drafts[i := c.value.draft]), c.value); }
      }
    }
  }

  lemma VotingLeavesAlone(w: World, cmd: Command)
    requires Shaped(w) && Legal(w, cmd) && IsVoting(cmd)
    ensures SettingsKept(w.session, Apply(w, cmd).session) && NoDraftTouched(w, Apply(w, cmd))
  {
    hide GoingIds, LastWhere, Shaped, V.OpenRound, V.Proposed, V.Voted, V.VoteTakenBack, V.Withdrawn;
  }

  lemma CloseLeavesAlone(w: World, actor: Actor, winner: Option<Choice>)
    requires Shaped(w) && Legal(w, DoClose(actor, winner))
    ensures var w' := Apply(w, DoClose(actor, winner));
      && SettingsKept(w.session, w'.session) && NoDraftTouched(w, w')
      && (OneFormation(w) ==> NoVoteTouched(w, w'))
  {
    OpenRoundIs(w.rounds);
    hide GoingIds, LastWhere, Placements, AllMoves, V.ClosingChoice, V.Options;
  }

  lemma TeamsLeaveAlone(w: World, cmd: Command)
    requires Shaped(w) && Legal(w, cmd) && (cmd.DoCreateTeams? || cmd.DoResetTeams?)
    ensures var w' := Apply(w, cmd);
      && SettingsKept(w.session, w'.session) && NoDraftTouched(w, w')
      && (OneFormation(w) ==> NoVoteTouched(w, w'))
  {
    hide GoingIds, LastWhere, UnassignedEvents, Shaped;
  }

  lemma EndLeavesAlone(w: World, c: Result<SessionChange, Error>, who: UserId)
    requires c.Ok? ==> c.value.session == w.session.(status := c.value.session.status)
    ensures EndSession(w, c, who).Ok? ==>
      var w' := EndSession(w, c, who).value;
      && SettingsKept(w.session, w'.session)
      && (OneFormation(w) ==> NoVoteTouched(w, w') && NoDraftTouched(w, w'))
  {
    hide LastWhere;
  }

  lemma EndingLeavesAlone(w: World, cmd: Command)
    requires Shaped(w) && Legal(w, cmd)
    requires cmd.DoComplete? || cmd.DoCancel? || cmd.DoCancelFromGroup? || cmd.DoExpire?
    ensures SettingsKept(w.session, Apply(w, cmd).session)
    ensures OneFormation(w) ==> LeavesAlone(w, Apply(w, cmd))
  {
    hide Shaped, Legal, EndSession;
    match cmd
    case DoComplete(actor) => EndLeavesAlone(w, CompletedBy(w.session, actor), actor.user);
    case DoCancel(actor) => EndLeavesAlone(w, CanceledBy(w.session, actor), actor.user);
    case DoCancelFromGroup(who) => EndLeavesAlone(w, CanceledFromGroup(w.session, NOBODY), who);
    case DoExpire(now) => EndLeavesAlone(w, ExpiredAt(w.session, now), NOBODY);
  }

  lemma DetailsLeaveAlone(w: World, cmd: Command)
    requires Shaped(w) && Legal(w, cmd) && (SetsDetails(cmd) || cmd.DoStart?)
    ensures SameNature(w.session, Apply(w, cmd).session)
    ensures cmd.DoStart? ==> SettingsKept(w.session, Apply(w, cmd).session)
    ensures NoVoteTouched(w, Apply(w, cmd)) && NoDraftTouched(w, Apply(w, cmd))
  {
    hide Shaped, Legal;
  }

  lemma StepLeavesAlone(w: World, cmd: Command)
    requires Shaped(w) && Legal(w, cmd)
    ensures SameNature(w.session, Apply(w, cmd).session)
    ensures !SetsDetails(cmd) ==> SettingsKept(w.session, Apply(w, cmd).session)
    ensures OneFormation(w) && !IsVoting(cmd) ==> NoVoteTouched(w, Apply(w, cmd))
    ensures OneFormation(w) && !IsDrafting(cmd) ==> NoDraftTouched(w, Apply(w, cmd))
  {
    hide Shaped, Legal, Apply, OneFormation, NoVoteTouched, NoDraftTouched;
    if IsDrafting(cmd) {
      DraftingLeavesAlone(w, cmd);
    } else if IsVoting(cmd) {
      VotingLeavesAlone(w, cmd);
    } else if cmd.DoClose? {
      CloseLeavesAlone(w, cmd.actor, cmd.winner);
    } else if cmd.DoCreateTeams? || cmd.DoResetTeams? {
      TeamsLeaveAlone(w, cmd);
    } else if cmd.DoComplete? || cmd.DoCancel? || cmd.DoCancelFromGroup? || cmd.DoExpire? {
      EndingLeavesAlone(w, cmd);
    } else if SetsDetails(cmd) || cmd.DoStart? {
      DetailsLeaveAlone(w, cmd);
    } else if MayLeave(cmd) {
      DepartureLeavesAlone(w, cmd);
    } else {
      RowWriteLeavesAlone(w, cmd);
    }
  }
}
