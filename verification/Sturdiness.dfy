/** The part of the session invariant that does not depend on who is going, and that every command
    keeps by itself (activity/internal/application/team_formation.go). */
module Sturdiness {
  import opened Wrappers
  import opened Sequences
  import opened ActivityTypes
  import opened Attendees
  import opened SessionWorld
  import opened SessionInvariants
  import opened SessionWaitlist
  import D = Drafts
  import V = Voting

  // ---- What survives ----

  predicate DraftFits(d: D.Draft) {
    d.status == D.Active && ValidConfig(d.config)
  }

  ghost predicate FormationFits(w: World) {
    && (forall i :: Runs(w.drafts, i) ==> DraftFits(w.drafts[i]))
    && (forall i :: IsOpen(w.rounds, i) ==> ValidConfig(w.rounds[i].Config()) && RoundFits(w.rounds[i], w.session))
  }

  ghost predicate RowsOnTeams(s: Session, rows: seq<Row>) {
    forall i :: 0 <= i < |rows| ==> HoldsSpotOnTeam(s, rows[i])
  }

  /** The session invariant without the rosters: one live row per user, teams only of people with
      a spot, at most one draft or round and never both, each fitting the session. */
  ghost predicate Sturdy(w: World) {
    && Tables(w)
    && RowsOnTeams(w.session, w.rows)
    && FormationFits(w)
  }

  /** The session invariant is just that and the rosters. */
  lemma InvIsSturdy(w: World)
    ensures Inv(w) <==> Sturdy(w) && RostersGoing(w)
  {
    hide GoingIds, D.Available, OneRowEach, OneFormation, TeamsFit, TwoTeamDrafts;
    if Inv(w) {
      forall i | Runs(w.drafts, i) ensures DraftFits(w.drafts[i]) {
        assert DraftHolds(w.drafts[i], GoingIds(w.rows));
      }
      forall i | IsOpen(w.rounds, i) ensures ValidConfig(w.rounds[i].Config()) && RoundFits(w.rounds[i], w.session) {
        assert RoundHolds(w.rounds[i], w.session, GoingIds(w.rows));
      }
    }
  }

  lemma SturdyRow(w: World, i: nat, c: Change)
    requires Sturdy(w) && i < |w.rows| && HoldsSpotOnTeam(w.session, c.row)
    requires c.row.user == w.rows[i].user && (w.rows[i].deleted ==> c.row.deleted)
    ensures Sturdy(Wrote(w, i, c))
  {
    RowKeepsTables(w, i, c.row, c.events);
    hide Tables, FormationFits;
    SameFormationFits(w, Wrote(w, i, c));
  }

  lemma SameFormationFits(w: World, w': World)
    requires FormationFits(w) && w'.drafts == w.drafts && w'.rounds == w.rounds
    requires w'.session.teamConfig == w.session.teamConfig && w'.session.teamsSource == w.session.teamsSource
    ensures FormationFits(w')
  {
  }

  lemma SturdyEmits(w: World, n: nat, events: seq<Event>)
    requires Sturdy(w)
    ensures Sturdy(w.(nextId := w.nextId + n).Emit(events))
  {
    var w' := w.(nextId := w.nextId + n).Emit(events);
    SameFormationFits(w, w');
    hide FormationFits, HoldsSpotOnTeam, OneRowEach, TwoTeamDrafts;
  }

  lemma TeamRowKeepsSturdy(w: World, cmd: Command)
    requires Sturdy(w) && Shaped(w) && Legal(w, cmd) && Outcome(w, cmd).Ok?
      && (cmd.DoAssignTeam? || cmd.DoUnassignTeam?)
    ensures Sturdy(Outcome(w, cmd).value)
  {
    hide GoingIds, Sturdy, LastWhere, Wrote, ActiveDraft, Shaped;
    LiveRowIs(w.rows, cmd.user);
    var i := LiveRow(w.rows, cmd.user).value;
    SturdyRowOnTeam(w, i);
    var c := if cmd.DoAssignTeam? then OnTeam(w.rows[i], w.session, cmd.team, cmd.actor)
             else OffTeam(w.rows[i], w.session, cmd.actor);
    SturdyRow(w, i, c.value);
  }

  lemma SturdyRowOnTeam(w: World, i: nat)
    requires Sturdy(w) && i < |w.rows|
    ensures HoldsSpotOnTeam(w.session, w.rows[i])
  {
  }

  lemma ReplaceKeepsSturdy(w: World, formed: FormedTeams, config: TeamConfig, source: TeamsSource, who: UserId,
                           before: seq<Event>)
    requires |formed.rosters| == |formed.assignedBy| == config.teamCount
    requires Sturdy(w) && ValidConfig(config) && forall i :: !IsOpen(w.rounds, i)
    ensures Sturdy(ReplaceTeams(w, formed, config, source, who, before))
  {
    hide Placed, GoingIds, AllMoves;
    var w' := ReplaceTeams(w, formed, config, source, who, before);
    PlacedKeepsGoing(w.rows, formed.rosters, w'.session.teams);
    PlacedLength(w.rows, formed.rosters, w'.session.teams);
    assert w'.drafts == w.drafts && w'.rounds == w.rounds;
    assert w'.rows == Placed(w.rows, formed.rosters, w'.session.teams);
    forall i | 0 <= i < |w'.rows| ensures HoldsSpotOnTeam(w'.session, w'.rows[i]) {
      PlacedOnTeams(w'.session, w.rows, formed.rosters, i);
    }
  }

  // Drafts.

  lemma FinishKeepsSturdy(w: World, c: D.DraftChange)
    requires Sturdy(w) && c.draft.config.teamCount == 2 && ValidConfig(c.draft.config)
    requires c.draft.status == D.Finished ==> forall j :: !IsOpen(w.rounds, j)
    ensures Sturdy(Finish(w, c))
  {
    hide GoingIds, ReplaceTeams, Sturdy;
    if c.draft.status == D.Finished {
      ReplaceKeepsSturdy(w, DraftTeams(c.draft), c.draft.config, ByDraft, c.draft.startedBy, c.events);
    } else {
      SturdyEmits(w, 0, c.events);
    }
  }

  /** A draft written where none else runs. */
  lemma DraftWrittenSturdy(w: World, drafts: seq<D.Draft>, i: nat)
    requires Sturdy(w) && i < |drafts|
    requires forall j :: 0 <= j < |drafts| && j != i ==>
      j < |w.drafts| && drafts[j] == w.drafts[j] && !Runs(w.drafts, j)
    requires drafts[i].config.teamCount == 2 && (drafts[i].Running() ==> DraftFits(drafts[i]) && !w.session.Ended())
    requires forall j :: !IsOpen(w.rounds, j)
    ensures Sturdy(w.(drafts := drafts))
  {
    hide HoldsSpotOnTeam, OneRowEach, TeamsFit, DraftFits, RoundFits;
    assert forall j :: Runs(drafts, j) ==> j == i;
  }

  lemma StartDraftKeepsSturdy(w: World, actor: Actor, captainA: UserId, captainB: UserId, order: D.PickOrder,
                              minPlayers: Option<int>)
    requires Sturdy(w) && StartDraft(w, actor, captainA, captainB, order, minPlayers).Ok?
    ensures Sturdy(StartDraft(w, actor, captainA, captainB, order, minPlayers).value)
  {
    hide GoingIds, Finish, D.Available, LastWhere, Sturdy;
    ActiveDraftIs(w.drafts);
    OpenRoundIs(w.rounds);
    var c := D.NewDraft(w.session, actor, captainA, captainB, order, minPlayers, GoingIds(w.rows)).value;
    DraftWrittenSturdy(w, w.drafts + [c.draft], |w.drafts|);
    FinishKeepsSturdy(w.(drafts := w.drafts + [c.draft]), c);
  }

  lemma RunningDraftFits(w: World, i: nat)
    requires Sturdy(w) && i < |w.drafts| && w.drafts[i].Running()
    ensures DraftFits(w.drafts[i]) && w.drafts[i].config.teamCount == 2 && !w.session.Ended()
    ensures forall j :: !IsOpen(w.rounds, j)
    ensures forall j :: Runs(w.drafts, j) ==> j == i
  {
    assert Runs(w.drafts, i);
  }

  lemma DraftStepKeepsSturdy(w: World, i: nat, c: D.DraftChange)
    requires Sturdy(w) && i < |w.drafts| && w.drafts[i].Running()
    requires c.draft.config == w.drafts[i].config && c.draft.status != D.Paused
    ensures c.draft.config.teamCount == 2
    ensures Sturdy(Finish(w.(drafts := w.drafts[i := c.draft]), c))
  {
    hide GoingIds, Finish, Sturdy;
    RunningDraftFits(w, i);
    DraftWrittenSturdy(w, w.drafts[i := c.draft], i);
    FinishKeepsSturdy(w.(drafts := w.drafts[i := c.draft]), c);
  }

  lemma DraftCommandKeepsSturdy(w: World, cmd: Command)
    requires Sturdy(w) && Shaped(w) && Legal(w, cmd) && Outcome(w, cmd).Ok?
    requires cmd.DoStartDraft? || cmd.DoPick? || cmd.DoReplaceCaptain? || cmd.DoCancelDraft?
    ensures Sturdy(Outcome(w, cmd).value)
  {
    hide Sturdy, GoingIds, Finish, D.Available, LastWhere, V.Options;
    if cmd.DoStartDraft? {
      StartDraftKeepsSturdy(w, cmd.actor, cmd.captainA, cmd.captainB, cmd.order, cmd.minPlayers);
    } else {
      ActiveDraftIs(w.drafts);
      var i := ActiveDraft(w.drafts).value;
      RunningDraftFits(w, i);
      var d, going := w.drafts[i], GoingIds(w.rows);
      if cmd.DoPick? {
        DraftStepKeepsSturdy(w, i, D.Picked(d, w.session, cmd.captain, cmd.user, going).value);
      } else if cmd.DoCancelDraft? {
        var c := D.DraftCancelledBy(d, w.session, cmd.actor).value;
        DraftStepKeepsSturdy(w, i, c);
        UnfinishedOnlyEmits(w.(drafts := w.drafts[i := c.draft]), c);
      }
    }
  }

  // Votes.

  lemma RoundWrittenSturdy(w: World, rounds: seq<V.Round>, i: nat)
    requires Sturdy(w) && i < |rounds|
    requires forall j :: 0 <= j < |rounds| && j != i ==>
      j < |w.rounds| && rounds[j] == w.rounds[j] && !IsOpen(w.rounds, j)
    requires rounds[i].status == V.Open ==>
      ValidConfig(rounds[i].Config()) && RoundFits(rounds[i], w.session) && !w.session.Ended()
        && forall j :: !Runs(w.drafts, j)
    ensures Sturdy(w.(rounds := rounds))
    ensures rounds[i].status != V.Open ==> forall j :: !IsOpen(rounds, j)
  {
    hide HoldsSpotOnTeam, OneRowEach, TeamsFit, TwoTeamDrafts, DraftFits, RoundFits;
    assert forall j :: IsOpen(rounds, j) ==> j == i;
  }

  lemma OpenRoundFits(w: World, i: nat)
    requires Sturdy(w) && i < |w.rounds| && w.rounds[i].status == V.Open
    ensures ValidConfig(w.rounds[i].Config()) && RoundFits(w.rounds[i], w.session) && !w.session.Ended()
    ensures forall j :: !Runs(w.drafts, j)
    ensures forall j :: IsOpen(w.rounds, j) ==> j == i
  {
    assert IsOpen(w.rounds, i);
  }

  lemma FirstProposalKeepsSturdy(w: World, author: UserId, teams: seq<seq<UserId>>)
    requires Sturdy(w) && Propose(w, author, teams).Ok? && OpenRound(w.rounds).None?
    ensures Sturdy(Propose(w, author, teams).value)
  {
    hide GoingIds, LastWhere, V.DivisionFault, Sturdy;
    ActiveDraftIs(w.drafts);
    OpenRoundIs(w.rounds);
    var c := V.OpenRound(w.session, author, teams, GoingIds(w.rows), w.nextId).value;
    SturdyTeamsFit(w);
    RoundWrittenSturdy(w, w.rounds + [c.round], |w.rounds|);
    SturdyEmits(w.(rounds := w.rounds + [c.round]), 1, c.events);
  }

  lemma SturdyTables(w: World)
    requires Sturdy(w)
    ensures Tables(w) && OneFormation(w)
  {
  }

  lemma SturdyRows(w: World)
    requires Sturdy(w)
    ensures RowsOnTeams(w.session, w.rows) && OneRowEach(w.rows)
  {
  }

  lemma SturdyTeamsFit(w: World)
    requires Sturdy(w)
    ensures TeamsFit(w.session, w.nextId)
  {
  }

  lemma VotingKeepsSturdy(w: World, cmd: Command)
    requires Sturdy(w) && Shaped(w) && Legal(w, cmd) && Outcome(w, cmd).Ok?
    requires cmd.DoPropose? || cmd.DoVote? || cmd.DoRetractVote? || cmd.DoWithdraw?
    ensures Sturdy(Outcome(w, cmd).value)
  {
    hide Sturdy, GoingIds, LastWhere, V.DivisionFault, V.FindProposal, V.WithDivision, V.Options;
    OpenRoundIs(w.rounds);
    if OpenRound(w.rounds).None? {
      FirstProposalKeepsSturdy(w, cmd.user, cmd.division);
    } else {
      var i := OpenRound(w.rounds).value;
      var r, going := w.rounds[i], GoingIds(w.rows);
      OpenRoundFits(w, i);
      var c := if cmd.DoPropose? then V.Proposed(r, w.session, cmd.user, cmd.division, going, w.nextId).value
               else if cmd.DoVote? then V.Voted(r, cmd.user, cmd.choice, going).value
               else if cmd.DoRetractVote? then V.VoteTakenBack(r, cmd.user, going).value
               else V.Withdrawn(r, cmd.user, cmd.proposal).value;
      assert c.round.status == V.Open ==>
        c.round.Config() == r.Config() && c.round.keepCurrentAllowed == r.keepCurrentAllowed;
      RoundWrittenSturdy(w, w.rounds[i := c.round], i);
      SturdyEmits(w.(rounds := w.rounds[i := c.round]), if cmd.DoPropose? then 1 else 0, c.events);
    }
  }

  lemma CloseKeepsSturdy(w: World, actor: Actor, winner: Option<Choice>)
    requires Sturdy(w) && Shaped(w) && CloseVoting(w, actor, winner).Ok?
    ensures Sturdy(CloseVoting(w, actor, winner).value)
  {
    hide Sturdy, GoingIds, LastWhere, V.Options, ReplaceTeams, V.ClosingChoice;
    OpenRoundIs(w.rounds);
    var i := OpenRound(w.rounds).value;
    OpenRoundFits(w, i);
    var c := V.ClosedBy(w.rounds[i], w.session, actor, winner).value;
    RoundWrittenSturdy(w, w.rounds[i := c.round], i);
    var w1 := w.(rounds := w.rounds[i := c.round]);
    if c.winning.None? {
      SturdyEmits(w1, 0, c.events);
    } else {
      var p := c.winning.value;
      assert w.rounds[i] in w.rounds && p in w.rounds[i].proposals;
      ReplaceKeepsSturdy(w1, FormedTeams(p.teams, seq(|p.teams|, _ => actor.user), actor.user), c.round.Config(),
        ByVote, actor.user, c.events);
    }
  }

  // Teams by hand, and the session's own life.

  lemma CreateTeamsKeepsSturdy(w: World, actor: Actor, config: TeamConfig)
    requires Sturdy(w) && ValidConfig(config) && CreateTeams(w, actor, config).Ok?
    ensures Sturdy(CreateTeams(w, actor, config).value)
  {
    hide GoingIds, LastWhere, UnassignedEvents, DraftHolds, RoundHolds;
    ActiveDraftIs(w.drafts);
    OpenRoundIs(w.rounds);
    var w' := CreateTeams(w, actor, config).value;
    assert forall i :: 0 <= i < |w.rows| ==> w'.rows[i] == w.rows[i].(team := None);
    if OpenRound(w.rounds).Some? {
      var i := OpenRound(w.rounds).value;
      assert IsOpen(w.rounds, i);
      assert forall j :: IsOpen(w'.rounds, j) ==> IsOpen(w.rounds, j) && j != i;
    }
    assert forall j :: !Runs(w'.drafts, j) && !IsOpen(w'.rounds, j);
  }

  lemma DetailsKeepSturdy(w: World, s: Session, events: seq<Event>)
    requires Sturdy(w) && s.Ended() == w.session.Ended() && (s.capacity.Some? ==> s.capacity.value > 0)
    requires s.teamConfig == w.session.teamConfig && s.teams == w.session.teams
      && s.teamsSource == w.session.teamsSource
    ensures Sturdy(w.(session := s).Emit(events))
  {
    var w' := w.(session := s).Emit(events);
    SameFormationFits(w, w');
    hide FormationFits;
    forall i | 0 <= i < |w'.rows| ensures HoldsSpotOnTeam(s, w'.rows[i]) {
      assert HoldsSpotOnTeam(w.session, w.rows[i]);
    }
  }

  lemma DetailCommandKeepsSturdy(w: World, cmd: Command)
    requires Sturdy(w) && Shaped(w) && Legal(w, cmd) && Outcome(w, cmd).Ok?
    requires cmd.DoUpdateSession? || cmd.DoSetVisibility? || cmd.DoStart?
    ensures Sturdy(Outcome(w, cmd).value)
  {
    SturdyTeamsFit(w);
    hide Sturdy, Legal, Shaped;
    match cmd
    case DoUpdateSession(actor, capacity, endsAt, isPublic) =>
      var c := Updated(w.session, actor, capacity, endsAt).value;
      var v := VisibilitySet(c.session, actor, isPublic).value;
      DetailsKeepSturdy(w, v.session, c.events + v.events);
    case DoSetVisibility(actor, isPublic) =>
      var v := VisibilitySet(w.session, actor, isPublic).value;
      DetailsKeepSturdy(w, v.session, v.events);
    case DoStart(actor) =>
      var c := StartedBy(w.session, actor).value;
      DetailsKeepSturdy(w, c.session, c.events);
  }

  lemma EndKeepsSturdy(w: World, s: Session, events: seq<Event>, who: UserId)
    requires Sturdy(w) && s.Ended() && s == w.session.(status := s.status)
    ensures Sturdy(SessionOver(w.(session := s).Emit(events), who))
  {
    hide GoingIds, LastWhere;
    var w1 := w.(session := s).Emit(events);
    var w' := SessionOver(w1, who);
    ActiveDraftIs(w.drafts);
    OpenRoundIs(w.rounds);
    if ActiveDraft(w.drafts).Some? {
      var i := ActiveDraft(w.drafts).value;
      assert Runs(w.drafts, i);
      assert forall j :: Runs(w'.drafts, j) ==> Runs(w.drafts, j) && j != i;
    }
    if OpenRound(w.rounds).Some? {
      var i := OpenRound(w.rounds).value;
      assert IsOpen(w.rounds, i);
      assert forall j :: IsOpen(w'.rounds, j) ==> IsOpen(w.rounds, j) && j != i;
    }
    forall i | 0 <= i < |w'.rows| ensures HoldsSpotOnTeam(s, w'.rows[i]) {
      assert HoldsSpotOnTeam(w.session, w.rows[i]);
    }
    assert forall j :: !Runs(w'.drafts, j) && !IsOpen(w'.rounds, j);
  }

  lemma EndCommandKeepsSturdy(w: World, cmd: Command)
    requires Sturdy(w) && Shaped(w) && Legal(w, cmd) && Outcome(w, cmd).Ok?
    requires cmd.DoComplete? || cmd.DoCancel? || cmd.DoCancelFromGroup? || cmd.DoExpire?
    ensures Sturdy(Outcome(w, cmd).value)
  {
    hide Sturdy, Legal, Shaped, SessionOver;
    match cmd
    case DoComplete(actor) =>
      var c := CompletedBy(w.session, actor).value;
      EndKeepsSturdy(w, c.session, c.events, actor.user);
    case DoCancel(actor) =>
      var c := CanceledBy(w.session, actor).value;
      EndKeepsSturdy(w, c.session, c.events, actor.user);
    case DoCancelFromGroup(who) =>
      var c := CanceledFromGroup(w.session, NOBODY).value;
      EndKeepsSturdy(w, c.session, c.events, who);
    case DoExpire(now) =>
      if !w.session.Ended() {
        var c := ExpiredAt(w.session, now).value;
        EndKeepsSturdy(w, c.session, c.events, NOBODY);
      }
  }

  lemma ResetKeepsSturdy(w: World, who: UserId, reason: ResetReason)
    requires Tables(w) && !w.session.Ended()
    ensures Sturdy(ResetTeamFormation(w, who, reason))
  {
    ResetLeavesNothing(w, who, reason);
    InvIsSturdy(ResetTeamFormation(w, who, reason));
    hide *;
  }

  lemma TeamCommandKeepsSturdy(w: World, cmd: Command)
    requires Sturdy(w) && Shaped(w) && Legal(w, cmd) && Outcome(w, cmd).Ok? && (cmd.DoCreateTeams? || cmd.DoResetTeams?)
    ensures Sturdy(Outcome(w, cmd).value)
  {
    assert Tables(w);
    hide Sturdy, Tables, Legal, Shaped, CreateTeams, ResetTeamFormation;
    if cmd.DoCreateTeams? {
      CreateTeamsKeepsSturdy(w, cmd.actor, NewTeamConfig(cmd.teamCount, cmd.minPlayers).value);
    } else {
      ResetKeepsSturdy(w, cmd.actor.user, ByOrganizer);
    }
  }

  lemma OtherCommandKeepsSturdy(w: World, cmd: Command)
    requires Sturdy(w) && Shaped(w) && Legal(w, cmd) && !ChangesAttendance(cmd)
    ensures Sturdy(Apply(w, cmd))
  {
    hide Sturdy, Shaped, Legal, Outcome;
    if Outcome(w, cmd).Ok? {
      if cmd.DoAssignTeam? || cmd.DoUnassignTeam? {
        TeamRowKeepsSturdy(w, cmd);
      } else if cmd.DoStartDraft? || cmd.DoPick? || cmd.DoReplaceCaptain? || cmd.DoCancelDraft? {
        DraftCommandKeepsSturdy(w, cmd);
      } else if cmd.DoPropose? || cmd.DoVote? || cmd.DoRetractVote? || cmd.DoWithdraw? {
        VotingKeepsSturdy(w, cmd);
      } else if cmd.DoClose? {
        CloseOutcome(w, cmd);
        CloseKeepsSturdy(w, cmd.actor, cmd.winner);
      } else if cmd.DoCreateTeams? || cmd.DoResetTeams? {
        TeamCommandKeepsSturdy(w, cmd);
      } else if cmd.DoUpdateSession? || cmd.DoSetVisibility? || cmd.DoStart? {
        DetailCommandKeepsSturdy(w, cmd);
      } else {
        EndCommandKeepsSturdy(w, cmd);
      }
    }
  }

  /** A draft stays active until it ends, so naming a captain never succeeds, whoever is going. */
  lemma NoCaptainIsEverReplaced(w: World, actor: Actor, side: D.Side, user: UserId, going: seq<UserId>)
    requires Sturdy(w) && Shaped(w)
    ensures ReplaceCaptain(w, actor, side, user)
         == Err(if ActiveDraft(w.drafts).None? then DraftNotActive
                else if w.session.ManagedBy(actor) then DraftNotPaused else Unauthorized)
    ensures ActiveDraft(w.drafts).Some? ==>
      && ActiveDraft(w.drafts).value < |w.drafts|
      && D.CaptainNamed(w.drafts[ActiveDraft(w.drafts).value], w.session, actor, side, user, going)
         == Err(if w.session.ManagedBy(actor) then DraftNotPaused else Unauthorized)
  {
    hide Sturdy, GoingIds, D.Available, LastWhere, D.Settled, V.Options;
    ActiveDraftIs(w.drafts);
    if ActiveDraft(w.drafts).Some? {
      RunningDraftFits(w, ActiveDraft(w.drafts).value);
    }
  }
}
