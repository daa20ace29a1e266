/** What a session's settings and hand-made teams come from: the commands accepted so far
    (activity/internal/application/session_service.go and team_assignment_service.go). */
module SessionHistory {
  import opened Wrappers
  import opened Sequences
  import opened ActivityTypes
  import opened Attendees
  import opened SessionWorld
  import opened SessionInvariants
  import opened SessionWaitlist
  import opened StepEffects
  import opened SessionLog
  import D = Drafts
  import V = Voting

  // ---- Settings ----

  datatype Settings = Settings(capacity: Option<int>, endsAt: int, isPublic: bool)

  function SettingsOf(s: Session): Settings {
    Settings(s.capacity, s.endsAt, s.isPublic)
  }

  function SettingsAfter(w: World, cmd: Command, settings: Settings): Settings
    requires Shaped(w) && Legal(w, cmd)
  {
    if Outcome(w, cmd).Err? then settings
    else match cmd
      case DoUpdateSession(_, capacity, endsAt, isPublic) => Settings(capacity, endsAt, isPublic)
      case DoSetVisibility(_, isPublic) => settings.(isPublic := isPublic)
      case _ => settings
  }

  function SettingsOver(w: World, cmds: seq<Command>, settings: Settings): Settings
    decreases |cmds|
  {
    if cmds == [] || !Shaped(w) || !Legal(w, cmds[0]) then settings
    else SettingsOver(Apply(w, cmds[0]), cmds[1..], SettingsAfter(w, cmds[0], settings))
  }

  /** Only a manager changes settings, the capacity and the end only while the session is merely
      scheduled, and what they ask for is what is stored. */
  lemma SettingsAreStored(w: World, cmd: Command)
    requires Shaped(w) && Legal(w, cmd) && (cmd.DoUpdateSession? || cmd.DoSetVisibility?)
    ensures Outcome(w, cmd).Ok? <==>
      && w.session.ManagedBy(cmd.actor)
      && (cmd.DoUpdateSession? ==>
            w.session.status == Scheduled && (cmd.capacity.Some? ==> cmd.capacity.value > 0))
    ensures SameNature(w.session, Apply(w, cmd).session)
    ensures SettingsOf(Apply(w, cmd).session) == SettingsAfter(w, cmd, SettingsOf(w.session))
    ensures Outcome(w, cmd).Ok? ==>
      Apply(w, cmd).outbox == w.outbox + (if cmd.DoUpdateSession? then [SessionUpdated(cmd.actor.user)] else [])
        + (if cmd.isPublic != w.session.isPublic then [VisibilityChanged(cmd.actor.user)] else [])
  {
    hide Shaped, Legal;
  }

  lemma StepShowsSettings(w: World, cmd: Command)
    requires Shaped(w) && Legal(w, cmd)
    ensures SameNature(w.session, Apply(w, cmd).session)
    ensures SettingsOf(Apply(w, cmd).session) == SettingsAfter(w, cmd, SettingsOf(w.session))
  {
    hide Shaped, Legal, Outcome, Apply;
    StepLeavesAlone(w, cmd);
    if SetsDetails(cmd) {
      SettingsAreStored(w, cmd);
    }
  }

  /** Over every run the session has the settings last accepted. */
  lemma {:induction false} SettingsShowLastUpdate(w: World, cmds: seq<Command>, w': World)
    requires RunsTo(w, cmds, w')
    ensures SameNature(w.session, w'.session)
    ensures SettingsOf(w'.session) == SettingsOver(w, cmds, SettingsOf(w.session))
    decreases |cmds|
  {
    hide Apply, Legal, Shaped, SettingsAfter;
    if cmds != [] {
      StepShowsSettings(w, cmds[0]);
      SettingsShowLastUpdate(Apply(w, cmds[0]), cmds[1..], w');
    }
  }

  /** A sweep completes a live session exactly when its clock is past the end last accepted; it
      leaves one already ended alone. */
  lemma SweepCompletesIff(w0: World, cmds: seq<Command>, w: World, now: int)
    requires RunsTo(w0, cmds, w) && Shaped(w) && Legal(w, DoExpire(now)) && !w.session.Ended()
    ensures Apply(w, DoExpire(now)).session.status == Completed
       <==> now > SettingsOver(w0, cmds, SettingsOf(w0.session)).endsAt
    ensures Outcome(w, DoExpire(now)).Err? ==> Apply(w, DoExpire(now)) == w
  {
    SettingsShowLastUpdate(w0, cmds, w);
    hide RunsTo, SettingsOver, Shaped, Legal, LastWhere;
  }

  // ---- Teams by hand ----

  lemma CreatingTeams(w: World, actor: Actor, config: TeamConfig)
    ensures CreateTeams(w, actor, config).Ok? <==>
      && ActiveDraft(w.drafts).None? && w.session.ManagedBy(actor) && !w.session.Ended() && w.session.isTeamSport
    ensures CreateTeams(w, actor, config).Ok? ==>
      var w' := CreateTeams(w, actor, config).value;
      && w'.session == WithTeams(w.session, config, ByHand, actor.user, w.nextId).session
      && w'.rows == Cleared(w.rows)
  {
    hide LastWhere, UnassignedEvents, FreshTeams, V.RoundEnded, Cleared, WithTeams;
  }

  lemma FreshTeamsAreNew(s: Session, config: TeamConfig, who: UserId, nextId: nat)
    requires forall t :: t in s.teams ==> t < nextId
    ensures var s' := WithTeams(s, config, ByHand, who, nextId).session;
      && s'.teamConfig == Some(config) && s'.teamsSource == ByHand
      && |s'.teams| == config.teamCount && Distinct(s'.teams) && (forall t :: t in s'.teams ==> t !in s.teams)
  {
    hide FreshTeams;
  }

  lemma ClearedOfTeams(rows: seq<Row>, u: UserId)
    ensures TeamOf(Cleared(rows), u).None?
  {
    LiveRowIs(Cleared(rows), u);
    hide LiveRow;
  }

  /** A manager sets up the teams asked for, two by default: all of them new, and nobody on any. */
  lemma TeamsAreSetUp(w: World, actor: Actor, teamCount: Option<int>, minPlayers: Option<int>, u: UserId)
    requires var cmd := DoCreateTeams(actor, teamCount, minPlayers); Inv(w) && Shaped(w) && Legal(w, cmd)
    ensures var cmd, count := DoCreateTeams(actor, teamCount, minPlayers), if teamCount.None? then 2
      else teamCount.value;
      && (Outcome(w, cmd).Ok? <==>
            && w.session.ManagedBy(actor) && !w.session.Ended() && w.session.isTeamSport
            && (forall i :: !Runs(w.drafts, i))
            && 2 <= count <= MAX_TEAM_COUNT && (minPlayers.Some? ==> minPlayers.value > 0))
      && (Outcome(w, cmd).Ok? ==>
            var s := Apply(w, cmd).session;
            && s.teamConfig == Some(TeamConfig(count, minPlayers)) && s.teamsSource == ByHand
            && |s.teams| == count && Distinct(s.teams) && (forall t :: t in s.teams ==> t !in w.session.teams)
            && TeamOf(Apply(w, cmd).rows, u).None?)
  {
    ActiveDraftIs(w.drafts);
    assert ActiveDraft(w.drafts).Some? ==> Runs(w.drafts, ActiveDraft(w.drafts).value);
    assert TeamsFit(w.session, w.nextId);
    hide Inv, Shaped, ActiveDraft, CreateTeams, WithTeams, TeamOf, Cleared;
    var config := NewTeamConfig(teamCount, minPlayers);
    if config.Ok? {
      CreatingTeams(w, actor, config.value);
      FreshTeamsAreNew(w.session, config.value, actor.user, w.nextId);
      ClearedOfTeams(w.rows, u);
    }
  }

  /** What an accepted assignment by hand announces, by where the person was before. */
  function TeamNews(before: Option<TeamId>, cmd: Command): seq<Event>
    requires cmd.DoAssignTeam? || cmd.DoUnassignTeam?
  {
    if cmd.DoUnassignTeam? then
      if before.None? then [] else [TeamUnassigned(cmd.user, before.value, UnassignedByHand, cmd.actor.user)]
    else if before.None? then [TeamAssigned(cmd.user, cmd.team, cmd.actor.user)]
    else if before.value == cmd.team then []
    else [TeamChanged(cmd.user, before.value, cmd.team, cmd.actor.user)]
  }

  /** A manager puts someone going on a team that exists, or takes someone off theirs, while no draft
      runs; nobody else moves. */
  lemma TeamIsAssigned(w: World, cmd: Command, u: UserId) returns (i: nat)
    requires Inv(w) && Shaped(w) && Legal(w, cmd) && (cmd.DoAssignTeam? || cmd.DoUnassignTeam?)
    ensures Outcome(w, cmd).Ok? <==>
      && w.session.ManagedBy(cmd.actor) && !w.session.Ended() && w.session.HasTeams()
        && (forall j :: !Runs(w.drafts, j))
      && i < |w.rows| && !w.rows[i].deleted && w.rows[i].user == cmd.user
      && (cmd.DoAssignTeam? ==> cmd.team in w.session.teams && IsGoing(w.rows[i]))
    ensures Outcome(w, cmd).Ok? ==>
      TeamOf(Apply(w, cmd).rows, u)
      == if u != cmd.user then TeamOf(w.rows, u) else if cmd.DoAssignTeam? then Some(cmd.team) else None
    ensures Outcome(w, cmd).Ok? ==> Apply(w, cmd).outbox == w.outbox + TeamNews(TeamOf(w.rows, cmd.user), cmd)
  {
    ActiveDraftIs(w.drafts);
    LiveRowIs(w.rows, cmd.user);
    i := if LiveRow(w.rows, cmd.user).Some? then LiveRow(w.rows, cmd.user).value else 0;
    assert ActiveDraft(w.drafts).Some? ==> Runs(w.drafts, ActiveDraft(w.drafts).value);
    assert OneRowEach(w.rows);
    hide Inv, Shaped, LastWhere, TeamOf, GoingIds;
    if Outcome(w, cmd).Ok? {
      var row := w.rows[i].(team := if cmd.DoAssignTeam? then Some(cmd.team) else None);
      assert Apply(w, cmd).rows == w.rows[i := row];
      TeamOfAfterWrite(w.rows, i, row, u);
      TeamOfIs(w.rows, i);
    }
  }

  // ---- Resets ----

  ghost predicate SomethingFormed(w: World) {
    w.session.HasTeams() || (exists i :: Runs(w.drafts, i)) || exists i :: IsOpen(w.rounds, i)
  }

  lemma ResetNames(w: World, who: UserId, reason: ResetReason)
    requires SomethingFormed(w)
    ensures var w' := ResetTeamFormation(w, who, reason);
      w'.outbox != [] && w'.outbox[|w'.outbox| - 1] == TeamsReset(who, reason, GoingIds(w'.rows))
  {
    ActiveDraftIs(w.drafts);
    OpenRoundIs(w.rounds);
    GoingSame(w.rows, Cleared(w.rows));
    hide LastWhere, GoingIds;
  }

  lemma LeavingResets(w: World, d: Departure, user: UserId, next: Option<nat>)
    requires d.freed && IsNextInLine(d.world.rows, next) && SomethingFormed(w) && !w.session.Ended()
    requires d.world.session == w.session && d.world.drafts == w.drafts && d.world.rounds == w.rounds
    ensures var w' := AfterDeparture(d, user, next);
      w'.outbox != [] && w'.outbox[|w'.outbox| - 1] == TeamsReset(user, RosterChanged, GoingIds(w'.rows))
  {
    var promoted := PromoteNextPending(d.world, next);
    assert promoted.session == w.session && promoted.drafts == w.drafts && promoted.rounds == w.rounds;
    hide GoingIds, ResetTeamFormation, PromoteNextPending;
    ResetNames(promoted, user, RosterChanged);
  }

  /** The last event of the outbox is a reset that names everyone now going. */
  predicate EndsInReset(w: World, who: UserId, reason: ResetReason) {
    w.outbox != [] && w.outbox[|w.outbox| - 1] == TeamsReset(who, reason, GoingIds(w.rows))
  }

  /** Whoever resets the teams, or whose leaving does, the last thing announced is that, with everyone
      who is going once the freed spot is handed on. */
  lemma ResetNamesEveryoneGoing(w: World, cmd: Command)
    requires Shaped(w) && Legal(w, cmd) && Outcome(w, cmd).Ok? && SomethingFormed(w)
    requires cmd.DoResetTeams? || (MayLeave(cmd) && !w.session.Ended())
    requires MayLeave(cmd) ==> Leaving(w, cmd).Ok? && Leaving(w, cmd).value.freed
    ensures if cmd.DoResetTeams? then EndsInReset(Apply(w, cmd), cmd.actor.user, ByOrganizer)
            else EndsInReset(Apply(w, cmd), cmd.user, RosterChanged)
  {
    hide SomethingFormed, GoingIds, ResetTeamFormation, IsNextInLine;
    if cmd.DoResetTeams? {
      ResetNames(w, cmd.actor.user, ByOrganizer);
    } else {
      var d := Leaving(w, cmd).value;
      OwnWriteLeavesAlone(w, cmd);
      assert Apply(w, cmd) == AfterDeparture(d, cmd.user, cmd.next);
      hide *;
      EndsInResetIs(Apply(w, cmd), cmd.user, RosterChanged);
      LeavingResets(w, d, cmd.user, cmd.next);
    }
  }

  lemma EndsInResetIs(w: World, who: UserId, reason: ResetReason)
    ensures w.outbox != [] && w.outbox[|w.outbox| - 1] == TeamsReset(who, reason, GoingIds(w.rows))
       ==> EndsInReset(w, who, reason)
  {
  }
}
