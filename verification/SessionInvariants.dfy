/** What every run of the service commands keeps about one session: one live row per user, at most
    one running draft or open round, rosters and proposals of people going, teams of people who
    hold a spot. */
module SessionInvariants {
  import opened Wrappers
  import opened Sequences
  import opened ActivityTypes
  import opened Attendees
  import opened SessionWorld
  import D = Drafts
  import V = Voting

  // ---- Counting who is going ----

  predicate GoesAt(rows: seq<Row>, i: int, user: UserId)
    requires 0 <= i < |rows|
  {
    IsGoing(rows[i]) && rows[i].user == user
  }

  lemma {:induction false} GoingHas(rows: seq<Row>, user: UserId)
    ensures user in GoingIds(rows) <==> exists i :: 0 <= i < |rows| && GoesAt(rows, i, user)
  {
    if rows != [] {
      var init := rows[..|rows| - 1];
      GoingHas(init, user);
      if i :| 0 <= i < |rows| && GoesAt(rows, i, user) {
        assert i < |init| ==> GoesAt(init, i, user);
      }
      if user in GoingIds(init) {
        var i :| 0 <= i < |init| && GoesAt(init, i, user);
        assert GoesAt(rows, i, user);
      }
      if IsGoing(rows[|rows| - 1]) && rows[|rows| - 1].user == user {
        assert GoesAt(rows, |rows| - 1, user);
      }
    }
  }

  lemma GoingAppend(rows: seq<Row>, row: Row)
    ensures GoingIds(rows + [row]) == GoingIds(rows) + (if IsGoing(row) then [row.user] else [])
  {
    assert (rows + [row])[..|rows|] == rows;
  }

  lemma {:induction false} ConfirmedAfter(rows: seq<Row>, i: nat, row: Row)
    requires i < |rows|
    ensures Confirmed(rows[i := row])
      == Confirmed(rows) - (if IsGoing(rows[i]) then 1 else 0) + (if IsGoing(row) then 1 else 0)
  {
    var init := rows[..|rows| - 1];
    if i == |rows| - 1 {
      assert rows[i := row][..i] == init;
    } else {
      ConfirmedAfter(init, i, row);
      assert rows[i := row][..|rows| - 1] == init[i := row];
    }
  }

  lemma {:induction false} GoingSame(rows: seq<Row>, rows': seq<Row>)
    requires |rows| == |rows'|
    requires forall i :: 0 <= i < |rows| ==> rows[i].user == rows'[i].user && IsGoing(rows[i]) == IsGoing(rows'[i])
    ensures GoingIds(rows) == GoingIds(rows')
  {
    if rows != [] {
      GoingSame(rows[..|rows| - 1], rows'[..|rows| - 1]);
    }
  }

  ghost predicate OneRowEach(rows: seq<Row>) {
    forall i, j :: 0 <= i < j < |rows| && !rows[i].deleted && !rows[j].deleted ==> rows[i].user != rows[j].user
  }

  lemma {:induction false} GoingDistinct(rows: seq<Row>)
    requires OneRowEach(rows)
    ensures Distinct(GoingIds(rows))
  {
    if rows != [] {
      var init := rows[..|rows| - 1];
      GoingDistinct(init);
      GoingHas(init, rows[|rows| - 1].user);
    }
  }

  lemma LiveRowIs(rows: seq<Row>, user: UserId)
    ensures match LiveRow(rows, user)
            case Some(i) => i < |rows| && !rows[i].deleted && rows[i].user == user
            case None => forall i :: 0 <= i < |rows| ==> rows[i].deleted || rows[i].user != user
  {
    if LiveRow(rows, user).None? {
      forall i | 0 <= i < |rows| ensures rows[i].deleted || rows[i].user != user {
      }
    }
  }

  lemma ActiveDraftIs(drafts: seq<D.Draft>)
    ensures match ActiveDraft(drafts)
            case Some(i) => i < |drafts| && drafts[i].Running()
            case None => forall i :: 0 <= i < |drafts| ==> !drafts[i].Running()
  {
    if ActiveDraft(drafts).None? {
      forall i | 0 <= i < |drafts| ensures !drafts[i].Running() {
      }
    }
  }

  lemma OpenRoundIs(rounds: seq<V.Round>)
    ensures match OpenRound(rounds)
            case Some(i) => i < |rounds| && rounds[i].status == V.Open
            case None => forall i :: 0 <= i < |rounds| ==> rounds[i].status != V.Open
  {
    if OpenRound(rounds).None? {
      forall i | 0 <= i < |rounds| ensures rounds[i].status != V.Open {
      }
    }
  }

  // ---- The invariant ----

  ghost predicate TeamsFit(s: Session, nextId: nat) {
    && (s.teamConfig.None? ==> s.teams == [] && s.teamsSource == NoSource)
    && (s.teamConfig.Some? ==> ValidConfig(s.teamConfig.value) && |s.teams| == s.teamConfig.value.teamCount)
    && Distinct(s.teams)
    && (forall t :: t in s.teams ==> t < nextId)
    && (s.capacity.Some? ==> s.capacity.value > 0)
  }

  /** A team id in a row names one of the session's teams, and the row is live. */
  predicate OnSomeTeam(s: Session, row: Row) {
    row.team.Some? ==> !row.deleted && row.team.value in s.teams
  }

  predicate HoldsSpotOnTeam(s: Session, row: Row) {
    OnSomeTeam(s, row) && (row.team.Some? ==> s.Ended() || HoldsSpot(row.status))
  }

  predicate Runs(drafts: seq<D.Draft>, i: int) {
    0 <= i < |drafts| && drafts[i].Running()
  }

  predicate IsOpen(rounds: seq<V.Round>, i: int) {
    0 <= i < |rounds| && rounds[i].status == V.Open
  }

  /** At most one draft runs, at most one round is open, never both, and neither on a session
      that is over. */
  ghost predicate OneFormation(w: World) {
    && (forall i, j :: Runs(w.drafts, i) && Runs(w.drafts, j) ==> i == j)
    && (forall i, j :: IsOpen(w.rounds, i) && IsOpen(w.rounds, j) ==> i == j)
    && (forall i, j :: Runs(w.drafts, i) ==> !IsOpen(w.rounds, j))
    && (w.session.Ended() ==> forall i :: !Runs(w.drafts, i) && !IsOpen(w.rounds, i))
  }

  /** A running draft is nobody's turn to wait for: it is active, somebody is left to pick, and
      its rosters hold only people going. */
  ghost predicate DraftHolds(d: D.Draft, going: seq<UserId>) {
    d.status == D.Active && D.FairSoFar(d, going) && D.Available(d, going) != []
  }

  predicate RoundFits(r: V.Round, s: Session) {
    && r.keepCurrentAllowed == s.HasTeams()
    && (s.HasTeams() ==> s.teamConfig.value == r.Config())
    && s.teamsSource != ByDraft
  }

  /** An open round's proposals and votes are those of people going, and it still fits the
      session's teams. */
  ghost predicate RoundHolds(r: V.Round, s: Session, going: seq<UserId>) {
    V.Sound(r, going) && RoundFits(r, s)
  }

  ghost predicate RostersGoing(w: World) {
    && (forall i :: Runs(w.drafts, i) ==> DraftHolds(w.drafts[i], GoingIds(w.rows)))
    && (forall i :: IsOpen(w.rounds, i) ==> RoundHolds(w.rounds[i], w.session, GoingIds(w.rows)))
  }

  /** No draft runs and no vote is open. */
  ghost predicate NothingGoesOn(w: World) {
    forall i :: !Runs(w.drafts, i) && !IsOpen(w.rounds, i)
  }

  ghost predicate TwoTeamDrafts(drafts: seq<D.Draft>) {
    forall i :: 0 <= i < |drafts| ==> drafts[i].config.teamCount == 2
  }

  /** What holds even between an attendee's leaving and the reset that follows it. */
  ghost predicate Tables(w: World) {
    && OneRowEach(w.rows)
    && TeamsFit(w.session, w.nextId)
    && (forall i :: 0 <= i < |w.rows| ==> OnSomeTeam(w.session, w.rows[i]))
    && OneFormation(w)
    && TwoTeamDrafts(w.drafts)
  }

  ghost predicate Inv(w: World) {
    && Tables(w)
    && (forall i :: 0 <= i < |w.rows| ==> HoldsSpotOnTeam(w.session, w.rows[i]))
    && RostersGoing(w)
  }

  /** The invariant is more than the shape the commands need. */
  lemma InvShaped(w: World)
    requires Inv(w)
    ensures Shaped(w)
  {
    hide GoingIds;
    forall r | r in w.rounds && r.status == V.Open
      ensures V.Options(r) != [] && forall p :: p in r.proposals ==> |p.teams| == r.teamCount {
      var i :| 0 <= i < |w.rounds| && w.rounds[i] == r;
      assert IsOpen(w.rounds, i);
      forall p | p in r.proposals ensures |p.teams| == r.teamCount {
        assert V.FitsRound(p, r, GoingIds(w.rows));
      }
      assert V.Options(r)[0] in V.Options(r);
    }
  }

  // ---- Commands that change only an attendee's row ----

  lemma DraftHoldsOn(w: World, i: int, going: seq<UserId>)
    requires RostersGoing(w) && Runs(w.drafts, i) && forall u :: u in GoingIds(w.rows) ==> u in going
    ensures DraftHolds(w.drafts[i], going)
  {
    hide GoingIds, D.Available, D.FairSoFar, RoundHolds;
    D.FairAsPeopleJoin(w.drafts[i], GoingIds(w.rows), going);
  }

  lemma RoundHoldsOn(w: World, i: int, going: seq<UserId>)
    requires RostersGoing(w) && IsOpen(w.rounds, i) && forall u :: u in GoingIds(w.rows) ==> u in going
    ensures RoundHolds(w.rounds[i], w.session, going)
  {
    hide GoingIds, DraftHolds, V.Sound;
    V.SoundAsPeopleJoin(w.rounds[i], GoingIds(w.rows), going);
  }

  lemma RostersHoldOn(w: World, rows: seq<Row>)
    requires RostersGoing(w) && forall u :: u in GoingIds(w.rows) ==> u in GoingIds(rows)
    ensures RostersGoing(w.(rows := rows))
  {
    var w' := w.(rows := rows);
    hide GoingIds, DraftHolds, RoundHolds;
    forall i ensures Runs(w'.drafts, i) ==> DraftHolds(w'.drafts[i], GoingIds(rows)) {
      if Runs(w.drafts, i) { DraftHoldsOn(w, i, GoingIds(rows)); }
    }
    forall i ensures IsOpen(w'.rounds, i) ==> RoundHolds(w'.rounds[i], w.session, GoingIds(rows)) {
      if IsOpen(w.rounds, i) { RoundHoldsOn(w, i, GoingIds(rows)); }
    }
  }

  lemma SameOneFormation(w: World, w': World)
    requires OneFormation(w) && w'.drafts == w.drafts && w'.rounds == w.rounds && w'.session == w.session
    ensures OneFormation(w')
  {
  }

  lemma RowsOnly(w: World, rows: seq<Row>)
    requires Inv(w) && OneRowEach(rows)
    requires forall i :: 0 <= i < |rows| ==> HoldsSpotOnTeam(w.session, rows[i])
    requires forall u :: u in GoingIds(w.rows) ==> u in GoingIds(rows)
    ensures Inv(w.(rows := rows))
  {
    RostersHoldOn(w, rows);
    SameOneFormation(w, w.(rows := rows));
    hide GoingIds, RostersGoing, OneRowEach, TeamsFit, TwoTeamDrafts, OneFormation;
  }

  lemma InvIgnoresOutbox(w: World, events: seq<Event>)
    requires Inv(w)
    ensures Inv(w.Emit(events))
  {
    hide GoingIds, DraftHolds, RoundHolds;
    assert w.Emit(events) == w.(outbox := w.outbox + events);
  }

  lemma InsertKeepsInv(w: World, c: Change)
    requires Inv(w) && LiveRow(w.rows, c.row.user).None? && !c.row.deleted && c.row.team.None?
    ensures Inv(Inserted(w, c))
  {
    hide GoingIds, DraftHolds, RoundHolds;
    LiveRowIs(w.rows, c.row.user);
    GoingAppend(w.rows, c.row);
    RowsOnly(w, w.rows + [c.row]);
    InvIgnoresOutbox(w.(rows := w.rows + [c.row]), c.events);
  }

  lemma WriteKeepsInv(w: World, i: nat, c: Change)
    requires Inv(w) && i < |w.rows|
    requires c.row.user == w.rows[i].user && (w.rows[i].deleted ==> c.row.deleted)
    requires HoldsSpotOnTeam(w.session, c.row)
    requires IsGoing(w.rows[i]) ==> IsGoing(c.row)
    ensures Inv(Wrote(w, i, c))
  {
    hide DraftHolds, RoundHolds;
    var rows := w.rows[i := c.row];
    forall u | u in GoingIds(w.rows) ensures u in GoingIds(rows) {
      hide *;
      GoingStays(w.rows, i, c.row, u);
    }
    hide GoingIds;
    RowsOnly(w, rows);
    InvIgnoresOutbox(w.(rows := rows), c.events);
  }

  lemma GoingStays(rows: seq<Row>, i: nat, row: Row, user: UserId)
    requires i < |rows| && row.user == rows[i].user && (IsGoing(rows[i]) ==> IsGoing(row)) && user in GoingIds(rows)
    ensures user in GoingIds(rows[i := row])
  {
    GoingHas(rows, user);
    GoingHas(rows[i := row], user);
    var k :| 0 <= k < |rows| && GoesAt(rows, k, user);
    assert GoesAt(rows[i := row], k, user);
  }

  lemma AttendanceKeepsInv(w: World, cmd: Command)
    requires Inv(w) && Shaped(w) && Legal(w, cmd) && Outcome(w, cmd).Ok?
    requires cmd.DoCreateRsvp? || cmd.DoAcceptInvite? || cmd.DoApprove? || cmd.DoReject? || cmd.DoAssignTeam?
      || cmd.DoUnassignTeam?
    ensures Inv(Outcome(w, cmd).value)
  {
    hide GoingIds, Inv, LastWhere, Wrote, Inserted, ActiveDraft;
    LiveRowIs(w.rows, cmd.user);
    if cmd.DoCreateRsvp? {
      var c := if cmd.status == Going && w.session.requiresApproval then NewRequested(cmd.user, cmd.now)
               else NewRsvp(w.session, cmd.user, cmd.status, Confirmed(w.rows), cmd.now);
      InsertKeepsInv(w, c);
    } else if cmd.DoAcceptInvite? {
      InsertKeepsInv(w, NewInvited(w.session, cmd.user, Confirmed(w.rows), cmd.now));
    } else {
      var i := LiveRow(w.rows, cmd.user).value;
      var row := w.rows[i];
      assert HoldsSpotOnTeam(w.session, row) by { RowOnTeam(w, i); }
      var c := if cmd.DoApprove? then Approved(row, w.session, cmd.actor)
               else if cmd.DoReject? then Rejected(row, w.session, cmd.actor)
               else if cmd.DoAssignTeam? then OnTeam(row, w.session, cmd.team, cmd.actor)
               else OffTeam(row, w.session, cmd.actor);
      WriteKeepsInv(w, i, c.value);
    }
  }

  lemma RowOnTeam(w: World, i: nat)
    requires Inv(w) && i < |w.rows|
    ensures HoldsSpotOnTeam(w.session, w.rows[i])
  {
  }

  // ---- Leaving ----

  lemma RowKeepsTables(w: World, i: nat, row: Row, events: seq<Event>)
    requires Tables(w) && i < |w.rows|
    requires row.user == w.rows[i].user && (w.rows[i].deleted ==> row.deleted) && OnSomeTeam(w.session, row)
    ensures Tables(w.(rows := w.rows[i := row]).Emit(events))
  {
  }

  lemma NothingRuns(w: World)
    requires OneFormation(w) && (w.session.Ended() || (ActiveDraft(w.drafts).None? && OpenRound(w.rounds).None?))
    ensures NothingGoesOn(w) && RostersGoing(w)
  {
    hide DraftHolds, RoundHolds, GoingIds, LastWhere;
    ActiveDraftIs(w.drafts);
    OpenRoundIs(w.rounds);
  }

  lemma TablesOfEndedSession(w: World)
    requires Tables(w) && w.session.Ended()
    ensures Inv(w)
  {
    NothingRuns(w);
  }

  predicate NoFormation(w: World) {
    && !w.session.HasTeams() && w.session.teams == []
    && ActiveDraft(w.drafts).None? && OpenRound(w.rounds).None?
    && forall i :: 0 <= i < |w.rows| ==> w.rows[i].team.None?
  }

  /** A reset leaves no teams, no running draft, no open round and nobody on a team. */
  lemma ResetLeavesNothing(w: World, who: UserId, reason: ResetReason)
    requires Tables(w) && !w.session.Ended()
    ensures Inv(ResetTeamFormation(w, who, reason)) && NoFormation(ResetTeamFormation(w, who, reason))
  {
    var w' := ResetTeamFormation(w, who, reason);
    if w' == w {
      NothingRuns(w);
    } else {
      assert forall i :: 0 <= i < |w.rows| ==> w'.rows[i] == w.rows[i].(team := None);
      NothingRuns(w');
    }
  }

  lemma PromoteKeepsTables(w: World, next: Option<nat>)
    requires Tables(w) && IsNextInLine(w.rows, next)
    ensures Tables(PromoteNextPending(w, next)) && PromoteNextPending(w, next).session == w.session
  {
    hide GoingIds, OneFormation, TeamsFit, TwoTeamDrafts;
    if next.Some? {
      var c := PromotedRow(w.rows[next.value]).value;
      RowKeepsTables(w, next.value, c.row, c.events);
    }
  }

  lemma FreedSpotKeepsInv(d: Departure, user: UserId, next: Option<nat>)
    requires Tables(d.world) && d.freed && IsNextInLine(d.world.rows, next)
    ensures Inv(AfterDeparture(d, user, next))
    ensures !d.world.session.Ended() ==> NoFormation(AfterDeparture(d, user, next))
  {
    hide Tables, Inv, NoFormation, PromoteNextPending, ResetTeamFormation;
    PromoteKeepsTables(d.world, next);
    var w := PromoteNextPending(d.world, next);
    if w.session.Ended() {
      TablesOfEndedSession(w);
    } else {
      ResetLeavesNothing(w, user, RosterChanged);
    }
  }

  /** Every command that frees a spot leaves, on a session that is not over, no team formation at
      all. */
  lemma LeavingKeepsInv(w: World, cmd: Command)
    requires Inv(w) && Shaped(w) && MayLeave(cmd) && Legal(w, cmd) && Leaving(w, cmd).Ok?
    ensures Inv(Apply(w, cmd))
    ensures Leaving(w, cmd).value.freed && !w.session.Ended() ==> NoFormation(Apply(w, cmd))
  {
    var d := Leaving(w, cmd).value;
    InvTables(w);
    var i, c := LeavingWritesOneRow(w, cmd);
    assert Apply(w, cmd) == AfterDeparture(d, cmd.user, cmd.next);
    hide Inv, Tables, Leaving, NoFormation, AfterDeparture, HoldsSpotOnTeam, IsGoing;
    if d.freed {
      FreedSpotKeepsInv(d, cmd.user, cmd.next);
    } else {
      RowOnTeam(w, i);
      WriteKeepsInv(w, i, c);
      assert AfterDeparture(d, cmd.user, cmd.next) == d.world by { UnfreedIsItself(d, cmd.user, cmd.next); }
    }
  }

  lemma UnfreedIsItself(d: Departure, user: UserId, next: Option<nat>)
    requires !d.freed
    ensures AfterDeparture(d, user, next) == d.world
  {
  }

  /** What an attendee's own leaving writes. */
  lemma LeavingWritesOneRow(w: World, cmd: Command) returns (i: nat, c: Change)
    requires Tables(w) && MayLeave(cmd) && Leaving(w, cmd).Ok?
    ensures i < |w.rows| && !w.rows[i].deleted && c.row.user == w.rows[i].user && OnSomeTeam(w.session, c.row)
    ensures var d := Leaving(w, cmd).value;
      && d.world == Wrote(w, i, c) && Tables(d.world)
      && (!d.freed ==>
            && (HoldsSpotOnTeam(w.session, w.rows[i]) ==> HoldsSpotOnTeam(w.session, c.row))
            && (IsGoing(w.rows[i]) ==> IsGoing(c.row)))
  {
    hide GoingIds, OneFormation, TeamsFit, TwoTeamDrafts, LastWhere, OneRowEach;
    LiveRowIs(w.rows, cmd.user);
    i := LiveRow(w.rows, cmd.user).value;
    var row := w.rows[i];
    assert OnSomeTeam(w.session, row);
    if cmd.DoUpdateRsvp? {
      c := UpdatedRsvp(row, cmd.status, w.session, Confirmed(w.rows)).value;
    } else {
      c := Change(row.(deleted := true, team := None),
        if cmd.DoRemove? then Removed(row, w.session, cmd.actor).value.events else Released(row, Left, NOBODY).events);
    }
    assert Leaving(w, cmd).value.world == Wrote(w, i, c);
    RowKeepsTables(w, i, c.row, c.events);
  }

  lemma InvTables(w: World)
    requires Inv(w)
    ensures Tables(w)
  {
  }

  // ---- Drafts ----

  lemma PlacedKeepsGoing(rows: seq<Row>, rosters: seq<seq<UserId>>, teams: seq<TeamId>)
    requires |rosters| == |teams|
    ensures GoingIds(Placed(rows, rosters, teams)) == GoingIds(rows)
    ensures OneRowEach(rows) ==> OneRowEach(Placed(rows, rosters, teams))
  {
    hide GoingIds, Placements;
    GoingSame(rows, Placed(rows, rosters, teams));
  }

  lemma PlacedOnTeams(s: Session, rows: seq<Row>, rosters: seq<seq<UserId>>, i: nat)
    requires |rosters| == |s.teams| && i < |rows|
    ensures HoldsSpotOnTeam(s, Placed(rows, rosters, s.teams)[i])
  {
    hide Placements;
    var places := Placements(rows[i].user, rosters);
    if places != [] {
      assert s.teams[places[|places| - 1]] in s.teams;
    }
  }

  /** Replacing the teams while neither a draft nor a round runs. */
  lemma ReplaceKeepsInv(w: World, formed: FormedTeams, config: TeamConfig, source: TeamsSource, who: UserId,
                        before: seq<Event>)
    requires |formed.rosters| == |formed.assignedBy| == config.teamCount
    requires Tables(w) && ValidConfig(config) && NothingGoesOn(w)
    ensures Inv(ReplaceTeams(w, formed, config, source, who, before))
  {
    hide Placed, GoingIds, AllMoves, DraftHolds, RoundHolds;
    var w' := ReplaceTeams(w, formed, config, source, who, before);
    PlacedKeepsGoing(w.rows, formed.rosters, w'.session.teams);
    assert w'.drafts == w.drafts && w'.rounds == w.rounds;
    assert w'.rows == Placed(w.rows, formed.rosters, w'.session.teams);
    forall i | 0 <= i < |w'.rows| ensures HoldsSpotOnTeam(w'.session, w'.rows[i]) {
      PlacedLength(w.rows, formed.rosters, w'.session.teams);
      PlacedOnTeams(w'.session, w.rows, formed.rosters, i);
    }
  }

  lemma PlacedLength(rows: seq<Row>, rosters: seq<seq<UserId>>, teams: seq<TeamId>)
    requires |rosters| == |teams|
    ensures |Placed(rows, rosters, teams)| == |rows|
  {
  }

  lemma FinishKeepsInv(w: World, i: nat, c: D.DraftChange)
    requires Tables(w) && i < |w.drafts| && w.drafts[i] == c.draft
    requires forall j :: 0 <= j < |w.rows| ==> HoldsSpotOnTeam(w.session, w.rows[j])
    requires forall j :: Runs(w.drafts, j) ==> j == i
    requires forall j :: !IsOpen(w.rounds, j)
    requires c.draft.Running() ==> DraftHolds(c.draft, GoingIds(w.rows))
    requires c.draft.status == D.Finished ==> ValidConfig(c.draft.config)
    ensures Inv(Finish(w, c))
  {
    hide GoingIds, ReplaceTeams, DraftHolds, RoundHolds;
    if c.draft.status == D.Finished {
      ReplaceKeepsInv(w, DraftTeams(c.draft), c.draft.config, ByDraft, c.draft.startedBy, c.events);
    } else {
      assert RostersGoing(w);
      assert Finish(w, c) == w.Emit(c.events);
    }
  }

  lemma StartDraftKeepsInv(w: World, actor: Actor, captainA: UserId, captainB: UserId, order: D.PickOrder,
                           minPlayers: Option<int>)
    requires Inv(w) && StartDraft(w, actor, captainA, captainB, order, minPlayers).Ok?
    ensures Inv(StartDraft(w, actor, captainA, captainB, order, minPlayers).value)
  {
    hide GoingIds, Finish, D.Available, LastWhere, D.Settled, RoundHolds;
    var going := GoingIds(w.rows);
    D.NewDraftIsFair(w.session, actor, captainA, captainB, order, minPlayers, going);
    ActiveDraftIs(w.drafts);
    OpenRoundIs(w.rounds);
    var c := D.NewDraft(w.session, actor, captainA, captainB, order, minPlayers, going).value;
    var w1 := w.(drafts := w.drafts + [c.draft]);
    assert forall j :: 0 <= j < |w.drafts| ==> w1.drafts[j] == w.drafts[j];
    assert forall j :: Runs(w1.drafts, j) ==> j == |w.drafts|;
    FinishKeepsInv(w1, |w.drafts|, c);
  }

  lemma DraftStepKeepsInv(w: World, i: nat, c: D.DraftChange)
    requires Inv(w) && ActiveDraft(w.drafts) == Some(i) && i < |w.drafts|
    requires c.draft.config.teamCount == 2
    requires D.Settles(c.draft, GoingIds(w.rows)) || c.draft.status == D.Dropped
    requires !w.session.Ended()
    ensures Inv(Finish(w.(drafts := w.drafts[i := c.draft]), c))
  {
    hide GoingIds, Finish, D.Available, LastWhere, RoundHolds;
    ActiveDraftIs(w.drafts);
    assert Runs(w.drafts, i);
    var w1 := w.(drafts := w.drafts[i := c.draft]);
    forall j | Runs(w1.drafts, j) ensures j == i {
      assert j != i ==> Runs(w.drafts, j);
    }
    FinishKeepsInv(w1, i, c);
  }

  lemma DraftCommandKeepsInv(w: World, cmd: Command)
    requires Inv(w) && Shaped(w) && Legal(w, cmd) && Outcome(w, cmd).Ok?
    requires cmd.DoStartDraft? || cmd.DoPick? || cmd.DoReplaceCaptain? || cmd.DoCancelDraft?
    ensures Inv(Outcome(w, cmd).value)
  {
    hide Inv, GoingIds, Finish, D.Available, LastWhere, D.Settled;
    if cmd.DoStartDraft? {
      StartDraftKeepsInv(w, cmd.actor, cmd.captainA, cmd.captainB, cmd.order, cmd.minPlayers);
    } else {
      ActiveDraftIs(w.drafts);
      var i := ActiveDraft(w.drafts).value;
      RunningDraftHolds(w, i);
      if cmd.DoPick? {
        D.PickKeepsFair(w.drafts[i], w.session, cmd.captain, cmd.user, GoingIds(w.rows));
        var c := D.Picked(w.drafts[i], w.session, cmd.captain, cmd.user, GoingIds(w.rows)).value;
        DraftStepKeepsInv(w, i, c);
      } else if cmd.DoCancelDraft? {
        var c := D.DraftCancelledBy(w.drafts[i], w.session, cmd.actor).value;
        DraftStepKeepsInv(w, i, c);
        var w1 := w.(drafts := w.drafts[i := c.draft]);
        assert Finish(w1, c) == w1.Emit(c.events) by {
          UnfinishedOnlyEmits(w.(drafts := w.drafts[i := c.draft]), c);
        }
      }
    }
  }

  lemma UnfinishedOnlyEmits(w: World, c: D.DraftChange)
    requires c.draft.config.teamCount == 2 && c.draft.status != D.Finished
    ensures Finish(w, c) == w.Emit(c.events)
  {
  }

  lemma RunningDraftHolds(w: World, i: nat)
    requires Inv(w) && i < |w.drafts| && w.drafts[i].Running()
    ensures DraftHolds(w.drafts[i], GoingIds(w.rows)) && !w.session.Ended() && w.drafts[i].config.teamCount == 2
  {
    hide DraftHolds, RoundHolds;
    assert Runs(w.drafts, i);
  }

  // ---- Voting ----

  lemma RoundWrittenKeepsInv(w: World, i: nat, r: V.Round)
    requires Inv(w) && i < |w.rounds| && w.rounds[i].status == V.Open
    requires r.status == V.Open ==> RoundHolds(r, w.session, GoingIds(w.rows))
    ensures Inv(w.(rounds := w.rounds[i := r]))
    ensures r.status != V.Open ==> NothingGoesOn(w.(rounds := w.rounds[i := r]))
  {
    hide GoingIds, DraftHolds, RoundHolds;
    assert IsOpen(w.rounds, i);
    var rounds := w.rounds[i := r];
    forall j | IsOpen(rounds, j) ensures j == i {
      assert j != i ==> IsOpen(w.rounds, j);
    }
  }

  lemma OpenRoundHolds(w: World, i: nat)
    requires Inv(w) && i < |w.rounds| && w.rounds[i].status == V.Open
    ensures RoundHolds(w.rounds[i], w.session, GoingIds(w.rows)) && !w.session.Ended()
  {
    hide DraftHolds, RoundHolds;
    assert IsOpen(w.rounds, i);
  }

  lemma FirstProposalKeepsInv(w: World, author: UserId, teams: seq<seq<UserId>>)
    requires Inv(w) && Propose(w, author, teams).Ok? && OpenRound(w.rounds).None?
    ensures Inv(Propose(w, author, teams).value)
  {
    hide GoingIds, LastWhere, DraftHolds, V.Sound, V.DivisionFault;
    ActiveDraftIs(w.drafts);
    OpenRoundIs(w.rounds);
    V.OpenedIsSound(w.session, author, teams, GoingIds(w.rows), w.nextId);
    var c := V.OpenRound(w.session, author, teams, GoingIds(w.rows), w.nextId).value;
    var rounds := w.rounds + [c.round];
    assert forall j :: 0 <= j < |w.rounds| ==> rounds[j] == w.rounds[j];
    assert forall j :: IsOpen(rounds, j) ==> j == |w.rounds|;
    assert RoundHolds(c.round, w.session, GoingIds(w.rows));
  }

  lemma VotingKeepsInv(w: World, cmd: Command)
    requires Inv(w) && Shaped(w) && Legal(w, cmd) && Outcome(w, cmd).Ok?
    requires cmd.DoPropose? || cmd.DoVote? || cmd.DoRetractVote? || cmd.DoWithdraw?
    ensures Inv(Outcome(w, cmd).value)
  {
    hide Inv, GoingIds, LastWhere, V.Sound, V.DivisionFault, V.FindProposal, V.WithDivision, V.Options;
    OpenRoundIs(w.rounds);
    if OpenRound(w.rounds).None? {
      FirstProposalKeepsInv(w, cmd.user, cmd.division);
    } else {
      var i := OpenRound(w.rounds).value;
      var r, going := w.rounds[i], GoingIds(w.rows);
      OpenRoundHolds(w, i);
      var c;
      if cmd.DoPropose? {
        V.ProposeKeepsSound(r, w.session, cmd.user, cmd.division, going, w.nextId);
        c := V.Proposed(r, w.session, cmd.user, cmd.division, going, w.nextId).value;
      } else if cmd.DoVote? {
        V.VoteKeepsSound(r, cmd.user, cmd.choice, going);
        c := V.Voted(r, cmd.user, cmd.choice, going).value;
      } else if cmd.DoRetractVote? {
        V.RetractKeepsSound(r, cmd.user, going);
        c := V.VoteTakenBack(r, cmd.user, going).value;
      } else {
        V.WithdrawKeepsSound(r, cmd.user, cmd.proposal, going);
        c := V.Withdrawn(r, cmd.user, cmd.proposal).value;
      }
      RoundWrittenKeepsInv(w, i, c.round);
      var w1 := w.(rounds := w.rounds[i := c.round]);
      MoreIdsKeepInv(w1, if cmd.DoPropose? then 1 else 0, c.events);
    }
  }

  lemma MoreIdsKeepInv(w: World, n: nat, events: seq<Event>)
    requires Inv(w)
    ensures Inv(w.(nextId := w.nextId + n).Emit(events))
  {
    hide GoingIds, DraftHolds, RoundHolds;
  }

  lemma CloseKeepsInv(w: World, actor: Actor, winner: Option<Choice>)
    requires Inv(w) && Shaped(w) && CloseVoting(w, actor, winner).Ok?
    ensures Inv(CloseVoting(w, actor, winner).value)
  {
    hide Inv, GoingIds, LastWhere, V.Sound, V.Options, ReplaceTeams, V.ClosingChoice, V.FindProposal, NothingGoesOn;
    OpenRoundIs(w.rounds);
    var i := OpenRound(w.rounds).value;
    OpenRoundHolds(w, i);
    var c := V.ClosedBy(w.rounds[i], w.session, actor, winner).value;
    RoundWrittenKeepsInv(w, i, c.round);
    var w1 := w.(rounds := w.rounds[i := c.round]);
    if c.winning.None? {
      InvIgnoresOutbox(w1, c.events);
    } else {
      assert V.Options(w.rounds[i]) != [] by { assert w.rounds[i] in w.rounds; }
      V.WinningProposalFits(w.rounds[i], w.session, actor, winner, GoingIds(w.rows));
      SoundConfig(w.rounds[i], GoingIds(w.rows));
      InvTables(w1);
      var p := c.winning.value;
      ReplaceKeepsInv(w1, FormedTeams(p.teams, seq(|p.teams|, _ => actor.user), actor.user), c.round.Config(), ByVote,
        actor.user, c.events);
    }
  }

  lemma SoundConfig(r: V.Round, going: seq<UserId>)
    requires V.Sound(r, going)
    ensures ValidConfig(r.Config())
  {
  }

  // ---- Teams by hand, and the session's own life ----

  lemma CreateTeamsKeepsInv(w: World, actor: Actor, config: TeamConfig)
    requires Inv(w) && ValidConfig(config) && CreateTeams(w, actor, config).Ok?
    ensures Inv(CreateTeams(w, actor, config).value)
  {
    hide GoingIds, LastWhere, UnassignedEvents, DraftHolds, RoundHolds;
    ActiveDraftIs(w.drafts);
    OpenRoundIs(w.rounds);
    var w' := CreateTeams(w, actor, config).value;
    assert forall i :: 0 <= i < |w.rows| ==> w'.rows[i] == w.rows[i].(team := None);
    if OpenRound(w.rounds).Some? {
      var i := OpenRound(w.rounds).value;
      assert IsOpen(w.rounds, i);
      assert forall j :: IsOpen(w'.rounds, j) ==> IsOpen(w.rounds, j) && j != i;
    }
    assert forall j :: !Runs(w'.drafts, j) && !IsOpen(w'.rounds, j);
  }

  lemma SameTeamsKeepInv(w: World, s: Session, events: seq<Event>)
    requires Inv(w) && s.Ended() == w.session.Ended() && (s.capacity.Some? ==> s.capacity.value > 0)
    requires s.teamConfig == w.session.teamConfig && s.teams == w.session.teams
      && s.teamsSource == w.session.teamsSource
    ensures Inv(w.(session := s).Emit(events))
  {
    hide GoingIds, DraftHolds, V.Sound;
    var w' := w.(session := s).Emit(events);
    forall i | 0 <= i < |w'.rows| ensures HoldsSpotOnTeam(s, w'.rows[i]) {
      assert HoldsSpotOnTeam(w.session, w.rows[i]);
    }
    forall i | IsOpen(w'.rounds, i) ensures RoundHolds(w'.rounds[i], s, GoingIds(w.rows)) {
      assert RoundHolds(w.rounds[i], w.session, GoingIds(w.rows));
    }
  }

  /** Ending the session ends what runs on it. */
  lemma EndKeepsInv(w: World, s: Session, events: seq<Event>, who: UserId)
    requires Inv(w) && s.Ended() && s == w.session.(status := s.status)
    ensures Inv(SessionOver(w.(session := s).Emit(events), who))
  {
    hide GoingIds, LastWhere, DraftHolds, RoundHolds;
    var w1 := w.(session := s).Emit(events);
    var w' := SessionOver(w1, who);
    ActiveDraftIs(w.drafts);
    OpenRoundIs(w.rounds);
    assert forall i :: Runs(w.drafts, i) ==> ActiveDraft(w.drafts).Some?;
    if ActiveDraft(w.drafts).Some? {
      var i := ActiveDraft(w.drafts).value;
      assert Runs(w.drafts, i);
      assert forall j :: Runs(w'.drafts, j) ==> Runs(w.drafts, j) && j != i;
    }
    if OpenRound(w.rounds).Some? {
      var i := OpenRound(w.rounds).value;
      assert IsOpen(w.rounds, i);
      assert forall j :: IsOpen(w'.rounds, j) ==> IsOpen(w.rounds, j) && j != i;
    }
    forall i | 0 <= i < |w'.rows| ensures HoldsSpotOnTeam(s, w'.rows[i]) {
      assert HoldsSpotOnTeam(w.session, w.rows[i]);
    }
    assert forall j :: !Runs(w'.drafts, j) && !IsOpen(w'.rounds, j);
  }

  lemma DetailCommandKeepsInv(w: World, cmd: Command)
    requires Inv(w) && Shaped(w) && Legal(w, cmd) && Outcome(w, cmd).Ok?
    requires cmd.DoUpdateSession? || cmd.DoSetVisibility? || cmd.DoStart?
    ensures Inv(Outcome(w, cmd).value)
  {
    hide Inv, Legal, Shaped;
    CapacityIsPositive(w);
    match cmd
    case DoUpdateSession(actor, capacity, endsAt, isPublic) =>
      var c := Updated(w.session, actor, capacity, endsAt).value;
      var v := VisibilitySet(c.session, actor, isPublic).value;
      SameTeamsKeepInv(w, v.session, c.events + v.events);
    case DoSetVisibility(actor, isPublic) =>
      var v := VisibilitySet(w.session, actor, isPublic).value;
      SameTeamsKeepInv(w, v.session, v.events);
    case DoStart(actor) =>
      var c := StartedBy(w.session, actor).value;
      SameTeamsKeepInv(w, c.session, c.events);
  }

  lemma EndCommandKeepsInv(w: World, cmd: Command)
    requires Inv(w) && Shaped(w) && Legal(w, cmd) && Outcome(w, cmd).Ok?
    requires cmd.DoComplete? || cmd.DoCancel? || cmd.DoCancelFromGroup? || cmd.DoExpire?
    ensures Inv(Outcome(w, cmd).value)
  {
    hide Inv, Legal, Shaped, SessionOver;
    CapacityIsPositive(w);
    match cmd
    case DoComplete(actor) =>
      var c := CompletedBy(w.session, actor).value;
      EndKeepsInv(w, c.session, c.events, actor.user);
    case DoCancel(actor) =>
      var c := CanceledBy(w.session, actor).value;
      EndKeepsInv(w, c.session, c.events, actor.user);
    case DoCancelFromGroup(who) =>
      var c := CanceledFromGroup(w.session, NOBODY).value;
      EndKeepsInv(w, c.session, c.events, who);
    case DoExpire(now) =>
      if !w.session.Ended() {
        var c := ExpiredAt(w.session, now).value;
        EndKeepsInv(w, c.session, c.events, NOBODY);
      }
  }

  lemma SessionCommandKeepsInv(w: World, cmd: Command)
    requires Inv(w) && Shaped(w) && Legal(w, cmd) && Outcome(w, cmd).Ok?
    requires cmd.DoUpdateSession? || cmd.DoSetVisibility? || cmd.DoStart? || cmd.DoComplete? || cmd.DoCancel?
          || cmd.DoCancelFromGroup? || cmd.DoExpire? || cmd.DoCreateTeams? || cmd.DoResetTeams?
    ensures Inv(Outcome(w, cmd).value)
  {
    if cmd.DoCreateTeams? {
      hide Inv, Legal, Shaped, CreateTeams;
      CreateTeamsKeepsInv(w, cmd.actor, NewTeamConfig(cmd.teamCount, cmd.minPlayers).value);
    } else if cmd.DoResetTeams? {
      InvTables(w);
      hide Inv, Legal, Shaped, ResetTeamFormation, Tables;
      ResetLeavesNothing(w, cmd.actor.user, ByOrganizer);
    } else if cmd.DoUpdateSession? || cmd.DoSetVisibility? || cmd.DoStart? {
      hide Inv, Legal, Shaped, Outcome;
      DetailCommandKeepsInv(w, cmd);
    } else {
      hide Inv, Legal, Shaped, Outcome;
      EndCommandKeepsInv(w, cmd);
    }
  }

  lemma CapacityIsPositive(w: World)
    requires Inv(w)
    ensures w.session.capacity.Some? ==> w.session.capacity.value > 0
  {
  }

  // ---- Every run ----

  lemma StepKeepsInv(w: World, cmd: Command)
    requires Inv(w) && Shaped(w) && Legal(w, cmd)
    ensures Inv(Apply(w, cmd))
  {
    hide Inv, Shaped, Legal, Outcome;
    if Outcome(w, cmd).Ok? {
      if cmd.DoCreateRsvp? || cmd.DoAcceptInvite? || cmd.DoApprove? || cmd.DoReject? || cmd.DoAssignTeam?
        || cmd.DoUnassignTeam? {
        AttendanceKeepsInv(w, cmd);
      } else if MayLeave(cmd) {
        DepartedOkIsLeaving(w, cmd);
        LeavingKeepsInv(w, cmd);
      } else if cmd.DoStartDraft? || cmd.DoPick? || cmd.DoReplaceCaptain? || cmd.DoCancelDraft? {
        DraftCommandKeepsInv(w, cmd);
      } else if cmd.DoPropose? || cmd.DoVote? || cmd.DoRetractVote? || cmd.DoWithdraw? {
        VotingKeepsInv(w, cmd);
      } else if cmd.DoClose? {
        CloseOutcome(w, cmd);
        CloseKeepsInv(w, cmd.actor, cmd.winner);
      } else {
        SessionCommandKeepsInv(w, cmd);
      }
    }
  }

  lemma CloseOutcome(w: World, cmd: Command)
    requires Shaped(w) && Legal(w, cmd) && cmd.DoClose?
    ensures Outcome(w, cmd) == CloseVoting(w, cmd.actor, cmd.winner)
  {
  }

  lemma DepartedOkIsLeaving(w: World, cmd: Command)
    requires Shaped(w) && Legal(w, cmd) && MayLeave(cmd) && Outcome(w, cmd).Ok?
    ensures Leaving(w, cmd).Ok?
  {
  }

  /** A run: each command is taken in the state the one before it left. */
  ghost predicate RunsTo(w: World, cmds: seq<Command>, w': World)
    decreases |cmds|
  {
    if cmds == [] then w' == w
    else Shaped(w) && Legal(w, cmds[0]) && RunsTo(Apply(w, cmds[0]), cmds[1..], w')
  }

  lemma {:induction false} RunKeepsInv(w: World, cmds: seq<Command>, w': World)
    requires Inv(w) && RunsTo(w, cmds, w')
    ensures Inv(w')
    decreases |cmds|
  {
    hide Inv, Apply, Legal, Shaped;
    if cmds != [] {
      StepKeepsInv(w, cmds[0]);
      RunKeepsInv(Apply(w, cmds[0]), cmds[1..], w');
    }
  }
}
