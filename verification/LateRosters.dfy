/** What of team formation survives transactions that interleave with rejections, and when a rejection,
    or a draft or vote that read who is going before one, breaks it
    (activity/internal/application/attendee_service.go lines 391-416, team_formation.go lines 154-171,
    team_draft_service.go lines 110-129 and team_voting_service.go). */
module LateRosters {
  import opened Wrappers
  import opened Sequences
  import opened ActivityTypes
  import opened Attendees
  import opened SessionWorld
  import opened SessionInvariants
  import opened SessionWaitlist
  import opened SessionTeams
  import opened Sturdiness
  import opened StaleReads
  import opened FormationCommits
  import opened StaleFormations
  import opened Interleavings
  import opened SerialOrder
  import opened LateRejections
  import D = Drafts
  import V = Voting

  // ---- Every interleaving ----

  /** A row's team, as the lock's holder read it, is one of the session's and goes with a spot. */
  ghost predicate SeenOnTeam(w: World, h: Holder) {
    if h.Idle? || h.Locked? then true
    else if h.HasTable? then RowsOnTeams(w.session, h.read)
    else h.seen.None? || HoldsSpotOnTeam(w.session, h.seen.value.row)
  }

  ghost predicate SturdySystem(sys: System) {
    Sturdy(sys.world) && SeenOnTeam(sys.world, sys.holder)
  }

  /** The row the own write leaves is on a team only of the session's, and unless a spot was freed
      only with a spot. */
  lemma OwnRowOnTeam(w: World, h: Holder)
    requires HolderFits(w, h) && h.Ready? && SeenOnTeam(w, h) && h.own.SetRow?
    ensures var c := h.own.change.row; OnSomeTeam(w.session, c) && (!h.freed ==> HoldsSpotOnTeam(w.session, c))
    ensures h.own.index < |w.rows| && !w.rows[h.own.index].deleted && !h.own.change.row.deleted
  {
    hide GoingIds, LastWhere, IsNextInLine, Effected;
  }

  lemma InsertKeepsSturdy(w: World, c: Change)
    requires Sturdy(w) && OneRowEach(w.rows + [c.row]) && c.row.team.None?
    ensures Sturdy(Inserted(w, c))
  {
    var w' := Inserted(w, c);
    SameFormationFits(w, w');
    hide FormationFits, GoingIds, OneRowEach, TeamsFit, TwoTeamDrafts;
    assert w'.rows == w.rows + [c.row];
  }

  lemma EffectedKeepsTables(w: World, h: Holder)
    requires Sturdy(w) && HolderFits(w, h) && h.Ready? && SeenOnTeam(w, h)
    ensures Tables(Effected(w, h.own)) && (!h.freed ==> Sturdy(Effected(w, h.own)))
    ensures Effected(w, h.own).session == w.session
  {
    OwnFits(w, h);
    EffectedCounts(w, h);
    hide GoingIds, LastWhere, Decide, IsNextInLine, HoldsSpotOnTeam, SeenFits, Tables, FormationFits, OnSomeTeam;
    match h.own
    case Insert(c) =>
      InsertKeepsSturdy(w, c);
      assert Tables(Effected(w, h.own));
    case SetRow(i, c) =>
      OwnRowOnTeam(w, h);
      var row := w.rows[i].(status := c.row.status, team := c.row.team);
      TeamByStatus(w.session, row, c.row);
      RowKeepsTables(w, i, row, c.events);
      if !h.freed { SturdyRow(w, i, Change(row, c.events)); }
    case SoftDelete(i, events) =>
      var row := w.rows[i].(deleted := true, team := None);
      OffTeamFits(w.session, row);
      RowKeepsTables(w, i, row, events);
      if !h.freed { SturdyRow(w, i, Change(row, events)); }
  }

  lemma OffTeamFits(s: Session, row: Row)
    requires row.team.None?
    ensures HoldsSpotOnTeam(s, row) && OnSomeTeam(s, row)
  {
  }

  lemma TeamByStatus(s: Session, row: Row, like: Row)
    requires row.team == like.team && row.status == like.status && row.deleted == like.deleted
    ensures OnSomeTeam(s, like) ==> OnSomeTeam(s, row)
    ensures HoldsSpotOnTeam(s, like) ==> HoldsSpotOnTeam(s, row)
  {
  }

  lemma OwnCommitKeepsSturdy(w: World, h: Holder)
    requires Sturdy(w) && HolderFits(w, h) && h.Ready? && SeenOnTeam(w, h)
    ensures Sturdy(Committed(w, h.own, h.freed, h.next, h.going, h.cmd.user))
    ensures h.freed ==> Inv(Committed(w, h.own, h.freed, h.next, h.going, h.cmd.user))
  {
    EffectedKeepsTables(w, h);
    if h.freed {
      var w1 := Effected(w, h.own);
      hide Sturdy, Tables, Decide, SeenFits, Effected, IsNextInLine, PromotedAt, ResetFormation, ResetTeamFormation,
           PromoteNextPending, Inv;
      PromotedAtIs(w1, h.next);
      PromoteKeepsTables(w1, h.next);
      var w2 := PromotedAt(w1, h.next);
      if TeamsLock(w2.session).Some? {
        TablesOfEndedSession(w2);
      } else {
        ResetLeavesNothing(w2, h.cmd.user, RosterChanged);
        ResetsAlike(w2, h.cmd.user, RosterChanged, h.going);
        InvIgnoresNews(ResetTeamFormation(w2, h.cmd.user, RosterChanged),
          ResetFormation(w2, h.cmd.user, RosterChanged, h.going).outbox);
      }
      InvIsSturdy(Committed(w, h.own, h.freed, h.next, h.going, h.cmd.user));
    }
  }

  lemma InvIgnoresNews(w: World, outbox: seq<Event>)
    requires Inv(w)
    ensures Inv(w.(outbox := outbox))
  {
    hide GoingIds, DraftHolds, RoundHolds, OneRowEach;
  }

  // A draft, vote or teams command leaves all but the rows as it would have on those it read.

  lemma SturdyOnRows(w: World, rows: seq<Row>)
    requires Sturdy(w) && OneRowEach(rows) && RowsOnTeams(w.session, rows)
    ensures Sturdy(w.(rows := rows))
  {
    SameFormationFits(w, w.(rows := rows));
    hide FormationFits, OneRowEach, TwoTeamDrafts, TeamsFit;
    assert forall i :: 0 <= i < |rows| ==> HoldsSpotOnTeam(w.session, rows[i]);
  }

  /** What is written on a row rejected since is on a team only if it would have been anyway. */
  lemma WrittenOnTeam(s: Session, row: Row, read: Row, e: RowEffect)
    requires SinceRead(read, row) && EffectFits(e) && HoldsSpotOnTeam(s, WrittenRow(read, read, e))
    ensures HoldsSpotOnTeam(s, WrittenRow(row, read, e))
  {
    hide Placements, LastTeam;
  }

  lemma WrittenOnTeams(s: Session, rows: seq<Row>, read: seq<Row>, e: RowEffect)
    requires RejectedOnly(read, rows) && EffectFits(e) && RowsOnTeams(s, WrittenRows(read, read, e))
    ensures RowsOnTeams(s, WrittenRows(rows, read, e))
  {
    hide WrittenRow, HoldsSpotOnTeam;
    forall i | 0 <= i < |rows| ensures HoldsSpotOnTeam(s, WrittenRows(rows, read, e)[i]) {
      assert SinceRead(read[i], rows[i]) && HoldsSpotOnTeam(s, WrittenRows(read, read, e)[i]);
      WrittenOnTeam(s, rows[i], read[i], e);
    }
  }

  lemma FormedOnTeams(w: World, cmd: Command, read: seq<Row>)
    requires Shaped(w) && IsFormation(cmd) && RejectedOnly(read, w.rows) && PlanOf(w, cmd, GoingIds(read)).Ok?
    requires RowsOnTeams(FormedAt(w, cmd, read).session, FormedAt(w.(rows := read), cmd, read).rows)
    ensures RowsOnTeams(FormedAt(w, cmd, read).session, FormedAt(w, cmd, read).rows)
  {
    PlanIgnoresRows(w, cmd, GoingIds(read), read);
    hide Shaped, PlanOf, RejectedOnly, GoingIds, WrittenRows, MovesOf, RowsOnTeams;
    var p := PlanOf(w, cmd, GoingIds(read)).value;
    WrittenOnTeams(p.session, w.rows, read, p.effect);
  }

  /** The tables as the command would have left them on the rows it read. */
  function AppliedOnRead(w: World, h: Holder): World
    requires CanCommit(w, h) && h.HasTable?
  {
    FormedIsApplied(w, h.cmd, h.read);
    Apply(w.(rows := h.read), h.cmd)
  }

  lemma SturdyAsRead(w: World, h: Holder)
    requires Sturdy(w) && HolderFits(w, h) && CanCommit(w, h) && h.HasTable? && SeenOnTeam(w, h)
    ensures Sturdy(w.(rows := h.read)) && Sturdy(AppliedOnRead(w, h))
    ensures FormedAt(w, h.cmd, h.read) == AppliedOnRead(w, h).(rows := FormedAt(w, h.cmd, h.read).rows)
  {
    hide Sturdy, Shaped, Legal, Apply, FormedAt, RejectedOnly, OneRowEach, RowsOnTeams, RequestsFit, GoingIds;
    SturdyOnRows(w, h.read);
    FormedIsApplied(w, h.cmd, h.read);
    OtherCommandKeepsSturdy(w.(rows := h.read), h.cmd);
  }

  lemma AppliedRows(w: World, h: Holder)
    requires CanCommit(w, h) && h.HasTable?
    ensures AppliedOnRead(w, h).rows == FormedAt(w.(rows := h.read), h.cmd, h.read).rows
  {
    FormedIsApplied(w, h.cmd, h.read);
    PlanIsOutcome(w.(rows := h.read), h.cmd);
    hide Shaped, Legal, Apply, FormedAt, GoingIds;
  }

  lemma TableCommitKeepsSturdy(w: World, h: Holder)
    requires Sturdy(w) && RequestsFit(w.rows) && HolderFits(w, h) && CanCommit(w, h) && h.HasTable? && SeenOnTeam(w, h)
    ensures Sturdy(FormedAt(w, h.cmd, h.read))
  {
    SturdyAsRead(w, h);
    SturdyRows(w);
    hide Sturdy, Shaped, Legal, AppliedOnRead, RejectedOnly, OneRowEach, RowsOnTeams, RequestsFit, GoingIds, PlanOf,
         CarriedOut;
    TableCommitCounts(w, h);
    var p := PlanOf(w, h.cmd, GoingIds(h.read));
    if p.Ok? {
      AppliedRows(w, h);
      SturdyRows(AppliedOnRead(w, h));
      FormedOnTeams(w, h.cmd, h.read);
      SturdyOnRows(AppliedOnRead(w, h), FormedAt(w, h.cmd, h.read).rows);
    }
  }

  lemma CommitKeepsSturdy(w: World, h: Holder)
    requires Sturdy(w) && RequestsFit(w.rows) && HolderFits(w, h) && CanCommit(w, h) && SeenOnTeam(w, h)
    ensures Sturdy(CommitOf(w, h))
  {
    hide Sturdy, Shaped, FormedAt, Committed, HolderFits, SeenOnTeam, RequestsFit;
    if h.HasTable? {
      TableCommitKeepsSturdy(w, h);
    } else {
      OwnCommitKeepsSturdy(w, h);
    }
  }

  lemma RejectKeepsSturdy(w: World, r: Rejecting)
    requires Sturdy(w) && RejectFits(w, r)
    ensures Sturdy(RejectedAt(w, r))
  {
    hide Sturdy;
    var row := w.rows[r.index].(status := NotGoing, team := None);
    OffTeamFits(w.session, row);
    SturdyRow(w, r.index, Change(row, [JoinRejected(r.row.user, r.actor.user)]));
  }

  lemma StepKeepsSturdy(sys: System, step: Step)
    requires SystemInv(sys) && SturdySystem(sys) && After(sys, step).Some?
    ensures SturdySystem(After(sys, step).value)
  {
    var w, h := sys.world, sys.holder;
    hide Sturdy, HoldsSpotOnTeam, GoingIds, LastWhere, Decide, IsNextInLine, Effected, CommitOf, RejectedAt, Apply,
         Shaped, Legal, RejectFits, HolderFits, OneRowEach, RequestsFit, RowsOnTeams;
    if step.Commit? {
      CommitKeepsSturdy(w, h);
    } else if step.OtherCommand? {
      OtherCommandKeepsSturdy(w, step.other);
    } else if step.RejectCommits? {
      RejectKeepsSturdy(w, sys.rejects[step.tx]);
      RejectKeepsSession(w, sys.rejects[step.tx]);
    } else if step.ReadRow? {
      LiveRowIs(w.rows, h.cmd.user);
      if LiveRow(w.rows, h.cmd.user).Some? { SturdyRowOnTeam(w, LiveRow(w.rows, h.cmd.user).value); }
    } else if step.ReadTable? {
      SturdyRows(w);
    }
  }

  lemma RejectKeepsSession(w: World, r: Rejecting)
    ensures RejectedAt(w, r).session == w.session
  {
  }

  /** Whatever the interleaving: a user has one live row, teams are the session's own and held only
      by people with a spot, at most one draft runs or one vote is open, never both and never on a
      session that is over, and either fits the session's teams. Only the rosters may not hold. */
  lemma {:induction false} TraceKeepsSturdy(sys: System, steps: seq<Step>, sys': System)
    requires SystemInv(sys) && SturdySystem(sys) && Trace(sys, steps, sys')
    ensures SturdySystem(sys') && Tables(sys'.world) && OneFormation(sys'.world)
    decreases |steps|
  {
    hide SystemInv, After, SeenOnTeam, FormationFits, OneRowEach, HoldsSpotOnTeam, TeamsFit, TwoTeamDrafts;
    if steps != [] {
      StepKeepsSystemInv(sys, steps[0]);
      StepKeepsSturdy(sys, steps[0]);
      TraceKeepsSturdy(After(sys, steps[0]).value, steps[1..], sys');
    }
  }

  // ---- What a late rejection breaks ----

  /** The user is neither a captain nor picked, nor the only one left to pick. */
  ghost predicate SparesDraft(d: D.Draft, going: seq<UserId>, user: UserId) {
    D.Free(d, user) && exists u :: u in D.Available(d, going) && u != user
  }

  /** No proposal names the user and no vote is theirs. */
  ghost predicate SparesRound(r: V.Round, user: UserId) {
    user !in r.votes && forall p :: p in r.proposals ==> user !in Flatten(p.teams)
  }

  ghost predicate SparesFormation(w: World, user: UserId) {
    && (forall i :: Runs(w.drafts, i) ==> SparesDraft(w.drafts[i], GoingIds(w.rows), user))
    && (forall i :: IsOpen(w.rounds, i) ==> SparesRound(w.rounds[i], user))
  }

  lemma GoingWithout(w: World, r: Rejecting)
    requires OneRowEach(w.rows) && RejectFits(w, r)
    ensures !IsGoing(w.rows[r.index]) ==> GoingIds(RejectedAt(w, r).rows) == GoingIds(w.rows)
    ensures IsGoing(w.rows[r.index]) ==> r.row.user in GoingIds(w.rows)
    ensures IsGoing(w.rows[r.index]) ==>
      forall u :: u in GoingIds(RejectedAt(w, r).rows) <==> u in GoingIds(w.rows) && u != r.row.user
  {
    var rows, rows' := w.rows, RejectedAt(w, r).rows;
    if IsGoing(rows[r.index]) {
      GoingHas(rows, r.row.user);
      assert GoesAt(rows, r.index, r.row.user);
      hide GoingIds;
      forall u ensures u in GoingIds(rows') <==> u in GoingIds(rows) && u != r.row.user {
        GoingHas(rows, u);
        GoingHas(rows', u);
        assert forall i :: 0 <= i < |rows| ==> (GoesAt(rows', i, u) <==> GoesAt(rows, i, u) && i != r.index);
      }
    } else {
      GoingSame(rows, rows');
    }
  }

  lemma DraftWithout(d: D.Draft, going: seq<UserId>, less: seq<UserId>, user: UserId)
    requires DraftHolds(d, going) && user in going && forall u :: u in less <==> u in going && u != user
    ensures DraftHolds(d, less) <==> SparesDraft(d, going, user)
  {
    hide D.Available, D.SideForTurn;
    if DraftHolds(d, less) {
      assert D.Available(d, less)[0] in D.Available(d, going);
      assert forall k :: 0 <= k < |d.picks| ==> D.InPlay(d, less, d.picks[k].user);
    }
    if SparesDraft(d, going, user) {
      var u :| u in D.Available(d, going) && u != user;
      assert u in D.Available(d, less);
      forall k | 0 <= k < |d.picks| ensures D.InPlay(d, less, d.picks[k].user) {
        assert D.InPlay(d, going, d.picks[k].user);
      }
    }
  }

  lemma RoundWithout(r: V.Round, s: Session, going: seq<UserId>, less: seq<UserId>, user: UserId)
    requires RoundHolds(r, s, going) && forall u :: u in less <==> u in going && u != user
    ensures RoundHolds(r, s, less) <==> SparesRound(r, user)
  {
    hide V.Options;
    if RoundHolds(r, s, less) {
      forall p | p in r.proposals ensures user !in Flatten(p.teams) {
        assert V.FitsRound(p, r, less);
      }
      assert user in r.votes ==> V.StandingVote(r, less, user);
    }
    if SparesRound(r, user) {
      forall p | p in r.proposals ensures V.FitsRound(p, r, less) {
        assert V.FitsRound(p, r, going);
      }
      forall u | u in r.votes ensures V.StandingVote(r, less, u) {
        assert V.StandingVote(r, going, u);
      }
    }
  }

  /** A rejection keeps the session invariant exactly when its row holds no spot, or its user is no
      captain, picked by nobody, not the last one left to pick, in no open proposal and without a
      vote. Otherwise someone who is not going stays on a roster, and the branch of the teams'
      replacement that skips a missing attendee is reached. */
  lemma RejectKeepsInvIff(w: World, r: Rejecting)
    requires Inv(w) && RejectFits(w, r)
    ensures Inv(RejectedAt(w, r)) <==> !IsGoing(w.rows[r.index]) || SparesFormation(w, r.row.user)
  {
    var w', going, less := RejectedAt(w, r), GoingIds(w.rows), GoingIds(RejectedAt(w, r).rows);
    InvIsSturdy(w);
    InvIsSturdy(w');
    RejectKeepsSturdy(w, r);
    GoingWithout(w, r);
    assert RostersGoing(w);
    hide Inv, Sturdy, GoingIds, DraftHolds, RoundHolds, SparesDraft, SparesRound;
    if IsGoing(w.rows[r.index]) {
      forall i | Runs(w.drafts, i) ensures DraftHolds(w.drafts[i], less) <==>
        SparesDraft(w.drafts[i], going, r.row.user) {
        DraftWithout(w.drafts[i], going, less, r.row.user);
      }
      forall i | IsOpen(w.rounds, i)
        ensures RoundHolds(w.rounds[i], w.session, less) <==> SparesRound(w.rounds[i], r.row.user) {
        RoundWithout(w.rounds[i], w.session, going, less, r.row.user);
      }
    }
  }

  // ---- What a draft or vote on stale ids breaks ----

  /** Captains and players picked are going, and there is someone left to pick. */
  ghost predicate DraftGoing(d: D.Draft, going: seq<UserId>) {
    && d.captainA in going && d.captainB in going && D.Available(d, going) != []
    && (forall k :: 0 <= k < |d.picks| ==> d.picks[k].user in going)
  }

  /** Everyone on a proposal's team and everyone who voted is going. */
  ghost predicate RoundGoing(r: V.Round, going: seq<UserId>) {
    && (forall p, u :: p in r.proposals && u in Flatten(p.teams) ==> u in going)
    && (forall u :: u in r.votes ==> u in going)
  }

  ghost predicate FormationGoing(drafts: seq<D.Draft>, rounds: seq<V.Round>, going: seq<UserId>) {
    && (forall i :: Runs(drafts, i) ==> DraftGoing(drafts[i], going))
    && (forall i :: IsOpen(rounds, i) ==> RoundGoing(rounds[i], going))
  }

  lemma DraftHoldsIff(d: D.Draft, going: seq<UserId>, now: seq<UserId>)
    requires DraftHolds(d, going)
    ensures DraftHolds(d, now) <==> DraftGoing(d, now)
  {
    hide D.Available, D.SideForTurn, ValidConfig;
    if DraftHolds(d, now) {
      assert forall k :: 0 <= k < |d.picks| ==> D.InPlay(d, now, d.picks[k].user);
    }
    if DraftGoing(d, now) {
      forall k | 0 <= k < |d.picks| ensures D.InPlay(d, now, d.picks[k].user) {
        assert D.InPlay(d, going, d.picks[k].user);
      }
    }
  }

  lemma RoundHoldsIff(r: V.Round, s: Session, going: seq<UserId>, now: seq<UserId>)
    requires RoundHolds(r, s, going)
    ensures RoundHolds(r, s, now) <==> RoundGoing(r, now)
  {
    hide V.Options, ValidConfig;
    if RoundHolds(r, s, now) {
      forall p, u | p in r.proposals && u in Flatten(p.teams) ensures u in now {
        assert V.FitsRound(p, r, now);
      }
      forall u | u in r.votes ensures u in now {
        assert V.StandingVote(r, now, u);
      }
    }
    if RoundGoing(r, now) {
      forall p | p in r.proposals ensures V.FitsRound(p, r, now) {
        assert V.FitsRound(p, r, going);
      }
      forall u | u in r.votes ensures V.StandingVote(r, now, u) {
        assert V.StandingVote(r, going, u);
      }
    }
  }

  /** Rosters that held of some rows hold of others exactly when they name only people going there. */
  lemma RostersOnRowsIff(w: World, rows: seq<Row>)
    requires RostersGoing(w)
    ensures RostersGoing(w.(rows := rows)) <==> FormationGoing(w.drafts, w.rounds, GoingIds(rows))
  {
    var w', going, now := w.(rows := rows), GoingIds(w.rows), GoingIds(rows);
    assert w'.drafts == w.drafts && w'.rounds == w.rounds && w'.session == w.session;
    hide GoingIds, DraftHolds, RoundHolds, DraftGoing, RoundGoing;
    forall i | Runs(w.drafts, i) ensures DraftHolds(w.drafts[i], now) <==> DraftGoing(w.drafts[i], now) {
      DraftHoldsIff(w.drafts[i], going, now);
    }
    forall i | IsOpen(w.rounds, i)
      ensures RoundHolds(w.rounds[i], w.session, now) <==> RoundGoing(w.rounds[i], now) {
      RoundHoldsIff(w.rounds[i], w.session, going, now);
    }
  }

  ghost predicate NothingOpen(p: Plan) {
    forall i :: !Runs(p.drafts, i) && !IsOpen(p.rounds, i)
  }

  lemma FinishingEndsFormation(w: World, cmd: Command, going: seq<UserId>)
    requires Sturdy(w) && Shaped(w) && (cmd.DoPick? || cmd.DoReplaceCaptain? || cmd.DoStartDraft?)
    ensures PlanOf(w, cmd, going).Ok? ==>
      PlanOf(w, cmd, going).value.effect.Untouched? || NothingOpen(PlanOf(w, cmd, going).value)
  {
    ActiveDraftIs(w.drafts);
    OpenRoundIs(w.rounds);
    if ActiveDraft(w.drafts).Some? {
      RunningDraftFits(w, ActiveDraft(w.drafts).value);
    }
    hide Sturdy, LastWhere, FreshTeams, D.Available, V.Options, D.Roster;
  }

  lemma ClosingEndsFormation(w: World, actor: Actor, winner: Option<Choice>)
    requires Sturdy(w) && Shaped(w) && ClosePlan(w, actor, winner).Ok?
    ensures NothingOpen(ClosePlan(w, actor, winner).value)
  {
    OpenRoundIs(w.rounds);
    var i := OpenRound(w.rounds).value;
    OpenRoundFits(w, i);
    hide Sturdy, LastWhere, FreshTeams, V.ClosingChoice, V.Options;
    var p := ClosePlan(w, actor, winner).value;
    assert p.drafts == w.drafts && p.rounds[i].status != V.Open;
    assert forall j :: IsOpen(p.rounds, j) ==> j != i && IsOpen(w.rounds, j);
  }

  lemma CreatingEndsFormation(w: World, actor: Actor, teamCount: Option<int>, minPlayers: Option<int>)
    requires Sturdy(w) && CreatePlan(w, actor, teamCount, minPlayers).Ok?
    ensures NothingOpen(CreatePlan(w, actor, teamCount, minPlayers).value)
  {
    ActiveDraftIs(w.drafts);
    OpenRoundIs(w.rounds);
    if OpenRound(w.rounds).Some? {
      OpenRoundFits(w, OpenRound(w.rounds).value);
    }
    hide Sturdy, LastWhere, FreshTeams;
    var p := CreatePlan(w, actor, teamCount, minPlayers).value;
    assert p.drafts == w.drafts;
    assert forall j :: IsOpen(p.rounds, j) ==> IsOpen(w.rounds, j) && OpenRound(w.rounds) != Some(j);
  }

  /** A plan that moves people leaves no draft running and no vote open. */
  lemma MovingEndsFormation(w: World, cmd: Command, going: seq<UserId>)
    requires Sturdy(w) && Shaped(w) && IsFormation(cmd) && PlanOf(w, cmd, going).Ok?
    ensures PlanOf(w, cmd, going).value.effect.Untouched? || NothingOpen(PlanOf(w, cmd, going).value)
  {
    hide Sturdy, Shaped, LastWhere, ClosePlan, CreatePlan, D.NewDraft, D.Picked, D.CaptainNamed, NothingOpen;
    match cmd
    case DoStartDraft(_, _, _, _, _) => FinishingEndsFormation(w, cmd, going);
    case DoPick(_, _) => FinishingEndsFormation(w, cmd, going);
    case DoReplaceCaptain(_, _, _) => FinishingEndsFormation(w, cmd, going);
    case DoClose(actor, winner) => ClosingEndsFormation(w, actor, winner);
    case DoCreateTeams(actor, teamCount, minPlayers) => CreatingEndsFormation(w, actor, teamCount, minPlayers);
    case DoResetTeams(actor) => ResettingEndsFormation(w, actor, going);
    case DoCancelDraft(_) =>
    case DoPropose(_, _) =>
    case DoVote(_, _) =>
    case DoRetractVote(_) =>
    case DoWithdraw(_, _) =>
  }

  lemma ResettingEndsFormation(w: World, actor: Actor, going: seq<UserId>)
    requires ResetPlan(w, actor, going).Ok?
    ensures var p := ResetPlan(w, actor, going).value; p.effect.Untouched? || NothingOpen(p)
  {
    hide LastWhere;
  }

  /** Rosters hold after the commit exactly when everyone the running draft or open vote names - as
      captain, player picked, member of a proposal or voter - is still going, and a draft that goes
      on still has someone left to pick. A captain, a pick, a proposal or a vote accepted by the ids
      read before a rejection fails it just when it names whom that rejected, or leaves nobody else. */
  lemma FormationCommitKeepsInvIff(w: World, h: Holder)
    requires Inv(w) && RequestsFit(w.rows) && HolderFits(w, h) && CanCommit(w, h) && h.HasTable? && SeenOnTeam(w, h)
    ensures var w' := CommitOf(w, h);
      Inv(w') <==> FormationGoing(w'.drafts, w'.rounds, GoingIds(w.rows))
  {
    InvIsSturdy(w);
    InvAsRead(w, h);
    TableCommitKeepsSturdy(w, h);
    var w', a := FormedAt(w, h.cmd, h.read), AppliedOnRead(w, h);
    InvIsSturdy(w');
    InvIsSturdy(a);
    SturdyAsRead(w, h);
    FormedNamesThoseThere(w, h);
    hide Inv, Sturdy, Shaped, FormedAt, AppliedOnRead, GoingIds, RostersGoing, FormationGoing;
    RostersOnRowsIff(a, w'.rows);
    if w'.rows != w.rows {
      NothingLeftToHold(w', GoingIds(w.rows), GoingIds(w'.rows));
    }
  }

  lemma NothingLeftToHold(w: World, a: seq<UserId>, b: seq<UserId>)
    requires NothingGoesOn(w)
    ensures FormationGoing(w.drafts, w.rounds, a) && FormationGoing(w.drafts, w.rounds, b)
  {
  }

  /** The rosters held of the rows as read, where more were going, and the command kept them so. */
  lemma InvAsRead(w: World, h: Holder)
    requires Inv(w) && HolderFits(w, h) && CanCommit(w, h) && h.HasTable? && SeenOnTeam(w, h)
    ensures Inv(AppliedOnRead(w, h))
  {
    FormedIsApplied(w, h.cmd, h.read);
    GoingNarrows(h.read, w.rows);
    hide Inv, Shaped, Legal, Apply, FormedAt, GoingIds, RejectedOnly, OneRowEach, RequestsFit;
    RowsOnly(w, h.read);
    StepKeepsInv(w.(rows := h.read), h.cmd);
  }

  /** Where a draft runs or a vote is open afterwards, no row has been touched. */
  lemma FormedNamesThoseThere(w: World, h: Holder)
    requires Sturdy(w) && CanCommit(w, h) && h.HasTable?
    ensures var w' := FormedAt(w, h.cmd, h.read);
      w'.rows == w.rows || NothingGoesOn(w')
  {
    hide Sturdy, Shaped, PlanOf, GoingIds, MovesOf, WrittenRow, Runs, IsOpen;
    var p := PlanOf(w, h.cmd, GoingIds(h.read));
    if p.Ok? {
      MovingEndsFormation(w, h.cmd, GoingIds(h.read));
      if p.value.effect.Untouched? {
        UntouchedRowsStay(w.rows, h.read);
      }
    }
  }

  lemma UntouchedRowsStay(rows: seq<Row>, read: seq<Row>)
    requires |rows| == |read|
    ensures WrittenRows(rows, read, Untouched) == rows
  {
  }

  // ---- Every step and every interleaving ----

  lemma EffectedKeepsGoing(w: World, h: Holder)
    requires OneRowEach(w.rows) && HolderFits(w, h) && h.Ready? && !h.freed
    ensures forall u :: u in GoingIds(w.rows) ==> u in GoingIds(Effected(w, h.own).rows)
  {
    OwnFits(w, h);
    hide GoingIds, LastWhere, Decide, IsNextInLine;
    match h.own
    case Insert(c) =>
      GoingAppend(w.rows, c.row);
    case SetRow(i, c) =>
      forall u | u in GoingIds(w.rows) ensures u in GoingIds(Effected(w, h.own).rows) {
        GoingStays(w.rows, i, w.rows[i].(status := c.row.status, team := c.row.team), u);
      }
    case SoftDelete(i, _) =>
      forall u | u in GoingIds(w.rows) ensures u in GoingIds(Effected(w, h.own).rows) {
        GoingStays(w.rows, i, w.rows[i].(deleted := true, team := None), u);
      }
  }

  /** A command on one attendee's row keeps the invariant whatever it read: it adds people, or resets
      the formation. */
  lemma OwnCommitKeepsInv(w: World, h: Holder)
    requires Inv(w) && HolderFits(w, h) && h.Ready? && SeenOnTeam(w, h)
    ensures Inv(Committed(w, h.own, h.freed, h.next, h.going, h.cmd.user))
  {
    InvIsSturdy(w);
    OwnCommitKeepsSturdy(w, h);
    if !h.freed {
      EffectedKeepsGoing(w, h);
      var w1 := Effected(w, h.own);
      InvIsSturdy(w1);
      assert Committed(w, h.own, false, h.next, h.going, h.cmd.user) == w1;
      hide Inv, Sturdy, GoingIds, HolderFits, Committed;
      RostersHoldOn(w, w1.rows);
      EffectedKeepsFormation(w, h.own);
      RostersIgnoreOutbox(w.(rows := w1.rows), w1.outbox);
    }
  }

  lemma EffectedKeepsFormation(w: World, own: Own)
    ensures var w1 := Effected(w, own); w1 == w.(rows := w1.rows, outbox := w1.outbox)
  {
  }

  lemma RostersIgnoreOutbox(w: World, outbox: seq<Event>)
    requires RostersGoing(w)
    ensures RostersGoing(w.(outbox := outbox))
  {
    hide GoingIds, DraftHolds, RoundHolds;
  }

  /** The step leaves only people going on a roster. */
  ghost predicate KeepsRosters(sys: System, step: Step) {
    var w, h := sys.world, sys.holder;
    match step
    case RejectCommits(tx) =>
      tx in sys.rejects && sys.rejects[tx].index < |w.rows| ==>
        !IsGoing(w.rows[sys.rejects[tx].index]) || SparesFormation(w, sys.rejects[tx].row.user)
    case Commit =>
      CanCommit(w, h) && h.HasTable? ==>
        FormationGoing(CommitOf(w, h).drafts, CommitOf(w, h).rounds, GoingIds(w.rows))
    case _ => true
  }

  /** Of all the steps of all transactions only a rejection, and a draft or vote that read who is
      going before one, can break the session invariant; and each does exactly when this says. */
  lemma StepKeepsInvIff(sys: System, step: Step)
    requires SystemInv(sys) && SturdySystem(sys) && Inv(sys.world) && After(sys, step).Some?
    ensures Inv(After(sys, step).value.world) <==> KeepsRosters(sys, step)
  {
    var w, h := sys.world, sys.holder;
    hide Inv, Sturdy, GoingIds, LastWhere, Committed, FormedAt, RejectedAt, Apply, Shaped, Legal, HolderFits,
         OneRowEach, RequestsFit, SeenOnTeam, SparesFormation, FormationGoing;
    if step.Commit? {
      if h.HasTable? {
        FormationCommitKeepsInvIff(w, h);
      } else {
        OwnCommitKeepsInv(w, h);
      }
    } else if step.RejectCommits? {
      RejectKeepsInvIff(w, sys.rejects[step.tx]);
    } else if step.OtherCommand? {
      StepKeepsInv(w, step.other);
    } else {
      QuietStepKeepsWorld(sys, step);
    }
  }

  ghost predicate AllKeepRosters(sys: System, steps: seq<Step>)
    decreases |steps|
  {
    steps == [] || (KeepsRosters(sys, steps[0])
      && (After(sys, steps[0]).Some? ==> AllKeepRosters(After(sys, steps[0]).value, steps[1..])))
  }

  /** So an interleaving free of those two keeps rosters of people going only. */
  lemma {:induction false} InterleavingKeepsInv(sys: System, steps: seq<Step>, sys': System)
    requires SystemInv(sys) && SturdySystem(sys) && Inv(sys.world)
    requires Trace(sys, steps, sys') && AllKeepRosters(sys, steps)
    ensures Inv(sys'.world)
    decreases |steps|
  {
    hide SystemInv, SturdySystem, Inv, After, KeepsRosters;
    if steps != [] {
      StepKeepsInvIff(sys, steps[0]);
      StepKeepsSystemInv(sys, steps[0]);
      StepKeepsSturdy(sys, steps[0]);
      InterleavingKeepsInv(After(sys, steps[0]).value, steps[1..], sys');
    }
  }

  // ---- It does break a roster ----

  // A team sport that needs approval, with two people going and one request.
  const TEAM_SPORT: Session := Session(1, true, true, Scheduled, None, true, 0, None, [], NoSource)
  const ROW5: Row := Row(5, Going, AutoConfirmed, None, 0, false)

  function TeamSport(row: Row, drafts: seq<D.Draft>, outbox: seq<Event>): World {
    World(TEAM_SPORT, [row, ROW4, ROW5], drafts, [], outbox, 0)
  }

  const STARTED: D.Draft := D.Draft(D.Alternate, D.Active, 2, 4, TeamConfig(2, None), 0, [], 1)

  lemma GoingOfThree(a: Row, b: Row, c: Row)
    ensures GoingIds([a, b, c])
         == (if IsGoing(a) then [a.user] else []) + (if IsGoing(b) then [b.user] else [])
           + (if IsGoing(c) then [c.user] else [])
  {
    assert [a, b, c] == ([a] + [b]) + [c] && [a] == [] + [a];
    GoingAppend([], a);
    GoingAppend([a], b);
    GoingAppend([a] + [b], c);
    assert GoingIds([]) == [];
  }

  lemma TeamSportIsSound(w: World)
    requires w == TeamSport(Row2(Pending), [], [])
    ensures Inv(w)
  {
    hide LastWhere, GoingIds, DraftHolds, RoundHolds;
  }

  lemma RequestIsRead() returns (sys: System, s1: System)
    ensures sys == System(TeamSport(Row2(Pending), [], []), Idle, map[]) && s1 == sys.(rejects := map[0 := REJECTING2])
    ensures SystemInv(sys) && Inv(sys.world) && Trace(sys, [RejectReads(0, 2, MANAGER)], s1)
  {
    sys := System(TeamSport(Row2(Pending), [], []), Idle, map[]);
    s1 := sys.(rejects := map[0 := REJECTING2]);
    LookFinds(sys.world.rows, 2, 0);
    TeamSportIsSound(sys.world);
    hide LastWhere, GoingIds, Look, Inv;
    OneStep(sys, RejectReads(0, 2, MANAGER), s1);
  }

  lemma RequestIsApproved(s1: System) returns (steps: seq<Step>, s2: System)
    requires s1 == System(TeamSport(Row2(Pending), [], []), Idle, map[0 := REJECTING2])
    ensures s2 == s1.(world := TeamSport(Row2(Going), [], [JoinApproved(2, 1)])) && Trace(s1, steps, s2)
  {
    LookFinds(s1.world.rows, 2, 0);
    GoingOfThree(Row2(Pending), ROW4, ROW5);
    hide LastWhere, GoingIds, Look, Trace;
    var approval := Decision(SetRow(0, Change(Row2(Going), [JoinApproved(2, 1)])), false);
    steps, s2 := WholeCommand(s1, DoApprove(2, MANAGER), approval);
    assert s2.world.rows == [Row2(Going), ROW4, ROW5];
  }

  lemma DraftStarts(w: World)
    requires w == TeamSport(Row2(Going), [], w.outbox)
    ensures StartDraft(w, MANAGER, 2, 4, D.Alternate, None)
         == Ok(TeamSport(Row2(Going), [STARTED], w.outbox + [DraftStarted(1), TurnChanged(0)]))
  {
    GoingOfThree(Row2(Going), ROW4, ROW5);
    ActiveDraftIs(w.drafts);
    OpenRoundIs(w.rounds);
    hide LastWhere, GoingIds, D.Available;
    var going := [2, 4, 5];
    assert GoingIds(w.rows) == going;
    assert D.Free(STARTED, 5) && 5 in going;
    assert 5 in D.Available(STARTED, going);
    assert NewTeamConfig(Some(2), None) == Ok(TeamConfig(2, None));
    assert [] + [STARTED] == [STARTED];
    assert D.Settled(STARTED, going, [DraftStarted(1)]) == D.DraftChange(STARTED, [DraftStarted(1), TurnChanged(0)]);
  }

  /** The transaction of a draft, vote or teams command, up to its commit. */
  lemma ReadsTable(sys: System, cmd: Command) returns (steps: seq<Step>, read: System)
    requires sys.holder.Idle? && IsFormation(cmd)
    ensures read == sys.(holder := HasTable(cmd, Confirmed(sys.world.rows), sys.world.rows)) && Trace(sys, steps, read)
  {
    hide GoingIds, Trace;
    var s1 := sys.(holder := Locked(cmd, Confirmed(sys.world.rows)));
    read := sys.(holder := HasTable(cmd, Confirmed(sys.world.rows), sys.world.rows));
    OneStep(s1, ReadTable, read);
    steps := Prepend(sys, TakeLock(cmd), s1, [ReadTable], read);
  }

  lemma DraftApplied(w: World)
    requires Shaped(w) && Legal(w, DoStartDraft(MANAGER, 2, 4, D.Alternate, None))
    requires w == TeamSport(Row2(Going), [], w.outbox)
    ensures Apply(w, DoStartDraft(MANAGER, 2, 4, D.Alternate, None))
         == TeamSport(Row2(Going), [STARTED], w.outbox + [DraftStarted(1), TurnChanged(0)])
  {
    DraftStarts(w);
    hide StartDraft, Shaped, Legal, LastWhere, GoingIds;
  }

  /** A draft started on rows read with the second user going, whatever became of that row since. */
  lemma DraftCommits(read: System, row: Row, outbox: seq<Event>)
    requires read.world == TeamSport(row, [], outbox) && row.user == 2
    requires read.holder.HasTable? && read.holder.read == [Row2(Going), ROW4, ROW5]
    requires read.holder.cmd == DoStartDraft(MANAGER, 2, 4, D.Alternate, None)
    ensures After(read, Commit) == Some(read.(holder := Idle,
      world := TeamSport(row, [STARTED], outbox + [DraftStarted(1), TurnChanged(0)])))
  {
    ShapedIs(read.world);
    hide Apply, FormedAt, Shaped, Legal;
    assert read.world.(rows := read.holder.read) == TeamSport(Row2(Going), [], outbox);
    FormedIsApplied(read.world, read.holder.cmd, read.holder.read);
    DraftApplied(TeamSport(Row2(Going), [], outbox));
    FormedUntouched(read.world, read.holder);
  }

  lemma FormedUntouched(w: World, h: Holder)
    requires CanCommit(w, h) && h.HasTable? && h.cmd.DoStartDraft? && !w.session.HasTeams()
    requires !AppliedOnRead(w, h).session.HasTeams()
    ensures FormedAt(w, h.cmd, h.read).rows == w.rows
  {
    FormedIsApplied(w, h.cmd, h.read);
    hide GoingIds, LastWhere, Shaped, Legal, Apply, D.NewDraft, FreshTeams, MovesOf, D.Roster;
    var p := PlanOf(w, h.cmd, GoingIds(h.read));
    if p.Ok? && p.value.effect.Untouched? {
      UntouchedRowsStay(w.rows, h.read);
    }
  }

  /** From a sound session: a request is approved while a rejection of it is under way, the approved
      attendee becomes captain of a draft, and then the rejection commits. The draft runs on with a
      captain who is not going. */
  lemma LateRejectLosesACaptain() returns (sys: System, steps: seq<Step>, sys': System)
    ensures SystemInv(sys) && sys.holder.Idle? && sys.rejects == map[] && Inv(sys.world)
    ensures Trace(sys, steps, sys') && sys'.holder.Idle? && sys'.rejects == map[]
    ensures Runs(sys'.world.drafts, 0) && OnARoster(sys'.world.drafts[0], 2) && 2 !in GoingIds(sys'.world.rows)
  {
    hide GoingIds, LastWhere, Inv, SystemInv, Trace, StartDraft;
    var s1;
    sys, s1 := RequestIsRead();
    var approved, s2 := RequestIsApproved(s1);
    var start := DoStartDraft(MANAGER, 2, 4, D.Alternate, None);
    var begun, s3 := ReadsTable(s2, start);
    DraftCommits(s3, Row2(Going), [JoinApproved(2, 1)]);
    var s4 := After(s3, Commit).value;
    OneStep(s3, Commit, s4);
    sys' := RejectionCommits(s4);
    TracesJoin(s3, [Commit], s4, [RejectCommits(0)], sys');
    TracesJoin(s2, begun, s3, [Commit] + [RejectCommits(0)], sys');
    var late := begun + ([Commit] + [RejectCommits(0)]);
    TracesJoin(s1, approved, s2, late, sys');
    TracesJoin(sys, [RejectReads(0, 2, MANAGER)], s1, approved + late, sys');
    steps := [RejectReads(0, 2, MANAGER)] + (approved + late);
    GoingOfThree(Row2(NotGoing), ROW4, ROW5);
    assert sys'.world.rows == [Row2(NotGoing), ROW4, ROW5];
  }

  /** The draft is the one to come late: it reads who is going, the rejection commits - breaking
      nothing, for there is no draft yet - and the draft is stored with the rejected captain. */
  lemma DraftStoresSomeoneRejected() returns (sys: System, steps: seq<Step>, before: System, after: System)
    ensures SystemInv(sys) && sys.holder.Idle? && sys.rejects == map[] && Inv(sys.world)
    ensures Trace(sys, steps, before) && before.rejects == map[] && After(before, Commit) == Some(after)
    ensures 2 !in GoingIds(before.world.rows) && before.world.drafts == [] && before.world.rounds == []
    ensures Runs(after.world.drafts, 0) && OnARoster(after.world.drafts[0], 2) && 2 !in GoingIds(after.world.rows)
  {
    hide GoingIds, LastWhere, Inv, SystemInv, Trace, StartDraft, After;
    var s1;
    sys, s1 := RequestIsRead();
    var approved, s2 := RequestIsApproved(s1);
    var begun, s3 := ReadsTable(s2, DoStartDraft(MANAGER, 2, 4, D.Alternate, None));
    before := RejectionCommits(s3);
    assert before.world.rows == [Row2(NotGoing), ROW4, ROW5];
    GoingOfThree(Row2(NotGoing), ROW4, ROW5);
    DraftCommits(before, Row2(NotGoing), before.world.outbox);
    after := After(before, Commit).value;
    TracesJoin(s2, begun, s3, [RejectCommits(0)], before);
    var late := begun + [RejectCommits(0)];
    TracesJoin(s1, approved, s2, late, before);
    TracesJoin(sys, [RejectReads(0, 2, MANAGER)], s1, approved + late, before);
    steps := [RejectReads(0, 2, MANAGER)] + (approved + late);
  }
}
