/** What forming teams by a draft or a vote achieves when commands run one after another: everyone on
    a roster is going, and afterwards is stored on exactly the team of their place on it. */
module SessionTeams {
  import opened Wrappers
  import opened Sequences
  import opened ActivityTypes
  import opened Attendees
  import opened SessionWorld
  import opened SessionInvariants
  import opened SessionLog
  import D = Drafts
  import V = Voting

  // ---- Rosters hold only people going ----

  predicate OnARoster(d: D.Draft, user: UserId) {
    user in D.Roster(d, D.SideA) || user in D.Roster(d, D.SideB)
  }

  /** In every state of a serial run, whoever is on a side of a running draft or on a team of an open
      proposal is going, so skipping someone missing when teams are replaced does not happen there.
      A rejection that takes no lock can make it happen: see RejectKeepsInvIff. */
  lemma RostersHoldOnlyPeopleGoing(w: World, user: UserId)
    requires Inv(w)
    ensures forall i :: Runs(w.drafts, i) && OnARoster(w.drafts[i], user) ==> user in GoingIds(w.rows)
    ensures forall i, p :: IsOpen(w.rounds, i) && p in w.rounds[i].proposals && user in Flatten(p.teams) ==>
      user in GoingIds(w.rows)
  {
    hide GoingIds, D.Available, D.Roster;
    forall i | Runs(w.drafts, i) && OnARoster(w.drafts[i], user) ensures user in GoingIds(w.rows) {
      assert DraftHolds(w.drafts[i], GoingIds(w.rows));
      var side := if user in D.Roster(w.drafts[i], D.SideA) then D.SideA else D.SideB;
      D.RostersAreGoing(w.drafts[i], GoingIds(w.rows), side, user);
    }
    forall i, p | IsOpen(w.rounds, i) && p in w.rounds[i].proposals && user in Flatten(p.teams)
      ensures user in GoingIds(w.rows) {
      assert V.FitsRound(p, w.rounds[i], GoingIds(w.rows));
    }
  }

  // ---- Where a roster puts its members ----

  lemma {:induction false} NamedOnce(user: UserId, roster: seq<UserId>, position: nat)
    requires Distinct(roster)
    ensures Times(user, roster, position) == (if user in roster then [position] else [])
  {
    if roster != [] {
      NamedOnce(user, roster[..|roster| - 1], position);
      assert roster == roster[..|roster| - 1] + [roster[|roster| - 1]];
    }
  }

  lemma DistinctParts(a: seq<UserId>, b: seq<UserId>)
    requires Distinct(a + b)
    ensures Distinct(a) && Distinct(b) && forall u :: u in a ==> u !in b
  {
    forall i, j | 0 <= i < j < |a| ensures a[i] != a[j] {
      assert (a + b)[i] != (a + b)[j];
    }
    forall i, j | 0 <= i < j < |b| ensures b[i] != b[j] {
      assert (a + b)[|a| + i] != (a + b)[|a| + j];
    }
    forall i, j | 0 <= i < |a| && 0 <= j < |b| ensures a[i] != b[j] {
      assert (a + b)[i] != (a + b)[|a| + j];
    }
  }

  /** With disjoint rosters a user is placed once if on a roster, and not at all otherwise. */
  lemma {:induction false} PlacedNowhere(user: UserId, rosters: seq<seq<UserId>>)
    requires user !in Flatten(rosters)
    ensures Placements(user, rosters) == []
  {
    if rosters != [] {
      var n := |rosters| - 1;
      PlacedNowhere(user, rosters[..n]);
      TimesAre(user, rosters[n], n);
      hide Times;
    }
  }

  /** With disjoint rosters a user on one of them is placed once. */
  lemma {:induction false} PlacedOnce(user: UserId, rosters: seq<seq<UserId>>, p: nat)
    requires Distinct(Flatten(rosters)) && p < |rosters| && user in rosters[p]
    ensures Placements(user, rosters) == [p]
  {
    var n := |rosters| - 1;
    var init := rosters[..n];
    DistinctParts(Flatten(init), rosters[n]);
    NamedOnce(user, rosters[n], n);
    hide Times, Distinct;
    if p < n {
      assert init[p] == rosters[p];
      PlacedOnce(user, init, p);
      FlattenHas(init, user);
    } else {
      PlacedNowhere(user, init);
    }
  }

  lemma GoingIsLiveAndHolds(w: World, user: UserId)
    requires OneRowEach(w.rows)
    ensures LiveRow(w.rows, user).Some? ==> LiveRow(w.rows, user).value < |w.rows|
    ensures user in GoingIds(w.rows) <==>
      (LiveRow(w.rows, user).Some? && IsGoing(w.rows[LiveRow(w.rows, user).value]))
  {
    hide LastWhere, GoingIds;
    LiveRowIs(w.rows, user);
    GoingHas(w.rows, user);
    if user in GoingIds(w.rows) {
      var k :| 0 <= k < |w.rows| && GoesAt(w.rows, k, user);
      var i := LiveRow(w.rows, user).value;
      assert k == i;
    } else if LiveRow(w.rows, user).Some? {
      var i := LiveRow(w.rows, user).value;
      assert !GoesAt(w.rows, i, user);
    }
  }

  /** The team each user ends up on when disjoint rosters replace the teams. */
  lemma ReplacedTeamOf(w: World, formed: FormedTeams, config: TeamConfig, source: TeamsSource, who: UserId,
                       before: seq<Event>, user: UserId)
    requires |formed.rosters| == |formed.assignedBy| == config.teamCount
    requires OneRowEach(w.rows) && Distinct(Flatten(formed.rosters))
    ensures var w' := ReplaceTeams(w, formed, config, source, who, before);
      && |w'.session.teams| == |formed.rosters|
      && (forall p :: 0 <= p < |formed.rosters| && user in formed.rosters[p] && user in GoingIds(w.rows) ==>
            TeamOf(w'.rows, user) == Some(w'.session.teams[p]))
      && (user !in Flatten(formed.rosters) || user !in GoingIds(w.rows) ==> TeamOf(w'.rows, user) == None)
  {
    var w' := ReplaceTeams(w, formed, config, source, who, before);
    hide Placements, LastWhere, GoingIds, AllMoves, Placed, TeamOf, FreshTeams;
    PlacedTeamOf(w.rows, formed.rosters, w'.session.teams, user);
    if user !in Flatten(formed.rosters) {
      PlacedNowhere(user, formed.rosters);
    }
    forall p | 0 <= p < |formed.rosters| && user in formed.rosters[p] ensures Placements(user, formed.rosters) == [p] {
      PlacedOnce(user, formed.rosters, p);
    }
    GoingIsLiveAndHolds(w, user);
  }

  /** When a draft completes, everyone going is stored on the team of their side, two teams whose
      sizes differ by at most one, and nobody else is on a team. */
  lemma CompletedDraftPlacesEveryone(w: World, c: D.DraftChange, user: UserId)
    requires OneRowEach(w.rows) && c.draft.status == D.Finished && D.Settles(c.draft, GoingIds(w.rows))
    ensures var w' := Finish(w, c);
      && |w'.session.teams| == 2 && w'.session.teamsSource == ByDraft
      && (user in GoingIds(w.rows) <==> TeamOf(w'.rows, user).Some?)
      && (user in D.Roster(c.draft, D.SideA) <==> TeamOf(w'.rows, user) == Some(w'.session.teams[0]))
      && (user in D.Roster(c.draft, D.SideB) <==> TeamOf(w'.rows, user) == Some(w'.session.teams[1]))
      && -1 <= |D.Roster(c.draft, D.SideA)| - |D.Roster(c.draft, D.SideB)| <= 1
  {
    var a, b := D.Roster(c.draft, D.SideA), D.Roster(c.draft, D.SideB);
    var formed := DraftTeams(c.draft);
    D.CompletedDraftSplitsEveryone(c.draft, GoingIds(w.rows));
    TwoFlat(a, b);
    DistinctParts(a, b);
    hide GoingIds, D.Available, D.Roster, D.FairSoFar, ReplaceTeams, TeamOf;
    ReplacedTeamOf(w, formed, c.draft.config, ByDraft, c.draft.startedBy, c.events, user);
    assert formed.rosters[0] == a && formed.rosters[1] == b;
    TeamsDiffer(w, formed, c.draft.config, ByDraft, c.draft.startedBy, c.events);
  }

  lemma TwoFlat(a: seq<UserId>, b: seq<UserId>)
    ensures Flatten([a, b]) == a + b
  {
    assert [a, b][..1] == [a] && [a][..0] == [];
    assert Flatten([a]) == [] + a;
  }

  lemma TeamsDiffer(w: World, formed: FormedTeams, config: TeamConfig, source: TeamsSource, who: UserId,
                    before: seq<Event>)
    requires |formed.rosters| == |formed.assignedBy| == config.teamCount
    ensures var w' := ReplaceTeams(w, formed, config, source, who, before);
      Distinct(w'.session.teams) && w'.session.teamsSource == source && |w'.session.teams| == config.teamCount
  {
    hide Placed, AllMoves;
  }

  /** A vote won by a proposal puts everyone it names on the team it names them for; people who
      joined since are on none. */
  lemma WonVotePlacesTheProposal(w: World, actor: Actor, winner: Option<Choice>, i: nat, c: V.Closing, user: UserId)
    requires Inv(w) && Shaped(w) && OpenRound(w.rounds) == Some(i) && i < |w.rounds| && w.rounds[i] in w.rounds
    requires V.Options(w.rounds[i]) != [] && V.ClosedBy(w.rounds[i], w.session, actor, winner) == Ok(c)
    ensures CloseVoting(w, actor, winner).Ok?
    ensures var w' := CloseVoting(w, actor, winner).value;
      match c.winning
      case None => w'.session == w.session && w'.rows == w.rows
      case Some(p) =>
        && p in w.rounds[i].proposals
        && |w'.session.teams| == |p.teams| && w'.session.teamsSource == ByVote
        && (forall k :: 0 <= k < |p.teams| && user in p.teams[k] ==> TeamOf(w'.rows, user) == Some(w'.session.teams[k]))
        && (user !in Flatten(p.teams) ==> TeamOf(w'.rows, user).None?)
  {
    hide GoingIds, LastWhere, TeamOf, ReplaceTeams, V.ClosingChoice, V.Sound, V.Options;
    OpenRoundIs(w.rounds);
    OpenRoundHolds(w, i);
    InvTables(w);
    if c.winning.Some? {
      V.WinningProposalFits(w.rounds[i], w.session, actor, winner, GoingIds(w.rows));
      var p := c.winning.value;
      var w1 := w.(rounds := w.rounds[i := c.round]);
      var formed := FormedTeams(p.teams, seq(|p.teams|, _ => actor.user), actor.user);
      ReplacedTeamOf(w1, formed, c.round.Config(), ByVote, actor.user, c.events, user);
      TeamsDiffer(w1, formed, c.round.Config(), ByVote, actor.user, c.events);
      FlattenHas(p.teams, user);
    }
  }

  // ---- Who is named as having assigned whom ----

  /** An assignment names the roster's own team and assigner, and someone on the roster. */
  ghost predicate Attributed(formed: FormedTeams, teams: seq<TeamId>, e: Event)
    requires |formed.rosters| == |formed.assignedBy| == |teams|
  {
    e.TeamAssigned? ==> exists p :: 0 <= p < |teams| && NamesRoster(formed, teams, p, e)
  }

  predicate NamesRoster(formed: FormedTeams, teams: seq<TeamId>, p: int, e: Event)
    requires |formed.rosters| == |formed.assignedBy| == |teams| && 0 <= p < |teams| && e.TeamAssigned?
  {
    e.team == teams[p] && e.who == formed.assignedBy[p] && e.user in formed.rosters[p]
  }

  lemma {:induction false} PlacedWhereNamed(user: UserId, rosters: seq<seq<UserId>>, k: nat)
    requires k < |Placements(user, rosters)|
    ensures user in rosters[Placements(user, rosters)[k]]
  {
    var n := |rosters| - 1;
    TimesAre(user, rosters[n], n);
    if k < |Placements(user, rosters[..n])| {
      PlacedWhereNamed(user, rosters[..n], k);
    }
  }

  lemma {:induction false} MovesAreAttributed(rows: seq<Row>, hadTeams: bool, formed: FormedTeams, teams: seq<TeamId>,
                                              e: Event)
    requires |formed.rosters| == |formed.assignedBy| == |teams| && e in AllMoves(rows, hadTeams, formed, teams)
    ensures Attributed(formed, teams, e)
  {
    hide Placements;
    var init, last := rows[..|rows| - 1], rows[|rows| - 1];
    if e in AllMoves(init, hadTeams, formed, teams) {
      MovesAreAttributed(init, hadTeams, formed, teams, e);
    } else if e.TeamAssigned? {
      var places := Placements(last.user, formed.rosters);
      var k :| 0 <= k < |places| && AssignedEvents(last.user, places, teams, formed.assignedBy)[k] == e;
      PlacedWhereNamed(last.user, formed.rosters, k);
      assert NamesRoster(formed, teams, places[k], e);
    }
  }

  lemma ReplaceAttributes(w: World, formed: FormedTeams, config: TeamConfig, source: TeamsSource, who: UserId,
                          before: seq<Event>, k: nat)
    requires |formed.rosters| == |formed.assignedBy| == config.teamCount
    requires forall e :: e in before ==> !e.TeamAssigned?
    ensures var w' := ReplaceTeams(w, formed, config, source, who, before);
      |w'.session.teams| == config.teamCount
      && (|w.outbox| <= k < |w'.outbox| ==> Attributed(formed, w'.session.teams, w'.outbox[k]))
  {
    var change := WithTeams(w.session, config, source, who, w.nextId);
    var moves := AllMoves(w.rows, w.session.HasTeams(), formed, change.session.teams);
    var news := before + (change.events + moves);
    hide AllMoves, Placed, FreshTeams, NamesRoster;
    var w' := ReplaceTeams(w, formed, config, source, who, before);
    assert w'.outbox == w.outbox + news && w'.session.teams == change.session.teams;
    if |w.outbox| <= k < |w'.outbox| {
      var e := w'.outbox[k];
      assert e == news[k - |w.outbox|];
      if e in moves {
        MovesAreAttributed(w.rows, w.session.HasTeams(), formed, change.session.teams, e);
      } else {
        assert e in before || e in change.events;
      }
    }
  }

  /** After a draft everyone is announced as assigned by the captain of their own side. */
  lemma CaptainsAssignTheirSides(w: World, c: D.DraftChange, k: nat)
    requires c.draft.config.teamCount == 2 && c.draft.status == D.Finished
    requires forall e :: e in c.events ==> !e.TeamAssigned?
    requires |w.outbox| <= k < |Finish(w, c).outbox| && Finish(w, c).outbox[k].TeamAssigned?
    ensures var e, teams := Finish(w, c).outbox[k], Finish(w, c).session.teams;
      && |teams| == 2
      && (|| (e.team == teams[0] && e.who == c.draft.captainA && e.user in D.Roster(c.draft, D.SideA))
          || (e.team == teams[1] && e.who == c.draft.captainB && e.user in D.Roster(c.draft, D.SideB)))
  {
    hide D.Roster, ReplaceTeams;
    ReplaceAttributes(w, DraftTeams(c.draft), c.draft.config, ByDraft, c.draft.startedBy, c.events, k);
    var formed, teams, e := DraftTeams(c.draft), Finish(w, c).session.teams, Finish(w, c).outbox[k];
    var p :| 0 <= p < |teams| && NamesRoster(formed, teams, p, e);
    assert p == 0 || p == 1;
  }

  /** After a vote everyone is announced as assigned by whoever closed it. */
  lemma CloserAssigns(w: World, actor: Actor, winner: Option<Choice>, k: nat)
    requires Shaped(w) && CloseVoting(w, actor, winner).Ok?
    requires |w.outbox| <= k < |CloseVoting(w, actor, winner).value.outbox|
    ensures var e := CloseVoting(w, actor, winner).value.outbox[k]; e.TeamAssigned? ==> e.who == actor.user
  {
    hide ReplaceTeams, V.ClosingChoice, LastWhere, V.Options, V.FindProposal;
    var i := OpenRound(w.rounds).value;
    var c := V.ClosedBy(w.rounds[i], w.session, actor, winner).value;
    if c.winning.Some? {
      var w1 := w.(rounds := w.rounds[i := c.round]);
      var p := c.winning.value;
      ReplaceAttributes(w1, FormedTeams(p.teams, seq(|p.teams|, _ => actor.user), actor.user), c.round.Config(), ByVote,
        actor.user, c.events, k);
    }
  }
}
