/** When a draft, vote or teams command that read the attendees before a rejection commits what it
    would have done after it (activity/internal/application/team_draft_service.go,
    team_voting_service.go and session_service.go lines 375-445). */
module StaleFormations {
  import opened Wrappers
  import opened Sequences
  import opened ActivityTypes
  import opened Attendees
  import opened SessionWorld
  import opened SessionInvariants
  import opened SessionWaitlist
  import opened Sturdiness
  import opened StaleReads
  import opened FormationCommits
  import D = Drafts
  import V = Voting

  // ---- Carrying out on old rows ----

  /** The plan takes everyone's old team away with an event each. */
  predicate TakesTeams(p: Plan) {
    p.unassigner.Some? || (p.effect.Placing? && p.effect.hadTeams)
  }

  /** Rejected since it was read going, yet the plan moves it: off its old team or onto a new one. */
  predicate Displaced(row: Row, read: Row, p: Plan)
    requires EffectFits(p.effect)
  {
    && row != read && IsGoing(read)
    && ((read.team.Some? && TakesTeams(p))
        || (p.effect.Placing? && Placements(read.user, p.effect.formed.rosters) != []))
  }

  /** Whoever was rejected since is on no new team and had no team to be taken off. */
  predicate MovesAsRead(rows: seq<Row>, p: Plan, read: seq<Row>)
    requires EffectFits(p.effect) && |rows| == |read|
  {
    forall i :: 0 <= i < |rows| ==> !Displaced(rows[i], read[i], p)
  }

  predicate PlanFits(p: Plan) {
    EffectFits(p.effect) && (p.unassigner.Some? ==> p.effect.Clearing?)
  }

  lemma WrittenAsRead(row: Row, read: Row, p: Plan)
    requires SinceRead(read, row) && PlanFits(p) && !Displaced(row, read, p)
    ensures WrittenRow(row, read, p.effect) == WrittenRow(row, row, p.effect)
  {
    hide Placements;
  }

  /** What one row adds to the moves. */
  function MovesOfRow(p: Plan, row: Row): seq<Event>
    requires PlanFits(p)
  {
    match p.effect
    case Placing(formed, hadTeams, teams) => if IsGoing(row) then MoveEvents(row, hadTeams, formed, teams) else []
    case _ =>
      if p.unassigner.Some? && !row.deleted then Released(row, Replaced, p.unassigner.value).events else []
  }

  lemma MovesByRow(p: Plan, rows: seq<Row>, row: Row)
    requires PlanFits(p)
    ensures MovesOf(p, []) == []
    ensures MovesOf(p, rows + [row]) == MovesOf(p, rows) + MovesOfRow(p, row)
  {
    assert (rows + [row])[..|rows|] == rows;
    hide MoveEvents, Released;
  }

  lemma RowMovesAsRead(p: Plan, read: Row, row: Row)
    requires PlanFits(p) && SinceRead(read, row) && RequestFits(read)
    ensures if Displaced(row, read, p) then |MovesOfRow(p, row)| < |MovesOfRow(p, read)|
            else MovesOfRow(p, row) == MovesOfRow(p, read)
  {
    hide Placements;
  }

  lemma {:induction false} MovesShrink(p: Plan, rows: seq<Row>, read: seq<Row>)
    requires PlanFits(p) && RejectedOnly(read, rows) && RequestsFit(read)
    ensures MovesAsRead(rows, p, read) ==> MovesOf(p, rows) == MovesOf(p, read)
    ensures !MovesAsRead(rows, p, read) ==> |MovesOf(p, rows)| < |MovesOf(p, read)|
  {
    hide MovesOf, Displaced, MovesOfRow;
    MovesByRow(p, rows, Row(NOBODY, Maybe, Invited, None, 0, false));
    if rows != [] {
      var n := |rows| - 1;
      assert rows == rows[..n] + [rows[n]] && read == read[..n] + [read[n]];
      MovesByRow(p, rows[..n], rows[n]);
      MovesByRow(p, read[..n], read[n]);
      assert SinceRead(read[n], rows[n]) && RequestFits(read[n]);
      RowMovesAsRead(p, read[n], rows[n]);
      MovesShrink(p, rows[..n], read[..n]);
      assert MovesAsRead(rows, p, read) <==>
        MovesAsRead(rows[..n], p, read[..n]) && !Displaced(rows[n], read[n], p) by {
        assert rows[..n][..n] == rows[..n];
        forall i | 0 <= i < n ensures rows[..n][i] == rows[i] && read[..n][i] == read[i] {
        }
      }
    }
  }

  lemma Between(a: seq<Event>, b: seq<Event>, c: seq<Event>, d: seq<Event>, e: seq<Event>)
    ensures a + (b + c + e) == a + (b + d + e) <==> c == d
  {
    if a + (b + c + e) == a + (b + d + e) {
      assert c == (a + (b + c + e))[|a| + |b|..|a| + |b| + |c|];
      assert d == (a + (b + d + e))[|a| + |b|..|a| + |b| + |d|];
    }
  }

  /** Carried out on what was read or on what is there now: the same exactly when nobody rejected
      in between is moved. */
  lemma CarriedOutAsNowIff(w: World, p: Plan, read: seq<Row>)
    requires PlanFits(p) && RejectedOnly(read, w.rows) && RequestsFit(read)
    ensures CarriedOut(w, p, read) == CarriedOut(w, p, w.rows) <==> MovesAsRead(w.rows, p, read)
  {
    MovesShrink(p, w.rows, read);
    Between(w.outbox, p.before, MovesOf(p, read), MovesOf(p, w.rows), p.after);
    hide MovesOf, Displaced, WrittenRow, RequestsFit;
    if MovesAsRead(w.rows, p, read) {
      forall i | 0 <= i < |w.rows|
        ensures WrittenRow(w.rows[i], read[i], p.effect) == WrittenRow(w.rows[i], w.rows[i], p.effect) {
        assert SinceRead(read[i], w.rows[i]) && !Displaced(w.rows[i], read[i], p);
        WrittenAsRead(w.rows[i], read[i], p);
      }
      assert WrittenRows(w.rows, read, p.effect) == WrittenRows(w.rows, w.rows, p.effect);
    }
  }

  // ---- Drafts ----

  ghost predicate Within(now: seq<UserId>, going: seq<UserId>) {
    |now| <= |going| && forall u :: u in now ==> u in going
  }

  /** A draft that goes on has someone going left to pick. */
  predicate SomeoneLeft(d: D.Draft, now: seq<UserId>) {
    d.Running() ==> D.Available(d, now) != []
  }

  lemma SettledAsNow(d: D.Draft, going: seq<UserId>, now: seq<UserId>, events: seq<Event>)
    requires Within(now, going) && d.status == D.Active
    ensures var g, n := D.Settled(d, going, events), D.Settled(d, now, events);
      && (g == n <==> SomeoneLeft(g.draft, now))
      && (g != n ==> g.draft.status != n.draft.status)
      && g.draft.config == n.draft.config == d.config && g.draft.turn == d.turn
  {
    if D.Available(d, now) != [] {
      assert D.Available(d, now)[0] in D.Available(d, going);
    }
    hide D.Available;
  }

  lemma NewDraftAsNow(s: Session, cmd: Command, going: seq<UserId>, now: seq<UserId>)
    requires Within(now, going) && cmd.DoStartDraft?
    ensures var g := D.NewDraft(s, cmd.actor, cmd.captainA, cmd.captainB, cmd.order, cmd.minPlayers, going);
      var n := D.NewDraft(s, cmd.actor, cmd.captainA, cmd.captainB, cmd.order, cmd.minPlayers, now);
      && (g.Err? ==> n.Err?)
      && (g.Ok? ==>
            && g.value.draft.config.teamCount == 2
            && (n.Ok? <==>
                  cmd.captainA in now && cmd.captainB in now && |now| >= g.value.draft.config.PlayersNeeded())
            && (n.Ok? ==> (g == n <==> SomeoneLeft(g.value.draft, now)))
            && (n.Ok? && g != n ==> g.value.draft.status != n.value.draft.status)
            && (n.Ok? ==> n.value.draft.config.teamCount == 2))
  {
    hide D.Settled, SomeoneLeft, D.Available;
    var config := NewTeamConfig(Some(2), cmd.minPlayers);
    if config.Ok? {
      var d := D.Draft(cmd.order, D.Active, cmd.captainA, cmd.captainB, config.value, 0, [], cmd.actor.user);
      SettledAsNow(d, going, now, [DraftStarted(cmd.actor.user)]);
    }
  }

  lemma PickedIs(d: D.Draft, s: Session, captain: UserId, user: UserId, going: seq<UserId>)
    ensures var r := D.Picked(d, s, captain, user, going);
      && (r.Ok? ==>
            && d.status == D.Active && D.CaptainSide(d, captain).Some? && user in going
            && r.value == D.Settled(AfterPick(d, captain, user), going, [PlayerPicked(d.turn, user, captain)]))
      && (r.Ok? <==> d.status == D.Active && TeamsLock(s).None? && D.CaptainSide(d, captain).Some?
                     && D.CaptainSide(d, captain).value == D.SideForTurn(d.order, d.turn)
                     && user in going && D.Free(d, user))
  {
    hide D.Settled, D.SideForTurn, D.Free, D.CaptainSide;
  }

  function AfterPick(d: D.Draft, captain: UserId, user: UserId): D.Draft {
    match D.CaptainSide(d, captain)
    case None => d
    case Some(side) => d.(picks := d.picks + [D.Pick(d.turn, side, user)], turn := d.turn + 1)
  }

  lemma PickedAsNow(d: D.Draft, s: Session, captain: UserId, user: UserId, going: seq<UserId>, now: seq<UserId>)
    requires Within(now, going) && d.config.teamCount == 2
    ensures var g, n := D.Picked(d, s, captain, user, going), D.Picked(d, s, captain, user, now);
      && (g.Err? ==> n.Err?)
      && (g.Ok? ==>
            && g.value.draft.config.teamCount == 2 && g.value.draft != d
            && (n.Ok? <==> user in now)
            && (n.Ok? ==> (g == n <==> SomeoneLeft(g.value.draft, now)))
            && (n.Ok? && g != n ==> g.value.draft.status != n.value.draft.status)
            && (n.Ok? ==> n.value.draft.config.teamCount == 2))
  {
    PickedIs(d, s, captain, user, going);
    PickedIs(d, s, captain, user, now);
    hide D.Settled, SomeoneLeft, D.Picked, D.CaptainSide, D.Free, D.SideForTurn;
    if D.Picked(d, s, captain, user, going).Ok? {
      SettledAsNow(AfterPick(d, captain, user), going, now, [PlayerPicked(d.turn, user, captain)]);
    }
  }

  lemma GoingWithin(read: seq<Row>, rows: seq<Row>)
    requires RejectedOnly(read, rows)
    ensures Within(GoingIds(rows), GoingIds(read))
  {
    GoingNarrows(read, rows);
  }

  // ---- Every command ----

  /** What the command decided by those going when it read is what it decides by those going now:
      the captains and the player named still are, as many as a draft needs, and a draft that goes
      on has someone left; a proposal that divides those read divides those going; the voter still
      is, or nothing changes; a reset names the same people. */
  ghost predicate DecidedAsNow(w: World, cmd: Command, p: Plan, read: seq<Row>)
    requires |read| == |w.rows|
  {
    var now := GoingIds(w.rows);
    match cmd
    case DoStartDraft(_, captainA, captainB, _, _) =>
      && captainA in now && captainB in now && |p.drafts| == |w.drafts| + 1
      && |now| >= p.drafts[|w.drafts|].config.PlayersNeeded() && SomeoneLeft(p.drafts[|w.drafts|], now)
    case DoPick(_, user) =>
      && user in now && ActiveDraft(w.drafts).Some? && |p.drafts| == |w.drafts|
      && ActiveDraft(w.drafts).value < |w.drafts| && SomeoneLeft(p.drafts[ActiveDraft(w.drafts).value], now)
    case DoPropose(_, _) => NobodyLost(read, w.rows)
    case DoVote(voter, _) => voter in now || p.rounds == w.rounds
    case DoRetractVote(voter) => voter in now || p.rounds == w.rounds
    case DoResetTeams(_) => HasFormation(w) ==> NobodyLost(read, w.rows)
    case _ => true
  }

  /** The commit is as if the command had read the attendees now; only a proposal can be refused for
      someone it leaves out who has been rejected since. */
  ghost predicate FormedAsNow(w: World, cmd: Command, read: seq<Row>)
    requires Shaped(w) && IsFormation(cmd) && |read| == |w.rows|
  {
    match PlanOf(w, cmd, GoingIds(read))
    case Err(_) => cmd.DoPropose? ==> PlanOf(w, cmd, GoingIds(w.rows)).Err?
    case Ok(p) => DecidedAsNow(w, cmd, p, read) && MovesAsRead(w.rows, p, read)
  }

  lemma PlansFit(w: World, cmd: Command, going: seq<UserId>)
    requires Shaped(w) && IsFormation(cmd) && PlanOf(w, cmd, going).Ok?
    ensures PlanFits(PlanOf(w, cmd, going).value)
  {
    hide LastWhere, FreshTeams, D.Available, V.ClosingChoice, V.DivisionFault, V.Options, D.Roster;
  }

  lemma DraftPlanDrafts(w: World, drafts: seq<D.Draft>, c: D.DraftChange)
    requires c.draft.config.teamCount == 2
    ensures DraftPlan(w, drafts, c).drafts == drafts && PlanFits(DraftPlan(w, drafts, c))
  {
  }

  lemma CarriedOutStores(w: World, p: Plan, read: seq<Row>)
    requires |read| == |w.rows| && EffectFits(p.effect)
    ensures var w' := CarriedOut(w, p, read);
      w'.session == p.session && w'.drafts == p.drafts && w'.rounds == p.rounds && w'.nextId == p.nextId
  {
  }

  lemma StartedAsNowIff(w: World, cmd: Command, read: seq<Row>)
    requires Shaped(w) && cmd.DoStartDraft? && RejectedOnly(read, w.rows) && RequestsFit(read)
    ensures FormedAt(w, cmd, read) == FormedAt(w, cmd, w.rows) <==> FormedAsNow(w, cmd, read)
  {
    var going, now := GoingIds(read), GoingIds(w.rows);
    GoingWithin(read, w.rows);
    NewDraftAsNow(w.session, cmd, going, now);
    hide GoingIds, D.NewDraft, LastWhere, DraftPlan, CarriedOut, MovesAsRead, RequestsFit, RejectedOnly, Shaped,
         SomeoneLeft, EffectFits, PlanFits;
    var g := D.NewDraft(w.session, cmd.actor, cmd.captainA, cmd.captainB, cmd.order, cmd.minPlayers, going);
    var n := D.NewDraft(w.session, cmd.actor, cmd.captainA, cmd.captainB, cmd.order, cmd.minPlayers, now);
    if StartPlan(w, cmd, going).Ok? {
      var drafts := w.drafts + [g.value.draft];
      var p := DraftPlan(w, drafts, g.value);
      DraftPlanDrafts(w, drafts, g.value);
      CarriedOutAsNowIff(w, p, read);
      CarriedOutStores(w, p, read);
      assert drafts[|w.drafts|] == g.value.draft;
      if n.Ok? && g != n {
        DraftPlanDrafts(w, w.drafts + [n.value.draft], n.value);
        CarriedOutStores(w, DraftPlan(w, w.drafts + [n.value.draft], n.value), w.rows);
      }
    }
  }

  lemma PickMadeAsNowIff(w: World, cmd: Command, read: seq<Row>)
    requires Shaped(w) && cmd.DoPick? && RejectedOnly(read, w.rows) && RequestsFit(read)
    ensures FormedAt(w, cmd, read) == FormedAt(w, cmd, w.rows) <==> FormedAsNow(w, cmd, read)
  {
    var going, now := GoingIds(read), GoingIds(w.rows);
    GoingWithin(read, w.rows);
    ActiveDraftIs(w.drafts);
    if ActiveDraft(w.drafts).Some? {
      var i := ActiveDraft(w.drafts).value;
      assert w.drafts[i] in w.drafts;
      PickedAsNow(w.drafts[i], w.session, cmd.captain, cmd.user, going, now);
      hide GoingIds, D.Picked, LastWhere, DraftPlan, CarriedOut, MovesAsRead, RequestsFit, RejectedOnly, Shaped,
           SomeoneLeft, EffectFits, PlanFits;
      var g := D.Picked(w.drafts[i], w.session, cmd.captain, cmd.user, going);
      var n := D.Picked(w.drafts[i], w.session, cmd.captain, cmd.user, now);
      if g.Ok? {
        var drafts := w.drafts[i := g.value.draft];
        var p := DraftPlan(w, drafts, g.value);
        DraftPlanDrafts(w, drafts, g.value);
        CarriedOutAsNowIff(w, p, read);
        CarriedOutStores(w, p, read);
        assert drafts[i] == g.value.draft != w.drafts[i];
        if n.Ok? && g != n {
          DraftPlanDrafts(w, w.drafts[i := n.value.draft], n.value);
          CarriedOutStores(w, DraftPlan(w, w.drafts[i := n.value.draft], n.value), w.rows);
          assert w.drafts[i := n.value.draft][i] == n.value.draft;
        }
      }
    }
  }

  lemma CaptainRefused(w: World, cmd: Command, going: seq<UserId>)
    requires Sturdy(w) && Shaped(w) && cmd.DoReplaceCaptain?
    ensures PlanOf(w, cmd, going).Err?
  {
    NoCaptainIsEverReplaced(w, cmd.actor, cmd.side, cmd.user, going);
    hide Sturdy, Shaped, LastWhere, D.CaptainNamed;
  }

  /** A division of those read is one of those going now only if nobody was lost. */
  lemma ProposedBothTimes(w: World, cmd: Command, read: seq<Row>)
    requires cmd.DoPropose? && RejectedOnly(read, w.rows) && OneRowEach(w.rows)
    requires ProposePlan(w, cmd.user, cmd.division, GoingIds(read)).Ok?
    ensures ProposePlan(w, cmd.user, cmd.division, GoingIds(w.rows)).Ok? <==> NobodyLost(read, w.rows)
  {
    var going, now := GoingIds(read), GoingIds(w.rows);
    if NobodyLost(read, w.rows) {
      NobodyLostSameGoing(read, w.rows);
    } else if ProposePlan(w, cmd.user, cmd.division, now).Ok? {
      var i :| Lost(read, w.rows, i);
      LostIndex(read, w.rows, i);
      LostUser(read, w.rows, i);
      hide GoingIds, LastWhere, V.Misplaced, Lost, NobodyLost;
      var open := OpenRound(w.rounds);
      var config := if open.Some? then w.rounds[open.value].Config()
                    else if w.session.teamConfig.Some? then w.session.teamConfig.value
                    else TeamConfig(|cmd.division|, None);
      V.AcceptedIffDivides(cmd.division, config.teamCount, config.PerTeam(), going);
      V.AcceptedIffDivides(cmd.division, config.teamCount, config.PerTeam(), now);
      assert false;
    }
  }

  lemma ProposedAsNowIff(w: World, cmd: Command, read: seq<Row>)
    requires Shaped(w) && cmd.DoPropose? && RejectedOnly(read, w.rows) && RequestsFit(read) && OneRowEach(w.rows)
    ensures FormedAt(w, cmd, read) == FormedAt(w, cmd, w.rows) <==> FormedAsNow(w, cmd, read)
  {
    assert |read| == |w.rows|;
    hide GoingIds, LastWhere, CarriedOut, Shaped, V.OpenRound, V.Proposed, RejectedOnly, RequestsFit, OneRowEach,
         NobodyLost;
    var g, n := PlanOf(w, cmd, GoingIds(read)), PlanOf(w, cmd, GoingIds(w.rows));
    if n.Ok? {
      CarriedOutStores(w, n.value, w.rows);
    }
    if g.Ok? {
      CarriedOutStores(w, g.value, read);
      CarriedOutAsNowIff(w, g.value, read);
      ProposedBothTimes(w, cmd, read);
      if NobodyLost(read, w.rows) {
        NobodyLostSameGoing(read, w.rows);
      }
    }
  }

  lemma ChangedAsNow(r: V.Round, cmd: Command, going: seq<UserId>, now: seq<UserId>)
    requires Within(now, going) && (cmd.DoVote? || cmd.DoRetractVote?)
    ensures var g, n := ChangeOf(r, cmd, going), ChangeOf(r, cmd, now);
      && (g.Err? ==> n.Err?)
      && (g.Ok? && cmd.user in now ==> n == g)
      && (g.Ok? && cmd.user !in now ==> n.Err?)
      && (g.Ok? && g.value.round == r ==> g.value.events == [])
  {
    hide V.FindProposal;
  }

  lemma ChangePlansAsNow(w: World, cmd: Command, going: seq<UserId>, now: seq<UserId>)
    requires Within(now, going) && (cmd.DoVote? || cmd.DoRetractVote?)
    ensures var g, n := ChangePlan(w, cmd, going), ChangePlan(w, cmd, now);
      && (g.Err? ==> n.Err?)
      && (g.Ok? && cmd.user in now ==> n == g)
      && (g.Ok? && cmd.user !in now ==> n.Err?)
      && (g.Ok? ==> g.value.effect.Untouched? && g.value.unassigner.None?)
      && (g.Ok? && g.value.rounds == w.rounds ==> g.value == Quiet(w, w.drafts, w.rounds, w.nextId, []))
  {
    OpenRoundIs(w.rounds);
    hide LastWhere, ChangeOf, OpenRound;
    if OpenRound(w.rounds).Some? {
      var i := OpenRound(w.rounds).value;
      ChangedAsNow(w.rounds[i], cmd, going, now);
      if ChangeOf(w.rounds[i], cmd, going).Ok? {
        var r := ChangeOf(w.rounds[i], cmd, going).value.round;
        assert w.rounds[i := r][i] == r;
      }
    }
  }

  lemma VotedAsNowIff(w: World, cmd: Command, read: seq<Row>)
    requires Shaped(w) && (cmd.DoVote? || cmd.DoRetractVote?) && RejectedOnly(read, w.rows) && RequestsFit(read)
    ensures FormedAt(w, cmd, read) == FormedAt(w, cmd, w.rows) <==> FormedAsNow(w, cmd, read)
  {
    GoingWithin(read, w.rows);
    SameLength(read, w.rows);
    ChangePlansAsNow(w, cmd, GoingIds(read), GoingIds(w.rows));
    hide GoingIds, CarriedOut, Shaped, RejectedOnly, RequestsFit, ChangePlan, Displaced;
    var g := ChangePlan(w, cmd, GoingIds(read));
    if g.Ok? {
      CarriedOutStores(w, g.value, read);
      CarriedOutAsNowIff(w, g.value, read);
      if g.value.rounds == w.rounds {
        NothingWritten(w, g.value, read);
      }
      QuietMoves(w.rows, g.value, read);
    }
  }

  lemma SameLength(read: seq<Row>, rows: seq<Row>)
    ensures RejectedOnly(read, rows) ==> |read| == |rows|
  {
  }

  lemma QuietMoves(rows: seq<Row>, p: Plan, read: seq<Row>)
    requires |read| == |rows| && !p.effect.Placing? && p.unassigner.None?
    ensures MovesAsRead(rows, p, read)
  {
  }

  lemma NothingWritten(w: World, p: Plan, read: seq<Row>)
    requires |read| == |w.rows| && p == Quiet(w, w.drafts, w.rounds, w.nextId, [])
    ensures CarriedOut(w, p, read) == w
  {
    assert WrittenRows(w.rows, read, Untouched) == w.rows;
    assert w.outbox + ([] + [] + []) == w.outbox;
  }

  lemma ResetPlansName(w: World, actor: Actor, a: seq<UserId>, b: seq<UserId>)
    ensures var x, y := ResetPlan(w, actor, a), ResetPlan(w, actor, b);
      && (x.Ok? <==> y.Ok?)
      && (x.Ok? && !HasFormation(w) ==> x == y && x.value.effect.Untouched? && x.value.unassigner.None?)
      && (x.Ok? && HasFormation(w) ==>
            && x.value == y.value.(before := x.value.before) && x.value.effect.Clearing? && x.value.unassigner.None?
            && x.value.after == [] && x.value.before != [] && y.value.before != []
            && x.value.before == Init(x.value.before) + [TeamsReset(actor.user, ByOrganizer, a)]
            && y.value.before == Init(x.value.before) + [TeamsReset(actor.user, ByOrganizer, b)])
  {
    hide LastWhere, D.DraftEnded, V.RoundEnded;
    var x, y := ResetPlan(w, actor, a), ResetPlan(w, actor, b);
    if x.Ok? && HasFormation(w) {
      var told := x.value.before[..|x.value.before| - 1];
      assert y.value.before[..|x.value.before| - 1] == told;
    }
  }

  function Init(events: seq<Event>): seq<Event>
    requires events != []
  {
    events[..|events| - 1]
  }

  lemma ResetAsNowIff(w: World, cmd: Command, read: seq<Row>)
    requires Shaped(w) && cmd.DoResetTeams? && RejectedOnly(read, w.rows) && RequestsFit(read)
    ensures FormedAt(w, cmd, read) == FormedAt(w, cmd, w.rows) <==> FormedAsNow(w, cmd, read)
  {
    var going, now := GoingIds(read), GoingIds(w.rows);
    SameGoingIff(read, w.rows);
    ResetPlansName(w, cmd.actor, going, now);
    hide GoingIds, ResetPlan, Shaped, RejectedOnly, RequestsFit, NobodyLost, CarriedOut, HasFormation, Displaced, Init;
    var g, n := ResetPlan(w, cmd.actor, going), ResetPlan(w, cmd.actor, now);
    if g.Ok? {
      CarriedOutAsNowIff(w, g.value, read);
      if HasFormation(w) {
        ClearingNames(w, g.value, n.value, read, cmd.actor.user, going, now);
      } else {
        QuietMoves(w.rows, g.value, read);
      }
    }
  }

  /** Two resets are carried out alike exactly when they name the same people. */
  lemma ClearingNames(w: World, x: Plan, y: Plan, read: seq<Row>, who: UserId, a: seq<UserId>, b: seq<UserId>)
    requires |read| == |w.rows| && x == y.(before := x.before) && x.effect.Clearing? && x.unassigner.None?
      && x.after == []
    requires x.before != [] && y.before != []
    requires x.before == Init(x.before) + [TeamsReset(who, ByOrganizer, a)]
      && y.before == Init(x.before) + [TeamsReset(who, ByOrganizer, b)]
    ensures CarriedOut(w, x, read) == CarriedOut(w, y, w.rows) <==> a == b
    ensures MovesAsRead(w.rows, x, read)
  {
    LastNews(w.outbox, Init(x.before), a, b, who);
    assert WrittenRows(w.rows, read, Clearing) == WrittenRows(w.rows, w.rows, Clearing);
  }

  lemma LastNews(outbox: seq<Event>, told: seq<Event>, a: seq<UserId>, b: seq<UserId>, who: UserId)
    ensures
      (outbox + (told + [TeamsReset(who, ByOrganizer, a)] + [] + [])
       == outbox + (told + [TeamsReset(who, ByOrganizer, b)] + [] + [])) <==> a == b
  {
    var n := |outbox| + |told|;
    assert (outbox + (told + [TeamsReset(who, ByOrganizer, a)] + [] + []))[n] == TeamsReset(who, ByOrganizer, a);
    assert (outbox + (told + [TeamsReset(who, ByOrganizer, b)] + [] + []))[n] == TeamsReset(who, ByOrganizer, b);
  }

  /** The others decide without regard to who is going. */
  lemma PlannedRegardless(w: World, cmd: Command, going: seq<UserId>, now: seq<UserId>)
    requires Shaped(w) && (cmd.DoCancelDraft? || cmd.DoWithdraw? || cmd.DoClose? || cmd.DoCreateTeams?)
    ensures PlanOf(w, cmd, going) == PlanOf(w, cmd, now)
  {
    hide LastWhere, Shaped, ClosePlan, CreatePlan, V.Withdrawn;
  }

  /** A draft, vote or teams command commits what the serial command does exactly when, for those
      going by then, it would decide the same, and nobody rejected since it read them is taken off
      an old team or put on a new one. */
  lemma FormedIsSerialIff(w: World, cmd: Command, read: seq<Row>)
    requires Shaped(w) && Sturdy(w) && IsFormation(cmd)
    requires RejectedOnly(read, w.rows) && RequestsFit(read) && OneRowEach(w.rows)
    ensures Legal(w, cmd)
    ensures FormedAt(w, cmd, read) == Apply(w, cmd) <==> FormedAsNow(w, cmd, read)
  {
    PlanIsOutcome(w, cmd);
    hide Sturdy, Shaped, Legal, Apply, PlanOf, CarriedOut, RejectedOnly, RequestsFit, OneRowEach, GoingIds, MovesAsRead;
    if cmd.DoStartDraft? {
      StartedAsNowIff(w, cmd, read);
    } else if cmd.DoPick? {
      PickMadeAsNowIff(w, cmd, read);
    } else if cmd.DoPropose? {
      ProposedAsNowIff(w, cmd, read);
    } else if cmd.DoVote? || cmd.DoRetractVote? {
      VotedAsNowIff(w, cmd, read);
    } else if cmd.DoResetTeams? {
      ResetAsNowIff(w, cmd, read);
    } else if cmd.DoReplaceCaptain? {
      CaptainRefused(w, cmd, GoingIds(read));
      CaptainRefused(w, cmd, GoingIds(w.rows));
    } else {
      PlannedRegardless(w, cmd, GoingIds(read), GoingIds(w.rows));
      var p := PlanOf(w, cmd, GoingIds(read));
      if p.Ok? {
        PlansFit(w, cmd, GoingIds(read));
        CarriedOutAsNowIff(w, p.value, read);
      }
    }
  }

  /** In particular when everyone going as read still is. */
  lemma NobodyLostIsAsNow(w: World, cmd: Command, read: seq<Row>)
    requires Shaped(w) && Sturdy(w) && IsFormation(cmd)
    requires RejectedOnly(read, w.rows) && RequestsFit(read) && OneRowEach(w.rows) && NobodyLost(read, w.rows)
    ensures FormedAsNow(w, cmd, read)
  {
    NobodyLostSameGoing(read, w.rows);
    FormedIsSerialIff(w, cmd, read);
    PlanIsOutcome(w, cmd);
    hide Sturdy, Shaped, Legal, Apply, PlanOf, CarriedOut, RejectedOnly, RequestsFit, OneRowEach, GoingIds,
         DecidedAsNow;
    var p := PlanOf(w, cmd, GoingIds(read));
    if p.Ok? {
      PlansFit(w, cmd, GoingIds(read));
      NobodyDisplaced(w.rows, p.value, read);
      CarriedOutAsNowIff(w, p.value, read);
    }
  }

  lemma NobodyDisplaced(rows: seq<Row>, p: Plan, read: seq<Row>)
    requires EffectFits(p.effect) && |rows| == |read| && NobodyLost(read, rows)
    ensures MovesAsRead(rows, p, read)
  {
    hide Placements;
    forall i | 0 <= i < |rows| ensures !Displaced(rows[i], read[i], p) {
      assert !Lost(read, rows, i);
    }
  }
}
