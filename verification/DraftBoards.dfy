/** A draft told from its commands: the captains named, and the players picked in turn
    (activity/internal/application/team_draft_service.go, activity/internal/domain/team_draft.go). */
module DraftBoards {
  import opened Wrappers
  import opened Sequences
  import opened ActivityTypes
  import opened Attendees
  import opened SessionWorld
  import opened SessionInvariants
  import opened SessionLog
  import opened SessionTeams
  import opened StepEffects
  import opened Sturdiness
  import D = Drafts
  import V = Voting

  datatype Board = Board(captainA: UserId, captainB: UserId, order: D.PickOrder, minPlayers: Option<int>,
                         picks: seq<UserId>)

  /** Whose pick the k-th is, counted from 0: A, B, A, B, ... or A, B, B, A and over again. */
  function TurnOf(order: D.PickOrder, k: nat): D.Side {
    match order
    case Alternate => if k % 2 == 0 then D.SideA else D.SideB
    case Snake => if k % 4 == 0 || k % 4 == 3 then D.SideA else D.SideB
  }

  function CaptainOf(b: Board, side: D.Side): UserId {
    if side == D.SideA then b.captainA else b.captainB
  }

  /** Captain of the side, or picked in one of its turns. */
  predicate PlaysFor(b: Board, side: D.Side, u: UserId) {
    u == CaptainOf(b, side) || exists k :: 0 <= k < |b.picks| && b.picks[k] == u && TurnOf(b.order, k) == side
  }

  predicate Taken(b: Board, u: UserId) {
    u == b.captainA || u == b.captainB || u in b.picks
  }

  function BoardAfter(w: World, cmd: Command, b: Board): Board
    requires Shaped(w) && Legal(w, cmd)
  {
    if Outcome(w, cmd).Err? then b
    else match cmd
      case DoStartDraft(_, captainA, captainB, order, minPlayers) => Board(captainA, captainB, order, minPlayers, [])
      case DoPick(_, u) => b.(picks := b.picks + [u])
      case _ => b
  }

  function BoardOver(w: World, cmds: seq<Command>, b: Board): Board
    decreases |cmds|
  {
    if cmds == [] || !Shaped(w) || !Legal(w, cmds[0]) then b
    else BoardOver(Apply(w, cmds[0]), cmds[1..], BoardAfter(w, cmds[0], b))
  }

  predicate PickedAs(p: D.Pick, b: Board, k: nat)
    requires k < |b.picks|
  {
    p == D.Pick(k, TurnOf(b.order, k), b.picks[k])
  }

  ghost predicate Drawn(d: D.Draft, b: Board) {
    && d.captainA == b.captainA && d.captainB == b.captainB && d.order == b.order
    && d.config == TeamConfig(2, b.minPlayers)
    && d.turn == |d.picks| == |b.picks|
    && forall k :: 0 <= k < |b.picks| ==> PickedAs(d.picks[k], b, k)
  }

  /** A running draft is as the board has it. */
  ghost predicate Boarded(w: World, b: Board) {
    forall i :: Runs(w.drafts, i) ==> Drawn(w.drafts[i], b)
  }

  lemma TurnIs(order: D.PickOrder, k: nat)
    ensures D.SideForTurn(order, k) == TurnOf(order, k)
  {
    assert k % 4 == k % 2 + 2 * (k / 2 % 2);
  }

  lemma TakenIffNotFree(d: D.Draft, b: Board, u: UserId)
    requires Drawn(d, b)
    requires b.captainA != NOBODY && b.captainB != NOBODY
    ensures Taken(b, u) <==> !D.Free(d, u)
  {
    hide TurnOf;
    if u in b.picks {
      var k :| 0 <= k < |b.picks| && b.picks[k] == u;
      assert PickedAs(d.picks[k], b, k);
    }
    if D.IsPicked(d, u) {
      var k :| 0 <= k < |d.picks| && d.picks[k].user == u;
      assert PickedAs(d.picks[k], b, k);
    }
  }

  /** Someone going is on neither side. */
  ghost predicate SomeoneIsLeft(b: Board, going: seq<UserId>) {
    exists u :: u in going && !Taken(b, u)
  }

  lemma LeftIffAvailable(d: D.Draft, b: Board, going: seq<UserId>)
    requires Drawn(d, b) && b.captainA != NOBODY && b.captainB != NOBODY
    ensures SomeoneIsLeft(b, going) <==> D.Available(d, going) != []
  {
    forall u ensures Taken(b, u) <==> !D.Free(d, u) {
      TakenIffNotFree(d, b, u);
    }
    hide Drawn, Taken, D.Free;
    var available := D.Available(d, going);
    if available != [] { assert available[0] in available; }
  }

  /** What a draft that settles announces last: whose turn it is, or that nobody is left. */
  ghost function Closing(b: Board, going: seq<UserId>): Event {
    if SomeoneIsLeft(b, going) then TurnChanged(|b.picks|) else DraftCompleted
  }

  lemma SettledDrawn(d: D.Draft, going: seq<UserId>, events: seq<Event>, b: Board)
    requires Drawn(d, b) && d.status == D.Active && b.captainA != NOBODY && b.captainB != NOBODY
    ensures Drawn(D.Settled(d, going, events).draft, b)
    ensures D.Settled(d, going, events).events == events + [Closing(b, going)]
  {
    LeftIffAvailable(d, b, going);
    hide PickedAs, D.Available, SomeoneIsLeft;
  }

  // ---- The drafting commands ----

  /** A draft starts when a manager names two different people going as captains, nothing else is
      being formed and there are enough players. */
  lemma StartingIsDrawn(s: Session, actor: Actor, a: UserId, b: UserId, order: D.PickOrder, minPlayers: Option<int>,
                        going: seq<UserId>)
    ensures D.NewDraft(s, actor, a, b, order, minPlayers, going).Ok? <==>
      && s.ManagedBy(actor) && !s.Ended() && s.isTeamSport && (minPlayers.Some? ==> minPlayers.value > 0)
      && a != NOBODY && b != NOBODY && a != b && a in going && b in going
      && |going| >= 2 * (if minPlayers.Some? then minPlayers.value else 1)
    ensures D.NewDraft(s, actor, a, b, order, minPlayers, going).Ok? ==>
      var c, board := D.NewDraft(s, actor, a, b, order, minPlayers, going).value, Board(a, b, order, minPlayers, []);
      Drawn(c.draft, board) && c.draft.startedBy == actor.user
      && c.events == [DraftStarted(actor.user), Closing(board, going)]
  {
    var d, board := D.Draft(order, D.Active, a, b, TeamConfig(2, minPlayers), 0, [], actor.user),
                    Board(a, b, order, minPlayers, []);
    if a != NOBODY && b != NOBODY {
      SettledDrawn(d, going, [DraftStarted(actor.user)], board);
      assert D.Settled(d, going, [DraftStarted(actor.user)]).draft.startedBy == actor.user;
    }
    hide D.Settled, Drawn, Closing;
  }

  /** A pick stands when it is made by the captain whose turn it is, for someone going whom nobody
      has yet. */
  lemma PickIsDrawn(d: D.Draft, s: Session, captain: UserId, u: UserId, going: seq<UserId>, b: Board)
    requires Drawn(d, b) && d.status == D.Active && b.captainA != NOBODY && b.captainB != NOBODY
    requires b.captainA != b.captainB
    ensures D.Picked(d, s, captain, u, going).Ok? <==>
      !s.Ended() && captain == CaptainOf(b, TurnOf(b.order, |b.picks|)) && u in going && !Taken(b, u)
    ensures D.Picked(d, s, captain, u, going).Ok? ==>
      var c, board := D.Picked(d, s, captain, u, going).value, b.(picks := b.picks + [u]);
      Drawn(c.draft, board) && c.events == [PlayerPicked(|b.picks|, u, captain), Closing(board, going)]
  {
    TurnIs(b.order, |b.picks|);
    TakenIffNotFree(d, b, u);
    hide D.SideForTurn, D.Available, D.Settled, TurnOf, Taken, D.Free, Closing;
    if D.Picked(d, s, captain, u, going).Ok? {
      var side := TurnOf(b.order, |b.picks|);
      var d' := d.(picks := d.picks + [D.Pick(d.turn, side, u)], turn := d.turn + 1);
      var b' := b.(picks := b.picks + [u]);
      forall k | 0 <= k < |b'.picks| ensures PickedAs(d'.picks[k], b', k) {
        assert k < |b.picks| ==> PickedAs(d.picks[k], b, k);
      }
      SettledDrawn(d', going, [PlayerPicked(d.turn, u, captain)], b');
    }
  }

  lemma RosterIs(d: D.Draft, b: Board, side: D.Side, u: UserId)
    requires Drawn(d, b) && b.captainA != NOBODY && b.captainB != NOBODY
    ensures u in D.Roster(d, side) <==> PlaysFor(b, side, u)
  {
    D.PicksOfHas(d.picks, side, u);
    hide D.PicksOf, TurnOf;
    if PlaysFor(b, side, u) && u != CaptainOf(b, side) {
      var k :| 0 <= k < |b.picks| && b.picks[k] == u && TurnOf(b.order, k) == side;
      assert PickedAs(d.picks[k], b, k);
    }
    if u in D.PicksOf(d.picks, side) {
      var k :| 0 <= k < |d.picks| && d.picks[k].side == side && d.picks[k].user == u;
      assert PickedAs(d.picks[k], b, k);
    }
  }

  // ---- Every command ----

  /** The one draft written is the only one that can be running. */
  lemma OnlyDraftBoarded(w': World, i: nat, d: D.Draft, b: Board)
    requires i < |w'.drafts| && w'.drafts[i] == d && Drawn(d, b)
    requires forall j :: Runs(w'.drafts, j) ==> j == i
    ensures Boarded(w', b)
  {
    hide Drawn;
  }

  lemma DrawnHasTwo(d: D.Draft, b: Board)
    requires Drawn(d, b)
    ensures d.config.teamCount == 2
  {
  }

  lemma RunningDraftIs(w: World, b: Board) returns (i: nat)
    requires Inv(w) && Boarded(w, b) && ActiveDraft(w.drafts).Some?
    ensures ActiveDraft(w.drafts) == Some(i) && i < |w.drafts| && Drawn(w.drafts[i], b)
    ensures w.drafts[i].status == D.Active && b.captainA != NOBODY && b.captainB != NOBODY && b.captainA != b.captainB
    ensures !w.session.Ended() && forall j :: Runs(w.drafts, j) ==> j == i
  {
    ActiveDraftIs(w.drafts);
    i := ActiveDraft(w.drafts).value;
    assert Runs(w.drafts, i);
    RunningDraftHolds(w, i);
    hide RostersGoing, D.Available;
  }

  /** One draft is written, as the board has it, and settles; no other runs. */
  ghost predicate Plays(w: World, w1: World, i: nat, c: D.DraftChange, b: Board) {
    && D.Settles(c.draft, GoingIds(w.rows)) && Drawn(c.draft, b) && c.draft.config.teamCount == 2
    && b.captainA != NOBODY && b.captainB != NOBODY
    && w1.rows == w.rows && OneRowEach(w1.rows)
    && i < |w1.drafts| && w1.drafts[i] == c.draft
    && (forall j :: Runs(w1.drafts, j) ==> j == i)
  }

  lemma StartPlays(w: World, cmd: Command) returns (c: D.DraftChange)
    requires Inv(w) && Shaped(w) && Legal(w, cmd) && cmd.DoStartDraft? && Outcome(w, cmd).Ok?
    ensures var w1 := w.(drafts := w.drafts + [c.draft]);
      && Plays(w, w1, |w.drafts|, c, Board(cmd.captainA, cmd.captainB, cmd.order, cmd.minPlayers, []))
      && Apply(w, cmd) == Finish(w1, c)
  {
    var going := GoingIds(w.rows);
    assert OneRowEach(w.rows);
    D.NewDraftIsFair(w.session, cmd.actor, cmd.captainA, cmd.captainB, cmd.order, cmd.minPlayers, going);
    StartingIsDrawn(w.session, cmd.actor, cmd.captainA, cmd.captainB, cmd.order, cmd.minPlayers, going);
    ActiveDraftIs(w.drafts);
    hide Inv, Shaped, LastWhere, GoingIds, D.NewDraft, Drawn, Finish, D.Settles, OneRowEach;
    c := D.NewDraft(w.session, cmd.actor, cmd.captainA, cmd.captainB, cmd.order, cmd.minPlayers, going).value;
    DrawnHasTwo(c.draft, Board(cmd.captainA, cmd.captainB, cmd.order, cmd.minPlayers, []));
  }

  lemma PickIsFinish(w: World, cmd: Command, i: nat)
    requires Shaped(w) && Legal(w, cmd) && cmd.DoPick? && Outcome(w, cmd).Ok?
    requires i < |w.drafts| && ActiveDraft(w.drafts) == Some(i)
    ensures var c := D.Picked(w.drafts[i], w.session, cmd.captain, cmd.user, GoingIds(w.rows));
      && c.Ok? && c.value.draft.config.teamCount == 2
      && Apply(w, cmd) == Finish(w.(drafts := w.drafts[i := c.value.draft]), c.value)
  {
    hide ActiveDraft, GoingIds, D.Available, Finish;
  }

  lemma PickPlays(w: World, cmd: Command, b: Board) returns (i: nat, c: D.DraftChange)
    requires Inv(w) && Shaped(w) && Legal(w, cmd) && Boarded(w, b) && cmd.DoPick? && Outcome(w, cmd).Ok?
    ensures i < |w.drafts|
    ensures var w1 := w.(drafts := w.drafts[i := c.draft]);
      Plays(w, w1, i, c, b.(picks := b.picks + [cmd.user])) && Apply(w, cmd) == Finish(w1, c)
  {
    var going := GoingIds(w.rows);
    assert OneRowEach(w.rows);
    DraftRuns(w, cmd);
    hide Shaped, Legal, Outcome, Apply, OneRowEach;
    i := RunningDraftIs(w, b);
    assert Runs(w.drafts, i);
    RunningDraftHolds(w, i);
    PickIsFinish(w, cmd, i);
    hide Inv, Boarded, GoingIds, Drawn, Finish, D.Settles, D.Available, ActiveDraft;
    D.PickKeepsFair(w.drafts[i], w.session, cmd.captain, cmd.user, going);
    PickIsDrawn(w.drafts[i], w.session, cmd.captain, cmd.user, going, b);
    c := D.Picked(w.drafts[i], w.session, cmd.captain, cmd.user, going).value;
    hide D.Picked;
    var drafts := w.drafts[i := c.draft];
    forall j | Runs(drafts, j) ensures j == i {
      assert j != i ==> Runs(w.drafts, j);
    }
  }

  lemma DraftRuns(w: World, cmd: Command)
    requires Shaped(w) && Legal(w, cmd) && cmd.DoPick? && Outcome(w, cmd).Ok?
    ensures ActiveDraft(w.drafts).Some?
  {
    hide ActiveDraft, DraftStep, D.Picked;
  }

  lemma CommandPlays(w: World, cmd: Command, b: Board) returns (w1: World, i: nat, c: D.DraftChange)
    requires Inv(w) && Shaped(w) && Legal(w, cmd) && Boarded(w, b)
    requires (cmd.DoStartDraft? || cmd.DoPick?) && Outcome(w, cmd).Ok?
    ensures Plays(w, w1, i, c, BoardAfter(w, cmd, b))
    ensures Apply(w, cmd) == Finish(w1, c) && Finish(w1, c).drafts == w1.drafts
  {
    hide Inv, Shaped, Legal, Outcome, Apply, Boarded;
    if cmd.DoStartDraft? {
      c := StartPlays(w, cmd);
      i, w1 := |w.drafts|, w.(drafts := w.drafts + [c.draft]);
    } else {
      i, c := PickPlays(w, cmd, b);
      w1 := w.(drafts := w.drafts[i := c.draft]);
    }
    hide GoingIds, D.Settles, Drawn, Finish;
    FinishLeavesAlone(w1, c);
  }

  lemma PlayKeepsBoard(w: World, cmd: Command, b: Board)
    requires Inv(w) && Shaped(w) && Legal(w, cmd) && Boarded(w, b)
    requires (cmd.DoStartDraft? || cmd.DoPick?) && Outcome(w, cmd).Ok?
    ensures Boarded(Apply(w, cmd), BoardAfter(w, cmd, b))
  {
    var w1, i, c := CommandPlays(w, cmd, b);
    assert Plays(w, w1, i, c, BoardAfter(w, cmd, b));
    hide Apply, Outcome, BoardAfter, Drawn, Finish, Inv, Shaped, Legal;
    OnlyDraftBoarded(Finish(w1, c), i, c.draft, BoardAfter(w, cmd, b));
  }

  lemma CancelKeepsBoard(w: World, cmd: Command, b: Board)
    requires Inv(w) && Shaped(w) && Legal(w, cmd) && Boarded(w, b) && (cmd.DoCancelDraft? || cmd.DoReplaceCaptain?)
    ensures Boarded(Apply(w, cmd), BoardAfter(w, cmd, b))
  {
    InvIsSturdy(w);
    if cmd.DoReplaceCaptain? {
      NoCaptainIsEverReplaced(w, cmd.actor, cmd.side, cmd.user, GoingIds(w.rows));
    }
    hide Inv, Sturdy, Shaped, GoingIds, LastWhere, Drawn, ReplaceCaptain;
    var w' := Apply(w, cmd);
    forall j | Runs(w'.drafts, j) ensures Drawn(w'.drafts[j], b) {
      assert Runs(w.drafts, j) && w'.drafts[j] == w.drafts[j];
    }
  }

  lemma StepKeepsBoard(w: World, cmd: Command, b: Board)
    requires Inv(w) && Shaped(w) && Legal(w, cmd) && Boarded(w, b)
    ensures Boarded(Apply(w, cmd), BoardAfter(w, cmd, b))
  {
    hide Outcome, Shaped, Legal, Drawn, Boarded;
    if IsDrafting(cmd) && Outcome(w, cmd).Ok? {
      hide Inv, Apply, BoardAfter;
      if cmd.DoStartDraft? || cmd.DoPick? {
        PlayKeepsBoard(w, cmd, b);
      } else {
        CancelKeepsBoard(w, cmd, b);
      }
    } else if !IsDrafting(cmd) {
      assert OneFormation(w);
      StepLeavesAlone(w, cmd);
      assert BoardAfter(w, cmd, b) == b;
      hide Inv, Apply, BoardAfter;
      UntouchedStaysBoarded(w, Apply(w, cmd), b);
    }
  }

  lemma UntouchedStaysBoarded(w: World, w': World, b: Board)
    requires Boarded(w, b) && NoDraftTouched(w, w')
    ensures Boarded(w', b)
  {
    hide Drawn;
  }

  /** Over every run the draft that runs has the captains and the order it was started with, and the
      picks accepted since, each for the side whose turn it was. */
  lemma {:induction false} DraftsFollowTheBoard(w: World, cmds: seq<Command>, w': World, b: Board)
    requires Inv(w) && RunsTo(w, cmds, w') && Boarded(w, b)
    ensures Boarded(w', BoardOver(w, cmds, b))
    decreases |cmds|
  {
    hide Inv, Apply, Legal, Shaped, BoardAfter, Boarded;
    if cmds != [] {
      StepKeepsInv(w, cmds[0]);
      StepKeepsBoard(w, cmds[0], b);
      DraftsFollowTheBoard(Apply(w, cmds[0]), cmds[1..], w', BoardAfter(w, cmds[0], b));
    }
  }

  // ---- How a draft ends ----

  /** Everyone on a side is on its team, and nobody else is on any. */
  ghost predicate SidesAreTheTeams(w: World, b: Board) {
    && |w.session.teams| == 2 && w.session.teams[0] != w.session.teams[1] && w.session.teamsSource == ByDraft
    && forall u :: TeamOf(w.rows, u) == if PlaysFor(b, D.SideA, u) then Some(w.session.teams[0])
                                        else if PlaysFor(b, D.SideB, u) then Some(w.session.teams[1]) else None
  }

  lemma FinishedIsTheTeams(w: World, c: D.DraftChange, b: Board)
    requires OneRowEach(w.rows) && D.Settles(c.draft, GoingIds(w.rows)) && Drawn(c.draft, b)
    requires b.captainA != NOBODY && b.captainB != NOBODY && c.draft.status == D.Finished
    ensures SidesAreTheTeams(Finish(w, c), b)
  {
    DrawnHasTwo(c.draft, b);
    var w' := Finish(w, c);
    TeamsDiffer(w, DraftTeams(c.draft), c.draft.config, ByDraft, c.draft.startedBy, c.events);
    assert Distinct(w'.session.teams);
    hide D.Settles, Drawn, GoingIds, TeamOf, Finish, D.Roster, ReplaceTeams, PlaysFor;
    forall u ensures TeamOf(w'.rows, u) == if PlaysFor(b, D.SideA, u) then Some(w'.session.teams[0])
                                           else if PlaysFor(b, D.SideB, u) then Some(w'.session.teams[1]) else None {
      RosterIs(c.draft, b, D.SideA, u);
      RosterIs(c.draft, b, D.SideB, u);
      CompletedDraftPlacesEveryone(w, c, u);
      OnSomeRoster(w, c, u);
    }
    CompletedDraftPlacesEveryone(w, c, 0);
  }

  lemma OnSomeRoster(w: World, c: D.DraftChange, u: UserId)
    requires D.Settles(c.draft, GoingIds(w.rows)) && c.draft.status == D.Finished
    ensures u in GoingIds(w.rows) <==> u in D.Roster(c.draft, D.SideA) || u in D.Roster(c.draft, D.SideB)
  {
    hide GoingIds, D.Roster, D.FairSoFar;
    D.CompletedDraftSplitsEveryone(c.draft, GoingIds(w.rows));
  }

  /** The draft goes on while someone going is on neither side; with the pick, or the start, that
      leaves nobody its sides become the teams. */
  lemma LastPickFormsTheTeams(w: World, cmd: Command, b: Board)
    requires Inv(w) && Shaped(w) && Legal(w, cmd) && Boarded(w, b)
    requires (cmd.DoStartDraft? || cmd.DoPick?) && Outcome(w, cmd).Ok?
    ensures var w', b' := Apply(w, cmd), BoardAfter(w, cmd, b);
      && ((exists i :: Runs(w'.drafts, i)) <==> SomeoneIsLeft(b', GoingIds(w.rows)))
      && ((forall i :: !Runs(w'.drafts, i)) ==> SidesAreTheTeams(w', b'))
  {
    var w1, i, c := CommandPlays(w, cmd, b);
    var w', b' := Apply(w, cmd), BoardAfter(w, cmd, b);
    hide Inv, Shaped, Legal, Apply, BoardAfter, Drawn, Finish, GoingIds, SidesAreTheTeams, SomeoneIsLeft, D.FairSoFar;
    LeftIffAvailable(c.draft, b', GoingIds(w.rows));
    assert w'.drafts[i] == c.draft;
    if c.draft.status == D.Finished {
      FinishedIsTheTeams(w1, c, b');
    } else {
      assert Runs(w'.drafts, i);
    }
  }
}
