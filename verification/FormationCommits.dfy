/** The draft, vote and teams commands as what they do inside their transaction: read the attendees
    once, decide by who is going, and write drafts, rounds, teams and events - and, when teams are
    replaced, the status and team of every roster member as they were read
    (activity/internal/application/team_formation.go lines 93-181, team_draft_service.go,
    team_voting_service.go and session_service.go lines 375-445). */
module FormationCommits {
  import opened Wrappers
  import opened Sequences
  import opened ActivityTypes
  import opened Attendees
  import opened SessionWorld
  import opened SessionInvariants
  import opened SessionWaitlist
  import opened StaleReads
  import D = Drafts
  import V = Voting

  predicate IsFormation(cmd: Command) {
    || cmd.DoStartDraft? || cmd.DoPick? || cmd.DoReplaceCaptain? || cmd.DoCancelDraft?
    || cmd.DoPropose? || cmd.DoVote? || cmd.DoRetractVote? || cmd.DoWithdraw? || cmd.DoClose?
    || cmd.DoCreateTeams? || cmd.DoResetTeams?
  }

  // ---- Plans ----

  /** What becomes of the attendees' rows: nothing, everyone off the teams, or everyone off and the
      rosters on the new ones. */
  datatype RowEffect = Untouched | Clearing | Placing(formed: FormedTeams, hadTeams: bool, teams: seq<TeamId>)

  /** What a command decided to write once it knew who is going. `unassigner` takes the rows' old
      teams away with an event each. */
  datatype Plan = Plan(
    session: Session,
    drafts: seq<D.Draft>,
    rounds: seq<V.Round>,
    nextId: nat,
    effect: RowEffect,
    before: seq<Event>,
    unassigner: Option<UserId>,
    after: seq<Event>)

  predicate EffectFits(e: RowEffect) {
    e.Placing? ==> |e.formed.rosters| == |e.formed.assignedBy| == |e.teams|
  }

  function Quiet(w: World, drafts: seq<D.Draft>, rounds: seq<V.Round>, nextId: nat, events: seq<Event>): (p: Plan)
    ensures EffectFits(p.effect)
  {
    Plan(w.session, drafts, rounds, nextId, Untouched, events, None, [])
  }

  function Replacing(w: World, drafts: seq<D.Draft>, rounds: seq<V.Round>, formed: FormedTeams, config: TeamConfig,
                     source: TeamsSource, who: UserId, before: seq<Event>): (p: Plan)
    requires |formed.rosters| == |formed.assignedBy| == config.teamCount
    ensures EffectFits(p.effect)
  {
    var change := WithTeams(w.session, config, source, who, w.nextId);
    Plan(change.session, drafts, rounds, w.nextId + config.teamCount,
         Placing(formed, w.session.HasTeams(), change.session.teams), before + change.events, None, [])
  }

  function DraftPlan(w: World, drafts: seq<D.Draft>, c: D.DraftChange): (p: Plan)
    requires c.draft.config.teamCount == 2
    ensures EffectFits(p.effect)
  {
    if c.draft.status == D.Finished
    then Replacing(w, drafts, w.rounds, DraftTeams(c.draft), c.draft.config, ByDraft, c.draft.startedBy, c.events)
    else Quiet(w, drafts, w.rounds, w.nextId, c.events)
  }

  function StartPlan(w: World, cmd: Command, going: seq<UserId>): (r: Result<Plan, Error>)
    requires cmd.DoStartDraft?
    ensures r.Ok? ==> EffectFits(r.value.effect)
  {
    if ActiveDraft(w.drafts).Some? then Err(DraftAlreadyActive)
    else if OpenRound(w.rounds).Some? then Err(VotingIsOpen)
    else match D.NewDraft(w.session, cmd.actor, cmd.captainA, cmd.captainB, cmd.order, cmd.minPlayers, going)
      case Err(e) => Err(e)
      case Ok(c) => Ok(DraftPlan(w, w.drafts + [c.draft], c))
  }

  function StepPlan(w: World, i: nat, c: Result<D.DraftChange, Error>): (r: Result<Plan, Error>)
    requires i < |w.drafts| && (c.Ok? ==> c.value.draft.config.teamCount == 2)
    ensures r.Ok? ==> EffectFits(r.value.effect)
  {
    match c
    case Err(e) => Err(e)
    case Ok(change) => Ok(DraftPlan(w, w.drafts[i := change.draft], change))
  }

  function PickPlan(w: World, cmd: Command, going: seq<UserId>): (r: Result<Plan, Error>)
    requires Shaped(w) && cmd.DoPick?
    ensures r.Ok? ==> EffectFits(r.value.effect)
  {
    match ActiveDraft(w.drafts)
    case None => Err(DraftNotActive)
    case Some(i) => StepPlan(w, i, D.Picked(w.drafts[i], w.session, cmd.captain, cmd.user, going))
  }

  function CaptainPlan(w: World, cmd: Command, going: seq<UserId>): (r: Result<Plan, Error>)
    requires Shaped(w) && cmd.DoReplaceCaptain?
    ensures r.Ok? ==> EffectFits(r.value.effect)
  {
    match ActiveDraft(w.drafts)
    case None => Err(DraftNotActive)
    case Some(i) => StepPlan(w, i, D.CaptainNamed(w.drafts[i], w.session, cmd.actor, cmd.side, cmd.user, going))
  }

  function CancelPlan(w: World, actor: Actor): (r: Result<Plan, Error>)
    ensures r.Ok? ==> EffectFits(r.value.effect)
  {
    match ActiveDraft(w.drafts)
    case None => Err(DraftNotActive)
    case Some(i) =>
      match D.DraftCancelledBy(w.drafts[i], w.session, actor)
      case Err(e) => Err(e)
      case Ok(c) => Ok(Quiet(w, w.drafts[i := c.draft], w.rounds, w.nextId, c.events))
  }

  function RoundPlan(w: World, rounds: seq<V.Round>, nextId: nat, c: V.RoundChange): (p: Plan)
    ensures EffectFits(p.effect)
  {
    Quiet(w, w.drafts, rounds, nextId, c.events)
  }

  function ProposePlan(w: World, author: UserId, teams: seq<seq<UserId>>, going: seq<UserId>): (r: Result<Plan, Error>)
    ensures r.Ok? ==> EffectFits(r.value.effect)
  {
    if ActiveDraft(w.drafts).Some? then Err(DraftAlreadyActive)
    else match OpenRound(w.rounds)
      case None =>
        (match V.OpenRound(w.session, author, teams, going, w.nextId)
         case Err(e) => Err(e)
         case Ok(c) => Ok(RoundPlan(w, w.rounds + [c.round], w.nextId + 1, c)))
      case Some(i) =>
        (match V.Proposed(w.rounds[i], w.session, author, teams, going, w.nextId)
         case Err(e) => Err(e)
         case Ok(c) => Ok(RoundPlan(w, w.rounds[i := c.round], w.nextId + 1, c)))
  }

  function ChangeOf(r: V.Round, cmd: Command, going: seq<UserId>): Result<V.RoundChange, Error>
    requires cmd.DoVote? || cmd.DoRetractVote? || cmd.DoWithdraw?
  {
    match cmd
    case DoVote(voter, choice) => V.Voted(r, voter, choice, going)
    case DoRetractVote(voter) => V.VoteTakenBack(r, voter, going)
    case DoWithdraw(requester, id) => V.Withdrawn(r, requester, id)
  }

  function ChangePlan(w: World, cmd: Command, going: seq<UserId>): (r: Result<Plan, Error>)
    requires cmd.DoVote? || cmd.DoRetractVote? || cmd.DoWithdraw?
    ensures r.Ok? ==> EffectFits(r.value.effect)
  {
    match OpenRound(w.rounds)
    case None => Err(VotingNotOpen)
    case Some(i) =>
      match ChangeOf(w.rounds[i], cmd, going)
      case Err(e) => Err(e)
      case Ok(c) => Ok(RoundPlan(w, w.rounds[i := c.round], w.nextId, c))
  }

  function ClosePlan(w: World, actor: Actor, winner: Option<Choice>): (r: Result<Plan, Error>)
    requires Shaped(w)
    ensures r.Ok? ==> EffectFits(r.value.effect)
  {
    match OpenRound(w.rounds)
    case None => Err(VotingNotOpen)
    case Some(i) =>
      match V.ClosedBy(w.rounds[i], w.session, actor, winner)
      case Err(e) => Err(e)
      case Ok(c) =>
        var rounds := w.rounds[i := c.round];
        match c.winning
        case None => Ok(Quiet(w, w.drafts, rounds, w.nextId, c.events))
        case Some(p) =>
          var formed := FormedTeams(p.teams, seq(|p.teams|, _ => actor.user), actor.user);
          Ok(Replacing(w, w.drafts, rounds, formed, c.round.Config(), ByVote, actor.user, c.events))
  }

  function CreatePlan(w: World, actor: Actor, teamCount: Option<int>, minPlayers: Option<int>): (r: Result<Plan, Error>)
    ensures r.Ok? ==> EffectFits(r.value.effect)
  {
    var config := NewTeamConfig(teamCount, minPlayers);
    if config.Err? then Err(config.error)
    else if ActiveDraft(w.drafts).Some? then Err(DraftAlreadyActive)
    else if !w.session.ManagedBy(actor) then Err(Unauthorized)
    else if TeamsLock(w.session).Some? then Err(TeamsLock(w.session).value)
    else if !w.session.isTeamSport then Err(TeamsNotSupported)
    else
      var change := WithTeams(w.session, config.value, ByHand, actor.user, w.nextId);
      var unassigner := if w.session.HasTeams() then Some(actor.user) else None;
      var plan := Plan(change.session, w.drafts, w.rounds, w.nextId + config.value.teamCount, Clearing, change.events,
                       unassigner, []);
      match OpenRound(w.rounds)
      case None => Ok(plan)
      case Some(i) =>
        var c := V.RoundEnded(w.rounds[i], TeamsReplaced);
        Ok(plan.(rounds := w.rounds[i := c.round], after := c.events))
  }

  /** There is something a reset would wipe. */
  predicate HasFormation(w: World) {
    w.session.HasTeams() || ActiveDraft(w.drafts).Some? || OpenRound(w.rounds).Some?
  }

  function ResetPlan(w: World, actor: Actor, going: seq<UserId>): (r: Result<Plan, Error>)
    ensures r.Ok? ==> EffectFits(r.value.effect)
  {
    if !w.session.ManagedBy(actor) then Err(Unauthorized)
    else if TeamsLock(w.session).Some? then Err(TeamsLock(w.session).value)
    else if !HasFormation(w) then Ok(Quiet(w, w.drafts, w.rounds, w.nextId, []))
    else
      var draft, round := ActiveDraft(w.drafts), OpenRound(w.rounds);
      var end := FormationReset(ByOrganizer);
      var cancelled := if draft.Some? then D.DraftEnded(w.drafts[draft.value], end, actor.user).events else [];
      var closed := if round.Some? then V.RoundEnded(w.rounds[round.value], end).events else [];
      Ok(Plan(WithoutTeams(w.session), [], [], w.nextId, Clearing,
              cancelled + closed + [TeamsReset(actor.user, ByOrganizer, going)], None, []))
  }

  /** What the command decides to do when it read that exactly `going` are going. */
  function PlanOf(w: World, cmd: Command, going: seq<UserId>): (r: Result<Plan, Error>)
    requires Shaped(w) && IsFormation(cmd)
    ensures r.Ok? ==> EffectFits(r.value.effect)
  {
    match cmd
    case DoStartDraft(_, _, _, _, _) => StartPlan(w, cmd, going)
    case DoPick(_, _) => PickPlan(w, cmd, going)
    case DoReplaceCaptain(_, _, _) => CaptainPlan(w, cmd, going)
    case DoCancelDraft(actor) => CancelPlan(w, actor)
    case DoPropose(author, teams) => ProposePlan(w, author, teams, going)
    case DoClose(actor, winner) => ClosePlan(w, actor, winner)
    case DoCreateTeams(actor, teamCount, minPlayers) => CreatePlan(w, actor, teamCount, minPlayers)
    case DoResetTeams(actor) => ResetPlan(w, actor, going)
    case DoVote(_, _) => ChangePlan(w, cmd, going)
    case DoRetractVote(_) => ChangePlan(w, cmd, going)
    case DoWithdraw(_, _) => ChangePlan(w, cmd, going)
  }

  // ---- Carrying a plan out ----

  /** A roster member's row gets back the status it was read with, whatever became of it since. */
  function WrittenRow(row: Row, read: Row, e: RowEffect): Row
    requires EffectFits(e)
  {
    match e
    case Untouched => row
    case Clearing => row.(team := None)
    case Placing(formed, _, teams) =>
      var places := Placements(read.user, formed.rosters);
      if IsGoing(read) && places != [] then row.(status := read.status, team := LastTeam(places, teams))
      else row.(team := None)
  }

  function WrittenRows(rows: seq<Row>, read: seq<Row>, e: RowEffect): (r: seq<Row>)
    requires |rows| == |read| && EffectFits(e)
    ensures |r| == |rows| && forall i :: 0 <= i < |r| ==> r[i] == WrittenRow(rows[i], read[i], e)
  {
    seq(|rows|, i requires 0 <= i < |rows| => WrittenRow(rows[i], read[i], e))
  }

  function MovesOf(p: Plan, read: seq<Row>): seq<Event>
    requires EffectFits(p.effect)
  {
    match p.effect
    case Placing(formed, hadTeams, teams) => AllMoves(read, hadTeams, formed, teams)
    case _ => if p.unassigner.Some? then UnassignedEvents(read, p.unassigner.value) else []
  }

  /** The tables once the plan, made and carried out on the rows as read, is committed. */
  function CarriedOut(w: World, p: Plan, read: seq<Row>): World
    requires |read| == |w.rows| && EffectFits(p.effect)
  {
    World(p.session, WrittenRows(w.rows, read, p.effect), p.drafts, p.rounds,
          w.outbox + (p.before + MovesOf(p, read) + p.after), p.nextId)
  }

  /** The tables once a command that read the rows as `read` has committed, or failed. */
  function FormedAt(w: World, cmd: Command, read: seq<Row>): World
    requires Shaped(w) && IsFormation(cmd) && |read| == |w.rows|
  {
    match PlanOf(w, cmd, GoingIds(read))
    case Err(_) => w
    case Ok(p) => CarriedOut(w, p, read)
  }

  // ---- A serial command is planning and carrying out with nothing in between ----

  function DoneAtOnce(w: World, r: Result<Plan, Error>): Result<World, Error>
    requires r.Ok? ==> EffectFits(r.value.effect)
  {
    match r
    case Err(e) => Err(e)
    case Ok(p) => Ok(CarriedOut(w, p, w.rows))
  }

  lemma UntouchedRows(w: World, p: Plan)
    requires p.effect.Untouched? && p.unassigner.None? && p.after == []
    ensures CarriedOut(w, p, w.rows)
         == w.(session := p.session, drafts := p.drafts, rounds := p.rounds, nextId := p.nextId).Emit(p.before)
  {
    assert WrittenRows(w.rows, w.rows, Untouched) == w.rows;
    assert p.before + [] + [] == p.before;
  }

  lemma ReplacingIsReplace(w: World, drafts: seq<D.Draft>, rounds: seq<V.Round>, formed: FormedTeams,
                           config: TeamConfig, source: TeamsSource, who: UserId, before: seq<Event>)
    requires |formed.rosters| == |formed.assignedBy| == config.teamCount
    ensures CarriedOut(w, Replacing(w, drafts, rounds, formed, config, source, who, before), w.rows)
         == ReplaceTeams(w.(drafts := drafts, rounds := rounds), formed, config, source, who, before)
  {
    var w1 := w.(drafts := drafts, rounds := rounds);
    var p := Replacing(w, drafts, rounds, formed, config, source, who, before);
    var change := WithTeams(w.session, config, source, who, w.nextId);
    var moves := AllMoves(w.rows, w.session.HasTeams(), formed, change.session.teams);
    hide AllMoves, Placements, FreshTeams;
    assert WrittenRows(w.rows, w.rows, p.effect) == Placed(w.rows, formed.rosters, change.session.teams);
    assert before + change.events + moves + [] == before + (change.events + moves);
  }

  lemma DraftPlanIsFinish(w: World, drafts: seq<D.Draft>, c: D.DraftChange)
    requires c.draft.config.teamCount == 2
    ensures CarriedOut(w, DraftPlan(w, drafts, c), w.rows) == Finish(w.(drafts := drafts), c)
  {
    hide ReplaceTeams, Replacing, CarriedOut, D.Roster;
    if c.draft.status == D.Finished {
      ReplacingIsReplace(w, drafts, w.rounds, DraftTeams(c.draft), c.draft.config, ByDraft, c.draft.startedBy,
        c.events);
    } else {
      UntouchedRows(w, DraftPlan(w, drafts, c));
    }
  }

  lemma DraftPlansAreOutcomes(w: World, cmd: Command)
    requires Shaped(w) && (cmd.DoStartDraft? || cmd.DoPick? || cmd.DoReplaceCaptain? || cmd.DoCancelDraft?)
    ensures Legal(w, cmd) && Outcome(w, cmd) == DoneAtOnce(w, PlanOf(w, cmd, GoingIds(w.rows)))
  {
    hide GoingIds, LastWhere, CarriedOut, Finish, DraftPlan, D.Available, V.Options;
    var going := GoingIds(w.rows);
    if cmd.DoStartDraft? {
      var r := D.NewDraft(w.session, cmd.actor, cmd.captainA, cmd.captainB, cmd.order, cmd.minPlayers, going);
      if r.Ok? { DraftPlanIsFinish(w, w.drafts + [r.value.draft], r.value); }
    } else if ActiveDraft(w.drafts).Some? {
      var i := ActiveDraft(w.drafts).value;
      assert w.drafts[i] in w.drafts;
      if cmd.DoCancelDraft? {
        var r := CancelPlan(w, cmd.actor);
        if r.Ok? { UntouchedRows(w, r.value); }
      } else {
        var r := if cmd.DoPick? then D.Picked(w.drafts[i], w.session, cmd.captain, cmd.user, going)
                 else D.CaptainNamed(w.drafts[i], w.session, cmd.actor, cmd.side, cmd.user, going);
        if r.Ok? { DraftPlanIsFinish(w, w.drafts[i := r.value.draft], r.value); }
      }
    }
  }

  lemma RoundPlansAreOutcomes(w: World, cmd: Command)
    requires Shaped(w) && (cmd.DoPropose? || cmd.DoVote? || cmd.DoRetractVote? || cmd.DoWithdraw?)
    ensures Legal(w, cmd) && Outcome(w, cmd) == DoneAtOnce(w, PlanOf(w, cmd, GoingIds(w.rows)))
  {
    hide GoingIds, LastWhere, CarriedOut, Shaped, V.OpenRound, V.Proposed, V.Voted, V.VoteTakenBack, V.Withdrawn;
    var r := PlanOf(w, cmd, GoingIds(w.rows));
    if r.Ok? { UntouchedRows(w, r.value); }
  }

  lemma ClosePlanIsOutcome(w: World, actor: Actor, winner: Option<Choice>)
    requires Shaped(w)
    ensures CloseVoting(w, actor, winner) == DoneAtOnce(w, ClosePlan(w, actor, winner))
  {
    hide LastWhere, CarriedOut, ReplaceTeams, Replacing, V.ClosingChoice, V.Options;
    if OpenRound(w.rounds).Some? {
      var i := OpenRound(w.rounds).value;
      var r := V.ClosedBy(w.rounds[i], w.session, actor, winner);
      if r.Ok? {
        var rounds := w.rounds[i := r.value.round];
        if r.value.winning.None? {
          UntouchedRows(w, ClosePlan(w, actor, winner).value);
        } else {
          var p := r.value.winning.value;
          ReplacingIsReplace(w, w.drafts, rounds, FormedTeams(p.teams, seq(|p.teams|, _ => actor.user), actor.user),
            r.value.round.Config(), ByVote, actor.user, r.value.events);
        }
      }
    }
  }

  lemma CreatePlanIsOutcome(w: World, actor: Actor, teamCount: Option<int>, minPlayers: Option<int>)
    requires NewTeamConfig(teamCount, minPlayers).Ok?
    ensures CreateTeams(w, actor, NewTeamConfig(teamCount, minPlayers).value)
         == DoneAtOnce(w, CreatePlan(w, actor, teamCount, minPlayers))
  {
    hide LastWhere, UnassignedEvents, FreshTeams;
    var r := CreatePlan(w, actor, teamCount, minPlayers);
    if r.Ok? {
      assert WrittenRows(w.rows, w.rows, Clearing) == Cleared(w.rows);
      var moves := MovesOf(r.value, w.rows);
      assert w.outbox + (r.value.before + moves + r.value.after) == w.outbox + (r.value.before + moves) + r.value.after;
      assert r.value.after == [] ==> w.outbox + (r.value.before + moves) + [] == w.outbox + (r.value.before + moves);
    }
  }

  lemma ResetPlanIsOutcome(w: World, actor: Actor)
    ensures ResetTeams(w, actor) == DoneAtOnce(w, ResetPlan(w, actor, GoingIds(w.rows)))
  {
    hide LastWhere, GoingIds;
    var r := ResetPlan(w, actor, GoingIds(w.rows));
    if r.Ok? {
      if HasFormation(w) {
        assert WrittenRows(w.rows, w.rows, Clearing) == Cleared(w.rows);
        assert r.value.before + [] + [] == r.value.before;
      } else {
        UntouchedRows(w, r.value);
        assert w.outbox + [] == w.outbox;
      }
    }
  }

  lemma CreateErrs(w: World, actor: Actor, teamCount: Option<int>, minPlayers: Option<int>)
    requires NewTeamConfig(teamCount, minPlayers).Err?
    ensures CreatePlan(w, actor, teamCount, minPlayers) == Err(NewTeamConfig(teamCount, minPlayers).error)
  {
  }

  /** Reading, deciding and writing at one moment is the serial command. */
  lemma PlanIsOutcome(w: World, cmd: Command)
    requires Shaped(w) && IsFormation(cmd)
    ensures Legal(w, cmd) && Outcome(w, cmd) == DoneAtOnce(w, PlanOf(w, cmd, GoingIds(w.rows)))
    ensures Apply(w, cmd) == FormedAt(w, cmd, w.rows)
  {
    hide CloseVoting, CreateTeams, ResetTeams, ClosePlan, CreatePlan, ResetPlan, CarriedOut, Shaped, GoingIds;
    if cmd.DoStartDraft? || cmd.DoPick? || cmd.DoReplaceCaptain? || cmd.DoCancelDraft? {
      DraftPlansAreOutcomes(w, cmd);
    } else if cmd.DoPropose? || cmd.DoVote? || cmd.DoRetractVote? || cmd.DoWithdraw? {
      RoundPlansAreOutcomes(w, cmd);
    } else {
      match cmd
      case DoClose(actor, winner) => ClosePlanIsOutcome(w, actor, winner);
      case DoCreateTeams(actor, teamCount, minPlayers) =>
        if NewTeamConfig(teamCount, minPlayers).Ok? {
          CreatePlanIsOutcome(w, actor, teamCount, minPlayers);
        } else {
          CreateErrs(w, actor, teamCount, minPlayers);
        }
      case DoResetTeams(actor) => ResetPlanIsOutcome(w, actor);
    }
  }

  lemma DraftPlanIgnoresRows(w: World, drafts: seq<D.Draft>, c: D.DraftChange, rows: seq<Row>)
    requires c.draft.config.teamCount == 2
    ensures DraftPlan(w.(rows := rows), drafts, c) == DraftPlan(w, drafts, c)
  {
    hide FreshTeams, D.Roster;
  }

  lemma SameShape(w: World, rows: seq<Row>)
    requires Shaped(w)
    ensures Shaped(w.(rows := rows))
  {
    hide V.Options;
  }

  lemma DraftPlansIgnoreRows(w: World, cmd: Command, going: seq<UserId>, rows: seq<Row>)
    requires Shaped(w) && Shaped(w.(rows := rows)) && (cmd.DoStartDraft? || cmd.DoPick? || cmd.DoReplaceCaptain?)
    ensures PlanOf(w.(rows := rows), cmd, going) == PlanOf(w, cmd, going)
  {
    hide LastWhere, D.Available, D.Roster, DraftPlan, V.Options;
    if cmd.DoStartDraft? {
      var r := D.NewDraft(w.session, cmd.actor, cmd.captainA, cmd.captainB, cmd.order, cmd.minPlayers, going);
      if r.Ok? { DraftPlanIgnoresRows(w, w.drafts + [r.value.draft], r.value, rows); }
    } else if ActiveDraft(w.drafts).Some? {
      var i := ActiveDraft(w.drafts).value;
      var r := if cmd.DoPick? then D.Picked(w.drafts[i], w.session, cmd.captain, cmd.user, going)
               else D.CaptainNamed(w.drafts[i], w.session, cmd.actor, cmd.side, cmd.user, going);
      assert w.drafts[i] in w.drafts;
      if r.Ok? { DraftPlanIgnoresRows(w, w.drafts[i := r.value.draft], r.value, rows); }
    }
  }

  lemma RoundPlansIgnoreRows(w: World, cmd: Command, going: seq<UserId>, rows: seq<Row>)
    requires Shaped(w) && Shaped(w.(rows := rows))
    requires cmd.DoCancelDraft? || cmd.DoPropose? || cmd.DoVote? || cmd.DoRetractVote? || cmd.DoWithdraw?
    ensures PlanOf(w.(rows := rows), cmd, going) == PlanOf(w, cmd, going)
  {
    hide LastWhere, ChangeOf, V.OpenRound, V.Proposed, Shaped, D.DraftCancelledBy;
  }

  lemma TeamPlansIgnoreRows(w: World, cmd: Command, going: seq<UserId>, rows: seq<Row>)
    requires Shaped(w) && Shaped(w.(rows := rows)) && (cmd.DoClose? || cmd.DoCreateTeams? || cmd.DoResetTeams?)
    ensures PlanOf(w.(rows := rows), cmd, going) == PlanOf(w, cmd, going)
  {
    hide LastWhere, FreshTeams, V.ClosingChoice, V.Options, Shaped;
  }

  /** A plan looks at nobody's row but through who is going. */
  lemma PlanIgnoresRows(w: World, cmd: Command, going: seq<UserId>, rows: seq<Row>)
    requires Shaped(w) && IsFormation(cmd)
    ensures Shaped(w.(rows := rows)) && PlanOf(w.(rows := rows), cmd, going) == PlanOf(w, cmd, going)
  {
    SameShape(w, rows);
    hide Shaped, PlanOf;
    if cmd.DoStartDraft? || cmd.DoPick? || cmd.DoReplaceCaptain? {
      DraftPlansIgnoreRows(w, cmd, going, rows);
    } else if cmd.DoClose? || cmd.DoCreateTeams? || cmd.DoResetTeams? {
      TeamPlansIgnoreRows(w, cmd, going, rows);
    } else {
      RoundPlansIgnoreRows(w, cmd, going, rows);
    }
  }

  /** A commit leaves all but the attendees' rows as the command run alone on the rows it read. */
  lemma FormedIsApplied(w: World, cmd: Command, read: seq<Row>)
    requires Shaped(w) && IsFormation(cmd) && |read| == |w.rows|
    ensures var w0 := w.(rows := read);
      && Shaped(w0) && Legal(w0, cmd)
      && FormedAt(w, cmd, read) == Apply(w0, cmd).(rows := FormedAt(w, cmd, read).rows)
  {
    hide Shaped, Legal, Apply, PlanOf, GoingIds, WrittenRows, MovesOf;
    PlanIgnoresRows(w, cmd, GoingIds(read), read);
    PlanIsOutcome(w.(rows := read), cmd);
  }

  // ---- Carried out on rows rejected since ----

  /** Rejected since they were read, and put back on a roster's team with the spot they had. */
  predicate PutBack(row: Row, read: Row, e: RowEffect)
    requires EffectFits(e)
  {
    row != read && IsGoing(read) && e.Placing? && Placements(read.user, e.formed.rosters) != []
  }

  function Restored(rows: seq<Row>, read: seq<Row>, e: RowEffect): nat
    requires |rows| == |read| && EffectFits(e)
  {
    if rows == [] then 0
    else
      var n := |rows| - 1;
      Restored(rows[..n], read[..n], e) + (if PutBack(rows[n], read[n], e) then 1 else 0)
  }

  lemma WrittenRowIs(row: Row, read: Row, e: RowEffect)
    requires SinceRead(read, row) && EffectFits(e)
    ensures var r := WrittenRow(row, read, e);
      && r.user == row.user && r.source == row.source && r.deleted == row.deleted && r.createdAt == row.createdAt
      && r.status == (if PutBack(row, read, e) then read.status else row.status)
      && (IsGoing(r) <==> IsGoing(row) || PutBack(row, read, e))
      && (IsGoing(r) ==> IsGoing(read)) && (PutBack(row, read, e) ==> !IsGoing(row))
      && (r.team.Some? ==> r.team == row.team || IsGoing(r))
      && (RequestFits(row) && RequestFits(read) ==> RequestFits(r))
  {
    hide Placements;
  }

  /** The number going grows by those put back, and not past what was read. */
  lemma {:induction false} CarriedCounts(rows: seq<Row>, read: seq<Row>, e: RowEffect)
    requires RejectedOnly(read, rows) && EffectFits(e)
    ensures Confirmed(WrittenRows(rows, read, e)) == Confirmed(rows) + Restored(rows, read, e)
    ensures Confirmed(WrittenRows(rows, read, e)) <= Confirmed(read)
  {
    if rows != [] {
      var n := |rows| - 1;
      CarriedCounts(rows[..n], read[..n], e);
      assert SinceRead(read[n], rows[n]);
      WrittenRowIs(rows[n], read[n], e);
      hide WrittenRow, PutBack;
      assert WrittenRows(rows, read, e)[..n] == WrittenRows(rows[..n], read[..n], e);
    }
  }

  lemma CarriedRows(rows: seq<Row>, read: seq<Row>, e: RowEffect)
    requires RejectedOnly(read, rows) && EffectFits(e)
    ensures var r := WrittenRows(rows, read, e);
      && (forall i :: 0 <= i < |rows| ==> r[i].user == rows[i].user && r[i].source == rows[i].source)
      && (OneRowEach(rows) ==> OneRowEach(r)) && (RequestsFit(rows) && RequestsFit(read) ==> RequestsFit(r))
      && (SomeoneWaits(r) ==> SomeoneWaits(rows)) && (SomeoneWaits(rows) ==> SomeoneWaits(r))
  {
    hide WrittenRow, PutBack;
    var r := WrittenRows(rows, read, e);
    forall i | 0 <= i < |rows|
      ensures r[i].user == rows[i].user && r[i].source == rows[i].source && r[i].deleted == rows[i].deleted
      ensures (RequestFits(rows[i]) && RequestFits(read[i]) ==> RequestFits(r[i])) && Waits(r[i]) == Waits(rows[i]) {
      assert SinceRead(read[i], rows[i]);
      WrittenRowIs(rows[i], read[i], e);
    }
    if SomeoneWaits(r) {
      var i :| 0 <= i < |r| && Waits(r[i]);
      assert Waits(rows[i]);
    }
    if SomeoneWaits(rows) {
      var i :| 0 <= i < |rows| && Waits(rows[i]);
      assert Waits(r[i]);
    }
  }

  /** No plan changes the session's rules. */
  lemma PlanKeepsRules(w: World, cmd: Command, going: seq<UserId>)
    requires Shaped(w) && IsFormation(cmd) && PlanOf(w, cmd, going).Ok?
    ensures var s := PlanOf(w, cmd, going).value.session;
      SameRules(w.session, s) && s.capacity == w.session.capacity && s.status == w.session.status
  {
    hide LastWhere, FreshTeams, D.Available, V.ClosingChoice, V.DivisionFault, V.Options;
  }
}
