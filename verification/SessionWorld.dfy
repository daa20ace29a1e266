/** One session's tables and what each service command does to them when it runs alone, that is
    under the session lock (activity/internal/application). A command that fails rolls its
    transaction back, so it is either Err or the next state. */
module SessionWorld {
  import opened Wrappers
  import opened Sequences
  import opened ActivityTypes
  import opened Attendees
  import D = Drafts
  import V = Voting

  datatype World = World(
    session: Session,
    rows: seq<Row>,
    drafts: seq<D.Draft>,
    rounds: seq<V.Round>,
    outbox: seq<Event>,
    nextId: nat)
  {
    function Emit(events: seq<Event>): World {
      this.(outbox := outbox + events)
    }
  }

  // ---- Queries ----

  predicate IsGoing(row: Row) {
    !row.deleted && HoldsSpot(row.status)
  }

  /** The users going, in table order. */
  function GoingIds(rows: seq<Row>): seq<UserId> {
    if rows == [] then []
    else
      var last := rows[|rows| - 1];
      GoingIds(rows[..|rows| - 1]) + (if IsGoing(last) then [last.user] else [])
  }

  function Confirmed(rows: seq<Row>): nat {
    |GoingIds(rows)|
  }

  function LiveRow(rows: seq<Row>, user: UserId): Option<nat> {
    LastWhere(rows, (row: Row) => !row.deleted && row.user == user)
  }

  function ActiveDraft(drafts: seq<D.Draft>): Option<nat> {
    LastWhere(drafts, (d: D.Draft) => d.Running())
  }

  function OpenRound(rounds: seq<V.Round>): Option<nat> {
    LastWhere(rounds, (r: V.Round) => r.status == V.Open)
  }

  /** On the waitlist: pending, and not a request a manager has to decide. */
  predicate Waits(row: Row) {
    !row.deleted && row.status == Pending && row.source != Requested
  }

  /** `next` is whoever has waited longest; among equals any of them. */
  predicate IsNextInLine(rows: seq<Row>, next: Option<nat>) {
    match next
    case None => forall i :: 0 <= i < |rows| ==> !Waits(rows[i])
    case Some(n) =>
      && n < |rows| && Waits(rows[n])
      && forall i :: 0 <= i < |rows| && Waits(rows[i]) ==> rows[n].createdAt <= rows[i].createdAt
  }

  // ---- Attendance ----

  function Inserted(w: World, c: Change): World {
    w.(rows := w.rows + [c.row]).Emit(c.events)
  }

  function Wrote(w: World, i: nat, c: Change): World
    requires i < |w.rows|
  {
    w.(rows := w.rows[i := c.row]).Emit(c.events)
  }

  datatype Standing = NotMember | Member(priority: bool)

  function CreateRsvp(w: World, user: UserId, status: AttendeeStatus, standing: Standing, isOpen: bool, now: int)
    : Result<World, Error>
  {
    if standing.NotMember? && !w.session.isPublic then Err(NotGroupMember)
    else if w.session.status != Scheduled then Err(SessionNotScheduled)
    else if !(standing.Member? && standing.priority) && !isOpen then Err(SessionNotOpen)
    else if LiveRow(w.rows, user).Some? then Err(AlreadyAttending)
    else
      var confirmed := Confirmed(w.rows);
      if status == Going && w.session.requiresApproval then
        if w.session.HasCapacity(confirmed) then Ok(Inserted(w, NewRequested(user, now))) else Err(SessionFull)
      else Ok(Inserted(w, NewRsvp(w.session, user, status, confirmed, now)))
  }

  function AcceptInvite(w: World, user: UserId, now: int): Result<World, Error> {
    if w.session.status != Scheduled then Err(SessionNotScheduled)
    else if LiveRow(w.rows, user).Some? then Err(AlreadyAttending)
    else Ok(Inserted(w, NewInvited(w.session, user, Confirmed(w.rows), now)))
  }

  function Write(w: World, i: nat, c: Result<Change, Error>): Result<World, Error>
    requires i < |w.rows|
  {
    match c
    case Err(e) => Err(e)
    case Ok(change) => Ok(Wrote(w, i, change))
  }

  function ApproveAttendee(w: World, user: UserId, actor: Actor): Result<World, Error> {
    match LiveRow(w.rows, user)
    case None => Err(AttendeeNotFound)
    case Some(i) =>
      if !w.session.HasCapacity(Confirmed(w.rows)) then Err(SessionFull)
      else Write(w, i, Approved(w.rows[i], w.session, actor))
  }

  function RejectAttendee(w: World, user: UserId, actor: Actor): Result<World, Error> {
    match LiveRow(w.rows, user)
    case None => Err(AttendeeNotFound)
    case Some(i) => Write(w, i, Rejected(w.rows[i], w.session, actor))
  }

  function AssignAttendeeTeam(w: World, user: UserId, team: TeamId, actor: Actor): Result<World, Error> {
    if ActiveDraft(w.drafts).Some? then Err(DraftAlreadyActive)
    else match LiveRow(w.rows, user)
      case None => Err(AttendeeNotFound)
      case Some(i) => Write(w, i, OnTeam(w.rows[i], w.session, team, actor))
  }

  function UnassignAttendeeTeam(w: World, user: UserId, actor: Actor): Result<World, Error> {
    if ActiveDraft(w.drafts).Some? then Err(DraftAlreadyActive)
    else match LiveRow(w.rows, user)
      case None => Err(AttendeeNotFound)
      case Some(i) => Write(w, i, OffTeam(w.rows[i], w.session, actor))
  }

  /** The state once the attendee's own row is written, and whether that freed a spot. */
  datatype Departure = Departure(world: World, freed: bool)

  /** The row is marked deleted and taken off its team. */
  function Deleted(w: World, i: nat, events: seq<Event>): World
    requires i < |w.rows|
  {
    w.(rows := w.rows[i := w.rows[i].(deleted := true, team := None)]).Emit(events)
  }

  function RemoveAttendee(w: World, user: UserId, actor: Actor): Result<Departure, Error> {
    match LiveRow(w.rows, user)
    case None => Err(AttendeeNotFound)
    case Some(i) =>
      match Removed(w.rows[i], w.session, actor)
      case Err(e) => Err(e)
      case Ok(c) => Ok(Departure(Deleted(w, i, c.events), HoldsSpot(w.rows[i].status)))
  }

  function UpdateRsvp(w: World, user: UserId, to: AttendeeStatus): Result<Departure, Error> {
    match LiveRow(w.rows, user)
    case None => Err(AttendeeNotFound)
    case Some(i) =>
      match UpdatedRsvp(w.rows[i], to, w.session, Confirmed(w.rows))
      case Err(e) => Err(e)
      case Ok(c) => Ok(Departure(Wrote(w, i, c), HoldsSpot(w.rows[i].status) && !HoldsSpot(c.row.status)))
  }

  function CancelRsvp(w: World, user: UserId): Result<Departure, Error> {
    match LiveRow(w.rows, user)
    case None => Err(AttendeeNotFound)
    case Some(i) =>
      Ok(Departure(Deleted(w, i, Released(w.rows[i], Left, NOBODY).events), HoldsSpot(w.rows[i].status)))
  }

  function PromoteNextPending(w: World, next: Option<nat>): World
    requires IsNextInLine(w.rows, next)
  {
    match next
    case None => w
    case Some(n) => Wrote(w, n, PromotedRow(w.rows[n]).value)
  }

  /** What follows a freed spot: the next in line is promoted, then team formation is reset unless
      the session is over. */
  function AfterDeparture(d: Departure, user: UserId, next: Option<nat>): World
    requires d.freed ==> IsNextInLine(d.world.rows, next)
  {
    if !d.freed then d.world
    else
      var w := PromoteNextPending(d.world, next);
      if TeamsLock(w.session).Some? then w else ResetTeamFormation(w, user, RosterChanged)
  }

  // ---- Team formation ----

  function Cleared(rows: seq<Row>): seq<Row> {
    seq(|rows|, i requires 0 <= i < |rows| => rows[i].(team := None))
  }

  /** Wipes the team formation, if there is any; `going` is whom the event names. */
  function ResetFormation(w: World, who: UserId, reason: ResetReason, going: seq<UserId>): World {
    var draft, round := ActiveDraft(w.drafts), OpenRound(w.rounds);
    if !w.session.HasTeams() && draft.None? && round.None? then w
    else
      w.(session := WithoutTeams(w.session), rows := Cleared(w.rows), drafts := [], rounds := []).Emit(
        (if draft.Some? then D.DraftEnded(w.drafts[draft.value], FormationReset(reason), who).events else [])
        + (if round.Some? then V.RoundEnded(w.rounds[round.value], FormationReset(reason)).events else [])
        + [TeamsReset(who, reason, going)])
  }

  function ResetTeamFormation(w: World, who: UserId, reason: ResetReason): World {
    ResetFormation(w, who, reason, GoingIds(w.rows))
  }

  /** Cancels a running draft and an open round of a session that ended. */
  function SessionOver(w: World, who: UserId): World {
    var d, r := ActiveDraft(w.drafts), OpenRound(w.rounds);
    var w1 := if d.None? then w else
      var c := D.DraftEnded(w.drafts[d.value], SessionEnded, who);
      w.(drafts := w.drafts[d.value := c.draft]).Emit(c.events);
    if r.None? then w1 else
      var c := V.RoundEnded(w.rounds[r.value], SessionEnded);
      w1.(rounds := w1.rounds[r.value := c.round]).Emit(c.events)
  }

  /** The outcome of a draft or a vote: a roster for each team, and who assigned it. */
  datatype FormedTeams = FormedTeams(rosters: seq<seq<UserId>>, assignedBy: seq<UserId>, replacedBy: UserId)

  /** How often a roster names a user, each time as the roster's position. */
  function Times(user: UserId, roster: seq<UserId>, position: nat): seq<nat> {
    if roster == [] then []
    else Times(user, roster[..|roster| - 1], position) + (if roster[|roster| - 1] == user then [position] else [])
  }

  function Placements(user: UserId, rosters: seq<seq<UserId>>): (r: seq<nat>)
    ensures forall k :: 0 <= k < |r| ==> r[k] < |rosters|
  {
    if rosters == [] then []
    else
      var n := |rosters| - 1;
      TimesAre(user, rosters[n], n);
      Placements(user, rosters[..n]) + Times(user, rosters[n], n)
  }

  lemma {:induction false} TimesAre(user: UserId, roster: seq<UserId>, position: nat)
    ensures forall k :: 0 <= k < |Times(user, roster, position)| ==> Times(user, roster, position)[k] == position
    ensures Times(user, roster, position) != [] <==> user in roster
  {
    if roster != [] {
      TimesAre(user, roster[..|roster| - 1], position);
      assert roster == roster[..|roster| - 1] + [roster[|roster| - 1]];
    }
  }

  /** The team of the last position a roster names the user at. */
  function LastTeam(places: seq<nat>, teams: seq<TeamId>): Option<TeamId>
    requires forall k :: 0 <= k < |places| ==> places[k] < |teams|
  {
    if places == [] then None else Some(teams[places[|places| - 1]])
  }

  function Placed(rows: seq<Row>, rosters: seq<seq<UserId>>, teams: seq<TeamId>): seq<Row>
    requires |rosters| == |teams|
  {
    seq(|rows|, i requires 0 <= i < |rows| =>
      rows[i].(team := if IsGoing(rows[i]) then LastTeam(Placements(rows[i].user, rosters), teams) else None))
  }

  function AssignedEvents(user: UserId, places: seq<nat>, teams: seq<TeamId>, assignedBy: seq<UserId>): seq<Event>
    requires |teams| == |assignedBy| && forall k :: 0 <= k < |places| ==> places[k] < |teams|
  {
    seq(|places|, k requires 0 <= k < |places| => TeamAssigned(user, teams[places[k]], assignedBy[places[k]]))
  }

  /** What one attendee going through a replacement of the teams raises. */
  function MoveEvents(row: Row, hadTeams: bool, formed: FormedTeams, teams: seq<TeamId>): seq<Event>
    requires |formed.rosters| == |formed.assignedBy| == |teams|
  {
    (if hadTeams then Released(row, Replaced, formed.replacedBy).events else [])
    + AssignedEvents(row.user, Placements(row.user, formed.rosters), teams, formed.assignedBy)
  }

  function AllMoves(rows: seq<Row>, hadTeams: bool, formed: FormedTeams, teams: seq<TeamId>): seq<Event>
    requires |formed.rosters| == |formed.assignedBy| == |teams|
  {
    if rows == [] then []
    else
      var last := rows[|rows| - 1];
      AllMoves(rows[..|rows| - 1], hadTeams, formed, teams)
      + (if IsGoing(last) then MoveEvents(last, hadTeams, formed, teams) else [])
  }

  /** New teams replace the old ones and every roster is put on its team; `before` is what the
      draft or round itself raised. */
  function ReplaceTeams(w: World, formed: FormedTeams, config: TeamConfig, source: TeamsSource, who: UserId,
                        before: seq<Event>): World
    requires |formed.rosters| == |formed.assignedBy| == config.teamCount
  {
    var change := WithTeams(w.session, config, source, who, w.nextId);
    w.(session := change.session,
       rows := Placed(w.rows, formed.rosters, change.session.teams),
       nextId := w.nextId + config.teamCount).Emit(
      before + (change.events + AllMoves(w.rows, w.session.HasTeams(), formed, change.session.teams)))
  }

  /** The shape the tables' rows always have: a draft makes two teams, an open round offers
      something, and its proposals have its number of teams. */
  predicate Shaped(w: World) {
    && (forall d :: d in w.drafts ==> d.config.teamCount == 2)
    && (forall r :: r in w.rounds && r.status == V.Open ==>
          V.Options(r) != [] && forall p :: p in r.proposals ==> |p.teams| == r.teamCount)
  }

  // ---- Drafts ----

  function DraftTeams(d: D.Draft): FormedTeams {
    FormedTeams([D.Roster(d, D.SideA), D.Roster(d, D.SideB)], [d.captainA, d.captainB], d.startedBy)
  }

  /** A completed draft becomes the session's teams. */
  function Finish(w: World, c: D.DraftChange): World
    requires c.draft.config.teamCount == 2
  {
    if c.draft.status == D.Finished
    then ReplaceTeams(w, DraftTeams(c.draft), c.draft.config, ByDraft, c.draft.startedBy, c.events)
    else w.Emit(c.events)
  }

  function StartDraft(w: World, actor: Actor, captainA: UserId, captainB: UserId, order: D.PickOrder,
                      minPlayers: Option<int>)
    : Result<World, Error>
  {
    if ActiveDraft(w.drafts).Some? then Err(DraftAlreadyActive)
    else if OpenRound(w.rounds).Some? then Err(VotingIsOpen)
    else match D.NewDraft(w.session, actor, captainA, captainB, order, minPlayers, GoingIds(w.rows))
      case Err(e) => Err(e)
      case Ok(c) => Ok(Finish(w.(drafts := w.drafts + [c.draft]), c))
  }

  function DraftStep(w: World, i: nat, c: Result<D.DraftChange, Error>): Result<World, Error>
    requires i < |w.drafts| && (c.Ok? ==> c.value.draft.config.teamCount == 2)
  {
    match c
    case Err(e) => Err(e)
    case Ok(change) => Ok(Finish(w.(drafts := w.drafts[i := change.draft]), change))
  }

  function PickPlayer(w: World, captain: UserId, user: UserId): Result<World, Error>
    requires Shaped(w)
  {
    match ActiveDraft(w.drafts)
    case None => Err(DraftNotActive)
    case Some(i) => DraftStep(w, i, D.Picked(w.drafts[i], w.session, captain, user, GoingIds(w.rows)))
  }

  function ReplaceCaptain(w: World, actor: Actor, side: D.Side, user: UserId): Result<World, Error>
    requires Shaped(w)
  {
    match ActiveDraft(w.drafts)
    case None => Err(DraftNotActive)
    case Some(i) => DraftStep(w, i, D.CaptainNamed(w.drafts[i], w.session, actor, side, user, GoingIds(w.rows)))
  }

  function CancelDraft(w: World, actor: Actor): Result<World, Error> {
    match ActiveDraft(w.drafts)
    case None => Err(DraftNotActive)
    case Some(i) =>
      match D.DraftCancelledBy(w.drafts[i], w.session, actor)
      case Err(e) => Err(e)
      case Ok(c) => Ok(w.(drafts := w.drafts[i := c.draft]).Emit(c.events))
  }

  // ---- Voting ----

  function Propose(w: World, author: UserId, teams: seq<seq<UserId>>): Result<World, Error> {
    if ActiveDraft(w.drafts).Some? then Err(DraftAlreadyActive)
    else match OpenRound(w.rounds)
      case None =>
        (match V.OpenRound(w.session, author, teams, GoingIds(w.rows), w.nextId)
         case Err(e) => Err(e)
         case Ok(c) => Ok(w.(rounds := w.rounds + [c.round], nextId := w.nextId + 1).Emit(c.events)))
      case Some(i) =>
        (match V.Proposed(w.rounds[i], w.session, author, teams, GoingIds(w.rows), w.nextId)
         case Err(e) => Err(e)
         case Ok(c) => Ok(w.(rounds := w.rounds[i := c.round], nextId := w.nextId + 1).Emit(c.events)))
  }

  function RoundStep(w: World, i: nat, c: Result<V.RoundChange, Error>): Result<World, Error>
    requires i < |w.rounds|
  {
    match c
    case Err(e) => Err(e)
    case Ok(change) => Ok(w.(rounds := w.rounds[i := change.round]).Emit(change.events))
  }

  function CastVote(w: World, voter: UserId, choice: Choice): Result<World, Error> {
    match OpenRound(w.rounds)
    case None => Err(VotingNotOpen)
    case Some(i) => RoundStep(w, i, V.Voted(w.rounds[i], voter, choice, GoingIds(w.rows)))
  }

  function RetractVote(w: World, voter: UserId): Result<World, Error> {
    match OpenRound(w.rounds)
    case None => Err(VotingNotOpen)
    case Some(i) => RoundStep(w, i, V.VoteTakenBack(w.rounds[i], voter, GoingIds(w.rows)))
  }

  function WithdrawProposal(w: World, requester: UserId, id: ProposalId): Result<World, Error> {
    match OpenRound(w.rounds)
    case None => Err(VotingNotOpen)
    case Some(i) => RoundStep(w, i, V.Withdrawn(w.rounds[i], requester, id))
  }

  function CloseVoting(w: World, actor: Actor, winner: Option<Choice>): Result<World, Error>
    requires Shaped(w)
  {
    match OpenRound(w.rounds)
    case None => Err(VotingNotOpen)
    case Some(i) =>
      match V.ClosedBy(w.rounds[i], w.session, actor, winner)
      case Err(e) => Err(e)
      case Ok(c) =>
        var w1 := w.(rounds := w.rounds[i := c.round]);
        match c.winning
        case None => Ok(w1.Emit(c.events))
        case Some(p) =>
          var formed := FormedTeams(p.teams, seq(|p.teams|, _ => actor.user), actor.user);
          Ok(ReplaceTeams(w1, formed, c.round.Config(), ByVote, actor.user, c.events))
  }

  // ---- Teams by hand, and the session's own life ----

  function UnassignedEvents(rows: seq<Row>, who: UserId): seq<Event> {
    if rows == [] then []
    else
      var last := rows[|rows| - 1];
      UnassignedEvents(rows[..|rows| - 1], who) + (if last.deleted then [] else Released(last, Replaced, who).events)
  }

  function CreateTeams(w: World, actor: Actor, config: TeamConfig): Result<World, Error> {
    if ActiveDraft(w.drafts).Some? then Err(DraftAlreadyActive)
    else if !w.session.ManagedBy(actor) then Err(Unauthorized)
    else if TeamsLock(w.session).Some? then Err(TeamsLock(w.session).value)
    else if !w.session.isTeamSport then Err(TeamsNotSupported)
    else
      var change := WithTeams(w.session, config, ByHand, actor.user, w.nextId);
      var w1 := w.(session := change.session, rows := Cleared(w.rows), nextId := w.nextId + config.teamCount).Emit(
        change.events + (if w.session.HasTeams() then UnassignedEvents(w.rows, actor.user) else []));
      match OpenRound(w.rounds)
      case None => Ok(w1)
      case Some(i) =>
        var c := V.RoundEnded(w.rounds[i], TeamsReplaced);
        Ok(w1.(rounds := w.rounds[i := c.round]).Emit(c.events))
  }

  function ResetTeams(w: World, actor: Actor): Result<World, Error> {
    if !w.session.ManagedBy(actor) then Err(Unauthorized)
    else if TeamsLock(w.session).Some? then Err(TeamsLock(w.session).value)
    else Ok(ResetTeamFormation(w, actor.user, ByOrganizer))
  }

  function UpdateSession(w: World, actor: Actor, capacity: Option<int>, endsAt: int, isPublic: bool)
    : Result<World, Error>
  {
    match Updated(w.session, actor, capacity, endsAt)
    case Err(e) => Err(e)
    case Ok(c) =>
      match VisibilitySet(c.session, actor, isPublic)
      case Err(e) => Err(e)
      case Ok(v) => Ok(w.(session := v.session).Emit(c.events + v.events))
  }

  function SessionStep(w: World, c: Result<SessionChange, Error>): Result<World, Error> {
    match c
    case Err(e) => Err(e)
    case Ok(change) => Ok(w.(session := change.session).Emit(change.events))
  }

  function EndSession(w: World, c: Result<SessionChange, Error>, who: UserId): Result<World, Error> {
    match SessionStep(w, c)
    case Err(e) => Err(e)
    case Ok(ended) => Ok(SessionOver(ended, who))
  }

  /** One session of an expiry sweep; already ended sessions are passed over. */
  function Expire(w: World, now: int): Result<World, Error> {
    if w.session.Ended() then Ok(w) else EndSession(w, ExpiredAt(w.session, now), NOBODY)
  }

  // ---- Commands and runs ----

  datatype Command =
    | DoCreateRsvp(user: UserId, status: AttendeeStatus, standing: Standing, isOpen: bool, now: int)
    | DoAcceptInvite(user: UserId, now: int)
    | DoApprove(user: UserId, actor: Actor)
    | DoReject(user: UserId, actor: Actor)
    | DoRemove(user: UserId, actor: Actor, next: Option<nat>)
    | DoUpdateRsvp(user: UserId, status: AttendeeStatus, next: Option<nat>)
    | DoCancelRsvp(user: UserId, next: Option<nat>)
    | DoAssignTeam(user: UserId, team: TeamId, actor: Actor)
    | DoUnassignTeam(user: UserId, actor: Actor)
    | DoStartDraft(actor: Actor, captainA: UserId, captainB: UserId, order: D.PickOrder, minPlayers: Option<int>)
    | DoPick(captain: UserId, user: UserId)
    | DoReplaceCaptain(actor: Actor, side: D.Side, user: UserId)
    | DoCancelDraft(actor: Actor)
    | DoPropose(user: UserId, division: seq<seq<UserId>>)
    | DoVote(user: UserId, choice: Choice)
    | DoRetractVote(user: UserId)
    | DoWithdraw(user: UserId, proposal: ProposalId)
    | DoClose(actor: Actor, winner: Option<Choice>)
    | DoCreateTeams(actor: Actor, teamCount: Option<int>, minPlayers: Option<int>)
    | DoResetTeams(actor: Actor)
    | DoUpdateSession(actor: Actor, capacity: Option<int>, endsAt: int, isPublic: bool)
    | DoSetVisibility(actor: Actor, isPublic: bool)
    | DoStart(actor: Actor)
    | DoComplete(actor: Actor)
    | DoCancel(actor: Actor)
    | DoCancelFromGroup(user: UserId)
    | DoExpire(now: int)

  /** RSVP requests carry no other status. */
  predicate IsAnswer(status: AttendeeStatus) {
    status == Going || status == NotGoing || status == Maybe
  }

  /** The attendee's own change, for the commands that may free a spot. */
  function Leaving(w: World, cmd: Command): Result<Departure, Error>
    requires cmd.DoRemove? || cmd.DoUpdateRsvp? || cmd.DoCancelRsvp?
  {
    match cmd
    case DoRemove(user, actor, _) => RemoveAttendee(w, user, actor)
    case DoUpdateRsvp(user, status, _) => UpdateRsvp(w, user, status)
    case DoCancelRsvp(user, _) => CancelRsvp(w, user)
  }

  predicate MayLeave(cmd: Command) {
    cmd.DoRemove? || cmd.DoUpdateRsvp? || cmd.DoCancelRsvp?
  }

  /** The request is one the API can carry, and the promoted attendee is one the waitlist query
      can return. */
  predicate Legal(w: World, cmd: Command) {
    && (cmd.DoCreateRsvp? || cmd.DoUpdateRsvp? ==> IsAnswer(cmd.status))
    && (MayLeave(cmd) && Leaving(w, cmd).Ok? && Leaving(w, cmd).value.freed ==>
          IsNextInLine(Leaving(w, cmd).value.world.rows, cmd.next))
  }

  function Departed(d: Result<Departure, Error>, user: UserId, next: Option<nat>): Result<World, Error>
    requires d.Ok? && d.value.freed ==> IsNextInLine(d.value.world.rows, next)
  {
    match d
    case Err(e) => Err(e)
    case Ok(departure) => Ok(AfterDeparture(departure, user, next))
  }

  function Outcome(w: World, cmd: Command): Result<World, Error>
    requires Shaped(w) && Legal(w, cmd)
  {
    match cmd
    case DoCreateRsvp(user, status, standing, isOpen, now) => CreateRsvp(w, user, status, standing, isOpen, now)
    case DoAcceptInvite(user, now) => AcceptInvite(w, user, now)
    case DoApprove(user, actor) => ApproveAttendee(w, user, actor)
    case DoReject(user, actor) => RejectAttendee(w, user, actor)
    case DoRemove(user, actor, next) => Departed(RemoveAttendee(w, user, actor), user, next)
    case DoUpdateRsvp(user, status, next) => Departed(UpdateRsvp(w, user, status), user, next)
    case DoCancelRsvp(user, next) => Departed(CancelRsvp(w, user), user, next)
    case DoAssignTeam(user, team, actor) => AssignAttendeeTeam(w, user, team, actor)
    case DoUnassignTeam(user, actor) => UnassignAttendeeTeam(w, user, actor)
    case DoStartDraft(actor, captainA, captainB, order, minPlayers) =>
      StartDraft(w, actor, captainA, captainB, order, minPlayers)
    case DoPick(captain, user) => PickPlayer(w, captain, user)
    case DoReplaceCaptain(actor, side, user) => ReplaceCaptain(w, actor, side, user)
    case DoCancelDraft(actor) => CancelDraft(w, actor)
    case DoPropose(author, division) => Propose(w, author, division)
    case DoVote(voter, choice) => CastVote(w, voter, choice)
    case DoRetractVote(voter) => RetractVote(w, voter)
    case DoWithdraw(requester, proposal) => WithdrawProposal(w, requester, proposal)
    case DoClose(actor, winner) => CloseVoting(w, actor, winner)
    case DoCreateTeams(actor, teamCount, minPlayers) =>
      (match NewTeamConfig(teamCount, minPlayers)
       case Err(e) => Err(e)
       case Ok(config) => CreateTeams(w, actor, config))
    case DoResetTeams(actor) => ResetTeams(w, actor)
    case DoUpdateSession(actor, capacity, endsAt, isPublic) => UpdateSession(w, actor, capacity, endsAt, isPublic)
    case DoSetVisibility(actor, isPublic) => SessionStep(w, VisibilitySet(w.session, actor, isPublic))
    case DoStart(actor) => SessionStep(w, StartedBy(w.session, actor))
    case DoComplete(actor) => EndSession(w, CompletedBy(w.session, actor), actor.user)
    case DoCancel(actor) => EndSession(w, CanceledBy(w.session, actor), actor.user)
    case DoCancelFromGroup(who) => EndSession(w, CanceledFromGroup(w.session, NOBODY), who)
    case DoExpire(now) => Expire(w, now)
  }

  /** The committed state after the command: a failed one rolled back. */
  function Apply(w: World, cmd: Command): World
    requires Shaped(w) && Legal(w, cmd)
  {
    match Outcome(w, cmd)
    case Ok(next) => next
    case Err(_) => w
  }

  // ---- Creation ----

  function AutoRow(s: Session, user: UserId, confirmed: int, now: int): Row {
    if s.HasCapacity(confirmed) then Row(user, Going, AutoConfirmed, None, now, false)
    else Row(user, Pending, AutoPending, None, now, false)
  }

  /** The first users up to the capacity get a spot, the rest wait. */
  function AutoRows(s: Session, users: seq<UserId>, now: int): seq<Row> {
    if users == [] then []
    else
      var rows := AutoRows(s, users[..|users| - 1], now);
      rows + [AutoRow(s, users[|users| - 1], Confirmed(rows), now)]
  }

  function AutoEvents(rows: seq<Row>): seq<Event> {
    seq(|rows|, i requires 0 <= i < |rows| =>
      if rows[i].status == Going then AutoConfirmedEvent(rows[i].user) else AutoPendingEvent(rows[i].user))
  }

  function NewWorld(s: Session, users: seq<UserId>, now: int): World {
    var rows := AutoRows(s, users, now);
    World(s, rows, [], [], AutoEvents(rows) + [SessionCreated(s.creator)], 0)
  }

  predicate IsNewSession(s: Session) {
    s.status == Scheduled && s.teamConfig.None? && s.teams == [] && s.teamsSource == NoSource
    && (s.capacity.Some? ==> s.capacity.value > 0)
  }
}
