/** The vocabulary of the activity service: who acts, what a session is, what can go wrong and
    which events are written to the outbox. */
module ActivityTypes {
  import opened Wrappers

  type UserId = nat
  type TeamId = nat
  type ProposalId = nat

  // The nil id: no real user has it.
  const NOBODY: UserId := 0
  const MAX_TEAM_COUNT: nat := 8

  /** A requester: the user, and whether their group role is creator or admin. */
  datatype Actor = Actor(user: UserId, managesGroup: bool)

  datatype AttendeeStatus = Going | Pending | NotGoing | Maybe | Promoted

  datatype AttendeeSource = AutoConfirmed | AutoPending | RsvpManual | Requested | Invited

  datatype SessionStatus = Scheduled | Started | Completed | Canceled

  datatype TeamsSource = NoSource | ByHand | ByDraft | ByVote

  datatype UnassignReason = Left | RemovedByManager | UnassignedByHand | Replaced

  datatype ResetReason = RosterChanged | ByOrganizer

  datatype EndReason = OrganizerCancelled | SessionEnded | TeamsReplaced | NoProposals
    | FormationReset(reset: ResetReason)

  /** A nil minimum stands for one player a team. */
  datatype TeamConfig = TeamConfig(teamCount: nat, minPlayers: Option<int>) {
    function PerTeam(): int {
      if minPlayers.Some? then minPlayers.value else 1
    }

    function PlayersNeeded(): int {
      teamCount * PerTeam()
    }
  }

  datatype Choice = KeepCurrent | For(proposal: ProposalId)

  datatype DivisionProblem = WrongTeamCount | PlayerNotGoing | DuplicatePlayer | MissingPlayers | TeamBelowMinimum

  datatype Error =
    | Unauthorized
    | AttendeeNotFound | AlreadyAttending | NotGroupMember | SessionFull
    | InvalidTransition | InvalidAttendeeStatus | NotAwaitingApproval | CannotRemoveCreator | AttendeeNotGoing
    | SessionNotScheduled | SessionNotOpen | SessionIsCanceled | SessionIsCompleted | SessionAlreadyStarted
    | SessionNotStarted | NotExpiredYet | InvalidCapacity
    | NoTeams | TeamNotFound | TeamsNotSupported | TeamsDrafted | InvalidTeamConfig
    | DraftAlreadyActive | DraftNotActive | DraftNotPaused | DraftIsPaused
    | InvalidCaptains | CaptainNotConfirmed | NotEnoughPlayers | NotDraftCaptain | NotYourTurn | PlayerNotAvailable
    | VotingIsOpen | VotingNotOpen | InvalidDivision(problem: DivisionProblem) | DuplicateProposal(existing: ProposalId)
    | ProposalNotFound | KeepCurrentNotAvailable | NotProposalAuthor | TieRequiresWinner(tied: seq<Choice>)
      | InvalidWinner

  datatype Event =
    | AutoConfirmedEvent(user: UserId) | AutoPendingEvent(user: UserId)
    | RsvpGoing(user: UserId) | RsvpAutoPending(user: UserId)
    | RsvpNotGoing(user: UserId, releasedSpot: bool) | RsvpMaybe(user: UserId, releasedSpot: bool)
    | AttendeePromoted(user: UserId)
    | JoinRequested(user: UserId) | JoinApproved(user: UserId, who: UserId) | JoinRejected(user: UserId, who: UserId)
    | AttendeeRemoved(user: UserId, who: UserId)
    | TeamAssigned(user: UserId, team: TeamId, who: UserId)
    | TeamChanged(user: UserId, from: TeamId, team: TeamId, who: UserId)
    | TeamUnassigned(user: UserId, team: TeamId, why: UnassignReason, who: UserId)
    | SessionCreated(who: UserId) | SessionUpdated(who: UserId) | VisibilityChanged(who: UserId)
      | SessionStarted(who: UserId)
    | SessionCompleted(who: UserId) | SessionCancelled(who: UserId) | SessionExpired
    | TeamsCreated(who: UserId, replaced: bool) | TeamsReset(who: UserId, reset: ResetReason, participants: seq<UserId>)
    | DraftStarted(who: UserId) | TurnChanged(turn: nat) | PlayerPicked(turn: nat, user: UserId, who: UserId)
    | CaptainReplaced(user: UserId, who: UserId) | DraftCompleted | DraftCancelled(end: EndReason, who: UserId)
    | VotingOpened(who: UserId) | ProposalCreated(proposal: ProposalId)
    | VoteCast(user: UserId, choice: Choice, changed: bool) | VoteRetracted(user: UserId, choice: Choice)
    | ProposalWithdrawn(proposal: ProposalId, voters: set<UserId>)
    | VotingClosed(who: UserId) | VotingCancelled(end: EndReason)

  /** The session row. A team setup, its teams and where they came from go together. */
  datatype Session = Session(
    creator: UserId,
    requiresApproval: bool,
    isTeamSport: bool,
    status: SessionStatus,
    capacity: Option<int>,
    isPublic: bool,
    endsAt: int,
    teamConfig: Option<TeamConfig>,
    teams: seq<TeamId>,
    teamsSource: TeamsSource)
  {
    predicate HasCapacity(confirmed: int) {
      capacity.None? || confirmed < capacity.value
    }

    predicate ManagedBy(actor: Actor) {
      actor.managesGroup || creator == actor.user
    }

    predicate Ended() {
      status == Completed || status == Canceled
    }

    predicate HasTeams() {
      teamConfig.Some?
    }
  }

  /** Why teams can no longer change, if they cannot. */
  function TeamsLock(s: Session): Option<Error> {
    match s.status
    case Canceled => Some(SessionIsCanceled)
    case Completed => Some(SessionIsCompleted)
    case _ => None
  }

  /** Why the session is no longer merely scheduled, if it is not. */
  function ScheduleLock(s: Session): Option<Error> {
    match s.status
    case Canceled => Some(SessionIsCanceled)
    case Completed => Some(SessionIsCompleted)
    case Started => Some(SessionAlreadyStarted)
    case Scheduled => None
  }

  /** The validated team setup: 2 teams by default, at most 8, a positive minimum if any. */
  function NewTeamConfig(teamCount: Option<int>, minPlayers: Option<int>): Result<TeamConfig, Error> {
    var count := if teamCount.Some? then teamCount.value else 2;
    if count < 2 || count > MAX_TEAM_COUNT then Err(InvalidTeamConfig)
    else if minPlayers.Some? && minPlayers.value <= 0 then Err(InvalidTeamConfig)
    else Ok(TeamConfig(count, minPlayers))
  }

  predicate ValidConfig(c: TeamConfig) {
    2 <= c.teamCount <= MAX_TEAM_COUNT && c.PerTeam() >= 1
  }

  /** A session transition: the new session and the events it raised. */
  datatype SessionChange = SessionChange(session: Session, events: seq<Event>)

  function VisibilitySet(s: Session, actor: Actor, isPublic: bool): Result<SessionChange, Error> {
    if !s.ManagedBy(actor) then Err(Unauthorized)
    else if isPublic == s.isPublic then Ok(SessionChange(s, []))
    else Ok(SessionChange(s.(isPublic := isPublic), [VisibilityChanged(actor.user)]))
  }

  function Updated(s: Session, actor: Actor, capacity: Option<int>, endsAt: int): Result<SessionChange, Error> {
    if ScheduleLock(s).Some? then Err(ScheduleLock(s).value)
    else if !s.ManagedBy(actor) then Err(Unauthorized)
    else if capacity.Some? && capacity.value <= 0 then Err(InvalidCapacity)
    else Ok(SessionChange(s.(capacity := capacity, endsAt := endsAt), [SessionUpdated(actor.user)]))
  }

  function StartedBy(s: Session, actor: Actor): Result<SessionChange, Error> {
    if ScheduleLock(s).Some? then Err(ScheduleLock(s).value)
    else if !s.ManagedBy(actor) then Err(Unauthorized)
    else Ok(SessionChange(s.(status := Started), [SessionStarted(actor.user)]))
  }

  function CompletedBy(s: Session, actor: Actor): Result<SessionChange, Error> {
    if s.status != Started then Err(SessionNotStarted)
    else if !s.ManagedBy(actor) then Err(Unauthorized)
    else Ok(SessionChange(s.(status := Completed), [SessionCompleted(actor.user)]))
  }

  function CanceledFromGroup(s: Session, who: UserId): Result<SessionChange, Error> {
    if s.status == Completed then Err(SessionIsCompleted)
    else if s.status == Canceled then Err(SessionIsCanceled)
    else Ok(SessionChange(s.(status := Canceled), [SessionCancelled(who)]))
  }

  function CanceledBy(s: Session, actor: Actor): Result<SessionChange, Error> {
    if !s.ManagedBy(actor) then Err(Unauthorized) else CanceledFromGroup(s, actor.user)
  }

  function ExpiredAt(s: Session, now: int): Result<SessionChange, Error> {
    if now <= s.endsAt then Err(NotExpiredYet)
    else if s.Ended() then Ok(SessionChange(s, []))
    else Ok(SessionChange(s.(status := Completed), [SessionExpired]))
  }

  function FreshTeams(config: TeamConfig, nextId: nat): (r: seq<TeamId>)
    ensures |r| == config.teamCount
    ensures forall i :: 0 <= i < |r| ==> nextId <= r[i] < nextId + config.teamCount
    ensures forall i, j :: 0 <= i < j < |r| ==> r[i] != r[j]
  {
    seq(config.teamCount, i => nextId + i)
  }

  function WithTeams(s: Session, config: TeamConfig, source: TeamsSource, who: UserId, nextId: nat): SessionChange {
    SessionChange(
      s.(teamConfig := Some(config), teams := FreshTeams(config, nextId), teamsSource := source),
      [TeamsCreated(who, s.HasTeams())])
  }

  function WithoutTeams(s: Session): Session {
    s.(teamConfig := None, teams := [], teamsSource := NoSource)
  }
}
