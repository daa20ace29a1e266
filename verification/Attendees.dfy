/** A user's RSVP on a session: what each domain operation does to it, first as functions of the
    stored row and then as the Attendee object that is loaded, changed and written back
    (activity/internal/domain/attendee.go). */
module Attendees {
  import opened Wrappers
  import opened ActivityTypes

  /** A row of the session's attendee table; deleting one only marks it. */
  datatype Row = Row(
    user: UserId,
    status: AttendeeStatus,
    source: AttendeeSource,
    team: Option<TeamId>,
    createdAt: int,
    deleted: bool)

  predicate HoldsSpot(status: AttendeeStatus) {
    status == Going || status == Promoted
  }

  /** The row an operation leaves behind and the events it raised. */
  datatype Change = Change(row: Row, events: seq<Event>)

  function NewRsvp(s: Session, user: UserId, status: AttendeeStatus, confirmed: int, now: int): Change {
    match status
    case Going =>
      if s.HasCapacity(confirmed) then Change(Row(user, Going, RsvpManual, None, now, false), [RsvpGoing(user)])
      else Change(Row(user, Pending, RsvpManual, None, now, false), [RsvpAutoPending(user)])
    case NotGoing => Change(Row(user, NotGoing, RsvpManual, None, now, false), [RsvpNotGoing(user, false)])
    case Maybe => Change(Row(user, Maybe, RsvpManual, None, now, false), [RsvpMaybe(user, false)])
    case _ => Change(Row(user, status, RsvpManual, None, now, false), [])
  }

  function NewInvited(s: Session, user: UserId, confirmed: int, now: int): Change {
    var c := NewRsvp(s, user, Going, confirmed, now);
    c.(row := c.row.(source := Invited))
  }

  function NewRequested(user: UserId, now: int): Change {
    Change(Row(user, Pending, Requested, None, now, false), [JoinRequested(user)])
  }

  function Released(row: Row, why: UnassignReason, who: UserId): Change {
    if row.team.None? then Change(row, [])
    else Change(row.(team := None), [TeamUnassigned(row.user, row.team.value, why, who)])
  }

  predicate TransitionAllowed(from: AttendeeStatus, to: AttendeeStatus) {
    match from
    case NotGoing => to != Going
    case Maybe => to != Pending
    case Going => to != Pending
    case Promoted => to != Pending
    case Pending => to != Going
  }

  function UpdatedRsvp(row: Row, to: AttendeeStatus, s: Session, confirmed: int): Result<Change, Error> {
    if to == row.status then Ok(Change(row, []))
    else if !TransitionAllowed(row.status, to) then Err(InvalidTransition)
    else match to
      case Going =>
        if s.HasCapacity(confirmed) then Ok(Change(row.(status := Going), [RsvpGoing(row.user)]))
        else Ok(Change(row.(status := Pending), [RsvpAutoPending(row.user)]))
      case NotGoing =>
        var c := Released(row.(status := NotGoing), Left, NOBODY);
        Ok(Change(c.row, [RsvpNotGoing(row.user, HoldsSpot(row.status))] + c.events))
      case Maybe =>
        var c := Released(row.(status := Maybe), Left, NOBODY);
        Ok(Change(c.row, [RsvpMaybe(row.user, HoldsSpot(row.status))] + c.events))
      case _ => Ok(Change(row, []))
  }

  function PromotedRow(row: Row): Result<Change, Error> {
    if row.status != Pending then Err(InvalidAttendeeStatus)
    else Ok(Change(row.(status := Promoted), [AttendeePromoted(row.user)]))
  }

  predicate AwaitsApproval(row: Row) {
    row.status == Pending && row.source == Requested
  }

  function Approved(row: Row, s: Session, actor: Actor): Result<Change, Error> {
    if !s.ManagedBy(actor) then Err(Unauthorized)
    else if !AwaitsApproval(row) then Err(NotAwaitingApproval)
    else Ok(Change(row.(status := Going), [JoinApproved(row.user, actor.user)]))
  }

  function Rejected(row: Row, s: Session, actor: Actor): Result<Change, Error> {
    if !s.ManagedBy(actor) then Err(Unauthorized)
    else if !AwaitsApproval(row) then Err(NotAwaitingApproval)
    else Ok(Change(row.(status := NotGoing), [JoinRejected(row.user, actor.user)]))
  }

  function Removed(row: Row, s: Session, actor: Actor): Result<Change, Error> {
    if !s.ManagedBy(actor) then Err(Unauthorized)
    else if row.user == s.creator then Err(CannotRemoveCreator)
    else if !HoldsSpot(row.status) then Err(AttendeeNotGoing)
    else
      var c := Released(row, RemovedByManager, actor.user);
      Ok(Change(c.row, [AttendeeRemoved(row.user, actor.user)] + c.events))
  }

  /** Why the session's team membership cannot be edited, if it cannot. */
  function TeamsEditable(s: Session): Option<Error> {
    if !s.HasTeams() then Some(NoTeams) else TeamsLock(s)
  }

  function OnTeam(row: Row, s: Session, team: TeamId, actor: Actor): Result<Change, Error> {
    if !s.ManagedBy(actor) then Err(Unauthorized)
    else if TeamsEditable(s).Some? then Err(TeamsEditable(s).value)
    else if team !in s.teams then Err(TeamNotFound)
    else if !HoldsSpot(row.status) then Err(AttendeeNotGoing)
    else if row.team == Some(team) then Ok(Change(row, []))
    else Ok(Change(row.(team := Some(team)),
      [if row.team.None? then TeamAssigned(row.user, team, actor.user)
       else TeamChanged(row.user, row.team.value, team, actor.user)]))
  }

  function OffTeam(row: Row, s: Session, actor: Actor): Result<Change, Error> {
    if !s.ManagedBy(actor) then Err(Unauthorized)
    else if TeamsEditable(s).Some? then Err(TeamsEditable(s).value)
    else Ok(Released(row, UnassignedByHand, actor.user))
  }

  /** The object a row is loaded into: operations change its fields and append to its events. */
  class Attendee {
    const id: nat
    var user: UserId
    var status: AttendeeStatus
    var source: AttendeeSource
    var teamID: Option<TeamId>
    var createdAt: int
    var events: seq<Event>

    constructor Load(id: nat, row: Row)
      requires !row.deleted
      ensures this.id == id && AsRow() == row && events == []
    {
      this.id := id;
      user, status, source, teamID, createdAt := row.user, row.status, row.source, row.team, row.createdAt;
      events := [];
    }

    constructor NewRSVPManual(id: nat, s: Session, user: UserId, answer: AttendeeStatus, confirmed: int, now: int)
      ensures this.id == id && Is(NewRsvp(s, user, answer, confirmed, now))
      ensures this.user == user && createdAt == now && (answer == Going || status == answer)
    {
      this.id := id;
      this.user, status, source, teamID, createdAt := user, answer, RsvpManual, None, now;
      events := [];
      new;
      if answer == Going {
        if s.HasCapacity(confirmed) {
          events := events + [RsvpGoing(user)];
        } else {
          status := Pending;
          events := events + [RsvpAutoPending(user)];
        }
      } else if answer == NotGoing {
        events := events + [RsvpNotGoing(user, HoldsSpot(status))];
      } else if answer == Maybe {
        events := events + [RsvpMaybe(user, HoldsSpot(status))];
      }
    }

    constructor NewRequest(id: nat, user: UserId, now: int)
      ensures this.id == id && Is(NewRequested(user, now))
      ensures this.user == user && createdAt == now && status == Pending
    {
      this.id := id;
      this.user, status, source, teamID, createdAt := user, Pending, Requested, None, now;
      events := [JoinRequested(user)];
    }

    function AsRow(): Row
      reads this
    {
      Row(user, status, source, teamID, createdAt, false)
    }

    predicate Is(c: Change)
      reads this
    {
      AsRow() == c.row && events == c.events
    }

    /** The object now holds what the operation makes of its old row, or is untouched by an error. */
    twostate predicate Took(result: Result<Change, Error>, new err: Option<Error>)
      reads this
    {
      match result
      case Err(e) => err == Some(e) && AsRow() == old(AsRow()) && events == old(events)
      case Ok(c) => err == None && AsRow() == c.row && events == old(events) + c.events
    }

    method UpdateRSVP(to: AttendeeStatus, s: Session, confirmed: int) returns (err: Option<Error>)
      modifies this
      ensures Took(UpdatedRsvp(old(AsRow()), to, s, confirmed), err)
      ensures err.None? && (to == NotGoing || to == Maybe) ==> status == to
    {
      if to == status { return None; }
      if !TransitionAllowed(status, to) { return Some(InvalidTransition); }
      var oldStatus := status;
      match to {
        case Going =>
          if !s.HasCapacity(confirmed) {
            status := Pending;
            events := events + [RsvpAutoPending(user)];
            return None;
          }
          status := Going;
          events := events + [RsvpGoing(user)];
        case NotGoing =>
          status := NotGoing;
          events := events + [RsvpNotGoing(user, HoldsSpot(oldStatus))];
          ReleaseTeam(Left, NOBODY);
        case Maybe =>
          status := Maybe;
          events := events + [RsvpMaybe(user, HoldsSpot(oldStatus))];
          ReleaseTeam(Left, NOBODY);
        case _ =>
      }
      return None;
    }

    method Promote() returns (err: Option<Error>)
      modifies this
      ensures Took(PromotedRow(old(AsRow())), err)
    {
      if status != Pending { return Some(InvalidAttendeeStatus); }
      status := Promoted;
      events := events + [AttendeePromoted(user)];
      return None;
    }

    method Approve(s: Session, actor: Actor) returns (err: Option<Error>)
      modifies this
      ensures Took(Approved(old(AsRow()), s, actor), err)
    {
      if !s.ManagedBy(actor) { return Some(Unauthorized); }
      if status != Pending || source != Requested { return Some(NotAwaitingApproval); }
      status := Going;
      events := events + [JoinApproved(user, actor.user)];
      return None;
    }

    method Reject(s: Session, actor: Actor) returns (err: Option<Error>)
      modifies this
      ensures Took(Rejected(old(AsRow()), s, actor), err)
    {
      if !s.ManagedBy(actor) { return Some(Unauthorized); }
      if status != Pending || source != Requested { return Some(NotAwaitingApproval); }
      status := NotGoing;
      events := events + [JoinRejected(user, actor.user)];
      return None;
    }

    method Remove(s: Session, actor: Actor) returns (err: Option<Error>)
      modifies this
      ensures Took(Removed(old(AsRow()), s, actor), err)
    {
      if !s.ManagedBy(actor) { return Some(Unauthorized); }
      if user == s.creator { return Some(CannotRemoveCreator); }
      if !HoldsSpot(status) { return Some(AttendeeNotGoing); }
      events := events + [AttendeeRemoved(user, actor.user)];
      ReleaseTeam(RemovedByManager, actor.user);
      return None;
    }

    method AssignToTeam(s: Session, team: TeamId, actor: Actor) returns (err: Option<Error>)
      modifies this
      ensures Took(OnTeam(old(AsRow()), s, team, actor), err)
    {
      if !s.ManagedBy(actor) { return Some(Unauthorized); }
      var locked := TeamsEditable(s);
      if locked.Some? { return locked; }
      if team !in s.teams { return Some(TeamNotFound); }
      if !HoldsSpot(status) { return Some(AttendeeNotGoing); }
      if teamID == Some(team) { return None; }
      var previous := teamID;
      teamID := Some(team);
      if previous.None? {
        events := events + [TeamAssigned(user, team, actor.user)];
      } else {
        events := events + [TeamChanged(user, previous.value, team, actor.user)];
      }
      return None;
    }

    method UnassignFromTeam(s: Session, actor: Actor) returns (err: Option<Error>)
      modifies this
      ensures Took(OffTeam(old(AsRow()), s, actor), err)
    {
      if !s.ManagedBy(actor) { return Some(Unauthorized); }
      var locked := TeamsEditable(s);
      if locked.Some? { return locked; }
      ReleaseTeam(UnassignedByHand, actor.user);
      return None;
    }

    method AssignToFormedTeam(team: TeamId, who: UserId)
      modifies this
      ensures AsRow() == old(AsRow()).(team := Some(team))
      ensures events == old(events) + [TeamAssigned(user, team, who)]
    {
      teamID := Some(team);
      events := events + [TeamAssigned(user, team, who)];
    }

    method ReleaseTeam(why: UnassignReason, who: UserId)
      modifies this
      ensures Took(Ok(Released(old(AsRow()), why, who)), None)
    {
      if teamID.None? { return; }
      var team := teamID.value;
      teamID := None;
      events := events + [TeamUnassigned(user, team, why, who)];
    }
  }
}
