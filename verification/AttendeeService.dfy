/** RSVPs, approvals, removals and invites: each command loads the attendee, changes the object and
    writes rows and events back (activity/internal/application/attendee_service.go and
    session_invite_service.go). */
module AttendeeService {
  import opened Wrappers
  import opened Sequences
  import opened ActivityTypes
  import opened Attendees
  import W = SessionWorld
  import opened SessionInvariants
  import opened SessionStore
  import TeamFormation
  import D = Drafts
  import V = Voting

  method CreateRSVP(db: Database, user: UserId, status: AttendeeStatus, standing: W.Standing, isOpen: bool, now: int)
    returns (err: Option<Error>)
    requires db.Valid()
    modifies db
    ensures db.Valid()
    ensures Did(old(db.State()), W.CreateRsvp(old(db.State()), user, status, standing, isOpen, now), err, db.State())
  {
    hide Inv;
    ghost var before := db.State();
    var session := db.session;
    var priority := false;
    if standing.Member? {
      priority := standing.priority;
    } else if !session.isPublic {
      return Some(NotGroupMember);
    }
    if session.status != Scheduled { return Some(SessionNotScheduled); }
    if !priority && !isOpen { return Some(SessionNotOpen); }
    var existing := db.GetAttendee(user);
    if existing != null { return Some(AlreadyAttending); }
    var confirmed := W.Confirmed(db.rows);
    var attendee;
    if status == Going && session.requiresApproval {
      if !session.HasCapacity(confirmed) { return Some(SessionFull); }
      attendee := new Attendee.NewRequest(|db.rows|, user, now);
    } else {
      attendee := new Attendee.NewRSVPManual(|db.rows|, session, user, status, confirmed, now);
    }
    db.CreateAttendee(attendee);
    db.InsertEvents(attendee.events);
    RsvpKeepsValid(before, user, status, standing, isOpen, now, db.State());
    return None;
  }

  /** An answer the API can carry is the serial command; any other would keep the tables valid too. */
  lemma RsvpKeepsValid(before: W.World, user: UserId, status: AttendeeStatus, standing: W.Standing, isOpen: bool,
                       now: int, after: W.World)
    requires Inv(before) && Did(before, W.CreateRsvp(before, user, status, standing, isOpen, now), None, after)
    ensures Inv(after)
  {
    InvShaped(before);
    hide Inv, LastWhere, W.GoingIds, W.Shaped;
    if W.IsAnswer(status) {
      DoneKeepsValid(before, W.DoCreateRsvp(user, status, standing, isOpen, now), None, after);
    } else {
      InsertKeepsInv(before, NewRsvp(before.session, user, status, W.Confirmed(before.rows), now));
    }
  }

  method AcceptInvite(db: Database, user: UserId, now: int) returns (err: Option<Error>)
    requires db.Valid()
    modifies db
    ensures db.Valid()
    ensures Did(old(db.State()), W.AcceptInvite(old(db.State()), user, now), err, db.State())
  {
    hide Inv;
    ghost var before := db.State();
    var session := db.session;
    if session.status != Scheduled { return Some(SessionNotScheduled); }
    var existing := db.GetAttendee(user);
    if existing != null { return Some(AlreadyAttending); }
    var confirmed := W.Confirmed(db.rows);
    var attendee := new Attendee.NewRSVPManual(|db.rows|, session, user, Going, confirmed, now);
    attendee.source := Invited;
    db.CreateAttendee(attendee);
    db.InsertEvents(attendee.events);
    DoneKeepsValid(before, W.DoAcceptInvite(user, now), None, db.State());
    return None;
  }

  method ApproveAttendee(db: Database, user: UserId, actor: Actor) returns (err: Option<Error>)
    requires db.Valid()
    modifies db
    ensures db.Valid()
    ensures Did(old(db.State()), W.ApproveAttendee(old(db.State()), user, actor), err, db.State())
  {
    hide Inv;
    ghost var before := db.State();
    var attendee := db.GetAttendee(user);
    if attendee == null { return Some(AttendeeNotFound); }
    if !db.session.HasCapacity(W.Confirmed(db.rows)) { return Some(SessionFull); }
    err := attendee.Approve(db.session, actor);
    if err.Some? { return; }
    db.UpdateAttendee(attendee);
    db.InsertEvents(attendee.events);
    DoneKeepsValid(before, W.DoApprove(user, actor), None, db.State());
  }

  method RejectAttendee(db: Database, user: UserId, actor: Actor) returns (err: Option<Error>)
    requires db.Valid()
    modifies db
    ensures db.Valid()
    ensures Did(old(db.State()), W.RejectAttendee(old(db.State()), user, actor), err, db.State())
  {
    hide Inv;
    ghost var before := db.State();
    var attendee := db.GetAttendee(user);
    if attendee == null { return Some(AttendeeNotFound); }
    err := attendee.Reject(db.session, actor);
    if err.Some? { return; }
    db.UpdateAttendee(attendee);
    db.InsertEvents(attendee.events);
    DoneKeepsValid(before, W.DoReject(user, actor), None, db.State());
  }

  method AssignAttendeeTeam(db: Database, user: UserId, team: TeamId, actor: Actor) returns (err: Option<Error>)
    requires db.Valid()
    modifies db
    ensures db.Valid()
    ensures Did(old(db.State()), W.AssignAttendeeTeam(old(db.State()), user, team, actor), err, db.State())
  {
    hide Inv;
    ghost var before := db.State();
    if W.ActiveDraft(db.drafts).Some? { return Some(DraftAlreadyActive); }
    var attendee := db.GetAttendee(user);
    if attendee == null { return Some(AttendeeNotFound); }
    err := attendee.AssignToTeam(db.session, team, actor);
    if err.Some? { return; }
    db.UpdateAttendee(attendee);
    db.InsertEvents(attendee.events);
    DoneKeepsValid(before, W.DoAssignTeam(user, team, actor), None, db.State());
  }

  method UnassignAttendeeTeam(db: Database, user: UserId, actor: Actor) returns (err: Option<Error>)
    requires db.Valid()
    modifies db
    ensures db.Valid()
    ensures Did(old(db.State()), W.UnassignAttendeeTeam(old(db.State()), user, actor), err, db.State())
  {
    hide Inv;
    ghost var before := db.State();
    if W.ActiveDraft(db.drafts).Some? { return Some(DraftAlreadyActive); }
    var attendee := db.GetAttendee(user);
    if attendee == null { return Some(AttendeeNotFound); }
    err := attendee.UnassignFromTeam(db.session, actor);
    if err.Some? { return; }
    db.UpdateAttendee(attendee);
    db.InsertEvents(attendee.events);
    DoneKeepsValid(before, W.DoUnassignTeam(user, actor), None, db.State());
  }

  /** Promotes whoever has waited longest, if anybody waits. */
  method PromoteNextPending(db: Database) returns (next: Option<nat>)
    modifies db`rows, db`outbox
    ensures W.IsNextInLine(old(db.rows), next)
    ensures db.State() == W.PromoteNextPending(old(db.State()), next)
  {
    next := db.GetFirstPending();
    if next.None? { return; }
    var pending := new Attendee.Load(next.value, db.rows[next.value]);
    var err := pending.Promote();
    assert err.None?;
    db.UpdateAttendee(pending);
    db.InsertEvents(pending.events);
  }

  /** Once someone no longer holds a spot: the next in line is promoted, then team formation is
      reset unless the session is over. */
  method SpotFreed(db: Database, user: UserId) returns (next: Option<nat>)
    modifies db
    ensures W.IsNextInLine(old(db.rows), next)
    ensures db.State() == W.AfterDeparture(W.Departure(old(db.State()), true), user, next)
  {
    next := PromoteNextPending(db);
    if TeamsLock(db.session).Some? { return; }
    var events := TeamFormation.ResetTeamFormation(db, user, RosterChanged);
    db.InsertEvents(events);
  }

  method RemoveAttendee(db: Database, user: UserId, actor: Actor) returns (err: Option<Error>, next: Option<nat>)
    requires db.Valid()
    modifies db
    ensures db.Valid()
    ensures Departed(old(db.State()), W.RemoveAttendee(old(db.State()), user, actor), user, err, next, db.State())
  {
    ghost var before := db.State();
    hide Inv, LastWhere, W.GoingIds, W.AfterDeparture, W.IsNextInLine;
    next := None;
    var attendee := db.GetAttendee(user);
    if attendee == null { return Some(AttendeeNotFound), None; }
    var heldSpot := HoldsSpot(attendee.status);
    err := attendee.Remove(db.session, actor);
    if err.Some? { return; }
    db.DeleteAttendee(attendee.id);
    db.InsertEvents(attendee.events);
    assert attendee.events == Removed(old(db.rows)[attendee.id], old(db.session), actor).value.events;
    assert db.State() == W.Deleted(old(db.State()), attendee.id, attendee.events);
    assert W.RemoveAttendee(old(db.State()), user, actor) == Ok(W.Departure(db.State(), heldSpot));
    if heldSpot {
      next := SpotFreed(db, user);
    }
    DepartedKeepsValid(before, W.DoRemove(user, actor, next), None, db.State());
  }

  method UpdateRSVP(db: Database, user: UserId, to: AttendeeStatus) returns (err: Option<Error>, next: Option<nat>)
    requires db.Valid()
    modifies db
    ensures db.Valid()
    ensures Departed(old(db.State()), W.UpdateRsvp(old(db.State()), user, to), user, err, next, db.State())
  {
    ghost var before := db.State();
    hide Inv, LastWhere, W.GoingIds, W.AfterDeparture, W.IsNextInLine;
    next := None;
    var attendee := db.GetAttendee(user);
    if attendee == null { return Some(AttendeeNotFound), None; }
    var confirmed := W.Confirmed(db.rows);
    var oldStatus := attendee.status;
    err := attendee.UpdateRSVP(to, db.session, confirmed);
    if err.Some? { return; }
    db.UpdateAttendee(attendee);
    db.InsertEvents(attendee.events);
    assert attendee.events == UpdatedRsvp(old(db.rows)[attendee.id], to, old(db.session), confirmed).value.events;
    assert db.State() == W.Wrote(old(db.State()), attendee.id, Change(attendee.AsRow(), attendee.events));
    assert W.UpdateRsvp(old(db.State()), user, to)
      == Ok(W.Departure(db.State(), HoldsSpot(oldStatus) && !HoldsSpot(attendee.status)));
    if HoldsSpot(oldStatus) && !HoldsSpot(attendee.status) {
      next := SpotFreed(db, user);
    } else {
      UnfreedIsItself(W.Departure(db.State(), false), user, next);
    }
    AnswerKeepsValid(before, user, to, next, db.State());
  }

  /** An answer the API can carry is the serial command; any other changes nothing. */
  lemma AnswerKeepsValid(before: W.World, user: UserId, to: AttendeeStatus, next: Option<nat>, after: W.World)
    requires Inv(before) && Departed(before, W.UpdateRsvp(before, user, to), user, None, next, after)
    ensures Inv(after)
  {
    InvShaped(before);
    hide Inv, LastWhere, W.GoingIds, W.Shaped, W.AfterDeparture, W.IsNextInLine;
    if W.IsAnswer(to) {
      DepartedKeepsValid(before, W.DoUpdateRsvp(user, to, next), None, after);
    } else {
      LiveRowIs(before.rows, user);
      var i := W.LiveRow(before.rows, user).value;
      RowOnTeam(before, i);
      var c := UpdatedRsvp(before.rows[i], to, before.session, W.Confirmed(before.rows)).value;
      WriteKeepsInv(before, i, c);
      UnfreedIsItself(W.Departure(W.Wrote(before, i, c), false), user, next);
    }
  }

  method CancelRSVP(db: Database, user: UserId) returns (err: Option<Error>, next: Option<nat>)
    requires db.Valid()
    modifies db
    ensures db.Valid()
    ensures Departed(old(db.State()), W.CancelRsvp(old(db.State()), user), user, err, next, db.State())
  {
    ghost var before := db.State();
    hide Inv, LastWhere, W.GoingIds, W.AfterDeparture, W.IsNextInLine;
    next := None;
    var attendee := db.GetAttendee(user);
    if attendee == null { return Some(AttendeeNotFound), None; }
    var oldStatus := attendee.status;
    attendee.ReleaseTeam(Left, NOBODY);
    db.DeleteAttendee(attendee.id);
    db.InsertEvents(attendee.events);
    err := None;
    assert attendee.events == Released(old(db.rows)[attendee.id], Left, NOBODY).events;
    assert db.State() == W.Deleted(old(db.State()), attendee.id, attendee.events);
    assert W.CancelRsvp(old(db.State()), user) == Ok(W.Departure(db.State(), HoldsSpot(oldStatus)));
    if HoldsSpot(oldStatus) {
      next := SpotFreed(db, user);
    } else {
      UnfreedIsItself(W.Departure(db.State(), false), user, next);
    }
    DepartedKeepsValid(before, W.DoCancelRsvp(user, next), None, db.State());
  }
}
