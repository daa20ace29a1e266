/** What the outbox says about who is going: the last event about anybody on the session's list is
    their status (activity/internal/domain/attendee.go). */
module AttendanceLog {
  import opened Wrappers
  import opened Sequences
  import opened ActivityTypes
  import opened Attendees
  import opened SessionWorld
  import opened SessionInvariants
  import opened SessionWaitlist
  import opened StepEffects
  import opened AttendanceRegister
  import D = Drafts
  import V = Voting

  /** The status the event gives the user, Some(None) for none, None if it says nothing. */
  function Heard(e: Event, user: UserId): Option<Option<AttendeeStatus>> {
    match e
    case AutoConfirmedEvent(u) => if u == user then Some(Some(Going)) else None
    case AutoPendingEvent(u) => if u == user then Some(Some(Pending)) else None
    case RsvpGoing(u) => if u == user then Some(Some(Going)) else None
    case RsvpAutoPending(u) => if u == user then Some(Some(Pending)) else None
    case RsvpNotGoing(u, _) => if u == user then Some(Some(NotGoing)) else None
    case RsvpMaybe(u, _) => if u == user then Some(Some(Maybe)) else None
    case AttendeePromoted(u) => if u == user then Some(Some(Promoted)) else None
    case JoinRequested(u) => if u == user then Some(Some(Pending)) else None
    case JoinApproved(u, _) => if u == user then Some(Some(Going)) else None
    case JoinRejected(u, _) => if u == user then Some(Some(NotGoing)) else None
    case AttendeeRemoved(u, _) => if u == user then Some(None) else None
    case _ => None
  }

  function LastHeard(start: Option<AttendeeStatus>, events: seq<Event>, u: UserId): Option<AttendeeStatus>
    decreases |events|
  {
    if events == [] then start
    else match Heard(events[|events| - 1], u)
      case Some(status) => status
      case None => LastHeard(start, events[..|events| - 1], u)
  }

  lemma {:induction false} HeardBoth(start: Option<AttendeeStatus>, a: seq<Event>, b: seq<Event>, u: UserId)
    ensures LastHeard(start, a + b, u) == LastHeard(LastHeard(start, a, u), b, u)
    decreases |b|
  {
    if b == [] {
      assert a + b == a;
    } else {
      HeardBoth(start, a, b[..|b| - 1], u);
      assert (a + b)[..|a + b| - 1] == a + b[..|b| - 1];
    }
  }

  /** What was heard of someone nothing was known of does not depend on what was known. */
  lemma {:induction false} HeardFromNothing(start: Option<AttendeeStatus>, events: seq<Event>, u: UserId)
    requires LastHeard(None, events, u).Some?
    ensures LastHeard(start, events, u) == LastHeard(None, events, u)
    decreases |events|
  {
    if events != [] && Heard(events[|events| - 1], u).None? {
      HeardFromNothing(start, events[..|events| - 1], u);
    }
  }

  predicate Quiet(e: Event) {
    match e
    case AutoConfirmedEvent(_) => false
    case AutoPendingEvent(_) => false
    case RsvpGoing(_) => false
    case RsvpAutoPending(_) => false
    case RsvpNotGoing(_, _) => false
    case RsvpMaybe(_, _) => false
    case AttendeePromoted(_) => false
    case JoinRequested(_) => false
    case JoinApproved(_, _) => false
    case JoinRejected(_, _) => false
    case AttendeeRemoved(_, _) => false
    case _ => true
  }

  predicate AllQuiet(events: seq<Event>) {
    forall e :: e in events ==> Quiet(e)
  }

  lemma {:induction false} NothingHeard(start: Option<AttendeeStatus>, events: seq<Event>, u: UserId)
    requires AllQuiet(events)
    ensures LastHeard(start, events, u) == start
    decreases |events|
  {
    if events != [] {
      assert Quiet(events[|events| - 1]);
      NothingHeard(start, events[..|events| - 1], u);
    }
  }

  function StatusIn(p: People, u: UserId): Option<AttendeeStatus> {
    if u in p then Some(p[u].status) else None
  }

  /** The events tell of everyone on the list afterwards. */
  ghost predicate Announces(p: People, events: seq<Event>, p': People) {
    forall u :: u in p' ==> LastHeard(StatusIn(p, u), events, u) == Some(p'[u].status)
  }

  lemma QuietAnnounces(p: People, events: seq<Event>)
    requires AllQuiet(events)
    ensures Announces(p, events, p)
  {
    hide LastHeard;
    forall u | u in p ensures LastHeard(StatusIn(p, u), events, u) == Some(p[u].status) {
      NothingHeard(StatusIn(p, u), events, u);
    }
  }

  lemma AnnouncesTwice(p: People, a: seq<Event>, p1: People, b: seq<Event>, p2: People)
    requires Announces(p, a, p1) && Announces(p1, b, p2)
    ensures Announces(p, a + b, p2)
  {
    hide LastHeard;
    forall u | u in p2 ensures LastHeard(StatusIn(p, u), a + b, u) == Some(p2[u].status) {
      HeardBoth(StatusIn(p, u), a, b, u);
      if u !in p1 {
        HeardFromNothing(LastHeard(StatusIn(p, u), a, u), b, u);
      }
    }
  }

  /** One person's entry changes, and the last loud event is about it. */
  lemma OneAnnounced(p: People, e: Event, quiet: seq<Event>, u: UserId, entry: Entry)
    requires Heard(e, u) == Some(Some(entry.status)) && AllQuiet(quiet)
    ensures Announces(p, [e] + quiet, p[u := entry])
  {
    forall v | v in p[u := entry] ensures LastHeard(StatusIn(p, v), [e] + quiet, v) == Some(p[u := entry][v].status) {
      HeardBoth(StatusIn(p, v), [e], quiet, v);
      NothingHeard(LastHeard(StatusIn(p, v), [e], v), quiet, v);
      assert [e][..0] == [];
    }
  }

  /** Someone off the list need not be spoken of. */
  lemma OffTheList(p: People, events: seq<Event>, u: UserId)
    requires forall e, v :: e in events && v != u ==> Heard(e, v).None?
    ensures Announces(p, events, p - {u})
  {
    forall v | v in p - {u} ensures LastHeard(StatusIn(p, v), events, v) == Some(p[v].status) {
      NotSpokenOf(StatusIn(p, v), events, v);
    }
  }

  lemma {:induction false} NotSpokenOf(start: Option<AttendeeStatus>, events: seq<Event>, u: UserId)
    requires forall e :: e in events ==> Heard(e, u).None?
    ensures LastHeard(start, events, u) == start
    decreases |events|
  {
    if events != [] {
      assert events[|events| - 1] in events;
      NotSpokenOf(start, events[..|events| - 1], u);
    }
  }

  // ---- Attendance commands ----

  /** The command's own events, added to the outbox, tell of everyone on the list afterwards. */
  ghost predicate Tells(w: World, w': World, events: seq<Event>) {
    w'.outbox == w.outbox + events && Announces(Register(w.rows), events, Register(w'.rows))
  }

  /** What the newcomer's own row and its one event say. */
  lemma NewcomerSpeaks(s: Session, user: UserId, answer: AttendeeStatus, confirmed: int, now: int)
    requires IsAnswer(answer)
    ensures forall c ::
      c == NewRsvp(s, user, answer, confirmed, now) || c == NewInvited(s, user, confirmed, now)
      || c == NewRequested(user, now) ==>
      && c.row.user == user && !c.row.deleted && |c.events| == 1
      && Heard(c.events[0], user) == Some(Some(c.row.status))
      && (c.events[0].RsvpNotGoing? || c.events[0].RsvpMaybe? ==> !c.events[0].releasedSpot)
  {
  }

  lemma InsertTells(w: World, c: Change)
    requires !c.row.deleted && |c.events| == 1 && Heard(c.events[0], c.row.user) == Some(Some(c.row.status))
    ensures Tells(w, Inserted(w, c), c.events)
  {
    RegisterAppended(w.rows, c.row);
    OneAnnounced(Register(w.rows), c.events[0], [], c.row.user, EntryOf(c.row));
    assert [c.events[0]] + [] == c.events;
    hide Register, Announces, Heard;
  }

  lemma ArrivalTells(w: World, cmd: Command) returns (events: seq<Event>)
    requires Shaped(w) && Legal(w, cmd) && (cmd.DoCreateRsvp? || cmd.DoAcceptInvite?) && Outcome(w, cmd).Ok?
    ensures Tells(w, Apply(w, cmd), events)
  {
    var c := if cmd.DoAcceptInvite? then NewInvited(w.session, cmd.user, Confirmed(w.rows), cmd.now)
             else if cmd.status == Going && w.session.requiresApproval then NewRequested(cmd.user, cmd.now)
             else NewRsvp(w.session, cmd.user, cmd.status, Confirmed(w.rows), cmd.now);
    NewcomerSpeaks(w.session, cmd.user, if cmd.DoCreateRsvp? then cmd.status else Going, Confirmed(w.rows), cmd.now);
    hide Tells, Heard, NewRsvp, NewInvited, NewRequested, LiveRow, Confirmed, Shaped;
    InsertTells(w, c);
    events := c.events;
  }

  /** One row written, with the event that says so and then quiet ones. */
  lemma WriteTells(w: World, i: nat, c: Change)
    requires OneRowEach(w.rows) && i < |w.rows| && !w.rows[i].deleted && c.row.user == w.rows[i].user && !c.row.deleted
    requires if c.events != [] && !Quiet(c.events[0]) then
               Heard(c.events[0], c.row.user) == Some(Some(c.row.status)) && AllQuiet(c.events[1..])
             else AllQuiet(c.events) && EntryOf(c.row) == EntryOf(w.rows[i])
    ensures Tells(w, Wrote(w, i, c), c.events)
  {
    var p := Register(w.rows);
    RegisterWritten(w.rows, i, c.row);
    RegisterAt(w.rows, i);
    hide Register, OneRowEach, Announces, AllQuiet;
    if c.events != [] && !Quiet(c.events[0]) {
      OneAnnounced(p, c.events[0], c.events[1..], c.row.user, EntryOf(c.row));
      assert [c.events[0]] + c.events[1..] == c.events;
    } else {
      QuietAnnounces(p, c.events);
      assert p[c.row.user := EntryOf(c.row)] == p;
    }
  }

  lemma DecisionTells(w: World, cmd: Command) returns (events: seq<Event>)
    requires Shaped(w) && Legal(w, cmd) && OneRowEach(w.rows) && (cmd.DoApprove? || cmd.DoReject?)
    requires Outcome(w, cmd).Ok?
    ensures Tells(w, Apply(w, cmd), events)
    ensures events == [if cmd.DoApprove? then JoinApproved(cmd.user, cmd.actor.user)
                       else JoinRejected(cmd.user, cmd.actor.user)]
  {
    LiveRowIs(w.rows, cmd.user);
    var i := LiveRow(w.rows, cmd.user).value;
    var c := if cmd.DoApprove? then Approved(w.rows[i], w.session, cmd.actor)
      else Rejected(w.rows[i], w.session, cmd.actor);
    events := c.value.events;
    WriteTells(w, i, c.value);
    hide OneRowEach, LiveRow, Confirmed, Shaped, Tells;
  }

  /** What an answer announces: the answer, and a spot given up if there was one; and then at most
      the team left. */
  lemma AnswerSpeaks(row: Row, to: AttendeeStatus, s: Session, confirmed: int)
    requires IsAnswer(to) && UpdatedRsvp(row, to, s, confirmed).Ok?
    ensures var c := UpdatedRsvp(row, to, s, confirmed).value;
      && c.row.user == row.user && c.row.deleted == row.deleted
      && (if c.events != [] && !Quiet(c.events[0]) then
            Heard(c.events[0], c.row.user) == Some(Some(c.row.status)) && AllQuiet(c.events[1..])
          else AllQuiet(c.events) && EntryOf(c.row) == EntryOf(row))
      && (to == NotGoing && row.status != NotGoing ==> RsvpNotGoing(row.user, HoldsSpot(row.status)) in c.events)
      && (to == Maybe && row.status != Maybe ==> RsvpMaybe(row.user, HoldsSpot(row.status)) in c.events)
  {
  }

  lemma OwnWriteTells(w: World, cmd: Command) returns (events: seq<Event>)
    requires MayLeave(cmd) && Legal(w, cmd) && OneRowEach(w.rows) && Leaving(w, cmd).Ok?
    ensures Tells(w, Leaving(w, cmd).value.world, events)
    ensures cmd.DoRemove? ==> AttendeeRemoved(cmd.user, cmd.actor.user) in events
  {
    LiveRowIs(w.rows, cmd.user);
    var i := LiveRow(w.rows, cmd.user).value;
    var row := w.rows[i];
    hide OneRowEach, LiveRow, Confirmed, IsNextInLine, Register;
    if cmd.DoUpdateRsvp? {
      AnswerSpeaks(row, cmd.status, w.session, Confirmed(w.rows));
      var c := UpdatedRsvp(row, cmd.status, w.session, Confirmed(w.rows)).value;
      hide UpdatedRsvp;
      WriteTells(w, i, c);
      events := c.events;
    } else {
      events := if cmd.DoRemove? then Removed(row, w.session, cmd.actor).value.events
                else Released(row, Left, NOBODY).events;
      RegisterWritten(w.rows, i, row.(deleted := true, team := None));
      OffTheList(Register(w.rows), events, cmd.user);
    }
  }

  lemma PromotionTells(w: World, next: Option<nat>) returns (events: seq<Event>)
    requires OneRowEach(w.rows) && IsNextInLine(w.rows, next)
    ensures Tells(w, PromoteNextPending(w, next), events)
  {
    if next.Some? {
      var c := PromotedRow(w.rows[next.value]).value;
      events := c.events;
      WriteTells(w, next.value, c);
    } else {
      events := [];
      QuietAnnounces(Register(w.rows), []);
    }
  }

  lemma TellsTwice(w: World, a: seq<Event>, w1: World, b: seq<Event>, w2: World)
    requires Tells(w, w1, a) && Tells(w1, w2, b)
    ensures Tells(w, w2, a + b)
  {
    AnnouncesTwice(Register(w.rows), a, Register(w1.rows), b, Register(w2.rows));
    hide Announces, Register;
    assert w.outbox + a + b == w.outbox + (a + b);
  }

  // ---- All other commands ----

  /** Nothing is added to the outbox but events that say nothing about attendance. */
  ghost predicate Silent(w: World, w': World) {
    && |w.outbox| <= |w'.outbox| && w'.outbox[..|w.outbox|] == w.outbox
    && AllQuiet(w'.outbox[|w.outbox|..])
  }

  lemma AddedSilently(w: World, w': World, events: seq<Event>)
    requires w'.outbox == w.outbox + events && AllQuiet(events)
    ensures Silent(w, w')
  {
    assert w'.outbox[|w.outbox|..] == events;
    hide AllQuiet;
  }

  lemma QuietBoth(a: seq<Event>, b: seq<Event>)
    requires AllQuiet(a) && AllQuiet(b)
    ensures AllQuiet(a + b)
  {
  }

  lemma {:induction false} MovesAreQuiet(rows: seq<Row>, hadTeams: bool, formed: FormedTeams, teams: seq<TeamId>)
    requires |formed.rosters| == |formed.assignedBy| == |teams|
    ensures AllQuiet(AllMoves(rows, hadTeams, formed, teams))
  {
    if rows != [] {
      MovesAreQuiet(rows[..|rows| - 1], hadTeams, formed, teams);
      hide Placements;
      assert AllQuiet(MoveEvents(rows[|rows| - 1], hadTeams, formed, teams));
    }
  }

  lemma ReplaceIsSilent(w: World, w1: World, formed: FormedTeams, config: TeamConfig, source: TeamsSource, who: UserId,
                        before: seq<Event>)
    requires |formed.rosters| == |formed.assignedBy| == config.teamCount && w1.outbox == w.outbox && AllQuiet(before)
    ensures Silent(w, ReplaceTeams(w1, formed, config, source, who, before))
  {
    var change := WithTeams(w1.session, config, source, who, w1.nextId);
    MovesAreQuiet(w1.rows, w1.session.HasTeams(), formed, change.session.teams);
    var moves := AllMoves(w1.rows, w1.session.HasTeams(), formed, change.session.teams);
    assert AllQuiet(change.events);
    hide AllQuiet, AllMoves, Placed, FreshTeams;
    QuietBoth(change.events, moves);
    QuietBoth(before, change.events + moves);
    AddedSilently(w, ReplaceTeams(w1, formed, config, source, who, before), before + (change.events + moves));
  }

  lemma FinishIsSilent(w: World, w1: World, c: D.DraftChange)
    requires c.draft.config.teamCount == 2 && w1.outbox == w.outbox && AllQuiet(c.events)
    ensures Silent(w, Finish(w1, c))
  {
    hide AllQuiet, ReplaceTeams, D.Roster;
    if c.draft.status == D.Finished {
      ReplaceIsSilent(w, w1, DraftTeams(c.draft), c.draft.config, ByDraft, c.draft.startedBy, c.events);
    } else {
      AddedSilently(w, Finish(w1, c), c.events);
    }
  }

  lemma StartIsSilent(w: World, cmd: Command)
    requires Shaped(w) && Legal(w, cmd) && cmd.DoStartDraft? && Outcome(w, cmd).Ok?
    ensures Silent(w, Apply(w, cmd))
  {
    hide GoingIds, LastWhere, D.Available, Finish, Shaped;
    var c := D.NewDraft(w.session, cmd.actor, cmd.captainA, cmd.captainB, cmd.order, cmd.minPlayers, GoingIds(w.rows));
    FinishIsSilent(w, w.(drafts := w.drafts + [c.value.draft]), c.value);
  }

  lemma PlayIsSilent(w: World, cmd: Command)
    requires Shaped(w) && Legal(w, cmd) && Outcome(w, cmd).Ok?
    requires cmd.DoPick? || cmd.DoReplaceCaptain? || cmd.DoCancelDraft?
    ensures Silent(w, Apply(w, cmd))
  {
    hide GoingIds, LastWhere, D.Available, Finish, Silent;
    var i := ActiveDraft(w.drafts).value;
    var d := w.drafts[i];
    if cmd.DoPick? {
      var c := D.Picked(d, w.session, cmd.captain, cmd.user, GoingIds(w.rows));
      FinishIsSilent(w, w.(drafts := w.drafts[i := c.value.draft]), c.value);
    } else if cmd.DoReplaceCaptain? {
      var c := D.CaptainNamed(d, w.session, cmd.actor, cmd.side, cmd.user, GoingIds(w.rows));
      FinishIsSilent(w, w.(drafts := w.drafts[i := c.value.draft]), c.value);
    } else {
      AddedSilently(w, Apply(w, cmd), D.DraftCancelledBy(d, w.session, cmd.actor).value.events);
    }
  }

  lemma VotingIsSilent(w: World, cmd: Command)
    requires Shaped(w) && Legal(w, cmd) && IsVoting(cmd) && Outcome(w, cmd).Ok?
    ensures Silent(w, Apply(w, cmd))
  {
    hide GoingIds, LastWhere, Shaped, V.DivisionFault, V.WithDivision, V.FindProposal, V.WithoutProposal;
    AddedSilently(w, Apply(w, cmd), Apply(w, cmd).outbox[|w.outbox|..]);
  }

  lemma CloseIsSilent(w: World, actor: Actor, winner: Option<Choice>)
    requires Shaped(w) && CloseVoting(w, actor, winner).Ok?
    ensures Silent(w, CloseVoting(w, actor, winner).value)
  {
    hide ReplaceTeams, V.ClosingChoice, LastWhere, V.Options, V.FindProposal;
    var i := OpenRound(w.rounds).value;
    var c := V.ClosedBy(w.rounds[i], w.session, actor, winner).value;
    var w1 := w.(rounds := w.rounds[i := c.round]);
    if c.winning.Some? {
      var p := c.winning.value;
      ReplaceIsSilent(w, w1, FormedTeams(p.teams, seq(|p.teams|, _ => actor.user), actor.user), c.round.Config(),
        ByVote,
        actor.user, c.events);
    } else {
      AddedSilently(w, w1.Emit(c.events), c.events);
    }
  }

  lemma {:induction false} UnassignedAreQuiet(rows: seq<Row>, who: UserId)
    ensures AllQuiet(UnassignedEvents(rows, who))
  {
    if rows != [] {
      UnassignedAreQuiet(rows[..|rows| - 1], who);
    }
  }

  lemma CreateIsSilent(w: World, actor: Actor, config: TeamConfig)
    requires CreateTeams(w, actor, config).Ok?
    ensures Silent(w, CreateTeams(w, actor, config).value)
  {
    UnassignedAreQuiet(w.rows, actor.user);
    hide LastWhere, UnassignedEvents, FreshTeams;
    var w' := CreateTeams(w, actor, config).value;
    AddedSilently(w, w', w'.outbox[|w.outbox|..]);
  }

  lemma EndIsSilent(w: World, c: Result<SessionChange, Error>, who: UserId)
    requires c.Ok? ==> AllQuiet(c.value.events)
    ensures EndSession(w, c, who).Ok? ==> Silent(w, EndSession(w, c, who).value)
  {
    hide LastWhere;
    if EndSession(w, c, who).Ok? {
      var w' := EndSession(w, c, who).value;
      AddedSilently(w, w', w'.outbox[|w.outbox|..]);
    }
  }

  lemma RowTeamIsSilent(w: World, cmd: Command)
    requires Shaped(w) && Legal(w, cmd) && (cmd.DoAssignTeam? || cmd.DoUnassignTeam?) && Outcome(w, cmd).Ok?
    ensures Silent(w, Apply(w, cmd))
  {
    hide LastWhere, Shaped;
    AddedSilently(w, Apply(w, cmd), Apply(w, cmd).outbox[|w.outbox|..]);
  }

  lemma EndingIsSilent(w: World, cmd: Command)
    requires Shaped(w) && Legal(w, cmd) && Outcome(w, cmd).Ok?
    requires cmd.DoComplete? || cmd.DoCancel? || cmd.DoCancelFromGroup? || cmd.DoExpire?
    ensures Silent(w, Apply(w, cmd))
  {
    hide Shaped, Legal, EndSession, Silent;
    match cmd
    case DoComplete(actor) => EndIsSilent(w, CompletedBy(w.session, actor), actor.user);
    case DoCancel(actor) => EndIsSilent(w, CanceledBy(w.session, actor), actor.user);
    case DoCancelFromGroup(who) => EndIsSilent(w, CanceledFromGroup(w.session, NOBODY), who);
    case DoExpire(now) =>
      if w.session.Ended() { AddedSilently(w, w, []); } else { EndIsSilent(w, ExpiredAt(w.session, now), NOBODY); }
  }

  lemma DetailsAreSilent(w: World, cmd: Command)
    requires Shaped(w) && Legal(w, cmd) && Outcome(w, cmd).Ok? && (SetsDetails(cmd) || cmd.DoStart?)
    ensures Silent(w, Apply(w, cmd))
  {
    hide Shaped, Legal, Silent, AllQuiet;
    var events := match cmd
      case DoUpdateSession(actor, capacity, endsAt, isPublic) =>
        var c := Updated(w.session, actor, capacity, endsAt).value;
        c.events + VisibilitySet(c.session, actor, isPublic).value.events
      case DoSetVisibility(actor, isPublic) => VisibilitySet(w.session, actor, isPublic).value.events
      case DoStart(actor) => StartedBy(w.session, actor).value.events;
    DetailEventsAreQuiet(events);
    AddedSilently(w, Apply(w, cmd), events);
  }

  lemma DetailEventsAreQuiet(events: seq<Event>)
    requires forall e :: e in events ==> e.SessionUpdated? || e.VisibilityChanged? || e.SessionStarted?
    ensures AllQuiet(events)
  {
  }

  lemma TeamsAreSilent(w: World, cmd: Command)
    requires Shaped(w) && Legal(w, cmd) && Outcome(w, cmd).Ok?
    requires cmd.DoClose? || cmd.DoCreateTeams? || cmd.DoResetTeams?
    ensures Silent(w, Apply(w, cmd))
  {
    hide CloseVoting, CreateTeams, ResetTeamFormation, Shaped;
    match cmd
    case DoClose(actor, winner) => CloseIsSilent(w, actor, winner);
    case DoCreateTeams(actor, teamCount, minPlayers) =>
      CreateIsSilent(w, actor, NewTeamConfig(teamCount, minPlayers).value);
    case DoResetTeams(actor) => ResetIsSilent(w, actor.user, ByOrganizer);
  }

  lemma ResetIsSilent(w: World, who: UserId, reason: ResetReason)
    ensures Silent(w, ResetTeamFormation(w, who, reason))
  {
    hide LastWhere, GoingIds;
    var w' := ResetTeamFormation(w, who, reason);
    AddedSilently(w, w', w'.outbox[|w.outbox|..]);
  }

  lemma SilentTells(w: World, w': World) returns (events: seq<Event>)
    requires Silent(w, w') && SameAttendance(w.rows, w'.rows)
    ensures Tells(w, w', events)
  {
    events := w'.outbox[|w.outbox|..];
    RegisterSame(w.rows, w'.rows);
    hide AllQuiet, Announces, Register, SameAttendance;
    QuietAnnounces(Register(w.rows), events);
    assert w'.outbox == w'.outbox[..|w.outbox|] + events;
  }

  lemma ResetTells(w: World, who: UserId, reason: ResetReason) returns (events: seq<Event>)
    ensures Tells(w, ResetTeamFormation(w, who, reason), events)
  {
    hide ResetTeamFormation, Tells, Silent, SameAttendance;
    var w' := ResetTeamFormation(w, who, reason);
    ResetKeepsAttendance(w, who, reason);
    ResetIsSilent(w, who, reason);
    events := SilentTells(w, w');
  }

  lemma DepartureTells(w: World, cmd: Command) returns (events: seq<Event>)
    requires Shaped(w) && Legal(w, cmd) && OneRowEach(w.rows) && MayLeave(cmd) && Leaving(w, cmd).Ok?
    ensures Tells(w, Apply(w, cmd), events)
  {
    var d := Leaving(w, cmd).value;
    DepartureKeepsRegister(w, cmd);
    assert Apply(w, cmd) == AfterDeparture(d, cmd.user, cmd.next);
    assert d.freed ==> IsNextInLine(d.world.rows, cmd.next);
    events := OwnWriteTells(w, cmd);
    hide Apply, Legal, Shaped, Tells, Leaving, ResetTeamFormation, PromoteNextPending, OneRowEach, IsNextInLine;
    if d.freed {
      var promotion := PromotionTells(d.world, cmd.next);
      var w1 := PromoteNextPending(d.world, cmd.next);
      TellsTwice(w, events, d.world, promotion, w1);
      events := events + promotion;
      if TeamsLock(w1.session).None? {
        var reset := ResetTells(w1, cmd.user, RosterChanged);
        TellsTwice(w, events, w1, reset, ResetTeamFormation(w1, cmd.user, RosterChanged));
        events := events + reset;
      }
    }
  }

  lemma OthersAreSilent(w: World, cmd: Command)
    requires Shaped(w) && Legal(w, cmd) && !ChangesAttendance(cmd)
    ensures Silent(w, Apply(w, cmd))
  {
    hide Shaped, Legal, Outcome, Silent;
    if Outcome(w, cmd).Err? {
      AddedSilently(w, w, []);
    } else {
      hide Apply;
      if IsDrafting(cmd) {
        if cmd.DoStartDraft? { StartIsSilent(w, cmd); } else { PlayIsSilent(w, cmd); }
      } else if IsVoting(cmd) {
        VotingIsSilent(w, cmd);
      } else if cmd.DoAssignTeam? || cmd.DoUnassignTeam? {
        RowTeamIsSilent(w, cmd);
      } else if cmd.DoClose? || cmd.DoCreateTeams? || cmd.DoResetTeams? {
        TeamsAreSilent(w, cmd);
      } else if SetsDetails(cmd) || cmd.DoStart? {
        DetailsAreSilent(w, cmd);
      } else {
        EndingIsSilent(w, cmd);
      }
    }
  }

  // ---- Every run ----

  lemma StepTells(w: World, cmd: Command) returns (events: seq<Event>)
    requires Shaped(w) && Legal(w, cmd) && OneRowEach(w.rows)
    ensures Tells(w, Apply(w, cmd), events)
  {
    hide Shaped, Legal, Outcome, Announces, Register, Apply, OneRowEach, AllQuiet;
    if !ChangesAttendance(cmd) {
      OthersAreSilent(w, cmd);
      OtherCommandsKeepAttendance(w, cmd);
      events := SilentTells(w, Apply(w, cmd));
    } else if Outcome(w, cmd).Err? {
      RefusedChangesNothing(w, cmd);
      events := [];
      NothingIsQuiet();
      QuietAnnounces(Register(w.rows), []);
    } else if MayLeave(cmd) {
      LeavingIsOutcome(w, cmd);
      events := DepartureTells(w, cmd);
    } else if cmd.DoApprove? || cmd.DoReject? {
      events := DecisionTells(w, cmd);
    } else {
      events := ArrivalTells(w, cmd);
    }
  }

  lemma NothingIsQuiet()
    ensures AllQuiet([])
  {
  }

  lemma RefusedChangesNothing(w: World, cmd: Command)
    requires Shaped(w) && Legal(w, cmd) && Outcome(w, cmd).Err?
    ensures Apply(w, cmd) == w
  {
    hide Outcome, Shaped, Legal;
  }

  /** Everyone on the list was last heard of as what they are. */
  ghost predicate LogTellsWhoGoes(w: World) {
    forall u :: u in Register(w.rows) ==> LastHeard(None, w.outbox, u) == Some(Register(w.rows)[u].status)
  }

  lemma ToldStaysTold(w: World, w': World, events: seq<Event>)
    requires LogTellsWhoGoes(w) && Tells(w, w', events)
    ensures LogTellsWhoGoes(w')
  {
    hide Register, LastHeard;
    forall u | u in Register(w'.rows) ensures LastHeard(None, w'.outbox, u) == Some(Register(w'.rows)[u].status) {
      HeardBoth(None, w.outbox, events, u);
      if u !in Register(w.rows) {
        HeardFromNothing(LastHeard(None, w.outbox, u), events, u);
      }
    }
  }

  lemma {:induction false} AutoRowsAreTold(s: Session, users: seq<UserId>, start: int)
    ensures Announces(map[], AutoEvents(AutoRows(s, users, start)), Register(AutoRows(s, users, start)))
  {
    var rows := AutoRows(s, users, start);
    if users == [] {
      assert AutoEvents(rows) == [];
    } else {
      var init, row := AutoRows(s, users[..|users| - 1], start), rows[|rows| - 1];
      AutoRowsAreTold(s, users[..|users| - 1], start);
      assert rows == init + [row];
      RegisterAppended(init, row);
      var e := AutoEvents(rows)[|init|];
      assert AutoEvents(rows) == AutoEvents(init) + ([e] + []);
      OneAnnounced(Register(init), e, [], row.user, EntryOf(row));
      hide Announces, Register, AutoRows;
      AnnouncesTwice(map[], AutoEvents(init), Register(init), [e] + [], Register(rows));
    }
  }

  lemma NewSessionTellsWhoGoes(s: Session, users: seq<UserId>, start: int)
    ensures LogTellsWhoGoes(NewWorld(s, users, start))
  {
    var rows := AutoRows(s, users, start);
    AutoRowsAreTold(s, users, start);
    QuietAnnounces(Register(rows), [SessionCreated(s.creator)]);
    AnnouncesTwice(map[], AutoEvents(rows), Register(rows), [SessionCreated(s.creator)], Register(rows));
    hide Register, AutoRows, LastHeard, AutoEvents;
  }

  /** Over every run the outbox alone tells who is going, waiting or not: the last event about
      anybody on the list is their status. Only a cancelled answer is not announced, so of those no
      longer on the list it may say anything. */
  lemma {:induction false} RunTellsWhoGoes(w: World, cmds: seq<Command>, w': World)
    requires Inv(w) && LogTellsWhoGoes(w) && RunsTo(w, cmds, w')
    ensures LogTellsWhoGoes(w')
    decreases |cmds|
  {
    if cmds != [] {
      InvHasOneRowEach(w);
      hide Inv, Apply, Legal, Shaped, LogTellsWhoGoes, Tells, OneRowEach;
      var events := StepTells(w, cmds[0]);
      ToldStaysTold(w, Apply(w, cmds[0]), events);
      StepKeepsInv(w, cmds[0]);
      RunTellsWhoGoes(Apply(w, cmds[0]), cmds[1..], w');
    }
  }
}
