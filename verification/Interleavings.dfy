/** The commands of one session running concurrently. Every command but RejectAttendee takes the
    session lock before it reads anything (activity/internal/application/attendee_service.go lines
    68-95); transactions are READ COMMITTED, so each read sees what is committed at that moment, and
    RejectAttendee may commit between any two steps of the lock holder. Whatever a command reads of
    the attendees it reads in a step of its own, and writes back as it read it. */
module Interleavings {
  import opened Wrappers
  import opened Sequences
  import opened ActivityTypes
  import opened Attendees
  import opened SessionWorld
  import opened SessionInvariants
  import opened SessionWaitlist
  import opened StaleReads
  import opened FormationCommits
  import D = Drafts
  import V = Voting

  // ---- Transactions ----

  /** An attendee row as a transaction read it. */
  datatype Seen = Seen(index: nat, row: Row)

  /** The write of the command's own row; an update writes status and team only. */
  datatype Own = Insert(change: Change) | SetRow(index: nat, change: Change)
    | SoftDelete(index: nat, events: seq<Event>)

  /** How far the transaction holding the lock has got; `start` is how many were going when it
      took the lock. A command on one attendee's row reads that row and the count, decides, and if
      it frees a spot reads who is next in line and, for the reset's event, who is going. A draft,
      vote or teams command reads all the attendees once. */
  datatype Holder =
    | Idle
    | Locked(cmd: Command, start: nat)
    | HasRow(cmd: Command, start: nat, seen: Option<Seen>)
    | HasCount(cmd: Command, start: nat, seen: Option<Seen>, count: nat)
    | Decided(cmd: Command, start: nat, seen: Option<Seen>, count: nat, own: Own, freed: bool)
    | Promoting(cmd: Command, start: nat, seen: Option<Seen>, count: nat, own: Own, freed: bool, next: Option<nat>)
    | Ready(cmd: Command, start: nat, seen: Option<Seen>, count: nat, own: Own, freed: bool, next: Option<nat>,
            going: seq<UserId>)
    | HasTable(cmd: Command, start: nat, read: seq<Row>)

  /** A rejection that has read its row and not yet committed. */
  datatype Rejecting = Rejecting(index: nat, row: Row, actor: Actor)

  datatype System = System(world: World, holder: Holder, rejects: map<nat, Rejecting>)

  /** Commands that read and write one attendee's row. */
  predicate WritesOwnRow(cmd: Command) {
    || cmd.DoCreateRsvp? || cmd.DoAcceptInvite? || cmd.DoApprove? || cmd.DoAssignTeam? || cmd.DoUnassignTeam?
    || MayLeave(cmd)
  }

  predicate IsRequest(cmd: Command) {
    WritesOwnRow(cmd) && (cmd.DoCreateRsvp? || cmd.DoUpdateRsvp? ==> IsAnswer(cmd.status))
  }

  /** Commands that read and write no attendee's row, so that nothing can come between. */
  predicate IsLifecycle(cmd: Command) {
    || cmd.DoUpdateSession? || cmd.DoSetVisibility? || cmd.DoStart?
    || cmd.DoComplete? || cmd.DoCancel? || cmd.DoCancelFromGroup? || cmd.DoExpire?
  }

  datatype Decision = Decision(own: Own, freed: bool)

  function Look(rows: seq<Row>, user: UserId): Option<Seen> {
    match LiveRow(rows, user)
    case None => None
    case Some(i) => LiveRowIs(rows, user); Some(Seen(i, rows[i]))
  }

  /** What the command does, judged by the row and the count it read; `drafting` is whether a draft
      runs, which nobody else can change meanwhile. */
  function Decide(s: Session, drafting: bool, cmd: Command, seen: Option<Seen>, count: nat): Result<Decision, Error>
    requires WritesOwnRow(cmd)
  {
    match cmd
    case DoCreateRsvp(user, status, standing, isOpen, now) =>
      if standing.NotMember? && !s.isPublic then Err(NotGroupMember)
      else if s.status != Scheduled then Err(SessionNotScheduled)
      else if !(standing.Member? && standing.priority) && !isOpen then Err(SessionNotOpen)
      else if seen.Some? then Err(AlreadyAttending)
      else if status == Going && s.requiresApproval then
        if s.HasCapacity(count) then Ok(Decision(Insert(NewRequested(user, now)), false)) else Err(SessionFull)
      else Ok(Decision(Insert(NewRsvp(s, user, status, count, now)), false))
    case DoAcceptInvite(user, now) =>
      if s.status != Scheduled then Err(SessionNotScheduled)
      else if seen.Some? then Err(AlreadyAttending)
      else Ok(Decision(Insert(NewInvited(s, user, count, now)), false))
    case DoApprove(_, actor) =>
      if seen.None? then Err(AttendeeNotFound)
      else if !s.HasCapacity(count) then Err(SessionFull)
      else (match Approved(seen.value.row, s, actor)
            case Err(e) => Err(e)
            case Ok(c) => Ok(Decision(SetRow(seen.value.index, c), false)))
    case DoRemove(_, actor, _) =>
      if seen.None? then Err(AttendeeNotFound)
      else (match Removed(seen.value.row, s, actor)
            case Err(e) => Err(e)
            case Ok(c) => Ok(Decision(SoftDelete(seen.value.index, c.events), HoldsSpot(seen.value.row.status))))
    case DoUpdateRsvp(_, status, _) =>
      if seen.None? then Err(AttendeeNotFound)
      else (match UpdatedRsvp(seen.value.row, status, s, count)
            case Err(e) => Err(e)
            case Ok(c) => Ok(Decision(SetRow(seen.value.index, c),
                                       HoldsSpot(seen.value.row.status) && !HoldsSpot(c.row.status))))
    case DoAssignTeam(_, team, actor) =>
      if drafting then Err(DraftAlreadyActive)
      else if seen.None? then Err(AttendeeNotFound)
      else (match OnTeam(seen.value.row, s, team, actor)
            case Err(e) => Err(e)
            case Ok(c) => Ok(Decision(SetRow(seen.value.index, c), false)))
    case DoUnassignTeam(_, actor) =>
      if drafting then Err(DraftAlreadyActive)
      else if seen.None? then Err(AttendeeNotFound)
      else (match OffTeam(seen.value.row, s, actor)
            case Err(e) => Err(e)
            case Ok(c) => Ok(Decision(SetRow(seen.value.index, c), false)))
    case DoCancelRsvp(_, _) =>
      if seen.None? then Err(AttendeeNotFound)
      else Ok(Decision(SoftDelete(seen.value.index, Released(seen.value.row, Left, NOBODY).events),
        HoldsSpot(seen.value.row.status)))
  }

  /** The committed tables once the own write reaches them, whatever became of the row since. */
  function Effected(w: World, own: Own): World {
    match own
    case Insert(c) => Inserted(w, c)
    case SetRow(i, c) =>
      if i >= |w.rows| then w else Wrote(w, i, c.(row := w.rows[i].(status := c.row.status, team := c.row.team)))
    case SoftDelete(i, events) => if i >= |w.rows| then w else Deleted(w, i, events)
  }

  function PromotedAt(w: World, next: Option<nat>): World {
    if next.None? || next.value >= |w.rows| then w
    else
      var row := w.rows[next.value];
      Wrote(w, next.value, Change(row.(status := Promoted), [AttendeePromoted(row.user)]))
  }

  function Committed(w: World, own: Own, freed: bool, next: Option<nat>, going: seq<UserId>, user: UserId): World {
    var w1 := Effected(w, own);
    if !freed then w1
    else
      var w2 := PromotedAt(w1, next);
      if TeamsLock(w2.session).Some? then w2 else ResetFormation(w2, user, RosterChanged, going)
  }

  function RejectedAt(w: World, r: Rejecting): World {
    if r.index >= |w.rows| then w
    else Wrote(w, r.index, Change(w.rows[r.index].(status := NotGoing, team := r.row.team),
      [JoinRejected(r.row.user, r.actor.user)]))
  }

  function DecideIn(w: World, cmd: Command, seen: Option<Seen>, count: nat): Result<Decision, Error>
    requires WritesOwnRow(cmd)
  {
    Decide(w.session, ActiveDraft(w.drafts).Some?, cmd, seen, count)
  }

  /** Whom the reset's event names: those going once the own write and the promotion are in. */
  function Participants(w: World, own: Own, next: Option<nat>): seq<UserId> {
    GoingIds(PromotedAt(Effected(w, own), next).rows)
  }

  predicate CanCommit(w: World, h: Holder) {
    || (h.Ready? && WritesOwnRow(h.cmd))
    || (h.HasTable? && IsFormation(h.cmd) && Shaped(w) && |h.read| == |w.rows|)
  }

  function CommitOf(w: World, h: Holder): World
    requires CanCommit(w, h)
  {
    if h.HasTable? then FormedAt(w, h.cmd, h.read)
    else Committed(w, h.own, h.freed, h.next, h.going, h.cmd.user)
  }

  // ---- Steps ----

  datatype Step =
    | TakeLock(request: Command)
    | ReadRow
    | ReadCount
    | Settle
    | ReadNext(next: Option<nat>)
    | ReadGoing
    | ReadTable
    | Commit
    | Rollback
    | OtherCommand(other: Command)  // a lifecycle command, under the lock from start to end
    | RejectReads(tx: nat, user: UserId, actor: Actor)
    | RejectCommits(tx: nat)
    | RejectFails(tx: nat)

  /** The system after the step, if it can be taken. */
  function After(sys: System, step: Step): Option<System> {
    var w, h := sys.world, sys.holder;
    match step
    case TakeLock(cmd) =>
      if h.Idle? && (IsRequest(cmd) || IsFormation(cmd)) then Some(sys.(holder := Locked(cmd, Confirmed(w.rows))))
      else None
    case ReadRow =>
      if h.Locked? && WritesOwnRow(h.cmd)
        then Some(sys.(holder := HasRow(h.cmd, h.start, Look(w.rows, h.cmd.user)))) else None
    case ReadCount =>
      if h.HasRow? then Some(sys.(holder := HasCount(h.cmd, h.start, h.seen, Confirmed(w.rows)))) else None
    case Settle =>
      if h.HasCount? && WritesOwnRow(h.cmd) then
        match DecideIn(w, h.cmd, h.seen, h.count)
        case Err(_) => Some(sys.(holder := Idle))
        case Ok(d) =>
          Some(sys.(holder := if d.freed then Decided(h.cmd, h.start, h.seen, h.count, d.own, true)
                              else Ready(h.cmd, h.start, h.seen, h.count, d.own, false, None, [])))
      else None
    case ReadNext(next) =>
      if h.Decided? && IsNextInLine(Effected(w, h.own).rows, next)
      then Some(sys.(holder := Promoting(h.cmd, h.start, h.seen, h.count, h.own, true, next))) else None
    case ReadGoing =>
      if h.Promoting?
      then Some(sys.(holder := Ready(h.cmd, h.start, h.seen, h.count, h.own, h.freed, h.next,
                                     Participants(w, h.own, h.next))))
      else None
    case ReadTable =>
      if h.Locked? && IsFormation(h.cmd) then Some(sys.(holder := HasTable(h.cmd, h.start, w.rows))) else None
    case Commit => if CanCommit(w, h) then Some(sys.(world := CommitOf(w, h), holder := Idle)) else None
    case Rollback => if h.Idle? then None else Some(sys.(holder := Idle))
    case OtherCommand(cmd) =>
      if h.Idle? && IsLifecycle(cmd) && Shaped(w) && Legal(w, cmd) then Some(sys.(world := Apply(w, cmd)))
        else None
    case RejectReads(tx, user, actor) =>
      (match Look(w.rows, user)
       case None => None
       case Some(seen) =>
         if tx !in sys.rejects && Rejected(seen.row, w.session, actor).Ok?
         then Some(sys.(rejects := sys.rejects[tx := Rejecting(seen.index, seen.row, actor)])) else None)
    case RejectCommits(tx) =>
      if tx in sys.rejects then Some(sys.(world := RejectedAt(w, sys.rejects[tx]), rejects := sys.rejects - {tx}))
        else None
    case RejectFails(tx) =>
      if tx in sys.rejects then Some(sys.(rejects := sys.rejects - {tx})) else None
  }

  // ---- What every step keeps ----

  predicate RejectFits(w: World, r: Rejecting) {
    && AwaitsApproval(r.row) && !r.row.deleted && r.row.team.None? && w.session.ManagedBy(r.actor)
    && r.index < |w.rows| && w.rows[r.index].source == Requested && w.rows[r.index].user == r.row.user
  }

  /** The row a holder saw is as it was, or a rejection has been written over it since. */
  predicate SeenFits(w: World, user: UserId, seen: Option<Seen>, start: nat) {
    match seen
    case None => LiveRow(w.rows, user).None?
    case Some(s) =>
      && s.index < |w.rows| && !s.row.deleted && s.row.user == user && RequestFits(s.row)
      && SinceRead(s.row, w.rows[s.index])
      && (HoldsSpot(s.row.status) && !HoldsSpot(w.rows[s.index].status) ==> Confirmed(w.rows) + 1 <= start)
  }

  predicate HasDecided(h: Holder) {
    h.Decided? || h.Promoting? || h.Ready?
  }

  ghost predicate OwnHolderFits(w: World, h: Holder)
    requires !h.Idle? && !h.Locked? && !h.HasTable?
  {
    && IsRequest(h.cmd) && SeenFits(w, h.cmd.user, h.seen, h.start)
    && (h.HasCount? || HasDecided(h) ==> Confirmed(w.rows) <= h.count <= h.start)
    && (HasDecided(h) ==> DecideIn(w, h.cmd, h.seen, h.count) == Ok(Decision(h.own, h.freed)))
    && (h.Decided? || h.Promoting? ==> h.freed)
    && (h.Promoting? || h.Ready? ==>
          if h.freed then IsNextInLine(Effected(w, h.own).rows, h.next) else h.next.None?)
  }

  ghost predicate TableHolderFits(w: World, h: Holder)
    requires h.HasTable?
  {
    && IsFormation(h.cmd) && RejectedOnly(h.read, w.rows) && OneRowEach(h.read) && RequestsFit(h.read)
    && Confirmed(h.read) <= h.start
  }

  ghost predicate HolderFits(w: World, h: Holder) {
    h.Idle? ||
    (&& Confirmed(w.rows) <= h.start
     && (if h.Locked? then IsRequest(h.cmd) || IsFormation(h.cmd)
         else if h.HasTable? then TableHolderFits(w, h)
         else OwnHolderFits(w, h)))
  }

  ghost predicate SystemInv(sys: System) {
    && OneRowEach(sys.world.rows) && RequestsFit(sys.world.rows)
    && (forall tx :: tx in sys.rejects ==> RejectFits(sys.world, sys.rejects[tx]))
    && HolderFits(sys.world, sys.holder)
  }

  // ---- Rejections between the holder's steps ----

  lemma RejectKeepsRows(w: World, r: Rejecting)
    requires OneRowEach(w.rows) && RejectFits(w, r)
    ensures OneRowEach(RejectedAt(w, r).rows)
    ensures Confirmed(RejectedAt(w, r).rows) == Confirmed(w.rows) - (if IsGoing(w.rows[r.index]) then 1 else 0)
  {
    ConfirmedAfter(w.rows, r.index, RejectedAt(w, r).rows[r.index]);
  }

  lemma RejectKeepsRequests(w: World, r: Rejecting)
    requires RequestsFit(w.rows) && RejectFits(w, r)
    ensures RequestsFit(RejectedAt(w, r).rows)
  {
  }

  lemma LiveRowAfterReject(w: World, r: Rejecting, user: UserId)
    requires OneRowEach(w.rows) && RejectFits(w, r)
    ensures LiveRow(RejectedAt(w, r).rows, user) == LiveRow(w.rows, user)
  {
    hide LastWhere;
    var rows' := RejectedAt(w, r).rows;
    assert forall i :: 0 <= i < |w.rows| ==> rows'[i].user == w.rows[i].user && rows'[i].deleted == w.rows[i].deleted;
    LiveRowIs(w.rows, user);
    LiveRowIs(rows', user);
  }

  lemma SeenFitsAfterReject(w: World, user: UserId, seen: Option<Seen>, start: nat, r: Rejecting)
    requires OneRowEach(w.rows) && RejectFits(w, r) && SeenFits(w, user, seen, start) && Confirmed(w.rows) <= start
    ensures SeenFits(RejectedAt(w, r), user, seen, start)
  {
    RejectKeepsRows(w, r);
    LiveRowAfterReject(w, r, user);
    hide LastWhere, GoingIds;
  }

  lemma NextInLineAfterReject(w: World, own: Own, next: Option<nat>, r: Rejecting)
    requires RejectFits(w, r) && IsNextInLine(Effected(w, own).rows, next)
    ensures IsNextInLine(Effected(RejectedAt(w, r), own).rows, next)
  {
    var rows, rows' := Effected(w, own).rows, Effected(RejectedAt(w, r), own).rows;
    assert |rows| == |rows'|;
    forall i | 0 <= i < |rows| ensures Waits(rows'[i]) == Waits(rows[i]) && rows'[i].createdAt == rows[i].createdAt {
    }
  }

  lemma TableReadAfterReject(w: World, read: seq<Row>, r: Rejecting)
    requires RejectFits(w, r) && RejectedOnly(read, w.rows)
    ensures RejectedOnly(read, RejectedAt(w, r).rows)
  {
    forall i | 0 <= i < |w.rows| ensures SinceRead(read[i], RejectedAt(w, r).rows[i]) {
      assert SinceRead(read[i], w.rows[i]);
    }
  }

  lemma RejectKeepsHolder(w: World, h: Holder, r: Rejecting)
    requires OneRowEach(w.rows) && RejectFits(w, r) && HolderFits(w, h)
    ensures HolderFits(RejectedAt(w, r), h)
  {
    RejectKeepsRows(w, r);
    assert RejectedAt(w, r).session == w.session && RejectedAt(w, r).drafts == w.drafts;
    hide GoingIds, SeenFits, Decide, IsNextInLine, RejectedAt, Effected, RejectFits, LastWhere, RejectedOnly;
    if h.HasTable? {
      TableReadAfterReject(w, h.read, r);
    } else if !h.Idle? && !h.Locked? {
      SeenFitsAfterReject(w, h.cmd.user, h.seen, h.start, r);
      if (h.Promoting? || h.Ready?) && h.freed {
        NextInLineAfterReject(w, h.own, h.next, r);
      }
    }
  }

  // ---- Commit ----

  /** Whether the own write leaves its row holding a spot. */
  predicate WillHold(own: Own) {
    match own
    case Insert(c) => HoldsSpot(c.row.status)
    case SetRow(_, c) => HoldsSpot(c.row.status)
    case SoftDelete(_, _) => false
  }

  function DidHold(w: World, own: Own): bool {
    match own
    case Insert(_) => false
    case SetRow(i, _) => i < |w.rows| && IsGoing(w.rows[i])
    case SoftDelete(i, _) => i < |w.rows| && IsGoing(w.rows[i])
  }

  /** The own write, by its kind: whose row, with what status, and whether it frees a spot. */
  predicate OwnIsApt(s: Session, h: Holder)
    requires HasDecided(h) && WritesOwnRow(h.cmd)
  {
    && (match h.own
        case Insert(c) => h.seen.None? && c.row.user == h.cmd.user && !c.row.deleted && c.row.team.None?
        case SetRow(i, c) => h.seen.Some? && i == h.seen.value.index && !c.row.deleted && c.row.user == h.cmd.user
        case SoftDelete(i, _) => h.seen.Some? && i == h.seen.value.index)
    && (WillHold(h.own) ==> s.HasCapacity(h.count) || (h.seen.Some? && HoldsSpot(h.seen.value.row.status)))
    && (h.freed <==> h.seen.Some? && HoldsSpot(h.seen.value.row.status) && !WillHold(h.own))
  }

  lemma DecisionIsApt(s: Session, drafting: bool, h: Holder)
    requires HasDecided(h) && IsRequest(h.cmd)
    requires h.seen.Some? ==> !h.seen.value.row.deleted && h.seen.value.row.user == h.cmd.user
    requires Decide(s, drafting, h.cmd, h.seen, h.count) == Ok(Decision(h.own, h.freed))
    ensures OwnIsApt(s, h)
  {
  }

  lemma OwnFits(w: World, h: Holder)
    requires HolderFits(w, h) && HasDecided(h)
    ensures WritesOwnRow(h.cmd) && OwnIsApt(w.session, h)
  {
    hide GoingIds, LastWhere, IsNextInLine, Effected, Decide, OwnIsApt, RequestFits;
    DecisionIsApt(w.session, ActiveDraft(w.drafts).Some?, h);
  }

  /** The tables once the own write is in: the count moves by that row alone. */
  ghost predicate OneRowMoved(w: World, w': World, own: Own) {
    && OneRowEach(w'.rows)
    && Confirmed(w'.rows) == Confirmed(w.rows) + (if WillHold(own) then 1 else 0) - (if DidHold(w, own) then 1 else 0)
    && w'.session == w.session && |w'.rows| >= |w.rows|
    && (forall i :: 0 <= i < |w.rows| ==> w'.rows[i].source == w.rows[i].source && w'.rows[i].user == w.rows[i].user)
  }

  lemma InsertMovesOneRow(w: World, c: Change)
    requires OneRowEach(w.rows) && LiveRow(w.rows, c.row.user).None? && !c.row.deleted
    ensures OneRowMoved(w, Effected(w, Insert(c)), Insert(c))
  {
    LiveRowIs(w.rows, c.row.user);
    GoingAppend(w.rows, c.row);
    hide LastWhere, GoingIds;
  }

  lemma WriteMovesOneRow(w: World, own: Own, i: nat, row: Row)
    requires OneRowEach(w.rows) && i < |w.rows| && !w.rows[i].deleted
    requires own.SetRow? || own.SoftDelete?
    requires own.index == i && row.user == w.rows[i].user && row.source == w.rows[i].source
    requires Effected(w, own).rows == w.rows[i := row] && Effected(w, own).session == w.session
      && WillHold(own) == IsGoing(row)
    ensures OneRowMoved(w, Effected(w, own), own)
  {
    ConfirmedAfter(w.rows, i, row);
    hide LastWhere, GoingIds, Effected;
  }

  lemma EffectedCounts(w: World, h: Holder)
    requires OneRowEach(w.rows) && HolderFits(w, h) && HasDecided(h)
    ensures OneRowMoved(w, Effected(w, h.own), h.own)
  {
    OwnFits(w, h);
    hide Decide, IsNextInLine, LastWhere, GoingIds, OneRowMoved, OneRowEach;
    match h.own
    case Insert(c) =>
      InsertMovesOneRow(w, c);
    case SetRow(i, c) =>
      WriteMovesOneRow(w, h.own, i, w.rows[i].(status := c.row.status, team := c.row.team));
    case SoftDelete(i, _) =>
      WriteMovesOneRow(w, h.own, i, w.rows[i].(deleted := true, team := None));
  }

  lemma PromotedCounts(w: World, next: Option<nat>)
    requires OneRowEach(w.rows) && IsNextInLine(w.rows, next)
    ensures var w' := PromotedAt(w, next);
      && OneRowEach(w'.rows) && w'.session == w.session && |w'.rows| == |w.rows|
      && Confirmed(w'.rows) == Confirmed(w.rows) + (if next.Some? then 1 else 0)
      && (forall i :: 0 <= i < |w.rows| ==> w'.rows[i].source == w.rows[i].source && w'.rows[i].user == w.rows[i].user)
  {
    if next.Some? {
      ConfirmedAfter(w.rows, next.value, w.rows[next.value].(status := Promoted));
    }
  }

  /** Whomever the reset's event names, the reset does the same to the tables. */
  lemma ResetsAlike(w: World, who: UserId, reason: ResetReason, going: seq<UserId>)
    ensures var w' := ResetFormation(w, who, reason, going);
      w' == ResetTeamFormation(w, who, reason).(outbox := w'.outbox) && AttendanceKept(w, w')
  {
    ResetKeepsAttendance(w, who, reason);
    hide GoingIds, LastWhere;
  }

  lemma HandedOnCounts(w: World, next: Option<nat>, user: UserId, going: seq<UserId>)
    requires OneRowEach(w.rows) && IsNextInLine(w.rows, next)
    ensures var w2 := PromotedAt(w, next);
      var w' := if TeamsLock(w2.session).Some? then w2 else ResetFormation(w2, user, RosterChanged, going);
      && OneRowEach(w'.rows) && w'.session.capacity == w.session.capacity && |w'.rows| == |w.rows|
      && Confirmed(w'.rows) == Confirmed(w.rows) + (if next.Some? then 1 else 0)
      && (forall i :: 0 <= i < |w.rows| ==> w'.rows[i].source == w.rows[i].source && w'.rows[i].user == w.rows[i].user)
  {
    hide GoingIds, PromotedAt, IsNextInLine, ResetFormation, LastWhere;
    PromotedCounts(w, next);
    var w2 := PromotedAt(w, next);
    if TeamsLock(w2.session).None? {
      var w' := ResetFormation(w2, user, RosterChanged, going);
      ResetsAlike(w2, user, RosterChanged, going);
      SameAttendanceCounts(w2.rows, w'.rows);
      SameAttendanceIsUnique(w2.rows, w'.rows);
    }
  }

  /** What a command on its own row makes of the tables. */
  lemma OwnCommitCounts(w: World, h: Holder)
    requires OneRowEach(w.rows) && HolderFits(w, h) && h.Ready?
    ensures var w' := Committed(w, h.own, h.freed, h.next, h.going, h.cmd.user);
      && OneRowEach(w'.rows) && w'.session.capacity == w.session.capacity && |w'.rows| >= |w.rows|
      && Confirmed(w'.rows) == Confirmed(w.rows)
        + (if WillHold(h.own) then 1 else 0) - (if DidHold(w, h.own) then 1 else 0)
                             + (if h.next.Some? then 1 else 0)
      && (forall i :: 0 <= i < |w.rows| ==> w'.rows[i].source == w.rows[i].source && w'.rows[i].user == w.rows[i].user)
  {
    EffectedCounts(w, h);
    hide GoingIds, Decide, Effected, PromotedAt, IsNextInLine, ResetFormation, LastWhere, SeenFits, RequestFits;
    if h.freed {
      HandedOnCounts(Effected(w, h.own), h.next, h.cmd.user, h.going);
    }
  }

  /** How many rejected since the read are put back on a team with the spot they had. */
  function RestoredBy(w: World, h: Holder): nat
    requires CanCommit(w, h) && h.HasTable?
  {
    match PlanOf(w, h.cmd, GoingIds(h.read))
    case Err(_) => 0
    case Ok(p) => Restored(w.rows, h.read, p.effect)
  }

  /** What a draft, vote or teams command makes of them. */
  lemma TableCommitCounts(w: World, h: Holder)
    requires OneRowEach(w.rows) && RequestsFit(w.rows) && HolderFits(w, h) && CanCommit(w, h) && h.HasTable?
    ensures var w' := FormedAt(w, h.cmd, h.read);
      && OneRowEach(w'.rows) && RequestsFit(w'.rows) && w'.session.capacity == w.session.capacity
      && |w'.rows| == |w.rows| && SameRules(w.session, w'.session) && w'.session.status == w.session.status
      && Confirmed(w'.rows) == Confirmed(w.rows) + RestoredBy(w, h) <= h.start
      && (SomeoneWaits(w'.rows) <==> SomeoneWaits(w.rows))
      && (forall i :: 0 <= i < |w.rows| ==> w'.rows[i].source == w.rows[i].source && w'.rows[i].user == w.rows[i].user)
  {
    hide Shaped, PlanOf, RejectedOnly, OneRowEach, RequestsFit, GoingIds, WrittenRow, Restored, MovesOf, SomeoneWaits;
    var r := PlanOf(w, h.cmd, GoingIds(h.read));
    if r.Ok? {
      PlanKeepsRules(w, h.cmd, GoingIds(h.read));
      CarriedCounts(w.rows, h.read, r.value.effect);
      CarriedRows(w.rows, h.read, r.value.effect);
    }
  }

  lemma SameRequests(rows: seq<Row>, rows': seq<Row>)
    requires SameAttendance(rows, rows') && RequestsFit(rows)
    ensures RequestsFit(rows')
  {
    forall i | 0 <= i < |rows'| ensures RequestFits(rows'[i]) {
      assert RequestFits(rows[i]);
    }
  }

  lemma DecidedRequestFits(s: Session, drafting: bool, h: Holder)
    requires HasDecided(h) && IsRequest(h.cmd)
    requires Decide(s, drafting, h.cmd, h.seen, h.count) == Ok(Decision(h.own, h.freed))
    requires h.seen.Some? ==> RequestFits(h.seen.value.row)
    ensures h.own.Insert? ==> RequestFits(h.own.change.row)
    ensures h.own.SetRow? ==>
      && h.seen.Some? && h.own.index == h.seen.value.index && RequestFits(h.own.change.row)
      && h.own.change.row.source == h.seen.value.row.source
  {
  }

  /** A request is written with the status it was read with, or one that holds a spot or none. */
  lemma OwnRequestFits(w: World, h: Holder)
    requires HolderFits(w, h) && HasDecided(h)
    ensures h.own.Insert? ==> RequestFits(h.own.change.row)
    ensures h.own.SetRow? ==>
      && h.own.index < |w.rows|
      && (w.rows[h.own.index].source == Requested ==>
            h.own.change.row.status != Promoted
            && (h.own.change.row.team.Some? ==> HoldsSpot(h.own.change.row.status)))
  {
    hide GoingIds, LastWhere, IsNextInLine, Effected, Decide;
    DecidedRequestFits(w.session, ActiveDraft(w.drafts).Some?, h);
  }

  lemma EffectedRequests(w: World, h: Holder)
    requires RequestsFit(w.rows) && HolderFits(w, h) && HasDecided(h)
    ensures RequestsFit(Effected(w, h.own).rows)
  {
    OwnRequestFits(w, h);
    hide GoingIds, LastWhere, IsNextInLine, HolderFits;
    var rows := Effected(w, h.own).rows;
    forall i | 0 <= i < |rows| ensures RequestFits(rows[i]) {
      assert i < |w.rows| ==> RequestFits(w.rows[i]);
    }
  }

  lemma OwnCommitKeepsRequests(w: World, h: Holder)
    requires RequestsFit(w.rows) && HolderFits(w, h) && h.Ready?
    ensures RequestsFit(Committed(w, h.own, h.freed, h.next, h.going, h.cmd.user).rows)
  {
    EffectedRequests(w, h);
    if h.freed {
      var w1 := Effected(w, h.own);
      hide GoingIds, Decide, Effected, ResetFormation, LastWhere;
      assert h.next.Some? ==> Waits(w1.rows[h.next.value]);
      var w2 := PromotedAt(w1, h.next);
      assert RequestsFit(w2.rows);
      ResetsAlike(w2, h.cmd.user, RosterChanged, h.going);
      SameRequests(w2.rows, ResetFormation(w2, h.cmd.user, RosterChanged, h.going).rows);
    }
  }

  lemma SameAttendanceIsUnique(rows: seq<Row>, rows': seq<Row>)
    requires SameAttendance(rows, rows') && OneRowEach(rows)
    ensures OneRowEach(rows')
    ensures forall i :: 0 <= i < |rows| ==> rows'[i].source == rows[i].source && rows'[i].user == rows[i].user
  {
  }

  /** The row the holder saw with a spot has lost it to a rejection since. */
  predicate Overtaken(w: World, h: Holder)
    requires h.Ready?
  {
    h.seen.Some? && h.seen.value.index < |w.rows| && HoldsSpot(h.seen.value.row.status)
    && !HoldsSpot(w.rows[h.seen.value.index].status)
  }

  lemma OwnCommitWithinStart(w: World, h: Holder)
    requires OneRowEach(w.rows) && HolderFits(w, h) && h.Ready?
    ensures var w' := Committed(w, h.own, h.freed, h.next, h.going, h.cmd.user);
      w.session.capacity.Some? ==>
        && Confirmed(w'.rows) <= Max(h.start, w.session.capacity.value)
        && (Confirmed(w'.rows) > Max(Confirmed(w.rows), w.session.capacity.value)
            <==> Overtaken(w, h) && (h.freed ==> h.next.Some?) && Confirmed(w.rows) >= w.session.capacity.value)
  {
    OwnCommitCounts(w, h);
    OwnFits(w, h);
    hide GoingIds, Decide, Committed, IsNextInLine, LastWhere, Effected;
  }

  /** A commit never leaves more people going than when the lock was taken, or than the capacity
      allows. */
  lemma CommitWithinStartOrCapacity(w: World, h: Holder)
    requires OneRowEach(w.rows) && RequestsFit(w.rows) && HolderFits(w, h) && CanCommit(w, h)
    ensures var w' := CommitOf(w, h);
      w.session.capacity.Some? ==> Confirmed(w'.rows) <= Max(h.start, w.session.capacity.value)
  {
    hide GoingIds, HolderFits, Committed, FormedAt, PlanOf, Restored, Shaped, OneRowEach, RequestsFit;
    if h.HasTable? {
      TableCommitCounts(w, h);
    } else {
      OwnCommitWithinStart(w, h);
    }
  }

  /** The commit puts more going than before, and more than the capacity. */
  predicate Overshoots(w: World, h: Holder)
    requires CanCommit(w, h) && w.session.capacity.Some?
  {
    if h.HasTable? then RestoredBy(w, h) > 0 && Confirmed(w.rows) + RestoredBy(w, h) > w.session.capacity.value
    else Overtaken(w, h) && (h.freed ==> h.next.Some?) && Confirmed(w.rows) >= w.session.capacity.value
  }

  /** Against the number going just before the commit the bound can fail, and exactly then: either a
      rejection took the spot the holder saw, the commit hands out or rewrites that spot all the
      same - an answer, a removal, or a team assigned or taken away - and the session is already at
      or over its capacity; or a draft or vote puts people rejected since it read them back on their
      teams, more of them than there are spots. */
  lemma CommitOvershootsIff(w: World, h: Holder)
    requires OneRowEach(w.rows) && RequestsFit(w.rows) && HolderFits(w, h) && CanCommit(w, h)
    requires w.session.capacity.Some?
    ensures Confirmed(CommitOf(w, h).rows) > Max(Confirmed(w.rows), w.session.capacity.value) <==> Overshoots(w, h)
  {
    hide GoingIds, HolderFits, Committed, FormedAt, PlanOf, Restored, Shaped, OneRowEach, RequestsFit, Overtaken,
         RestoredBy;
    if h.HasTable? {
      TableCommitCounts(w, h);
    } else {
      OwnCommitWithinStart(w, h);
    }
  }

  // ---- Every step ----

  lemma RowReadFits(w: World, user: UserId, start: nat)
    requires RequestsFit(w.rows)
    ensures SeenFits(w, user, Look(w.rows, user), start)
  {
    LiveRowIs(w.rows, user);
    if LiveRow(w.rows, user).Some? {
      assert RequestFits(w.rows[LiveRow(w.rows, user).value]);
    }
    hide LastWhere, GoingIds, RequestFits;
  }

  lemma ReadsKeepInv(sys: System, step: Step)
    requires SystemInv(sys) && After(sys, step).Some?
    requires step.TakeLock? || step.ReadRow? || step.ReadCount? || step.Settle? || step.ReadNext? || step.ReadGoing?
      || step.ReadTable? || step.Rollback? || step.RejectFails?
    ensures SystemInv(After(sys, step).value)
  {
    hide GoingIds, LastWhere, Decide, Effected, IsNextInLine, RequestFits, SeenFits, Look;
    if step.ReadRow? {
      RowReadFits(sys.world, sys.holder.cmd.user, sys.holder.start);
    }
  }

  lemma RejectStepsKeepInv(sys: System, step: Step)
    requires SystemInv(sys) && After(sys, step).Some? && (step.RejectReads? || step.RejectCommits?)
    ensures SystemInv(After(sys, step).value)
  {
    var w := sys.world;
    hide GoingIds, LastWhere, HolderFits;
    if step.RejectReads? {
      LiveRowIs(w.rows, step.user);
    } else {
      var r := sys.rejects[step.tx];
      RejectKeepsHolder(w, sys.holder, r);
      RejectKeepsRequests(w, r);
      assert forall tx :: tx in sys.rejects ==> RejectFits(RejectedAt(w, r), sys.rejects[tx]);
    }
  }

  lemma CommitKeepsRules(w: World, own: Own, freed: bool, next: Option<nat>, going: seq<UserId>, user: UserId)
    ensures SameRules(w.session, Committed(w, own, freed, next, going, user).session)
  {
    hide GoingIds, LastWhere, Cleared;
  }

  /** Whatever is committed: users keep one live row, requests fit, and the rules stand. */
  lemma CommitKeepsTables(w: World, h: Holder)
    requires OneRowEach(w.rows) && RequestsFit(w.rows) && HolderFits(w, h) && CanCommit(w, h)
    ensures var w' := CommitOf(w, h);
      && OneRowEach(w'.rows) && RequestsFit(w'.rows) && SameRules(w.session, w'.session)
      && w'.session.capacity == w.session.capacity && |w'.rows| >= |w.rows|
      && (forall i :: 0 <= i < |w.rows| ==> w'.rows[i].source == w.rows[i].source && w'.rows[i].user == w.rows[i].user)
  {
    hide GoingIds, HolderFits, Committed, FormedAt, PlanOf, Restored, Shaped, OneRowEach, RequestsFit;
    if h.HasTable? {
      TableCommitCounts(w, h);
    } else {
      OwnCommitCounts(w, h);
      OwnCommitKeepsRequests(w, h);
      CommitKeepsRules(w, h.own, h.freed, h.next, h.going, h.cmd.user);
    }
  }

  lemma RejectsStillFit(w: World, w': World, rejects: map<nat, Rejecting>)
    requires forall tx :: tx in rejects ==> RejectFits(w, rejects[tx])
    requires SameRules(w.session, w'.session) && |w'.rows| >= |w.rows|
    requires forall i :: 0 <= i < |w.rows| ==>
      w'.rows[i].source == w.rows[i].source && w'.rows[i].user == w.rows[i].user
    ensures forall tx :: tx in rejects ==> RejectFits(w', rejects[tx])
  {
    assert forall tx :: tx in rejects ==> RejectFits(w, rejects[tx]);
  }

  lemma CommitStepKeepsInv(sys: System)
    requires SystemInv(sys) && After(sys, Commit).Some?
    ensures SystemInv(After(sys, Commit).value)
  {
    var w, h := sys.world, sys.holder;
    assert CanCommit(w, h) && After(sys, Commit) == Some(sys.(world := CommitOf(w, h), holder := Idle));
    hide GoingIds, OwnHolderFits, TableHolderFits, CommitOf, CanCommit, RejectFits, RequestsFit, OneRowEach, After;
    CommitKeepsTables(w, h);
    RejectsStillFit(w, CommitOf(w, h), sys.rejects);
  }

  lemma LifecycleKeepsAttendance(w: World, cmd: Command)
    requires Shaped(w) && Legal(w, cmd) && IsLifecycle(cmd)
    ensures SameAttendance(w.rows, Apply(w, cmd).rows) && SameRules(w.session, Apply(w, cmd).session)
    ensures !cmd.DoUpdateSession? ==> Apply(w, cmd).session.capacity == w.session.capacity
  {
    hide Shaped, Legal, Apply, SameAttendance;
    OtherCommandsKeepAttendance(w, cmd);
  }

  lemma OtherStepKeepsInv(sys: System, step: Step)
    requires SystemInv(sys) && After(sys, step).Some? && step.OtherCommand?
    ensures SystemInv(After(sys, step).value)
  {
    var w, w' := sys.world, After(sys, step).value.world;
    hide GoingIds, LastWhere, Apply, Legal, Shaped, RejectFits, RequestsFit;
    LifecycleKeepsAttendance(w, step.other);
    SameAttendanceIsUnique(w.rows, w'.rows);
    SameRequests(w.rows, w'.rows);
    RejectsStillFit(w, w', sys.rejects);
  }

  lemma StepKeepsSystemInv(sys: System, step: Step)
    requires SystemInv(sys) && After(sys, step).Some?
    ensures SystemInv(After(sys, step).value)
  {
    hide SystemInv, After;
    if step.Commit? {
      CommitStepKeepsInv(sys);
    } else if step.OtherCommand? {
      OtherStepKeepsInv(sys, step);
    } else if step.RejectReads? || step.RejectCommits? {
      RejectStepsKeepInv(sys, step);
    } else {
      ReadsKeepInv(sys, step);
    }
  }

  ghost predicate Trace(sys: System, steps: seq<Step>, sys': System)
    decreases |steps|
  {
    if steps == [] then sys' == sys
    else After(sys, steps[0]).Some? && Trace(After(sys, steps[0]).value, steps[1..], sys')
  }

  lemma {:induction false} TraceKeepsSystemInv(sys: System, steps: seq<Step>, sys': System)
    requires SystemInv(sys) && Trace(sys, steps, sys')
    ensures SystemInv(sys')
    decreases |steps|
  {
    hide SystemInv, After;
    if steps != [] {
      StepKeepsSystemInv(sys, steps[0]);
      TraceKeepsSystemInv(After(sys, steps[0]).value, steps[1..], sys');
    }
  }

  ghost predicate CapacityFixed(sys: System, steps: seq<Step>)
    decreases |steps|
  {
    steps == [] || (After(sys, steps[0]).Some?
      && After(sys, steps[0]).value.world.session.capacity == sys.world.session.capacity
      && CapacityFixed(After(sys, steps[0]).value, steps[1..]))
  }

  predicate StartedWithinCapacity(sys: System) {
    WithinCapacity(sys.world)
    && (!sys.holder.Idle? && sys.world.session.capacity.Some? ==> sys.holder.start <= sys.world.session.capacity.value)
  }

  lemma StepWithinCapacity(sys: System, step: Step)
    requires SystemInv(sys) && StartedWithinCapacity(sys) && After(sys, step).Some?
    requires After(sys, step).value.world.session.capacity == sys.world.session.capacity
    ensures StartedWithinCapacity(After(sys, step).value)
  {
    hide GoingIds, LastWhere, CommitOf, Decide, Effected, Apply, Shaped, Legal, RejectedAt, OwnHolderFits,
         TableHolderFits, IsNextInLine, RequestsFit, OneRowEach, RejectFits, SameRules;
    if step.Commit? {
      CommitWithinStartOrCapacity(sys.world, sys.holder);
    } else if step.OtherCommand? {
      LifecycleKeepsAttendance(sys.world, step.other);
      SameAttendanceCounts(sys.world.rows, After(sys, step).value.world.rows);
    } else if step.RejectCommits? {
      RejectKeepsRows(sys.world, sys.rejects[step.tx]);
    }
  }

  /** Whatever the interleaving, a session whose capacity is not changed is never overbooked, and
      no user ever has two live rows. */
  lemma {:induction false} NoInterleavingOverbooks(sys: System, steps: seq<Step>, sys': System)
    requires SystemInv(sys) && Trace(sys, steps, sys') && CapacityFixed(sys, steps) && StartedWithinCapacity(sys)
    ensures WithinCapacity(sys'.world) && OneRowEach(sys'.world.rows)
    decreases |steps|
  {
    hide After;
    if steps != [] {
      hide SystemInv, StartedWithinCapacity;
      StepKeepsSystemInv(sys, steps[0]);
      StepWithinCapacity(sys, steps[0]);
      NoInterleavingOverbooks(After(sys, steps[0]).value, steps[1..], sys');
    }
  }

  lemma {:induction false} NobodyAsked(s: Session, users: seq<UserId>, now: int)
    ensures RequestsFit(AutoRows(s, users, now))
  {
    hide Confirmed, GoingIds;
    if users != [] {
      NobodyAsked(s, users[..|users| - 1], now);
    }
  }

  /** All of it holds of a new session before any transaction. */
  lemma NewSessionStarts(s: Session, users: seq<UserId>, now: int)
    requires IsNewSession(s) && Distinct(users)
    ensures var sys := System(NewWorld(s, users, now), Idle, map[]);
      SystemInv(sys) && StartedWithinCapacity(sys) && Inv(sys.world)
  {
    NewSessionIsSound(s, users, now);
    NobodyAsked(s, users, now);
    hide GoingIds, AutoRows, RequestsFit, RostersGoing, OneFormation;
  }

  // ---- The tables' shape ----

  predicate RoundShaped(r: V.Round) {
    r.status == V.Open ==> V.Options(r) != [] && forall p :: p in r.proposals ==> |p.teams| == r.teamCount
  }

  lemma ShapedIs(w: World)
    ensures Shaped(w) <==>
      && (forall d :: d in w.drafts ==> d.config.teamCount == 2)
      && (forall r :: r in w.rounds ==> RoundShaped(r))
  {
  }

  lemma ProposalsOffer(r: V.Round)
    requires r.proposals != []
    ensures V.Options(r) != []
  {
    assert V.Options(r)[0] in V.Options(r);
  }

  lemma ProposedShape(r: V.Round, s: Session, author: UserId, teams: seq<seq<UserId>>, going: seq<UserId>,
                      id: ProposalId)
    ensures V.OpenRound(s, author, teams, going, id).Ok? ==>
      RoundShaped(V.OpenRound(s, author, teams, going, id).value.round)
    ensures RoundShaped(r) && V.Proposed(r, s, author, teams, going, id).Ok? ==>
      RoundShaped(V.Proposed(r, s, author, teams, going, id).value.round)
  {
    hide V.Options, V.Misplaced;
    if V.OpenRound(s, author, teams, going, id).Ok? {
      ProposalsOffer(V.OpenRound(s, author, teams, going, id).value.round);
    }
    if V.Proposed(r, s, author, teams, going, id).Ok? {
      var r' := V.Proposed(r, s, author, teams, going, id).value.round;
      if r' != r { ProposalsOffer(r'); }
    }
  }

  lemma VotedShape(r: V.Round, voter: UserId, choice: Choice, going: seq<UserId>, id: ProposalId)
    requires RoundShaped(r)
    ensures V.Voted(r, voter, choice, going).Ok? ==> RoundShaped(V.Voted(r, voter, choice, going).value.round)
    ensures V.VoteTakenBack(r, voter, going).Ok? ==> RoundShaped(V.VoteTakenBack(r, voter, going).value.round)
    ensures V.Withdrawn(r, voter, id).Ok? ==> RoundShaped(V.Withdrawn(r, voter, id).value.round)
  {
    if V.Withdrawn(r, voter, id).Ok? && V.Withdrawn(r, voter, id).value.round.status == V.Open {
      ProposalsOffer(V.Withdrawn(r, voter, id).value.round);
    }
  }

  lemma RoundsShaped(w: World, w': World, r: V.Round, at: Option<nat>)
    requires Shaped(w) && w'.drafts == w.drafts && RoundShaped(r)
    requires if at.None? then w'.rounds == w.rounds + [r]
             else at.value < |w.rounds| && w'.rounds == w.rounds[at.value := r]
    ensures Shaped(w')
  {
    hide V.Options;
    forall q | q in w'.rounds ensures RoundShaped(q) {
      assert q == r || q in w.rounds;
    }
  }

  lemma VotingKeepsShape(w: World, cmd: Command)
    requires Shaped(w) && Legal(w, cmd) && (cmd.DoPropose? || cmd.DoVote? || cmd.DoRetractVote? || cmd.DoWithdraw?)
    ensures Shaped(Apply(w, cmd))
  {
    hide GoingIds, LastWhere, V.Options, V.OpenRound, V.Proposed, V.Voted, V.VoteTakenBack, V.Withdrawn, RoundShaped;
    OpenRoundIs(w.rounds);
    ShapedIs(w);
    hide Shaped;
    var w', going := Apply(w, cmd), GoingIds(w.rows);
    if w'.rounds == w.rounds {
      ShapedIs(w');
    } else if OpenRound(w.rounds).None? {
      ProposedShape(V.Round(V.Dropped, 0, None, false, [], map[], None, false), w.session, cmd.user, cmd.division,
        going, w.nextId);
      RoundsShaped(w, w', V.OpenRound(w.session, cmd.user, cmd.division, going, w.nextId).value.round, None);
    } else {
      var i := OpenRound(w.rounds).value;
      var r := w.rounds[i];
      assert r in w.rounds;
      if cmd.DoPropose? {
        ProposedShape(r, w.session, cmd.user, cmd.division, going, w.nextId);
      } else {
        var choice := if cmd.DoVote? then cmd.choice else KeepCurrent;
        VotedShape(r, cmd.user, choice, going, if cmd.DoWithdraw? then cmd.proposal else 0);
      }
      RoundsShaped(w, w', w'.rounds[i], Some(i));
    }
  }

  lemma DraftWritten(w: World, c: D.DraftChange, w': World)
    requires Shaped(w) && c.draft.config.teamCount == 2 && w'.rounds == w.rounds
    requires forall d :: d in w'.drafts ==> d in w.drafts || d == c.draft
    ensures Shaped(Finish(w', c))
  {
    hide Placed, AllMoves, D.Roster, V.Options, FreshTeams;
    assert Finish(w', c).drafts == w'.drafts && Finish(w', c).rounds == w'.rounds;
    ShapedIs(w);
    ShapedIs(Finish(w', c));
  }

  lemma DraftsKeepShape(w: World, cmd: Command)
    requires Shaped(w) && Legal(w, cmd)
      && (cmd.DoStartDraft? || cmd.DoPick? || cmd.DoReplaceCaptain? || cmd.DoCancelDraft?)
    ensures Shaped(Apply(w, cmd))
  {
    hide GoingIds, D.Available, Finish, LastWhere, V.Options;
    if Outcome(w, cmd).Ok? {
      var going := GoingIds(w.rows);
      if cmd.DoStartDraft? {
        var c := D.NewDraft(w.session, cmd.actor, cmd.captainA, cmd.captainB, cmd.order, cmd.minPlayers, going).value;
        DraftWritten(w, c, w.(drafts := w.drafts + [c.draft]));
      } else {
        ActiveDraftIs(w.drafts);
        var i := ActiveDraft(w.drafts).value;
        assert w.drafts[i] in w.drafts;
        var c := if cmd.DoPick? then D.Picked(w.drafts[i], w.session, cmd.captain, cmd.user, going).value
                 else if cmd.DoReplaceCaptain? then D.CaptainNamed(w.drafts[i], w.session, cmd.actor, cmd.side,
                   cmd.user, going).value
                 else D.DraftCancelledBy(w.drafts[i], w.session, cmd.actor).value;
        DraftWritten(w, c, w.(drafts := w.drafts[i := c.draft]));
        if cmd.DoCancelDraft? {
          UnfinishedOnlyEmits(w.(drafts := w.drafts[i := c.draft]), c);
        }
      }
    }
  }

  /** A round that is closed or dropped offers nothing any more. */
  lemma EndedRowsAreShaped(w: World, w': World)
    requires Shaped(w)
    requires |w'.rounds| == |w.rounds| && |w'.drafts| == |w.drafts|
    requires forall i :: 0 <= i < |w.rounds| ==> w'.rounds[i] == w.rounds[i] || w'.rounds[i].status != V.Open
    requires forall i :: 0 <= i < |w.drafts| ==> w'.drafts[i].config == w.drafts[i].config
    ensures Shaped(w')
  {
    hide V.Options;
    forall r | r in w'.rounds ensures RoundShaped(r) {
      var i :| 0 <= i < |w'.rounds| && w'.rounds[i] == r;
      assert w.rounds[i] in w.rounds;
    }
    forall d | d in w'.drafts ensures d.config.teamCount == 2 {
      var i :| 0 <= i < |w'.drafts| && w'.drafts[i] == d;
      assert w.drafts[i] in w.drafts;
    }
    ShapedIs(w');
  }

  lemma OverKeepsShape(w: World, c: Result<SessionChange, Error>, who: UserId)
    requires Shaped(w)
    ensures EndSession(w, c, who).Ok? ==> Shaped(EndSession(w, c, who).value)
  {
    hide LastWhere, Shaped;
    ActiveDraftIs(w.drafts);
    OpenRoundIs(w.rounds);
    if EndSession(w, c, who).Ok? {
      EndedRowsAreShaped(w, EndSession(w, c, who).value);
    }
  }

  lemma CloseKeepsShape(w: World, actor: Actor, winner: Option<Choice>)
    requires Shaped(w) && CloseVoting(w, actor, winner).Ok?
    ensures Shaped(CloseVoting(w, actor, winner).value)
  {
    hide LastWhere, Placed, AllMoves, FreshTeams, V.ClosingChoice, V.Options;
    OpenRoundIs(w.rounds);
    EndedRowsAreShaped(w, CloseVoting(w, actor, winner).value);
  }

  lemma CreateTeamsKeepsShape(w: World, actor: Actor, config: TeamConfig)
    requires Shaped(w) && CreateTeams(w, actor, config).Ok?
    ensures Shaped(CreateTeams(w, actor, config).value)
  {
    hide LastWhere, UnassignedEvents, FreshTeams, Shaped;
    OpenRoundIs(w.rounds);
    EndedRowsAreShaped(w, CreateTeams(w, actor, config).value);
  }

  lemma EndingKeepsShape(w: World, cmd: Command)
    requires Shaped(w) && Legal(w, cmd)
    requires cmd.DoClose? || cmd.DoCreateTeams? || cmd.DoComplete? || cmd.DoCancel? || cmd.DoCancelFromGroup?
      || cmd.DoExpire?
    ensures Shaped(Apply(w, cmd))
  {
    hide Shaped, CloseVoting, CreateTeams, EndSession, Legal;
    match cmd
    case DoClose(actor, winner) =>
      if CloseVoting(w, actor, winner).Ok? { CloseKeepsShape(w, actor, winner); }
    case DoCreateTeams(actor, teamCount, minPlayers) =>
      var config := NewTeamConfig(teamCount, minPlayers);
      if config.Ok? && CreateTeams(w, actor, config.value).Ok? { CreateTeamsKeepsShape(w, actor, config.value); }
    case DoComplete(actor) => OverKeepsShape(w, CompletedBy(w.session, actor), actor.user);
    case DoCancel(actor) => OverKeepsShape(w, CanceledBy(w.session, actor), actor.user);
    case DoCancelFromGroup(who) => OverKeepsShape(w, CanceledFromGroup(w.session, NOBODY), who);
    case DoExpire(now) => OverKeepsShape(w, ExpiredAt(w.session, now), NOBODY);
  }

  lemma PlainCommandKeepsShape(w: World, cmd: Command)
    requires Shaped(w) && Legal(w, cmd)
    requires cmd.DoResetTeams? || cmd.DoUpdateSession? || cmd.DoSetVisibility? || cmd.DoStart?
    ensures Shaped(Apply(w, cmd))
  {
    hide GoingIds, LastWhere, V.Options;
    var w' := Apply(w, cmd);
    assert (w'.drafts == w.drafts && w'.rounds == w.rounds) || (w'.drafts == [] && w'.rounds == []);
  }

  lemma CommandKeepsShape(w: World, cmd: Command)
    requires Shaped(w) && Legal(w, cmd) && (IsFormation(cmd) || IsLifecycle(cmd))
    ensures Shaped(Apply(w, cmd))
  {
    hide Shaped, Legal, Apply;
    if cmd.DoPropose? || cmd.DoVote? || cmd.DoRetractVote? || cmd.DoWithdraw? {
      VotingKeepsShape(w, cmd);
    } else if cmd.DoStartDraft? || cmd.DoPick? || cmd.DoReplaceCaptain? || cmd.DoCancelDraft? {
      DraftsKeepShape(w, cmd);
    } else if cmd.DoClose? || cmd.DoCreateTeams? || cmd.DoComplete? || cmd.DoCancel? || cmd.DoCancelFromGroup?
      || cmd.DoExpire? {
      EndingKeepsShape(w, cmd);
    } else {
      PlainCommandKeepsShape(w, cmd);
    }
  }

  lemma SameFormationShape(w: World, w': World)
    requires Shaped(w) && w'.drafts == w.drafts && w'.rounds == w.rounds
    ensures Shaped(w')
  {
    hide V.Options;
  }

  lemma FormedKeepsShape(w: World, cmd: Command, read: seq<Row>)
    requires Shaped(w) && IsFormation(cmd) && |read| == |w.rows|
    ensures Shaped(FormedAt(w, cmd, read))
  {
    var w0 := w.(rows := read);
    SameFormationShape(w, w0);
    hide Shaped, Legal, Apply, FormedAt;
    FormedIsApplied(w, cmd, read);
    CommandKeepsShape(w0, cmd);
    SameFormationShape(Apply(w0, cmd), FormedAt(w, cmd, read));
  }

  /** The guard the draft, vote and lifecycle commands need always holds: no step spoils the tables'
      shape. */
  lemma StepKeepsShape(sys: System, step: Step)
    requires Shaped(sys.world) && After(sys, step).Some?
    ensures Shaped(After(sys, step).value.world)
  {
    var w, h := sys.world, sys.holder;
    if step.OtherCommand? {
      hide Shaped, Legal, Apply;
      CommandKeepsShape(w, step.other);
    } else if step.Commit? && h.HasTable? {
      hide Shaped, FormedAt;
      FormedKeepsShape(w, h.cmd, h.read);
    } else {
      hide Decide, GoingIds, LastWhere, IsNextInLine, V.Options, FormedAt, Participants;
      var w' := After(sys, step).value.world;
      assert (w'.drafts == w.drafts && w'.rounds == w.rounds) || (w'.drafts == [] && w'.rounds == []);
    }
  }
}
