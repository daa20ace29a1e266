/** Who is down for a session, told without its table: a register of people that every attendance
    command (activity/internal/application/attendee_service.go and session_invite_service.go)
    turns into exactly one other, but for who is promoted among those who came at the same time. */
module AttendanceRegister {
  import opened Wrappers
  import opened Sequences
  import opened ActivityTypes
  import opened Attendees
  import opened SessionWorld
  import opened SessionInvariants
  import opened SessionWaitlist

  /** What the register says of someone: their status, how they came in, and when. */
  datatype Entry = Entry(status: AttendeeStatus, source: AttendeeSource, since: int)

  type People = map<UserId, Entry>

  function Holding(p: People): set<UserId> {
    set u | u in p && (p[u].status == Going || p[u].status == Promoted)
  }

  predicate SpotFree(p: People, s: Session) {
    s.capacity.None? || |Holding(p)| < s.capacity.value
  }

  predicate InLine(p: People, u: UserId) {
    u in p && p[u].status == Pending && p[u].source != Requested
  }

  predicate Undecided(p: People, u: UserId) {
    u in p && p[u].status == Pending && p[u].source == Requested
  }

  /** Whoever is in line and came first; among those who came at the same time any of them. */
  predicate FirstInLine(p: People, next: Option<UserId>) {
    match next
    case None => forall u :: u in p ==> !InLine(p, u)
    case Some(n) => InLine(p, n) && forall u :: u in p && InLine(p, u) ==> p[n].since <= p[u].since
  }

  predicate AboutAttendance(cmd: Command) {
    cmd.DoCreateRsvp? || cmd.DoAcceptInvite? || cmd.DoApprove? || cmd.DoReject? || MayLeave(cmd)
  }

  predicate Accepted(p: People, s: Session, cmd: Command)
    requires AboutAttendance(cmd)
  {
    match cmd
    case DoCreateRsvp(u, answer, standing, isOpen, _) =>
      && u !in p && s.status == Scheduled
      && (s.isPublic || standing.Member?) && (isOpen || standing == Member(true))
      && (answer == Going && s.requiresApproval ==> SpotFree(p, s))
    case DoAcceptInvite(u, _) => u !in p && s.status == Scheduled
    case DoApprove(u, actor) => Undecided(p, u) && s.ManagedBy(actor) && SpotFree(p, s)
    case DoReject(u, actor) => Undecided(p, u) && s.ManagedBy(actor)
    case DoRemove(u, actor, _) => u in Holding(p) && u != s.creator && s.ManagedBy(actor)
    case DoUpdateRsvp(u, answer, _) => u in p && (answer == Going ==> p[u].status != NotGoing && p[u].status != Pending)
    case DoCancelRsvp(u, _) => u in p
  }

  function Says(p: People, u: UserId, status: AttendeeStatus): People
    requires u in p
  {
    p[u := p[u].(status := status)]
  }

  /** The person's own new entry: what they asked for, unless that takes a spot there is not. */
  function Written(p: People, s: Session, cmd: Command): People
    requires AboutAttendance(cmd) && Accepted(p, s, cmd)
  {
    match cmd
    case DoCreateRsvp(u, answer, _, _, now) =>
      if answer == Going && s.requiresApproval then p[u := Entry(Pending, Requested, now)]
      else p[u := Entry(if answer == Going && !SpotFree(p, s) then Pending else answer, RsvpManual, now)]
    case DoAcceptInvite(u, now) => p[u := Entry(if SpotFree(p, s) then Going else Pending, Invited, now)]
    case DoApprove(u, _) => Says(p, u, Going)
    case DoReject(u, _) => Says(p, u, NotGoing)
    case DoRemove(u, _, _) => p - {u}
    case DoUpdateRsvp(u, answer, _) =>
      Says(p, u, if answer == Going && p[u].status != Going && !SpotFree(p, s) then Pending else answer)
    case DoCancelRsvp(u, _) => p - {u}
  }

  /** A spot given up goes to the first in line. */
  ghost predicate Follows(p: People, s: Session, cmd: Command, p': People)
    requires AboutAttendance(cmd) && Accepted(p, s, cmd)
  {
    var own := Written(p, s, cmd);
    if Holding(p) <= Holding(own) then p' == own
    else exists next :: FirstInLine(own, next) && p' == if next.None? then own else Says(own, next.value, Promoted)
  }

  // ---- The register a table keeps ----

  function EntryOf(row: Row): Entry {
    Entry(row.status, row.source, row.createdAt)
  }

  function Register(rows: seq<Row>): People {
    if rows == [] then map[]
    else
      var init, last := Register(rows[..|rows| - 1]), rows[|rows| - 1];
      if last.deleted then init else init[last.user := EntryOf(last)]
  }

  predicate LiveAt(rows: seq<Row>, i: int, u: UserId) {
    0 <= i < |rows| && !rows[i].deleted && rows[i].user == u
  }

  lemma {:induction false} RegisterHas(rows: seq<Row>, u: UserId) returns (i: nat)
    requires OneRowEach(rows)
    ensures u in Register(rows) ==> LiveAt(rows, i, u) && Register(rows)[u] == EntryOf(rows[i])
    ensures u !in Register(rows) ==> forall k :: 0 <= k < |rows| ==> !LiveAt(rows, k, u)
  {
    i := 0;
    if rows != [] {
      var init := rows[..|rows| - 1];
      i := RegisterHas(init, u);
      if LiveAt(rows, |rows| - 1, u) {
        i := |rows| - 1;
      } else if u !in Register(rows) {
        forall k | 0 <= k < |rows| ensures !LiveAt(rows, k, u) {
          assert k < |init| ==> !LiveAt(init, k, u);
        }
      }
    }
  }

  lemma RegisterAt(rows: seq<Row>, k: nat)
    requires OneRowEach(rows) && k < |rows| && !rows[k].deleted
    ensures rows[k].user in Register(rows) && Register(rows)[rows[k].user] == EntryOf(rows[k])
  {
    var i := RegisterHas(rows, rows[k].user);
    assert LiveAt(rows, k, rows[k].user);
    hide Register;
  }

  /** Writing one person's row changes that person's entry. */
  lemma RegisterWritten(rows: seq<Row>, k: nat, row: Row)
    requires OneRowEach(rows) && k < |rows| && !rows[k].deleted && row.user == rows[k].user
    ensures OneRowEach(rows[k := row])
    ensures Register(rows[k := row]) == if row.deleted then Register(rows) - {row.user}
                                        else Register(rows)[row.user := EntryOf(row)]
  {
    var rows', p := rows[k := row], Register(rows);
    var p' := if row.deleted then p - {row.user} else p[row.user := EntryOf(row)];
    assert OneRowEach(rows');
    RegisterAt(rows, k);
    forall u ensures u in Register(rows') <==> u in p'
             ensures u in p' ==> Register(rows')[u] == p'[u] {
      hide Register, OneRowEach;
      var i := RegisterHas(rows, u);
      var j := RegisterHas(rows', u);
      OneWritten(rows, k, row, u, i, j);
    }
  }

  lemma OneWritten(rows: seq<Row>, k: nat, row: Row, u: UserId, i: nat, j: nat)
    requires OneRowEach(rows) && k < |rows| && !rows[k].deleted && row.user == rows[k].user
    requires u in Register(rows) ==> LiveAt(rows, i, u) && Register(rows)[u] == EntryOf(rows[i])
    requires u !in Register(rows) ==> forall l :: 0 <= l < |rows| ==> !LiveAt(rows, l, u)
    requires var rows' := rows[k := row];
      && (u in Register(rows') ==> LiveAt(rows', j, u) && Register(rows')[u] == EntryOf(rows'[j]))
      && (u !in Register(rows') ==> forall l :: 0 <= l < |rows'| ==> !LiveAt(rows', l, u))
    ensures var p := Register(rows);
      var p' := if row.deleted then p - {row.user} else p[row.user := EntryOf(row)];
      (u in Register(rows[k := row]) <==> u in p') && (u in p' ==> Register(rows[k := row])[u] == p'[u])
  {
    hide Register, EntryOf;
    var rows' := rows[k := row];
    assert LiveAt(rows, k, row.user);
    assert LiveAt(rows', k, row.user) <==> !row.deleted;
    assert LiveAt(rows, i, u) && i != k ==> LiveAt(rows', i, u);
    assert LiveAt(rows', j, u) && j != k ==> LiveAt(rows, j, u);
  }

  lemma RegisterAppended(rows: seq<Row>, row: Row)
    ensures Register(rows + [row]) == if row.deleted then Register(rows) else Register(rows)[row.user := EntryOf(row)]
  {
    assert (rows + [row])[..|rows|] == rows;
  }

  lemma {:induction false} RegisterSame(rows: seq<Row>, rows': seq<Row>)
    requires SameAttendance(rows, rows')
    ensures Register(rows') == Register(rows)
  {
    if rows != [] {
      assert rows'[|rows| - 1] == rows[|rows| - 1].(team := rows'[|rows| - 1].team);
      RegisterSame(rows[..|rows| - 1], rows'[..|rows| - 1]);
    }
  }

  /** As many hold a spot by the register as are counted in the table. */
  lemma HoldingIsConfirmed(rows: seq<Row>)
    requires OneRowEach(rows)
    ensures |Holding(Register(rows))| == Confirmed(rows)
  {
    GoingDistinct(rows);
    DistinctSize(GoingIds(rows));
    forall u ensures u in Holding(Register(rows)) <==> u in GoingIds(rows) {
      HoldsIffGoing(rows, u);
    }
    hide Holding, GoingIds, Register;
    assert Holding(Register(rows)) == ToSet(GoingIds(rows));
  }

  lemma HoldsIffGoing(rows: seq<Row>, u: UserId)
    requires OneRowEach(rows)
    ensures u in Holding(Register(rows)) <==> u in GoingIds(rows)
  {
    GoingHas(rows, u);
    var i := RegisterHas(rows, u);
    hide Register, GoingIds;
    if u in GoingIds(rows) {
      var k :| 0 <= k < |rows| && GoesAt(rows, k, u);
      assert LiveAt(rows, k, u);
      RegisterAt(rows, k);
    }
    if u in Holding(Register(rows)) {
      assert GoesAt(rows, i, u);
    }
  }

  /** The waitlist query finds the first in line. */
  lemma NextIsFirstInLine(rows: seq<Row>, next: Option<nat>)
    requires OneRowEach(rows) && IsNextInLine(rows, next)
    ensures FirstInLine(Register(rows), if next.None? then None else Some(rows[next.value].user))
  {
    var p := Register(rows);
    if next.Some? { RegisterAt(rows, next.value); }
    forall u | u in p && InLine(p, u) ensures next.Some? && rows[next.value].createdAt <= p[u].since {
      var i := RegisterHas(rows, u);
      assert Waits(rows[i]);
    }
    hide Register, OneRowEach;
  }

  lemma LiveRowInRegister(rows: seq<Row>, u: UserId)
    requires OneRowEach(rows)
    ensures LiveRow(rows, u).Some? <==> u in Register(rows)
    ensures LiveRow(rows, u).Some? ==>
      var i := LiveRow(rows, u).value;
      i < |rows| && !rows[i].deleted && rows[i].user == u && Register(rows)[u] == EntryOf(rows[i])
  {
    LiveRowIs(rows, u);
    var k := RegisterHas(rows, u);
    hide Register, LiveRow, OneRowEach;
    if LiveRow(rows, u).Some? {
      RegisterAt(rows, LiveRow(rows, u).value);
    }
  }

  // ---- Every command ----

  lemma ArrivalKeepsRegister(w: World, cmd: Command)
    requires Shaped(w) && Legal(w, cmd) && OneRowEach(w.rows) && (cmd.DoCreateRsvp? || cmd.DoAcceptInvite?)
    ensures Outcome(w, cmd).Ok? <==> Accepted(Register(w.rows), w.session, cmd)
    ensures Outcome(w, cmd).Ok? ==> Register(Apply(w, cmd).rows) == Written(Register(w.rows), w.session, cmd)
  {
    LiveRowInRegister(w.rows, cmd.user);
    HoldingIsConfirmed(w.rows);
    var c := if cmd.DoAcceptInvite? then NewInvited(w.session, cmd.user, Confirmed(w.rows), cmd.now)
             else if cmd.status == Going && w.session.requiresApproval then NewRequested(cmd.user, cmd.now)
             else NewRsvp(w.session, cmd.user, cmd.status, Confirmed(w.rows), cmd.now);
    RegisterAppended(w.rows, c.row);
    hide Register, OneRowEach, Holding, LiveRow, Confirmed, Shaped;
  }

  lemma DecisionKeepsRegister(w: World, cmd: Command)
    requires Shaped(w) && Legal(w, cmd) && OneRowEach(w.rows) && (cmd.DoApprove? || cmd.DoReject?)
    ensures Outcome(w, cmd).Ok? <==> Accepted(Register(w.rows), w.session, cmd)
    ensures Outcome(w, cmd).Ok? ==> Register(Apply(w, cmd).rows) == Written(Register(w.rows), w.session, cmd)
  {
    LiveRowInRegister(w.rows, cmd.user);
    HoldingIsConfirmed(w.rows);
    if LiveRow(w.rows, cmd.user).Some? {
      var i := LiveRow(w.rows, cmd.user).value;
      RegisterWritten(w.rows, i, w.rows[i].(status := if cmd.DoApprove? then Going else NotGoing));
    }
    hide Register, OneRowEach, Holding, LiveRow, Confirmed, Shaped;
  }

  lemma DepartureKeepsRegister(w: World, cmd: Command)
    requires MayLeave(cmd) && Legal(w, cmd) && OneRowEach(w.rows)
    ensures Leaving(w, cmd).Ok? <==> Accepted(Register(w.rows), w.session, cmd)
    ensures Leaving(w, cmd).Ok? ==>
      var d, p := Leaving(w, cmd).value, Register(w.rows);
      && OneRowEach(d.world.rows) && Register(d.world.rows) == Written(p, w.session, cmd)
      && (d.freed <==> cmd.user in Holding(p) && cmd.user !in Holding(Written(p, w.session, cmd)))
  {
    LiveRowInRegister(w.rows, cmd.user);
    HoldingIsConfirmed(w.rows);
    if LiveRow(w.rows, cmd.user).Some? && Leaving(w, cmd).Ok? {
      var i := LiveRow(w.rows, cmd.user).value;
      RegisterWritten(w.rows, i, Leaving(w, cmd).value.world.rows[i]);
    }
    hide Register, OneRowEach, LiveRow, Confirmed, IsNextInLine;
  }

  lemma PromotionKeepsRegister(w: World, next: Option<nat>)
    requires OneRowEach(w.rows) && IsNextInLine(w.rows, next)
    ensures var u := if next.None? then None else Some(w.rows[next.value].user);
      && FirstInLine(Register(w.rows), u)
      && Register(PromoteNextPending(w, next).rows)
         == if u.None? then Register(w.rows) else Says(Register(w.rows), u.value, Promoted)
  {
    NextIsFirstInLine(w.rows, next);
    if next.Some? {
      RegisterAt(w.rows, next.value);
      RegisterWritten(w.rows, next.value, PromotedRow(w.rows[next.value]).value.row);
    }
    hide Register, OneRowEach;
  }

  /** Only the person's own entry can give up a spot. */
  lemma OnlyOwnSpot(p: People, s: Session, cmd: Command)
    requires AboutAttendance(cmd) && Accepted(p, s, cmd)
    ensures Holding(p) <= Holding(Written(p, s, cmd)) <==>
      !(cmd.user in Holding(p) && cmd.user !in Holding(Written(p, s, cmd)))
    ensures !MayLeave(cmd) ==> Holding(p) <= Holding(Written(p, s, cmd))
  {
    hide SpotFree;
  }

  /** Whom the command promotes, if anybody. */
  function PromotedBy(w: World, cmd: Command): Option<UserId>
    requires Legal(w, cmd)
  {
    if MayLeave(cmd) && Leaving(w, cmd).Ok? && Leaving(w, cmd).value.freed && cmd.next.Some?
    then Some(Leaving(w, cmd).value.world.rows[cmd.next.value].user) else None
  }

  lemma LeavingKeepsRegister(w: World, cmd: Command)
    requires Shaped(w) && Legal(w, cmd) && OneRowEach(w.rows) && MayLeave(cmd) && Leaving(w, cmd).Ok?
    ensures var p, next := Register(w.rows), PromotedBy(w, cmd);
      && Accepted(p, w.session, cmd)
      && (if Holding(p) <= Holding(Written(p, w.session, cmd)) then next.None?
          else FirstInLine(Written(p, w.session, cmd), next))
      && Register(Apply(w, cmd).rows) == (if next.None? then Written(p, w.session, cmd)
                                          else Says(Written(p, w.session, cmd), next.value, Promoted))
  {
    DepartureKeepsRegister(w, cmd);
    var d := Leaving(w, cmd).value;
    OnlyOwnSpot(Register(w.rows), w.session, cmd);
    assert Apply(w, cmd) == AfterDeparture(d, cmd.user, cmd.next);
    hide Register, OneRowEach, Leaving, Written, Accepted, Holding, Apply, Shaped, FirstInLine, IsNextInLine;
    if d.freed {
      assert IsNextInLine(d.world.rows, cmd.next);
      PromotionKeepsRegister(d.world, cmd.next);
      hide PromoteNextPending;
      var promoted := PromoteNextPending(d.world, cmd.next);
      ResetKeepsAttendance(promoted, cmd.user, RosterChanged);
      hide ResetTeamFormation;
      RegisterSame(promoted.rows, ResetTeamFormation(promoted, cmd.user, RosterChanged).rows);
    }
  }

  /** Every attendance command is accepted exactly when the register accepts it, and leaves a table
      whose register follows; every other command leaves the register as it is. */
  lemma StepKeepsRegister(w: World, cmd: Command)
    requires Shaped(w) && Legal(w, cmd) && OneRowEach(w.rows)
    ensures var p, p' := Register(w.rows), Register(Apply(w, cmd).rows);
      if !AboutAttendance(cmd) then p' == p
      else && (Outcome(w, cmd).Ok? <==> Accepted(p, w.session, cmd))
           && if Outcome(w, cmd).Ok? then Follows(p, w.session, cmd, p') else p' == p
  {
    var p := Register(w.rows);
    hide Register, OneRowEach, Outcome, Shaped, Legal, Written, Holding, FirstInLine, Accepted;
    if !AboutAttendance(cmd) {
      hide Apply;
      OtherCommandsKeepAttendance(w, cmd);
      RegisterSame(w.rows, Apply(w, cmd).rows);
    } else if MayLeave(cmd) {
      LeavingIsOutcome(w, cmd);
      DepartureKeepsRegister(w, cmd);
      hide Leaving;
      if Outcome(w, cmd).Ok? {
        hide Apply;
        LeavingKeepsRegister(w, cmd);
      }
    } else {
      if cmd.DoApprove? || cmd.DoReject? { DecisionKeepsRegister(w, cmd); } else { ArrivalKeepsRegister(w, cmd); }
      if Outcome(w, cmd).Ok? { OnlyOwnSpot(p, w.session, cmd); }
    }
  }

  lemma LeavingIsOutcome(w: World, cmd: Command)
    requires Shaped(w) && Legal(w, cmd) && MayLeave(cmd)
    ensures Outcome(w, cmd).Ok? <==> Leaving(w, cmd).Ok?
  {
    hide AfterDeparture, RemoveAttendee, UpdateRsvp, CancelRsvp, Shaped, IsNextInLine;
  }

  // ---- The last word ----

  /** No accepted command is about the person, and nobody hands them a spot. */
  ghost predicate LeftAlone(w: World, cmds: seq<Command>, u: UserId)
    decreases |cmds|
  {
    cmds == [] || !Shaped(w) || !Legal(w, cmds[0]) ||
    (&& (AboutAttendance(cmds[0]) && Outcome(w, cmds[0]).Ok? ==>
           cmds[0].user != u && PromotedBy(w, cmds[0]) != Some(u))
     && LeftAlone(Apply(w, cmds[0]), cmds[1..], u))
  }

  lemma OwnEntryOnly(p: People, s: Session, cmd: Command, u: UserId)
    requires AboutAttendance(cmd) && Accepted(p, s, cmd) && u != cmd.user
    ensures var own := Written(p, s, cmd); (u in own <==> u in p) && (u in p ==> own[u] == p[u])
  {
    hide SpotFree, Holding;
  }

  lemma OthersLeaveAlone(w: World, cmd: Command, u: UserId)
    requires Shaped(w) && Legal(w, cmd) && OneRowEach(w.rows)
    requires AboutAttendance(cmd) && Outcome(w, cmd).Ok? ==> cmd.user != u && PromotedBy(w, cmd) != Some(u)
    ensures var p, p' := Register(w.rows), Register(Apply(w, cmd).rows);
      (u in p' <==> u in p) && (u in p ==> p'[u] == p[u])
  {
    hide Register, OneRowEach, Outcome, Shaped, Legal, Apply, FirstInLine, Accepted, Written, Holding, PromotedBy;
    StepKeepsRegister(w, cmd);
    if AboutAttendance(cmd) && Outcome(w, cmd).Ok? {
      OwnEntryOnly(Register(w.rows), w.session, cmd, u);
      OnlyOwnSpot(Register(w.rows), w.session, cmd);
      if MayLeave(cmd) {
        hide Leaving, Follows;
        LeavingIsOutcome(w, cmd);
        LeavingKeepsRegister(w, cmd);
      }
    }
  }

  lemma {:induction false} StaysAsItIs(w: World, cmds: seq<Command>, w': World, u: UserId)
    requires Inv(w) && RunsTo(w, cmds, w') && LeftAlone(w, cmds, u)
    ensures var p, p' := Register(w.rows), Register(w'.rows);
      (u in p' <==> u in p) && (u in p ==> p'[u] == p[u])
    decreases |cmds|
  {
    if cmds != [] {
      InvHasOneRowEach(w);
      hide Inv, Apply, Legal, Shaped, Outcome, Register, OneRowEach;
      OthersLeaveAlone(w, cmds[0], u);
      StepKeepsInv(w, cmds[0]);
      StaysAsItIs(Apply(w, cmds[0]), cmds[1..], w', u);
    }
  }

  lemma InvHasOneRowEach(w: World)
    requires Inv(w)
    ensures OneRowEach(w.rows)
  {
  }

  /** The entry an accepted answer leaves. */
  lemma AnswerIsEntered(w: World, u: UserId, answer: AttendeeStatus, next: Option<nat>)
    requires var cmd := DoUpdateRsvp(u, answer, next);
      Shaped(w) && Legal(w, cmd) && OneRowEach(w.rows) && Outcome(w, cmd).Ok?
    ensures var cmd := DoUpdateRsvp(u, answer, next);
      var p, p', again := Register(w.rows), Register(Apply(w, cmd).rows), PromotedBy(w, cmd) == Some(u);
      && u in p && u in p'
      && (again ==> p[u].status == Promoted && answer == Going)
      && p'[u] == p[u].(status :=
           if answer == Going && p[u].status != Going && !SpotFree(p, w.session)
           then (if again then Promoted else Pending) else answer)
  {
    var cmd := DoUpdateRsvp(u, answer, next);
    hide Register, OneRowEach, Outcome, Apply, Leaving, PromotedBy, Shaped, SpotFree;
    LeavingIsOutcome(w, cmd);
    LeavingKeepsRegister(w, cmd);
    hide Legal;
  }

  lemma AnswerAcceptedIff(w: World, u: UserId, answer: AttendeeStatus, next: Option<nat>)
    requires var cmd := DoUpdateRsvp(u, answer, next); Shaped(w) && Legal(w, cmd) && OneRowEach(w.rows)
    ensures var p := Register(w.rows);
      Outcome(w, DoUpdateRsvp(u, answer, next)).Ok? <==>
      u in p && !(answer == Going && (p[u].status == NotGoing || p[u].status == Pending))
  {
    var cmd := DoUpdateRsvp(u, answer, next);
    hide Register, OneRowEach, Outcome, Apply, Leaving, Shaped, SpotFree;
    LeavingIsOutcome(w, cmd);
    DepartureKeepsRegister(w, cmd);
    hide Legal, Holding;
  }

  /** An accepted answer is the one the table shows until another command about the person, a
      manager's decision or a promotion: not going and maybe as given; going, or pending for lack
      of a spot - and someone promoted before who thereby goes back in line may be promoted again
      at once. It is refused only to people who said no or wait and ask to go. */
  lemma LastAnswerStands(w: World, u: UserId, answer: AttendeeStatus, next: Option<nat>, rest: seq<Command>, w': World)
    returns (i: nat, j: nat)
    requires var cmd := DoUpdateRsvp(u, answer, next);
      && Inv(w) && Shaped(w) && Legal(w, cmd)
      && RunsTo(Apply(w, cmd), rest, w') && LeftAlone(Apply(w, cmd), rest, u)
    ensures var cmd := DoUpdateRsvp(u, answer, next);
      && (Outcome(w, cmd).Ok? <==>
            LiveAt(w.rows, i, u) && !(answer == Going && (w.rows[i].status == NotGoing || w.rows[i].status == Pending)))
      && (Outcome(w, cmd).Ok? ==>
            && LiveAt(w'.rows, j, u) && EntryOf(w'.rows[j]) == EntryOf(w.rows[i]).(status := w'.rows[j].status)
            && (PromotedBy(w, cmd) == Some(u) ==> w.rows[i].status == Promoted && answer == Going)
            && w'.rows[j].status ==
               if answer == Going && w.rows[i].status != Going && !w.session.HasCapacity(Confirmed(w.rows))
               then (if PromotedBy(w, cmd) == Some(u) then Promoted else Pending) else answer)
  {
    var cmd := DoUpdateRsvp(u, answer, next);
    InvHasOneRowEach(w);
    hide Inv, Register, OneRowEach, Outcome, Apply, Legal, Shaped, LeftAlone;
    i := RegisterHas(w.rows, u);
    AnswerAcceptedIff(w, u, answer, next);
    HoldingIsConfirmed(w.rows);
    StepKeepsInv(w, cmd);
    RunKeepsInv(Apply(w, cmd), rest, w');
    InvHasOneRowEach(w');
    j := RegisterHas(w'.rows, u);
    StaysAsItIs(Apply(w, cmd), rest, w', u);
    hide RunsTo, PromotedBy, Holding, Confirmed;
    if Outcome(w, cmd).Ok? {
      AnswerIsEntered(w, u, answer, next);
    } else if LiveAt(w.rows, i, u) {
      RegisterAt(w.rows, i);
    }
  }
}
