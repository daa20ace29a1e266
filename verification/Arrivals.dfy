/** Who came first: the attendee table in the order of the commands that filled it, and the line it
    makes (activity/internal/infrastructure/persistence/attendee_repo.go lines 381-410). */
module Arrivals {
  import opened Wrappers
  import opened Sequences
  import opened ActivityTypes
  import opened Attendees
  import opened SessionWorld
  import opened SessionInvariants
  import opened SessionWaitlist

  /** Someone coming in: who, how, and at what instant by the command's own clock. */
  datatype Arrival = Arrival(user: UserId, source: AttendeeSource, at: int)

  function Arriving(w: World, cmd: Command): seq<Arrival>
    requires Shaped(w) && Legal(w, cmd)
  {
    if Outcome(w, cmd).Err? then []
    else match cmd
      case DoCreateRsvp(user, answer, _, _, now) =>
        [Arrival(user, if answer == Going && w.session.requiresApproval then Requested else RsvpManual, now)]
      case DoAcceptInvite(user, now) => [Arrival(user, Invited, now)]
      case _ => []
  }

  function ArrivalsOver(w: World, cmds: seq<Command>): seq<Arrival>
    decreases |cmds|
  {
    if cmds == [] || !Shaped(w) || !Legal(w, cmds[0]) then []
    else Arriving(w, cmds[0]) + ArrivalsOver(Apply(w, cmds[0]), cmds[1..])
  }

  predicate Tells(row: Row, a: Arrival) {
    row.user == a.user && row.source == a.source && row.createdAt == a.at
  }

  predicate SameArrival(row: Row, row': Row) {
    row'.user == row.user && row'.source == row.source && row'.createdAt == row.createdAt
  }

  ghost predicate Recorded(rows: seq<Row>, arrivals: seq<Arrival>, rows': seq<Row>) {
    && |rows'| == |rows| + |arrivals|
    && (forall i :: 0 <= i < |rows| ==> SameArrival(rows[i], rows'[i]))
    && (forall k :: 0 <= k < |arrivals| ==> Tells(rows'[|rows| + k], arrivals[k]))
  }

  lemma NewRowsAreRecorded(w: World, cmd: Command)
    requires Shaped(w) && Legal(w, cmd) && (cmd.DoCreateRsvp? || cmd.DoAcceptInvite?)
    ensures Recorded(w.rows, Arriving(w, cmd), Apply(w, cmd).rows)
  {
    hide LastWhere, GoingIds, Shaped;
  }

  lemma DepartureIsRecorded(w: World, cmd: Command)
    requires Shaped(w) && Legal(w, cmd) && MayLeave(cmd) && Leaving(w, cmd).Ok?
    ensures Recorded(w.rows, [], Apply(w, cmd).rows)
  {
    var d := Leaving(w, cmd).value;
    assert Apply(w, cmd) == AfterDeparture(d, cmd.user, cmd.next);
    OwnRowIsRecorded(w, cmd);
    hide *;
    HandingOnIsRecorded(d, cmd.user, cmd.next);
    var nobody: seq<Arrival> := [];
    RecordedJoins(w.rows, nobody, d.world.rows, nobody, Apply(w, cmd).rows);
    assert nobody + nobody == nobody;
  }

  lemma HandingOnIsRecorded(d: Departure, user: UserId, next: Option<nat>)
    requires d.freed ==> IsNextInLine(d.world.rows, next)
    ensures Recorded(d.world.rows, [], AfterDeparture(d, user, next).rows)
  {
    hide GoingIds, ResetTeamFormation;
    if d.freed {
      ResetKeepsAttendance(PromoteNextPending(d.world, next), user, RosterChanged);
    }
  }

  lemma OwnRowIsRecorded(w: World, cmd: Command)
    requires MayLeave(cmd) && Legal(w, cmd) && Leaving(w, cmd).Ok?
    ensures Recorded(w.rows, [], Leaving(w, cmd).value.world.rows)
  {
    hide LastWhere, GoingIds, IsNextInLine;
  }

  lemma StepIsRecorded(w: World, cmd: Command)
    requires Shaped(w) && Legal(w, cmd)
    ensures Recorded(w.rows, Arriving(w, cmd), Apply(w, cmd).rows)
  {
    if !ChangesAttendance(cmd) {
      OtherCommandsKeepAttendance(w, cmd);
      hide Apply, Legal, Shaped;
    } else if cmd.DoCreateRsvp? || cmd.DoAcceptInvite? {
      hide Apply, Legal, Shaped, Recorded, Arriving;
      NewRowsAreRecorded(w, cmd);
    } else if MayLeave(cmd) {
      hide Recorded, GoingIds, LastWhere, AfterDeparture, RemoveAttendee, UpdateRsvp, CancelRsvp, Shaped;
      if Leaving(w, cmd).Ok? { DepartureIsRecorded(w, cmd); } else { NothingIsRecorded(w.rows); }
    } else {
      hide LastWhere, GoingIds, Shaped;
    }
  }

  lemma NothingIsRecorded(rows: seq<Row>)
    ensures Recorded(rows, [], rows)
  {
  }

  lemma RecordedJoins(a: seq<Row>, first: seq<Arrival>, b: seq<Row>, more: seq<Arrival>, c: seq<Row>)
    requires Recorded(a, first, b) && Recorded(b, more, c)
    ensures Recorded(a, first + more, c)
  {
    forall k | 0 <= k < |first + more| ensures Tells(c[|a| + k], (first + more)[k]) {
      if k < |first| {
        assert Tells(b[|a| + k], first[k]) && SameArrival(b[|a| + k], c[|a| + k]);
      } else {
        assert Tells(c[|b| + (k - |first|)], more[k - |first|]);
      }
    }
  }

  /** Over every run the table is the list of those who came, in the order of their commands, each
      row carrying its own command's instant; no command moves, renames or redates a row. */
  lemma {:induction false} TableIsArrivals(w: World, cmds: seq<Command>, w': World)
    requires RunsTo(w, cmds, w')
    ensures Recorded(w.rows, ArrivalsOver(w, cmds), w'.rows)
    decreases |cmds|
  {
    hide Apply, Legal, Shaped, Arriving, Recorded;
    if cmds == [] {
      NothingIsRecorded(w.rows);
    } else {
      StepIsRecorded(w, cmds[0]);
      TableIsArrivals(Apply(w, cmds[0]), cmds[1..], w');
      RecordedJoins(w.rows, Arriving(w, cmds[0]), Apply(w, cmds[0]).rows,
        ArrivalsOver(Apply(w, cmds[0]), cmds[1..]), w'.rows);
    }
  }

  // ---- First come, first served ----

  /** When each person came, by position: those signed up at the start, then the arrivals. */
  function Came(users: seq<UserId>, start: int, arrivals: seq<Arrival>): seq<int> {
    seq(|users|, _ => start) + seq(|arrivals|, k requires 0 <= k < |arrivals| => arrivals[k].at)
  }

  function CameBy(s: Session, users: seq<UserId>, start: int, cmds: seq<Command>): seq<int> {
    Came(users, start, ArrivalsOver(NewWorld(s, users, start), cmds))
  }

  predicate InOrder(instants: seq<int>) {
    forall i, j :: 0 <= i < j < |instants| ==> instants[i] <= instants[j]
  }

  lemma {:induction false} AutoRowsCame(s: Session, users: seq<UserId>, start: int)
    ensures |AutoRows(s, users, start)| == |users|
    ensures forall i :: 0 <= i < |users| ==> AutoRows(s, users, start)[i].createdAt == start
  {
    if users != [] {
      AutoRowsCame(s, users[..|users| - 1], start);
    }
  }

  lemma RowsCarryTheirInstants(s: Session, users: seq<UserId>, start: int, cmds: seq<Command>, w: World)
    requires RunsTo(NewWorld(s, users, start), cmds, w)
    ensures var came := CameBy(s, users, start, cmds);
      |came| == |w.rows| && forall i :: 0 <= i < |w.rows| ==> w.rows[i].createdAt == came[i]
  {
    hide AutoRows, ArrivalsOver, RunsTo, Recorded, AutoEvents;
    TableIsArrivals(NewWorld(s, users, start), cmds, w);
    AutoRowsCame(s, users, start);
    ByPosition(AutoRows(s, users, start), users, start, ArrivalsOver(NewWorld(s, users, start), cmds), w.rows);
  }

  lemma ByPosition(first: seq<Row>, users: seq<UserId>, start: int, arrivals: seq<Arrival>, rows: seq<Row>)
    requires |first| == |users| && Recorded(first, arrivals, rows)
    requires forall i :: 0 <= i < |users| ==> first[i].createdAt == start
    ensures |Came(users, start, arrivals)| == |rows|
    ensures forall i :: 0 <= i < |rows| ==> rows[i].createdAt == Came(users, start, arrivals)[i]
  {
    forall i | 0 <= i < |rows| ensures rows[i].createdAt == Came(users, start, arrivals)[i] {
      if i < |users| {
        assert SameArrival(first[i], rows[i]);
      } else {
        assert Tells(rows[|users| + (i - |users|)], arrivals[i - |users|]);
      }
    }
  }

  /** The person at position i waits and the command gives them a spot. */
  predicate GetsASpot(w: World, cmd: Command, i: nat) {
    && Shaped(w) && Legal(w, cmd)
    && i < |w.rows| && Waits(w.rows[i]) && i < |Apply(w, cmd).rows| && IsGoing(Apply(w, cmd).rows[i])
  }

  /** The people at these positions came at the very same instant. */
  predicate CameTogether(came: seq<int>, k: nat, i: nat) {
    k < |came| && i < |came| && came[k] == came[i]
  }

  /** On a session whose people came at instants that never decrease, whoever waits and gets a spot
      is the first of those waiting in the order in which they came: anybody who came before and
      is passed over came at the very same instant. */
  lemma FirstComeFirstServed(s: Session, users: seq<UserId>, start: int, cmds: seq<Command>, w: World, cmd: Command,
                             i: nat, k: nat)
    requires RunsTo(NewWorld(s, users, start), cmds, w) && InOrder(CameBy(s, users, start, cmds))
    requires k < i < |w.rows| && Waits(w.rows[k]) && GetsASpot(w, cmd, i)
    requires MayLeave(cmd) ==> w.rows[k].user != cmd.user
    ensures CameTogether(CameBy(s, users, start, cmds), k, i)
  {
    hide NewWorld, CameBy, RunsTo, Apply, Legal, Shaped;
    RowsCarryTheirInstants(s, users, start, cmds, w);
    SpotsGoInOrder(w, cmd, i);
  }
}
