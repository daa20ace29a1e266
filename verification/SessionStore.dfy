/** The tables of one session as the repositories read and write them inside a transaction that
    holds the session lock (activity/internal/infrastructure/persistence/attendee_repo.go and
    session_repo.go). */
module SessionStore {
  import opened Wrappers
  import opened Sequences
  import opened ActivityTypes
  import opened Attendees
  import opened SessionWorld
  import opened SessionInvariants
  import D = Drafts
  import V = Voting

  class Database {
    var session: Session
    var rows: seq<Row>
    var drafts: seq<D.Draft>
    var rounds: seq<V.Round>
    var outbox: seq<Event>
    var nextId: nat

    constructor (w: World)
      ensures State() == w
    {
      session, rows, drafts, rounds, outbox, nextId := w.session, w.rows, w.drafts, w.rounds, w.outbox, w.nextId;
    }

    function State(): World
      reads this
    {
      World(session, rows, drafts, rounds, outbox, nextId)
    }

    ghost predicate Valid()
      reads this
      ensures Valid() ==> Shaped(State())
    {
      Inv(State()) && (InvShaped(State()); true)
    }

    method GetAttendee(user: UserId) returns (a: Attendee?)
      ensures match LiveRow(rows, user)
              case None => a == null
              case Some(i) => i < |rows| && a != null && fresh(a) && a.id == i && a.AsRow() == rows[i] && a.events == []
    {
      var found := LiveRow(rows, user);
      LiveRowIs(rows, user);
      if found.None? { return null; }
      a := new Attendee.Load(found.value, rows[found.value]);
    }

    /** The attendees going, in table order, and their ids. */
    method ConfirmedAttendees() returns (confirmed: seq<Attendee>, ids: seq<UserId>)
      ensures Loaded(confirmed, rows) && ids == GoingIds(rows)
      ensures forall k :: 0 <= k < |confirmed| ==> fresh(confirmed[k])
      ensures forall a :: a in confirmed ==> a.events == []
    {
      hide Loaded, GoingIds;
      confirmed, ids := [], [];
      NothingLoaded();
      for i := 0 to |rows|
        invariant Loaded(confirmed, rows[..i]) && ids == GoingIds(rows[..i])
        invariant forall k :: 0 <= k < |confirmed| ==> fresh(confirmed[k])
        invariant forall a :: a in confirmed ==> a.events == []
      {
        assert rows[..i + 1] == rows[..i] + [rows[i]];
        GoingAppend(rows[..i], rows[i]);
        if !IsGoing(rows[i]) { NoneLoaded(confirmed, rows[..i], rows[i]); }
        if !rows[i].deleted {
          var a := new Attendee.Load(i, rows[i]);
          if HoldsSpot(a.status) {
            OneLoaded(confirmed, rows[..i], rows[i], a);
            confirmed := confirmed + [a];
            ids := ids + [a.user];
          }
        }
      }
      assert rows[..|rows|] == rows;
    }

    method GetFirstPending() returns (next: Option<nat>)
      ensures IsNextInLine(rows, next)
    {
      next := None;
      for i := 0 to |rows|
        invariant IsNextInLine(rows[..i], next)
      {
        if Waits(rows[i]) && (next.None? || rows[i].createdAt < rows[next.value].createdAt) {
          next := Some(i);
        }
      }
      assert rows[..|rows|] == rows;
    }

    method CreateAttendee(a: Attendee)
      modifies this`rows
      ensures rows == old(rows) + [a.AsRow()]
    {
      rows := rows + [a.AsRow()];
    }

    /** Writes status and team, whatever else the object holds. */
    method UpdateAttendee(a: Attendee)
      requires a.id < |rows|
      modifies this`rows
      ensures rows == old(rows)[a.id := old(rows)[a.id].(status := a.status, team := a.teamID)]
    {
      rows := rows[a.id := rows[a.id].(status := a.status, team := a.teamID)];
    }

    method DeleteAttendee(id: nat)
      requires id < |rows|
      modifies this`rows
      ensures rows == old(rows)[id := old(rows)[id].(deleted := true, team := None)]
    {
      rows := rows[id := rows[id].(deleted := true, team := None)];
    }

    /** Clears every team id and stores the session's new team setup. */
    method ReplaceTeams(s: Session)
      modifies this`rows, this`session
      ensures rows == Cleared(old(rows)) && session == s
    {
      rows := Cleared(rows);
      session := s;
    }

    method InsertEvents(events: seq<Event>)
      modifies this`outbox
      ensures outbox == old(outbox) + events
    {
      outbox := outbox + events;
    }
  }

  /** Where the rows going are. */
  function GoingRows(rows: seq<Row>): (r: seq<nat>)
    ensures forall k :: 0 <= k < |r| ==> r[k] < |rows| && IsGoing(rows[r[k]])
    ensures forall j, k :: 0 <= j < k < |r| ==> r[j] < r[k]
    ensures forall i :: 0 <= i < |rows| && IsGoing(rows[i]) ==> i in r
  {
    if rows == [] then []
    else
      var n := |rows| - 1;
      GoingRows(rows[..n]) + (if IsGoing(rows[n]) then [n] else [])
  }

  /** One object for each row going, holding what the row holds. */
  ghost predicate Loaded(attendees: seq<Attendee>, rows: seq<Row>)
    reads attendees
  {
    var ids := GoingRows(rows);
    && |attendees| == |ids|
    && (forall k :: 0 <= k < |ids| ==> attendees[k].id == ids[k] && attendees[k].AsRow() == rows[ids[k]])
  }

  lemma NothingLoaded()
    ensures Loaded([], []) && GoingIds([]) == []
  {
  }

  lemma OneLoaded(attendees: seq<Attendee>, rows: seq<Row>, row: Row, a: Attendee)
    requires Loaded(attendees, rows) && IsGoing(row) && a.id == |rows| && a.AsRow() == row
    ensures Loaded(attendees + [a], rows + [row])
  {
    assert (rows + [row])[..|rows|] == rows;
    assert GoingRows(rows + [row]) == GoingRows(rows) + [|rows|];
  }

  lemma NoneLoaded(attendees: seq<Attendee>, rows: seq<Row>, row: Row)
    requires Loaded(attendees, rows) && !IsGoing(row)
    ensures Loaded(attendees, rows + [row])
  {
    assert (rows + [row])[..|rows|] == rows;
    assert GoingRows(rows + [row]) == GoingRows(rows) + [];
  }

  /** A command committed what it should, or failed and changed nothing. */
  predicate Did(before: World, outcome: Result<World, Error>, err: Option<Error>, after: World) {
    match outcome
    case Ok(w) => err == None && after == w
    case Err(e) => err == Some(e) && after == before
  }

  /** A service method that did a command's outcome took the serial step, and kept the tables
      valid. */
  lemma DoneKeepsValid(before: World, cmd: Command, err: Option<Error>, after: World)
    requires Inv(before) && Shaped(before) && Legal(before, cmd) && Did(before, Outcome(before, cmd), err, after)
    ensures after == Apply(before, cmd) && Inv(after)
  {
    hide Inv, Outcome, Legal, Shaped;
    StepKeepsInv(before, cmd);
  }

  /** A leaver's command did its own write and handed the spot on. */
  predicate Departed(before: World, d: Result<Departure, Error>, user: UserId, err: Option<Error>, next: Option<nat>,
                     after: World) {
    match d
    case Err(e) => err == Some(e) && after == before
    case Ok(departure) =>
      && err == None
      && (departure.freed ==> IsNextInLine(departure.world.rows, next))
      && after == AfterDeparture(departure, user, next)
  }

  lemma DepartedKeepsValid(before: World, cmd: Command, err: Option<Error>, after: World)
    requires Inv(before) && Shaped(before) && MayLeave(cmd) && (cmd.DoUpdateRsvp? ==> IsAnswer(cmd.status))
    requires Departed(before, Leaving(before, cmd), cmd.user, err, cmd.next, after)
    ensures Legal(before, cmd) && after == Apply(before, cmd) && Inv(after)
  {
    hide Inv, RemoveAttendee, UpdateRsvp, CancelRsvp, IsNextInLine, AfterDeparture;
    StepKeepsInv(before, cmd);
  }
}
