/** Keeping a session's teams, draft and vote consistent with who is going
    (activity/internal/application/team_formation.go). Every method runs inside a transaction that
    holds the session lock. */
module TeamFormation {
  import opened Wrappers
  import opened Sequences
  import opened ActivityTypes
  import opened Attendees
  import W = SessionWorld
  import opened SessionInvariants
  import opened SessionStore
  import D = Drafts
  import V = Voting

  // ---- How far the assignment of rosters has got ----

  /** Where the rosters before position p, and the first j names at p, put the user. */
  function PlacesUpTo(user: UserId, rosters: seq<seq<UserId>>, p: nat, j: nat): (r: seq<nat>)
    requires p <= |rosters| && j <= (if p < |rosters| then |rosters[p]| else 0)
    ensures forall k :: 0 <= k < |r| ==> r[k] < |rosters|
  {
    if p < |rosters| then
      W.TimesAre(user, rosters[p][..j], p);
      W.Placements(user, rosters[..p]) + W.Times(user, rosters[p][..j], p)
    else W.Placements(user, rosters[..p])
  }

  lemma PlacesStep(user: UserId, rosters: seq<seq<UserId>>, p: nat, j: nat)
    requires p < |rosters| && j < |rosters[p]|
    ensures PlacesUpTo(user, rosters, p, j + 1)
         == PlacesUpTo(user, rosters, p, j) + (if rosters[p][j] == user then [p] else [])
  {
    assert rosters[p][..j + 1][..j] == rosters[p][..j];
  }

  lemma PlacesNextRoster(user: UserId, rosters: seq<seq<UserId>>, p: nat)
    requires p < |rosters|
    ensures PlacesUpTo(user, rosters, p, |rosters[p]|) == PlacesUpTo(user, rosters, p + 1, 0)
  {
    assert rosters[..p + 1][..p] == rosters[..p];
    assert rosters[p][..|rosters[p]|] == rosters[p];
    if p + 1 < |rosters| {
      assert rosters[p + 1][..0] == [];
      assert W.Placements(user, rosters[..p + 1]) + [] == W.Placements(user, rosters[..p + 1]);
    }
  }

  lemma PlacesAtStart(user: UserId, rosters: seq<seq<UserId>>)
    ensures PlacesUpTo(user, rosters, 0, 0) == []
  {
  }

  lemma PlacesAtEnd(user: UserId, rosters: seq<seq<UserId>>)
    ensures PlacesUpTo(user, rosters, |rosters|, 0) == W.Placements(user, rosters)
  {
    assert rosters[..|rosters|] == rosters;
  }

  /** The row with the assignment that far. */
  function RowUpTo(row: Row, rosters: seq<seq<UserId>>, teams: seq<TeamId>, p: nat, j: nat): Row
    requires |rosters| == |teams| && p <= |rosters| && j <= (if p < |rosters| then |rosters[p]| else 0)
  {
    row.(team := if W.IsGoing(row) then W.LastTeam(PlacesUpTo(row.user, rosters, p, j), teams) else None)
  }

  function EventsUpTo(row: Row, hadTeams: bool, formed: W.FormedTeams, teams: seq<TeamId>, p: nat, j: nat): seq<Event>
    requires |formed.rosters| == |formed.assignedBy| == |teams|
    requires p <= |formed.rosters| && j <= (if p < |formed.rosters| then |formed.rosters[p]| else 0)
  {
    (if hadTeams then Released(row, Replaced, formed.replacedBy).events else [])
    + W.AssignedEvents(row.user, PlacesUpTo(row.user, formed.rosters, p, j), teams, formed.assignedBy)
  }

  /** ids are the rows going, each once. */
  ghost predicate Covers(ids: seq<nat>, rows: seq<Row>) {
    && (forall k :: 0 <= k < |ids| ==> ids[k] < |rows| && W.IsGoing(rows[ids[k]]))
    && Distinct(ids)
    && (forall i :: 0 <= i < |rows| && W.IsGoing(rows[i]) ==> i in ids)
  }

  /** Stored rows and loaded attendees agree, with the assignment that far. */
  ghost predicate Assigned(db: Database, confirmed: seq<Attendee>, was: seq<Row>, ids: seq<nat>, hadTeams: bool,
                           formed: W.FormedTeams, teams: seq<TeamId>, p: nat, j: nat)
    requires |formed.rosters| == |formed.assignedBy| == |teams|
    requires p <= |formed.rosters| && j <= (if p < |formed.rosters| then |formed.rosters[p]| else 0)
    reads db, confirmed
  {
    && RowsAssigned(db.rows, was, formed.rosters, teams, p, j)
    && |confirmed| == |ids| && (forall k :: 0 <= k < |ids| ==> ids[k] < |was|)
    && (forall k :: 0 <= k < |confirmed| ==> AttendeeUpTo(confirmed[k], was, ids[k], hadTeams, formed, teams, p, j))
  }

  predicate RowsAssigned(rows: seq<Row>, was: seq<Row>, rosters: seq<seq<UserId>>, teams: seq<TeamId>, p: nat, j: nat)
    requires |rosters| == |teams| && p <= |rosters| && j <= (if p < |rosters| then |rosters[p]| else 0)
  {
    |rows| == |was| && forall i :: 0 <= i < |was| ==> rows[i] == RowUpTo(was[i], rosters, teams, p, j)
  }

  predicate AttendeeUpTo(a: Attendee, was: seq<Row>, i: nat, hadTeams: bool, formed: W.FormedTeams,
                         teams: seq<TeamId>, p: nat, j: nat)
    requires |formed.rosters| == |formed.assignedBy| == |teams| && i < |was|
    requires p <= |formed.rosters| && j <= (if p < |formed.rosters| then |formed.rosters[p]| else 0)
    reads a
  {
    && a.id == i && a.AsRow() == RowUpTo(was[i], formed.rosters, teams, p, j)
    && a.events == EventsUpTo(was[i], hadTeams, formed, teams, p, j)
  }

  lemma UpToStep(row: Row, hadTeams: bool, formed: W.FormedTeams, teams: seq<TeamId>, p: nat, j: nat)
    requires |formed.rosters| == |formed.assignedBy| == |teams| && p < |teams| && j < |formed.rosters[p]|
    ensures W.IsGoing(row) && row.user == formed.rosters[p][j] ==>
      && RowUpTo(row, formed.rosters, teams, p, j + 1) == row.(team := Some(teams[p]))
      && EventsUpTo(row, hadTeams, formed, teams, p, j + 1)
         == EventsUpTo(row, hadTeams, formed, teams, p, j) + [TeamAssigned(row.user, teams[p], formed.assignedBy[p])]
    ensures !W.IsGoing(row) || row.user != formed.rosters[p][j] ==>
      RowUpTo(row, formed.rosters, teams, p, j + 1) == RowUpTo(row, formed.rosters, teams, p, j)
    ensures row.user != formed.rosters[p][j] ==>
      EventsUpTo(row, hadTeams, formed, teams, p, j + 1) == EventsUpTo(row, hadTeams, formed, teams, p, j)
  {
    PlacesStep(row.user, formed.rosters, p, j);
    hide PlacesUpTo;
    var before, after := PlacesUpTo(row.user, formed.rosters, p, j), PlacesUpTo(row.user, formed.rosters, p, j + 1);
    if row.user == formed.rosters[p][j] {
      assert W.AssignedEvents(row.user, after, teams, formed.assignedBy)
          == W.AssignedEvents(row.user, before, teams, formed.assignedBy)
            + [TeamAssigned(row.user, teams[p], formed.assignedBy[p])];
    } else {
      assert before + [] == before;
    }
  }

  lemma UpToNextRoster(row: Row, hadTeams: bool, formed: W.FormedTeams, teams: seq<TeamId>, p: nat)
    requires |formed.rosters| == |formed.assignedBy| == |teams| && p < |teams|
    ensures RowUpTo(row, formed.rosters, teams, p, |formed.rosters[p]|) == RowUpTo(row, formed.rosters, teams, p + 1, 0)
    ensures EventsUpTo(row, hadTeams, formed, teams, p, |formed.rosters[p]|)
      == EventsUpTo(row, hadTeams, formed, teams, p + 1, 0)
  {
    PlacesNextRoster(row.user, formed.rosters, p);
    hide PlacesUpTo;
  }

  // ---- Collecting the attendees' events ----

  function MovesOf(rows: seq<Row>, ids: seq<nat>, hadTeams: bool, formed: W.FormedTeams, teams: seq<TeamId>): seq<Event>
    requires |formed.rosters| == |formed.assignedBy| == |teams| && forall k :: 0 <= k < |ids| ==> ids[k] < |rows|
  {
    if ids == [] then []
    else
      MovesOf(rows, ids[..|ids| - 1], hadTeams, formed, teams)
      + W.MoveEvents(rows[ids[|ids| - 1]], hadTeams, formed, teams)
  }

  lemma {:induction false} MovesOfPrefix(rows: seq<Row>, more: seq<Row>, ids: seq<nat>, hadTeams: bool,
                                         formed: W.FormedTeams, teams: seq<TeamId>)
    requires |formed.rosters| == |formed.assignedBy| == |teams| && forall k :: 0 <= k < |ids| ==> ids[k] < |rows|
    ensures MovesOf(rows, ids, hadTeams, formed, teams) == MovesOf(rows + more, ids, hadTeams, formed, teams)
  {
    hide W.MoveEvents;
    if ids != [] {
      MovesOfPrefix(rows, more, ids[..|ids| - 1], hadTeams, formed, teams);
    }
  }

  lemma {:induction false} MovesOfGoing(rows: seq<Row>, hadTeams: bool, formed: W.FormedTeams, teams: seq<TeamId>)
    requires |formed.rosters| == |formed.assignedBy| == |teams|
    ensures MovesOf(rows, GoingRows(rows), hadTeams, formed, teams) == W.AllMoves(rows, hadTeams, formed, teams)
  {
    hide W.MoveEvents;
    if rows != [] {
      var n := |rows| - 1;
      var init, ids := rows[..n], GoingRows(rows[..n]);
      MovesOfGoing(init, hadTeams, formed, teams);
      assert rows == init + [rows[n]];
      MovesOfPrefix(init, [rows[n]], ids, hadTeams, formed, teams);
      if W.IsGoing(rows[n]) {
        assert (ids + [n])[..|ids|] == ids;
      } else {
        assert ids + [] == ids;
        var moves := W.AllMoves(init, hadTeams, formed, teams);
        assert moves + [] == moves;
      }
    }
  }

  lemma GoingRowsCover(rows: seq<Row>)
    ensures Covers(GoingRows(rows), rows)
  {
  }

  // ---- Replacing the teams ----

  predicate OffOldTeam(a: Attendee, row: Row, hadTeams: bool, who: UserId)
    reads a
  {
    && a.AsRow() == row.(team := None)
    && a.events == (if hadTeams then Released(row, Replaced, who).events else [])
  }

  predicate AsLoaded(a: Attendee, row: Row)
    reads a
  {
    a.AsRow() == row && a.events == []
  }

  /** Takes the attendees going off the old teams. */
  method UnassignAll(confirmed: seq<Attendee>, ghost loaded: seq<Row>, hadTeams: bool, who: UserId)
    requires |loaded| == |confirmed| && Distinct(confirmed)
    requires forall k :: 0 <= k < |confirmed| ==> AsLoaded(confirmed[k], loaded[k])
    requires !hadTeams ==> forall k :: 0 <= k < |loaded| ==> loaded[k].team.None?
    modifies confirmed
    ensures forall k :: 0 <= k < |confirmed| ==> OffOldTeam(confirmed[k], loaded[k], hadTeams, who)
  {
    if hadTeams {
      for n := 0 to |confirmed|
        invariant forall k :: 0 <= k < n ==> OffOldTeam(confirmed[k], loaded[k], hadTeams, who)
        invariant forall k :: n <= k < |confirmed| ==> AsLoaded(confirmed[k], loaded[k])
      {
        var a := confirmed[n];
        if a.teamID.Some? {
          a.ReleaseTeam(Replaced, who);
        }
        assert OffOldTeam(a, loaded[n], hadTeams, who);
      }
    }
  }

  ghost predicate Indexed(confirmed: seq<Attendee>, byUser: map<UserId, nat>)
    reads confirmed
  {
    && (forall u :: u in byUser ==> byUser[u] < |confirmed| && confirmed[byUser[u]].user == u)
    && (forall k :: 0 <= k < |confirmed| ==> confirmed[k].user in byUser)
  }

  /** The attendees by user. */
  method ByUser(confirmed: seq<Attendee>) returns (byUser: map<UserId, nat>)
    requires forall j, k :: 0 <= j < k < |confirmed| ==> confirmed[j].user != confirmed[k].user
    ensures Indexed(confirmed, byUser)
  {
    byUser := map[];
    for k := 0 to |confirmed|
      invariant forall u :: u in byUser ==> byUser[u] < |confirmed| && confirmed[byUser[u]].user == u
      invariant forall i :: 0 <= i < k ==> confirmed[i].user in byUser
    {
      byUser := byUser[confirmed[k].user := k];
    }
  }

  /** What putting one named attendee on the team leaves: the assignment one name further. */
  lemma OneFurther(db: Database, confirmed: seq<Attendee>, rows: seq<Row>, was: seq<Row>, ids: seq<nat>, hadTeams: bool,
                   formed: W.FormedTeams, teams: seq<TeamId>, p: nat, j: nat, k: nat)
    requires |formed.rosters| == |formed.assignedBy| == |teams| && p < |teams| && j < |formed.rosters[p]|
    requires OneRowEach(was) && Covers(ids, was) && |confirmed| == |ids| && k < |ids|
    requires was[ids[k]].user == formed.rosters[p][j]
    requires RowsAssigned(rows, was, formed.rosters, teams, p, j)
    requires db.rows == rows[ids[k] := rows[ids[k]].(team := Some(teams[p]))]
    requires forall m :: 0 <= m < |confirmed| && m != k ==>
      AttendeeUpTo(confirmed[m], was, ids[m], hadTeams, formed, teams, p, j)
    requires confirmed[k].id == ids[k] && confirmed[k].AsRow() == db.rows[ids[k]]
    requires confirmed[k].events == EventsUpTo(was[ids[k]], hadTeams, formed, teams, p, j)
                                    + [TeamAssigned(was[ids[k]].user, teams[p], formed.assignedBy[p])]
    ensures Assigned(db, confirmed, was, ids, hadTeams, formed, teams, p, j + 1)
  {
    hide PlacesUpTo, W.LastTeam, EventsUpTo;
    forall i | 0 <= i < |was| ensures db.rows[i] == RowUpTo(was[i], formed.rosters, teams, p, j + 1) {
      UpToStep(was[i], hadTeams, formed, teams, p, j);
    }
    forall m | 0 <= m < |confirmed| ensures AttendeeUpTo(confirmed[m], was, ids[m], hadTeams, formed, teams, p, j + 1) {
      UpToStep(was[ids[m]], hadTeams, formed, teams, p, j);
    }
  }

  /** A name nobody going answers to changes nothing. */
  lemma NobodyNamed(db: Database, confirmed: seq<Attendee>, was: seq<Row>, ids: seq<nat>, hadTeams: bool,
                    formed: W.FormedTeams, teams: seq<TeamId>, p: nat, j: nat)
    requires |formed.rosters| == |formed.assignedBy| == |teams| && p < |teams| && j < |formed.rosters[p]|
    requires Covers(ids, was) && Assigned(db, confirmed, was, ids, hadTeams, formed, teams, p, j)
    requires forall k :: 0 <= k < |ids| ==> was[ids[k]].user != formed.rosters[p][j]
    ensures Assigned(db, confirmed, was, ids, hadTeams, formed, teams, p, j + 1)
  {
    hide PlacesUpTo, W.LastTeam, EventsUpTo;
    forall i | 0 <= i < |was| ensures db.rows[i] == RowUpTo(was[i], formed.rosters, teams, p, j + 1) {
      UpToStep(was[i], hadTeams, formed, teams, p, j);
      if W.IsGoing(was[i]) {
        var k :| 0 <= k < |ids| && ids[k] == i;
      }
    }
    forall m | 0 <= m < |confirmed| ensures AttendeeUpTo(confirmed[m], was, ids[m], hadTeams, formed, teams, p, j + 1) {
      UpToStep(was[ids[m]], hadTeams, formed, teams, p, j);
    }
  }

  lemma RowsAndObjectsAgree(db: Database, confirmed: seq<Attendee>, was: seq<Row>, ids: seq<nat>, hadTeams: bool,
                            formed: W.FormedTeams, teams: seq<TeamId>, p: nat, j: nat)
    requires |formed.rosters| == |formed.assignedBy| == |teams| && p < |teams| && j < |formed.rosters[p]|
    requires Assigned(db, confirmed, was, ids, hadTeams, formed, teams, p, j)
    ensures forall k :: 0 <= k < |confirmed| ==>
      && ids[k] < |db.rows| && confirmed[k].user == was[ids[k]].user && confirmed[k].AsRow() == db.rows[ids[k]]
  {
    hide PlacesUpTo, W.LastTeam, EventsUpTo;
  }

  /** One name of a roster: its attendee is put on the team and the row is written. */
  method AssignOne(db: Database, confirmed: seq<Attendee>, byUser: map<UserId, nat>, ghost was: seq<Row>,
                   ghost ids: seq<nat>,
                   ghost hadTeams: bool, formed: W.FormedTeams, teams: seq<TeamId>, p: nat, j: nat)
    requires |formed.rosters| == |formed.assignedBy| == |teams| && p < |teams| && j < |formed.rosters[p]|
    requires OneRowEach(was) && Covers(ids, was) && Distinct(confirmed)
    requires Assigned(db, confirmed, was, ids, hadTeams, formed, teams, p, j)
    requires Indexed(confirmed, byUser)
    modifies db`rows, confirmed
    ensures Assigned(db, confirmed, was, ids, hadTeams, formed, teams, p, j + 1)
    ensures Indexed(confirmed, byUser)
  {
    var user := formed.rosters[p][j];
    RowsAndObjectsAgree(db, confirmed, was, ids, hadTeams, formed, teams, p, j);
    hide PlacesUpTo, W.LastTeam, EventsUpTo, RowUpTo, Covers, OneRowEach;
    if user in byUser {
      var k := byUser[user];
      var a := confirmed[k];
      ghost var rows := db.rows;
      a.AssignToFormedTeam(teams[p], formed.assignedBy[p]);
      db.UpdateAttendee(a);
      OneFurther(db, confirmed, rows, was, ids, hadTeams, formed, teams, p, j, k);
    } else {
      NobodyNamed(db, confirmed, was, ids, hadTeams, formed, teams, p, j);
    }
  }

  lemma StartsAssigned(db: Database, confirmed: seq<Attendee>, was: seq<Row>, ids: seq<nat>, hadTeams: bool,
                       formed: W.FormedTeams, teams: seq<TeamId>)
    requires |formed.rosters| == |formed.assignedBy| == |teams|
    requires db.rows == W.Cleared(was) && |confirmed| == |ids| && forall k :: 0 <= k < |ids| ==> ids[k] < |was|
    requires forall k :: 0 <= k < |confirmed| ==> confirmed[k].id == ids[k]
    requires forall k :: 0 <= k < |confirmed| ==> OffOldTeam(confirmed[k], was[ids[k]], hadTeams, formed.replacedBy)
    ensures Assigned(db, confirmed, was, ids, hadTeams, formed, teams, 0, 0)
  {
    forall row: Row
      ensures RowUpTo(row, formed.rosters, teams, 0, 0) == row.(team := None)
      ensures EventsUpTo(row, hadTeams, formed, teams, 0, 0)
           == (if hadTeams then Released(row, Replaced, formed.replacedBy).events else []) {
      PlacesAtStart(row.user, formed.rosters);
      assert W.AssignedEvents(row.user, [], teams, formed.assignedBy) == [];
    }
    hide RowUpTo, EventsUpTo;
  }

  lemma NextRosterAssigned(db: Database, confirmed: seq<Attendee>, was: seq<Row>, ids: seq<nat>, hadTeams: bool,
                           formed: W.FormedTeams, teams: seq<TeamId>, p: nat)
    requires |formed.rosters| == |formed.assignedBy| == |teams| && p < |teams|
    requires Assigned(db, confirmed, was, ids, hadTeams, formed, teams, p, |formed.rosters[p]|)
    ensures Assigned(db, confirmed, was, ids, hadTeams, formed, teams, p + 1, 0)
  {
    hide RowUpTo, EventsUpTo;
    forall i | 0 <= i < |was| ensures db.rows[i] == RowUpTo(was[i], formed.rosters, teams, p + 1, 0) {
      UpToNextRoster(was[i], hadTeams, formed, teams, p);
    }
    forall k | 0 <= k < |confirmed|
      ensures AttendeeUpTo(confirmed[k], was, ids[k], hadTeams, formed, teams, p + 1, 0) {
      UpToNextRoster(was[ids[k]], hadTeams, formed, teams, p);
    }
  }

  /** Every roster assigned: rows and objects agree on the placement. */
  ghost predicate AllAssigned(db: Database, confirmed: seq<Attendee>, was: seq<Row>, ids: seq<nat>, hadTeams: bool,
                              formed: W.FormedTeams, teams: seq<TeamId>)
    requires |formed.rosters| == |formed.assignedBy| == |teams|
    reads db, confirmed
  {
    && db.rows == W.Placed(was, formed.rosters, teams)
    && |confirmed| == |ids|
    && (forall k :: 0 <= k < |confirmed| ==>
          && confirmed[k].id == ids[k] && ids[k] < |was| && ids[k] < |db.rows|
          && confirmed[k].AsRow() == db.rows[ids[k]]
          && confirmed[k].events == W.MoveEvents(was[ids[k]], hadTeams, formed, teams))
  }

  lemma AssignedAtEnd(db: Database, confirmed: seq<Attendee>, was: seq<Row>, ids: seq<nat>, hadTeams: bool,
                      formed: W.FormedTeams, teams: seq<TeamId>)
    requires |formed.rosters| == |formed.assignedBy| == |teams| && Covers(ids, was)
    requires Assigned(db, confirmed, was, ids, hadTeams, formed, teams, |formed.rosters|, 0)
    ensures AllAssigned(db, confirmed, was, ids, hadTeams, formed, teams)
  {
    forall row: Row
      ensures PlacesUpTo(row.user, formed.rosters, |formed.rosters|, 0) == W.Placements(row.user, formed.rosters) {
      PlacesAtEnd(row.user, formed.rosters);
    }
    hide PlacesUpTo, W.Placements;
  }

  method AssignRosters(db: Database, confirmed: seq<Attendee>, ghost was: seq<Row>, ghost ids: seq<nat>,
                       ghost hadTeams: bool,
                       formed: W.FormedTeams, teams: seq<TeamId>)
    requires |formed.rosters| == |formed.assignedBy| == |teams|
    requires OneRowEach(was) && Covers(ids, was) && Distinct(confirmed)
    requires Assigned(db, confirmed, was, ids, hadTeams, formed, teams, 0, 0)
    requires forall j, k :: 0 <= j < k < |confirmed| ==> confirmed[j].user != confirmed[k].user
    modifies db`rows, confirmed
    ensures AllAssigned(db, confirmed, was, ids, hadTeams, formed, teams)
  {
    hide Assigned, Indexed, AllAssigned, Covers, OneRowEach;
    var byUser := ByUser(confirmed);
    for p := 0 to |formed.rosters|
      invariant Assigned(db, confirmed, was, ids, hadTeams, formed, teams, p, 0)
      invariant Indexed(confirmed, byUser)
    {
      for j := 0 to |formed.rosters[p]|
        invariant Assigned(db, confirmed, was, ids, hadTeams, formed, teams, p, j)
        invariant Indexed(confirmed, byUser)
      {
        AssignOne(db, confirmed, byUser, was, ids, hadTeams, formed, teams, p, j);
      }
      NextRosterAssigned(db, confirmed, was, ids, hadTeams, formed, teams, p);
    }
    AssignedAtEnd(db, confirmed, was, ids, hadTeams, formed, teams);
  }

  /** Takes the attendees' events off them, in order. */
  method CollectEvents(confirmed: seq<Attendee>, ghost was: seq<Row>, ghost ids: seq<nat>, ghost hadTeams: bool,
                       ghost formed: W.FormedTeams, ghost teams: seq<TeamId>)
    returns (events: seq<Event>)
    requires |formed.rosters| == |formed.assignedBy| == |teams| && Distinct(confirmed)
    requires |confirmed| == |ids| && forall k :: 0 <= k < |ids| ==> ids[k] < |was|
    requires forall k :: 0 <= k < |confirmed| ==>
      confirmed[k].events == W.MoveEvents(was[ids[k]], hadTeams, formed, teams)
    modifies confirmed
    ensures events == MovesOf(was, ids, hadTeams, formed, teams)
    ensures forall k :: 0 <= k < |confirmed| ==>
      confirmed[k].events == [] && confirmed[k].AsRow() == old(confirmed[k].AsRow())
  {
    hide W.MoveEvents;
    events := [];
    for k := 0 to |confirmed|
      invariant events == MovesOf(was, ids[..k], hadTeams, formed, teams)
      invariant forall m :: 0 <= m < |confirmed| ==> confirmed[m].AsRow() == old(confirmed[m].AsRow())
      invariant forall m :: 0 <= m < k ==> confirmed[m].events == []
      invariant forall m :: k <= m < |confirmed| ==>
        confirmed[m].events == W.MoveEvents(was[ids[m]], hadTeams, formed, teams)
    {
      assert ids[..k + 1][..k] == ids[..k];
      events := events + confirmed[k].events;
      confirmed[k].events := [];
    }
    assert ids[..|ids|] == ids;
  }

  /** The rows the attendees going were loaded from. */
  function RowsAt(rows: seq<Row>, ids: seq<nat>): (r: seq<Row>)
    requires forall k :: 0 <= k < |ids| ==> ids[k] < |rows|
    ensures |r| == |ids| && forall k :: 0 <= k < |ids| ==> r[k] == rows[ids[k]]
  {
    seq(|ids|, k requires 0 <= k < |ids| => rows[ids[k]])
  }

  lemma LoadedOnce(confirmed: seq<Attendee>, rows: seq<Row>)
    requires Loaded(confirmed, rows) && OneRowEach(rows) && forall a :: a in confirmed ==> a.events == []
    ensures var ids := GoingRows(rows);
      && Covers(ids, rows) && |confirmed| == |ids| && Distinct(confirmed)
      && (forall k :: 0 <= k < |confirmed| ==> confirmed[k].id == ids[k] && AsLoaded(confirmed[k], rows[ids[k]]))
      && (forall j, k :: 0 <= j < k < |ids| ==> rows[ids[j]].user != rows[ids[k]].user)
  {
    GoingRowsCover(rows);
  }

  lemma NobodyOnTeamsYet(s: Session, nextId: nat, rows: seq<Row>)
    requires TeamsFit(s, nextId) && !s.HasTeams() && forall i :: 0 <= i < |rows| ==> OnSomeTeam(s, rows[i])
    ensures forall i :: 0 <= i < |rows| ==> rows[i].team.None?
  {
  }

  /** Everyone off the old teams, the new teams stored, everyone onto theirs. */
  method MoveEveryone(db: Database, confirmed: seq<Attendee>, ghost was: seq<Row>, ghost ids: seq<nat>, hadTeams: bool,
                      formed: W.FormedTeams, session: Session)
    returns (moves: seq<Event>)
    requires |formed.rosters| == |formed.assignedBy| == |session.teams|
    requires db.rows == was && OneRowEach(was) && Covers(ids, was) && Distinct(confirmed) && |confirmed| == |ids|
    requires forall k :: 0 <= k < |confirmed| ==> confirmed[k].id == ids[k] && AsLoaded(confirmed[k], was[ids[k]])
    requires forall j, k :: 0 <= j < k < |ids| ==> was[ids[j]].user != was[ids[k]].user
    requires !hadTeams ==> forall i :: 0 <= i < |was| ==> was[i].team.None?
    modifies db`rows, db`session, confirmed
    ensures db.rows == W.Placed(was, formed.rosters, session.teams) && db.session == session
    ensures moves == MovesOf(was, ids, hadTeams, formed, session.teams)
    ensures forall k :: 0 <= k < |confirmed| ==>
      && confirmed[k].id < |db.rows| && confirmed[k].AsRow() == db.rows[confirmed[k].id] && confirmed[k].events == []
  {
    ghost var loaded := RowsAt(was, ids);
    hide OneRowEach, W.Placed, Assigned, W.MoveEvents, Covers, RowsAt;
    UnassignAll(confirmed, loaded, hadTeams, formed.replacedBy);
    db.ReplaceTeams(session);
    StartsAssigned(db, confirmed, was, ids, hadTeams, formed, session.teams);
    AssignRosters(db, confirmed, was, ids, hadTeams, formed, session.teams);
    moves := CollectEvents(confirmed, was, ids, hadTeams, formed, session.teams);
  }

  lemma ReplacedState(before: W.World, after: W.World, formed: W.FormedTeams, config: TeamConfig, source: TeamsSource,
                      who: UserId,
                      moves: seq<Event>)
    requires |formed.rosters| == |formed.assignedBy| == config.teamCount
    requires var change := WithTeams(before.session, config, source, who, before.nextId);
      && after.session == change.session && after.rows == W.Placed(before.rows, formed.rosters, change.session.teams)
      && moves == W.AllMoves(before.rows, before.session.HasTeams(), formed, change.session.teams)
      && after.drafts == before.drafts && after.rounds == before.rounds && after.outbox == before.outbox
      && after.nextId == before.nextId + config.teamCount
    ensures after.Emit(WithTeams(before.session, config, source, who, before.nextId).events + moves)
         == W.ReplaceTeams(before, formed, config, source, who, [])
  {
    hide W.Placed, W.AllMoves, FreshTeams;
    var events := WithTeams(before.session, config, source, who, before.nextId).events + moves;
    assert [] + events == events;
  }

  /** Afterwards the stored rows and the attendee objects show the same teams, those of the
      rosters, and the events are what moves the old teams into the new. */
  method ReplaceTeams(db: Database, confirmed: seq<Attendee>, formed: W.FormedTeams, config: TeamConfig,
                      source: TeamsSource, who: UserId)
    returns (events: seq<Event>)
    requires |formed.rosters| == |formed.assignedBy| == config.teamCount
    requires Loaded(confirmed, db.rows) && forall a :: a in confirmed ==> a.events == []
    requires OneRowEach(db.rows) && TeamsFit(db.session, db.nextId)
    requires forall i :: 0 <= i < |db.rows| ==> OnSomeTeam(db.session, db.rows[i])
    modifies db, confirmed
    ensures db.outbox == old(db.outbox)
    ensures db.State().Emit(events) == W.ReplaceTeams(old(db.State()), formed, config, source, who, [])
    ensures forall k :: 0 <= k < |confirmed| ==>
      && confirmed[k].id < |db.rows| && confirmed[k].AsRow() == db.rows[confirmed[k].id] && confirmed[k].events == []
  {
    hide W.Placed, W.AllMoves, FreshTeams, W.MoveEvents, W.ReplaceTeams, GoingRows, Loaded, Covers, OneRowEach,
         TeamsFit;
    LoadedOnce(confirmed, db.rows);
    var hadTeams := db.session.HasTeams();
    if !hadTeams {
      NobodyOnTeamsYet(db.session, db.nextId, db.rows);
    }
    ghost var before := db.State();
    var change := WithTeams(db.session, config, source, who, db.nextId);
    MovesOfGoing(db.rows, hadTeams, formed, change.session.teams);
    var moves := MoveEveryone(db, confirmed, db.rows, GoingRows(db.rows), hadTeams, formed, change.session);
    db.nextId := db.nextId + config.teamCount;
    events := change.events + moves;
    ReplacedState(before, db.State(), formed, config, source, who, moves);
  }

  lemma TablesForReplacing(w: W.World)
    requires Tables(w)
    ensures OneRowEach(w.rows) && TeamsFit(w.session, w.nextId)
    ensures forall i :: 0 <= i < |w.rows| ==> OnSomeTeam(w.session, w.rows[i])
  {
  }

  lemma EmittedInOne(w: W.World, w': W.World, formed: W.FormedTeams, config: TeamConfig, source: TeamsSource,
                     who: UserId,
                     before: seq<Event>, events: seq<Event>)
    requires |formed.rosters| == |formed.assignedBy| == config.teamCount
    requires w'.Emit(events) == W.ReplaceTeams(w, formed, config, source, who, [])
    requires w'.outbox == w.outbox
    ensures w'.Emit(before + events) == W.ReplaceTeams(w, formed, config, source, who, before)
  {
    hide W.Placed, W.AllMoves, FreshTeams;
    var change := WithTeams(w.session, config, source, who, w.nextId);
    var all := change.events + W.AllMoves(w.rows, w.session.HasTeams(), formed, change.session.teams);
    assert [] + all == all;
    assert events == (w.outbox + events)[|w.outbox|..] == (w.outbox + all)[|w.outbox|..] == all;
  }

  /** Turns a completed draft into the session's teams. */
  method ApplyCompletedDraft(db: Database, draft: D.Draft, confirmed: seq<Attendee>) returns (events: seq<Event>)
    requires draft.config.teamCount == 2 && Tables(db.State())
    requires Loaded(confirmed, db.rows) && forall a :: a in confirmed ==> a.events == []
    modifies db, confirmed
    ensures db.outbox == old(db.outbox)
    ensures db.State().Emit(events)
         == W.ReplaceTeams(old(db.State()), W.DraftTeams(draft), draft.config, ByDraft, draft.startedBy, [])
  {
    TablesForReplacing(db.State());
    var formed := W.FormedTeams([D.Roster(draft, D.SideA), D.Roster(draft, D.SideB)],
      [draft.captainA, draft.captainB], draft.startedBy);
    hide Tables, Loaded, OneRowEach, TeamsFit, W.ReplaceTeams, D.Roster;
    events := ReplaceTeams(db, confirmed, formed, draft.config, ByDraft, draft.startedBy);
  }

  /** Turns a closed round's winning proposal into the session's teams. */
  method ApplyWinningProposal(db: Database, round: V.Round, winning: V.Proposal, closedBy: UserId,
                              confirmed: seq<Attendee>)
    returns (events: seq<Event>)
    requires |winning.teams| == round.teamCount && Tables(db.State())
    requires Loaded(confirmed, db.rows) && forall a :: a in confirmed ==> a.events == []
    modifies db, confirmed
    ensures db.outbox == old(db.outbox)
    ensures db.State().Emit(events)
         == W.ReplaceTeams(old(db.State()), W.FormedTeams(winning.teams, seq(|winning.teams|, _ => closedBy), closedBy),
                           round.Config(), ByVote, closedBy, [])
  {
    TablesForReplacing(db.State());
    var formed := W.FormedTeams(winning.teams, seq(|winning.teams|, _ => closedBy), closedBy);
    hide Tables, Loaded, OneRowEach, TeamsFit, W.ReplaceTeams;
    events := ReplaceTeams(db, confirmed, formed, round.Config(), ByVote, closedBy);
  }

  /** Cancels an open round after the teams were recreated by hand. */
  method TeamsReplacedByHand(db: Database) returns (events: seq<Event>)
    modifies db`rounds
    ensures var open := W.OpenRound(old(db.rounds));
      match open
      case None => events == [] && db.rounds == old(db.rounds)
      case Some(i) =>
        && i < |old(db.rounds)|
        && events == V.RoundEnded(old(db.rounds)[i], TeamsReplaced).events
        && db.rounds == old(db.rounds)[i := V.RoundEnded(old(db.rounds)[i], TeamsReplaced).round]
  {
    var open := W.OpenRound(db.rounds);
    OpenRoundIs(db.rounds);
    if open.None? { return []; }
    var c := V.RoundEnded(db.rounds[open.value], TeamsReplaced);
    db.rounds := db.rounds[open.value := c.round];
    events := c.events;
  }

  /** Cancels a running draft and an open round of a session that ended. */
  method SessionOver(db: Database, who: UserId) returns (events: seq<Event>)
    modifies db`drafts, db`rounds
    ensures db.State().Emit(events) == W.SessionOver(old(db.State()), who)
  {
    hide LastWhere;
    ActiveDraftIs(db.drafts);
    OpenRoundIs(db.rounds);
    events := [];
    var draft := W.ActiveDraft(db.drafts);
    if draft.Some? {
      var c := D.DraftEnded(db.drafts[draft.value], SessionEnded, who);
      db.drafts := db.drafts[draft.value := c.draft];
      events := events + c.events;
    }
    var open := W.OpenRound(db.rounds);
    if open.Some? {
      var c := V.RoundEnded(db.rounds[open.value], SessionEnded);
      db.rounds := db.rounds[open.value := c.round];
      events := events + c.events;
    }
  }

  /** Puts team formation back to its initial state; nothing happens when there is nothing to
      reset. */
  method ResetTeamFormation(db: Database, who: UserId, reason: ResetReason) returns (events: seq<Event>)
    modifies db`session, db`rows, db`drafts, db`rounds
    ensures db.State().Emit(events) == W.ResetTeamFormation(old(db.State()), who, reason)
  {
    hide LastWhere, W.GoingIds;
    ActiveDraftIs(db.drafts);
    OpenRoundIs(db.rounds);
    var draft, open := W.ActiveDraft(db.drafts), W.OpenRound(db.rounds);
    if !db.session.HasTeams() && draft.None? && open.None? {
      assert db.outbox + [] == db.outbox;
      return [];
    }
    events := [];
    if draft.Some? {
      events := events + D.DraftEnded(db.drafts[draft.value], FormationReset(reason), who).events;
    }
    if open.Some? {
      events := events + V.RoundEnded(db.rounds[open.value], FormationReset(reason)).events;
    }
    var going := W.GoingIds(db.rows);
    db.ReplaceTeams(WithoutTeams(db.session));
    db.drafts := [];
    db.rounds := [];
    events := events + [TeamsReset(who, reason, going)];
  }
}
