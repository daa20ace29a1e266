/** What a transaction read of the attendees, and what rejections - the only writers that do not wait
    for the session lock - can have made of it since
    (activity/internal/application/attendee_service.go lines 391-416). */
module StaleReads {
  import opened Wrappers
  import opened Sequences
  import opened ActivityTypes
  import opened Attendees
  import opened SessionWorld
  import opened SessionInvariants
  import opened SessionWaitlist

  /** A join request is never promoted, and it is on a team only with a spot. */
  predicate RequestFits(row: Row) {
    row.source == Requested ==> row.status != Promoted && (row.team.Some? ==> HoldsSpot(row.status))
  }

  ghost predicate RequestsFit(rows: seq<Row>) {
    forall i :: 0 <= i < |rows| ==> RequestFits(rows[i])
  }

  function RejectedSince(row: Row): Row {
    row.(status := NotGoing, team := None)
  }

  /** The row is as it was read, or a rejection has been written over it. */
  predicate SinceRead(was: Row, now: Row) {
    now == was || (was.source == Requested && now == RejectedSince(was))
  }

  ghost predicate RejectedOnly(read: seq<Row>, rows: seq<Row>) {
    |read| == |rows| && forall i :: 0 <= i < |rows| ==> SinceRead(read[i], rows[i])
  }

  /** Was going when read, and has been rejected since. */
  predicate Lost(read: seq<Row>, rows: seq<Row>, i: int)
    requires |read| == |rows|
  {
    0 <= i < |rows| && IsGoing(read[i]) && rows[i] != read[i]
  }

  ghost predicate NobodyLost(read: seq<Row>, rows: seq<Row>)
    requires |read| == |rows|
  {
    forall i :: !Lost(read, rows, i)
  }

  lemma NobodyLostSameGoing(read: seq<Row>, rows: seq<Row>)
    requires RejectedOnly(read, rows) && NobodyLost(read, rows)
    ensures GoingIds(read) == GoingIds(rows)
  {
    hide GoingIds;
    forall i | 0 <= i < |rows| ensures read[i].user == rows[i].user && IsGoing(read[i]) == IsGoing(rows[i]) {
      assert SinceRead(read[i], rows[i]) && !Lost(read, rows, i);
    }
    GoingSame(read, rows);
  }

  lemma {:induction false} GoingNarrows(read: seq<Row>, rows: seq<Row>)
    requires RejectedOnly(read, rows)
    ensures forall u :: u in GoingIds(rows) ==> u in GoingIds(read)
    ensures Confirmed(rows) <= Confirmed(read)
  {
    if rows != [] {
      var n := |rows| - 1;
      GoingNarrows(read[..n], rows[..n]);
      assert SinceRead(read[n], rows[n]);
    }
  }

  lemma {:induction false} FewerGoing(read: seq<Row>, rows: seq<Row>, i: nat)
    requires RejectedOnly(read, rows) && Lost(read, rows, i)
    ensures Confirmed(rows) < Confirmed(read)
  {
    var n := |rows| - 1;
    assert SinceRead(read[n], rows[n]);
    if i == n {
      GoingNarrows(read[..n], rows[..n]);
    } else {
      assert Lost(read[..n], rows[..n], i);
      FewerGoing(read[..n], rows[..n], i);
    }
  }

  /** Exactly the same people are going exactly when nobody was lost. */
  lemma SameGoingIff(read: seq<Row>, rows: seq<Row>)
    requires RejectedOnly(read, rows)
    ensures GoingIds(read) == GoingIds(rows) <==> NobodyLost(read, rows)
  {
    hide GoingIds, Lost;
    if NobodyLost(read, rows) {
      NobodyLostSameGoing(read, rows);
    } else {
      var i :| Lost(read, rows, i);
      LostIndex(read, rows, i);
      FewerGoing(read, rows, i);
    }
  }

  lemma LostIndex(read: seq<Row>, rows: seq<Row>, i: int)
    requires |read| == |rows| && Lost(read, rows, i)
    ensures 0 <= i < |rows|
  {
  }

  lemma LostUser(read: seq<Row>, rows: seq<Row>, i: nat)
    requires RejectedOnly(read, rows) && OneRowEach(rows) && Lost(read, rows, i)
    ensures read[i].user in GoingIds(read) && read[i].user !in GoingIds(rows)
  {
    var user := read[i].user;
    assert SinceRead(read[i], rows[i]) && GoesAt(read, i, user);
    GoingHas(read, user);
    GoingHas(rows, user);
    hide GoingIds;
    forall k | 0 <= k < |rows| ensures !GoesAt(rows, k, user) {
      assert SinceRead(read[k], rows[k]);
    }
  }
}
