/** Creating and resetting teams by hand, and the session's own life
    (activity/internal/application/session_service.go). */
module SessionService {
  import opened Wrappers
  import opened Sequences
  import opened ActivityTypes
  import opened Attendees
  import W = SessionWorld
  import opened SessionInvariants
  import opened SessionStore
  import TeamFormation
  import D = Drafts
  import V = Voting

  /** A new session's attendees: spots go to the first users, the rest wait. */
  method ProcessAutoAttendees(s: Session, users: seq<UserId>, now: int) returns (rows: seq<Row>, events: seq<Event>)
    ensures rows == W.AutoRows(s, users, now) && events == W.AutoEvents(rows)
  {
    rows, events := [], [];
    var confirmed := 0;
    for i := 0 to |users|
      invariant rows == W.AutoRows(s, users[..i], now) && events == W.AutoEvents(rows)
      invariant confirmed == W.Confirmed(rows)
    {
      assert users[..i + 1][..i] == users[..i];
      ghost var before := rows;
      if s.HasCapacity(confirmed) {
        rows := rows + [Row(users[i], Going, AutoConfirmed, None, now, false)];
        confirmed := confirmed + 1;
        events := events + [AutoConfirmedEvent(users[i])];
      } else {
        rows := rows + [Row(users[i], Pending, AutoPending, None, now, false)];
        events := events + [AutoPendingEvent(users[i])];
      }
      GoingAppend(before, rows[|rows| - 1]);
    }
    assert users[..|users|] == users;
  }

  /** Takes every live attendee with a team off it and collects the events. */
  method UnassignReplaced(db: Database, who: UserId) returns (events: seq<Event>)
    ensures events == W.UnassignedEvents(db.rows, who)
  {
    events := [];
    for i := 0 to |db.rows|
      invariant events == W.UnassignedEvents(db.rows[..i], who)
    {
      assert db.rows[..i + 1][..i] == db.rows[..i];
      if !db.rows[i].deleted {
        var a := new Attendee.Load(i, db.rows[i]);
        if a.teamID.Some? {
          a.ReleaseTeam(Replaced, who);
          events := events + a.events;
        }
      }
    }
    assert db.rows[..|db.rows|] == db.rows;
  }

  lemma CreateKeepsValid(before: W.World, actor: Actor, teamCount: Option<int>, minPlayers: Option<int>,
                         err: Option<Error>,
                         after: W.World)
    requires Inv(before) && NewTeamConfig(teamCount, minPlayers).Ok?
    requires Did(before, W.CreateTeams(before, actor, NewTeamConfig(teamCount, minPlayers).value), err, after)
    ensures Inv(after)
  {
    InvShaped(before);
    hide Inv, W.Shaped, W.CreateTeams;
    DoneKeepsValid(before, W.DoCreateTeams(actor, teamCount, minPlayers), err, after);
  }

  method CreateTeams(db: Database, actor: Actor, teamCount: Option<int>, minPlayers: Option<int>)
    returns (err: Option<Error>)
    requires db.Valid()
    modifies db
    ensures db.Valid()
    ensures NewTeamConfig(teamCount, minPlayers).Err? ==>
      db.State() == old(db.State()) && err == Some(NewTeamConfig(teamCount, minPlayers).error)
    ensures NewTeamConfig(teamCount, minPlayers).Ok? ==>
      Did(old(db.State()), W.CreateTeams(old(db.State()), actor, NewTeamConfig(teamCount, minPlayers).value), err,
        db.State())
  {
    hide Inv, W.Shaped, LastWhere, W.UnassignedEvents, FreshTeams;
    ghost var before := db.State();
    var config := NewTeamConfig(teamCount, minPlayers);
    if config.Err? { return Some(config.error); }
    if W.ActiveDraft(db.drafts).Some? { return Some(DraftAlreadyActive); }
    if !db.session.ManagedBy(actor) { return Some(Unauthorized); }
    var locked := TeamsLock(db.session);
    if locked.Some? { return locked; }
    if !db.session.isTeamSport { return Some(TeamsNotSupported); }
    var change := WithTeams(db.session, config.value, ByHand, actor.user, db.nextId);
    var events := change.events;
    if db.session.HasTeams() {
      var unassigned := UnassignReplaced(db, actor.user);
      events := events + unassigned;
    }
    assert events == change.events
      + (if old(db.session).HasTeams() then W.UnassignedEvents(old(db.rows), actor.user) else []);
    db.nextId := db.nextId + config.value.teamCount;
    db.ReplaceTeams(change.session);
    var votingEvents := TeamFormation.TeamsReplacedByHand(db);
    ghost var outbox := db.outbox;
    db.InsertEvents(events + votingEvents);
    assert outbox + (events + votingEvents) == (outbox + events) + votingEvents;
    assert votingEvents == [] ==> (outbox + events) + votingEvents == outbox + events;
    CreateKeepsValid(before, actor, teamCount, minPlayers, None, db.State());
    return None;
  }

  method ResetTeams(db: Database, actor: Actor) returns (err: Option<Error>)
    requires db.Valid()
    modifies db
    ensures db.Valid()
    ensures Did(old(db.State()), W.ResetTeams(old(db.State()), actor), err, db.State())
  {
    ghost var before := db.State();
    hide Inv, W.Shaped, W.ResetTeamFormation;
    if !db.session.ManagedBy(actor) { return Some(Unauthorized); }
    var locked := TeamsLock(db.session);
    if locked.Some? { return locked; }
    var events := TeamFormation.ResetTeamFormation(db, actor.user, ByOrganizer);
    db.InsertEvents(events);
    DoneKeepsValid(before, W.DoResetTeams(actor), None, db.State());
    return None;
  }

  method UpdateSession(db: Database, actor: Actor, capacity: Option<int>, endsAt: int, isPublic: bool)
    returns (err: Option<Error>)
    requires db.Valid()
    modifies db
    ensures db.Valid()
    ensures Did(old(db.State()), W.UpdateSession(old(db.State()), actor, capacity, endsAt, isPublic), err, db.State())
  {
    hide Inv, W.Shaped;
    ghost var before := db.State();
    var c := Updated(db.session, actor, capacity, endsAt);
    if c.Err? { return Some(c.error); }
    var v := VisibilitySet(c.value.session, actor, isPublic);
    if v.Err? { return Some(v.error); }
    db.session := v.value.session;
    db.InsertEvents(c.value.events + v.value.events);
    DoneKeepsValid(before, W.DoUpdateSession(actor, capacity, endsAt, isPublic), None, db.State());
    return None;
  }

  method SetSessionVisibility(db: Database, actor: Actor, isPublic: bool) returns (err: Option<Error>)
    requires db.Valid()
    modifies db
    ensures db.Valid()
    ensures Did(old(db.State()), W.SessionStep(old(db.State()), VisibilitySet(old(db.session), actor, isPublic)), err,
      db.State())
  {
    hide Inv, W.Shaped;
    ghost var before := db.State();
    var c := VisibilitySet(db.session, actor, isPublic);
    if c.Err? { return Some(c.error); }
    db.session := c.value.session;
    db.InsertEvents(c.value.events);
    DoneKeepsValid(before, W.DoSetVisibility(actor, isPublic), None, db.State());
    return None;
  }

  method StartSession(db: Database, actor: Actor) returns (err: Option<Error>)
    requires db.Valid()
    modifies db
    ensures db.Valid()
    ensures Did(old(db.State()), W.SessionStep(old(db.State()), StartedBy(old(db.session), actor)), err, db.State())
  {
    hide Inv, W.Shaped;
    ghost var before := db.State();
    var c := StartedBy(db.session, actor);
    if c.Err? { return Some(c.error); }
    db.session := c.value.session;
    db.InsertEvents(c.value.events);
    DoneKeepsValid(before, W.DoStart(actor), None, db.State());
    return None;
  }

  /** Stores a session that just ended and ends what ran on it. */
  method EndSession(db: Database, c: Result<SessionChange, Error>, who: UserId) returns (err: Option<Error>)
    modifies db
    ensures Did(old(db.State()), W.EndSession(old(db.State()), c, who), err, db.State())
  {
    hide LastWhere;
    if c.Err? { return Some(c.error); }
    db.session := c.value.session;
    ghost var w := db.State();
    var formation := TeamFormation.SessionOver(db, who);
    db.InsertEvents(c.value.events + formation);
    OverEmits(w, c.value.events, formation, db.drafts, db.rounds, who);
    return None;
  }

  /** Ending what runs adds its events behind those already raised. */
  lemma OverEmits(w: W.World, events: seq<Event>, formation: seq<Event>, drafts: seq<D.Draft>, rounds: seq<V.Round>,
                  who: UserId)
    requires w.(drafts := drafts, rounds := rounds).Emit(formation) == W.SessionOver(w, who)
    ensures w.(drafts := drafts, rounds := rounds).Emit(events + formation) == W.SessionOver(w.Emit(events), who)
  {
    hide LastWhere;
    ActiveDraftIs(w.drafts);
    OpenRoundIs(w.rounds);
    var d := if W.ActiveDraft(w.drafts).Some? then [DraftCancelled(SessionEnded, who)] else [];
    var v := if W.OpenRound(w.rounds).Some? then [VotingCancelled(SessionEnded)] else [];
    assert W.SessionOver(w, who).outbox == w.outbox + (d + v);
    assert formation == (w.outbox + formation)[|w.outbox|..] == (w.outbox + (d + v))[|w.outbox|..] == d + v;
    assert W.SessionOver(w.Emit(events), who).outbox == w.outbox + events + (d + v);
    assert w.outbox + (events + formation) == w.outbox + events + formation;
  }

  method CompleteSession(db: Database, actor: Actor) returns (err: Option<Error>)
    requires db.Valid()
    modifies db
    ensures db.Valid()
    ensures Did(old(db.State()), W.EndSession(old(db.State()), CompletedBy(old(db.session), actor), actor.user), err,
      db.State())
  {
    hide Inv, W.Shaped;
    ghost var before := db.State();
    err := EndSession(db, CompletedBy(db.session, actor), actor.user);
    DoneKeepsValid(before, W.DoComplete(actor), err, db.State());
  }

  method CancelSession(db: Database, actor: Actor) returns (err: Option<Error>)
    requires db.Valid()
    modifies db
    ensures db.Valid()
    ensures Did(old(db.State()), W.EndSession(old(db.State()), CanceledBy(old(db.session), actor), actor.user), err,
      db.State())
  {
    hide Inv, W.Shaped;
    ghost var before := db.State();
    err := EndSession(db, CanceledBy(db.session, actor), actor.user);
    DoneKeepsValid(before, W.DoCancel(actor), err, db.State());
  }

  predicate Apart(dbs: seq<Database>) {
    forall i, j :: 0 <= i < j < |dbs| ==> dbs[i] != dbs[j]
  }

  ghost predicate AllValid(dbs: seq<Database>)
    reads dbs
  {
    forall i :: 0 <= i < |dbs| ==> dbs[i].Valid()
  }

  ghost function States(dbs: seq<Database>): (r: seq<W.World>)
    reads dbs
    ensures |r| == |dbs| && forall i :: 0 <= i < |dbs| ==> r[i] == dbs[i].State()
  {
    seq(|dbs|, i requires 0 <= i < |dbs| reads dbs => dbs[i].State())
  }

  /** What an expiry sweep makes of a session: nothing if it is over or not past its end. */
  function Swept(w: W.World, now: int): W.World {
    match W.Expire(w, now)
    case Ok(next) => next
    case Err(_) => w
  }

  function CancelledWithGroup(w: W.World, who: UserId): W.World {
    match W.EndSession(w, CanceledFromGroup(w.session, NOBODY), who)
    case Ok(next) => next
    case Err(_) => w
  }

  lemma SweptKeepsInv(w: W.World, now: int)
    requires Inv(w)
    ensures Inv(Swept(w, now))
  {
    hide Inv, W.SessionOver;
    if W.Expire(w, now).Ok? && !w.session.Ended() {
      var c := ExpiredAt(w.session, now).value;
      EndKeepsInv(w, c.session, c.events, NOBODY);
    }
  }

  lemma CancelledKeepsInv(w: W.World, who: UserId)
    requires Inv(w)
    ensures Inv(CancelledWithGroup(w, who))
  {
    hide Inv, W.SessionOver;
    if CanceledFromGroup(w.session, NOBODY).Ok? {
      var c := CanceledFromGroup(w.session, NOBODY).value;
      EndKeepsInv(w, c.session, c.events, who);
    }
  }

  ghost predicate AllInv(worlds: seq<W.World>) {
    forall i :: 0 <= i < |worlds| ==> Inv(worlds[i])
  }

  /** What a sweep makes of each session; a failing transaction leaves its session alone. */
  function SweptAll(before: seq<W.World>, failing: set<nat>, now: int): (r: seq<W.World>)
    ensures |r| == |before|
    ensures forall i :: 0 <= i < |r| ==> r[i] == if i in failing then before[i] else Swept(before[i], now)
  {
    seq(|before|, i requires 0 <= i < |before| => if i in failing then before[i] else Swept(before[i], now))
  }

  function CancelledAll(before: seq<W.World>, who: UserId): (r: seq<W.World>)
    ensures |r| == |before|
    ensures forall i :: 0 <= i < |r| ==> r[i] == CancelledWithGroup(before[i], who)
  {
    seq(|before|, i requires 0 <= i < |before| => CancelledWithGroup(before[i], who))
  }

  lemma SweepKeepsInv(before: seq<W.World>, failing: set<nat>, now: int, who: UserId)
    requires AllInv(before)
    ensures AllInv(SweptAll(before, failing, now)) && AllInv(CancelledAll(before, who))
  {
    hide Inv, Swept, CancelledWithGroup;
    forall i | 0 <= i < |before|
      ensures Inv(SweptAll(before, failing, now)[i]) && Inv(CancelledAll(before, who)[i]) {
      SweptKeepsInv(before[i], now);
      CancelledKeepsInv(before[i], who);
    }
  }

  lemma ValidIffInv(dbs: seq<Database>, worlds: seq<W.World>)
    requires |worlds| == |dbs| && forall i :: 0 <= i < |dbs| ==> dbs[i].State() == worlds[i]
    ensures AllValid(dbs) <==> AllInv(worlds)
  {
    hide Inv, W.Shaped, Database.State;
  }

  function EndedOf(before: seq<W.World>, ends: seq<bool>): nat
    requires |ends| == |before|
  {
    if before == [] then 0
    else
      var n := |before| - 1;
      EndedOf(before[..n], ends[..n]) + (if !before[n].session.Ended() && ends[n] then 1 else 0)
  }

  /** How many sessions a sweep ends: those past their end and not over whose transaction goes
      through. */
  function SweptNow(before: seq<W.World>, failing: set<nat>, now: int): nat {
    EndedOf(before, seq(|before|, i requires 0 <= i < |before| => i !in failing && before[i].session.endsAt < now))
  }

  function LiveBefore(before: seq<W.World>): nat {
    EndedOf(before, seq(|before|, _ => true))
  }

  lemma OneMoreSwept(before: seq<W.World>, n: nat, failing: set<nat>, now: int)
    requires n < |before|
    ensures SweptNow(before[..n + 1], failing, now)
         == SweptNow(before[..n], failing, now)
          + (if !before[n].session.Ended() && n !in failing && before[n].session.endsAt < now then 1 else 0)
  {
    var b, c := before[..n + 1], before[..n];
    assert b[..n] == c;
    assert seq(|b|, i requires 0 <= i < |b| => i !in failing && b[i].session.endsAt < now)[..n]
        == seq(|c|, i requires 0 <= i < |c| => i !in failing && c[i].session.endsAt < now);
  }

  lemma OneMoreLive(before: seq<W.World>, n: nat)
    requires n < |before|
    ensures LiveBefore(before[..n + 1]) == LiveBefore(before[..n]) + (if !before[n].session.Ended() then 1 else 0)
  {
    var b, c := before[..n + 1], before[..n];
    assert b[..n] == c;
    assert seq(|b|, _ => true)[..n] == seq(|c|, _ => true);
  }

  /** One session of the sweep, reloaded under its lock. */
  method ExpireOne(db: Database, now: int) returns (expired: bool)
    modifies db
    ensures db.State() == Swept(old(db.State()), now)
    ensures expired == (!old(db.State()).session.Ended() && old(db.State()).session.endsAt < now)
  {
    hide Inv, W.Shaped, W.EndSession;
    ghost var before := db.State();
    if db.session.Ended() { return false; }
    var c := ExpiredAt(db.session, now);
    var err := EndSession(db, c, NOBODY);
    EndsIffAllowed(before, c, NOBODY);
    return err.None?;
  }

  lemma EndsIffAllowed(w: W.World, c: Result<SessionChange, Error>, who: UserId)
    ensures W.EndSession(w, c, who).Ok? == c.Ok?
  {
  }

  /** The sweep's loop over the found sessions. */
  method SweepEach(dbs: seq<Database>, failing: set<nat>, now: int) returns (expired: nat)
    requires Apart(dbs)
    modifies dbs
    ensures forall i :: 0 <= i < |dbs| ==>
      dbs[i].State() == if i in failing then old(dbs[i].State()) else Swept(old(dbs[i].State()), now)
    ensures expired == SweptNow(old(States(dbs)), failing, now)
  {
    expired := 0;
    ghost var before := States(dbs);
    assert SweptNow(before[..0], failing, now) == 0;
    hide Swept, SweptNow, Database.State;
    for n := 0 to |dbs|
      invariant forall i :: 0 <= i < n ==> dbs[i].State() == if i in failing then before[i] else Swept(before[i], now)
      invariant forall i :: n <= i < |dbs| ==> dbs[i].State() == before[i]
      invariant expired == SweptNow(before[..n], failing, now)
    {
      OneMoreSwept(before, n, failing, now);
      if n in failing { continue; }
      assert forall i :: 0 <= i < |dbs| && i != n ==> dbs[i] != dbs[n];
      var done := ExpireOne(dbs[n], now);
      if done { expired := expired + 1; }
    }
    assert before[..|dbs|] == before;
  }

  /** Completes every found session past its end, passing over those whose transaction fails;
      returns how many it completed, which are those not over already. */
  method ExpireCompletedSessions(dbs: seq<Database>, failing: set<nat>, now: int) returns (expired: nat)
    requires Apart(dbs) && AllValid(dbs)
    modifies dbs
    ensures AllValid(dbs)
    ensures forall i :: 0 <= i < |dbs| ==>
      dbs[i].State() == if i in failing then old(dbs[i].State()) else Swept(old(dbs[i].State()), now)
    ensures expired == SweptNow(old(States(dbs)), failing, now)
  {
    hide AllValid, AllInv, Swept, SweptNow, Database.State;
    ghost var before := States(dbs);
    ValidIffInv(dbs, before);
    expired := SweepEach(dbs, failing, now);
    SweepKeepsInv(before, failing, now, NOBODY);
    ValidIffInv(dbs, SweptAll(before, failing, now));
  }

  method CancelOne(db: Database, who: UserId) returns (cancelled: bool)
    modifies db
    ensures db.State() == CancelledWithGroup(old(db.State()), who)
    ensures cancelled == !old(db.State()).session.Ended()
  {
    hide Inv, W.Shaped, W.EndSession;
    ghost var before := db.State();
    var c := CanceledFromGroup(db.session, NOBODY);
    var err := EndSession(db, c, who);
    EndsIffAllowed(before, c, who);
    return err.None?;
  }

  /** The loop over a group's sessions. */
  method CancelEach(dbs: seq<Database>, who: UserId) returns (cancelled: nat)
    requires Apart(dbs)
    modifies dbs
    ensures forall i :: 0 <= i < |dbs| ==> dbs[i].State() == CancelledWithGroup(old(dbs[i].State()), who)
    ensures cancelled == LiveBefore(old(States(dbs)))
  {
    cancelled := 0;
    ghost var before := States(dbs);
    assert LiveBefore(before[..0]) == 0;
    hide CancelledWithGroup, LiveBefore, Database.State;
    for n := 0 to |dbs|
      invariant forall i :: 0 <= i < n ==> dbs[i].State() == CancelledWithGroup(before[i], who)
      invariant forall i :: n <= i < |dbs| ==> dbs[i].State() == before[i]
      invariant cancelled == LiveBefore(before[..n])
    {
      OneMoreLive(before, n);
      assert forall i :: 0 <= i < |dbs| && i != n ==> dbs[i] != dbs[n];
      var done := CancelOne(dbs[n], who);
      if done { cancelled := cancelled + 1; }
    }
    assert before[..|dbs|] == before;
  }

  /** Cancels every session of a group that is still live; ended ones are passed over. */
  method CancelGroupSessions(dbs: seq<Database>, who: UserId) returns (cancelled: nat)
    requires Apart(dbs) && AllValid(dbs)
    modifies dbs
    ensures AllValid(dbs)
    ensures forall i :: 0 <= i < |dbs| ==> dbs[i].State() == CancelledWithGroup(old(dbs[i].State()), who)
    ensures cancelled == LiveBefore(old(States(dbs)))
  {
    hide AllValid, AllInv, CancelledWithGroup, LiveBefore, Database.State;
    ghost var before := States(dbs);
    ValidIffInv(dbs, before);
    cancelled := CancelEach(dbs, who);
    SweepKeepsInv(before, {}, 0, who);
    ValidIffInv(dbs, CancelledAll(before, who));
  }
}
