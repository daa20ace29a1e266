/** What the outbox says about a session: replaying its team events gives the stored teams, and
    its endings, drafts and votes add up. */
module SessionLog {
  import opened Wrappers
  import opened Sequences
  import opened ActivityTypes
  import opened Attendees
  import opened SessionWorld
  import opened SessionInvariants
  import opened SessionWaitlist
  import opened Sturdiness
  import D = Drafts
  import V = Voting

  // ---- Replaying team events ----

  /** The team the event puts the user on, Some(None) for none, None if it says nothing. */
  function Effect(e: Event, user: UserId): Option<Option<TeamId>> {
    match e
    case TeamAssigned(u, team, _) => if u == user then Some(Some(team)) else None
    case TeamChanged(u, _, team, _) => if u == user then Some(Some(team)) else None
    case TeamUnassigned(u, _, _, _) => if u == user then Some(None) else None
    case TeamsReset(_, _, _) => Some(None)
    case _ => None
  }

  function TeamAfter(start: Option<TeamId>, events: seq<Event>, user: UserId): Option<TeamId>
    decreases |events|
  {
    if events == [] then start
    else match Effect(events[|events| - 1], user)
      case Some(team) => team
      case None => TeamAfter(start, events[..|events| - 1], user)
  }

  lemma {:induction false} TeamAfterBoth(start: Option<TeamId>, a: seq<Event>, b: seq<Event>, user: UserId)
    ensures TeamAfter(start, a + b, user) == TeamAfter(TeamAfter(start, a, user), b, user)
    decreases |b|
  {
    if b == [] {
      assert a + b == a;
    } else {
      var init := b[..|b| - 1];
      TeamAfterBoth(start, a, init, user);
      assert (a + b)[..|a + b| - 1] == a + init;
    }
  }

  lemma {:induction false} TeamAfterSilence(start: Option<TeamId>, events: seq<Event>, user: UserId)
    requires forall i :: 0 <= i < |events| ==> Effect(events[i], user).None?
    ensures TeamAfter(start, events, user) == start
    decreases |events|
  {
    if events != [] {
      TeamAfterSilence(start, events[..|events| - 1], user);
    }
  }

  /** The team stored for the user's live row. */
  function TeamOf(rows: seq<Row>, user: UserId): Option<TeamId> {
    match LiveRow(rows, user)
    case None => None
    case Some(i) => LiveRowIs(rows, user); rows[i].team
  }

  lemma TeamOfIs(rows: seq<Row>, i: nat)
    requires OneRowEach(rows) && i < |rows| && !rows[i].deleted
    ensures TeamOf(rows, rows[i].user) == rows[i].team
  {
    LiveRowIs(rows, rows[i].user);
  }

  // ---- Counting ----

  datatype Ledger = Endings | DraftsRun | VotesRun

  function Weight(l: Ledger, e: Event): int {
    match l
    case Endings => if e.SessionCompleted? || e.SessionCancelled? || e.SessionExpired? then 1 else 0
    case DraftsRun => if e.DraftStarted? then 1 else if e.DraftCompleted? || e.DraftCancelled? then -1 else 0
    case VotesRun => if e.VotingOpened? then 1 else if e.VotingClosed? || e.VotingCancelled? then -1 else 0
  }

  function Tally(l: Ledger, events: seq<Event>): int {
    if events == [] then 0 else Tally(l, events[..|events| - 1]) + Weight(l, events[|events| - 1])
  }

  lemma {:induction false} TallyBoth(l: Ledger, a: seq<Event>, b: seq<Event>)
    ensures Tally(l, a + b) == Tally(l, a) + Tally(l, b)
  {
    if b == [] {
      assert a + b == a;
    } else {
      var init := b[..|b| - 1];
      TallyBoth(l, a, init);
      assert (a + b)[..|a + b| - 1] == a + init;
    }
  }

  predicate Plain(e: Event) {
    Weight(Endings, e) == 0 && Weight(DraftsRun, e) == 0 && Weight(VotesRun, e) == 0
  }

  lemma {:induction false} TallyPlain(l: Ledger, events: seq<Event>)
    requires forall i :: 0 <= i < |events| ==> Plain(events[i])
    ensures Tally(l, events) == 0
  {
    if events != [] {
      TallyPlain(l, events[..|events| - 1]);
      assert Plain(events[|events| - 1]);
    }
  }

  function Level(l: Ledger, w: World): int {
    match l
    case Endings => if w.session.Ended() then 1 else 0
    case DraftsRun => if ActiveDraft(w.drafts).Some? then 1 else 0
    case VotesRun => if OpenRound(w.rounds).Some? then 1 else 0
  }

  // ---- A step told by its events ----

  ghost predicate Told(w: World, events: seq<Event>, w': World) {
    && w'.outbox == w.outbox + events
    && (forall u: UserId :: TeamAfter(TeamOf(w.rows, u), events, u) == TeamOf(w'.rows, u))
    && (forall l: Ledger :: Tally(l, events) == Level(l, w') - Level(l, w))
  }

  lemma ToldDirectly(w: World, events: seq<Event>, w': World)
    requires w'.outbox == w.outbox + events
    requires forall u: UserId :: TeamAfter(TeamOf(w.rows, u), events, u) == TeamOf(w'.rows, u)
    requires forall l: Ledger :: Tally(l, events) == Level(l, w') - Level(l, w)
    ensures Told(w, events, w')
  {
  }

  lemma ToldTwice(w: World, a: seq<Event>, w1: World, b: seq<Event>, w2: World)
    requires Told(w, a, w1) && Told(w1, b, w2)
    ensures Told(w, a + b, w2)
  {
    hide TeamAfter, TeamOf, Tally, Level;
    forall u: UserId ensures TeamAfter(TeamOf(w.rows, u), a + b, u) == TeamOf(w2.rows, u) {
      TeamAfterBoth(TeamOf(w.rows, u), a, b, u);
    }
    forall l: Ledger ensures Tally(l, a + b) == Level(l, w2) - Level(l, w) {
      TallyBoth(l, a, b);
    }
    assert (w.outbox + a) + b == w.outbox + (a + b);
  }

  /** Events about neither teams nor ledgers. */
  predicate Small(e: Event) {
    Plain(e) && !e.TeamAssigned? && !e.TeamChanged? && !e.TeamUnassigned? && !e.TeamsReset?
  }

  lemma SilentAboutTeams(events: seq<Event>, rows: seq<Row>, rows': seq<Row>)
    requires forall i :: 0 <= i < |events| ==>
      !events[i].TeamAssigned? && !events[i].TeamChanged? && !events[i].TeamUnassigned? && !events[i].TeamsReset?
    requires forall u: UserId :: TeamOf(rows, u) == TeamOf(rows', u)
    ensures forall u: UserId :: TeamAfter(TeamOf(rows, u), events, u) == TeamOf(rows', u)
  {
    hide TeamAfter, TeamOf;
    forall u: UserId ensures TeamAfter(TeamOf(rows, u), events, u) == TeamOf(rows', u) {
      TeamAfterSilence(TeamOf(rows, u), events, u);
    }
  }

  // ---- One attendee's row ----

  /** The change's events say where it leaves the user, and nothing about anybody else. */
  ghost predicate TellsTeam(before: Option<TeamId>, user: UserId, c: Change) {
    && TeamAfter(before, c.events, user) == c.row.team
    && (forall i :: 0 <= i < |c.events| ==> Plain(c.events[i]) && !c.events[i].TeamsReset?)
    && (forall u, i :: u != user && 0 <= i < |c.events| ==> Effect(c.events[i], u).None?)
  }

  lemma SmallChangeTells(row: Row, c: Change)
    requires c.row.team == row.team && forall i :: 0 <= i < |c.events| ==> Small(c.events[i])
    ensures TellsTeam(row.team, row.user, c)
  {
    TeamAfterSilence(row.team, c.events, row.user);
  }

  lemma LastMoveTells(row: Row, c: Change, before: seq<Event>, e: Event)
    requires c.events == before + [e] && forall i :: 0 <= i < |before| ==> Small(before[i])
    requires e.TeamAssigned? || e.TeamChanged? || e.TeamUnassigned?
    requires e.user == row.user && Effect(e, row.user) == Some(c.row.team)
    ensures TellsTeam(row.team, row.user, c)
  {
    LastEventDecides(row.team, before, e, row.user);
  }

  lemma ReleaseTells(row: Row, before: seq<Event>, status: AttendeeStatus, why: UnassignReason, who: UserId)
    requires forall i :: 0 <= i < |before| ==> Small(before[i])
    ensures var c := Released(row.(status := status), why, who);
      TellsTeam(row.team, row.user, c.(events := before + c.events))
  {
    hide TellsTeam;
    var c := Released(row.(status := status), why, who);
    if row.team.None? {
      SmallChangeTells(row, c.(events := before + c.events));
    } else {
      LastMoveTells(row, c.(events := before + c.events), before, c.events[0]);
    }
  }

  lemma RsvpChangeTells(row: Row, s: Session, to: AttendeeStatus, confirmed: int)
    requires UpdatedRsvp(row, to, s, confirmed).Ok?
    ensures TellsTeam(row.team, row.user, UpdatedRsvp(row, to, s, confirmed).value)
  {
    hide TellsTeam;
    var c := UpdatedRsvp(row, to, s, confirmed).value;
    if to != row.status && (to == NotGoing || to == Maybe) {
      var held := HoldsSpot(row.status);
      ReleaseTells(row, [if to == Maybe then RsvpMaybe(row.user, held) else RsvpNotGoing(row.user, held)], to, Left,
        NOBODY);
    } else {
      SmallChangeTells(row, c);
    }
  }

  lemma RemovalTells(row: Row, s: Session, actor: Actor)
    requires Removed(row, s, actor).Ok?
    ensures TellsTeam(row.team, row.user, Removed(row, s, actor).value)
  {
    ReleaseTells(row, [AttendeeRemoved(row.user, actor.user)], row.status, RemovedByManager, actor.user);
  }

  lemma OwnTeamChangeTells(row: Row, s: Session, team: TeamId, actor: Actor)
    ensures OnTeam(row, s, team, actor).Ok? ==> TellsTeam(row.team, row.user, OnTeam(row, s, team, actor).value)
    ensures OffTeam(row, s, actor).Ok? ==> TellsTeam(row.team, row.user, OffTeam(row, s, actor).value)
  {
    hide TellsTeam;
    if OnTeam(row, s, team, actor).Ok? {
      var c := OnTeam(row, s, team, actor).value;
      if row.team == Some(team) {
        SmallChangeTells(row, c);
      } else {
        LastMoveTells(row, c, [], c.events[0]);
      }
    }
    if OffTeam(row, s, actor).Ok? {
      ReleaseTells(row, [], row.status, UnassignedByHand, actor.user);
      var c := OffTeam(row, s, actor).value;
      assert c.(events := [] + c.events) == c;
    }
  }

  lemma TeamOfAfterWrite(rows: seq<Row>, i: nat, row: Row, user: UserId)
    requires OneRowEach(rows) && i < |rows| && !rows[i].deleted && row.user == rows[i].user
    requires row.deleted ==> row.team.None?
    ensures TeamOf(rows[i := row], user) == (if user == row.user then row.team else TeamOf(rows, user))
  {
    var rows' := rows[i := row];
    assert forall k :: 0 <= k < |rows| && k != i ==> rows'[k] == rows[k];
    hide LastWhere;
    LiveRowIs(rows, user);
    LiveRowIs(rows', user);
    if LiveRow(rows', user).Some? {
      var k := LiveRow(rows', user).value;
      if k != i {
        assert user != row.user;
        TeamOfIs(rows, k);
      }
    } else {
      assert rows'[i] == row;
      if LiveRow(rows, user).Some? {
        var k := LiveRow(rows, user).value;
        assert k == i;
        assert row.deleted;
      } else {
        assert rows[i].user != user;
      }
    }
  }

  lemma WriteIsTold(w: World, i: nat, c: Change)
    requires OneRowEach(w.rows) && i < |w.rows| && !w.rows[i].deleted && c.row.user == w.rows[i].user
    requires c.row.deleted ==> c.row.team.None?
    requires TellsTeam(w.rows[i].team, c.row.user, c)
    ensures Told(w, c.events, Wrote(w, i, c))
  {
    var w' := Wrote(w, i, c);
    forall u: UserId ensures TeamAfter(TeamOf(w.rows, u), c.events, u) == TeamOf(w'.rows, u) {
      hide TeamAfter, LastWhere, LiveRow;
      TeamOfAfterWrite(w.rows, i, c.row, u);
      if u == c.row.user {
        TeamOfIs(w.rows, i);
      } else {
        TeamAfterSilence(TeamOf(w.rows, u), c.events, u);
      }
    }
    forall l: Ledger ensures Tally(l, c.events) == 0 {
      TallyPlain(l, c.events);
    }
  }

  lemma InsertIsTold(w: World, c: Change)
    requires LiveRow(w.rows, c.row.user).None? && !c.row.deleted && c.row.team.None?
    requires forall i :: 0 <= i < |c.events| ==> Small(c.events[i])
    ensures Told(w, c.events, Inserted(w, c))
  {
    var w' := Inserted(w, c);
    LiveRowIs(w.rows, c.row.user);
    forall u: UserId ensures TeamOf(w.rows, u) == TeamOf(w'.rows, u) {
      hide LastWhere;
      LiveRowIs(w.rows, u);
      InsertKeepsLiveRow(w.rows, c.row, u);
    }
    SilentAboutTeams(c.events, w.rows, w'.rows);
    forall l: Ledger ensures Tally(l, c.events) == 0 {
      TallyPlain(l, c.events);
    }
  }

  lemma InsertKeepsLiveRow(rows: seq<Row>, row: Row, user: UserId)
    ensures LiveRow(rows + [row], user)
      == (if !row.deleted && row.user == user then Some(|rows|) else LiveRow(rows, user))
  {
    assert (rows + [row])[..|rows|] == rows;
  }

  lemma JoiningIsTold(w: World, cmd: Command) returns (events: seq<Event>)
    requires Legal(w, cmd) && Shaped(w) && Outcome(w, cmd).Ok? && (cmd.DoCreateRsvp? || cmd.DoAcceptInvite?)
    ensures Told(w, events, Outcome(w, cmd).value)
  {
    hide GoingIds, LastWhere, Inserted, Told;
    var c := if cmd.DoAcceptInvite? then NewInvited(w.session, cmd.user, Confirmed(w.rows), cmd.now)
             else if cmd.status == Going && w.session.requiresApproval then NewRequested(cmd.user, cmd.now)
             else NewRsvp(w.session, cmd.user, cmd.status, Confirmed(w.rows), cmd.now);
    InsertIsTold(w, c);
    events := c.events;
  }

  lemma OwnRowIsTold(w: World, cmd: Command) returns (events: seq<Event>)
    requires OneRowEach(w.rows) && Legal(w, cmd) && Shaped(w) && Outcome(w, cmd).Ok?
    requires cmd.DoApprove? || cmd.DoReject? || cmd.DoAssignTeam? || cmd.DoUnassignTeam?
    ensures Told(w, events, Outcome(w, cmd).value)
  {
    hide GoingIds, LastWhere, Wrote, ActiveDraft, Told, TellsTeam;
    LiveRowIs(w.rows, cmd.user);
    var i := LiveRow(w.rows, cmd.user).value;
    var row := w.rows[i];
    var c := if cmd.DoApprove? then Approved(row, w.session, cmd.actor)
             else if cmd.DoReject? then Rejected(row, w.session, cmd.actor)
             else if cmd.DoAssignTeam? then OnTeam(row, w.session, cmd.team, cmd.actor)
             else OffTeam(row, w.session, cmd.actor);
    if cmd.DoApprove? || cmd.DoReject? {
      SmallChangeTells(row, c.value);
    } else {
      OwnTeamChangeTells(row, w.session, if cmd.DoAssignTeam? then cmd.team else 0, cmd.actor);
    }
    WriteIsTold(w, i, c.value);
    events := c.value.events;
  }

  lemma AttendanceIsTold(w: World, cmd: Command) returns (events: seq<Event>)
    requires Sturdy(w) && Shaped(w) && Legal(w, cmd) && Outcome(w, cmd).Ok?
    requires cmd.DoCreateRsvp? || cmd.DoAcceptInvite? || cmd.DoApprove? || cmd.DoReject? || cmd.DoAssignTeam?
      || cmd.DoUnassignTeam?
    ensures Told(w, events, Outcome(w, cmd).value)
  {
    hide Sturdy, Outcome, Legal, Shaped, Told;
    SturdyTables(w);
    if cmd.DoCreateRsvp? || cmd.DoAcceptInvite? {
      events := JoiningIsTold(w, cmd);
    } else {
      events := OwnRowIsTold(w, cmd);
    }
  }

  // ---- Leaving ----

  lemma ResetIsTold(w: World, who: UserId, reason: ResetReason, going: seq<UserId>) returns (events: seq<Event>)
    requires OneFormation(w)
    ensures Told(w, events, ResetFormation(w, who, reason, going))
  {
    hide TeamAfter, TeamOf, Tally, LastWhere, OneFormation;
    var w' := ResetFormation(w, who, reason, going);
    if w' == w {
      events := [];
      assert w.outbox + [] == w.outbox;
      SilentAboutTeams([], w.rows, w.rows);
      forall l: Ledger ensures Tally(l, []) == 0 {
        TallyPlain(l, []);
      }
    } else {
      var drafting := if ActiveDraft(w.drafts).Some? then [DraftCancelled(FormationReset(reason), who)] else [];
      var voting := if OpenRound(w.rounds).Some? then [VotingCancelled(FormationReset(reason))] else [];
      var reset := TeamsReset(who, reason, going);
      events := drafting + voting + [reset];
      ActiveDraftIs(w.drafts);
      OpenRoundIs(w.rounds);
      forall u: UserId ensures TeamAfter(TeamOf(w.rows, u), events, u) == TeamOf(w'.rows, u) {
        LastEventDecides(TeamOf(w.rows, u), drafting + voting, reset, u);
        NobodyOnATeam(w'.rows, u);
      }
      forall l: Ledger ensures Tally(l, events) == Level(l, w') - Level(l, w) {
        ActiveDraftIs([]);
        OpenRoundIs([]);
        TallyTriple(l, drafting, voting, [reset]);
        TallyUpToOne(l, drafting);
        TallyUpToOne(l, voting);
        TallyUpToOne(l, [reset]);
      }
    }
  }

  lemma NobodyOnATeam(rows: seq<Row>, user: UserId)
    requires forall i :: 0 <= i < |rows| ==> rows[i].team.None?
    ensures TeamOf(rows, user).None?
  {
    LiveRowIs(rows, user);
  }

  lemma TallyUpToOne(l: Ledger, events: seq<Event>)
    requires |events| <= 1
    ensures Tally(l, events) == (if events == [] then 0 else Weight(l, events[0]))
  {
    if events != [] {
      assert events[..0] == [];
    }
  }

  lemma LastEventDecides(start: Option<TeamId>, before: seq<Event>, e: Event, user: UserId)
    requires Effect(e, user).Some?
    ensures TeamAfter(start, before + [e], user) == Effect(e, user).value
  {
  }

  lemma TallyTriple(l: Ledger, a: seq<Event>, b: seq<Event>, c: seq<Event>)
    ensures Tally(l, a + b + c) == Tally(l, a) + Tally(l, b) + Tally(l, c)
  {
    TallyBoth(l, a + b, c);
    TallyBoth(l, a, b);
  }

  lemma LeavingIsTold(w: World, cmd: Command) returns (events: seq<Event>)
    requires Sturdy(w) && Shaped(w) && MayLeave(cmd) && Legal(w, cmd) && Leaving(w, cmd).Ok?
    ensures Told(w, events, Apply(w, cmd))
  {
    var d := Leaving(w, cmd).value;
    assert Apply(w, cmd) == AfterDeparture(d, cmd.user, cmd.next);
    SturdyTables(w);
    var i, c := LeavingWritesOneRow(w, cmd);
    events := OwnWriteIsTold(w, cmd);
    if d.freed {
      assert IsNextInLine(d.world.rows, cmd.next);
      assert OneRowEach(d.world.rows);
      PromoteKeepsTables(d.world, cmd.next);
      var p := PromoteNextPending(d.world, cmd.next);
      assert OneFormation(p);
      hide *;
      var promoted := PromotionIsTold(d.world, cmd.next);
      ToldTwice(w, events, d.world, promoted, p);
      events := events + promoted;
      if TeamsLock(p.session).None? {
        var reset := ResetIsTold(p, cmd.user, RosterChanged, GoingIds(p.rows));
        ToldTwice(w, events, p, reset, ResetFormation(p, cmd.user, RosterChanged, GoingIds(p.rows)));
        events := events + reset;
      }
      FreedSpotGives(d, cmd.user, cmd.next);
    } else {
      UnfreedIsItself(d, cmd.user, cmd.next);
    }
  }

  lemma FreedSpotGives(d: Departure, user: UserId, next: Option<nat>)
    requires d.freed && IsNextInLine(d.world.rows, next)
    ensures AfterDeparture(d, user, next) ==
      var p := PromoteNextPending(d.world, next);
      if TeamsLock(p.session).Some? then p else ResetFormation(p, user, RosterChanged, GoingIds(p.rows))
  {
  }

  lemma OwnWriteIsTold(w: World, cmd: Command) returns (events: seq<Event>)
    requires Sturdy(w) && MayLeave(cmd) && Leaving(w, cmd).Ok?
    ensures Told(w, events, Leaving(w, cmd).value.world)
  {
    SturdyTables(w);
    hide GoingIds, Sturdy, LastWhere, Told, TellsTeam, OneFormation, TeamsFit;
    LiveRowIs(w.rows, cmd.user);
    var i := LiveRow(w.rows, cmd.user).value;
    var row := w.rows[i];
    var c: Change;
    if cmd.DoUpdateRsvp? {
      RsvpChangeTells(row, w.session, cmd.status, Confirmed(w.rows));
      c := UpdatedRsvp(row, cmd.status, w.session, Confirmed(w.rows)).value;
    } else {
      var own := if cmd.DoRemove? then Removed(row, w.session, cmd.actor).value else Released(row, Left, NOBODY);
      assert own.row.team.None?;
      if cmd.DoRemove? {
        RemovalTells(row, w.session, cmd.actor);
      } else {
        ReleaseTells(row, [], row.status, Left, NOBODY);
        assert own.(events := [] + own.events) == own;
      }
      c := Change(row.(deleted := true, team := None), own.events);
      SameTeamTells(row.team, row.user, own, c);
    }
    events := c.events;
    WriteIsTold(w, i, c);
    assert Leaving(w, cmd).value.world == Wrote(w, i, c);
  }

  lemma SameTeamTells(before: Option<TeamId>, user: UserId, c: Change, c': Change)
    requires TellsTeam(before, user, c) && c'.row.team == c.row.team && c'.events == c.events
    ensures TellsTeam(before, user, c')
  {
  }

  lemma PromotionIsTold(w: World, next: Option<nat>) returns (events: seq<Event>)
    requires OneRowEach(w.rows) && IsNextInLine(w.rows, next)
    ensures Told(w, events, PromoteNextPending(w, next))
  {
    hide TellsTeam, LastWhere;
    if next.Some? {
      var row := w.rows[next.value];
      var c := PromotedRow(row).value;
      SmallChangeTells(row, c);
      WriteIsTold(w, next.value, c);
      events := c.events;
    } else {
      events := [];
      assert w.outbox + [] == w.outbox;
      SilentAboutTeams([], w.rows, w.rows);
    }
  }

  // ---- Replaced teams ----

  predicate GoesAs(row: Row, user: UserId) {
    IsGoing(row) && row.user == user
  }

  lemma AssignmentsTell(start: Option<TeamId>, user: UserId, places: seq<nat>, teams: seq<TeamId>,
                        assignedBy: seq<UserId>)
    requires |teams| == |assignedBy| && forall k :: 0 <= k < |places| ==> places[k] < |teams|
    ensures TeamAfter(start, AssignedEvents(user, places, teams, assignedBy), user)
         == (if places == [] then start else LastTeam(places, teams))
  {
    var on := AssignedEvents(user, places, teams, assignedBy);
    if places == [] {
      assert on == [];
    } else {
      hide TeamAfter;
      var last := on[|on| - 1];
      assert on == on[..|on| - 1] + [last];
      LastEventDecides(start, on[..|on| - 1], last, user);
    }
  }

  lemma MoveTells(row: Row, hadTeams: bool, formed: FormedTeams, teams: seq<TeamId>)
    requires |formed.rosters| == |formed.assignedBy| == |teams| && (row.team.Some? ==> hadTeams)
    ensures TeamAfter(row.team, MoveEvents(row, hadTeams, formed, teams), row.user)
         == LastTeam(Placements(row.user, formed.rosters), teams)
  {
    var places := Placements(row.user, formed.rosters);
    var off := if hadTeams then Released(row, Replaced, formed.replacedBy).events else [];
    var on := AssignedEvents(row.user, places, teams, formed.assignedBy);
    hide Placements, AssignedEvents;
    assert TeamAfter(row.team, off, row.user).None? by {
      if row.team.Some? {
        LastEventDecides(row.team, [], off[0], row.user);
        assert off == [] + [off[0]];
      }
    }
    TeamAfterBoth(row.team, off, on, row.user);
    AssignmentsTell(None, row.user, places, teams, formed.assignedBy);
  }

  lemma MovesAreOnes(row: Row, hadTeams: bool, formed: FormedTeams, teams: seq<TeamId>, e: Event)
    requires |formed.rosters| == |formed.assignedBy| == |teams| && e in MoveEvents(row, hadTeams, formed, teams)
    ensures (e.TeamAssigned? || e.TeamUnassigned?) && e.user == row.user
  {
    hide Placements;
  }

  lemma {:induction false} AllMovesAreMoves(rows: seq<Row>, hadTeams: bool, formed: FormedTeams, teams: seq<TeamId>,
                                            e: Event)
    requires |formed.rosters| == |formed.assignedBy| == |teams| && e in AllMoves(rows, hadTeams, formed, teams)
    ensures e.TeamAssigned? || e.TeamUnassigned?
  {
    hide MoveEvents;
    var init, last := rows[..|rows| - 1], rows[|rows| - 1];
    if e in AllMoves(init, hadTeams, formed, teams) {
      AllMovesAreMoves(init, hadTeams, formed, teams, e);
    } else {
      MovesAreOnes(last, hadTeams, formed, teams, e);
    }
  }

  lemma OthersMovesAreSilent(row: Row, hadTeams: bool, formed: FormedTeams, teams: seq<TeamId>, user: UserId,
                             start: Option<TeamId>)
    requires |formed.rosters| == |formed.assignedBy| == |teams| && row.user != user
    ensures TeamAfter(start, MoveEvents(row, hadTeams, formed, teams), user) == start
  {
    var moves := MoveEvents(row, hadTeams, formed, teams);
    forall i | 0 <= i < |moves| ensures Effect(moves[i], user).None? {
      MovesAreOnes(row, hadTeams, formed, teams, moves[i]);
    }
    TeamAfterSilence(start, moves, user);
  }

  /** Whoever is not going is not moved; whoever goes ends up where their own moves put them. */
  lemma {:induction false} AllMovesTell(rows: seq<Row>, hadTeams: bool, formed: FormedTeams, teams: seq<TeamId>,
                                        user: UserId, start: Option<TeamId>)
    requires |formed.rosters| == |formed.assignedBy| == |teams| && OneRowEach(rows)
    ensures (forall i :: 0 <= i < |rows| ==> !GoesAs(rows[i], user)) ==>
      TeamAfter(start, AllMoves(rows, hadTeams, formed, teams), user) == start
    ensures forall i :: 0 <= i < |rows| && GoesAs(rows[i], user) ==>
      TeamAfter(start, AllMoves(rows, hadTeams, formed, teams), user)
      == TeamAfter(start, MoveEvents(rows[i], hadTeams, formed, teams), user)
  {
    hide MoveEvents, TeamAfter;
    if rows == [] {
      TeamAfterSilence(start, [], user);
    } else {
      var init, last := rows[..|rows| - 1], rows[|rows| - 1];
      AllMovesTell(init, hadTeams, formed, teams, user, start);
      var before := AllMoves(init, hadTeams, formed, teams);
      var own := if IsGoing(last) then MoveEvents(last, hadTeams, formed, teams) else [];
      TeamAfterBoth(start, before, own, user);
      if !IsGoing(last) {
        assert before + own == before;
      } else if last.user != user {
        OthersMovesAreSilent(last, hadTeams, formed, teams, user, TeamAfter(start, before, user));
      } else {
        assert forall i :: 0 <= i < |init| ==> !GoesAs(init[i], user);
      }
    }
  }

  lemma PlacedTeamOf(rows: seq<Row>, rosters: seq<seq<UserId>>, teams: seq<TeamId>, user: UserId)
    requires |rosters| == |teams| && OneRowEach(rows)
    ensures match LiveRow(rows, user)
            case None => TeamOf(Placed(rows, rosters, teams), user).None?
            case Some(i) =>
              && i < |rows|
              && TeamOf(Placed(rows, rosters, teams), user)
                 == (if IsGoing(rows[i]) then LastTeam(Placements(user, rosters), teams) else None)
  {
    hide Placements, LastWhere;
    var rows' := Placed(rows, rosters, teams);
    LiveRowIs(rows, user);
    LiveRowIs(rows', user);
    if LiveRow(rows, user).Some? {
      var i := LiveRow(rows, user).value;
      assert rows'[i].user == user && !rows'[i].deleted;
      var k := LiveRow(rows', user).value;
      assert rows[k].user == user && !rows[k].deleted;
      assert k == i;
    }
  }

  /** Replacing the teams keeps the stored rows and the replayed events in agreement. */
  lemma ReplacementTeams(w: World, formed: FormedTeams, teams: seq<TeamId>, user: UserId)
    requires |formed.rosters| == |formed.assignedBy| == |teams|
    requires Tables(w) && !w.session.Ended() && forall i :: 0 <= i < |w.rows| ==> HoldsSpotOnTeam(w.session, w.rows[i])
    ensures TeamAfter(TeamOf(w.rows, user), AllMoves(w.rows, w.session.HasTeams(), formed, teams), user)
         == TeamOf(Placed(w.rows, formed.rosters, teams), user)
  {
    var hadTeams := w.session.HasTeams();
    assert OneRowEach(w.rows) && TeamsFit(w.session, w.nextId);
    hide MoveEvents, TeamAfter, Placed, Placements, LastWhere, OneFormation, AllMoves;
    LiveRowIs(w.rows, user);
    PlacedTeamOf(w.rows, formed.rosters, teams, user);
    AllMovesTell(w.rows, hadTeams, formed, teams, user, TeamOf(w.rows, user));
    if LiveRow(w.rows, user).Some? {
      var i := LiveRow(w.rows, user).value;
      var row := w.rows[i];
      assert HoldsSpotOnTeam(w.session, row);
      if IsGoing(row) {
        assert GoesAs(w.rows[i], user);
        MoveTells(row, hadTeams, formed, teams);
      }
    }
  }

  lemma ReplaceIsTold(w0: World, w: World, formed: FormedTeams, config: TeamConfig, source: TeamsSource, who: UserId,
                      before: seq<Event>)
    returns (events: seq<Event>)
    requires |formed.rosters| == |formed.assignedBy| == config.teamCount
    requires Tables(w) && !w.session.Ended() && forall i :: 0 <= i < |w.rows| ==> HoldsSpotOnTeam(w.session, w.rows[i])
    requires w0.rows == w.rows && w0.session == w.session && w0.outbox == w.outbox
    requires forall i :: 0 <= i < |before| ==>
      !before[i].TeamAssigned? && !before[i].TeamChanged? && !before[i].TeamUnassigned? && !before[i].TeamsReset?
    requires forall l: Ledger :: Tally(l, before) == Level(l, w) - Level(l, w0)
    ensures Told(w0, events, ReplaceTeams(w, formed, config, source, who, before))
  {
    var change := WithTeams(w.session, config, source, who, w.nextId);
    var teams := change.session.teams;
    var moves := AllMoves(w.rows, w.session.HasTeams(), formed, teams);
    var w' := ReplaceTeams(w, formed, config, source, who, before);
    events := before + (change.events + moves);
    hide AllMoves, Placed, TeamAfter, TeamOf, LastWhere, Tally, Tables, FreshTeams;
    forall u: UserId ensures TeamAfter(TeamOf(w0.rows, u), events, u) == TeamOf(w'.rows, u) {
      var start := TeamOf(w.rows, u);
      TeamAfterBoth(start, before, change.events + moves, u);
      TeamAfterBoth(start, change.events, moves, u);
      TeamAfterSilence(start, before, u);
      TeamAfterSilence(start, change.events, u);
      ReplacementTeams(w, formed, teams, u);
    }
    forall l: Ledger ensures Tally(l, events) == Level(l, w') - Level(l, w0) {
      TallyBoth(l, before, change.events + moves);
      TallyBoth(l, change.events, moves);
      TallyUpToOne(l, change.events);
      forall i | 0 <= i < |moves| ensures Plain(moves[i]) {
        AllMovesAreMoves(w.rows, w.session.HasTeams(), formed, teams, moves[i]);
      }
      TallyPlain(l, moves);
    }
  }

  // ---- Drafts ----

  lemma ActiveIff(w: World, i: nat)
    requires OneFormation(w) && i < |w.drafts| && (forall j :: Runs(w.drafts, j) ==> j == i)
    ensures ActiveDraft(w.drafts).Some? <==> w.drafts[i].Running()
  {
    hide LastWhere;
    ActiveDraftIs(w.drafts);
    assert Runs(w.drafts, i) <==> w.drafts[i].Running();
    if ActiveDraft(w.drafts).Some? {
      assert Runs(w.drafts, ActiveDraft(w.drafts).value);
    }
  }

  lemma FinishIsTold(w0: World, w: World, i: nat, c: D.DraftChange) returns (events: seq<Event>)
    requires Tables(w) && !w.session.Ended() && forall j :: 0 <= j < |w.rows| ==> HoldsSpotOnTeam(w.session, w.rows[j])
    requires w0 == w.(drafts := w0.drafts)
    requires i < |w.drafts| && w.drafts[i] == c.draft && (forall j :: Runs(w.drafts, j) ==> j == i)
    requires forall k :: 0 <= k < |c.events| ==>
      !c.events[k].TeamAssigned? && !c.events[k].TeamChanged? && !c.events[k].TeamUnassigned?
        && !c.events[k].TeamsReset?
    requires Tally(Endings, c.events) == 0 && Tally(VotesRun, c.events) == 0
    requires Tally(DraftsRun, c.events) == (if c.draft.Running() then 1 else 0) - Level(DraftsRun, w0)
    ensures Told(w0, events, Finish(w, c))
  {
    ActiveIff(w, i);
    hide ReplaceTeams, TeamAfter, TeamOf, LastWhere, Tally, Told, Tables, D.Roster;
    assert forall l: Ledger :: Tally(l, c.events) == Level(l, w) - Level(l, w0);
    if c.draft.status == D.Finished {
      events := ReplaceIsTold(w0, w, DraftTeams(c.draft), c.draft.config, ByDraft, c.draft.startedBy, c.events);
    } else {
      events := c.events;
      SilentAboutTeams(c.events, w0.rows, w.rows);
      ToldDirectly(w0, events, w.Emit(c.events));
    }
  }

  lemma TallyPair(l: Ledger, a: Event, b: Event)
    ensures Tally(l, [a] + [b]) == Weight(l, a) + Weight(l, b)
  {
    TallyBoth(l, [a], [b]);
    TallyUpToOne(l, [a]);
    TallyUpToOne(l, [b]);
  }

  lemma DraftTables(w: World, drafts: seq<D.Draft>, i: nat)
    requires Sturdy(w) && i < |drafts| && (forall j :: Runs(drafts, j) ==> j == i) && TwoTeamDrafts(drafts)
    requires (forall j :: !IsOpen(w.rounds, j)) && !w.session.Ended()
    ensures Tables(w.(drafts := drafts))
    ensures forall j :: 0 <= j < |w.rows| ==> HoldsSpotOnTeam(w.session, w.rows[j])
  {
    hide DraftHolds, RoundHolds, LastWhere;
  }

  /** Starting a draft or picking in one raises that, then the completion or whose turn it is. */
  predicate PlayNews(c: D.DraftChange, first: Event) {
    && |c.events| == 2 && c.events[0] == first
    && (first.DraftStarted? || first.PlayerPicked?)
    && (if c.draft.status == D.Finished then c.events[1].DraftCompleted?
        else c.draft.status == D.Active && c.events[1].TurnChanged?)
    && c.draft.config.teamCount == 2
  }

  lemma StartNews(w: World, cmd: Command) returns (c: D.DraftChange)
    requires Shaped(w) && cmd.DoStartDraft? && Legal(w, cmd) && Outcome(w, cmd).Ok?
    ensures PlayNews(c, DraftStarted(cmd.actor.user))
    ensures ActiveDraft(w.drafts).None? && OpenRound(w.rounds).None? && !w.session.Ended()
    ensures Outcome(w, cmd).value == Finish(w.(drafts := w.drafts + [c.draft]), c)
  {
    hide GoingIds, LastWhere, D.Available, ReplaceTeams;
    c := D.NewDraft(w.session, cmd.actor, cmd.captainA, cmd.captainB, cmd.order, cmd.minPlayers,
      GoingIds(w.rows)).value;
  }

  lemma PickNews(w: World, cmd: Command) returns (c: D.DraftChange)
    requires Sturdy(w) && Shaped(w) && cmd.DoPick? && Legal(w, cmd) && Outcome(w, cmd).Ok?
    ensures |c.events| > 0 && c.events[0].PlayerPicked? && PlayNews(c, c.events[0])
    ensures ActiveDraft(w.drafts).Some? && !w.session.Ended()
    ensures var i := ActiveDraft(w.drafts).value;
      i < |w.drafts| && w.drafts[i].Running()
        && Outcome(w, cmd).value == Finish(w.(drafts := w.drafts[i := c.draft]), c)
  {
    hide GoingIds, LastWhere, D.Available, ReplaceTeams, Sturdy;
    ActiveDraftIs(w.drafts);
    var i := ActiveDraft(w.drafts).value;
    RunningDraftFits(w, i);
    c := D.Picked(w.drafts[i], w.session, cmd.captain, cmd.user, GoingIds(w.rows)).value;
  }

  lemma PlayIsTold(w: World, drafts: seq<D.Draft>, i: nat, c: D.DraftChange, first: Event) returns (events: seq<Event>)
    requires Sturdy(w) && PlayNews(c, first)
    requires i < |drafts| && drafts[i] == c.draft && (forall j :: Runs(drafts, j) ==> j == i) && TwoTeamDrafts(drafts)
    requires (forall j :: !IsOpen(w.rounds, j)) && !w.session.Ended()
    requires Level(DraftsRun, w) == (if first.DraftStarted? then 0 else 1)
    ensures Told(w, events, Finish(w.(drafts := drafts), c))
  {
    DraftTables(w, drafts, i);
    hide Sturdy, LastWhere, Finish, Told, Tally, Tables, TwoTeamDrafts;
    assert c.events == [c.events[0]] + [c.events[1]];
    TallyPair(Endings, c.events[0], c.events[1]);
    TallyPair(DraftsRun, c.events[0], c.events[1]);
    TallyPair(VotesRun, c.events[0], c.events[1]);
    events := FinishIsTold(w, w.(drafts := drafts), i, c);
  }

  lemma StartIsTold(w: World, cmd: Command) returns (events: seq<Event>)
    requires Sturdy(w) && Shaped(w) && cmd.DoStartDraft? && Legal(w, cmd) && Outcome(w, cmd).Ok?
    ensures Told(w, events, Outcome(w, cmd).value)
  {
    assert TwoTeamDrafts(w.drafts);
    hide Sturdy, LastWhere, Finish, Told, Outcome, Legal, Shaped;
    var c := StartNews(w, cmd);
    var drafts := w.drafts + [c.draft];
    ActiveDraftIs(w.drafts);
    OpenRoundIs(w.rounds);
    assert forall j :: 0 <= j < |w.drafts| ==> drafts[j] == w.drafts[j];
    assert forall j :: Runs(drafts, j) ==> j == |w.drafts|;
    events := PlayIsTold(w, drafts, |w.drafts|, c, DraftStarted(cmd.actor.user));
  }

  lemma PickIsTold(w: World, cmd: Command) returns (events: seq<Event>)
    requires Sturdy(w) && Shaped(w) && cmd.DoPick? && Legal(w, cmd) && Outcome(w, cmd).Ok?
    ensures Told(w, events, Outcome(w, cmd).value)
  {
    hide Sturdy, LastWhere, Finish, Told, Outcome, Legal, Shaped;
    var c := PickNews(w, cmd);
    var i := ActiveDraft(w.drafts).value;
    NothingElseRuns(w, i);
    var drafts := w.drafts[i := c.draft];
    assert forall j :: Runs(drafts, j) ==> j == i || Runs(w.drafts, j);
    events := PlayIsTold(w, drafts, i, c, c.events[0]);
  }

  lemma NothingElseRuns(w: World, i: nat)
    requires Sturdy(w) && i < |w.drafts| && w.drafts[i].Running()
    ensures TwoTeamDrafts(w.drafts) && (forall j :: Runs(w.drafts, j) ==> j == i) && forall j :: !IsOpen(w.rounds, j)
  {
    hide DraftHolds, RoundHolds;
    assert Runs(w.drafts, i);
  }

  lemma CancelDraftIsTold(w: World, cmd: Command) returns (events: seq<Event>)
    requires Sturdy(w) && Shaped(w) && cmd.DoCancelDraft? && Legal(w, cmd) && Outcome(w, cmd).Ok?
    ensures Told(w, events, Outcome(w, cmd).value)
  {
    hide LastWhere, TeamAfter, TeamOf, Tally, DraftHolds, RoundHolds;
    ActiveDraftIs(w.drafts);
    var i := ActiveDraft(w.drafts).value;
    NothingElseRuns(w, i);
    var w' := Outcome(w, cmd).value;
    events := [DraftCancelled(OrganizerCancelled, cmd.actor.user)];
    ActiveDraftIs(w'.drafts);
    assert forall j :: Runs(w'.drafts, j) ==> j == i || Runs(w.drafts, j);
    assert ActiveDraft(w'.drafts).Some? ==> Runs(w'.drafts, ActiveDraft(w'.drafts).value);
    SilentAboutTeams(events, w.rows, w'.rows);
    forall l: Ledger ensures Tally(l, events) == Level(l, w') - Level(l, w) {
      TallyUpToOne(l, events);
    }
  }

  // ---- Voting ----

  lemma OpenIff(rounds: seq<V.Round>, i: nat)
    requires i < |rounds| && (forall j :: IsOpen(rounds, j) ==> j == i)
    ensures OpenRound(rounds).Some? <==> rounds[i].status == V.Open
  {
    hide LastWhere;
    OpenRoundIs(rounds);
    assert IsOpen(rounds, i) <==> rounds[i].status == V.Open;
    if OpenRound(rounds).Some? {
      assert IsOpen(rounds, OpenRound(rounds).value);
    }
  }

  /** A command that writes one round: its events say no more than whether a vote is open. */
  lemma RoundIsTold(w: World, rounds: seq<V.Round>, i: nat, nextId: nat, events: seq<Event>)
    requires i < |rounds| && (forall j :: IsOpen(rounds, j) ==> j == i)
    requires forall k :: 0 <= k < |events| ==>
      Small(events[k]) || events[k].VotingOpened? || events[k].VotingClosed? || events[k].VotingCancelled?
    requires Tally(VotesRun, events) == (if rounds[i].status == V.Open then 1 else 0) - Level(VotesRun, w)
    ensures Told(w, events, w.(rounds := rounds, nextId := nextId).Emit(events))
  {
    hide LastWhere, TeamAfter, TeamOf, Tally;
    OpenIff(rounds, i);
    var w' := w.(rounds := rounds, nextId := nextId).Emit(events);
    SilentAboutTeams(events, w.rows, w'.rows);
    forall l: Ledger ensures Tally(l, events) == Level(l, w') - Level(l, w) {
      if l != VotesRun {
        TallyNothing(l, events);
      }
    }
  }

  lemma {:induction false} TallyNothing(l: Ledger, events: seq<Event>)
    requires forall k :: 0 <= k < |events| ==> Weight(l, events[k]) == 0
    ensures Tally(l, events) == 0
  {
    if events != [] {
      TallyNothing(l, events[..|events| - 1]);
    }
  }

  lemma OnlyOpen(w: World, i: nat)
    requires Sturdy(w) && i < |w.rounds| && w.rounds[i].status == V.Open
    ensures forall j :: IsOpen(w.rounds, j) ==> j == i
  {
    hide DraftHolds, RoundHolds;
    assert IsOpen(w.rounds, i);
  }

  /** What a change of an open round raises. */
  ghost predicate RoundNews(r: V.Round, events: seq<Event>) {
    && (forall k :: 0 <= k < |events| ==>
      Small(events[k]) || events[k].VotingOpened? || events[k].VotingClosed? || events[k].VotingCancelled?)
    && Tally(VotesRun, events) == (if r.status == V.Open then 0 else -1)
  }

  lemma OneVoteEvent(r: V.Round, events: seq<Event>)
    requires |events| <= 1 && r.status == V.Open && forall k :: 0 <= k < |events| ==> Small(events[k])
    ensures RoundNews(r, events)
  {
    TallyUpToOne(VotesRun, events);
  }

  lemma ProposeNews(r: V.Round, s: Session, author: UserId, teams: seq<seq<UserId>>, going: seq<UserId>, id: ProposalId)
    requires V.Proposed(r, s, author, teams, going, id).Ok?
    ensures var c := V.Proposed(r, s, author, teams, going, id).value; RoundNews(c.round, c.events)
  {
    hide V.DivisionFault, V.WithDivision, RoundNews;
    var c := V.Proposed(r, s, author, teams, going, id).value;
    OneVoteEvent(c.round, c.events);
  }

  lemma VoteNews(r: V.Round, voter: UserId, choice: Choice, going: seq<UserId>)
    ensures V.Voted(r, voter, choice, going).Ok? ==>
      var c := V.Voted(r, voter, choice, going).value; RoundNews(c.round, c.events)
    ensures V.VoteTakenBack(r, voter, going).Ok? ==>
      var c := V.VoteTakenBack(r, voter, going).value; RoundNews(c.round, c.events)
  {
    hide RoundNews, V.FindProposal;
    if V.Voted(r, voter, choice, going).Ok? {
      var c := V.Voted(r, voter, choice, going).value;
      OneVoteEvent(c.round, c.events);
    }
    if V.VoteTakenBack(r, voter, going).Ok? {
      var c := V.VoteTakenBack(r, voter, going).value;
      OneVoteEvent(c.round, c.events);
    }
  }

  lemma WithdrawNews(r: V.Round, requester: UserId, id: ProposalId)
    requires V.Withdrawn(r, requester, id).Ok?
    ensures var c := V.Withdrawn(r, requester, id).value; RoundNews(c.round, c.events)
  {
    hide V.FindProposal, V.WithoutProposal, V.VotersFor, Tally;
    var c := V.Withdrawn(r, requester, id).value;
    if c.round.status == V.Open {
      OneVoteEvent(c.round, c.events);
    } else {
      assert c.events == [c.events[0]] + [c.events[1]];
      TallyPair(VotesRun, c.events[0], c.events[1]);
    }
  }

  /** The round a voting command writes when one is open already. */
  lemma OpenVoteNews(w: World, cmd: Command, i: nat) returns (c: V.RoundChange)
    requires Shaped(w) && Legal(w, cmd) && Outcome(w, cmd).Ok?
    requires cmd.DoPropose? || cmd.DoVote? || cmd.DoRetractVote? || cmd.DoWithdraw?
    requires OpenRound(w.rounds) == Some(i) && i < |w.rounds|
    ensures RoundNews(c.round, c.events)
    ensures Outcome(w, cmd).value
         == w.(rounds := w.rounds[i := c.round], nextId := w.nextId + (if cmd.DoPropose? then 1 else 0)).Emit(c.events)
  {
    hide GoingIds, LastWhere, V.Proposed, V.Voted, V.VoteTakenBack, V.Withdrawn, RoundNews, Shaped;
    var r, going := w.rounds[i], GoingIds(w.rows);
    if cmd.DoPropose? {
      ProposeNews(r, w.session, cmd.user, cmd.division, going, w.nextId);
      c := V.Proposed(r, w.session, cmd.user, cmd.division, going, w.nextId).value;
    } else if cmd.DoVote? {
      VoteNews(r, cmd.user, cmd.choice, going);
      c := V.Voted(r, cmd.user, cmd.choice, going).value;
    } else if cmd.DoRetractVote? {
      VoteNews(r, cmd.user, KeepCurrent, going);
      c := V.VoteTakenBack(r, cmd.user, going).value;
    } else {
      WithdrawNews(r, cmd.user, cmd.proposal);
      c := V.Withdrawn(r, cmd.user, cmd.proposal).value;
    }
  }

  lemma FirstProposalNews(w: World, cmd: Command) returns (c: V.RoundChange)
    requires Shaped(w) && Legal(w, cmd) && Outcome(w, cmd).Ok? && OpenRound(w.rounds).None?
    requires cmd.DoPropose? || cmd.DoVote? || cmd.DoRetractVote? || cmd.DoWithdraw?
    ensures c.events == [VotingOpened(cmd.user)] && c.round.status == V.Open
    ensures Outcome(w, cmd).value == w.(rounds := w.rounds + [c.round], nextId := w.nextId + 1).Emit(c.events)
  {
    hide GoingIds, LastWhere, V.DivisionFault, Shaped;
    c := V.OpenRound(w.session, cmd.user, cmd.division, GoingIds(w.rows), w.nextId).value;
  }

  lemma VotingIsTold(w: World, cmd: Command) returns (events: seq<Event>)
    requires Sturdy(w) && Shaped(w) && Legal(w, cmd) && Outcome(w, cmd).Ok?
    requires cmd.DoPropose? || cmd.DoVote? || cmd.DoRetractVote? || cmd.DoWithdraw?
    ensures Told(w, events, Outcome(w, cmd).value)
  {
    hide Sturdy, LastWhere, Told, Tally, Shaped, Outcome, Legal;
    OpenRoundIs(w.rounds);
    if OpenRound(w.rounds).None? {
      var c := FirstProposalNews(w, cmd);
      var rounds := w.rounds + [c.round];
      assert forall j :: 0 <= j < |w.rounds| ==> rounds[j] == w.rounds[j];
      assert forall j :: IsOpen(rounds, j) ==> j == |w.rounds|;
      events := c.events;
      TallyUpToOne(VotesRun, events);
      RoundIsTold(w, rounds, |w.rounds|, w.nextId + 1, events);
    } else {
      var i := OpenRound(w.rounds).value;
      OnlyOpen(w, i);
      var c := OpenVoteNews(w, cmd, i);
      var rounds := w.rounds[i := c.round];
      assert forall j :: IsOpen(rounds, j) ==> j == i || IsOpen(w.rounds, j);
      events := c.events;
      RoundIsTold(w, rounds, i, w.nextId + (if cmd.DoPropose? then 1 else 0), events);
    }
  }

  /** What a close does, with the round's own part taken out. */
  lemma CloseNews(w: World, actor: Actor, winner: Option<Choice>)
    returns (i: nat, round: V.Round, winning: Option<V.Proposal>)
    requires Sturdy(w) && Shaped(w) && CloseVoting(w, actor, winner).Ok?
    ensures i < |w.rounds| && w.rounds[i].status == V.Open && OpenRound(w.rounds) == Some(i) && round.status == V.Closed
    ensures winning.Some? ==> |winning.value.teams| == round.teamCount
    ensures CloseVoting(w, actor, winner).value ==
      var w1 := w.(rounds := w.rounds[i := round]);
      if winning.None? then w1.Emit([VotingClosed(actor.user)])
      else ReplaceTeams(w1, FormedTeams(winning.value.teams, seq(|winning.value.teams|, _ => actor.user), actor.user),
                        round.Config(), ByVote, actor.user, [VotingClosed(actor.user)])
  {
    hide LastWhere, GoingIds, V.ClosingChoice, V.Options, ReplaceTeams, Sturdy;
    OpenRoundIs(w.rounds);
    i := OpenRound(w.rounds).value;
    var c := V.ClosedBy(w.rounds[i], w.session, actor, winner).value;
    round, winning := c.round, c.winning;
  }

  lemma CloseIsTold(w: World, actor: Actor, winner: Option<Choice>) returns (events: seq<Event>)
    requires Sturdy(w) && Shaped(w) && CloseVoting(w, actor, winner).Ok?
    ensures Told(w, events, CloseVoting(w, actor, winner).value)
  {
    hide Sturdy, LastWhere, Told, Tally, Tables, ReplaceTeams, Shaped, CloseVoting, RoundHolds, GoingIds;
    var i, round, winning := CloseNews(w, actor, winner);
    OnlyOpen(w, i);
    OpenRoundFits(w, i);
    RoundWrittenSturdy(w, w.rounds[i := round], i);
    var rounds := w.rounds[i := round];
    assert forall j :: IsOpen(rounds, j) ==> j == i || IsOpen(w.rounds, j);
    events := [VotingClosed(actor.user)];
    TallyUpToOne(VotesRun, events);
    if winning.None? {
      RoundIsTold(w, rounds, i, w.nextId, events);
      assert w.(rounds := rounds, nextId := w.nextId) == w.(rounds := rounds);
    } else {
      var w1 := w.(rounds := rounds);
      OpenIff(rounds, i);
      SturdyTables(w1);
      SturdyRows(w1);
      TallyUpToOne(Endings, events);
      TallyUpToOne(DraftsRun, events);
      var p := winning.value;
      events := ReplaceIsTold(w, w1, FormedTeams(p.teams, seq(|p.teams|, _ => actor.user), actor.user),
        round.Config(), ByVote, actor.user, events);
    }
  }

  // ---- Teams by hand and the session's end ----

  lemma {:induction false} UnassignedTells(rows: seq<Row>, who: UserId, user: UserId, start: Option<TeamId>)
    requires OneRowEach(rows)
    ensures var after := TeamAfter(start, UnassignedEvents(rows, who), user);
      && (forall e :: e in UnassignedEvents(rows, who) ==> e.TeamUnassigned?)
      && (after == start || after == None)
      && (forall i :: 0 <= i < |rows| && !rows[i].deleted && rows[i].user == user && rows[i].team.Some? ==>
        after == None)
  {
    hide TeamAfter;
    if rows == [] {
      TeamAfterSilence(start, [], user);
    } else {
      var init, last := rows[..|rows| - 1], rows[|rows| - 1];
      UnassignedTells(init, who, user, start);
      var before := UnassignedEvents(init, who);
      var own := if last.deleted then [] else Released(last, Replaced, who).events;
      TeamAfterBoth(start, before, own, user);
      if own != [] && last.user == user {
        LastEventDecides(TeamAfter(start, before, user), [], own[0], user);
        assert own == [] + [own[0]];
      } else {
        TeamAfterSilence(TeamAfter(start, before, user), own, user);
      }
    }
  }

  lemma UnassignedAll(w: World, who: UserId, user: UserId)
    requires OneRowEach(w.rows) && TeamsFit(w.session, w.nextId)
    requires forall i :: 0 <= i < |w.rows| ==> OnSomeTeam(w.session, w.rows[i])
    ensures var unassigned := if w.session.HasTeams() then UnassignedEvents(w.rows, who) else [];
      TeamAfter(TeamOf(w.rows, user), unassigned, user).None?
  {
    hide TeamAfter, UnassignedEvents, LastWhere;
    LiveRowIs(w.rows, user);
    UnassignedTells(w.rows, who, user, TeamOf(w.rows, user));
    TeamAfterSilence(TeamOf(w.rows, user), [], user);
    if TeamOf(w.rows, user).Some? {
      var i := LiveRow(w.rows, user).value;
      assert OnSomeTeam(w.session, w.rows[i]);
    }
  }

  lemma TeamsByHandOutcome(w: World, actor: Actor, config: TeamConfig)
    requires Sturdy(w) && CreateTeams(w, actor, config).Ok?
    ensures var w' := CreateTeams(w, actor, config).value;
      && w'.outbox == w.outbox + ([TeamsCreated(actor.user, w.session.HasTeams())]
           + (if w.session.HasTeams() then UnassignedEvents(w.rows, actor.user) else [])
           + (if OpenRound(w.rounds).Some? then [VotingCancelled(TeamsReplaced)] else []))
      && w'.drafts == w.drafts && OpenRound(w'.rounds).None?
      && w'.session.Ended() == w.session.Ended()
      && (forall i :: 0 <= i < |w'.rows| ==> w'.rows[i].team.None?)
  {
    hide Sturdy, LastWhere, UnassignedEvents, FreshTeams;
    OpenRoundIs(w.rounds);
    if OpenRound(w.rounds).Some? {
      var i := OpenRound(w.rounds).value;
      OnlyOpen(w, i);
      var rounds := CreateTeams(w, actor, config).value.rounds;
      assert forall j :: IsOpen(rounds, j) ==> j == i || IsOpen(w.rounds, j);
      OpenIff(rounds, i);
    }
  }

  lemma CreateTeamsIsTold(w: World, actor: Actor, config: TeamConfig) returns (events: seq<Event>)
    requires Sturdy(w) && CreateTeams(w, actor, config).Ok?
    ensures Told(w, events, CreateTeams(w, actor, config).value)
  {
    hide Sturdy, LastWhere, UnassignedEvents, TeamAfter, TeamOf, Tally, OneRowEach, TeamsFit, CreateTeams;
    TeamsByHandOutcome(w, actor, config);
    SturdyTables(w);
    var w' := CreateTeams(w, actor, config).value;
    var created := [TeamsCreated(actor.user, w.session.HasTeams())];
    var off := if w.session.HasTeams() then UnassignedEvents(w.rows, actor.user) else [];
    var voting := if OpenRound(w.rounds).Some? then [VotingCancelled(TeamsReplaced)] else [];
    events := created + off + voting;
    forall u: UserId ensures TeamAfter(TeamOf(w.rows, u), events, u) == TeamOf(w'.rows, u) {
      var start := TeamOf(w.rows, u);
      TeamAfterBoth(start, created + off, voting, u);
      TeamAfterBoth(start, created, off, u);
      TeamAfterSilence(start, created, u);
      UnassignedAll(w, actor.user, u);
      TeamAfterSilence(None, voting, u);
      NobodyOnATeam(w'.rows, u);
    }
    UnassignedTells(w.rows, actor.user, NOBODY, None);
    forall k | 0 <= k < |off| ensures Plain(off[k]) {
      assert off[k] in UnassignedEvents(w.rows, actor.user);
    }
    forall l: Ledger ensures Tally(l, events) == Level(l, w') - Level(l, w) {
      TallyTriple(l, created, off, voting);
      TallyUpToOne(l, created);
      TallyUpToOne(l, voting);
      TallyPlain(l, off);
    }
  }

  lemma EndOutcome(w: World, s: Session, ending: Event, who: UserId)
    requires Sturdy(w) && s.Ended() && s == w.session.(status := s.status)
    ensures var w' := SessionOver(w.(session := s).Emit([ending]), who);
      && w'.outbox == w.outbox + ([ending]
           + (if ActiveDraft(w.drafts).Some? then [DraftCancelled(SessionEnded, who)] else [])
           + (if OpenRound(w.rounds).Some? then [VotingCancelled(SessionEnded)] else []))
      && w'.session == s && w'.rows == w.rows
      && ActiveDraft(w'.drafts).None? && OpenRound(w'.rounds).None?
  {
    hide Sturdy, LastWhere;
    ActiveDraftIs(w.drafts);
    OpenRoundIs(w.rounds);
    EndKeepsSturdy(w, s, [ending], who);
    EndedIsQuiet(SessionOver(w.(session := s).Emit([ending]), who));
  }

  lemma EndIsTold(w: World, s: Session, ending: Event, who: UserId) returns (events: seq<Event>)
    requires Sturdy(w) && !w.session.Ended() && s == w.session.(status := s.status) && s.Ended()
    requires ending.SessionCompleted? || ending.SessionCancelled? || ending.SessionExpired?
    ensures Told(w, events, SessionOver(w.(session := s).Emit([ending]), who))
  {
    hide Sturdy, LastWhere, TeamAfter, TeamOf, Tally, SessionOver;
    EndOutcome(w, s, ending, who);
    var w' := SessionOver(w.(session := s).Emit([ending]), who);
    var drafting := if ActiveDraft(w.drafts).Some? then [DraftCancelled(SessionEnded, who)] else [];
    var voting := if OpenRound(w.rounds).Some? then [VotingCancelled(SessionEnded)] else [];
    events := [ending] + drafting + voting;
    SilentAboutTeams(events, w.rows, w'.rows);
    forall l: Ledger ensures Tally(l, events) == Level(l, w') - Level(l, w) {
      TallyTriple(l, [ending], drafting, voting);
      TallyUpToOne(l, [ending]);
      TallyUpToOne(l, drafting);
      TallyUpToOne(l, voting);
    }
  }

  lemma EndedIsQuiet(w: World)
    requires Sturdy(w) && w.session.Ended()
    ensures ActiveDraft(w.drafts).None? && OpenRound(w.rounds).None?
  {
    hide DraftHolds, RoundHolds, LastWhere;
    ActiveDraftIs(w.drafts);
    OpenRoundIs(w.rounds);
    assert forall i :: !Runs(w.drafts, i) && !IsOpen(w.rounds, i);
    assert forall i :: 0 <= i < |w.drafts| ==> Runs(w.drafts, i) == w.drafts[i].Running();
    assert forall i :: 0 <= i < |w.rounds| ==> IsOpen(w.rounds, i) == (w.rounds[i].status == V.Open);
  }

  lemma DetailsAreTold(w: World, s: Session, events: seq<Event>)
    requires s.Ended() == w.session.Ended() && forall i :: 0 <= i < |events| ==> Small(events[i])
    ensures Told(w, events, w.(session := s).Emit(events))
  {
    hide TeamAfter, TeamOf, Tally, LastWhere;
    var w' := w.(session := s).Emit(events);
    SilentAboutTeams(events, w.rows, w'.rows);
    forall l: Ledger ensures Tally(l, events) == 0 {
      TallyPlain(l, events);
    }
  }

  lemma DetailCommandIsTold(w: World, cmd: Command) returns (events: seq<Event>)
    requires Shaped(w) && Legal(w, cmd) && Outcome(w, cmd).Ok?
    requires cmd.DoUpdateSession? || cmd.DoSetVisibility? || cmd.DoStart?
    ensures Told(w, events, Outcome(w, cmd).value)
  {
    hide Told, Legal, Shaped;
    var s := Outcome(w, cmd).value.session;
    match cmd
    case DoUpdateSession(actor, capacity, endsAt, isPublic) =>
      var c := Updated(w.session, actor, capacity, endsAt).value;
      events := c.events + VisibilitySet(c.session, actor, isPublic).value.events;
      DetailsAreTold(w, s, events);
    case DoSetVisibility(actor, isPublic) =>
      events := VisibilitySet(w.session, actor, isPublic).value.events;
      DetailsAreTold(w, s, events);
    case DoStart(actor) =>
      events := [SessionStarted(actor.user)];
      DetailsAreTold(w, s, events);
  }

  lemma NothingIsTold(w: World) returns (events: seq<Event>)
    ensures Told(w, events, w)
  {
    events := [];
    DetailsAreTold(w, w.session, []);
    assert w.outbox + [] == w.outbox;
    assert w.(session := w.session).Emit([]) == w;
  }

  lemma EndCommandIsTold(w: World, cmd: Command) returns (events: seq<Event>)
    requires Sturdy(w) && Shaped(w) && Legal(w, cmd) && Outcome(w, cmd).Ok?
    requires cmd.DoComplete? || cmd.DoCancel? || cmd.DoCancelFromGroup? || cmd.DoExpire?
    ensures Told(w, events, Outcome(w, cmd).value)
  {
    hide Sturdy, SessionOver, Told, Legal, Shaped;
    match cmd
    case DoComplete(actor) =>
      events := EndIsTold(w, w.session.(status := Completed), SessionCompleted(actor.user), actor.user);
    case DoCancel(actor) =>
      events := EndIsTold(w, w.session.(status := Canceled), SessionCancelled(actor.user), actor.user);
    case DoCancelFromGroup(who) =>
      events := EndIsTold(w, w.session.(status := Canceled), SessionCancelled(NOBODY), who);
    case DoExpire(now) =>
      if w.session.Ended() {
        events := NothingIsTold(w);
      } else {
        events := EndIsTold(w, w.session.(status := Completed), SessionExpired, NOBODY);
      }
  }

  lemma TeamCommandIsTold(w: World, cmd: Command) returns (events: seq<Event>)
    requires Sturdy(w) && Shaped(w) && Legal(w, cmd) && Outcome(w, cmd).Ok? && (cmd.DoCreateTeams? || cmd.DoResetTeams?)
    ensures Told(w, events, Outcome(w, cmd).value)
  {
    SturdyTables(w);
    assert OneFormation(w);
    hide Sturdy, Tables, Told, OneFormation, Legal, Shaped, CreateTeams, ResetFormation;
    if cmd.DoCreateTeams? {
      events := CreateTeamsIsTold(w, cmd.actor, NewTeamConfig(cmd.teamCount, cmd.minPlayers).value);
    } else {
      events := ResetIsTold(w, cmd.actor.user, ByOrganizer, GoingIds(w.rows));
    }
  }

  // ---- Main results ----

  lemma StepIsTold(w: World, cmd: Command) returns (events: seq<Event>)
    requires Sturdy(w) && Shaped(w) && Legal(w, cmd)
    ensures Told(w, events, Apply(w, cmd))
  {
    hide Sturdy, Shaped, Legal, Outcome, Told;
    if Outcome(w, cmd).Err? {
      events := NothingIsTold(w);
    } else if cmd.DoCreateRsvp? || cmd.DoAcceptInvite? || cmd.DoApprove? || cmd.DoReject? || cmd.DoAssignTeam?
      || cmd.DoUnassignTeam? {
      events := AttendanceIsTold(w, cmd);
    } else if MayLeave(cmd) {
      DepartedOkIsLeaving(w, cmd);
      events := LeavingIsTold(w, cmd);
    } else if cmd.DoStartDraft? {
      events := StartIsTold(w, cmd);
    } else if cmd.DoPick? {
      events := PickIsTold(w, cmd);
    } else if cmd.DoCancelDraft? {
      events := CancelDraftIsTold(w, cmd);
    } else if cmd.DoReplaceCaptain? {
      ReplaceCaptainOutcome(w, cmd);
    } else if cmd.DoPropose? || cmd.DoVote? || cmd.DoRetractVote? || cmd.DoWithdraw? {
      events := VotingIsTold(w, cmd);
    } else if cmd.DoClose? {
      CloseOutcome(w, cmd);
      events := CloseIsTold(w, cmd.actor, cmd.winner);
    } else if cmd.DoUpdateSession? || cmd.DoSetVisibility? || cmd.DoStart? {
      events := DetailCommandIsTold(w, cmd);
    } else if cmd.DoCreateTeams? || cmd.DoResetTeams? {
      events := TeamCommandIsTold(w, cmd);
    } else {
      events := EndCommandIsTold(w, cmd);
    }
  }

  lemma ReplaceCaptainOutcome(w: World, cmd: Command)
    requires Sturdy(w) && Shaped(w) && Legal(w, cmd) && cmd.DoReplaceCaptain?
    ensures Outcome(w, cmd).Err?
  {
    NoCaptainIsEverReplaced(w, cmd.actor, cmd.side, cmd.user, []);
    hide Sturdy, Shaped, ReplaceCaptain;
  }

  /** The outbox, replayed from nothing, gives exactly the stored teams; and it holds one ending
      if the session is over and none before, and one more start than ends of a draft or a vote
      exactly while one runs. */
  ghost predicate LogTrue(w: World) {
    && (forall u: UserId :: TeamAfter(None, w.outbox, u) == TeamOf(w.rows, u))
    && (forall l: Ledger :: Tally(l, w.outbox) == Level(l, w))
  }

  lemma ToldKeepsLogTrue(w: World, events: seq<Event>, w': World)
    requires LogTrue(w) && Told(w, events, w')
    ensures LogTrue(w') && w.outbox <= w'.outbox
  {
    hide TeamAfter, TeamOf, Tally, Level;
    forall u: UserId ensures TeamAfter(None, w'.outbox, u) == TeamOf(w'.rows, u) {
      TeamAfterBoth(None, w.outbox, events, u);
    }
    forall l: Ledger ensures Tally(l, w'.outbox) == Level(l, w') {
      TallyBoth(l, w.outbox, events);
    }
  }

  /** Over every serial run the outbox only grows and stays true; a consumer that replays it knows who is
      on which team, and sees each session end exactly once. */
  lemma {:induction false} RunKeepsLogTrue(w: World, cmds: seq<Command>, w': World)
    requires Inv(w) && LogTrue(w) && RunsTo(w, cmds, w')
    ensures LogTrue(w') && w.outbox <= w'.outbox
    decreases |cmds|
  {
    hide Inv, Sturdy, Apply, Legal, Shaped, LogTrue, Told;
    if cmds != [] {
      InvIsSturdy(w);
      var events := StepIsTold(w, cmds[0]);
      ToldKeepsLogTrue(w, events, Apply(w, cmds[0]));
      StepKeepsInv(w, cmds[0]);
      RunKeepsLogTrue(Apply(w, cmds[0]), cmds[1..], w');
    }
  }

  lemma NewSessionWorld(s: Session, users: seq<UserId>, now: int)
    requires IsNewSession(s)
    ensures var w := NewWorld(s, users, now);
      && w.session == s && ActiveDraft(w.drafts).None? && OpenRound(w.rounds).None?
      && (forall i :: 0 <= i < |w.rows| ==> w.rows[i].team.None?)
      && (forall i :: 0 <= i < |w.outbox| ==> Small(w.outbox[i]))
  {
    var rows := AutoRows(s, users, now);
    AutoRowsFill(s, users, now);
    assert forall i :: 0 <= i < |users| ==> FilledAt(s, users[i], i, rows[i]);
    hide AutoRows, GoingIds;
  }

  lemma NewSessionLogTrue(s: Session, users: seq<UserId>, now: int)
    requires IsNewSession(s)
    ensures LogTrue(NewWorld(s, users, now))
  {
    hide NewWorld;
    NewSessionWorld(s, users, now);
    QuietStartLogTrue(NewWorld(s, users, now));
  }

  lemma QuietStartLogTrue(w: World)
    requires w.session.status == Scheduled && ActiveDraft(w.drafts).None? && OpenRound(w.rounds).None?
    requires forall i :: 0 <= i < |w.rows| ==> w.rows[i].team.None?
    requires forall i :: 0 <= i < |w.outbox| ==> Small(w.outbox[i])
    ensures LogTrue(w)
  {
    hide TeamAfter, TeamOf, Tally, ActiveDraft, OpenRound;
    forall u: UserId ensures TeamAfter(None, w.outbox, u) == TeamOf(w.rows, u) {
      TeamAfterSilence(None, w.outbox, u);
      NobodyOnATeam(w.rows, u);
    }
    forall l: Ledger ensures Tally(l, w.outbox) == Level(l, w) {
      TallyPlain(l, w.outbox);
    }
  }

  /** Once a session is over its status never changes again, whatever is asked of it. */
  lemma EndedForGood(w: World, cmd: Command)
    requires Shaped(w) && Legal(w, cmd) && w.session.Ended()
    ensures Apply(w, cmd).session.status == w.session.status
  {
    hide GoingIds, LastWhere, Finish, ReplaceTeams, ResetTeamFormation, D.Available, D.Settled, UnassignedEvents,
         V.DivisionFault, PromoteNextPending, V.ClosingChoice;
    if MayLeave(cmd) && Leaving(w, cmd).Ok? {
      var d := Leaving(w, cmd).value;
      assert d.world.session == w.session;
      PromotionKeepsSession(d.world, cmd.next);
    }
  }

  lemma PromotionKeepsSession(w: World, next: Option<nat>)
    ensures IsNextInLine(w.rows, next) ==> PromoteNextPending(w, next).session == w.session
  {
  }
}
