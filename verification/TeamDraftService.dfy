/** The captain draft's commands (activity/internal/application/team_draft_service.go): load the
    running draft and who is going, change the draft, and apply it once it completed. */
module TeamDraftService {
  import opened Wrappers
  import opened Sequences
  import opened ActivityTypes
  import opened Attendees
  import W = SessionWorld
  import opened SessionInvariants
  import opened SessionStore
  import TeamFormation
  import D = Drafts
  import V = Voting

  /** Applies a draft that just completed and writes its events with any team events. */
  method FinishCommand(db: Database, c: D.DraftChange, confirmed: seq<Attendee>)
    requires c.draft.config.teamCount == 2 && (c.draft.status == D.Finished ==> Tables(db.State()))
    requires Loaded(confirmed, db.rows) && forall a :: a in confirmed ==> a.events == []
    modifies db, confirmed
    ensures db.State() == W.Finish(old(db.State()), c)
  {
    hide Tables, Loaded, W.ReplaceTeams;
    var events := c.events;
    if c.draft.status == D.Finished {
      var teamEvents := TeamFormation.ApplyCompletedDraft(db, c.draft, confirmed);
      TeamFormation.EmittedInOne(old(db.State()), db.State(), W.DraftTeams(c.draft), c.draft.config, ByDraft,
        c.draft.startedBy,
        c.events, teamEvents);
      events := events + teamEvents;
    }
    db.InsertEvents(events);
  }

  lemma FinishedTables(w: W.World, drafts: seq<D.Draft>, i: nat, draft: D.Draft)
    requires Inv(w) && draft.config.teamCount == 2 && draft.status == D.Finished
    requires (i == |w.drafts| && drafts == w.drafts + [draft]) || (i < |w.drafts| && drafts == w.drafts[i := draft])
    ensures Tables(w.(drafts := drafts))
  {
    hide DraftHolds, RoundHolds, W.GoingIds;
    var w' := w.(drafts := drafts);
    assert forall j :: Runs(drafts, j) ==> Runs(w.drafts, j);
    assert w'.rounds == w.rounds;
  }

  lemma ShapedDraft(w: W.World, i: nat)
    requires W.Shaped(w) && i < |w.drafts|
    ensures w.drafts[i].config.teamCount == 2
  {
    assert w.drafts[i] in w.drafts;
  }

  function CommandOutcome(w: W.World, cmd: W.Command): Result<W.World, Error>
    requires W.Shaped(w) && (cmd.DoStartDraft? || cmd.DoPick? || cmd.DoReplaceCaptain? || cmd.DoCancelDraft?)
  {
    match cmd
    case DoStartDraft(actor, captainA, captainB, order, minPlayers) =>
      W.StartDraft(w, actor, captainA, captainB, order, minPlayers)
    case DoPick(captain, user) => W.PickPlayer(w, captain, user)
    case DoReplaceCaptain(actor, side, user) => W.ReplaceCaptain(w, actor, side, user)
    case DoCancelDraft(actor) => W.CancelDraft(w, actor)
  }

  lemma DraftCommandKeepsValid(before: W.World, cmd: W.Command, err: Option<Error>, after: W.World)
    requires Inv(before) && W.Shaped(before)
    requires cmd.DoStartDraft? || cmd.DoPick? || cmd.DoReplaceCaptain? || cmd.DoCancelDraft?
    requires Did(before, CommandOutcome(before, cmd), err, after)
    ensures Inv(after)
  {
    hide Inv, W.Shaped, W.StartDraft, W.PickPlayer, W.ReplaceCaptain, W.CancelDraft;
    DoneKeepsValid(before, cmd, err, after);
  }

  method StartDraft(db: Database, actor: Actor, captainA: UserId, captainB: UserId, order: D.PickOrder,
                    minPlayers: Option<int>)
    returns (err: Option<Error>)
    requires db.Valid()
    modifies db
    ensures db.Valid()
    ensures Did(old(db.State()), W.StartDraft(old(db.State()), actor, captainA, captainB, order, minPlayers), err,
      db.State())
  {
    hide Inv, W.Shaped, Loaded, W.Finish, W.GoingIds, LastWhere, D.Available;
    ghost var before := db.State();
    if W.ActiveDraft(db.drafts).Some? { return Some(DraftAlreadyActive); }
    if W.OpenRound(db.rounds).Some? { return Some(VotingIsOpen); }
    var confirmed, going := db.ConfirmedAttendees();
    var r := D.NewDraft(db.session, actor, captainA, captainB, order, minPlayers, going);
    if r.Err? { return Some(r.error); }
    var c := r.value;
    if c.draft.status == D.Finished {
      FinishedTables(db.State(), db.drafts + [c.draft], |db.drafts|, c.draft);
    }
    db.drafts := db.drafts + [c.draft];
    FinishCommand(db, c, confirmed);
    DraftCommandKeepsValid(before, W.DoStartDraft(actor, captainA, captainB, order, minPlayers), None, db.State());
    return None;
  }

  method Pick(db: Database, captain: UserId, user: UserId) returns (err: Option<Error>)
    requires db.Valid()
    modifies db
    ensures db.Valid()
    ensures Did(old(db.State()), W.PickPlayer(old(db.State()), captain, user), err, db.State())
  {
    hide Inv, W.Shaped, Loaded, W.Finish, W.GoingIds, LastWhere, D.Available, V.Options;
    ghost var before := db.State();
    var active := W.ActiveDraft(db.drafts);
    ActiveDraftIs(db.drafts);
    if active.None? { return Some(DraftNotActive); }
    var i := active.value;
    ShapedDraft(db.State(), i);
    var confirmed, going := db.ConfirmedAttendees();
    var r := D.Picked(db.drafts[i], db.session, captain, user, going);
    if r.Err? { return Some(r.error); }
    var c := r.value;
    if c.draft.status == D.Finished {
      FinishedTables(db.State(), db.drafts[i := c.draft], i, c.draft);
    }
    db.drafts := db.drafts[i := c.draft];
    FinishCommand(db, c, confirmed);
    DraftCommandKeepsValid(before, W.DoPick(captain, user), None, db.State());
    return None;
  }

  /** Naming a captain for a vacant side; see Sturdiness.NoCaptainIsEverReplaced. */
  method ReplaceCaptain(db: Database, actor: Actor, side: D.Side, user: UserId) returns (err: Option<Error>)
    requires db.Valid()
    modifies db
    ensures db.Valid()
    ensures Did(old(db.State()), W.ReplaceCaptain(old(db.State()), actor, side, user), err, db.State())
  {
    hide Inv, W.Shaped, Loaded, W.Finish, W.GoingIds, LastWhere, D.Available, V.Options;
    ghost var before := db.State();
    var active := W.ActiveDraft(db.drafts);
    ActiveDraftIs(db.drafts);
    if active.None? { return Some(DraftNotActive); }
    var i := active.value;
    ShapedDraft(db.State(), i);
    var confirmed, going := db.ConfirmedAttendees();
    var r := D.CaptainNamed(db.drafts[i], db.session, actor, side, user, going);
    if r.Err? { return Some(r.error); }
    var c := r.value;
    if c.draft.status == D.Finished {
      FinishedTables(db.State(), db.drafts[i := c.draft], i, c.draft);
    }
    db.drafts := db.drafts[i := c.draft];
    FinishCommand(db, c, confirmed);
    DraftCommandKeepsValid(before, W.DoReplaceCaptain(actor, side, user), None, db.State());
    return None;
  }

  method CancelDraft(db: Database, actor: Actor) returns (err: Option<Error>)
    requires db.Valid()
    modifies db
    ensures db.Valid()
    ensures Did(old(db.State()), W.CancelDraft(old(db.State()), actor), err, db.State())
  {
    hide Inv, W.Shaped, LastWhere;
    ghost var before := db.State();
    var active := W.ActiveDraft(db.drafts);
    ActiveDraftIs(db.drafts);
    if active.None? { return Some(DraftNotActive); }
    var r := D.DraftCancelledBy(db.drafts[active.value], db.session, actor);
    if r.Err? { return Some(r.error); }
    db.drafts := db.drafts[active.value := r.value.draft];
    db.InsertEvents(r.value.events);
    DraftCommandKeepsValid(before, W.DoCancelDraft(actor), None, db.State());
    return None;
  }
}
