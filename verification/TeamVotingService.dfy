/** The commands of team proposals and their vote
    (activity/internal/application/team_voting_service.go). */
module TeamVotingService {
  import opened Wrappers
  import opened Sequences
  import opened ActivityTypes
  import opened Attendees
  import W = SessionWorld
  import opened SessionInvariants
  import opened SessionStore
  import TeamFormation
  import D = Drafts
  import V = Voting

  lemma ProposalKeepsValid(before: W.World, author: UserId, teams: seq<seq<UserId>>, err: Option<Error>, after: W.World)
    requires Inv(before) && Did(before, W.Propose(before, author, teams), err, after)
    ensures Inv(after)
  {
    InvShaped(before);
    hide Inv, W.Shaped, W.Propose;
    DoneKeepsValid(before, W.DoPropose(author, teams), err, after);
  }

  /** Adds a proposal, opening a round when none is open. */
  method Propose(db: Database, author: UserId, teams: seq<seq<UserId>>) returns (err: Option<Error>)
    requires db.Valid()
    modifies db
    ensures db.Valid()
    ensures Did(old(db.State()), W.Propose(old(db.State()), author, teams), err, db.State())
  {
    hide Inv, W.Shaped, LastWhere, W.GoingIds, V.DivisionFault, V.WithDivision;
    ghost var start := db.State();
    if W.ActiveDraft(db.drafts).Some? { return Some(DraftAlreadyActive); }
    var going := W.GoingIds(db.rows);
    var open := W.OpenRound(db.rounds);
    OpenRoundIs(db.rounds);
    var r;
    if open.None? {
      r := V.OpenRound(db.session, author, teams, going, db.nextId);
      if r.Err? { return Some(r.error); }
      db.rounds := db.rounds + [r.value.round];
    } else {
      r := V.Proposed(db.rounds[open.value], db.session, author, teams, going, db.nextId);
      if r.Err? { return Some(r.error); }
      db.rounds := db.rounds[open.value := r.value.round];
    }
    db.nextId := db.nextId + 1;
    db.InsertEvents(r.value.events);
    ProposalKeepsValid(start, author, teams, None, db.State());
    return None;
  }

  datatype RoundChangeRequest = Vote(voter: UserId, choice: Choice) | Retract(voter: UserId)
    | Withdraw(voter: UserId, id: ProposalId)

  function Changed(r: V.Round, change: RoundChangeRequest, going: seq<UserId>): Result<V.RoundChange, Error> {
    match change
    case Vote(voter, choice) => V.Voted(r, voter, choice, going)
    case Retract(voter) => V.VoteTakenBack(r, voter, going)
    case Withdraw(requester, id) => V.Withdrawn(r, requester, id)
  }

  function ChangedWorld(w: W.World, change: RoundChangeRequest): Result<W.World, Error> {
    match change
    case Vote(voter, choice) => W.CastVote(w, voter, choice)
    case Retract(voter) => W.RetractVote(w, voter)
    case Withdraw(requester, id) => W.WithdrawProposal(w, requester, id)
  }

  function Requested(change: RoundChangeRequest): W.Command {
    match change
    case Vote(voter, choice) => W.DoVote(voter, choice)
    case Retract(voter) => W.DoRetractVote(voter)
    case Withdraw(requester, id) => W.DoWithdraw(requester, id)
  }

  lemma ChangeIsCommand(w: W.World, change: RoundChangeRequest)
    requires W.Shaped(w)
    ensures W.Legal(w, Requested(change)) && W.Outcome(w, Requested(change)) == ChangedWorld(w, change)
  {
    hide W.Shaped, W.CastVote, W.RetractVote, W.WithdrawProposal;
  }

  lemma ChangeKeepsValid(before: W.World, change: RoundChangeRequest, err: Option<Error>, after: W.World)
    requires Inv(before) && Did(before, ChangedWorld(before, change), err, after)
    ensures Inv(after)
  {
    InvShaped(before);
    ChangeIsCommand(before, change);
    hide *;
    DoneKeepsValid(before, Requested(change), err, after);
  }

  /** Runs a change on the open round, saves it and writes its events. */
  method ChangeOpenRound(db: Database, change: RoundChangeRequest) returns (err: Option<Error>)
    requires db.Valid()
    modifies db
    ensures db.Valid()
    ensures Did(old(db.State()), ChangedWorld(old(db.State()), change), err, db.State())
  {
    hide Inv, W.Shaped, LastWhere, W.GoingIds, V.Voted, V.VoteTakenBack, V.Withdrawn;
    ghost var start := db.State();
    var open := W.OpenRound(db.rounds);
    OpenRoundIs(db.rounds);
    if open.None? { return Some(VotingNotOpen); }
    var r := Changed(db.rounds[open.value], change, W.GoingIds(db.rows));
    if r.Err? { return Some(r.error); }
    db.rounds := db.rounds[open.value := r.value.round];
    db.InsertEvents(r.value.events);
    ChangeKeepsValid(start, change, None, db.State());
    return None;
  }

  lemma ClosedTables(w: W.World, i: nat, round: V.Round)
    requires Inv(w) && i < |w.rounds| && round.status != V.Open
    ensures Tables(w.(rounds := w.rounds[i := round]))
  {
    hide DraftHolds, RoundHolds, W.GoingIds;
    var rounds := w.rounds[i := round];
    assert forall j :: IsOpen(rounds, j) ==> IsOpen(w.rounds, j);
  }

  lemma WinnerFitsRound(r: V.Round, s: Session, actor: Actor, winner: Option<Choice>)
    requires r.status == V.Open && V.Options(r) != [] && forall p :: p in r.proposals ==> |p.teams| == r.teamCount
    requires V.ClosedBy(r, s, actor, winner).Ok?
    ensures var c := V.ClosedBy(r, s, actor, winner).value;
      c.round.status == V.Closed && (c.winning.Some? ==> |c.winning.value.teams| == c.round.teamCount)
  {
    hide V.ClosingChoice, V.Options;
  }

  lemma ShapedRound(w: W.World, i: nat)
    requires W.Shaped(w) && i < |w.rounds| && w.rounds[i].status == V.Open
    ensures V.Options(w.rounds[i]) != [] && forall p :: p in w.rounds[i].proposals ==>
      |p.teams| == w.rounds[i].teamCount
  {
    assert w.rounds[i] in w.rounds;
  }

  lemma CloseKeepsValid(before: W.World, actor: Actor, winner: Option<Choice>, err: Option<Error>, after: W.World)
    requires Inv(before) && W.Shaped(before) && Did(before, W.CloseVoting(before, actor, winner), err, after)
    ensures Inv(after)
  {
    hide Inv, W.Shaped, W.CloseVoting;
    DoneKeepsValid(before, W.DoClose(actor, winner), err, after);
  }

  /** Ends the open round; the winner replaces the teams. */
  method Close(db: Database, actor: Actor, winner: Option<Choice>) returns (err: Option<Error>)
    requires db.Valid()
    modifies db
    ensures db.Valid()
    ensures Did(old(db.State()), W.CloseVoting(old(db.State()), actor, winner), err, db.State())
  {
    hide Inv, W.Shaped, Loaded, LastWhere, W.GoingIds, W.ReplaceTeams, V.ClosingChoice, V.Options, V.FindProposal,
         Tables;
    ghost var start := db.State();
    var open := W.OpenRound(db.rounds);
    OpenRoundIs(db.rounds);
    if open.None? { return Some(VotingNotOpen); }
    var i := open.value;
    ShapedRound(db.State(), i);
    var confirmed, going := db.ConfirmedAttendees();
    var r := V.ClosedBy(db.rounds[i], db.session, actor, winner);
    if r.Err? { return Some(r.error); }
    var c := r.value;
    WinnerFitsRound(db.rounds[i], db.session, actor, winner);
    ClosedTables(db.State(), i, c.round);
    var events := c.events;
    db.rounds := db.rounds[i := c.round];
    if c.winning.Some? {
      ghost var before := db.State();
      var teamEvents := TeamFormation.ApplyWinningProposal(db, c.round, c.winning.value, actor.user, confirmed);
      var p := c.winning.value;
      TeamFormation.EmittedInOne(before, db.State(),
        W.FormedTeams(p.teams, seq(|p.teams|, _ => actor.user), actor.user),
        c.round.Config(), ByVote, actor.user, c.events, teamEvents);
      events := events + teamEvents;
    }
    db.InsertEvents(events);
    CloseKeepsValid(start, actor, winner, None, db.State());
    return None;
  }
}
