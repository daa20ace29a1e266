/** A vote told from its commands: what is on offer, and everyone's last choice that still stands
    (activity/internal/application/team_voting_service.go, activity/internal/domain/team_voting.go). */
module Ballots {
  import opened Wrappers
  import opened Sequences
  import opened ActivityTypes
  import opened Attendees
  import opened SessionWorld
  import opened SessionInvariants
  import opened SessionTeams
  import opened StepEffects
  import L = SessionLog
  import D = Drafts
  import V = Voting

  /** The proposals put forward since the vote opened and not withdrawn, and each voter's last
      choice, unless taken back or withdrawn since. */
  datatype Poll = Poll(offered: set<V.Proposal>, choices: map<UserId, Choice>)

  /** The same players are together in both. */
  predicate Alike(a: seq<seq<UserId>>, b: seq<seq<UserId>>) {
    V.DivisionKey(a) == V.DivisionKey(b)
  }

  function Supporters(poll: Poll, c: Choice): set<UserId> {
    set u | u in poll.choices && poll.choices[u] == c
  }

  /** Nobody can propose a division twice. */
  function WithProposal(poll: Poll, p: V.Proposal): Poll {
    if exists q :: q in poll.offered && Alike(q.teams, p.teams) then poll else poll.(offered := poll.offered + {p})
  }

  function WithoutIt(poll: Poll, id: ProposalId): Poll {
    Poll(set p | p in poll.offered && p.id != id,
         map u | u in poll.choices && poll.choices[u] != For(id) :: poll.choices[u])
  }

  function PollAfter(w: World, cmd: Command, poll: Poll): Poll
    requires Shaped(w) && Legal(w, cmd)
  {
    if Outcome(w, cmd).Err? then poll
    else match cmd
      case DoPropose(author, division) =>
        var proposal := V.Proposal(w.nextId, author, division);
        if OpenRound(w.rounds).None? then Poll({proposal}, map[])
        else WithProposal(poll, proposal)
      case DoVote(u, choice) => poll.(choices := poll.choices[u := choice])
      case DoRetractVote(u) => poll.(choices := poll.choices - {u})
      case DoWithdraw(_, id) => WithoutIt(poll, id)
      case _ => poll
  }

  function PollOver(w: World, cmds: seq<Command>, poll: Poll): Poll
    decreases |cmds|
  {
    if cmds == [] || !Shaped(w) || !Legal(w, cmds[0]) then poll
    else PollOver(Apply(w, cmds[0]), cmds[1..], PollAfter(w, cmds[0], poll))
  }

  predicate Differ(a: V.Proposal, b: V.Proposal) {
    a.id < b.id && !Alike(a.teams, b.teams)
  }

  ghost predicate Various(proposals: seq<V.Proposal>) {
    forall i, j :: 0 <= i < j < |proposals| ==> Differ(proposals[i], proposals[j])
  }

  /** The round holds exactly what the poll says; its proposals are in the order they were made in
      and no two are the same division. */
  ghost predicate Holds(r: V.Round, poll: Poll, nextId: nat) {
    && r.votes == poll.choices
    && (forall p :: p in r.proposals <==> p in poll.offered)
    && (forall p :: p in r.proposals ==> p.id < nextId)
    && Various(r.proposals)
  }

  ghost predicate Polled(w: World, poll: Poll) {
    forall i :: IsOpen(w.rounds, i) ==> Holds(w.rounds[i], poll, w.nextId)
  }

  // ---- The voting commands ----

  /** A vote stands for the voter's choice and nobody else's. */
  lemma VoteCounts(r: V.Round, voter: UserId, choice: Choice, going: seq<UserId>)
    ensures V.Voted(r, voter, choice, going).Ok? <==>
      r.status == V.Open && voter in going && choice in V.Options(r)
    ensures V.Voted(r, voter, choice, going).Ok? ==>
      var c := V.Voted(r, voter, choice, going).value;
      && c.round == r.(votes := r.votes[voter := choice])
      && c.events == (if c.round == r then [] else [VoteCast(voter, choice, voter in r.votes)])
  {
    V.OptionsHas(r, choice);
    assert voter in r.votes && r.votes[voter] == choice ==> r.votes[voter := choice] == r.votes;
    assert r.(votes := r.votes[voter := choice]) == r ==> r.votes[voter := choice] == r.votes;
    hide V.Options, V.FindProposal;
  }

  lemma TakingBackCounts(r: V.Round, voter: UserId, going: seq<UserId>)
    ensures V.VoteTakenBack(r, voter, going).Ok? <==> r.status == V.Open && voter in going
    ensures V.VoteTakenBack(r, voter, going).Ok? ==>
      var c := V.VoteTakenBack(r, voter, going).value;
      && c.round == r.(votes := r.votes - {voter})
      && c.events == (if voter in r.votes then [VoteRetracted(voter, r.votes[voter])] else [])
  {
    assert voter !in r.votes ==> r.votes - {voter} == r.votes;
  }

  lemma {:induction false} WithDivisionIs(proposals: seq<V.Proposal>, teams: seq<seq<UserId>>)
    ensures match V.WithDivision(proposals, teams)
            case Some(p) => p in proposals && Alike(p.teams, teams)
            case None => forall p :: p in proposals ==> !Alike(p.teams, teams)
  {
    if proposals != [] {
      hide V.DivisionKey;
      WithDivisionIs(proposals[1..], teams);
      assert proposals == [proposals[0]] + proposals[1..];
    }
  }

  lemma NoTwoAlike(r: V.Round, poll: Poll, nextId: nat, p: V.Proposal, q: V.Proposal)
    requires Holds(r, poll, nextId) && p in r.proposals && q in r.proposals && (Alike(p.teams, q.teams) || p.id == q.id)
    ensures p == q
  {
    hide V.DivisionKey;
    var i :| 0 <= i < |r.proposals| && r.proposals[i] == p;
    var j :| 0 <= j < |r.proposals| && r.proposals[j] == q;
  }

  /** A proposal is taken up exactly when it divides everyone going and nobody else has proposed the
      same; the same again from its author changes nothing. */
  lemma ProposalCounts(r: V.Round, s: Session, author: UserId, teams: seq<seq<UserId>>, going: seq<UserId>,
                       id: ProposalId,
                       poll: Poll)
    requires Holds(r, poll, id) && r.status == V.Open
    ensures V.Proposed(r, s, author, teams, going, id).Ok? <==>
      && !s.Ended() && s.teamsSource != ByDraft && author in going
      && V.Divides(teams, r.teamCount, r.Config().PerTeam(), going)
      && forall p :: p in poll.offered && Alike(p.teams, teams) ==> p.author == author
    ensures V.Proposed(r, s, author, teams, going, id).Ok? ==>
      var r' := V.Proposed(r, s, author, teams, going, id).value.round;
      && r' == r.(proposals := r'.proposals)
      && Holds(r', WithProposal(poll, V.Proposal(id, author, teams)), id + 1)
      && V.Proposed(r, s, author, teams, going, id).value.events
         == (if WithProposal(poll, V.Proposal(id, author, teams)) == poll then [] else [ProposalCreated(id)])
  {
    V.AcceptedIffDivides(teams, r.teamCount, r.Config().PerTeam(), going);
    WithDivisionIs(r.proposals, teams);
    hide V.Divides, V.DivisionFault, V.WithDivision, V.DivisionKey;
    var same := V.WithDivision(r.proposals, teams);
    if same.Some? {
      forall p | p in poll.offered && Alike(p.teams, teams) ensures p == same.value {
        NoTwoAlike(r, poll, id, p, same.value);
      }
    } else if V.Proposed(r, s, author, teams, going, id).Ok? {
      var r' := V.Proposed(r, s, author, teams, going, id).value.round;
      var p := V.Proposal(id, author, teams);
      assert r'.proposals == r.proposals + [p];
      forall i, j | 0 <= i < j < |r'.proposals| ensures Differ(r'.proposals[i], r'.proposals[j]) {
        assert r.proposals[i] in r.proposals;
      }
    }
  }

  lemma {:induction false} WithoutKeepsOrder(proposals: seq<V.Proposal>, id: ProposalId)
    requires Various(proposals)
    ensures Various(V.WithoutProposal(proposals, id))
  {
    if proposals != [] {
      hide Differ;
      var rest := V.WithoutProposal(proposals[1..], id);
      WithoutKeepsOrder(proposals[1..], id);
      forall j | 0 <= j < |rest| ensures Differ(proposals[0], rest[j]) {
        assert rest[j] in rest && rest[j] in proposals[1..];
        var k :| 0 <= k < |proposals| - 1 && proposals[1..][k] == rest[j];
        assert proposals[k + 1] == rest[j];
      }
      Prepended(proposals[0], rest);
    }
  }

  lemma Prepended(p: V.Proposal, rest: seq<V.Proposal>)
    requires Various(rest) && forall j :: 0 <= j < |rest| ==> Differ(p, rest[j])
    ensures Various([p] + rest) && Various([] + rest)
  {
    hide Differ;
    assert [] + rest == rest;
  }

  lemma LeftHolds(r: V.Round, poll: Poll, nextId: nat, id: ProposalId)
    requires Holds(r, poll, nextId)
    ensures var left := r.(proposals := V.WithoutProposal(r.proposals, id),
                           votes := r.votes - V.VotersFor(r.votes, For(id)));
      Holds(left, WithoutIt(poll, id), nextId)
        && (left.proposals != [] <==> exists p :: p in poll.offered && p.id != id)
  {
    WithoutKeepsOrder(r.proposals, id);
    var left := V.WithoutProposal(r.proposals, id);
    assert left != [] ==> left[0] in left;
    hide Differ, V.WithoutProposal;
    assert r.votes - V.VotersFor(r.votes, For(id)) == WithoutIt(poll, id).choices;
  }

  /** Only its author withdraws a proposal; the votes for it go with it, and with the last proposal
      the vote itself. */
  lemma WithdrawalCounts(r: V.Round, requester: UserId, id: ProposalId, poll: Poll, nextId: nat)
    requires Holds(r, poll, nextId) && r.status == V.Open
    ensures V.Withdrawn(r, requester, id).Ok? <==> exists p :: p in poll.offered && p.id == id && p.author == requester
    ensures V.Withdrawn(r, requester, id).Ok? ==>
      var c := V.Withdrawn(r, requester, id).value;
      var told := ProposalWithdrawn(id, Supporters(poll, For(id)));
      if exists p :: p in poll.offered && p.id != id
      then && c.round == r.(proposals := c.round.proposals, votes := c.round.votes)
           && Holds(c.round, WithoutIt(poll, id), nextId) && c.events == [told]
      else c.round.status == V.Dropped && c.events == [told, VotingCancelled(NoProposals)]
  {
    LeftHolds(r, poll, nextId, id);
    var found := V.FindProposal(r.proposals, id);
    forall p | p in poll.offered && p.id == id ensures found == Some(p) {
      NoTwoAlike(r, poll, nextId, p, found.value);
    }
    assert forall p :: p in r.proposals <==> p in poll.offered;
    assert V.VotersFor(r.votes, For(id)) == Supporters(poll, For(id));
    hide V.FindProposal, Differ, V.WithoutProposal, Holds, WithoutIt, V.VotersFor, Supporters;
  }

  /** A first proposal opens a vote, on keeping the teams too if there are any. */
  lemma OpeningCounts(s: Session, author: UserId, teams: seq<seq<UserId>>, going: seq<UserId>, id: ProposalId)
    ensures var config := if s.HasTeams() then s.teamConfig.value else TeamConfig(|teams|, None);
      && (V.OpenRound(s, author, teams, going, id).Ok? <==>
            && !s.Ended() && s.teamsSource != ByDraft && s.isTeamSport && author in going
            && (s.HasTeams() || 2 <= |teams| <= MAX_TEAM_COUNT) && |going| >= config.PlayersNeeded()
            && V.Divides(teams, config.teamCount, config.PerTeam(), going))
      && (V.OpenRound(s, author, teams, going, id).Ok? ==>
            var r := V.OpenRound(s, author, teams, going, id).value.round;
            && r.status == V.Open && r.Config() == config && r.keepCurrentAllowed == s.HasTeams()
            && Holds(r, Poll({V.Proposal(id, author, teams)}, map[]), id + 1))
  {
    var config := if s.HasTeams() then s.teamConfig.value else TeamConfig(|teams|, None);
    V.AcceptedIffDivides(teams, config.teamCount, config.PerTeam(), going);
    hide V.Divides, V.DivisionFault;
  }

  // ---- Every command ----

  lemma RoundWrittenPolled(w: World, i: nat, r: V.Round, n: nat, poll: Poll)
    requires OneFormation(w) && i < |w.rounds| && w.rounds[i].status == V.Open
    requires r.status == V.Open ==> Holds(r, poll, w.nextId + n)
    ensures Polled(w.(rounds := w.rounds[i := r], nextId := w.nextId + n), poll)
  {
    hide Holds;
    assert IsOpen(w.rounds, i);
    var rounds := w.rounds[i := r];
    forall j | IsOpen(rounds, j) ensures j == i {
      assert j != i ==> IsOpen(w.rounds, j);
    }
  }

  lemma ProposingKeepsPoll(w: World, author: UserId, division: seq<seq<UserId>>, poll: Poll)
    requires Inv(w) && Shaped(w) && Polled(w, poll) && Outcome(w, DoPropose(author, division)).Ok?
    ensures var cmd := DoPropose(author, division); Polled(Apply(w, cmd), PollAfter(w, cmd, poll))
  {
    var going := GoingIds(w.rows);
    OpenRoundIs(w.rounds);
    hide LastWhere, GoingIds, Shaped, V.OpenRound, V.Proposed, Holds, RostersGoing;
    if OpenRound(w.rounds).None? {
      OpeningCounts(w.session, author, division, going, w.nextId);
      var rounds := Apply(w, DoPropose(author, division)).rounds;
      forall j | IsOpen(rounds, j) ensures j == |w.rounds| {
      }
    } else {
      var i := OpenRound(w.rounds).value;
      assert IsOpen(w.rounds, i);
      ProposalCounts(w.rounds[i], w.session, author, division, going, w.nextId, poll);
      var r := V.Proposed(w.rounds[i], w.session, author, division, going, w.nextId).value.round;
      RoundWrittenPolled(w, i, r, 1, PollAfter(w, DoPropose(author, division), poll));
    }
  }

  lemma CastingKeepsPoll(w: World, cmd: Command, poll: Poll)
    requires Inv(w) && Shaped(w) && Legal(w, cmd) && Polled(w, poll) && Outcome(w, cmd).Ok?
    requires cmd.DoVote? || cmd.DoRetractVote?
    ensures Polled(Apply(w, cmd), PollAfter(w, cmd, poll))
  {
    var going := GoingIds(w.rows);
    OpenRoundIs(w.rounds);
    hide LastWhere, GoingIds, Shaped, Legal, V.Voted, V.VoteTakenBack, RostersGoing;
    var i := OpenRound(w.rounds).value;
    assert IsOpen(w.rounds, i);
    var r := w.rounds[i];
    if cmd.DoVote? {
      VoteCounts(r, cmd.user, cmd.choice, going);
    } else {
      TakingBackCounts(r, cmd.user, going);
    }
    RoundWrittenPolled(w, i, Apply(w, cmd).rounds[i], 0, PollAfter(w, cmd, poll));
  }

  lemma WithdrawingKeepsPoll(w: World, u: UserId, id: ProposalId, poll: Poll)
    requires Inv(w) && Shaped(w) && Polled(w, poll) && Outcome(w, DoWithdraw(u, id)).Ok?
    ensures Polled(Apply(w, DoWithdraw(u, id)), PollAfter(w, DoWithdraw(u, id), poll))
  {
    OpenRoundIs(w.rounds);
    hide LastWhere, Shaped, V.Withdrawn, RostersGoing, WithoutIt;
    var i := OpenRound(w.rounds).value;
    assert IsOpen(w.rounds, i);
    WithdrawalCounts(w.rounds[i], u, id, poll, w.nextId);
    RoundWrittenPolled(w, i, Apply(w, DoWithdraw(u, id)).rounds[i], 0, PollAfter(w, DoWithdraw(u, id), poll));
  }

  /** Over every command the open round holds just what the poll says. */
  lemma StepKeepsPoll(w: World, cmd: Command, poll: Poll)
    requires Inv(w) && Shaped(w) && Legal(w, cmd) && Polled(w, poll)
    ensures Polled(Apply(w, cmd), PollAfter(w, cmd, poll))
  {
    hide Outcome, Shaped, Legal, Holds, NoVoteTouched, Polled, WithProposal, WithoutIt;
    if IsVoting(cmd) {
      if Outcome(w, cmd).Ok? {
        hide Inv, Apply, PollAfter;
        if cmd.DoPropose? {
          ProposingKeepsPoll(w, cmd.user, cmd.division, poll);
        } else if cmd.DoWithdraw? {
          WithdrawingKeepsPoll(w, cmd.user, cmd.proposal, poll);
        } else {
          CastingKeepsPoll(w, cmd, poll);
        }
      }
    } else {
      assert OneFormation(w);
      StepLeavesAlone(w, cmd);
      PollStays(w, cmd, poll);
      hide Inv, Apply, PollAfter;
      UntouchedStaysPolled(w, Apply(w, cmd), poll);
    }
  }

  lemma PollStays(w: World, cmd: Command, poll: Poll)
    requires Shaped(w) && Legal(w, cmd) && !IsVoting(cmd)
    ensures PollAfter(w, cmd, poll) == poll
  {
    hide Outcome, Shaped, Legal;
  }

  lemma UntouchedStaysPolled(w: World, w': World, poll: Poll)
    requires Polled(w, poll) && NoVoteTouched(w, w')
    ensures Polled(w', poll)
  {
    hide Various;
  }

  /** Over every run an open round holds exactly the proposals put forward since it opened and not
      withdrawn, and exactly everyone's last choice that stands. */
  lemma {:induction false} RoundsHoldThePoll(w: World, cmds: seq<Command>, w': World, poll: Poll)
    requires Inv(w) && RunsTo(w, cmds, w') && Polled(w, poll)
    ensures Polled(w', PollOver(w, cmds, poll))
    decreases |cmds|
  {
    hide Inv, Apply, Legal, Shaped, PollAfter, Polled;
    if cmds != [] {
      StepKeepsInv(w, cmds[0]);
      StepKeepsPoll(w, cmds[0], poll);
      RoundsHoldThePoll(Apply(w, cmds[0]), cmds[1..], w', PollAfter(w, cmds[0], poll));
    }
  }

  // ---- Closing ----

  /** Keeping the teams is on offer when there are some. */
  predicate OnOffer(poll: Poll, s: Session, c: Choice) {
    match c
    case KeepCurrent => s.HasTeams()
    case For(id) => exists p :: p in poll.offered && p.id == id
  }

  ghost predicate Leads(poll: Poll, s: Session, c: Choice) {
    OnOffer(poll, s, c) && forall o :: OnOffer(poll, s, o) ==> |Supporters(poll, o)| <= |Supporters(poll, c)|
  }

  ghost predicate LeadsAlone(poll: Poll, s: Session, c: Choice) {
    Leads(poll, s, c) && forall o :: Leads(poll, s, o) ==> o == c
  }

  lemma OptionsAreOnOffer(r: V.Round, s: Session, poll: Poll, nextId: nat, c: Choice)
    requires Holds(r, poll, nextId) && RoundFits(r, s)
    ensures c in V.Options(r) <==> OnOffer(poll, s, c)
  {
    V.OptionsHas(r, c);
    hide V.Options, Various;
  }

  lemma MostVotedLead(r: V.Round, s: Session, poll: Poll, nextId: nat, c: Choice)
    requires Holds(r, poll, nextId) && RoundFits(r, s)
    ensures c in V.MostVoted(r) <==> Leads(poll, s, c)
  {
    V.MostVotedAreMaximal(r, c);
    forall o ensures o in V.Options(r) <==> OnOffer(poll, s, o)
             ensures V.VoteCount(r.votes, o) == |Supporters(poll, o)| {
      OptionsAreOnOffer(r, s, poll, nextId, o);
      assert V.VotersFor(r.votes, o) == Supporters(poll, o);
    }
    hide V.MostVoted, V.Options, V.VoteCount, Holds, OnOffer, Supporters;
  }

  lemma {:induction false} CountedAreDistinct(votes: map<UserId, Choice>, options: seq<Choice>, count: int)
    requires Distinct(options)
    ensures Distinct(V.WithCount(votes, options, count))
  {
    if options != [] {
      var init := options[..|options| - 1];
      CountedAreDistinct(votes, init, count);
      assert options[|options| - 1] !in init;
      hide V.VoteCount;
    }
  }

  lemma OptionsAreDistinct(r: V.Round)
    requires Various(r.proposals)
    ensures Distinct(V.Options(r))
  {
    forall i, j | 0 <= i < j < |V.Options(r)| ensures V.Options(r)[i] != V.Options(r)[j] {
      if j < |r.proposals| { assert Differ(r.proposals[i], r.proposals[j]); }
    }
  }

  /** There is one most voted option exactly when one leads alone. */
  lemma OneMostVoted(r: V.Round, s: Session, poll: Poll, nextId: nat)
    requires Holds(r, poll, nextId) && RoundFits(r, s) && V.Options(r) != []
    ensures |V.MostVoted(r)| >= 1 && Leads(poll, s, V.MostVoted(r)[0])
    ensures |V.MostVoted(r)| == 1 <==> LeadsAlone(poll, s, V.MostVoted(r)[0])
  {
    V.BestIsAttainedMaximum(r.votes, V.Options(r));
    OptionsAreDistinct(r);
    CountedAreDistinct(r.votes, V.Options(r), V.Best(r.votes, V.Options(r)));
    var most := V.MostVoted(r);
    assert Distinct(most) && most != [];
    forall o ensures o in most <==> Leads(poll, s, o) {
      MostVotedLead(r, s, poll, nextId, o);
    }
    hide V.MostVoted, V.Options, V.Best, V.WithCount, Leads, Holds, RoundFits;
    assert most[0] in most;
    if |most| > 1 { assert most[1] in most; }
  }

  /** Whether a close goes through, and on which choice. */
  lemma CloseSettles(r: V.Round, s: Session, actor: Actor, winner: Option<Choice>, poll: Poll, nextId: nat)
    returns (choice: Choice)
    requires Holds(r, poll, nextId) && RoundFits(r, s) && V.Options(r) != [] && r.status == V.Open && !s.Ended()
    ensures var closing := V.ClosedBy(r, s, actor, winner);
      && (closing.Ok? <==> s.ManagedBy(actor) && if winner.Some? then Leads(poll, s, winner.value)
                                                 else exists c :: LeadsAlone(poll, s, c))
      && (closing.Ok? ==>
            && Leads(poll, s, choice) && (winner.Some? ==> choice == winner.value)
            && closing.value.round.status == V.Closed
            && closing.value.round.keptCurrent == choice.KeepCurrent?
            && closing.value.round.winner == (if choice.KeepCurrent? then None else Some(choice.proposal))
            && closing.value.winning.Some? == choice.For?
            && (choice.For? ==>
                  closing.value.winning.value in poll.offered && closing.value.winning.value.id == choice.proposal))
  {
    OneMostVoted(r, s, poll, nextId);
    choice := if winner.Some? then winner.value else V.MostVoted(r)[0];
    MostVotedLead(r, s, poll, nextId, choice);
    OptionsAreOnOffer(r, s, poll, nextId, choice);
    V.OptionsHas(r, choice);
    assert forall p :: p in r.proposals <==> p in poll.offered;
    hide V.MostVoted, V.Options, V.FindProposal, Holds, RoundFits;
    if winner.None? && exists c :: LeadsAlone(poll, s, c) {
      var c :| LeadsAlone(poll, s, c);
      assert V.MostVoted(r)[0] == c;
    }
  }

  ghost predicate AreTheTeams(w: World, teams: seq<seq<UserId>>) {
    && |w.session.teams| == |teams|
    && forall k, u :: 0 <= k < |teams| && u in teams[k] ==> L.TeamOf(w.rows, u) == Some(w.session.teams[k])
  }

  lemma WinnersAreTheTeams(w: World, actor: Actor, winner: Option<Choice>, i: nat, c: V.Closing)
    requires Inv(w) && Shaped(w) && OpenRound(w.rounds) == Some(i) && i < |w.rounds| && w.rounds[i] in w.rounds
    requires V.Options(w.rounds[i]) != [] && V.ClosedBy(w.rounds[i], w.session, actor, winner) == Ok(c)
    ensures CloseVoting(w, actor, winner).Ok?
    ensures var w' := CloseVoting(w, actor, winner).value;
      match c.winning
      case None => w'.session == w.session && w'.rows == w.rows
      case Some(p) => w'.session.teamsSource == ByVote && AreTheTeams(w', p.teams)
  {
    hide Inv, Shaped, V.Options, V.ClosedBy, OpenRound, CloseVoting, L.TeamOf;
    forall u {
      WonVotePlacesTheProposal(w, actor, winner, i, c, u);
    }
    WonVotePlacesTheProposal(w, actor, winner, i, c, 0);
  }

  /** A vote closes on the option with the most supporters, each person counted for their last
      choice that stands - the one that leads alone, or the one a manager picks among those that
      lead together - and its proposal becomes the teams. */
  lemma VoteFormsTheTeams(w: World, i: nat, actor: Actor, winner: Option<Choice>, poll: Poll)
    returns (choice: Choice)
    requires Inv(w) && Shaped(w) && OpenRound(w.rounds) == Some(i) && Polled(w, poll)
    ensures CloseVoting(w, actor, winner).Ok? <==>
      w.session.ManagedBy(actor) && if winner.Some? then Leads(poll, w.session, winner.value)
                                    else exists c :: LeadsAlone(poll, w.session, c)
    ensures CloseVoting(w, actor, winner).Ok? ==>
      var w' := CloseVoting(w, actor, winner).value;
      && Leads(poll, w.session, choice) && (winner.Some? ==> choice == winner.value)
      && i < |w'.rounds| == |w.rounds| && w'.rounds[i].status == V.Closed
      && match choice
         case KeepCurrent => w'.rounds[i].keptCurrent && w'.session == w.session && w'.rows == w.rows
         case For(id) =>
           && w'.rounds[i].winner == Some(id) && w'.session.teamsSource == ByVote
           && exists p :: p in poll.offered && p.id == id && AreTheTeams(w', p.teams)
  {
    OpenRoundIs(w.rounds);
    assert IsOpen(w.rounds, i) && w.rounds[i] in w.rounds;
    OpenRoundHolds(w, i);
    var r := w.rounds[i];
    hide V.Options, V.Sound, OpenRound, Inv, Leads, LeadsAlone, Holds, V.ClosedBy, AreTheTeams, Shaped;
    choice := CloseSettles(r, w.session, actor, winner, poll, w.nextId);
    var closing := V.ClosedBy(r, w.session, actor, winner);
    if closing.Ok? {
      WinnersAreTheTeams(w, actor, winner, i, closing.value);
      CloseKeepsRounds(w, actor, winner, i);
      hide CloseVoting;
    }
  }

  lemma CloseKeepsRounds(w: World, actor: Actor, winner: Option<Choice>, i: nat)
    requires Shaped(w) && OpenRound(w.rounds) == Some(i) && i < |w.rounds| && CloseVoting(w, actor, winner).Ok?
    requires w.rounds[i].status == V.Open ==> V.Options(w.rounds[i]) != []
    ensures V.ClosedBy(w.rounds[i], w.session, actor, winner).Ok?
    ensures CloseVoting(w, actor, winner).value.rounds
      == w.rounds[i := V.ClosedBy(w.rounds[i], w.session, actor, winner).value.round]
  {
    hide V.Options, V.ClosingChoice, OpenRound, AllMoves, Placed;
  }
}
