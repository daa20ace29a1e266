/** Team proposals and the vote between them (activity/internal/domain/team_voting.go). A round is
    a value here; its operations return the changed round and the events raised. */
module Voting {
  import opened Wrappers
  import opened Sequences
  import opened ActivityTypes

  datatype Proposal = Proposal(id: ProposalId, author: UserId, teams: seq<seq<UserId>>)

  datatype RoundStatus = Open | Closed | Dropped

  datatype Round = Round(
    status: RoundStatus,
    teamCount: nat,
    minPlayers: Option<int>,
    keepCurrentAllowed: bool,
    proposals: seq<Proposal>,
    votes: map<UserId, Choice>,
    winner: Option<ProposalId>,
    keptCurrent: bool)
  {
    function Config(): TeamConfig {
      TeamConfig(teamCount, minPlayers)
    }
  }

  datatype RoundChange = RoundChange(round: Round, events: seq<Event>)

  // ---- Divisions ----

  /** What is wrong with the first misplaced player, reading the teams in order. */
  function Misplaced(players: seq<UserId>, going: seq<UserId>): Option<DivisionProblem> {
    if players == [] then None
    else
      var init, last := players[..|players| - 1], players[|players| - 1];
      if Misplaced(init, going).Some? then Misplaced(init, going)
      else if last !in going then Some(PlayerNotGoing)
      else if last in init then Some(DuplicatePlayer)
      else None
  }

  function DivisionFault(teamCount: nat, perTeam: int, teams: seq<seq<UserId>>,
                         going: seq<UserId>): Option<DivisionProblem> {
    var players := Flatten(teams);
    if |teams| != teamCount then Some(WrongTeamCount)
    else if Misplaced(players, going).Some? then Misplaced(players, going)
    else if exists u :: u in going && u !in players then Some(MissingPlayers)
    else if exists p :: 0 <= p < |teams| && |teams[p]| < perTeam then Some(TeamBelowMinimum)
    else None
  }

  /** Everyone going on exactly one team, nobody else, every team big enough. */
  ghost predicate Divides(teams: seq<seq<UserId>>, teamCount: nat, perTeam: int, going: seq<UserId>) {
    && |teams| == teamCount
    && (forall u :: u in Flatten(teams) <==> u in going)
    && Distinct(Flatten(teams))
    && forall p :: 0 <= p < |teams| ==> |teams[p]| >= perTeam
  }

  lemma {:induction false} MisplacedIff(players: seq<UserId>, going: seq<UserId>)
    ensures Misplaced(players, going).None? <==> Distinct(players) && forall u :: u in players ==> u in going
  {
    if players != [] {
      var init := players[..|players| - 1];
      MisplacedIff(init, going);
      assert players == init + [players[|players| - 1]];
    }
  }

  /** A division is accepted exactly when it puts everyone going on one team. */
  lemma AcceptedIffDivides(teams: seq<seq<UserId>>, teamCount: nat, perTeam: int, going: seq<UserId>)
    ensures DivisionFault(teamCount, perTeam, teams, going).None? <==> Divides(teams, teamCount, perTeam, going)
  {
    MisplacedIff(Flatten(teams), going);
  }

  lemma MisplacedOfPrefix(players: seq<UserId>, more: seq<UserId>, going: seq<UserId>)
    requires Misplaced(players, going).Some?
    ensures Misplaced(players + more, going) == Misplaced(players, going)
  {
    if more == [] {
      assert players + more == players;
    } else {
      var init := more[..|more| - 1];
      MisplacedOfPrefix(players, init, going);
      assert (players + more)[..|players + more| - 1] == players + init;
    }
  }

  lemma {:induction false} FlattenPrefix(teams: seq<seq<UserId>>, p: nat)
    requires p <= |teams|
    ensures exists rest :: Flatten(teams) == Flatten(teams[..p]) + rest
  {
    if p == |teams| {
      assert teams[..p] == teams;
      assert Flatten(teams) == Flatten(teams[..p]) + [];
    } else {
      var init := teams[..|teams| - 1];
      FlattenPrefix(init, p);
      assert init[..p] == teams[..p];
      var rest :| Flatten(init) == Flatten(teams[..p]) + rest;
      assert Flatten(teams) == Flatten(teams[..p]) + (rest + teams[|teams| - 1]);
    }
  }

  lemma FaultFoundEarly(teams: seq<seq<UserId>>, p: nat, k: nat, going: seq<UserId>)
    requires p < |teams| && k <= |teams[p]|
    requires Misplaced(Flatten(teams[..p]) + teams[p][..k], going).Some?
    ensures Misplaced(Flatten(teams), going) == Misplaced(Flatten(teams[..p]) + teams[p][..k], going)
  {
    var scanned := Flatten(teams[..p]) + teams[p][..k];
    assert teams[..p + 1][..p] == teams[..p];
    assert Flatten(teams[..p + 1]) == scanned + teams[p][k..];
    FlattenPrefix(teams, p + 1);
    var rest :| Flatten(teams) == Flatten(teams[..p + 1]) + rest;
    assert Flatten(teams) == scanned + (teams[p][k..] + rest);
    MisplacedOfPrefix(scanned, teams[p][k..] + rest, going);
  }

  /** Reads the teams in order until a player is misplaced. */
  method FirstMisplaced(teams: seq<seq<UserId>>, going: seq<UserId>)
    returns (fault: Option<DivisionProblem>, seen: set<UserId>)
    ensures fault == Misplaced(Flatten(teams), going)
    ensures fault.None? ==> seen == ToSet(Flatten(teams))
  {
    seen := {};
    for p := 0 to |teams|
      invariant seen == ToSet(Flatten(teams[..p]))
      invariant Misplaced(Flatten(teams[..p]), going).None?
    {
      assert teams[p][..0] == [] && Flatten(teams[..p]) + [] == Flatten(teams[..p]);
      for k := 0 to |teams[p]|
        invariant seen == ToSet(Flatten(teams[..p]) + teams[p][..k])
        invariant Misplaced(Flatten(teams[..p]) + teams[p][..k], going).None?
      {
        var user := teams[p][k];
        ghost var scanned := Flatten(teams[..p]) + teams[p][..k];
        ghost var next := Flatten(teams[..p]) + teams[p][..k + 1];
        assert next == scanned + [user] && next[..|next| - 1] == scanned;
        if user !in going {
          FaultFoundEarly(teams, p, k + 1, going);
          return Some(PlayerNotGoing), seen;
        }
        if user in seen {
          FaultFoundEarly(teams, p, k + 1, going);
          return Some(DuplicatePlayer), seen;
        }
        ToSetOfAppend(scanned, user);
        seen := seen + {user};
      }
      assert teams[p][..|teams[p]|] == teams[p];
      assert teams[..p + 1][..p] == teams[..p];
      assert Flatten(teams[..p + 1]) == Flatten(teams[..p]) + teams[p];
    }
    assert teams[..|teams|] == teams;
    return None, seen;
  }

  method ValidateDivision(teamCount: nat, perTeam: int, teams: seq<seq<UserId>>, going: seq<UserId>)
    returns (fault: Option<DivisionProblem>)
    ensures fault == DivisionFault(teamCount, perTeam, teams, going)
    ensures fault.None? <==> Divides(teams, teamCount, perTeam, going)
  {
    AcceptedIffDivides(teams, teamCount, perTeam, going);
    hide Divides, Flatten, Misplaced;
    if |teams| != teamCount { return Some(WrongTeamCount); }
    var seen;
    fault, seen := FirstMisplaced(teams, going);
    if fault.Some? { return; }
    var missing: seq<UserId> := [];
    for i := 0 to |going|
      invariant missing == [] <==> forall j :: 0 <= j < i ==> going[j] in seen
    {
      if going[i] !in seen { missing := missing + [going[i]]; }
    }
    if |missing| > 0 { return Some(MissingPlayers); }
    for p := 0 to |teams|
      invariant forall q :: 0 <= q < p ==> |teams[q]| >= perTeam
    {
      if |teams[p]| < perTeam { return Some(TeamBelowMinimum); }
    }
    return None;
  }

  /** Two divisions are the same when the same players are together, in whatever order. */
  function DivisionKey(teams: seq<seq<UserId>>): multiset<multiset<UserId>> {
    multiset(seq(|teams|, p requires 0 <= p < |teams| => multiset(teams[p])))
  }

  function WithDivision(proposals: seq<Proposal>, teams: seq<seq<UserId>>): Option<Proposal> {
    if proposals == [] then None
    else if DivisionKey(proposals[0].teams) == DivisionKey(teams) then Some(proposals[0])
    else WithDivision(proposals[1..], teams)
  }

  function FindProposal(proposals: seq<Proposal>, id: ProposalId): (r: Option<Proposal>)
    ensures r.Some? ==> r.value in proposals && r.value.id == id
    ensures r.None? ==> forall p :: p in proposals ==> p.id != id
  {
    if proposals == [] then None
    else if proposals[0].id == id then Some(proposals[0])
    else FindProposal(proposals[1..], id)
  }

  function WithoutProposal(proposals: seq<Proposal>, id: ProposalId): (r: seq<Proposal>)
    ensures forall p :: p in r <==> p in proposals && p.id != id
  {
    if proposals == [] then []
    else (if proposals[0].id == id then [] else [proposals[0]]) + WithoutProposal(proposals[1..], id)
  }

  // ---- The round's operations ----

  function OpenRound(s: Session, author: UserId, teams: seq<seq<UserId>>, going: seq<UserId>, id: ProposalId)
    : Result<RoundChange, Error>
  {
    if TeamsLock(s).Some? then Err(TeamsLock(s).value)
    else if s.teamsSource == ByDraft then Err(TeamsDrafted)
    else if !s.isTeamSport then Err(TeamsNotSupported)
    else if author !in going then Err(AttendeeNotGoing)
    else if s.teamConfig.None? && !(2 <= |teams| <= MAX_TEAM_COUNT) then Err(InvalidDivision(WrongTeamCount))
    else
      var config := if s.teamConfig.Some? then s.teamConfig.value else TeamConfig(|teams|, None);
      if |going| < config.PlayersNeeded() then Err(NotEnoughPlayers)
      else match DivisionFault(config.teamCount, config.PerTeam(), teams, going)
        case Some(problem) => Err(InvalidDivision(problem))
        case None => Ok(RoundChange(
          Round(Open, config.teamCount, config.minPlayers, s.HasTeams(), [Proposal(id, author, teams)],
                map[], None, false),
          [VotingOpened(author)]))
  }

  function Proposed(r: Round, s: Session, author: UserId, teams: seq<seq<UserId>>, going: seq<UserId>, id: ProposalId)
    : Result<RoundChange, Error>
  {
    if r.status != Open then Err(VotingNotOpen)
    else if TeamsLock(s).Some? then Err(TeamsLock(s).value)
    else if s.teamsSource == ByDraft then Err(TeamsDrafted)
    else if author !in going then Err(AttendeeNotGoing)
    else match DivisionFault(r.teamCount, r.Config().PerTeam(), teams, going)
      case Some(problem) => Err(InvalidDivision(problem))
      case None =>
        match WithDivision(r.proposals, teams)
        case Some(same) => if same.author == author then Ok(RoundChange(r, [])) else Err(DuplicateProposal(same.id))
        case None => Ok(RoundChange(r.(proposals := r.proposals + [Proposal(id, author, teams)]),
          [ProposalCreated(id)]))
  }

  function Voted(r: Round, voter: UserId, choice: Choice, going: seq<UserId>): Result<RoundChange, Error> {
    if r.status != Open then Err(VotingNotOpen)
    else if voter !in going then Err(AttendeeNotGoing)
    else if choice == KeepCurrent && !r.keepCurrentAllowed then Err(KeepCurrentNotAvailable)
    else if choice.For? && FindProposal(r.proposals, choice.proposal).None? then Err(ProposalNotFound)
    else if voter in r.votes && r.votes[voter] == choice then Ok(RoundChange(r, []))
    else Ok(RoundChange(r.(votes := r.votes[voter := choice]), [VoteCast(voter, choice, voter in r.votes)]))
  }

  function VoteTakenBack(r: Round, voter: UserId, going: seq<UserId>): Result<RoundChange, Error> {
    if r.status != Open then Err(VotingNotOpen)
    else if voter !in going then Err(AttendeeNotGoing)
    else if voter !in r.votes then Ok(RoundChange(r, []))
    else Ok(RoundChange(r.(votes := r.votes - {voter}), [VoteRetracted(voter, r.votes[voter])]))
  }

  function RoundEnded(r: Round, end: EndReason): RoundChange {
    if r.status != Open then RoundChange(r, [])
    else RoundChange(r.(status := Dropped, proposals := [], votes := map[]), [VotingCancelled(end)])
  }

  function VotersFor(votes: map<UserId, Choice>, choice: Choice): set<UserId> {
    set u | u in votes && votes[u] == choice
  }

  function Withdrawn(r: Round, requester: UserId, id: ProposalId): Result<RoundChange, Error> {
    if r.status != Open then Err(VotingNotOpen)
    else match FindProposal(r.proposals, id)
      case None => Err(ProposalNotFound)
      case Some(p) =>
        if p.author != requester then Err(NotProposalAuthor)
        else
          var voters := VotersFor(r.votes, For(id));
          var left := r.(proposals := WithoutProposal(r.proposals, id), votes := r.votes - voters);
          var events := [ProposalWithdrawn(id, voters)];
          if left.proposals != [] then Ok(RoundChange(left, events))
          else var ended := RoundEnded(left, NoProposals); Ok(RoundChange(ended.round, events + ended.events))
  }

  // ---- Closing ----

  function Options(r: Round): seq<Choice> {
    seq(|r.proposals|, i requires 0 <= i < |r.proposals| => For(r.proposals[i].id))
    + (if r.keepCurrentAllowed then [KeepCurrent] else [])
  }

  function VoteCount(votes: map<UserId, Choice>, choice: Choice): nat {
    |VotersFor(votes, choice)|
  }

  function Best(votes: map<UserId, Choice>, options: seq<Choice>): int {
    if options == [] then -1
    else
      var before, last := Best(votes, options[..|options| - 1]), VoteCount(votes, options[|options| - 1]);
      if last > before then last else before
  }

  function WithCount(votes: map<UserId, Choice>, options: seq<Choice>, count: int): (r: seq<Choice>)
    ensures forall c :: c in r <==> c in options && VoteCount(votes, c) == count
  {
    if options == [] then []
    else
      var last := options[|options| - 1];
      WithCount(votes, options[..|options| - 1], count) + (if VoteCount(votes, last) == count then [last] else [])
  }

  /** The options no other beats, in the order they were proposed, keep-current last. */
  function MostVoted(r: Round): seq<Choice> {
    WithCount(r.votes, Options(r), Best(r.votes, Options(r)))
  }

  lemma {:induction false} BestIsAttainedMaximum(votes: map<UserId, Choice>, options: seq<Choice>)
    ensures forall c :: c in options ==> VoteCount(votes, c) <= Best(votes, options)
    ensures options != [] ==> WithCount(votes, options, Best(votes, options)) != []
    ensures options != [] ==> Best(votes, options) >= 0
  {
    if options != [] {
      var init, last := options[..|options| - 1], options[|options| - 1];
      BestIsAttainedMaximum(votes, init);
      assert options == init + [last];
      if VoteCount(votes, last) > Best(votes, init) {
        assert last in WithCount(votes, options, Best(votes, options));
      } else {
        assert init != [];
        var c := WithCount(votes, init, Best(votes, init))[0];
        assert c in WithCount(votes, init, Best(votes, init)) && c in options;
        assert c in WithCount(votes, options, Best(votes, options));
      }
    }
  }

  lemma NobodyReaches(votes: map<UserId, Choice>, options: seq<Choice>, count: int)
    requires forall c :: c in options ==> VoteCount(votes, c) != count
    ensures WithCount(votes, options, count) == []
  {
    var r := WithCount(votes, options, count);
    assert forall i :: 0 <= i < |r| ==> r[i] in r;
  }

  /** Nobody beats the most voted, and whoever nobody beats is among them. */
  lemma MostVotedAreMaximal(r: Round, c: Choice)
    ensures c in MostVoted(r) <==>
      c in Options(r) && forall o :: o in Options(r) ==> VoteCount(r.votes, o) <= VoteCount(r.votes, c)
  {
    hide Options, VoteCount, WithCount;
    var options := Options(r);
    BestIsAttainedMaximum(r.votes, options);
    if options != [] {
      var top := WithCount(r.votes, options, Best(r.votes, options))[0];
      assert top in WithCount(r.votes, options, Best(r.votes, options));
    }
  }

  /** One option further: it leads alone, shares the lead, or does not reach it. */
  lemma OneMoreOption(votes: map<UserId, Choice>, options: seq<Choice>, c: Choice)
    ensures var best, count := Best(votes, options), VoteCount(votes, c);
      && Best(votes, options + [c]) == (if count > best then count else best)
      && WithCount(votes, options + [c], Best(votes, options + [c]))
         == (if count > best then [c] else WithCount(votes, options, best) + (if count == best then [c] else []))
  {
    assert (options + [c])[..|options|] == options;
    BestIsAttainedMaximum(votes, options);
    hide VoteCount;
    if VoteCount(votes, c) > Best(votes, options) {
      NobodyReaches(votes, options, VoteCount(votes, c));
    }
  }

  method MostVotedOptions(r: Round) returns (mostVoted: seq<Choice>)
    ensures mostVoted == MostVoted(r)
    ensures forall c :: c in mostVoted <==>
      c in Options(r) && forall o :: o in Options(r) ==> VoteCount(r.votes, o) <= VoteCount(r.votes, c)
  {
    hide Options, VoteCount, Best, WithCount;
    var options := Options(r);
    var best: int := -1;
    mostVoted := [];
    NoOptions(r.votes);
    for i := 0 to |options|
      invariant best == Best(r.votes, options[..i])
      invariant mostVoted == WithCount(r.votes, options[..i], best)
    {
      var count := VoteCount(r.votes, options[i]);
      assert options[..i + 1] == options[..i] + [options[i]];
      OneMoreOption(r.votes, options[..i], options[i]);
      if count > best {
        best := count;
        mostVoted := [options[i]];
      } else if count == best {
        mostVoted := mostVoted + [options[i]];
      } else {
        assert mostVoted + [] == mostVoted;
      }
    }
    assert options[..|options|] == options;
    assert mostVoted == MostVoted(r);
    forall c ensures c in mostVoted <==>
      c in Options(r) && forall o :: o in Options(r) ==> VoteCount(r.votes, o) <= VoteCount(r.votes, c) {
      MostVotedAreMaximal(r, c);
    }
  }

  lemma NoOptions(votes: map<UserId, Choice>)
    ensures Best(votes, []) == -1 && WithCount(votes, [], -1) == []
  {
  }

  /** The choice a close settles on: the given winner if it is among the most voted, or the only
      most voted option. */
  function ClosingChoice(r: Round, winner: Option<Choice>): Result<Choice, Error>
    requires Options(r) != []
  {
    BestIsAttainedMaximum(r.votes, Options(r));
    var mostVoted := MostVoted(r);
    if winner.None? && |mostVoted| > 1 then Err(TieRequiresWinner(mostVoted))
    else if winner.None? then Ok(mostVoted[0])
    else if winner.value in mostVoted then Ok(winner.value)
    else Err(InvalidWinner)
  }

  datatype Closing = Closing(round: Round, events: seq<Event>, winning: Option<Proposal>)

  function ClosedBy(r: Round, s: Session, actor: Actor, winner: Option<Choice>): Result<Closing, Error>
    requires r.status == Open ==> Options(r) != []
  {
    if !s.ManagedBy(actor) then Err(Unauthorized)
    else if r.status != Open then Err(VotingNotOpen)
    else if TeamsLock(s).Some? then Err(TeamsLock(s).value)
    else match ClosingChoice(r, winner)
      case Err(e) => Err(e)
      case Ok(choice) =>
        var winning := if choice == KeepCurrent then None else FindProposal(r.proposals, choice.proposal);
        Ok(Closing(
          r.(status := Closed, proposals := [], votes := map[], keptCurrent := choice == KeepCurrent,
             winner := if choice == KeepCurrent then None else Some(choice.proposal)),
          [VotingClosed(actor.user)], winning))
  }

  /** Closing succeeds on the option with the most votes, and asks for a winner exactly when two
      options share the most. */
  lemma ClosingPicksAMaximum(r: Round, s: Session, actor: Actor, winner: Option<Choice>)
    requires r.status == Open && Options(r) != [] && s.ManagedBy(actor) && TeamsLock(s).None?
    ensures var closing := ClosedBy(r, s, actor, winner);
      && (closing.Ok? ==> ClosingChoice(r, winner).Ok?)
      && (forall c: Choice :: ClosingChoice(r, winner) == Ok(c) ==>
            c in Options(r) && (winner.Some? ==> winner.value == c)
            && (forall o :: o in Options(r) ==> VoteCount(r.votes, o) <= VoteCount(r.votes, c)))
      && (winner.None? ==> (closing.Err? <==> |MostVoted(r)| > 1))
      && (winner.Some? ==> (closing.Err? <==> winner.value !in MostVoted(r)))
  {
    BestIsAttainedMaximum(r.votes, Options(r));
    assert MostVoted(r)[0] in MostVoted(r);
  }

  // ---- What every open round keeps ----

  predicate FitsRound(p: Proposal, r: Round, going: seq<UserId>) {
    && |p.teams| == r.teamCount
    && Distinct(Flatten(p.teams))
    && (forall u :: u in Flatten(p.teams) ==> u in going)
    && (forall i :: 0 <= i < |p.teams| ==> |p.teams[i]| >= r.Config().PerTeam())
  }

  predicate StandingVote(r: Round, going: seq<UserId>, voter: UserId)
    requires voter in r.votes
  {
    voter in going && r.votes[voter] in Options(r)
  }

  /** Proposals split only people going, each onto one team; voters are going and their choices
      are on offer. */
  ghost predicate Sound(r: Round, going: seq<UserId>) {
    && r.proposals != []
    && ValidConfig(r.Config())
    && (forall p :: p in r.proposals ==> FitsRound(p, r, going))
    && (forall u :: u in r.votes ==> StandingVote(r, going, u))
  }

  lemma OptionsHas(r: Round, c: Choice)
    ensures c in Options(r) <==> if c.For? then FindProposal(r.proposals, c.proposal).Some? else r.keepCurrentAllowed
  {
    if c.For? && FindProposal(r.proposals, c.proposal).Some? {
      var p := FindProposal(r.proposals, c.proposal).value;
      var i :| 0 <= i < |r.proposals| && r.proposals[i] == p;
      assert Options(r)[i] == c;
    }
    if c in Options(r) && c.For? {
      var i :| 0 <= i < |Options(r)| && Options(r)[i] == c;
      assert r.proposals[i] in r.proposals && r.proposals[i].id == c.proposal;
    }
  }

  lemma OpenedIsSound(s: Session, author: UserId, teams: seq<seq<UserId>>, going: seq<UserId>, id: ProposalId)
    requires OpenRound(s, author, teams, going, id).Ok?
    requires s.teamConfig.Some? ==> ValidConfig(s.teamConfig.value)
    ensures Sound(OpenRound(s, author, teams, going, id).value.round, going)
  {
    var config := if s.teamConfig.Some? then s.teamConfig.value else TeamConfig(|teams|, None);
    AcceptedIffDivides(teams, config.teamCount, config.PerTeam(), going);
  }

  lemma VotesStand(r: Round, r': Round, going: seq<UserId>)
    requires forall u :: u in r.votes ==> StandingVote(r, going, u)
    requires forall c :: c in Options(r) ==> c in Options(r')
    requires forall u :: u in r'.votes ==> u in r.votes && r'.votes[u] == r.votes[u]
    ensures forall u :: u in r'.votes ==> StandingVote(r', going, u)
  {
    forall u | u in r'.votes ensures StandingVote(r', going, u) {
      assert StandingVote(r, going, u);
    }
  }

  lemma ProposeKeepsSound(r: Round, s: Session, author: UserId, teams: seq<seq<UserId>>, going: seq<UserId>,
                          id: ProposalId)
    requires Sound(r, going) && Proposed(r, s, author, teams, going, id).Ok?
    ensures Sound(Proposed(r, s, author, teams, going, id).value.round, going)
  {
    AcceptedIffDivides(teams, r.teamCount, r.Config().PerTeam(), going);
    var r' := Proposed(r, s, author, teams, going, id).value.round;
    if r' != r {
      assert FitsRound(Proposal(id, author, teams), r, going);
      assert forall p :: p in r.proposals ==> p in r'.proposals;
      forall p | p in r'.proposals ensures FitsRound(p, r', going) {
        assert p in r.proposals || p == Proposal(id, author, teams);
        assert FitsRound(p, r, going);
      }
      forall c | c in Options(r) ensures c in Options(r') {
        OptionsHas(r, c);
        OptionsHas(r', c);
      }
      VotesStand(r, r', going);
    }
  }

  lemma VoteKeepsSound(r: Round, voter: UserId, choice: Choice, going: seq<UserId>)
    requires Sound(r, going) && Voted(r, voter, choice, going).Ok?
    ensures Sound(Voted(r, voter, choice, going).value.round, going)
  {
    var r' := Voted(r, voter, choice, going).value.round;
    OptionsHas(r, choice);
    forall p | p in r'.proposals ensures FitsRound(p, r', going) {
      assert FitsRound(p, r, going);
    }
    forall u | u in r'.votes ensures StandingVote(r', going, u) {
      if u != voter { assert StandingVote(r, going, u); }
      assert Options(r') == Options(r);
    }
  }

  lemma RetractKeepsSound(r: Round, voter: UserId, going: seq<UserId>)
    requires Sound(r, going) && VoteTakenBack(r, voter, going).Ok?
    ensures Sound(VoteTakenBack(r, voter, going).value.round, going)
  {
    var r' := VoteTakenBack(r, voter, going).value.round;
    forall p | p in r'.proposals ensures FitsRound(p, r', going) {
      assert FitsRound(p, r, going);
    }
    assert Options(r') == Options(r);
    VotesStand(r, r', going);
  }

  lemma WithdrawKeepsSound(r: Round, requester: UserId, id: ProposalId, going: seq<UserId>)
    requires Sound(r, going) && Withdrawn(r, requester, id).Ok?
    ensures var r' := Withdrawn(r, requester, id).value.round;
            if r'.status == Open then Sound(r', going) else r'.status == Dropped
  {
    var r' := Withdrawn(r, requester, id).value.round;
    if r'.status == Open {
      forall p | p in r'.proposals ensures FitsRound(p, r', going) {
        assert FitsRound(p, r, going);
      }
      forall u | u in r'.votes ensures StandingVote(r', going, u) {
        assert StandingVote(r, going, u) && r.votes[u] != For(id);
        OptionsHas(r, r.votes[u]);
        OptionsHas(r', r.votes[u]);
      }
    }
  }

  lemma SoundAsPeopleJoin(r: Round, going: seq<UserId>, more: seq<UserId>)
    requires Sound(r, going) && forall u :: u in going ==> u in more
    ensures Sound(r, more)
  {
    forall p | p in r.proposals ensures FitsRound(p, r, more) {
      assert FitsRound(p, r, going);
    }
    forall u | u in r.votes ensures StandingVote(r, more, u) {
      assert StandingVote(r, going, u);
    }
  }

  /** The winner of a close is one of the round's sound proposals. */
  lemma WinningProposalFits(r: Round, s: Session, actor: Actor, winner: Option<Choice>, going: seq<UserId>)
    requires Sound(r, going) && r.status == Open && Options(r) != []
    requires ClosedBy(r, s, actor, winner).Ok?
    ensures var closing := ClosedBy(r, s, actor, winner).value;
      && (closing.winning.None? <==> closing.round.keptCurrent)
      && (closing.winning.Some? ==> closing.winning.value in r.proposals && FitsRound(closing.winning.value, r, going))
  {
    ClosingPicksAMaximum(r, s, actor, winner);
    OptionsHas(r, ClosingChoice(r, winner).value);
  }
}
