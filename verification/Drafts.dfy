/** Captain drafts: two captains take turns picking the people going until nobody is left
    (activity/internal/domain/team_draft.go). A draft is a value here; its operations return the
    changed draft and the events raised. */
module Drafts {
  import opened Wrappers
  import opened Sequences
  import opened ActivityTypes

  datatype PickOrder = Snake | Alternate

  datatype Side = SideA | SideB {
    function Other(): Side {
      if this == SideA then SideB else SideA
    }
  }

  datatype DraftStatus = Active | Paused | Finished | Dropped

  datatype Pick = Pick(number: nat, side: Side, user: UserId)

  datatype Draft = Draft(
    order: PickOrder,
    status: DraftStatus,
    captainA: UserId,
    captainB: UserId,
    config: TeamConfig,
    turn: nat,
    picks: seq<Pick>,
    startedBy: UserId)
  {
    predicate Running() {
      status == Active || status == Paused
    }

    function Captain(side: Side): UserId {
      if side == SideA then captainA else captainB
    }
  }

  datatype DraftChange = DraftChange(draft: Draft, events: seq<Event>)

  /** A, B, A, B, ... or A, B, B, A, A, B, ... */
  function SideForTurn(order: PickOrder, turn: nat): Side {
    var side := if turn % 2 == 0 then SideA else SideB;
    if order == Snake && (turn / 2) % 2 == 1 then side.Other() else side
  }

  function CaptainSide(d: Draft, user: UserId): Option<Side> {
    if user == NOBODY then None
    else if user == d.captainA then Some(SideA)
    else if user == d.captainB then Some(SideB)
    else None
  }

  predicate IsPicked(d: Draft, user: UserId) {
    exists k :: 0 <= k < |d.picks| && d.picks[k].user == user
  }

  predicate Free(d: Draft, user: UserId) {
    CaptainSide(d, user).None? && !IsPicked(d, user)
  }

  /** The people going nobody has picked yet, captains excluded. */
  function Available(d: Draft, going: seq<UserId>): (r: seq<UserId>)
    ensures forall u :: u in r <==> u in going && Free(d, u)
  {
    if going == [] then []
    else
      var user := going[|going| - 1];
      Available(d, going[..|going| - 1]) + (if Free(d, user) then [user] else [])
  }

  function PicksOf(picks: seq<Pick>, side: Side): seq<UserId> {
    if picks == [] then []
    else
      var last := picks[|picks| - 1];
      PicksOf(picks[..|picks| - 1], side) + (if last.side == side then [last.user] else [])
  }

  function Roster(d: Draft, side: Side): seq<UserId> {
    (if d.Captain(side) == NOBODY then [] else [d.Captain(side)]) + PicksOf(d.picks, side)
  }

  function Settled(d: Draft, going: seq<UserId>, events: seq<Event>): DraftChange {
    if d.status != Active then DraftChange(d, events)
    else if Available(d, going) == [] then DraftChange(d.(status := Finished), events + [DraftCompleted])
    else DraftChange(d, events + [TurnChanged(d.turn)])
  }

  function NewDraft(s: Session, actor: Actor, captainA: UserId, captainB: UserId, order: PickOrder,
                    minPlayers: Option<int>, going: seq<UserId>): Result<DraftChange, Error>
  {
    if !s.ManagedBy(actor) then Err(Unauthorized)
    else if TeamsLock(s).Some? then Err(TeamsLock(s).value)
    else match NewTeamConfig(Some(2), minPlayers)
      case Err(e) => Err(e)
      case Ok(config) =>
        if !s.isTeamSport then Err(TeamsNotSupported)
        else if captainA == NOBODY || captainB == NOBODY || captainA == captainB then Err(InvalidCaptains)
        else if captainA !in going || captainB !in going then Err(CaptainNotConfirmed)
        else if |going| < config.PlayersNeeded() then Err(NotEnoughPlayers)
        else Ok(Settled(Draft(order, Active, captainA, captainB, config, 0, [], actor.user), going,
                        [DraftStarted(actor.user)]))
  }

  function Picked(d: Draft, s: Session, captain: UserId, user: UserId, going: seq<UserId>): Result<DraftChange, Error> {
    if d.status != Active then Err(if d.status == Paused then DraftIsPaused else DraftNotActive)
    else if TeamsLock(s).Some? then Err(TeamsLock(s).value)
    else match CaptainSide(d, captain)
      case None => Err(NotDraftCaptain)
      case Some(side) =>
        if side != SideForTurn(d.order, d.turn) then Err(NotYourTurn)
        else if user !in Available(d, going) then Err(PlayerNotAvailable)
        else Ok(Settled(d.(picks := d.picks + [Pick(d.turn, side, user)], turn := d.turn + 1), going,
                        [PlayerPicked(d.turn, user, captain)]))
  }

  /** Naming a captain for a side left vacant; only a paused draft has one. */
  function CaptainNamed(d: Draft, s: Session, actor: Actor, side: Side, user: UserId, going: seq<UserId>)
    : Result<DraftChange, Error>
  {
    if !s.ManagedBy(actor) then Err(Unauthorized)
    else if d.status != Paused then Err(if d.status == Active then DraftNotPaused else DraftNotActive)
    else if TeamsLock(s).Some? then Err(TeamsLock(s).value)
    else if d.Captain(side) != NOBODY then Err(InvalidCaptains)
    else if user !in going then Err(CaptainNotConfirmed)
    else
      var own := LastWhere(d.picks, (p: Pick) => p.user == user);
      if own.Some? && d.picks[own.value].side != side then Err(InvalidCaptains)
      else if own.None? && user !in Available(d, going) then Err(InvalidCaptains)
      else
        var picks := if own.None? then d.picks else d.picks[..own.value] + d.picks[own.value + 1..];
        var named := if side == SideA then d.(captainA := user, picks := picks)
          else d.(captainB := user, picks := picks);
        var events := [CaptainReplaced(user, actor.user)];
        if d.Captain(side.Other()) == NOBODY then Ok(DraftChange(named, events))
        else Ok(Settled(named.(status := Active), going, events))
  }

  function DraftEnded(d: Draft, end: EndReason, who: UserId): DraftChange {
    if !d.Running() then DraftChange(d, [])
    else DraftChange(d.(status := Dropped), [DraftCancelled(end, who)])
  }

  function DraftCancelledBy(d: Draft, s: Session, actor: Actor): Result<DraftChange, Error> {
    if !s.ManagedBy(actor) then Err(Unauthorized)
    else if !d.Running() then Err(DraftNotActive)
    else Ok(DraftEnded(d, OrganizerCancelled, actor.user))
  }

  // ---- What every draft keeps ----

  predicate OnTurn(d: Draft, k: nat)
    requires k < |d.picks|
  {
    d.picks[k].number == k && d.picks[k].side == SideForTurn(d.order, k)
  }

  predicate InPlay(d: Draft, going: seq<UserId>, user: UserId) {
    user in going && CaptainSide(d, user).None?
  }

  /** Everybody on a side is going and on it once, and the picks alternate as the order says. */
  ghost predicate FairSoFar(d: Draft, going: seq<UserId>) {
    && d.captainA != NOBODY && d.captainB != NOBODY && d.captainA != d.captainB
    && d.captainA in going && d.captainB in going
    && d.turn == |d.picks|
    && (forall k :: 0 <= k < |d.picks| ==> OnTurn(d, k))
    && (forall k :: 0 <= k < |d.picks| ==> InPlay(d, going, d.picks[k].user))
    && (forall j, k :: 0 <= j < k < |d.picks| ==> d.picks[j].user != d.picks[k].user)
    && ValidConfig(d.config) && d.config.teamCount == 2
  }

  /** A draft that is being played or has just ended because nobody is left to pick. */
  ghost predicate Settles(d: Draft, going: seq<UserId>) {
    FairSoFar(d, going) && (d.status == Active || d.status == Finished)
    && (d.status == Finished <==> Available(d, going) == [])
  }

  lemma SettledSettles(d: Draft, going: seq<UserId>, events: seq<Event>)
    requires FairSoFar(d, going) && d.status == Active
    ensures Settles(Settled(d, going, events).draft, going)
  {
    hide FairSoFar, Available;
    var d' := Settled(d, going, events).draft;
    SameAvailable(d, d', going);
    StatusIsNotFairness(d, d', going);
  }

  lemma StatusIsNotFairness(d: Draft, e: Draft, going: seq<UserId>)
    requires e == d.(status := e.status) && FairSoFar(d, going)
    ensures FairSoFar(e, going)
  {
    hide SideForTurn, ValidConfig;
    assert forall k :: 0 <= k < |d.picks| ==> OnTurn(d, k) && InPlay(d, going, d.picks[k].user);
    assert forall k :: 0 <= k < |e.picks| ==> OnTurn(e, k) && InPlay(e, going, e.picks[k].user);
  }

  lemma NewDraftIsFair(s: Session, actor: Actor, captainA: UserId, captainB: UserId, order: PickOrder,
                       minPlayers: Option<int>, going: seq<UserId>)
    requires NewDraft(s, actor, captainA, captainB, order, minPlayers, going).Ok?
    ensures Settles(NewDraft(s, actor, captainA, captainB, order, minPlayers, going).value.draft, going)
  {
    hide Settled;
    var config := NewTeamConfig(Some(2), minPlayers).value;
    var d := Draft(order, Active, captainA, captainB, config, 0, [], actor.user);
    SettledSettles(d, going, [DraftStarted(actor.user)]);
  }

  lemma PickKeepsFair(d: Draft, s: Session, captain: UserId, user: UserId, going: seq<UserId>)
    requires FairSoFar(d, going) && Picked(d, s, captain, user, going).Ok?
    ensures Settles(Picked(d, s, captain, user, going).value.draft, going)
  {
    hide Settled, Available, SideForTurn;
    var side := CaptainSide(d, captain).value;
    var d' := d.(picks := d.picks + [Pick(d.turn, side, user)], turn := d.turn + 1);
    assert Free(d, user);
    forall k | 0 <= k < |d'.picks| ensures OnTurn(d', k) && InPlay(d', going, d'.picks[k].user) {
      if k < |d.picks| {
        assert OnTurn(d, k) && InPlay(d, going, d.picks[k].user);
      }
    }
    SettledSettles(d', going, [PlayerPicked(d.turn, user, captain)]);
  }

  lemma {:induction false} SameAvailable(d: Draft, e: Draft, going: seq<UserId>)
    requires e == d.(status := e.status)
    ensures Available(d, going) == Available(e, going)
  {
    if going != [] {
      SameAvailable(d, e, going[..|going| - 1]);
      assert Free(d, going[|going| - 1]) == Free(e, going[|going| - 1]);
    }
  }

  /** Someone joining, or anything else that takes nobody's spot, cannot spoil a draft. */
  lemma FairAsPeopleJoin(d: Draft, going: seq<UserId>, more: seq<UserId>)
    requires FairSoFar(d, going) && forall u :: u in going ==> u in more
    ensures FairSoFar(d, more)
    ensures Available(d, going) != [] ==> Available(d, more) != []
  {
    forall k | 0 <= k < |d.picks| ensures InPlay(d, more, d.picks[k].user) {
      assert InPlay(d, going, d.picks[k].user);
    }
    if Available(d, going) != [] {
      assert Available(d, going)[0] in Available(d, more);
    }
  }

  // ---- What a finished draft means ----

  lemma {:induction false} PicksOfHas(picks: seq<Pick>, side: Side, user: UserId)
    ensures user in PicksOf(picks, side) <==>
      exists k :: 0 <= k < |picks| && picks[k].side == side && picks[k].user == user
  {
    if picks != [] {
      var init := picks[..|picks| - 1];
      PicksOfHas(init, side, user);
      forall k | 0 <= k < |picks| && picks[k].side == side && picks[k].user == user
        ensures user in PicksOf(picks, side) {
        assert k < |init| ==> init[k] == picks[k];
      }
      if user in PicksOf(init, side) {
        var k :| 0 <= k < |init| && init[k].side == side && init[k].user == user;
        assert picks[k] == init[k];
      }
    }
  }

  lemma {:induction false} PicksOfDistinct(picks: seq<Pick>, side: Side)
    requires forall j, k :: 0 <= j < k < |picks| ==> picks[j].user != picks[k].user
    ensures Distinct(PicksOf(picks, side))
  {
    if picks != [] {
      var init := picks[..|picks| - 1];
      PicksOfDistinct(init, side);
      PicksOfHas(init, side, picks[|picks| - 1].user);
    }
  }

  function Lead(order: PickOrder, turn: nat): int {
    if turn % 2 == 0 then 0 else if order == Snake && (turn / 2) % 2 == 1 then -1 else 1
  }

  lemma LeadAfter(order: PickOrder, turn: nat)
    ensures Lead(order, turn + 1) == Lead(order, turn) + (if SideForTurn(order, turn) == SideA then 1 else -1)
  {
    assert turn % 2 == 0 ==> (turn + 1) / 2 == turn / 2;
  }

  lemma {:induction false} PicksAreBalanced(d: Draft, n: nat)
    requires n <= |d.picks| && forall k :: 0 <= k < |d.picks| ==> OnTurn(d, k)
    ensures |PicksOf(d.picks[..n], SideA)| - |PicksOf(d.picks[..n], SideB)| == Lead(d.order, n)
  {
    if n > 0 {
      hide Lead, SideForTurn;
      PicksAreBalanced(d, n - 1);
      assert d.picks[..n][..n - 1] == d.picks[..n - 1];
      assert OnTurn(d, n - 1);
      LeadAfter(d.order, n - 1);
    }
  }

  lemma SideOfSomeoneInPlay(d: Draft, going: seq<UserId>, user: UserId, side: Side)
    requires FairSoFar(d, going)
    ensures user in PicksOf(d.picks, side) ==>
      InPlay(d, going, user) && user !in PicksOf(d.picks, side.Other())
  {
    PicksOfHas(d.picks, side, user);
    PicksOfHas(d.picks, side.Other(), user);
    if user in PicksOf(d.picks, side) {
      var k :| 0 <= k < |d.picks| && d.picks[k].side == side && d.picks[k].user == user;
      assert InPlay(d, going, d.picks[k].user);
    }
  }

  lemma RostersDistinct(d: Draft, going: seq<UserId>)
    requires FairSoFar(d, going)
    ensures Distinct(Roster(d, SideA) + Roster(d, SideB))
  {
    var a, b := PicksOf(d.picks, SideA), PicksOf(d.picks, SideB);
    PicksOfDistinct(d.picks, SideA);
    PicksOfDistinct(d.picks, SideB);
    forall u ensures u in a ==> InPlay(d, going, u) && u !in b {
      SideOfSomeoneInPlay(d, going, u, SideA);
    }
    forall u ensures u in b ==> InPlay(d, going, u) {
      SideOfSomeoneInPlay(d, going, u, SideB);
    }
    DistinctConcat([d.captainA], a);
    DistinctConcat([d.captainB], b);
    DistinctConcat([d.captainA] + a, [d.captainB] + b);
  }

  lemma PickedOnSomeSide(d: Draft, user: UserId)
    requires IsPicked(d, user)
    ensures user in PicksOf(d.picks, SideA) || user in PicksOf(d.picks, SideB)
  {
    hide PicksOf;
    var k :| 0 <= k < |d.picks| && d.picks[k].user == user;
    PicksOfHas(d.picks, d.picks[k].side, user);
  }

  lemma OnSomeSide(d: Draft, going: seq<UserId>, user: UserId)
    requires FairSoFar(d, going) && Available(d, going) == []
    ensures user in going <==> user in Roster(d, SideA) || user in Roster(d, SideB)
  {
    SideOfSomeoneInPlay(d, going, user, SideA);
    SideOfSomeoneInPlay(d, going, user, SideB);
    hide PicksOf, Available, SideForTurn;
    if user in going {
      assert user !in Available(d, going);
      if CaptainSide(d, user).None? {
        hide FairSoFar;
        PickedOnSomeSide(d, user);
      }
    }
  }

  /** A completed draft puts everybody going on exactly one side, and the sides differ by at most
      one player. */
  lemma CompletedDraftSplitsEveryone(d: Draft, going: seq<UserId>)
    requires FairSoFar(d, going) && Available(d, going) == []
    ensures forall u :: u in going <==> u in Roster(d, SideA) || u in Roster(d, SideB)
    ensures Distinct(Roster(d, SideA) + Roster(d, SideB))
    ensures -1 <= |Roster(d, SideA)| - |Roster(d, SideB)| <= 1
  {
    PicksAreBalanced(d, |d.picks|);
    assert d.picks[..|d.picks|] == d.picks;
    RostersDistinct(d, going);
    forall u ensures u in going <==> u in Roster(d, SideA) || u in Roster(d, SideB) {
      hide *;
      OnSomeSide(d, going, u);
    }
  }

  /** Until then too, nobody on a side is not going. */
  lemma RostersAreGoing(d: Draft, going: seq<UserId>, side: Side, user: UserId)
    requires FairSoFar(d, going) && user in Roster(d, side)
    ensures user in going
  {
    PicksOfHas(d.picks, side, user);
    if user != d.Captain(side) {
      var k :| 0 <= k < |d.picks| && d.picks[k].user == user;
      assert InPlay(d, going, d.picks[k].user);
    }
  }
}
