/** When interleaved transactions commit what the same commands do one after another: a commit or a
    rejection is its serial command exactly under a condition on what became of its reads, and a
    trace whose steps all meet it is a serial run
    (activity/internal/application/attendee_service.go lines 76-95, 391-416, 562-586 and 643-667). */
module SerialOrder {
  import opened Wrappers
  import opened Sequences
  import opened ActivityTypes
  import opened Attendees
  import opened SessionWorld
  import opened SessionInvariants
  import opened SessionWaitlist
  import opened Sturdiness
  import opened StaleReads
  import opened FormationCommits
  import opened StaleFormations
  import opened Interleavings
  import D = Drafts
  import V = Voting

  // ---- A rejection ----

  /** Nobody has decided the request, or withdrawn it, since the rejection read it. */
  predicate StillUndecided(w: World, r: Rejecting) {
    r.index < |w.rows| && !w.rows[r.index].deleted && AwaitsApproval(w.rows[r.index])
  }

  function RejectCommand(r: Rejecting): Command {
    DoReject(r.row.user, r.actor)
  }

  /** The unlocked write is the serial command exactly while the request is undecided. */
  lemma RejectIsSerialIff(w: World, r: Rejecting)
    requires OneRowEach(w.rows) && RequestsFit(w.rows) && RejectFits(w, r) && Shaped(w)
    ensures RejectedAt(w, r) == Apply(w, RejectCommand(r)) <==> StillUndecided(w, r)
  {
    LiveRowIs(w.rows, r.row.user);
    assert RequestFits(w.rows[r.index]);
    hide LastWhere, GoingIds, Shaped;
    var serial, unlocked := Apply(w, RejectCommand(r)), RejectedAt(w, r);
    if LiveRow(w.rows, r.row.user) == Some(r.index) {
      if !AwaitsApproval(w.rows[r.index]) {
        assert |unlocked.outbox| == |w.outbox| + 1;
      }
    } else {
      assert w.rows[r.index].deleted;
      if serial == w {
        assert |unlocked.outbox| == |w.outbox| + 1;
      } else {
        var j := LiveRow(w.rows, r.row.user).value;
        assert serial.rows[j].status == NotGoing && unlocked.rows[j] == w.rows[j];
      }
    }
  }

  // ---- The holder's commit ----

  predicate FullnessAsRead(w: World, h: Holder)
    requires h.Ready?
  {
    w.session.HasCapacity(h.count) == w.session.HasCapacity(Confirmed(w.rows))
  }

  predicate RowAsRead(w: World, seen: Seen) {
    seen.index < |w.rows| && w.rows[seen.index] == seen.row
  }

  /** A freed spot nobody waits for, on a session with no team formation a reset could end. */
  predicate NothingToHandOn(w: World, h: Holder)
    requires h.Ready?
  {
    h.next.None? && (TeamsLock(w.session).Some? || !HasFormation(w))
  }

  /** What the holder decided about its row is what the command decides on the committed tables. */
  predicate RowJudged(w: World, h: Holder)
    requires h.Ready?
  {
    match h.cmd
    case DoCreateRsvp(_, status, _, _, _) => status == Going ==> FullnessAsRead(w, h)
    case DoAcceptInvite(_, _) => FullnessAsRead(w, h)
    case DoApprove(_, _) => h.seen.Some? && RowAsRead(w, h.seen.value)
    case DoRemove(_, _, _) => h.seen.Some? && RowAsRead(w, h.seen.value)
    case DoAssignTeam(_, _, _) => h.seen.Some? && RowAsRead(w, h.seen.value)
    case DoUnassignTeam(_, _) => h.seen.Some? && RowAsRead(w, h.seen.value)
    case DoUpdateRsvp(_, to, _) =>
      && h.seen.Some?
      && var row := h.seen.value.row;
         (RowAsRead(w, h.seen.value) && (to == Going && row.status != Going ==> FullnessAsRead(w, h)))
         || (to == Maybe && row.status == Pending)
    case DoCancelRsvp(_, _) =>
      && h.seen.Some?
      && var row := h.seen.value.row;
         RowAsRead(w, h.seen.value) || (row.team.None? && (HoldsSpot(row.status) ==> NothingToHandOn(w, h)))
    case _ => false
  }

  /** A reset that follows names those going by then. */
  predicate NamesAsNow(w: World, h: Holder)
    requires h.Ready?
  {
    h.freed && TeamsLock(w.session).None? && HasFormation(w) ==> h.going == Participants(w, h.own, h.next)
  }

  /** What the holder decided, whatever it read, is what its command does on the committed tables. */
  ghost predicate AsJudged(w: World, h: Holder)
    requires CanCommit(w, h)
  {
    if h.HasTable? then FormedAsNow(w, h.cmd, h.read) else RowJudged(w, h) && NamesAsNow(w, h)
  }

  function WithNext(cmd: Command, next: Option<nat>): Command {
    match cmd
    case DoRemove(user, actor, _) => DoRemove(user, actor, next)
    case DoUpdateRsvp(user, status, _) => DoUpdateRsvp(user, status, next)
    case DoCancelRsvp(user, _) => DoCancelRsvp(user, next)
    case _ => cmd
  }

  /** The command the commit stands for, with the promotion it chose. */
  function SerialCommand(h: Holder): Command
    requires h.Ready? || h.HasTable?
  {
    if h.HasTable? then h.cmd else WithNext(h.cmd, h.next)
  }

  /** What the command decides when it reads everything now. */
  function DecideNow(w: World, cmd: Command): Result<Decision, Error>
    requires WritesOwnRow(cmd)
  {
    DecideIn(w, cmd, Look(w.rows, cmd.user), Confirmed(w.rows))
  }

  /** The decision committed on the spot. */
  function DoneNow(w: World, d: Result<Decision, Error>, next: Option<nat>, user: UserId): World {
    match d
    case Err(_) => w
    case Ok(x) => Committed(w, x.own, x.freed, next, Participants(w, x.own, next), user)
  }

  /** The commit is what the command, deciding now, would commit on the spot. */
  predicate DoesAsNow(w: World, h: Holder)
    requires h.Ready? && WritesOwnRow(h.cmd)
  {
    DoneNow(w, DecideNow(w, h.cmd), h.next, h.cmd.user) == CommitOf(w, h)
  }

  predicate LeavesAsDecided(w: World, cmd: Command, next: Option<nat>)
    requires MayLeave(cmd)
  {
    match DecideNow(w, cmd)
    case Ok(d) => Leaving(w, WithNext(cmd, next)) == Ok(Departure(Effected(w, d.own), d.freed))
    case Err(e) => Leaving(w, WithNext(cmd, next)) == Err(e)
  }

  lemma LeavingDecided(w: World, cmd: Command, next: Option<nat>)
    requires IsRequest(cmd) && MayLeave(cmd)
    ensures LeavesAsDecided(w, cmd, next)
  {
    LiveRowIs(w.rows, cmd.user);
    hide GoingIds, LastWhere, UpdatedRsvp, Removed;
    if cmd.DoUpdateRsvp? {
      AnswerDecided(w, cmd, next);
    }
  }

  lemma AnswerDecided(w: World, cmd: Command, next: Option<nat>)
    requires IsRequest(cmd) && cmd.DoUpdateRsvp?
    ensures LeavesAsDecided(w, cmd, next)
  {
    LiveRowIs(w.rows, cmd.user);
    hide GoingIds, LastWhere;
  }

  lemma PromotedAtIs(w: World, next: Option<nat>)
    requires IsNextInLine(w.rows, next)
    ensures PromotedAt(w, next) == PromoteNextPending(w, next)
  {
  }

  /** The serial command is deciding and committing with nothing in between. */
  lemma SerialIsDecidedNow(w: World, cmd: Command, next: Option<nat>)
    requires IsRequest(cmd) && Shaped(w)
    requires DecideNow(w, cmd).Ok? && DecideNow(w, cmd).value.freed ==>
      IsNextInLine(Effected(w, DecideNow(w, cmd).value.own).rows, next)
    ensures Legal(w, WithNext(cmd, next))
    ensures Apply(w, WithNext(cmd, next)) == DoneNow(w, DecideNow(w, cmd), next, cmd.user)
  {
    if MayLeave(cmd) {
      LeavingDecided(w, cmd, next);
      hide GoingIds, LastWhere, Effected, DecideIn, PromotedAt, PromoteNextPending, ResetFormation, Shaped, Look;
      if DecideNow(w, cmd).Ok? && DecideNow(w, cmd).value.freed {
        PromotedAtIs(Effected(w, DecideNow(w, cmd).value.own), next);
      }
    } else {
      ArrivalDecided(w, cmd, next);
    }
  }

  lemma ArrivalDecided(w: World, cmd: Command, next: Option<nat>)
    requires IsRequest(cmd) && Shaped(w) && !MayLeave(cmd)
    ensures Legal(w, WithNext(cmd, next))
    ensures Apply(w, WithNext(cmd, next)) == DoneNow(w, DecideNow(w, cmd), next, cmd.user)
  {
    LiveRowIs(w.rows, cmd.user);
    hide GoingIds, PromotedAt, ResetFormation, Shaped, IsNextInLine, Participants, ActiveDraft, LiveRow, NewRsvp;
    if cmd.DoCreateRsvp? {
      assert Outcome(w, cmd) == CreateRsvp(w, cmd.user, cmd.status, cmd.standing, cmd.isOpen, cmd.now);
    } else if cmd.DoAcceptInvite? {
      assert Outcome(w, cmd) == AcceptInvite(w, cmd.user, cmd.now);
    } else {
      hide *;
      RowChangeDecided(w, cmd, next);
    }
  }

  lemma RowChangeDecided(w: World, cmd: Command, next: Option<nat>)
    requires Shaped(w) && (cmd.DoApprove? || cmd.DoAssignTeam? || cmd.DoUnassignTeam?)
    ensures Legal(w, WithNext(cmd, next))
    ensures Apply(w, WithNext(cmd, next)) == DoneNow(w, DecideNow(w, cmd), next, cmd.user)
  {
    LiveRowIs(w.rows, cmd.user);
    hide GoingIds, LastWhere, PromotedAt, ResetFormation, Shaped, IsNextInLine, Participants, ActiveDraft, LiveRow,
         OnTeam, OffTeam, Approved;
  }

  /** The row a holder saw, where it is now. */
  lemma LookNow(w: World, h: Holder)
    requires OneRowEach(w.rows) && h.Ready? && HolderFits(w, h)
    ensures h.seen.None? ==> Look(w.rows, h.cmd.user).None?
    ensures h.seen.Some? ==>
      h.seen.value.index < |w.rows| && Look(w.rows, h.cmd.user)
        == Some(Seen(h.seen.value.index, w.rows[h.seen.value.index]))
  {
    LiveRowIs(w.rows, h.cmd.user);
    hide LastWhere, GoingIds, Decide, IsNextInLine;
  }

  function OwnEvents(own: Own): seq<Event> {
    match own
    case Insert(c) => c.events
    case SetRow(_, c) => c.events
    case SoftDelete(_, events) => events
  }

  /** What a commit adds to the outbox starts with its own events, and is only those when nothing
      is handed on. */
  lemma CommittedTells(w: World, own: Own, freed: bool, next: Option<nat>, going: seq<UserId>, user: UserId)
    requires own.Insert? || own.index < |w.rows|
    requires freed ==> next.None? || next.value < |Effected(w, own).rows|
    ensures w.outbox + OwnEvents(own) <= Committed(w, own, freed, next, going, user).outbox
    ensures !freed ==> Committed(w, own, freed, next, going, user) == Effected(w, own)
  {
    hide GoingIds, LastWhere;
  }

  /** Handing a spot on shows, unless there is nothing to hand on. */
  lemma HandingOnTells(w: World, h: Holder)
    requires HolderFits(w, h) && h.Ready? && h.freed && (h.own.Insert? || h.own.index < |w.rows|)
    ensures NothingToHandOn(w, h) ==> Committed(w, h.own, true, h.next, h.going, h.cmd.user) == Effected(w, h.own)
    ensures !NothingToHandOn(w, h) ==>
      |Committed(w, h.own, true, h.next, h.going, h.cmd.user).outbox| > |w.outbox + OwnEvents(h.own)|
  {
    hide GoingIds, LastWhere, Decide, SeenFits;
  }

  lemma NewsNamed(a: seq<Event>, b: seq<Event>, c: seq<Event>, who: UserId, x: seq<UserId>, y: seq<UserId>)
    requires a + (b + c + [TeamsReset(who, RosterChanged, x)]) == a + (b + c + [TeamsReset(who, RosterChanged, y)])
    ensures x == y
  {
    var n := |a| + |b| + |c|;
    assert (a + (b + c + [TeamsReset(who, RosterChanged, x)]))[n] == TeamsReset(who, RosterChanged, x);
    assert (a + (b + c + [TeamsReset(who, RosterChanged, y)]))[n] == TeamsReset(who, RosterChanged, y);
  }

  /** Two resets of the same tables differ only in whom they name. */
  lemma ResetsNaming(w: World, who: UserId, x: seq<UserId>, y: seq<UserId>)
    ensures ResetFormation(w, who, RosterChanged, x) == ResetFormation(w, who, RosterChanged, y)
       <==> !HasFormation(w) || x == y
  {
    hide LastWhere, Cleared, D.DraftEnded, V.RoundEnded;
    var draft, round := ActiveDraft(w.drafts), OpenRound(w.rounds);
    if HasFormation(w) && ResetFormation(w, who, RosterChanged, x) == ResetFormation(w, who, RosterChanged, y) {
      ActiveDraftIs(w.drafts);
      OpenRoundIs(w.rounds);
      NewsNamed(w.outbox,
        if draft.Some? then D.DraftEnded(w.drafts[draft.value], FormationReset(RosterChanged), who).events else [],
        if round.Some? then V.RoundEnded(w.rounds[round.value], FormationReset(RosterChanged)).events
          else [], who, x, y);
    }
  }

  lemma CommittedNaming(w: World, own: Own, freed: bool, next: Option<nat>, x: seq<UserId>, y: seq<UserId>,
                        user: UserId)
    ensures Committed(w, own, freed, next, x, user) == Committed(w, own, freed, next, y, user)
       <==> !freed || TeamsLock(w.session).Some? || !HasFormation(w) || x == y
  {
    hide LastWhere, ResetFormation;
    ResetsNaming(PromotedAt(Effected(w, own), next), user, x, y);
  }

  // What a commit on stale reads amounts to, command by command.

  /** A newcomer's row depends on the count alone, and on it only as far as there was room. */
  lemma ArrivalRow(w: World, h: Holder)
    requires OneRowEach(w.rows) && HolderFits(w, h) && h.Ready? && (h.cmd.DoCreateRsvp? || h.cmd.DoAcceptInvite?)
    ensures var now := DecideNow(w, h.cmd);
      && !h.freed && h.own.Insert? && now.Ok? && !now.value.freed && now.value.own.Insert?
      && (RowJudged(w, h) ==> now.value.own == h.own)
      && (!RowJudged(w, h) ==> now.value.own.change.row.status == Going != h.own.change.row.status)
  {
    LookNow(w, h);
    hide GoingIds, LastWhere, Look, IsNextInLine, Effected, ActiveDraft;
  }

  lemma ArrivalJudged(w: World, h: Holder)
    requires OneRowEach(w.rows) && HolderFits(w, h) && h.Ready? && (h.cmd.DoCreateRsvp? || h.cmd.DoAcceptInvite?)
    ensures !h.freed
    ensures DoesAsNow(w, h) <==> RowJudged(w, h)
  {
    ArrivalRow(w, h);
    hide HolderFits, DecideNow, RowJudged, Participants, PromotedAt, OneRowEach;
    var now := DecideNow(w, h.cmd).value;
    assert Effected(w, now.own).rows[|w.rows|] == now.own.change.row;
    assert Effected(w, h.own).rows[|w.rows|] == h.own.change.row;
  }

  lemma ApprovalJudged(w: World, h: Holder)
    requires OneRowEach(w.rows) && HolderFits(w, h) && h.Ready? && (h.cmd.DoApprove? || h.cmd.DoRemove?)
    ensures RowJudged(w, h) ==> DecideNow(w, h.cmd) == Ok(Decision(h.own, h.freed))
    ensures !RowJudged(w, h) ==> DecideNow(w, h.cmd).Err? && OwnEvents(h.own) != []
  {
    LookNow(w, h);
    hide GoingIds, LastWhere, Look, IsNextInLine, Effected;
  }

  /** An answer on stale reads: the same decision, or the rejected request that says maybe. */
  lemma AnswerJudged(w: World, h: Holder)
    requires OneRowEach(w.rows) && HolderFits(w, h) && h.Ready? && h.cmd.DoUpdateRsvp?
    ensures var now := DecideNow(w, h.cmd);
      && h.own.SetRow? && (now.Ok? ==> now.value.own.SetRow? && now.value.own.index == h.own.index)
      && (RowJudged(w, h) ==> now.Ok? && now.value.own == h.own && now.value.freed == h.freed)
      && (!RowJudged(w, h) ==>
            || (now.Err? && OwnEvents(h.own) != [])
            || (now.Err? && !h.freed && h.own.change.row.status == Going
                && h.own.index < |w.rows| && w.rows[h.own.index].status != Going)
            || (now.Ok? && OwnEvents(now.value.own) == [] && !now.value.freed && OwnEvents(h.own) != [])
            || (now.Ok? && OwnEvents(now.value.own) != [] && OwnEvents(h.own) == [] && !h.freed)
            || (now.Ok? && OwnEvents(now.value.own) != [] && OwnEvents(h.own) != []
                && OwnEvents(now.value.own)[0] != OwnEvents(h.own)[0]))
  {
    LookNow(w, h);
    hide GoingIds, LastWhere, Look, IsNextInLine, Effected;
  }

  lemma CancelJudged(w: World, h: Holder)
    requires OneRowEach(w.rows) && HolderFits(w, h) && h.Ready? && h.cmd.DoCancelRsvp?
    ensures var now := DecideNow(w, h.cmd);
      && now.Ok? && now.value.own.SoftDelete? && h.own.SoftDelete? && now.value.own.index == h.own.index < |w.rows|
      && (h.seen.Some? && RowAsRead(w, h.seen.value) ==> now.value == Decision(h.own, h.freed))
      && (h.seen.Some? && !RowAsRead(w, h.seen.value) ==>
            && OwnEvents(now.value.own) == [] && !now.value.freed
            && (h.seen.value.row.team.None? <==> OwnEvents(h.own) == [])
            && (h.freed <==> HoldsSpot(h.seen.value.row.status)))
      && h.seen.Some?
  {
    LookNow(w, h);
    hide GoingIds, LastWhere, Look, IsNextInLine, Effected;
  }

  /** A command still free to hand a spot on now hands the same spot on. */
  lemma FreedNow(w: World, h: Holder)
    requires OneRowEach(w.rows) && HolderFits(w, h) && h.Ready?
    ensures DecideNow(w, h.cmd).Ok? && DecideNow(w, h.cmd).value.freed ==>
      DecideNow(w, h.cmd) == Ok(Decision(h.own, h.freed))
  {
    LookNow(w, h);
    hide GoingIds, LastWhere, Look, IsNextInLine, Effected;
  }

  /** A team given or taken writes back the status as read, so it tells once the row is rejected. */
  lemma TeamJudged(w: World, h: Holder)
    requires OneRowEach(w.rows) && HolderFits(w, h) && h.Ready? && (h.cmd.DoAssignTeam? || h.cmd.DoUnassignTeam?)
    ensures var now := DecideNow(w, h.cmd);
      && !h.freed && h.own.SetRow? && h.own.index < |w.rows|
      && (RowJudged(w, h) ==> now == Ok(Decision(h.own, false)))
      && (!RowJudged(w, h) ==>
            && w.rows[h.own.index].status == NotGoing && h.own.change.row.status != NotGoing
            && (now.Ok? ==> !now.value.freed && now.value.own.SetRow? && now.value.own.index == h.own.index
                            && now.value.own.change.row.status == NotGoing))
  {
    LookNow(w, h);
    hide GoingIds, LastWhere, Look, IsNextInLine, Effected;
  }

  lemma TeamSerialIff(w: World, h: Holder)
    requires OneRowEach(w.rows) && HolderFits(w, h) && h.Ready? && (h.cmd.DoAssignTeam? || h.cmd.DoUnassignTeam?)
    ensures DoesAsNow(w, h) <==> RowJudged(w, h)
    ensures !h.freed
  {
    TeamJudged(w, h);
    hide DecideIn, Look, HolderFits, RowJudged, DecideNow, LastWhere, GoingIds, Participants;
    var now := DecideNow(w, h.cmd);
    if !RowJudged(w, h) {
      var i := h.own.index;
      assert Committed(w, h.own, h.freed, h.next, h.going, h.cmd.user).rows[i].status != NotGoing;
      assert DoneNow(w, now, h.next, h.cmd.user).rows[i].status == NotGoing;
    }
  }

  /** The commit is the serial command exactly when the command would decide the same on what is
      committed by then. A stale count matters to whoever asks to go when it only looked full; a
      row rejected since matters to every command on it but two: a pending request that says maybe,
      and a cancellation with no spot to hand on. In particular an approval that read the request
      before it was rejected decides it a second time, and a team given or taken then revives it.
      Who is going by then matters to whoever names them, in a reset, a draft or a vote. */
  lemma CommitIsSerialIff(w: World, h: Holder)
    requires OneRowEach(w.rows) && HolderFits(w, h) && CanCommit(w, h) && Shaped(w) && Sturdy(w)
    ensures Legal(w, SerialCommand(h))
    ensures Apply(w, SerialCommand(h)) == CommitOf(w, h) <==> AsJudged(w, h)
  {
    hide Shaped, Apply, Legal, Sturdy, FormedAt, FormedAsNow, RowJudged, NamesAsNow, OwnHolderFits, OneRowEach,
         RequestsFit, RejectedOnly, Committed;
    if h.HasTable? {
      FormedIsSerialIff(w, h.cmd, h.read);
    } else {
      OwnCommitIsSerialIff(w, h);
    }
  }

  lemma OwnCommitIsSerialIff(w: World, h: Holder)
    requires OneRowEach(w.rows) && HolderFits(w, h) && h.Ready? && Shaped(w)
    ensures Legal(w, WithNext(h.cmd, h.next))
    ensures Apply(w, WithNext(h.cmd, h.next)) == Committed(w, h.own, h.freed, h.next, h.going, h.cmd.user)
       <==> RowJudged(w, h) && NamesAsNow(w, h)
  {
    FreedNow(w, h);
    SerialIsDecidedNow(w, h.cmd, h.next);
    hide Decide, DecideIn, Look, SeenFits, IsNextInLine, Shaped, Apply, Legal, RowJudged, Committed, DoneNow,
         Participants;
    if h.cmd.DoCreateRsvp? || h.cmd.DoAcceptInvite? {
      hide *;
      ArrivalJudged(w, h);
      UnfreedNames(w, h);
    } else if h.cmd.DoAssignTeam? || h.cmd.DoUnassignTeam? {
      hide *;
      TeamSerialIff(w, h);
      UnfreedNames(w, h);
    } else if h.cmd.DoApprove? || h.cmd.DoRemove? {
      ApprovalSerialIff(w, h);
    } else if h.cmd.DoUpdateRsvp? {
      AnswerSerialIff(w, h);
    } else {
      CancelSerialIff(w, h);
    }
  }

  lemma UnfreedNames(w: World, h: Holder)
    requires h.Ready? && !h.freed
    ensures NamesAsNow(w, h)
  {
  }

  /** When the decision is the same, only the names can differ. */
  lemma SameDecisionNames(w: World, h: Holder)
    requires h.Ready? && WritesOwnRow(h.cmd) && DecideNow(w, h.cmd) == Ok(Decision(h.own, h.freed))
    ensures DoesAsNow(w, h) <==> NamesAsNow(w, h)
  {
    hide Participants, DecideNow, Committed;
    CommittedNaming(w, h.own, h.freed, h.next, h.going, Participants(w, h.own, h.next), h.cmd.user);
  }

  lemma ApprovalSerialIff(w: World, h: Holder)
    requires OneRowEach(w.rows) && HolderFits(w, h) && h.Ready? && (h.cmd.DoApprove? || h.cmd.DoRemove?)
    ensures DoesAsNow(w, h) <==> RowJudged(w, h) && NamesAsNow(w, h)
  {
    ApprovalJudged(w, h);
    OwnInTable(w, h);
    hide HolderFits, Committed, Effected, RowJudged, DecideNow, NamesAsNow;
    if RowJudged(w, h) {
      SameDecisionNames(w, h);
    } else {
      CommittedTells(w, h.own, h.freed, h.next, h.going, h.cmd.user);
    }
  }

  lemma AnswerSerialIff(w: World, h: Holder)
    requires OneRowEach(w.rows) && HolderFits(w, h) && h.Ready? && h.cmd.DoUpdateRsvp?
    ensures DoesAsNow(w, h) <==> RowJudged(w, h) && NamesAsNow(w, h)
  {
    AnswerJudged(w, h);
    OwnInTable(w, h);
    hide HolderFits, Committed, RowJudged, DecideNow, NamesAsNow, Participants;
    var now := DecideNow(w, h.cmd);
    if RowJudged(w, h) {
      SameDecisionNames(w, h);
    } else {
      CommittedTells(w, h.own, h.freed, h.next, h.going, h.cmd.user);
      if now.Ok? {
        FreedNow(w, h);
        CommittedTells(w, now.value.own, now.value.freed, h.next, Participants(w, now.value.own, h.next), h.cmd.user);
        if OwnEvents(now.value.own) != [] && OwnEvents(h.own) != [] {
          FirstNews(w.outbox, OwnEvents(now.value.own), OwnEvents(h.own));
        }
      }
    }
  }

  lemma FirstNews(outbox: seq<Event>, a: seq<Event>, b: seq<Event>)
    requires a != [] && b != []
    ensures (outbox + a)[|outbox|] == a[0] && (outbox + b)[|outbox|] == b[0]
  {
  }

  lemma CancelSerialIff(w: World, h: Holder)
    requires OneRowEach(w.rows) && HolderFits(w, h) && h.Ready? && h.cmd.DoCancelRsvp?
    ensures DoesAsNow(w, h) <==> RowJudged(w, h) && NamesAsNow(w, h)
  {
    CancelJudged(w, h);
    OwnInTable(w, h);
    hide HolderFits, Committed, DecideNow, RowAsRead, Participants, HasFormation;
    var now := DecideNow(w, h.cmd);
    if RowAsRead(w, h.seen.value) {
      hide NamesAsNow;
      SameDecisionNames(w, h);
    } else {
      CommittedTells(w, h.own, h.freed, h.next, h.going, h.cmd.user);
      CommittedTells(w, now.value.own, now.value.freed, h.next, Participants(w, now.value.own, h.next), h.cmd.user);
      if h.freed { HandingOnTells(w, h); }
    }
  }

  lemma OwnInTable(w: World, h: Holder)
    requires HolderFits(w, h) && h.Ready?
    ensures h.own.Insert? || h.own.index < |w.rows|
    ensures h.freed ==> h.next.None? || h.next.value < |Effected(w, h.own).rows|
    ensures h.own.SetRow? ==> h.seen.Some? && h.own.index == h.seen.value.index
  {
    OwnFits(w, h);
    hide GoingIds, LastWhere, Decide, Effected;
  }

  // ---- Every interleaving ----

  /** The step's write is what its command does serially. */
  ghost predicate Guarded(sys: System, step: Step) {
    match step
    case RejectCommits(tx) => tx in sys.rejects ==> StillUndecided(sys.world, sys.rejects[tx])
    case Commit => CanCommit(sys.world, sys.holder) ==> AsJudged(sys.world, sys.holder)
    case _ => true
  }

  ghost predicate AllGuarded(sys: System, steps: seq<Step>)
    decreases |steps|
  {
    steps == [] || (Guarded(sys, steps[0])
      && (After(sys, steps[0]).Some? ==> AllGuarded(After(sys, steps[0]).value, steps[1..])))
  }

  lemma OneCommandRuns(w: World, cmd: Command)
    requires Shaped(w) && Legal(w, cmd)
    ensures RunsTo(w, [cmd], Apply(w, cmd))
  {
    hide Shaped, Legal, Apply;
    assert [cmd][1..] == [];
  }

  lemma QuietStepKeepsWorld(sys: System, step: Step)
    requires After(sys, step).Some? && !step.Commit? && !step.OtherCommand? && !step.RejectCommits?
    ensures After(sys, step).value.world == sys.world
  {
    hide GoingIds, LastWhere, Decide, IsNextInLine, Effected, Look, Participants;
  }

  /** Each step leaves the tables alone or is one serial command. */
  lemma StepIsSerial(sys: System, step: Step) returns (cmds: seq<Command>)
    requires SystemInv(sys) && Inv(sys.world) && After(sys, step).Some? && Guarded(sys, step)
    ensures Inv(After(sys, step).value.world) && RunsTo(sys.world, cmds, After(sys, step).value.world)
  {
    var w, h := sys.world, sys.holder;
    InvShaped(w);
    InvIsSturdy(w);
    cmds := [];
    hide Inv, Sturdy, Shaped, Legal, Apply, CommitOf, HolderFits, AsJudged, RejectedAt, RejectFits, LastWhere, GoingIds;
    if step.Commit? {
      CommitIsSerialIff(w, h);
      cmds := [SerialCommand(h)];
    } else if step.OtherCommand? {
      cmds := [step.other];
    } else if step.RejectCommits? {
      RejectIsSerialIff(w, sys.rejects[step.tx]);
      cmds := [RejectCommand(sys.rejects[step.tx])];
    } else {
      QuietStepKeepsWorld(sys, step);
    }
    if cmds != [] {
      assert After(sys, step).value.world == Apply(w, cmds[0]);
      StepKeepsInv(w, cmds[0]);
      OneCommandRuns(w, cmds[0]);
    }
  }

  /** Whatever the session and its requests: when every commit is as judged and every committed
      rejection finds its request undecided, the interleaving commits exactly what some serial run
      of the commands does; so every result about serial runs holds of it. */
  lemma {:induction false} InterleavingIsSerial(sys: System, steps: seq<Step>, sys': System)
    returns (cmds: seq<Command>)
    requires SystemInv(sys) && Inv(sys.world) && Trace(sys, steps, sys') && AllGuarded(sys, steps)
    ensures Inv(sys'.world) && RunsTo(sys.world, cmds, sys'.world)
    decreases |steps|
  {
    hide SystemInv, Inv, After, RunsTo, Guarded;
    cmds := [];
    if steps == [] {
      EmptyRun(sys.world);
    } else {
      var sys1 := After(sys, steps[0]).value;
      StepKeepsSystemInv(sys, steps[0]);
      var first := StepIsSerial(sys, steps[0]);
      var rest := InterleavingIsSerial(sys1, steps[1..], sys');
      cmds := first + rest;
      RunsJoin(sys.world, first, sys1.world, rest, sys'.world);
    }
  }

  lemma EmptyRun(w: World)
    ensures RunsTo(w, [], w)
  {
  }

  lemma {:induction false} RunsJoin(w: World, a: seq<Command>, w1: World, b: seq<Command>, w2: World)
    requires RunsTo(w, a, w1) && RunsTo(w1, b, w2)
    ensures RunsTo(w, a + b, w2)
    decreases |a|
  {
    hide Shaped, Legal, Apply;
    if a == [] {
      assert a + b == b;
    } else {
      RunsJoin(Apply(w, a[0]), a[1..], w1, b, w2);
      assert (a + b)[1..] == a[1..] + b;
    }
  }

  // ---- Timely rejections ----

  /** What the holder read is what is committed; a request not decided yet may be missing from what
      it read of all the attendees. */
  ghost predicate HolderExact(w: World, h: Holder) {
    if h.Idle? || h.Locked? then true
    else if h.HasTable? then |h.read| == |w.rows| && NobodyLost(h.read, w.rows)
    else
      && WritesOwnRow(h.cmd) && h.seen == Look(w.rows, h.cmd.user)
      && (h.HasCount? || HasDecided(h) ==> h.count == Confirmed(w.rows))
      && (h.Ready? && h.freed ==> h.going == Participants(w, h.own, h.next))
  }

  predicate NotReadByHolder(h: Holder, r: Rejecting) {
    h.Idle? || h.Locked? || h.HasTable? || h.seen.None? || h.seen.value.index != r.index
  }

  /** A committing rejection finds its request undecided, and the lock's holder has not read it to
      act on it. */
  predicate Timely(sys: System, step: Step) {
    step.RejectCommits? && step.tx in sys.rejects ==>
      StillUndecided(sys.world, sys.rejects[step.tx]) && NotReadByHolder(sys.holder, sys.rejects[step.tx])
  }

  ghost predicate AllTimely(sys: System, steps: seq<Step>)
    decreases |steps|
  {
    steps == [] || (Timely(sys, steps[0])
      && (After(sys, steps[0]).Some? ==> AllTimely(After(sys, steps[0]).value, steps[1..])))
  }

  lemma ExactIsJudged(w: World, h: Holder)
    requires h.Ready? && HolderFits(w, h) && HolderExact(w, h)
    ensures RowJudged(w, h) && NamesAsNow(w, h)
  {
    LiveRowIs(w.rows, h.cmd.user);
    hide GoingIds, LastWhere, IsNextInLine, Effected, Participants, HasFormation;
  }

  lemma ExactCommitIsJudged(w: World, h: Holder)
    requires CanCommit(w, h) && Sturdy(w) && OneRowEach(w.rows) && HolderFits(w, h) && HolderExact(w, h)
    ensures AsJudged(w, h)
  {
    hide Shaped, Sturdy, OneRowEach, OwnHolderFits, RejectedOnly, RequestsFit, FormedAsNow, RowJudged, NamesAsNow,
         NobodyLost;
    if h.HasTable? {
      NobodyLostIsAsNow(w, h.cmd, h.read);
    } else {
      ExactIsJudged(w, h);
    }
  }

  /** A pending request is nobody's promotion, so rejecting it changes no list of those going. */
  lemma TimelyRejectKeepsParticipants(w: World, h: Holder, r: Rejecting)
    requires RejectFits(w, r) && StillUndecided(w, r) && HolderFits(w, h) && h.Ready? && h.freed
    requires h.seen.None? || h.seen.value.index != r.index
    ensures Participants(RejectedAt(w, r), h.own, h.next) == Participants(w, h.own, h.next)
  {
    OwnFits(w, h);
    hide GoingIds, LastWhere, Decide, SeenFits;
    var w1 := Effected(w, h.own);
    assert h.next.Some? ==> Waits(w1.rows[h.next.value]) && h.next.value != r.index;
    GoingSame(PromotedAt(w1, h.next).rows, PromotedAt(Effected(RejectedAt(w, r), h.own), h.next).rows);
  }

  lemma TimelyRejectLosesNobody(w: World, read: seq<Row>, r: Rejecting)
    requires RejectFits(w, r) && StillUndecided(w, r) && RejectedOnly(read, w.rows) && NobodyLost(read, w.rows)
    ensures NobodyLost(read, RejectedAt(w, r).rows)
  {
    forall i ensures !Lost(read, RejectedAt(w, r).rows, i) {
      assert !Lost(read, w.rows, i);
      assert 0 <= i < |w.rows| ==> SinceRead(read[i], w.rows[i]);
    }
  }

  lemma TimelyRejectKeepsExact(w: World, h: Holder, r: Rejecting)
    requires OneRowEach(w.rows) && RejectFits(w, r) && StillUndecided(w, r) && HolderFits(w, h) && HolderExact(w, h)
    requires NotReadByHolder(h, r)
    ensures HolderExact(RejectedAt(w, r), h)
  {
    RejectKeepsRows(w, r);
    if h.HasTable? {
      TimelyRejectLosesNobody(w, h.read, r);
    } else if !h.Idle? && !h.Locked? {
      if h.Ready? && h.freed {
        TimelyRejectKeepsParticipants(w, h, r);
      }
      LiveRowAfterReject(w, r, h.cmd.user);
      LiveRowIs(w.rows, h.cmd.user);
    }
    hide GoingIds, LastWhere, Decide, IsNextInLine, Participants, SeenFits, RejectedOnly;
  }

  lemma StepKeepsExact(sys: System, step: Step)
    requires SystemInv(sys) && Inv(sys.world)
    requires HolderExact(sys.world, sys.holder) && After(sys, step).Some? && Timely(sys, step)
    ensures Guarded(sys, step) && HolderExact(After(sys, step).value.world, After(sys, step).value.holder)
  {
    var w, h := sys.world, sys.holder;
    InvIsSturdy(w);
    hide GoingIds, LastWhere, Look, Decide, IsNextInLine, Effected, CommitOf, RejectedAt, Apply, Shaped, Legal,
         AsJudged, RejectFits, Sturdy, Inv, OneRowEach, RequestsFit, HolderFits, Participants;
    if step.Commit? {
      ExactCommitIsJudged(w, h);
    } else if step.RejectCommits? {
      TimelyRejectKeepsExact(w, h, sys.rejects[step.tx]);
    } else if step.ReadTable? {
      NobodyLostAtOnce(w.rows);
    }
  }

  lemma NobodyLostAtOnce(rows: seq<Row>)
    ensures NobodyLost(rows, rows)
  {
  }

  lemma {:induction false} TimelyIsGuarded(sys: System, steps: seq<Step>, sys': System)
    requires SystemInv(sys) && Inv(sys.world) && HolderExact(sys.world, sys.holder)
    requires Trace(sys, steps, sys') && AllTimely(sys, steps)
    ensures AllGuarded(sys, steps)
    decreases |steps|
  {
    hide SystemInv, Inv, HolderExact, After, Timely, Guarded, RunsTo;
    if steps != [] {
      StepKeepsExact(sys, steps[0]);
      StepKeepsSystemInv(sys, steps[0]);
      var cmds := StepIsSerial(sys, steps[0]);
      TimelyIsGuarded(After(sys, steps[0]).value, steps[1..], sys');
    }
  }

  /** On any session, join requests included, a trace is a serial run if each rejection that
      commits finds its request undecided and not yet read, to act on it, by whoever holds the lock. */
  lemma TimelyRejectionsAreSerial(sys: System, steps: seq<Step>, sys': System) returns (cmds: seq<Command>)
    requires SystemInv(sys) && Inv(sys.world) && HolderExact(sys.world, sys.holder)
    requires Trace(sys, steps, sys') && AllTimely(sys, steps)
    ensures Inv(sys'.world) && RunsTo(sys.world, cmds, sys'.world)
  {
    hide *;
    TimelyIsGuarded(sys, steps, sys');
    cmds := InterleavingIsSerial(sys, steps, sys');
  }

  // ---- Sessions without approval ----

  /** Nobody's row waits for a manager's decision, and none ever will. */
  predicate NoRequests(w: World) {
    !w.session.requiresApproval && forall i :: 0 <= i < |w.rows| ==> w.rows[i].source != Requested
  }

  lemma InsertedAlone(w: World, own: Own, next: Option<nat>, going: seq<UserId>, user: UserId)
    ensures own.Insert? ==> Committed(w, own, false, next, going, user).rows == w.rows + [own.change.row]
  {
  }

  lemma SameNumberOfRows(w: World, own: Own, freed: bool, next: Option<nat>, going: seq<UserId>, user: UserId)
    requires !own.Insert?
    ensures |Committed(w, own, freed, next, going, user).rows| == |w.rows|
  {
    hide TeamsLock, ActiveDraft, OpenRound;
  }

  lemma OwnCommitKeepsNoRequests(w: World, h: Holder)
    requires OneRowEach(w.rows) && RequestsFit(w.rows) && HolderFits(w, h) && CanCommit(w, h) && h.Ready?
    requires NoRequests(w)
    ensures NoRequests(CommitOf(w, h))
  {
    CommitKeepsTables(w, h);
    if h.own.Insert? {
      InsertsNoRequest(w, h);
      InsertedAlone(w, h.own, h.next, h.going, h.cmd.user);
    } else {
      SameNumberOfRows(w, h.own, h.freed, h.next, h.going, h.cmd.user);
    }
    hide Committed, OneRowEach, RequestsFit, HolderFits;
  }

  lemma InsertsNoRequest(w: World, h: Holder)
    requires HolderFits(w, h) && h.Ready? && NoRequests(w) && h.own.Insert?
    ensures h.own.change.row.source != Requested && !h.freed
  {
    OwnFits(w, h);
    hide GoingIds, LastWhere, IsNextInLine, Effected;
  }

  lemma CommitKeepsNoRequests(w: World, h: Holder)
    requires OneRowEach(w.rows) && RequestsFit(w.rows) && HolderFits(w, h) && CanCommit(w, h) && NoRequests(w)
    ensures NoRequests(CommitOf(w, h))
  {
    if h.HasTable? {
      CommitKeepsTables(w, h);
      hide Shaped, FormedAt, OneRowEach, RequestsFit;
      TableCommitCounts(w, h);
    } else {
      hide HolderFits, NoRequests, Committed, OneRowEach, RequestsFit;
      OwnCommitKeepsNoRequests(w, h);
    }
  }

  lemma OtherKeepsNoRequests(w: World, cmd: Command)
    requires NoRequests(w) && Shaped(w) && Legal(w, cmd) && IsLifecycle(cmd)
    ensures NoRequests(Apply(w, cmd))
  {
    LifecycleKeepsAttendance(w, cmd);
    hide Apply, Shaped, Legal;
  }

  lemma LiveRowNeverRequested(w: World, step: Step)
    requires NoRequests(w) && step.RejectReads?
    ensures Look(w.rows, step.user).Some? ==> Rejected(Look(w.rows, step.user).value.row, w.session, step.actor).Err?
  {
    LiveRowIs(w.rows, step.user);
    hide LastWhere;
  }

  lemma StepKeepsNoRequests(sys: System, step: Step)
    requires SystemInv(sys) && NoRequests(sys.world) && sys.rejects == map[] && After(sys, step).Some?
    ensures NoRequests(After(sys, step).value.world) && After(sys, step).value.rejects == map[]
  {
    hide GoingIds, LastWhere, Look, Decide, IsNextInLine, Effected, CommitOf, Apply, Shaped, Legal, NoRequests,
         HolderFits, OneRowEach, RequestsFit, Participants;
    if step.Commit? {
      CommitKeepsNoRequests(sys.world, sys.holder);
    } else if step.OtherCommand? {
      OtherKeepsNoRequests(sys.world, step.other);
    } else if step.RejectReads? {
      LiveRowNeverRequested(sys.world, step);
    }
  }

  lemma {:induction false} NothingToReject(sys: System, steps: seq<Step>, sys': System)
    requires SystemInv(sys) && NoRequests(sys.world) && sys.rejects == map[] && Trace(sys, steps, sys')
    ensures AllTimely(sys, steps)
    decreases |steps|
  {
    hide SystemInv, NoRequests, After;
    if steps != [] {
      StepKeepsSystemInv(sys, steps[0]);
      StepKeepsNoRequests(sys, steps[0]);
      NothingToReject(After(sys, steps[0]).value, steps[1..], sys');
    }
  }

  /** Without approval there is nothing to reject, so every interleaving is a serial run. */
  lemma WithoutApprovalIsSerial(sys: System, steps: seq<Step>, sys': System) returns (cmds: seq<Command>)
    requires SystemInv(sys) && Inv(sys.world) && HolderExact(sys.world, sys.holder)
    requires NoRequests(sys.world) && sys.rejects == map[] && Trace(sys, steps, sys')
    ensures Inv(sys'.world) && RunsTo(sys.world, cmds, sys'.world)
  {
    hide *;
    NothingToReject(sys, steps, sys');
    cmds := TimelyRejectionsAreSerial(sys, steps, sys');
  }
}
