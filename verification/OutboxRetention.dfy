/** How long published and dead-lettered rows are kept (shared/domainevent/domain_event.go lines
    161-268 and shared/events/outbox_purger.go lines 99-138). A mark carries NOW(), which in a
    transaction is the moment it began, whenever the event itself went out. */
module OutboxRetention {
  import opened Sequences
  import opened Wrappers
  import opened OutboxTable
  import opened OutboxProtocol

  // ----- what the steps' own clocks say -----

  /** When each open batch began; when each event was last offered to the broker; and when the
      committed batch began that published it, or last refused it. */
  datatype Clocks = Clocks(
    began: map<nat, int>,
    offered: map<EventId, int>,
    published: map<EventId, int>,
    refused: map<EventId, int>)

  const NOTHING_NOTED: Clocks := Clocks(map[], map[], map[], map[])

  function BeganAt(k: Clocks, p: nat): int {
    if p in k.began then k.began[p] else 0
  }

  /** Noted from the step alone and whom the batch was offering, not from any row. */
  function Noted(k: Clocks, s: System, step: Step): Clocks {
    match step
    case OpenBatch(p, _, now) => k.(began := k.began[p := now])
    case Accept(p, now) => if InProgress(s, p) then k.(offered := k.offered[Offering(s, p) := now]) else k
    case Refuse(p, now) => if InProgress(s, p) then k.(offered := k.offered[Offering(s, p) := now]) else k
    case CommitBatch(p, _) =>
      if p !in s.batches then k
      else
        var b := s.batches[p];
        k.(published := k.published + map id | id in ToSet(b.ids) * b.accepted :: BeganAt(k, p),
           refused := k.refused + map id | id in ToSet(b.ids) - b.accepted :: BeganAt(k, p))
    case _ => k
  }

  function Offering(s: System, p: nat): EventId
    requires InProgress(s, p)
  {
    s.batches[p].ids[s.batches[p].done]
  }

  function NotedOver(c: Config, k: Clocks, s: System, steps: seq<Step>): Clocks
    requires AllEnabled(c, s, steps)
    decreases |steps|
  {
    if steps == [] then k else NotedOver(c, Noted(k, s, steps[0]), Apply(c, s, steps[0]), steps[1..])
  }

  // ----- every mark is its batch's beginning -----

  predicate BatchTimed(b: Batch, began: int) {
    && b.began == began
    && forall id :: id in b.marks ==>
         if id in b.accepted then b.marks[id].publishedAt == Some(began)
         else b.marks[id].failedAt.Some? ==> b.marks[id].failedAt == Some(began)
  }

  /** The row's instants are those noted. */
  predicate RowTimed(k: Clocks, row: Row, id: EventId) {
    && (row.publishedAt.Some? ==> id in k.published && row.publishedAt.value == k.published[id])
    && (row.failedAt.Some? ==> id in k.refused && row.failedAt.value == k.refused[id])
  }

  ghost predicate Timed(k: Clocks, s: System) {
    && (forall p :: p in s.batches ==> p in k.began && BatchTimed(s.batches[p], k.began[p]))
    && (forall id: EventId :: Known(s, id) ==> RowTimed(k, LastRow(s, id), id))
  }

  /** An open batch still offers one of its own rows, and it is pending. */
  lemma OfferingIs(c: Config, s: System, p: nat)
    requires Inv(c, s) && InProgress(s, p)
    ensures var id := Offering(s, p);
      id in s.rows && IsPending(s.rows[id]) && id !in s.purged && id !in s.batches[p].accepted
  {
    assert BatchInv(c, s, s.batches[p]);
    var b := s.batches[p];
    assert b.ids[b.done] in b.ids && b.ids[b.done] !in b.ids[..b.done];
    assert EventInv(c, s, b.ids[b.done]);
    hide MarkInv;
  }

  /** Offering an event touches no row, and one mark. */
  lemma OfferEffect(c: Config, s: System, step: Step)
    requires Enabled(c, s, step) && (step.Accept? || step.Refuse?) && Offering(s, step.publisher) in s.rows
    ensures var s', p, id := Apply(c, s, step), step.publisher, Offering(s, step.publisher);
      var b := s.batches[p];
      && s'.rows == s.rows && s'.purged == s.purged && s'.batches.Keys == s.batches.Keys
      && (forall q :: q in s.batches && q != p ==> s'.batches[q] == s.batches[q])
      && s'.batches[p].began == b.began
      && s'.batches[p].accepted == (if step.Accept? then b.accepted + {id} else b.accepted)
      && s'.batches[p].marks == b.marks[id := if step.Accept? then PublishedMark(s.rows[id], b.began)
                                              else FailedMark(s.rows[id], c.maxRetries, b.began)]
  {
  }

  lemma OfferNoted(k: Clocks, s: System, step: Step)
    requires (step.Accept? || step.Refuse?) && InProgress(s, step.publisher)
    ensures Noted(k, s, step) == k.(offered := k.offered[Offering(s, step.publisher) := step.now])
  {
  }

  lemma OneMoreMark(b: Batch, b': Batch, id: EventId, row: Row, accepted: bool, maxRetries: int)
    requires BatchTimed(b, b.began) && id !in b.accepted && b'.began == b.began && IsPending(row)
    requires b'.accepted == if accepted then b.accepted + {id} else b.accepted
    requires b'.marks == b.marks[id := if accepted then PublishedMark(row, b.began)
                                       else FailedMark(row, maxRetries, b.began)]
    ensures BatchTimed(b', b.began)
  {
  }

  lemma OfferKeepsTimed(c: Config, k: Clocks, s: System, step: Step)
    requires Inv(c, s) && Timed(k, s) && Enabled(c, s, step) && (step.Accept? || step.Refuse?)
    ensures Timed(Noted(k, s, step), Apply(c, s, step))
  {
    var p, k', s' := step.publisher, Noted(k, s, step), Apply(c, s, step);
    OfferingIs(c, s, p);
    OfferNoted(k, s, step);
    OfferEffect(c, s, step);
    var id := Offering(s, p);
    hide Inv, Enabled, Apply, Noted, Offering, PublishedMark, FailedMark, BatchTimed;
    OneMoreMark(s.batches[p], s'.batches[p], id, s.rows[id], step.Accept?, c.maxRetries);
    hide IsPending;
    SameRowsTimed(k, s, k', s');
  }

  lemma SameRowsTimed(k: Clocks, s: System, k': Clocks, s': System)
    requires Timed(k, s) && s'.rows == s.rows && s'.purged == s.purged
    requires k'.published == k.published && k'.refused == k.refused
    requires forall p :: p in s'.batches ==> p in k'.began && BatchTimed(s'.batches[p], k'.began[p])
    ensures Timed(k', s')
  {
    hide BatchTimed;
    forall id: EventId | Known(s', id) ensures RowTimed(k', LastRow(s', id), id) {
      assert Known(s, id) && RowTimed(k, LastRow(s, id), id);
    }
  }

  /** A committed row is its mark, and a mark settles it or counts one more refusal. */
  lemma CommitEffect(c: Config, s: System, p: nat, now: int, id: EventId)
    requires Inv(c, s) && Enabled(c, s, CommitBatch(p, now)) && Known(Apply(c, s, CommitBatch(p, now)), id)
    ensures Known(s, id)
    ensures var s', b := Apply(c, s, CommitBatch(p, now)), s.batches[p];
      && s'.batches == s.batches - {p} && b.marks.Keys == ToSet(b.ids)
      && (id !in b.marks ==> LastRow(s', id) == LastRow(s, id))
      && (id in b.marks ==>
            && id in s.rows && IsPending(s.rows[id]) && LastRow(s', id) == b.marks[id]
            && (if id in b.accepted then b.marks[id].failedAt.None? else b.marks[id].publishedAt.None?))
  {
    var b := s.batches[p];
    assert BatchInv(c, s, b);
    assert b.ids[..b.done] == b.ids;
    assert id in b.marks ==> MarkInv(c, s.rows[id], b.marks[id], id in b.accepted, s.refused[id]);
    hide EventInv, Exclusive, Distinct;
  }

  lemma CommitNoted(k: Clocks, s: System, p: nat, now: int, id: EventId)
    requires p in s.batches && p in k.began
    ensures var k', b := Noted(k, s, CommitBatch(p, now)), s.batches[p];
      && k'.began == k.began && k'.offered == k.offered
      && (if id in ToSet(b.ids) && id in b.accepted then id in k'.published && k'.published[id] == k.began[p]
          else (id in k.published ==> id in k'.published && k'.published[id] == k.published[id]))
      && (if id in ToSet(b.ids) && id !in b.accepted then id in k'.refused && k'.refused[id] == k.began[p]
          else (id in k.refused ==> id in k'.refused && k'.refused[id] == k.refused[id]))
  {
    hide ToSet;
  }

  lemma CommittedRowTimed(c: Config, k: Clocks, s: System, p: nat, now: int, id: EventId)
    requires Inv(c, s) && Timed(k, s) && Enabled(c, s, CommitBatch(p, now))
    requires Known(Apply(c, s, CommitBatch(p, now)), id)
    ensures RowTimed(Noted(k, s, CommitBatch(p, now)), LastRow(Apply(c, s, CommitBatch(p, now)), id), id)
  {
    CommitEffect(c, s, p, now, id);
    assert p in k.began && BatchTimed(s.batches[p], k.began[p]) && RowTimed(k, LastRow(s, id), id);
    hide Inv, Timed, Apply, Enabled, Noted, ToSet, Known;
    CommitNoted(k, s, p, now, id);
  }

  lemma CommitKeepsTimed(c: Config, k: Clocks, s: System, p: nat, now: int)
    requires Inv(c, s) && Timed(k, s) && Enabled(c, s, CommitBatch(p, now))
    ensures Timed(Noted(k, s, CommitBatch(p, now)), Apply(c, s, CommitBatch(p, now)))
  {
    var step := CommitBatch(p, now);
    var k', s' := Noted(k, s, step), Apply(c, s, step);
    assert s'.batches == s.batches - {p};
    assert p in s.batches && p in k.began;
    CommitNoted(k, s, p, now, 0);
    hide Inv, Apply, Enabled, Noted, BatchTimed, RowTimed, LastRow, Known;
    forall id: EventId | Known(s', id) ensures RowTimed(k', LastRow(s', id), id) {
      CommittedRowTimed(c, k, s, p, now, id);
    }
  }

  lemma StepKeepsTimed(c: Config, k: Clocks, s: System, step: Step)
    requires Inv(c, s) && Timed(k, s) && Enabled(c, s, step)
    ensures Timed(Noted(k, s, step), Apply(c, s, step))
  {
    if step.Accept? || step.Refuse? {
      OfferKeepsTimed(c, k, s, step);
    } else if step.CommitBatch? {
      CommitKeepsTimed(c, k, s, step.publisher, step.now);
    } else {
      var k', s' := Noted(k, s, step), Apply(c, s, step);
      assert Shape(s);
      hide Inv, IsOldestBatch, Locked, Purgeable;
      forall id: EventId | Known(s', id) ensures RowTimed(k', LastRow(s', id), id) {
        if Known(s, id) { assert RowTimed(k, LastRow(s, id), id); }
      }
      forall q | q in s'.batches ensures q in k'.began && BatchTimed(s'.batches[q], k'.began[q]) {
        if q in s.batches { assert BatchTimed(s.batches[q], k.began[q]); }
      }
    }
  }

  lemma {:induction false} RunKeepsTimed(c: Config, k: Clocks, s: System, steps: seq<Step>)
    requires Inv(c, s) && Timed(k, s) && AllEnabled(c, s, steps)
    ensures Inv(c, After(c, s, steps)) && Timed(NotedOver(c, k, s, steps), After(c, s, steps))
    decreases |steps|
  {
    hide Apply, Inv, Enabled, Timed, Noted;
    if steps != [] {
      StepKeepsInv(c, s, steps[0]);
      StepKeepsTimed(c, k, s, steps[0]);
      RunKeepsTimed(c, Noted(k, s, steps[0]), Apply(c, s, steps[0]), steps[1..]);
    }
  }

  /** Over every run a published row carries the moment the batch began that published it, and a
      dead-lettered row the moment the batch began that refused it last. */
  lemma RowsCarryTheirBatchesClock(c: Config, steps: seq<Step>, id: EventId)
    requires AllEnabled(c, Empty, steps) && Known(After(c, Empty, steps), id)
    ensures var row, k := LastRow(After(c, Empty, steps), id), NotedOver(c, NOTHING_NOTED, Empty, steps);
      && (row.publishedAt.Some? ==> id in k.published && row.publishedAt == Some(k.published[id]))
      && (row.failedAt.Some? ==> id in k.refused && row.failedAt == Some(k.refused[id]))
  {
    hide Apply, Enabled, Noted;
    RunKeepsTimed(c, NOTHING_NOTED, Empty, steps);
  }

  /** Over every run a purge removes a row only if the batch that published it, or refused it last,
      began longer ago than the retention. */
  lemma PurgedAfterRetention(c: Config, steps: seq<Step>, kind: PurgeKind, now: int, retention: nat,
                             gone: set<EventId>, id: EventId)
    requires AllEnabled(c, Empty, steps) && id in gone
    requires Enabled(c, After(c, Empty, steps), Purge(kind, now, retention, gone))
    ensures var k := NotedOver(c, NOTHING_NOTED, Empty, steps);
      match kind
      case PublishedRows => id in k.published && k.published[id] < now - retention
      case DeadLetteredRows => id in k.refused && k.refused[id] < now - retention
  {
    var s := After(c, Empty, steps);
    assert id in Purgeable(kind, s.rows, Locked(s), now - retention);
    hide After, AllEnabled, NotedOver, Locked;
    RowsCarryTheirBatchesClock(c, steps, id);
  }

  // ----- and from the moment the event went out -----

  /** The step's own clock, if it has one. */
  function ClockOf(step: Step): Option<int> {
    match step
    case OpenBatch(_, _, now) => Some(now)
    case Accept(_, now) => Some(now)
    case Refuse(_, now) => Some(now)
    case CommitBatch(_, now) => Some(now)
    case Purge(_, now, _, _) => Some(now)
    case _ => None
  }

  /** Clocks never run backwards, and no batch is committed more than `longest` after it began. */
  predicate Punctual(c: Config, k: Clocks, s: System, steps: seq<Step>, from: int, longest: nat)
    requires AllEnabled(c, s, steps)
    decreases |steps|
  {
    steps == [] ||
    (&& (ClockOf(steps[0]).Some? ==> from <= ClockOf(steps[0]).value)
     && (steps[0].CommitBatch? ==> steps[0].now <= BeganAt(k, steps[0].publisher) + longest)
     && Punctual(c, Noted(k, s, steps[0]), Apply(c, s, steps[0]), steps[1..],
                 if ClockOf(steps[0]).Some? then ClockOf(steps[0]).value else from, longest))
  }

  predicate OfferedBy(k: Clocks, id: EventId, now: int) {
    id in k.offered && k.offered[id] <= now
  }

  /** A settled row was offered not long after its batch began. */
  predicate SettledInTime(k: Clocks, row: Row, id: EventId, longest: nat) {
    && (row.publishedAt.Some? ==> id in k.published && OfferedBy(k, id, k.published[id] + longest))
    && (row.failedAt.Some? ==> id in k.refused && OfferedBy(k, id, k.refused[id] + longest))
  }

  ghost predicate OfferedInTime(k: Clocks, s: System, now: int, longest: nat) {
    && (forall p, id: EventId :: p in s.batches && id in s.batches[p].marks ==> OfferedBy(k, id, now))
    && (forall id: EventId :: Known(s, id) ==> SettledInTime(k, LastRow(s, id), id, longest))
  }

  lemma OfferStaysInTime(c: Config, k: Clocks, s: System, step: Step, from: int, longest: nat)
    requires Inv(c, s) && Enabled(c, s, step) && OfferedInTime(k, s, from, longest)
    requires (step.Accept? || step.Refuse?) && from <= step.now
    ensures OfferedInTime(Noted(k, s, step), Apply(c, s, step), step.now, longest)
  {
    var p, k', s' := step.publisher, Noted(k, s, step), Apply(c, s, step);
    OfferingIs(c, s, p);
    OfferNoted(k, s, step);
    OfferEffect(c, s, step);
    var sent := Offering(s, p);
    hide Inv, Enabled, Apply, Noted, Offering, PublishedMark, FailedMark;
    assert OfferedBy(k', sent, step.now);
    forall q, id: EventId | q in s'.batches && id in s'.batches[q].marks ensures OfferedBy(k', id, step.now) {
      if id != sent {
        assert q in s.batches && id in s.batches[q].marks;
        assert OfferedBy(k, id, from);
      }
    }
    hide OfferedBy, SettledInTime;
    assert k' == k.(offered := k.offered[sent := step.now]);
    OfferSettlesNothing(k, k', s, s', sent, step.now, longest);
  }

  lemma OfferSettlesNothing(k: Clocks, k': Clocks, s: System, s': System, sent: EventId, now: int, longest: nat)
    requires s'.rows == s.rows && s'.purged == s.purged && sent in s.rows && IsPending(s.rows[sent])
    requires sent !in s.purged && k' == k.(offered := k.offered[sent := now])
    requires forall id: EventId :: Known(s, id) ==> SettledInTime(k, LastRow(s, id), id, longest)
    ensures forall id: EventId :: Known(s', id) ==> SettledInTime(k', LastRow(s', id), id, longest)
  {
    hide SettledInTime, IsPending;
    forall id: EventId | Known(s', id) ensures SettledInTime(k', LastRow(s', id), id, longest) {
      SettledStays(k, k', LastRow(s, id), id, sent, now, longest);
    }
  }

  /** Only a pending event is offered. */
  lemma SettledStays(k: Clocks, k': Clocks, row: Row, id: EventId, sent: EventId, now: int, longest: nat)
    requires SettledInTime(k, row, id, longest) && k' == k.(offered := k.offered[sent := now])
    requires id == sent ==> IsPending(row)
    ensures SettledInTime(k', row, id, longest)
  {
  }

  lemma CommittedRowInTime(c: Config, k: Clocks, s: System, p: nat, now: int, id: EventId, from: int, longest: nat)
    requires Inv(c, s) && Enabled(c, s, CommitBatch(p, now)) && OfferedInTime(k, s, from, longest)
    requires p in k.began && from <= now <= k.began[p] + longest && Known(Apply(c, s, CommitBatch(p, now)), id)
    ensures SettledInTime(Noted(k, s, CommitBatch(p, now)), LastRow(Apply(c, s, CommitBatch(p, now)), id), id, longest)
  {
    CommitEffect(c, s, p, now, id);
    var b := s.batches[p];
    assert SettledInTime(k, LastRow(s, id), id, longest);
    assert id in b.marks ==> OfferedBy(k, id, from);
    hide Inv, OfferedInTime, Apply, Enabled, Noted, ToSet, Known;
    CommitNoted(k, s, p, now, id);
  }

  lemma CommitStaysInTime(c: Config, k: Clocks, s: System, p: nat, now: int, from: int, longest: nat)
    requires Inv(c, s) && Enabled(c, s, CommitBatch(p, now)) && OfferedInTime(k, s, from, longest)
    requires p in k.began && from <= now <= k.began[p] + longest
    ensures OfferedInTime(Noted(k, s, CommitBatch(p, now)), Apply(c, s, CommitBatch(p, now)), now, longest)
  {
    var step := CommitBatch(p, now);
    var k', s' := Noted(k, s, step), Apply(c, s, step);
    assert s'.batches == s.batches - {p};
    CommitNoted(k, s, p, now, 0);
    hide Inv, Apply, Enabled, Noted, SettledInTime, LastRow, Known;
    forall id: EventId | Known(s', id) ensures SettledInTime(k', LastRow(s', id), id, longest) {
      CommittedRowInTime(c, k, s, p, now, id, from, longest);
    }
    forall q, id: EventId | q in s'.batches && id in s'.batches[q].marks ensures OfferedBy(k', id, now) {
      assert OfferedBy(k, id, from);
    }
  }

  /** The other steps settle nothing. */
  lemma OthersSettleNothing(c: Config, s: System, step: Step, id: EventId)
    requires Inv(c, s) && Enabled(c, s, step) && !step.Accept? && !step.Refuse? && !step.CommitBatch?
    requires Known(Apply(c, s, step), id)
    ensures Known(s, id) ==> LastRow(Apply(c, s, step), id) == LastRow(s, id)
    ensures !Known(s, id) ==> IsPending(LastRow(Apply(c, s, step), id))
  {
    assert Shape(s);
    if id in s.rows { assert EventInv(c, s, id); }
    hide IsOldestBatch, Locked, BatchInv, Exclusive;
  }

  lemma OthersOpenNoMark(c: Config, s: System, step: Step)
    requires Enabled(c, s, step) && !step.Accept? && !step.Refuse? && !step.CommitBatch?
    ensures forall q, id: EventId :: q in Apply(c, s, step).batches && id in Apply(c, s, step).batches[q].marks ==>
      q in s.batches && id in s.batches[q].marks
  {
    hide IsOldestBatch, Locked;
  }

  lemma OthersStayInTime(c: Config, k: Clocks, s: System, step: Step, from: int, now: int, longest: nat)
    requires Inv(c, s) && Enabled(c, s, step) && OfferedInTime(k, s, from, longest) && from <= now
    requires !step.Accept? && !step.Refuse? && !step.CommitBatch?
    ensures OfferedInTime(Noted(k, s, step), Apply(c, s, step), now, longest)
  {
    var k', s' := Noted(k, s, step), Apply(c, s, step);
    assert k'.offered == k.offered && k'.published == k.published && k'.refused == k.refused;
    OthersOpenNoMark(c, s, step);
    hide Inv, Apply, Enabled, Noted;
    forall id: EventId | Known(s', id) ensures SettledInTime(k', LastRow(s', id), id, longest) {
      OthersSettleNothing(c, s, step, id);
      if Known(s, id) { assert SettledInTime(k, LastRow(s, id), id, longest); }
    }
    forall q, id: EventId | q in s'.batches && id in s'.batches[q].marks ensures OfferedBy(k', id, now) {
      assert OfferedBy(k, id, from);
    }
  }

  lemma StepKeepsOffered(c: Config, k: Clocks, s: System, step: Step, from: int, longest: nat)
    requires Inv(c, s) && Timed(k, s) && Enabled(c, s, step) && OfferedInTime(k, s, from, longest)
    requires ClockOf(step).Some? ==> from <= ClockOf(step).value
    requires step.CommitBatch? ==> step.now <= BeganAt(k, step.publisher) + longest
    ensures OfferedInTime(Noted(k, s, step), Apply(c, s, step),
                          if ClockOf(step).Some? then ClockOf(step).value else from, longest)
  {
    assert step.CommitBatch? ==> step.publisher in k.began;
    hide Inv, Timed, Enabled, Apply, Noted, OfferedInTime;
    if step.Accept? || step.Refuse? {
      OfferStaysInTime(c, k, s, step, from, longest);
    } else if step.CommitBatch? {
      CommitStaysInTime(c, k, s, step.publisher, step.now, from, longest);
    } else {
      OthersStayInTime(c, k, s, step, from, if ClockOf(step).Some? then ClockOf(step).value else from, longest);
    }
  }

  lemma {:induction false} RunKeepsOffered(c: Config, k: Clocks, s: System, steps: seq<Step>, from: int, longest: nat)
    returns (now: int)
    requires Inv(c, s) && Timed(k, s) && AllEnabled(c, s, steps) && OfferedInTime(k, s, from, longest)
    requires Punctual(c, k, s, steps, from, longest)
    ensures OfferedInTime(NotedOver(c, k, s, steps), After(c, s, steps), now, longest)
    decreases |steps|
  {
    hide Apply, Inv, Enabled, Timed, Noted, OfferedInTime;
    now := from;
    if steps != [] {
      StepKeepsInv(c, s, steps[0]);
      StepKeepsOffered(c, k, s, steps[0], from, longest);
      StepKeepsTimed(c, k, s, steps[0]);
      now := RunKeepsOffered(c, Noted(k, s, steps[0]), Apply(c, s, steps[0]), steps[1..],
        if ClockOf(steps[0]).Some? then ClockOf(steps[0]).value else from, longest);
    }
  }

  /** With a clock that never runs backwards and batches that take at most `longest`, a row is purged
      only if its event went out to the broker, or was last refused by it, longer ago than the
      retention less that. */
  lemma KeptSinceOffered(c: Config, steps: seq<Step>, start: int, longest: nat, kind: PurgeKind, now: int,
                         retention: nat, gone: set<EventId>, id: EventId)
    requires AllEnabled(c, Empty, steps) && id in gone && Punctual(c, NOTHING_NOTED, Empty, steps, start, longest)
    requires Enabled(c, After(c, Empty, steps), Purge(kind, now, retention, gone))
    ensures var k := NotedOver(c, NOTHING_NOTED, Empty, steps);
      id in k.offered && k.offered[id] < now - retention + longest
  {
    var s := After(c, Empty, steps);
    assert id in Purgeable(kind, s.rows, Locked(s), now - retention);
    hide After, AllEnabled, NotedOver, Locked, Punctual;
    PurgedAfterRetention(c, steps, kind, now, retention, gone, id);
    var end := RunKeepsOffered(c, NOTHING_NOTED, Empty, steps, start, longest);
    assert SettledInTime(NotedOver(c, NOTHING_NOTED, Empty, steps), LastRow(s, id), id, longest);
  }

  const ONE_AT_ONCE: Config := Config(1, 1)

  /** One event is committed at 0, its batch begins at 0 and goes on until 100. */
  function SlowBatch(published: bool): System {
    System(map[0 := Row(0, if published then Some(0) else None, None, 0)], map[], 1, map[], if published then [0]
      else [],
           [0], [0])
  }

  lemma OneStepOn(c: Config, k: Clocks, s: System, step: Step, s1: System, k1: Clocks, rest: seq<Step>)
    requires Enabled(c, s, step) && Apply(c, s, step) == s1 && Noted(k, s, step) == k1 && AllEnabled(c, s1, rest)
    ensures AllEnabled(c, s, [step] + rest)
    ensures After(c, s, [step] + rest) == After(c, s1, rest)
    ensures NotedOver(c, k, s, [step] + rest) == NotedOver(c, k1, s1, rest)
  {
    hide Apply, Enabled, Noted;
    assert ([step] + rest)[1..] == rest;
  }

  /** The bound is no better: of a batch that took 100, a purge at 101 with a retention of 50 removes
      a row whose event went out a moment ago. */
  lemma SlowBatchCutsRetentionShort() returns (steps: seq<Step>)
    ensures AllEnabled(ONE_AT_ONCE, Empty, steps)
    ensures Enabled(ONE_AT_ONCE, After(ONE_AT_ONCE, Empty, steps), Purge(PublishedRows, 101, 50, {0}))
    ensures NotedOver(ONE_AT_ONCE, NOTHING_NOTED, Empty, steps).offered == map[0 := 100]
  {
    var c := ONE_AT_ONCE;
    var s1, s4 := SlowBatch(false), SlowBatch(true);
    var mark := Row(0, Some(0), None, 0);
    var s2 := s1.(batches := map[0 := Batch([0], 0, 0, map[], {})]);
    var s3 := s1.(batches := map[0 := Batch([0], 0, 1, map[0 := mark], {0})], log := [0]);
    var k2 := NOTHING_NOTED.(began := map[0 := 0]);
    var k3 := k2.(offered := map[0 := 100]);
    var k4 := Noted(k3, s3, CommitBatch(0, 100));
    Opens(s1, s2);
    Commits(s3, s4);
    Accepts(s2, s3);
    hide IsOldestBatch, Locked, Apply, Enabled;
    OneStepOn(c, k3, s3, CommitBatch(0, 100), s4, k4, []);
    OneStepOn(c, k2, s2, Accept(0, 100), s3, k3, [CommitBatch(0, 100)] + []);
    OneStepOn(c, NOTHING_NOTED, s1, OpenBatch(0, [0], 0), s2, k2, [Accept(0, 100)] + ([CommitBatch(0, 100)] + []));
    steps := [CommitEvent(0)] + ([OpenBatch(0, [0], 0)] + ([Accept(0, 100)] + ([CommitBatch(0, 100)] + [])));
    OneStepOn(c, NOTHING_NOTED, Empty, CommitEvent(0), s1, NOTHING_NOTED,
      [OpenBatch(0, [0], 0)] + ([Accept(0, 100)] + ([CommitBatch(0, 100)] + [])));
    assert After(c, s4, []) == s4;
    NobodyHolds(s4);
  }

  lemma Opens(s1: System, s2: System)
    requires s1 == SlowBatch(false) && s2 == s1.(batches := map[0 := Batch([0], 0, 0, map[], {})])
    ensures Enabled(ONE_AT_ONCE, s1, OpenBatch(0, [0], 0)) && Apply(ONE_AT_ONCE, s1, OpenBatch(0, [0], 0)) == s2
  {
    NobodyHolds(s1);
    hide Locked;
    assert Readable(s1.rows, {}, 0);
  }

  lemma Accepts(s2: System, s3: System)
    requires s2 == SlowBatch(false).(batches := map[0 := Batch([0], 0, 0, map[], {})])
    requires s3 == SlowBatch(false).(batches := map[0 := Batch([0], 0, 1, map[0 := Row(0, Some(0), None, 0)], {0})],
                                     log := [0])
    ensures Enabled(ONE_AT_ONCE, s2, Accept(0, 100)) && Apply(ONE_AT_ONCE, s2, Accept(0, 100)) == s3
  {
    var s' := Apply(ONE_AT_ONCE, s2, Accept(0, 100));
    assert s'.log == [0];
    assert s'.batches[0].marks == map[0 := Row(0, Some(0), None, 0)] && s'.batches[0].accepted == {0};
    assert s'.batches == s3.batches;
  }

  lemma NobodyHolds(s: System)
    requires s.batches == map[]
    ensures Locked(s) == {}
  {
  }

  lemma Commits(s3: System, s4: System)
    requires s4 == SlowBatch(true)
    requires s3 == SlowBatch(false).(batches := map[0 := Batch([0], 0, 1, map[0 := Row(0, Some(0), None, 0)], {0})],
                                     log := [0])
    ensures Enabled(ONE_AT_ONCE, s3, CommitBatch(0, 100)) && Apply(ONE_AT_ONCE, s3, CommitBatch(0, 100)) == s4
  {
    assert s3.batches - {0} == map[];
    assert s3.rows + s3.batches[0].marks == s4.rows;
  }
}
