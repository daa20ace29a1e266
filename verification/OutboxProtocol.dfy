/** Many publishers and purgers over one outbox table, step by step: what survives every
    interleaving, every broker refusal and every rollback. Rows and marks are those of module
    OutboxTable. */
module OutboxProtocol {
  import opened Sequences
  import opened Wrappers
  import opened OutboxTable

  /** An open publishing transaction: the rows it holds, the clock when it began - which is what
      NOW() is until it ends -, how far it is through them, the marks it will commit, and which of
      its events the broker accepted. */
  datatype Batch = Batch(ids: seq<EventId>, began: int, done: nat, marks: Rows, accepted: set<EventId>)

  /** rows is the committed table. The rest is history: every committed event is below `next`;
      purged keeps the last version of deleted rows; log is what the broker accepted; refused
      counts an event's failed publishes, rolledBack the rollbacks that undid an accepted one. */
  datatype System = System(
    rows: Rows,
    batches: map<nat, Batch>,
    next: nat,
    purged: Rows,
    log: seq<EventId>,
    refused: seq<nat>,
    rolledBack: seq<nat>)

  datatype Config = Config(readLimit: nat, maxRetries: int)

  datatype Step =
    | CommitEvent(createdAt: int)
    | OpenBatch(publisher: nat, ids: seq<EventId>, now: int)
    | Accept(publisher: nat, now: int)
    | Refuse(publisher: nat, now: int)
    | CommitBatch(publisher: nat, now: int)
    | Rollback(publisher: nat)
    | Purge(kind: PurgeKind, now: int, retention: nat, gone: set<EventId>)

  const Empty := System(map[], map[], 0, map[], [], [], [])

  function Locked(s: System): set<EventId> {
    set p, id | p in s.batches && id in s.batches[p].ids :: id
  }

  predicate InProgress(s: System, p: nat) {
    p in s.batches && s.batches[p].done < |s.batches[p].ids|
  }

  predicate Enabled(c: Config, s: System, step: Step) {
    match step
    case CommitEvent(_) => true
    case OpenBatch(p, ids, _) => p !in s.batches && IsOldestBatch(s.rows, Locked(s), c.readLimit, ids)
    case Accept(p, _) => InProgress(s, p)
    case Refuse(p, _) => InProgress(s, p)
    case CommitBatch(p, _) => p in s.batches && s.batches[p].done == |s.batches[p].ids|
    case Rollback(p) => p in s.batches
    case Purge(kind, now, retention, gone) => gone <= Purgeable(kind, s.rows, Locked(s), now - retention)
  }

  function Apply(c: Config, s: System, step: Step): System
    requires Enabled(c, s, step)
  {
    match step
    case CommitEvent(createdAt) =>
      s.(rows := s.rows[s.next := Row(createdAt, None, None, 0)], next := s.next + 1,
         refused := s.refused + [0], rolledBack := s.rolledBack + [0])
    case OpenBatch(p, ids, now) => s.(batches := s.batches[p := Batch(ids, now, 0, map[], {})])
    case Accept(p, _) =>
      var b := s.batches[p];
      var id := b.ids[b.done];
      s.(log := s.log + [id],
         batches := s.batches[p := b.(done := b.done + 1, accepted := b.accepted + {id},
           marks := if id in s.rows then b.marks[id := PublishedMark(s.rows[id], b.began)] else b.marks)])
    case Refuse(p, _) =>
      var b := s.batches[p];
      var id := b.ids[b.done];
      s.(refused := if id < |s.refused| then s.refused[id := s.refused[id] + 1] else s.refused,
         batches := s.batches[p := b.(done := b.done + 1,
           marks := if id in s.rows then b.marks[id := FailedMark(s.rows[id], c.maxRetries, b.began)] else b.marks)])
    case CommitBatch(p, _) => s.(rows := s.rows + s.batches[p].marks, batches := s.batches - {p})
    case Rollback(p) =>
      s.(batches := s.batches - {p},
         rolledBack := seq(|s.rolledBack|, i requires 0 <= i < |s.rolledBack| =>
           s.rolledBack[i] + if i in s.batches[p].accepted then 1 else 0))
    case Purge(_, _, _, gone) =>
      s.(rows := s.rows - gone, purged := s.purged + map id | id in gone && id in s.rows :: s.rows[id])
  }

  predicate AllEnabled(c: Config, s: System, steps: seq<Step>)
    decreases |steps|
  {
    steps == [] || (Enabled(c, s, steps[0]) && AllEnabled(c, Apply(c, s, steps[0]), steps[1..]))
  }

  function After(c: Config, s: System, steps: seq<Step>): System
    requires AllEnabled(c, s, steps)
    decreases |steps|
  {
    if steps == [] then s else After(c, Apply(c, s, steps[0]), steps[1..])
  }

  // ----- the invariant -----

  /** The last known version of a committed event's row. */
  predicate Known(s: System, id: EventId) {
    id in s.rows || id in s.purged
  }

  function LastRow(s: System, id: EventId): Row
    requires Known(s, id)
  {
    if id in s.rows then s.rows[id] else s.purged[id]
  }

  /** How many retries dead-letter an event: the first refusal always counts. */
  function Cap(c: Config): int {
    if c.maxRetries < 1 then 1 else c.maxRetries
  }

  predicate RowInv(c: Config, row: Row) {
    && !(row.publishedAt.Some? && row.failedAt.Some?)
    && (row.failedAt.Some? <==> row.retryCount >= Cap(c))
  }

  /** A mark waiting to be committed: the row's own columns but for what the publish changed. */
  predicate MarkInv(c: Config, row: Row, mark: Row, accepted: bool, refused: nat) {
    if accepted
    then mark.publishedAt.Some? && mark == row.(publishedAt := mark.publishedAt)
    else && mark == row.(retryCount := row.retryCount + 1, failedAt := mark.failedAt)
         && (mark.failedAt.Some? <==> mark.retryCount >= Cap(c))
         && mark.retryCount <= refused
  }

  predicate BatchInv(c: Config, s: System, b: Batch) {
    && Distinct(b.ids) && b.done <= |b.ids|
    && (forall id :: id in b.ids ==> id in s.rows && id < |s.refused| && IsPending(s.rows[id]))
    && b.accepted <= b.marks.Keys == ToSet(b.ids[..b.done])
    && forall id :: id in b.marks ==>
         id in b.ids && MarkInv(c, s.rows[id], b.marks[id], id in b.accepted, s.refused[id])
  }

  predicate Exclusive(s: System) {
    forall p, q :: p in s.batches && q in s.batches && p != q ==>
      forall id :: id in s.batches[p].ids ==> id !in s.batches[q].ids
  }

  /** The broker accepted the event for a batch still open. */
  predicate AcceptedOpen(batches: map<nat, Batch>, id: EventId) {
    exists p :: p in batches && id in batches[p].accepted
  }

  function One(b: bool): nat {
    if b then 1 else 0
  }

  /** One committed event: its row is in one piece, no refusal is forgotten, it was purged only
      when done with, and every copy the broker has of it is accounted for. */
  predicate EventInv(c: Config, s: System, id: EventId)
    requires id < |s.refused| && id < |s.rolledBack|
  {
    && Known(s, id)
    && RowInv(c, LastRow(s, id))
    && LastRow(s, id).retryCount <= s.refused[id]
    && (id in s.purged ==> id !in s.rows && !IsPending(s.purged[id]))
    && multiset(s.log)[id]
       == s.rolledBack[id] + One(LastRow(s, id).publishedAt.Some?) + One(AcceptedOpen(s.batches, id))
  }

  predicate Shape(s: System) {
    && |s.refused| == |s.rolledBack| == s.next
    && (forall id :: id in s.rows ==> id < s.next)
    && (forall id :: id in s.purged ==> id < s.next)
    && (forall id :: id in s.log ==> id < s.next)
  }

  predicate Inv(c: Config, s: System) {
    && Shape(s)
    && (forall id: EventId :: 0 <= id < s.next ==> EventInv(c, s, id))
    && (forall p :: p in s.batches ==> BatchInv(c, s, s.batches[p]))
    && Exclusive(s)
  }

  // ----- every step keeps it -----

  lemma CommitEventKeepsInv(c: Config, s: System, createdAt: int)
    requires Inv(c, s)
    ensures Inv(c, Apply(c, s, CommitEvent(createdAt)))
  {
    var s' := Apply(c, s, CommitEvent(createdAt));
    forall id: EventId | 0 <= id < s'.next
      ensures EventInv(c, s', id)
    {
      if id < s.next {
        assert EventInv(c, s, id);
      } else {
        assert id !in s.log && !AcceptedOpen(s.batches, id) && id !in s.purged;
      }
    }
    forall p | p in s'.batches ensures BatchInv(c, s', s'.batches[p]) {
      assert BatchInv(c, s, s.batches[p]);
    }
  }

  lemma UnlockedBatch(c: Config, s: System, ids: seq<EventId>)
    requires IsOldestBatch(s.rows, Locked(s), c.readLimit, ids)
    ensures Distinct(ids)
    ensures forall id :: id in ids ==> id in s.rows && IsPending(s.rows[id])
    ensures forall id, p :: id in ids && p in s.batches ==> id !in s.batches[p].ids
  {
    forall id | id in ids
      ensures Readable(s.rows, Locked(s), id)
    {
      var i :| 0 <= i < |ids| && ids[i] == id;
    }
  }

  lemma OpenBatchKeepsInv(c: Config, s: System, p: nat, ids: seq<EventId>, now: int)
    requires Inv(c, s) && Enabled(c, s, OpenBatch(p, ids, now))
    ensures Inv(c, Apply(c, s, OpenBatch(p, ids, now)))
  {
    var s' := Apply(c, s, OpenBatch(p, ids, now));
    OpenedBatchHolds(c, s, p, ids, now);
    hide IsOldestBatch, Locked, BatchInv;
    forall id: EventId | 0 <= id < s'.next
      ensures EventInv(c, s', id)
    {
      assert EventInv(c, s, id);
      AcceptedAfter(s.batches, p, s'.batches[p], id);
    }
  }

  lemma OpenedBatchHolds(c: Config, s: System, p: nat, ids: seq<EventId>, now: int)
    requires Inv(c, s) && Enabled(c, s, OpenBatch(p, ids, now))
    ensures var s' := Apply(c, s, OpenBatch(p, ids, now));
            Exclusive(s') && forall q :: q in s'.batches ==> BatchInv(c, s', s'.batches[q])
  {
    var s' := Apply(c, s, OpenBatch(p, ids, now));
    UnlockedBatch(c, s, ids);
    hide IsOldestBatch, Locked, EventInv;
    forall q | q in s'.batches ensures BatchInv(c, s', s'.batches[q]) {
      if q == p {
        assert ids[..0] == [];
      } else {
        BatchUnmoved(c, s, s', s.batches[q]);
      }
    }
  }

  /** What an accepted or refused publish does to its own batch. */
  lemma BatchGoesOn(c: Config, s: System, b: Batch, mark: Row, accepted: bool, refused: seq<nat>)
    requires BatchInv(c, s, b) && b.done < |b.ids| && |refused| == |s.refused|
    requires forall id: EventId :: 0 <= id < |refused| ==> s.refused[id] <= refused[id]
    requires var id := b.ids[b.done]; MarkInv(c, s.rows[id], mark, accepted, refused[id])
    ensures var id := b.ids[b.done];
            id !in b.marks && BatchInv(c, s.(refused := refused), Batch(b.ids, b.began, b.done + 1, b.marks[id := mark],
              if accepted then b.accepted + {id} else b.accepted))
  {
    var id := b.ids[b.done];
    assert id !in b.ids[..b.done];
    assert b.ids[..b.done + 1] == b.ids[..b.done] + [id];
    assert ToSet(b.ids[..b.done + 1]) == ToSet(b.ids[..b.done]) + {id};
    assert id !in b.marks;
    forall x | x in b.marks
      ensures MarkInv(c, s.rows[x], b.marks[x], x in b.accepted, refused[x])
    {
      MarkStillHolds(c, s.rows[x], b.marks[x], x in b.accepted, s.refused[x], refused[x]);
    }
    hide MarkInv, ToSet, Distinct;
  }

  lemma MarkStillHolds(c: Config, row: Row, mark: Row, accepted: bool, refused: nat, more: nat)
    requires MarkInv(c, row, mark, accepted, refused) && refused <= more
    ensures MarkInv(c, row, mark, accepted, more)
  {
  }

  lemma BatchUnmoved(c: Config, s: System, t: System, b: Batch)
    requires BatchInv(c, s, b)
    requires |t.refused| == |s.refused| && forall id: EventId :: 0 <= id < |s.refused| ==>
      s.refused[id] <= t.refused[id]
    requires forall id :: id in b.ids ==> id in t.rows && t.rows[id] == s.rows[id]
    ensures BatchInv(c, t, b)
  {
  }

  /** Only a batch that holds an event can have had it accepted. */
  lemma AcceptedWithin(c: Config, s: System, p: nat, id: EventId)
    requires Inv(c, s) && p in s.batches && id in s.batches[p].ids
    ensures AcceptedOpen(s.batches, id) <==> id in s.batches[p].accepted
  {
    forall q | q in s.batches && id in s.batches[q].accepted ensures q == p {
      assert BatchInv(c, s, s.batches[q]);
      assert id in s.batches[q].ids;
    }
  }

  lemma AcceptKeepsBatches(c: Config, s: System, p: nat, now: int)
    requires Inv(c, s) && Enabled(c, s, Accept(p, now))
    ensures var s' := Apply(c, s, Accept(p, now)); forall q :: q in s'.batches ==> BatchInv(c, s', s'.batches[q])
  {
    var s' := Apply(c, s, Accept(p, now));
    var b := s.batches[p];
    var sent := b.ids[b.done];
    assert BatchInv(c, s, b);
    assert sent in b.ids;
    BatchGoesOn(c, s, b, PublishedMark(s.rows[sent], b.began), true, s.refused);
    hide MarkInv, EventInv;
    forall q | q in s'.batches ensures BatchInv(c, s', s'.batches[q]) {
      if q == p {
        BatchUnmoved(c, s.(refused := s.refused), s', s'.batches[p]);
      } else {
        BatchUnmoved(c, s, s', s.batches[q]);
      }
    }
  }

  lemma AcceptKeepsInv(c: Config, s: System, p: nat, now: int)
    requires Inv(c, s) && Enabled(c, s, Accept(p, now))
    ensures Inv(c, Apply(c, s, Accept(p, now)))
  {
    var s' := Apply(c, s, Accept(p, now));
    AcceptKeepsBatches(c, s, p, now);
    hide BatchInv, MarkInv, EventInv;
    forall id: EventId | 0 <= id < s'.next
      ensures EventInv(c, s', id)
    {
      AcceptedCounted(c, s, p, now, id);
    }
  }

  lemma AcceptedCounted(c: Config, s: System, p: nat, now: int, id: EventId)
    requires Inv(c, s) && Enabled(c, s, Accept(p, now)) && id < s.next
    ensures EventInv(c, Apply(c, s, Accept(p, now)), id)
  {
    var s' := Apply(c, s, Accept(p, now));
    var sent := s.batches[p].ids[s.batches[p].done];
    assert BatchInv(c, s, s.batches[p]);
    assert sent in s.batches[p].ids;
    hide MarkInv;
    assert EventInv(c, s, id);
    assert multiset(s'.log)[id] == multiset(s.log)[id] + One(id == sent);
    AcceptedAfter(s.batches, p, s'.batches[p], id);
    if id == sent {
      AcceptedWithin(c, s, p, id);
      assert id !in s.batches[p].ids[..s.batches[p].done];
    }
  }

  lemma AcceptedAfter(batches: map<nat, Batch>, p: nat, b: Batch, id: EventId)
    requires p in batches ==> batches[p].accepted <= b.accepted
    ensures AcceptedOpen(batches[p := b], id) <==> AcceptedOpen(batches, id) || id in b.accepted
  {
    var after := batches[p := b];
    if AcceptedOpen(batches, id) {
      var q :| q in batches && id in batches[q].accepted;
      assert q in after && id in after[q].accepted;
    }
    if id in b.accepted {
      assert p in after && id in after[p].accepted;
    }
  }

  lemma RefuseKeepsBatches(c: Config, s: System, p: nat, now: int)
    requires Inv(c, s) && Enabled(c, s, Refuse(p, now))
    ensures var s' := Apply(c, s, Refuse(p, now)); forall q :: q in s'.batches ==> BatchInv(c, s', s'.batches[q])
  {
    var s' := Apply(c, s, Refuse(p, now));
    var b := s.batches[p];
    var sent := b.ids[b.done];
    assert BatchInv(c, s, b);
    assert sent in b.ids;
    assert EventInv(c, s, sent);
    BatchGoesOn(c, s, b, FailedMark(s.rows[sent], c.maxRetries, b.began), false, s'.refused);
    hide MarkInv, EventInv;
    forall q | q in s'.batches ensures BatchInv(c, s', s'.batches[q]) {
      if q == p {
        BatchUnmoved(c, s.(refused := s'.refused), s', s'.batches[p]);
      } else {
        BatchUnmoved(c, s, s', s.batches[q]);
      }
    }
  }

  lemma RefusedCounted(c: Config, s: System, p: nat, now: int, id: EventId)
    requires Inv(c, s) && Enabled(c, s, Refuse(p, now)) && id < s.next
    ensures EventInv(c, Apply(c, s, Refuse(p, now)), id)
  {
    var s' := Apply(c, s, Refuse(p, now));
    var b := s.batches[p];
    assert BatchInv(c, s, b);
    assert b.ids[b.done] in b.ids;
    hide MarkInv;
    assert EventInv(c, s, id);
    AcceptedAfter(s.batches, p, s'.batches[p], id);
    if id in b.accepted {
      assert AcceptedOpen(s.batches, id);
    }
  }

  lemma RefuseKeepsInv(c: Config, s: System, p: nat, now: int)
    requires Inv(c, s) && Enabled(c, s, Refuse(p, now))
    ensures Inv(c, Apply(c, s, Refuse(p, now)))
  {
    var s' := Apply(c, s, Refuse(p, now));
    RefuseKeepsBatches(c, s, p, now);
    hide BatchInv, MarkInv, EventInv;
    forall id: EventId | 0 <= id < s'.next
      ensures EventInv(c, s', id)
    {
      RefusedCounted(c, s, p, now, id);
    }
  }

  lemma AcceptedWithout(c: Config, s: System, p: nat, id: EventId)
    requires Inv(c, s) && p in s.batches
    ensures id in s.batches[p].accepted ==> AcceptedOpen(s.batches, id) && !AcceptedOpen(s.batches - {p}, id)
    ensures id !in s.batches[p].accepted ==> (AcceptedOpen(s.batches, id) <==> AcceptedOpen(s.batches - {p}, id))
  {
    var rest := s.batches - {p};
    assert BatchInv(c, s, s.batches[p]);
    if id in s.batches[p].accepted {
      forall q | q in rest ensures id !in rest[q].accepted {
        assert BatchInv(c, s, s.batches[q]);
      }
    } else if AcceptedOpen(s.batches, id) {
      var q :| q in s.batches && id in s.batches[q].accepted;
      assert q in rest && id in rest[q].accepted;
    }
  }

  lemma CommitBatchKeepsInv(c: Config, s: System, p: nat, now: int)
    requires Inv(c, s) && Enabled(c, s, CommitBatch(p, now))
    ensures Inv(c, Apply(c, s, CommitBatch(p, now)))
  {
    var s' := Apply(c, s, CommitBatch(p, now));
    assert BatchInv(c, s, s.batches[p]);
    forall q | q in s'.batches ensures BatchInv(c, s', s'.batches[q]) {
      BatchUnmoved(c, s, s', s.batches[q]);
    }
    forall id: EventId | 0 <= id < s'.next
      ensures EventInv(c, s', id)
    {
      assert EventInv(c, s, id);
      AcceptedWithout(c, s, p, id);
    }
  }

  lemma RollbackKeepsInv(c: Config, s: System, p: nat)
    requires Inv(c, s) && Enabled(c, s, Rollback(p))
    ensures Inv(c, Apply(c, s, Rollback(p)))
  {
    var s' := Apply(c, s, Rollback(p));
    forall q | q in s'.batches ensures BatchInv(c, s', s'.batches[q]) {
      BatchUnmoved(c, s, s', s.batches[q]);
    }
    forall id: EventId | 0 <= id < s'.next
      ensures EventInv(c, s', id)
    {
      assert EventInv(c, s, id);
      AcceptedWithout(c, s, p, id);
    }
  }

  lemma PurgeKeepsInv(c: Config, s: System, kind: PurgeKind, now: int, retention: nat, gone: set<EventId>)
    requires Inv(c, s) && Enabled(c, s, Purge(kind, now, retention, gone))
    ensures Inv(c, Apply(c, s, Purge(kind, now, retention, gone)))
  {
    var s' := Apply(c, s, Purge(kind, now, retention, gone));
    forall q | q in s'.batches ensures BatchInv(c, s', s'.batches[q]) {
      assert BatchInv(c, s, s.batches[q]);
      BatchUnmoved(c, s, s', s.batches[q]);
    }
    forall id: EventId | 0 <= id < s'.next
      ensures EventInv(c, s', id)
    {
      assert EventInv(c, s, id);
    }
  }

  lemma StepKeepsInv(c: Config, s: System, step: Step)
    requires Inv(c, s) && Enabled(c, s, step)
    ensures Inv(c, Apply(c, s, step))
  {
    hide Apply, Inv, Enabled;
    match step
    case CommitEvent(createdAt) => CommitEventKeepsInv(c, s, createdAt);
    case OpenBatch(p, ids, now) => OpenBatchKeepsInv(c, s, p, ids, now);
    case Accept(p, now) => AcceptKeepsInv(c, s, p, now);
    case Refuse(p, now) => RefuseKeepsInv(c, s, p, now);
    case CommitBatch(p, now) => CommitBatchKeepsInv(c, s, p, now);
    case Rollback(p) => RollbackKeepsInv(c, s, p);
    case Purge(kind, now, retention, gone) => PurgeKeepsInv(c, s, kind, now, retention, gone);
  }

  lemma {:induction false} RunKeepsInv(c: Config, s: System, steps: seq<Step>)
    requires Inv(c, s) && AllEnabled(c, s, steps)
    ensures Inv(c, After(c, s, steps))
    decreases |steps|
  {
    hide Apply, Inv, Enabled;
    if steps != [] {
      StepKeepsInv(c, s, steps[0]);
      RunKeepsInv(c, Apply(c, s, steps[0]), steps[1..]);
    }
  }

  // ----- main results, over every run from the empty outbox -----

  /** No event is lost: a committed event is still pending in the table, or the broker has it, or
      it was refused as often as it takes to be dead-lettered. And never is a row both published
      and dead-lettered. */
  lemma NoEventLost(c: Config, steps: seq<Step>, id: EventId)
    requires AllEnabled(c, Empty, steps) && id < After(c, Empty, steps).next
    ensures var s := After(c, Empty, steps);
            && Known(s, id) && id < |s.refused|
            && ((id in s.rows && IsPending(s.rows[id])) || id in s.log || s.refused[id] >= Cap(c))
            && !(LastRow(s, id).publishedAt.Some? && LastRow(s, id).failedAt.Some?)
  {
    hide Apply, Enabled;
    RunKeepsInv(c, Empty, steps);
    var s := After(c, Empty, steps);
    assert EventInv(c, s, id);
    if LastRow(s, id).publishedAt.Some? {
      assert multiset(s.log)[id] >= 1;
    }
  }

  /** Publishers exclude each other: no two open batches hold the same row, and what they hold is
      pending. */
  lemma PublishersExclude(c: Config, steps: seq<Step>, p: nat, q: nat, id: EventId)
    requires AllEnabled(c, Empty, steps)
    requires var s := After(c, Empty, steps);
             p in s.batches && q in s.batches && id in s.batches[p].ids && id in s.batches[q].ids
    ensures var s := After(c, Empty, steps); p == q && id in s.rows && IsPending(s.rows[id])
  {
    hide Apply, Enabled;
    RunKeepsInv(c, Empty, steps);
    var s := After(c, Empty, steps);
    assert BatchInv(c, s, s.batches[p]);
  }

  /** Duplicates are accounted for: beyond its one copy, the broker has an event once more for
      each rollback that undid an accepted publish of it - and only then. */
  lemma DuplicatesAreRollbacks(c: Config, steps: seq<Step>, id: EventId)
    requires AllEnabled(c, Empty, steps) && id < After(c, Empty, steps).next
    ensures var s := After(c, Empty, steps);
            && id < |s.rolledBack| && s.rolledBack[id] <= multiset(s.log)[id] <= 1 + s.rolledBack[id]
            && (Known(s, id) && LastRow(s, id).publishedAt.Some? ==> multiset(s.log)[id] == 1 + s.rolledBack[id])
  {
    hide Apply, Enabled;
    RunKeepsInv(c, Empty, steps);
    var s := After(c, Empty, steps);
    assert EventInv(c, s, id);
    forall p | p in s.batches && id in s.batches[p].accepted
      ensures LastRow(s, id).publishedAt.None?
    {
      assert BatchInv(c, s, s.batches[p]);
    }
  }

  /** Once published, an event is final: no further step of any publisher or purger adds a copy
      of it or changes what is known of its row. */
  lemma PublishedIsFinal(c: Config, s: System, step: Step, id: EventId)
    requires Inv(c, s) && Enabled(c, s, step) && Known(s, id) && LastRow(s, id).publishedAt.Some?
    ensures var s' := Apply(c, s, step);
            && Known(s', id) && LastRow(s', id) == LastRow(s, id)
            && multiset(s'.log)[id] == multiset(s.log)[id]
  {
    assert EventInv(c, s, id);
    match step
    case Accept(p, _) =>
      assert BatchInv(c, s, s.batches[p]);
      assert s.batches[p].ids[s.batches[p].done] in s.batches[p].ids;
    case CommitBatch(p, _) =>
      assert BatchInv(c, s, s.batches[p]);
    case _ =>
  }
}
