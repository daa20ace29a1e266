/** The event_outbox table, its row operations, and the publisher and purger that run over it
    (shared/domainevent/domain_event.go, shared/events/outbox_publisher.go and
    outbox_purger.go). Events are numbered in the order their transactions committed; an absent
    number is a purged row. */
module OutboxTable {
  import opened Sequences
  import opened Wrappers

  type EventId = nat

  datatype Row = Row(createdAt: int, publishedAt: Option<int>, failedAt: Option<int>, retryCount: nat)

  type Rows = map<EventId, Row>

  predicate IsPending(row: Row) {
    row.publishedAt.None? && row.failedAt.None?
  }

  /** The rows ReadEvents may hand out: pending ones nobody holds. */
  predicate Readable(rows: Rows, locked: set<EventId>, id: EventId) {
    id in rows && IsPending(rows[id]) && id !in locked
  }

  /** The oldest `limit` readable rows, oldest first; rows of equal age in any order. */
  predicate IsOldestBatch(rows: Rows, locked: set<EventId>, limit: nat, ids: seq<EventId>) {
    && Distinct(ids) && |ids| <= limit
    && (forall i :: 0 <= i < |ids| ==> Readable(rows, locked, ids[i]))
    && (forall i, j :: 0 <= i < j < |ids| ==> rows[ids[i]].createdAt <= rows[ids[j]].createdAt)
    && (forall id :: id in rows && Readable(rows, locked, id) && id !in ids ==>
          |ids| == limit && forall i :: 0 <= i < |ids| ==> rows[ids[i]].createdAt <= rows[id].createdAt)
  }

  function PublishedMark(row: Row, now: int): Row {
    row.(publishedAt := Some(now))
  }

  /** retry_count + 1, and dead-lettered once that reaches maxRetries. */
  function FailedMark(row: Row, maxRetries: int, now: int): Row {
    row.(retryCount := row.retryCount + 1,
         failedAt := if row.retryCount + 1 >= maxRetries then Some(now) else None)
  }

  /** The table after a committed batch: every event of it marked by how its publish went. */
  function Marked(rows: Rows, ids: set<EventId>, accepted: set<EventId>, maxRetries: int, now: int): Rows {
    map id | id in rows ::
      if id !in ids then rows[id]
      else if id in accepted then PublishedMark(rows[id], now)
      else FailedMark(rows[id], maxRetries, now)
  }

  function Pending(rows: Rows): set<EventId> {
    set id | id in rows && IsPending(rows[id])
  }

  /** The expired rows of the two kinds a purge deletes. */
  predicate ExpiredPublished(row: Row, before: int) {
    row.publishedAt.Some? && row.failedAt.None? && row.publishedAt.value < before
  }

  predicate ExpiredDeadLettered(row: Row, before: int) {
    row.failedAt.Some? && row.failedAt.value < before
  }

  datatype PurgeKind = PublishedRows | DeadLetteredRows

  predicate Expired(kind: PurgeKind, row: Row, before: int) {
    match kind
    case PublishedRows => ExpiredPublished(row, before)
    case DeadLetteredRows => ExpiredDeadLettered(row, before)
  }

  function Purgeable(kind: PurgeKind, rows: Rows, locked: set<EventId>, before: int): set<EventId> {
    set id | id in rows && Expired(kind, rows[id], before) && id !in locked
  }

  class Table {
    var rows: Rows

    /** SELECT ... ORDER BY created_at LIMIT limit FOR UPDATE SKIP LOCKED */
    method ReadEvents(locked: set<EventId>, limit: nat) returns (ids: seq<EventId>)
      ensures IsOldestBatch(rows, locked, limit, ids)
    {
      ids := [];
      var left := set id | id in rows && Readable(rows, locked, id);
      while |ids| < limit && left != {}
        invariant |ids| <= limit && Distinct(ids)
        invariant forall i :: 0 <= i < |ids| ==> Readable(rows, locked, ids[i]) && ids[i] !in left
        invariant forall id :: id in left ==> Readable(rows, locked, id)
        invariant forall id :: id in rows && Readable(rows, locked, id) ==> id in left || id in ids
        invariant forall i, j :: 0 <= i < j < |ids| ==> rows[ids[i]].createdAt <= rows[ids[j]].createdAt
        invariant forall i, id :: 0 <= i < |ids| && id in left ==> rows[ids[i]].createdAt <= rows[id].createdAt
        decreases left
      {
        var oldest := Oldest(left);
        ids := ids + [oldest];
        left := left - {oldest};
      }
    }

    method Oldest(ids: set<EventId>) returns (oldest: EventId)
      requires ids != {} && ids <= rows.Keys
      ensures oldest in ids && forall id :: id in ids ==> rows[oldest].createdAt <= rows[id].createdAt
    {
      oldest :| oldest in ids;
      var left := ids - {oldest};
      while left != {}
        invariant left <= ids && oldest in ids
        invariant forall id :: id in ids - left ==> rows[oldest].createdAt <= rows[id].createdAt
        decreases left
      {
        var id :| id in left;
        if rows[id].createdAt < rows[oldest].createdAt {
          oldest := id;
        }
        left := left - {id};
      }
    }

    method MarkEventAsPublished(id: EventId, now: int)
      modifies this
      ensures rows == if id in old(rows) then old(rows)[id := PublishedMark(old(rows)[id], now)] else old(rows)
    {
      if id in rows {
        rows := rows[id := rows[id].(publishedAt := Some(now))];
      }
    }

    method MarkEventAsFailed(id: EventId, maxRetries: int, now: int) returns (deadLettered: bool)
      requires id in rows
      modifies this
      ensures rows == old(rows)[id := FailedMark(old(rows)[id], maxRetries, now)]
      ensures deadLettered == rows[id].failedAt.Some?
    {
      var row := rows[id];
      var retries := row.retryCount + 1;
      deadLettered := retries >= maxRetries;
      rows := rows[id := Row(row.createdAt, row.publishedAt, if deadLettered then Some(now) else None, retries)];
    }

    /** DeletePublishedEvents and DeleteDeadLetteredEvents: up to limit expired rows of one kind. */
    method DeleteExpired(kind: PurgeKind, locked: set<EventId>, before: int, limit: nat)
      returns (deleted: nat, ghost gone: set<EventId>)
      modifies this
      ensures gone <= Purgeable(kind, old(rows), locked, before)
      ensures rows == old(rows) - gone
      ensures deleted == |gone| <= limit
      ensures deleted < limit ==> gone == Purgeable(kind, old(rows), locked, before)
    {
      var left := Purgeable(kind, rows, locked, before);
      gone := {};
      deleted := 0;
      while deleted < limit && left != {}
        invariant deleted == |gone| <= limit
        invariant gone !! left && gone + left == Purgeable(kind, old(rows), locked, before)
        invariant rows == old(rows) - gone
        decreases left
      {
        var id :| id in left;
        rows := rows - {id};
        gone := gone + {id};
        left := left - {id};
        deleted := deleted + 1;
      }
    }
  }

  /** The message broker: an append-only log that may refuse any message. */
  class Broker {
    var log: seq<EventId>

    method Publish(id: EventId) returns (ok: bool)
      modifies this
      ensures log == if ok then old(log) + [id] else old(log)
    {
      ok := *;
      if ok {
        log := log + [id];
      }
    }
  }

  function Select(ids: seq<EventId>, accepted: set<EventId>): seq<EventId> {
    if ids == [] then []
    else Select(ids[..|ids| - 1], accepted) + if ids[|ids| - 1] in accepted then [ids[|ids| - 1]] else []
  }

  lemma {:induction false} SelectLength(ids: seq<EventId>, accepted: set<EventId>)
    requires Distinct(ids) && accepted <= ToSet(ids)
    ensures |Select(ids, accepted)| == |accepted| <= |ids|
  {
    if ids == [] {
      assert accepted == {};
    } else {
      var last, others := ids[|ids| - 1], ids[..|ids| - 1];
      assert ToSet(ids) == ToSet(others) + {last};
      assert last !in ToSet(others);
      SelectLength(others, accepted - {last});
      SelectElsewhere(others, accepted, last);
    }
  }

  lemma {:induction false} SelectElsewhere(ids: seq<EventId>, accepted: set<EventId>, other: EventId)
    requires other !in ids
    ensures Select(ids, accepted) == Select(ids, accepted - {other}) == Select(ids, accepted + {other})
  {
    if ids != [] {
      SelectElsewhere(ids[..|ids| - 1], accepted, other);
    }
  }

  predicate OldestFirst(rows: Rows, ids: seq<EventId>) {
    forall i, j :: 0 <= i < j < |ids| ==>
      ids[i] in rows && ids[j] in rows && rows[ids[i]].createdAt <= rows[ids[j]].createdAt
  }

  lemma {:induction false} SelectKeepsOrder(rows: Rows, ids: seq<EventId>, accepted: set<EventId>)
    requires OldestFirst(rows, ids)
    ensures OldestFirst(rows, Select(ids, accepted))
    ensures forall id :: id in Select(ids, accepted) ==> id in ids
  {
    if ids != [] {
      var others, last := ids[..|ids| - 1], ids[|ids| - 1];
      SelectKeepsOrder(rows, others, accepted);
      var sent := Select(others, accepted);
      forall i | 0 <= i < |sent| ensures sent[i] in rows && last in rows
        && rows[sent[i]].createdAt <= rows[last].createdAt {
        assert sent[i] in others;
        var k :| 0 <= k < |others| && others[k] == sent[i];
        assert ids[k] == sent[i] && ids[|ids| - 1] == last;
      }
    }
  }

  /** What the broker accepts of a batch goes out in the order in which it came to be. */
  lemma BatchGoesOutInOrder(rows: Rows, locked: set<EventId>, limit: nat, ids: seq<EventId>, accepted: set<EventId>)
    requires IsOldestBatch(rows, locked, limit, ids)
    ensures OldestFirst(rows, Select(ids, accepted))
  {
    assert forall i :: 0 <= i < |ids| ==> Readable(rows, locked, ids[i]);
    SelectKeepsOrder(rows, ids, accepted);
  }

  lemma StartOfBatch(rows: Rows, maxRetries: int, now: int)
    ensures Marked(rows, {}, {}, maxRetries, now) == rows
    ensures ToSet<EventId>([]) == {} && Select([], {}) == []
  {
  }

  /** Marking one more event of the batch. */
  lemma MarkOne(rows: Rows, done: set<EventId>, accepted: set<EventId>, id: EventId, maxRetries: int, now: int)
    requires id in rows && id !in done && accepted <= done
    ensures var marked := Marked(rows, done, accepted, maxRetries, now);
            && id in marked
            && Marked(rows, done + {id}, accepted + {id}, maxRetries, now)
              == marked[id := PublishedMark(marked[id], now)]
            && Marked(rows, done + {id}, accepted, maxRetries, now)
              == marked[id := FailedMark(marked[id], maxRetries, now)]
  {
  }

  /** Sending one more event of the batch. */
  lemma SelectOne(ids: seq<EventId>, i: nat, accepted: set<EventId>)
    requires i < |ids| && Distinct(ids) && accepted <= ToSet(ids[..i])
    ensures ids[i] !in ToSet(ids[..i]) && ToSet(ids[..i + 1]) == ToSet(ids[..i]) + {ids[i]}
    ensures Select(ids[..i + 1], accepted) == Select(ids[..i], accepted)
    ensures Select(ids[..i + 1], accepted + {ids[i]}) == Select(ids[..i], accepted) + [ids[i]]
  {
    var id := ids[i];
    assert id !in ids[..i];
    assert ids[..i + 1] == ids[..i] + [id];
    assert ids[..i + 1][..i] == ids[..i];
    SelectElsewhere(ids[..i], accepted, id);
  }

  class OutboxPublisher {
    const table: Table
    const broker: Broker
    const readLimit: nat
    const maxRetries: int

    constructor (table: Table, broker: Broker, readLimit: nat, maxRetries: int)
      ensures this.table == table && this.broker == broker
      ensures this.readLimit == readLimit && this.maxRetries == maxRetries
    {
      this.table, this.broker := table, broker;
      this.readLimit, this.maxRetries := readLimit, maxRetries;
    }

    /** One batch in one transaction. Any statement may fail; the table is then as before, though
        what the broker accepted stays accepted. */
    method PublishFromSchema(locked: set<EventId>, now: int)
      returns (failedCount: nat, publishedCount: nat, err: bool,
               ghost ids: seq<EventId>, ghost tried: nat, ghost accepted: set<EventId>)
      modifies table, broker
      ensures IsOldestBatch(old(table.rows), locked, readLimit, ids)
      ensures tried <= |ids| && accepted <= ToSet(ids[..tried]) && (!err ==> tried == |ids|)
      ensures accepted <= ToSet(ids)
      ensures broker.log == old(broker.log) + Select(ids, accepted)
      ensures err ==> table.rows == old(table.rows)
      ensures !err ==> table.rows == Marked(old(table.rows), ToSet(ids), accepted, maxRetries, now)
      ensures !err ==> publishedCount == |accepted| && failedCount == |ids| - |accepted|
    {
      hide Marked, Select, ToSet, PublishedMark, FailedMark;
      failedCount, publishedCount, err := 0, 0, false;
      StartOfBatch(table.rows, maxRetries, now);
      var snapshot := table.rows;
      accepted := {};
      var events := table.ReadEvents(locked, readLimit);
      ids, tried := events, 0;
      var i := 0;
      while i < |events|
        invariant 0 <= i == tried <= |events|
        invariant accepted <= ToSet(ids[..i])
        invariant table.rows == Marked(snapshot, ToSet(ids[..i]), accepted, maxRetries, now)
        invariant broker.log == old(broker.log) + Select(ids[..i], accepted)
        invariant publishedCount == |accepted| && failedCount == i - |accepted|
      {
        var id := events[i];
        assert Readable(snapshot, locked, id);
        SelectOne(ids, i, accepted);
        MarkOne(snapshot, ToSet(ids[..i]), accepted, id, maxRetries, now);
        var sent := broker.Publish(id);
        tried := i + 1;
        if sent {
          accepted := accepted + {id};
        }
        var markFails: bool := *;
        if markFails {
          // the transaction is unusable: roll back, and retry on the next poll
          table.rows := snapshot;
          err := true;
          RestUnsent(ids, i + 1, accepted);
          ToSetPrefix(ids, i + 1);
          return;
        }
        if sent {
          table.MarkEventAsPublished(id, now);
          publishedCount := publishedCount + 1;
        } else {
          failedCount := failedCount + 1;
          var deadLettered := table.MarkEventAsFailed(id, maxRetries, now);
        }
        i := i + 1;
      }
      assert ids[..|ids|] == ids;
    }

    /** Batch after batch until one comes back short or has a failure, or until the context, which
        lasts for `patience` more batches, is done. With no rows arriving it needs no context to
        end - unless the limit is 0, when every batch counts as a full one. */
    method PublishSchemaBacklog(locked: set<EventId>, now: int, patience: nat) returns (batches: nat, err: bool)
      modifies table, broker
      ensures batches <= patience
      ensures readLimit >= 1 ==> batches <= |Pending(old(table.rows))| / readLimit + 1
      ensures readLimit == 0 && !err ==> batches == patience
    {
      hide Marked, Select, ToSet;
      batches, err := 0, false;
      while batches < patience
        invariant batches <= patience && !err
        invariant |Pending(table.rows)| + batches * readLimit == |Pending(old(table.rows))|
        decreases patience - batches
      {
        ghost var before := table.rows;
        FullBatches(|Pending(old(table.rows))|, readLimit, batches);
        var failed, published, failure, ids, _, accepted := PublishFromSchema(locked, now);
        batches := batches + 1;
        if failure {
          err := true;
          return;
        }
        if failed > 0 || published < readLimit {
          SelectLength(ids, accepted);
          return;
        }
        PublishedLeave(before, ids, accepted, maxRetries, now);
        assert batches * readLimit == (batches - 1) * readLimit + readLimit;
      }
      FullBatches(|Pending(old(table.rows))|, readLimit, batches);
    }
  }

  lemma FullBatches(pending: nat, limit: nat, batches: nat)
    ensures limit >= 1 && batches * limit <= pending ==> batches <= pending / limit
  {
    if limit >= 1 && batches * limit <= pending {
      var q := pending / limit;
      assert pending < (q + 1) * limit;
      TimesOrder(q + 1, batches, limit);
    }
  }

  lemma TimesOrder(a: nat, b: nat, limit: nat)
    ensures a <= b ==> a * limit <= b * limit
  {
  }

  lemma {:induction false} RestUnsent(ids: seq<EventId>, n: nat, accepted: set<EventId>)
    requires n <= |ids| && Distinct(ids) && accepted <= ToSet(ids[..n])
    ensures Select(ids, accepted) == Select(ids[..n], accepted)
    decreases |ids|
  {
    if n < |ids| {
      var others := ids[..|ids| - 1];
      assert others[..n] == ids[..n];
      RestUnsent(others, n, accepted);
    } else {
      assert ids[..n] == ids;
    }
  }

  lemma ToSetPrefix(ids: seq<EventId>, n: nat)
    requires n <= |ids|
    ensures ToSet(ids[..n]) <= ToSet(ids)
  {
  }

  /** A full batch without a failure takes exactly its rows off the backlog. */
  lemma PublishedLeave(rows: Rows, ids: seq<EventId>, accepted: set<EventId>, maxRetries: int, now: int)
    requires Distinct(ids) && (forall id :: id in ids ==> id in rows && IsPending(rows[id]))
    requires accepted <= ToSet(ids) && |accepted| == |ids|
    ensures |Pending(Marked(rows, ToSet(ids), accepted, maxRetries, now))| + |ids| == |Pending(rows)|
  {
    DistinctSize(ids);
    SubsetSize(accepted, ToSet(ids));
    var after := Pending(Marked(rows, ToSet(ids), accepted, maxRetries, now));
    assert after + ToSet(ids) == Pending(rows);
    assert after !! ToSet(ids);
  }

  class OutboxPurger {
    const table: Table
    const retention: int
    const deadLetterRetention: int
    const batch: nat

    constructor (table: Table, retention: int, deadLetterRetention: int, batch: nat)
      requires retention > 0 && deadLetterRetention > 0 && batch > 0
      ensures this.table == table && this.batch == batch
      ensures this.retention == retention && this.deadLetterRetention == deadLetterRetention
    {
      this.table, this.batch := table, batch;
      this.retention, this.deadLetterRetention := retention, deadLetterRetention;
    }

    /** Deletes one kind of expired rows until a batch comes back short; a failing statement or
        the end of the context, which lasts for `patience` batches, cuts it off. */
    method Purge(kind: PurgeKind, locked: set<EventId>, cutoff: int, patience: nat)
      returns (total: nat, complete: bool, ghost gone: set<EventId>)
      requires batch > 0
      modifies table
      ensures table.rows == old(table.rows) - gone && total == |gone|
      ensures gone <= Purgeable(kind, old(table.rows), locked, cutoff)
      ensures complete ==> gone == Purgeable(kind, old(table.rows), locked, cutoff)
    {
      total, complete, gone := 0, false, {};
      var left := patience;
      while left > 0
        invariant table.rows == old(table.rows) - gone && total == |gone|
        invariant gone <= Purgeable(kind, old(table.rows), locked, cutoff)
        decreases left
      {
        left := left - 1;
        var err: bool := *;
        if err {
          break;
        }
        ghost var before := table.rows;
        var deleted, some := table.DeleteExpired(kind, locked, cutoff, batch);
        assert Purgeable(kind, before, locked, cutoff) == Purgeable(kind, old(table.rows), locked, cutoff) - gone;
        assert gone !! some;
        gone := gone + some;
        total := total + deleted;
        if deleted < batch {
          complete := true;
          break;
        }
      }
    }

    /** Published rows first, then dead-lettered ones, each by its own retention; a failing kind
        does not stop the other. */
    method PurgeOnce(locked: set<EventId>, now: int, patience: nat) returns (complete: bool)
      requires batch > 0
      modifies table
      ensures forall id :: id in table.rows ==> id in old(table.rows) && table.rows[id] == old(table.rows)[id]
      ensures forall id :: id in old(table.rows) && id !in table.rows ==>
                var row := old(table.rows)[id];
                if row.failedAt.Some? then row.failedAt.value < now - deadLetterRetention
                else row.publishedAt.Some? && row.publishedAt.value < now - retention
      ensures complete ==> forall id :: id in table.rows && id !in locked ==>
                var row := table.rows[id];
                if row.failedAt.Some? then row.failedAt.value >= now - deadLetterRetention
                else row.publishedAt.Some? ==> row.publishedAt.value >= now - retention
    {
      var _, first, gone := Purge(PublishedRows, locked, now - retention, patience);
      ghost var between := table.rows;
      var _, second, also := Purge(DeadLetteredRows, locked, now - deadLetterRetention, patience);
      complete := first && second;
      forall id | complete && id in table.rows && id !in locked
        ensures !ExpiredPublished(table.rows[id], now - retention)
             && !ExpiredDeadLettered(table.rows[id], now - deadLetterRetention)
      {
        assert id !in Purgeable(PublishedRows, old(table.rows), locked, now - retention);
        assert id !in Purgeable(DeadLetteredRows, between, locked, now - deadLetterRetention);
      }
    }
  }
}
