/** How long a poison event can hold up a younger one, and how a publisher's batch method looks
    as steps of the protocol. */
module OutboxFairness {
  import opened Sequences
  import opened Wrappers
  import opened OutboxTable
  import opened OutboxProtocol

  // ----- a bounded delay -----

  /** A pending row read no later than e: at least as old. */
  predicate Ahead(rows: Rows, e: EventId, id: EventId) {
    && e in rows && id in rows && id != e
    && IsPending(rows[id]) && rows[id].createdAt <= rows[e].createdAt
  }

  /** The refusals the rows ahead of e can still take, over ids below n. */
  function Remaining(c: Config, rows: Rows, e: EventId, n: nat): int {
    if n == 0 then 0
    else Remaining(c, rows, e, n - 1) + if Ahead(rows, e, n - 1) then Cap(c) - rows[n - 1].retryCount else 0
  }

  function CountBelow(ids: set<EventId>, n: nat): nat {
    if n == 0 then 0 else CountBelow(ids, n - 1) + if n - 1 in ids then 1 else 0
  }

  lemma {:induction false} CountBelowIsSize(ids: set<EventId>, n: nat)
    requires forall id :: id in ids ==> id < n
    ensures CountBelow(ids, n) == |ids|
  {
    if n == 0 {
      assert ids == {};
    } else {
      CountBelowIsSize(ids - {n - 1}, n - 1);
      CountBelowSame(ids, ids - {n - 1}, n - 1);
    }
  }

  lemma {:induction false} CountBelowSame(a: set<EventId>, b: set<EventId>, n: nat)
    requires forall id: EventId :: 0 <= id < n ==> (id in a <==> id in b)
    ensures CountBelow(a, n) == CountBelow(b, n)
  {
    if n > 0 {
      CountBelowSame(a, b, n - 1);
    }
  }

  /** One committed batch of a single publisher, with the rows that arrived just before it. */
  datatype Round = Round(arrivals: Rows, ids: seq<EventId>, accepted: set<EventId>, now: int)

  function AfterRound(c: Config, rows: Rows, r: Round): Rows {
    Marked(rows + r.arrivals, ToSet(r.ids), r.accepted, c.maxRetries, r.now)
  }

  /** A round that leaves e out: arrivals are younger than e, the batch is the oldest rows. */
  predicate Misses(c: Config, rows: Rows, e: EventId, r: Round) {
    && e in rows
    && r.arrivals.Keys !! rows.Keys
    && (forall id :: id in r.arrivals ==> r.arrivals[id].createdAt > rows[e].createdAt)
    && IsOldestBatch(rows + r.arrivals, {}, c.readLimit, r.ids)
    && r.accepted <= ToSet(r.ids)
    && e !in r.ids
  }

  predicate AllMiss(c: Config, rows: Rows, e: EventId, rounds: seq<Round>)
    decreases |rounds|
  {
    rounds == [] || (Misses(c, rows, e, rounds[0]) && AllMiss(c, AfterRound(c, rows, rounds[0]), e, rounds[1..]))
  }

  /** A batch that misses e is full, and all of it was ahead of e. */
  lemma MissedBatchIsFull(c: Config, rows: Rows, e: EventId, r: Round)
    requires e in rows && IsPending(rows[e]) && Misses(c, rows, e, r)
    ensures |ToSet(r.ids)| == c.readLimit
    ensures forall id :: id in r.ids ==> Ahead(rows, e, id)
  {
    DistinctSize(r.ids);
    assert Readable(rows + r.arrivals, {}, e);
    forall id | id in r.ids ensures Ahead(rows, e, id) {
      var i :| 0 <= i < |r.ids| && r.ids[i] == id;
      assert Readable(rows + r.arrivals, {}, id);
    }
  }

  predicate PendingInvs(c: Config, rows: Rows) {
    forall id :: id in rows && IsPending(rows[id]) ==> rows[id].retryCount < Cap(c)
  }

  /** Each row of a batch leaves the queue or uses up one of its retries. */
  lemma {:induction false} BatchUsesRetries(c: Config, rows: Rows, e: EventId, r: Round, n: nat)
    requires e in rows && IsPending(rows[e]) && Misses(c, rows, e, r) && PendingInvs(c, rows)
    ensures Remaining(c, AfterRound(c, rows, r), e, n) + CountBelow(ToSet(r.ids), n) <= Remaining(c, rows, e, n)
  {
    if n > 0 {
      BatchUsesRetries(c, rows, e, r, n - 1);
      MissedBatchIsFull(c, rows, e, r);
      hide IsOldestBatch;
      assert (rows + r.arrivals)[e] == rows[e];
    }
  }

  lemma RoundKeeps(c: Config, rows: Rows, e: EventId, r: Round)
    requires e in rows && IsPending(rows[e]) && Misses(c, rows, e, r)
    requires PendingInvs(c, rows) && PendingInvs(c, r.arrivals)
    ensures var after := AfterRound(c, rows, r);
            e in after && IsPending(after[e]) && PendingInvs(c, after) && after[e].createdAt == rows[e].createdAt
  {
    hide IsOldestBatch;
  }

  lemma {:induction false} RemainingNonNegative(c: Config, rows: Rows, e: EventId, n: nat)
    requires PendingInvs(c, rows)
    ensures 0 <= Remaining(c, rows, e, n)
  {
    if n > 0 {
      RemainingNonNegative(c, rows, e, n - 1);
    }
  }

  /** While one publisher commits its batches and only younger events arrive, a pending event is
      left out of batches whose sizes add up to at most the remaining retries ahead of it. */
  lemma {:induction false} PoisonDelaysBounded(c: Config, rows: Rows, e: EventId, rounds: seq<Round>, n: nat)
    requires e in rows && IsPending(rows[e]) && AllMiss(c, rows, e, rounds)
    requires PendingInvs(c, rows) && (forall r :: r in rounds ==> PendingInvs(c, r.arrivals))
    requires forall id: EventId :: Ahead(rows, e, id) ==> id < n
    ensures |rounds| * c.readLimit <= Remaining(c, rows, e, n)
    decreases |rounds|
  {
    hide Misses, Remaining, CountBelow, AfterRound, Ahead, PendingInvs;
    if rounds == [] {
      RemainingNonNegative(c, rows, e, n);
    } else {
      var r := rounds[0];
      assert r in rounds;
      var after := AfterRound(c, rows, r);
      RoundKeeps(c, rows, e, r);
      MissedBatchIsFull(c, rows, e, r);
      BatchUsesRetries(c, rows, e, r, n);
      CountBelowIsSize(ToSet(r.ids), n);
      AheadOnlyShrinks(c, rows, e, r);
      assert forall q :: q in rounds[1..] ==> q in rounds;
      PoisonDelaysBounded(c, after, e, rounds[1..], n);
      OneMoreBatch(|rounds[1..]|, c.readLimit);
    }
  }

  lemma OneMoreBatch(batches: nat, limit: nat)
    ensures (batches + 1) * limit == batches * limit + limit
  {
  }

  lemma AheadOnlyShrinks(c: Config, rows: Rows, e: EventId, r: Round)
    requires Misses(c, rows, e, r)
    ensures forall id: EventId :: Ahead(AfterRound(c, rows, r), e, id) ==> Ahead(rows, e, id)
  {
    forall id | id in r.ids
      ensures id in rows + r.arrivals && IsPending((rows + r.arrivals)[id])
    {
      var i :| 0 <= i < |r.ids| && r.ids[i] == id;
      assert Readable(rows + r.arrivals, {}, id);
    }
    hide IsOldestBatch;
    forall id: EventId | Ahead(AfterRound(c, rows, r), e, id)
      ensures Ahead(rows, e, id)
    {
      assert (rows + r.arrivals)[e] == rows[e];
      assert AfterRound(c, rows, r)[id].createdAt == (rows + r.arrivals)[id].createdAt;
    }
  }

  /** In the worst case: k rows ahead, each with every retry left. */
  lemma WorstCaseDelay(c: Config, rows: Rows, e: EventId, rounds: seq<Round>, ahead: set<EventId>)
    requires e in rows && IsPending(rows[e]) && AllMiss(c, rows, e, rounds)
    requires PendingInvs(c, rows) && (forall r :: r in rounds ==> PendingInvs(c, r.arrivals))
    requires forall id: EventId :: Ahead(rows, e, id) <==> id in ahead
    ensures |rounds| * c.readLimit <= |ahead| * Cap(c)
  {
    var n := Above(ahead);
    PoisonDelaysBounded(c, rows, e, rounds, n);
    RemainingAtMost(c, rows, e, ahead, n);
    CountBelowIsSize(ahead, n);
  }

  lemma {:induction false} Above(ids: set<EventId>) returns (n: nat)
    ensures forall id :: id in ids ==> id < n
  {
    n := 0;
    if ids != {} {
      var id :| id in ids;
      var m := Above(ids - {id});
      n := if m <= id then id + 1 else m;
      assert forall x :: x in ids ==> x == id || x in ids - {id};
    }
  }

  lemma {:induction false} RemainingAtMost(c: Config, rows: Rows, e: EventId, ahead: set<EventId>, n: nat)
    requires forall id: EventId :: Ahead(rows, e, id) <==> id in ahead
    ensures Remaining(c, rows, e, n) <= CountBelow(ahead, n) * Cap(c)
  {
    if n > 0 {
      RemainingAtMost(c, rows, e, ahead, n - 1);
      assert Ahead(rows, e, n - 1) <==> n - 1 in ahead;
      OneMoreBatch(CountBelow(ahead, n - 1), Cap(c));
    }
  }

  // ----- the batch method as protocol steps -----

  function Publishes(p: nat, ids: seq<EventId>, accepted: set<EventId>, now: int): seq<Step> {
    if ids == [] then []
    else Publishes(p, ids[..|ids| - 1], accepted, now)
         + [if ids[|ids| - 1] in accepted then Accept(p, now) else Refuse(p, now)]
  }

  /** Reading a batch, publishing its events in order and committing. */
  function BatchSteps(p: nat, ids: seq<EventId>, accepted: set<EventId>, now: int): seq<Step> {
    [OpenBatch(p, ids, now)] + Publishes(p, ids, accepted, now) + [CommitBatch(p, now)]
  }

  lemma {:induction false} Appended(c: Config, s: System, steps: seq<Step>, last: Step)
    requires AllEnabled(c, s, steps) && Enabled(c, After(c, s, steps), last)
    ensures AllEnabled(c, s, steps + [last])
    ensures After(c, s, steps + [last]) == Apply(c, After(c, s, steps), last)
    decreases |steps|
  {
    hide Enabled, Apply;
    if steps == [] {
      assert [] + [last] == [last];
    } else {
      assert (steps + [last])[1..] == steps[1..] + [last];
      Appended(c, Apply(c, s, steps[0]), steps[1..], last);
    }
  }

  /** After the first i events of the batch. */
  predicate Midway(c: Config, s: System, t: System, p: nat, ids: seq<EventId>, i: nat, accepted: set<EventId>, now: int)
    requires i <= |ids|
  {
    && t.rows == s.rows && t.batches.Keys == s.batches.Keys + {p}
    && (forall q :: q in s.batches && q != p ==> t.batches[q] == s.batches[q])
    && t.batches[p].ids == ids && t.batches[p].began == now && t.batches[p].done == i
    && t.batches[p].marks.Keys == ToSet(ids[..i]) <= s.rows.Keys
    && (forall id :: id in t.batches[p].marks ==> t.batches[p].marks[id] == Mark(c, s.rows[id], id in accepted, now))
    && t.log == s.log + Select(ids[..i], accepted)
  }

  function Mark(c: Config, row: Row, accepted: bool, now: int): Row {
    if accepted then PublishedMark(row, now) else FailedMark(row, c.maxRetries, now)
  }

  lemma {:induction false} PublishesReach(c: Config, s: System, p: nat, ids: seq<EventId>, i: nat,
                                          accepted: set<EventId>, now: int)
    requires Enabled(c, s, OpenBatch(p, ids, now)) && i <= |ids|
    ensures var steps := [OpenBatch(p, ids, now)] + Publishes(p, ids[..i], accepted, now);
            AllEnabled(c, s, steps) && Midway(c, s, After(c, s, steps), p, ids, i, accepted, now)
    decreases i
  {
    hide Apply, Enabled, After, AllEnabled, Midway;
    var steps := [OpenBatch(p, ids, now)] + Publishes(p, ids[..i], accepted, now);
    if i == 0 {
      assert ids[..0] == [];
      assert steps == [OpenBatch(p, ids, now)];
      OpenedMidway(c, s, p, ids, accepted, now);
    } else {
      PublishesReach(c, s, p, ids, i - 1, accepted, now);
      assert ids[..i][..i - 1] == ids[..i - 1];
      var before := [OpenBatch(p, ids, now)] + Publishes(p, ids[..i - 1], accepted, now);
      var last := if ids[i - 1] in accepted then Accept(p, now) else Refuse(p, now);
      assert steps == before + [last];
      NextPublish(c, s, After(c, s, before), p, ids, i - 1, accepted, now);
      Appended(c, s, before, last);
    }
  }

  lemma OpenedMidway(c: Config, s: System, p: nat, ids: seq<EventId>, accepted: set<EventId>, now: int)
    requires Enabled(c, s, OpenBatch(p, ids, now))
    ensures AllEnabled(c, s, [OpenBatch(p, ids, now)])
    ensures Midway(c, s, After(c, s, [OpenBatch(p, ids, now)]), p, ids, 0, accepted, now)
  {
    hide IsOldestBatch;
    var t := Apply(c, s, OpenBatch(p, ids, now));
    assert AllEnabled(c, t, []);
    assert ids[..0] == [];
  }

  lemma NextPublish(c: Config, s: System, t: System, p: nat, ids: seq<EventId>, i: nat, accepted: set<EventId>,
                    now: int)
    requires Enabled(c, s, OpenBatch(p, ids, now)) && i < |ids| && Midway(c, s, t, p, ids, i, accepted, now)
    ensures var step := if ids[i] in accepted then Accept(p, now) else Refuse(p, now);
            Enabled(c, t, step) && Midway(c, s, Apply(c, t, step), p, ids, i + 1, accepted, now)
  {
    UnlockedBatch(c, s, ids);
    assert ids[i] in ids;
    PublishEffect(c, t, p, ids[i] in accepted, now);
    hide *;
    MidwayNext(c, s, t, Apply(c, t, if ids[i] in accepted then Accept(p, now) else Refuse(p, now)),
               p, ids, i, accepted, now);
  }

  lemma MidwayNext(c: Config, s: System, t: System, t': System, p: nat, ids: seq<EventId>, i: nat,
                   accepted: set<EventId>, now: int)
    requires i < |ids| && Midway(c, s, t, p, ids, i, accepted, now)
    requires var sent := ids[i] in accepted;
             && ids[i] in s.rows
             && t'.rows == t.rows
             && t'.log == (if sent then t.log + [ids[i]] else t.log)
             && t'.batches == t.batches[p := Batch(ids, now, i + 1,
               t.batches[p].marks[ids[i] := Mark(c, s.rows[ids[i]], sent, now)],
                  if sent then t.batches[p].accepted + {ids[i]} else t.batches[p].accepted)]
    ensures Midway(c, s, t', p, ids, i + 1, accepted, now)
  {
    PrefixGrows(ids, i, accepted);
    hide Mark, Select, ToSet;
  }

  lemma PublishEffect(c: Config, t: System, p: nat, accepted: bool, now: int)
    requires InProgress(t, p) && t.batches[p].ids[t.batches[p].done] in t.rows
    ensures var b, step := t.batches[p], if accepted then Accept(p, now) else Refuse(p, now);
            var id := b.ids[b.done];
            && Enabled(c, t, step)
            && Apply(c, t, step).rows == t.rows
            && Apply(c, t, step).log == (if accepted then t.log + [id] else t.log)
            && Apply(c, t, step).batches == t.batches[p := Batch(b.ids, b.began, b.done + 1,
                 b.marks[id := Mark(c, t.rows[id], accepted, b.began)], if accepted then b.accepted + {id}
                   else b.accepted)]
  {
  }

  lemma PrefixGrows(ids: seq<EventId>, i: nat, accepted: set<EventId>)
    requires i < |ids|
    ensures ToSet(ids[..i + 1]) == ToSet(ids[..i]) + {ids[i]}
    ensures Select(ids[..i + 1], accepted)
         == Select(ids[..i], accepted) + if ids[i] in accepted then [ids[i]] else []
  {
    assert ids[..i + 1] == ids[..i] + [ids[i]];
    assert ids[..i + 1][..i] == ids[..i];
  }

  lemma MidwayHolds(c: Config, s: System, t: System, p: nat, ids: seq<EventId>, i: nat, accepted: set<EventId>,
                    now: int)
    requires p !in s.batches && i <= |ids| && Midway(c, s, t, p, ids, i, accepted, now)
    ensures t.rows == s.rows && t.log == s.log + Select(ids[..i], accepted)
    ensures p in t.batches && t.batches - {p} == s.batches
  {
    hide Mark, Select, ToSet;
  }

  /** A committed batch is what the protocol reaches by those steps. */
  lemma CommittedBatchIsSteps(c: Config, s: System, p: nat, ids: seq<EventId>, accepted: set<EventId>, now: int)
    requires Enabled(c, s, OpenBatch(p, ids, now))
    ensures var steps := BatchSteps(p, ids, accepted, now);
            && AllEnabled(c, s, steps)
            && After(c, s, steps).rows == Marked(s.rows, ToSet(ids), accepted, c.maxRetries, now)
            && After(c, s, steps).log == s.log + Select(ids, accepted)
            && After(c, s, steps).batches == s.batches
  {
    assert ids[..|ids|] == ids;
    PublishesReach(c, s, p, ids, |ids|, accepted, now);
    var before := [OpenBatch(p, ids, now)] + Publishes(p, ids, accepted, now);
    var t := After(c, s, before);
    Appended(c, s, before, CommitBatch(p, now));
    hide After, AllEnabled, IsOldestBatch, Select;
    assert Apply(c, t, CommitBatch(p, now)).batches == s.batches;
  }

  /** Reading a batch, publishing its first `tried` events and rolling back. */
  function FailedSteps(p: nat, ids: seq<EventId>, tried: nat, accepted: set<EventId>, now: int): seq<Step>
    requires tried <= |ids|
  {
    [OpenBatch(p, ids, now)] + Publishes(p, ids[..tried], accepted, now) + [Rollback(p)]
  }

  /** A failed batch is what those reach: the rows as before, the broker's log longer by what it
      took before the failure. */
  lemma FailedBatchIsSteps(c: Config, s: System, p: nat, ids: seq<EventId>, tried: nat, accepted: set<EventId>,
                           now: int)
    requires Enabled(c, s, OpenBatch(p, ids, now)) && tried <= |ids| && accepted <= ToSet(ids[..tried])
    ensures var steps := FailedSteps(p, ids, tried, accepted, now);
            && AllEnabled(c, s, steps)
            && After(c, s, steps).rows == s.rows
            && After(c, s, steps).log == s.log + Select(ids, accepted)
            && After(c, s, steps).batches == s.batches
  {
    PublishesReach(c, s, p, ids, tried, accepted, now);
    RestUnsent(ids, tried, accepted);
    var before := [OpenBatch(p, ids, now)] + Publishes(p, ids[..tried], accepted, now);
    var t := After(c, s, before);
    assert p !in s.batches;
    hide After, AllEnabled, IsOldestBatch, Select, Midway, Publishes, ToSet;
    MidwayHolds(c, s, t, p, ids, tried, accepted, now);
    Appended(c, s, before, Rollback(p));
  }

  /** Both outcomes of the batch method, as its contract gives them, are what protocol steps reach -
      so everything proved of protocol runs holds of publishers that run it. */
  lemma BatchMethodIsSteps(c: Config, s: System, p: nat, ids: seq<EventId>, tried: nat, accepted: set<EventId>,
                           err: bool, rows: Rows, log: seq<EventId>, now: int)
    returns (steps: seq<Step>)
    requires Enabled(c, s, OpenBatch(p, ids, now)) && tried <= |ids| && accepted <= ToSet(ids[..tried])
    requires log == s.log + Select(ids, accepted)
    requires if err then rows == s.rows else rows == Marked(s.rows, ToSet(ids), accepted, c.maxRetries, now)
    ensures AllEnabled(c, s, steps)
    ensures After(c, s, steps).rows == rows && After(c, s, steps).log == log && After(c, s, steps).batches == s.batches
  {
    hide *;
    if err {
      FailedBatchIsSteps(c, s, p, ids, tried, accepted, now);
      steps := FailedSteps(p, ids, tried, accepted, now);
    } else {
      CommittedBatchIsSteps(c, s, p, ids, accepted, now);
      steps := BatchSteps(p, ids, accepted, now);
    }
  }
}
