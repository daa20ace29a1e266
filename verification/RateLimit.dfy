/** The token-bucket rate limiter (shared/middleware/rate_limit.go). Tokens are real numbers,
    time is counted in nanoseconds. */
module RateLimit {
  import opened Wrappers

  datatype Limit = Limit(burst: int, perMinute: int)

  datatype BucketState = BucketState(tokens: real, last: int)

  type Buckets = map<string, BucketState>

  predicate ValidLimit(limit: Limit) {
    limit.burst >= 1 && limit.perMinute >= 1
  }

  function Burst(limit: Limit): real {
    limit.burst as real
  }

  function PerSec(limit: Limit): real {
    limit.perMinute as real / 60.0
  }

  function Seconds(ns: int): real {
    ns as real / 1_000_000_000.0
  }

  /** The tokens that flow back in ns nanoseconds. */
  function Gain(limit: Limit, ns: int): real {
    Seconds(ns) * PerSec(limit)
  }

  function Min(x: real, y: real): real {
    if x < y then x else y
  }

  // ----- one request, one sweep -----

  function Refilled(limit: Limit, b: BucketState, now: int): real {
    Min(Burst(limit), b.tokens + Gain(limit, now - b.last))
  }

  /** What a request at `now` finds in its bucket; a missing bucket starts full. */
  function Level(limit: Limit, s: Buckets, key: string, now: int): real {
    if key in s then Refilled(limit, s[key], now) else Burst(limit)
  }

  function Allows(limit: Limit, s: Buckets, key: string, now: int): bool {
    Level(limit, s, key, now) >= 1.0
  }

  function AfterTake(limit: Limit, s: Buckets, key: string, now: int): Buckets {
    var level := Level(limit, s, key, now);
    s[key := BucketState(if level >= 1.0 then level - 1.0 else level, now)]
  }

  /** time.Duration((1 - tokens) / perSec * second), which drops the part of a nanosecond. */
  function Wait(limit: Limit, tokens: real): int
    requires ValidLimit(limit)
  {
    ((1.0 - tokens) / PerSec(limit) * 1_000_000_000.0).Floor
  }

  /** How long an empty bucket takes to fill, in whole nanoseconds. */
  function Refill(limit: Limit): int
    requires ValidLimit(limit)
  {
    (Burst(limit) / PerSec(limit) * 1_000_000_000.0).Floor
  }

  function AfterSweep(limit: Limit, s: Buckets, now: int): Buckets
    requires ValidLimit(limit)
  {
    map k | k in s && now - s[k].last < Refill(limit) :: s[k]
  }

  /** The Retry-After header: whole seconds, rounded up, at least one. */
  function RetryAfterSeconds(wait: int): int {
    var seconds := (wait + 999_999_999) / 1_000_000_000;
    if seconds < 1 then 1 else seconds
  }

  // ----- the limiter itself -----

  class Bucket {
    var tokens: real
    var last: int

    constructor (tokens: real, last: int)
      ensures this.tokens == tokens && this.last == last
    {
      this.tokens, this.last := tokens, last;
    }
  }

  class RateLimiter {
    const limit: Limit
    var buckets: map<string, Bucket>

    constructor (limit: Limit)
      requires ValidLimit(limit)
      ensures this.limit == limit && Valid() && State() == map[]
    {
      this.limit := limit;
      buckets := map[];
    }

    ghost predicate Valid()
      reads this, buckets.Values
    {
      && ValidLimit(limit)
      && forall j, k :: j in buckets && k in buckets && j != k ==> buckets[j] != buckets[k]
    }

    function State(): Buckets
      reads this, buckets.Values
    {
      map k | k in buckets :: BucketState(buckets[k].tokens, buckets[k].last)
    }

    /** Spends a token of the key's bucket, or says how long until there is one. */
    method Take(key: string, now: int) returns (allowed: bool, wait: int)
      requires Valid()
      modifies this, buckets.Values
      ensures Valid() && fresh(buckets.Values - old(buckets.Values))
      ensures State() == AfterTake(limit, old(State()), key, now)
      ensures allowed == Allows(limit, old(State()), key, now)
      ensures wait == if allowed then 0 else Wait(limit, Level(limit, old(State()), key, now))
    {
      hide Gain, Wait;
      ghost var before := State();
      GainAdds(limit, 0, 0);
      var b: Bucket;
      if key in buckets {
        b := buckets[key];
      } else {
        b := new Bucket(Burst(limit), now);
        buckets := buckets[key := b];
      }
      b.tokens := Min(Burst(limit), b.tokens + Gain(limit, now - b.last));
      b.last := now;
      assert b.tokens == Level(limit, before, key, now);
      if b.tokens >= 1.0 {
        b.tokens := b.tokens - 1.0;
        allowed, wait := true, 0;
      } else {
        allowed, wait := false, Wait(limit, b.tokens);
      }
    }

    /** Drops the buckets that have been idle long enough to be full again. */
    method Sweep(now: int)
      requires Valid()
      modifies this
      ensures Valid() && buckets.Values <= old(buckets.Values)
      ensures State() == AfterSweep(limit, old(State()), now)
    {
      var refill := Refill(limit);
      var keys := buckets.Keys;
      ghost var before := buckets;
      while keys != {}
        invariant keys <= buckets.Keys <= before.Keys
        invariant forall k :: k in buckets ==> buckets[k] == before[k]
        invariant forall k :: k in before && k !in keys ==> (k in buckets <==> now - before[k].last < refill)
        decreases |keys|
      {
        var k :| k in keys;
        if now - buckets[k].last >= refill {
          buckets := buckets - {k};
        }
        keys := keys - {k};
      }
    }
  }

  /** NewRateLimiter: both numbers must be positive. */
  method NewRateLimiter(limit: Limit) returns (r: Result<RateLimiter, string>)
    ensures r.Ok? <==> ValidLimit(limit)
    ensures r.Ok? ==> fresh(r.value) && r.value.Valid() && r.value.limit == limit && r.value.State() == map[]
  {
    if limit.burst < 1 || limit.perMinute < 1 {
      return Err("rate limit burst and per-minute rate must be positive");
    }
    var limiter := new RateLimiter(limit);
    return Ok(limiter);
  }

  // ----- the flow of tokens -----

  lemma GainAdds(limit: Limit, a: int, b: int)
    ensures Gain(limit, a + b) == Gain(limit, a) + Gain(limit, b)
    ensures Gain(limit, 0) == 0.0
  {
  }

  lemma GainGrows(limit: Limit, a: int, b: int)
    requires ValidLimit(limit) && a <= b
    ensures Gain(limit, a) <= Gain(limit, b)
    ensures a >= 0 ==> Gain(limit, a) >= 0.0
  {
  }

  lemma FloorOfQuotient(limit: Limit, x: real, n: int)
    requires ValidLimit(limit) && n == (x / PerSec(limit) * 1_000_000_000.0).Floor
    ensures Gain(limit, n) <= x < Gain(limit, n + 1)
  {
    var q := x / PerSec(limit);
    assert q * PerSec(limit) == x;
    assert Seconds(n) <= q < Seconds(n + 1);
    assert Seconds(n) * PerSec(limit) <= q * PerSec(limit);
    assert q * PerSec(limit) < Seconds(n + 1) * PerSec(limit);
  }

  /** The fill time is exact when the rate divides it, and short by less than a nanosecond's flow otherwise. */
  lemma RefillFills(limit: Limit)
    requires ValidLimit(limit)
    ensures Refill(limit) >= 0
    ensures Gain(limit, Refill(limit)) <= Burst(limit) < Gain(limit, Refill(limit) + 1)
    ensures Gain(limit, Refill(limit)) == Burst(limit) <==> 60_000_000_000 * limit.burst % limit.perMinute == 0
  {
    var n := Refill(limit);
    FloorOfQuotient(limit, Burst(limit), n);
    if n < 0 {
      GainGrows(limit, n + 1, 0);
      GainAdds(limit, 0, 0);
    }
    InUnits(limit, n);
    var total, p := 60_000_000_000 * limit.burst, limit.perMinute;
    InUnits(limit, n + 1);
    assert n * p <= total < (n + 1) * p;
    DivisionIs(total, p, n);
  }

  /** Gain counted in units of one 60-billionth of a token. */
  lemma InUnits(limit: Limit, n: int)
    ensures 60_000_000_000.0 * Gain(limit, n) == (n * limit.perMinute) as real
  {
  }

  lemma DivisionIs(total: int, p: int, n: int)
    requires p > 0 && n * p <= total < (n + 1) * p
    ensures total % p == 0 <==> n * p == total
  {
    var q, r := total / p, total % p;
    assert total == q * p + r;
    MulOrder(q + 1, n, p);
    MulOrder(n + 1, q, p);
    assert q == n;
  }

  lemma MulOrder(a: int, b: int, p: int)
    requires p > 0
    ensures a <= b ==> a * p <= b * p
  {
  }

  // ----- traces -----

  datatype Op = Take(key: string, at: int) | Sweep(at: int)

  predicate Monotone(ops: seq<Op>, from: int) {
    ops == [] || (from <= ops[0].at && Monotone(ops[1..], ops[0].at))
  }

  function Step(limit: Limit, s: Buckets, op: Op): Buckets
    requires ValidLimit(limit)
  {
    match op
    case Take(key, at) => AfterTake(limit, s, key, at)
    case Sweep(at) => AfterSweep(limit, s, at)
  }

  predicate Answer(limit: Limit, s: Buckets, op: Op) {
    op.Take? && Allows(limit, s, op.key, op.at)
  }

  /** The answers to the requests of a trace; a sweep's entry is false. */
  function Answers(limit: Limit, s: Buckets, ops: seq<Op>): (answers: seq<bool>)
    requires ValidLimit(limit)
    ensures |answers| == |ops|
    decreases |ops|
  {
    if ops == [] then []
    else [Answer(limit, s, ops[0])] + Answers(limit, Step(limit, s, ops[0]), ops[1..])
  }

  /** The same requests answered by a limiter that never sweeps. */
  function AnswersUnswept(limit: Limit, s: Buckets, ops: seq<Op>): (answers: seq<bool>)
    requires ValidLimit(limit)
    ensures |answers| == |ops|
    decreases |ops|
  {
    if ops == [] then []
    else [Answer(limit, s, ops[0])]
         + AnswersUnswept(limit, if ops[0].Take? then Step(limit, s, ops[0]) else s, ops[1..])
  }

  /** Every bucket holds between nothing and the burst, and was last touched in the past. */
  predicate Sound(limit: Limit, s: Buckets, now: int) {
    forall k :: k in s ==> 0.0 <= s[k].tokens <= Burst(limit) && s[k].last <= now
  }

  lemma LevelInRange(limit: Limit, s: Buckets, key: string, now: int)
    requires ValidLimit(limit) && Sound(limit, s, now)
    ensures 0.0 <= Level(limit, s, key, now) <= Burst(limit)
  {
    if key in s {
      GainGrows(limit, 0, now - s[key].last);
      GainAdds(limit, 0, 0);
    }
  }

  lemma StepSound(limit: Limit, s: Buckets, now: int, op: Op)
    requires ValidLimit(limit) && Sound(limit, s, now) && now <= op.at
    ensures Sound(limit, Step(limit, s, op), op.at)
  {
    hide Gain, Refill;
    if op.Take? {
      LevelInRange(limit, s, op.key, op.at);
    }
  }

  // ----- how much gets through -----

  function Allowed(limit: Limit, s: Buckets, ops: seq<Op>, key: string): nat
    requires ValidLimit(limit)
    decreases |ops|
  {
    if ops == [] then 0
    else (if ops[0].Take? && ops[0].key == key && Answer(limit, s, ops[0]) then 1 else 0)
         + Allowed(limit, Step(limit, s, ops[0]), ops[1..], key)
  }

  function Sweeps(ops: seq<Op>): nat {
    if ops == [] then 0 else (if ops[0].Sweep? then 1 else 0) + Sweeps(ops[1..])
  }

  /** What sweeping a not quite full bucket gives away. */
  function Slack(limit: Limit): real
    requires ValidLimit(limit)
  {
    Burst(limit) - Gain(limit, Refill(limit))
  }

  /** What n sweeps can give away at most. */
  function Gifts(limit: Limit, n: nat): real
    requires ValidLimit(limit)
  {
    n as real * Slack(limit)
  }

  lemma OneMoreGift(limit: Limit, n: nat)
    requires ValidLimit(limit)
    ensures Gifts(limit, n + 1) == Gifts(limit, n) + Slack(limit)
    ensures Gifts(limit, 0) == 0.0
  {
    hide Slack;
    var x := Slack(limit);
    assert (n + 1) as real == n as real + 1.0;
  }

  /** One step costs the tokens it hands out and gains what flows in, plus the slack of a sweep. */
  lemma StepBalance(limit: Limit, s: Buckets, now: int, op: Op, key: string)
    requires ValidLimit(limit) && Sound(limit, s, now) && now <= op.at
    ensures Level(limit, Step(limit, s, op), key, op.at)
          + (if op.Take? && op.key == key && Answer(limit, s, op) then 1.0 else 0.0)
         <= Level(limit, s, key, now) + Gain(limit, op.at - now) + if op.Sweep? then Slack(limit) else 0.0
  {
    hide Gain, Refill;
    LevelInRange(limit, s, key, now);
    GainGrows(limit, 0, op.at - now);
    GainAdds(limit, 0, 0);
    RefillFills(limit);
    if key in s {
      GainAdds(limit, now - s[key].last, op.at - now);
      if op.Sweep? && op.at - s[key].last >= Refill(limit) {
        GainGrows(limit, Refill(limit), op.at - s[key].last);
      }
    }
  }

  lemma {:induction false} AllowedBalance(limit: Limit, s: Buckets, now: int, ops: seq<Op>, key: string, until: int)
    requires ValidLimit(limit) && Sound(limit, s, now) && Monotone(ops, now) && now <= until
    requires forall op :: op in ops ==> op.at <= until
    ensures Allowed(limit, s, ops, key) as real
         <= Level(limit, s, key, now) + Gain(limit, until - now) + Gifts(limit, Sweeps(ops))
    decreases |ops|
  {
    hide Gain, Refill, Level, Step, Answer, Sound, Slack, Gifts;
    OneMoreGift(limit, 0);
    if ops == [] {
      LevelInRange(limit, s, key, now);
      GainGrows(limit, 0, until - now);
    } else {
      var op := ops[0];
      assert op in ops;
      StepSound(limit, s, now, op);
      StepBalance(limit, s, now, op, key);
      assert forall o :: o in ops[1..] ==> o in ops;
      AllowedBalance(limit, Step(limit, s, op), op.at, ops[1..], key, until);
      GainAdds(limit, op.at - now, until - op.at);
      OneMoreGift(limit, Sweeps(ops[1..]));
    }
  }

  function After(limit: Limit, s: Buckets, ops: seq<Op>): Buckets
    requires ValidLimit(limit)
    decreases |ops|
  {
    if ops == [] then s else After(limit, Step(limit, s, ops[0]), ops[1..])
  }

  lemma {:induction false} AfterSound(limit: Limit, s: Buckets, now: int, ops: seq<Op>, until: int)
    requires ValidLimit(limit) && Sound(limit, s, now) && Monotone(ops, now) && now <= until
    requires forall op :: op in ops ==> op.at <= until
    ensures Sound(limit, After(limit, s, ops), until)
    decreases |ops|
  {
    if ops != [] {
      hide Step;
      assert ops[0] in ops;
      StepSound(limit, s, now, ops[0]);
      assert forall o :: o in ops[1..] ==> o in ops;
      AfterSound(limit, Step(limit, s, ops[0]), ops[0].at, ops[1..], until);
    }
  }

  /** A run up to `from`, and what follows until `until`. */
  predicate RunAndWindow(start: int, before: seq<Op>, from: int, window: seq<Op>, until: int) {
    && start <= from <= until
    && Monotone(before, start) && Monotone(window, from)
    && (forall op :: op in before ==> op.at <= from)
    && (forall op :: op in window ==> op.at <= until)
  }

  /** In any window [from, until] of any run, the requests allowed for a key number at most
      Burst + PerMinute / 60 per second of the window; sweeps in the window add the slack of
      each, which is none when the rate divides the fill time. */
  lemma WindowBound(limit: Limit, start: int, before: seq<Op>, window: seq<Op>, key: string, from: int, until: int)
    requires ValidLimit(limit) && RunAndWindow(start, before, from, window, until)
    ensures var allowed := Allowed(limit, After(limit, map[], before), window, key) as real;
            && allowed <= Burst(limit) + Gain(limit, until - from) + Gifts(limit, Sweeps(window))
            && (60_000_000_000 * limit.burst % limit.perMinute == 0 ==>
              allowed <= Burst(limit) + Gain(limit, until - from))
  {
    hide Gain, Refill, Level;
    AfterSound(limit, map[], start, before, from);
    LevelInRange(limit, After(limit, map[], before), key, from);
    AllowedBalance(limit, After(limit, map[], before), from, window, key, until);
    RefillFills(limit);
  }

  /** No window of any run lets through more than the burst and what flows in during it. */
  ghost predicate PlainlyBounded(limit: Limit)
    requires ValidLimit(limit)
  {
    forall start: int, before: seq<Op>, from: int, window: seq<Op>, until: int, key: string ::
      RunAndWindow(start, before, from, window, until) ==>
        Allowed(limit, After(limit, map[], before), window, key) as real <= Burst(limit) + Gain(limit, until - from)
  }

  // ----- a patient caller -----

  /** The key's requests come at least 60 / PerMinute seconds apart, the first one that long after `last`. */
  predicate Spaced(limit: Limit, ops: seq<Op>, key: string, last: Option<int>) {
    ops == [] ||
    if ops[0].Take? && ops[0].key == key
    then (last.Some? ==> Gain(limit, ops[0].at - last.value) >= 1.0) && Spaced(limit, ops[1..], key, Some(ops[0].at))
    else Spaced(limit, ops[1..], key, last)
  }

  /** A caller who keeps that distance is never refused, whatever others do and whenever sweeps run. */
  lemma {:induction false} PatientCallerIsServed(limit: Limit, s: Buckets, now: int, ops: seq<Op>, key: string,
                                                 last: Option<int>)
    requires ValidLimit(limit) && Sound(limit, s, now) && Monotone(ops, now)
    requires key in s ==> last == Some(s[key].last)
    requires Spaced(limit, ops, key, last)
    ensures forall i :: 0 <= i < |ops| && ops[i].Take? && ops[i].key == key ==> Answers(limit, s, ops)[i]
    decreases |ops|
  {
    hide Gain, Refill, Sound;
    if ops != [] {
      var op := ops[0];
      StepSound(limit, s, now, op);
      if op.Take? && op.key == key {
        ServedWhenSpaced(limit, s, now, op, key);
        PatientCallerIsServed(limit, Step(limit, s, op), op.at, ops[1..], key, Some(op.at));
      } else {
        PatientCallerIsServed(limit, Step(limit, s, op), op.at, ops[1..], key, last);
      }
    }
  }

  lemma ServedWhenSpaced(limit: Limit, s: Buckets, now: int, op: Op, key: string)
    requires ValidLimit(limit) && Sound(limit, s, now) && now <= op.at && op == Take(key, op.at)
    requires key in s ==> Gain(limit, op.at - s[key].last) >= 1.0
    ensures Answer(limit, s, op)
  {
    hide Gain;
  }

  // ----- sweeping -----

  /** Swept agrees with unswept, and what only unswept still has would be full by now. */
  predicate Alike(limit: Limit, swept: Buckets, unswept: Buckets, now: int) {
    && swept.Keys <= unswept.Keys
    && (forall k :: k in swept ==> swept[k] == unswept[k])
    && forall k :: k in unswept && k !in swept ==>
      unswept[k].tokens + Gain(limit, now - unswept[k].last) >= Burst(limit)
  }

  lemma AlikeLater(limit: Limit, swept: Buckets, unswept: Buckets, now: int, later: int, key: string)
    requires ValidLimit(limit) && Alike(limit, swept, unswept, now) && now <= later
    ensures Alike(limit, swept, unswept, later)
    ensures Level(limit, swept, key, later) == Level(limit, unswept, key, later)
  {
    hide Gain;
    forall k | k in unswept
      ensures Gain(limit, now - unswept[k].last) <= Gain(limit, later - unswept[k].last)
    {
      GainGrows(limit, now - unswept[k].last, later - unswept[k].last);
    }
  }

  lemma AlikeSweep(limit: Limit, swept: Buckets, unswept: Buckets, now: int)
    requires ValidLimit(limit) && Alike(limit, swept, unswept, now) && Sound(limit, unswept, now)
    requires 60_000_000_000 * limit.burst % limit.perMinute == 0
    ensures Alike(limit, AfterSweep(limit, swept, now), unswept, now)
  {
    hide Gain, Refill;
    RefillFills(limit);
    forall k | k in unswept && now - unswept[k].last >= Refill(limit)
      ensures Gain(limit, now - unswept[k].last) >= Burst(limit)
    {
      GainGrows(limit, Refill(limit), now - unswept[k].last);
    }
  }

  lemma {:induction false} SweptAnswersAlike(limit: Limit, swept: Buckets, unswept: Buckets, now: int, ops: seq<Op>)
    requires ValidLimit(limit) && 60_000_000_000 * limit.burst % limit.perMinute == 0
    requires Alike(limit, swept, unswept, now) && Sound(limit, unswept, now) && Monotone(ops, now)
    ensures Answers(limit, swept, ops) == AnswersUnswept(limit, unswept, ops)
    decreases |ops|
  {
    hide Gain, Refill, Level, Sound;
    if ops != [] {
      var op := ops[0];
      match op
      case Take(key, at) =>
        AlikeLater(limit, swept, unswept, now, at, key);
        StepSound(limit, unswept, now, op);
        SweptAnswersAlike(limit, Step(limit, swept, op), Step(limit, unswept, op), at, ops[1..]);
      case Sweep(at) =>
        AlikeLater(limit, swept, unswept, now, at, "");
        SoundLater(limit, unswept, now, at);
        AlikeSweep(limit, swept, unswept, at);
        SweptAnswersAlike(limit, Step(limit, swept, op), unswept, at, ops[1..]);
    }
  }

  lemma SoundLater(limit: Limit, s: Buckets, now: int, later: int)
    requires Sound(limit, s, now) && now <= later
    ensures Sound(limit, s, later)
  {
  }

  /** No run of requests and sweeps can tell a sweeping limiter from one that never forgets. */
  ghost predicate SweepingInvisible(limit: Limit)
    requires ValidLimit(limit)
  {
    forall ops, start :: Monotone(ops, start) ==> Answers(limit, map[], ops) == AnswersUnswept(limit, map[], ops)
  }

  /** Sweeping is invisible exactly for the limits whose rate divides the fill time. */
  lemma SweepingInvisibleIff(limit: Limit)
    requires ValidLimit(limit)
    ensures SweepingInvisible(limit) <==> 60_000_000_000 * limit.burst % limit.perMinute == 0
  {
    hide Answers, AnswersUnswept, Monotone;
    if 60_000_000_000 * limit.burst % limit.perMinute == 0 {
      forall ops, start | Monotone(ops, start)
        ensures Answers(limit, map[], ops) == AnswersUnswept(limit, map[], ops)
      {
        SweptAnswersAlike(limit, map[], map[], start, ops);
      }
    } else {
      SweepTellsApart(limit);
    }
  }

  function Repeat(n: nat, op: Op): seq<Op> {
    if n == 0 then [] else [op] + Repeat(n - 1, op)
  }

  /** Spend the burst, sweep a fraction of a nanosecond too early, spend the burst again. */
  function TellTale(limit: Limit): seq<Op>
    requires ValidLimit(limit)
  {
    var t := if Refill(limit) < 0 then 0 else Refill(limit);
    Repeat(limit.burst, Take("", 0)) + ([Sweep(t)] + Repeat(limit.burst, Take("", t)))
  }

  lemma {:induction false} RepeatMonotone(n: nat, at: int, key: string, rest: seq<Op>, from: int)
    requires Monotone(rest, at) && from <= at
    ensures Monotone(Repeat(n, Take(key, at)) + rest, from)
    decreases n
  {
    if n == 0 {
      assert Repeat(n, Take(key, at)) + rest == rest;
    } else {
      hide Monotone;
      RepeatMonotone(n - 1, at, key, rest, at);
      var others := Repeat(n - 1, Take(key, at)) + rest;
      MonotoneCons(Take(key, at), others, from);
      assert Repeat(n, Take(key, at)) + rest == [Take(key, at)] + others;
    }
  }

  lemma MonotoneCons(op: Op, rest: seq<Op>, from: int)
    requires from <= op.at && Monotone(rest, op.at)
    ensures Monotone([op] + rest, from)
  {
    assert ([op] + rest)[1..] == rest;
  }

  function Drained(tokens: real, at: int): Buckets {
    map["" := BucketState(tokens, at)]
  }

  lemma AnswersCons(limit: Limit, s: Buckets, op: Op, rest: seq<Op>)
    requires ValidLimit(limit)
    ensures Answers(limit, s, [op] + rest) == [Answer(limit, s, op)] + Answers(limit, Step(limit, s, op), rest)
    ensures AnswersUnswept(limit, s, [op] + rest)
         == [Answer(limit, s, op)] + AnswersUnswept(limit, if op.Take? then Step(limit, s, op) else s, rest)
    ensures Allowed(limit, s, [op] + rest, "")
         == (if op.Take? && op.key == "" && Answer(limit, s, op) then 1 else 0)
          + Allowed(limit, Step(limit, s, op), rest, "")
  {
    assert ([op] + rest)[1..] == rest;
  }

  /** n requests at one instant on a bucket holding n or more tokens: all allowed. */
  lemma {:induction false} SpendAll(limit: Limit, s: Buckets, n: nat, at: int, rest: seq<Op>)
    requires ValidLimit(limit) && s.Keys <= {""} && Level(limit, s, "", at) >= n as real
    requires n == 0 ==> s == Drained(Level(limit, s, "", at), at)
    ensures var ops := Repeat(n, Take("", at)) + rest;
            var left := Drained(Level(limit, s, "", at) - n as real, at);
            && Answers(limit, s, ops) == seq(n, _ => true) + Answers(limit, left, rest)
            && AnswersUnswept(limit, s, ops) == seq(n, _ => true) + AnswersUnswept(limit, left, rest)
            && Allowed(limit, s, ops, "") == n + Allowed(limit, left, rest, "")
    decreases n
  {
    hide Answers, AnswersUnswept, Allowed, Level, Step, Answer, Gain, PerSec;
    if n == 0 {
      assert Repeat(0, Take("", at)) + rest == rest;
      assert seq(0, _ => true) + Answers(limit, s, rest) == Answers(limit, s, rest);
      assert seq(0, _ => true) + AnswersUnswept(limit, s, rest) == AnswersUnswept(limit, s, rest);
    } else {
      var left := Drained(Level(limit, s, "", at) - 1.0, at);
      OneSpent(limit, s, at);
      var others := Repeat(n - 1, Take("", at)) + rest;
      assert Repeat(n, Take("", at)) + rest == [Take("", at)] + others;
      AnswersCons(limit, s, Take("", at), others);
      assert n as real == 1.0 + (n - 1) as real;
      SpendAll(limit, left, n - 1, at, rest);
      assert seq(n, _ => true) == [true] + seq(n - 1, _ => true);
    }
  }

  lemma OneSpent(limit: Limit, s: Buckets, at: int)
    requires ValidLimit(limit) && s.Keys <= {""} && Level(limit, s, "", at) >= 1.0
    ensures var left := Drained(Level(limit, s, "", at) - 1.0, at);
      && Answer(limit, s, Take("", at)) && Step(limit, s, Take("", at)) == left
      && Level(limit, left, "", at) == Level(limit, s, "", at) - 1.0
  {
    hide Gain;
    GainAdds(limit, 0, 0);
  }

  /** n requests at one instant on a bucket holding fewer than n tokens: the last is refused. */
  lemma {:induction false} LastRefused(limit: Limit, s: Buckets, n: nat, at: int)
    requires ValidLimit(limit) && n >= 1 && s.Keys <= {""} && Level(limit, s, "", at) < n as real
    ensures var a := AnswersUnswept(limit, s, Repeat(n, Take("", at))); |a| == n && !a[n - 1]
    decreases n
  {
    hide Gain;
    GainAdds(limit, 0, 0);
    var ops := Repeat(n, Take("", at));
    var s' := Step(limit, s, Take("", at));
    assert ops[1..] == Repeat(n - 1, Take("", at));
    if n > 1 {
      assert Level(limit, s', "", at) < (n - 1) as real;
      LastRefused(limit, s', n - 1, at);
    } else {
      assert ops[1..] == [];
    }
  }

  lemma SweepTellsApart(limit: Limit)
    requires ValidLimit(limit) && 60_000_000_000 * limit.burst % limit.perMinute != 0
    ensures Monotone(TellTale(limit), 0)
    ensures Answers(limit, map[], TellTale(limit)) != AnswersUnswept(limit, map[], TellTale(limit))
  {
    hide Gain, Refill;
    RefillFills(limit);
    GainAdds(limit, 0, 0);
    var n, t := limit.burst, Refill(limit);
    var again := Repeat(n, Take("", t));
    var rest := [Sweep(t)] + again;
    RepeatMonotone(n, t, "", [], t);
    assert again + [] == again;
    assert rest[1..] == again;
    RepeatMonotone(n, 0, "", rest, 0);
    SpendAll(limit, map[], n, 0, rest);
    var left := Drained(0.0, 0);
    assert AfterSweep(limit, left, t) == map[];
    SpendAll(limit, map[], n, t, []);
    LastRefused(limit, left, n, t);
    assert Answers(limit, left, rest) == [false] + Answers(limit, map[], again);
    assert AnswersUnswept(limit, left, rest) == [false] + AnswersUnswept(limit, left, again);
    var a, b := Answers(limit, map[], TellTale(limit)), AnswersUnswept(limit, map[], TellTale(limit));
    assert a[2 * n] && !b[2 * n];
  }

  lemma {:induction false} RepeatsAt(n: nat, op: Op)
    ensures forall o :: o in Repeat(n, op) ==> o == op
  {
    if n > 0 {
      RepeatsAt(n - 1, op);
    }
  }

  /** The tell-tale run lets the burst through twice within the fill time. */
  lemma TellTaleAllows(limit: Limit)
    requires ValidLimit(limit)
    ensures RunAndWindow(0, [], 0, TellTale(limit), Refill(limit))
    ensures Allowed(limit, map[], TellTale(limit), "") == 2 * limit.burst
  {
    hide Gain, Refill;
    RefillFills(limit);
    GainAdds(limit, 0, 0);
    var n, t := limit.burst, Refill(limit);
    var again := Repeat(n, Take("", t));
    var rest := [Sweep(t)] + again;
    RepeatMonotone(n, t, "", [], t);
    assert again + [] == again;
    assert rest[1..] == again;
    RepeatMonotone(n, 0, "", rest, 0);
    RepeatsAt(n, Take("", 0));
    RepeatsAt(n, Take("", t));
    SpendAll(limit, map[], n, 0, rest);
    assert AfterSweep(limit, Drained(0.0, 0), t) == map[];
    SpendAll(limit, map[], n, t, []);
    AnswersCons(limit, Drained(0.0, 0), Sweep(t), again);
  }

  /** The bound without the slack holds of every window of every run exactly for the limits whose
      rate divides the fill time. */
  lemma PlainlyBoundedIff(limit: Limit)
    requires ValidLimit(limit)
    ensures PlainlyBounded(limit) <==> 60_000_000_000 * limit.burst % limit.perMinute == 0
  {
    hide Gain, Refill, Allowed, Monotone, RunAndWindow;
    if 60_000_000_000 * limit.burst % limit.perMinute == 0 {
      forall start: int, before: seq<Op>, from: int, window: seq<Op>, until: int, key: string
        | RunAndWindow(start, before, from, window, until)
        ensures Allowed(limit, After(limit, map[], before), window, key) as real
             <= Burst(limit) + Gain(limit, until - from) {
        WindowBound(limit, start, before, window, key, from, until);
      }
    } else {
      TellTaleAllows(limit);
      RefillFills(limit);
      assert After(limit, map[], []) == map[];
      assert Gain(limit, Refill(limit) - 0) == Gain(limit, Refill(limit));
    }
  }

  // ----- being told when to come back -----

  /** The wait a refused caller is told is right to the nanosecond: until then the bucket cannot
      hold a whole token, one nanosecond later - if nobody used the key - it does, and at that very
      instant it does exactly when the truncation to whole nanoseconds dropped nothing. */
  lemma WaitIsTight(limit: Limit, s: Buckets, key: string, now: int, later: int)
    requires ValidLimit(limit) && Sound(limit, s, now) && !Allows(limit, s, key, now) && now <= later
    ensures var tokens := Level(limit, s, key, now);
            var wait := Wait(limit, tokens);
            && wait >= 0
            && (later < now + wait ==> !Allows(limit, AfterTake(limit, s, key, now), key, later))
            && (later > now + wait ==> Allows(limit, AfterTake(limit, s, key, now), key, later))
            && (later == now + wait ==>
                 (Allows(limit, AfterTake(limit, s, key, now), key, later) <==> Gain(limit, wait) == 1.0 - tokens))
  {
    var tokens := Level(limit, s, key, now);
    var wait := Wait(limit, tokens);
    FloorOfQuotient(limit, 1.0 - tokens, wait);
    hide Gain, Wait;
    GainAdds(limit, 0, 0);
    if wait < 0 {
      GainGrows(limit, wait + 1, 0);
    } else if later < now + wait {
      GainGrows(limit, later - now + 1, wait);
      GainAdds(limit, later - now, 1);
      OneNanosecond(limit);
    } else if later > now + wait {
      GainGrows(limit, wait + 1, later - now);
    }
  }

  lemma OneNanosecond(limit: Limit)
    requires ValidLimit(limit)
    ensures Gain(limit, 1) > 0.0
  {
  }

  lemma WholeSeconds(wait: int)
    requires wait >= 0
    ensures var ns := RetryAfterSeconds(wait) * 1_000_000_000;
      RetryAfterSeconds(wait) >= 1 && wait <= ns && (ns == wait <==> wait > 0 && wait % 1_000_000_000 == 0)
  {
  }

  /** A caller who waits exactly the Retry-After seconds is served, unless the wait came to whole
      seconds by truncation: then the bucket lacks a fraction of a nanosecond's flow, and one
      nanosecond more is enough. */
  lemma RetryAfterServesIff(limit: Limit, s: Buckets, key: string, now: int)
    requires ValidLimit(limit) && Sound(limit, s, now) && !Allows(limit, s, key, now)
    ensures var tokens := Level(limit, s, key, now);
            var wait := Wait(limit, tokens);
            var after, later := AfterTake(limit, s, key, now), now + RetryAfterSeconds(wait) * 1_000_000_000;
            && RetryAfterSeconds(wait) >= 1
            && (Allows(limit, after, key, later) <==>
                 (wait > 0 && wait % 1_000_000_000 == 0 ==> Gain(limit, wait) == 1.0 - tokens))
            && Allows(limit, after, key, later + 1)
  {
    hide Allows, AfterTake, Wait, Level, Sound, RetryAfterSeconds;
    var wait := Wait(limit, Level(limit, s, key, now));
    WaitIsTight(limit, s, key, now, now);
    WholeSeconds(wait);
    WaitIsTight(limit, s, key, now, now + RetryAfterSeconds(wait) * 1_000_000_000);
    WaitIsTight(limit, s, key, now, now + RetryAfterSeconds(wait) * 1_000_000_000 + 1);
  }
}
