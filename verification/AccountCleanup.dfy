/** Taking a deleted account out of what is coming, and erasing it, however often the events are
    delivered (activity/internal/application/account_lifecycle_service.go). */
module AccountCleanup {
  import opened Wrappers
  import opened Sequences

  type Id = nat

  datatype Kind = Rsvp | GroupInvite | SessionInvite | Membership

  /** Something the account can still give up. */
  datatype Item = Item(kind: Kind, id: Id)

  /** What the account's clean-up reads and writes; `given` lists what was given up, in order. */
  datatype Account = Account(deletedAt: Option<int>, open: set<Item>, given: seq<Item>, erased: bool,
    confirmations: nat)

  /** The order the kinds are given up in. */
  function Rank(kind: Kind): nat {
    match kind
    case Rsvp => 0
    case GroupInvite => 1
    case SessionInvite => 2
    case Membership => 3
  }

  function KindAt(k: nat): (kind: Kind)
    requires k < 4
    ensures Rank(kind) == k
  {
    if k == 0 then Rsvp else if k == 1 then GroupInvite else if k == 2 then SessionInvite else Membership
  }

  function Before(open: set<Item>, k: nat): set<Item> {
    set item | item in open && Rank(item.kind) < k
  }

  function At(open: set<Item>, k: nat): set<Item> {
    set item | item in open && Rank(item.kind) == k
  }

  function Behind(open: set<Item>, k: nat): set<Item> {
    set item | item in open && Rank(item.kind) > k
  }

  /** A run took what is open away one by one, kind after kind, until its first failing call;
      `calls` is how many calls it got before that. */
  ghost predicate RunOf(before: Account, now: int, calls: nat, after: Account, ok: bool) {
    && after.erased == before.erased && after.confirmations == before.confirmations
    && Took(before.open, before.given, after.open, after.given)
    && after.deletedAt == (if calls == 0 || before.deletedAt.Some? then before.deletedAt else Some(now))
    && (ok <==> calls > 4 + |before.open|)
    && (ok ==> after.open == {})
    && exists k: nat :: k <= 4 && StoppedAt(before, after, k)
  }

  /** Kinds before the k-th are all given up, those behind it untouched. */
  predicate StoppedAt(before: Account, after: Account, k: nat) {
    Before(after.open, k) == {} && Behind(after.open, k) == Behind(before.open, k)
  }

  class AccountStates {
    var deletedAt: Option<int>
    var open: set<Item>
    var given: seq<Item>
    var erased: bool
    var confirmations: nat

    function State(): Account
      reads this
    {
      Account(deletedAt, open, given, erased, confirmations)
    }

    /** A repeat keeps the first time. */
    method MarkDeleted(now: int)
      modifies this`deletedAt
      ensures deletedAt == (if old(deletedAt).Some? then old(deletedAt) else Some(now))
    {
      if deletedAt.None? { deletedAt := Some(now); }
    }

    /** The ids of a kind still open, each once. */
    method List(kind: Kind) returns (ids: seq<Id>)
      ensures Distinct(ids) && forall id :: id in ids <==> Item(kind, id) in open
      ensures |ids| == |At(open, Rank(kind))|
    {
      ids := [];
      var left := set item | item in open && item.kind == kind;
      ghost var all := left;
      assert left == At(open, Rank(kind));
      while left != {}
        invariant left <= all && Distinct(ids)
        invariant forall id :: id in ids <==> Item(kind, id) in all - left
        invariant |ids| + |left| == |all|
        decreases |left|
      {
        var item :| item in left;
        left := left - {item};
        ids := ids + [item.id];
      }
    }

    method Give(item: Item)
      requires item in open
      modifies this`open, this`given
      ensures open == old(open) - {item} && given == old(given) + [item]
    {
      open := open - {item};
      given := given + [item];
    }

    /** One step: list a kind and give up each, until a call fails. */
    method GiveUpAll(kind: Kind, calls: nat) returns (left: nat, ok: bool)
      modifies this`open, this`given
      ensures open <= old(open) && forall item :: item in old(open) && item.kind != kind ==> item in open
      ensures Took(old(open), old(given), open, given)
      ensures ok <==> calls > |At(old(open), Rank(kind))|
      ensures ok ==> left == calls - 1 - |At(old(open), Rank(kind))| && At(open, Rank(kind)) == {}
    {
      if calls == 0 {
        assert given[|given|..] == [];
        return 0, false;
      }
      var ids := List(kind);
      left, ok := calls - 1, true;
      ghost var n := |ids|;
      assert given[|given|..] == [];
      for i := 0 to |ids|
        invariant left == calls - 1 - i
        invariant open <= old(open) && forall item :: item in old(open) && item.kind != kind ==> item in open
        invariant forall j :: i <= j < |ids| ==> Item(kind, ids[j]) in open
        invariant forall j :: 0 <= j < i ==> Item(kind, ids[j]) !in open
        invariant Took(old(open), old(given), open, given)
      {
        if left == 0 { return 0, false; }
        TookOneMore(old(open), old(given), open, given, Item(kind, ids[i]));
        Give(Item(kind, ids[i]));
        left := left - 1;
      }
    }

    /** Gives up everything of each kind in turn, stopping at the first failing call. */
    method Deactivate(now: int, calls: nat) returns (ok: bool)
      modifies this`deletedAt, this`open, this`given
      ensures RunOf(old(State()), now, calls, State(), ok)
    {
      assert given[|given|..] == [];
      if calls == 0 {
        assert StoppedAt(State(), State(), 0);
        return false;
      }
      MarkDeleted(now);
      var left := calls - 1;
      ok := true;
      for k := 0 to 4
        invariant ok && left >= 0 && Took(old(open), old(given), open, given)
        invariant deletedAt == (if old(deletedAt).Some? then old(deletedAt) else Some(now))
        invariant Before(open, k) == {} && At(open, k) == At(old(open), k) && Behind(open, k) == Behind(old(open), k)
        invariant left + k + |Before(old(open), k)| + 1 == calls
      {
        ghost var before, said := open, given;
        left, ok := GiveUpAll(KindAt(k), left);
        TookBoth(old(open), old(given), before, said, open, given);
        OnlyThatKind(before, open, k);
        KindsStep(old(open), k);
        if !ok {
          assert StoppedAt(old(State()), State(), k);
          return;
        }
        assert Before(open, k + 1) == Before(open, k) + At(open, k);
        assert Behind(open, k) == Behind(old(open), k);
        NextKind(old(open), open, k);
      }
      assert Before(old(open), 4) == old(open) && Before(open, 4) == open;
      assert StoppedAt(old(State()), State(), 4);
    }

    /** Erases once: a repeat finds the account erased and confirms nothing. A failure rolls the
        whole transaction back. */
    method EraseAccount(fails: bool) returns (ok: bool)
      modifies this`erased, this`confirmations
      ensures ok == !fails
      ensures State() == ErasedAfter(old(State()), [fails])
    {
      assert [fails][..0] == [];
      if fails { return false; }
      if erased { return true; }
      erased := true;
      confirmations := confirmations + 1;
      return true;
    }
  }

  // ---- Giving up one by one ----

  /** Exactly what is gone was given, each once. */
  ghost predicate Took(open: set<Item>, given: seq<Item>, open': set<Item>, given': seq<Item>) {
    && given <= given' && open' <= open
    && Distinct(given'[|given|..]) && ToSet(given'[|given|..]) == open - open'
  }

  lemma TookOneMore(open: set<Item>, given: seq<Item>, open': set<Item>, given': seq<Item>, item: Item)
    requires Took(open, given, open', given') && item in open'
    ensures Took(open, given, open' - {item}, given' + [item])
  {
    var said := given'[|given|..];
    assert (given' + [item])[|given|..] == said + [item];
    ToSetOfAppend(said, item);
    assert item !in ToSet(said);
  }

  lemma TookBoth(a: set<Item>, ga: seq<Item>, b: set<Item>, gb: seq<Item>, c: set<Item>, gc: seq<Item>)
    requires Took(a, ga, b, gb) && Took(b, gb, c, gc)
    ensures Took(a, ga, c, gc)
  {
    var first, rest := gb[|ga|..], gc[|gb|..];
    assert gc[|ga|..] == first + rest;
    forall x | x in first ensures x !in rest {
      assert x in ToSet(first);
      assert x in rest ==> x in ToSet(rest);
    }
    DistinctConcat(first, rest);
    forall x ensures x in ToSet(first + rest) <==> x in a - c {
      assert x in first + rest <==> x in ToSet(first) || x in ToSet(rest);
    }
  }

  lemma KindsStep(open: set<Item>, k: nat)
    ensures |Before(open, k + 1)| == |Before(open, k)| + |At(open, k)| <= |open|
  {
    assert Before(open, k + 1) == Before(open, k) + At(open, k);
    SubsetSize(Before(open, k + 1), open);
  }

  lemma NextKind(open: set<Item>, open': set<Item>, k: nat)
    requires open' <= open && Behind(open', k) == Behind(open, k)
    ensures At(open', k + 1) == At(open, k + 1) && Behind(open', k + 1) == Behind(open, k + 1)
  {
    forall item | item in open && Rank(item.kind) > k ensures item in open' {
      assert item in Behind(open, k);
    }
  }

  lemma OnlyThatKind(before: set<Item>, after: set<Item>, k: nat)
    requires k < 4 && after <= before
    requires forall item :: item in before && item.kind != KindAt(k) ==> item in after
    ensures Before(after, k) == Before(before, k) && Behind(after, k) == Behind(before, k)
  {
  }

  // ---- However often it is cut short ----

  /** Runs one after another, each with the calls it got. */
  ghost predicate RunsTo(before: Account, runs: seq<(int, nat)>, after: Account)
    decreases |runs|
  {
    if runs == [] then after == before
    else exists mid, ok :: RunOf(before, runs[0].0, runs[0].1, mid, ok) && RunsTo(mid, runs[1..], after)
  }

  lemma {:induction false} RunsGiveEachOnce(before: Account, runs: seq<(int, nat)>, after: Account)
    requires RunsTo(before, runs, after)
    ensures Took(before.open, before.given, after.open, after.given)
    ensures before.deletedAt.Some? ==> after.deletedAt == before.deletedAt
    decreases |runs|
  {
    if runs == [] {
      assert after.given[|before.given|..] == [];
    } else {
      var mid, ok :| RunOf(before, runs[0].0, runs[0].1, mid, ok) && RunsTo(mid, runs[1..], after);
      RunsGiveEachOnce(mid, runs[1..], after);
      TookBoth(before.open, before.given, mid.open, mid.given, after.open, after.given);
    }
  }

  /** However many runs were cut short, and wherever, one that completes leaves nothing open, and
      between them each thing was given up exactly once: what one undisturbed run does. */
  lemma CompletedRunFinishes(before: Account, runs: seq<(int, nat)>, mid: Account, now: int, calls: nat, after: Account,
                             at: int, undisturbed: Account)
    requires RunsTo(before, runs, mid) && RunOf(mid, now, calls, after, true)
    requires RunOf(before, at, 5 + |before.open|, undisturbed, true)
    ensures after.open == {} == undisturbed.open && after.deletedAt.Some?
    ensures before.given <= after.given && before.given <= undisturbed.given
    ensures multiset(after.given[|before.given|..]) == multiset(undisturbed.given[|before.given|..])
  {
    RunsGiveEachOnce(before, runs, mid);
    TookBoth(before.open, before.given, mid.open, mid.given, after.open, after.given);
    SameElements(after.given[|before.given|..], undisturbed.given[|before.given|..]);
  }

  lemma {:induction false} DistinctMultiset(s: seq<Item>, x: Item)
    requires Distinct(s)
    ensures multiset(s)[x] == (if x in s then 1 else 0)
  {
    if s != [] {
      var init, last := s[..|s| - 1], s[|s| - 1];
      DistinctMultiset(init, x);
      assert s == init + [last];
    }
  }

  lemma SameElements(a: seq<Item>, b: seq<Item>)
    requires Distinct(a) && Distinct(b) && ToSet(a) == ToSet(b)
    ensures multiset(a) == multiset(b)
  {
    forall x ensures multiset(a)[x] == multiset(b)[x] {
      DistinctMultiset(a, x);
      DistinctMultiset(b, x);
      assert x in ToSet(a) <==> x in ToSet(b);
    }
  }

  /** Deliveries of the erasure, each failing or not. */
  function ErasedAfter(a: Account, failures: seq<bool>): Account {
    if failures == [] then a
    else
      var before := ErasedAfter(a, failures[..|failures| - 1]);
      if failures[|failures| - 1] || before.erased then before
      else before.(erased := true, confirmations := before.confirmations + 1)
  }

  /** However often the erasure is delivered, it is confirmed once, as soon as one delivery does
      not fail. */
  lemma {:induction false} ErasedOnce(a: Account, failures: seq<bool>)
    requires !a.erased
    ensures var after := ErasedAfter(a, failures);
      after.erased == (false in failures)
        && after.confirmations == a.confirmations + (if false in failures then 1 else 0)
  {
    if failures != [] {
      var init, last := failures[..|failures| - 1], failures[|failures| - 1];
      ErasedOnce(a, init);
      assert failures == init + [last];
    }
  }
}
