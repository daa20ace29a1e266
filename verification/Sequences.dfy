/** Small facts about finite sequences, used wherever ids are listed. */
module Sequences {
  import opened Wrappers

  predicate Distinct<T(==)>(s: seq<T>) {
    forall i, j :: 0 <= i < j < |s| ==> s[i] != s[j]
  }

  function Flatten<T>(parts: seq<seq<T>>): seq<T> {
    if parts == [] then [] else Flatten(parts[..|parts| - 1]) + parts[|parts| - 1]
  }

  /** The last position whose element satisfies p. */
  function LastWhere<T>(s: seq<T>, p: T -> bool): (r: Option<nat>)
    ensures r.Some? ==> r.value < |s| && p(s[r.value]) && forall i :: r.value < i < |s| ==> !p(s[i])
    ensures r.None? ==> forall i :: 0 <= i < |s| ==> !p(s[i])
  {
    if s == [] then None
    else if p(s[|s| - 1]) then Some(|s| - 1)
    else LastWhere(s[..|s| - 1], p)
  }

  function ToSet<T>(s: seq<T>): set<T> {
    set x | x in s
  }

  lemma ToSetOfAppend<T>(s: seq<T>, x: T)
    ensures ToSet(s + [x]) == ToSet(s) + {x}
  {
    forall y ensures y in ToSet(s + [x]) <==> y in ToSet(s) + {x} {
      assert y in s + [x] <==> y in s || y == x;
    }
  }

  lemma DistinctConcat<T>(a: seq<T>, b: seq<T>)
    requires Distinct(a) && Distinct(b) && forall x :: x in a ==> x !in b
    ensures Distinct(a + b)
  {
    forall i, j | 0 <= i < j < |a + b| ensures (a + b)[i] != (a + b)[j] {
      if i < |a| <= j {
        assert a[i] in a && b[j - |a|] in b;
      }
    }
  }

  lemma {:induction false} DistinctSize<T>(s: seq<T>)
    requires Distinct(s)
    ensures |ToSet(s)| == |s|
  {
    if s == [] {
      assert ToSet(s) == {};
    } else {
      var init, last := s[..|s| - 1], s[|s| - 1];
      DistinctSize(init);
      assert s == init + [last];
      ToSetOfAppend(init, last);
      assert last !in init;
    }
  }

  lemma {:induction false} FlattenHas<T>(parts: seq<seq<T>>, x: T)
    ensures x in Flatten(parts) <==> exists p :: 0 <= p < |parts| && x in parts[p]
  {
    if parts != [] {
      var init := parts[..|parts| - 1];
      FlattenHas(init, x);
      assert x in parts[|parts| - 1] ==> 0 <= |parts| - 1 < |parts| && x in parts[|parts| - 1];
      forall p | 0 <= p < |parts| && x in parts[p] ensures x in Flatten(parts) {
        assert p < |parts| - 1 ==> init[p] == parts[p];
      }
      if x in Flatten(init) {
        var p :| 0 <= p < |init| && x in init[p];
        assert parts[p] == init[p];
      }
    }
  }

  lemma SubsetSize<T>(a: set<T>, b: set<T>)
    requires a <= b
    ensures |a| <= |b|
    ensures |a| == |b| ==> a == b
  {
    assert |b - a| + |a| == |b| by { assert (b - a) + a == b; }
  }
}
