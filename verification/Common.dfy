/** What several of the models share. */
module Common {

  datatype Option<+T> = None | Some(value: T)

  ghost predicate Distinct(s: seq<nat>) {
    forall i, j :: 0 <= i < j < |s| ==> s[i] != s[j]
  }

  function Elems(s: seq<nat>): set<nat> {
    set x | x in s
  }

  // The numbers from `first` up to `limit`.
  ghost function Span(first: nat, limit: nat): set<nat> {
    set p: nat | p < limit && InSpan(first, limit, p)
  }

  predicate InSpan(first: nat, limit: nat, p: nat) {
    first <= p < limit
  }

  lemma {:induction false} SpanSize(first: nat, limit: nat)
    requires first <= limit
    ensures |Span(first, limit)| == limit - first
  {
    if first < limit {
      SpanSize(first, limit - 1);
      assert Span(first, limit) == Span(first, limit - 1) + {limit - 1};
    } else {
      assert Span(first, limit) == {};
    }
  }

  lemma SubsetSize(a: set<nat>, b: set<nat>)
    requires a <= b
    ensures |a| <= |b|
  {
    assert a + (b - a) == b;
    assert |b| == |a| + |b - a|;
  }

  lemma {:induction false} DistinctSize(s: seq<nat>)
    requires Distinct(s)
    ensures |Elems(s)| == |s|
  {
    if s != [] {
      var rest := s[1..];
      DistinctSize(rest);
      assert s == [s[0]] + rest;
      assert Elems(s) == Elems(rest) + {s[0]};
      assert s[0] !in rest;
    }
  }
}
