/** Row selection: a query without joins keeps the matching rows in table order. */
module Filtering {

  function Filter<T>(s: seq<T>, p: T -> bool): seq<T> {
    if s == [] then []
    else Filter(s[..|s| - 1], p) + if p(s[|s| - 1]) then [s[|s| - 1]] else []
  }

  lemma FilterAppend<T>(s: seq<T>, x: T, p: T -> bool)
    ensures Filter(s + [x], p) == Filter(s, p) + if p(x) then [x] else []
  {
    assert (s + [x])[..|s + [x]| - 1] == s;
  }

  lemma {:induction false} FilterMembers<T(!new)>(s: seq<T>, p: T -> bool)
    ensures forall x :: x in Filter(s, p) <==> x in s && p(x)
  {
    if s != [] {
      var front, last := s[..|s| - 1], s[|s| - 1];
      assert s == front + [last];
      FilterMembers(front, p);
    }
  }

  /** Where the k-th kept row stood in the table. */
  ghost function Source<T>(s: seq<T>, p: T -> bool, k: nat): (i: nat)
    requires k < |Filter(s, p)|
    ensures i < |s| && s[i] == Filter(s, p)[k] && p(s[i])
  {
    var front := s[..|s| - 1];
    if k < |Filter(front, p)| then Source(front, p, k) else |s| - 1
  }

  /** Kept rows stay in order. */
  lemma {:induction false} SourceIncreases<T>(s: seq<T>, p: T -> bool, j: nat, k: nat)
    requires j < k < |Filter(s, p)|
    ensures Source(s, p, j) < Source(s, p, k)
  {
    var front := s[..|s| - 1];
    if k < |Filter(front, p)| {
      SourceIncreases(front, p, j, k);
    }
  }

  /** Rewriting rows the filter does not see changes nothing. */
  lemma {:induction false} FilterAgrees<T>(s: seq<T>, s': seq<T>, p: T -> bool)
    requires |s| == |s'|
    requires forall i :: 0 <= i < |s| ==> p(s[i]) == p(s'[i]) && (p(s[i]) ==> s[i] == s'[i])
    ensures Filter(s, p) == Filter(s', p)
  {
    if s != [] {
      FilterAgrees(s[..|s| - 1], s'[..|s| - 1], p);
    }
  }

  /** Filtering out rows that would be dropped anyway changes nothing. */
  lemma {:induction false} FilterFilter<T>(s: seq<T>, q: T -> bool, p: T -> bool)
    requires forall i :: 0 <= i < |s| && p(s[i]) ==> q(s[i])
    ensures Filter(Filter(s, q), p) == Filter(s, p)
  {
    if s != [] {
      var front, last := s[..|s| - 1], s[|s| - 1];
      FilterFilter(front, q, p);
      if q(last) {
        FilterAppend(Filter(front, q), last, p);
        assert Filter(s, q) == Filter(front, q) + [last];
      } else {
        assert Filter(s, q) == Filter(front, q);
      }
    }
  }

  /** Rewriting row j so that it no longer matches removes exactly its place from the result. */
  lemma {:induction false} FilterDrop<T>(s: seq<T>, s': seq<T>, p: T -> bool, j: nat)
    requires j < |s| == |s'| && p(s[j]) && !p(s'[j])
    requires forall i :: 0 <= i < |s| && i != j ==> s[i] == s'[i]
    ensures var r := |Filter(s[..j], p)|;
            && r < |Filter(s, p)|
            && Filter(s, p)[r] == s[j]
            && Filter(s', p) == Filter(s, p)[..r] + Filter(s, p)[r + 1..]
  {
    var front, front', last := s[..|s| - 1], s'[..|s| - 1], s[|s| - 1];
    if j == |s| - 1 {
      assert front == front' == s[..j];
    } else {
      FilterDrop(front, front', p, j);
      assert front[..j] == s[..j];
      DropThenAppend(Filter(front, p), |Filter(s[..j], p)|, if p(last) then [last] else []);
    }
  }

  lemma DropThenAppend<T>(s: seq<T>, r: nat, rest: seq<T>)
    requires r < |s|
    ensures (s[..r] + s[r + 1..]) + rest == (s + rest)[..r] + (s + rest)[r + 1..]
  {
  }

  /** Rows that match nothing select nothing. */
  lemma {:induction false} FilterNone<T>(s: seq<T>, p: T -> bool)
    requires forall i :: 0 <= i < |s| ==> !p(s[i])
    ensures Filter(s, p) == []
  {
    if s != [] {
      FilterNone(s[..|s| - 1], p);
    }
  }
}
