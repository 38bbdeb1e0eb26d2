/** Order-preserving filtering of a sequence: Python's `[x for x in s if p(x)]`. */
module Seqs {

  function Filter<T>(p: T -> bool, s: seq<T>): (r: seq<T>)
    ensures |r| <= |s|
    ensures forall k :: 0 <= k < |r| ==> p(r[k])
    decreases |s|
  {
    if s == [] then []
    else (if p(s[0]) then [s[0]] else []) + Filter(p, s[1..])
  }

  lemma FilterSingleton<T>(p: T -> bool, a: T)
    ensures Filter(p, [a]) == if p(a) then [a] else []
  {
    assert [a][1..] == [];
  }

  /** `r` is `s` read at the strictly increasing positions `idx`. */
  ghost predicate SubsequenceAt<T>(r: seq<T>, s: seq<T>, idx: seq<nat>)
  {
    && |idx| == |r|
    && (forall k :: 0 <= k < |idx| ==> idx[k] < |s| && r[k] == s[idx[k]])
    && (forall k, l :: 0 <= k < l < |idx| ==> idx[k] < idx[l])
  }

  /**
   * The filter keeps exactly the elements at the positions where `p` holds,
   * in their original order.
   */
  lemma {:induction false} FilterPositions<T>(p: T -> bool, s: seq<T>) returns (idx: seq<nat>)
    ensures SubsequenceAt(Filter(p, s), s, idx)
    ensures forall i :: 0 <= i < |s| ==> (p(s[i]) <==> i in idx)
    decreases |s|
  {
    if s == [] {
      idx := [];
    } else {
      var n := |s| - 1;
      var front := s[..n];
      assert s == front + [s[n]];
      FilterConcat(p, front, [s[n]]);
      var rest := FilterPositions(p, front);
      assert forall i :: 0 <= i < n ==> front[i] == s[i];
      FilterSingleton(p, s[n]);
      if p(s[n]) {
        idx := rest + [n];
        var r := Filter(p, s);
        assert r == Filter(p, front) + [s[n]];
        assert forall k :: 0 <= k < |rest| ==> idx[k] == rest[k] && r[k] == front[rest[k]];
      } else {
        idx := rest;
      }
    }
  }

  lemma {:induction false} FilterConcat<T>(p: T -> bool, a: seq<T>, b: seq<T>)
    ensures Filter(p, a + b) == Filter(p, a) + Filter(p, b)
    decreases |a|
  {
    if a == [] {
      assert a + b == b;
    } else {
      FilterConcat(p, a[1..], b);
      assert (a + b)[0] == a[0];
      assert (a + b)[1..] == a[1..] + b;
    }
  }

  lemma {:induction false} FilterIdempotent<T>(p: T -> bool, s: seq<T>)
    ensures Filter(p, Filter(p, s)) == Filter(p, s)
    decreases |s|
  {
    if s != [] {
      FilterIdempotent(p, s[1..]);
      var head := if p(s[0]) then [s[0]] else [];
      FilterConcat(p, head, Filter(p, s[1..]));
    }
  }

  /** The positions of `s` whose element satisfies `p`. */
  ghost function Positions<T>(p: T -> bool, s: seq<T>): set<nat>
  {
    set i: nat | i < |s| && p(s[i])
  }

  /** The filter's length counts the positions where `p` holds. */
  lemma {:induction false} FilterCount<T>(p: T -> bool, s: seq<T>)
    ensures |Filter(p, s)| == |Positions(p, s)|
    decreases |s|
  {
    if s != [] {
      var n := |s| - 1;
      var front := s[..n];
      assert s == front + [s[n]];
      FilterConcat(p, front, [s[n]]);
      FilterCount(p, front);
      var extra: set<nat> := if p(s[n]) then {n} else {};
      assert Positions(p, s) == Positions(p, front) + extra;
      assert n !in Positions(p, front);
    }
  }

  ghost predicate Distinct<T>(s: seq<T>)
  {
    forall i, j :: 0 <= i < j < |s| ==> s[i] != s[j]
  }

  /** A sequence without repetitions has as many distinct elements as it is long. */
  lemma {:induction false} DistinctCard<T>(s: seq<T>)
    requires Distinct(s)
    ensures |set x | x in s| == |s|
    decreases |s|
  {
    if s != [] {
      var n := |s| - 1;
      DistinctCard(s[..n]);
      assert (set x | x in s) == (set x | x in s[..n]) + {s[n]};
      assert s[n] !in s[..n];
    }
  }
}
