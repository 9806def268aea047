/**
 * `Array.prototype.filter` as a function on sequences, and what it promises:
 * it keeps exactly the elements the predicate accepts, in their original
 * order, without repeating any.
 */
module Seqs {

  /** `s.filter(p)`. */
  function Filter<T>(p: T -> bool, s: seq<T>): (r: seq<T>)
    ensures |r| <= |s|
    ensures forall i :: 0 <= i < |r| ==> r[i] in s && p(r[i])
    ensures forall i :: 0 <= i < |s| && p(s[i]) ==> s[i] in r
  {
    if s == [] then []
    else if p(s[0]) then [s[0]] + Filter(p, s[1..])
    else Filter(p, s[1..])
  }

  /** One step of the filter: the head is kept exactly when `p` accepts it. */
  lemma FilterCons<T>(p: T -> bool, x: T, s: seq<T>)
    ensures Filter(p, [x] + s) == (if p(x) then [x] else []) + Filter(p, s)
  {
    assert ([x] + s)[1..] == s;
  }

  /** Every index shifted by one. */
  function Shift(idx: seq<nat>): (r: seq<nat>)
    ensures |r| == |idx| && forall k :: 0 <= k < |idx| ==> r[k] == idx[k] + 1
  {
    seq(|idx|, k requires 0 <= k < |idx| => idx[k] + 1)
  }

  /** The positions of `s` whose element `p` accepts, in increasing order. */
  function KeptIndices<T>(p: T -> bool, s: seq<T>): seq<nat>
  {
    if s == [] then []
    else (if p(s[0]) then [0] else []) + Shift(KeptIndices(p, s[1..]))
  }

  /** `r` is `s` read at the strictly increasing positions `idx`. */
  ghost predicate Selects<T>(idx: seq<nat>, s: seq<T>, r: seq<T>)
  {
    && |idx| == |r|
    && (forall k :: 0 <= k < |idx| ==> idx[k] < |s| && r[k] == s[idx[k]])
    && (forall k, l :: 0 <= k < l < |idx| ==> idx[k] < idx[l])
  }

  /** Reading the tail of `s` at `idx` is reading `s` at the shifted positions. */
  lemma SelectsShift<T>(idx: seq<nat>, s: seq<T>, r: seq<T>)
    requires s != [] && Selects(idx, s[1..], r)
    ensures Selects(Shift(idx), s, r)
    ensures Selects([0] + Shift(idx), s, [s[0]] + r)
  {
    var sh := Shift(idx);
    assert forall k :: 0 <= k < |sh| ==> sh[k] < |s| && r[k] == s[sh[k]];
    var sh0: seq<nat> := [0] + sh;
    assert forall k :: 0 < k < |sh0| ==> sh0[k] == sh[k - 1];
  }

  /**
   * `Filter(p, s)` is `s` read at the positions `KeptIndices(p, s)`: it is a
   * subsequence of `s`, in the original order and without duplicates.
   */
  lemma {:induction false} FilterSelectsKept<T>(p: T -> bool, s: seq<T>)
    ensures Selects(KeptIndices(p, s), s, Filter(p, s))
  {
    if s != [] {
      FilterSelectsKept(p, s[1..]);
      SelectsShift(KeptIndices(p, s[1..]), s, Filter(p, s[1..]));
    }
  }

  /** `KeptIndices(p, s)` holds exactly the positions whose element `p` accepts. */
  lemma {:induction false} KeptIndicesExact<T>(p: T -> bool, s: seq<T>)
    ensures forall i :: 0 <= i < |s| ==> (i in KeptIndices(p, s) <==> p(s[i]))
  {
    if s != [] {
      var tail := KeptIndices(p, s[1..]);
      KeptIndicesExact(p, s[1..]);
      var sh := Shift(tail);
      var idx := (if p(s[0]) then [0] else []) + sh;
      forall i | 0 <= i < |s|
        ensures i in idx <==> p(s[i])
      {
        if i == 0 {
          assert 0 !in sh;
        } else {
          assert s[i] == s[1..][i - 1];
          if i in sh {
            var k :| 0 <= k < |sh| && sh[k] == i;
            assert tail[k] == i - 1;
          }
          if i - 1 in tail {
            var k :| 0 <= k < |tail| && tail[k] == i - 1;
            assert sh[k] == i;
          }
        }
      }
    }
  }

  /** A predicate that accepts every element keeps the whole sequence. */
  lemma {:induction false} FilterKeepsAll<T>(p: T -> bool, s: seq<T>)
    requires forall x :: x in s ==> p(x)
    ensures Filter(p, s) == s
  {
    if s != [] {
      FilterKeepsAll(p, s[1..]);
      assert [s[0]] + s[1..] == s;
    }
  }

  /** Predicates that agree on the elements of `s` filter it alike. */
  lemma {:induction false} FilterCongruent<T>(p: T -> bool, q: T -> bool, s: seq<T>)
    requires forall x :: x in s ==> p(x) == q(x)
    ensures Filter(p, s) == Filter(q, s)
  {
    if s != [] {
      FilterCongruent(p, q, s[1..]);
    }
  }

  /**
   * Filtering by a stricter predicate `q` can be done on the result of the
   * looser `p`: `s.filter(q)` equals `s.filter(p).filter(q)`.
   */
  lemma {:induction false} FilterNarrowing<T>(p: T -> bool, q: T -> bool, s: seq<T>)
    requires forall x :: x in s && q(x) ==> p(x)
    ensures Filter(q, Filter(p, s)) == Filter(q, s)
  {
    if s != [] {
      FilterNarrowing(p, q, s[1..]);
    }
  }
}
