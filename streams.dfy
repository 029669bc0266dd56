/**
 * The java.util.stream operations the discovery pipeline uses, over sequences:
 * `allMatch`, `filter` and `map` followed by `collect(toList())`.  Parallel
 * streams give the same results as these sequential definitions because every
 * collector used is ordered.
 */
module Streams {

  /** `stream.allMatch(p)`: vacuously true on an empty stream. */
  function AllMatch<T>(s: seq<T>, p: T -> bool): (r: bool)
    ensures r <==> forall i :: 0 <= i < |s| ==> p(s[i])
    ensures s == [] ==> r
  {
    if s == [] then true else p(s[0]) && AllMatch(s[1..], p)
  }

  /** `stream.filter(p).collect(toList())`. */
  function Filter<T>(s: seq<T>, p: T -> bool): (r: seq<T>)
    ensures |r| <= |s|
    ensures forall x :: x in r ==> x in s && p(x)
  {
    if s == [] then [] else (if p(s[0]) then [s[0]] else []) + Filter(s[1..], p)
  }

  /** `stream.map(f).collect(toList())`. */
  function Map<T, U>(s: seq<T>, f: T -> U): (r: seq<U>)
    ensures |r| == |s|
    ensures forall i :: 0 <= i < |s| ==> r[i] == f(s[i])
  {
    if s == [] then [] else [f(s[0])] + Map(s[1..], f)
  }

  /** The positions at or after `from` whose elements satisfy `p`, in ascending order. */
  ghost function MatchingIndices<T>(s: seq<T>, p: T -> bool, from: nat): seq<nat>
    requires from <= |s|
    decreases |s| - from
  {
    if from == |s| then [] else (if p(s[from]) then [from] else []) + MatchingIndices(s, p, from + 1)
  }

  /** The indices in `idx` are strictly ascending. */
  ghost predicate Ascending(idx: seq<nat>)
  {
    forall k, l :: 0 <= k < l < |idx| ==> idx[k] < idx[l]
  }

  /** Matching positions lie in `[from, |s|)` and ascend. */
  lemma {:induction false} MatchingIndicesAscend<T>(s: seq<T>, p: T -> bool, from: nat)
    requires from <= |s|
    ensures var idx := MatchingIndices(s, p, from);
      (forall k :: 0 <= k < |idx| ==> from <= idx[k] < |s|) && Ascending(idx)
    decreases |s| - from
  {
    if from < |s| {
      MatchingIndicesAscend(s, p, from + 1);
    }
  }

  /** A position in `[from, |s|)` is a matching position iff its element satisfies `p`. */
  lemma {:induction false} MatchingIndicesExact<T>(s: seq<T>, p: T -> bool, from: nat)
    requires from <= |s|
    ensures forall i :: from <= i < |s| ==> (i in MatchingIndices(s, p, from) <==> p(s[i]))
    decreases |s| - from
  {
    if from < |s| {
      MatchingIndicesExact(s, p, from + 1);
      MatchingIndicesAscend(s, p, from + 1);
      assert from !in MatchingIndices(s, p, from + 1);
    }
  }

  /** Element k of the filtered suffix is the element at the k-th matching position. */
  lemma {:induction false} FilterAtMatchingIndices<T>(s: seq<T>, p: T -> bool, from: nat)
    requires from <= |s|
    ensures var idx := MatchingIndices(s, p, from);
      && |Filter(s[from..], p)| == |idx|
      && (forall k :: 0 <= k < |idx| ==> 0 <= idx[k] < |s| && Filter(s[from..], p)[k] == s[idx[k]])
    decreases |s| - from
  {
    if from < |s| {
      FilterAtMatchingIndices(s, p, from + 1);
      assert s[from..][1..] == s[from + 1..];
      assert s[from..][0] == s[from];
    }
  }

  /**
   * Filtering keeps exactly the matching elements, in their original order:
   * element k of the result is the element at the k-th matching position, the
   * positions ascend, and a position is selected iff its element matches.
   */
  lemma FilterSelects<T>(s: seq<T>, p: T -> bool)
    ensures var idx := MatchingIndices(s, p, 0);
      && |Filter(s, p)| == |idx|
      && (forall k :: 0 <= k < |idx| ==> idx[k] < |s| && Filter(s, p)[k] == s[idx[k]])
      && Ascending(idx)
      && (forall i :: 0 <= i < |s| ==> (i in idx <==> p(s[i])))
  {
    MatchingIndicesAscend(s, p, 0);
    MatchingIndicesExact(s, p, 0);
    FilterAtMatchingIndices(s, p, 0);
    assert s[0..] == s;
  }
}
