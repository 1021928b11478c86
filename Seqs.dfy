/**
 * Ruby's array queries used throughout the model, written once:
 * `find_all` (Filter), `find` (FindIndex), `reverse.find` / `find_all.last`
 * (FindLastIndex) and `pop` (PopLast, which leaves an empty array empty).
 */
module Seqs {
  import opened Options

  /** The elements of `s` that satisfy `p`, in their original order. */
  function Filter<T>(s: seq<T>, p: T -> bool): (r: seq<T>)
    ensures |r| <= |s|
    ensures forall i :: 0 <= i < |r| ==> p(r[i])
    ensures forall i :: 0 <= i < |s| && p(s[i]) ==> s[i] in r
    ensures forall x :: x in r ==> x in s
  {
    if s == [] then []
    else (if p(s[0]) then [s[0]] else []) + Filter(s[1..], p)
  }

  /** Filtering a concatenation filters each part: together with the singleton
      case this pins Filter down as "the subsequence of matching elements". */
  lemma {:induction false} FilterAppend<T>(a: seq<T>, b: seq<T>, p: T -> bool)
    ensures Filter(a + b, p) == Filter(a, p) + Filter(b, p)
  {
    if a == [] {
      assert a + b == b;
    } else {
      assert (a + b)[1..] == a[1..] + b;
      FilterAppend(a[1..], b, p);
    }
  }

  /** A sequence whose every element matches is its own filter. */
  lemma {:induction false} FilterAllMatch<T>(s: seq<T>, p: T -> bool)
    requires forall i :: 0 <= i < |s| ==> p(s[i])
    ensures Filter(s, p) == s
  {
    if s != [] {
      FilterAllMatch(s[1..], p);
    }
  }

  /** A sequence none of whose elements matches filters to nothing. */
  lemma {:induction false} FilterNoneMatch<T>(s: seq<T>, p: T -> bool)
    requires forall i :: 0 <= i < |s| ==> !p(s[i])
    ensures Filter(s, p) == []
  {
    if s != [] {
      FilterNoneMatch(s[1..], p);
    }
  }

  /** The positions from `n` on of the elements that satisfy `p`, in increasing
      order; `MatchPositionsMatch`, `MatchPositionsIncreasing` and
      `MatchPositionsComplete` say so. */
  function MatchPositions<T>(s: seq<T>, p: T -> bool, n: nat): (pos: seq<nat>)
    requires n <= |s|
    ensures forall j :: 0 <= j < |pos| ==> n <= pos[j] < |s|
    decreases |s| - n
  {
    if n == |s| then []
    else (if p(s[n]) then [n] else []) + MatchPositions(s, p, n + 1)
  }

  /** Every listed position holds a matching element. */
  lemma {:induction false} MatchPositionsMatch<T>(s: seq<T>, p: T -> bool, n: nat)
    requires n <= |s|
    ensures forall j :: 0 <= j < |MatchPositions(s, p, n)| ==> p(s[MatchPositions(s, p, n)[j]])
    decreases |s| - n
  {
    if n < |s| {
      MatchPositionsMatch(s, p, n + 1);
      var pos, rest := MatchPositions(s, p, n), MatchPositions(s, p, n + 1);
      if p(s[n]) {
        assert forall j :: 0 < j < |pos| ==> pos[j] == rest[j - 1];
      }
    }
  }

  /** The positions are listed in increasing order, so each at most once. */
  lemma {:induction false} MatchPositionsIncreasing<T>(s: seq<T>, p: T -> bool, n: nat)
    requires n <= |s|
    ensures forall j, k :: 0 <= j < k < |MatchPositions(s, p, n)| ==>
              MatchPositions(s, p, n)[j] < MatchPositions(s, p, n)[k]
    decreases |s| - n
  {
    if n < |s| {
      MatchPositionsIncreasing(s, p, n + 1);
      var pos, rest := MatchPositions(s, p, n), MatchPositions(s, p, n + 1);
      if p(s[n]) {
        assert forall j :: 0 < j < |pos| ==> pos[j] == rest[j - 1];
      }
    }
  }

  /** Every matching position from `n` on is listed. */
  lemma {:induction false} MatchPositionsComplete<T>(s: seq<T>, p: T -> bool, n: nat)
    requires n <= |s|
    ensures forall i :: n <= i < |s| && p(s[i]) ==> i in MatchPositions(s, p, n)
    decreases |s| - n
  {
    if n < |s| {
      MatchPositionsComplete(s, p, n + 1);
      var pos, rest := MatchPositions(s, p, n), MatchPositions(s, p, n + 1);
      assert pos == (if p(s[n]) then [n] else []) + rest;
    }
  }

  /** Filtering the tail from `n` on picks exactly the elements at the matching
      positions, in order: so `find_all` keeps both order and multiplicity. */
  lemma {:induction false} FilterAtMatchPositions<T>(s: seq<T>, p: T -> bool, n: nat)
    requires n <= |s|
    ensures var r, pos := Filter(s[n..], p), MatchPositions(s, p, n);
            |r| == |pos| && forall j :: 0 <= j < |r| ==> r[j] == s[pos[j]]
    decreases |s| - n
  {
    if n < |s| {
      assert s[n..][1..] == s[n + 1..];
      FilterAtMatchPositions(s, p, n + 1);
    }
  }

  /** Position of the first element satisfying `p` (Ruby `find` / `index`). */
  function FindIndex<T>(s: seq<T>, p: T -> bool): (r: Option<nat>)
    ensures r.None? <==> forall i :: 0 <= i < |s| ==> !p(s[i])
    ensures r.Some? ==> r.value < |s| && p(s[r.value])
    ensures r.Some? ==> forall i :: 0 <= i < r.value ==> !p(s[i])
  {
    if s == [] then None
    else if p(s[0]) then Some(0)
    else match FindIndex(s[1..], p)
      case None => None
      case Some(k) => Some(k + 1)
  }

  /** Position of the last element satisfying `p` (Ruby `reverse.find`). */
  function FindLastIndex<T>(s: seq<T>, p: T -> bool): (r: Option<nat>)
    ensures r.None? <==> forall i :: 0 <= i < |s| ==> !p(s[i])
    ensures r.Some? ==> r.value < |s| && p(s[r.value])
    ensures r.Some? ==> forall i :: r.value < i < |s| ==> !p(s[i])
  {
    if s == [] then None
    else if p(s[|s| - 1]) then Some(|s| - 1)
    else FindLastIndex(s[..|s| - 1], p)
  }

  /** Ruby `Array#pop` as far as the array is concerned: drops the last
      element, and leaves an empty array as it is. */
  function PopLast<T>(s: seq<T>): (r: seq<T>)
    ensures s == [] ==> r == []
    ensures s != [] ==> |r| == |s| - 1 && s == r + [s[|s| - 1]]
  {
    if s == [] then [] else s[..|s| - 1]
  }

  /** `s` without its longest suffix of elements satisfying `p` (a `pop` loop guarded by `p(last)`). */
  function DropLastWhile<T>(s: seq<T>, p: T -> bool): (r: seq<T>)
    ensures |r| <= |s| && r == s[..|r|]
    ensures forall i :: |r| <= i < |s| ==> p(s[i])
    ensures r == [] || !p(r[|r| - 1])
  {
    if s == [] || !p(s[|s| - 1]) then s
    else DropLastWhile(s[..|s| - 1], p)
  }

  /** The cut point is unique: a prefix followed only by matching elements and
      not ending in one is the result. */
  lemma DropLastWhileAt<T>(s: seq<T>, p: T -> bool, k: nat)
    requires k <= |s| && (forall i :: k <= i < |s| ==> p(s[i]))
    requires k == 0 || !p(s[k - 1])
    ensures DropLastWhile(s, p) == s[..k]
  {
    var r := DropLastWhile(s, p);
    assert !(|r| < k) && !(k < |r|);
  }

  /** `r` is an initial segment of `s`. */
  predicate IsPrefix<T(==)>(r: seq<T>, s: seq<T>)
  {
    |r| <= |s| && r == s[..|r|]
  }
}
