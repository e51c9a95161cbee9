/**
 Sequences of positions: the play order of a queue is a permutation of its positions.
 */
module Permutations {
  import opened Sequences

  /** Every position 0..|s|-1 occurs exactly once. */
  ghost predicate IsPermutation(s: seq<nat>) {
    Distinct(s) && forall i :: 0 <= i < |s| ==> s[i] < |s|
  }

  ghost predicate IsIdentity(s: seq<nat>) {
    forall i :: 0 <= i < |s| ==> s[i] == i
  }

  ghost function Below(n: nat): (r: set<nat>)
    ensures |r| == n && forall x :: x in r <==> 0 <= x < n
  {
    if n == 0 then {} else Below(n - 1) + {n - 1}
  }

  /** No position is missing from a permutation. */
  lemma NoPositionMissing(s: seq<nat>, p: nat)
    requires IsPermutation(s) && p < |s|
    ensures p in s
  {
    var all := Elements(s);
    ElementCount(s);
    if p !in s {
      SubsetSize(all, Below(|s|) - {p});
      assert false;
    }
  }

  /** The slot at which position p is played. */
  ghost function SlotOf(s: seq<nat>, p: nat): (i: nat)
    requires IsPermutation(s) && p < |s|
    ensures i < |s| && s[i] == p
  {
    NoPositionMissing(s, p);
    var i :| 0 <= i < |s| && s[i] == p;
    i
  }

  lemma SlotOfAt(s: seq<nat>, i: nat)
    requires IsPermutation(s) && i < |s|
    ensures SlotOf(s, s[i]) == i
  {
    var j := SlotOf(s, s[i]);
    assert j == i;
  }

  /** The same songs in the same slots, however the order array was rearranged. */
  lemma SwapKeepsPermutation(s: seq<nat>, i: nat, j: nat)
    requires IsPermutation(s) && i < |s| && j < |s|
    ensures IsPermutation(s[i := s[j]][j := s[i]])
  {
  }

  /** A sequence with the elements of a permutation is one. */
  lemma SameElements(s: seq<nat>, t: seq<nat>)
    requires IsPermutation(s) && multiset(t) == multiset(s)
    ensures IsPermutation(t)
  {
    assert |t| == |multiset(t)| == |multiset(s)| == |s|;
    forall i | 0 <= i < |t| ensures t[i] < |t| {
      assert t[i] in multiset(s);
    }
    forall i, j | 0 <= i < j < |t| ensures t[i] != t[j] {
      if t[i] == t[j] {
        CountTwice(t, i, j);
        CountOnce(s, t[i]);
      }
    }
  }

  lemma CountTwice<T>(s: seq<T>, i: nat, j: nat)
    requires i < j < |s| && s[i] == s[j]
    ensures multiset(s)[s[i]] >= 2
  {
    assert s == s[..j] + [s[j]] + s[j + 1..];
    assert s[i] in s[..j];
    assert s[i] in multiset(s[..j]);
  }

  lemma {:induction false} CountOnce<T>(s: seq<T>, x: T)
    requires Distinct(s)
    ensures multiset(s)[x] <= 1
  {
    if s != [] {
      var last := |s| - 1;
      CountOnce(s[..last], x);
      assert s == s[..last] + [s[last]];
      if s[last] == x { assert x !in multiset(s[..last]); }
    }
  }

  // ---------------------------------------------------------------------------------------------
  // Cutting and inserting
  // ---------------------------------------------------------------------------------------------

  /** Cut the block [start, end) and put it back so that it begins at `to`. */
  function CutInsert<T>(s: seq<T>, start: nat, end: nat, to: nat): (r: seq<T>)
    requires start <= end <= |s| && to + (end - start) <= |s|
    ensures |r| == |s|
  {
    var rest := s[..start] + s[end..];
    rest[..to] + s[start..end] + rest[to..]
  }

  /** Where CutInsert puts the element at position p. */
  function NewPosition(p: nat, start: nat, end: nat, to: nat): (q: nat)
    requires start <= end
  {
    if end <= p < to + (end - start) then p - (end - start)
    else if to <= p < start then p + (end - start)
    else if start <= p < end then to + (p - start)
    else p
  }

  /** NewPosition is the position map of CutInsert: a permutation under which every element keeps its identity. */
  lemma NewPositionFollows<T>(s: seq<T>, start: nat, end: nat, to: nat, p: nat)
    requires start <= end <= |s| && to + (end - start) <= |s| && p < |s|
    ensures var q := NewPosition(p, start, end, to); q < |s| && CutInsert(s, start, end, to)[q] == s[p]
  {
  }

  lemma NewPositionIsInjective(n: nat, start: nat, end: nat, to: nat, p: nat, q: nat)
    requires start <= end <= n && to + (end - start) <= n && p < n && q < n && p != q
    ensures NewPosition(p, start, end, to) != NewPosition(q, start, end, to)
  {
  }

  /** Moving back undoes the move. */
  lemma CutInsertBack<T>(s: seq<T>, start: nat, end: nat, to: nat)
    requires start <= end <= |s| && to + (end - start) <= |s|
    ensures CutInsert(CutInsert(s, start, end, to), to, to + (end - start), start) == s
  {
    var t := CutInsert(s, start, end, to);
    var rest := s[..start] + s[end..];
    assert t[to..to + (end - start)] == s[start..end];
    assert t[..to] + t[to + (end - start)..] == rest;
  }

  /** Take the element at `from` out and put it back at index `to`. */
  function MoveOne<T>(s: seq<T>, from: nat, to: nat): (r: seq<T>)
    requires from < |s| && to < |s|
    ensures |r| == |s|
  {
    CutInsert(s, from, from + 1, to)
  }

  lemma MoveOneAt<T>(s: seq<T>, from: nat, to: nat, k: nat)
    requires from < |s| && to < |s| && k < |s|
    ensures MoveOne(s, from, to)[k] ==
            if k == to then s[from] else if from <= k < to then s[k + 1] else if to < k <= from then s[k - 1] else s[k]
  {
  }

  lemma MoveOneKeepsElements<T>(s: seq<T>, from: nat, to: nat)
    requires from < |s| && to < |s|
    ensures multiset(MoveOne(s, from, to)) == multiset(s)
  {
    var a, x, b := s[..from], s[from..from + 1], s[from + 1..];
    var rest := a + b;
    var c, d := rest[..to], rest[to..];
    assert s == a + x + b;
    assert rest == c + d;
    calc {
      multiset(MoveOne(s, from, to));
      multiset(c + x + d);
      multiset(c) + multiset(x) + multiset(d);
      multiset(c + d) + multiset(x);
      multiset(a + b) + multiset(x);
      multiset(a + x + b);
    }
  }
}
