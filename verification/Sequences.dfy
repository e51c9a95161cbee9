/** Facts about sequences and finite sets of any kind. */
module Sequences {
  ghost predicate Distinct<T>(s: seq<T>) {
    forall i, j :: 0 <= i < j < |s| ==> s[i] != s[j]
  }

  ghost function Elements<T>(s: seq<T>): set<T> {
    set x | x in s
  }

  lemma Nothing<T>(a: seq<T>)
    ensures [] + a == a && a + [] == a
  {
  }

  lemma Associative<T>(a: seq<T>, b: seq<T>, c: seq<T>)
    ensures a + b + c == a + (b + c)
  {
  }

  lemma IsSlice<T>(s: seq<T>, start: nat, end: nat, t: seq<T>)
    requires start <= end <= |s| && |t| == end - start
    requires forall k :: 0 <= k < |t| ==> t[k] == s[start + k]
    ensures t == s[start..end]
  {
  }

  lemma SubsetSize<T>(a: set<T>, b: set<T>)
    requires a <= b
    ensures |a| <= |b|
  {
    assert |b| == |a| + |b - a| by {
      assert b == a + (b - a);
    }
  }

  lemma {:induction false} ElementCount<T>(s: seq<T>)
    requires Distinct(s)
    ensures |Elements(s)| == |s|
  {
    if s != [] {
      var last := |s| - 1;
      var init := s[..last];
      ElementCount(init);
      assert Elements(s) == Elements(init) + {s[last]};
      assert s[last] !in init;
    }
  }
}
