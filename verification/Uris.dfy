/** Slash-separated URIs and their components. */
module Uris {
  predicate NoSlash(s: string) {
    forall i :: 0 <= i < |s| ==> s[i] != '/'
  }

  /** The position of the first slash, or the length of the string. */
  function SlashAt(s: string): (i: nat)
    ensures i <= |s| && NoSlash(s[..i]) && (i < |s| ==> s[i] == '/')
  {
    if s == "" || s[0] == '/' then 0
    else
      var i := 1 + SlashAt(s[1..]);
      i
  }

  /** The components of a URI; it may have empty ones. */
  function Split(s: string): (components: seq<string>)
    ensures components != []
    decreases |s|
  {
    var i := SlashAt(s);
    if i == |s| then [s] else [s[..i]] + Split(s[i + 1..])
  }

  lemma SlashAtConcat(a: string, b: string)
    requires NoSlash(a)
    ensures SlashAt(a + "/" + b) == |a| && SlashAt(a) == |a|
  {
    var s := a + "/" + b;
    assert s[|a|] == '/' && forall k :: 0 <= k < |a| ==> s[k] == a[k];
  }

  lemma SplitFirst(a: string, b: string)
    requires NoSlash(a)
    ensures Split(a + "/" + b) == [a] + Split(b) && Split(a) == [a]
  {
    SlashAtConcat(a, b);
    var s := a + "/" + b;
    assert s[..|a|] == a && s[|a| + 1..] == b;
  }

  lemma {:induction false} SplitConcat(a: string, b: string)
    ensures Split(a + "/" + b) == Split(a) + Split(b)
    decreases |a|
  {
    hide Split;
    var i := SlashAt(a);
    var first := a[..i];
    if i == |a| {
      assert first == a;
      SplitFirst(a, b);
    } else {
      var rest := a[i + 1..];
      SplitConcat(rest, b);
      assert a == first + "/" + rest;
      assert a + "/" + b == first + "/" + (rest + "/" + b);
      SplitFirst(first, rest);
      SplitFirst(first, rest + "/" + b);
    }
  }

  lemma SplitLast(a: string, b: string)
    requires NoSlash(b)
    ensures Split(a + "/" + b) == Split(a) + [b]
  {
    SplitFirst(b, "");
    SplitConcat(a, b);
  }

  /** Components joined by slashes. */
  function Join(components: seq<string>): string
    requires components != []
  {
    if |components| == 1 then components[0] else components[0] + "/" + Join(components[1..])
  }

  lemma {:induction false} JoinSplit(s: string)
    ensures Join(Split(s)) == s
    decreases |s|
  {
    if SlashAt(s) == |s| {
      assert Split(s) == [s];
    } else {
      var first, rest := SplitStep(s);
      hide Split, SlashAt;
      JoinSplit(rest);
      JoinMore(first, Split(rest));
    }
  }

  lemma SplitStep(s: string) returns (first: string, rest: string)
    requires SlashAt(s) < |s|
    ensures s == first + "/" + rest && NoSlash(first) && |rest| < |s|
    ensures Split(s) == [first] + Split(rest) && Split(first) == [first]
  {
    var i := SlashAt(s);
    first, rest := s[..i], s[i + 1..];
    assert s == first + "/" + rest;
    SplitFirst(first, rest);
  }

  lemma JoinMore(first: string, rest: seq<string>)
    requires rest != []
    ensures Join([first] + rest) == first + "/" + Join(rest)
  {
    assert ([first] + rest)[1..] == rest;
  }

  lemma {:induction false} JoinConcat(a: seq<string>, b: seq<string>)
    requires a != [] && b != []
    ensures Join(a + b) == Join(a) + "/" + Join(b)
  {
    if |a| == 1 {
      assert (a + b)[1..] == b;
    } else {
      JoinConcat(a[1..], b);
      assert (a + b)[1..] == a[1..] + b;
    }
  }

  predicate IsChild(parent: string, child: string) {
    |parent| < |child| && child[..|parent|] == parent && child[|parent|] == '/'
  }

  predicate IsChildOrSame(parent: string, child: string) {
    parent == child || IsChild(parent, child)
  }

  /** The comparison of characters compares components. */
  lemma ChildComponents(parent: string, child: string)
    ensures IsChildOrSame(parent, child) <==> Split(parent) <= Split(child)
  {
    hide Split, Join;
    if IsChild(parent, child) {
      var rest := child[|parent| + 1..];
      assert child == parent + "/" + rest;
      SplitConcat(parent, rest);
    }
    if Split(parent) <= Split(child) {
      PrefixIsChild(parent, child);
    }
  }

  lemma PrefixIsChild(parent: string, child: string)
    requires Split(parent) <= Split(child)
    ensures IsChildOrSame(parent, child)
  {
    hide Split, Join;
    JoinSplit(parent);
    JoinSplit(child);
    var rest := Split(child)[|Split(parent)|..];
    assert Split(child) == Split(parent) + rest;
    if rest != [] {
      JoinConcat(Split(parent), rest);
      assert child == parent + "/" + Join(rest);
    } else {
      assert Split(child) == Split(parent);
    }
  }

  predicate IsName(s: string) {
    s != "" && NoSlash(s)
  }

  /** What follows the last slash. */
  function BaseName(path: string): string {
    Split(path)[|Split(path)| - 1]
  }
}
