/**
 The play order in random mode: shuffles, and the priorities that constrain them.
 */
module PlayOrder {
  import opened Permutations
  import opened Sequences
  import opened QueueItems

  function PriorityAt(its: seq<Item>, position: nat): Priority {
    if position < |its| then its[position].priority else 0
  }

  /** From slot `from` on, no song has a higher priority than one before it. */
  ghost predicate NonIncreasing(order: seq<nat>, its: seq<Item>, from: int) {
    forall i, j :: 0 <= i < j < |order| && from <= i ==> PriorityAt(its, order[i]) >= PriorityAt(its, order[j])
  }

  // ---------------------------------------------------------------------------------------------
  // Shuffles
  // ---------------------------------------------------------------------------------------------

  /** t is s with the slots [start, end) rearranged. */
  ghost predicate RangeShuffled(s: seq<nat>, t: seq<nat>, start: nat, end: nat)
    requires start <= end <= |s|
  {
    && |t| == |s|
    && t[..start] == s[..start] && t[end..] == s[end..]
    && multiset(t[start..end]) == multiset(s[start..end])
  }

  lemma SwapKeepsElements<T>(s: seq<T>, i: nat, j: nat)
    requires i < |s| && j < |s|
    ensures multiset(Swapped(s, i, j)) == multiset(s)
  {
  }

  lemma ShuffleSwap(s: seq<nat>, t: seq<nat>, start: nat, end: nat, i: nat, j: nat)
    requires start <= end <= |s| && RangeShuffled(s, t, start, end) && start <= i < end && start <= j < end
    ensures RangeShuffled(s, Swapped(t, i, j), start, end)
  {
    assert Swapped(t, i, j)[start..end] == Swapped(t[start..end], i - start, j - start);
    SwapKeepsElements(t[start..end], i - start, j - start);
  }

  lemma ShuffledElements(s: seq<nat>, t: seq<nat>, start: nat, end: nat)
    requires start <= end <= |s| && RangeShuffled(s, t, start, end)
    ensures multiset(t) == multiset(s)
  {
    var a, b, c, d := s[..start], s[start..end], s[end..], t[start..end];
    assert s == a + b + c;
    assert t == a + d + c;
    calc {
      multiset(t);
      multiset(a + d + c);
      multiset(a) + multiset(d) + multiset(c);
      multiset(a + b + c);
    }
  }

  lemma SliceOfSlice<T>(s: seq<T>, start: nat, end: nat, a: nat, b: nat)
    requires start <= a <= b <= end <= |s|
    ensures s[start..end][a - start..b - start] == s[a..b]
  {
    var m := s[start..end];
    assert forall k :: 0 <= k < |m| ==> m[k] == s[start + k];
    var inner := m[a - start..b - start];
    forall k | 0 <= k < b - a ensures inner[k] == s[a..b][k] {
      assert inner[k] == m[a - start + k] == s[start + (a - start + k)];
    }
  }

  /** Shuffling part of a range shuffles the range. */
  lemma ShuffleWithin(s: seq<nat>, t: seq<nat>, u: seq<nat>, start: nat, end: nat, a: nat, b: nat)
    requires start <= a <= b <= end <= |s| && RangeShuffled(s, t, start, end) && RangeShuffled(t, u, a, b)
    ensures RangeShuffled(s, u, start, end)
  {
    forall k | 0 <= k < a ensures u[k] == t[k] { assert u[..a][k] == t[..a][k]; }
    forall k | b <= k < |u| ensures u[k] == t[k] { assert u[b..][k - b] == t[b..][k - b]; }
    assert u[..start] == t[..start] && u[end..] == t[end..];
    var t', u' := t[start..end], u[start..end];
    assert u'[..a - start] == t'[..a - start] && u'[b - start..] == t'[b - start..];
    SliceOfSlice(u, start, end, a, b);
    SliceOfSlice(t, start, end, a, b);
    ShuffledElements(t', u', a - start, b - start);
  }

  /** Where all priorities are equal, a shuffle changes none of them. */
  lemma ShuffleKeepsPriorities(s: seq<nat>, t: seq<nat>, start: nat, end: nat, its: seq<Item>, p: Priority)
    requires start <= end <= |s| && RangeShuffled(s, t, start, end)
    requires forall i :: start <= i < end ==> PriorityAt(its, s[i]) == p
    ensures forall i :: 0 <= i < |t| ==> PriorityAt(its, t[i]) == PriorityAt(its, s[i])
  {
    forall i | 0 <= i < |t| ensures PriorityAt(its, t[i]) == PriorityAt(its, s[i]) {
      if i < start {
        assert t[i] == t[..start][i] == s[..start][i];
      } else if i >= end {
        assert t[i] == t[end..][i - end] == s[end..][i - end];
      } else {
        assert t[i] == t[start..end][i - start];
        assert t[i] in multiset(s[start..end]);
      }
    }
  }

  // ---------------------------------------------------------------------------------------------
  // Sorting by priority
  // ---------------------------------------------------------------------------------------------

  function InsertByPriority(x: nat, s: seq<nat>, its: seq<Item>): (r: seq<nat>)
    ensures multiset(r) == multiset([x] + s)
    ensures |r| == |s| + 1
  {
    if s == [] || PriorityAt(its, x) >= PriorityAt(its, s[0]) then [x] + s
    else
      assert s == [s[0]] + s[1..];
      [s[0]] + InsertByPriority(x, s[1..], its)
  }

  /** std::stable_sort() with the comparison a.priority > b.priority */
  function SortByPriority(s: seq<nat>, its: seq<Item>): (r: seq<nat>)
    ensures multiset(r) == multiset(s)
    ensures |r| == |s|
  {
    if s == [] then []
    else
      assert s == [s[0]] + s[1..];
      InsertByPriority(s[0], SortByPriority(s[1..], its), its)
  }

  lemma {:induction false} InsertIsSorted(x: nat, s: seq<nat>, its: seq<Item>)
    requires NonIncreasing(s, its, 0)
    ensures NonIncreasing(InsertByPriority(x, s, its), its, 0)
  {
    if s == [] || PriorityAt(its, x) >= PriorityAt(its, s[0]) {
      SortedBehind(x, s, its);
    } else {
      var rest := InsertByPriority(x, s[1..], its);
      InsertIsSorted(x, s[1..], its);
      forall k | 0 <= k < |rest| ensures PriorityAt(its, rest[k]) <= PriorityAt(its, s[0]) {
        assert rest[k] in multiset([x] + s[1..]);
      }
      SortedBehind(s[0], rest, its);
    }
    hide NonIncreasing, PriorityAt;
  }

  lemma SortedBehind(x: nat, rest: seq<nat>, its: seq<Item>)
    requires NonIncreasing(rest, its, 0) && forall k :: 0 <= k < |rest| ==> PriorityAt(its, rest[k]) <= PriorityAt(its, x)
    ensures NonIncreasing([x] + rest, its, 0)
  {
  }

  lemma {:induction false} SortIsSorted(s: seq<nat>, its: seq<Item>)
    ensures NonIncreasing(SortByPriority(s, its), its, 0)
  {
    if s != [] {
      SortIsSorted(s[1..], its);
      InsertIsSorted(s[0], SortByPriority(s[1..], its), its);
    }
  }

  /** Sorting the slots [start, end) in place rearranges them. */
  lemma SortShuffles(s: seq<nat>, t: seq<nat>, start: nat, end: nat, its: seq<Item>)
    requires start <= end <= |s| == |t|
    requires forall k :: start <= k < end ==> t[k] == SortByPriority(s[start..end], its)[k - start]
    requires forall k :: 0 <= k < |s| && !(start <= k < end) ==> t[k] == s[k]
    ensures RangeShuffled(s, t, start, end) && NonIncreasing(t[start..end], its, 0)
  {
    var sorted := SortByPriority(s[start..end], its);
    SortIsSorted(s[start..end], its);
    hide SortByPriority, NonIncreasing;
    assert t[start..end] == sorted;
    assert t[..start] == s[..start];
    assert t[end..] == s[end..];
  }

  // ---------------------------------------------------------------------------------------------
  // Moving one song to its priority group
  // ---------------------------------------------------------------------------------------------

  /** The first slot from `start` on, other than `exclude`, whose priority is not higher; else the end. */
  function PrioritySlot(order: seq<nat>, its: seq<Item>, start: nat, priority: Priority, exclude: nat): (r: nat)
    requires start <= |order|
    ensures start <= r <= |order|
    ensures forall i :: start <= i < r && i != exclude ==> PriorityAt(its, order[i]) > priority
    ensures r < |order| ==> r != exclude && PriorityAt(its, order[r]) <= priority
    decreases |order| - start
  {
    if start == |order| then start
    else if PriorityAt(its, order[start]) <= priority && start != exclude then start
    else PrioritySlot(order, its, start + 1, priority, exclude)
  }

  /** The length of the run of equal priority that begins at `start`. */
  function GroupSize(order: seq<nat>, its: seq<Item>, start: nat, priority: Priority): (r: nat)
    requires start <= |order|
    ensures start + r <= |order|
    ensures forall i :: start <= i < start + r ==> PriorityAt(its, order[i]) == priority
    ensures start + r < |order| ==> PriorityAt(its, order[start + r]) != priority
    decreases |order| - start
  {
    if start == |order| || PriorityAt(its, order[start]) != priority then 0
    else 1 + GroupSize(order, its, start + 1, priority)
  }

  /** Is the song at `slot` to be moved when its priority changes from `before` while `after` is played? */
  predicate Reorders(order: seq<nat>, its: seq<Item>, slot: nat, before: Priority, priority: Priority, after: int)
    requires after < |order|
  {
    && slot != after
    && (slot < after ==> before <= PriorityAt(its, order[after]) < priority)
  }

  /** The slot to which SetPriority() moves the song at `slot`. */
  function NewSlot(order: seq<nat>, its: seq<Item>, slot: nat, priority: Priority, after: int): (r: int)
    requires -1 <= after < |order| && slot < |order| && slot != after
    ensures 0 <= r < |order|
    ensures r >= after
  {
    var before := PrioritySlot(order, its, after + 1, priority, slot);
    if before > slot then before - 1 else before
  }

  /** Where the song being played is after another one was moved from `slot` behind it. */
  function NewAfter(slot: nat, after: int): int {
    if slot < after then after - 1 else after
  }

  /** After the move the song stands behind the one being played, at the front of its priority group. */
  lemma MoveToGroup(order: seq<nat>, its: seq<Item>, slot: nat, priority: Priority, after: int)
    requires -1 <= after < |order| && slot < |order| && slot != after
    requires PriorityAt(its, order[slot]) == priority
    requires forall i, j :: after < i < j < |order| && i != slot && j != slot ==>
               PriorityAt(its, order[i]) >= PriorityAt(its, order[j])
    ensures var to := NewSlot(order, its, slot, priority, after);
            var r := MoveOne(order, slot, to);
            && NewAfter(slot, after) < to
            && NonIncreasing(r, its, NewAfter(slot, after) + 1)
            && (after >= 0 ==> 0 <= NewAfter(slot, after) && r[NewAfter(slot, after)] == order[after])
  {
    var to := NewSlot(order, its, slot, priority, after);
    var r := MoveOne(order, slot, to);
    var a := NewAfter(slot, after);
    var before := PrioritySlot(order, its, after + 1, priority, slot);
    if after >= 0 { MoveOneAt(order, slot, to, a); }
    forall i, j | 0 <= i < j < |r| && a + 1 <= i
      ensures PriorityAt(its, r[i]) >= PriorityAt(its, r[j])
    {
      MoveOneAt(order, slot, to, i);
      MoveOneAt(order, slot, to, j);
      // the slot an element of r came from
      var i' := if i == to then slot else if slot <= i < to then i + 1 else if to < i <= slot then i - 1 else i;
      var j' := if j == to then slot else if slot <= j < to then j + 1 else if to < j <= slot then j - 1 else j;
      if j == to {
        assert after < i' < before && i' != slot;
      } else if i == to {
        assert before <= j' && j' != slot;
        if before < |order| && before != j' { assert PriorityAt(its, order[before]) >= PriorityAt(its, order[j']); }
      } else {
        assert after < i' < j';
      }
    }
  }

  /** A swap inside one priority group changes no priorities. */
  lemma SwapInGroup(order: seq<nat>, its: seq<Item>, i: nat, j: nat, from: int)
    requires i < |order| && j < |order| && PriorityAt(its, order[i]) == PriorityAt(its, order[j])
    requires NonIncreasing(order, its, from)
    ensures NonIncreasing(Swapped(order, i, j), its, from)
  {
    var r := Swapped(order, i, j);
    assert forall k :: 0 <= k < |r| ==> PriorityAt(its, r[k]) == PriorityAt(its, order[k]);
  }

  function WithPriority(its: seq<Item>, position: nat, priority: Priority, version: nat): (r: seq<Item>)
    requires position < |its|
    ensures |r| == |its|
  {
    its[position := its[position].(priority := priority, version := version)]
  }

  /** The play order after the song at `slot`, which now has this priority, was moved and shuffled within its group. */
  ghost predicate Requeued(order: seq<nat>, its: seq<Item>, slot: nat, priority: Priority, after: int, order': seq<nat>)
    requires -1 <= after < |order| && slot < |order| && slot != after
  {
    var to := NewSlot(order, its, slot, priority, after);
    var moved := MoveOne(order, slot, to);
    exists r :: to <= r < to + GroupSize(moved, its, to, priority) && order' == Swapped(moved, to, r)
  }

  /** Everything SetPriority() may do to the play order in random mode. */
  ghost predicate PriorityStep(order: seq<nat>, its: seq<Item>, position: nat, priority: Priority, version: nat,
                               after: int, order': seq<nat>)
    requires IsPermutation(order) && |order| == |its| && position < |its| && -1 <= after < |order|
  {
    var slot := SlotOf(order, position);
    var its' := WithPriority(its, position, priority, version);
    if Reorders(order, its', slot, its[position].priority, priority, after)
    then Requeued(order, its', slot, priority, after, order')
    else order' == order
  }

  /** The slot of the song being played, after SetPriority(). */
  ghost function AfterStep(order: seq<nat>, its: seq<Item>, position: nat, priority: Priority, version: nat, after: int): int
    requires IsPermutation(order) && |order| == |its| && position < |its| && -1 <= after < |order|
  {
    var slot := SlotOf(order, position);
    if Reorders(order, WithPriority(its, position, priority, version), slot, its[position].priority, priority, after)
    then NewAfter(slot, after) else after
  }

  /**
   If no song behind the one being played comes before one of higher priority, that stays so
   when a priority is changed, for every random choice; and the song being played is kept.
   */
  lemma PriorityStepKeepsOrder(order: seq<nat>, its: seq<Item>, position: nat, priority: Priority, version: nat,
                               after: int, order': seq<nat>)
    requires IsPermutation(order) && |order| == |its| && position < |its| && -1 <= after < |order|
    requires PriorityStep(order, its, position, priority, version, after, order')
    requires NonIncreasing(order, its, after + 1)
    ensures var after' := AfterStep(order, its, position, priority, version, after);
            && NonIncreasing(order', WithPriority(its, position, priority, version), after' + 1)
            && (after < 0 ==> after' == -1)
            && (after >= 0 ==> 0 <= after' < |order'| && order'[after'] == order[after])
  {
    var slot := SlotOf(order, position);
    var its' := WithPriority(its, position, priority, version);
    forall i | 0 <= i < |order| && i != slot ensures PriorityAt(its', order[i]) == PriorityAt(its, order[i]) {
      assert order[i] != order[slot];
    }
    if Reorders(order, its', slot, its[position].priority, priority, after) {
      var to := NewSlot(order, its', slot, priority, after);
      var moved := MoveOne(order, slot, to);
      MoveToGroup(order, its', slot, priority, after);
      var r :| to <= r < to + GroupSize(moved, its', to, priority) && order' == Swapped(moved, to, r);
      SwapInGroup(moved, its', to, r, NewAfter(slot, after) + 1);
    }
  }

  /** A step of SetPriority() keeps the play order a permutation. */
  lemma PriorityStepPermutes(order: seq<nat>, its: seq<Item>, position: nat, priority: Priority, version: nat,
                             after: int, order': seq<nat>)
    requires IsPermutation(order) && |order| == |its| && position < |its| && -1 <= after < |order|
    requires PriorityStep(order, its, position, priority, version, after, order')
    ensures multiset(order') == multiset(order) && IsPermutation(order')
  {
    var slot := SlotOf(order, position);
    var its' := WithPriority(its, position, priority, version);
    if Reorders(order, its', slot, its[position].priority, priority, after) {
      var to := NewSlot(order, its', slot, priority, after);
      var moved := MoveOne(order, slot, to);
      MoveOneKeepsElements(order, slot, to);
      var r :| to <= r < to + GroupSize(moved, its', to, priority) && order' == Swapped(moved, to, r);
      SwapKeepsElements(moved, to, r);
    }
    SameElements(order, order');
  }
}
