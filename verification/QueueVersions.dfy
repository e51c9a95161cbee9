/**
 The version stamps of the queue: a client that knows an old version asks for what changed since.
 */
module QueueVersions {
  import opened QueueItems
  import opened Queues
  import opened Sequences

  /** The queue as a client may see it at one moment. */
  datatype Snapshot = Snapshot(version: nat, items: seq<Item>)

  /** One operation of the queue: an edit, which stamps what it changes, or the end of an edit. */
  ghost predicate QueueStep(a: Snapshot, b: Snapshot) {
    || (b.version == a.version && StampsCover(a.items, b.items, a.version))
    || (b.version == a.version + 1 < MAX_VERSION && b.items == a.items)
    || Wraps(a, b)
  }

  /** IncrementVersion() at the last version number. */
  ghost predicate Wraps(a: Snapshot, b: Snapshot) {
    a.version + 1 == MAX_VERSION && b.version == 1 && b.items == Stamped(a.items, 0)
  }

  ghost predicate IsRun(run: seq<Snapshot>) {
    forall k :: 0 <= k < |run| - 1 ==> QueueStep(run[k], run[k + 1])
  }

  ghost predicate NoWrap(run: seq<Snapshot>) {
    forall k :: 0 <= k < |run| - 1 ==> !Wraps(run[k], run[k + 1])
  }

  /** Queue::IsNewerAtPosition() */
  predicate IsNewer(item: Item, current: nat, version: nat) {
    version > current || item.version >= version || item.version == 0
  }

  /** What queue_print_changes_*() prints about the first n positions. */
  function Changes(its: seq<Item>, current: nat, version: nat, n: nat): (r: seq<(nat, Item)>)
    requires n <= |its|
  {
    if n == 0 then []
    else Changes(its, current, version, n - 1) +
         if IsNewer(its[n - 1], current, version) then [(n - 1, Plain(its[n - 1]))] else []
  }

  method PrintChanges(queue: Queue, version: nat) returns (lines: seq<(nat, Item)>)
    requires queue.Valid()
    ensures lines == Changes(queue.Items(), queue.version, version, queue.length)
  {
    lines := [];
    for i := 0 to queue.length
      invariant lines == Changes(queue.Items(), queue.version, version, i)
    {
      var item := queue.items[i];
      if IsNewer(item, queue.version, version) {
        lines := lines + [(i, Plain(item))];
      }
    }
  }

  // ---------------------------------------------------------------------------------------------
  // The client
  // ---------------------------------------------------------------------------------------------

  /** The client's copy of the queue. */
  ghost function View(its: seq<Item>): map<nat, Item> {
    map p: nat | p < |its| :: Plain(its[p])
  }

  function Patch(view: map<nat, Item>, lines: seq<(nat, Item)>): map<nat, Item> {
    if lines == [] then view
    else Patch(view, lines[..|lines| - 1])[lines[|lines| - 1].0 := lines[|lines| - 1].1]
  }

  /** Patch the changed positions in, and drop what is beyond the new length. */
  ghost function Refresh(view: map<nat, Item>, lines: seq<(nat, Item)>, length: nat): map<nat, Item> {
    var patched := Patch(view, lines);
    map p: nat | p in patched && p < length :: patched[p]
  }

  lemma PatchLast(view: map<nat, Item>, lines: seq<(nat, Item)>, p: nat, item: Item)
    ensures Patch(view, lines + [(p, item)]) == Patch(view, lines)[p := item]
  {
    assert (lines + [(p, item)])[..|lines|] == lines;
  }

  lemma {:induction false} PatchAt(view: map<nat, Item>, its: seq<Item>, current: nat, version: nat, n: nat, p: nat)
    requires n <= |its|
    ensures var patched := Patch(view, Changes(its, current, version, n));
            if p < n && IsNewer(its[p], current, version) then p in patched && patched[p] == Plain(its[p])
            else (p in patched <==> p in view) && (p in view ==> patched[p] == view[p])
  {
    if n == 0 {
      assert Patch(view, []) == view;
    } else {
      var before := Changes(its, current, version, n - 1);
      var newer, line := IsNewer(its[n - 1], current, version), (n - 1, Plain(its[n - 1]));
      assert Changes(its, current, version, n) == if newer then before + [line] else before by { Nothing(before); }
      hide Patch, Changes, IsNewer;
      PatchAt(view, its, current, version, n - 1, p);
      if newer {
        PatchLast(view, before, line.0, line.1);
      }
    }
  }

  /** Every position that changed since `a` carries a stamp at least as new as a's version. */
  ghost predicate Covered(a: Snapshot, b: Snapshot) {
    && a.version <= b.version
    && forall p :: 0 <= p < |b.items| ==>
         b.items[p].version >= a.version || (p < |a.items| && b.items[p] == a.items[p])
  }

  lemma CoverStep(a: Snapshot, b: Snapshot, c: Snapshot)
    requires Covered(a, b) && QueueStep(b, c) && !Wraps(b, c)
    ensures Covered(a, c)
  {
  }

  lemma {:induction false} RunCovers(run: seq<Snapshot>)
    requires run != [] && IsRun(run) && NoWrap(run)
    ensures Covered(run[0], run[|run| - 1])
  {
    if |run| > 1 {
      RunCovers(run[..|run| - 1]);
      CoverStep(run[0], run[|run| - 2], run[|run| - 1]);
    }
  }

  /**
   After any run of queue operations without a stamp wrap, a client that copied the queue at its
   beginning gets the current queue by patching in what is printed as changed since then.
   */
  lemma RefreshRebuilds(run: seq<Snapshot>)
    requires run != [] && IsRun(run) && NoWrap(run)
    ensures var a, b := run[0], run[|run| - 1];
            Refresh(View(a.items), Changes(b.items, b.version, a.version, |b.items|), |b.items|) == View(b.items)
  {
    RunCovers(run);
    var a, b := run[0], run[|run| - 1];
    forall p: nat | p < |b.items|
      ensures var patched := Patch(View(a.items), Changes(b.items, b.version, a.version, |b.items|));
              p in patched && patched[p] == Plain(b.items[p])
    {
      PatchAt(View(a.items), b.items, b.version, a.version, |b.items|, p);
    }
  }

  /** A client with version 0 or 1, or with one that is yet to come, is sent everything. */
  lemma RefreshAfterWrap(view: map<nat, Item>, b: Snapshot, version: nat)
    requires version <= 1 || version > b.version || forall p :: 0 <= p < |b.items| ==> b.items[p].version == 0
    ensures Refresh(view, Changes(b.items, b.version, version, |b.items|), |b.items|) == View(b.items)
  {
    forall p: nat | p < |b.items|
      ensures var patched := Patch(view, Changes(b.items, b.version, version, |b.items|));
              p in patched && patched[p] == Plain(b.items[p])
    {
      PatchAt(view, b.items, b.version, version, |b.items|, p);
    }
  }

  /** A run from version v to version w in which the counter wraps. */
  ghost predicate WrappedRun(run: seq<Snapshot>, v: nat, w: nat) {
    run != [] && IsRun(run) && !NoWrap(run) && run[0].version == v && run[|run| - 1].version == w
  }

  /** Does a client that copied the queue at the beginning of the run have it right at the end? */
  ghost predicate RefreshIsRight(run: seq<Snapshot>)
    requires run != []
  {
    var a, b := run[0], run[|run| - 1];
    Refresh(View(a.items), Changes(b.items, b.version, a.version, |b.items|), |b.items|) == View(b.items)
  }

  /** Counting up from one version to another without an edit. */
  function CountUp(low: nat, high: nat, its: seq<Item>): (run: seq<Snapshot>)
    requires low <= high
    ensures |run| == high - low + 1
    ensures forall k :: 0 <= k < |run| ==> run[k] == Snapshot(low + k, its)
  {
    seq(high - low + 1, k requires 0 <= k => Snapshot(low + k, its))
  }

  /** A run from version v to version w over a wrap, with one edit right behind the wrap. */
  function HidingRun(song: Song, v: nat, w: nat): (run: seq<Snapshot>)
    requires v < MAX_VERSION && 1 <= w
    ensures |run| >= 2 && run[0].version == v && run[|run| - 1].version == w
  {
    var before, after := [Item(song, 1, 1, 0)], [Item(song, 1, 1, 7)];
    CountUp(v, MAX_VERSION - 1, before) + [Snapshot(1, Stamped(before, 0))] + CountUp(1, w, after)
  }

  lemma HidingRunIsRun(song: Song, v: nat, w: nat)
    requires 1 <= v < MAX_VERSION && 1 <= w < MAX_VERSION
    ensures WrappedRun(HidingRun(song, v, w), v, w)
  {
    var before, after := [Item(song, 1, 1, 0)], [Item(song, 1, 1, 7)];
    var up, on, run := CountUp(v, MAX_VERSION - 1, before), CountUp(1, w, after), HidingRun(song, v, w);
    assert Wraps(run[|up| - 1], run[|up|]);
    assert QueueStep(run[|up|], run[|up| + 1]);
    forall k | 0 <= k < |run| - 1 ensures QueueStep(run[k], run[k + 1]) {
      if k < |up| - 1 {
        assert run[k] == up[k] && run[k + 1] == up[k + 1];
      } else if k > |up| {
        assert run[k] == on[k - |up| - 1] && run[k + 1] == on[k - |up|];
      }
    }
  }

  /**
   A wrap does break the promise: once the client's old version number has come up again, a change
   stamped below it goes unnoticed.
   */
  lemma WrapCanHideAChange(song: Song, v: nat, w: nat)
    requires 1 < v <= w < MAX_VERSION
    ensures !RefreshIsRight(HidingRun(song, v, w))
  {
    var before, after := [Item(song, 1, 1, 0)], [Item(song, 1, 1, 7)];
    assert HidingRun(song, v, w)[0] == Snapshot(v, before);
    assert Changes(after, w, v, 0) == [];
    assert Changes(after, w, v, 1) == [];
    assert Patch(View(before), []) == View(before);
    assert View(before)[0].priority == 0 && View(after)[0].priority == 7;
  }

  /**
   Exactly when a client can rely on the printed changes although the counter has wrapped: its old
   version is 0 or 1, or it is above the current one.
   */
  lemma RefreshIsRightIff(song: Song, v: nat, w: nat)
    requires 1 <= v < MAX_VERSION && 1 <= w < MAX_VERSION
    ensures (forall run: seq<Snapshot> :: WrappedRun(run, v, w) ==> RefreshIsRight(run)) <==> (v <= 1 || v > w)
  {
    if v <= 1 || v > w {
      forall run: seq<Snapshot> | WrappedRun(run, v, w)
        ensures RefreshIsRight(run)
      {
        RefreshAfterWrap(View(run[0].items), run[|run| - 1], v);
      }
    } else {
      HidingRunIsRun(song, v, w);
      WrapCanHideAChange(song, v, w);
    }
  }
}
