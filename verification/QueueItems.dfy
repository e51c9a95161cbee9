/**
 What the operations of the play queue do to its items, its play order and its id table, on values.
 */
module QueueItems {
  import opened Permutations
  import opened Sequences

  /** A song object; the queue owns a detached duplicate of every song appended to it. */
  class Song {
    const uri: string

    constructor (uri: string)
      ensures this.uri == uri
    {
      this.uri := uri;
    }
  }

  type Priority = x: int | 0 <= x < 256

  datatype Item = Item(song: Song?, id: nat, version: nat, priority: Priority)

  /** Mark an item as changed in this version. */
  function Stamp(item: Item, version: nat): Item {
    item.(version := version)
  }

  /** What a client sees of an item. */
  function Plain(item: Item): Item {
    item.(version := 0)
  }

  ghost predicate SameItem(a: Item, b: Item) {
    a.song == b.song && a.id == b.id && a.priority == b.priority
  }

  /** Every item has a song object of its own. */
  ghost predicate SongsOk(its: seq<Item>) {
    && (forall p :: 0 <= p < |its| ==> its[p].song != null)
    && (forall p, q :: 0 <= p < q < |its| ==> its[p].song != its[q].song)
  }

  /** Items that were only moved about and stamped still have songs of their own. */
  lemma SongsMove(its: seq<Item>, at: seq<nat>, its': seq<Item>)
    requires SongsOk(its) && |at| == |its| == |its'| && IsPermutation(at)
    requires forall p :: 0 <= p < |its| ==> SameItem(its'[at[p]], its[p])
    ensures SongsOk(its')
  {
    forall q | 0 <= q < |its'| ensures its'[q].song == its[SlotOf(at, q)].song {
      assert at[SlotOf(at, q)] == q;
    }
    forall p, q | 0 <= p < q < |its'| ensures its'[p].song != its'[q].song {
      assert SlotOf(at, p) != SlotOf(at, q);
    }
  }

  /** The same songs, ids and priorities at every position; only the stamps may differ. */
  ghost predicate SameItems(a: seq<Item>, b: seq<Item>) {
    |a| == |b| && forall p :: 0 <= p < |a| ==> SameItem(a[p], b[p])
  }

  lemma SameItemsJoin(a: seq<Item>, b: seq<Item>, c: seq<Item>)
    requires SameItems(a, b) && SameItems(b, c)
    ensures SameItems(a, c)
  {
  }

  // ---------------------------------------------------------------------------------------------
  // The id table
  // ---------------------------------------------------------------------------------------------

  /** The table is exactly the inverse of items[].id, and -1 for every id not in use. */
  ghost predicate TableOk(data: seq<int>, its: seq<Item>) {
    && (forall p :: 0 <= p < |its| ==> its[p].id < |data| && data[its[p].id] == p)
    && (forall id :: 0 <= id < |data| ==> data[id] == -1 || (0 <= data[id] < |its| && its[data[id]].id == id))
  }

  ghost predicate UniqueIds(its: seq<Item>) {
    forall p, q :: 0 <= p < q < |its| ==> its[p].id != its[q].id
  }

  /** The table sends the id of its[p] to at[p], and no other id anywhere. */
  ghost predicate TableMaps(data: seq<int>, its: seq<Item>, at: seq<nat>)
    requires |at| == |its|
  {
    && UniqueIds(its)
    && (forall p :: 0 <= p < |its| ==> its[p].id < |data| && data[its[p].id] == at[p])
    && (forall id :: 0 <= id < |data| ==> data[id] == -1 || exists p :: 0 <= p < |its| && its[p].id == id)
  }

  function Positions(n: nat): (r: seq<nat>)
    ensures |r| == n && IsIdentity(r)
  {
    seq(n, i => i)
  }

  lemma TableStart(data: seq<int>, its: seq<Item>)
    requires TableOk(data, its)
    ensures TableMaps(data, its, Positions(|its|))
  {
    forall id | 0 <= id < |data|
      ensures data[id] == -1 || exists p :: 0 <= p < |its| && its[p].id == id
    {
      if data[id] != -1 { assert its[data[id]].id == id; }
    }
  }

  /** IdTable::Move() of the id of its[p]. */
  lemma TableMove(data: seq<int>, its: seq<Item>, at: seq<nat>, p: nat, to: nat)
    requires |at| == |its| && TableMaps(data, its, at) && p < |its|
    ensures its[p].id < |data| && data[its[p].id] == at[p]
    ensures TableMaps(data[its[p].id := to], its, at[p := to])
  {
    var data' := data[its[p].id := to];
    forall id | 0 <= id < |data'|
      ensures data'[id] == -1 || exists q :: 0 <= q < |its| && its[q].id == id
    {
      if id == its[p].id {} else { assert data'[id] == data[id]; }
    }
  }

  /** When every item stands where the table says, the table is the inverse of the ids again. */
  lemma TableEnd(data: seq<int>, its: seq<Item>, at: seq<nat>, its': seq<Item>)
    requires |at| == |its| == |its'| && TableMaps(data, its, at) && IsPermutation(at)
    requires forall p :: 0 <= p < |its| ==> its'[at[p]].id == its[p].id
    ensures TableOk(data, its')
  {
    forall q | 0 <= q < |its'|
      ensures its'[q].id < |data| && data[its'[q].id] == q
    {
      var p := SlotOf(at, q);
      assert at[p] == q;
    }
    forall id | 0 <= id < |data|
      ensures data[id] == -1 || (0 <= data[id] < |its'| && its'[data[id]].id == id)
    {
      if data[id] != -1 {
        var p :| 0 <= p < |its| && its[p].id == id;
        assert data[id] == at[p];
      }
    }
  }

  lemma TableUniqueIds(data: seq<int>, its: seq<Item>)
    requires TableOk(data, its)
    ensures UniqueIds(its)
  {
  }

  /** There is a free id as long as there are more ids than items. */
  lemma FreeIdExists(data: seq<int>, its: seq<Item>)
    requires TableOk(data, its) && |its| + 1 < |data|
    ensures exists id :: 1 <= id < |data| && data[id] < 0
  {
    if forall id :: 1 <= id < |data| ==> data[id] >= 0 {
      var ids := seq(|its|, p requires 0 <= p < |its| => its[p].id);
      forall p, q | 0 <= p < q < |ids| ensures ids[p] != ids[q] {
        TableUniqueIds(data, its);
      }
      ElementCount(ids);
      var all := Elements(ids);
      forall id | id in Below(|data|) - {0} ensures id in all {
        assert data[id] >= 0;
        assert ids[data[id]] == id;
      }
      SubsetSize(Below(|data|) - {0}, all);
      assert false;
    }
  }

  // ---------------------------------------------------------------------------------------------
  // Items
  // ---------------------------------------------------------------------------------------------

  /** Is position p in the window of positions that a block move rewrites? */
  predicate InWindow(p: nat, start: nat, end: nat, to: nat)
    requires start <= end
  {
    (if start < to then start else to) <= p < (if start < to then to else start) + (end - start)
  }

  /** The items after a block move: cut, reinserted, and stamped where the move rewrote them. */
  function MovedItems(its: seq<Item>, start: nat, end: nat, to: nat, version: nat): (r: seq<Item>)
    requires start <= end <= |its| && to + (end - start) <= |its|
    ensures |r| == |its|
  {
    var moved := CutInsert(its, start, end, to);
    seq(|its|, p requires 0 <= p < |its| => if InWindow(p, start, end, to) then Stamp(moved[p], version) else its[p])
  }

  function MovedOrder(order: seq<nat>, start: nat, end: nat, to: nat): (r: seq<nat>)
    requires start <= end
    ensures |r| == |order|
  {
    seq(|order|, i requires 0 <= i < |order| => NewPosition(order[i], start, end, to))
  }

  function SwappedItems(its: seq<Item>, p: nat, q: nat, version: nat): (r: seq<Item>)
    requires p < |its| && q < |its|
    ensures |r| == |its|
  {
    its[p := Stamp(its[q], version)][q := Stamp(its[p], version)]
  }

  function Swapped<T>(s: seq<T>, i: nat, j: nat): (r: seq<T>)
    requires i < |s| && j < |s|
    ensures |r| == |s|
  {
    s[i := s[j]][j := s[i]]
  }

  function Stamped(its: seq<Item>, version: nat): (r: seq<Item>)
    ensures |r| == |its| && forall p :: 0 <= p < |r| ==> r[p] == Stamp(its[p], version)
  {
    seq(|its|, p requires 0 <= p < |its| => Stamp(its[p], version))
  }

  /** The items after the one at `position` is deleted: all that move up are stamped. */
  function DeletedItems(its: seq<Item>, position: nat, version: nat): (r: seq<Item>)
    requires position < |its|
    ensures |r| == |its| - 1
  {
    its[..position] + Stamped(its[position + 1..], version)
  }

  /** The play order without slot `slot`, renumbered. */
  function DeletedOrder(order: seq<nat>, slot: nat): (r: seq<nat>)
    requires slot < |order|
    ensures |r| == |order| - 1
  {
    var rest := order[..slot] + order[slot + 1..];
    seq(|rest|, i requires 0 <= i < |rest| => if rest[i] > order[slot] then rest[i] - 1 else rest[i])
  }

  /** The position map of a block move, as a sequence. */
  function MoveMap(n: nat, start: nat, end: nat, to: nat): (r: seq<nat>)
    requires start <= end
    ensures |r| == n && forall p :: 0 <= p < n ==> r[p] == NewPosition(p, start, end, to)
  {
    MovedOrder(Positions(n), start, end, to)
  }

  // ---------------------------------------------------------------------------------------------
  // What the transformations keep
  // ---------------------------------------------------------------------------------------------

  /** Every position either carries the current stamp or is exactly as it was. */
  ghost predicate StampsCover(before: seq<Item>, after: seq<Item>, version: nat) {
    forall p :: 0 <= p < |after| ==> after[p].version == version || (p < |before| && after[p] == before[p])
  }

  /** A block move puts every item where NewPosition says; ids travel with their songs. */
  lemma MovedItemAt(its: seq<Item>, start: nat, end: nat, to: nat, version: nat, p: nat)
    requires start <= end <= |its| && to + (end - start) <= |its| && p < |its|
    ensures var q := NewPosition(p, start, end, to);
            q < |its| && SameItem(MovedItems(its, start, end, to, version)[q], its[p])
  {
    NewPositionFollows(its, start, end, to, p);
  }

  /** Which item a block move puts at position p, window by window. */
  lemma MovedItemsBy(its: seq<Item>, start: nat, end: nat, to: nat, version: nat, p: nat)
    requires start <= end <= |its| && to + (end - start) <= |its| && p < |its|
    ensures MovedItems(its, start, end, to, version)[p] ==
            if to <= p < to + (end - start) then Stamp(its[start + (p - to)], version)
            else if start <= p < to then Stamp(its[p + (end - start)], version)
            else if to + (end - start) <= p < end then Stamp(its[p - (end - start)], version)
            else its[p]
  {
  }

  /** The gap is closed from below, then from above, then the block is put in: that is the block move. */
  lemma MovedInSteps(its: seq<Item>, down: seq<Item>, up: seq<Item>, now: seq<Item>,
                     start: nat, end: nat, to: nat, version: nat)
    requires start <= end <= |its| == |down| == |up| == |now| && to + (end - start) <= |its|
    requires forall p :: start <= p < to ==> down[p] == Stamp(its[p + (end - start)], version)
    requires forall p :: 0 <= p < |its| && !(start <= p < to) ==> down[p] == its[p]
    requires forall p :: to + (end - start) <= p < end && to < start ==> up[p] == Stamp(its[p - (end - start)], version)
    requires forall p :: 0 <= p < |its| && !(to + (end - start) <= p < end && to < start) ==> up[p] == down[p]
    requires forall p :: to <= p < to + (end - start) ==> now[p] == Stamp(its[start + (p - to)], version)
    requires forall p :: 0 <= p < |its| && !(to <= p < to + (end - start)) ==> now[p] == up[p]
    ensures now == MovedItems(its, start, end, to, version)
  {
    forall p | 0 <= p < |its| ensures now[p] == MovedItems(its, start, end, to, version)[p] {
      MovedItemsBy(its, start, end, to, version, p);
    }
    hide MovedItems;
  }

  /** The same for one song. */
  lemma MovedOneInSteps(its: seq<Item>, down: seq<Item>, up: seq<Item>, now: seq<Item>, from: nat, to: nat, version: nat)
    requires from < |its| == |down| == |up| == |now| && to < |its|
    requires forall p :: from <= p < to ==> down[p] == Stamp(its[p + 1], version)
    requires forall p :: 0 <= p < |its| && !(from <= p < to) ==> down[p] == its[p]
    requires forall p :: to < p <= from ==> up[p] == Stamp(its[p - 1], version)
    requires forall p :: 0 <= p < |its| && !(to < p <= from) ==> up[p] == down[p]
    requires now[to] == Stamp(its[from], version)
    requires forall p :: 0 <= p < |its| && p != to ==> now[p] == up[p]
    ensures now == MovedItems(its, from, from + 1, to, version)
  {
    MovedInSteps(its, down, up, now, from, from + 1, to, version);
    hide MovedItems;
  }

  /** Every edit of the items stamps what it changes. */
  lemma EditsAreStamped(its: seq<Item>, version: nat)
    ensures forall item: Item :: item.version == version ==> StampsCover(its, its + [item], version)
    ensures forall p, q :: 0 <= p < |its| && 0 <= q < |its| ==> StampsCover(its, SwappedItems(its, p, q, version), version)
    ensures forall start, end, to :: 0 <= start <= end <= |its| && 0 <= to && to + (end - start) <= |its| ==>
              StampsCover(its, MovedItems(its, start, end, to, version), version)
    ensures forall p :: 0 <= p < |its| ==> StampsCover(its, DeletedItems(its, p, version), version)
  {
  }

  lemma MovedOrderIsPermutation(order: seq<nat>, start: nat, end: nat, to: nat)
    requires IsPermutation(order) && start <= end <= |order| && to + (end - start) <= |order|
    ensures IsPermutation(MovedOrder(order, start, end, to))
  {
    var r := MovedOrder(order, start, end, to);
    forall i, j | 0 <= i < j < |r| ensures r[i] != r[j] {
      NewPositionIsInjective(|order|, start, end, to, order[i], order[j]);
    }
  }

  /** In random mode a block move leaves the song of every order slot as it was. */
  lemma MoveKeepsSlots(its: seq<Item>, order: seq<nat>, start: nat, end: nat, to: nat, version: nat, i: nat)
    requires IsPermutation(order) && |order| == |its| && i < |order|
    requires start <= end <= |its| && to + (end - start) <= |its|
    ensures var order' := MovedOrder(order, start, end, to);
            order'[i] < |its| && SameItem(MovedItems(its, start, end, to, version)[order'[i]], its[order[i]])
  {
    MovedItemAt(its, start, end, to, version, order[i]);
  }

  lemma DeletedOrderIsPermutation(order: seq<nat>, slot: nat)
    requires IsPermutation(order) && slot < |order|
    ensures IsPermutation(DeletedOrder(order, slot))
  {
    var rest := order[..slot] + order[slot + 1..];
    var r := DeletedOrder(order, slot);
    assert forall i :: 0 <= i < |rest| ==> rest[i] == order[if i < slot then i else i + 1] != order[slot];
    forall i, j | 0 <= i < j < |r| ensures r[i] != r[j] {
      assert rest[i] != rest[j];
    }
  }

  /** A deletion leaves the song of every other order slot as it was. */
  lemma DeleteKeepsSlots(its: seq<Item>, order: seq<nat>, slot: nat, version: nat, i: nat)
    requires IsPermutation(order) && |order| == |its| && slot < |order| && i < |order| && i != slot
    ensures var its' := DeletedItems(its, order[slot], version);
            var order' := DeletedOrder(order, slot);
            var i' := if i > slot then i - 1 else i;
            && i' < |order'| && order'[i'] < |its'|
            && SameItem(its'[order'[i']], its[order[i]])
  {
    DeletedOrderIsPermutation(order, slot);
    assert order[i] != order[slot];
  }

  /** After a block move the songs are still distinct and the id table, moved along, is still the inverse of the ids. */
  lemma MoveKeepsItems(data: seq<int>, its: seq<Item>, start: nat, end: nat, to: nat, version: nat)
    requires start <= end <= |its| && to + (end - start) <= |its| && SongsOk(its)
    requires TableMaps(data, its, MoveMap(|its|, start, end, to))
    ensures TableOk(data, MovedItems(its, start, end, to, version))
    ensures SongsOk(MovedItems(its, start, end, to, version))
  {
    var at := MoveMap(|its|, start, end, to);
    MovedOrderIsPermutation(Positions(|its|), start, end, to);
    forall p | 0 <= p < |its| ensures SameItem(MovedItems(its, start, end, to, version)[at[p]], its[p]) {
      MovedItemAt(its, start, end, to, version, p);
    }
    TableEnd(data, its, at, MovedItems(its, start, end, to, version));
    SongsMove(its, at, MovedItems(its, start, end, to, version));
  }

  lemma SwapKeepsItems(data: seq<int>, its: seq<Item>, p: nat, q: nat, version: nat)
    requires TableOk(data, its) && SongsOk(its) && p < |its| && q < |its|
    ensures TableOk(data[its[p].id := q][its[q].id := p], SwappedItems(its, p, q, version))
    ensures SongsOk(SwappedItems(its, p, q, version))
  {
  }

  lemma AppendKeepsItems(data: seq<int>, its: seq<Item>, item: Item)
    requires TableOk(data, its) && SongsOk(its)
    requires item.song != null && forall p :: 0 <= p < |its| ==> its[p].song != item.song
    requires item.id < |data| && data[item.id] < 0
    ensures TableOk(data[item.id := |its|], its + [item]) && SongsOk(its + [item])
  {
  }

  lemma SwappedIsStamped(its: seq<Item>, i: nat, r: nat, version: nat)
    requires i < |its| && r < |its|
    ensures StampsCover(its, SwappedItems(its, i, r, version), version)
  {
  }

  lemma StampedKeepsItems(data: seq<int>, its: seq<Item>, version: nat)
    requires TableOk(data, its) && SongsOk(its)
    ensures TableOk(data, Stamped(its, version)) && SongsOk(Stamped(its, version))
  {
  }

  lemma AppendIsStamped(its: seq<Item>, item: Item, version: nat)
    requires item.version == version
    ensures StampsCover(its, its + [item], version)
  {
  }

  lemma AppendKeepsPermutation(order: seq<nat>)
    requires IsPermutation(order)
    ensures IsPermutation(order + [|order|]) && (IsIdentity(order) ==> IsIdentity(order + [|order|]))
  {
  }

  lemma UnusedId(data: seq<int>, its: seq<Item>, id: nat)
    requires TableOk(data, its) && id < |data| && data[id] < 0
    ensures forall p :: 0 <= p < |its| ==> its[p].id != id
  {
  }

  function Without<T>(s: seq<T>, k: nat): (r: seq<T>)
    requires k < |s|
    ensures |r| == |s| - 1
  {
    s[..k] + s[k + 1..]
  }

  /** Where the items other than `position` stand while those after it move up, up to item `i`. */
  function GapMap(n: nat, position: nat, i: nat): (r: seq<nat>)
    ensures |r| == n
  {
    seq(n, p => if position <= p && i <= p then p + 1 else p)
  }

  lemma GapStep(n: nat, position: nat, i: nat)
    requires position <= i < n
    ensures GapMap(n, position, i)[i] == i + 1 && GapMap(n, position, i)[i := i] == GapMap(n, position, i + 1)
  {
  }

  lemma GapEnd(n: nat, position: nat)
    ensures GapMap(n, position, n) == Positions(n)
  {
  }

  lemma DeletedItemsBy(its: seq<Item>, now: seq<Item>, position: nat, version: nat)
    requires position < |its| && |now| == |its| - 1
    requires forall p :: position <= p < |now| ==> now[p] == Stamp(its[p + 1], version)
    requires forall p :: 0 <= p < position ==> now[p] == its[p]
    ensures now == DeletedItems(its, position, version)
  {
    assert now[..position] == its[..position];
    assert now[position..] == Stamped(its[position + 1..], version);
    assert now == now[..position] + now[position..];
  }

  /** IdTable::Erase() of a deleted item. */
  lemma TableErase(data: seq<int>, its: seq<Item>, position: nat)
    requires TableOk(data, its) && position < |its|
    ensures its[position].id < |data| && data[its[position].id] == position
    ensures TableMaps(data[its[position].id := -1], Without(its, position), GapMap(|its| - 1, position, position))
  {
    var rest := Without(its, position);
    var data' := data[its[position].id := -1];
    var at := GapMap(|its| - 1, position, position);
    forall p | 0 <= p < |rest| ensures rest[p] == its[at[p]] {}
    forall p | 0 <= p < |rest| ensures rest[p].id < |data'| && data'[rest[p].id] == at[p] {}
    forall p, q | 0 <= p < q < |rest| ensures rest[p].id != rest[q].id {
      assert data'[rest[p].id] == at[p] != at[q] == data'[rest[q].id];
    }
    forall id | 0 <= id < |data'| ensures data'[id] == -1 || exists p :: 0 <= p < |rest| && rest[p].id == id {
      if data'[id] != -1 {
        var q := data[id];
        assert q != position;
        assert rest[if q < position then q else q - 1].id == id;
      }
    }
  }

  lemma DeleteKeepsItems(data: seq<int>, its: seq<Item>, position: nat, version: nat)
    requires position < |its| && SongsOk(its)
    requires TableMaps(data, Without(its, position), Positions(|its| - 1))
    ensures TableOk(data, DeletedItems(its, position, version)) && SongsOk(DeletedItems(its, position, version))
  {
    var its' := DeletedItems(its, position, version);
    TableEnd(data, Without(its, position), Positions(|its| - 1), its');
    assert forall p :: 0 <= p < |its'| ==> SameItem(its'[p], its[if p < position then p else p + 1]);
  }

  /** Where everything is after the items at i and r were swapped. */
  ghost function SwapMap(at: seq<nat>, i: nat, r: nat): (at': seq<nat>)
    ensures |at'| == |at|
  {
    seq(|at|, p requires 0 <= p < |at| => if at[p] == i then r else if at[p] == r then i else at[p])
  }

  /** its' holds the items of its, each at position at[p]; only those in [start, end) moved or were stamped. */
  ghost predicate Rearranged(its: seq<Item>, its': seq<Item>, at: seq<nat>, start: nat, end: nat, version: nat) {
    && |at| == |its'| == |its| && IsPermutation(at)
    && (forall p :: 0 <= p < |its| ==> SameItem(its'[at[p]], its[p]))
    && (forall p :: 0 <= p < |its| && !(start <= p < end) ==> at[p] == p && its'[p] == its[p])
    && StampsCover(its, its', version)
  }

  lemma PositionsPermute(n: nat)
    ensures IsPermutation(Positions(n))
  {
  }

  lemma SwapMapIsPermutation(at: seq<nat>, i: nat, r: nat)
    requires IsPermutation(at) && i < |at| && r < |at|
    ensures IsPermutation(SwapMap(at, i, r))
  {
  }

  lemma RearrangeSwap(its: seq<Item>, now: seq<Item>, at: seq<nat>, start: nat, end: nat, version: nat, i: nat, r: nat)
    requires Rearranged(its, now, at, start, end, version) && end <= |its|
    requires start <= i < end && start <= r < end
    ensures Rearranged(its, SwappedItems(now, i, r, version), SwapMap(at, i, r), start, end, version)
  {
    SwapMapIsPermutation(at, i, r);
    SwappedItemsBy(now, i, r, version);
    var at' := SwapMap(at, i, r);
    var now' := SwappedItems(now, i, r, version);
    SwapIsStamped(its, now, now', version, i, r);
    hide Distinct, SwappedItems, StampsCover;
    forall p | 0 <= p < |its| ensures SameItem(now'[at'[p]], its[p]) {
      assert at[p] < |its| && SameItem(now[at[p]], its[p]);
      hide IsPermutation;
    }
  }

  lemma SwapIsStamped(its: seq<Item>, now: seq<Item>, now': seq<Item>, version: nat, i: nat, r: nat)
    requires StampsCover(its, now, version) && |now'| == |now| && i < |now| && r < |now|
    requires now'[i].version == now'[r].version == version
    requires forall p :: 0 <= p < |now| && p != i && p != r ==> now'[p] == now[p]
    ensures StampsCover(its, now', version)
  {
  }

  lemma SwappedItemsBy(its: seq<Item>, i: nat, r: nat, version: nat)
    requires i < |its| && r < |its|
    ensures var t := SwappedItems(its, i, r, version);
            && |t| == |its| && SameItem(t[i], its[r]) && SameItem(t[r], its[i])
            && t[i].version == t[r].version == version
            && forall p :: 0 <= p < |its| && p != i && p != r ==> t[p] == its[p]
  {
  }
}
