/**
 The play queue: items by position, the play order, and the table from ids to positions.
 */
module Queues {
  import opened Permutations
  import opened Sequences
  import opened QueueItems
  import opened PlayOrder

  const HASH_MULT := 4
  const MAX_VERSION := 0x7fff_ffff

  /** Maps id numbers to position numbers. */
  class IdTable {
    const size: nat
    var next: nat
    const data: array<int>

    ghost predicate Valid()
      reads this
    {
      data.Length == size && 1 <= next && (size > 1 ==> next < size)
    }

    constructor (size: nat)
      ensures Valid() && this.size == size && fresh(data)
      ensures forall id :: 0 <= id < size ==> data[id] == -1
    {
      this.size := size;
      next := 1;
      data := new int[size](_ => -1);
    }

    method IdToPosition(id: nat) returns (position: int)
      requires Valid()
      ensures position == if id < size then data[id] else -1
    {
      position := if id < size then data[id] else -1;
    }

    /** The next unused id after the one given out last, in a round through all ids but 0. */
    method GenerateId() returns (id: nat)
      requires Valid() && exists free :: 1 <= free < size && data[free] < 0
      modifies this
      ensures Valid() && 1 <= id < size && data[id] < 0
    {
      ghost var free :| 1 <= free < size && data[free] < 0;
      while true
        invariant Valid()
        decreases if next <= free then free - next else size - next + free
      {
        id := next;
        next := next + 1;
        if next == size {
          next := 1;
        }
        if data[id] < 0 {
          return;
        }
      }
    }

    method Insert(position: nat) returns (id: nat)
      requires Valid() && exists free :: 1 <= free < size && data[free] < 0
      modifies this, data
      ensures Valid() && 1 <= id < size && old(data[id]) < 0
      ensures data[..] == old(data[..])[id := position]
    {
      id := GenerateId();
      data[id] := position;
    }

    method Move(id: nat, position: nat)
      requires Valid() && id < size && data[id] >= 0
      modifies data
      ensures data[..] == old(data[..])[id := position]
    {
      data[id] := position;
    }

    method Erase(id: nat)
      requires Valid() && id < size && data[id] >= 0
      modifies data
      ensures data[..] == old(data[..])[id := -1]
    {
      data[id] := -1;
    }
  }

  class Queue {
    const maxLength: nat
    var length: nat
    var version: nat
    const items: array<Item>
    const order: array<nat>
    const idTable: IdTable
    var repeat: bool
    var single: bool
    var consume: bool
    var random: bool

    /** Songs in position order. */
    ghost function Items(): seq<Item>
      requires length <= items.Length
      reads this, items
    {
      items[..length]
    }

    /** Order numbers to positions. */
    ghost function Order(): seq<nat>
      requires length <= order.Length
      reads this, order
    {
      order[..length]
    }

    ghost predicate Shape()
      reads this, idTable
    {
      && length <= maxLength
      && items.Length == order.Length == maxLength
      && idTable.Valid() && idTable.size == maxLength * HASH_MULT
      && (order as object) != idTable.data
    }

    /** Ids are unique, the table is their inverse, and every item has its own song object. */
    ghost predicate ItemsOk()
      requires Shape()
      reads this, items, order, idTable, idTable.data
    {
      TableOk(idTable.data[..], Items()) && SongsOk(Items())
    }

    /** All of the above, and the play order is a permutation: the identity unless random is on. */
    ghost predicate Valid()
      reads this, items, order, idTable, idTable.data
    {
      && Shape() && ItemsOk()
      && IsPermutation(Order())
      && (!random ==> IsIdentity(Order()))
      && 1 <= version < MAX_VERSION
    }

    constructor (maxLength: nat)
      ensures Valid() && Items() == [] && Order() == [] && this.maxLength == maxLength && version == 1
      ensures !repeat && !single && !consume && !random
      ensures fresh(items) && fresh(order) && fresh(idTable) && fresh(idTable.data)
    {
      this.maxLength := maxLength;
      length := 0;
      version := 1;
      items := new Item[maxLength];
      order := new nat[maxLength];
      var table := new IdTable(maxLength * HASH_MULT);
      idTable := table;
      repeat := false;
      single := false;
      consume := false;
      random := false;
    }

    /** The order number after `slot`, or -1 to stop playback. */
    function GetNextOrder(slot: nat): (next: int)
      requires slot < length
      reads this
      ensures -1 <= next < length
      ensures next == slot ==> repeat && !consume && (single || (length == 1 && slot == 0))
    {
      if single && repeat && !consume then slot
      else if slot + 1 < length then slot + 1
      else if repeat && (slot > 0 || !consume) then 0
      else -1
    }

    method IdToPosition(id: nat) returns (position: int)
      requires Valid()
      ensures position == -1 ==> forall p :: 0 <= p < length ==> Items()[p].id != id
      ensures position != -1 ==> 0 <= position < length && Items()[position].id == id
    {
      position := idTable.IdToPosition(id);
    }

    method PositionToOrder(position: nat) returns (slot: nat)
      requires Shape() && IsPermutation(Order()) && position < length
      ensures slot < length && slot == SlotOf(Order(), position)
    {
      NoPositionMissing(Order(), position);
      slot := 0;
      while order[slot] != position
        invariant slot < length
        invariant position !in order[..slot]
        decreases length - slot
      {
        assert order[..slot + 1] == order[..slot] + [order[slot]];
        slot := slot + 1;
      }
      SlotOfAt(Order(), slot);
    }

    // -------------------------------------------------------------------------------------------
    // Versions
    // -------------------------------------------------------------------------------------------

    /** On overflow every stamp becomes 0, which means "newer than anything". */
    method IncrementVersion()
      requires Valid()
      modifies this`version, items
      ensures Valid()
      ensures old(version) + 1 < MAX_VERSION ==> version == old(version) + 1 && Items() == old(Items())
      ensures old(version) + 1 == MAX_VERSION ==> version == 1 && Items() == Stamped(old(Items()), 0)
    {
      hide TableOk, SongsOk, IsPermutation, IsIdentity, Stamped;
      version := version + 1;
      if version >= MAX_VERSION {
        StampedKeepsItems(idTable.data[..], Items(), 0);
        ClearStamps();
        version := 1;
      }
    }

    method ClearStamps()
      requires Shape()
      modifies items
      ensures Items() == Stamped(old(Items()), 0)
    {
      ghost var before := Items();
      for i := 0 to length
        invariant forall p :: 0 <= p < i ==> items[p] == Stamp(before[p], 0)
        invariant forall p :: i <= p < length ==> items[p] == before[p]
      {
        items[i] := Stamp(items[i], 0);
      }
      assert Items() == Stamped(before, 0);
    }

    method ModifyAtOrder(slot: nat)
      requires Valid() && slot < length
      modifies items
      ensures Valid()
      ensures var p := Order()[slot]; Items() == old(Items())[p := Stamp(old(Items())[p], version)]
      ensures StampsCover(old(Items()), Items(), version)
    {
      var position := order[slot];
      items[position] := Stamp(items[position], version);
    }

    // -------------------------------------------------------------------------------------------
    // Adding, moving and deleting
    // -------------------------------------------------------------------------------------------

    method Append(song: Song, priority: Priority) returns (id: nat)
      requires Valid() && length < maxLength
      modifies this`length, items, order, idTable, idTable.data
      ensures Valid() && length == old(length) + 1
      ensures Items()[..old(length)] == old(Items())
      ensures fresh(Items()[old(length)].song) && Items()[old(length)].song.uri == song.uri
      ensures Items()[old(length)] == Item(Items()[old(length)].song, id, version, priority)
      ensures forall p :: 0 <= p < old(length) ==> old(Items())[p].id != id
      ensures Order() == old(Order()) + [old(length)]
      ensures StampsCover(old(Items()), Items(), version)
    {
      hide TableOk, SongsOk, IsPermutation, IsIdentity, StampsCover;
      ghost var before := Items();
      ghost var table := idTable.data[..];
      FreeIdExists(table, before);
      assert exists free :: 1 <= free < idTable.size && idTable.data[free] < 0 by {
        var free :| 1 <= free < |table| && table[free] < 0;
        assert idTable.data[free] == table[free];
      }
      var position := length;
      length := length + 1;
      id := idTable.Insert(position);
      var copy := new Song(song.uri);
      items[position] := Item(copy, id, version, priority);
      order[position] := position;
      assert Items() == before + [items[position]];
      assert Order() == old(Order()) + [position];
      AppendKeepsItems(table, before, items[position]);
      AppendIsStamped(before, items[position], version);
      AppendKeepsPermutation(old(Order()));
      UnusedId(table, before, id);
    }

    method SwapPositions(p: nat, q: nat)
      requires Valid() && p < length && q < length
      modifies items, idTable.data
      ensures Valid()
      ensures Items() == SwappedItems(old(Items()), p, q, version)
      ensures StampsCover(old(Items()), Items(), version)
    {
      ghost var before := Items();
      ghost var table := idTable.data[..];
      var idP := items[p].id;
      var idQ := items[q].id;
      assert table[idP] == p && table[idQ] == q;
      hide TableOk, SongsOk, IsPermutation, IsIdentity, StampsCover;
      items[p], items[q] := items[q], items[p];
      items[p] := Stamp(items[p], version);
      items[q] := Stamp(items[q], version);
      idTable.Move(idP, q);
      idTable.Move(idQ, p);
      assert Items() == SwappedItems(before, p, q, version);
      hide SwappedItems;
      SwapKeepsItems(table, before, p, q, version);
      SwappedIsStamped(before, p, q, version);
    }

    method SwapOrders(i: nat, j: nat)
      requires Valid() && random && i < length && j < length
      modifies order
      ensures Valid()
      ensures Order() == Swapped(old(Order()), i, j)
    {
      order[i], order[j] := order[j], order[i];
      assert Order() == Swapped(old(Order()), i, j);
      SwapKeepsPermutation(old(Order()), i, j);
    }

    /** Copy an item to another place, stamp it there, and point its id there. */
    method MoveItemTo(from: nat, to: nat)
      requires Shape() && from < items.Length && to < items.Length
      requires items[from].id < idTable.size && idTable.data[items[from].id] >= 0
      modifies items, idTable.data
      ensures items[to] == Stamp(old(items[from]), version)
      ensures forall p :: 0 <= p < items.Length && p != to ==> items[p] == old(items[p])
      ensures idTable.data[..] == old(idTable.data[..])[old(items[from].id) := to]
    {
      var fromId := items[from].id;
      items[to] := Stamp(items[from], version);
      idTable.Move(fromId, to);
    }
  
    /** MoveRange(), first loop: close the gap when the block moves up. */
    method ShiftDown(start: nat, end: nat, to: nat, ghost its: seq<Item>)
      requires Shape() && start <= end <= length && to + (end - start) <= length
      requires its == Items() && TableMaps(idTable.data[..], its, Positions(length))
      modifies items, idTable.data
      ensures forall p :: start <= p < to ==> items[p] == Stamp(its[p + (end - start)], version)
      ensures forall p :: 0 <= p < length && !(start <= p < to) ==> items[p] == its[p]
      ensures forall p :: length <= p < items.Length ==> items[p] == old(items[p])
      ensures TableMaps(idTable.data[..], its, DownMap(length, start, end, to))
    {
      hide TableMaps, DownMap;
      var i := end;
      DownMapStart(length, start, end);
      while i < end + to - start
        invariant end <= i && (i <= end + to - start || i == end)
        invariant forall p :: start <= p < start + i - end ==> items[p] == Stamp(its[p + (end - start)], version)
        invariant forall p :: 0 <= p < length && !(start <= p < start + i - end) ==> items[p] == its[p]
        invariant forall p :: length <= p < items.Length ==> items[p] == old(items[p])
        invariant TableMaps(idTable.data[..], its, DownMap(length, start, end, start + i - end))
      {
        assert items[i] == its[i];
        DownMapStep(length, start, end, i);
        TableMove(idTable.data[..], its, DownMap(length, start, end, start + i - end), i, start + i - end);
        MoveItemTo(i, start + i - end);
        i := i + 1;
      }
      if to <= start { DownMapEnd(length, start, end, to); }
    }

    /** MoveRange(), second loop: close the gap when the block moves down. */
    method ShiftUp(start: nat, end: nat, to: nat, ghost its: seq<Item>)
      requires Shape() && start <= end <= length && to + (end - start) <= length && |its| == length
      requires to < start ==> its == Items()
      requires TableMaps(idTable.data[..], its, DownMap(length, start, end, to))
      modifies items, idTable.data
      ensures forall p :: to + (end - start) <= p < end && to < start ==> items[p] == Stamp(its[p - (end - start)], version)
      ensures forall p :: 0 <= p < items.Length && !(to + (end - start) <= p < end && to < start) ==> items[p] == old(items[p])
      ensures TableMaps(idTable.data[..], its, UpMap(length, start, end, to))
    {
      hide TableMaps;
      var i: int := start - 1;
      ghost var at := DownMap(length, start, end, to);
      while i >= to
        invariant i <= start - 1 && (to <= i + 1 || i == start - 1)
        invariant forall p :: i + 1 + (end - start) <= p < end ==> items[p] == Stamp(its[p - (end - start)], version)
        invariant forall p :: 0 <= p < items.Length && !(i + 1 + (end - start) <= p < end) ==> items[p] == old(items[p])
        invariant |at| == length
        invariant forall p :: 0 <= p < length ==>
                    at[p] == if i < p < start then p + (end - start) else DownMap(length, start, end, to)[p]
        invariant TableMaps(idTable.data[..], its, at)
      {
        assert items[i] == its[i];
        TableMove(idTable.data[..], its, at, i, i + end - start);
        at := at[i := i + end - start];
        MoveItemTo(i, i + end - start);
        i := i - 1;
      }
      assert at == UpMap(length, start, end, to);
    }

    /** MoveRange(), third loop: copy the block back in. */
    method PutBlock(tmp: seq<Item>, start: nat, end: nat, to: nat, ghost its: seq<Item>)
      requires Shape() && start <= end <= length && to + (end - start) <= length && |its| == length
      requires tmp == its[start..end]
      requires TableMaps(idTable.data[..], its, UpMap(length, start, end, to))
      modifies items, idTable.data
      ensures forall p :: to <= p < to + (end - start) ==> items[p] == Stamp(its[start + (p - to)], version)
      ensures forall p :: 0 <= p < items.Length && !(to <= p < to + (end - start)) ==> items[p] == old(items[p])
      ensures TableMaps(idTable.data[..], its, MoveMap(length, start, end, to))
    {
      hide TableMaps;
      ghost var at := UpMap(length, start, end, to);
      for i := start to end
        invariant forall p :: to <= p < to + (i - start) ==> items[p] == Stamp(its[start + (p - to)], version)
        invariant forall p :: 0 <= p < items.Length && !(to <= p < to + (i - start)) ==> items[p] == old(items[p])
        invariant |at| == length
        invariant forall p :: 0 <= p < length ==>
                    at[p] == if start <= p < i then to + (p - start) else UpMap(length, start, end, to)[p]
        invariant TableMaps(idTable.data[..], its, at)
      {
        TableMove(idTable.data[..], its, at, i, to + i - start);
        at := at[i := to + i - start];
        idTable.Move(tmp[i - start].id, to + i - start);
        items[to + i - start] := Stamp(tmp[i - start], version);
      }
      assert at == MoveMap(length, start, end, to);
    }

    /** MoveRange(), last loop: renumber the play order. */
    method RemapOrder(start: nat, end: nat, to: nat)
      requires Shape() && start <= end <= length && to + (end - start) <= length
      modifies order
      ensures Order() == MovedOrder(old(Order()), start, end, to)
    {
      ghost var before := Order();
      for i := 0 to length
        invariant forall k :: 0 <= k < i ==> order[k] == NewPosition(before[k], start, end, to)
        invariant forall k :: i <= k < length ==> order[k] == before[k]
      {
        if order[i] >= end && order[i] < to + end - start {
          order[i] := order[i] - (end - start);
        } else if order[i] < start && order[i] >= to {
          order[i] := order[i] + (end - start);
        } else if start <= order[i] && order[i] < end {
          order[i] := order[i] + to - start;
        }
      }
      assert Order() == MovedOrder(before, start, end, to);
    }

    /** Cut the block [start, end) and reinsert it at `to`, in place. */
    method MoveRange(start: nat, end: nat, to: nat)
      requires Valid() && start <= end <= length && to + (end - start) <= length
      modifies items, order, idTable.data
      ensures Valid()
      ensures Items() == MovedItems(old(Items()), start, end, to, version)
      ensures Order() == if random then MovedOrder(old(Order()), start, end, to) else old(Order())
      ensures StampsCover(old(Items()), Items(), version)
    {
      hide TableOk, SongsOk, IsPermutation, IsIdentity, MovedItems, MovedOrder;
      MoveItems(start, end, to);
      EditsAreStamped(old(Items()), version);
      assert Order() == old(Order());
      if random {
        RemapOrder(start, end, to);
        MovedOrderIsPermutation(old(Order()), start, end, to);
      }
    }

    /** MoveRange() but for the play order. */
    method MoveItems(start: nat, end: nat, to: nat)
      requires Shape() && ItemsOk() && start <= end <= length && to + (end - start) <= length
      modifies items, idTable.data
      ensures ItemsOk()
      ensures Items() == MovedItems(old(Items()), start, end, to, version)
    {
      hide TableMaps, TableOk, SongsOk, MoveMap, MovedItems;
      ghost var its := Items();
      TableStart(idTable.data[..], its);
      MoveInSteps(start, end, to, its);
      MoveKeepsItems(idTable.data[..], its, start, end, to, version);
    }

    method MoveInSteps(start: nat, end: nat, to: nat, ghost its: seq<Item>)
      requires Shape() && start <= end <= length && to + (end - start) <= length
      requires its == Items() && TableMaps(idTable.data[..], its, Positions(length))
      modifies items, idTable.data
      ensures Items() == MovedItems(its, start, end, to, version)
      ensures TableMaps(idTable.data[..], its, MoveMap(length, start, end, to))
    {
      hide TableMaps, MoveMap, UpMap, DownMap, MovedItems;
      var tmp := items[start..end];
      IsSlice(its, start, end, tmp);
      ShiftDown(start, end, to, its);
      ghost var down := Items();
      if to < start { assert down == its; }
      ShiftUp(start, end, to, its);
      ghost var up := Items();
      PutBlock(tmp, start, end, to, its);
      MovedInSteps(its, down, up, Items(), start, end, to, version);
    }

    /** Move one song; the loops differ from MoveRange(), the result is MoveRange(from, from + 1, to). */
    method MovePosition(from: nat, to: nat)
      requires Valid() && from < length && to < length
      modifies items, order, idTable.data
      ensures Valid()
      ensures Items() == MovedItems(old(Items()), from, from + 1, to, version)
      ensures Order() == if random then MovedOrder(old(Order()), from, from + 1, to) else old(Order())
      ensures StampsCover(old(Items()), Items(), version)
    {
      hide TableOk, SongsOk, IsPermutation, IsIdentity, MovedItems, MovedOrder;
      MoveItem(from, to);
      EditsAreStamped(old(Items()), version);
      assert Order() == old(Order());
      if random {
        RemapOrderOfOne(from, to);
        MovedOrderIsPermutation(old(Order()), from, from + 1, to);
      }
    }

    method MoveItem(from: nat, to: nat)
      requires Shape() && ItemsOk() && from < length && to < length
      modifies items, idTable.data
      ensures ItemsOk()
      ensures Items() == MovedItems(old(Items()), from, from + 1, to, version)
    {
      hide TableMaps, TableOk, SongsOk, MoveMap, MovedItems;
      ghost var its := Items();
      TableStart(idTable.data[..], its);
      MoveOneInSteps(from, to, its);
      MoveKeepsItems(idTable.data[..], its, from, from + 1, to, version);
    }

    method MoveOneInSteps(from: nat, to: nat, ghost its: seq<Item>)
      requires Shape() && from < length && to < length
      requires its == Items() && TableMaps(idTable.data[..], its, Positions(length))
      modifies items, idTable.data
      ensures Items() == MovedItems(its, from, from + 1, to, version)
      ensures TableMaps(idTable.data[..], its, MoveMap(length, from, from + 1, to))
    {
      hide TableMaps, MoveMap, UpMap, DownMap, MovedItems;
      var tmp := items[from];
      CloseGapDown(from, to, its);
      ghost var down := Items();
      if to < from { assert down == its; }
      CloseGapUp(from, to, its);
      ghost var up := Items();
      PutItem(tmp, from, to, its);
      MovedOneInSteps(its, down, up, Items(), from, to, version);
    }

    /** MovePostion(), behind the loops: the song itself. */
    method PutItem(tmp: Item, from: nat, to: nat, ghost its: seq<Item>)
      requires Shape() && from < length && to < length && |its| == length && tmp == its[from]
      requires TableMaps(idTable.data[..], its, UpMap(length, from, from + 1, to))
      modifies items, idTable.data
      ensures items[to] == Stamp(tmp, version)
      ensures forall p :: 0 <= p < items.Length && p != to ==> items[p] == old(items[p])
      ensures TableMaps(idTable.data[..], its, MoveMap(length, from, from + 1, to))
    {
      hide TableMaps, UpMap, MoveMap;
      UpMapAt(length, from, to);
      TableMove(idTable.data[..], its, UpMap(length, from, from + 1, to), from, to);
      idTable.Move(tmp.id, to);
      items[to] := Stamp(tmp, version);
    }

    /** MovePostion(), first loop. */
    method CloseGapDown(from: nat, to: nat, ghost its: seq<Item>)
      requires Shape() && from < length && to < length
      requires its == Items() && TableMaps(idTable.data[..], its, Positions(length))
      modifies items, idTable.data
      ensures forall p :: from <= p < to ==> items[p] == Stamp(its[p + 1], version)
      ensures forall p :: 0 <= p < length && !(from <= p < to) ==> items[p] == its[p]
      ensures TableMaps(idTable.data[..], its, DownMap(length, from, from + 1, to))
    {
      hide TableMaps;
      ghost var at := Positions(length);
      var i := from;
      while i < to
        invariant from <= i && (i <= to || i == from)
        invariant forall p :: from <= p < i ==> items[p] == Stamp(its[p + 1], version)
        invariant forall p :: 0 <= p < length && !(from <= p < i) ==> items[p] == its[p]
        invariant |at| == length && forall p :: 0 <= p < length ==> at[p] == if from < p <= i then p - 1 else p
        invariant TableMaps(idTable.data[..], its, at)
      {
        TableMove(idTable.data[..], its, at, i + 1, i);
        at := at[i + 1 := i];
        MoveItemTo(i + 1, i);
        i := i + 1;
      }
      assert at == DownMap(length, from, from + 1, to);
    }

    /** MovePostion(), second loop. */
    method CloseGapUp(from: nat, to: nat, ghost its: seq<Item>)
      requires Shape() && from < length && to < length && |its| == length
      requires to < from ==> its == Items()
      requires TableMaps(idTable.data[..], its, DownMap(length, from, from + 1, to))
      modifies items, idTable.data
      ensures forall p :: to < p <= from ==> items[p] == Stamp(its[p - 1], version)
      ensures forall p :: 0 <= p < length && !(to < p <= from) ==> items[p] == old(items[p])
      ensures TableMaps(idTable.data[..], its, UpMap(length, from, from + 1, to))
    {
      hide TableMaps;
      ghost var at := DownMap(length, from, from + 1, to);
      var i := from;
      while i > to
        invariant i <= from && (to <= i || i == from)
        invariant forall p :: i < p <= from ==> items[p] == Stamp(its[p - 1], version)
        invariant forall p :: 0 <= p < length && !(i < p <= from) ==> items[p] == old(items[p])
        invariant |at| == length && forall p :: 0 <= p < length ==>
                    at[p] == if i <= p < from then p + 1 else DownMap(length, from, from + 1, to)[p]
        invariant TableMaps(idTable.data[..], its, at)
      {
        assert items[i - 1] == its[i - 1];
        TableMove(idTable.data[..], its, at, i - 1, i);
        at := at[i - 1 := i];
        MoveItemTo(i - 1, i);
        i := i - 1;
      }
      assert at == UpMap(length, from, from + 1, to);
    }

    method RemapOrderOfOne(from: nat, to: nat)
      requires Shape() && from < length && to < length
      modifies order
      ensures Order() == MovedOrder(old(Order()), from, from + 1, to)
    {
      ghost var before := Order();
      for i := 0 to length
        invariant forall k :: 0 <= k < i ==> order[k] == NewPosition(before[k], from, from + 1, to)
        invariant forall k :: i <= k < length ==> order[k] == before[k]
      {
        if order[i] > from && order[i] <= to {
          order[i] := order[i] - 1;
        } else if order[i] < from && order[i] >= to {
          order[i] := order[i] + 1;
        } else if from == order[i] {
          order[i] := to;
        }
      }
      assert Order() == MovedOrder(before, from, from + 1, to);
    }

    /** Move a slot of the play order. */
    method MoveOrder(fromOrder: nat, toOrder: nat)
      requires Valid() && random && fromOrder < length && toOrder < length
      modifies order
      ensures Valid()
      ensures Order() == MoveOne(old(Order()), fromOrder, toOrder)
    {
      hide TableOk, SongsOk, IsPermutation, CutInsert;
      ghost var before := Order();
      var fromPosition := order[fromOrder];
      if fromOrder < toOrder {
        for i := fromOrder to toOrder
          invariant forall k :: fromOrder <= k < i ==> order[k] == before[k + 1]
          invariant forall k :: 0 <= k < length && !(fromOrder <= k < i) ==> order[k] == before[k]
        {
          order[i] := order[i + 1];
        }
      } else {
        for i := fromOrder downto toOrder
          invariant forall k :: i < k <= fromOrder ==> order[k] == before[k - 1]
          invariant forall k :: 0 <= k < length && !(i < k <= fromOrder) ==> order[k] == before[k]
        {
          order[i + 1] := order[i];
        }
      }
      order[toOrder] := fromPosition;
      forall k | 0 <= k < length ensures order[k] == MoveOne(before, fromOrder, toOrder)[k] {
        MoveOneAt(before, fromOrder, toOrder, k);
      }
      assert Order() == MoveOne(before, fromOrder, toOrder);
      MoveOneKeepsElements(before, fromOrder, toOrder);
      SameElements(before, Order());
    }

    /** Remove a song; the items after it move up. */
    method DeletePosition(position: nat)
      requires Valid() && position < length
      modifies this`length, items, order, idTable.data
      ensures Valid() && length == old(length) - 1
      ensures Items() == DeletedItems(old(Items()), position, version)
      ensures Order() == DeletedOrder(old(Order()), SlotOf(old(Order()), position))
      ensures StampsCover(old(Items()), Items(), version)
    {
      hide TableOk, SongsOk, TableMaps, DeletedItems;
      ghost var its := Items();
      ghost var before := Order();
      var slot := PositionToOrder(position);
      length := length - 1;
      DeleteItem(position, its);
      EditsAreStamped(its, version);
      DeleteSlot(slot, position, before);
      DeletedOrderIsPermutation(before, slot);
    }

    method DeleteItem(position: nat, ghost its: seq<Item>)
      requires Shape() && position <= length < maxLength
      requires its == items[..length + 1] && TableOk(idTable.data[..], its) && SongsOk(its)
      modifies items, idTable.data
      ensures Items() == DeletedItems(its, position, version) && ItemsOk()
    {
      hide TableOk, SongsOk, TableMaps, DeletedItems, GapMap, Without;
      TableErase(idTable.data[..], its, position);
      assert items[position] == its[position];
      idTable.Erase(items[position].id);
      CloseGap(position, its);
      DeletedItemsBy(its, Items(), position, version);
      GapEnd(length, position);
      DeleteKeepsItems(idTable.data[..], its, position, version);
    }

    /** DeletePosition(), the loop: all later items move up. */
    method CloseGap(position: nat, ghost its: seq<Item>)
      requires Shape() && position <= length < maxLength && its == items[..length + 1]
      requires TableMaps(idTable.data[..], Without(its, position), GapMap(length, position, position))
      modifies items, idTable.data
      ensures forall p :: position <= p < length ==> items[p] == Stamp(its[p + 1], version)
      ensures forall p :: 0 <= p < position ==> items[p] == its[p]
      ensures TableMaps(idTable.data[..], Without(its, position), GapMap(length, position, length))
    {
      hide TableMaps, GapMap, Without;
      ghost var rest := Without(its, position);
      RestAt(its, position);
      for i := position to length
        invariant forall p :: position <= p < i ==> items[p] == Stamp(its[p + 1], version)
        invariant forall p :: 0 <= p <= length && !(position <= p < i) ==> items[p] == its[p]
        invariant TableMaps(idTable.data[..], rest, GapMap(length, position, i))
      {
        assert items[i + 1] == its[i + 1] == rest[i];
        TableMove(idTable.data[..], rest, GapMap(length, position, i), i, i);
        GapStep(length, position, i);
        MoveItemTo(i + 1, i);
      }
    }

    lemma RestAt(its: seq<Item>, position: nat)
      requires position < |its|
      ensures forall i :: position <= i < |its| - 1 ==> Without(its, position)[i] == its[i + 1]
    {
    }

    method DeleteSlot(slot: nat, position: nat, ghost before: seq<nat>)
      requires Shape() && slot <= length < maxLength
      requires before == order[..length + 1] && before[slot] == position
      modifies order
      ensures Order() == DeletedOrder(before, slot)
    {
      CloseOrderGap(slot, before);
      RenumberAbove(position);
      assert Order() == DeletedOrder(before, slot);
    }

    /** DeletePosition(): the later slots move up. */
    method CloseOrderGap(slot: nat, ghost before: seq<nat>)
      requires Shape() && slot <= length < maxLength && before == order[..length + 1]
      modifies order
      ensures Order() == Without(before, slot)
    {
      for i := slot to length
        invariant forall k :: slot <= k < i ==> order[k] == before[k + 1]
        invariant forall k :: 0 <= k <= length && !(slot <= k < i) ==> order[k] == before[k]
      {
        order[i] := order[i + 1];
      }
      assert Order() == Without(before, slot);
    }

    /** DeletePosition(): the later positions have moved up. */
    method RenumberAbove(position: nat)
      requires Shape()
      modifies order
      ensures forall k :: 0 <= k < length ==>
                Order()[k] == if old(Order())[k] > position then old(Order())[k] - 1 else old(Order())[k]
    {
      ghost var rest := Order();
      for i := 0 to length
        invariant forall k :: 0 <= k < i ==> order[k] == if rest[k] > position then rest[k] - 1 else rest[k]
        invariant forall k :: i <= k < length ==> order[k] == rest[k]
      {
        assert order[i] == rest[i];
        if order[i] > position {
          order[i] := order[i] - 1;
        }
      }
    }

    method Clear()
      requires Valid()
      modifies this`length, idTable.data
      ensures Valid() && length == 0
    {
      ghost var its := Items();
      for i := 0 to length
        invariant length == |its|
        invariant forall id :: 0 <= id < idTable.size ==>
                    var p := idTable.data[id]; p == -1 || (i <= p < |its| && its[p].id == id)
        invariant forall p :: i <= p < length ==> its[p].id < idTable.size && idTable.data[its[p].id] == p
      {
        assert items[i] == its[i];
        idTable.Erase(items[i].id);
      }
      length := 0;
    }

    /** Back to the normal order; on its own for leaving random mode. */
    method RestoreOrder()
      requires Shape() && ItemsOk() && 1 <= version < MAX_VERSION
      modifies order
      ensures Valid() && IsIdentity(Order())
    {
      for i := 0 to length
        invariant forall k :: 0 <= k < i ==> order[k] == k
      {
        order[i] := i;
      }
    }

    // -------------------------------------------------------------------------------------------
    // Shuffling the play order
    // -------------------------------------------------------------------------------------------

    /** std::shuffle(): any rearrangement of the slots [start, end). */
    method ShuffleOrderRange(start: nat, end: nat)
      requires Shape() && random && start <= end <= length
      modifies order
      ensures RangeShuffled(old(Order()), Order(), start, end)
    {
      hide RangeShuffled;
      ghost var before := Order();
      assert RangeShuffled(before, Order(), start, end) by { ShuffleNothing(before, start, end); }
      for i := start to end
        invariant RangeShuffled(before, Order(), start, end)
      {
        var j :| i <= j < end;
        ghost var t := Order();
        order[i], order[j] := order[j], order[i];
        assert Order() == Swapped(t, i, j);
        ShuffleSwap(before, t, start, end, i, j);
      }
    }

    method SortOrderByPriority(start: nat, end: nat)
      requires Shape() && random && start <= end <= length
      modifies order
      ensures RangeShuffled(old(Order()), Order(), start, end)
      ensures NonIncreasing(Order()[start..end], Items(), 0)
    {
      hide NonIncreasing, SortByPriority, RangeShuffled;
      ghost var before := Order();
      var sorted := SortByPriority(order[..length][start..end], items[..length]);
      PutOrder(start, sorted);
      SortShuffles(before, Order(), start, end, Items());
    }

    method PutOrder(start: nat, slots: seq<nat>)
      requires Shape() && start + |slots| <= length
      modifies order
      ensures forall k :: start <= k < start + |slots| ==> Order()[k] == slots[k - start]
      ensures forall k :: 0 <= k < length && !(start <= k < start + |slots|) ==> Order()[k] == old(Order())[k]
    {
      for i := 0 to |slots|
        invariant forall k :: start <= k < start + i ==> order[k] == slots[k - start]
        invariant forall k :: 0 <= k < length && !(start <= k < start + i) ==> order[k] == old(order[k])
      {
        order[start + i] := slots[i];
      }
    }

    /** Group the range by priority and shuffle each priority group. */
    method ShuffleOrderRangeWithPriority(start: nat, end: nat)
      requires Valid() && random && start <= end <= length
      modifies order
      ensures Valid()
      ensures RangeShuffled(old(Order()), Order(), start, end)
      ensures NonIncreasing(Order()[start..end], Items(), 0)
    {
      hide TableOk, SongsOk, Distinct, RangeShuffled, IsPermutation, IsIdentity, NonIncreasing, SamePriorities;
      ghost var before := Order();
      ShuffleNothing(before, start, end);
      NothingToSort(before, Items(), start);
      if start == end {
        return;
      }
      SortOrderByPriority(start, end);
      ShuffledElements(before, Order(), start, end);
      SameElements(before, Order());
      ghost var sorted := Order();
      SamePrioritiesAtFirst(sorted, Items());
      PermutationIsBelow(sorted);
      assert order[start] == sorted[start];
      var groupStart := start;
      var groupPriority := items[order[start]].priority;
      var i := start + 1;
      while i < end
        invariant start <= groupStart < i <= end
        invariant RangeShuffled(before, Order(), start, end)
        invariant SamePriorities(sorted, Order(), Items()) && IsPermutation(Order())
        invariant forall k :: i <= k < length ==> order[k] == sorted[k]
        invariant forall k :: groupStart <= k < i ==> PriorityAt(Items(), Order()[k]) == groupPriority
      {
        var priority := items[order[i]].priority;
        if priority != groupPriority {
          ShuffleGroup(groupStart, i, start, end, groupPriority, before, sorted);
          groupStart := i;
          groupPriority := priority;
        }
        i := i + 1;
      }
      ShuffleGroup(groupStart, end, start, end, groupPriority, before, sorted);
      SortedByPriorities(sorted, Order(), Items(), start, end);
    }

    /** Shuffle one priority group; the priorities in the order stay as they are. */
    method ShuffleGroup(a: nat, b: nat, ghost start: nat, ghost end: nat, ghost p: Priority,
                        ghost before: seq<nat>, ghost sorted: seq<nat>)
      requires Shape() && random && start <= a <= b <= end <= length && |before| == length && IsPermutation(before)
      requires RangeShuffled(before, Order(), start, end) && SamePriorities(sorted, Order(), Items())
      requires forall k :: a <= k < b ==> PriorityAt(Items(), Order()[k]) == p
      modifies order
      ensures RangeShuffled(before, Order(), start, end) && SamePriorities(sorted, Order(), Items())
      ensures IsPermutation(Order())
      ensures forall k :: b <= k < length ==> Order()[k] == old(Order())[k]
    {
      ghost var t := Order();
      ShuffleOrderRange(a, b);
      ShuffleWithin(before, t, Order(), start, end, a, b);
      ShuffleKeepsPriorities(t, Order(), a, b, Items(), p);
      ShuffledElements(before, Order(), start, end);
      SameElements(before, Order());
      assert forall k :: b <= k < length ==> Order()[k] == Order()[b..][k - b] == t[b..][k - b];
    }

    /** A new random play order in which no song comes before one of higher priority. */
    method ShuffleOrder()
      requires Valid() && random
      modifies order
      ensures Valid()
      ensures multiset(Order()) == multiset(old(Order()))
      ensures NonIncreasing(Order(), Items(), 0)
    {
      hide TableOk, SongsOk, IsPermutation, RangeShuffled, NonIncreasing;
      ghost var before := Order();
      ShuffleOrderRangeWithPriority(0, length);
      ShuffledElements(before, Order(), 0, length);
      assert Order()[0..length] == Order();
    }

    method ShuffleOrderFirst(start: nat, end: nat) returns (ghost choice: nat)
      requires Valid() && random && start < end <= length
      modifies order
      ensures Valid() && start <= choice < end
      ensures Order() == Swapped(old(Order()), start, choice)
    {
      var j :| start <= j < end;
      choice := j;
      SwapOrders(start, j);
    }

    method ShuffleOrderLast(start: nat, end: nat) returns (ghost choice: nat)
      requires Valid() && random && start < end <= length
      modifies order
      ensures Valid() && start <= choice < end
      ensures Order() == Swapped(old(Order()), end - 1, choice)
    {
      var j :| start <= j < end;
      choice := j;
      SwapOrders(end - 1, j);
    }

    /** Shuffle the songs themselves; `at` says where each one went. */
    method ShuffleRange(start: nat, end: nat) returns (ghost at: seq<nat>)
      requires Valid() && start <= end <= length
      modifies items, idTable.data
      ensures Valid()
      ensures Rearranged(old(Items()), Items(), at, start, end, version)
    {
      hide TableOk, SongsOk, Distinct, SwapMap, SwappedItems, Rearranged;
      ghost var its := Items();
      at := Positions(length);
      assert Rearranged(its, its, at, start, end, version) by { RearrangeNothing(its, start, end, version); }
      for i := start to end
        invariant Valid() && Rearranged(its, Items(), at, start, end, version)
      {
        var r :| start <= r < end;
        RearrangeSwap(its, Items(), at, start, end, version, i, r);
        SwapPositions(i, r);
        at := SwapMap(at, i, r);
      }
    }

    // -------------------------------------------------------------------------------------------
    // Priorities
    // -------------------------------------------------------------------------------------------

    method FindPriorityOrder(start: nat, priority: Priority, exclude: nat) returns (slot: nat)
      requires Valid() && random && start <= length
      ensures slot == PrioritySlot(Order(), Items(), start, priority, exclude)
    {
      hide TableOk, SongsOk, Distinct;
      for i := start to length
        invariant PrioritySlot(Order(), Items(), start, priority, exclude) == PrioritySlot(Order(), Items(), i, priority, exclude)
      {
        if items[order[i]].priority <= priority && i != exclude {
          return i;
        }
      }
      return length;
    }

    method CountSamePriority(start: nat, priority: Priority) returns (count: nat)
      requires Valid() && random && start <= length
      ensures count == GroupSize(Order(), Items(), start, priority)
    {
      hide TableOk, SongsOk, Distinct;
      for i := start to length
        invariant GroupSize(Order(), Items(), start, priority) == i - start + GroupSize(Order(), Items(), i, priority)
      {
        if items[order[i]].priority != priority {
          return i - start;
        }
      }
      return length - start;
    }

    /** Change a priority; in random mode the song moves to its new priority group behind `afterOrder`. */
    method SetPriority(position: nat, priority: Priority, afterOrder: int) returns (modified: bool)
      requires Valid() && position < length && -1 <= afterOrder < length
      modifies items, order
      ensures Valid()
      ensures modified == (old(Items())[position].priority != priority)
      ensures Items() == if modified then WithPriority(old(Items()), position, priority, version) else old(Items())
      ensures !modified || !random ==> Order() == old(Order())
      ensures modified && random ==>
                PriorityStep(old(Order()), old(Items()), position, priority, version, afterOrder, Order())
      ensures StampsCover(old(Items()), Items(), version)
    {
      hide TableOk, SongsOk, Distinct, NewSlot, PriorityStep, WithPriority;
      ghost var its := Items();
      ghost var before := Order();
      var oldPriority := items[position].priority;
      if oldPriority == priority {
        return false;
      }
      modified := true;
      items[position] := items[position].(version := version, priority := priority);
      WithPriorityOk(idTable.data[..], its, position, priority, version);
      assert Items() == WithPriority(its, position, priority, version);
      if !random {
        return;
      }
      var slot := PositionToOrder(position);
      if afterOrder >= 0 {
        if slot == afterOrder {
          PriorityStays(before, its, position, priority, version, afterOrder);
          return;
        }
        if slot < afterOrder {
          var afterItem := items[order[afterOrder]];
          if oldPriority > afterItem.priority || priority <= afterItem.priority {
            PriorityStays(before, its, position, priority, version, afterOrder);
            return;
          }
        }
      }
      Requeue(slot, priority, afterOrder);
      PriorityMoves(before, its, position, priority, version, afterOrder, Order());
    }

    /** Move the song to the beginning of its priority group, and shuffle it within that group. */
    method Requeue(slot: nat, priority: Priority, afterOrder: int)
      requires Valid() && random && slot < length && -1 <= afterOrder < length && slot != afterOrder
      requires PriorityAt(Items(), Order()[slot]) == priority
      modifies order
      ensures Valid()
      ensures Requeued(old(Order()), Items(), slot, priority, afterOrder, Order())
    {
      hide TableOk, SongsOk, Distinct, MoveOne, PrioritySlot, GroupSize, IsIdentity, Swapped, Requeued, PriorityAt;
      ghost var before := Order();
      var beforeOrder := FindPriorityOrder(afterOrder + 1, priority, slot);
      var newOrder := if beforeOrder > slot then beforeOrder - 1 else beforeOrder;
      MoveOrder(slot, newOrder);
      MoveOneAt(before, slot, newOrder, newOrder);
      var priorityCount := CountSamePriority(newOrder, priority);
      GroupHasItsFirst(Order(), Items(), newOrder, priority);
      ghost var choice := ShuffleOrderFirst(newOrder, newOrder + priorityCount);
      RequeuedBy(before, Items(), slot, priority, afterOrder, choice, Order());
    }

    /** Change the priority of a range, one song at a time, around the song at `afterOrder`. */
    method SetPriorityRange(start: nat, end: nat, priority: Priority, afterOrder: int) returns (modified: bool)
      requires Valid() && start <= end <= length && -1 <= afterOrder < length
      modifies items, order
      ensures Valid()
      ensures forall p :: start <= p < end ==> Items()[p].priority == priority
      ensures forall p :: 0 <= p < length ==> Items()[p].song == old(Items())[p].song && Items()[p].id == old(Items())[p].id
      ensures forall p :: 0 <= p < length && !(start <= p < end) ==> Items()[p] == old(Items())[p]
      ensures StampsCover(old(Items()), Items(), version)
      ensures modified == HasOtherPriority(old(Items()), start, end, priority)
      ensures !modified ==> Items() == old(Items())
      ensures !modified || !random ==> Order() == old(Order())
      ensures random && old(NonIncreasing(Order(), Items(), afterOrder + 1)) ==>
                NonIncreasing(Order(), Items(),
                              if afterOrder < 0 then 0 else SlotOf(Order(), old(Order())[afterOrder]) + 1)
    {
      hide TableOk, SongsOk, Distinct, NonIncreasing, PriorityStep, AfterStep, WithPriority, HasOtherPriority;
      ghost var its := Items();
      modified := false;
      NoOtherPriority(its, start, priority);
      var after := afterOrder;
      var afterPosition: int := if afterOrder >= 0 then order[afterOrder] else -1;
      if afterPosition >= 0 { SlotOfAt(Order(), afterOrder); }
      for i := start to end
        invariant Valid() && afterPosition < length
        invariant PrioritiesSet(its, Items(), start, i, priority, version)
        invariant modified == HasOtherPriority(its, start, i, priority)
        invariant (!modified ==> Items() == its) && (!modified || !random ==> Order() == old(Order()))
        invariant random && old(NonIncreasing(Order(), Items(), afterOrder + 1)) ==>
                    NonIncreasing(Order(), Items(), if afterPosition < 0 then 0 else SlotOf(Order(), afterPosition) + 1)
      {
        if afterPosition >= 0 {
          after := PositionToOrder(afterPosition);
        } else {
          after := -1;
        }
        ghost var now := Items();
        ghost var before := Order();
        var changed := SetPriority(i, priority, after);
        modified := modified || changed;
        OtherPriorityNext(its, now, start, i, priority, version);
        PrioritySetNext(its, now, Items(), start, i, priority, version, changed);
        if changed && random && NonIncreasing(before, now, after + 1) {
          PriorityStepKeepsOrder(before, now, i, priority, version, after, Order());
          if afterPosition >= 0 { SlotOfAt(Order(), AfterStep(before, now, i, priority, version, after)); }
        }
      }
    }
  }

  lemma WithPriorityOk(data: seq<int>, its: seq<Item>, position: nat, priority: Priority, version: nat)
    requires TableOk(data, its) && SongsOk(its) && position < |its|
    ensures var its' := WithPriority(its, position, priority, version);
            && TableOk(data, its') && SongsOk(its')
            && its' == its[position := its[position].(priority := priority, version := version)]
  {
  }

  lemma PriorityStays(order: seq<nat>, its: seq<Item>, position: nat, priority: Priority, version: nat, after: int)
    requires IsPermutation(order) && |order| == |its| && position < |its| && -1 <= after < |order|
    requires var slot := SlotOf(order, position);
             slot == after || (slot < after && (its[position].priority > PriorityAt(WithPriority(its, position, priority, version), order[after])
                                                || priority <= PriorityAt(WithPriority(its, position, priority, version), order[after])))
    ensures PriorityStep(order, its, position, priority, version, after, order)
  {
  }

  lemma PriorityMoves(order: seq<nat>, its: seq<Item>, position: nat, priority: Priority, version: nat, after: int,
                      order': seq<nat>)
    requires IsPermutation(order) && |order| == |its| && position < |its| && -1 <= after < |order|
    requires var slot := SlotOf(order, position);
             var its' := WithPriority(its, position, priority, version);
             && slot != after
             && (slot < after ==> !(its[position].priority > PriorityAt(its', order[after]) || priority <= PriorityAt(its', order[after])))
             && Requeued(order, its', slot, priority, after, order')
    ensures PriorityStep(order, its, position, priority, version, after, order')
  {
  }

  /** Does a song at [start, end) have another priority? */
  ghost predicate HasOtherPriority(its: seq<Item>, start: nat, end: nat, priority: Priority) {
    exists p :: start <= p < end && p < |its| && its[p].priority != priority
  }

  lemma NoOtherPriority(its: seq<Item>, start: nat, priority: Priority)
    ensures !HasOtherPriority(its, start, start, priority)
  {
  }

  lemma OtherPriorityNext(its: seq<Item>, now: seq<Item>, start: nat, i: nat, priority: Priority, version: nat)
    requires PrioritiesSet(its, now, start, i, priority, version) && start <= i < |its|
    ensures HasOtherPriority(its, start, i + 1, priority) ==
            (HasOtherPriority(its, start, i, priority) || now[i].priority != priority)
  {
    assert now[i] == its[i];
  }

  /** The songs at [start, i) have been given this priority, and nothing else has happened to the items. */
  ghost predicate PrioritiesSet(its: seq<Item>, its': seq<Item>, start: nat, i: nat, priority: Priority, version: nat) {
    && |its'| == |its|
    && (forall p :: 0 <= p < |its| ==> its'[p].song == its[p].song && its'[p].id == its[p].id)
    && (forall p :: 0 <= p < |its| && start <= p < i ==> its'[p].priority == priority)
    && (forall p :: 0 <= p < |its| && !(start <= p < i) ==> its'[p] == its[p])
    && StampsCover(its, its', version)
  }

  lemma PrioritySetNext(its: seq<Item>, now: seq<Item>, next: seq<Item>, start: nat, i: nat, priority: Priority,
                        version: nat, changed: bool)
    requires PrioritiesSet(its, now, start, i, priority, version) && start <= i < |its|
    requires changed == (now[i].priority != priority)
    requires next == if changed then WithPriority(now, i, priority, version) else now
    ensures PrioritiesSet(its, next, start, i + 1, priority, version)
  {
  }

  lemma RearrangeNothing(its: seq<Item>, start: nat, end: nat, version: nat)
    ensures Rearranged(its, its, Positions(|its|), start, end, version)
  {
  }

  lemma ShuffleNothing(s: seq<nat>, start: nat, end: nat)
    requires start <= end <= |s|
    ensures RangeShuffled(s, s, start, end)
  {
  }

  lemma NothingToSort(s: seq<nat>, its: seq<Item>, start: nat)
    requires start <= |s|
    ensures NonIncreasing(s[start..start], its, 0)
  {
  }

  lemma PermutationIsBelow(s: seq<nat>)
    requires IsPermutation(s)
    ensures forall i :: 0 <= i < |s| ==> s[i] < |s|
  {
  }

  lemma GroupHasItsFirst(order: seq<nat>, its: seq<Item>, start: nat, priority: Priority)
    requires start < |order| && PriorityAt(its, order[start]) == priority
    ensures GroupSize(order, its, start, priority) >= 1
  {
  }

  lemma RequeuedBy(order: seq<nat>, its: seq<Item>, slot: nat, priority: Priority, after: int, r: nat, order': seq<nat>)
    requires -1 <= after < |order| && slot < |order| && slot != after
    requires var to := NewSlot(order, its, slot, priority, after);
             var moved := MoveOne(order, slot, to);
             to <= r < to + GroupSize(moved, its, to, priority) && order' == Swapped(moved, to, r)
    ensures Requeued(order, its, slot, priority, after, order')
  {
  }

  /** Slot by slot, both orders have the same priorities. */
  ghost predicate SamePriorities(s: seq<nat>, t: seq<nat>, its: seq<Item>) {
    |s| == |t| && forall i :: 0 <= i < |s| ==> PriorityAt(its, t[i]) == PriorityAt(its, s[i])
  }

  lemma SamePrioritiesAtFirst(s: seq<nat>, its: seq<Item>)
    ensures SamePriorities(s, s, its)
  {
  }

  lemma SortedByPriorities(s: seq<nat>, t: seq<nat>, its: seq<Item>, start: nat, end: nat)
    requires SamePriorities(s, t, its) && start <= end <= |s| && NonIncreasing(s[start..end], its, 0)
    ensures NonIncreasing(t[start..end], its, 0)
  {
    forall i, j | 0 <= i < j < end - start
      ensures PriorityAt(its, t[start..end][i]) >= PriorityAt(its, t[start..end][j])
    {
      assert PriorityAt(its, s[start..end][i]) >= PriorityAt(its, s[start..end][j]);
    }
  }

  /** Where the items stand after the first loop of MoveRange(). */
  function DownMap(n: nat, start: nat, end: nat, to: nat): (r: seq<nat>)
    requires start <= end
    ensures |r| == n
  {
    seq(n, p requires 0 <= p < n => if end <= p < to + (end - start) then p - (end - start) else p)
  }

  lemma DownMapStart(n: nat, start: nat, end: nat)
    requires start <= end
    ensures DownMap(n, start, end, start) == Positions(n)
  {
  }

  lemma DownMapStep(n: nat, start: nat, end: nat, i: nat)
    requires start <= end <= i < n
    ensures DownMap(n, start, end, start + i - end)[i := start + i - end] == DownMap(n, start, end, start + i - end + 1)
  {
  }

  /** The first loop does nothing when the block moves down. */
  lemma DownMapEnd(n: nat, start: nat, end: nat, to: nat)
    requires start <= end && to <= start
    ensures DownMap(n, start, end, to) == DownMap(n, start, end, start)
  {
  }

  lemma UpMapAt(n: nat, from: nat, to: nat)
    requires from < n && to < n
    ensures UpMap(n, from, from + 1, to)[from := to] == MoveMap(n, from, from + 1, to)
  {
  }

  /** And after the second. */
  function UpMap(n: nat, start: nat, end: nat, to: nat): (r: seq<nat>)
    requires start <= end
    ensures |r| == n
  {
    seq(n, p requires 0 <= p < n =>
      if to <= p < start then p + (end - start)
      else if end <= p < to + (end - start) then p - (end - start) else p)
  }
}
