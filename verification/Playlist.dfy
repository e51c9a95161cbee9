/**
 The playlist: the queue plus the cursors `current` and `queued`, which every edit has to keep.
 */
module Playlists {
  import opened Permutations
  import opened Sequences
  import opened QueueItems
  import opened PlayOrder
  import opened Queues

  datatype PlayerState = Stopped | Paused | Playing
  datatype PlayerError = NoError | DecoderError | OutputError

  /**
   The player thread as the playlist sees it.  `nextSong` is the song the player has not started
   yet; the player may start it at any time.  Songs are handed over as duplicates; the model keeps
   the queue's own song object in their place.
   */
  class PlayerControl {
    var state: PlayerState
    var error: PlayerError
    var nextSong: Song?

    /** The song last handed over by EnqueueSong() and not cancelled since. */
    ghost var handed: Song?
    /** The song the player was last told to play or to seek in; null if it was told to stop since. */
    ghost var commanded: Song?

    constructor ()
      ensures nextSong == null && handed == null && commanded == null
    {
      state, error, nextSong, handed, commanded := Stopped, NoError, null, null, null;
    }

    /** What the player thread may do between two commands. */
    method Run()
      modifies this
      ensures handed == old(handed) && commanded == old(commanded)
      ensures nextSong == old(nextSong) || nextSong == null
    {
      state := *;
      error := *;
      if * {
        nextSong := null;
      }
    }

    method Play(song: Song)
      modifies this
      ensures nextSong == null && handed == null && commanded == song
    {
      Run();
      nextSong, handed, commanded := null, null, song;
    }

    method Stop()
      modifies this
      ensures nextSong == null && handed == null && commanded == null
    {
      Run();
      nextSong, handed, commanded := null, null, null;
    }

    method Cancel()
      modifies this
      ensures nextSong == null && handed == null && commanded == old(commanded)
    {
      Run();
      nextSong, handed := null, null;
    }

    /** Always succeeds. */
    method Seek(song: Song)
      modifies this
      ensures nextSong == null && handed == null && commanded == song
    {
      Run();
      nextSong, handed, commanded := null, null, song;
    }

    method EnqueueSong(song: Song)
      requires nextSong == null
      modifies this
      ensures handed == song && commanded == old(commanded)
    {
      nextSong := song;
      Run();
      handed := song;
    }

    method ClearError()
      modifies this
      ensures handed == old(handed) && commanded == old(commanded)
      ensures nextSong == old(nextSong) || nextSong == null
    {
      Run();
      error := NoError;
    }
  }

  datatype PlaylistResult = Success | TooLarge | BadRange | NoSuchSong | NotPlaying

  class Playlist {
    const queue: Queue
    var playing: bool
    var stopOnError: bool
    var bulkEdit: bool
    var bulkModified: bool
    var errorCount: nat
    var current: int
    var queued: int

    ghost function Repr(): set<object> {
      {this, queue, queue.items, queue.order, queue.idTable, queue.idTable.data}
    }

    /** The song played at an order slot. */
    ghost function SongAt(slot: int): Song?
      requires queue.Valid()
      reads this, queue, queue.items, queue.order, queue.idTable, queue.idTable.data
    {
      if 0 <= slot < queue.length then queue.Items()[queue.Order()[slot]].song else null
    }

    lemma SongAtExists(slot: nat)
      requires queue.Valid() && slot < queue.length
      ensures SongAt(slot) != null
    {
    }

    /** The cursors point into the queue. */
    ghost predicate InRange()
      reads Repr()
    {
      && queue.Valid()
      && -1 <= current < queue.length && -1 <= queued
      && (playing ==> current >= 0)
    }

    /**
     What holds within an operation that remembers `prev`, the song queued before it: if there is
     none the player has no song waiting, else it is the one handed to the player.
     */
    ghost predicate Pending(pc: PlayerControl, prev: Song?)
      reads Repr(), pc
    {
      && InRange()
      && (playing ==> (queued < 0 <==> prev == null))
      && (playing && prev != null ==> pc.handed == prev)
      && (playing && prev == null ==> pc.nextSong == null)
    }

    /** What holds between two operations. */
    ghost predicate Valid(pc: PlayerControl)
      reads Repr(), pc
    {
      && InRange()
      && (playing && queued >= 0 ==> queued < queue.length && pc.handed == SongAt(queued) != null)
      && (playing && queued < 0 ==> pc.nextSong == null)
    }

    /** The song after the current one is queued; after a reshuffle it is the first one. */
    ghost predicate NextQueued()
      reads this`playing, this`bulkEdit, this`current, this`queued, queue
      requires 0 <= current < queue.length || !playing
    {
      playing && !bulkEdit ==> queued == queue.GetNextOrder(current) || (queue.random && queued == 0)
    }

    /** The modification since this version has been announced, or will be when the bulk edit ends. */
    ghost predicate Announced(version: nat)
      reads this`bulkEdit, this`bulkModified, queue`version
    {
      if bulkEdit then bulkModified else queue.version == if version + 1 == MAX_VERSION then 1 else version + 1
    }

    constructor (maxLength: nat, pc: PlayerControl)
      ensures Valid(pc) && fresh(Repr()) && !playing && !bulkEdit && queue.length == 0 && queue.maxLength == maxLength
      ensures !queue.repeat && !queue.single && !queue.consume && !queue.random
    {
      queue := new Queue(maxLength);
      playing, stopOnError, bulkEdit, bulkModified, errorCount := false, false, false, false, 0;
      current, queued := -1, -1;
    }

    /** Called by all editing methods after a modification. */
    method OnModified(pc: PlayerControl)
      requires Valid(pc)
      modifies this`bulkModified, queue`version, queue.items
      ensures Valid(pc)
      ensures forall slot :: SongAt(slot) == old(SongAt(slot))
      ensures SameItems(queue.Items(), old(queue.Items()))
      ensures Announced(old(queue.version))
    {
      if bulkEdit {
        bulkModified := true;
      } else {
        queue.IncrementVersion();
      }
    }

    /** The song queued, if any. */
    method GetQueuedSong(pc: PlayerControl) returns (prev: Song?)
      requires Valid(pc)
      ensures prev == if playing && queued >= 0 then SongAt(queued) else null
      ensures Pending(pc, prev)
    {
      if playing && queued >= 0 {
        prev := queue.items[queue.order[queued]].song;
      } else {
        prev := null;
      }
    }

    method QueueSongOrder(pc: PlayerControl, slot: nat)
      requires InRange() && slot < queue.length && pc.nextSong == null
      modifies this`queued, pc
      ensures queued == slot && pc.handed == SongAt(slot) != null && pc.commanded == old(pc.commanded)
    {
      queued := slot;
      pc.EnqueueSong(queue.items[queue.order[slot]].song);
    }

    /** Shuffle the play order, and find the song at `slot` again. */
    method Reshuffle(slot: nat) returns (slot': nat)
      requires queue.Valid() && queue.random && slot < queue.length
      modifies queue.order
      ensures queue.Valid() && slot' < queue.length
      ensures SongAt(slot') == old(SongAt(slot))
      ensures multiset(queue.Order()) == multiset(old(queue.Order()))
      ensures NonIncreasing(queue.Order(), queue.Items(), 0)
    {
      var position := queue.order[slot];
      queue.ShuffleOrder();
      slot' := queue.PositionToOrder(position);
    }

    /** Choose the song after the current one and hand it to the player, unless it is queued already. */
    method UpdateQueuedSong(pc: PlayerControl, prev: Song?)
      requires Pending(pc, prev)
      modifies this`current, this`queued, queue.order, pc
      ensures Valid(pc)
      ensures playing ==> SongAt(current) == old(SongAt(current))
      ensures !playing || !queue.random || queue.single || old(queue.GetNextOrder(current)) != 0 ==>
                current == old(current) && queue.Order() == old(queue.Order())
      ensures playing && (prev != null || !bulkEdit) ==> queued == old(queue.GetNextOrder(current))
      ensures NextQueued() && pc.commanded == old(pc.commanded)
    {
      hide TableOk, SongsOk, Distinct, IsIdentity, NonIncreasing;
      if !playing {
        return;
      }
      if prev == null && bulkEdit {
        return;
      }
      // these are the assertions of the source
      assert queue.length > 0;
      assert (queued < 0) == (prev == null);

      var nextOrder := if current >= 0 then queue.GetNextOrder(current) else 0;
      if nextOrder == 0 && queue.random && !queue.single {
        current := Reshuffle(current);
      }
      HandOver(pc, prev, nextOrder);
    }

    /** UpdateQueuedSong(), behind the choice: hand the next song over, unless the player has it already. */
    method HandOver(pc: PlayerControl, prev: Song?, nextOrder: int)
      requires Pending(pc, prev) && playing && -1 <= nextOrder < queue.length
      modifies this`queued, pc
      ensures Valid(pc) && queued == nextOrder && pc.commanded == old(pc.commanded)
    {
      hide TableOk, Distinct, IsIdentity;
      var nextSong: Song? := null;
      if nextOrder >= 0 {
        nextSong := queue.items[queue.order[nextOrder]].song;
        SongAtExists(nextOrder);
      }
      hide SongsOk;
      if prev != null && nextSong != prev {
        pc.Cancel();
        queued := -1;
      }
      if nextOrder >= 0 {
        if nextSong != prev {
          QueueSongOrder(pc, nextOrder);
        } else {
          queued := nextOrder;
        }
      }
    }

    /** How edits end: UpdateQueuedSong(), then OnModified(). */
    method FinishEdit(pc: PlayerControl, prev: Song?)
      requires Pending(pc, prev)
      modifies this`current, this`queued, this`bulkModified, queue`version, queue.items, queue.order, pc
      ensures Valid(pc) && Announced(old(queue.version)) && NextQueued()
      ensures SongAt(current) == old(SongAt(current))
      ensures !playing ==> current == old(current)
      ensures !playing || !queue.random ==> current == old(current) && queue.Order() == old(queue.Order())
      ensures SameItems(queue.Items(), old(queue.Items()))
      ensures pc.commanded == old(pc.commanded)
    {
      hide TableOk, SongsOk, Distinct, IsIdentity, NonIncreasing, SameItems;
      UpdateQueuedSong(pc, prev);
      OnModified(pc);
    }

    method PlayOrder(pc: PlayerControl, slot: nat)
      requires InRange() && slot < queue.length
      modifies this`playing, this`queued, this`current, pc
      ensures Valid(pc) && Pending(pc, null)
      ensures playing && current == slot && queued == -1 && pc.commanded == SongAt(slot)
    {
      playing := true;
      queued := -1;
      pc.Play(queue.items[queue.order[slot]].song);
      current := slot;
    }

    // -------------------------------------------------------------------------------------------
    // Editing
    // -------------------------------------------------------------------------------------------

    /**
     Append a song.  In random mode it is swapped with slot `choice`, chosen among the slots behind
     the queued song, or else behind the current one.
     */
    method AppendSong(pc: PlayerControl, song: Song) returns (result: PlaylistResult, addedId: nat, ghost choice: nat)
      requires Valid(pc)
      modifies this`current, this`queued, this`bulkModified
      modifies queue`length, queue`version, queue.items, queue.order, queue.idTable, queue.idTable.data, pc
      ensures Valid(pc) && playing == old(playing)
      ensures result == if old(queue.length) == queue.maxLength then TooLarge else Success
      ensures result.TooLarge? ==> current == old(current) && queue.Items() == old(queue.Items()) && queue.Order() == old(queue.Order())
      ensures result.Success? ==>
                && queue.length == old(queue.length) + 1
                && SameItems(queue.Items()[..old(queue.length)], old(queue.Items()))
                && queue.Items()[old(queue.length)].song != null
                && queue.Items()[old(queue.length)].song.uri == song.uri
                && queue.Items()[old(queue.length)].id == addedId
      ensures result.Success? && playing ==>
                && AppendChoice(queue.random, old(current), old(queued), old(queue.length), choice)
                && SongAt(current) ==
                   if choice == old(current) then queue.Items()[old(queue.length)].song else old(SongAt(current))
      ensures result.Success? ==> Announced(old(queue.version)) && NextQueued()
    {
      hide NextQueued, Announced, TableOk, SongsOk, Distinct, IsIdentity, NonIncreasing;
      addedId, choice := 0, queue.length;
      if queue.length >= queue.maxLength {
        return TooLarge, 0, choice;
      }
      result := Success;
      var prev := GetQueuedSong(pc);
      addedId, choice := AppendAndMix(song);
      ghost var items := queue.Items();
      FinishEdit(pc, prev);
      hide SameItems;
      SameItemsPrefix(queue.Items(), items, old(queue.length), old(queue.Items()));
    }

    /** Append a song to the queue, and in random mode swap it into the slots not yet decided on. */
    method AppendAndMix(song: Song) returns (addedId: nat, ghost choice: nat)
      requires InRange() && queue.length < queue.maxLength
      modifies queue`length, queue.items, queue.order, queue.idTable, queue.idTable.data
      ensures InRange() && queue.length == old(queue.length) + 1
      ensures queue.Items()[..old(queue.length)] == old(queue.Items())
      ensures var added := queue.Items()[old(queue.length)]; added.song != null && added.song.uri == song.uri && added.id == addedId
      ensures AppendChoice(queue.random, current, queued, old(queue.length), choice)
      ensures current >= 0 ==>
                SongAt(current) == if choice == current then queue.Items()[old(queue.length)].song else old(SongAt(current))
    {
      hide TableOk, SongsOk, Distinct, IsIdentity, IsPermutation, StampsCover;
      ghost var order := queue.Order();
      PermutationIsBelow(order);
      choice := queue.length;
      addedId := queue.Append(song, 0);
      if queue.random {
        var start := if queued >= 0 then queued + 1 else current + 1;
        if start < queue.length {
          choice := queue.ShuffleOrderLast(start, queue.length);
        }
      }
    }

    method SwapPositions(pc: PlayerControl, song1: nat, song2: nat) returns (result: PlaylistResult)
      requires Valid(pc)
      modifies this`current, this`queued, this`bulkModified
      modifies queue`version, queue.items, queue.order, queue.idTable.data, pc
      ensures Valid(pc) && playing == old(playing)
      ensures queue.length == old(queue.length)
      ensures result == if song1 < queue.length && song2 < queue.length then Success else BadRange
      ensures SongAt(current) == old(SongAt(current))
      ensures SameItems(queue.Items(), if result.Success? then SwappedItems(old(queue.Items()), song1, song2, 0) else old(queue.Items()))
      ensures result.Success? ==> Announced(old(queue.version)) && NextQueued()
    {
      hide NextQueued, Announced, TableOk, SongsOk, Distinct, IsIdentity, NonIncreasing;
      if song1 >= queue.length || song2 >= queue.length {
        return BadRange;
      }
      result := Success;
      var prev := GetQueuedSong(pc);
      SwapAndAdjust(song1, song2);
      FinishEdit(pc, prev);
    }

    method SwapAndAdjust(song1: nat, song2: nat)
      requires InRange() && song1 < queue.length && song2 < queue.length
      modifies this`current, queue.items, queue.order, queue.idTable.data
      ensures InRange() && SongAt(current) == old(SongAt(current))
      ensures queue.Items() == SwappedItems(old(queue.Items()), song1, song2, queue.version)
    {
      hide TableOk, SongsOk, Distinct, IsIdentity, NonIncreasing;
      ghost var its := queue.Items();
      ghost var order := queue.Order();
      queue.SwapPositions(song1, song2);
      if queue.random {
        var slot1 := queue.PositionToOrder(song1);
        var slot2 := queue.PositionToOrder(song2);
        queue.SwapOrders(slot1, slot2);
        if current >= 0 { SwapKeepsSlot(its, order, song1, song2, queue.version, current); }
      } else {
        if current >= 0 { SwapMovesSong(its, order, song1, song2, queue.version, current); }
        if current == song1 {
          current := song2;
        } else if current == song2 {
          current := song1;
        }
      }
    }

    method SetPriorityRange(pc: PlayerControl, start: nat, end: nat, priority: Priority) returns (result: PlaylistResult)
      requires Valid(pc)
      modifies this`current, this`queued, this`bulkModified
      modifies queue`version, queue.items, queue.order, queue.idTable.data, pc
      ensures Valid(pc) && playing == old(playing) && queue.length == old(queue.length)
      ensures result == if start < queue.length then Success else BadRange
      ensures SongAt(current) == old(SongAt(current))
      ensures forall p :: start <= p < end && p < queue.length ==> queue.Items()[p].priority == priority
      ensures forall p :: 0 <= p < queue.length ==>
                queue.Items()[p].song == old(queue.Items())[p].song && queue.Items()[p].id == old(queue.Items())[p].id
      ensures forall p :: 0 <= p < queue.length && !(start <= p < end) ==> SameItem(queue.Items()[p], old(queue.Items())[p])
      ensures result.Success? && start < end ==> Announced(old(queue.version)) && NextQueued()
    {
      hide NextQueued, Announced, TableOk, SongsOk, Distinct, IsIdentity, NonIncreasing;
      if start >= queue.length {
        return BadRange;
      }
      result := Success;
      var last := if end > queue.length then queue.length else end;
      if start >= last {
        return;
      }
      var prev := GetQueuedSong(pc);
      SetPriorities(start, last, priority);
      ghost var now := queue.Items();
      FinishEdit(pc, prev);
      assert forall p :: 0 <= p < queue.length ==> SameItem(queue.Items()[p], now[p]);
    }

    /** Set the priorities, and find the current song again. */
    method SetPriorities(start: nat, last: nat, priority: Priority)
      requires InRange() && start <= last <= queue.length
      modifies this`current, queue.items, queue.order
      ensures InRange() && SongAt(current) == old(SongAt(current)) && (current >= 0 <==> old(current) >= 0)
      ensures forall p :: start <= p < last ==> queue.Items()[p].priority == priority
      ensures forall p :: 0 <= p < queue.length ==>
                queue.Items()[p].song == old(queue.Items())[p].song && queue.Items()[p].id == old(queue.Items())[p].id
      ensures forall p :: 0 <= p < queue.length && !(start <= p < last) ==> queue.Items()[p] == old(queue.Items())[p]
    {
      hide TableOk, SongsOk, Distinct, IsIdentity, NonIncreasing, HasOtherPriority;
      var currentPosition: int := if current >= 0 then queue.order[current] else -1;
      var _ := queue.SetPriorityRange(start, last, priority, current);
      if currentPosition >= 0 {
        current := queue.PositionToOrder(currentPosition);
      }
    }

    /** Delete one song, and move on to the next if it is being played. */
    method DeleteInternal(pc: PlayerControl, song: nat, prev: Song?) returns (prev': Song?)
      requires Pending(pc, prev) && song < queue.length
      modifies this`playing, this`queued, this`current, pc
      modifies queue`length, queue.items, queue.order, queue.idTable, queue.idTable.data
      ensures Pending(pc, prev') && queue.length == old(queue.length) - 1
      ensures queue.Items() == DeletedItems(old(queue.Items()), song, queue.version)
      ensures old(current) != old(SlotOf(queue.Order(), song)) ==>
                && playing == old(playing) && prev' == prev
                && SongAt(current) == old(SongAt(current))
                && (current >= 0 <==> old(current) >= 0)
                && (current >= 0 ==>
                      queue.Order()[current] == old(queue.Order()[current]) - if old(queue.Order()[current]) > song then 1 else 0)
      ensures old(playing && current == SlotOf(queue.Order(), song)) ==>
                old(MovedOn(pc)) == (if playing then SongAt(current) else null) == pc.commanded
      ensures !old(playing && current == SlotOf(queue.Order(), song)) ==>
                playing == old(playing) && pc.commanded == old(pc.commanded)
    {
      hide TableOk, SongsOk, Distinct, IsPermutation, IsIdentity, NonIncreasing, DeletedItems;
      prev' := prev;
      var songOrder := queue.PositionToOrder(song);
      if playing && current == songOrder {
        LeaveCurrent(pc, songOrder);
        prev' := null;
      } else if current == songOrder {
        current := -1;
      }
      RemoveSong(song, songOrder);
    }

    /** The song played once the current one is gone, if any: a paused player does not go on. */
    ghost function MovedOn(pc: PlayerControl): Song?
      requires InRange() && playing
      reads Repr(), pc
    {
      var next := queue.GetNextOrder(current);
      if pc.state == Paused || next == current then null else SongAt(next)
    }

    /** The song being played is about to be deleted: play the one after it, or stop. */
    method LeaveCurrent(pc: PlayerControl, songOrder: nat)
      requires InRange() && playing && current == songOrder
      modifies this`playing, this`queued, this`current, pc
      ensures Pending(pc, null) && current != songOrder
      ensures playing <==> old(pc.state) != Paused && var next := old(queue.GetNextOrder(current)); next != -1 && next != songOrder
      ensures playing ==> current == old(queue.GetNextOrder(current))
      ensures pc.commanded == if playing then SongAt(current) else null
    {
      hide TableOk, SongsOk, Distinct, IsIdentity, NonIncreasing;
      var paused := pc.state == Paused;
      current := queue.GetNextOrder(current);
      if current == songOrder {
        current := -1;
      }
      if current >= 0 && !paused {
        PlayOrder(pc, current);
      } else {
        pc.Stop();
        playing := false;
      }
    }

    method RemoveSong(song: nat, songOrder: nat)
      requires InRange() && song < queue.length && songOrder == SlotOf(queue.Order(), song) && current != songOrder
      modifies this`current, queue`length, queue.items, queue.order, queue.idTable, queue.idTable.data
      ensures InRange() && queue.length == old(queue.length) - 1
      ensures queue.Items() == DeletedItems(old(queue.Items()), song, queue.version)
      ensures SongAt(current) == old(SongAt(current)) && (current >= 0 <==> old(current) >= 0)
      ensures current >= 0 ==>
                queue.Order()[current] == old(queue.Order()[current]) - if old(queue.Order()[current]) > song then 1 else 0
    {
      hide DeletedItems, DeletedOrder, TableOk, SongsOk, Distinct, IsIdentity, NonIncreasing;
      ghost var its := queue.Items();
      ghost var order := queue.Order();
      queue.DeletePosition(song);
      if current >= 0 {
        DeleteKeepsSlots(its, order, songOrder, queue.version, current);
        DeletedOrderAt(order, songOrder, current);
      }
      if current > songOrder {
        current := current - 1;
      }
    }

    method DeletePosition(pc: PlayerControl, song: nat) returns (result: PlaylistResult)
      requires Valid(pc)
      modifies Repr(), pc
      ensures Valid(pc) && bulkEdit == old(bulkEdit)
      ensures result == if song < old(queue.length) then Success else BadRange
      ensures queue.length == old(queue.length) - if result.Success? then 1 else 0
      ensures SameItems(queue.Items(), if result.Success? then DeletedItems(old(queue.Items()), song, 0) else old(queue.Items()))
      ensures result.Success? && old(playing && current != SlotOf(queue.Order(), song)) ==>
                playing && SongAt(current) == old(SongAt(current))
      ensures result.Success? && old(playing && current == SlotOf(queue.Order(), song)) ==>
                old(MovedOn(pc)) == (if playing then SongAt(current) else null) == pc.commanded
      ensures !old(playing && song < queue.length && current == SlotOf(queue.Order(), song)) ==> pc.commanded == old(pc.commanded)
      ensures result.Success? ==> Announced(old(queue.version)) && NextQueued()
      ensures queue.consume == old(queue.consume) && queue.random == old(queue.random)
    {
      hide NextQueued, Announced, TableOk, SongsOk, Distinct, IsIdentity, NonIncreasing;
      hide SameItems, DeletedItems;
      SameItemsReflexive(queue.Items());
      if song >= queue.length {
        return BadRange;
      }
      result := Success;
      ghost var its := queue.Items();
      var prev := GetQueuedSong(pc);
      prev := DeleteInternal(pc, song, prev);
      DeletedSame(its, song, queue.version);
      ghost var deleted := queue.Items();
      FinishEdit(pc, prev);
      SameItemsJoin(queue.Items(), deleted, DeletedItems(its, song, 0));
    }

    method DeleteRange(pc: PlayerControl, start: nat, end: nat) returns (result: PlaylistResult)
      requires Valid(pc)
      modifies Repr(), pc
      ensures Valid(pc)
      ensures result == if start < old(queue.length) then Success else BadRange
      ensures SameItems(queue.Items(), CutOut(old(queue.Items()), start, end))
      ensures result.Success? && old(playing && !(start <= queue.Order()[current] < end)) ==>
                playing && SongAt(current) == old(SongAt(current))
      ensures result.Success? && old(playing && start <= queue.Order()[current] < end) ==>
                pc.commanded == if playing then SongAt(current) else null
      ensures result.Success? && start < end ==> Announced(old(queue.version)) && NextQueued()
    {
      hide NextQueued, Announced, TableOk, SongsOk, Distinct, IsIdentity, NonIncreasing, SameItems, DeletedItems;
      CutOutNothing(queue.Items(), start, end);
      if start >= queue.length {
        return BadRange;
      }
      result := Success;
      var last := if end > queue.length then queue.length else end;
      if start >= last {
        return;
      }
      ghost var its := queue.Items();
      var prev := GetQueuedSong(pc);
      prev := DeleteDown(pc, start, last, prev);
      ghost var deleted := queue.Items();
      FinishEdit(pc, prev);
      SameItemsJoin(queue.Items(), deleted, CutOut(its, start, last));
    }

    /** DeleteRange(), the loop: one song at a time, the last one first. */
    method DeleteDown(pc: PlayerControl, start: nat, last: nat, prev: Song?) returns (prev': Song?)
      requires Pending(pc, prev) && start < last <= queue.length
      modifies this`playing, this`queued, this`current, pc
      modifies queue`length, queue.items, queue.order, queue.idTable, queue.idTable.data
      ensures Pending(pc, prev') && SameItems(queue.Items(), CutOut(old(queue.Items()), start, last))
      ensures old(playing && !(start <= queue.Order()[current] < last)) ==> playing && SongAt(current) == old(SongAt(current))
      ensures old(playing && start <= queue.Order()[current] < last) ==>
                pc.commanded == if playing then SongAt(current) else null
    {
      hide TableOk, SongsOk, Distinct, IsIdentity, NonIncreasing, SameItems, DeletedItems, CutOut;
      CutOutNothing(queue.Items(), last, last);
      prev' := prev;
      var i := last;
      ghost var its := queue.Items();
      ghost var outside := playing && !(start <= queue.Order()[current] < last);
      ghost var inside := playing && start <= queue.Order()[current] < last;
      ghost var song := SongAt(current);
      while i != start
        invariant start <= i <= queue.length
        invariant Pending(pc, prev')
        invariant i <= last <= |its| && SameItems(queue.Items(), CutOut(its, i, last))
        invariant outside ==> playing && SongAt(current) == song && !(start <= queue.Order()[current] < i)
        invariant inside ==>
                    || (playing && start <= queue.Order()[current] < i)
                    || pc.commanded == (if playing then SongAt(current) else null)
        decreases i
      {
        i := i - 1;
        ghost var now := queue.Items();
        if current >= 0 { SlotOfAt(queue.Order(), current); }
        prev' := DeleteInternal(pc, i, prev');
        CutOutOneMore(its, now, i, last, queue.version);
      }
    }

    /** The position of the current song, or -1. */
    ghost function CurrentPosition(): int
      requires InRange()
      reads Repr()
    {
      if current >= 0 then queue.Order()[current] else -1
    }

    /** Move the block [start, end) to `to`; a negative `to` counts from the current song. */
    method MoveRange(pc: PlayerControl, start: nat, end: nat, to: int) returns (result: PlaylistResult)
      requires Valid(pc)
      requires start < end && MoveFits(queue.length, CurrentPosition(), start, end, to)
      modifies this`current, this`queued, this`bulkModified
      modifies queue`version, queue.items, queue.order, queue.idTable.data, pc
      ensures Valid(pc) && playing == old(playing) && queue.length == old(queue.length)
      ensures result == MoveResult(queue.length, old(CurrentPosition()), start, end, to)
      ensures !result.Success? ==> SameItems(queue.Items(), old(queue.Items()))
      ensures result.Success? ==>
                var target := old(MoveTarget(queue.length, CurrentPosition(), start, end, to));
                && target <= queue.length - (end - start)
                && SameItems(queue.Items(), if target < 0 then old(queue.Items())
                                            else MovedItems(old(queue.Items()), start, end, target, 0))
      ensures queue.random || !result.Success? || old(current) < 0 ==> SongAt(current) == old(SongAt(current))
      ensures !queue.random && result.Success? && old(current) >= 0 ==>
                (SongAt(current) == old(SongAt(current)) <==>
                  !MoveMisses(old(current), start, end, old(MoveTarget(queue.length, CurrentPosition(), start, end, to))))
      ensures result.Success? && start != to && old(MoveTarget(queue.length, CurrentPosition(), start, end, to)) >= 0 ==>
                Announced(old(queue.version)) && NextQueued()
      ensures pc.commanded == old(pc.commanded)
    {
      hide NextQueued, Announced, TableOk, SongsOk, IsPermutation, IsIdentity, NonIncreasing, MovedItems, SameItems;
      SameItemsReflexive(queue.Items());
      PermutationIsBelow(queue.Order());
      if start >= queue.length || end - 1 >= queue.length {
        return BadRange;
      }
      if (to >= 0 && to + end - start - 1 >= queue.length) || (to < 0 && -to > queue.length) {
        return BadRange;
      }
      if start == to {
        MoveNowhere(queue.Items(), start, end);
        return Success;
      }
      var currentSong: int := if current >= 0 then queue.order[current] else -1;
      var target := to;
      assert currentSong == CurrentPosition();
      if to < 0 {
        if currentSong < 0 {
          return BadRange;
        }
        if start <= currentSong && currentSong < end {
          return Success;
        }
        target := (currentSong - to) % queue.length;
        if start < target {
          target := target - 1;
        }
      }
      MoveBlock(pc, start, end, target);
      result := Success;
    }

    method MoveBlock(pc: PlayerControl, start: nat, end: nat, to: nat)
      requires Valid(pc) && start < end <= queue.length && to + (end - start) <= queue.length
      modifies this`current, this`queued, this`bulkModified
      modifies queue`version, queue.items, queue.order, queue.idTable.data, pc
      ensures Valid(pc) && playing == old(playing) && queue.length == old(queue.length) && queue.random == old(queue.random)
      ensures SameItems(queue.Items(), MovedItems(old(queue.Items()), start, end, to, 0))
      ensures Announced(old(queue.version)) && NextQueued()
      ensures queue.random || old(current) < 0 ==> SongAt(current) == old(SongAt(current))
      ensures !queue.random && old(current) >= 0 ==>
                (SongAt(current) == old(SongAt(current)) <==> !MoveMisses(old(current), start, end, to))
      ensures pc.commanded == old(pc.commanded)
    {
      hide NextQueued, Announced, TableOk, SongsOk, Distinct, IsIdentity, NonIncreasing, MovedItems, SameItems;
      ghost var its := queue.Items();
      var prev := GetQueuedSong(pc);
      MoveAndAdjust(start, end, to);
      ghost var moved := queue.Items();
      FinishEdit(pc, prev);
      MovedSame(its, start, end, to, old(queue.version));
      SameItemsJoin(queue.Items(), moved, MovedItems(its, start, end, to, 0));
    }

    method MoveAndAdjust(start: nat, end: nat, to: nat)
      requires InRange() && start < end <= queue.length && to + (end - start) <= queue.length
      modifies this`current, queue.items, queue.order, queue.idTable.data
      ensures InRange()
      ensures queue.Items() == MovedItems(old(queue.Items()), start, end, to, queue.version)
      ensures queue.random || old(current) < 0 ==> SongAt(current) == old(SongAt(current))
      ensures !queue.random && old(current) >= 0 ==>
                (SongAt(current) == old(SongAt(current)) <==> !MoveMisses(old(current), start, end, to))
    {
      hide TableOk, SongsOk, Distinct, IsIdentity, NonIncreasing, MovedItems, MovedOrder;
      ghost var its := queue.Items();
      ghost var order := queue.Order();
      queue.MoveRange(start, end, to);
      if queue.random {
        if current >= 0 { MoveKeepsSlots(its, order, start, end, to, queue.version, current); }
      } else {
        if current >= 0 { MoveFollowsCurrent(its, order, start, end, to, queue.version, current); }
        if start <= current && current < end {
          current := current + to - start;
        } else if current >= end && current <= to {
          current := current - (end - start);
        } else if current >= to && current < start {
          current := current + (end - start);
        }
      }
    }

    method Shuffle(pc: PlayerControl, start: nat, end: nat) returns (ghost at: seq<nat>)
      requires Valid(pc)
      modifies this`current, this`queued, this`bulkModified
      modifies queue`version, queue.items, queue.order, queue.idTable.data, pc
      ensures Valid(pc) && playing == old(playing) && queue.length == old(queue.length)
      ensures |at| == queue.length && IsPermutation(at)
      ensures forall p :: 0 <= p < queue.length ==> SameItem(queue.Items()[at[p]], old(queue.Items())[p])
      ensures forall p :: 0 <= p < queue.length && !(start <= p < end) ==> at[p] == p
      ensures playing ==> SongAt(current) == old(SongAt(current))
      ensures start + 1 < end && start + 1 < queue.length ==> Announced(old(queue.version)) && NextQueued()
    {
      hide NextQueued, Announced, TableOk, SongsOk, Distinct, IsIdentity, NonIncreasing;
      at := Positions(queue.length);
      PositionsPermute(queue.length);
      var last := if end > queue.length then queue.length else end;
      if start + 1 >= last {
        return;
      }
      var prev := GetQueuedSong(pc);
      at := ShuffleAround(start, last);
      FinishEdit(pc, prev);
    }

    method ShuffleAround(start: nat, last: nat) returns (ghost at: seq<nat>)
      requires InRange() && start + 1 < last <= queue.length
      modifies this`current, queue.items, queue.idTable.data
      ensures InRange()
      ensures |at| == queue.length && IsPermutation(at)
      ensures forall p :: 0 <= p < queue.length ==> SameItem(queue.Items()[at[p]], old(queue.Items())[p])
      ensures forall p :: 0 <= p < queue.length && !(start <= p < last) ==> at[p] == p
      ensures playing ==> SongAt(current) == old(SongAt(current))
    {
      hide TableOk, SongsOk, Distinct, IsIdentity, NonIncreasing, IsPermutation, Composed, Rearranged;
      ghost var its := queue.Items();
      var first;
      first, at := SetCurrentAside(start, last);
      ghost var its' := queue.Items();
      ghost var at' := queue.ShuffleRange(first, last);
      if current >= 0 {
        PermutationIsBelow(queue.Order());
        RearrangedOutside(its', queue.Items(), at', first, last, queue.version, queue.Order()[current]);
      }
      RearrangeTwice(its, its', queue.Items(), at, at', start, first, last, queue.version);
      at := Composed(at, at');
    }

    /** Shuffle(), before the shuffling: the song being played is put in front of what is shuffled. */
    method SetCurrentAside(start: nat, last: nat) returns (first: nat, ghost at: seq<nat>)
      requires InRange() && start + 1 < last <= queue.length
      modifies this`current, queue.items, queue.idTable.data
      ensures InRange() && (first == start || first == start + 1)
      ensures |at| == queue.length && IsPermutation(at)
      ensures forall p :: 0 <= p < queue.length ==> SameItem(queue.Items()[at[p]], old(queue.Items())[p])
      ensures forall p :: 0 <= p < queue.length && !(start <= p < last) ==> at[p] == p
      ensures if playing then SongAt(current) == old(SongAt(current)) else current == -1
      ensures current >= 0 ==> !(first <= queue.Order()[current] < last)
    {
      hide TableOk, SongsOk, Distinct, IsIdentity, NonIncreasing, SwappedItems, SwapMap;
      at := Positions(queue.length);
      PositionsPermute(queue.length);
      first := start;
      if playing && current >= 0 {
        var currentPosition := queue.order[current];
        if currentPosition >= first && currentPosition < last {
          CurrentFirst(first, currentPosition);
          SwapMapIsPermutation(at, first, currentPosition);
          SwapMapOfPositions(queue.length, first, currentPosition);
          at := SwapMap(at, first, currentPosition);
          first := first + 1;
        }
      } else {
        current := -1;
      }
    }

    /** Put the song being played first. */
    method CurrentFirst(first: nat, currentPosition: nat)
      requires InRange() && current >= 0 && queue.Order()[current] == currentPosition
      requires first < queue.length && currentPosition < queue.length
      modifies this`current, queue.items, queue.idTable.data
      ensures InRange() && current >= 0 && queue.Order()[current] == first
      ensures SongAt(current) == old(SongAt(current))
      ensures queue.Items() == SwappedItems(old(queue.Items()), first, currentPosition, queue.version)
      ensures forall p :: 0 <= p < queue.length ==>
                SameItem(queue.Items()[if p == first then currentPosition else if p == currentPosition then first else p],
                         old(queue.Items())[p])
    {
      hide TableOk, SongsOk, Distinct, IsIdentity, NonIncreasing, SwappedItems;
      SwappedItemsBy(queue.Items(), first, currentPosition, queue.version);
      queue.SwapPositions(first, currentPosition);
      if queue.random {
        current := queue.PositionToOrder(first);
      } else {
        IdentityAt(queue.Order(), first);
        current := first;
      }
    }

    // -------------------------------------------------------------------------------------------
    // Options
    // -------------------------------------------------------------------------------------------

    method SetRepeat(pc: PlayerControl, status: bool)
      requires Valid(pc)
      modifies this`current, this`queued, queue`repeat, queue.order, pc
      ensures Valid(pc) && playing == old(playing) && queue.repeat == status
      ensures SongAt(current) == old(SongAt(current))
      ensures status != old(queue.repeat) ==> NextQueued()
    {
      hide TableOk, SongsOk, Distinct, IsIdentity, NonIncreasing;
      if status == queue.repeat {
        return;
      }
      queue.repeat := status;
      var prev := GetQueuedSong(pc);
      UpdateQueuedSong(pc, prev);
    }

    method SetSingle(pc: PlayerControl, status: bool)
      requires Valid(pc)
      modifies this`current, this`queued, queue`single, queue.order, pc
      ensures Valid(pc) && playing == old(playing) && queue.single == status
      ensures SongAt(current) == old(SongAt(current))
      ensures status != old(queue.single) ==> NextQueued()
    {
      hide TableOk, SongsOk, Distinct, IsIdentity, NonIncreasing;
      if status == queue.single {
        return;
      }
      queue.single := status;
      var prev := GetQueuedSong(pc);
      UpdateQueuedSong(pc, prev);
    }

    method SetConsume(pc: PlayerControl, status: bool)
      requires Valid(pc)
      modifies queue`consume
      ensures Valid(pc) && queue.consume == status
    {
      queue.consume := status;
    }

    method SetRandom(pc: PlayerControl, status: bool)
      requires Valid(pc)
      modifies this`current, this`queued, queue`random, queue.order, pc
      ensures Valid(pc) && playing == old(playing) && queue.random == status
      ensures playing ==> SongAt(current) == old(SongAt(current))
      ensures status != old(queue.random) ==> NextQueued()
    {
      hide TableOk, SongsOk, Distinct, IsIdentity, NonIncreasing;
      if status == queue.random {
        return;
      }
      var prev := GetQueuedSong(pc);
      if status {
        EnterRandom();
      } else {
        LeaveRandom();
      }
      UpdateQueuedSong(pc, prev);
    }

    /** Shuffle the play order, with the song being played in front. */
    method EnterRandom()
      requires InRange() && !queue.random
      modifies this`current, queue`random, queue.order
      ensures InRange() && queue.random
      ensures if playing then SongAt(current) == old(SongAt(current)) else current == -1
    {
      hide TableOk, SongsOk, Distinct, IsIdentity, NonIncreasing;
      queue.random := true;
      var currentPosition: int := if playing && current >= 0 then queue.order[current] else -1;
      queue.ShuffleOrder();
      if currentPosition >= 0 {
        var currentOrder := queue.PositionToOrder(currentPosition);
        queue.SwapOrders(0, currentOrder);
        current := 0;
      } else {
        current := -1;
      }
    }

    /** Back to the normal order, which the current song is found in again. */
    method LeaveRandom()
      requires InRange() && queue.random
      modifies this`current, queue`random, queue.order
      ensures InRange() && !queue.random && SongAt(current) == old(SongAt(current))
    {
      hide TableOk, SongsOk, Distinct, IsIdentity, NonIncreasing;
      queue.random := false;
      if current >= 0 {
        current := queue.order[current];
      }
      queue.RestoreOrder();
      if current >= 0 { IdentityAt(queue.Order(), current); }
    }

    // -------------------------------------------------------------------------------------------
    // Bulk edits
    // -------------------------------------------------------------------------------------------

    method BeginBulk(pc: PlayerControl)
      requires Valid(pc) && !bulkEdit
      modifies this`bulkEdit, this`bulkModified
      ensures Valid(pc) && bulkEdit && !bulkModified
    {
      bulkEdit := true;
      bulkModified := false;
    }

    method CommitBulk(pc: PlayerControl)
      requires Valid(pc) && bulkEdit
      modifies Repr(), pc
      ensures Valid(pc) && !bulkEdit && playing == old(playing)
      ensures SongAt(current) == old(SongAt(current)) && SameItems(queue.Items(), old(queue.Items()))
      ensures old(bulkModified) ==> Announced(old(queue.version)) && (old(queued) < 0 ==> NextQueued())
    {
      hide TableOk, SongsOk, Distinct, IsIdentity, NonIncreasing;
      bulkEdit := false;
      if !bulkModified {
        return;
      }
      if queued < 0 {
        UpdateQueuedSong(pc, null);
      }
      OnModified(pc);
    }

    // -------------------------------------------------------------------------------------------
    // Playback
    // -------------------------------------------------------------------------------------------

    method Stop(pc: PlayerControl)
      requires Valid(pc)
      modifies this`playing, this`queued, this`current, queue.order, pc
      ensures Valid(pc) && !playing
      ensures SongAt(current) == old(SongAt(current))
      ensures old(playing) ==> pc.commanded == null
    {
      hide TableOk, SongsOk, Distinct, IsIdentity, NonIncreasing;
      if !playing {
        return;
      }
      pc.Stop();
      queued := -1;
      playing := false;
      if queue.random {
        current := Reshuffle(current);
      }
    }

    method Clear(pc: PlayerControl)
      requires Valid(pc)
      modifies Repr(), pc
      ensures Valid(pc) && !playing && queue.length == 0 && current == -1
      ensures Announced(old(queue.version)) && (old(playing) ==> pc.commanded == null)
    {
      hide TableOk, SongsOk, Distinct, IsIdentity, NonIncreasing;
      Stop(pc);
      queue.Clear();
      current := -1;
      OnModified(pc);
    }

    /** Play the song at a position; -1 is the current song or the first one. */
    method PlayPosition(pc: PlayerControl, song: int) returns (result: PlaylistResult)
      requires Valid(pc) && -1 <= song
      modifies this`playing, this`current, this`queued, this`stopOnError, this`errorCount, queue.order, pc
      ensures Valid(pc)
      ensures result == if song < queue.length then Success else BadRange
      ensures result.Success? && 0 <= song ==> playing && queue.Order()[current] == song && pc.commanded == SongAt(current)
      ensures result.Success? && song == -1 && queue.length > 0 ==> playing
      ensures result.Success? && song == -1 && old(current) >= 0 ==> SongAt(current) == old(SongAt(current))
    {
      hide TableOk, SongsOk, Distinct, IsIdentity, NonIncreasing;
      pc.ClearError();
      var i := song;
      if song == -1 {
        if queue.length == 0 {
          return Success;
        }
        if playing {
          return Success;
        }
        i := if current >= 0 then current else 0;
      } else if song >= queue.length {
        return BadRange;
      }
      if queue.random {
        if song >= 0 {
          i := queue.PositionToOrder(song);
        }
        if !playing {
          current := 0;
        }
        queue.SwapOrders(i, current);
        i := current;
      } else if song >= 0 {
        IdentityAt(queue.Order(), song);
      }
      stopOnError := false;
      errorCount := 0;
      PlayOrder(pc, i);
      result := Success;
    }

    method PlayNext(pc: PlayerControl)
      requires Valid(pc)
      modifies Repr(), pc
      ensures Valid(pc)
      ensures old(playing) && !queue.consume && old(queue.GetNextOrder(current)) < 0 ==> !playing && current == -1
      ensures old(playing) && !queue.consume && old(queue.GetNextOrder(current)) >= 0 ==>
                playing && current == old(queue.GetNextOrder(current)) && pc.commanded == SongAt(current)
      ensures queue.consume == old(queue.consume)
      ensures queue.length == old(queue.length) - if old(playing && queue.consume) then 1 else 0
      ensures old(playing && queue.GetNextOrder(current) >= 0 && queue.GetNextOrder(current) != current &&
                  !(queue.random && queue.GetNextOrder(current) == 0)) ==>
                playing && pc.commanded == SongAt(current) == old(SongAt(queue.GetNextOrder(current)))
    {
      hide TableOk, SongsOk, Distinct, IsIdentity, NonIncreasing;
      if !playing {
        return;
      }
      var oldCurrent := current;
      stopOnError := false;
      var nextOrder := queue.GetNextOrder(current);
      if nextOrder < 0 {
        Stop(pc);
        current := -1;
      } else {
        if nextOrder == 0 && queue.random {
          queue.ShuffleOrder();
        }
        PlayOrder(pc, nextOrder);
      }
      if queue.consume {
        var _ := DeleteOrder(pc, oldCurrent);
      }
    }

    method DeleteOrder(pc: PlayerControl, slot: nat) returns (result: PlaylistResult)
      requires Valid(pc) && slot < queue.length
      modifies Repr(), pc
      ensures Valid(pc) && queue.length == old(queue.length) - 1 && queue.consume == old(queue.consume) && queue.random == old(queue.random)
      ensures old(playing && current != slot) ==> playing && SongAt(current) == old(SongAt(current)) && pc.commanded == old(pc.commanded)
    {
      hide TableOk, SongsOk, Distinct, IsIdentity, NonIncreasing;
      SlotOfAt(queue.Order(), slot);
      result := DeletePosition(pc, queue.order[slot]);
    }

    method PlayPrevious(pc: PlayerControl)
      requires Valid(pc)
      modifies this`playing, this`queued, this`current, pc
      ensures Valid(pc) && playing == old(playing)
      ensures playing ==>
                && pc.commanded == SongAt(current)
                && current == if old(current) > 0 then old(current) - 1 else if queue.repeat then queue.length - 1 else old(current)
    {
      hide TableOk, SongsOk, Distinct, IsIdentity, NonIncreasing;
      if !playing {
        return;
      }
      var slot: int;
      if current > 0 {
        slot := current - 1;
      } else if queue.repeat {
        slot := queue.length - 1;
      } else {
        slot := current;
      }
      PlayOrder(pc, slot);
    }

    /** PlayerControl::Seek() never fails, so there is no branch for its failure here. */
    method SeekSongOrder(pc: PlayerControl, slot: nat) returns (result: PlaylistResult)
      requires Valid(pc) && slot < queue.length
      modifies this`playing, this`current, this`queued, this`stopOnError, this`errorCount, queue.order, pc
      ensures Valid(pc) && playing && result == Success
      ensures pc.commanded == SongAt(current) == old(SongAt(slot)) && NextQueued()
      ensures !queue.random || queue.single || queue.GetNextOrder(slot) != 0 ==> current == slot
    {
      hide TableOk, SongsOk, Distinct, IsIdentity, NonIncreasing;
      pc.ClearError();
      stopOnError := true;
      errorCount := 0;
      if !playing || current != slot {
        playing := true;
        current := slot;
      }
      SongAtExists(slot);
      pc.Seek(queue.items[queue.order[slot]].song);
      queued := -1;
      UpdateQueuedSong(pc, null);
      result := Success;
    }

    method SeekSongPosition(pc: PlayerControl, song: nat) returns (result: PlaylistResult)
      requires Valid(pc)
      modifies this`playing, this`current, this`queued, this`stopOnError, this`errorCount, queue.order, pc
      ensures Valid(pc)
      ensures result == if song < queue.length then Success else BadRange
      ensures result.Success? ==> playing && pc.commanded == SongAt(current) == queue.Items()[song].song && NextQueued()
    {
      hide TableOk, SongsOk, Distinct, IsIdentity, NonIncreasing;
      if song >= queue.length {
        return BadRange;
      }
      var slot := song;
      if queue.random {
        slot := queue.PositionToOrder(song);
      } else {
        IdentityAt(queue.Order(), song);
      }
      result := SeekSongOrder(pc, slot);
    }

    // -------------------------------------------------------------------------------------------
    // Events from the player thread
    // -------------------------------------------------------------------------------------------

    /** The player has started the queued song. */
    method SongStarted(pc: PlayerControl)
      requires Valid(pc) && playing && queued >= 0 && pc.nextSong == null
      modifies Repr(), pc
      ensures Valid(pc) && queue.consume == old(queue.consume)
      ensures !queue.consume || old(current) != old(queued) ==> playing && SongAt(current) == old(SongAt(queued))
    {
      hide TableOk, SongsOk, Distinct, IsIdentity, NonIncreasing;
      var was := current;
      current := queued;
      queued := -1;
      if queue.consume {
        var _ := DeleteOrder(pc, was);
      }
    }

    /** After an error of the output, after any error while seeking, or after errors in all songs, playback is not resumed. */
    ghost predicate GivesUp(pc: PlayerControl)
      reads this`stopOnError, this`errorCount, queue`length, pc`error
    {
      || (stopOnError && pc.error != NoError)
      || pc.error == OutputError
      || (if pc.error == NoError then 0 else errorCount + 1) >= queue.length
    }

    /** The player has stopped: go on with the next song, or give up. */
    method ResumePlayback(pc: PlayerControl)
      requires Valid(pc) && playing
      modifies Repr(), pc
      ensures Valid(pc)
      ensures old(GivesUp(pc)) ==> !playing && pc.commanded == null && SongAt(current) == old(SongAt(current))
      ensures !old(GivesUp(pc)) && !queue.consume && old(queue.GetNextOrder(current)) < 0 ==> !playing && current == -1
      ensures !old(GivesUp(pc)) && !queue.consume && old(queue.GetNextOrder(current)) >= 0 ==>
                playing && current == old(queue.GetNextOrder(current)) && pc.commanded == SongAt(current)
      ensures queue.consume == old(queue.consume)
    {
      hide TableOk, SongsOk, Distinct, IsIdentity, NonIncreasing;
      var error := pc.error;
      if error == NoError {
        errorCount := 0;
      } else {
        errorCount := errorCount + 1;
      }
      if (stopOnError && error != NoError) || error == OutputError || errorCount >= queue.length {
        Stop(pc);
      } else {
        PlayNext(pc);
      }
    }

    method SyncWithPlayer(pc: PlayerControl)
      requires Valid(pc)
      modifies Repr(), pc
      ensures Valid(pc)
    {
      hide TableOk, SongsOk, Distinct, IsIdentity, NonIncreasing;
      if !playing {
        return;
      }
      pc.Run();
      if pc.state == Stopped {
        ResumePlayback(pc);
      } else {
        if pc.nextSong == null && queued != -1 {
          SongStarted(pc);
        }
        pc.Run();
        if pc.nextSong == null && queued < 0 {
          UpdateQueuedSong(pc, null);
        }
      }
    }
  }

  // ---------------------------------------------------------------------------------------------
  // Where the current song goes
  // ---------------------------------------------------------------------------------------------

  /** What AppendSong() may swap the new song with; without a swap the new slot itself. */
  predicate AppendChoice(random: bool, current: int, queued: int, length: nat, choice: nat) {
    var start := if queued >= 0 then queued + 1 else current + 1;
    if random && start <= length then start <= choice <= length else choice == length
  }

  /** Appending keeps the current song for every random choice exactly if no wrapped-around song is queued before it. */
  lemma AppendKeepsCurrentIff(random: bool, current: nat, queued: int, length: nat)
    requires current < length && -1 <= queued
    ensures (forall choice: nat :: AppendChoice(random, current, queued, length, choice) ==> choice != current) <==>
            !(random && 0 <= queued < current)
  {
    if random && 0 <= queued < current {
      assert AppendChoice(random, current, queued, length, current);
    }
  }

  lemma DeletedOrderAt(order: seq<nat>, slot: nat, i: nat)
    requires IsPermutation(order) && slot < |order| && i < |order| && i != slot
    ensures DeletedOrder(order, slot)[if i > slot then i - 1 else i] ==
            order[i] - if order[i] > order[slot] then 1 else 0
  {
  }

  lemma IdentityAt(order: seq<nat>, i: nat)
    requires IsIdentity(order) && i < |order|
    ensures order[i] == i
  {
  }

  /** In random mode swapping two positions and their slots leaves every slot its song. */
  lemma SwapKeepsSlot(its: seq<Item>, order: seq<nat>, p: nat, q: nat, version: nat, slot: nat)
    requires IsPermutation(order) && |order| == |its| && p < |its| && q < |its| && slot < |its|
    ensures var order' := Swapped(order, SlotOf(order, p), SlotOf(order, q));
            order'[slot] < |its| && SameItem(SwappedItems(its, p, q, version)[order'[slot]], its[order[slot]])
  {
    assert order[slot] == p ==> slot == SlotOf(order, p);
    assert order[slot] == q ==> slot == SlotOf(order, q);
  }

  lemma SwapMovesSong(its: seq<Item>, order: seq<nat>, p: nat, q: nat, version: nat, slot: nat)
    requires IsIdentity(order) && |order| == |its| && p < |its| && q < |its| && slot < |its|
    ensures forall i :: 0 <= i < |order| ==> order[i] == i
    ensures var slot' := if slot == p then q else if slot == q then p else slot;
            SameItem(SwappedItems(its, p, q, version)[slot'], its[slot])
  {
  }

  lemma RearrangedOutside(its: seq<Item>, its': seq<Item>, at: seq<nat>, start: nat, end: nat, version: nat, p: nat)
    requires Rearranged(its, its', at, start, end, version) && p < |its| && !(start <= p < end)
    ensures its'[p] == its[p]
  {
  }

  /** First to at[p], then to at'[at[p]]. */
  ghost function Composed(at: seq<nat>, at': seq<nat>): (r: seq<nat>)
    requires IsPermutation(at) && |at'| == |at|
    ensures |r| == |at|
  {
    seq(|at|, p requires 0 <= p < |at| => at'[at[p]])
  }

  lemma SwapMapOfPositions(n: nat, i: nat, r: nat)
    ensures forall p :: 0 <= p < n ==> SwapMap(Positions(n), i, r)[p] == if p == i then r else if p == r then i else p
  {
  }

  lemma RearrangeTwice(its: seq<Item>, its': seq<Item>, its'': seq<Item>, at: seq<nat>, at': seq<nat>,
                       start: nat, first: nat, end: nat, version: nat)
    requires |at| == |its| == |its'| && IsPermutation(at) && start <= first
    requires forall p :: 0 <= p < |its| ==> SameItem(its'[at[p]], its[p])
    requires forall p :: 0 <= p < |its| && !(start <= p < end) ==> at[p] == p
    requires Rearranged(its', its'', at', first, end, version)
    ensures |at'| == |at|
    ensures var r := Composed(at, at');
            && |its''| == |its| && IsPermutation(r)
            && (forall p :: 0 <= p < |its| ==> SameItem(its''[r[p]], its[p]))
            && (forall p :: 0 <= p < |its| && !(start <= p < end) ==> r[p] == p)
  {
    var r := Composed(at, at');
    ComposedIsPermutation(at, at');
    forall p | 0 <= p < |its| ensures SameItem(its''[r[p]], its[p]) {
      assert SameItem(its''[at'[at[p]]], its'[at[p]]);
    }
  }

  lemma ComposedIsPermutation(at: seq<nat>, at': seq<nat>)
    requires IsPermutation(at) && IsPermutation(at') && |at'| == |at|
    ensures IsPermutation(Composed(at, at'))
  {
  }

  /** What MoveRange() reports, given the position of the current song. */
  function MoveResult(length: nat, currentSong: int, start: nat, end: nat, to: int): PlaylistResult
    requires start < end
  {
    if end > length then BadRange
    else if to >= 0 && to + (end - start) > length then BadRange
    else if to < 0 && (-to > length || currentSong < 0) then BadRange
    else Success
  }

  lemma SameItemsPrefix(now: seq<Item>, its: seq<Item>, n: nat, before: seq<Item>)
    requires SameItems(now, its) && n < |its| && its[..n] == before
    ensures SameItems(now[..n], before) && SameItem(now[n], its[n])
  {
    assert forall p :: 0 <= p < n ==> its[p] == before[p];
  }

  lemma SameItemsReflexive(its: seq<Item>)
    ensures SameItems(its, its)
  {
  }

  lemma MoveNowhere(its: seq<Item>, start: nat, end: nat)
    requires start <= end <= |its|
    ensures SameItems(its, MovedItems(its, start, end, start, 0))
  {
    assert CutInsert(its, start, end, start) == its;
  }

  lemma MovedSame(its: seq<Item>, start: nat, end: nat, to: nat, version: nat)
    requires start <= end <= |its| && to + (end - start) <= |its|
    ensures SameItems(MovedItems(its, start, end, to, version), MovedItems(its, start, end, to, 0))
  {
  }

  lemma DeletedSame(its: seq<Item>, song: nat, version: nat)
    requires song < |its|
    ensures SameItems(DeletedItems(its, song, version), DeletedItems(its, song, 0))
  {
  }

  /** Where MoveRange() moves the block to; -1 if it leaves it where it is. */
  function MoveTarget(length: nat, currentSong: int, start: nat, end: nat, to: int): int
    requires start < end <= length
  {
    if to >= 0 then to
    else if start <= currentSong < end then -1
    else
      var target := (currentSong - to) % length;
      if start < target then target - 1 else target
  }

  /** Does the block fit where MoveRange() moves it to?  Only a negative `to` leaves that open. */
  predicate MoveFits(length: nat, currentSong: int, start: nat, end: nat, to: int)
    requires start < end
  {
    to < 0 && end <= length && -to <= length && 0 <= currentSong < length ==>
      MoveTarget(length, currentSong, start, end, to) + (end - start) <= length
  }

  /** A single song always fits, and so does a block that is moved to a position. */
  lemma SingleSongFits(length: nat, currentSong: int, start: nat, end: nat, to: int)
    requires start < end && (end == start + 1 || to >= 0)
    ensures MoveFits(length, currentSong, start, end, to)
  {
  }

  /** A longer block may not: three songs, moved to just behind the fourth of five, would end behind the last one. */
  lemma BlockMayNotFit()
    ensures !MoveFits(5, 3, 0, 3, -1)
  {
  }

  /** Everything but [start, end). */
  function CutOut(its: seq<Item>, start: nat, end: nat): seq<Item> {
    if start < end && start < |its| then its[..start] + its[if end < |its| then end else |its|..] else its
  }

  lemma CutOutNothing(its: seq<Item>, start: nat, end: nat)
    ensures var last := if end > |its| then |its| else end;
            && CutOut(its, start, end) == CutOut(its, start, last)
            && SameItems(its, CutOut(its, last, last))
            && (start >= last ==> SameItems(its, CutOut(its, start, end)))
  {
  }

  lemma CutOutOneMore(its: seq<Item>, now: seq<Item>, i: nat, last: nat, version: nat)
    requires i < last <= |its| && SameItems(now, CutOut(its, i + 1, last))
    ensures i < |now| && SameItems(DeletedItems(now, i, version), CutOut(its, i, last))
  {
    assert forall p :: 0 <= p < |now| ==> SameItem(now[p], CutOut(its, i + 1, last)[p]);
  }

  /** How MoveRange() adjusts `current` outside random mode. */
  function AdjustedCurrent(current: nat, start: nat, end: nat, to: nat): int
    requires start <= end
  {
    if start <= current < end then current + to - start
    else if end <= current <= to then current - (end - start)
    else if to <= current < start then current + (end - start)
    else current
  }

  /** The current song is behind the block, and the moved block comes to lie on it. */
  predicate MoveMisses(current: int, start: nat, end: nat, to: int)
    requires start <= end
  {
    end <= current && to < current < to + (end - start)
  }

  /** The adjusted `current` plays the same song exactly if the move does not miss it. */
  lemma MoveKeepsCurrentIff(its: seq<Item>, start: nat, end: nat, to: nat, version: nat, current: nat)
    requires SongsOk(its) && start < end <= |its| && to + (end - start) <= |its| && current < |its|
    ensures var current' := AdjustedCurrent(current, start, end, to);
            && 0 <= current' < |its|
            && (MovedItems(its, start, end, to, version)[current'].song == its[current].song <==>
                !MoveMisses(current, start, end, to))
  {
    var current' := AdjustedCurrent(current, start, end, to);
    MovedItemAt(its, start, end, to, version, current);
    if MoveMisses(current, start, end, to) {
      MovedItemsBy(its, start, end, to, version, current);
      assert its[start + (current - to)].song != its[current].song;
    }
  }

  lemma MoveFollowsCurrent(its: seq<Item>, order: seq<nat>, start: nat, end: nat, to: nat, version: nat, current: nat)
    requires SongsOk(its) && IsIdentity(order) && |order| == |its|
    requires start < end <= |its| && to + (end - start) <= |its| && current < |its|
    ensures var current' := AdjustedCurrent(current, start, end, to);
            && 0 <= current' < |its| && order[current'] == current' && order[current] == current
            && (!MoveMisses(current, start, end, to) <==>
                MovedItems(its, start, end, to, version)[current'].song == its[current].song)
  {
    MoveKeepsCurrentIff(its, start, end, to, version, current);
  }

  // ---------------------------------------------------------------------------------------------
  // Playlists for which the conditions fail
  // ---------------------------------------------------------------------------------------------

  /** A playlist with n songs. */
  method SomeSongs(pc: PlayerControl, song: Song, n: nat) returns (list: Playlist)
    modifies pc
    ensures fresh(list.Repr()) && list.Valid(pc) && list.queue.length == n && !list.playing && !list.bulkEdit
    ensures !list.queue.random && !list.queue.repeat && !list.queue.single && !list.queue.consume
  {
    list := new Playlist(n, pc);
    for i := 0 to n
      invariant fresh(list.Repr()) && list.Valid(pc) && list.queue.maxLength == n && list.queue.length == i
      invariant !list.playing && !list.bulkEdit
      invariant !list.queue.random && !list.queue.repeat && !list.queue.single && !list.queue.consume
    {
      var _, _, _ := list.AppendSong(pc, song);
    }
  }

  /**
   While the last of five songs is played, the first two are moved to just before the end: the
   playlist then takes another song for the one being played.
   */
  method MoveLosesCurrentSong(pc: PlayerControl, song: Song) returns (list: Playlist)
    modifies pc
    ensures fresh(list) && list.Valid(pc) && list.playing
    ensures pc.commanded != null && list.SongAt(list.current) != pc.commanded
  {
    hide TableOk, SongsOk, Distinct, NonIncreasing, IsIdentity, IsPermutation, SameItems, MovedItems;
    list := SomeSongs(pc, song, 5);
    var _ := list.PlayPosition(pc, 4);
    IdentityAt(list.queue.Order(), list.current);
    list.SongAtExists(list.current);
    var _ := list.MoveRange(pc, 0, 2, 3);
  }

  /** In random mode, with the first song queued behind the last one: the queued slot is before the current one. */
  method QueuedBeforeCurrent(pc: PlayerControl, song: Song) returns (list: Playlist)
    modifies pc
    ensures fresh(list) && list.Valid(pc) && list.playing && list.queue.random && 0 <= list.queued < list.current
  {
    hide TableOk, SongsOk, Distinct, NonIncreasing, IsIdentity, IsPermutation;
    list := TwoRandomSongs(pc, song);
    list.SetSingle(pc, true);
    list.SetConsume(pc, true);
    var _ := list.SeekSongOrder(pc, 1);
  }

  method TwoRandomSongs(pc: PlayerControl, song: Song) returns (list: Playlist)
    modifies pc
    ensures fresh(list.Repr()) && list.Valid(pc) && list.queue.length == 2 && !list.playing && !list.bulkEdit
    ensures list.queue.random && list.queue.repeat
  {
    hide TableOk, SongsOk, Distinct, NonIncreasing, IsIdentity, IsPermutation;
    list := SomeSongs(pc, song, 2);
    list.SetRandom(pc, true);
    list.SetRepeat(pc, true);
  }
}
