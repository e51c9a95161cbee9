# Verification of the music daemon's core

This project models the parts of the Music Player Daemon (version 0.18) that keep state over time,
and proves properties of the model with Dafny. `dafny verify dfyconfig.toml` checks all of it.

Random numbers, what plugins and devices answer, timers and thread scheduling are arbitrary choices
in the model (arguments of a step, or values a method picks); every result holds for all of them.

## The parts

**Outputs** (`OutputProtocol`, `OutputSafety`, `OutputTheorems`, `OutputFailures`, `OutputTraces`). One
player thread and any number of output threads share a linked list of chunks; each output keeps a raw
pointer into it. A step is what one thread does between acquiring and releasing an output's mutex. One
invariant over all interleavings gives: an open output's chunk is null or in the list, no chunk is freed while an output
refers to it, outputs take chunks in order without gaps, and a chunk is freed as consumed only after
every open output has taken it. The functions follow the code: `HandleCommand` and `OutputStep` are
`audio_output_task()` (`src/OutputThread.cxx:581-679`) with `TryPlay`, `Take` and `PlayedChunk` for
`ao_play()` (`:507-547`); `PlayerStep` is the player's side (`src/OutputAll.cxx:254-557`) with `Update`
for `audio_output_update()` (`src/OutputControl.cxx:146-245`), `ConsumedIn` (`src/OutputAll.cxx:357-375`)
and the tail handling (`:398-421`). Four assertions of the code can fail. For each the theorems give
the condition on the steps of a run under which it holds, that it fails where the condition is broken,
and a run that reaches it:

- If a paused output fails to pause while a REOPEN command is pending, `ao_close()` clears `ao->pipe`
  and the command then uses it (`src/OutputThread.cxx:136`).
- If a plugin call fails while a CLOSE command is pending, the output closes by itself and then handles
  CLOSE (`:613`).
- If a plugin call fails while CANCEL, PAUSE or DRAIN is pending, `audio_output_wait_all()` no longer
  waits for the output, and opening, enabling or disabling it sends a command over the pending one
  (`src/OutputControl.cxx:69`).
- `audio_output_all_open()` may find chunks of another format in the pipe (`src/OutputAll.cxx:325`):
  `Player::Run()` ends without cancelling when `SendSilence()` fails (`src/PlayerThread.cxx:958-961`) and
  when the decoder fails to start during a seek (`:976-977`). With all outputs closed nothing else
  follows. An output that is playing a chunk then loses it (`src/OutputThread.cxx:536`); such a step is
  said to disturb the output. Everything else is proved for all runs without a disturbed output, which
  includes all runs in which the format does not change while chunks are left and an output is open.

**Chunk ownership** (`ChunkProtocol`, `ChunkConservation`). Decoder thread and player thread as a state
machine over who owns which chunk. In every interleaving each chunk is in exactly one place, nothing
is attached in chains, no pipe is deleted or restarted with chunks in it, and closing the outputs
while no song plays leaves all chunks free. `DecoderStep` is `src/DecoderThread.cxx:339-449` with the
plugin's calls of `src/DecoderInternal.cxx:53-103` and `src/DecoderAPI.cxx:148-228`; `PlayerStep` and
`Begin` are `Player::Run()` and what it calls (`src/PlayerThread.cxx:303-318`, `482-589`, `591-684`,
`717-912`, `914-1103`).

**Decoder data** (`MusicPipe`, `DecoderData`). The linked list as a first-in first-out queue, the
buffer that frees an attached chunk too, and `decoder_data()`: the bytes pushed to the pipe plus the
partial chunk are the byte stream, which only grows by whole frames, while the player takes chunks and
sends commands in between.

**Queue and playlist** (`Permutations`, `QueueItems`, `PlayOrder`, `Queue`, `QueueVersions`, `Playlist`).
Positions, ids and play order are three views of the same songs. The in-place loops are proved equal
to simple sequence operations; every operation keeps the order a permutation, ids unique, and the id
table their inverse; priorities stay sorted behind the current song; version stamps let a client
rebuild the queue. On top, the cursors `current` and `queued` survive every edit. Three exact
conditions: `AppendSong()` keeps the current song for every random choice exactly if no song before it
is queued in random mode; `MoveRange()` outside random mode loses the current song exactly if it is
behind the block and the block comes to lie on it (`src/PlaylistEdit.cxx:404` does not test for that);
and once the version counter has wrapped, a client with version v has the queue right at version w
after every run exactly if v is 0 or 1 or above w.

**Song database** (`Uris`, `SongTree`, `DatabaseQuery`, `QueryRewrite`, `Numbers`, `TextLines`,
`DatabaseSave`, `DatabaseLoad`, `SaveRoundTrip`). Lookups, filtered walks, and the query optimisation
that starts at the filter's "base": it visits the same songs, for every filter and every tree whose
names have no slashes and no clashes. Printing the tree and loading the text gives the tree back.

**ICY metadata** (`IcyTag`, `IcySplitter`, `IcyInput`). Splitting a stream does not depend on how it is
cut into reads; the quote-aware parser undoes the server's printer, with the exact condition.

**Compressor** (`Compressor`). Fixed-point gain ramping with every intermediate gain and product in a
32-bit integer type.

## Model

| member | source | states |
|---|---|---|
| `OutputTheorems.RunKeeps` | src/OutputAll.cxx:254-469 | one inductive invariant holds after every run of the player thread and any number of output threads in which no output is disturbed, for every interleaving, plugin result, timer and format |
| `OutputTheorems.OpenOutputsStayInPipe` | src/OutputAll.cxx:357-421 | after every such run: the chunk of each open output is null or still in the shared pipe, and no assertion of the consumption tests, of the tail handling, of ao_play(), ao_open() or ao_command_finished() has failed |
| `OutputTheorems.NoChunkReturnedWhileInUse` | src/OutputAll.cxx:434-466 | in every step that makes chunks leave the pipe, no output that is open before or afterwards refers to one of them |
| `OutputTheorems.PipeShrinksOnlyInScan` | src/OutputAll.cxx:423-469 | chunks leave the pipe in two kinds of steps only: one chunk at the end of a scan over all outputs, and all of them at the end of cancel or close, when no open output has a chunk |
| `OutputTheorems.TakenIsContiguous` | src/OutputThread.cxx:489-547 | since its last reset an open output has taken a contiguous run of the chunks pushed, in order, none skipped, none twice, and its current chunk is the last of them |
| `OutputTheorems.TakenRecordsChunk` | src/OutputThread.cxx:507-547 | in every step an output's record of taken chunks grows exactly by the chunk it takes, and starts anew only when it has been opened, handles CANCEL, or is opened, reopened or unpaused by the player |
| `OutputTheorems.ShiftedChunkWasPlayedByAll` | src/OutputAll.cxx:437-454 | when a consumed chunk is removed, every open output has taken it since its last reset, and has finished it if it is the last one it took |
| `OutputFailures.FormatsAreMixedIff` | src/OutputAll.cxx:314-325 | the assertion of audio_output_all_open() fails in exactly the runs in which another format is asked for while chunks are left in the pipe |
| `OutputFailures.SameFormatIsEnough` | src/OutputAll.cxx:314-329 | no output is disturbed in any run in which another format is never asked for while chunks are left in the pipe and an output is open |
| `OutputFailures.DisturbedOutputFails` | src/OutputThread.cxx:525-538 | once the player has taken the chunk away from an output which is playing it, three more turns of that output fail an assertion or use a null pipe, whatever its plugin and all other threads do |
| `OutputFailures.PipesAreNeverNull` | src/OutputThread.cxx:129-137 | no output uses a null pipe in any undisturbed run in which no paused output fails to pause while a REOPEN is pending |
| `OutputFailures.FailedPauseUsesNullPipe` | src/OutputThread.cxx:262-284 | once a paused output fails to pause while a REOPEN is pending, two more turns of it use a null pipe, whatever its plugin and all other threads do |
| `OutputFailures.OnlyOpenOutputsAreClosed` | src/OutputThread.cxx:612-618 | every output that handles CLOSE is open, in any run in which no plugin call fails while CLOSE is pending |
| `OutputFailures.FailureOnCloseClosesTwice` | src/OutputThread.cxx:202-226 | once a plugin call fails while CLOSE is pending, two more turns of that output handle CLOSE while it is closed, whatever its plugin and all other threads do |
| `OutputFailures.CommandsAreNotLost` | src/OutputControl.cxx:66-72 | the player never sends a command over a pending one, in any undisturbed run in which no plugin call fails while a command is pending that the player does not wait for |
| `OutputFailures.FailureLeavesStale` | src/OutputAll.cxx:177-197 | a plugin call that fails while a command is pending that the player does not wait for leaves the output closed with that command |
| `OutputFailures.StaleUntilOverwritten` | src/OutputControl.cxx:66-72 | until that output has its turn the command stays, unless the player sends another one over it |
| `OutputFailures.StaleCommandIsLost` | src/OutputControl.cxx:66-72 | opening, enabling or disabling that output meanwhile sends a command over the pending one |
| `OutputTraces.NullPipeIsReachable` | src/OutputControl.cxx:162-191 | a concrete run of one output that pauses, is reopened with another format and fails to pause ends with the use of a null pipe |
| `OutputTraces.ClosingTwiceIsReachable` | src/OutputThread.cxx:552-578 | a concrete run of one output that pauses, is closed and fails to pause handles CLOSE while it is closed |
| `OutputTraces.LostCommandIsReachable` | src/OutputAll.cxx:177-197 | a concrete run of one output that pauses, is cancelled and fails to pause gets ENABLE over the pending CANCEL |
| `OutputTraces.DisturbedOutputIsReachable` | src/PlayerThread.cxx:973-981 | a concrete run in which the outputs are opened with another format while one plays a chunk fails the assertion of audio_output_all_open() and then one of ao_play() |
| `OutputTraces.MixedFormatsAreReachable` | src/PlayerThread.cxx:958-961 | a concrete run in which the only output fails and the outputs are opened with another format fails the assertion of audio_output_all_open() with all outputs closed |
| `OutputSafety.OutputStepKeeps` | src/OutputThread.cxx:581-679 | every step of an output thread keeps what the invariant says about that output, and fails no assertion but those about a null pipe and about CLOSE of a closed output |
| `OutputSafety.PlayerStepKeeps` | src/OutputAll.cxx:254-557 | every step of the player thread that disturbs no output keeps the invariant |
| `Queues.IdTable.GenerateId` | src/IdTable.hxx:54-68 | terminates with an id that is not in use, whenever there is one |
| `Queues.IdTable.Insert` | src/IdTable.hxx:70-74 | the new id maps to the position, all others are unchanged |
| `Queues.Queue.constructor` | src/Queue.cxx:26-37 | the queue is empty and valid |
| `Queues.Queue.GetNextOrder` | src/Queue.cxx:48-61 | the next slot is within the queue or -1, and is the same slot only when repeating one song |
| `Queues.Queue.IdToPosition` | src/Queue.hxx:153-155 | finds the position of an id exactly if some song has it |
| `Queues.Queue.PositionToOrder` | src/Queue.hxx:172-180 | finds the one slot that plays the position |
| `Queues.Queue.IncrementVersion` | src/Queue.cxx:64-77 | counts up, and on the last number starts over with every stamp zero |
| `Queues.Queue.ModifyAtOrder` | src/Queue.cxx:79-85 | stamps the song at the slot and nothing else |
| `Queues.Queue.Append` | src/Queue.cxx:88-105 | the song comes last with a new id in positions, play order and id table; everything else is unchanged |
| `Queues.Queue.SwapPositions` | src/Queue.cxx:107-120 | exactly two positions change places; ids follow |
| `Queues.Queue.MovePosition` | src/Queue.cxx:122-156 | the in-place loop equals cutting one song out and inserting it at the target, the same as MoveRange of one song; in random mode the order is renumbered |
| `Queues.Queue.MoveRange` | src/Queue.cxx:158-198 | the in-place loops equal cutting the block out and inserting it at the target; in random mode the order is renumbered, else unchanged |
| `Queues.Queue.MoveOrder` | src/Queue.cxx:200-217 | one slot is cut out of the play order and inserted at the target |
| `Queues.Queue.DeletePosition` | src/Queue.cxx:219-254 | the song leaves positions, play order and id table; later songs move up with their ids |
| `Queues.Queue.Clear` | src/Queue.cxx:256-268 | the queue is empty and valid |
| `Queues.Queue.RestoreOrder` | src/Queue.hxx:308-311 | the play order is the identity |
| `Queues.Queue.SortOrderByPriority` | src/Queue.cxx:272-288 | the range of the play order is sorted by falling priority, with the same songs |
| `Queues.Queue.ShuffleOrderRange` | src/Queue.cxx:290-299 | for every random choice the range holds the same songs, the rest is unchanged |
| `Queues.Queue.ShuffleOrderRangeWithPriority` | src/Queue.cxx:305-337 | for every random choice the range holds the same songs and its priorities do not increase |
| `Queues.Queue.ShuffleOrder` | src/Queue.cxx:339-343 | for every random choice the order plays the same songs with priorities that do not increase |
| `Queues.Queue.ShuffleOrderFirst` | src/Queue.cxx:345-352 | the first slot of the range is swapped with some slot of it |
| `Queues.Queue.ShuffleOrderLast` | src/Queue.cxx:354-361 | the last slot of the range is swapped with some slot of it |
| `Queues.Queue.ShuffleRange` | src/Queue.cxx:363-377 | for every random choice the positions of the range are permuted, ids follow, what moved is stamped |
| `Queues.Queue.FindPriorityOrder` | src/Queue.cxx:379-394 | the first slot from the start on with a priority no higher, other than the excluded one |
| `Queues.Queue.CountSamePriority` | src/Queue.cxx:396-410 | the length of the run of slots with that priority |
| `Queues.Queue.SetPriority` | src/Queue.cxx:412-468 | the song gets the priority, and its slot moves to where PlayOrder.PriorityStep says, for every random choice |
| `Queues.Queue.SetPriorityRange` | src/Queue.cxx:470-490 | all songs of the range get the priority, all else keeps its own; reports whether one had another; if the order behind the given slot did not increase in priority it still does not behind the slot where that song is now |
| `PlayOrder.PriorityStepKeepsOrder` | src/Queue.cxx:412-468 | one change of a priority keeps the rest of the play order non-increasing, relative to the new slot of the current song |
| `PlayOrder.PriorityStepPermutes` | src/Queue.cxx:412-468 | one change of a priority only permutes the play order |
| `PlayOrder.SortShuffles` | src/Queue.cxx:272-288 | sorting keeps the songs of the range and leaves the rest |
| `PlayOrder.SortIsSorted` | src/Queue.cxx:272-288 | sorted priorities do not increase |
| `Permutations.CutInsertBack` | src/Queue.cxx:158-198 | moving the block back to where it was restores the sequence |
| `QueueItems.MovedItemAt` | src/Queue.cxx:158-198 | after a block move every song is found at its new position with its id |
| `QueueItems.MoveKeepsSlots` | src/Queue.cxx:186-197 | in random mode every slot plays the same song before and after a block move |
| `QueueItems.MoveKeepsItems` | src/Queue.cxx:158-198 | a block move keeps ids unique and the id table their inverse |
| `QueueItems.DeleteKeepsSlots` | src/Queue.cxx:219-254 | every other slot plays the same song before and after a deletion |
| `QueueItems.DeleteKeepsItems` | src/Queue.cxx:219-254 | a deletion keeps ids unique and the id table their inverse |
| `QueueItems.EditsAreStamped` | src/Queue.cxx:88-254 | every position whose song, id or priority an edit changes carries the current version stamp |
| `QueueItems.TableUniqueIds` | src/IdTable.hxx:48-90 | a table that is the inverse of the items means that their ids are unique |
| `QueueVersions.PrintChanges` | src/QueuePrint.cxx:77-95 | prints exactly the positions newer than the version, and leaves the queue unchanged |
| `QueueVersions.RunCovers` | src/Queue.cxx:64-85 | over any run without a wrap, every position that differs from an earlier version carries a stamp of that version or later |
| `QueueVersions.RefreshRebuilds` | src/QueuePrint.cxx:77-95 | patching the printed positions into the view of an old version, and cutting it to the new length, gives the current queue, for any run without a wrap |
| `QueueVersions.RefreshAfterWrap` | src/Queue.cxx:64-77 | for the versions 0 and 1, and for one the counter has not reached again, everything is printed, so the rebuilt view is right whatever wrapped |
| `QueueVersions.WrapCanHideAChange` | src/Queue.cxx:64-77 | for all versions 1 < v <= w a run from v over a wrap to w after which a client that kept version v misses a change |
| `QueueVersions.RefreshIsRightIff` | src/QueuePrint.cxx:77-95 | for every run from version v over a wrap to version w the rebuilt view is right exactly if v is 0 or 1 or above w |
| `Playlists.Playlist.constructor` | src/Playlist.hxx:83-87 | a new playlist is valid and stopped |
| `Playlists.Playlist.OnModified` | src/PlaylistEdit.cxx:40-52 | keeps every song where it is, and counts the version up, or notes the change during a bulk edit |
| `Playlists.Playlist.GetQueuedSong` | src/Playlist.cxx:92-98 | the song at the queued slot while playing, else none |
| `Playlists.Playlist.UpdateQueuedSong` | src/Playlist.cxx:100-150 | both assertions hold; the current song stays the same, the slot after it is queued, and the song there is the one last handed to the player |
| `Playlists.Playlist.PlayOrder` | src/Playlist.cxx:152-168 | tells the player to play the song of that slot, with nothing queued |
| `Playlists.Playlist.AppendSong` | src/PlaylistEdit.cxx:107-140 | appends unless the queue is full; the current song changes exactly if the new song is swapped into its slot; the next song is queued and the change announced |
| `Playlists.AppendKeepsCurrentIff` | src/PlaylistEdit.cxx:107-140 | the current song is kept for every random choice exactly if no song before it is queued in random mode |
| `Playlists.QueuedBeforeCurrent` | src/Playlist.cxx:117-121 | a playing playlist in random mode gets to have a song queued before the current one |
| `Playlists.Playlist.SwapPositions` | src/PlaylistEdit.cxx:171-200 | swaps two songs, keeps the current song, queues the next, announces the change; errors for bad positions |
| `Playlists.Playlist.SetPriorityRange` | src/PlaylistEdit.cxx:214-246 | sets exactly the priorities of the range, keeps the current song, queues the next, announces the change |
| `Playlists.Playlist.DeleteInternal` | src/PlaylistEdit.cxx:261-303 | deletes one song; another current song is kept; the one being played is followed by the next one, which the player is told to play, unless it is paused |
| `Playlists.Playlist.DeletePosition` | src/PlaylistEdit.cxx:305-319 | the same as an operation of its own, with the error for a bad position, the next song queued and the change announced |
| `Playlists.Playlist.DeleteRange` | src/PlaylistEdit.cxx:321-343 | exactly the range is cut out; a current song outside it is kept; after the deletion of the song being played the player has been told to play the new current song, or to stop |
| `Playlists.Playlist.MoveRange` | src/PlaylistEdit.cxx:363-414 | error results and target position in every case; the block is moved there; the current song is kept in random mode, and outside it exactly if the move does not miss it; the player is told nothing |
| `Playlists.MoveKeepsCurrentIff` | src/PlaylistEdit.cxx:391-410 | outside random mode the adjusted cursor plays the same song exactly if the block does not move over a current song behind it |
| `Playlists.MoveLosesCurrentSong` | src/PlaylistEdit.cxx:400-408 | while the last of five songs is played the first two are moved before the end: the current song is then not the one the player was told to play |
| `Playlists.BlockMayNotFit` | src/PlaylistEdit.cxx:384-398 | a block of three songs, moved to behind the current fourth of five songs, does not fit |
| `Playlists.Playlist.Shuffle` | src/PlaylistEdit.cxx:426-463 | for every random choice the positions of the range are permuted, all others stay, and the current song is kept |
| `Playlists.Playlist.SetConsume` | src/Playlist.cxx:280-288 | sets the flag and keeps the playlist valid |
| `Playlists.Playlist.BeginBulk` | src/PlaylistEdit.cxx:65-72 | a bulk edit without modifications so far, everything else unchanged |
| `Playlists.Playlist.CommitBulk` | src/PlaylistEdit.cxx:74-92 | no song moves and the current song is kept |
| `Playlists.Playlist.SetRepeat` | src/Playlist.cxx:236-251 | sets the flag, keeps the current song, queues the next by the new rule |
| `Playlists.Playlist.SetSingle` | src/Playlist.cxx:263-278 | sets the flag, keeps the current song, queues the next by the new rule |
| `Playlists.Playlist.SetRandom` | src/Playlist.cxx:290-325 | keeps the current song for every random choice, both switching on and off, and queues the next |
| `Playlists.Playlist.Stop` | src/PlaylistControl.cxx:32-57 | stopped, and so is the player; the song at the cursor stays the same |
| `Playlists.Playlist.Clear` | src/PlaylistEdit.cxx:54-63 | stopped with an empty queue |
| `Playlists.Playlist.PlayPosition` | src/PlaylistControl.cxx:59-107 | tells the player to play the song at the position, or reports that there is none; without a position the current song is kept |
| `Playlists.Playlist.PlayNext` | src/PlaylistControl.cxx:122-166 | tells the player to play the next slot's song, or stops behind the last one; in consume mode exactly one song is deleted |
| `Playlists.Playlist.PlayPrevious` | src/PlaylistControl.cxx:168-190 | the slot before, the last one when repeating, or the same one |
| `Playlists.Playlist.SeekSongOrder` | src/PlaylistControl.cxx:192-224 | tells the player to seek in the song of that slot, and queues the next |
| `Playlists.Playlist.SeekSongPosition` | src/PlaylistControl.cxx:226-237 | plays that position, or reports that there is none |
| `Playlists.Playlist.SongStarted` | src/Playlist.cxx:73-90 | the queued song is the current one |
| `Playlists.Playlist.ResumePlayback` | src/Playlist.cxx:213-234 | stops after an output error, an error while seeking, or as many errors as there are songs; else goes on with the next song, or stops behind the last one |
| `Playlists.Playlist.SyncWithPlayer` | src/Playlist.cxx:173-207 | keeps the playlist valid whatever the player has done meanwhile |
| `MusicPipes.MusicChunk.Write` | src/MusicChunk.cxx:42-67 | as many whole frames as fit behind the payload, none exactly if there is no room for one |
| `MusicPipes.MusicChunk.Expand` | src/MusicChunk.cxx:69-80 | full exactly if no further frame fits |
| `MusicPipes.MusicBuffer.Allocate` | src/MusicBuffer.cxx:33-38 | an empty chunk that was not in use, or none exactly if all are in use |
| `MusicPipes.MusicBuffer.Return` | src/MusicBuffer.cxx:40-53 | frees the chunk, after the one attached to it |
| `MusicPipes.MusicPipe.Push` | src/MusicPipe.cxx:84-106 | the linked list holds the old sequence and the chunk behind it |
| `MusicPipes.MusicPipe.Shift` | src/MusicPipe.cxx:41-73 | removes and returns the first of the sequence; head, tail, size and links agree with the rest, and the assertions hold |
| `MusicPipes.MusicPipe.Clear` | src/MusicPipe.cxx:75-82 | terminates; all chunks go back to the buffer in order, each after the one attached to it |
| `MusicPipes.MusicPipe.Contains` | src/MusicPipe.cxx:27-37 | true exactly if the chunk is in the sequence |
| `MusicPipes.MusicPipe.Peek` | src/MusicPipe.hxx:98-100 | the first of the sequence, or none |
| `DecoderData.Decoder.FlushChunk` | src/DecoderInternal.cxx:82-103 | the byte stream is unchanged; a chunk with data or a tag goes to the end of the pipe, an empty one back to the buffer |
| `DecoderData.Decoder.GetChunk` | src/DecoderInternal.cxx:53-80 | a chunk, or none only with a command pending; the byte stream is unchanged |
| `DecoderData.Decoder.Initialized` | src/DecoderAPI.cxx:40-76 | decoding has begun, the byte stream is unchanged |
| `DecoderData.Decoder.PrepareInitialSeek` | src/DecoderAPI.cxx:82-122 | when a seek to the start of the song is to be done first, and that it is begun at most once |
| `DecoderData.Decoder.GetVirtualCommand` | src/DecoderAPI.cxx:129-140 | the virtual SEEK overrides the command |
| `DecoderData.Decoder.SendTag` | src/DecoderAPI.cxx:342-363 | the tag goes to a chunk without data, the byte stream is unchanged |
| `DecoderData.Decoder.Append` | src/DecoderAPI.cxx:455-488 | the stream grows by whole frames, none exactly if the chunk was full |
| `DecoderData.Decoder.Data` | src/DecoderAPI.cxx:388-498 | terminates; the stream grows by a frame-aligned prefix of the converted data, by all of it when no command is returned; every chunk holds whole frames within its capacity, and the assertions of the flush hold |
| `DecoderData.Decoder.SeekWhere` | src/DecoderAPI.cxx:193-207 | seeking is only noted outside the initial seek |
| `DecoderData.Decoder.CommandFinished` | src/DecoderAPI.cxx:148-191 | a finished seek gives back the chunk being filled and everything in the pipe, and the stream starts over; otherwise the stream is unchanged |
| `DecoderData.Decoder.SeekError` | src/DecoderAPI.cxx:209-228 | the stream is unchanged and the command finished |
| `ChunkConservation.RunKeeps` | src/PlayerThread.cxx:914-1103 | one inductive invariant holds after every interleaving of the decoder and the player thread |
| `ChunkConservation.ChunksAreConserved` | src/PlayerThread.cxx:748-861 | after every run each chunk is in exactly one place: free, attached, being filled, in one of the three pipes or in one local variable; what is attached has nothing attached; no assertion about chunks and pipes has failed |
| `ChunkConservation.NoEmptyChunkInPipes` | src/MusicPipe.cxx:84-95 | no chunk in a pipe is empty |
| `ChunkConservation.CloseFreesAll` | src/OutputAll.cxx:536-557 | whenever no song is being played, closing the outputs leaves every chunk free |
| `ChunkConservation.DecoderStepKeeps` | src/DecoderThread.cxx:339-449 | every step of the decoder thread keeps the invariant |
| `ChunkConservation.PlayerStepKeeps` | src/PlayerThread.cxx:914-1103 | every step of the player thread keeps the invariant |
| `ChunkConservation.FlushKeeps` | src/DecoderInternal.cxx:82-103 | flushing moves the chunk to the pipe or to the free ones |
| `ChunkConservation.DiscardKeeps` | src/DecoderAPI.cxx:173-186 | discarding after a seek moves all chunks to the free ones |
| `ChunkConservation.ReturnMoves` | src/MusicBuffer.cxx:40-53 | returning moves the chunk and what is attached to it, and only those, to the free ones |
| `ChunkConservation.ClearMoves` | src/MusicPipe.cxx:75-82 | clearing moves all chunks of the pipe and what is attached to them to the free ones |
| `ChunkConservation.AttachKeeps` | src/PlayerThread.cxx:772-804 | attaching a chunk of the next song keeps chains at depth one |
| `ChunkConservation.AfterStopKeeps` | src/PlayerThread.cxx:303-318 | what follows stopping the decoder: continuing, restarting it, or the end of the run, with pipes deleted only when empty |
| `ChunkConservation.SwapPipesStep` | src/PlayerThread.cxx:881-891 | at the song border the pipe that is replaced is empty, and the decoder's pipe becomes the player's |
| `ChunkConservation.SeekSameSongKeeps` | src/PlayerThread.cxx:541-551 | exchanging the pipe when the next song is the same file frees the old pipe's chunks |
| `ChunkConservation.PlayKeeps` | src/PlayerThread.cxx:717-746 | a chunk that is played goes to the outputs' pipe, a refused one back to the buffer |
| `ChunkConservation.SendSilenceKeeps` | src/PlayerThread.cxx:482-515 | a chunk of silence is taken from the free ones |
| `Uris.ChildComponents` | src/util/UriUtil.cxx:128-147 | comparing characters decides exactly whether the components of one URI are a prefix of the other's |
| `SongTree.ChildComponents` | src/Directory.cxx:123-146 | the path given to a new child has the parent's components and the name, and its base name is the name |
| `SongTree.FindChild` | src/Directory.cxx:148-159 | the first child with the name, none exactly if there is none |
| `SongTree.FindSong` | src/Directory.cxx:229-244 | the first song with the name, none exactly if there is none |
| `SongTree.LookupDirectory` | src/Directory.cxx:175-207 | cutting the URI at its slashes follows its components down the tree, for every tree; an empty one before a slash leads nowhere |
| `SongTree.LookupSong` | src/Directory.cxx:246-274 | the song with the last component, in the directory the text before the last slash stands for |
| `SongTree.DirectoryAtDescends` | src/Directory.cxx:175-207 | in a well-named tree the directory looked up is the one its components lead to |
| `SongTree.DescendWellNamed` | src/Directory.cxx:175-207 | the directory found has exactly the components that were looked up |
| `DatabaseQuery.MatchTag` | src/SongFilter.cxx:103-139 | the loops decide whether an item matches, or is missing and an empty value or an artist stands in for it |
| `DatabaseQuery.MatchItem` | src/SongFilter.cxx:141-155 | the three kinds of items are decided by URI, base and tag |
| `DatabaseQuery.MatchSong` | src/SongFilter.cxx:199-207 | true exactly if every item matches |
| `DatabaseQuery.GetBase` | src/SongFilter.cxx:219-227 | the value of the first base item |
| `DatabaseQuery.Walk` | src/Directory.cxx:298-334 | the visitor is given the matching songs in order until it refuses one, and the result says whether it did |
| `DatabaseQuery.NewSelection` | src/DatabaseSelection.cxx:23-31 | the base replaces an empty URI |
| `DatabaseQuery.Visit` | src/db/SimpleDatabasePlugin.cxx:233-262 | the visitor is given the matching songs below the URI, or the song it stands for; not found exactly if it stands for neither |
| `QueryRewrite.OnlyBelowBase` | src/Directory.cxx:298-334 | the songs a walk finds are those found where the base leads to |
| `QueryRewrite.SelectedIsFound` | src/db/SimpleDatabasePlugin.cxx:242-253 | looking the base up, as a directory and then as a song, finds what its components lead to, with all cases of slashes |
| `QueryRewrite.QueryKeepsMeaning` | src/DatabaseSelection.cxx:23-31 | for every well-named tree and every filter the songs selected at the base are those selected from the root; nothing found there means there are none |
| `QueryRewrite.Query` | src/db/SimpleDatabasePlugin.cxx:233-262 | a whole query visits the songs of a filtered walk from the root and ends the same way, for every visitor |
| `QueryRewrite.ClashLosesSong` | src/db/SimpleDatabasePlugin.cxx:242-253 | a concrete tree, with a song named like the directory beside it, for which the query at the base loses the song: the restriction on names is needed |
| `Numbers.ParseOfPrintNat` | src/SongSave.cxx:93-97 | a printed number is parsed back, up to the first character that is no digit |
| `TextLines.LinesOfText` | src/TextFile.cxx:42-77 | printed lines are read back, whatever text follows |
| `TextLines.TextFile.ReadLine` | src/TextFile.cxx:42-77 | the next line without its line end, or none at the end |
| `DatabaseSave.SaveTag` | src/TagSave.cxx:25-38 | prints the lines of the tag and nothing else |
| `DatabaseSave.SaveSong` | src/SongSave.cxx:40-55 | prints the lines of the song |
| `DatabaseSave.SavePlaylists` | src/PlaylistDatabase.cxx:33-41 | prints the lines of all playlists in order |
| `DatabaseSave.SaveDirectory` | src/DirectorySave.cxx:43-71 | prints children, songs and playlists in this order between its own lines |
| `DatabaseLoad.TagNameParse` | src/tag/Tag.cxx:31-44 | the first tag type with that name |
| `DatabaseLoad.LoadSong` | src/SongSave.cxx:57-111 | the loop loads what the lines mean, and stops behind the end line |
| `DatabaseLoad.LoadPlaylist` | src/PlaylistDatabase.cxx:43-75 | the same for a playlist, which replaces one of the same name |
| `DatabaseLoad.LoadDirectory` | src/DirectorySave.cxx:121-171 | the same for the entries of a directory |
| `DatabaseLoad.LoadSubdirectory` | src/DirectorySave.cxx:73-119 | the same for a child, with the errors for duplicates and malformed lines |
| `SaveRoundTrip.TagTypeOf` | src/tag/Tag.cxx:31-44 | the name of every tag type is parsed back to the type |
| `SaveRoundTrip.TagLoads` | src/SongSave.cxx:84-89 | the lines of a tag rebuild it |
| `SaveRoundTrip.RangeLoads` | src/SongSave.cxx:92-97 | the line of a range, closed or open, rebuilds it |
| `SaveRoundTrip.SongLoads` | src/SongSave.cxx:57-111 | the lines of a song rebuild it, and loading stops behind them |
| `SaveRoundTrip.PlaylistLoads` | src/PlaylistDatabase.cxx:43-75 | the lines of a playlist rebuild it, and loading stops behind them |
| `SaveRoundTrip.InsertNew` | src/PlaylistVector.cxx:39-54 | a playlist with a new name is added behind the others |
| `SaveRoundTrip.EntriesLoad` | src/DirectorySave.cxx:121-171 | the entries of a directory of any depth are added in order |
| `SaveRoundTrip.ChildLoads` | src/DirectorySave.cxx:73-119 | the lines of a child directory, followed by any lines, rebuild it and leave exactly those lines |
| `SaveRoundTrip.ChildTextLoads` | src/DirectorySave.cxx:43-171 | the same for the text of the file |
| `SaveRoundTrip.RootTextLoads` | src/DirectorySave.cxx:43-171 | loading the text printed for the whole tree rebuilds the tree |
| `IcyTag.FindEndQuote` | src/IcyMetaDataParser.cxx:98-116 | the first quote that ends a value, else the first quote, else the end |
| `IcyTag.AddItem` | src/IcyMetaDataParser.cxx:68-91 | a title without the quotes around it; nothing for other names and empty titles |
| `IcyTag.ParseTag` | src/IcyMetaDataParser.cxx:118-165 | the in-place parser, which overwrites separators, finds the names and values the block holds |
| `IcyTag.MetadataString` | src/IcyMetaDataServer.cxx:58-84 | the text with its length in units of 16 bytes before it and a NUL behind it, or nothing if it is too long |
| `IcyTag.TitleIsParsed` | src/IcyMetaDataServer.cxx:58-84 | what is parsed from the printed block is the title without single quotes around it |
| `IcyTag.TitleComesBackIff` | src/IcyMetaDataParser.cxx:68-165 | a NUL-free title without the end mark comes back exactly if it is not empty and not wrapped in single quotes |
| `IcySplitter.FeedConcat` | src/IcyMetaDataParser.cxx:167-223 | it does not matter where the stream is cut |
| `IcySplitter.FeedIsParse` | src/IcyMetaDataParser.cxx:48-223 | byte-wise splitting delivers the audio data, the blocks and the state of parsing the whole stream block by block |
| `IcySplitter.IcyMetaDataParser.Begin` | src/IcyMetaDataParser.hxx:45-49 | the state at the start of a stream |
| `IcySplitter.IcyMetaDataParser.Data` | src/IcyMetaDataParser.cxx:48-66 | how many bytes are audio data, and the new state |
| `IcySplitter.IcyMetaDataParser.Meta` | src/IcyMetaDataParser.cxx:167-223 | uses at least one byte; the state is that of feeding exactly the bytes used; a finished block is parsed |
| `IcySplitter.IcyMetaDataParser.ReadTag` | src/IcyMetaDataParser.hxx:78-82 | hands out the tag once, without disturbing the splitter |
| `IcyInput.Input.ReadFromBuffer` | src/input/CurlInputPlugin.cxx:723-771 | terminates; uses exactly the bytes asked for or available, and drops a buffer exactly when it is used up |
| `IcyInput.Input.CutsDoNotMatter` | src/input/CurlInputPlugin.cxx:723-771 | after any reads of any sizes what was delivered is the audio data of the whole stream parsed at once |
| `Compressors.NewGainOk` | src/AudioCompress/compress.c:132-153 | the new gain is within its limits, is not above the smooth one, and does not bring the peak above the largest sample |
| `Compressors.LimitedGainIsLargest` | src/AudioCompress/compress.c:147-153 | a limited gain is lowered only as far as needed |
| `Compressors.GainBetween` | src/AudioCompress/compress.c:162-187 | the ramped gain is between the old and the new gain at every sample |
| `Compressors.NoClipping` | src/AudioCompress/compress.c:147-181 | with the new gain no sample up to the peak is clipped |
| `Compressors.UnclippedBehindRamp` | src/AudioCompress/compress.c:166-188 | every sample behind index `ramp` comes out unclipped |
| `Compressors.Compressor.constructor` | src/AudioCompress/compress.c:33-85 | an all-zero history of the given or the default length |
| `Compressors.Compressor.FindPeak` | src/AudioCompress/compress.c:108-120 | the largest amplitude and its first position |
| `Compressors.Compressor.FindTotal` | src/AudioCompress/compress.c:123-130 | the largest of the history; at the beginning if it is not the block's own |
| `Compressors.Compressor.ComputeGain` | src/AudioCompress/compress.c:132-153 | the new gain, with every intermediate value in 32 bits |
| `Compressors.Compressor.Amplify` | src/AudioCompress/compress.c:155-188 | every sample is amplified by the ramped gain and clamped, and the clipped amounts are added up; gains, products and samples fit in 32 bits |
| `Compressors.Compressor.ProcessInt16` | src/AudioCompress/compress.c:92-191 | the history, the gain and all samples of a block, and that the state keeps its bounds over any run of blocks |

## Left out

- OutputProtocol: the KILL command, replay gain, the always_on path of audio_output_release(), device re-open timers beyond "may be opened now or not", and liveness of the condition variables are not modelled.
- OutputTheorems.OpenOutputsStayInPipe: says nothing about what an output does after it was disturbed; the formats of the chunks themselves are not modelled.
- OutputFailures.CommandsAreNotLost: its converse is that the next command sent to the output is sent over the pending one; whether the player sends one before the output thread has its turn is up to the scheduler.
- ChunkProtocol: the player only sends chunks while the outputs' pipe exists, here and in OutputProtocol; that it is open then depends on pause and output flags, which are not modelled. Song and tag ownership, cross-fade amounts and time stamps are left out.
- ChunkConservation.CloseFreesAll: states that all chunks are free in every state between two songs, not that such a state is eventually reached.
- MusicPipes.MusicBuffer: which memory slice a chunk occupies (SliceBuffer) is not modelled; an allocated chunk is a new object.
- DecoderData.Decoder.Data: time stamps, bit rate and the PCM conversion itself are left out; the converted data is an argument and has whole frames. A waiting decoder is woken up finitely often before it gets a chunk or a command.
- Queues.Queue: songs are objects with a URI; their tags are left out.
- Queues.Queue.SetPriority: uses unbounded numbers for positions, which the maximum queue length bounds in the source.
- Playlists.Playlist: the player hands over and returns songs without the full command handshake; wrappers that look up an id first, DeleteSong(), TagModified(), AppendURI() and SeekCurrent() are left out. Seeking always succeeds, as PlayerControl::Seek() does.
- Playlists.Playlist.MoveRange: requires a non-empty block, and one that fits where a negative target moves it to, which the source does not test; a single song always fits, a longer block may not (Playlists.BlockMayNotFit).
- Playlists.Playlist.DeleteRange: does not name the song that follows when the one being played is in the range, only that playlist and player agree on it.
- Playlists.Playlist.PlayNext: does not say which song consume mode deletes after a reshuffle; the slot number is kept, not the song.
- Playlists.Playlist.SyncWithPlayer: what the player has done meanwhile is arbitrary, so only the invariant is stated.
- PlayOrder: appending in random mode ignores priorities (ShuffleOrderLast()), so no order is claimed across AppendSong().
- SongTree.Directory: is a value; loading returns the new directory instead of linking objects in place, and PruneEmpty(), Sort() and RemoveSong() are left out.
- DatabaseQuery.Walk: only the song visitor is modelled; directory and playlist visitors do not see a filter.
- DatabaseQuery.SongFilter: parsing of filter arguments is left out; case folding is an arbitrary function.
- DatabaseSave.SaveDirectory: requires that no child has the empty path, which only the root has in the source; write errors are left out.
- DatabaseLoad.LoadSong: values are taken over without UTF-8 repair, and strings have no NULs.
- TextLines.TextFile.ReadLine: the limit of 512 KiB for a line is left out, and an empty line is read as such, where the source looks before the start of the buffer.
- SaveRoundTrip.RootTextLoads: the modification time of the root directory is not saved by the source, so it is loaded as zero; a negative duration is loaded as unknown, and a tag without information as no tag.
- IcyTag.ParseTag: requires that the byte behind the block is not a quote. The source reserves that byte for a terminator without writing one; IcySplitter.IcyMetaDataParser.Meta writes a NUL there.
- IcyTag.MetadataString: the page that is sent (Page::Copy() with a length taken from a signed char) is left out; the block has zeros behind the text.
- Compressors.Compressor.ProcessInt16: the sum of clipped amounts is an unbounded number; in the source it can exceed 32 bits. Blocks have fewer than 2^31 samples, and the history length is set once.
- Client commands, sockets, input and decoder plugins, archives, stickers, stored playlists, update walking and configuration are not part of this model.
