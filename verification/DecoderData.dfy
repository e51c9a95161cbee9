/**
 The decoder thread's side of the chunk pipeline: what a plugin decodes is cut into chunks and
 pushed to the pipe, while the player takes chunks from it and sends commands.
 */
module DecoderData {
  import opened Arithmetic
  import opened DecoderCommands
  import opened MusicPipes
  import opened Sequences

  /** What becomes of the data on the way to the output format. */
  datatype Conversion = NotNeeded | Converted(data: seq<byte>) | Failed

  /** The chunk payloads one after the other. */
  ghost function Flatten(payloads: seq<seq<byte>>): seq<byte> {
    if payloads == [] then [] else Flatten(payloads[..|payloads| - 1]) + payloads[|payloads| - 1]
  }

  lemma FlattenPush(payloads: seq<seq<byte>>, payload: seq<byte>)
    ensures Flatten(payloads + [payload]) == Flatten(payloads) + payload
  {
    assert (payloads + [payload])[..|payloads|] == payloads;
  }

  lemma NothingFlattened()
    ensures Flatten([]) == []
  {
  }

  class DecoderControl {
    const pipe: MusicPipe
    const buffer: MusicBuffer
    /** Bytes in one frame of the output format. */
    const frameSize: nat
    /** The end of the song's range is known. */
    const hasEnd: bool
    var command: DecoderCommand
    var decoding: bool
    var seekable: bool
    var seekError: bool
    /** The chunks the player has taken from the pipe. */
    var taken: set<MusicChunk>

    constructor (pipe: MusicPipe, buffer: MusicBuffer, frameSize: nat, hasEnd: bool)
      ensures this.pipe == pipe && this.buffer == buffer && this.frameSize == frameSize && this.hasEnd == hasEnd
      ensures command == Start && !decoding && taken == {}
    {
      this.pipe, this.buffer, this.frameSize, this.hasEnd := pipe, buffer, frameSize, hasEnd;
      command, decoding, seekable, seekError, taken := Start, false, false, false, {};
    }
  }

  /** A chunk of whole frames within the capacity of a chunk, with nothing attached. */
  ghost predicate ChunkOk(c: MusicChunk, frameSize: nat)
    reads c`other, c`length
  {
    && c.other == null && c.data.Length == CHUNK_SIZE
    && PayloadOk(c.length, frameSize)
  }

  predicate PayloadOk(length: nat, frameSize: nat) {
    0 < frameSize && length <= CHUNK_SIZE && length % frameSize == 0
  }

  /** The chunks carry the last of the payloads sent. */
  ghost predicate Carries(chunks: seq<MusicChunk>, sent: seq<seq<byte>>, frameSize: nat)
    reads chunks`other, chunks`length, set c | c in chunks :: c.data
  {
    && |chunks| <= |sent|
    && (forall i :: 0 <= i < |chunks| ==> ChunkOk(chunks[i], frameSize) && chunks[i].Payload() == sent[|sent| - |chunks| + i])
    && (forall p <- sent :: PayloadOk(|p|, frameSize))
  }

  lemma CarriesNothing(frameSize: nat)
    ensures Carries([], [], frameSize)
  {
  }

  lemma CarriesRest(chunks: seq<MusicChunk>, sent: seq<seq<byte>>, frameSize: nat)
    requires Carries(chunks, sent, frameSize) && chunks != []
    ensures Carries(chunks[1..], sent, frameSize)
  {
  }

  lemma CarriesOneMore(chunks: seq<MusicChunk>, sent: seq<seq<byte>>, frameSize: nat, chunk: MusicChunk)
    requires Carries(chunks, sent, frameSize) && ChunkOk(chunk, frameSize)
    ensures Carries(chunks + [chunk], sent + [chunk.Payload()], frameSize)
  {
  }

  class Decoder {
    const dc: DecoderControl
    var chunk: MusicChunk?
    var seeking: bool
    var initialSeekPending: bool
    var initialSeekRunning: bool

    /** The payloads of all chunks pushed since the last seek. */
    ghost var sent: seq<seq<byte>>

    ghost function ChunkRepr(): set<MusicChunk>
      reads this`chunk
    {
      if chunk == null then {} else {chunk}
    }

    ghost function ChunkData(): set<object>
      reads this`chunk
    {
      if chunk == null then {} else {chunk.data}
    }

    ghost function Repr(): set<object>
      reads this, dc.pipe
    {
      {this, dc, dc.pipe, dc.buffer} + Elements(dc.pipe.contents) + ChunkRepr() + ChunkData()
    }

    /** Which chunk is where: every chunk in the pipe, taken, or being filled is live, and in one place only. */
    ghost predicate InPlace()
      reads this`chunk, dc`taken, dc.pipe`contents, dc.buffer`live
    {
      && (forall c <- dc.pipe.contents :: c in dc.buffer.live && c !in dc.taken)
      && dc.taken <= dc.buffer.live
      && (chunk != null ==> chunk in dc.buffer.live && chunk !in dc.taken && chunk !in dc.pipe.contents)
    }

    ghost predicate FillingOk()
      reads this`chunk, dc.pipe`contents, ChunkRepr()`length, ChunkRepr()`other
    {
      chunk != null ==>
        && ChunkOk(chunk, dc.frameSize)
        && (forall c <- dc.pipe.contents :: c.data != chunk.data)
    }

    ghost predicate SeekOk()
      reads this, dc`command, dc.pipe`contents
    {
      && (seeking ==> dc.command == Seek && !initialSeekRunning)
      && (initialSeekPending || initialSeekRunning ==> chunk == null && dc.pipe.contents == [])
    }

    ghost predicate Valid()
      reads this, dc, dc.pipe, dc.buffer, dc.pipe.contents, set c | c in dc.pipe.contents :: c.data
      reads if chunk == null then {} else {chunk}
    {
      && 0 < dc.frameSize <= CHUNK_SIZE
      && dc.buffer.Valid() && dc.pipe.Valid() && Carries(dc.pipe.contents, sent, dc.frameSize)
      && InPlace() && FillingOk() && SeekOk()
    }

    /** All bytes decoded since the last seek. */
    ghost function Stream(): seq<byte>
      reads this`chunk, this`sent, ChunkRepr()`length, ChunkData()
    {
      Flatten(sent) + Partial()
    }

    /** The payload of the chunk being filled. */
    ghost function Partial(): seq<byte>
      reads this`chunk, this`sent, ChunkRepr()`length, ChunkData()
    {
      if chunk == null || chunk.data.Length < chunk.length then [] else chunk.Payload()
    }

    constructor (dc: DecoderControl, seekToStart: bool)
      requires 0 < dc.frameSize <= CHUNK_SIZE && dc.buffer.Valid() && dc.pipe.Valid() && dc.pipe.contents == [] && dc.taken <= dc.buffer.live
      ensures this.dc == dc && Valid() && Stream() == [] && fresh(Repr() - {dc, dc.pipe, dc.buffer})
      ensures initialSeekPending == seekToStart && !initialSeekRunning && !seeking && chunk == null
    {
      this.dc := dc;
      chunk, seeking, initialSeekPending, initialSeekRunning, sent := null, false, seekToStart, false, [];
    }

    /** The player takes a chunk from the pipe. */
    method PlayerTakes()
      requires Valid()
      modifies dc`taken, dc.pipe, Elements(dc.pipe.contents)`next
      ensures Valid() && Elements(dc.pipe.contents) <= old(Elements(dc.pipe.contents))
    {
      hide Carries, MusicPipe.Valid, MusicBuffer.Valid;
      ghost var before := dc.pipe.contents;
      if before != [] {
        CarriesRest(before, sent, dc.frameSize);
        dc.pipe.HeadOnce();
      }
      var c := dc.pipe.Shift();
      if c != null {
        dc.taken := dc.taken + {c};
      }
    }

    /** The player frees chunks it has taken. */
    method PlayerFrees()
      requires Valid()
      modifies dc`taken, dc.buffer
      ensures Valid() && dc.buffer.live <= old(dc.buffer.live)
    {
      hide Carries, ChunkOk, MusicPipe.Valid, MusicBuffer.Valid;
      var done: set<MusicChunk> := *;
      done := done * dc.taken;
      dc.buffer.FreeAll(done);
      dc.taken := dc.taken - done;
    }

    /** What the player thread may do at any time: take chunks from the pipe, free them, send a command. */
    method PlayerRuns()
      requires Valid()
      modifies dc`command, dc`taken, dc.pipe, Elements(dc.pipe.contents)`next, dc.buffer
      ensures Valid() && Elements(dc.pipe.contents) <= old(Elements(dc.pipe.contents))
      ensures old(dc.command) != NoCommand ==> dc.command == old(dc.command)
      ensures dc.buffer.live <= old(dc.buffer.live)
    {
      hide Carries, ChunkOk, MusicPipe.Valid, MusicBuffer.Valid;
      if dc.command == NoCommand {
        dc.command := *;
      }
      var n: nat := *;
      while n > 0
        invariant Valid() && Elements(dc.pipe.contents) <= old(Elements(dc.pipe.contents))
        invariant dc.buffer.live == old(dc.buffer.live)
        invariant old(dc.command) != NoCommand ==> dc.command == old(dc.command)
      {
        PlayerTakes();
        n := n - 1;
      }
      PlayerFrees();
    }

    method PushChunk()
      requires Valid() && chunk != null && !chunk.IsEmpty()
      requires !initialSeekRunning && !initialSeekPending
      modifies dc.pipe, chunk`next, dc.pipe.Last()`next, this`chunk, this`sent
      ensures Valid() && chunk == null && Stream() == old(Stream())
      ensures dc.pipe.contents == old(dc.pipe.contents) + [old(chunk)]
    {
      hide Carries, MusicPipe.Valid, MusicBuffer.Valid, Flatten;
      ghost var before := dc.pipe.contents;
      CarriesOneMore(before, sent, dc.frameSize, chunk);
      FlattenPush(sent, chunk.Payload());
      dc.pipe.Push(chunk);
      sent := sent + [chunk.Payload()];
      chunk := null;
    }

    /** 1 if there is a chunk without room for another frame. */
    ghost function Full(): nat
      reads this`chunk, ChunkRepr()`length, dc
    {
      if chunk != null && CHUNK_SIZE < chunk.length + dc.frameSize then 1 else 0
    }

    method ReturnChunk()
      requires Valid() && chunk != null
      modifies this`chunk, dc.buffer
      ensures Valid() && chunk == null
      ensures dc.buffer.live == old(dc.buffer.live) - {old(chunk)} && dc.buffer.freed == old(dc.buffer.freed) + [old(chunk)]
    {
      hide Carries, MusicPipe.Valid, MusicBuffer.Valid, PayloadOk;
      dc.buffer.Return(chunk);
      chunk := null;
    }

    /** Push the chunk to the pipe, or give it back if it is empty. */
    method FlushChunk()
      requires Valid() && chunk != null
      requires !seeking && !initialSeekRunning && !initialSeekPending
      modifies this`chunk, this`sent, Repr() - {this, dc}
      ensures Valid() && Repr() <= old(Repr()) && chunk == null && Stream() == old(Stream())
      ensures dc.pipe.contents == old(dc.pipe.contents) + if old(chunk.IsEmpty()) then [] else [old(chunk)]
      ensures old(chunk.IsEmpty()) ==> dc.buffer.live == old(dc.buffer.live) - {old(chunk)}
    {
      hide Carries, MusicPipe.Valid, MusicBuffer.Valid, Flatten, ChunkOk, InPlace, FillingOk;
      if chunk.IsEmpty() {
        ReturnChunk();
      } else {
        PushChunk();
      }
    }

    /** A new chunk to be filled, if the buffer has one. */
    method TryAllocate()
      requires Valid() && chunk == null && !initialSeekRunning && !initialSeekPending
      modifies this`chunk, dc.buffer
      ensures Valid() && Partial() == []
      ensures chunk != null ==> fresh(chunk) && fresh(chunk.data) && chunk.IsEmpty()
    {
      hide Carries, MusicPipe.Valid, MusicBuffer.Valid;
      chunk := dc.buffer.Allocate();
    }

    /** The chunk to be filled; none if the player sends a command instead of freeing one. */
    method GetChunk()
      requires Valid() && !initialSeekRunning && !initialSeekPending && !seeking
      modifies this`chunk, Repr() - {this}
      ensures Valid() && fresh(Repr() - old(Repr()))
      ensures chunk == null ==> dc.command != NoCommand && old(chunk) == null
      ensures old(chunk) != null ==> chunk == old(chunk)
      ensures old(chunk) == null && chunk != null ==> chunk.IsEmpty()
      ensures Stream() == old(Stream()) && Full() == old(Full())
    {
      hide Carries, MusicPipe.Valid, MusicBuffer.Valid, Flatten, InPlace, FillingOk;
      if chunk != null {
        return;
      }
      // the number of times the decoder is woken up in vain: the player does not let it starve
      var wakeups: nat := *;
      while true
        invariant Valid() && chunk == null
        invariant Repr() <= old(Repr())
        decreases wakeups
      {
        TryAllocate();
        if chunk != null {
          return;
        }
        PlayerRuns();
        if dc.command == NoCommand && wakeups == 0 {
          dc.command := Stop;
        }
        if dc.command != NoCommand {
          return;
        }
        wakeups := wakeups - 1;
      }
    }

    // -------------------------------------------------------------------------------------------
    // Called by the decoder plugin
    // -------------------------------------------------------------------------------------------

    method Initialized(seekable: bool)
      requires Valid() && !dc.decoding
      modifies dc`decoding, dc`seekable
      ensures Valid() && dc.decoding && dc.seekable == seekable && Stream() == old(Stream())
    {
      dc.seekable, dc.decoding := seekable, true;
    }

    /** Whether the song is to be played from a place other than its beginning, which takes a seek first. */
    method PrepareInitialSeek() returns (seek: bool)
      requires Valid()
      modifies this`initialSeekPending, this`initialSeekRunning
      ensures Valid() && seek == (dc.decoding && initialSeekRunning)
      ensures dc.decoding ==>
                && !initialSeekPending
                && initialSeekRunning ==
                   old(initialSeekRunning || (initialSeekPending && dc.seekable && dc.command == NoCommand))
      ensures !dc.decoding ==> initialSeekPending == old(initialSeekPending) && initialSeekRunning == old(initialSeekRunning)
    {
      hide Carries, MusicPipe.Valid, MusicBuffer.Valid, InPlace, FillingOk;
      if !dc.decoding {
        return false;
      }
      if initialSeekRunning {
        initialSeekPending := false;
        return true;
      }
      if initialSeekPending {
        if !dc.seekable {
          initialSeekPending := false;
          return false;
        }
        initialSeekPending := false;
        if dc.command == NoCommand {
          initialSeekRunning := true;
          return true;
        }
      }
      return false;
    }

    method GetVirtualCommand() returns (command: DecoderCommand)
      requires Valid()
      modifies this`initialSeekPending, this`initialSeekRunning
      ensures Valid()
      ensures dc.decoding ==> !initialSeekPending && command == if initialSeekRunning then Seek else dc.command
    {
      var seek := PrepareInitialSeek();
      command := if seek then Seek else dc.command;
    }

    /** Put a tag into a chunk of its own. */
    method SendTag() returns (command: DecoderCommand)
      requires Valid() && !initialSeekRunning && !initialSeekPending && !seeking
      modifies this`chunk, this`sent, Repr() - {this}
      ensures Valid() && fresh(Repr() - old(Repr())) && Stream() == old(Stream())
      ensures command == NoCommand ==> chunk != null && chunk.hasTag && chunk.length == 0
    {
      hide Carries, MusicPipe.Valid, MusicBuffer.Valid, Flatten, FillingOk;
      if chunk != null {
        FlushChunk();
      }
      GetChunk();
      if chunk == null {
        return dc.command;
      }
      chunk.hasTag := true;
      command := NoCommand;
    }

    /** Copy as many frames to the chunk as it has room for. */
    method Append(data: seq<byte>) returns (written: nat, full: bool)
      requires Valid() && chunk != null && data != [] && |data| % dc.frameSize == 0
      modifies chunk`length, chunk.data
      ensures Valid() && written <= |data| && written % dc.frameSize == 0
      ensures Stream() == old(Stream()) + data[..written]
      ensures written == 0 <==> old(CHUNK_SIZE < chunk.length + dc.frameSize)
      ensures full <==> written > 0 && CHUNK_SIZE < chunk.length + dc.frameSize
    {
      hide Carries, MusicPipe.Valid, MusicBuffer.Valid, Flatten;
      var dest := chunk.Write(dc.frameSize);
      if dest == Null {
        return 0, false;
      }
      written := if dest.size > |data| then |data| else dest.size;
      SumAligned(chunk.length, written, dc.frameSize);
      Store(data, written);
      full := chunk.Expand(dc.frameSize, written);
      assert chunk.Payload() == old(chunk.Payload()) + data[..written];
    }

    /** Put bytes behind the payload of the chunk; they are not part of it yet. */
    method Store(data: seq<byte>, count: nat)
      requires Valid() && chunk != null && count <= |data| && chunk.length + count <= CHUNK_SIZE
      modifies chunk.data
      ensures Valid() && chunk.data[..chunk.length] == old(chunk.data[..chunk.length])
      ensures chunk.data[chunk.length..chunk.length + count] == data[..count]
    {
      hide MusicPipe.Valid, MusicBuffer.Valid;
      forall i | 0 <= i < count {
        chunk.data[chunk.length + i] := data[i];
      }
    }

    /** Add some of the data to the chunk being filled, or get rid of that chunk if it is full. */
    method WriteFrames(data: seq<byte>) returns (amount: nat, interrupted: bool)
      requires Valid() && !initialSeekRunning && !initialSeekPending && !seeking
      requires data != [] && |data| % dc.frameSize == 0
      modifies this`chunk, this`sent, Repr() - {this}
      ensures Valid() && fresh(Repr() - old(Repr()))
      ensures interrupted ==> dc.command != NoCommand && amount == 0
      ensures amount <= |data| && amount % dc.frameSize == 0 && Stream() == old(Stream()) + data[..amount]
      ensures !interrupted && amount == 0 ==> old(Full()) == 1 && Full() == 0
    {
      hide Carries, MusicPipe.Valid, MusicBuffer.Valid, Flatten, InPlace, FillingOk, Stream;
      GetChunk();
      if chunk == null {
        return 0, true;
      }
      var full;
      amount, full := Append(data);
      interrupted := false;
      if amount == 0 || full {
        FlushChunk();
      }
    }

    /** Add the data to the stream until a command arrives or the song's range ends. */
    method WriteAll(output: seq<byte>) returns (command: DecoderCommand, ghost written: nat)
      requires Valid() && !initialSeekRunning && !initialSeekPending && !seeking
      requires |output| % dc.frameSize == 0
      modifies this`chunk, this`sent, Repr() - {this}
      ensures Valid() && fresh(Repr() - old(Repr()))
      ensures written <= |output| && written % dc.frameSize == 0 && Stream() == old(Stream()) + output[..written]
      ensures command == NoCommand ==> written == |output|
    {
      hide Carries, MusicPipe.Valid, MusicBuffer.Valid, Flatten, InPlace, FillingOk, SeekOk, Stream, Full;
      var done: nat := 0;
      while done < |output|
        invariant Valid() && fresh(Repr() - old(Repr()))
        invariant done <= |output| && done % dc.frameSize == 0
        invariant Stream() == old(Stream()) + output[..done]
        decreases |output| - done, Full()
      {
        var amount, interrupted := WriteNext(output, done, old(Stream()));
        if interrupted {
          return dc.command, done;
        }
        if amount == 0 {
          continue;
        }
        done := done + amount;
        var endReached: bool := *;
        if dc.hasEnd && endReached {
          return Stop, done;
        }
      }
      return NoCommand, done;
    }

    method WriteNext(output: seq<byte>, done: nat, ghost before: seq<byte>) returns (amount: nat, interrupted: bool)
      requires Valid() && !initialSeekRunning && !initialSeekPending && !seeking
      requires done < |output| && |output| % dc.frameSize == 0 && done % dc.frameSize == 0
      requires Stream() == before + output[..done]
      modifies this`chunk, this`sent, Repr() - {this}
      ensures Valid() && fresh(Repr() - old(Repr()))
      ensures interrupted ==> dc.command != NoCommand && amount == 0
      ensures done + amount <= |output| && (done + amount) % dc.frameSize == 0
      ensures Stream() == before + output[..done + amount]
      ensures !interrupted && amount == 0 ==> old(Full()) == 1 && Full() == 0
    {
      hide Carries, MusicPipe.Valid, MusicBuffer.Valid, Flatten, InPlace, FillingOk, SeekOk, Stream, Full;
      SumAligned(done, |output| - done, dc.frameSize);
      amount, interrupted := WriteFrames(output[done..]);
      SumAligned(done, amount, dc.frameSize);
      assert output[..done] + output[done..][..amount] == output[..done + amount];
    }

    /** The command that is pending when the data arrives. */
    method BeforeData() returns (command: DecoderCommand)
      requires Valid() && dc.decoding
      modifies this`initialSeekPending, this`initialSeekRunning
      modifies dc`command, dc`taken, dc.pipe, Elements(dc.pipe.contents)`next, dc.buffer
      ensures Valid() && Repr() <= old(Repr()) && Stream() == old(Stream())
      ensures command != Stop && command != Seek ==> !initialSeekRunning && !initialSeekPending && !seeking
    {
      hide Carries, MusicPipe.Valid, MusicBuffer.Valid, Flatten, InPlace, FillingOk;
      PlayerRuns();
      command := GetVirtualCommand();
    }

    /**
     Take decoded data.  `written` bytes of it, in the output format, are added to the stream: all
     of them unless a command arrives, the conversion fails, or the song's range ends.
     */
    method Data(data: seq<byte>, conversion: Conversion, newStreamTag: bool) returns (command: DecoderCommand, ghost written: nat)
      requires Valid() && dc.decoding
      requires |Output(data, conversion)| % dc.frameSize == 0
      modifies Repr()
      ensures Valid() && fresh(Repr() - old(Repr()))
      ensures var output := Output(data, conversion);
              && written <= |output| && written % dc.frameSize == 0
              && Stream() == old(Stream()) + output[..written]
              && (command == NoCommand ==> written == |output|)
    {
      hide Carries, MusicPipe.Valid, MusicBuffer.Valid, Flatten, InPlace, FillingOk, Stream, Full;
      written := 0;
      assert Output(data, conversion)[..0] == [];
      Nothing(Stream());
      command := BeforeData();
      if command == Stop || command == Seek || data == [] {
        return;
      }
      if newStreamTag {
        command := SendTag();
        if command != NoCommand {
          return;
        }
      }
      if conversion == Failed {
        return Stop, 0;
      }
      command, written := WriteAll(Output(data, conversion));
    }

    // -------------------------------------------------------------------------------------------
    // Seeking
    // -------------------------------------------------------------------------------------------

    /** The plugin learns where to seek to. */
    method SeekWhere()
      requires Valid() && (initialSeekRunning || dc.command == Seek)
      modifies this`seeking
      ensures Valid() && seeking == (!initialSeekRunning || old(seeking))
    {
      hide Carries, MusicPipe.Valid, MusicBuffer.Valid, InPlace, FillingOk;
      if !initialSeekRunning {
        seeking := true;
      }
    }

    /** All that was decoded before a seek is given back to the buffer. */
    method DiscardStream()
      requires Valid()
      modifies this`chunk, this`sent, dc.pipe, dc.pipe.contents`next, dc.buffer
      ensures Valid() && chunk == null && dc.pipe.contents == [] && sent == []
      ensures dc.buffer.freed == old(dc.buffer.freed) + old(if chunk != null then [chunk] else []) + old(dc.pipe.contents)
      ensures dc.buffer.live == old(dc.buffer.live) - old(ChunkRepr()) - old(Elements(dc.pipe.contents))
    {
      hide Carries, MusicPipe.Valid, MusicBuffer.Valid, Flatten, InPlace, FillingOk;
      if chunk != null {
        ReturnChunk();
      }
      DiscardPipe();
    }

    method DiscardPipe()
      requires Valid() && chunk == null
      modifies this`sent, dc.pipe, dc.pipe.contents`next, dc.buffer
      ensures Valid() && dc.pipe.contents == [] && sent == []
      ensures dc.buffer.freed == old(dc.buffer.freed) + old(dc.pipe.contents)
      ensures dc.buffer.live == old(dc.buffer.live) - old(Elements(dc.pipe.contents))
    {
      hide Carries, MusicPipe.Valid, MusicBuffer.Valid, Flatten, WithOthers, Owned;
      PipeOwned();
      CarriesNothing(dc.frameSize);
      dc.pipe.Clear(dc.buffer);
      sent := [];
    }

    lemma PipeOwned()
      requires Valid()
      ensures Owned(dc.pipe.contents, dc.buffer.live) && WithOthers(dc.pipe.contents) == dc.pipe.contents
    {
      NothingToMix(dc.pipe.contents, dc.buffer.live);
    }

    method CommandFinished()
      requires Valid() && (dc.command != NoCommand || initialSeekRunning)
      requires dc.command == Seek ==> initialSeekRunning || dc.seekError || seeking
      modifies this, dc`command, dc.pipe, dc.pipe.contents`next, dc.buffer
      ensures Valid() && !initialSeekRunning && seeking == (seeking && old(initialSeekRunning))
      ensures dc.command == if old(initialSeekRunning) then old(dc.command) else NoCommand
      ensures !old(initialSeekRunning) && old(seeking) ==>
                && chunk == null && dc.pipe.contents == [] && Stream() == []
                && dc.buffer.live == old(dc.buffer.live) - old(ChunkRepr()) - old(Elements(dc.pipe.contents))
      ensures old(initialSeekRunning) || !old(seeking) ==> Stream() == old(Stream()) && dc.buffer.live == old(dc.buffer.live)
    {
      hide Carries, MusicPipe.Valid, MusicBuffer.Valid, InPlace, FillingOk, Flatten;
      if initialSeekRunning {
        assert chunk == null && dc.pipe.contents == [];
        initialSeekRunning := false;
        return;
      }
      if seeking {
        seeking := false;
        DiscardStream();
        NothingFlattened();
      }
      dc.command := NoCommand;
    }

    method SeekError()
      requires Valid() && (initialSeekRunning || dc.command == Seek)
      modifies Repr()
      ensures Valid() && Stream() == old(Stream()) && !initialSeekRunning
      ensures !old(initialSeekRunning) ==> dc.seekError && !seeking && dc.command == NoCommand
    {
      hide Carries, MusicPipe.Valid, MusicBuffer.Valid, InPlace, FillingOk, Stream;
      if initialSeekRunning {
        initialSeekRunning := false;
        return;
      }
      dc.seekError := true;
      seeking := false;
      CommandFinished();
    }
  }

  lemma {:induction false} NothingToMix(chunks: seq<MusicChunk>, live: set<MusicChunk>)
    requires forall c <- chunks :: c.other == null && c in live
    requires Distinct(chunks)
    ensures WithOthers(chunks) == chunks && Owned(chunks, live)
  {
    if chunks != [] {
      NothingToMix(chunks[1..], live);
    }
  }

  function Output(data: seq<byte>, conversion: Conversion): seq<byte> {
    match conversion
    case NotNeeded => data
    case Converted(converted) => if data == [] then [] else converted
    case Failed => []
  }
}
