/**
 Who owns which chunk of the music buffer: the decoder thread fills chunks and pushes them to a
 pipe, the player thread takes them, may attach a chunk of the next song to be mixed in, and hands
 them to the outputs; in the end every chunk goes back to the buffer.

 One step of the model is one access of a thread to state it shares with others, so every
 interleaving of the two threads is a sequence of steps.  A pipe is the sequence of its chunks; the
 field `other` of the chunks is a map.  What plugins and outputs answer is an argument of the step.
 */
module ChunkProtocol {
  import opened DecoderCommands
  import opened Wrappers

  /** Index of a chunk in the music buffer. */
  type Chunk = nat

  datatype Memory = Memory(free: set<Chunk>, other: map<Chunk, Chunk>, music: set<Chunk>, tagged: set<Chunk>)
  {
    predicate IsEmpty(c: Chunk) {
      c !in music && c !in tagged
    }

    /** MusicBuffer::Allocate(): a chunk with no data, no tag and nothing attached. */
    function Allocated(c: Chunk): Memory {
      Memory(free - {c}, other - {c}, music - {c}, tagged - {c})
    }

    /** MusicBuffer::Return(): frees the attached chunk too. */
    function Returned(c: Chunk): Memory {
      if c in other then Memory(free + {other[c]} + {c}, other - {c}, music, tagged) else this.(free := free + {c})
    }

    /** The assertion in MusicBuffer::Return(). */
    predicate MayReturn(c: Chunk) {
      c in other ==> other[c] !in other
    }

    /** MusicPipe::Clear() */
    function Cleared(pipe: seq<Chunk>): Memory
      decreases |pipe|
    {
      if pipe == [] then this else Returned(pipe[0]).Cleared(pipe[1..])
    }

    predicate MayClear(pipe: seq<Chunk>)
      decreases |pipe|
    {
      pipe != [] ==> MayReturn(pipe[0]) && Returned(pipe[0]).MayClear(pipe[1..])
    }
  }

  /** Ending: the plugin has returned, decoder_run_song() has not. */
  datatype DecoderPlace = Idle | Decoding | Ending

  /** Which pipe the decoder fills: dc.pipe is null, the player's pipe, or that of the next song. */
  datatype DecoderPipe = NoPipe | PlayerPipe | NextPipe

  /** What the player does once the decoder is stopped. */
  datatype After = ThenContinue | ThenRestart | ThenEnd | ThenGiveUp

  /** Where the player thread is, with the chunks in its local variables. */
  datatype PlayerPlace =
    | Out                                        // not within Player::Run()
    | InLoop
    | PlayNext(crossFade: bool)                  // in PlayNextChunk()
    | TookOther(other: Chunk)
    | TookBoth(chunk: Chunk, toAttach: Option<Chunk>)
    | ToPlay(chunk: Chunk)                       // in play_chunk(), the attached chunk is attached
    | HasSilence(chunk: Chunk)
    | HasShifted(chunk: Chunk)                   // in audio_output_all_check()
    | SawEmptyPipe
    | Stopping(after: After)                     // waiting for the STOP command to finish
    | Stopped(after: After)
    | Starting(giveUp: bool)                     // waiting for the START command to finish
    | Seeking                                    // waiting for the SEEK command to finish

  datatype State = State(
    memory: Memory,
    decoder: DecoderPlace, decoderChunk: Option<Chunk>, command: DecoderCommand, decoderPipe: DecoderPipe,
    pipe: Option<seq<Chunk>>, next: Option<seq<Chunk>>, mp: Option<seq<Chunk>>,
    player: PlayerPlace, fault: bool)
  {
    /** *dc.pipe */
    function FilledPipe(): Option<seq<Chunk>> {
      match decoderPipe
      case NoPipe => None
      case PlayerPipe => pipe
      case NextPipe => next
    }

    function WithFilledPipe(chunks: seq<Chunk>): State {
      match decoderPipe
      case NoPipe => this.(fault := true)
      case PlayerPipe => this.(pipe := Some(chunks))
      case NextPipe => this.(next := Some(chunks))
    }

    /** An assertion of the source. */
    function Assert(condition: bool): State {
      this.(fault := fault || !condition)
    }

    function Return(c: Chunk): State {
      Assert(memory.MayReturn(c)).(memory := memory.Returned(c))
    }
  }

  function Contents(pipe: Option<seq<Chunk>>): seq<Chunk> {
    if pipe.Some? then pipe.value else []
  }

  // ---------------------------------------------------------------------------------------------
  // The decoder thread
  // ---------------------------------------------------------------------------------------------

  /** What the decoder plugin does next. */
  datatype DecoderAction =
    | Allocate(chunk: Chunk)     // decoder_get_chunk() finds a free chunk
    | AddMusic | AddTag          // to the chunk being filled
    | Flush                      // decoder_flush_chunk()
    | FinishSeek(success: bool)  // decoder_command_finished(), decoder_seek_error()
    | Leave                      // the plugin returns
    | HandleCommand(success: bool)

  /** decoder_flush_chunk() */
  function FlushChunk(s: State): State {
    if s.decoderChunk.None? then s
    else
      var c := s.decoderChunk.value;
      var s' := s.(decoderChunk := None);
      if s.memory.IsEmpty(c) then s'.Return(c)
      else if s.FilledPipe().None? then s'.(fault := true)
      else s'.WithFilledPipe(s.FilledPipe().value + [c])
  }

  /** MusicPipe::Clear() on *dc.pipe */
  function ClearFilledPipe(s: State): State {
    if s.FilledPipe().None? then s.(fault := true)
    else
      var chunks := s.FilledPipe().value;
      s.WithFilledPipe([]).Assert(s.memory.MayClear(chunks)).(memory := s.memory.Cleared(chunks))
  }

  /** Throw away what was decoded before a seek. */
  function Discard(s: State): State {
    ClearFilledPipe(if s.decoderChunk.Some? then s.(decoderChunk := None).Return(s.decoderChunk.value) else s)
  }

  /** decoder_run(): it may fail to map the song. */
  function BeginDecoding(s: State, success: bool): State {
    s.(command := NoCommand, decoder := if success then Decoding else Idle)
  }

  function DecoderStep(s: State, a: DecoderAction): State {
    match s.decoder
    case Idle =>
      if !a.HandleCommand? then s else
        (match s.command
         case NoCommand => s
         case Start => BeginDecoding(s, a.success)
         case Seek => BeginDecoding(ClearFilledPipe(s), a.success)
         case Stop => s.(command := NoCommand))
    case Decoding =>
      (match a
       case Allocate(c) =>
         if s.decoderChunk.None? && c in s.memory.free then s.(memory := s.memory.Allocated(c), decoderChunk := Some(c)) else s
       case AddMusic =>
         if s.decoderChunk.Some? then s.(memory := s.memory.(music := s.memory.music + {s.decoderChunk.value})) else s
       case AddTag =>
         if s.decoderChunk.Some? then s.(memory := s.memory.(tagged := s.memory.tagged + {s.decoderChunk.value})) else s
       case Flush => FlushChunk(s)
       case FinishSeek(success) =>
         if s.command != Seek then s else (if success then Discard(s) else s).(command := NoCommand)
       case Leave => s.(decoder := Ending)
       case HandleCommand(_) => s)
    case Ending => if s.decoderChunk.Some? then FlushChunk(s) else s.(decoder := Idle)
  }

  // ---------------------------------------------------------------------------------------------
  // The player thread
  // ---------------------------------------------------------------------------------------------

  /** What the player does next; it may only do what the code allows at its place. */
  datatype PlayerAction =
    | BeginRun
    | BeginPlay(crossFade: bool) | LookAtPipe | BeginNext
    | SendSilence(chunk: Chunk)
    | CheckOutputs                 // audio_output_all_check() removes a consumed chunk
    | OpenOutputs | CloseOutputs | CancelOutputs
    | CancelNext                   // the CANCEL command stops the decoder at the next song
    | SeekAnotherSong | SeekSameSong | SendSeek
    | EndRun
    | Proceed(success: bool)

  /** DecoderControl::Stop() up to its wait. */
  function StopDecoder(s: State, after: After): State {
    if s.decoder == Idle then s.(player := Stopped(after)) else s.(command := Stop, player := Stopping(after))
  }

  /** DecoderControl::Start() on the player's pipe, up to its wait. */
  function StartOnPipe(s: State, giveUp: bool): State {
    s.Assert(s.pipe == Some([])).(decoderPipe := PlayerPipe, command := Start, player := Starting(giveUp))
  }

  /** The rest of Player::StopDecoder(). */
  function WithoutDecoder(s: State): State {
    var cleared := if s.decoderPipe == NoPipe then s else ClearFilledPipe(s);
    cleared.(decoderPipe := NoPipe, next := None)
  }

  /** What follows Player::StopDecoder(). */
  function AfterStop(s: State, after: After): State {
    match after
    case ThenContinue => s.(player := InLoop)
    case ThenRestart => StartOnPipe(ClearPipe(s), false)
    case ThenEnd => ClearPipe(s).(pipe := None, player := Out)
    case ThenGiveUp => s.Assert(s.pipe == Some([])).(pipe := None, player := Out)
  }

  /** pipe->Clear() */
  function ClearPipe(s: State): State {
    var chunks := Contents(s.pipe);
    s.Assert(s.pipe.Some? && s.memory.MayClear(chunks)).(pipe := Some([]), memory := s.memory.Cleared(chunks))
  }

  function ClearOutputs(s: State): State {
    var chunks := Contents(s.mp);
    s.Assert(s.memory.MayClear(chunks)).(memory := s.memory.Cleared(chunks), mp := if s.mp.Some? then Some([]) else None)
  }

  /** What the player may begin at the top of its loop. */
  function Begin(s: State, a: PlayerAction): State {
    match a
    case BeginPlay(crossFade) =>
      if Contents(s.pipe) != [] && s.mp.Some? then s.(player := PlayNext(crossFade && s.decoderPipe == NextPipe)) else s
    case LookAtPipe => if Contents(s.pipe) == [] then s.(player := SawEmptyPipe) else s
    case BeginNext =>
      if s.decoder == Idle && s.decoderPipe == PlayerPipe
      then s.(next := Some([]), decoderPipe := NextPipe, command := Start, player := Starting(false))
      else s
    case SendSilence(c) =>
      if c in s.memory.free && s.mp.Some? then
        var m := s.memory.Allocated(c);
        s.(memory := m.(music := m.music + {c}), player := HasSilence(c))
      else s
    case CheckOutputs =>
      if Contents(s.mp) != [] then s.(mp := Some(s.mp.value[1..]), player := HasShifted(s.mp.value[0])) else s
    case OpenOutputs => if s.mp.None? then s.(mp := Some([])) else s
    case CloseOutputs => ClearOutputs(s).(mp := None)
    case CancelOutputs => ClearOutputs(s)
    case CancelNext => if s.decoderPipe == NextPipe then StopDecoder(s, ThenContinue) else s
    case SeekAnotherSong => StopDecoder(s, ThenRestart)
    case SeekSameSong =>
      // the decoder is busy with the song, under the name of the next one: exchange the pipe
      if s.decoder != Idle && s.decoderPipe == NextPipe
      then ClearPipe(s).(pipe := s.next, next := None, decoderPipe := PlayerPipe)
      else s
    case SendSeek =>
      if s.decoder != Idle && s.decoderPipe == PlayerPipe then s.(command := Seek, player := Seeking) else s
    case EndRun => StopDecoder(s, ThenEnd)
    case _ => s
  }

  function PlayerStep(s: State, a: PlayerAction): State {
    match s.player
    case Out =>
      (match a
       case BeginRun => StartOnPipe(s.(pipe := Some([])), true)
       case CloseOutputs => ClearOutputs(s).(mp := None)
       case CancelOutputs => ClearOutputs(s)
       case _ => s)
    case InLoop => Begin(s, a)

    case PlayNext(crossFade) =>
      if crossFade && s.next.None? then s.(fault := true)
      else if crossFade && s.next.value != [] then
        s.(next := Some(s.next.value[1..]), player := TookOther(s.next.value[0]))
      else if crossFade && a == Proceed(false) then s.(player := InLoop)   // wait for the decoder
      else if Contents(s.pipe) == [] then s.(fault := true)
      else s.(pipe := Some(s.pipe.value[1..]), player := ToPlay(s.pipe.value[0]))
    case TookOther(o) =>
      if Contents(s.pipe) == [] then s.(fault := true)
      else
        // the tag of the next song is postponed
        s.Assert(s.pipe.value[0] !in s.memory.other).(pipe := Some(s.pipe.value[1..]),
          memory := s.memory.(tagged := s.memory.tagged - {o}),
          player := TookBoth(s.pipe.value[0], Some(o)))
    case TookBoth(c, o) =>
      if o.None? then s.(player := ToPlay(c))
      else if s.memory.IsEmpty(o.value) then s.Return(o.value).(player := TookBoth(c, None))
      else s.(memory := s.memory.(other := s.memory.other[c := o.value]), player := ToPlay(c))
    case ToPlay(c) => Play(s, c, a == Proceed(true))
    case HasSilence(c) => Play(s, c, a == Proceed(true))
    case HasShifted(c) => s.Return(c).(player := InLoop)
    case SawEmptyPipe =>
      if s.decoderPipe == NextPipe then   // SongBorder()
        s.Assert(s.pipe == Some([])).(pipe := s.next, next := None, decoderPipe := PlayerPipe, player := InLoop)
      else s.(player := InLoop)

    case Stopping(after) => if s.command == NoCommand then s.(player := Stopped(after)) else s
    case Stopped(after) => AfterStop(WithoutDecoder(s), after)
    case Starting(giveUp) =>
      if s.command != NoCommand then s
      else if giveUp && a == Proceed(false) then StopDecoder(s, ThenGiveUp)
      else s.(player := InLoop)
    case Seeking => if s.command == NoCommand then s.(player := InLoop) else s
  }

  /** play_chunk() with audio_output_all_play(), which fails if no output is open. */
  function Play(s: State, c: Chunk, success: bool): State {
    if s.memory.IsEmpty(c) || !success then s.Return(c).(player := InLoop)
    else if s.mp.None? then s.(fault := true)
    else s.(mp := Some(s.mp.value + [c]), player := InLoop)
  }

  // ---------------------------------------------------------------------------------------------
  // Runs
  // ---------------------------------------------------------------------------------------------

  datatype Action = DecoderRuns(d: DecoderAction) | PlayerRuns(p: PlayerAction)

  function Do(s: State, a: Action): State {
    match a
    case DecoderRuns(d) => DecoderStep(s, d)
    case PlayerRuns(p) => PlayerStep(s, p)
  }

  function Run(s: State, actions: seq<Action>): State
    decreases |actions|
  {
    if actions == [] then s else Do(Run(s, actions[..|actions| - 1]), actions[|actions| - 1])
  }

  function AllChunks(capacity: nat): (chunks: set<Chunk>)
    ensures forall c: nat :: c in chunks <==> c < capacity
  {
    if capacity == 0 then {} else AllChunks(capacity - 1) + {capacity - 1}
  }

  /** No song is playing, and all chunks are free. */
  function Initial(capacity: nat): State {
    State(Memory(AllChunks(capacity), map[], {}, {}), Idle, None, NoCommand, NoPipe, None, None, None, Out, false)
  }
}
